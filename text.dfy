/** The few `str` operations the configuration checks use. */
module Text {

  /** `s.ends_with(c)` for a single character. */
  predicate EndsWith(s: string, c: char)
  {
    |s| > 0 && s[|s| - 1] == c
  }

  /** Number of occurrences of `c` in `s`. */
  function Count(s: string, c: char): nat
  {
    if s == [] then 0 else (if s[0] == c then 1 else 0) + Count(s[1..], c)
  }

  /** `s.split(sep).collect::<Vec<_>>()`: the pieces between separators, empty ones
      included, so that `""` gives one empty piece and every separator adds a piece. */
  function Split(s: string, sep: char): (parts: seq<string>)
    ensures |parts| == Count(s, sep) + 1
    ensures forall i :: 0 <= i < |parts| ==> sep !in parts[i]
    decreases |s|
  {
    if s == [] then [[]]
    else if s[0] == sep then [[]] + Split(s[1..], sep)
    else
      var rest := Split(s[1..], sep);
      [[s[0]] + rest[0]] + rest[1..]
  }

  /** The pieces put back together with `sep` between neighbours. */
  function Join(parts: seq<string>, sep: char): string
  {
    if parts == [] then []
    else if |parts| == 1 then parts[0]
    else parts[0] + [sep] + Join(parts[1..], sep)
  }

  /** Splitting loses nothing: joining the pieces gives the string back. */
  lemma {:induction false} JoinSplit(s: string, sep: char)
    ensures Join(Split(s, sep), sep) == s
    decreases |s|
  {
    if s == [] {
    } else if s[0] == sep {
      JoinSplit(s[1..], sep);
      assert s == [sep] + s[1..];
    } else {
      var rest := Split(s[1..], sep);
      JoinSplit(s[1..], sep);
      if |rest| == 1 {
        assert s == [s[0]] + rest[0];
      } else {
        assert rest == [rest[0]] + rest[1..];
        assert Join(rest, sep) == rest[0] + [sep] + Join(rest[1..], sep);
        assert s == [s[0]] + rest[0] + [sep] + Join(rest[1..], sep);
      }
    }
  }

  /** `c` occurs exactly once in `s` when `s` is `a + [c] + b` with no `c` in `a` or `b`. */
  lemma {:induction false} CountOnce(s: string, c: char)
    ensures Count(s, c) == 1 <==> exists i :: 0 <= i < |s| && s[i] == c && c !in s[..i] && c !in s[i + 1..]
    decreases |s|
  {
    if s != [] {
      CountOnce(s[1..], c);
      CountZero(s[1..], c);
      if Count(s, c) == 1 {
        if s[0] == c {
          assert s[..0] == [] && s[1..] == s[0 + 1..];
        } else {
          var i :| 0 <= i < |s[1..]| && s[1..][i] == c && c !in s[1..][..i] && c !in s[1..][i + 1..];
          assert s[..i + 1] == [s[0]] + s[1..][..i];
          assert s[i + 2..] == s[1..][i + 1..];
        }
      }
    }
  }

  /** No occurrence counted means no occurrence at all. */
  lemma {:induction false} CountZero(s: string, c: char)
    ensures Count(s, c) == 0 <==> c !in s
    decreases |s|
  {
    if s != [] {
      CountZero(s[1..], c);
      assert s == [s[0]] + s[1..];
    }
  }

  /** Number of bytes of the UTF-8 encoding of `c` (what Rust's `str::len` counts). */
  function Utf8Width(c: char): nat
  {
    if c as int < 0x80 then 1
    else if c as int < 0x800 then 2
    else if c as int < 0x1_0000 then 3
    else 4
  }

  /** `s.len()` in Rust: the length of `s` in UTF-8 bytes. */
  function Utf8Len(s: string): (n: nat)
    ensures |s| <= n <= 4 * |s|
  {
    if s == [] then 0 else Utf8Width(s[0]) + Utf8Len(s[1..])
  }
}
