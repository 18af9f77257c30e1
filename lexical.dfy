/** The order in which a Rust `BTreeMap<String, _>` visits its keys.
    `Ord for String` compares the UTF-8 bytes lexicographically, which orders
    strings exactly as comparing their code points lexicographically does. */
module Lexical {
  import opened Wrappers

  /** Strict lexicographic order on strings; a proper prefix comes first. */
  predicate Less(a: string, b: string)
    decreases |a|
  {
    if a == [] then b != []
    else b != [] && (a[0] < b[0] || (a[0] == b[0] && Less(a[1..], b[1..])))
  }

  lemma {:induction false} LessIrreflexive(a: string)
    ensures !Less(a, a)
    decreases |a|
  {
    if a != [] {
      LessIrreflexive(a[1..]);
    }
  }

  lemma {:induction false} LessAsymmetric(a: string, b: string)
    requires Less(a, b)
    ensures !Less(b, a)
    decreases |a|
  {
    if a != [] && b != [] && a[0] == b[0] {
      LessAsymmetric(a[1..], b[1..]);
    }
  }

  lemma {:induction false} LessTransitive(a: string, b: string, c: string)
    requires Less(a, b) && Less(b, c)
    ensures Less(a, c)
    decreases |a|
  {
    if a != [] && a[0] == b[0] && b[0] == c[0] {
      LessTransitive(a[1..], b[1..], c[1..]);
    }
  }

  lemma {:induction false} LessTotal(a: string, b: string)
    requires a != b
    ensures Less(a, b) || Less(b, a)
    decreases |a|
  {
    if a != [] && b != [] && a[0] == b[0] {
      assert a == [a[0]] + a[1..] && b == [b[0]] + b[1..];
      LessTotal(a[1..], b[1..]);
    }
  }

  lemma LessAsymmetricAll()
    ensures forall a, b :: Less(a, b) ==> !Less(b, a)
  {
    forall a, b | Less(a, b) ensures !Less(b, a) {
      LessAsymmetric(a, b);
    }
  }

  /** Keys visited in strictly increasing order. */
  predicate StrictlySorted(keys: seq<string>)
  {
    forall i, j :: 0 <= i < j < |keys| ==> Less(keys[i], keys[j])
  }

  /** No key is visited twice. */
  predicate Distinct<T(==)>(xs: seq<T>)
  {
    forall i, j :: 0 <= i < j < |xs| ==> xs[i] != xs[j]
  }

  lemma SortedIsDistinct(keys: seq<string>)
    requires StrictlySorted(keys)
    ensures Distinct(keys)
  {
    forall i, j | 0 <= i < j < |keys| ensures keys[i] != keys[j] {
      LessIrreflexive(keys[i]);
    }
  }

  lemma {:induction false} LeastExists(s: set<string>)
    requires s != {}
    ensures exists m :: m in s && forall x :: x in s && x != m ==> Less(m, x)
    decreases |s|
  {
    var y :| y in s;
    if s == {y} {
      assert forall x :: x in s && x != y ==> Less(y, x);
    } else {
      LeastExists(s - {y});
      var m :| m in s - {y} && forall x :: x in s - {y} && x != m ==> Less(m, x);
      if Less(y, m) {
        forall x | x in s && x != y ensures Less(y, x) {
          if x != m {
            LessTransitive(y, m, x);
          }
        }
      } else {
        LessTotal(y, m);
        assert forall x :: x in s && x != m ==> Less(m, x);
      }
    }
  }

  /** The smallest key of a non-empty key set. */
  function Least(s: set<string>): (m: string)
    requires s != {}
    ensures m in s
    ensures forall x :: x in s && x != m ==> Less(m, x)
  {
    LeastExists(s);
    LessAsymmetricAll();
    var m :| m in s && forall x :: x in s && x != m ==> Less(m, x);
    m
  }

  /** The keys of a `BTreeMap` in iteration order (`map.keys()`): each key once
      (`SortedKeysSorted` proves the order). */
  function SortedKeys(s: set<string>): (keys: seq<string>)
    ensures forall k :: k in keys <==> k in s
    ensures |keys| == |s|
    decreases |s|
  {
    if s == {} then []
    else
      var m := Least(s);
      [m] + SortedKeys(s - {m})
  }

  /** `SortedKeys` lists the keys in increasing order, hence without repetition. */
  lemma {:induction false} SortedKeysSorted(s: set<string>)
    ensures StrictlySorted(SortedKeys(s))
    ensures Distinct(SortedKeys(s))
    decreases |s|
  {
    if s != {} {
      var m := Least(s);
      var rest := SortedKeys(s - {m});
      SortedKeysSorted(s - {m});
      assert SortedKeys(s) == [m] + rest;
      assert forall j :: 0 <= j < |rest| ==> rest[j] in rest && rest[j] in s - {m};
    }
    SortedIsDistinct(SortedKeys(s));
  }

  lemma FirstFailureOverSorted<E>(keys: seq<string>, s: set<string>, check: string -> Outcome<E>)
    requires StrictlySorted(keys)
    requires forall k :: k in keys <==> k in s
    ensures var r := FirstFailure(keys, check);
      && (r.Pass? <==> forall k :: k in s ==> check(k).Pass?)
      && (r.Fail? ==> exists k :: k in s && check(k) == r &&
                        forall j :: j in s && Less(j, k) ==> check(j).Pass?)
  {
    var r := FirstFailure(keys, check);
    if !(forall k :: k in s ==> check(k).Pass?) {
      var k :| k in s && check(k).Fail?;
      assert k in keys;
    }
    if r.Fail? {
      var i :| 0 <= i < |keys| && check(keys[i]) == r && forall j :: 0 <= j < i ==> check(keys[j]).Pass?;
      forall j | j in s && Less(j, keys[i]) ensures check(j).Pass? {
        assert j in keys;
        var m :| 0 <= m < |keys| && keys[m] == j;
        if m == i {
          LessIrreflexive(j);
        } else if m > i {
          LessAsymmetric(j, keys[i]);
        }
      }
    }
  }

  /** A check run over the keys of a map in `BTreeMap` order passes exactly when it passes
      for every key, and otherwise reports the failure of the smallest failing key. */
  lemma FirstFailureInKeyOrder<E>(s: set<string>, check: string -> Outcome<E>)
    ensures var r := FirstFailure(SortedKeys(s), check);
      && (r.Pass? <==> forall k :: k in s ==> check(k).Pass?)
      && (r.Fail? ==> exists k :: k in s && check(k) == r &&
                        forall j :: j in s && Less(j, k) ==> check(j).Pass?)
  {
    SortedKeysSorted(s);
    FirstFailureOverSorted(SortedKeys(s), s, check);
  }

  /** `for (k, v) in &map { check(k, v)? }` over a `BTreeMap`: the first failing entry in
      key order decides. */
  function ForEachEntry<V, E>(m: map<string, V>, check: (string, V) -> Outcome<E>): (r: Outcome<E>)
    ensures r.Pass? <==> forall k :: k in m ==> check(k, m[k]).Pass?
    ensures r.Fail? ==> exists k :: k in m && r == check(k, m[k]) &&
                          forall j :: j in m && Less(j, k) ==> check(j, m[j]).Pass?
  {
    var entry := k => if k in m then check(k, m[k]) else Pass;
    FirstFailureInKeyOrder(m.Keys, entry);
    FirstFailure(SortedKeys(m.Keys), entry)
  }

  /** A sequence without repetition has as many elements as the set of its elements. */
  lemma {:induction false} DistinctSize(xs: seq<string>)
    requires Distinct(xs)
    ensures |set x | x in xs| == |xs|
  {
    if xs != [] {
      var rest := xs[1..];
      assert forall i, j :: 0 <= i < j < |rest| ==> rest[i] == xs[i + 1] && rest[j] == xs[j + 1];
      DistinctSize(rest);
      assert xs[0] !in rest;
      assert (set x | x in xs) == {xs[0]} + (set x | x in rest);
    }
  }
}
