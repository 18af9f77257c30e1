/** Semantic versions and their precedence (section 11 of the Semantic Versioning 2.0.0
    specification), as the `semver` crate's `Version` orders them. Build metadata takes
    no part in precedence and is not represented. */
module Versions {
  import opened Lexical

  /** A pre-release identifier: numeric ones compare by value and sort before alphanumeric ones. */
  datatype Identifier = Numeric(n: nat) | AlphaNumeric(s: string)

  datatype Version = Version(major: nat, minor: nat, patch: nat, pre: seq<Identifier>)

  datatype Cmp = Lt | Eq | Gt {
    function Flip(): Cmp
    {
      match this
      case Lt => Gt
      case Eq => Eq
      case Gt => Lt
    }
  }

  function CompareNat(a: nat, b: nat): Cmp
  {
    if a < b then Lt else if a == b then Eq else Gt
  }

  function CompareString(a: string, b: string): Cmp
  {
    if Less(a, b) then Lt else if a == b then Eq else Gt
  }

  function CompareIdentifier(a: Identifier, b: Identifier): Cmp
  {
    match (a, b)
    case (Numeric(x), Numeric(y)) => CompareNat(x, y)
    case (Numeric(_), AlphaNumeric(_)) => Lt
    case (AlphaNumeric(_), Numeric(_)) => Gt
    case (AlphaNumeric(x), AlphaNumeric(y)) => CompareString(x, y)
  }

  /** Identifier lists compare element by element; a proper prefix comes first. */
  function ComparePre(a: seq<Identifier>, b: seq<Identifier>): Cmp
    decreases |a|
  {
    if a == [] && b == [] then Eq
    else if a == [] then Lt
    else if b == [] then Gt
    else if CompareIdentifier(a[0], b[0]) != Eq then CompareIdentifier(a[0], b[0])
    else ComparePre(a[1..], b[1..])
  }

  /** Precedence: major, minor, patch, then a release is above any of its pre-releases. */
  function Compare(a: Version, b: Version): Cmp
  {
    if CompareNat(a.major, b.major) != Eq then CompareNat(a.major, b.major)
    else if CompareNat(a.minor, b.minor) != Eq then CompareNat(a.minor, b.minor)
    else if CompareNat(a.patch, b.patch) != Eq then CompareNat(a.patch, b.patch)
    else if a.pre == [] && b.pre == [] then Eq
    else if a.pre == [] then Gt
    else if b.pre == [] then Lt
    else ComparePre(a.pre, b.pre)
  }

  /** `a > b` on `semver::Version`. */
  predicate Greater(a: Version, b: Version)
  {
    Compare(a, b) == Gt
  }

  lemma CompareStringFlip(a: string, b: string)
    ensures CompareString(a, b) == CompareString(b, a).Flip()
    ensures CompareString(a, b) == Eq <==> a == b
  {
    LessIrreflexive(a);
    if Less(a, b) {
      LessAsymmetric(a, b);
    } else if a != b {
      LessTotal(a, b);
    }
  }

  lemma CompareIdentifierFlip(a: Identifier, b: Identifier)
    ensures CompareIdentifier(a, b) == CompareIdentifier(b, a).Flip()
    ensures CompareIdentifier(a, b) == Eq <==> a == b
  {
    if a.AlphaNumeric? && b.AlphaNumeric? {
      CompareStringFlip(a.s, b.s);
    }
  }

  lemma {:induction false} ComparePreFlip(a: seq<Identifier>, b: seq<Identifier>)
    ensures ComparePre(a, b) == ComparePre(b, a).Flip()
    ensures ComparePre(a, b) == Eq <==> a == b
    decreases |a|
  {
    if a != [] && b != [] {
      CompareIdentifierFlip(a[0], b[0]);
      ComparePreFlip(a[1..], b[1..]);
      assert a == [a[0]] + a[1..] && b == [b[0]] + b[1..];
    }
  }

  /** Precedence is antisymmetric, and two versions are of equal precedence
      exactly when they are the same version. */
  lemma CompareFlip(a: Version, b: Version)
    ensures Compare(a, b) == Compare(b, a).Flip()
    ensures Compare(a, b) == Eq <==> a == b
  {
    ComparePreFlip(a.pre, b.pre);
  }
}
