/** Datatypes and small notions shared by the models. */
module Common {

  datatype Option<+T> = None | Some(value: T)

  datatype Result<+T, +E> = Success(value: T) | Failure(error: E)

  /** A SHA-256 digest, represented by what was digested: deterministic and collision free. */
  datatype Digest<+T> = Sha256(preimage: T)

  predicate Distinct<T(==)>(s: seq<T>) { forall i, j | 0 <= i < j < |s| :: s[i] != s[j] }

  function One(b: bool): nat { if b then 1 else 0 }

  lemma Member<T>(s: set<T>) returns (x: T)
    requires s != {}
    ensures x in s
  {
    x :| x in s;
  }

  lemma SameMembersEmpty<T>(s: seq<T>, t: seq<T>)
    requires forall x :: x in s <==> x in t
    ensures s == [] <==> t == []
  {
    if s != [] {
      assert s[0] in s;
    }
    if t != [] {
      assert t[0] in t;
    }
  }

  lemma Scaled(k: real, a: real, b: real)
    requires k > 0.0
    ensures a > b <==> a * k > b * k
  {
    if a > b {
      Positive(a - b, k);
    } else if a < b {
      Positive(b - a, k);
    }
  }

  lemma Positive(a: real, b: real)
    requires a > 0.0 && b > 0.0
    ensures a * b > 0.0
  {
  }
}
