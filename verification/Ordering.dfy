/** Sorting by a strict order, and why a strictly sorted sequence is determined by its elements. */
module Ordering {
  import opened Common

  ghost predicate StrictOrder<T(!new)>(before: (T, T) -> bool) {
    && (forall a :: !before(a, a))
    && (forall a, b, c :: before(a, b) && before(b, c) ==> before(a, c))
  }

  ghost predicate TotalOn<T>(s: seq<T>, before: (T, T) -> bool) {
    forall a, b | a in s && b in s :: a == b || before(a, b) || before(b, a)
  }

  predicate StrictlySorted<T>(s: seq<T>, before: (T, T) -> bool) {
    forall i, j | 0 <= i < j < |s| :: before(s[i], s[j])
  }

  /** Places x behind everything that comes before it. */
  function Inserted<T>(s: seq<T>, x: T, before: (T, T) -> bool): seq<T> {
    if s == [] then [x]
    else if before(x, s[0]) then [x] + s
    else [s[0]] + Inserted(s[1..], x, before)
  }

  function Sorted<T>(s: seq<T>, before: (T, T) -> bool): seq<T> {
    if s == [] then [] else Inserted(Sorted(s[..|s| - 1], before), s[|s| - 1], before)
  }

  lemma {:induction false} InsertedMembers<T>(s: seq<T>, x: T, before: (T, T) -> bool)
    ensures forall y :: y in Inserted(s, x, before) <==> y in s || y == x
  {
    if s != [] && !before(x, s[0]) {
      InsertedMembers(s[1..], x, before);
      assert s == [s[0]] + s[1..];
    }
  }

  lemma {:induction false} InsertedSorted<T(!new)>(s: seq<T>, x: T, before: (T, T) -> bool)
    requires StrictOrder(before) && StrictlySorted(s, before)
    requires x !in s && TotalOn(s + [x], before)
    ensures StrictlySorted(Inserted(s, x, before), before)
  {
    if s != [] {
      var rest := s[1..];
      assert s[0] in s + [x] && x in s + [x];
      if before(x, s[0]) {
        assert forall j | 1 <= j < |s| :: before(s[0], s[j]);
      } else {
        forall a, b | a in rest + [x] && b in rest + [x] ensures a == b || before(a, b) || before(b, a) {
          assert a in s + [x] && b in s + [x];
        }
        InsertedSorted(rest, x, before);
        InsertedMembers(rest, x, before);
        var r := Inserted(rest, x, before);
        forall j | 0 <= j < |r| ensures before(s[0], r[j]) {
          assert r[j] in r;
        }
      }
    }
  }

  /** Sorting distinct, comparable elements keeps them and orders them strictly. */
  lemma {:induction false} SortedSorts<T(!new)>(s: seq<T>, before: (T, T) -> bool)
    requires StrictOrder(before) && Distinct(s) && TotalOn(s, before)
    ensures StrictlySorted(Sorted(s, before), before)
    ensures forall y :: y in Sorted(s, before) <==> y in s
  {
    if s != [] {
      var n := |s| - 1;
      var head := s[..n];
      assert s == head + [s[n]];
      SortedSorts(head, before);
      var t := Sorted(head, before);
      forall a, b | a in t + [s[n]] && b in t + [s[n]] ensures a == b || before(a, b) || before(b, a) {
        assert a in s && b in s;
      }
      InsertedSorted(t, s[n], before);
      InsertedMembers(t, s[n], before);
    }
  }

  /** Two strictly sorted sequences with the same elements are equal. */
  lemma {:induction false} SortedDetermined<T(!new)>(s: seq<T>, t: seq<T>, before: (T, T) -> bool)
    requires StrictOrder(before) && StrictlySorted(s, before) && StrictlySorted(t, before)
    requires forall y :: y in s <==> y in t
    ensures s == t
  {
    SameMembersEmpty(s, t);
    if s != [] {
      assert s[0] in s && t[0] in t;
      HeadFirst(s, t[0], before);
      HeadFirst(t, s[0], before);
      assert s[0] == t[0];
      forall y ensures y in s[1..] <==> y in t[1..] {
        TailMembers(s, y, before);
        TailMembers(t, y, before);
      }
      SortedDetermined(s[1..], t[1..], before);
    }
  }

  lemma HeadFirst<T>(s: seq<T>, x: T, before: (T, T) -> bool)
    requires StrictlySorted(s, before) && x in s
    ensures x == s[0] || before(s[0], x)
  {
    var i :| 0 <= i < |s| && s[i] == x;
  }

  lemma TailMembers<T(!new)>(s: seq<T>, y: T, before: (T, T) -> bool)
    requires s != [] && StrictOrder(before) && StrictlySorted(s, before)
    ensures y in s[1..] <==> y in s && y != s[0]
  {
    if y in s && y != s[0] {
      var i :| 0 <= i < |s| && s[i] == y;
      assert s[1..][i - 1] == y;
    }
    if y in s[1..] {
      var i :| 0 <= i < |s[1..]| && s[1..][i] == y;
      assert before(s[0], s[i + 1]);
    }
  }
}
