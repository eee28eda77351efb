/** The stable sort of the runtime, as insertion from the left, for any total preorder. */
module Sorting {

  ghost predicate TotalPreorder<T(!new)>(le: (T, T) -> bool) {
    && (forall a, b :: le(a, b) || le(b, a))
    && (forall a, b, c :: le(a, b) && le(b, c) ==> le(a, c))
  }

  /** A new element goes after everything it does not precede. */
  function Insert<T>(s: seq<T>, e: T, le: (T, T) -> bool): seq<T> {
    if s == [] || le(s[|s| - 1], e) then s + [e] else Insert(s[..|s| - 1], e, le) + [s[|s| - 1]]
  }

  function Sort<T>(s: seq<T>, le: (T, T) -> bool): seq<T> {
    if s == [] then [] else Insert(Sort(s[..|s| - 1], le), s[|s| - 1], le)
  }

  predicate Sorted<T>(s: seq<T>, le: (T, T) -> bool) {
    forall i, j :: 0 <= i < j < |s| ==> le(s[i], s[j])
  }

  lemma {:induction false} InsertKeepsElements<T>(s: seq<T>, e: T, le: (T, T) -> bool)
    ensures multiset(Insert(s, e, le)) == multiset(s) + multiset{e}
    decreases |s|
  {
    if s != [] && !le(s[|s| - 1], e) {
      assert s == s[..|s| - 1] + [s[|s| - 1]];
      InsertKeepsElements(s[..|s| - 1], e, le);
    }
  }

  lemma {:induction false} InsertKeepsOrdered<T(!new)>(s: seq<T>, e: T, le: (T, T) -> bool)
    requires TotalPreorder(le) && Sorted(s, le)
    ensures Sorted(Insert(s, e, le), le)
    decreases |s|
  {
    if s == [] || le(s[|s| - 1], e) {
      forall i | 0 <= i < |s| ensures le(s[i], e) { assert i < |s| - 1 ==> le(s[i], s[|s| - 1]); }
    } else {
      var init, last := s[..|s| - 1], s[|s| - 1];
      assert le(e, last);
      InsertKeepsOrdered(init, e, le);
      InsertKeepsElements(init, e, le);
      forall i | 0 <= i < |Insert(init, e, le)| ensures le(Insert(init, e, le)[i], last) {
        assert Insert(init, e, le)[i] in multiset(init) + multiset{e};
      }
    }
  }

  /** Sorting orders the elements and keeps every one of them. */
  lemma {:induction false} SortSorts<T(!new)>(s: seq<T>, le: (T, T) -> bool)
    requires TotalPreorder(le)
    ensures Sorted(Sort(s, le), le)
    ensures multiset(Sort(s, le)) == multiset(s)
    decreases |s|
  {
    if s != [] {
      hide Insert;
      SortSorts(s[..|s| - 1], le);
      InsertKeepsOrdered(Sort(s[..|s| - 1], le), s[|s| - 1], le);
      InsertKeepsElements(Sort(s[..|s| - 1], le), s[|s| - 1], le);
      assert s == s[..|s| - 1] + [s[|s| - 1]];
    }
  }

  /** `s` lists `a` somewhere before `b`. */
  predicate Precedes<T(==)>(s: seq<T>, a: T, b: T) {
    exists i, j :: 0 <= i < j < |s| && s[i] == a && s[j] == b
  }

  /** Elements that tie keep their order. */
  lemma {:induction false} SortIsStable<T(!new)>(s: seq<T>, le: (T, T) -> bool, a: T, b: T)
    requires TotalPreorder(le) && Precedes(s, a, b) && le(a, b)
    ensures Precedes(Sort(s, le), a, b)
    decreases |s|
  {
    var init, last := s[..|s| - 1], s[|s| - 1];
    SortSorts(init, le);
    var sorted := Sort(init, le);
    var i, j :| 0 <= i < j < |s| && s[i] == a && s[j] == b;
    if j < |s| - 1 {
      assert init[i] == a && init[j] == b;
      SortIsStable(init, le, a, b);
      InsertKeepsOrder(sorted, last, le, a, b);
    } else {
      assert init[i] == a;
      assert a in multiset(sorted);
      InsertGoesAfter(sorted, last, le, a);
    }
  }

  lemma {:induction false} InsertKeepsOrder<T(!new)>(s: seq<T>, e: T, le: (T, T) -> bool, a: T, b: T)
    requires Precedes(s, a, b)
    ensures Precedes(Insert(s, e, le), a, b)
    decreases |s|
  {
    var i, j :| 0 <= i < j < |s| && s[i] == a && s[j] == b;
    var r := Insert(s, e, le);
    if le(s[|s| - 1], e) {
      assert r[i] == a && r[j] == b;
    } else {
      var init := s[..|s| - 1];
      if j < |s| - 1 {
        assert init[i] == a && init[j] == b;
        InsertKeepsOrder(init, e, le, a, b);
        var k, l :| 0 <= k < l < |Insert(init, e, le)| && Insert(init, e, le)[k] == a && Insert(init, e, le)[l] == b;
        assert r[k] == a && r[l] == b;
      } else {
        InsertHas(init, e, le, i);
        var k :| 0 <= k < |Insert(init, e, le)| && Insert(init, e, le)[k] == init[i];
        assert r[k] == a && r[|r| - 1] == b;
      }
    }
  }

  lemma {:induction false} InsertHas<T(!new)>(s: seq<T>, e: T, le: (T, T) -> bool, i: nat)
    requires i < |s|
    ensures exists k :: 0 <= k < |Insert(s, e, le)| && Insert(s, e, le)[k] == s[i]
    decreases |s|
  {
    var r := Insert(s, e, le);
    if le(s[|s| - 1], e) {
      assert r[i] == s[i];
    } else if i < |s| - 1 {
      InsertHas(s[..|s| - 1], e, le, i);
      var k :| 0 <= k < |Insert(s[..|s| - 1], e, le)| && Insert(s[..|s| - 1], e, le)[k] == s[..|s| - 1][i];
      assert r[k] == s[i];
    } else {
      assert r[|r| - 1] == s[i];
    }
  }

  lemma {:induction false} InsertGoesAfter<T(!new)>(s: seq<T>, e: T, le: (T, T) -> bool, a: T)
    requires TotalPreorder(le) && Sorted(s, le) && a in s && le(a, e)
    ensures Precedes(Insert(s, e, le), a, e)
    decreases |s|
  {
    var i :| 0 <= i < |s| && s[i] == a;
    var r := Insert(s, e, le);
    if le(s[|s| - 1], e) {
      assert r[i] == a && r[|s|] == e;
    } else {
      assert i < |s| - 1;
      assert s[..|s| - 1][i] == a;
      InsertGoesAfter(s[..|s| - 1], e, le, a);
      var k, l :| 0 <= k < l < |Insert(s[..|s| - 1], e, le)| && Insert(s[..|s| - 1], e, le)[k] == a && Insert(s[..|s| - 1], e, le)[l] == e;
      assert r[k] == a && r[l] == e;
    }
  }

  /* ---------- strict order ---------- */

  predicate StrictlySorted<T>(s: seq<T>, le: (T, T) -> bool) {
    forall i, j :: 0 <= i < j < |s| ==> le(s[i], s[j]) && !le(s[j], s[i])
  }

  /** A strictly sorted list is determined by its elements. */
  lemma {:induction false} StrictlySortedIsUnique<T(!new)>(s: seq<T>, t: seq<T>, le: (T, T) -> bool)
    requires StrictlySorted(s, le) && StrictlySorted(t, le)
    requires forall x :: x in s <==> x in t
    ensures s == t
    decreases |s|
  {
    assert s == [] || s[0] in t;
    assert t == [] || t[0] in s;
    if s != [] {
      assert s[|s| - 1] in t;
      var j :| 0 <= j < |t| && t[j] == s[|s| - 1];
      assert t[|t| - 1] in s;
      var i :| 0 <= i < |s| && s[i] == t[|t| - 1];
      assert s[|s| - 1] == t[|t| - 1];
      var s', t' := s[..|s| - 1], t[..|t| - 1];
      forall x ensures x in s' <==> x in t' {
        assert x in s' ==> x in s && x in t;
        assert x in t' ==> x in t && x in s;
      }
      StrictlySortedIsUnique(s', t', le);
      assert s == s' + [s[|s| - 1]] && t == t' + [t[|t| - 1]];
    }
  }

  predicate Ties<T>(a: T, b: T, le: (T, T) -> bool) {
    le(a, b) && le(b, a)
  }

  predicate NoTies<T>(s: seq<T>, le: (T, T) -> bool) {
    forall i, j :: 0 <= i < j < |s| ==> !Ties(s[i], s[j], le)
  }

  lemma {:induction false} InsertStrictly<T(!new)>(s: seq<T>, e: T, le: (T, T) -> bool)
    requires TotalPreorder(le) && StrictlySorted(s, le) && forall i :: 0 <= i < |s| ==> !Ties(s[i], e, le)
    ensures StrictlySorted(Insert(s, e, le), le)
    ensures forall x :: x in Insert(s, e, le) <==> x in s || x == e
    decreases |s|
  {
    if s != [] {
      var init, last := s[..|s| - 1], s[|s| - 1];
      assert s == init + [last] && !Ties(last, e, le);
      if le(last, e) {
        forall i | 0 <= i < |s| ensures le(s[i], e) && !le(e, s[i]) {
          assert !Ties(s[i], e, le);
        }
      } else {
        InsertStrictly(init, e, le);
        forall x | x in Insert(init, e, le) ensures le(x, last) && !le(last, x) {
          assert x in init || x == e;
        }
      }
    }
  }

  /** Without ties the sorted list is strict. */
  lemma {:induction false} SortStrictly<T(!new)>(s: seq<T>, le: (T, T) -> bool)
    requires TotalPreorder(le) && NoTies(s, le)
    ensures StrictlySorted(Sort(s, le), le)
    ensures forall x :: x in Sort(s, le) <==> x in s
    decreases |s|
  {
    if s != [] {
      var init, last := s[..|s| - 1], s[|s| - 1];
      assert s == init + [last];
      SortStrictly(init, le);
      forall i | 0 <= i < |Sort(init, le)| ensures !Ties(Sort(init, le)[i], last, le) {
        assert Sort(init, le)[i] in init;
        var j :| 0 <= j < |init| && init[j] == Sort(init, le)[i];
        assert !Ties(s[j], s[|s| - 1], le);
      }
      InsertStrictly(Sort(init, le), last, le);
    }
  }

  /** Lists without ties that have the same elements sort to the same list. */
  lemma SortForgetsOrder<T(!new)>(s: seq<T>, t: seq<T>, le: (T, T) -> bool)
    requires TotalPreorder(le) && NoTies(s, le) && NoTies(t, le)
    requires forall x :: x in s <==> x in t
    ensures Sort(s, le) == Sort(t, le)
  {
    SortStrictly(s, le);
    SortStrictly(t, le);
    StrictlySortedIsUnique(Sort(s, le), Sort(t, le), le);
  }

  /* ---------- filtering ---------- */

  function Filtered<T>(s: seq<T>, keep: T -> bool): seq<T> {
    if s == [] then [] else Filtered(s[..|s| - 1], keep) + if keep(s[|s| - 1]) then [s[|s| - 1]] else []
  }

  lemma {:induction false} FilteredIsPart<T(!new)>(s: seq<T>, keep: T -> bool)
    ensures forall i :: 0 <= i < |Filtered(s, keep)| ==> Filtered(s, keep)[i] in s
    decreases |s|
  {
    if s != [] {
      FilteredIsPart(s[..|s| - 1], keep);
      assert s == s[..|s| - 1] + [s[|s| - 1]];
    }
  }

  /** What is left of a sorted list also ends below everything the list ends below. */
  lemma FilteredEndsBelow<T(!new)>(s: seq<T>, e: T, le: (T, T) -> bool, keep: T -> bool)
    requires TotalPreorder(le) && Sorted(s, le) && (s == [] || le(s[|s| - 1], e))
    ensures var rest := Filtered(s, keep); rest == [] || le(rest[|rest| - 1], e)
  {
    var rest := Filtered(s, keep);
    FilteredIsPart(s, keep);
    if rest != [] {
      var i :| 0 <= i < |s| && s[i] == rest[|rest| - 1];
      assert i < |s| - 1 ==> le(s[i], s[|s| - 1]);
    }
  }

  lemma FilteredConcat<T>(s: seq<T>, e: T, keep: T -> bool)
    ensures Filtered(s + [e], keep) == if keep(e) then Filtered(s, keep) + [e] else Filtered(s, keep)
  {
    assert (s + [e])[..|s|] == s;
  }

  lemma InsertAtEnd<T>(s: seq<T>, last: T, e: T, le: (T, T) -> bool)
    requires !le(last, e)
    ensures Insert(s + [last], e, le) == Insert(s, e, le) + [last]
  {
    assert (s + [last])[..|s|] == s;
  }

  lemma {:induction false} InsertFiltered<T(!new)>(s: seq<T>, e: T, le: (T, T) -> bool, keep: T -> bool)
    requires TotalPreorder(le) && Sorted(s, le)
    ensures Filtered(Insert(s, e, le), keep) == if keep(e) then Insert(Filtered(s, keep), e, le) else Filtered(s, keep)
    decreases |s|
  {
    if s == [] || le(s[|s| - 1], e) {
      FilteredConcat(s, e, keep);
      FilteredEndsBelow(s, e, le, keep);
    } else {
      var init, last := s[..|s| - 1], s[|s| - 1];
      assert Sorted(init, le);
      hide TotalPreorder, Sorted;
      InsertFiltered(init, e, le, keep);
      FilteredConcat(Insert(init, e, le), last, keep);
      FilteredConcat(init, last, keep);
      assert s == init + [last];
      if keep(last) { InsertAtEnd(Filtered(init, keep), last, e, le); }
    }
  }

  /** A stable sort commutes with leaving elements out. */
  lemma {:induction false} SortFiltered<T(!new)>(s: seq<T>, le: (T, T) -> bool, keep: T -> bool)
    requires TotalPreorder(le)
    ensures Sort(Filtered(s, keep), le) == Filtered(Sort(s, le), keep)
    decreases |s|
  {
    hide *;
    if s == [] {
      NothingToSort(s, le, keep);
    } else {
      SortFiltered(s[..|s| - 1], le, keep);
      SortSorts(s[..|s| - 1], le);
      SortFilteredGoesOn(s[..|s| - 1], s[|s| - 1], le, keep);
      assert s == s[..|s| - 1] + [s[|s| - 1]];
    }
  }

  lemma NothingToSort<T>(s: seq<T>, le: (T, T) -> bool, keep: T -> bool)
    requires s == []
    ensures Sort(Filtered(s, keep), le) == Filtered(Sort(s, le), keep)
  {
  }

  lemma SortFilteredGoesOn<T(!new)>(s: seq<T>, e: T, le: (T, T) -> bool, keep: T -> bool)
    requires TotalPreorder(le) && Sorted(Sort(s, le), le) && Sort(Filtered(s, keep), le) == Filtered(Sort(s, le), keep)
    ensures Sort(Filtered(s + [e], keep), le) == Filtered(Sort(s + [e], le), keep)
  {
    hide *;
    SortConcat(s, e, le);
    InsertFiltered(Sort(s, le), e, le, keep);
    FilteredConcat(s, e, keep);
    if keep(e) { SortConcat(Filtered(s, keep), e, le); }
  }

  lemma SortConcat<T>(s: seq<T>, e: T, le: (T, T) -> bool)
    ensures Sort(s + [e], le) == Insert(Sort(s, le), e, le)
  {
    assert (s + [e])[..|s|] == s;
  }

  lemma {:induction false} FilteredSuffix<T>(s: seq<T>, keep: T -> bool, n: nat)
    requires n <= |s| && forall i :: 0 <= i < |s| ==> (keep(s[i]) <==> n <= i)
    ensures Filtered(s, keep) == s[n..]
    decreases |s|
  {
    if s != [] {
      FilteredSuffix(s[..|s| - 1], keep, if n < |s| then n else n - 1);
      assert n < |s| ==> s[n..] == s[..|s| - 1][n..] + [s[|s| - 1]];
    }
  }

  /* ---------- lexicographic order ---------- */

  /** Code unit by code unit, or byte by byte; a proper prefix comes first. */
  predicate LexLe(a: seq<int>, b: seq<int>) {
    a == [] || (b != [] && (a[0] < b[0] || (a[0] == b[0] && LexLe(a[1..], b[1..]))))
  }

  lemma {:induction false} LexLeIsTotal(a: seq<int>, b: seq<int>)
    ensures LexLe(a, b) || LexLe(b, a)
    decreases |a|
  {
    if a != [] && b != [] && a[0] == b[0] { LexLeIsTotal(a[1..], b[1..]); }
  }

  lemma {:induction false} LexLeIsTransitive(a: seq<int>, b: seq<int>, c: seq<int>)
    requires LexLe(a, b) && LexLe(b, c)
    ensures LexLe(a, c)
    decreases |a|
  {
    if a != [] && a[0] == b[0] == c[0] { LexLeIsTransitive(a[1..], b[1..], c[1..]); }
  }

  lemma {:induction false} LexLeIsStrict(a: seq<int>, b: seq<int>)
    requires LexLe(a, b) && LexLe(b, a)
    ensures a == b
    decreases |a|
  {
    if a != [] {
      LexLeIsStrict(a[1..], b[1..]);
      assert a == [a[0]] + a[1..] && b == [b[0]] + b[1..];
    }
  }
}
