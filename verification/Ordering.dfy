/** ORDER BY, LIMIT and OFFSET. */
module Ordering {
  import opened Prelude

  /** A stable ORDER BY: rows with equal keys keep the order they come in. */
  function SortBy<T>(s: seq<T>, key: T -> real): seq<T> {
    if s == [] then [] else Insert(s[0], SortBy(s[1..], key), key)
  }

  function Insert<T>(x: T, s: seq<T>, key: T -> real): seq<T> {
    if s == [] then [x]
    else if key(x) <= key(s[0]) then [x] + s
    else [s[0]] + Insert(x, s[1..], key)
  }

  /** LIMIT and OFFSET. */
  function Window<T>(s: seq<T>, limit: nat, offset: nat): seq<T> {
    s[Min(offset, |s|)..Min(offset + limit, |s|)]
  }

  lemma WindowOfMap<S, T>(s: seq<S>, f: S -> T, limit: nat, offset: nat)
    ensures Map(Window(s, limit, offset), f) == Window(Map(s, f), limit, offset)
  {
  }

  lemma WindowsMeet<T>(s: seq<T>, limit: nat, offset: nat)
    ensures Window(s, offset, 0) + Window(s, limit, offset) == Window(s, offset + limit, 0)
  {
  }

  ghost predicate Sorted<T>(s: seq<T>, key: T -> real) {
    forall i, k :: 0 <= i <= k < |s| ==> key(s[i]) <= key(s[k])
  }

  lemma {:induction false} InsertSorted<T>(x: T, s: seq<T>, key: T -> real)
    requires Sorted(s, key)
    ensures Sorted(Insert(x, s, key), key)
    ensures |Insert(x, s, key)| == |s| + 1
    ensures key(Insert(x, s, key)[0]) == key(x) || (s != [] && Insert(x, s, key)[0] == s[0])
  {
    if s == [] || key(x) <= key(s[0]) {
    } else {
      InsertSorted(x, s[1..], key);
      var r := Insert(x, s[1..], key);
      assert |s| > 1 ==> s[1..][0] == s[1] && key(s[0]) <= key(s[1]);
      assert key(s[0]) <= key(r[0]);
    }
  }

  lemma {:induction false} SortBySorted<T>(s: seq<T>, key: T -> real)
    ensures Sorted(SortBy(s, key), key) && |SortBy(s, key)| == |s|
  {
    if s == [] {
    } else {
      SortBySorted(s[1..], key);
      InsertSorted(s[0], SortBy(s[1..], key), key);
    }
  }

  lemma {:induction false} InsertPermutes<T>(x: T, s: seq<T>, key: T -> real)
    ensures multiset(Insert(x, s, key)) == multiset(s) + multiset{x}
  {
    if s == [] {
    } else {
      assert s == [s[0]] + s[1..];
      if key(x) > key(s[0]) {
        InsertPermutes(x, s[1..], key);
      }
    }
  }

  /** ORDER BY loses no row and makes none up. */
  lemma {:induction false} SortByPermutes<T>(s: seq<T>, key: T -> real)
    ensures multiset(SortBy(s, key)) == multiset(s)
  {
    if s == [] {
    } else {
      SortByPermutes(s[1..], key);
      InsertPermutes(s[0], SortBy(s[1..], key), key);
      assert s == [s[0]] + s[1..];
    }
  }

  lemma SortMembers<T>(s: seq<T>, key: T -> real)
    ensures |SortBy(s, key)| == |s| && forall x :: x in SortBy(s, key) <==> x in s
  {
    SortBySorted(s, key);
    SortByPermutes(s, key);
    forall x ensures x in SortBy(s, key) <==> x in s {
      assert x in SortBy(s, key) <==> x in multiset(SortBy(s, key));
      assert x in s <==> x in multiset(s);
    }
  }

  lemma {:induction false} FilterInsert<T>(x: T, s: seq<T>, key: T -> real, p: T -> bool)
    requires Sorted(s, key)
    ensures Filter(Insert(x, s, key), p) == if p(x) then Insert(x, Filter(s, p), key) else Filter(s, p)
  {
    if s == [] {
      assert [x][1..] == [];
    } else if key(x) <= key(s[0]) {
      assert ([x] + s)[1..] == s;
      if Filter(s, p) != [] {
        var k := FilteredIndex(s, p, 0);
        assert key(s[0]) <= key(s[k]);
      }
    } else {
      FilterInsert(x, s[1..], key, p);
      assert Insert(x, s, key)[1..] == Insert(x, s[1..], key);
      if p(s[0]) {
        assert Filter(s, p)[1..] == Filter(s[1..], p);
      }
    }
  }

  /** WHERE and a stable ORDER BY commute. */
  lemma {:induction false} FilterSort<T>(s: seq<T>, key: T -> real, p: T -> bool)
    ensures Filter(SortBy(s, key), p) == SortBy(Filter(s, p), key)
  {
    if s == [] {
    } else {
      FilterSort(s[1..], key, p);
      SortBySorted(s[1..], key);
      FilterInsert(s[0], SortBy(s[1..], key), key, p);
      if p(s[0]) {
        assert Filter(s, p)[1..] == Filter(s[1..], p);
      }
    }
  }

  /** Filtering by a property that, once false, stays false leaves a prefix. */
  lemma {:induction false} FilterPrefix<T>(s: seq<T>, p: T -> bool)
    requires forall i, k :: 0 <= i <= k < |s| && p(s[k]) ==> p(s[i])
    ensures Filter(s, p) <= s
  {
    if s == [] {
    } else {
      FilterPrefix(s[1..], p);
      if !p(s[0]) {
        FilterNone(s, p);
      }
    }
  }

  /** ORDER BY leaves rows alone that are in order already. */
  lemma {:induction false} SortOfSorted<T>(s: seq<T>, key: T -> real)
    requires Sorted(s, key)
    ensures SortBy(s, key) == s
  {
    if s == [] {
    } else {
      SortOfSorted(s[1..], key);
      assert |s| > 1 ==> key(s[0]) <= key(s[1]);
    }
  }

  lemma {:induction false} InsertElement<T>(x: T, s: seq<T>, key: T -> real, i: nat) returns (k: int)
    requires i < |Insert(x, s, key)|
    ensures -1 <= k < |s| && Insert(x, s, key)[i] == if k == -1 then x else s[k]
  {
    if s == [] {
      k := -1;
    } else if key(x) <= key(s[0]) {
      k := i - 1;
    } else if i == 0 {
      k := 0;
    } else {
      k := InsertElement(x, s[1..], key, i - 1);
      k := if k == -1 then -1 else k + 1;
    }
  }

  lemma {:induction false} SortElement<T>(s: seq<T>, key: T -> real, i: nat) returns (k: nat)
    requires i < |SortBy(s, key)|
    ensures k < |s| && SortBy(s, key)[i] == s[k]
  {
    var j := InsertElement(s[0], SortBy(s[1..], key), key, i);
    if j == -1 {
      k := 0;
    } else {
      k := SortElement(s[1..], key, j);
      k := k + 1;
    }
  }
}
