/** Datatypes and sequence functions shared by every other module. */
module Prelude {

  datatype Option<+T> = None | Some(value: T)

  datatype Result<+T, +E> = Ok(value: T) | Err(error: E)

  function Min(a: int, b: int): int {
    if a <= b then a else b
  }

  /** The sum of `weight` over a sequence; counting is the case of 0/1 weights. */
  function Sum<T>(s: seq<T>, weight: T -> int): int {
    if s == [] then 0 else weight(s[0]) + Sum(s[1..], weight)
  }

  lemma {:induction false} SumUpdate<T>(s: seq<T>, i: nat, x: T, weight: T -> int)
    requires i < |s|
    ensures Sum(s[i := x], weight) == Sum(s, weight) - weight(s[i]) + weight(x)
  {
    if i == 0 {
      assert s[0 := x][1..] == s[1..];
    } else {
      SumUpdate(s[1..], i - 1, x, weight);
      assert s[i := x][1..] == s[1..][i - 1 := x];
    }
  }

  lemma {:induction false} SumAppend<T>(s: seq<T>, x: T, weight: T -> int)
    ensures Sum(s + [x], weight) == Sum(s, weight) + weight(x)
  {
    if s == [] {
      assert [x][1..] == [];
    } else {
      SumAppend(s[1..], x, weight);
      assert (s + [x])[1..] == s[1..] + [x];
    }
  }

  /** A sum of non-negative weights is at least any one of its terms. */
  lemma {:induction false} SumAtLeast<T>(s: seq<T>, i: nat, weight: T -> int)
    requires i < |s|
    requires forall x: T <- s :: weight(x) >= 0
    ensures Sum(s, weight) >= weight(s[i]) && Sum(s, weight) >= 0
  {
    SumNonNegative(s[1..], weight);
    if i == 0 {
    } else {
      SumAtLeast(s[1..], i - 1, weight);
    }
  }

  lemma {:induction false} SumNonNegative<T>(s: seq<T>, weight: T -> int)
    requires forall x: T <- s :: weight(x) >= 0
    ensures Sum(s, weight) >= 0
  {
    if s == [] {
    } else {
      SumNonNegative(s[1..], weight);
    }
  }

  /** A positive sum has a positive term. */
  lemma {:induction false} SumPositive<T>(s: seq<T>, weight: T -> int) returns (i: nat)
    requires Sum(s, weight) > 0
    ensures i < |s| && weight(s[i]) > 0
  {
    if weight(s[0]) > 0 {
      i := 0;
    } else {
      i := SumPositive(s[1..], weight);
      i := i + 1;
    }
  }

  /** The elements of `s` that satisfy `p`, in order. */
  function Filter<T>(s: seq<T>, p: T -> bool): seq<T> {
    if s == [] then []
    else if p(s[0]) then [s[0]] + Filter(s[1..], p)
    else Filter(s[1..], p)
  }

  lemma {:induction false} FilterMembers<T>(s: seq<T>, p: T -> bool)
    ensures |Filter(s, p)| <= |s|
    ensures forall x :: x in Filter(s, p) <==> x in s && p(x)
  {
    if s == [] {
    } else {
      FilterMembers(s[1..], p);
      assert s == [s[0]] + s[1..];
    }
  }

  function Map<S, T>(s: seq<S>, f: S -> T): (r: seq<T>)
    ensures |r| == |s|
    ensures forall i :: 0 <= i < |s| ==> r[i] == f(s[i])
  {
    if s == [] then [] else [f(s[0])] + Map(s[1..], f)
  }

  function Flatten<T>(parts: seq<seq<T>>): seq<T> {
    if parts == [] then [] else parts[0] + Flatten(parts[1..])
  }

  lemma {:induction false} FlattenAppend<T>(parts: seq<seq<T>>, part: seq<T>)
    ensures Flatten(parts + [part]) == Flatten(parts) + part
  {
    if parts == [] {
      assert [part][1..] == [];
    } else {
      FlattenAppend(parts[1..], part);
      assert (parts + [part])[1..] == parts[1..] + [part];
    }
  }

  lemma {:induction false} FilterAppend<T>(s: seq<T>, t: seq<T>, p: T -> bool)
    ensures Filter(s + t, p) == Filter(s, p) + Filter(t, p)
  {
    if s == [] {
      assert s + t == t;
    } else {
      FilterAppend(s[1..], t, p);
      assert (s + t)[1..] == s[1..] + t;
    }
  }

  /** Mapping and then filtering, when the map does not move rows in or out of the filter. */
  lemma {:induction false} FilterMapped<T>(s: seq<T>, f: T -> T, p: T -> bool)
    requires forall i :: 0 <= i < |s| ==> p(f(s[i])) == p(s[i])
    ensures Filter(Map(s, f), p) == Map(Filter(s, p), f)
  {
    if s == [] {
    } else {
      assert Map(s, f)[1..] == Map(s[1..], f);
      FilterMapped(s[1..], f, p);
      if p(s[0]) {
        assert Filter(s, p)[1..] == Filter(s[1..], p);
      }
    }
  }

  /** A map that leaves the filtered rows alone leaves the filtered table alone. */
  lemma {:induction false} FilterUntouched<T>(s: seq<T>, f: T -> T, p: T -> bool)
    requires forall i :: 0 <= i < |s| ==> p(f(s[i])) == p(s[i]) && (p(s[i]) ==> f(s[i]) == s[i])
    ensures Filter(Map(s, f), p) == Filter(s, p)
  {
    if s == [] {
    } else {
      assert Map(s, f)[1..] == Map(s[1..], f);
      FilterUntouched(s[1..], f, p);
    }
  }

  lemma {:induction false} FilterSwap<T>(s: seq<T>, p: T -> bool, q: T -> bool)
    ensures Filter(Filter(s, p), q) == Filter(Filter(s, q), p)
  {
    if s == [] {
    } else {
      FilterSwap(s[1..], p, q);
      if p(s[0]) {
        assert Filter(s, p)[1..] == Filter(s[1..], p);
      }
      if q(s[0]) {
        assert Filter(s, q)[1..] == Filter(s[1..], q);
      }
    }
  }

  /** Filtering by `q` removes nothing that `p` keeps. */
  lemma {:induction false} FilterRedundant<T>(s: seq<T>, q: T -> bool, p: T -> bool)
    requires forall i :: 0 <= i < |s| && p(s[i]) ==> q(s[i])
    ensures Filter(Filter(s, q), p) == Filter(s, p)
  {
    if s == [] {
    } else {
      FilterRedundant(s[1..], q, p);
      if q(s[0]) {
        assert Filter(s, q)[1..] == Filter(s[1..], q);
      }
    }
  }

  lemma {:induction false} FilterAll<T>(s: seq<T>, p: T -> bool)
    requires forall i :: 0 <= i < |s| ==> p(s[i])
    ensures Filter(s, p) == s
  {
    if s == [] {
    } else {
      FilterAll(s[1..], p);
    }
  }

  lemma {:induction false} FilterNone<T>(s: seq<T>, p: T -> bool)
    requires forall i :: 0 <= i < |s| ==> !p(s[i])
    ensures Filter(s, p) == []
  {
    if s == [] {
    } else {
      FilterNone(s[1..], p);
    }
  }

  /** Where a filtered element comes from. */
  lemma {:induction false} FilteredIndex<T>(s: seq<T>, p: T -> bool, i: nat) returns (k: nat)
    requires i < |Filter(s, p)|
    ensures k < |s| && s[k] == Filter(s, p)[i] && p(s[k])
  {
    if p(s[0]) && i == 0 {
      k := 0;
    } else {
      k := FilteredIndex(s[1..], p, if p(s[0]) then i - 1 else i);
      k := k + 1;
    }
  }

  lemma MapSnoc<S, T>(s: seq<S>, x: S, f: S -> T)
    ensures Map(s + [x], f) == Map(s, f) + [f(x)]
  {
  }
}
