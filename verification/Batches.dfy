/** Index bookkeeping for one batch: every index has exactly one fate, and each work list
  * holds precisely the indices with one fate, without repetition. */
module Batches {

  datatype Fate = Fresh | Done | Waiting | InFlight | Doomed

  ghost predicate Lists<F>(s: seq<nat>, fate: seq<F>, f: F) {
    && (forall j :: 0 <= j < |s| ==> s[j] < |fate| && fate[s[j]] == f)
    && (forall i, j :: 0 <= i < j < |s| ==> s[i] != s[j])
    && (forall i :: 0 <= i < |fate| && fate[i] == f ==> i in s)
  }

  /** An index leaves the list of its fate and joins the list of another. */
  lemma Move<F>(a: seq<nat>, idx: nat, b: seq<nat>, t: seq<nat>, fate: seq<F>, f: F, g: F)
    requires Lists(a + [idx] + b, fate, f) && Lists(t, fate, g) && f != g
    ensures idx < |fate| && fate[idx] == f
    ensures Lists(a + b, fate[idx := g], f)
    ensures Lists(t + [idx], fate[idx := g], g)
  {
    var s, rest := a + [idx] + b, a + b;
    assert s[|a|] == idx;
    var next := fate[idx := g];
    forall j | 0 <= j < |rest| ensures rest[j] < |fate| && next[rest[j]] == f {
      assert rest[j] == s[if j < |a| then j else j + 1];
    }
    forall i, j | 0 <= i < j < |rest| ensures rest[i] != rest[j] {
      assert rest[i] == s[if i < |a| then i else i + 1] && rest[j] == s[if j < |a| then j else j + 1];
    }
    forall i | 0 <= i < |next| && next[i] == f ensures i in rest {
      var j :| 0 <= j < |s| && s[j] == i;
      assert rest[if j < |a| then j else j - 1] == i;
    }
    forall i | 0 <= i < |next| && next[i] == g ensures i in t + [idx] {
      if i == idx {
        assert (t + [idx])[|t|] == i;
      } else {
        assert i in t;
      }
    }
  }

  lemma MoveHead<F>(idx: nat, b: seq<nat>, t: seq<nat>, fate: seq<F>, f: F, g: F)
    requires Lists([idx] + b, fate, f) && Lists(t, fate, g) && f != g
    ensures idx < |fate| && fate[idx] == f
    ensures Lists(b, fate[idx := g], f)
    ensures Lists(t + [idx], fate[idx := g], g)
  {
    assert [] + [idx] + b == [idx] + b && [] + b == b;
    Move([], idx, b, t, fate, f, g);
  }

  /** An index that is in no list joins one. */
  lemma Join<F>(idx: nat, t: seq<nat>, fate: seq<F>, g: F)
    requires idx < |fate| && fate[idx] != g && Lists(t, fate, g)
    ensures Lists(t + [idx], fate[idx := g], g)
  {
    forall i | 0 <= i < |fate| && fate[idx := g][i] == g ensures i in t + [idx] {
      if i == idx {
        assert (t + [idx])[|t|] == i;
      } else {
        assert i in t;
      }
    }
  }

  /** The head of a list takes a fate that has no list. */
  lemma Finish<F>(idx: nat, b: seq<nat>, fate: seq<F>, f: F, g: F)
    requires f != g && Lists([idx] + b, fate, f)
    ensures idx < |fate| && fate[idx] == f
    ensures Lists(b, fate[idx := g], f)
  {
    var s := [idx] + b;
    assert s[0] == idx;
    forall j | 0 <= j < |b| ensures b[j] < |fate| && b[j] != idx && fate[b[j]] == f {
      assert b[j] == s[j + 1];
    }
    forall i, j | 0 <= i < j < |b| ensures b[i] != b[j] {
      assert b[i] == s[i + 1] && b[j] == s[j + 1];
    }
    forall i | 0 <= i < |fate| && fate[idx := g][i] == f ensures i in b {
      assert i in s;
    }
  }

  /** Lists of the other fates are untouched. */
  lemma Frame<F>(u: seq<nat>, idx: nat, fate: seq<F>, g: F, h: F)
    requires idx < |fate| && fate[idx] != h && g != h && Lists(u, fate, h)
    ensures Lists(u, fate[idx := g], h)
  {
    var next := fate[idx := g];
    forall i | 0 <= i < |next| && next[i] == h ensures i in u {
      assert fate[i] == h;
    }
  }

  ghost function Elems(s: seq<nat>): set<nat> {
    set x | x in s
  }

  function Below(n: nat): (s: set<nat>)
    ensures forall x: nat :: x in s <==> x < n
  {
    if n == 0 then {} else Below(n - 1) + {n - 1}
  }

  /** A list of distinct indices below n that misses one of them has room for it. */
  lemma {:induction false} Room(s: seq<nat>, n: nat, missing: nat)
    requires forall j :: 0 <= j < |s| ==> s[j] < n && s[j] != missing
    requires forall i, j :: 0 <= i < j < |s| ==> s[i] != s[j]
    requires missing < n
    ensures |s| < n
  {
    DistinctCount(s);
    BelowCount(n);
    SubsetCount(Elems(s), Below(n) - {missing});
  }

  lemma {:induction false} DistinctCount(s: seq<nat>)
    requires forall i, j :: 0 <= i < j < |s| ==> s[i] != s[j]
    ensures |Elems(s)| == |s|
  {
    if s == [] {
      assert Elems(s) == {};
    } else {
      DistinctCount(s[1..]);
      assert Elems(s) == {s[0]} + Elems(s[1..]);
      assert s[0] !in Elems(s[1..]);
    }
  }

  lemma {:induction false} BelowCount(n: nat)
    ensures |Below(n)| == n
  {
    if n > 0 {
      BelowCount(n - 1);
      assert Below(n) == {n - 1} + Below(n - 1);
    }
  }

  lemma SubsetCount<T>(a: set<T>, b: set<T>)
    requires a <= b
    ensures |a| <= |b|
  {
    assert b == a + (b - a);
  }

  function Flatten<T>(ss: seq<seq<T>>): seq<T> {
    if ss == [] then [] else Flatten(ss[..|ss| - 1]) + ss[|ss| - 1]
  }

  lemma FlattenAppend<T>(ss: seq<seq<T>>, s: seq<T>)
    ensures Flatten(ss + [s]) == Flatten(ss) + s
  {
    assert (ss + [s])[..|ss|] == ss;
  }
}
