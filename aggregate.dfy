/** Draining the channel into the per-magazine map, collecting the map's keys,
    and sorting them stably by article count. */
module Aggregate {
  import opened Fetch

  /** The map after the channel has been drained in the given arrival order:
      each value overwrites whatever an earlier value stored under its key. */
  function LastWrite(arrivals: seq<MagazineData>): map<string, nat>
  {
    if arrivals == [] then map[]
    else
      var n := |arrivals| - 1;
      LastWrite(arrivals[..n])[arrivals[n].magazine := arrivals[n].ingestedArticles]
  }

  /** The draining loop `allMagData[v.Magazine] = v.IngestedArticles`. */
  method Gather(arrivals: seq<MagazineData>) returns (m: map<string, nat>)
    ensures m == LastWrite(arrivals)
  {
    m := map[];
    for i := 0 to |arrivals|
      invariant m == LastWrite(arrivals[..i])
    {
      assert arrivals[..i + 1][..i] == arrivals[..i];
      m := m[arrivals[i].magazine := arrivals[i].ingestedArticles];
    }
    assert arrivals[..|arrivals|] == arrivals;
  }

  /** The map's keys are exactly the magazines that arrived. */
  lemma {:induction false} LastWriteKeys(arrivals: seq<MagazineData>)
    ensures forall k :: k in LastWrite(arrivals) <==> exists i :: 0 <= i < |arrivals| && arrivals[i].magazine == k
  {
    if arrivals != [] {
      var n := |arrivals| - 1;
      LastWriteKeys(arrivals[..n]);
      assert forall i :: 0 <= i < n ==> arrivals[..n][i] == arrivals[i];
    }
  }

  /** Each key holds the count of the last arrival with that key. */
  lemma {:induction false} LastWriteValue(arrivals: seq<MagazineData>, i: nat)
    requires i < |arrivals|
    requires forall j :: i < j < |arrivals| ==> arrivals[j].magazine != arrivals[i].magazine
    ensures arrivals[i].magazine in LastWrite(arrivals)
    ensures LastWrite(arrivals)[arrivals[i].magazine] == arrivals[i].ingestedArticles
  {
    var n := |arrivals| - 1;
    if i < n {
      LastWriteValue(arrivals[..n], i);
    }
  }

  /** There are never more keys than arrivals. */
  lemma {:induction false} LastWriteSize(arrivals: seq<MagazineData>)
    ensures |LastWrite(arrivals)| <= |arrivals|
  {
    if arrivals != [] {
      var n := |arrivals| - 1;
      var m := LastWrite(arrivals[..n]);
      LastWriteSize(arrivals[..n]);
      var k := arrivals[n].magazine;
      if k in m {
        assert m[k := arrivals[n].ingestedArticles].Keys == m.Keys;
      } else {
        assert m[k := arrivals[n].ingestedArticles].Keys == m.Keys + {k};
      }
    }
  }

  /** When no two arrivals share a magazine, the arrival order does not matter:
      any two orders of the same values give the same map. */
  lemma ArrivalOrderIrrelevant(a: seq<MagazineData>, b: seq<MagazineData>)
    requires multiset(a) == multiset(b)
    requires forall i, j :: 0 <= i < j < |a| ==> a[i].magazine != a[j].magazine
    requires forall i, j :: 0 <= i < j < |b| ==> b[i].magazine != b[j].magazine
    ensures LastWrite(a) == LastWrite(b)
  {
    LastWriteKeys(a);
    LastWriteKeys(b);
    forall k | k in LastWrite(a)
      ensures k in LastWrite(b) && LastWrite(a)[k] == LastWrite(b)[k]
    {
      var i :| 0 <= i < |a| && a[i].magazine == k;
      assert a[i] in multiset(b);
      var j :| 0 <= j < |b| && b[j] == a[i];
      LastWriteValue(a, i);
      LastWriteValue(b, j);
    }
    forall k | k in LastWrite(b) ensures k in LastWrite(a)
    {
      var j :| 0 <= j < |b| && b[j].magazine == k;
      assert b[j] in multiset(a);
      var i :| 0 <= i < |a| && a[i] == b[j];
    }
  }

  /** `allMagData[key]`: Go yields the zero value for a missing key. */
  function Count(m: map<string, nat>, k: string): nat
  {
    if k in m then m[k] else 0
  }

  /** The loop appending every key of the map, in Go's unspecified iteration
      order (an arbitrary choice here). */
  method CollectKeys(m: map<string, nat>) returns (keys: seq<string>)
    ensures |keys| == |m|
    ensures forall k :: k in keys <==> k in m
    ensures forall i, j :: 0 <= i < j < |keys| ==> keys[i] != keys[j]
  {
    keys := [];
    var rest := m.Keys;
    while rest != {}
      invariant rest <= m.Keys
      invariant forall k :: k in keys <==> k in m && k !in rest
      invariant forall i, j :: 0 <= i < j < |keys| ==> keys[i] != keys[j]
      invariant |keys| + |rest| == |m|
      decreases |rest|
    {
      var k :| k in rest;
      keys := keys + [k];
      rest := rest - {k};
    }
  }

  /** Counts never decrease along `s`. */
  predicate SortedByCount(s: seq<string>, m: map<string, nat>)
  {
    forall i, j :: 0 <= i < j < |s| ==> Count(m, s[i]) <= Count(m, s[j])
  }

  /** The elements of `s` whose count is `c`, in their order in `s`. */
  function Filter(s: seq<string>, m: map<string, nat>, c: nat): seq<string>
  {
    if s == [] then []
    else
      var n := |s| - 1;
      Filter(s[..n], m, c) + (if Count(m, s[n]) == c then [s[n]] else [])
  }

  /** Insert `x` after every element whose count is not greater than its own. */
  function Insert(s: seq<string>, x: string, m: map<string, nat>): seq<string>
  {
    if s == [] || Count(m, s[|s| - 1]) <= Count(m, x) then s + [x]
    else Insert(s[..|s| - 1], x, m) + [s[|s| - 1]]
  }

  /** Stable insertion sort by count: the reference for `sort.SliceStable`. */
  function SortByCount(s: seq<string>, m: map<string, nat>): seq<string>
  {
    if s == [] then [] else Insert(SortByCount(s[..|s| - 1], m), s[|s| - 1], m)
  }

  lemma {:induction false} InsertSorted(s: seq<string>, x: string, m: map<string, nat>)
    requires SortedByCount(s, m)
    ensures SortedByCount(Insert(s, x, m), m)
  {
    var r := Insert(s, x, m);
    if s == [] || Count(m, s[|s| - 1]) <= Count(m, x) {
      assert r == s + [x];
    } else {
      var n := |s| - 1;
      var r' := Insert(s[..n], x, m);
      assert SortedByCount(s[..n], m);
      InsertSorted(s[..n], x, m);
      assert r == r' + [s[n]];
      forall i | 0 <= i < |r'| ensures Count(m, r'[i]) <= Count(m, s[n]) {
        InsertBound(s[..n], x, m, i, s[n]);
      }
    }
  }

  lemma {:induction false} InsertMultiset(s: seq<string>, x: string, m: map<string, nat>)
    ensures multiset(Insert(s, x, m)) == multiset(s) + multiset{x}
  {
    if !(s == [] || Count(m, s[|s| - 1]) <= Count(m, x)) {
      var n := |s| - 1;
      InsertMultiset(s[..n], x, m);
      assert s[..n] + [s[n]] == s;
    }
  }

  /** Every element of Insert(s, x) has a count at most the bound of s and x. */
  lemma {:induction false} InsertBound(s: seq<string>, x: string, m: map<string, nat>, i: nat, top: string)
    requires i < |Insert(s, x, m)|
    requires Count(m, x) <= Count(m, top)
    requires forall k :: 0 <= k < |s| ==> Count(m, s[k]) <= Count(m, top)
    ensures Count(m, Insert(s, x, m)[i]) <= Count(m, top)
  {
    if !(s == [] || Count(m, s[|s| - 1]) <= Count(m, x)) {
      var n := |s| - 1;
      if i < |Insert(s, x, m)| - 1 {
        InsertBound(s[..n], x, m, i, top);
      }
    }
  }

  lemma {:induction false} InsertFilter(s: seq<string>, x: string, m: map<string, nat>, c: nat)
    ensures Filter(Insert(s, x, m), m, c) == Filter(s, m, c) + (if Count(m, x) == c then [x] else [])
  {
    var r := Insert(s, x, m);
    if s == [] || Count(m, s[|s| - 1]) <= Count(m, x) {
      assert r[..|r| - 1] == s;
    } else {
      var n := |s| - 1;
      var r' := Insert(s[..n], x, m);
      InsertFilter(s[..n], x, m, c);
      assert r[..|r| - 1] == r';
    }
  }

  /** The sorted keys: counts never decrease. */
  lemma {:induction false} SortByCountSorted(s: seq<string>, m: map<string, nat>)
    ensures SortedByCount(SortByCount(s, m), m)
    ensures multiset(SortByCount(s, m)) == multiset(s)
    ensures forall c :: Filter(SortByCount(s, m), m, c) == Filter(s, m, c)
  {
    if s != [] {
      var n := |s| - 1;
      SortByCountSorted(s[..n], m);
      InsertSorted(SortByCount(s[..n], m), s[n], m);
      InsertMultiset(SortByCount(s[..n], m), s[n], m);
      forall c ensures Filter(SortByCount(s, m), m, c) == Filter(s, m, c) {
        InsertFilter(SortByCount(s[..n], m), s[n], m, c);
      }
      assert s[..n] + [s[n]] == s;
    }
  }

  lemma {:induction false} FilterMember(s: seq<string>, m: map<string, nat>, c: nat, y: string)
    ensures y in Filter(s, m, c) <==> y in s && Count(m, y) == c
  {
    if s != [] {
      var n := |s| - 1;
      FilterMember(s[..n], m, c, y);
      assert s == s[..n] + [s[n]];
    }
  }

  /** A stable sort is determined: two sequences sorted by count that keep,
      for every count, the same elements in the same order are equal. So any
      stable sort, `sort.SliceStable` among them, yields SortByCount. */
  lemma {:induction false} StableSortUnique(t1: seq<string>, t2: seq<string>, m: map<string, nat>)
    requires SortedByCount(t1, m) && SortedByCount(t2, m)
    requires forall c :: Filter(t1, m, c) == Filter(t2, m, c)
    ensures t1 == t2
  {
    if t1 == [] || t2 == [] {
      if t1 != [] {
        FilterMember(t1, m, Count(m, t1[0]), t1[0]);
        FilterMember(t2, m, Count(m, t1[0]), t1[0]);
      } else if t2 != [] {
        FilterMember(t1, m, Count(m, t2[0]), t2[0]);
        FilterMember(t2, m, Count(m, t2[0]), t2[0]);
      }
    } else {
      var n1, n2 := |t1| - 1, |t2| - 1;
      var c1, c2 := Count(m, t1[n1]), Count(m, t2[n2]);
      FilterMember(t1, m, c1, t1[n1]);
      FilterMember(t2, m, c1, t1[n1]);
      FilterMember(t1, m, c2, t2[n2]);
      FilterMember(t2, m, c2, t2[n2]);
      assert c1 == c2;
      forall c: nat ensures Filter(t1[..n1], m, c) == Filter(t2[..n2], m, c) {
        var f1, f2 := Filter(t1[..n1], m, c), Filter(t2[..n2], m, c);
        assert Filter(t1, m, c) == Filter(t2, m, c);
        if c == c1 {
          assert Filter(t1, m, c) == f1 + [t1[n1]];
          assert Filter(t2, m, c) == f2 + [t2[n2]];
          assert |f1| == |f2|;
          assert f1 == Filter(t1, m, c)[..|f1|];
          assert f2 == Filter(t2, m, c)[..|f2|];
          assert f1 == f2;
        } else {
          assert Filter(t1, m, c) == f1 + [];
          assert Filter(t2, m, c) == f2 + [];
          assert f1 + [] == f1 && f2 + [] == f2;
          assert f1 == f2;
        }
      }
      var f1 := Filter(t1[..n1], m, c1);
      assert Filter(t1, m, c1) == f1 + [t1[n1]];
      assert Filter(t2, m, c1) == f1 + [t2[n2]];
      assert t1[n1] == (f1 + [t1[n1]])[|f1|];
      StableSortUnique(t1[..n1], t2[..n2], m);
      assert t1 == t1[..n1] + [t1[n1]] && t2 == t2[..n2] + [t2[n2]];
    }
  }

  /** One step of insertion sort: move a[i] left past every element with a
      strictly greater count. */
  lemma InsertStep(sp: seq<string>, x: string, m: map<string, nat>, j: nat)
    requires 0 < j <= |sp| && Count(m, sp[j - 1]) > Count(m, x)
    ensures Insert(sp[..j], x, m) + sp[j..] == Insert(sp[..j - 1], x, m) + sp[j - 1..]
  {
    assert sp[..j][..j - 1] == sp[..j - 1];
    assert sp[j - 1..] == [sp[j - 1]] + sp[j..];
  }

  method InsertAt(a: array<string>, i: nat, m: map<string, nat>)
    requires i < a.Length
    modifies a
    ensures a[..i + 1] == Insert(old(a[..i]), old(a[i]), m)
    ensures a[i + 1..] == old(a[i + 1..])
  {
    ghost var sp := a[..i];
    var x := a[i];
    var j := i;
    assert sp[..j] == sp && sp[j..] == [];
    while j > 0 && Count(m, a[j - 1]) > Count(m, x)
      invariant 0 <= j <= i
      invariant forall k :: 0 <= k < j ==> a[k] == sp[k]
      invariant forall k :: j < k <= i ==> a[k] == sp[k - 1]
      invariant forall k :: i < k < a.Length ==> a[k] == old(a[k])
      invariant Insert(sp, x, m) == Insert(sp[..j], x, m) + sp[j..]
    {
      InsertStep(sp, x, m, j);
      a[j] := a[j - 1];
      j := j - 1;
    }
    a[j] := x;
    assert Insert(sp[..j], x, m) == sp[..j] + [x];
    assert a[..i + 1] == sp[..j] + [x] + sp[j..];
  }

  /** `sort.SliceStable(keys, less)` with `less` comparing counts, sorting in
      place; modelled as insertion sort, which moves an element before another
      only when its count is strictly smaller. */
  method StableSortByCount(a: array<string>, m: map<string, nat>)
    modifies a
    ensures a[..] == SortByCount(old(a[..]), m)
  {
    ghost var orig := a[..];
    var i := 0;
    while i < a.Length
      invariant 0 <= i <= a.Length
      invariant a[..i] == SortByCount(orig[..i], m)
      invariant a[i..] == orig[i..]
    {
      InsertAt(a, i, m);
      assert orig[..i + 1][..i] == orig[..i];
      assert orig[i..][1..] == orig[i + 1..];
      i := i + 1;
    }
    assert a[..] == a[..a.Length] && orig[..a.Length] == orig;
  }
}
