/**
 * A histogram: an ordered map from keys to occurrence counts, built from a
 * map as given or by tallying a list, with the entries of highest and
 * lowest count. Keys are integers ordered as usual.
 */
module Histograms {

  /** The tally of `v`: each value of `v` mapped to how often it occurs there. */
  function Tally(v: seq<int>): (m: map<int, nat>)
    ensures forall k :: k in m <==> k in v
    ensures forall k :: k in m ==> m[k] == multiset(v)[k] && m[k] >= 1
  {
    map k | k in multiset(v) :: multiset(v)[k]
  }

  /** Appending one value to the list bumps its count, starting at 0 if it is new. */
  lemma TallyAppend(v: seq<int>, x: int)
    ensures Tally(v + [x]) == Tally(v)[x := (if x in Tally(v) then Tally(v)[x] else 0) + 1]
  {
    assert multiset(v + [x]) == multiset(v) + multiset{x};
  }

  /** A non-empty set has an element. */
  lemma HasElement(s: set<int>)
    requires s != {}
    ensures exists x :: x in s
  {
    if forall x :: x !in s {
      assert false;
    }
  }

  /** The sum of all counts of a map. */
  ghost function SumCounts(m: map<int, nat>): nat
    decreases |m|
  {
    if m.Keys == {} then 0
    else
      HasElement(m.Keys);
      var k :| k in m.Keys;
      m[k] + SumCounts(m - {k})
  }

  /** SumCounts may take out any key first. */
  lemma {:induction false} SumCountsRemove(m: map<int, nat>, k: int)
    requires k in m
    ensures SumCounts(m) == m[k] + SumCounts(m - {k})
    decreases |m|
  {
    var j :| j in m && SumCounts(m) == m[j] + SumCounts(m - {j});
    if j != k {
      assert |m - {j}| == |m| - 1;
      assert |m - {k}| == |m| - 1;
      SumCountsRemove(m - {j}, k);
      SumCountsRemove(m - {k}, j);
      assert m - {j} - {k} == m - {k} - {j};
    }
  }

  /** The counts of a tally add up to the length of the list. */
  lemma {:induction false} TallySum(v: seq<int>)
    ensures SumCounts(Tally(v)) == |v|
    decreases |v|
  {
    if v == [] {
      assert Tally(v) == map[];
    } else {
      var prefix, x := v[..|v| - 1], v[|v| - 1];
      assert v == prefix + [x];
      TallySum(prefix);
      TallyAppend(prefix, x);
      var before, after := Tally(prefix), Tally(v);
      SumCountsRemove(after, x);
      assert after - {x} == before - {x};
      if x in before {
        SumCountsRemove(before, x);
      } else {
        assert before - {x} == before;
      }
    }
  }

  /**
   * The loop of `from_vec` and `set_data_list`: for each value in order,
   * `entry(value).or_insert(0)` and then `+= 1`.
   */
  method CountOccurrences(v: seq<int>) returns (m: map<int, nat>)
    ensures m == Tally(v)
  {
    m := map[];
    for i := 0 to |v|
      invariant m == Tally(v[..i])
    {
      var x := v[i];
      assert v[..i + 1] == v[..i] + [x];
      TallyAppend(v[..i], x);
      var stat := if x in m then m[x] else 0;
      m := m[x := stat + 1];
    }
    assert v[..|v|] == v;
  }

  /** `k` is the least element of `s`. */
  predicate IsLeast(k: int, s: set<int>) {
    k in s && forall j :: j in s ==> k <= j
  }

  /** The least key of a non-empty set. */
  function MinKey(s: set<int>): (k: int)
    requires s != {}
    ensures k in s && forall j :: j in s ==> k <= j
  {
    MinKeyExists(s);
    var k :| IsLeast(k, s);
    k
  }

  lemma {:induction false} MinKeyExists(s: set<int>)
    requires s != {}
    ensures exists k :: IsLeast(k, s)
    decreases |s|
  {
    HasElement(s);
    var x :| x in s;
    if s == {x} {
      assert IsLeast(x, s);
    } else {
      var rest := s - {x};
      assert |rest| == |s| - 1;
      assert forall j :: j in s ==> j == x || j in rest;
      MinKeyExists(rest);
      var k :| IsLeast(k, rest);
      if x < k {
        assert IsLeast(x, s);
      } else {
        assert IsLeast(k, s);
      }
    }
  }

  /** The (key, count) entries of a map in ascending key order, the order a BTreeMap iterates in. */
  function Entries(m: map<int, nat>): (es: seq<(int, nat)>)
    ensures |es| == |m|
    decreases |m|
  {
    if m.Keys == {} then []
    else
      var k := MinKey(m.Keys);
      assert |m - {k}| == |m| - 1;
      [(k, m[k])] + Entries(m - {k})
  }

  /** Every entry is a key of the map with its count. */
  lemma {:induction false} EntriesSound(m: map<int, nat>)
    ensures forall i :: 0 <= i < |Entries(m)| ==> Entries(m)[i].0 in m && Entries(m)[i].1 == m[Entries(m)[i].0]
    decreases |m|
  {
    if m.Keys != {} {
      var k := MinKey(m.Keys);
      assert |m - {k}| == |m| - 1;
      EntriesSound(m - {k});
    }
  }

  /** Every key of the map has its entry. */
  lemma {:induction false} EntriesComplete(m: map<int, nat>)
    ensures forall k :: k in m ==> (k, m[k]) in Entries(m)
    decreases |m|
  {
    if m.Keys != {} {
      var k := MinKey(m.Keys);
      var rest := m - {k};
      assert |rest| == |m| - 1;
      EntriesComplete(rest);
      assert Entries(m) == [(k, m[k])] + Entries(rest);
      forall j | j in m
        ensures (j, m[j]) in Entries(m)
      {
        if j != k {
          assert j in rest && rest[j] == m[j];
        }
      }
    }
  }

  /** The entries come in strictly ascending key order. */
  lemma {:induction false} EntriesAscending(m: map<int, nat>)
    ensures forall i, j :: 0 <= i < j < |Entries(m)| ==> Entries(m)[i].0 < Entries(m)[j].0
    decreases |m|
  {
    if m.Keys != {} {
      var k := MinKey(m.Keys);
      var rest := m - {k};
      assert |rest| == |m| - 1;
      EntriesAscending(rest);
      EntriesSound(rest);
      var es, tail := Entries(m), Entries(rest);
      assert es == [(k, m[k])] + tail;
      assert forall i :: 0 <= i < |tail| ==> k < tail[i].0;
    }
  }

  /** A map has entries exactly when it is not empty. */
  lemma EntriesNonEmpty(m: map<int, nat>)
    ensures |Entries(m)| > 0 <==> m != map[]
  {
    if m.Keys == {} {
      assert m == map[];
    } else {
      var empty: map<int, nat> := map[];
      assert m.Keys != empty.Keys;
    }
  }

  /**
   * `Iterator::max_by` comparing counts: a left fold that keeps the later
   * element unless the one kept so far has a strictly greater count.
   */
  function MaxByCount(es: seq<(int, nat)>): (r: (int, nat))
    requires |es| > 0
    ensures r in es
    ensures forall i :: 0 <= i < |es| ==> es[i].1 <= r.1
  {
    if |es| == 1 then es[0]
    else
      var acc, y := MaxByCount(es[..|es| - 1]), es[|es| - 1];
      if acc.1 > y.1 then acc else y
  }

  /**
   * `Iterator::min_by` comparing counts: a left fold that keeps the element
   * kept so far unless the later one has a strictly smaller count.
   */
  function MinByCount(es: seq<(int, nat)>): (r: (int, nat))
    requires |es| > 0
    ensures r in es
    ensures forall i :: 0 <= i < |es| ==> r.1 <= es[i].1
  {
    if |es| == 1 then es[0]
    else
      var acc, y := MinByCount(es[..|es| - 1]), es[|es| - 1];
      if acc.1 <= y.1 then acc else y
  }

  /** Over ascending keys, max_by returns the last of the maxima: the largest key among equal counts. */
  lemma {:induction false} MaxByCountLastWins(es: seq<(int, nat)>)
    requires |es| > 0
    requires forall i, j :: 0 <= i < j < |es| ==> es[i].0 < es[j].0
    ensures forall i :: 0 <= i < |es| && es[i].1 == MaxByCount(es).1 ==> es[i].0 <= MaxByCount(es).0
  {
    if |es| > 1 {
      MaxByCountLastWins(es[..|es| - 1]);
    }
  }

  /** Over ascending keys, min_by returns the first of the minima: the smallest key among equal counts. */
  lemma {:induction false} MinByCountFirstWins(es: seq<(int, nat)>)
    requires |es| > 0
    requires forall i, j :: 0 <= i < j < |es| ==> es[i].0 < es[j].0
    ensures forall i :: 0 <= i < |es| && es[i].1 == MinByCount(es).1 ==> MinByCount(es).0 <= es[i].0
  {
    if |es| > 1 {
      MinByCountFirstWins(es[..|es| - 1]);
    }
  }

  class Histogram {
    var data: map<int, nat>

    /** `new(data)`: stores the map as given. */
    constructor (data: map<int, nat>)
      ensures this.data == data
    {
      this.data := data;
    }

    /** `from_vec(v)`: a histogram holding the tally of `v`. */
    static method FromVec(v: seq<int>) returns (h: Histogram)
      ensures fresh(h)
      ensures h.data == Tally(v)
    {
      var m := CountOccurrences(v);
      h := new Histogram(m);
    }

    /** `data()`: the stored map, unchanged. */
    function Data(): (m: map<int, nat>)
      reads this
      ensures m == data
    {
      data
    }

    /** `set_data(m)`: replaces the stored map by `m`. */
    method SetData(m: map<int, nat>)
      modifies this
      ensures data == m
    {
      data := m;
    }

    /** `set_data_list(v)`: replaces the stored map by the tally of `v`, whatever it held before. */
    method SetDataList(v: seq<int>)
      modifies this
      ensures data == Tally(v)
    {
      data := CountOccurrences(v);
    }

    /**
     * `get_highest()`: an entry of the map whose count is at least every
     * count; among equal counts, the largest key. An empty map panics in
     * the source, so it is excluded.
     */
    function GetHighest(): (r: (int, nat))
      reads this
      requires data != map[]
      ensures r.0 in data && r.1 == data[r.0]
      ensures forall k :: k in data ==> data[k] <= r.1
      ensures forall k :: k in data && data[k] == r.1 ==> k <= r.0
    {
      var es := Entries(data);
      EntriesNonEmpty(data);
      EntriesSound(data);
      EntriesComplete(data);
      EntriesAscending(data);
      MaxByCountLastWins(es);
      MaxByCount(es)
    }

    /**
     * `get_lowest()`: an entry of the map whose count is at most every
     * count; among equal counts, the smallest key. An empty map panics in
     * the source, so it is excluded.
     */
    function GetLowest(): (r: (int, nat))
      reads this
      requires data != map[]
      ensures r.0 in data && r.1 == data[r.0]
      ensures forall k :: k in data ==> r.1 <= data[k]
      ensures forall k :: k in data && data[k] == r.1 ==> r.0 <= k
    {
      var es := Entries(data);
      EntriesNonEmpty(data);
      EntriesSound(data);
      EntriesComplete(data);
      EntriesAscending(data);
      MinByCountFirstWins(es);
      MinByCount(es)
    }
  }

  /** The setter test on a map: `set_data` stores it and `data` reads it back. */
  method SetDataScenario() returns (kept: map<int, nat>)
    ensures kept == map[69 := 69, 420 := 420, 21 := 4]
  {
    var h := new Histogram(map[]);
    h.SetData(map[69 := 69, 420 := 420, 21 := 4]);
    kept := h.Data();
  }

  /** The range test: on {69: 69, 420: 420, 21: 4} the highest entry is (420, 420) and the lowest (21, 4). */
  method HighestLowestScenario() returns (highest: (int, nat), lowest: (int, nat))
    ensures highest == (420, 420) && lowest == (21, 4)
  {
    var h := new Histogram(map[69 := 69, 420 := 420, 21 := 4]);
    assert 21 in h.data;
    highest := h.GetHighest();
    assert highest.0 in {69, 420, 21} && h.data[420] <= highest.1;
    lowest := h.GetLowest();
    assert lowest.0 in {69, 420, 21} && lowest.1 <= h.data[21];
  }

  /** The tally of two lists with no value in common is the union of their tallies. */
  lemma TallyDisjoint(a: seq<int>, b: seq<int>)
    requires forall x :: x in a ==> x !in b
    ensures Tally(a + b) == Tally(a) + Tally(b)
  {
    assert multiset(a + b) == multiset(a) + multiset(b);
    forall k | k in b
      ensures multiset(a)[k] == 0
    {
    }
    forall k | k in a
      ensures multiset(b)[k] == 0
    {
    }
  }

  /** `vec![x; n]`: `n` copies of `x`, so `x` occurs `n` times and nothing else occurs. */
  function Repeat(x: int, n: nat): (s: seq<int>)
    ensures |s| == n
    ensures multiset(s) == multiset{}[x := n]
  {
    if n == 0 then [] else Repeat(x, n - 1) + [x]
  }

  /** The tally of `n` copies of `x` maps `x` alone to `n`. */
  lemma TallyRepeat(x: int, n: nat)
    requires n >= 1
    ensures Tally(Repeat(x, n)) == map[x := n]
  {
    var t := Tally(Repeat(x, n));
    assert x in multiset(Repeat(x, n));
    assert t.Keys == {x};
  }

  /** Three runs of distinct values, like `vec![x; n]` appended with two more, tally to their lengths. */
  lemma TallyThreeRuns(x: int, n: nat, y: int, m: nat, z: int, p: nat)
    requires n >= 1 && m >= 1 && p >= 1
    requires x != y && y != z && x != z
    ensures Tally(Repeat(x, n) + Repeat(y, m) + Repeat(z, p)) == map[x := n, y := m, z := p]
  {
    var a, b, c := Repeat(x, n), Repeat(y, m), Repeat(z, p);
    TallyRepeat(x, n);
    TallyRepeat(y, m);
    TallyRepeat(z, p);
    TallyDisjoint(a, b);
    TallyDisjoint(a + b, c);
    assert Tally(a + b + c) == map[x := n] + map[y := m] + map[z := p];
    UnionOfSingletons(x, n, y, m, z, p);
  }

  /** Joining one-entry maps is updating one key after another. */
  lemma UnionOfSingletons(x: int, n: nat, y: int, m: nat, z: int, p: nat)
    ensures map[x := n] + map[y := m] + map[z := p] == map[x := n][y := m][z := p]
  {
  }

  /** The constructor test: tallying 69 copies of 69, 420 of 420 and 4 of 21 gives back their map. */
  method FromVecScenario() returns (tallied: map<int, nat>)
    ensures tallied == map[69 := 69, 420 := 420, 21 := 4]
  {
    var n69, n420, n4 := 69, 420, 4;
    var h := Histogram.FromVec(Repeat(69, n69) + Repeat(420, n420) + Repeat(21, n4));
    tallied := h.Data();
    TallyThreeRuns(69, n69, 420, n420, 21, n4);
  }

  /** The histogram test on a list: `set_data_list` replaces the stored map by the list's tally. */
  method TallyScenario() returns (tallied: map<int, nat>)
    ensures tallied == map[1 := 2, 69 := 1, 420 := 1, 3 := 4]
  {
    var h := new Histogram(map[]);
    h.SetData(map[69 := 69, 420 := 420, 21 := 4]);
    var v := [1, 1, 69, 420, 3, 3, 3, 3];
    h.SetDataList(v);
    tallied := h.Data();
    TallyOfSetterList(v);
  }

  /** The tally of the setter test's list. */
  lemma TallyOfSetterList(v: seq<int>)
    requires v == [1, 1, 69, 420, 3, 3, 3, 3]
    ensures Tally(v) == map[1 := 2, 69 := 1, 420 := 1, 3 := 4]
  {
    var counts := multiset(v);
    assert counts == multiset{1, 1, 69, 420, 3, 3, 3, 3};
    assert counts[1] == 2 && counts[69] == 1 && counts[420] == 1 && counts[3] == 4;
    var t := Tally(v);
    assert t.Keys == {1, 69, 420, 3};
    assert t[1] == 2 && t[69] == 1 && t[420] == 1 && t[3] == 4;
  }
}
