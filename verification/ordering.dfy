/** The order in which idle runners are given up. */
module Ordering {
  import opened Types

  /** A candidate for scale-down, by name and creation time. */
  datatype Spare = Spare(name: Name, created: Option<Time>)

  /** A missing creation time compares equal to every other. */
  function Compare(a: Option<Time>, b: Option<Time>): int {
    if a.None? || b.None? then 0
    else if a.value < b.value then -1
    else if a.value > b.value then 1
    else 0
  }

  /** Being equal under the comparison carries over from one candidate to the next. */
  ghost predicate EqualityCarries(times: set<Option<Time>>) {
    forall a, b, c :: a in times && b in times && c in times && Compare(a, b) == 0 && Compare(b, c) == 0 ==>
            Compare(a, c) == 0
  }

  /** Every candidate has a creation time, or those that have one share it. */
  ghost predicate Orderly(times: set<Option<Time>>) {
    None !in times || forall a, b :: a in times && b in times && a.Some? && b.Some? ==> a == b
  }

  /** The comparison is an ordering of the candidates exactly when they are orderly. */
  lemma ComparisonOrders(times: set<Option<Time>>)
    ensures EqualityCarries(times) <==> Orderly(times)
  {
    if !Orderly(times) {
      var a, b :| a in times && b in times && a.Some? && b.Some? && a != b;
      assert Compare(a, None) == 0 && Compare(None, b) == 0 && Compare(a, b) != 0;
    }
  }

  ghost function Times(xs: seq<Spare>): set<Option<Time>> {
    set i | 0 <= i < |xs| :: xs[i].created
  }

  ghost predicate Ascending(xs: seq<Spare>) {
    forall i, j :: 0 <= i < j < |xs| ==> Compare(xs[i].created, xs[j].created) <= 0
  }

  ghost predicate Distinct(xs: seq<Spare>) {
    forall i, j :: 0 <= i < j < |xs| ==> xs[i].name != xs[j].name
  }

  /** No neighbours are the wrong way round: all a sort can see. */
  ghost predicate Settled(xs: seq<Spare>) {
    forall i, j :: 0 <= i && j == i + 1 && j < |xs| ==> Compare(xs[i].created, xs[j].created) <= 0
  }

  /** Where `x` goes: after everything, from the end, that it does not precede. */
  function Place(x: Option<Time>, ys: seq<Spare>): (j: nat)
    ensures j <= |ys|
    ensures forall k :: j <= k < |ys| ==> Compare(x, ys[k].created) < 0
    ensures j > 0 ==> Compare(x, ys[j - 1].created) >= 0
  {
    if |ys| == 0 || Compare(x, ys[|ys| - 1].created) >= 0 then |ys| else Place(x, ys[..|ys| - 1])
  }

  function Insert(ys: seq<Spare>, j: nat, x: Spare): seq<Spare>
    requires j <= |ys|
  {
    ys[..j] + [x] + ys[j..]
  }

  lemma InsertAdds(ys: seq<Spare>, j: nat, x: Spare)
    requires j <= |ys|
    ensures multiset(Insert(ys, j, x)) == multiset(ys) + multiset{x}
  {
    assert ys == ys[..j] + ys[j..];
  }

  /** Sorting by insertion, from the left. */
  function Sorted(xs: seq<Spare>): seq<Spare> {
    if |xs| == 0 then []
    else
      var k := |xs| - 1;
      var ys := Sorted(xs[..k]);
      Insert(ys, Place(xs[k].created, ys), xs[k])
  }

  lemma LastCounts(xs: seq<Spare>)
    requires |xs| > 0
    ensures multiset(xs) == multiset(xs[..|xs| - 1]) + multiset{xs[|xs| - 1]}
  {
    assert xs == xs[..|xs| - 1] + [xs[|xs| - 1]];
  }

  lemma {:induction false} SortedSame(xs: seq<Spare>)
    ensures multiset(Sorted(xs)) == multiset(xs)
  {
    if |xs| > 0 {
      hide Insert, Place;
      var k := |xs| - 1;
      SortedSame(xs[..k]);
      InsertAdds(Sorted(xs[..k]), Place(xs[k].created, Sorted(xs[..k])), xs[k]);
      LastCounts(xs);
    } else {
      assert xs == [];
    }
  }

  /** Neighbours are in order whatever the times are. */
  lemma {:induction false} SortedSettled(xs: seq<Spare>)
    ensures Settled(Sorted(xs))
  {
    if |xs| > 0 {
      var k := |xs| - 1;
      SortedSettled(xs[..k]);
      InsertSettled(Sorted(xs[..k]), Place(xs[k].created, Sorted(xs[..k])), xs[k]);
    }
  }

  lemma InsertSettled(ys: seq<Spare>, j: nat, x: Spare)
    requires j <= |ys| && Settled(ys)
    requires forall k :: j <= k < |ys| ==> Compare(x.created, ys[k].created) < 0
    requires j > 0 ==> Compare(x.created, ys[j - 1].created) >= 0
    ensures Settled(Insert(ys, j, x))
  {
    var zs := Insert(ys, j, x);
    forall i, i' | 0 <= i && i' == i + 1 && i' < |zs| ensures Compare(zs[i].created, zs[i'].created) <= 0 {
      if i' < j {
        assert zs[i] == ys[i] && zs[i'] == ys[i'];
      } else if i > j {
        assert zs[i] == ys[i - 1] && zs[i'] == ys[i];
      }
    }
  }

  /** What is settled already stays as it is. */
  lemma {:induction false} SettledStays(xs: seq<Spare>)
    requires Settled(xs)
    ensures Sorted(xs) == xs
  {
    if |xs| > 0 {
      var k := |xs| - 1;
      SettledStays(xs[..k]);
      StaysLast(xs);
    }
  }

  lemma StaysLast(xs: seq<Spare>)
    requires |xs| > 0 && Settled(xs)
    ensures var k := |xs| - 1; Insert(xs[..k], Place(xs[k].created, xs[..k]), xs[k]) == xs
  {
    var k := |xs| - 1;
    hide Place;
    if k > 0 {
      assert Compare(xs[k - 1].created, xs[k].created) <= 0;
      assert xs[..k][k - 1] == xs[k - 1];
    }
    assert Place(xs[k].created, xs[..k]) == k by {
      PlaceLast(xs[k].created, xs[..k]);
    }
    assert xs[..k] + [xs[k]] + xs[..k][k..] == xs;
  }

  lemma PlaceLast(x: Option<Time>, ys: seq<Spare>)
    requires |ys| > 0 ==> Compare(x, ys[|ys| - 1].created) >= 0
    ensures Place(x, ys) == |ys|
  {
  }

  /** Neighbours in order make the whole in order when the times are orderly. */
  lemma {:induction false} SettledAscends(xs: seq<Spare>)
    requires Settled(xs) && Orderly(Times(xs))
    ensures Ascending(xs)
  {
    forall i, j | 0 <= i < j < |xs| ensures Compare(xs[i].created, xs[j].created) <= 0 {
      SettledPair(xs, i, j);
    }
  }

  lemma {:induction false} SettledPair(xs: seq<Spare>, i: nat, j: nat)
    requires Settled(xs) && Orderly(Times(xs)) && i < j < |xs|
    ensures Compare(xs[i].created, xs[j].created) <= 0
    decreases j - i
  {
    assert xs[i].created in Times(xs) && xs[j].created in Times(xs);
    if i + 1 < j {
      SettledPair(xs, i, j - 1);
      assert Compare(xs[j - 1].created, xs[j].created) <= 0;
      assert xs[j - 1].created in Times(xs);
    }
  }

  // ----- Which arrangements are in order -----

  /** The candidates with a creation time, and those without. */
  function Timed(xs: seq<Spare>): seq<Spare> {
    if |xs| == 0 then []
    else
      var k := |xs| - 1;
      Timed(xs[..k]) + if xs[k].created.Some? then [xs[k]] else []
  }

  function Untimed(xs: seq<Spare>): seq<Spare> {
    if |xs| == 0 then []
    else
      var k := |xs| - 1;
      Untimed(xs[..k]) + if xs[k].created.None? then [xs[k]] else []
  }

  lemma {:induction false} SplitAll(xs: seq<Spare>)
    ensures multiset(xs) == multiset(Timed(xs)) + multiset(Untimed(xs))
  {
    if |xs| > 0 {
      var k := |xs| - 1;
      SplitAll(xs[..k]);
      assert xs == xs[..k] + [xs[k]];
    }
  }

  lemma {:induction false} TimedHave(xs: seq<Spare>, i: nat)
    requires i < |Timed(xs)|
    ensures Timed(xs)[i].created.Some?
  {
    var k := |xs| - 1;
    if i < |Timed(xs[..k])| {
      TimedHave(xs[..k], i);
    }
  }

  lemma {:induction false} UntimedLack(xs: seq<Spare>, i: nat)
    requires i < |Untimed(xs)|
    ensures Untimed(xs)[i].created.None?
  {
    var k := |xs| - 1;
    if i < |Untimed(xs[..k])| {
      UntimedLack(xs[..k], i);
    }
  }

  lemma Split(xs: seq<Spare>)
    ensures multiset(xs) == multiset(Timed(xs)) + multiset(Untimed(xs))
    ensures forall i :: 0 <= i < |Timed(xs)| ==> Timed(xs)[i].created.Some?
    ensures forall i :: 0 <= i < |Untimed(xs)| ==> Untimed(xs)[i].created.None?
  {
    SplitAll(xs);
    forall i | 0 <= i < |Timed(xs)| ensures Timed(xs)[i].created.Some? {
      TimedHave(xs, i);
    }
    forall i | 0 <= i < |Untimed(xs)| ensures Untimed(xs)[i].created.None? {
      UntimedLack(xs, i);
    }
  }

  /** The timed candidates from the `j`-th oldest on, then those without a time, then the
      `j` oldest. */
  function Misplaced(xs: seq<Spare>, j: nat): seq<Spare>
    requires j <= |Sorted(Timed(xs))|
  {
    var ts := Sorted(Timed(xs));
    ts[j..] + Untimed(xs) + ts[..j]
  }

  lemma SortedTimed(xs: seq<Spare>)
    ensures var ts := Sorted(Timed(xs));
            && multiset(ts) == multiset(Timed(xs)) && Ascending(ts)
            && forall i :: 0 <= i < |ts| ==> ts[i].created.Some?
  {
    Split(xs);
    var ts := Sorted(Timed(xs));
    SortedSame(Timed(xs));
    SortedSettled(Timed(xs));
    forall i | 0 <= i < |ts| ensures ts[i].created.Some? {
      assert ts[i] in multiset(ts);
      assert ts[i] in multiset(Timed(xs));
    }
    assert None !in Times(ts);
    SettledAscends(ts);
  }

  lemma MisplacedSame(xs: seq<Spare>, j: nat)
    requires j <= |Sorted(Timed(xs))|
    ensures multiset(Misplaced(xs, j)) == multiset(xs)
  {
    hide Sorted, Timed, Untimed;
    Split(xs);
    SortedTimed(xs);
    var ts := Sorted(Timed(xs));
    assert ts == ts[..j] + ts[j..];
  }

  lemma SomeUntimed(xs: seq<Spare>)
    requires None in Times(xs)
    ensures |Untimed(xs)| > 0
  {
    hide Timed, Untimed;
    Split(xs);
    var m :| 0 <= m < |xs| && xs[m].created == None;
    assert xs[m] in multiset(xs);
    assert xs[m] !in multiset(Timed(xs));
    assert xs[m] in multiset(Untimed(xs));
  }

  /** Two different times among the candidates leave the last one above the first. */
  lemma SomeNewer(xs: seq<Spare>)
    requires !Orderly(Times(xs))
    ensures var ts := Sorted(Timed(xs));
            1 < |ts| && Compare(ts[|ts| - 1].created, ts[0].created) > 0
  {
    hide Sorted, Timed;
    SortedTimed(xs);
    var ts := Sorted(Timed(xs));
    var a, b :| a in Times(xs) && b in Times(xs) && a.Some? && b.Some? && a != b;
    var i := WithTime(xs, ts, a);
    var j := WithTime(xs, ts, b);
    var k := if ts[i].created != ts[0].created then i else j;
    assert Compare(ts[0].created, ts[k].created) <= 0;
    assert k < |ts| - 1 ==> Compare(ts[k].created, ts[|ts| - 1].created) <= 0;
  }

  /** Candidates without an order have, for each `j` short of all with a time, a settled
      arrangement with the newest of those before the `j` oldest. */
  lemma MisplacedSettled(xs: seq<Spare>, j: nat)
    requires !Orderly(Times(xs)) && 0 < j < |Sorted(Timed(xs))|
    ensures multiset(Misplaced(xs, j)) == multiset(xs) && Settled(Misplaced(xs, j))
    ensures var ys, m := Misplaced(xs, j), |Sorted(Timed(xs))|;
            m < |ys| == |xs| && Compare(ys[m - 1 - j].created, ys[|ys| - j].created) > 0
  {
    hide Sorted, Timed, Untimed, Settled, Ascending;
    MisplacedSame(xs, j);
    SortedTimed(xs);
    SomeUntimed(xs);
    Split(xs);
    SomeNewer(xs);
    SameNames(Misplaced(xs, j), xs);
    var ts, us, ys := Sorted(Timed(xs)), Untimed(xs), Misplaced(xs, j);
    MisplacedNeighbours(ts, us, ys, j);
    assert ys[|ts| - 1 - j] == ts[|ts| - 1] && ys[|ys| - j] == ts[0];
  }

  lemma WithTime(xs: seq<Spare>, ts: seq<Spare>, a: Option<Time>) returns (i: nat)
    requires a in Times(xs) && a.Some? && multiset(ts) == multiset(Timed(xs))
    ensures i < |ts| && ts[i].created == a
  {
    Split(xs);
    var m :| 0 <= m < |xs| && xs[m].created == a;
    assert xs[m] in multiset(xs);
    assert xs[m] !in multiset(Untimed(xs));
    assert xs[m] in multiset(ts);
    i :| 0 <= i < |ts| && ts[i] == xs[m];
  }

  lemma MisplacedNeighbours(ts: seq<Spare>, us: seq<Spare>, ys: seq<Spare>, j: nat)
    requires j <= |ts| && |us| > 0 && ys == ts[j..] + us + ts[..j] && Ascending(ts)
    requires forall i :: 0 <= i < |us| ==> us[i].created.None?
    ensures Settled(ys)
  {
    var m := |ts| - j;
    forall a, b | 0 <= a && b == a + 1 && b < |ys| ensures Compare(ys[a].created, ys[b].created) <= 0 {
      if b < m {
        assert ys[a] == ts[a + j] && ys[b] == ts[b + j];
      } else if b < m + |us| {
        assert ys[b] == us[b - m];
      } else if a < m + |us| {
        assert ys[a] == us[a - m];
      } else {
        assert ys[a] == ts[a - m - |us|] && ys[b] == ts[b - m - |us|];
      }
    }
  }

  /** Every settled arrangement of the candidates is in order of age if and only if the
      candidates are orderly. */
  lemma OrderedExactlyWhen(xs: seq<Spare>)
    ensures (forall ys :: multiset(ys) == multiset(xs) && Settled(ys) ==> Ascending(ys)) <==> Orderly(Times(xs))
  {
    if Orderly(Times(xs)) {
      forall ys | multiset(ys) == multiset(xs) && Settled(ys) ensures Ascending(ys) {
        SameNames(ys, xs);
        SettledAscends(ys);
      }
    } else {
      SomeNewer(xs);
      MisplacedSettled(xs, 1);
      assert !Ascending(Misplaced(xs, 1));
    }
  }

  /** The standard library sorts up to this many elements by insertion. */
  const MAX_INSERTION := 12

  /** What sorting may make of the candidates: an arrangement of them, in order of age when
      the comparison is an ordering of them, and of a few the one insertion comes to. */
  ghost predicate SortResult(xs: seq<Spare>, ys: seq<Spare>) {
    && multiset(ys) == multiset(xs)
    && (Orderly(Times(xs)) ==> Ascending(ys))
    && (|xs| <= MAX_INSERTION ==> ys == Sorted(xs))
  }

  /** Sorts by insertion, and promises what the standard library's sort does. */
  method SortFunc(xs: seq<Spare>) returns (ys: seq<Spare>)
    ensures SortResult(xs, ys)
  {
    ys := [];
    for i := 0 to |xs|
      invariant ys == Sorted(xs[..i])
    {
      assert xs[..i + 1][..i] == xs[..i];
      ys := Insert(ys, Place(xs[i].created, ys), xs[i]);
    }
    assert xs[..|xs|] == xs;
    SortedFacts(xs);
  }

  ghost function Names(xs: seq<Spare>): set<Name> {
    set i | 0 <= i < |xs| :: xs[i].name
  }

  lemma {:induction false} NamesCount(xs: seq<Spare>)
    requires Distinct(xs)
    ensures |Names(xs)| == |xs|
  {
    if |xs| > 0 {
      var k := |xs| - 1;
      NamesCount(xs[..k]);
      assert Names(xs) == Names(xs[..k]) + {xs[k].name};
    }
  }

  lemma NamesWithin(xs: seq<Spare>, ys: seq<Spare>)
    requires multiset(xs) <= multiset(ys)
    ensures Names(xs) <= Names(ys) && Times(xs) <= Times(ys)
    ensures forall x :: x in xs ==> x in ys
  {
    forall x | x in xs ensures x in ys {
      assert x in multiset(xs);
    }
    forall i | 0 <= i < |xs| ensures xs[i].name in Names(ys) && xs[i].created in Times(ys) {
      assert xs[i] in ys;
      var j :| 0 <= j < |ys| && ys[j] == xs[i];
    }
  }

  lemma SameNames(xs: seq<Spare>, ys: seq<Spare>)
    requires multiset(xs) == multiset(ys)
    ensures Names(xs) == Names(ys) && Times(xs) == Times(ys) && |xs| == |ys|
    ensures forall x :: x in xs <==> x in ys
  {
    NamesWithin(xs, ys);
    NamesWithin(ys, xs);
    assert |multiset(xs)| == |xs| && |multiset(ys)| == |ys|;
  }

  lemma {:induction false} CountOne(xs: seq<Spare>, x: Spare)
    requires Distinct(xs)
    ensures multiset(xs)[x] <= 1
  {
    if |xs| > 0 {
      var k := |xs| - 1;
      CountOne(xs[..k], x);
      assert xs == xs[..k] + [xs[k]];
      forall i | 0 <= i < k ensures xs[i] != xs[k] {
        assert xs[i].name != xs[k].name;
      }
      assert xs[k] !in xs[..k];
    }
  }

  lemma Twice(ys: seq<Spare>, i: nat, j: nat)
    requires i < j < |ys| && ys[i] == ys[j]
    ensures multiset(ys)[ys[i]] >= 2
  {
    assert ys == ys[..j] + [ys[j]] + ys[j + 1..];
    assert ys[i] == ys[..j][i];
  }

  /** An arrangement of distinct candidates is of distinct candidates. */
  lemma DistinctSame(xs: seq<Spare>, ys: seq<Spare>)
    requires Distinct(xs) && multiset(ys) == multiset(xs)
    ensures Distinct(ys)
  {
    SameNames(ys, xs);
    forall i, j | 0 <= i < j < |ys| ensures ys[i].name != ys[j].name {
      assert ys[i] in xs && ys[j] in xs;
      var a :| 0 <= a < |xs| && xs[a] == ys[i];
      var b :| 0 <= b < |xs| && xs[b] == ys[j];
      CountOne(xs, ys[i]);
      assert ys[i] != ys[j] by {
        if ys[i] == ys[j] {
          Twice(ys, i, j);
        }
      }
    }
  }

  /** Insertion gives a result that sorting may give, whatever the candidates. */
  lemma SortedFacts(xs: seq<Spare>)
    ensures SortResult(xs, Sorted(xs))
  {
    hide Orderly, Ascending;
    SortedSame(xs);
    SortedSettled(xs);
    SameNames(Sorted(xs), xs);
    if Orderly(Times(xs)) {
      SettledAscends(Sorted(xs));
    }
  }

  /** So does leaving a settled arrangement as it is. */
  lemma SettledResult(xs: seq<Spare>)
    requires Settled(xs)
    ensures SortResult(xs, xs)
  {
    SortedFacts(xs);
    SettledStays(xs);
  }

  /** The newest of three, one of unknown age between it and the oldest. */
  const NEWEST_FIRST := [Spare("new", Some(3)), Spare("unknown", None), Spare("old", Some(1))]

  /** A missing time defeats the order: sorting leaves the newest first, and giving up one
      gives up the newest. */
  lemma NewestFirst()
    ensures Sorted(NEWEST_FIRST) == NEWEST_FIRST && !Orderly(Times(NEWEST_FIRST)) && !Ascending(NEWEST_FIRST)
    ensures Names(Sorted(NEWEST_FIRST)[..1]) == {"new"} && Compare(Some(3), Some(1)) > 0
  {
    SettledStays(NEWEST_FIRST);
    var xs := NEWEST_FIRST;
    assert xs[0].created in Times(xs) && xs[1].created in Times(xs) && xs[2].created in Times(xs);
    assert xs[..1] == [xs[0]];
    assert Names([xs[0]]) == {"new"};
    assert Compare(xs[0].created, xs[2].created) > 0;
  }
}
