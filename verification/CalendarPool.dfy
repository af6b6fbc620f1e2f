/**
  The calendar's worker pool (server/src/metadata-runtime.js, getUpcomingEpisodesForSeries): at
  most thirty distinct series, at most six of them in flight, workers sharing one index.
 */
module CalendarPool {
  import opened StableSort

  const MAX_CALENDAR_SERIES: nat := 30
  const MAX_CALENDAR_SERIES_CONCURRENCY: nat := 6

  datatype Item = Item(id: string, isSeries: bool)
  datatype Episode = Episode(series: string, season: nat, number: nat, airDate: string)

  function AirDate(e: Episode): string { e.airDate }

  // ---------------------------------------------------------------------------
  // Which series

  /** The item is a series no earlier item named. */
  predicate Kept(list: seq<Item>, i: nat)
    requires i < |list|
  {
    list[i].isSeries && forall j :: 0 <= j < i && list[j].isSeries ==> list[j].id != list[i].id
  }

  function Distinct(list: seq<Item>): seq<Item> {
    if list == [] then []
    else
      var n := |list| - 1;
      Distinct(list[..n]) + if Kept(list, n) then [list[n]] else []
  }

  function Ids(list: seq<Item>): set<string> {
    set i | 0 <= i < |list| && list[i].isSeries :: list[i].id
  }

  /** Every series named is kept once, and nothing else. */
  lemma {:induction false} DistinctExact(list: seq<Item>)
    ensures forall i :: 0 <= i < |Distinct(list)| ==> Distinct(list)[i] in list && Distinct(list)[i].isSeries
    ensures forall i, j :: 0 <= i < j < |Distinct(list)| ==> Distinct(list)[i].id != Distinct(list)[j].id
    ensures Ids(Distinct(list)) == Ids(list)
  {
    if list != [] {
      var n := |list| - 1;
      var front := list[..n];
      DistinctExact(front);
      IdsOfAppend(front, list[n]);
      assert list == front + [list[n]];
      if Kept(list, n) {
        assert list[n].id !in Ids(front);
        assert forall i :: 0 <= i < |Distinct(front)| ==> Distinct(front)[i].id in Ids(Distinct(front));
        IdsOfAppend(Distinct(front), list[n]);
      } else {
        assert Distinct(list) == Distinct(front);
        if list[n].isSeries {
          var j :| 0 <= j < n && list[j].isSeries && list[j].id == list[n].id;
          assert front[j] == list[j];
          assert front[j].id in Ids(front);
        }
      }
    }
  }

  lemma IdsOfAppend(list: seq<Item>, item: Item)
    ensures Ids(list + [item]) == Ids(list) + if item.isSeries then {item.id} else {}
  {
    var all := list + [item];
    forall id | id in Ids(list) ensures id in Ids(all) {
      var i :| 0 <= i < |list| && list[i].isSeries && list[i].id == id;
      assert all[i] == list[i];
    }
    if item.isSeries { assert all[|list|].id in Ids(all); }
  }

  /** The filter with its set of seen ids. */
  method DistinctSeries(list: seq<Item>) returns (series: seq<Item>)
    ensures series == Distinct(list)
  {
    var seen: set<string> := {};
    series := [];
    var i := 0;
    while i < |list|
      invariant 0 <= i <= |list|
      invariant series == Distinct(list[..i])
      invariant seen == Ids(list[..i])
    {
      var item := list[i];
      assert list[..i + 1] == list[..i] + [item] && list[..i + 1][..i] == list[..i];
      IdsOfAppend(list[..i], item);
      assert Kept(list[..i + 1], i) <==> item.isSeries && item.id !in Ids(list[..i]) by {
        SeenExactly(list[..i + 1], i);
      }
      if item.isSeries && item.id !in seen {
        seen := seen + {item.id};
        series := series + [item];
      }
      i := i + 1;
    }
    assert list[..i] == list;
  }

  lemma SeenExactly(list: seq<Item>, i: nat)
    requires i < |list|
    ensures Kept(list, i) <==> list[i].isSeries && list[i].id !in Ids(list[..i])
  {
    if list[i].isSeries && !Kept(list, i) {
      var j :| 0 <= j < i && list[j].isSeries && list[j].id == list[i].id;
      assert list[..i][j].id in Ids(list[..i]);
    }
    if list[i].id in Ids(list[..i]) {
      var j :| 0 <= j < i && list[..i][j].isSeries && list[..i][j].id == list[i].id;
      assert list[j].isSeries;
    }
  }

  // ---------------------------------------------------------------------------
  // The pool

  function Flatten(parts: seq<seq<Episode>>): seq<Episode> {
    if parts == [] then [] else parts[0] + Flatten(parts[1..])
  }

  function Min(a: nat, b: nat): nat { if a < b then a else b }
  function Max(a: nat, b: nat): nat { if a < b then b else a }

  /** Every index handed out is in flight or done, once; `next` is the next to hand out. */
  ghost predicate Accounted(flying: set<nat>, done: seq<nat>, next: nat) {
    && (forall i :: i in flying ==> i < next)
    && (forall a :: 0 <= a < |done| ==> done[a] < next && done[a] !in flying)
    && (forall a, b :: 0 <= a < b < |done| ==> done[a] != done[b])
    && (forall i :: 0 <= i < next ==> i in flying || i in done)
    && |flying| + |done| == next
  }

  lemma TakeKeeps(flying: set<nat>, done: seq<nat>, next: nat)
    requires Accounted(flying, done, next)
    ensures Accounted(flying + {next}, done, next + 1) && |flying + {next}| == |flying| + 1
  {
    assert next !in flying;
  }

  lemma ReturnKeeps(flying: set<nat>, done: seq<nat>, next: nat, i: nat)
    requires Accounted(flying, done, next) && i in flying
    ensures Accounted(flying - {i}, done + [i], next) && |flying - {i}| == |flying| - 1
  {
    var after := done + [i];
    assert after[|done|] == i;
    forall k | 0 <= k < next ensures k in flying - {i} || k in after {
      if k in done {
        var a :| 0 <= a < |done| && done[a] == k;
        assert after[a] == k;
      }
    }
  }

  lemma AllWritten(all: seq<seq<Episode>>, fetched: seq<seq<Episode>>, done: seq<nat>)
    requires |all| == |fetched| && Accounted({}, done, |fetched|)
    requires forall a :: 0 <= a < |done| ==> all[done[a]] == fetched[done[a]]
    ensures all == fetched && forall i :: 0 <= i < |fetched| ==> i in done
  {
    forall i: nat | i < |fetched| ensures all[i] == fetched[i] {
      assert i in done;
      var a :| 0 <= a < |done| && done[a] == i;
    }
  }

  /**
    The workers, under any schedule: whichever request comes back next writes its slot, and its
    worker takes the next index or stops. `fetched[i]` is what the one request for series `i` gave,
    `flying` the indices some worker waits for, `done` the order in which they came back, and `peak`
    the most that were in flight.
   */
  method RunWorkers(fetched: seq<seq<Episode>>) returns (results: seq<seq<Episode>>, done: seq<nat>, peak: nat)
    ensures results == fetched
    ensures peak == Min(MAX_CALENDAR_SERIES_CONCURRENCY, |fetched|)
    ensures |done| == |fetched| && (forall i :: 0 <= i < |fetched| ==> i in done)
    ensures forall a, b :: 0 <= a < b < |done| ==> done[a] != done[b]
  {
    var n := |fetched|;
    var all := new seq<Episode>[n](_ => []);
    var workers := Min(MAX_CALENDAR_SERIES_CONCURRENCY, n);
    var flying, nextIndex := StartWorkers(workers);
    done, peak := [], workers;
    while flying != {}
      invariant workers <= nextIndex <= n && |flying| <= peak == workers
      invariant nextIndex < n ==> |flying| == workers
      invariant Accounted(flying, done, nextIndex)
      invariant forall a :: 0 <= a < |done| ==> all[done[a]] == fetched[done[a]]
      decreases n - |done|
    {
      var index :| index in flying;
      ReturnKeeps(flying, done, nextIndex, index);
      all[index] := fetched[index];
      done := done + [index];
      flying := flying - {index};
      if nextIndex < n {
        TakeKeeps(flying, done, nextIndex);
        flying := flying + {nextIndex};
        nextIndex := nextIndex + 1;
      }
      peak := Max(peak, |flying|);
    }
    results := all[..];
    AllWritten(results, fetched, done);
  }

  /** Each worker runs to its first await as it is made. */
  method StartWorkers(workers: nat) returns (flying: set<nat>, nextIndex: nat)
    ensures nextIndex == workers == |flying| && Accounted(flying, [], nextIndex)
  {
    flying, nextIndex := {}, 0;
    while nextIndex < workers
      invariant 0 <= nextIndex <= workers && |flying| == nextIndex && Accounted(flying, [], nextIndex)
    {
      TakeKeeps(flying, [], nextIndex);
      flying := flying + {nextIndex};
      nextIndex := nextIndex + 1;
    }
  }

  /** The whole function: the sequential filter, map, concatenation and stable sort by air date. */
  method GetUpcomingEpisodesForSeries(list: seq<Item>, fetch: Item -> seq<Episode>) returns (episodes: seq<Episode>)
    ensures episodes == Sequential(list, fetch)
  {
    var distinct := DistinctSeries(list);
    var series := distinct[..Min(MAX_CALENDAR_SERIES, |distinct|)];
    var results, _, _ := RunWorkers(seq(|series|, i requires 0 <= i < |series| => fetch(series[i])));
    episodes := Sort(Flatten(results), AirDate);
  }

  function Sequential(list: seq<Item>, fetch: Item -> seq<Episode>): seq<Episode> {
    var series := Distinct(list)[..Min(MAX_CALENDAR_SERIES, |Distinct(list)|)];
    Sort(Flatten(seq(|series|, i requires 0 <= i < |series| => fetch(series[i]))), AirDate)
  }
}
