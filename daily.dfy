/** The daily article report of `main`: fetch every feed's count, gather the
    values the goroutines sent into a map, sort its keys by count and write
    the rows of the CSV file. */
module DailyRun {
  import opened Feeds
  import opened Fetch
  import opened Aggregate
  import opened Report

  /** The run either panicked in a goroutine or produced the report rows. */
  datatype RunOutcome = RunCrashed | Produced(rows: seq<seq<string>>)

  /** Every magazine in the gathered map is the name of some feed, and there
      are no more of them than feeds. */
  lemma GatheredKeysAreFeedNames(feeds: seq<Feed>, scripts: seq<seq<Attempt>>, arrival: seq<MagazineData>)
    requires WellScripted(feeds, scripts)
    requires Dispatched(feeds, scripts).Collected?
    requires multiset(arrival) == Dispatched(feeds, scripts).results
    ensures |LastWrite(arrival)| <= |feeds|
    ensures forall k :: k in LastWrite(arrival) ==> exists j :: 0 <= j < |feeds| && feeds[j].feedName == k
  {
    DispatchMembers(feeds, scripts);
    DispatchKeys(feeds, scripts);
    LastWriteSize(arrival);
    LastWriteKeys(arrival);
    assert |multiset(arrival)| == |arrival|;
    forall k | k in LastWrite(arrival)
      ensures exists j :: 0 <= j < |feeds| && feeds[j].feedName == k
    {
      var t :| 0 <= t < |arrival| && arrival[t].magazine == k;
      assert arrival[t] in multiset(arrival);
    }
  }

  /** The map's keys in iteration order, then stably sorted by
      count. The result holds each key once, in non-decreasing count order. */
  method OrderedKeys(m: map<string, nat>) returns (sorted: seq<string>)
    ensures |sorted| == |m|
    ensures forall k :: k in sorted <==> k in m
    ensures SortedByCount(sorted, m)
  {
    var keys := CollectKeys(m);
    var a := new string[|keys|](i requires 0 <= i < |keys| => keys[i]);
    assert a[..] == keys;
    StableSortByCount(a, m);
    sorted := a[..];
    SortByCountSorted(keys, m);
    assert |sorted| == |multiset(sorted)| == |multiset(keys)| == |keys|;
    forall k ensures k in sorted <==> k in keys {
      assert k in sorted <==> k in multiset(sorted);
      assert k in keys <==> k in multiset(keys);
    }
  }

  /** The tail of the daily run: gather the values in arrival order, order
      the keys and build the rows. Every gathered magazine gets exactly one
      row, with its last-written count, and counts never decrease down the
      file. */
  method ReportRows(arrival: seq<MagazineData>) returns (rows: seq<seq<string>>)
    ensures |rows| == |LastWrite(arrival)| + 1 && rows[0] == Header
    ensures forall i :: 0 < i < |rows| ==>
              |rows[i]| == 2 && rows[i][0] in LastWrite(arrival)
              && IsDecimal(rows[i][1]) && ParseInt(rows[i][1]) == LastWrite(arrival)[rows[i][0]]
    ensures forall k :: k in LastWrite(arrival) ==> exists i :: 0 < i < |rows| && rows[i][0] == k
    ensures forall i, j :: 0 < i < j < |rows| ==>
              IsDecimal(rows[i][1]) && IsDecimal(rows[j][1]) && ParseInt(rows[i][1]) <= ParseInt(rows[j][1])
  {
    var m := Gather(arrival);
    var sorted := OrderedKeys(m);
    rows := BuildRows(m, sorted);
    forall k | k in m
      ensures exists i :: 0 < i < |rows| && rows[i][0] == k
    {
      var p :| 0 <= p < |sorted| && sorted[p] == k;
      assert rows[p + 1][0] == k;
    }
    forall i, j | 0 < i < j < |rows|
      ensures ParseInt(rows[i][1]) <= ParseInt(rows[j][1])
    {
      assert Count(m, sorted[i - 1]) <= Count(m, sorted[j - 1]);
    }
  }

  /** From the feed list to the CSV rows. `arrival` is the order in which the
      channel delivered the values the goroutines sent; the run does not fix
      it, so any ordering of those values is allowed. */
  method DailyReport(feeds: seq<Feed>, scripts: seq<seq<Attempt>>, arrival: seq<MagazineData>)
    returns (r: RunOutcome)
    requires WellScripted(feeds, scripts)
    requires Dispatched(feeds, scripts).Collected? ==> multiset(arrival) == Dispatched(feeds, scripts).results
    ensures r.RunCrashed? <==> exists i :: 0 <= i < |feeds| && Outcome(feeds[i].feedName, scripts[i]).Panicked?
    ensures r.Produced? ==> |r.rows| == |LastWrite(arrival)| + 1 <= |feeds| + 1 && r.rows[0] == Header
    ensures r.Produced? ==> forall i :: 0 < i < |r.rows| ==>
              |r.rows[i]| == 2 && r.rows[i][0] in LastWrite(arrival)
              && IsDecimal(r.rows[i][1]) && ParseInt(r.rows[i][1]) == LastWrite(arrival)[r.rows[i][0]]
              && exists j :: 0 <= j < |feeds| && feeds[j].feedName == r.rows[i][0]
    ensures r.Produced? ==> forall k :: k in LastWrite(arrival) ==> exists i :: 0 < i < |r.rows| && r.rows[i][0] == k
    ensures r.Produced? ==> forall i, j :: 0 < i < j < |r.rows| ==>
              IsDecimal(r.rows[i][1]) && IsDecimal(r.rows[j][1]) && ParseInt(r.rows[i][1]) <= ParseInt(r.rows[j][1])
  {
    DispatchCrashIff(feeds, scripts);
    var d := Dispatch(feeds, scripts);
    if d.Crashed? {
      return RunCrashed;
    }
    GatheredKeysAreFeedNames(feeds, scripts, arrival);
    var rows := ReportRows(arrival);
    return Produced(rows);
  }
}
