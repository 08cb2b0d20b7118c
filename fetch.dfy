/** The per-feed bounded retry against the article database, and the fan-out
    that runs it once per feed. The HTTP calls are replaced by a script: the
    outcome each possible attempt would have. */
module Fetch {
  import opened Feeds

  /** Attempts a feed's goroutine makes before it gives up. */
  const MaxAttempts: nat := 10

  /** The decoded response body: a list of article rows (only its length is
      used) or a JSON decode error. */
  datatype Body = Rows(count: nat) | Malformed

  /** The result of one `http.Get`: a transport error, or a response. */
  datatype Attempt = TransportError | Response(statusCode: int, body: Body)

  /** What a goroutine sends on the channel. */
  datatype MagazineData = MagazineData(magazine: string, ingestedArticles: nat)

  /** What one goroutine does in the end: send one value, send nothing, or
      panic (which ends the whole process). */
  datatype FetchOutcome = Emitted(data: MagazineData) | Silent | Panicked

  /** Go's integer division, which truncates toward zero. */
  function GoQuo(a: int, b: int): int
    requires b > 0
  {
    if a >= 0 then a / b else -((-a) / b)
  }

  /** The status test `StatusCode/100 == 2`: exactly the 2xx codes. */
  function IsSuccessStatus(code: int): (ok: bool)
    ensures ok <==> 200 <= code <= 299
  {
    GoQuo(code, 100) == 2
  }

  /** An attempt that ends the loop: no transport error and a 2xx status. */
  predicate Succeeds(a: Attempt)
  {
    a.Response? && IsSuccessStatus(a.statusCode)
  }

  /** Index of the first succeeding attempt at or after `from`, or |script|. */
  function FirstSuccess(script: seq<Attempt>, from: nat): (k: nat)
    requires from <= |script|
    ensures from <= k <= |script|
    ensures forall i :: from <= i < k ==> !Succeeds(script[i])
    ensures k < |script| ==> Succeeds(script[k])
    decreases |script| - from
  {
    if from == |script| then from
    else if Succeeds(script[from]) then from
    else FirstSuccess(script, from + 1)
  }

  /** The outcome of one feed's goroutine, given what each attempt returns. */
  function Outcome(magazine: string, script: seq<Attempt>): FetchOutcome
    requires |script| == MaxAttempts
  {
    var k := FirstSuccess(script, 0);
    if k == |script| then Silent
    else match script[k].body
      case Rows(n) => Emitted(MagazineData(magazine, n))
      case Malformed => Panicked
  }

  /** The goroutine body: at most MaxAttempts attempts, stop at the first 2xx
      response, send one value carrying the row count, panic on a body that
      does not decode, send nothing when every attempt fails. */
  method FetchFeed(magazine: string, script: seq<Attempt>) returns (outcome: FetchOutcome, attempts: nat)
    requires |script| == MaxAttempts
    ensures 1 <= attempts <= MaxAttempts
    ensures forall i :: 0 <= i < attempts - 1 ==> !Succeeds(script[i])
    ensures outcome.Silent? <==> !Succeeds(script[attempts - 1])
    ensures outcome.Silent? ==> attempts == MaxAttempts
    ensures outcome.Panicked? <==> Succeeds(script[attempts - 1]) && script[attempts - 1].body.Malformed?
    ensures outcome.Emitted? ==>
              outcome.data == MagazineData(magazine, script[attempts - 1].body.count)
    ensures outcome == Outcome(magazine, script)
  {
    outcome, attempts := Silent, 0;
    var j := 0;
    while j < MaxAttempts
      invariant 0 <= j <= MaxAttempts
      invariant forall i :: 0 <= i < j ==> !Succeeds(script[i])
      invariant outcome == Silent && attempts == j
    {
      attempts := j + 1;
      var res := script[j];
      if res.Response? && IsSuccessStatus(res.statusCode) {
        if res.body.Malformed? {
          outcome := Panicked;
          return;
        }
        outcome := Emitted(MagazineData(magazine, res.body.count));
        break;
      }
      j := j + 1;
    }
  }

  /** One script per feed, each with one entry per possible attempt. */
  predicate WellScripted(feeds: seq<Feed>, scripts: seq<seq<Attempt>>)
  {
    |scripts| == |feeds| && forall i :: 0 <= i < |scripts| ==> |scripts[i]| == MaxAttempts
  }

  /** What the join barrier leaves: the run crashed, or the multiset of values
      sent on the channel (their arrival order is not determined). */
  datatype DispatchOutcome = Crashed | Collected(results: multiset<MagazineData>)

  /** Specification of the fan-out: every feed's goroutine runs, keyed by the
      feed's name; any panic ends the run. */
  function Dispatched(feeds: seq<Feed>, scripts: seq<seq<Attempt>>): DispatchOutcome
    requires WellScripted(feeds, scripts)
  {
    if feeds == [] then Collected(multiset{})
    else
      var n := |feeds| - 1;
      var rest := Dispatched(feeds[..n], scripts[..n]);
      match Outcome(feeds[n].feedName, scripts[n])
      case Panicked => Crashed
      case Silent => rest
      case Emitted(d) => if rest.Crashed? then Crashed else Collected(rest.results + multiset{d})
  }

  /** The run crashes exactly when some feed's goroutine panics. */
  lemma {:induction false} DispatchCrashIff(feeds: seq<Feed>, scripts: seq<seq<Attempt>>)
    requires WellScripted(feeds, scripts)
    ensures Dispatched(feeds, scripts).Crashed? <==>
              exists i :: 0 <= i < |feeds| && Outcome(feeds[i].feedName, scripts[i]).Panicked?
  {
    if feeds != [] {
      var n := |feeds| - 1;
      DispatchCrashIff(feeds[..n], scripts[..n]);
      assert forall i :: 0 <= i < n ==> feeds[..n][i] == feeds[i] && scripts[..n][i] == scripts[i];
    }
  }

  /** Every collected value is keyed by the name of one of the feeds. */
  lemma DispatchKeys(feeds: seq<Feed>, scripts: seq<seq<Attempt>>)
    requires WellScripted(feeds, scripts)
    requires Dispatched(feeds, scripts).Collected?
    ensures forall x :: x in Dispatched(feeds, scripts).results ==>
              exists i :: 0 <= i < |feeds| && x.magazine == feeds[i].feedName
  {
    DispatchMembers(feeds, scripts);
    forall x | x in Dispatched(feeds, scripts).results
      ensures exists i :: 0 <= i < |feeds| && x.magazine == feeds[i].feedName
    {
      var i :| 0 <= i < |feeds| && Outcome(feeds[i].feedName, scripts[i]) == Emitted(x);
      assert x.magazine == feeds[i].feedName;
    }
  }

  /** A value is collected exactly when some feed's goroutine sends it, and
      there are never more values than feeds. */
  lemma {:induction false} DispatchMembers(feeds: seq<Feed>, scripts: seq<seq<Attempt>>)
    requires WellScripted(feeds, scripts)
    requires Dispatched(feeds, scripts).Collected?
    ensures |Dispatched(feeds, scripts).results| <= |feeds|
    ensures forall x :: x in Dispatched(feeds, scripts).results <==>
              exists i :: 0 <= i < |feeds| && Outcome(feeds[i].feedName, scripts[i]) == Emitted(x)
  {
    if feeds != [] {
      var n := |feeds| - 1;
      DispatchMembers(feeds[..n], scripts[..n]);
      assert forall i :: 0 <= i < n ==> feeds[..n][i] == feeds[i] && scripts[..n][i] == scripts[i];
    }
  }

  /** The feeds whose goroutine sends `x`. */
  function Emitters(feeds: seq<Feed>, scripts: seq<seq<Attempt>>, x: MagazineData): set<nat>
    requires WellScripted(feeds, scripts)
  {
    set i: nat | i < |feeds| && Outcome(feeds[i].feedName, scripts[i]) == Emitted(x)
  }

  lemma EmittersSnoc(feeds: seq<Feed>, scripts: seq<seq<Attempt>>, x: MagazineData)
    requires WellScripted(feeds, scripts) && feeds != []
    ensures WellScripted(feeds[..|feeds| - 1], scripts[..|feeds| - 1])
    ensures Emitters(feeds, scripts, x)
            == Emitters(feeds[..|feeds| - 1], scripts[..|feeds| - 1], x)
               + (if Outcome(feeds[|feeds| - 1].feedName, scripts[|feeds| - 1]) == Emitted(x)
                  then {|feeds| - 1} else {})
  {
    var n := |feeds| - 1;
    assert forall i :: 0 <= i < n ==> feeds[..n][i] == feeds[i] && scripts[..n][i] == scripts[i];
  }

  /** Each value is collected as many times as there are feeds whose goroutine
      sends it: one result per emitting feed, none merged. */
  lemma {:induction false} DispatchCounts(feeds: seq<Feed>, scripts: seq<seq<Attempt>>, x: MagazineData)
    requires WellScripted(feeds, scripts)
    requires Dispatched(feeds, scripts).Collected?
    ensures Dispatched(feeds, scripts).results[x] == |Emitters(feeds, scripts, x)|
  {
    if feeds == [] {
      assert Emitters(feeds, scripts, x) == {};
    } else {
      var n := |feeds| - 1;
      EmittersSnoc(feeds, scripts, x);
      DispatchCounts(feeds[..n], scripts[..n], x);
    }
  }

  /** The fan-out and join: one goroutine per feed, all run to completion. */
  method Dispatch(feeds: seq<Feed>, scripts: seq<seq<Attempt>>) returns (d: DispatchOutcome)
    requires WellScripted(feeds, scripts)
    ensures d == Dispatched(feeds, scripts)
  {
    var results: multiset<MagazineData> := multiset{};
    var crashed := false;
    for i := 0 to |feeds|
      invariant WellScripted(feeds[..i], scripts[..i])
      invariant Dispatched(feeds[..i], scripts[..i]) == if crashed then Crashed else Collected(results)
    {
      assert feeds[..i + 1][..i] == feeds[..i] && scripts[..i + 1][..i] == scripts[..i];
      var outcome, _ := FetchFeed(feeds[i].feedName, scripts[i]);
      match outcome {
        case Emitted(data) => results := results + multiset{data};
        case Panicked => crashed := true;
        case Silent =>
      }
    }
    assert feeds[..|feeds|] == feeds && scripts[..|feeds|] == scripts;
    d := if crashed then Crashed else Collected(results);
  }
}
