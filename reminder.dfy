/** The paused-feed reminder: each paused feed is looked up in the CRM, the
    feeds with exactly one owner are grouped by that owner's email, and each
    owner then gets one email listing their feeds. */
module Reminder {
  import opened Feeds
  import opened Soql
  import opened Notify

  /** The publisher whose feeds are looked up under the publisher's name. */
  const NewYorkTimes: string := "The New York Times"

  /** The magazine name a feed is looked up under. */
  function QueryKey(f: Feed): string
  {
    if f.publisher == NewYorkTimes then NewYorkTimes else f.feedName
  }

  /** The statement sent for a feed names "The New York Times" when the feed's
      publisher is exactly that string, and the feed's own name otherwise. */
  lemma QueryKeyOverride(f: Feed)
    ensures f.publisher == NewYorkTimes ==> MagazineOf(QueryText(QueryKey(f))) == NewYorkTimes
    ensures f.publisher != NewYorkTimes ==> MagazineOf(QueryText(QueryKey(f))) == f.feedName
  {
    QueryTextRoundTrip(QueryKey(f));
  }

  /** The decoded CRM answer (TotalSize and the owner email of each record),
      or the error of the request or of decoding its answer. */
  datatype QueryResult = QueryFailed(err: string) | QueryOk(totalSize: int, records: seq<string>)

  /** The CRM, as a function of the access token and the statement text. */
  type Resolver = (string, string) -> QueryResult

  /** What the grouping loop does with one feed. Indexing the first record of
      an empty record list is a Go runtime panic. */
  datatype Step = Skip | AddTo(owner: string) | Abort(err: string) | Crash

  function StepFor(token: string, resolve: Resolver, f: Feed): Step
  {
    if !f.pauseIngestion then Skip
    else match resolve(token, QueryText(QueryKey(f)))
      case QueryFailed(e) => Abort(e)
      case QueryOk(n, records) =>
        if n < 1 then Skip
        else if n > 1 then Skip
        else if records == [] then Crash
        else AddTo(records[0])
  }

  /** A feed the CRM assigns to `owner`: paused, and its lookup answered with
      exactly one record whose email is `owner`. */
  predicate AssignedTo(token: string, resolve: Resolver, f: Feed, owner: string)
  {
    var r := resolve(token, QueryText(QueryKey(f)));
    f.pauseIngestion && r.QueryOk? && r.totalSize == 1 && r.records != [] && r.records[0] == owner
  }

  /** The feeds assigned to `owner`, in input order. */
  function AssignedFeeds(token: string, resolve: Resolver, feeds: seq<Feed>, owner: string): seq<Feed>
  {
    if feeds == [] then []
    else
      var n := |feeds| - 1;
      AssignedFeeds(token, resolve, feeds[..n], owner)
      + (if AssignedTo(token, resolve, feeds[n], owner) then [feeds[n]] else [])
  }

  datatype Grouping = GroupAborted(err: string) | GroupCrashed | Groups(byOwner: map<string, seq<Feed>>)

  /** `csmEmailFeed[o]`: a missing owner reads as the empty list. */
  function Lookup(g: map<string, seq<Feed>>, o: string): seq<Feed>
  {
    if o in g then g[o] else []
  }

  /** One turn of the grouping loop: a stopped loop stays stopped. */
  function ApplyStep(g: Grouping, s: Step, f: Feed): Grouping
  {
    match g
    case Groups(m) =>
      (match s
       case Skip => Groups(m)
       case AddTo(o) => Groups(m[o := Lookup(m, o) + [f]])
       case Abort(e) => GroupAborted(e)
       case Crash => GroupCrashed)
    case GroupAborted(e) => GroupAborted(e)
    case GroupCrashed => GroupCrashed
  }

  /** Specification of the grouping loop over the feeds, in order. */
  function GroupSpec(token: string, resolve: Resolver, feeds: seq<Feed>): Grouping
  {
    if feeds == [] then Groups(map[])
    else
      var n := |feeds| - 1;
      ApplyStep(GroupSpec(token, resolve, feeds[..n]), StepFor(token, resolve, feeds[n]), feeds[n])
  }

  lemma GroupSpecPrefix(token: string, resolve: Resolver, feeds: seq<Feed>, i: nat)
    requires i < |feeds|
    ensures GroupSpec(token, resolve, feeds[..i + 1])
            == ApplyStep(GroupSpec(token, resolve, feeds[..i]), StepFor(token, resolve, feeds[i]), feeds[i])
  {
    assert feeds[..i + 1][..i] == feeds[..i];
  }

  lemma StepAssigned(token: string, resolve: Resolver, f: Feed, owner: string)
    ensures StepFor(token, resolve, f) == AddTo(owner) <==> AssignedTo(token, resolve, f, owner)
  {
  }

  /** Each owner's group is exactly the feeds assigned to that owner, in input
      order; an owner is present exactly when some feed is assigned to them. */
  lemma {:induction false} GroupsAreAssignments(token: string, resolve: Resolver, feeds: seq<Feed>)
    requires GroupSpec(token, resolve, feeds).Groups?
    ensures forall o :: o in GroupSpec(token, resolve, feeds).byOwner <==> AssignedFeeds(token, resolve, feeds, o) != []
    ensures forall o :: Lookup(GroupSpec(token, resolve, feeds).byOwner, o) == AssignedFeeds(token, resolve, feeds, o)
  {
    if feeds != [] {
      var n := |feeds| - 1;
      GroupsAreAssignments(token, resolve, feeds[..n]);
      forall o ensures AssignedTo(token, resolve, feeds[n], o) <==> StepFor(token, resolve, feeds[n]) == AddTo(o) {
        StepAssigned(token, resolve, feeds[n], o);
      }
    }
  }

  lemma {:induction false} AssignedFeedsMember(token: string, resolve: Resolver, feeds: seq<Feed>, owner: string, f: Feed)
    ensures f in AssignedFeeds(token, resolve, feeds, owner) <==> f in feeds && AssignedTo(token, resolve, f, owner)
  {
    if feeds != [] {
      var n := |feeds| - 1;
      AssignedFeedsMember(token, resolve, feeds[..n], owner, f);
      assert feeds == feeds[..n] + [feeds[n]];
    }
  }

  /** A feed is in an owner's group exactly when it is paused and its lookup
      returned TotalSize 1 with that owner's email first: unpaused feeds and
      feeds with zero or several matches are in no group. */
  lemma GroupMembership(token: string, resolve: Resolver, feeds: seq<Feed>, owner: string, f: Feed)
    requires GroupSpec(token, resolve, feeds).Groups?
    ensures f in Lookup(GroupSpec(token, resolve, feeds).byOwner, owner) <==>
              f in feeds && f.pauseIngestion
              && resolve(token, QueryText(QueryKey(f))).QueryOk?
              && resolve(token, QueryText(QueryKey(f))).totalSize == 1
              && resolve(token, QueryText(QueryKey(f))).records != []
              && resolve(token, QueryText(QueryKey(f))).records[0] == owner
  {
    GroupsAreAssignments(token, resolve, feeds);
    AssignedFeedsMember(token, resolve, feeds, owner, f);
  }

  /** A step that lets the loop go on. */
  predicate Continues(s: Step)
  {
    s.Skip? || s.AddTo?
  }

  /** Grouping succeeds exactly when no feed's lookup fails or panics; when it
      stops, it stops at the first feed whose lookup does. */
  lemma {:induction false} GroupSpecStops(token: string, resolve: Resolver, feeds: seq<Feed>)
    ensures GroupSpec(token, resolve, feeds).Groups? <==>
              forall i :: 0 <= i < |feeds| ==> Continues(StepFor(token, resolve, feeds[i]))
    ensures GroupSpec(token, resolve, feeds).GroupAborted? ==>
              exists i :: 0 <= i < |feeds|
                && StepFor(token, resolve, feeds[i]) == Abort(GroupSpec(token, resolve, feeds).err)
                && forall j :: 0 <= j < i ==> Continues(StepFor(token, resolve, feeds[j]))
    ensures GroupSpec(token, resolve, feeds).GroupCrashed? ==>
              exists i :: 0 <= i < |feeds| && StepFor(token, resolve, feeds[i]).Crash?
                && forall j :: 0 <= j < i ==> Continues(StepFor(token, resolve, feeds[j]))
  {
    if feeds != [] {
      var n := |feeds| - 1;
      GroupSpecStops(token, resolve, feeds[..n]);
      assert forall i :: 0 <= i < n ==> feeds[..n][i] == feeds[i];
    }
  }

  /** Once a prefix of the feeds stops the loop, the whole list stops it. */
  lemma {:induction false} GroupStopExtends(token: string, resolve: Resolver, feeds: seq<Feed>, k: nat)
    requires k <= |feeds|
    requires !GroupSpec(token, resolve, feeds[..k]).Groups?
    ensures GroupSpec(token, resolve, feeds) == GroupSpec(token, resolve, feeds[..k])
    decreases |feeds| - k
  {
    if k < |feeds| {
      assert feeds[..k + 1][..k] == feeds[..k];
      GroupStopExtends(token, resolve, feeds, k + 1);
    } else {
      assert feeds[..k] == feeds;
    }
  }

  /** The body of the grouping loop for one feed: a paused feed is looked up
      under its QueryKey; a failed lookup stops the loop, zero or several
      matches pass the feed over, and the first record names its owner. */
  method ClassifyFeed(token: string, resolve: Resolver, f: Feed) returns (step: Step)
    ensures step == StepFor(token, resolve, f)
  {
    if !f.pauseIngestion {
      return Skip;
    }
    var queryMag := QueryKey(f);
    var res := resolve(token, QueryText(queryMag));
    if res.QueryFailed? {
      return Abort(res.err);
    }
    if res.totalSize < 1 || res.totalSize > 1 {
      return Skip;
    }
    if res.records == [] {
      return Crash;
    }
    return AddTo(res.records[0]);
  }

  /** The grouping loop of PausedFeedReminder. */
  method GroupPausedFeeds(token: string, resolve: Resolver, feeds: seq<Feed>) returns (r: Grouping)
    ensures r == GroupSpec(token, resolve, feeds)
  {
    var groups: map<string, seq<Feed>> := map[];
    for i := 0 to |feeds|
      invariant GroupSpec(token, resolve, feeds[..i]) == Groups(groups)
    {
      GroupSpecPrefix(token, resolve, feeds, i);
      var f := feeds[i];
      var step := ClassifyFeed(token, resolve, f);
      match step {
        case Skip =>
        case AddTo(owner) =>
          groups := groups[owner := Lookup(groups, owner) + [f]];
        case Abort(e) =>
          GroupStopExtends(token, resolve, feeds, i + 1);
          return GroupAborted(e);
        case Crash =>
          GroupStopExtends(token, resolve, feeds, i + 1);
          return GroupCrashed;
      }
    }
    assert feeds[..|feeds|] == feeds;
    r := Groups(groups);
  }

  /** The outcome of one send. */
  datatype SendStatus = Delivered | SendFailed(err: string)

  /** The mail service, as a function of the recipient and the HTML content. */
  type Sender = (string, string) -> SendStatus

  /** One email handed to the mail service. */
  datatype Email = Email(to: string, html: string)

  datatype Option<T> = None | Some(value: T)

  function Recipients(sent: seq<Email>): set<string>
  {
    set k | 0 <= k < |sent| :: sent[k].to
  }

  lemma RecipientsSnoc(sent: seq<Email>, e: Email)
    ensures Recipients(sent + [e]) == Recipients(sent) + {e.to}
  {
    var s := sent + [e];
    assert forall k :: 0 <= k < |sent| ==> s[k] == sent[k];
    assert s[|sent|] == e;
  }

  /** What the send loop promises: every email goes to an owner with the list
      of that owner's feeds, no owner gets two, all but the last were delivered;
      without an error every owner got one, with an error the last send failed
      with it. */
  predicate SendLog(groups: map<string, seq<Feed>>, send: Sender, sent: seq<Email>, failure: Option<string>)
  {
    && (forall k :: 0 <= k < |sent| ==> sent[k].to in groups && sent[k].html == HtmlContent(groups[sent[k].to]))
    && (forall i, j :: 0 <= i < j < |sent| ==> sent[i].to != sent[j].to)
    && (forall k :: 0 <= k < |sent| - 1 ==> send(sent[k].to, sent[k].html) == Delivered)
    && (failure.None? ==> Recipients(sent) == groups.Keys && |sent| == |groups|
                          && forall k :: 0 <= k < |sent| ==> send(sent[k].to, sent[k].html) == Delivered)
    && (failure.Some? ==> |sent| > 0 && send(sent[|sent| - 1].to, sent[|sent| - 1].html) == SendFailed(failure.value))
  }

  /** The state of the send loop with the owners in `rest` still to go. */
  predicate SendProgress(groups: map<string, seq<Feed>>, send: Sender, sent: seq<Email>, rest: set<string>)
  {
    && rest <= groups.Keys
    && Recipients(sent) == groups.Keys - rest
    && |sent| + |rest| == |groups|
    && (forall k :: 0 <= k < |sent| ==> sent[k].to in groups && sent[k].html == HtmlContent(groups[sent[k].to]))
    && (forall i, j :: 0 <= i < j < |sent| ==> sent[i].to != sent[j].to)
    && (forall k :: 0 <= k < |sent| ==> send(sent[k].to, sent[k].html) == Delivered)
  }

  /** Sending to one more owner of `rest` moves that owner to the recipients. */
  lemma RecipientsStep(keys: set<string>, sent: seq<Email>, rest: set<string>, e: Email)
    requires rest <= keys && Recipients(sent) == keys - rest && e.to in rest
    ensures e.to !in Recipients(sent)
    ensures Recipients(sent + [e]) == keys - (rest - {e.to})
    ensures |rest - {e.to}| == |rest| - 1
  {
    RecipientsSnoc(sent, e);
  }

  /** A new recipient keeps the recipients pairwise distinct. */
  lemma DistinctStep(sent: seq<Email>, e: Email)
    requires forall i, j :: 0 <= i < j < |sent| ==> sent[i].to != sent[j].to
    requires e.to !in Recipients(sent)
    ensures forall i, j :: 0 <= i < j < |sent + [e]| ==> (sent + [e])[i].to != (sent + [e])[j].to
  {
    var s := sent + [e];
    forall i, j | 0 <= i < j < |s| ensures s[i].to != s[j].to {
      if j == |sent| {
        assert s[i] == sent[i];
        assert sent[i].to in Recipients(sent);
      } else {
        assert s[i] == sent[i] && s[j] == sent[j];
      }
    }
  }

  lemma SendDelivered(groups: map<string, seq<Feed>>, send: Sender, sent: seq<Email>, rest: set<string>, e: Email)
    requires SendProgress(groups, send, sent, rest)
    requires e.to in rest && e.html == HtmlContent(groups[e.to])
    requires send(e.to, e.html) == Delivered
    ensures SendProgress(groups, send, sent + [e], rest - {e.to})
  {
    RecipientsStep(groups.Keys, sent, rest, e);
    DistinctStep(sent, e);
    var s := sent + [e];
    assert forall k :: 0 <= k < |sent| ==> s[k] == sent[k];
  }

  lemma SendFailedLast(groups: map<string, seq<Feed>>, send: Sender, sent: seq<Email>, rest: set<string>, e: Email, err: string)
    requires SendProgress(groups, send, sent, rest)
    requires e.to in rest && e.html == HtmlContent(groups[e.to])
    requires send(e.to, e.html) == SendFailed(err)
    ensures SendLog(groups, send, sent + [e], Some(err))
  {
    RecipientsStep(groups.Keys, sent, rest, e);
    DistinctStep(sent, e);
    var s := sent + [e];
    assert forall k :: 0 <= k < |sent| ==> s[k] == sent[k];
  }

  lemma SendFinished(groups: map<string, seq<Feed>>, send: Sender, sent: seq<Email>)
    requires SendProgress(groups, send, sent, {})
    ensures SendLog(groups, send, sent, None)
  {
  }

  /** The send loop: one SendEmail per owner, in Go's unspecified map order (an
      arbitrary choice here), returning at the first error. */
  method SendAll(groups: map<string, seq<Feed>>, send: Sender) returns (sent: seq<Email>, failure: Option<string>)
    ensures SendLog(groups, send, sent, failure)
  {
    sent := [];
    var rest := groups.Keys;
    while rest != {}
      invariant SendProgress(groups, send, sent, rest)
      decreases |rest|
    {
      var email :| email in rest;
      var html := ComposeHtml(groups[email]);
      var status := send(email, html);
      if status.SendFailed? {
        SendFailedLast(groups, send, sent, rest, Email(email, html), status.err);
        return sent + [Email(email, html)], Some(status.err);
      }
      SendDelivered(groups, send, sent, rest, Email(email, html));
      sent := sent + [Email(email, html)];
      rest := rest - {email};
    }
    SendFinished(groups, send, sent);
    failure := None;
  }

  /** The result of the token exchange (`GetToken`): an error, or the access token. */
  datatype TokenResult = TokenFailed(err: string) | Token(value: string)

  datatype ReminderOutcome = Done | Failed(err: string) | Panicked

  /** PausedFeedReminder: a token or query error returns the error before any
      email is sent, a panic sends none; otherwise each owner's feeds go out
      as the send loop promises. */
  method PausedFeedReminder(token: TokenResult, resolve: Resolver, send: Sender, feeds: seq<Feed>)
    returns (sent: seq<Email>, outcome: ReminderOutcome)
    ensures token.TokenFailed? ==> sent == [] && outcome == Failed(token.err)
    ensures token.Token? && GroupSpec(token.value, resolve, feeds).GroupAborted? ==>
              sent == [] && outcome == Failed(GroupSpec(token.value, resolve, feeds).err)
    ensures token.Token? && GroupSpec(token.value, resolve, feeds).GroupCrashed? ==>
              sent == [] && outcome == Panicked
    ensures token.Token? && GroupSpec(token.value, resolve, feeds).Groups? ==>
              SendLog(GroupSpec(token.value, resolve, feeds).byOwner, send, sent,
                      if outcome.Failed? then Some(outcome.err) else None)
              && !outcome.Panicked?
  {
    if token.TokenFailed? {
      return [], Failed(token.err);
    }
    var grouping := GroupPausedFeeds(token.value, resolve, feeds);
    match grouping {
      case GroupAborted(e) =>
        return [], Failed(e);
      case GroupCrashed =>
        return [], Panicked;
      case Groups(g) =>
        var failure;
        sent, failure := SendAll(g, send);
        outcome := if failure.Some? then Failed(failure.value) else Done;
    }
  }
}
