/** Flattening of the catalog's publisher documents into one list of feeds. */
module Feeds {

  /** One element of a publisher document's RSS_Feeds list. `id` and `magazine`
      are decoded but never read by the program. */
  datatype RssFeed = RssFeed(
    id: string,
    rssFeedName: string,
    rssFeedUrl: string,
    lastUpdatedDate: string,
    magazine: string,
    pauseIngestion: bool)

  /** A feed as the rest of the program sees it. */
  datatype Feed = Feed(
    publisher: string,
    feedUrl: string,
    lastUpdatedDate: string,
    feedName: string,
    pauseIngestion: bool)

  /** The dynamic value of a document's Publisher_Name property. */
  datatype Property = Str(s: string) | NonString

  /** The RSS_Feeds property after the JSON round trip: a list, or a decode error. */
  datatype FeedsProperty = Decoded(feeds: seq<RssFeed>) | Undecodable

  datatype PublisherDoc = PublisherDoc(publisherName: Property, rssFeeds: FeedsProperty)

  /** Why flattening stops the process: a decode error exits, a failed
      `.(string)` assertion on Publisher_Name panics. */
  datatype AbortReason = DecodeError | PublisherNotString

  datatype FlattenResult = Flat(feeds: seq<Feed>) | Aborted(reason: AbortReason)

  function ToFeed(publisher: string, r: RssFeed): Feed
  {
    Feed(publisher, r.rssFeedUrl, r.lastUpdatedDate, r.rssFeedName, r.pauseIngestion)
  }

  function ToFeeds(publisher: string, rs: seq<RssFeed>): seq<Feed>
  {
    seq(|rs|, k requires 0 <= k < |rs| => ToFeed(publisher, rs[k]))
  }

  /** The feeds one document contributes, or why it stops the run. The type
      assertion is evaluated once per RSS feed, so a document with an empty
      list never panics. */
  function DocFeeds(d: PublisherDoc): FlattenResult
  {
    match d.rssFeeds
    case Undecodable => Aborted(DecodeError)
    case Decoded(rs) =>
      if rs == [] then Flat([])
      else match d.publisherName
        case NonString => Aborted(PublisherNotString)
        case Str(p) => Flat(ToFeeds(p, rs))
  }

  /** Specification of the flattening loop: documents are handled in order and
      the first one that fails stops the run. */
  function Flatten(docs: seq<PublisherDoc>): FlattenResult
  {
    if docs == [] then Flat([])
    else match Flatten(docs[..|docs| - 1])
      case Aborted(r) => Aborted(r)
      case Flat(fs) =>
        match DocFeeds(docs[|docs| - 1])
        case Aborted(r) => Aborted(r)
        case Flat(ds) => Flat(fs + ds)
  }

  /** A document that flattens without stopping the run. */
  predicate DocOk(d: PublisherDoc)
  {
    d.rssFeeds.Decoded? && (d.rssFeeds.feeds != [] ==> d.publisherName.Str?)
  }

  function FeedCount(d: PublisherDoc): nat
  {
    match d.rssFeeds
    case Decoded(rs) => |rs|
    case Undecodable => 0
  }

  /** Number of feeds contributed by the first `i` documents. */
  function Offset(docs: seq<PublisherDoc>, i: nat): nat
    requires i <= |docs|
  {
    if i == 0 then 0 else Offset(docs, i - 1) + FeedCount(docs[i - 1])
  }

  /** Flattening succeeds exactly when every document is well formed. */
  lemma {:induction false} FlattenSucceedsIff(docs: seq<PublisherDoc>)
    ensures Flatten(docs).Flat? <==> forall i :: 0 <= i < |docs| ==> DocOk(docs[i])
  {
    if docs != [] {
      var init := docs[..|docs| - 1];
      FlattenSucceedsIff(init);
      assert forall i :: 0 <= i < |init| ==> init[i] == docs[i];
    }
  }

  /** The flat list is the in-order concatenation of the per-document lists:
      its length is the sum of their lengths. */
  lemma {:induction false} FlattenLength(docs: seq<PublisherDoc>)
    requires Flatten(docs).Flat?
    ensures |Flatten(docs).feeds| == Offset(docs, |docs|)
  {
    if docs != [] {
      var init := docs[..|docs| - 1];
      FlattenLength(init);
      OffsetPrefix(docs, |init|, |init|);
    }
  }

  lemma {:induction false} OffsetPrefix(docs: seq<PublisherDoc>, n: nat, k: nat)
    requires k <= n <= |docs|
    ensures Offset(docs[..n], k) == Offset(docs, k)
  {
    if k > 0 {
      OffsetPrefix(docs, n, k - 1);
      assert docs[..n][k - 1] == docs[k - 1];
    }
  }

  /** Entry `j` of document `i` sits at position Offset(docs, i) + j of the flat
      list; its publisher is the document's Publisher_Name and its URL, name,
      date and pause flag are copied from the RSS feed. */
  lemma {:induction false} FlattenAt(docs: seq<PublisherDoc>, i: nat, j: nat)
    requires forall k :: 0 <= k < |docs| ==> DocOk(docs[k])
    requires i < |docs| && j < FeedCount(docs[i])
    ensures Flatten(docs).Flat?
    ensures Offset(docs, i) + j < |Flatten(docs).feeds|
    ensures var f := Flatten(docs).feeds[Offset(docs, i) + j];
            var r := docs[i].rssFeeds.feeds[j];
            && docs[i].publisherName == Str(f.publisher)
            && f.feedUrl == r.rssFeedUrl
            && f.feedName == r.rssFeedName
            && f.lastUpdatedDate == r.lastUpdatedDate
            && f.pauseIngestion == r.pauseIngestion
  {
    FlattenSucceedsIff(docs);
    var n := |docs|;
    var init := docs[..n - 1];
    assert forall k :: 0 <= k < |init| ==> init[k] == docs[k];
    FlattenSucceedsIff(init);
    FlattenLength(init);
    OffsetPrefix(docs, n - 1, i);
    if i < n - 1 {
      FlattenAt(init, i, j);
      assert init[i] == docs[i];
    } else {
      assert Offset(docs, i) == |Flatten(init).feeds|;
    }
  }

  /** If a prefix of the documents already stops the run, the whole list does. */
  lemma {:induction false} FlattenAbortExtends(docs: seq<PublisherDoc>, k: nat)
    requires k <= |docs|
    requires Flatten(docs[..k]).Aborted?
    ensures Flatten(docs) == Flatten(docs[..k])
    decreases |docs| - k
  {
    if k < |docs| {
      assert docs[..k + 1][..k] == docs[..k];
      FlattenAbortExtends(docs, k + 1);
    } else {
      assert docs[..k] == docs;
    }
  }

  /** The flattening loop: one Feed per RSS feed, appended in order. */
  method FlattenFeeds(docs: seq<PublisherDoc>) returns (r: FlattenResult)
    ensures r == Flatten(docs)
  {
    var feeds: seq<Feed> := [];
    var i := 0;
    while i < |docs|
      invariant 0 <= i <= |docs|
      invariant Flatten(docs[..i]) == Flat(feeds)
    {
      var doc := docs[i];
      assert docs[..i + 1][..i] == docs[..i];
      match doc.rssFeeds {
        case Undecodable =>
          FlattenAbortExtends(docs, i + 1);
          return Aborted(DecodeError);
        case Decoded(rss) =>
          ghost var start := feeds;
          var j := 0;
          while j < |rss|
            invariant 0 <= j <= |rss|
            invariant j > 0 ==> doc.publisherName.Str?
            invariant j > 0 ==> feeds == start + ToFeeds(doc.publisherName.s, rss[..j])
            invariant j == 0 ==> feeds == start
          {
            match doc.publisherName {
              case NonString =>
                FlattenAbortExtends(docs, i + 1);
                return Aborted(PublisherNotString);
              case Str(p) =>
                feeds := feeds + [ToFeed(p, rss[j])];
                assert ToFeeds(p, rss[..j + 1]) == ToFeeds(p, rss[..j]) + [ToFeed(p, rss[j])];
            }
            j := j + 1;
          }
          assert rss[..j] == rss;
      }
      i := i + 1;
    }
    assert docs[..i] == docs;
    r := Flat(feeds);
  }
}
