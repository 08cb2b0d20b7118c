/** The HTML body of a paused-feed reminder: one paragraph per feed, inside a
    fixed wrapper. */
module Notify {
  import opened Feeds

  const HtmlOpen: string := "<html><head></head><body>"
  const HtmlClose: string := "<br><br><br>WM RSS Mailer</body></html>"

  /** The fixed pieces of a feed's paragraph, in order. */
  const BeforeName: string := "The feed for <b>"
  const BeforePublisher: string := "</b> ("
  const BeforeUrl: string :=
    ") is paused. Please work with the Publisher to resolve the errors and unpause the feed.<br><br>URL: <a href='"
  const BeforeLinkText: string := "'>"
  const AfterLink: string := "</a><br><br><br>"

  /** The paragraph for one feed: its name, its publisher and a link to its URL. */
  function Paragraph(f: Feed): string
  {
    BeforeName + f.feedName + BeforePublisher + f.publisher + BeforeUrl
    + f.feedUrl + BeforeLinkText + f.feedUrl + AfterLink
  }

  /** Pieces of text laid end to end. */
  function Concat(ps: seq<string>): string
  {
    if ps == [] then [] else Concat(ps[..|ps| - 1]) + ps[|ps| - 1]
  }

  /** Where piece `i` starts in Concat(ps). */
  function Start(ps: seq<string>, i: nat): nat
    requires i <= |ps|
  {
    if i == 0 then 0 else Start(ps, i - 1) + |ps[i - 1]|
  }

  /** The paragraph of each feed, in order. */
  function Paragraphs(feeds: seq<Feed>): (ps: seq<string>)
    ensures |ps| == |feeds|
    ensures forall i :: 0 <= i < |feeds| ==> ps[i] == Paragraph(feeds[i])
  {
    seq(|feeds|, i requires 0 <= i < |feeds| => Paragraph(feeds[i]))
  }

  /** The paragraphs of all feeds, in order, laid end to end. */
  function Body(feeds: seq<Feed>): string
  {
    Concat(Paragraphs(feeds))
  }

  /** Concat lays the pieces end to end: piece `i` sits at Start(ps, i), and
      nothing else is in the text. */
  lemma {:induction false} ConcatLayout(ps: seq<string>, i: nat)
    requires i < |ps|
    ensures |Concat(ps)| == Start(ps, |ps|)
    ensures Start(ps, i + 1) <= |Concat(ps)|
    ensures Concat(ps)[Start(ps, i)..Start(ps, i + 1)] == ps[i]
  {
    var n := |ps| - 1;
    var init := ps[..n];
    var b := Concat(init);
    ConcatLength(ps);
    ConcatLength(init);
    StartPrefix(ps, n, n);
    if i < n {
      ConcatLayout(init, i);
      StartPrefix(ps, n, i);
      StartPrefix(ps, n, i + 1);
      StartMonotone(ps, i + 1, n);
      assert (b + ps[n])[Start(ps, i)..Start(ps, i + 1)] == b[Start(ps, i)..Start(ps, i + 1)];
    } else {
      assert (b + ps[n])[|b|..|b| + |ps[n]|] == ps[n];
    }
  }

  lemma {:induction false} ConcatLength(ps: seq<string>)
    ensures |Concat(ps)| == Start(ps, |ps|)
  {
    if ps != [] {
      var n := |ps| - 1;
      ConcatLength(ps[..n]);
      StartPrefix(ps, n, n);
    }
  }

  lemma {:induction false} StartPrefix(ps: seq<string>, n: nat, k: nat)
    requires k <= n <= |ps|
    ensures Start(ps[..n], k) == Start(ps, k)
  {
    if k > 0 {
      StartPrefix(ps, n, k - 1);
      assert ps[..n][k - 1] == ps[k - 1];
    }
  }

  lemma {:induction false} StartMonotone(ps: seq<string>, i: nat, j: nat)
    requires i <= j <= |ps|
    ensures Start(ps, i) <= Start(ps, j)
    decreases j
  {
    if i < j {
      StartMonotone(ps, i, j - 1);
    }
  }

  /** The accumulation loop of SendEmail: `email_body = email_body + ...`. */
  method BuildBody(feeds: seq<Feed>) returns (body: string)
    ensures body == Body(feeds)
  {
    ghost var ps := Paragraphs(feeds);
    body := "";
    for i := 0 to |feeds|
      invariant body == Concat(ps[..i])
    {
      assert ps[..i + 1][..i] == ps[..i];
      body := body + Paragraph(feeds[i]);
    }
    assert ps[..|feeds|] == ps;
  }

  /** The HtmlContent of the reminder: the body inside the fixed wrapper. */
  function HtmlContent(feeds: seq<Feed>): string
  {
    HtmlOpen + Body(feeds) + HtmlClose
  }

  /** SendEmail's HtmlContent: the accumulated body inside the wrapper. */
  method ComposeHtml(feeds: seq<Feed>) returns (html: string)
    ensures html == HtmlContent(feeds)
  {
    var body := BuildBody(feeds);
    html := HtmlOpen + body + HtmlClose;
  }

  /** Where the paragraph of feed `i` starts in the body. */
  function ParagraphStart(feeds: seq<Feed>, i: nat): nat
    requires i <= |feeds|
  {
    Start(Paragraphs(feeds), i)
  }

  /** Pieces laid end to end between an opening and a closing text: the
      opening and closing stay put and piece `i` sits after the opening. */
  lemma WrapLayout(o: string, ps: seq<string>, c: string, i: nat, p: string)
    requires i < |ps| && ps[i] == p
    ensures (o + Concat(ps) + c)[..|o|] == o
    ensures (o + Concat(ps) + c)[|o + Concat(ps) + c| - |c|..] == c
    ensures |o| + Start(ps, i + 1) <= |o + Concat(ps) + c| - |c|
    ensures (o + Concat(ps) + c)[|o| + Start(ps, i)..|o| + Start(ps, i + 1)] == p
  {
    var b := Concat(ps);
    ConcatLayout(ps, i);
    assert (o + b + c)[|o| + Start(ps, i)..|o| + Start(ps, i + 1)] == b[Start(ps, i)..Start(ps, i + 1)];
  }

  /** The reminder lists every feed of the list, in list order, each as its
      own paragraph between the fixed opening and closing text. */
  lemma HtmlLayout(feeds: seq<Feed>, i: nat)
    requires i < |feeds|
    ensures HtmlContent(feeds)[..|HtmlOpen|] == HtmlOpen
    ensures HtmlContent(feeds)[|HtmlContent(feeds)| - |HtmlClose|..] == HtmlClose
    ensures |HtmlOpen| + ParagraphStart(feeds, i + 1) <= |HtmlContent(feeds)| - |HtmlClose|
    ensures HtmlContent(feeds)[|HtmlOpen| + ParagraphStart(feeds, i)..|HtmlOpen| + ParagraphStart(feeds, i + 1)]
            == Paragraph(feeds[i])
  {
    WrapLayout(HtmlOpen, Paragraphs(feeds), HtmlClose, i, Paragraph(feeds[i]));
  }
}
