/**
 * The single-pass Gemtext renderer. A `Converter` holds the output buffer,
 * the id the next link marker gets, and the queue of links waiting for the
 * end of their paragraph. `Step` dispatches one event; `Convert` feeds a
 * whole event sequence through `Step`, one event after the other.
 */
module Render {
  import opened Base
  import opened Events
  import opened Decimal
  import opened LinkBlock

  datatype Converter = Converter(out: string, nextLinkId: nat, links: seq<Link>)

  /** A fresh converter: empty buffer, first link id 1, empty queue. */
  function New(): Converter {
    Converter("", 1, [])
  }

  /** Appends text to the output buffer. */
  function Write(c: Converter, s: string): Converter {
    c.(out := c.out + s)
  }

  /** `n` copies of `ch`. */
  function Repeat(ch: char, n: nat): (r: string)
    ensures |r| == n
    ensures forall i :: 0 <= i < n ==> r[i] == ch
  {
    seq(n, _ => ch)
  }

  /** The heading prefix: one `#` per level, at most three levels, then a space. */
  function HeadingMarker(depth: nat): (r: string)
    ensures |r| >= 1 && r[|r| - 1] == ' '
    ensures forall i :: 0 <= i < |r| - 1 ==> r[i] == '#'
    ensures depth <= 3 ==> |r| - 1 == depth
    ensures depth >= 3 ==> |r| - 1 == 3
  {
    Repeat('#', if depth < 3 then depth else 3) + " "
  }

  /** The inline link marker `[id]`. */
  function Marker(id: nat): string {
    "[" + Show(id) + "]"
  }

  /** Different ids give different markers. */
  lemma MarkerInjective(a: nat, b: nat)
    ensures Marker(a) == Marker(b) <==> a == b
  {
    var m, n := Marker(a), Marker(b);
    if m == n {
      assert m[1..|m| - 1] == Show(a);
      assert n[1..|n| - 1] == Show(b);
      ShowInjective(a, b);
    }
  }

  /** The fixed text an event writes, apart from link markers and the link flush. */
  function Token(e: Event): string {
    match e
    case EmphasisStart | EmphasisEnd => "*"
    case StrongStart | StrongEnd => "**"
    case StrikethroughStart | StrikethroughEnd => "~~"
    case BlockQuoteStart => ">"
    case ItemStart => "* "
    case ItemEnd | ListEnd => "\n"
    case HeadingStart(depth) => HeadingMarker(depth)
    case HeadingEnd | ParagraphEnd => "\n\n"
    case Text(text) => text
    case SoftBreak => " "
    case LinkEnd(_, _) | Other => ""
  }

  /** Queues the link and writes its marker with the current id, then advances the id. */
  function HandleLink(c: Converter, destination: string, title: string): (r: Converter)
    ensures r.out == c.out + Marker(c.nextLinkId)
    ensures r.links == c.links + [Link(destination, title)]
    ensures r.nextLinkId == c.nextLinkId + 1
  {
    var c := c.(links := c.links + [Link(destination, title)]);
    var c := Write(c, Marker(c.nextLinkId));
    c.(nextLinkId := c.nextLinkId + 1)
  }

  /** Writes every queued link, then a blank line, and empties the queue; nothing at all for an empty queue. */
  function WritePendingLinks(c: Converter): (r: Converter)
    ensures c.links == [] ==> r == c
    ensures r.links == [] && r.nextLinkId == c.nextLinkId
    ensures r.out == c.out + PendingLinksText(c.links)
    ensures c.links != [] ==> |r.out| > |c.out|
  {
    if c.links == [] then c
    else
      var links := c.links;
      var c := c.(links := []);
      Write(c, PendingLinksText(links))
  }

  /** Dispatches one event. */
  function Step(c: Converter, e: Event): (r: Converter)
    ensures c.out <= r.out
    ensures r.nextLinkId == c.nextLinkId + (if e.LinkEnd? then 1 else 0)
    ensures e.LinkEnd? ==> r.links == c.links + [Link(e.destination, e.title)]
    ensures e.LinkEnd? ==> r.out == c.out + Marker(c.nextLinkId)
    ensures e.ParagraphEnd? ==> r.links == [] && r.out == c.out + "\n\n" + PendingLinksText(c.links)
    ensures !e.LinkEnd? && !e.ParagraphEnd? ==> r.links == c.links && r.out == c.out + Token(e)
  {
    if e.LinkEnd? then HandleLink(c, e.destination, e.title)
    else if e.ParagraphEnd? then WritePendingLinks(Write(c, Token(e)))
    else Write(c, Token(e))
  }

  /** The number of links among the events. */
  function LinkCount(es: seq<Event>): (n: nat)
    ensures n <= |es|
    decreases |es|
  {
    if es == [] then 0
    else LinkCount(es[..|es| - 1]) + (if es[|es| - 1].LinkEnd? then 1 else 0)
  }

  /** No link is counted exactly when no event ends a link. */
  lemma {:induction false} LinkCountZero(es: seq<Event>)
    ensures LinkCount(es) == 0 <==> forall e :: e in es ==> !e.LinkEnd?
    decreases |es|
  {
    if es != [] {
      var es', e := es[..|es| - 1], es[|es| - 1];
      LinkCountZero(es');
      assert es == es' + [e];
    }
  }

  /** The links of the events, in event order. */
  function LinksOf(es: seq<Event>): (ls: seq<Link>)
    ensures |ls| == LinkCount(es)
    decreases |es|
  {
    if es == [] then []
    else
      var e := es[|es| - 1];
      LinksOf(es[..|es| - 1]) + (if e.LinkEnd? then [Link(e.destination, e.title)] else [])
  }

  /** The fixed text of the events, concatenated in event order. */
  function Tokens(es: seq<Event>): string
    decreases |es|
  {
    if es == [] then "" else Tokens(es[..|es| - 1]) + Token(es[|es| - 1])
  }

  /** The tokens of one more event follow the tokens of the ones before. */
  lemma TokensSnoc(es: seq<Event>, e: Event)
    ensures Tokens(es + [e]) == Tokens(es) + Token(e)
  {
    assert (es + [e])[..|es|] == es;
  }

  /** The tokens of two event runs in a row are the tokens of the first, then of the second. */
  lemma {:induction false} TokensAppend(a: seq<Event>, b: seq<Event>)
    ensures Tokens(a + b) == Tokens(a) + Tokens(b)
    decreases |b|
  {
    if b == [] {
      assert a + b == a;
    } else {
      var b', e := b[..|b| - 1], b[|b| - 1];
      TokensAppend(a, b');
      AppendSnoc(a, b);
      TokensSnoc(a + b', e);
      TokensSnoc(b', e);
      AppendAssoc(Tokens(a), Tokens(b'), Token(e));
    }
  }

  predicate NoParagraphEnd(es: seq<Event>) {
    forall i :: 0 <= i < |es| ==> !es[i].ParagraphEnd?
  }

  /** Feeds the events through the converter in order. */
  function Convert(c: Converter, es: seq<Event>): (r: Converter)
    ensures c.out <= r.out
    ensures r.nextLinkId == c.nextLinkId + LinkCount(es)
    decreases |es|
  {
    if es == [] then c else Step(Convert(c, es[..|es| - 1]), es[|es| - 1])
  }

  /** Converting a sequence in two parts is converting the first, then the second. */
  lemma {:induction false} ConvertAppend(c: Converter, a: seq<Event>, b: seq<Event>)
    ensures Convert(c, a + b) == Convert(Convert(c, a), b)
    decreases |b|
  {
    if b == [] {
      assert a + b == a;
    } else {
      var b' := b[..|b| - 1];
      assert (a + b)[..|a + b| - 1] == a + b';
      assert (a + b)[|a + b| - 1] == b[|b| - 1];
      ConvertAppend(c, a, b');
    }
  }

  /** Links are counted part by part. */
  lemma {:induction false} LinkCountAppend(a: seq<Event>, b: seq<Event>)
    ensures LinkCount(a + b) == LinkCount(a) + LinkCount(b)
    decreases |b|
  {
    if b == [] {
      assert a + b == a;
    } else {
      var b' := b[..|b| - 1];
      assert (a + b)[..|a + b| - 1] == a + b';
      LinkCountAppend(a, b');
    }
  }

  /** Converting one more event is one more step. */
  lemma ConvertSnoc(c: Converter, es: seq<Event>, e: Event)
    ensures Convert(c, es + [e]) == Step(Convert(c, es), e)
  {
    assert (es + [e])[..|es|] == es;
  }

  /** The output of a prefix of the events is a prefix of the output of all of them. */
  lemma OutputPrefix(c: Converter, es: seq<Event>, k: nat)
    requires k <= |es|
    ensures Convert(c, es[..k]).out <= Convert(c, es).out
  {
    var a, b := es[..k], es[k..];
    TakeDrop(es, k);
    ConvertAppend(c, a, b);
    var mid := Convert(c, a);
    assert mid.out <= Convert(mid, b).out;
  }

  /**
   * The event at index i that ends the k-th link of the document (k counting
   * from 1 across all paragraphs) writes the marker `[k]` right after the
   * output of the events before it; that output stays a prefix of the whole
   * document's output.
   */
  lemma LinkMarkerNumbering(es: seq<Event>, i: nat)
    requires i < |es| && es[i].LinkEnd?
    ensures Convert(New(), es[..i + 1]).out == Convert(New(), es[..i]).out + Marker(LinkCount(es[..i]) + 1)
    ensures Convert(New(), es[..i + 1]).out <= Convert(New(), es).out
  {
    var before := Convert(New(), es[..i]);
    assert before.nextLinkId == LinkCount(es[..i]) + 1;
    ConvertSnoc(New(), es[..i], es[i]);
    TakeSnoc(es, i);
    assert Convert(New(), es[..i + 1]) == Step(before, es[i]);
    OutputPrefix(New(), es, i + 1);
  }

  /** Two different link events get different ids, the later one a larger id: ids are never reused. */
  lemma LinkIdsIncrease(es: seq<Event>, i: nat, j: nat)
    requires i < j < |es| && es[i].LinkEnd? && es[j].LinkEnd?
    ensures LinkCount(es[..i]) + 1 < LinkCount(es[..j]) + 1
    ensures Marker(LinkCount(es[..i]) + 1) != Marker(LinkCount(es[..j]) + 1)
  {
    assert es[..j] == es[..i + 1] + es[i + 1..j];
    LinkCountAppend(es[..i + 1], es[i + 1..j]);
    assert es[..i + 1][..i] == es[..i];
    MarkerInjective(LinkCount(es[..i]) + 1, LinkCount(es[..j]) + 1);
  }

  /** Without a paragraph end the queue only grows, by the links of the events in order. */
  lemma {:induction false} QueueWithoutParagraphEnd(c: Converter, es: seq<Event>)
    requires NoParagraphEnd(es)
    ensures Convert(c, es).links == c.links + LinksOf(es)
    decreases |es|
  {
    if es != [] {
      QueueWithoutParagraphEnd(c, es[..|es| - 1]);
    }
  }

  /** After the last paragraph end, the queue holds exactly the links that came after it. */
  lemma QueueAfterLastParagraphEnd(c: Converter, es: seq<Event>, i: nat)
    requires i < |es| && es[i].ParagraphEnd?
    requires NoParagraphEnd(es[i + 1..])
    ensures Convert(c, es).links == LinksOf(es[i + 1..])
  {
    assert es[..i + 1][..i] == es[..i];
    ConvertAppend(c, es[..i + 1], es[i + 1..]);
    assert es[..i + 1] + es[i + 1..] == es;
    QueueWithoutParagraphEnd(Convert(c, es[..i + 1]), es[i + 1..]);
  }

  /** Until a paragraph ends, the queued links have no influence on what is written. */
  lemma {:induction false} QueueUnwrittenWithoutParagraphEnd(c: Converter, es: seq<Event>, q: seq<Link>)
    requires NoParagraphEnd(es)
    ensures Convert(c, es).out == Convert(c.(links := q), es).out
    ensures Convert(c, es).nextLinkId == Convert(c.(links := q), es).nextLinkId
    decreases |es|
  {
    if es != [] {
      QueueUnwrittenWithoutParagraphEnd(c, es[..|es| - 1], q);
    }
  }

  /** With an empty queue, an event other than a link end writes its token and leaves the queue empty. */
  lemma StepNoLinks(c: Converter, e: Event)
    requires c.links == [] && !e.LinkEnd?
    ensures Step(c, e).out == c.out + Token(e)
    ensures Step(c, e).links == []
  {
  }

  /**
   * Without links, no flush writes anything, paragraph ends included: the
   * output grows by exactly the fixed text of the events, and the queue
   * stays empty.
   */
  lemma {:induction false} NoLinksNoFlush(c: Converter, es: seq<Event>)
    requires c.links == [] && LinkCount(es) == 0
    ensures Convert(c, es).out == c.out + Tokens(es)
    ensures Convert(c, es).links == []
    decreases |es|
  {
    if es != [] {
      var es', e := es[..|es| - 1], es[|es| - 1];
      assert LinkCount(es) == LinkCount(es') + (if e.LinkEnd? then 1 else 0);
      NoLinksNoFlush(c, es');
      var before := Convert(c, es');
      StepNoLinks(before, e);
      AppendAssoc(c.out, Tokens(es'), Token(e));
    }
  }

  /**
   * A paragraph's end flushes exactly the links queued before it and those
   * of the paragraph, in order, after what the paragraph wrote and its blank
   * line; the queue is then empty.
   */
  lemma ParagraphFlush(c: Converter, body: seq<Event>)
    requires NoParagraphEnd(body)
    ensures Convert(c, body + [ParagraphEnd]).out
      == Convert(c, body).out + "\n\n" + PendingLinksText(c.links + LinksOf(body))
    ensures Convert(c, body + [ParagraphEnd]).links == []
    ensures Convert(c, body + [ParagraphEnd]).nextLinkId == c.nextLinkId + LinkCount(body)
  {
    ConvertSnoc(c, body, ParagraphEnd);
    QueueWithoutParagraphEnd(c, body);
  }
}
