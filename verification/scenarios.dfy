/**
 * The repository's conversion examples, checked against the model: the
 * headers, soft and hard newline and unordered list documents, and the two
 * link documents, with the texts and destinations left symbolic. Each
 * document is the event sequence the parser yields for it.
 */
module Scenarios {
  import opened Base
  import opened Events
  import opened Render
  import opened LinkBlock
  import opened Markgem


  /** The heading levels of the headers example: one to three kept, four written as three. */
  lemma HeaderMarkers()
    ensures HeadingMarker(1) == "# "
    ensures HeadingMarker(2) == "## "
    ensures HeadingMarker(3) == "### "
    ensures HeadingMarker(4) == "### "
  {
  }

  /** The end of a titled link writes its marker and queues it. */
  lemma LinkEndStep()
    ensures Step(Converter("see x", 1, []), LinkEnd("http://x.com", "t"))
      == Converter("see x[1]", 2, [Link("http://x.com", "t")])
  {
  }

  /** One queued link with a title comes out as its link line, then one blank line. */
  lemma OneLinkFlushText()
    ensures PendingLinksText([Link("http://x.com", "t")]) == "=> http://x.com t\n\n"
  {
    var link := Link("http://x.com", "t");
    assert LineBody(link) == "=> http://x.com t";
    assert LinkLines([link]) == "=> http://x.com t\n";
  }

  /** The second link of a paragraph gets id 2 and joins the queue behind the first. */
  lemma SecondLinkStep()
    ensures Step(Converter("a[1] b", 2, [Link("http://first.com", "")]), LinkEnd("http://second.com", ""))
      == Converter("a[1] b[2]", 3, [Link("http://first.com", ""), Link("http://second.com", "")])
  {
  }

  /** A queue of two links comes out as their two lines in order, then a blank line. */
  lemma PairFlushText(a: Link, b: Link)
    ensures PendingLinksText([a, b]) == LinkLine(a) + LinkLine(b) + "\n"
  {
    assert [a, b][1..] == [b];
    assert [b][1..] == [];
    assert LinkLines([b]) == LinkLine(b) + "";
    assert LinkLines([a, b]) == LinkLine(a) + LinkLine(b);
  }

  /** The link line of a link without a title: no trailing space. */
  lemma UntitledLine(destination: string)
    ensures LinkLine(Link(destination, "")) == "=> " + destination + "\n"
  {
  }

  /** Two queued links without titles come out as two link lines in queue order, then one blank line. */
  lemma TwoLinksFlushText(first: string, second: string)
    ensures PendingLinksText([Link(first, ""), Link(second, "")])
      == "=> " + first + "\n=> " + second + "\n\n"
  {
    PairFlushText(Link(first, ""), Link(second, ""));
    UntitledLine(first);
    UntitledLine(second);
  }

  /** The events of a heading: its start, its text, its end. */
  function Heading(depth: nat, text: string): seq<Event> {
    [HeadingStart(depth), Text(text), HeadingEnd]
  }

  /** The tokens of a single event. */
  lemma Tokens1(x: Event)
    ensures Tokens([x]) == Token(x)
  {
    SingletonIsAppend(x);
    TokensSnoc([], x);
    assert "" + Token(x) == Token(x);
  }

  /** The tokens of three events in a row. */
  lemma Tokens3(x: Event, y: Event, z: Event)
    ensures Tokens([x, y, z]) == Token(x) + Token(y) + Token(z)
  {
    var s0: seq<Event> := [];
    var s1 := s0 + [x];
    var s2 := s1 + [y];
    SingletonIsAppend(x);
    TripleIsAppend(x, y, z);
    TokensSnoc(s0, x);
    TokensSnoc(s1, y);
    TokensSnoc(s2, z);
  }

  /** A heading renders as its marker, its text and a blank line. */
  lemma HeadingTokens(depth: nat, text: string)
    ensures Tokens(Heading(depth, text)) == HeadingMarker(depth) + text + "\n\n"
  {
    Tokens3(HeadingStart(depth), Text(text), HeadingEnd);
  }

  /** The headers example's events render as four headings, each followed by a blank line. */
  lemma HeadersTokens(a: string, b: string, c: string, d: string)
    ensures Tokens(Heading(1, a) + Heading(2, b) + Heading(3, c) + Heading(4, d))
      == "# " + a + "\n\n" + "## " + b + "\n\n" + "### " + c + "\n\n" + "### " + d + "\n\n"
  {
    var h12 := Heading(1, a) + Heading(2, b);
    var h123 := h12 + Heading(3, c);
    HeaderMarkers();
    var t1 := Tokens(Heading(1, a));
    assert t1 == "# " + a + "\n\n" by {
      HeadingTokens(1, a);
    }
    var t12 := Tokens(h12);
    assert t12 == t1 + "## " + b + "\n\n" by {
      HeadingTokens(2, b);
      TokensAppend(Heading(1, a), Heading(2, b));
      AppendFlat3(t1, "## ", b, "\n\n");
    }
    var t123 := Tokens(h123);
    assert t123 == t12 + "### " + c + "\n\n" by {
      HeadingTokens(3, c);
      TokensAppend(h12, Heading(3, c));
      AppendFlat3(t12, "### ", c, "\n\n");
    }
    HeadingTokens(4, d);
    TokensAppend(h123, Heading(4, d));
    AppendFlat3(t123, "### ", d, "\n\n");
  }

  /** The headers example: depths one to four, the fourth written at depth three. */
  lemma Headers(a: string, b: string, c: string, d: string)
    requires |d| > 0 && d[|d| - 1] != '\n'
    ensures GemtextOf(Heading(1, a) + Heading(2, b) + Heading(3, c) + Heading(4, d))
      == "# " + a + "\n\n" + "## " + b + "\n\n" + "### " + c + "\n\n" + "### " + d
  {
    HeadersTokens(a, b, c, d);
    GemtextOfTokens(Heading(1, a) + Heading(2, b) + Heading(3, c) + Heading(4, d),
      "# " + a + "\n\n" + "## " + b + "\n\n" + "### " + c + "\n\n" + "### " + d, "\n\n");
  }

  /** The events of a paragraph: its start, its contents, its end. */
  function Paragraph(contents: seq<Event>): seq<Event> {
    [Other] + contents + [ParagraphEnd]
  }

  /** The start of a block writes nothing before its contents. */
  lemma OtherTokens(contents: seq<Event>)
    ensures Tokens([Other] + contents) == Tokens(contents)
  {
    Tokens1(Other);
    TokensAppend([Other], contents);
    assert "" + Tokens(contents) == Tokens(contents);
  }

  /** A paragraph without links renders as its contents and a blank line. */
  lemma ParagraphTokens(contents: seq<Event>)
    ensures Tokens(Paragraph(contents)) == Tokens(contents) + "\n\n"
  {
    OtherTokens(contents);
    TokensSnoc([Other] + contents, ParagraphEnd);
  }

  /** Two texts around a soft break render with a space between them. */
  lemma SoftBreakTokens(a: string, b: string)
    ensures Tokens([Text(a), SoftBreak, Text(b)]) == a + " " + b
  {
    Tokens3(Text(a), SoftBreak, Text(b));
  }

  /** The soft newline example: a soft break inside a paragraph becomes a space. */
  lemma SoftNewline(a: string, b: string)
    requires |b| > 0 && b[|b| - 1] != '\n'
    ensures GemtextOf(Paragraph([Text(a), SoftBreak, Text(b)])) == a + " " + b
  {
    ParagraphTokens([Text(a), SoftBreak, Text(b)]);
    SoftBreakTokens(a, b);
    GemtextOfTokens(Paragraph([Text(a), SoftBreak, Text(b)]), a + " " + b, "\n\n");
  }

  /** A paragraph of a single text renders as that text and a blank line. */
  lemma TextParagraphTokens(a: string)
    ensures Tokens(Paragraph([Text(a)])) == a + "\n\n"
  {
    ParagraphTokens([Text(a)]);
    Tokens1(Text(a));
  }

  /** Two one-text paragraphs render as the texts, each followed by a blank line. */
  lemma TwoParagraphTokens(a: string, b: string)
    ensures Tokens(Paragraph([Text(a)]) + Paragraph([Text(b)])) == a + "\n\n" + b + "\n\n"
  {
    TokensAppend(Paragraph([Text(a)]), Paragraph([Text(b)]));
    TextParagraphTokens(a);
    TextParagraphTokens(b);
    AppendAssoc(a + "\n\n", b, "\n\n");
  }

  /** The hard newline example: two paragraphs are separated by a blank line. */
  lemma HardNewline(a: string, b: string)
    requires |b| > 0 && b[|b| - 1] != '\n'
    ensures GemtextOf(Paragraph([Text(a)]) + Paragraph([Text(b)])) == a + "\n\n" + b
  {
    TwoParagraphTokens(a, b);
    GemtextOfTokens(Paragraph([Text(a)]) + Paragraph([Text(b)]), a + "\n\n" + b, "\n\n");
  }

  /** The events of a list item holding one text. */
  function Item(text: string): seq<Event> {
    [ItemStart, Text(text), ItemEnd]
  }

  /** A list item renders as a bullet, its text and a newline. */
  lemma ItemTokens(text: string)
    ensures Tokens(Item(text)) == "* " + text + "\n"
  {
    Tokens3(ItemStart, Text(text), ItemEnd);
  }

  /** A two-item list renders as two bullet lines, then one more newline. */
  lemma ListTokens(a: string, b: string)
    ensures Tokens([Other] + Item(a) + Item(b) + [ListEnd]) == "* " + a + "\n" + "* " + b + "\n\n"
  {
    var first := [Other] + Item(a);
    var items := first + Item(b);
    var t1 := "* " + a + "\n";
    assert Tokens(first) == t1 by {
      TokensAppend([Other], Item(a));
      Tokens1(Other);
      ItemTokens(a);
      assert "" + t1 == t1;
    }
    assert Tokens(items) == t1 + "* " + b + "\n" by {
      TokensAppend(first, Item(b));
      ItemTokens(b);
      AppendFlat3(t1, "* ", b, "\n");
    }
    TokensAppend(items, [ListEnd]);
    Tokens1(ListEnd);
    AppendAssoc(t1 + "* " + b, "\n", "\n");
  }

  /** The unordered list example: each item on its own bullet line. */
  lemma UnorderedList(a: string, b: string)
    requires |b| > 0 && b[|b| - 1] != '\n'
    ensures GemtextOf([Other] + Item(a) + Item(b) + [ListEnd]) == "* " + a + "\n" + "* " + b
  {
    ListTokens(a, b);
    GemtextOfTokens([Other] + Item(a) + Item(b) + [ListEnd], "* " + a + "\n" + "* " + b, "\n\n");
  }

  /** A text event appends its text verbatim and leaves the ids and the queue alone. */
  lemma TextStep(c: Converter, text: string)
    ensures Convert(c, [Text(text)]).out == c.out + text
    ensures Convert(c, [Text(text)]).links == c.links
  {
    SingletonIsAppend(Text(text));
    ConvertSnoc(c, [], Text(text));
  }

  /** An event the converter ignores leaves it as it was. */
  lemma OtherStep(c: Converter)
    ensures Convert(c, [Other]) == c
  {
    assert [Other] == [] + [Other];
    ConvertSnoc(c, [], Other);
    assert c.out + "" == c.out;
  }

  /** The start of a link writes nothing and its caption text is written verbatim. */
  lemma CaptionStep(c: Converter, caption: string)
    ensures Convert(c, [Other, Text(caption)]).out == c.out + caption
    ensures Convert(c, [Other, Text(caption)]).links == c.links
    ensures Convert(c, [Other, Text(caption)]).nextLinkId == c.nextLinkId
  {
    PairIsAppend(Other, Text(caption));
    OtherStep(c);
    ConvertSnoc(c, [Other], Text(caption));
  }

  /** The events of a link without a title: its start, its caption text, its end. */
  function LinkedText(caption: string, destination: string): seq<Event> {
    [Other, Text(caption)] + [LinkEnd(destination, "")]
  }

  /** A link writes its caption, then its marker with the next id, and joins the queue. */
  lemma LinkedTextStep(c: Converter, caption: string, destination: string)
    ensures Convert(c, LinkedText(caption, destination)).out == c.out + caption + Marker(c.nextLinkId)
    ensures Convert(c, LinkedText(caption, destination)).nextLinkId == c.nextLinkId + 1
    ensures Convert(c, LinkedText(caption, destination)).links == c.links + [Link(destination, "")]
  {
    CaptionStep(c, caption);
    ConvertSnoc(c, [Other, Text(caption)], LinkEnd(destination, ""));
  }

  /** The end of a paragraph writes a blank line, then the queued links. */
  lemma ParagraphEndStep(c: Converter)
    ensures Convert(c, [ParagraphEnd]).out == c.out + "\n\n" + PendingLinksText(c.links)
    ensures Convert(c, [ParagraphEnd]).links == []
  {
    SingletonIsAppend(ParagraphEnd);
    ConvertSnoc(c, [], ParagraphEnd);
  }

  /** The first two markers, as the link examples show them. */
  lemma FirstMarkers()
    ensures Marker(1) == "[1]" && Marker(2) == "[2]" && Marker(3) == "[3]"
  {
  }

  /** The events of one paragraph holding two links and three runs of plain text. */
  function TwoLinkParagraph(p1: string, l1: string, d1: string, p2: string, l2: string, d2: string, p3: string): seq<Event> {
    [Other, Text(p1)] + LinkedText(l1, d1) + [Text(p2)] + LinkedText(l2, d2) + [Text(p3)] + [ParagraphEnd]
  }

  /** Text, a link, then more text: the link gets the next id's marker and joins the queue. */
  lemma LinkedRunStep(c: Converter, p1: string, l1: string, d1: string, p2: string)
    ensures Convert(c, [Other, Text(p1)] + LinkedText(l1, d1) + [Text(p2)]).out == c.out + p1 + l1 + Marker(c.nextLinkId) + p2
    ensures Convert(c, [Other, Text(p1)] + LinkedText(l1, d1) + [Text(p2)]).links == c.links + [Link(d1, "")]
    ensures Convert(c, [Other, Text(p1)] + LinkedText(l1, d1) + [Text(p2)]).nextLinkId == c.nextLinkId + 1
  {
    var a := [Other, Text(p1)];
    var b := a + LinkedText(l1, d1);
    CaptionStep(c, p1);
    ConvertAppend(c, a, LinkedText(l1, d1));
    LinkedTextStep(Convert(c, a), l1, d1);
    ConvertAppend(c, b, [Text(p2)]);
    TextStep(Convert(c, b), p2);
  }

  /** The paragraph's text with the markers one and two, then a blank line, then both links. */
  lemma TwoLinkParagraphRendered(p1: string, l1: string, d1: string, p2: string, l2: string, d2: string, p3: string)
    ensures Convert(New(), TwoLinkParagraph(p1, l1, d1, p2, l2, d2, p3)).out
      == p1 + l1 + Marker(1) + p2 + l2 + Marker(2) + p3 + "\n\n" + PendingLinksText([Link(d1, ""), Link(d2, "")])
  {
    var c := [Other, Text(p1)] + LinkedText(l1, d1) + [Text(p2)];
    var d := c + LinkedText(l2, d2);
    var e := d + [Text(p3)];
    LinkedRunStep(New(), p1, l1, d1, p2);
    assert "" + p1 == p1;
    ConvertAppend(New(), c, LinkedText(l2, d2));
    LinkedTextStep(Convert(New(), c), l2, d2);
    ConvertAppend(New(), d, [Text(p3)]);
    TextStep(Convert(New(), d), p3);
    ConvertAppend(New(), e, [ParagraphEnd]);
    ParagraphEndStep(Convert(New(), e));
  }

  /** The one-paragraph link example: markers in the text, the link lines after a blank line. */
  lemma OneParagraphLinks(p1: string, l1: string, d1: string, p2: string, l2: string, d2: string, p3: string)
    requires |d2| > 0 && d2[|d2| - 1] != '\n'
    ensures GemtextOf(TwoLinkParagraph(p1, l1, d1, p2, l2, d2, p3))
      == p1 + l1 + "[1]" + p2 + l2 + "[2]" + p3 + "\n\n" + ("=> " + d1 + "\n=> " + d2)
  {
    var text := p1 + l1 + "[1]" + p2 + l2 + "[2]" + p3 + "\n\n";
    var lines := "=> " + d1 + "\n=> " + d2;
    TwoLinkParagraphRendered(p1, l1, d1, p2, l2, d2, p3);
    FirstMarkers();
    TwoLinksFlushText(d1, d2);
    AppendAssoc(text, lines, "\n\n");
    assert (text + lines)[|text + lines| - 1] == d2[|d2| - 1];
    TrimNewlinesOf(text + lines, "\n\n");
  }

  /** A single queued link without a title comes out as one link line, then one blank line. */
  lemma OneUntitledFlushText(destination: string)
    ensures PendingLinksText([Link(destination, "")]) == "=> " + destination + "\n\n"
  {
    UntitledLine(destination);
    assert LinkLines([Link(destination, "")]) == LinkLine(Link(destination, "")) + LinkLines([]);
  }

  /** The events of a paragraph of text holding one link and ending in a full stop. */
  function LinkParagraph(lead: string, caption: string, destination: string): seq<Event> {
    [Other, Text(lead)] + LinkedText(caption, destination) + [Text(".")] + [ParagraphEnd]
  }

  /** A link paragraph after a flushed queue: its marker carries the next id and its link line follows it. */
  lemma LinkParagraphStep(c: Converter, lead: string, caption: string, destination: string)
    requires c.links == []
    ensures Convert(c, LinkParagraph(lead, caption, destination)).out
      == c.out + lead + caption + Marker(c.nextLinkId) + "." + "\n\n" + ("=> " + destination + "\n\n")
    ensures Convert(c, LinkParagraph(lead, caption, destination)).links == []
    ensures Convert(c, LinkParagraph(lead, caption, destination)).nextLinkId == c.nextLinkId + 1
  {
    var run := [Other, Text(lead)] + LinkedText(caption, destination) + [Text(".")];
    LinkedRunStep(c, lead, caption, destination, ".");
    ConvertAppend(c, run, [ParagraphEnd]);
    ParagraphEndStep(Convert(c, run));
    OneUntitledFlushText(destination);
    assert c.links + [Link(destination, "")] == [Link(destination, "")];
  }

  /** A paragraph of plain text after a flushed queue: the text and a blank line, no link lines. */
  lemma PlainParagraphStep(c: Converter, text: string)
    requires c.links == []
    ensures Convert(c, Paragraph([Text(text)])).out == c.out + text + "\n\n"
    ensures Convert(c, Paragraph([Text(text)])).links == []
    ensures Convert(c, Paragraph([Text(text)])).nextLinkId == c.nextLinkId
  {
    assert Paragraph([Text(text)]) == [Other, Text(text)] + [ParagraphEnd];
    CaptionStep(c, text);
    ConvertAppend(c, [Other, Text(text)], [ParagraphEnd]);
    ParagraphEndStep(Convert(c, [Other, Text(text)]));
  }

  /** Three link paragraphs with a paragraph of plain text between each two. */
  function ThreeLinkParagraphs(
    a1: string, c1: string, d1: string, m1: string,
    a2: string, c2: string, d2: string, m2: string,
    a3: string, c3: string, d3: string): seq<Event>
  {
    LinkParagraph(a1, c1, d1) + Paragraph([Text(m1)]) + LinkParagraph(a2, c2, d2) + Paragraph([Text(m2)]) + LinkParagraph(a3, c3, d3)
  }

  /** The first two link paragraphs and the text between them: ids one and two, each link after its own paragraph. */
  lemma FirstTwoLinkParagraphs(a1: string, c1: string, d1: string, m1: string, a2: string, c2: string, d2: string)
    ensures Convert(New(), LinkParagraph(a1, c1, d1) + Paragraph([Text(m1)]) + LinkParagraph(a2, c2, d2)).out
      == a1 + c1 + Marker(1) + "." + "\n\n" + ("=> " + d1 + "\n\n")
         + m1 + "\n\n"
         + a2 + c2 + Marker(2) + "." + "\n\n" + ("=> " + d2 + "\n\n")
    ensures Convert(New(), LinkParagraph(a1, c1, d1) + Paragraph([Text(m1)]) + LinkParagraph(a2, c2, d2)).links == []
    ensures Convert(New(), LinkParagraph(a1, c1, d1) + Paragraph([Text(m1)]) + LinkParagraph(a2, c2, d2)).nextLinkId == 3
  {
    var p := LinkParagraph(a1, c1, d1);
    var q := p + Paragraph([Text(m1)]);
    LinkParagraphStep(New(), a1, c1, d1);
    assert "" + a1 == a1;
    ConvertAppend(New(), p, Paragraph([Text(m1)]));
    PlainParagraphStep(Convert(New(), p), m1);
    ConvertAppend(New(), q, LinkParagraph(a2, c2, d2));
    LinkParagraphStep(Convert(New(), q), a2, c2, d2);
  }

  /** All five paragraphs: the third link gets id three. */
  lemma ThreeLinkParagraphsRendered(
    a1: string, c1: string, d1: string, m1: string,
    a2: string, c2: string, d2: string, m2: string,
    a3: string, c3: string, d3: string)
    ensures Convert(New(), ThreeLinkParagraphs(a1, c1, d1, m1, a2, c2, d2, m2, a3, c3, d3)).out
      == a1 + c1 + Marker(1) + "." + "\n\n" + ("=> " + d1 + "\n\n")
         + m1 + "\n\n"
         + a2 + c2 + Marker(2) + "." + "\n\n" + ("=> " + d2 + "\n\n")
         + m2 + "\n\n"
         + a3 + c3 + Marker(3) + "." + "\n\n" + ("=> " + d3 + "\n\n")
  {
    var p := LinkParagraph(a1, c1, d1) + Paragraph([Text(m1)]) + LinkParagraph(a2, c2, d2);
    var q := p + Paragraph([Text(m2)]);
    FirstTwoLinkParagraphs(a1, c1, d1, m1, a2, c2, d2);
    ConvertAppend(New(), p, Paragraph([Text(m2)]));
    PlainParagraphStep(Convert(New(), p), m2);
    ConvertAppend(New(), q, LinkParagraph(a3, c3, d3));
    LinkParagraphStep(Convert(New(), q), a3, c3, d3);
  }

  /** The multiple-paragraphs link example: the id keeps counting across paragraphs and each paragraph is followed by its own link line. */
  lemma MultipleParagraphLinks(
    a1: string, c1: string, d1: string, m1: string,
    a2: string, c2: string, d2: string, m2: string,
    a3: string, c3: string, d3: string)
    requires |d3| > 0 && d3[|d3| - 1] != '\n'
    ensures GemtextOf(ThreeLinkParagraphs(a1, c1, d1, m1, a2, c2, d2, m2, a3, c3, d3))
      == a1 + c1 + "[1]" + "." + "\n\n" + ("=> " + d1 + "\n\n")
         + m1 + "\n\n"
         + a2 + c2 + "[2]" + "." + "\n\n" + ("=> " + d2 + "\n\n")
         + m2 + "\n\n"
         + a3 + c3 + "[3]" + "." + "\n\n" + ("=> " + d3)
  {
    var text := a1 + c1 + "[1]" + "." + "\n\n" + ("=> " + d1 + "\n\n")
         + m1 + "\n\n"
         + a2 + c2 + "[2]" + "." + "\n\n" + ("=> " + d2 + "\n\n")
         + m2 + "\n\n"
         + a3 + c3 + "[3]" + "." + "\n\n";
    var line := "=> " + d3;
    ThreeLinkParagraphsRendered(a1, c1, d1, m1, a2, c2, d2, m2, a3, c3, d3);
    FirstMarkers();
    AppendAssoc(text, line, "\n\n");
    assert (text + line)[|text + line| - 1] == d3[|d3| - 1];
    TrimNewlinesOf(text + line, "\n\n");
  }
}
