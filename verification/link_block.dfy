/**
 * The block of link lines written when a paragraph ends: one Gemtext link
 * line per queued link, in queue order, followed by one blank line. The
 * reading direction `ParseLinkBlock` recovers the queue from the block.
 */
module LinkBlock {
  import opened Base
  import opened Events

  /** A link line without its newline: `=> destination`, then ` title` only when the title is non-empty. */
  function LineBody(l: Link): string {
    "=> " + l.destination + (if l.title != "" then " " + l.title else "")
  }

  /** A link line with its newline. */
  function LinkLine(l: Link): string {
    LineBody(l) + "\n"
  }

  /** The link lines of a queue, in queue order. */
  function LinkLines(ls: seq<Link>): (r: string)
    ensures ls == [] <==> r == ""
    ensures ls != [] ==> |r| >= 4 && r[..3] == "=> " && r[|r| - 1] == '\n'
    decreases |ls|
  {
    if ls == [] then "" else LinkLine(ls[0]) + LinkLines(ls[1..])
  }

  /** Everything the flush of queue `ls` writes: nothing for an empty queue. */
  function PendingLinksText(ls: seq<Link>): (r: string)
    ensures ls == [] <==> r == ""
    ensures ls != [] ==> |r| >= 5 && r[..3] == "=> " && r[|r| - 2..] == "\n\n"
  {
    if ls == [] then "" else LinkLines(ls) + "\n"
  }

  /** A link that a link line represents unambiguously. */
  predicate Writable(l: Link) {
    ' ' !in l.destination && '\n' !in l.destination && '\n' !in l.title
  }

  /** Reads one link line without its newline: the destination runs up to the first space. */
  function ParseLinkLine(line: string): Option<Link> {
    if |line| < 3 || line[..3] != "=> " then None
    else
      var body := line[3..];
      match FindChar(body, ' ')
      case None => Some(Link(body, ""))
      case Some(i) => Some(Link(body[..i], body[i + 1..]))
  }

  /** Reads link lines up to the closing blank line. */
  function ParseLines(s: string): Option<seq<Link>>
    decreases |s|
  {
    if s == "\n" then Some([])
    else match FindChar(s, '\n')
      case None => None
      case Some(i) =>
        match ParseLinkLine(s[..i])
        case None => None
        case Some(l) =>
          match ParseLines(s[i + 1..])
          case None => None
          case Some(ls) => Some([l] + ls)
  }

  /** Reads the text of a flush back into the queue it came from; the empty text is the empty queue. */
  function ParseLinkBlock(s: string): Option<seq<Link>> {
    if s == "" then Some([]) else ParseLines(s)
  }

  /** A well-formed link reads back from its line. */
  lemma ParseLinkLineRoundTrip(l: Link)
    requires Writable(l)
    ensures ParseLinkLine(LineBody(l)) == Some(l)
  {
    var tail := if l.title != "" then " " + l.title else "";
    var line := LineBody(l);
    assert line[..3] == "=> ";
    assert line[3..] == l.destination + tail;
    if l.title != "" {
      FindCharAfter(l.destination, ' ', l.title);
      assert l.destination + tail == l.destination + [' '] + l.title;
      assert (l.destination + tail)[..|l.destination|] == l.destination;
      assert (l.destination + tail)[|l.destination| + 1..] == l.title;
    } else {
      assert l.destination + tail == l.destination;
    }
  }

  /** The line of a well-formed link breaks nowhere. */
  lemma LineBodyHasNoNewline(l: Link)
    requires Writable(l)
    ensures '\n' !in LineBody(l)
  {
    var tail := if l.title != "" then " " + l.title else "";
    assert '\n' !in tail;
    assert LineBody(l) == "=> " + (l.destination + tail);
  }

  /** One step of `ParseLines`: a parsable line, its newline, then parsable lines. */
  lemma ParseLinesCons(body: string, l: Link, rest: string, ls: seq<Link>)
    requires '\n' !in body
    requires ParseLinkLine(body) == Some(l)
    requires ParseLines(rest) == Some(ls)
    ensures ParseLines(body + "\n" + rest) == Some([l] + ls)
  {
    var s := body + "\n" + rest;
    assert |body| >= 3;
    FindCharAfter(body, '\n', rest);
    assert s[..|body|] == body;
    assert s[|body| + 1..] == rest;
  }

  /** The lines of a queue of well-formed links, closed by a blank line, read back as the queue. */
  lemma {:induction false} ParseLinesRoundTrip(ls: seq<Link>)
    requires forall i :: 0 <= i < |ls| ==> Writable(ls[i])
    ensures ParseLines(LinkLines(ls) + "\n") == Some(ls)
    decreases |ls|
  {
    if ls != [] {
      var l := ls[0];
      var rest := LinkLines(ls[1..]) + "\n";
      LineBodyHasNoNewline(l);
      calc {
        LinkLines(ls) + "\n";
        (LinkLine(l) + LinkLines(ls[1..])) + "\n";
        (LineBody(l) + "\n" + LinkLines(ls[1..])) + "\n";
        LineBody(l) + "\n" + rest;
      }
      ParseLinkLineRoundTrip(l);
      ParseLinesRoundTrip(ls[1..]);
      ParseLinesCons(LineBody(l), l, rest, ls[1..]);
      assert [l] + ls[1..] == ls;
    }
  }

  /** The flush text of a queue of well-formed links reads back as that queue. */
  lemma PendingLinksRoundTrip(ls: seq<Link>)
    requires forall i :: 0 <= i < |ls| ==> Writable(ls[i])
    ensures ParseLinkBlock(PendingLinksText(ls)) == Some(ls)
  {
    if ls != [] {
      ParseLinesRoundTrip(ls);
    }
  }

  /** Without `Writable`, two different queues can flush to the same text: a space in a destination reads as the start of a title. */
  lemma FlushAmbiguous()
    ensures Link("a b", "") != Link("a", "b")
    ensures PendingLinksText([Link("a b", "")]) == PendingLinksText([Link("a", "b")])
  {
    assert LineBody(Link("a b", "")) == "=> a b";
    assert LineBody(Link("a", "b")) == "=> a b";
  }
}
