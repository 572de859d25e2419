/**
 * The conversion entry point: strip the front matter, render the parser's
 * events, then drop every trailing newline of the rendered text. The
 * Markdown parser is a parameter: it maps the remaining text to its events.
 */
module Markgem {
  import opened Events
  import opened Render
  import opened FrontMatter

  /** Pops trailing newlines until the text is empty or ends in something else. */
  function TrimNewlines(s: string): (r: string)
    ensures r <= s
    ensures |r| == 0 || r[|r| - 1] != '\n'
    ensures forall i :: |r| <= i < |s| ==> s[i] == '\n'
    decreases |s|
  {
    if |s| > 0 && s[|s| - 1] == '\n' then TrimNewlines(s[..|s| - 1]) else s
  }

  /** Trimming twice is trimming once, and text not ending in a newline is left alone. */
  lemma TrimNewlinesIdempotent(s: string)
    ensures TrimNewlines(TrimNewlines(s)) == TrimNewlines(s)
    ensures (|s| == 0 || s[|s| - 1] != '\n') ==> TrimNewlines(s) == s
  {
  }

  /** Text that does not end in a newline, followed by newlines only, trims back to that text. */
  lemma {:induction false} TrimNewlinesOf(x: string, t: string)
    requires |x| == 0 || x[|x| - 1] != '\n'
    requires forall i :: 0 <= i < |t| ==> t[i] == '\n'
    ensures TrimNewlines(x + t) == x
    decreases |t|
  {
    if t == [] {
      assert x + t == x;
    } else {
      assert (x + t)[..|x + t| - 1] == x + t[..|t| - 1];
      TrimNewlinesOf(x, t[..|t| - 1]);
    }
  }

  /** The Gemtext for an event sequence: rendered by a fresh converter, trailing newlines removed. */
  function GemtextOf(events: seq<Event>): (r: string)
    ensures var rendered := Convert(New(), events).out;
      && r <= rendered
      && (|r| == 0 || r[|r| - 1] != '\n')
      && forall i :: |r| <= i < |rendered| ==> rendered[i] == '\n'
  {
    TrimNewlines(Convert(New(), events).out)
  }

  /** Without links, the Gemtext is the events' fixed text, trailing newlines removed. */
  lemma GemtextWithoutLinks(events: seq<Event>)
    requires forall e :: e in events ==> !e.LinkEnd?
    ensures GemtextOf(events) == TrimNewlines(Tokens(events))
  {
    LinkCountZero(events);
    NoLinksNoFlush(New(), events);
    assert "" + Tokens(events) == Tokens(events);
  }

  /** Without links, events whose fixed text is some text and then newlines only give exactly that text. */
  lemma GemtextOfTokens(events: seq<Event>, body: string, newlines: string)
    requires forall e :: e in events ==> !e.LinkEnd?
    requires Tokens(events) == body + newlines
    requires |body| == 0 || body[|body| - 1] != '\n'
    requires forall i :: 0 <= i < |newlines| ==> newlines[i] == '\n'
    ensures GemtextOf(events) == body
  {
    GemtextWithoutLinks(events);
    TrimNewlinesOf(body, newlines);
  }

  /** Converts a Markdown document, given the parser that turns its text into events. */
  function ToGemini(markdown: string, parse: string -> seq<Event>): (r: string)
    ensures |r| == 0 || r[|r| - 1] != '\n'
    ensures var rendered := Convert(New(), parse(StripMatter(markdown))).out;
      r <= rendered && forall i :: |r| <= i < |rendered| ==> rendered[i] == '\n'
  {
    GemtextOf(parse(StripMatter(markdown)))
  }
}
