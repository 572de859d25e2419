# markgem: Markdown to Gemtext, modelled in Dafny

exarch is meant to serve a Zola blog over the Gemini protocol. Its converter,
`src/markgem.rs`, turns a Markdown post into Gemtext in one pass. The converter is not yet
wired to the server: `src/serve.rs` answers every request with a fixed `hello, world!`, and
neither it nor `src/main.rs` calls `to_gemini`.

The conversion:

1. `strip_matter` drops the Zola front matter. It splits the text on `+++` into at most
   three pieces and keeps the last piece.
2. A `Converter` walks the Markdown parser's event stream and writes into a buffer:
   - emphasis becomes `*`, strong becomes `**`, strikethrough becomes `~~`;
   - a block quote starts with `>`;
   - a list item starts with `* ` and ends with a newline;
   - a list's start writes nothing and its end writes a newline;
   - a heading starts with at most three `#` and a space, and ends with a blank line;
   - text is copied verbatim and a soft break becomes a space;
   - every other event is ignored.
3. Link handling:
   - a link's end writes a marker `[k]`, where k counts links across the whole document
     starting at 1;
   - the link joins a queue;
   - a paragraph's end writes a blank line, then flushes the queue as `=> destination[ title]`
     lines and one more blank line. An empty queue writes nothing.
4. `to_gemini` pops every trailing newline off the result.

The model lives in these modules:

- `Events`: the parser events the dispatch tells apart. All others are `Other`.
- `Decimal`: the decimal numerals of link ids.
- `LinkBlock`: the text of a queue flush, and a reader for it.
- `Render`: the converter. `Step` dispatches one event. `Convert` is the event loop, a left
  fold of `Step`.
- `FrontMatter`: `splitn(3, "+++")` and `strip_matter`.
- `Markgem`: the trailing-newline trim and `to_gemini`.
- `Scenarios`: the repository's own conversion examples. The texts and destinations stay
  symbolic, and each document is the event sequence the parser yields for it.

The Markdown parser is not modelled. `Markgem.ToGemini` takes it as a function parameter from
text to events. The converter members in `Render` and `Scenarios` work on the event sequence
directly. The front-matter members and the trailing-newline trim work on text.

## Model

| member | source | states |
|---|---|---|
| Decimal.Show | src/markgem.rs:79 | the id in a marker is printed as decimal digits with no leading zero |
| Decimal.ValueOfShow | src/markgem.rs:79 | reading the printed id back gives the id |
| Decimal.ShowInjective | src/markgem.rs:79 | two ids print the same exactly when they are equal |
| Render.HeadingMarker | src/markgem.rs:53-58 | a heading start writes min(depth, 3) `#` characters and then a space: exactly `depth` of them up to three, and three for any deeper heading |
| Render.MarkerInjective | src/markgem.rs:79 | the markers `[a]` and `[b]` are equal exactly when a = b |
| Render.HandleLink | src/markgem.rs:77-82 | a link end writes the marker `[id]` of the current id, appends the link to the queue in order, and advances the id by one |
| Render.WritePendingLinks | src/markgem.rs:85-101 | an empty queue is a no-op; otherwise exactly the queue's link lines and one more newline are written after the earlier output, the queue is emptied and the id is unchanged |
| Render.Step | src/markgem.rs:40-75 | a link end writes the marker of the current id, queues the link and advances the id; a paragraph end writes a blank line, then the whole queue's link lines, and empties the queue; every other event writes its fixed text, keeps the queue and keeps the id |
| Render.Convert | src/markgem.rs:40-75 | the loop only appends to the buffer, and the id advances by exactly the number of link events |
| Render.LinkCountZero | src/markgem.rs:64-66 | the id never moves exactly when no event ends a link |
| Render.TokensAppend | src/markgem.rs:41-72 | the fixed text of two event runs is the text of the first followed by the text of the second |
| Render.ConvertAppend | src/markgem.rs:41-73 | converting a concatenation means converting the first part, then continuing with the second from that state |
| Render.ConvertSnoc | src/markgem.rs:41-73 | one more event is one more dispatch |
| Render.OutputPrefix | src/markgem.rs:41-73 | the output of any prefix of the events is a prefix of the whole output |
| Render.LinkMarkerNumbering | src/markgem.rs:36 | the k-th link of the document, counted from 1 across paragraphs, writes `[k]` immediately after the earlier output, and that text stays in the final output |
| Render.LinkIdsIncrease | src/markgem.rs:80 | a later link always gets a larger id and a different marker: the counter is never reset |
| Render.QueueWithoutParagraphEnd | src/markgem.rs:60-66 | with no paragraph end, the queue only grows, by the events' links in order |
| Render.QueueAfterLastParagraphEnd | src/markgem.rs:60-63 | after the last paragraph end, the queue holds exactly the links that came after it |
| Render.QueueUnwrittenWithoutParagraphEnd | src/markgem.rs:60-66 | with no paragraph end, the queue's contents affect neither the output nor the ids |
| Render.StepNoLinks | src/markgem.rs:86-88 | with an empty queue, every event but a link end writes only its fixed text (a paragraph end only its blank line), and the queue stays empty |
| Render.NoLinksNoFlush | src/markgem.rs:86-88 | with no links, the output is exactly the fixed text of the events and no flush writes anything |
| Render.ParagraphFlush | src/markgem.rs:60-63 | a paragraph end writes a blank line, then the links queued before the paragraph followed by the paragraph's own links, in order; afterwards the queue is empty and the id counted every link |
| LinkBlock.LinkLines | src/markgem.rs:90-98 | the link lines of a non-empty queue start with `=> ` and end with a newline |
| LinkBlock.PendingLinksText | src/markgem.rs:85-101 | a flush writes nothing for an empty queue; otherwise it writes text starting with `=> ` and ending in a blank line |
| LinkBlock.ParseLinkLineRoundTrip | src/markgem.rs:91-96 | `=> destination`, plus ` title` only when the title is non-empty, reads back as the link, if the destination has no space |
| LinkBlock.ParseLinesRoundTrip | src/markgem.rs:90-99 | for links whose destination holds no space or newline and whose title holds no newline, the lines of a queue followed by the closing newline read back as the queue, in order |
| LinkBlock.PendingLinksRoundTrip | src/markgem.rs:85-101 | for links whose destination holds no space or newline and whose title holds no newline, everything a flush writes reads back as the flushed queue; the flush loses no link and reorders none |
| FrontMatter.FindDelim | src/markgem.rs:112 | finds the first `+++` at or after a position, or reports that none exists |
| FrontMatter.SplitN | src/markgem.rs:112 | gives at most n pieces that join back, with `+++` between them, into the text; the first cut falls at the leftmost `+++`; no piece but the last holds a delimiter. The second cut, for the n = 3 of line 112, is pinned by `FrontMatter.SplitTwoDelims` |
| FrontMatter.SplitNoDelim | src/markgem.rs:112-114 | with no delimiter, the split is the whole text |
| FrontMatter.SplitOneDelim | src/markgem.rs:112-115 | with one delimiter, the split is the text before it and the text after it |
| FrontMatter.SplitTwoDelims | src/markgem.rs:112-116 | the first two non-overlapping delimiters cut the text into three pieces; later delimiters stay in the last piece |
| FrontMatter.LastPieceIsSuffix | src/markgem.rs:112-116 | the kept piece is a suffix of the text |
| FrontMatter.LastPiece | src/markgem.rs:112-116 | the kept piece is the whole text, the text after the only delimiter, or the text after the second delimiter |
| FrontMatter.StripMatter | src/markgem.rs:111-119 | the result is a suffix of the input: all of it when there is no `+++`, what follows the only `+++`, or what follows the second one |
| FrontMatter.StripMatterIdempotent | src/markgem.rs:111-119 | stripping twice equals stripping once exactly when the first result holds no `+++` |
| FrontMatter.StripMatterNotAlwaysIdempotent | src/markgem.rs:111-119 | `+++a+++b+++c` strips to `b+++c`, and that strips again to `c` |
| Markgem.TrimNewlines | src/markgem.rs:12-14 | the result is a prefix that does not end in a newline, and only newlines were removed |
| Markgem.TrimNewlinesIdempotent | src/markgem.rs:12-14 | trimming twice equals trimming once, and text that ends in something other than a newline is unchanged |
| Markgem.TrimNewlinesOf | src/markgem.rs:12-14 | text that does not end in a newline, followed by any run of newlines, trims back to that text |
| Markgem.GemtextOf | src/markgem.rs:9-14 | the Gemtext is a prefix of the rendered buffer, does not end in a newline, and differs from the buffer only by trailing newlines |
| Markgem.GemtextWithoutLinks | src/markgem.rs:9-14 | for a document without links, the Gemtext is the events' fixed text with trailing newlines removed |
| Markgem.GemtextOfTokens | src/markgem.rs:9-14 | for a document without links whose fixed text is some text followed by newlines, the Gemtext is exactly that text |
| Markgem.ToGemini | src/markgem.rs:7-16 | the result of the whole conversion after stripping the front matter never ends in a newline and is the rendered buffer minus its trailing newlines |
| Scenarios.HeaderMarkers | src/markgem.rs:53-58 | depths 1, 2, 3 and 4 give `# `, `## `, `### ` and `### ` |
| Scenarios.LinkEndStep | src/markgem.rs:77-82 | a fresh converter's first link writes `[1]`, queues the link and moves the id to 2 |
| Scenarios.SecondLinkStep | src/markgem.rs:77-82 | the second link writes `[2]` and queues behind the first |
| Scenarios.OneLinkFlushText | src/markgem.rs:90-99 | a titled link flushes as `=> http://x.com t` and a blank line |
| Scenarios.PairFlushText | src/markgem.rs:90-99 | two links flush as their two lines in queue order and then a blank line |
| Scenarios.UntitledLine | src/markgem.rs:91-97 | a link without a title is written without a trailing space |
| Scenarios.TwoLinksFlushText | src/markgem.rs:90-99 | two untitled links flush as `=> first`, `=> second` and a blank line |
| Scenarios.OneUntitledFlushText | src/markgem.rs:90-99 | one untitled link flushes as `=> destination` and a blank line |
| Scenarios.Headers | src/markgem.rs:143-149 | four headings of depths 1 to 4 render as in the headers example, the fourth at depth three |
| Scenarios.SoftNewline | src/markgem.rs:133-135 | a soft break inside a paragraph renders as one space |
| Scenarios.HardNewline | src/markgem.rs:138-140 | two paragraphs render separated by one blank line |
| LinkBlock.FlushAmbiguous | src/markgem.rs:91-96 | a destination `a b` without a title and a destination `a` with title `b` flush to the same text |
| Scenarios.UnorderedList | src/markgem.rs:155-163 | a two-item list renders as two `* ` bullet lines |
| Scenarios.TextStep | src/markgem.rs:67-69 | a text event appends its text verbatim and keeps the queue |
| Scenarios.OtherStep | src/markgem.rs:71 | an ignored event changes nothing |
| Scenarios.LinkedTextStep | src/markgem.rs:64-66 | a link writes its caption, then its marker with the current id, queues itself and advances the id |
| Scenarios.ParagraphEndStep | src/markgem.rs:60-63 | a paragraph end writes a blank line, then the queue, and empties the queue |
| Scenarios.LinkParagraphStep | src/markgem.rs:60-66 | a paragraph holding one link, after an empty queue, is followed by exactly its own link line |
| Scenarios.PlainParagraphStep | src/markgem.rs:60-63 | a paragraph without links, after an empty queue, writes its text and one blank line |
| Scenarios.FirstMarkers | src/markgem.rs:79 | ids 1, 2 and 3 give the markers `[1]`, `[2]` and `[3]` |
| Scenarios.OneParagraphLinks | src/markgem.rs:173-184 | one paragraph with two links renders with markers `[1]` and `[2]` in the text, then a blank line, then both link lines in order |
| Scenarios.MultipleParagraphLinks | src/markgem.rs:187-221 | three link paragraphs separated by plain paragraphs get markers `[1]`, `[2]` and `[3]`, each followed by its own link line |

## Left out

- The Markdown parser (pulldown-cmark) is not modelled. Its output is the event sequence given
  to `Convert`, and `ToGemini` takes it as a parameter. The examples in `Scenarios` use the
  event sequences the parser produces for those documents.
- Write errors are not modelled. The `BufWriter` and `Vec<u8>` writes are modelled as appends
  to a string that cannot fail, so the `?` error paths of `convert`, `handle_link`,
  `write_pending_links` and `write` never occur.
- The output is modelled as characters, not bytes. Everything the converter writes is ASCII
  or copied verbatim from the input. A `\n` byte only ever encodes a newline character, so
  popping trailing `\n` bytes and popping trailing newline characters agree.
- `next_link_id` is a `usize` in the source and an unbounded natural here. Wrap-around after
  2^64 links is not modelled.
- Heading depths are naturals. The parser only produces depths 1 to 6, so depth 0 is never
  produced.
- The `_` arm of `strip_matter` is not modelled. `splitn(3, ...)` always yields one to three
  pieces, so the arm cannot be reached.
- The ordered-list example in the source tests expects `1. foo` and not `* foo`. The code
  bullets every list item whatever the list's kind, as its own to-do comment says, and the
  model follows the code. An ordered list has the same kind of events as
  `Scenarios.UnorderedList`, one item per line, and its list start is ignored, so it renders
  as bullets.
- The examples in `Scenarios` are stated for symbolic texts and destinations, not for the
  literal strings of the tests. The last text of each document must be non-empty and must not
  end in a newline, as in every test.
- The link round trips (`LinkBlock.ParseLinesRoundTrip`, `LinkBlock.PendingLinksRoundTrip`)
  hold only for links whose destination holds no space or newline and whose title holds no
  newline. The source writes other links ambiguously (src/markgem.rs:91-96): a destination
  `a b` without a title and a destination `a` with title `b` both give the line `=> a b`, as
  `LinkBlock.FlushAmbiguous` shows, so no reader can recover every queue.
- The HTTP and Gemini server (`src/serve.rs`) and the command-line entry point (`src/main.rs`)
  are not part of this model.
