/**
 * The document-structure events the converter consumes. They stand for the
 * subset of the Markdown parser's events that the converter's dispatch
 * distinguishes; every other event the parser can produce (paragraph, link
 * and list starts, code, HTML, rules, ...) is represented by `Other`.
 */
module Events {

  /** A queued hyperlink: its destination and its (possibly empty) title attribute. */
  datatype Link = Link(destination: string, title: string)

  datatype Event =
    | EmphasisStart
    | EmphasisEnd
    | StrongStart
    | StrongEnd
    | StrikethroughStart
    | StrikethroughEnd
    | BlockQuoteStart
    | ItemStart
    | ItemEnd
    | ListEnd
    | HeadingStart(depth: nat)
    | HeadingEnd
    | ParagraphEnd
    | LinkEnd(destination: string, title: string)
    | Text(text: string)
    | SoftBreak
    | Other
}
