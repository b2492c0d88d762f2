/** The slice of the editor's document model that the formatter touches:
    zero-based positions and ranges, a replace edit, the document's lines, and
    the notices shown to the user. */
module Editor {

  /** A zero-based line and the zero-based character offset within it. */
  datatype Position = Position(line: nat, character: nat)

  datatype Range = Range(start: Position, end: Position)

  /** `TextEdit.replace(range, newText)`. */
  datatype TextEdit = TextEdit(range: Range, newText: string)

  datatype TextDocument = TextDocument(lines: seq<string>)

  /** The editor never hands out a document without a line: an empty
      document has one empty line. */
  type Document = d: TextDocument | |d.lines| > 0 witness TextDocument([""])

  /** `showErrorMessage` and `showWarningMessage`. */
  datatype Notice = ErrorMessage(text: string) | WarningMessage(text: string)

  predicate ValidPosition(d: Document, p: Position) {
    p.line < |d.lines| && p.character <= |d.lines[p.line]|
  }

  predicate NotAfter(p: Position, q: Position) {
    p.line < q.line || (p.line == q.line && p.character <= q.character)
  }

  predicate Contains(r: Range, p: Position) {
    NotAfter(r.start, p) && NotAfter(p, r.end)
  }

  /** `new Range(lineAt(0).range.start, lineAt(lineCount - 1).range.end)`:
      both ends are positions of the document, the range starts at the very
      first position, and it contains every position of the document. */
  function WholeDocumentRange(d: Document): (r: Range)
    ensures ValidPosition(d, r.start) && ValidPosition(d, r.end)
    ensures r.start == Position(0, 0)
    ensures forall p :: ValidPosition(d, p) ==> Contains(r, p)
  {
    var last := |d.lines| - 1;
    Range(Position(0, 0), Position(last, |d.lines[last]|))
  }
}
