/**
 * One pass of gpc.py's input loop up to the point where a message is
 * ready to send: tokenise the line, parse it, and let the `except
 * ValueError` around the parse decide whether a rejected line is skipped
 * or ends the program.
 */
module GpcMain {
  import opened Wrappers
  import opened Exceptions
  import opened PyStr
  import opened CommandLine
  import opened GpcCatalog
  import opened GpcMessage

  datatype LineOutcome =
    | Accepted(message: Message)   // parsed; the loop goes on to send it
    | Skipped(error: ParseError)   // caught by `except ValueError`; the loop reads the next line
    | Crashed(raised: PyException) // not caught; the program stops with a traceback

  /** The loop body as written: only the rejection that raises `ValueError` is caught. */
  function HandleLine(line: string): (r: LineOutcome)
    ensures r.Skipped? ==> r.error.UnknownCommand?
    ensures r.Crashed? ==> r.raised == NameError
  {
    match Parse(Tokenise(line))
    case Success(m) => Accepted(m)
    case Failure(e) => if Raised(e) == ValueError then Skipped(e) else Crashed(Raised(e))
  }

  /** The loop body as evidently intended: every rejected line is reported and skipped. */
  function HandleLineIntended(line: string): LineOutcome {
    match Parse(Tokenise(line))
    case Success(m) => Accepted(m)
    case Failure(e) => Skipped(e)
  }

  /**
   * As written, a line naming a known command with the wrong number of
   * arguments, or with an argument the mapping does not know, ends the
   * program; only an unknown command is skipped.
   */
  lemma HandleLineCrashes(line: string)
    ensures HandleLine(line).Crashed? <==>
      Parse(Tokenise(line)).Failure? && !Parse(Tokenise(line)).error.UnknownCommand?
    ensures HandleLine(line).Crashed? ==> HandleLine(line).raised == NameError
  {
  }

  /** The line `zoom` (a command that needs one argument, given none) ends the program. */
  lemma HandleLineZoom()
    ensures HandleLine("zoom") == Crashed(NameError)
    ensures HandleLineIntended("zoom") == Skipped(ArityMismatch(Zoom, 1, 0))
  {
    var none: string := [];
    assert AllSpace(none) && none + "zoom" + none == "zoom";
    TokeniseWords(none, ["zoom"], none);
    ParseArityMismatch(["zoom"], Zoom);
  }

  /**
   * The intended loop body never crashes on a line: it accepts exactly the
   * lines that parse, with the parsed message, and skips every other line
   * with the reason it was rejected.
   */
  lemma HandleLineIntendedTotal(line: string)
    ensures !HandleLineIntended(line).Crashed?
    ensures HandleLineIntended(line).Accepted? <==> Parse(Tokenise(line)).Success?
    ensures HandleLineIntended(line).Skipped? ==> Parse(Tokenise(line)) == Failure(HandleLineIntended(line).error)
    ensures HandleLine(line).Accepted? <==> HandleLineIntended(line).Accepted?
  {
  }

  /** A blank line is skipped as the unknown command `""`, in both versions. */
  lemma HandleLineBlank(line: string)
    requires AllSpace(line)
    ensures HandleLine(line) == Skipped(UnknownCommand(""))
    ensures HandleLineIntended(line) == Skipped(UnknownCommand(""))
  {
    TokeniseBlank(line);
    ParseEmptyToken();
  }
}
