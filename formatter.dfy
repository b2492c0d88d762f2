/** The decisions of `runFormatter`: reject a blank or unresolvable executable
    path, resolve the flagfile, build the argument vector, and turn the
    finished process into either no edit or one whole-document replacement. */
module Formatter {
  import opened Wrappers
  import opened JsText
  import opened Editor
  import Flagfile
  import Arguments

  /** The two settings read from the `verible-formatter` configuration. */
  datatype Config = Config(path: Option<string>, flagFile: Option<string>)

  /** What the spawned formatter produced once both streams were drained:
      the stdout and stderr chunks in arrival order and the exit code
      (`null` becomes `None`). */
  datatype ProcessOutcome = ProcessOutcome(stdout: seq<string>, stderr: seq<string>, exitCode: Option<int>)

  /** The process that is spawned: executable and argument vector. */
  datatype Invocation = Invocation(executable: string, args: seq<string>)

  /** The edits returned to the editor and the notices shown on the way. */
  datatype Response = Response(edits: seq<TextEdit>, notices: seq<Notice>)

  /** One call of `runFormatter`: the process spawned (if any), the edits
      returned and the notices shown, in order. */
  datatype Run = Run(invocation: Option<Invocation>, edits: seq<TextEdit>, notices: seq<Notice>)

  const PathNotSpecified := "Path to verible-verilog-format not specified."
  const FormattingFailed := "Formatting failed"

  function ExecutableNotFound(path: string): Notice {
    ErrorMessage("Executable \"" + path + "\" not found.")
  }

  /** The replacement text as the code builds it: `out.join()`, whose
      default separator is a comma. */
  function ReplacementText(stdout: seq<string>): string {
    Join(stdout, ",")
  }

  /** The choice made once the process has finished, with the stdout chunks
      joined by `sep`. */
  function SelectOutcomeWith(doc: Document, cancelled: bool, proc: ProcessOutcome, sep: string): (resp: Response)
    // cancellation discards the result silently, whatever the exit code
    ensures cancelled ==> resp == Response([], [])
    // at most one edit, and one exactly on a non-cancelled exit code 0
    ensures |resp.edits| <= 1
    ensures |resp.edits| == 1 <==> !cancelled && proc.exitCode == Some(0)
    // that edit replaces the whole document with the joined stdout chunks
    ensures |resp.edits| == 1 ==>
      resp.edits[0] == TextEdit(WholeDocumentRange(doc), Join(proc.stdout, sep)) && resp.notices == []
    // a non-zero or missing exit code is reported, and nothing else
    ensures !cancelled && proc.exitCode != Some(0) ==> resp == Response([], [ErrorMessage(FormattingFailed)])
  {
    if cancelled then
      Response([], [])
    else if proc.exitCode.Some? && proc.exitCode.value == 0 then
      Response([TextEdit(WholeDocumentRange(doc), Join(proc.stdout, sep))], [])
    else
      Response([], [ErrorMessage(FormattingFailed)])
  }

  /** The choice as the code makes it: the chunks joined by `out.join()`. */
  function SelectOutcome(doc: Document, cancelled: bool, proc: ProcessOutcome): Response {
    SelectOutcomeWith(doc, cancelled, proc, ",")
  }

  /** Whether the configured executable path is rejected before lookup:
      `!path || path.trim().length == 0`. */
  function BlankPath(path: Option<string>): (blank: bool)
    ensures blank <==> path.None? || AllWhitespace(path.value)
  {
    if path.None? then true
    else TrimEmptyIff(path.value); Trim(path.value) == []
  }

  /** `runFormatter(document, range, token)`. `located` is the answer of the
      PATH lookup for the configured path (`None` when it throws), `host`
      answers the flagfile lookups, and `proc` is what the spawned process
      produced; `cancelled` is `token?.isCancellationRequested`. */
  function RunFormatter(
    doc: Document, range: Option<Range>, cancelled: bool,
    config: Config, located: Option<string>, host: Flagfile.Host, proc: ProcessOutcome
  ): (run: Run)
    // nothing is spawned without a non-blank configured path that the lookup resolved
    ensures run.invocation.Some? <==> !BlankPath(config.path) && IsTruthy(located)
    // what is spawned is the located executable with the resolved flagfile and the range
    ensures run.invocation.Some? ==>
      run.invocation.value == Invocation(located.value,
        Arguments.Arguments(Flagfile.Resolve(config.flagFile, host).flagfile, range))
    // no process, no edits
    ensures run.invocation.None? ==> run.edits == []
    ensures run.invocation.Some? ==> run.edits == SelectOutcome(doc, cancelled, proc).edits
  {
    if BlankPath(config.path) then
      Run(None, [], [ErrorMessage(PathNotSpecified)])
    else
      var lookupError := if located.None? then [ExecutableNotFound(config.path.value)] else [];
      if !IsTruthy(located) then
        Run(None, [], lookupError)
      else
        var resolution := Flagfile.Resolve(config.flagFile, host);
        var warning := if resolution.warning.Some? then [resolution.warning.value] else [];
        var args := Arguments.Arguments(resolution.flagfile, range);
        var resp := SelectOutcome(doc, cancelled, proc);
        Run(Some(Invocation(located.value, args)), resp.edits, warning + resp.notices)
  }

  /** An undefined, empty or whitespace-only path stops the call before the
      lookup, with its error notice and nothing else. */
  lemma BlankPathAborts(
    doc: Document, range: Option<Range>, cancelled: bool,
    config: Config, located: Option<string>, host: Flagfile.Host, proc: ProcessOutcome)
    requires config.path.None? || AllWhitespace(config.path.value)
    ensures RunFormatter(doc, range, cancelled, config, located, host, proc) ==
      Run(None, [], [ErrorMessage(PathNotSpecified)])
  {
  }

  /** A path that the lookup cannot resolve stops the call before spawning,
      after reporting the path as given. */
  lemma MissingExecutableAborts(
    doc: Document, range: Option<Range>, cancelled: bool,
    config: Config, host: Flagfile.Host, proc: ProcessOutcome)
    requires config.path.Some? && !AllWhitespace(config.path.value)
    ensures RunFormatter(doc, range, cancelled, config, None, host, proc) ==
      Run(None, [], [ExecutableNotFound(config.path.value)])
  {
  }

  /** Once spawned, the notices are the flagfile warning (if resolution
      dropped the flagfile) followed by the failure notice (if the process
      was not cancelled and did not exit with 0). */
  lemma SpawnedNotices(
    doc: Document, range: Option<Range>, cancelled: bool,
    config: Config, located: Option<string>, host: Flagfile.Host, proc: ProcessOutcome)
    requires config.path.Some? && !AllWhitespace(config.path.value) && IsTruthy(located)
    ensures var run := RunFormatter(doc, range, cancelled, config, located, host, proc);
      var dropped := IsTruthy(config.flagFile) && Flagfile.Resolve(config.flagFile, host).flagfile.None?;
      var failed := !cancelled && proc.exitCode != Some(0);
      run.notices ==
        (if dropped then [Flagfile.NotFoundWarning(config.flagFile.value)] else []) +
        (if failed then [ErrorMessage(FormattingFailed)] else [])
  {
  }

  /** Exit code 0 without cancellation gives exactly one edit, spanning the
      whole document, carrying the joined stdout chunks. */
  lemma SuccessReplacesDocument(
    doc: Document, range: Option<Range>,
    config: Config, located: Option<string>, host: Flagfile.Host, proc: ProcessOutcome)
    requires config.path.Some? && !AllWhitespace(config.path.value) && IsTruthy(located)
    requires proc.exitCode == Some(0)
    ensures var run := RunFormatter(doc, range, false, config, located, host, proc);
      |run.edits| == 1 &&
      run.edits[0].range == WholeDocumentRange(doc) &&
      run.edits[0].newText == ReplacementText(proc.stdout)
  {
  }

  /** Cancellation, a non-zero exit code or a missing exit code give no edit. */
  lemma NoEditUnlessSuccess(
    doc: Document, range: Option<Range>, cancelled: bool,
    config: Config, located: Option<string>, host: Flagfile.Host, proc: ProcessOutcome)
    requires cancelled || proc.exitCode != Some(0)
    ensures RunFormatter(doc, range, cancelled, config, located, host, proc).edits == []
  {
  }

  // ---------------------------------------------------------------------------
  // The comma separator of `out.join()`

  /** As written, the replacement equals the formatter's output stream only
      while that stream arrives in at most one chunk. */
  lemma ReplacementIsOutputIff(stdout: seq<string>)
    ensures ReplacementText(stdout) == Concat(stdout) <==> |stdout| <= 1
  {
    CommaJoinIsConcatIff(stdout);
  }

  /** The same output split into two chunks yields a different document:
      "module m;" read as one chunk, or as "module" and " m;". */
  lemma ChunkingChangesReplacement(doc: Document)
    ensures var whole := ProcessOutcome(["module m;"], [], Some(0));
      var split := ProcessOutcome(["module", " m;"], [], Some(0));
      Concat(whole.stdout) == Concat(split.stdout) &&
      SelectOutcome(doc, false, whole).edits[0].newText == "module m;" &&
      SelectOutcome(doc, false, split).edits[0].newText == "module, m;"
  {
  }

  /** The outcome with the chunks concatenated (`out.join("")`), so that the
      replacement is the output stream itself. */
  function SelectOutcomeConcat(doc: Document, cancelled: bool, proc: ProcessOutcome): (resp: Response)
    ensures |resp.edits| == 1 ==> resp.edits[0].newText == Concat(proc.stdout)
  {
    JoinEmptySeparator(proc.stdout);
    SelectOutcomeWith(doc, cancelled, proc, "")
  }

  /** With concatenation the result no longer depends on how the output
      stream was chunked, and equals the stream verbatim. */
  lemma ConcatOutcomeIgnoresChunking(doc: Document, cancelled: bool, p: ProcessOutcome, q: ProcessOutcome)
    requires Concat(p.stdout) == Concat(q.stdout) && p.exitCode == q.exitCode
    ensures SelectOutcomeConcat(doc, cancelled, p) == SelectOutcomeConcat(doc, cancelled, q)
    ensures var resp := SelectOutcomeConcat(doc, cancelled, p);
      |resp.edits| == 1 ==> resp.edits[0].newText == Concat(p.stdout)
  {
  }
}
