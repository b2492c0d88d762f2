# verible-formatter: the decisions of `runFormatter`

This project models the decision layer of the VS Code extension that formats
Verilog and SystemVerilog documents with `verible-verilog-format`. One call of
`runFormatter` does the following:

1. It rejects an undefined, empty or whitespace-only executable path. Whitespace
   is what JavaScript's `trim` removes.
2. It rejects a path that the PATH lookup does not resolve.
3. It resolves the configured flagfile. The path is kept if `fs.stat` finds
   `Uri.file(path)`.
   If not, it is looked up in the workspace folder that contains the document.
   If that fails too, it is dropped with a warning.
4. It builds the argument vector
   `--failsafe_success=false [--flagfile=<f>] [--lines=<a>-<b>] -`.
   The editor's 0-based range becomes 1-based, inclusive line numbers.
5. It spawns the formatter. Once the output is collected, a cancelled request
   returns no edit. Exit code 0 returns one edit that replaces the whole
   document with the joined stdout chunks. Any other exit code, or none,
   returns no edit and shows "Formatting failed".

Modules (one per concern, all from `src/extension.ts`):

- `Wrappers`: `Option`, for `T | undefined` and `T | null`.
- `JsText`: the JavaScript string behaviour the decisions rely on. This covers
  truthiness, `trim`, `Array.prototype.join`, and the decimal rendering of a
  line number in a template literal.
- `Editor`: positions, ranges, the replace edit, the document, and notices.
- `Flagfile`: flagfile resolution against an abstract `Host`. The `Host`
  holds the set of paths that `fs.stat` finds, the workspace folder, and
  `joinPath`/`fsPath` as a total function.
- `Arguments`: the argument vector. `Arguments` is the specification function.
  `BuildParams` is the step-by-step push sequence, proved equal to it.
- `Formatter`: the outcome choice and the whole `runFormatter` call.
  The PATH lookup result, the display of notices, the cancellation flag and
  the finished process's stdout chunks and exit code are all inputs.

The extension does not parse the formatter's stderr: on failure it only
logs it (src/extension.ts:151). It never looks for the flagfile next to the
document: the only fallback is the workspace folder.

## Model

| member | source | states |
|---|---|---|
| `JsText.TrimStart` | src/extension.ts:33 | the result is a suffix of the input, everything dropped is whitespace, and the result does not start with whitespace |
| `JsText.TrimEnd` | src/extension.ts:33 | the result is a prefix of the input, everything dropped is whitespace, and the result does not end with whitespace |
| `JsText.TrimEmptyIff` | src/extension.ts:33 | `s.trim().length == 0` holds exactly when every character of `s` is JavaScript whitespace |
| `JsText.IsTruthy` | src/extension.ts:46 | `if (s)` on a string that may be undefined: true exactly for a defined, non-empty string (also used for the checks at lines 41 and 85) |
| `JsText.Trim` | src/extension.ts:33 | `trim()`: the result is empty or starts and ends with a non-whitespace character |
| `JsText.Join` | src/extension.ts:144 | `Array.prototype.join(sep)`: the empty string for no elements, the element itself for one, and otherwise the elements with `sep` between neighbours |
| `JsText.NatToDecimal` | src/extension.ts:90 | a line number renders as a non-empty string of digits with no leading zero |
| `JsText.DecimalRoundTrip` | src/extension.ts:90 | reading the rendered digits back gives the number |
| `JsText.JoinLength` | src/extension.ts:144 | `join(sep)` is as long as all chunks together plus one separator between each pair of neighbours |
| `JsText.JoinEmptySeparator` | src/extension.ts:144 | joining with the empty separator is plain concatenation |
| `JsText.CommaJoinIsConcatIff` | src/extension.ts:144 | the no-argument `join()` equals the concatenation exactly when there is at most one chunk |
| `Editor.WholeDocumentRange` | src/extension.ts:140-143 | the edit range starts at line 0, character 0, ends at a valid position, and contains every position of the document |
| `Flagfile.NotFoundWarning` | src/extension.ts:72 | the warning `Flagfile "<path>" not found.` |
| `Flagfile.WorkspaceCandidate` | src/extension.ts:54-59 | there is a workspace candidate exactly when the document has a workspace folder; it is that folder joined with the configured path |
| `Flagfile.Resolve` | src/extension.ts:46-77 | an unset or empty flagfile is passed through with no lookup and no warning; a path that exists is kept unchanged; otherwise only the workspace candidate may replace it, and only if it exists; a warning naming the configured path is given exactly when a configured flagfile is dropped |
| `Flagfile.ResolveFindsExisting` | src/extension.ts:46-77 | a configured flagfile is dropped exactly when neither the path as given nor its workspace candidate exists; when only the candidate exists, the candidate is returned with no warning |
| `Arguments.FlagfileToken` | src/extension.ts:86 | the token is `--flagfile=` followed by the path unchanged |
| `Arguments.LinesToken` | src/extension.ts:90 | the token is `--lines=` followed by the numerals of `start.line + 1` and `end.line + 1`, separated by `-` |
| `Arguments.Arguments` | src/extension.ts:80-94 | the argument-vector specification: the failsafe flag, the flagfile token when the flagfile is truthy, the lines token when a range is given, and `-`; it always has 2 to 4 tokens, opening with `--failsafe_success=false` and closing with `-` |
| `Arguments.BuildParams` | src/extension.ts:80-94 | the pushed sequence equals the argument-vector specification |
| `Arguments.ArgumentsFrame` | src/extension.ts:80-94 | the first token is `--failsafe_success=false` and the last is `-`; the length is 2, plus 1 for a flagfile, plus 1 for a range, so between 2 and 4 |
| `Arguments.FlagfileTokenPlacement` | src/extension.ts:85-91 | a `--flagfile=` token appears exactly when the resolved flagfile is truthy; it is at index 1 and nowhere else, carries that path, and comes before any `--lines=` token |
| `Arguments.LinesTokenPlacement` | src/extension.ts:89-94 | a `--lines=` token appears exactly when a range is given, at the second-last index and nowhere else |
| `Arguments.TokenClassification` | src/extension.ts:83-94 | for every index: it holds a flagfile token exactly when it is index 1 and a flagfile is set, and a lines token exactly when it is the slot after the optional flagfile and a range is given |
| `Arguments.LinesTokenRoundTrip` | src/extension.ts:90 | the lines token reads back as the pair (`start.line + 1`, `end.line + 1`) |
| `Formatter.SelectOutcomeWith` | src/extension.ts:130-154 | for chunks joined by a given separator: cancellation gives no edit and no notice, whatever the exit code; there is at most one edit, and there is one exactly on exit code 0; that edit replaces the whole document with the joined stdout chunks; a non-zero or missing exit code gives no edit and only the "Formatting failed" notice |
| `Formatter.SelectOutcome` | src/extension.ts:130-154 | the outcome choice as written: `SelectOutcomeWith` with the comma that `out.join()` uses |
| `Formatter.ReplacementText` | src/extension.ts:144 | the replacement text as written: the stdout chunks joined with `","` |
| `Formatter.BlankPath` | src/extension.ts:33 | the guard (the path is falsy, or `path.trim().length == 0`) holds exactly when the path is undefined or every character of it is whitespace |
| `Formatter.ExecutableNotFound` | src/extension.ts:16 | the error notice `Executable "<path>" not found.`, naming the path as configured |
| `Formatter.RunFormatter` | src/extension.ts:22-154 | a process is spawned exactly when the path is not blank and the lookup resolved it; it gets the located executable and the vector built from the resolved flagfile and the range; with no process there are no edits; otherwise the edits are those of the outcome choice |
| `Formatter.BlankPathAborts` | src/extension.ts:33-37 | an undefined or all-whitespace path gives no process, no edit and only the "not specified" error |
| `Formatter.MissingExecutableAborts` | src/extension.ts:39-43 | a path the lookup cannot resolve gives no process, no edit and only the "Executable ... not found." error, naming the path as configured |
| `Formatter.SpawnedNotices` | src/extension.ts:71-151 | once spawned, the notices are the flagfile warning (when a configured flagfile was dropped) followed by "Formatting failed" (when not cancelled and the exit code is not 0) |
| `Formatter.SuccessReplacesDocument` | src/extension.ts:137-146 | exit code 0 without cancellation gives exactly one edit, over the whole document, carrying the joined stdout |
| `Formatter.NoEditUnlessSuccess` | src/extension.ts:130-154 | cancellation, a non-zero exit code or a null exit code gives no edit |
| `Formatter.ReplacementIsOutputIff` | src/extension.ts:144 | the replacement text equals the formatter's output stream exactly when the stream arrived in at most one chunk |
| `Formatter.ChunkingChangesReplacement` | src/extension.ts:144 | the same output `module m;` arriving as one chunk or as two gives two different replacement texts |
| `Formatter.SelectOutcomeConcat` | src/extension.ts:137-146 | the corrected outcome choice (`SelectOutcomeWith` with the empty separator): any edit it gives carries the concatenated output stream verbatim |
| `Formatter.ConcatOutcomeIgnoresChunking` | src/extension.ts:144 | with concatenation, two outputs with the same stream text give the same outcome, and the replacement is that stream text |

## Left out

- `activate` and provider registration (src/extension.ts:157-181) are editor API calls. Whole-document formatting passes no range and no cancellation token, which the model expresses as `range == None` and `cancelled == false`.
- The PATH lookup in `findFormatter` (src/extension.ts:12-20) is a library call. Its result is the input `located`. Only its error notice is modelled.
- `getConfiguration`, `fs.stat`, `getWorkspaceFolder`, `Uri.file`, `Uri.joinPath` and `fsPath` are editor API calls. They are abstracted as the `Config` and `Host` inputs.
- Spawning the process, writing the document to its stdin, draining both streams and waiting for the exit event (src/extension.ts:97-128, 135) are I/O and event ordering. The chunks and the exit code are the `ProcessOutcome` input, and the document text sent on stdin is not modelled.
- Flagfile.Resolve: one set of existing paths answers both stat calls. The first is `fs.stat(Uri.file(f))` (src/extension.ts:50); `Uri.file` reads a relative `f` as a path under the file-system root, not under the working directory. The second is the stat of `Uri.joinPath(folder.uri, f)` (src/extension.ts:62), which the model asks through the joined URI's `fsPath`. The two agree only for a workspace folder with the `file` scheme; the model does not distinguish URI schemes.
- Logging stderr to the console (src/extension.ts:151) is output only and affects no result.
- Character offsets are Dafny characters (Unicode scalar values), not the editor's UTF-16 code units. A last line holding characters outside the Basic Multilingual Plane therefore has a shorter end character here.

## Findings

| source | as written | input that shows it | evidently intended | confidence | as-written member | corrected member |
|---|---|---|---|---|---|---|
| src/extension.ts:144 | the replacement text is `out.join()`, which puts a comma between stdout chunks | exit code 0 with the output `module m;` delivered as the chunks `module` and ` m;` replaces the document with `module, m;` | the chunks concatenated unchanged (`out.join('')`), so the replacement is the formatter's output | medium; not executed | `Formatter.ChunkingChangesReplacement` | `Formatter.SelectOutcomeConcat` |
