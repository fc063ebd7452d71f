# Pylint static analysis extension: a verified model

This project models the core of a VS Code extension that runs pylint on a workspace and shows what it reports in the Problems view. The core is made of six parts:

- **Issue parsing** (`IssueImpl`). A report line of pylint is read with one of two regular expressions:
  - the primary pattern `file:line:column: Ccode: message`;
  - the alternative pattern `file:line: [Ccode] message`.

  Refactor and convention letters are folded to information. Continuation lines are appended to the message and to the raw text. `toJSON` looks for a parenthesised tag at the end of the message.
- **The task** (`PylintWrappedTask`).
  - `createSpawn` builds the command line.
  - `handle` cuts a chunk of pylint's output into lines and groups them into blocks. A block is a first line and its continuation lines. A line starting with `==` or with whitespace always continues the block; any other line continues it unless it parses as an issue.
  - For an issue block, `handle` writes one `__PYLINT_ISSUE__ {json}` marker line and hands the issue to the publisher. Any other block is written back line by line.
- **The diagnostics publisher** (`DiagnosticsPublisher`). It keeps an insertion-ordered map from a file's uri to its issues. It streams each added issue once, and reports empty or full lists on `clear`, `clearUriMatch` and `flush`.
- **The language server** (`LspServer`). It turns issues into LSP diagnostics: a one-character range, a severity, a code and a documentation link. It keeps one list per uri: a bulk notification replaces the list, a streamed issue is appended to it. The whole list is republished each time it changes.
- **The language client** (`LspClient`).
  - `reporterStream` sends a streamed issue as a request. It makes at most four attempts, waiting 100, 200, 400 and 800 ms after the failed ones.
  - `reporter` sends a batch once as a notification.
  - The readiness flag is only ever set to true.
- **Interpreter resolution** (`PythonInterpreter`). It tries four sources in turn: the extension's `pythonPath` override, the Python extension's API (two variants), VS Code's `python.defaultInterpreterPath`, and finally `python3`.

The Dafny modules follow these parts:

| module | file |
|---|---|
| `Wrappers` | `wrappers.dfy` |
| `Text` | `text.dfy` |
| `OrderedMaps` | `ordered_map.dfy` |
| `Grammar` | `grammar.dfy` |
| `Issues` | `issues.dfy` |
| `Task` | `task.dfy` |
| `Publishing` | `publishing.dfy` |
| `Server` | `server.dfy` |
| `Client` | `client.dfy` |
| `Interpreter` | `interpreter.dfy` |

### How the model is built

- **Regular expressions.** They are written out as matchers over positions. JavaScript's backtracking reports the match whose greedy quantifiers end furthest, taken left to right. The matchers compute that match. Lemmas prove that a matcher finds a match whenever the pattern can match, and that no other way of matching ranks above the one it reports.
- **Stateful objects.** Objects whose fields change are classes:
  - `Issue`, `PylintWrappedTask`, `DiagnosticsPublisher`, `LspServer` and `LspClient`.
  - Their methods are proved against specification functions: `ParseLine`, `Appended`, `Serialized`, `ChunkBlocks`, `Output`, `Additions`, `AddTo`, `AddAll`, `Restrict` and `Snapshot`.
- **Calls out of the core.** Calls into Node, VS Code and the LSP library are parameters:
  - `JSON.stringify` is the `stringify` function of the task;
  - `path.isAbsolute`, `path.join` and `Uri.file(...).toString()` are the functions of a `PathOps` value;
  - the `clearUriMatch` pattern is a predicate;
  - whether a request attempt succeeds is a function of the attempt number;
  - the settings and the Python extension's answers are data.
- **Effects.** Whatever goes to `out.write`, to the reporters or to `sendDiagnostics` is recorded as a sequence, in order.

### Two things `handle` does not do

- **No terminator lines.** Only a line that starts an issue and is no marker line ends a block. A pylint banner (`*****`), a separator (`-----`) or a rating line that does not parse as an issue is absorbed into the block before it, as `Task.BlockEndProps` states.
- **No carry-over between chunks.** Each chunk is split on its own. An unterminated last line is handled as a complete line of that chunk, and only an empty last piece is dropped, as `Task.BlocksOfChunk` states.

## Model

| member | source | states |
|---|---|---|
| Text.Trim | src/pylintstatic/application/parsing/IssueImpl.ts:31-32 | `trim` gives a result no longer than its input, with no whitespace at either end. It is empty exactly when the input is all whitespace. |
| Text.TrimPadded | src/pylintstatic/infrastructure/lsp/LspServer.ts:190 | Trimming removes exactly the whitespace padding around a text that has no whitespace at its ends. |
| Text.StripTrailingNewline | src/pylintstatic/application/parsing/IssueImpl.ts:52 | `replace(/\n$/, "")` removes one final line feed when there is one, and changes nothing otherwise. |
| OrderedMaps.Get | src/pylintstatic/application/publishing/DiagnosticsPublisher.ts:107 | `map.get` gives a value exactly for a present key, and it is the stored value. |
| OrderedMaps.Set | src/pylintstatic/application/publishing/DiagnosticsPublisher.ts:109 | `map.set` stores the value. A new key goes to the end of the iteration order; a present key keeps its place. |
| OrderedMaps.Delete | src/pylintstatic/infrastructure/lsp/LspServer.ts:81 | `map.delete` removes the key and keeps the order of the others. |
| OrderedMaps.DeleteAbsent | src/pylintstatic/infrastructure/lsp/LspServer.ts:80-84 | Deleting a key that is not present changes nothing. |
| OrderedMaps.Restrict | src/pylintstatic/application/publishing/DiagnosticsPublisher.ts:72-91 | Keeping the keys a predicate accepts keeps their order and their values, and drops every other key. |
| OrderedMaps.FilterAll | src/pylintstatic/application/publishing/DiagnosticsPublisher.ts:74-76 | Filtering by a predicate that accepts every key keeps them all. |
| Grammar.LastWhere | src/pylintstatic/application/parsing/PylintWrappedTask.ts:17 | Finds the last position below a bound that has a property, or shows that none has it. This is how the greedy `(.*)` file group places its end. |
| Grammar.MatchPrimarySplit | src/pylintstatic/application/parsing/PylintWrappedTask.ts:16-17 | What `s.match(PATT)` reports is a way for the whole of `s` to match the primary pattern. |
| Grammar.MatchPrimaryIsFirstMatch | src/pylintstatic/application/parsing/PylintWrappedTask.ts:16-17 | The primary matcher succeeds whenever the pattern can match. No other way of matching ranks above what it reports in the order JavaScript's backtracking tries. |
| Grammar.PrimaryTailAtComplete | src/pylintstatic/application/parsing/PylintWrappedTask.ts:17 | Once the file group ends, the rest of a primary match is fixed, except that the whitespace before the message may stretch. |
| Grammar.PrimaryGroupsOf | src/pylintstatic/application/parsing/PylintWrappedTask.ts:17 | The capture groups have the pattern's shapes: line and column are non-empty runs of digits, the category is one of W, E, I, R, C, the code rest holds no ':' and the message holds no line terminator. |
| Grammar.MatchPrimaryUnique | src/pylintstatic/application/parsing/PylintWrappedTask.ts:16-17 | When the message holds no ':' and does not start with whitespace, the primary pattern can match in one way only, and that is the match reported. |
| Grammar.MatchPrimaryOfLine | src/pylintstatic/application/parsing/PylintWrappedTask.ts:16-17 | Formatting a line from well-formed parts and matching the primary pattern gives the parts back. |
| Grammar.PrimaryLineSplit | src/pylintstatic/application/parsing/PylintWrappedTask.ts:17 | A line built from well-formed parts has the primary split at the positions of its three ':' separators, its category and its code rest. |
| Grammar.MatchAltSplit | src/pylintstatic/application/parsing/PylintWrappedTask.ts:18-19 | What `s.match(PATT_ALT)` reports is a way for the whole of `s` to match the alternative pattern. |
| Grammar.MatchAltIsFirstMatch | src/pylintstatic/application/parsing/PylintWrappedTask.ts:18-19 | The alternative matcher succeeds whenever the pattern can match. No way of matching ranks above what it reports. |
| Grammar.AltTailAtComplete | src/pylintstatic/application/parsing/PylintWrappedTask.ts:19 | Once the file group ends, the greedy code digits take at least the digits of any match, and the matcher still finds a match. |
| Grammar.AltGroupsOf | src/pylintstatic/application/parsing/PylintWrappedTask.ts:19 | The line group is a non-empty run of digits. The code is an upper-case letter followed by at least one digit. |
| Grammar.MatchCodeTagSound | src/pylintstatic/application/parsing/IssueImpl.ts:36 | A tag the `/.*\(([^\(\)]*)\)$/` matcher returns holds no parenthesis, and the message ends with it in parentheses. |
| Grammar.MatchCodeTagComplete | src/pylintstatic/application/parsing/IssueImpl.ts:36 | A message that ends with a parenthesised text free of parentheses yields exactly that text. |
| Issues.FoldCategory | src/pylintstatic/application/parsing/IssueImpl.ts:62-64 | R and C become I; every other letter is kept. A primary-pattern letter always ends up as E, W or I. |
| Issues.CodeOf | src/pylintstatic/application/parsing/IssueImpl.ts:30-32 | The code is the code rest, trimmed. It is absent exactly when the rest is all whitespace, and a present code is non-empty with no whitespace at its ends. |
| Issues.CodeOfPadded | src/pylintstatic/application/parsing/IssueImpl.ts:31-32 | A code surrounded by whitespace is found as it is. |
| Issues.TagOf | src/pylintstatic/application/parsing/IssueImpl.ts:36-44 | The tag is either the text in the message's closing parentheses or the earlier tag. A message not ending in ')' keeps the earlier tag. |
| Issues.TagOfComplete | src/pylintstatic/application/parsing/IssueImpl.ts:36-39 | A message ending in a parenthesised non-empty text without parentheses gets that text as its tag. |
| Issues.Construct | src/pylintstatic/application/parsing/IssueImpl.ts:15-45 | The constructor never stores an empty code or an empty tag, and keeps the message and the raw text. |
| Issues.ParseLine | src/pylintstatic/application/parsing/IssueImpl.ts:47-99 | A parsed issue keeps the line as its raw text. Its line and column are whole numbers. Its category is the folded form of the upper-case letter pylint printed. |
| Issues.ParseLineDecides | src/pylintstatic/application/parsing/IssueImpl.ts:52-98 | `fromLine` returns an issue exactly when one of the two patterns can match the line without its final line feed. |
| Issues.EmptyLineIsNoIssue | src/pylintstatic/application/parsing/IssueImpl.ts:52-98 | An empty line is not an issue. |
| Issues.ParseLinePrimary | src/pylintstatic/application/parsing/IssueImpl.ts:53-75 | A line the primary pattern can match is parsed by it, even when the alternative pattern would match too. The issue is the constructed record of the primary groups, and its category is a severity. |
| Issues.ParseLineAlt | src/pylintstatic/application/parsing/IssueImpl.ts:76-97 | A line that only the alternative pattern matches gets column 0, the bracketed code as its code, and the code's letter as its original category. |
| Issues.ParseLineOfPrimaryLine | src/pylintstatic/application/parsing/IssueImpl.ts:53-75 | Formatting a primary line from its parts and parsing it gives the constructed issue of those parts. |
| Issues.StandardLineExample | test/runner.test.ts:7-19 | `file.py:10:5: W0123: Example message` parses to file `file.py`, line 10, column 5, category W, code `0123`. |
| Issues.CodeOfUnpadded | src/pylintstatic/application/parsing/IssueImpl.ts:31-32 | A code with no whitespace at its ends is stored as it is. |
| Issues.SimilarLinesExample | test/runner.test.ts:21-36 | `path/to/file.py:1:0: R0801: Similar lines in 2 files` parses by the primary pattern to line 1, column 0, category I (from R), code `0801`. After the test's two continuation lines are appended, file, line, column, category and code are still those. |
| Issues.CrashLineExample | test/runner.test.ts:38-51 | `toJSON` of `file.py:2:3: E999: Crash` has file `file.py`, line 2, column 3 and category E. |
| Issues.Appended | src/pylintstatic/application/parsing/IssueImpl.ts:101-104 | A continuation line, without its line feed, becomes a new line of the message, and the raw text gains the line as it is. No other field changes. |
| Issues.AppendedAllConcat | src/pylintstatic/application/parsing/PylintWrappedTask.ts:126-128 | Appending one run of continuation lines and then another is appending both runs at once. |
| Issues.AppendedAllRaw | src/pylintstatic/application/parsing/IssueImpl.ts:101-104 | After continuation lines, the raw text is the first line followed by every continuation line as it came. The message grows by at least one character per line, and nothing else changes. |
| Issues.Serialized | src/pylintstatic/application/parsing/IssueImpl.ts:106-127 | `toJSON` changes only the tag. It never loses a tag, and a new tag is the one in the message's closing parentheses. |
| Issues.SerializedIdempotent | src/pylintstatic/application/parsing/IssueImpl.ts:106-127 | Serializing twice gives what serializing once gives. |
| Issues.SerializedAfterTaggedLine | src/pylintstatic/application/parsing/IssueImpl.ts:101-115 | A continuation line ending in a parenthesised tag makes that the tag the serialized issue reports. |
| Issues.Issue.constructor | src/pylintstatic/application/parsing/IssueImpl.ts:15-45 | The new object holds what `Construct` describes. |
| Issues.Issue.FromLine | src/pylintstatic/application/parsing/IssueImpl.ts:47-99 | Returns null exactly when `ParseLine` finds no issue. Otherwise it returns a new object holding the parsed issue. |
| Issues.Issue.AppendContinuation | src/pylintstatic/application/parsing/IssueImpl.ts:101-104 | The object afterwards is `Appended` of the object before. |
| Issues.Issue.ToJSON | src/pylintstatic/application/parsing/IssueImpl.ts:106-127 | Returns `Serialized` of the object before, and the object is updated to that record. |
| Task.SplitLines | src/pylintstatic/application/parsing/PylintWrappedTask.ts:71 | `split(/\r?\n/)` always gives at least one piece. |
| Task.SplitLinesHaveNoLineFeed | src/pylintstatic/application/parsing/PylintWrappedTask.ts:71 | No piece of the split holds a line feed. |
| Task.JoinSplitLines | src/pylintstatic/application/parsing/PylintWrappedTask.ts:71 | Text without carriage returns is what joining its pieces with line feeds gives back. |
| Task.SplitJoinLines | src/pylintstatic/application/parsing/PylintWrappedTask.ts:71 | Lines without line feeds or a final carriage return, joined with line feeds, split back into the same lines. |
| Task.IssueStartsMarked | src/pylintstatic/application/parsing/PylintWrappedTask.ts:87-99 | The flags of a chunk's lines say for each line whether `isIssueLine` holds for it. |
| Task.EmptyNeverStarts | src/pylintstatic/application/parsing/PylintWrappedTask.ts:87-99 | An empty line never starts an issue. |
| Task.BlockEnd | src/pylintstatic/application/parsing/PylintWrappedTask.ts:101-115 | A block takes at least its first line and never runs past the chunk. |
| Task.BlockEndProps | src/pylintstatic/application/parsing/PylintWrappedTask.ts:101-115 | Every line after a block's first is a marker line or starts no issue. The block stops exactly at a line that starts an issue and is no marker line. |
| Task.BlockEndNext | src/pylintstatic/application/parsing/PylintWrappedTask.ts:104-114 | One step of the inner loop: an absorbed next line extends the block, anything else ends it. |
| Task.BlocksPartition | src/pylintstatic/application/parsing/PylintWrappedTask.ts:72-115 | The blocks cut the lines into consecutive non-empty pieces, in order, with nothing left out. |
| Task.BlocksOfChunk | src/pylintstatic/application/parsing/PylintWrappedTask.ts:71-77 | Only an empty chunk loses its line. For any other chunk the blocks, put together, are exactly the lines of the split. |
| Task.BlockIssue | src/pylintstatic/application/parsing/PylintWrappedTask.ts:117-124 | A block stands for an issue exactly when its first line, with a line feed, parses as one. |
| Task.BlockIssueRaw | src/pylintstatic/application/parsing/PylintWrappedTask.ts:117-131 | The issue of a block keeps every line of the block: its raw text is the lines, each with its line feed. Its message holds at least one character per continuation line. |
| Task.VerbatimBlock | src/pylintstatic/application/parsing/PylintWrappedTask.ts:137-142 | A block whose first line is no issue is written back line by line, each line with a line feed, and adds no issue. |
| Task.ReachedStep | src/pylintstatic/application/parsing/PylintWrappedTask.ts:72-143 | One turn of the outer loop moves past exactly one block. What it writes and adds follows what the blocks before it wrote and added. |
| Task.AdditionsStep | src/pylintstatic/application/parsing/PylintWrappedTask.ts:133-136 | The issues of one more block are filed and streamed after those of the blocks before it. |
| Task.Arguments | src/pylintstatic/application/parsing/PylintWrappedTask.ts:44-64 | The arguments are `-m pylint` in module mode, then the target, then the recursive and enable-all flags the settings ask for, then the extra arguments. |
| Task.CreateSpawn | src/pylintstatic/application/parsing/PylintWrappedTask.ts:32-67 | The working directory is the folder. The command is the resolved interpreter in module mode, and `pylintPath` otherwise. |
| Task.ModuleFormExtendsDirect | src/pylintstatic/application/parsing/PylintWrappedTask.ts:44-64 | The module form passes the same arguments as the direct form, behind `-m pylint`. |
| Task.FlagsFollowSettings | src/pylintstatic/application/parsing/PylintWrappedTask.ts:52-53 | `--recursive=y` and `--enable=all` are passed exactly when their settings are on. |
| Task.DefaultSpawn | src/pylintstatic/application/parsing/PylintWrappedSettingsReader.ts:16-25 | With the default settings, pylint runs as `-m pylint . --recursive=y --enable=all`. |
| Task.PylintWrappedTask.constructor | src/pylintstatic/application/parsing/PylintWrappedTask.ts:21-25 | The task keeps its publisher, its workspace folder and its serializer. |
| Task.PylintWrappedTask.Handle | src/pylintstatic/application/parsing/PylintWrappedTask.ts:69-144 | What `handle` writes is the output of the chunk's blocks, in order. The publisher's map gets the issues of those blocks added in order, they are streamed in that order, and no batch is reported. |
| Task.PylintWrappedTask.HandleBlock | src/pylintstatic/application/parsing/PylintWrappedTask.ts:79-142 | One turn of the outer loop: it collects the block that starts at `i`, emits it and continues after its last line. |
| Task.PylintWrappedTask.CollectBlock | src/pylintstatic/application/parsing/PylintWrappedTask.ts:101-115 | The inner loop buffers exactly the lines from `i` up to the block's end. |
| Task.PylintWrappedTask.IsIssueLineAt | src/pylintstatic/application/parsing/PylintWrappedTask.ts:87-99 | `isIssueLine` of a line is whether `fromLine` finds an issue in it with a line feed added. |
| Task.PylintWrappedTask.EmitBlock | src/pylintstatic/application/parsing/PylintWrappedTask.ts:117-142 | A block's output is its marker line or its lines. The publisher gets the block's issue, if it has one, and nothing else. |
| Task.PylintWrappedTask.EmitIssue | src/pylintstatic/application/parsing/PylintWrappedTask.ts:124-136 | An issue block writes one marker line with the serialized issue and adds that issue under its uri. |
| Task.PylintWrappedTask.AppendContinuations | src/pylintstatic/application/parsing/PylintWrappedTask.ts:126-128 | The issue afterwards has every later line of the block appended, in order, each with a line feed. |
| Task.PylintWrappedTask.Echo | src/pylintstatic/application/parsing/PylintWrappedTask.ts:137-142 | A block that is no issue is written back line by line. |
| Publishing.AbsoluteUriIgnoresRoot | src/pylintstatic/application/publishing/DiagnosticsPublisher.ts:102-105 | An absolute file's uri does not depend on the workspace folder. |
| Publishing.AddTo | src/pylintstatic/application/publishing/DiagnosticsPublisher.ts:107-109 | Adding an issue appends it to its uri's list, which is created at the end of the order when the uri is new. No other uri's list changes. |
| Publishing.AddAllConcat | src/pylintstatic/application/publishing/DiagnosticsPublisher.ts:98-116 | Adding two runs of issues one after the other is adding them all at once. |
| Publishing.AddAllLists | src/pylintstatic/application/publishing/DiagnosticsPublisher.ts:107-109 | After a run of additions, every uri's list is its old list followed by the issues added under it, in order. |
| Publishing.AddAllKeepsOrder | src/pylintstatic/application/publishing/DiagnosticsPublisher.ts:107-109 | Additions never move a uri that is already there: the old order is a prefix of the new one. |
| Publishing.AddedIssueIsListed | src/pylintstatic/application/publishing/DiagnosticsPublisher.ts:107-109 | Every added issue is in the list of its uri. |
| Publishing.EmptyBatches | src/pylintstatic/application/publishing/DiagnosticsPublisher.ts:51-57 | One empty batch per uri, in the order given. |
| Publishing.Snapshot | src/pylintstatic/application/publishing/DiagnosticsPublisher.ts:120-122 | One batch per uri, in the order given, holding that uri's current list. |
| Publishing.SnapshotOfEmpty | src/pylintstatic/application/publishing/DiagnosticsPublisher.ts:45-62 | A flush right after a clear reports nothing. |
| Publishing.SnapshotHasEveryIssue | src/pylintstatic/application/publishing/DiagnosticsPublisher.ts:119-123 | A flush reports every issue on file, under its uri. |
| Publishing.ClearStep | src/pylintstatic/application/publishing/DiagnosticsPublisher.ts:74-87 | One turn of `clearUriMatch`'s loop: a matching uri is reported empty and deleted, and any other uri stays in place. |
| Publishing.RestrictOf | src/pylintstatic/application/publishing/DiagnosticsPublisher.ts:72-91 | A map holding the other entries of the original, in the original order, is the original restricted to the non-matching uris. |
| Publishing.DiagnosticsPublisher.constructor | src/pylintstatic/application/publishing/DiagnosticsPublisher.ts:21-32 | A new publisher tracks nothing and has reported nothing. |
| Publishing.DiagnosticsPublisher.Dispose | src/pylintstatic/application/publishing/DiagnosticsPublisher.ts:37-39 | `dispose` forgets every entry and reports nothing. |
| Publishing.DiagnosticsPublisher.Clear | src/pylintstatic/application/publishing/DiagnosticsPublisher.ts:45-62 | `clear` reports an empty list for each tracked uri, in map order, then forgets them all. |
| Publishing.DiagnosticsPublisher.ClearUriMatch | src/pylintstatic/application/publishing/DiagnosticsPublisher.ts:72-91 | `clearUriMatch` reports an empty list for each tracked uri the pattern accepts, in map order, and deletes those uris. The others keep their lists and their order. |
| Publishing.DiagnosticsPublisher.AddIssue | src/pylintstatic/application/publishing/DiagnosticsPublisher.ts:98-116 | `addIssue` files the issue under its uri (`AddTo`) and streams it exactly once, with that uri. No batch is reported. |
| Publishing.DiagnosticsPublisher.Flush | src/pylintstatic/application/publishing/DiagnosticsPublisher.ts:119-123 | `flush` reports each tracked uri's full list, in map order, and changes nothing. |
| Server.StartOf | src/pylintstatic/infrastructure/lsp/LspServer.ts:126-127 | `Math.max(0, (n \|\| 1) - 1)` turns a one-based coordinate from 1 up into n - 1, and anything at or below 1 into 0. |
| Server.StartOfInverse | src/pylintstatic/infrastructure/lsp/LspServer.ts:126-127 | A coordinate from 1 up is one more than its zero-based start. 0 and 1 both map to 0. |
| Server.SeverityOf | src/pylintstatic/infrastructure/lsp/LspServer.ts:134-139 | Only E is an error and only W a warning; every other category is information. |
| Server.FoldedSeverity | src/pylintstatic/infrastructure/lsp/LspServer.ts:134-139 | A refactor, convention or information message is shown as information. |
| Server.CodeValue | src/pylintstatic/infrastructure/lsp/LspServer.ts:141-148 | The code is `code` on the bulk path and `codeTag` on the stream path, falling back to the category when that field is absent or empty. It is never empty. |
| Server.CategoryName | src/pylintstatic/infrastructure/lsp/LspServer.ts:168-174 | Only E, W, C, R and I have a category page. |
| Server.DocCategory | src/pylintstatic/infrastructure/lsp/LspServer.ts:182-184 | The documentation category is that of the letter pylint printed, falling back to the folded category. |
| Server.PylintDocUrl | src/pylintstatic/infrastructure/lsp/LspServer.ts:165-193 | The link is the message's page when it has a tag and a known category. Otherwise it is the code's anchor on the technical page, and otherwise the technical page. |
| Server.DocUrlIsPylintDocs | src/pylintstatic/infrastructure/lsp/LspServer.ts:176-192 | Every documentation link points into the pylint documentation. |
| Server.DocUrlUsesOriginalCategory | src/pylintstatic/infrastructure/lsp/LspServer.ts:181-187 | A tagged convention message links to the convention page, although its category was folded to information. |
| Server.FatalDocUrl | src/pylintstatic/infrastructure/lsp/LspServer.ts:183-190 | A fatal message (letter F) has no category page: it links to its code on the technical page. |
| Server.IssueToDiagnostic | src/pylintstatic/infrastructure/lsp/LspServer.ts:119-163 | The diagnostic is a one-character range at the issue's zero-based start, with its severity, message, code, source label and documentation link. |
| Server.ParsedIssueRange | src/pylintstatic/infrastructure/lsp/LspServer.ts:126-132 | A parsed issue lands on the line and column pylint printed, counted from zero; column 0 stays 0. |
| Server.BulkDiagnostics | src/pylintstatic/infrastructure/lsp/LspServer.ts:60-67 | The bulk path makes one diagnostic per issue, in order, with the code-or-category selector and the source `pylint`. |
| Server.BulkAndStreamAgree | src/pylintstatic/infrastructure/lsp/LspServer.ts:60-67 | A streamed diagnostic and a bulk one differ only in their code and their source label (`Pylint` and `pylint`). |
| Server.EmptyPublications | src/pylintstatic/infrastructure/lsp/LspServer.ts:88-94 | One empty publication per uri, in order. |
| Server.ReplaceIdempotent | src/pylintstatic/infrastructure/lsp/LspServer.ts:69-70 | Storing a bulk list twice leaves what storing it once leaves. |
| Server.LspServer.constructor | src/pylintstatic/infrastructure/lsp/LspServer.ts:17-20 | A new server tracks nothing and has published nothing. |
| Server.LspServer.OnDiagnostics | src/pylintstatic/infrastructure/lsp/LspServer.ts:51-77 | The incoming issues replace the uri's list, and that list is published. |
| Server.LspServer.OnClearDiagnostics | src/pylintstatic/infrastructure/lsp/LspServer.ts:79-97 | With a uri, that uri alone is forgotten and published empty, tracked or not. Without one, every tracked uri is published empty, in map order, and all are forgotten. |
| Server.LspServer.OnStreamIssue | src/pylintstatic/infrastructure/lsp/LspServer.ts:99-117 | The issue's diagnostic is appended to its uri's list, which is created when absent. The whole list is published and the answer is ok. |
| Client.Schedule | src/pylintstatic/infrastructure/lsp/LspClient.ts:112-116 | After `k` failed attempts the client has waited `k` times. |
| Client.ScheduleAt | src/pylintstatic/infrastructure/lsp/LspClient.ts:114-115 | The wait after failed attempt `n` is 100 * 2^(n-1) ms. |
| Client.ScheduleDoubles | src/pylintstatic/infrastructure/lsp/LspClient.ts:114-115 | Each wait doubles the one before it. |
| Client.ScheduleTotal | src/pylintstatic/infrastructure/lsp/LspClient.ts:102-117 | `k` failed attempts make the client wait 100 * (2^k - 1) ms in all. |
| Client.FourFailures | src/pylintstatic/infrastructure/lsp/LspClient.ts:77-117 | Four failures mean waits of 100, 200, 400 and 800 ms, 1500 ms in all. |
| Client.DeliveryOutcome | src/pylintstatic/infrastructure/lsp/LspClient.ts:102-117 | There are at most four failures. A delivery is the first attempt that succeeds, after every earlier one failed. |
| Client.TotalBackoffBound | src/pylintstatic/infrastructure/lsp/LspClient.ts:102-117 | The backoff of one call adds up to at most 1500 ms. |
| Client.LspClient.constructor | src/pylintstatic/infrastructure/lsp/LspClient.ts:28-38 | A new client is not started, not ready and has sent nothing. |
| Client.LspClient.Start | src/pylintstatic/infrastructure/lsp/LspClient.ts:43-50 | `start` marks the start as under way and leaves readiness alone. |
| Client.LspClient.SetClientReady | src/pylintstatic/infrastructure/lsp/LspClient.ts:55-58 | Readiness is only ever set to true. |
| Client.LspClient.ReporterStream | src/pylintstatic/infrastructure/lsp/LspClient.ts:73-119 | It waits first exactly when a start is pending, and sends the same request once per attempt until one succeeds or four have failed. Its waits are the backoff schedule. It never changes readiness. |
| Client.LspClient.Reporter | src/pylintstatic/infrastructure/lsp/LspClient.ts:125-152 | `reporter` sends one notification with the batch as it is, and never retries it. |
| Interpreter.SettingValue | src/pylintstatic/infrastructure/pylint/PythonInterpreter.ts:60-68 | `(cfg.get(key) \|\| "").trim() \|\| undefined` is absent exactly when the setting is missing or all whitespace. Otherwise it is the trimmed, non-empty value. |
| Interpreter.BlankSettingIsAbsent | src/pylintstatic/infrastructure/pylint/PythonInterpreter.ts:76-79 | A setting holding only whitespace counts as no setting. |
| Interpreter.FromPythonExtension | src/pylintstatic/infrastructure/pylint/PythonInterpreter.ts:86-119 | The Python extension gives a non-empty path only when it is installed and activates. Variant 1 wins when it gives a path; otherwise the path comes from variant 2, and only if variant 1 did not throw. |
| Interpreter.ActiveEnvironmentFirst | test/helper.test.ts:37-59 | An active environment's executable is the answer, whatever variant 2 would say. |
| Interpreter.ActivePathShapes | src/pylintstatic/infrastructure/pylint/PythonInterpreter.ts:105-112 | Variant 2 accepts a string and an object with a `path` alike. |
| Interpreter.Resolve | src/pylintstatic/infrastructure/pylint/PythonInterpreter.ts:28-50 | The interpreter is the first source that gives a path: the override, the Python extension, the default setting, and `python3` last. It is never empty. |
| Interpreter.ResolveIsASource | src/pylintstatic/infrastructure/pylint/PythonInterpreter.ts:28-50 | The result is always one of the four sources. |
| Interpreter.BlankOverrideIgnored | src/pylintstatic/infrastructure/pylint/PythonInterpreter.ts:66-67 | A whitespace-only override is passed over as if it were not set. |
| Interpreter.FailingExtensionFallsThrough | src/pylintstatic/infrastructure/pylint/PythonInterpreter.ts:92-118 | A Python extension that throws counts as a missing one. |
| Interpreter.OverrideWins | test/helper.test.ts:23-35 | The extension's override, padded or not, beats every other source. |

## Left out

- Reading the chunk as UTF-8 is not modelled: `handle` takes the chunk as a string.
- The writable stream is modelled by the sequence of strings `handle` writes.
- `JSON.stringify` is the task's `stringify` function; its output format is not modelled.
- `path.isAbsolute`, `path.join` and `vscode.Uri.file(...).toString()` are the functions of a `PathOps` value, because they belong to Node and VS Code.
- `getWorkspaceFolder()` is the task's `root`.
- Reading the configuration is not modelled: the settings and the interpreter sources are inputs. `Task.DefaultSettings` holds the defaults of `PylintWrappedSettingsReader.read`.
- `resolvePythonInterpreter` is taken as a function of the three interpreter sources.
- Concurrency, promises, `Promise.race`, timers and sleeps are not modelled. A wait is recorded as its length in milliseconds.
- Client.LspClient.ReporterStream: whether the pending start settles or the 5-second timeout wins is not modelled. Both outcomes lead to the same attempts.
- Client.LspClient.Start: the promise chain is not modelled. `SetClientReady` and `CatchClientReady` are the methods the environment calls when the start settles; a failed start only logs.
- Publishing.DiagnosticsPublisher.Flush: the reporters are taken never to throw synchronously. The extension binds the asynchronous `LspClient.reporter` and `LspClient.reporterStream`, which catch their own errors and cannot throw synchronously. A reporter that did throw is not modelled. `flush` would then stop after the batches before the throw, and `addIssue` would leave the issue filed and let the error escape from `handle`.
- Publishing.DiagnosticsPublisher.Clear: the same assumption about the reporter. Its per-uri `catch` is not modelled.
- Publishing.DiagnosticsPublisher.ClearUriMatch: the same assumption about the reporter. Its `catch` blocks are not modelled.
- Publishing.DiagnosticsPublisher.AddIssue: the same assumption about the stream reporter.
- Logging is not modelled. It never changes what is stored or sent.
- Publishing.DiagnosticsPublisher.AddIssue: lists hold value snapshots of issues. In the source they hold references to the issue objects. `handle` serializes an issue before adding it and never changes it afterwards, so the values agree.
- Server.LspServer.OnStreamIssue: each recorded publication is a snapshot of the list as it was sent. In the source a published array is the stored one, which later `push` calls keep changing.
- Publishing.DiagnosticsPublisher.ClearUriMatch: the RegExp is a pure predicate on the uri. A global or sticky RegExp, whose `test` depends on `lastIndex`, is not modelled.
- Server.IssueToDiagnostic: `URI.parse(target).toString()` is taken to give the link back unchanged.
- Server.IssueToDiagnostic: the original category is a single letter, as `fromLine` produces it. An issue from elsewhere with an empty original category is not modelled.
- Issues.ParseLine: line and column numbers are unbounded naturals. `Number` of a very long run of digits loses precision in JavaScript, and that is not modelled.
- `isIssueLine`'s `catch` is not modelled. `fromLine` cannot throw on a string, so the catch never runs.
- `raw` is optional in the source's types, but `fromLine` always fills it. The model's `raw` is a plain string, and `appendContinuation`'s `this.raw || ""` is just `raw`.
- Task.PylintWrappedTask.Handle: no text is carried over from one chunk to the next, as in the code.
- Task.PylintWrappedTask.Handle: banner, separator and rating lines do not end a block, as in the code.
- `matchCodeTag.forEach` with an empty body is left out, because it has no effect.
- The Python extension's API is data: which variant functions exist, what they return, and whether they throw.
- The pylint gateway is not part of this model.
- The commands are not part of this model.
- Extension activation and the extension context are not part of this model.
- The LSP connection's handler registration (`start`, `registerHandlers`, `onInitialize`) is not part of this model. The handlers themselves are the methods of `LspServer`.
