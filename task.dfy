/**
 * The pylint task: how pylint is launched (`createSpawn`), and how a chunk of its
 * output is cut into lines, grouped into blocks of one first line and its
 * continuation lines, and turned into issue markers and published issues, or
 * echoed as it came (`handle`).
 */
module Task {
  import opened Wrappers
  import opened Text
  import opened Issues
  import opened Publishing
  import opened Interpreter

  // ---------------------------------------------------------------------------
  // Lines
  // ---------------------------------------------------------------------------

  /** `text.split(/\r?\n/)`: the pieces between line breaks, where a break is a
      line feed together with a carriage return just before it, if any. */
  function SplitLines(text: string): (lines: seq<string>)
    ensures |lines| >= 1
    decreases |text|
  {
    if |text| == 0 then [""]
    else if text[0] == '\n' then [""] + SplitLines(text[1..])
    else if text[0] == '\r' && |text| > 1 && text[1] == '\n' then [""] + SplitLines(text[2..])
    else
      var rest := SplitLines(text[1..]);
      [[text[0]] + rest[0]] + rest[1..]
  }

  /** The lines joined again with line feeds. */
  function JoinLines(lines: seq<string>): string
    requires |lines| >= 1
  {
    if |lines| == 1 then lines[0] else lines[0] + "\n" + JoinLines(lines[1..])
  }

  /** After a split no piece holds a line feed. */
  lemma {:induction false} SplitLinesHaveNoLineFeed(text: string)
    ensures forall k :: 0 <= k < |SplitLines(text)| ==> '\n' !in SplitLines(text)[k]
    decreases |text|
  {
    if |text| == 0 {
    } else if text[0] == '\n' {
      SplitLinesHaveNoLineFeed(text[1..]);
    } else if text[0] == '\r' && |text| > 1 && text[1] == '\n' {
      SplitLinesHaveNoLineFeed(text[2..]);
    } else {
      SplitLinesHaveNoLineFeed(text[1..]);
      var rest := SplitLines(text[1..]);
      assert '\n' !in rest[0];
      assert forall k :: 1 <= k < |rest| ==> '\n' !in rest[k];
    }
  }

  /** Text without carriage returns is what joining its lines gives back. */
  lemma {:induction false} JoinSplitLines(text: string)
    requires '\r' !in text
    ensures JoinLines(SplitLines(text)) == text
    decreases |text|
  {
    if |text| == 0 {
    } else if text[0] == '\n' {
      assert '\r' !in text[1..] by { assert forall c :: c in text[1..] ==> c in text; }
      JoinSplitLines(text[1..]);
      assert text == "\n" + text[1..];
    } else {
      assert '\r' !in text[1..] by { assert forall c :: c in text[1..] ==> c in text; }
      JoinSplitLines(text[1..]);
      var rest := SplitLines(text[1..]);
      JoinCons(text[0], rest);
      assert text == [text[0]] + text[1..];
    }
  }

  lemma JoinCons(c: char, rest: seq<string>)
    requires |rest| >= 1
    ensures JoinLines([[c] + rest[0]] + rest[1..]) == [c] + JoinLines(rest)
  {
    var ls := [[c] + rest[0]] + rest[1..];
    if |rest| == 1 {
      assert ls == [[c] + rest[0]];
    } else {
      assert ls[0] == [c] + rest[0] && ls[1..] == rest[1..];
      Regroup([c], rest[0], "\n", JoinLines(rest[1..]));
    }
  }

  lemma Regroup<T>(a: seq<T>, b: seq<T>, c: seq<T>, d: seq<T>)
    ensures a + b + c + d == a + (b + c + d)
  {
  }

  /** A line that holds no line feed and does not end in a carriage return. */
  predicate IsPlainLine(l: string) {
    '\n' !in l && (|l| == 0 || l[|l| - 1] != '\r')
  }

  /** Lines joined with line feeds are split back into the same lines. */
  lemma {:induction false} SplitJoinLines(lines: seq<string>)
    requires |lines| >= 1
    requires forall k :: 0 <= k < |lines| ==> IsPlainLine(lines[k])
    ensures SplitLines(JoinLines(lines)) == lines
    decreases |lines|
  {
    if |lines| == 1 {
      SplitSingle(lines[0]);
    } else {
      SplitJoinLines(lines[1..]);
      SplitBefore(lines[0], JoinLines(lines[1..]));
    }
  }

  lemma {:induction false} SplitSingle(l: string)
    requires '\n' !in l
    ensures SplitLines(l) == [l]
    decreases |l|
  {
    if |l| > 0 {
      assert '\n' !in l[1..] by { assert forall c :: c in l[1..] ==> c in l; }
      SplitSingle(l[1..]);
      assert l == [l[0]] + l[1..];
    }
  }

  lemma {:induction false} SplitBefore(l: string, t: string)
    requires IsPlainLine(l)
    ensures SplitLines(l + "\n" + t) == [l] + SplitLines(t)
    decreases |l|
  {
    var s := l + "\n" + t;
    if |l| == 0 {
      assert s == "\n" + t;
      assert s[1..] == t;
    } else {
      assert s[0] == l[0] && l[0] != '\n';
      assert s[1..] == l[1..] + "\n" + t;
      if |l| > 1 {
        assert l[1..][|l[1..]| - 1] == l[|l| - 1];
        assert l[1] == s[1] && l[1] != '\n' by { assert l[1] in l; }
      } else {
        assert s[1] == '\n' && l[0] != '\r';
      }
      assert '\n' !in l[1..] by { assert forall c :: c in l[1..] ==> c in l; }
      SplitBefore(l[1..], t);
      assert l == [l[0]] + l[1..];
    }
  }

  // ---------------------------------------------------------------------------
  // Blocks
  // ---------------------------------------------------------------------------

  /** A line that always continues the block before it: one starting with "==" or
      with whitespace. */
  predicate IsContinuationMarker(line: string) {
    StartsWith(line, "==") || (|line| > 0 && IsSpace(line[0]))
  }

  /** `isIssueLine`: the line, with a line feed, parses as an issue. */
  predicate IsIssueLine(line: string) {
    ParseLine(line + "\n").Some?
  }

  /** Which of the lines have the property `p`. */
  function Flags(lines: seq<string>, p: string -> bool): (flags: seq<bool>)
    ensures |flags| == |lines|
  {
    if |lines| == 0 then [] else [p(lines[0])] + Flags(lines[1..], p)
  }

  lemma {:induction false} FlagsAt(lines: seq<string>, p: string -> bool, k: nat)
    requires k < |lines|
    ensures Flags(lines, p)[k] == p(lines[k])
  {
    if k > 0 {
      FlagsAt(lines[1..], p, k - 1);
    }
  }

  /** Which of the lines start an issue. */
  function IssueStarts(lines: seq<string>): (flags: seq<bool>)
    ensures |flags| == |lines|
  {
    Flags(lines, IsIssueLine)
  }

  lemma IssueStartsAt(lines: seq<string>, k: nat)
    requires k < |lines|
    ensures IssueStarts(lines)[k] == IsIssueLine(lines[k])
  {
    FlagsAt(lines, IsIssueLine, k);
  }

  /** `flags` says for each line whether it starts an issue. */
  ghost predicate MarksIssueStarts(lines: seq<string>, flags: seq<bool>) {
    && |flags| == |lines|
    && forall k {:trigger IsIssueLine(lines[k])} :: 0 <= k < |lines| ==> flags[k] == IsIssueLine(lines[k])
  }

  lemma IssueStartsMarked(lines: seq<string>)
    ensures MarksIssueStarts(lines, IssueStarts(lines))
  {
    forall k | 0 <= k < |lines| ensures IssueStarts(lines)[k] == IsIssueLine(lines[k]) {
      IssueStartsAt(lines, k);
    }
  }

  /** An empty line never starts an issue. */
  lemma EmptyNeverStarts(lines: seq<string>)
    ensures forall k :: 0 <= k < |lines| && lines[k] == "" ==> !IssueStarts(lines)[k]
  {
    assert !IsIssueLine("") by {
      EmptyLineIsNoIssue();
      assert "" + "\n" == "\n";
    }
    forall k | 0 <= k < |lines| && lines[k] == "" ensures !IssueStarts(lines)[k] {
      IssueStartsAt(lines, k);
    }
  }

  /** The next line joins the current block: a marker line always, any other line
      unless it starts an issue. */
  predicate Absorbs(next: string, startsIssue: bool) {
    IsContinuationMarker(next) || !startsIssue
  }

  /** Where the block that starts at line `i` ends, when `flags` tells which lines
      start an issue. */
  function BlockEnd(lines: seq<string>, i: nat, flags: seq<bool>): (e: nat)
    requires i < |lines| == |flags|
    ensures i < e <= |lines|
    decreases |lines| - i
  {
    if i + 1 < |lines| && Absorbs(lines[i + 1], flags[i + 1]) then BlockEnd(lines, i + 1, flags) else i + 1
  }

  /** A block takes every line after its first that it absorbs, and stops exactly
      at a line that starts an issue and is no marker line. */
  lemma {:induction false} BlockEndProps(lines: seq<string>, i: nat, flags: seq<bool>)
    requires i < |lines| == |flags|
    ensures forall j :: i < j < BlockEnd(lines, i, flags) ==> Absorbs(lines[j], flags[j])
    ensures BlockEnd(lines, i, flags) < |lines| ==>
      flags[BlockEnd(lines, i, flags)] && !IsContinuationMarker(lines[BlockEnd(lines, i, flags)])
    decreases |lines| - i
  {
    if i + 1 < |lines| && Absorbs(lines[i + 1], flags[i + 1]) {
      BlockEndProps(lines, i + 1, flags);
    }
  }

  lemma BlockEndNext(lines: seq<string>, i: nat, flags: seq<bool>)
    requires i + 1 < |lines| == |flags|
    ensures Absorbs(lines[i + 1], flags[i + 1]) ==> BlockEnd(lines, i, flags) == BlockEnd(lines, i + 1, flags)
    ensures !Absorbs(lines[i + 1], flags[i + 1]) ==> BlockEnd(lines, i, flags) == i + 1
  {
  }

  /** The blocks of the lines from `i` on; an empty last line that would start a
      block of its own is skipped. */
  function Blocks(lines: seq<string>, i: nat, flags: seq<bool>): (bs: seq<seq<string>>)
    requires i <= |lines| == |flags|
    ensures forall k :: 0 <= k < |bs| ==> |bs[k]| > 0
    decreases |lines| - i
  {
    if i == |lines| then []
    else if lines[i] == "" && i == |lines| - 1 then []
    else [lines[i..BlockEnd(lines, i, flags)]] + Blocks(lines, BlockEnd(lines, i, flags), flags)
  }

  /** The blocks of a chunk, as `handle` forms them. */
  function ChunkBlocks(text: string): (bs: seq<seq<string>>)
    ensures forall k :: 0 <= k < |bs| ==> |bs[k]| > 0
  {
    var lines := SplitLines(text);
    Blocks(lines, 0, IssueStarts(lines))
  }

  /** The first block from `i` is the lines up to BlockEnd, unless only an empty
      last line is left. */
  lemma BlocksStep(lines: seq<string>, i: nat, flags: seq<bool>)
    requires i < |lines| == |flags| && !(lines[i] == "" && i == |lines| - 1)
    ensures Blocks(lines, i, flags)
         == [lines[i..BlockEnd(lines, i, flags)]] + Blocks(lines, BlockEnd(lines, i, flags), flags)
  {
  }

  lemma SliceExtend<T>(s: seq<T>, a: nat, b: nat)
    requires a <= b < |s|
    ensures s[a..b + 1] == s[a..b] + [s[b]]
  {
  }

  lemma AppendAssoc<T>(a: seq<T>, b: seq<T>, c: seq<T>)
    ensures (a + b) + c == a + (b + c)
  {
  }

  function Flatten(bs: seq<seq<string>>): seq<string> {
    if |bs| == 0 then [] else bs[0] + Flatten(bs[1..])
  }

  /** Blocks cut the lines into consecutive pieces, in order, with nothing left out,
      when an empty line never starts an issue. */
  lemma {:induction false} BlocksPartition(lines: seq<string>, i: nat, flags: seq<bool>)
    requires i < |lines| == |flags|
    requires forall k :: 0 <= k < |lines| && lines[k] == "" ==> !flags[k]
    requires i < |lines| - 1 || lines[i] != ""
    ensures Flatten(Blocks(lines, i, flags)) == lines[i..]
    decreases |lines| - i
  {
    var e := BlockEnd(lines, i, flags);
    var bs := Blocks(lines, i, flags);
    assert bs[0] == lines[i..e] && bs[1..] == Blocks(lines, e, flags);
    if e < |lines| {
      BlockEndProps(lines, i, flags);
      BlocksPartition(lines, e, flags);
      assert lines[i..] == lines[i..e] + lines[e..];
    }
  }

  /** Only an empty chunk loses its line: a final empty line after other lines is
      absorbed by the block before it. */
  lemma BlocksOfChunk(text: string)
    ensures SplitLines(text) == [""] ==> ChunkBlocks(text) == []
    ensures SplitLines(text) != [""] ==> Flatten(ChunkBlocks(text)) == SplitLines(text)
  {
    var lines := SplitLines(text);
    if lines != [""] {
      EmptyNeverStarts(lines);
      BlocksPartition(lines, 0, IssueStarts(lines));
    }
  }

  // ---------------------------------------------------------------------------
  // What a block produces
  // ---------------------------------------------------------------------------

  /** Each line with the line feed `handle` gives it back. */
  function WithNewlines(ls: seq<string>): (r: seq<string>)
    ensures |r| == |ls| && forall k :: 0 <= k < |ls| ==> r[k] == ls[k] + "\n"
  {
    seq(|ls|, k requires 0 <= k < |ls| => ls[k] + "\n")
  }

  lemma WithNewlinesStep(ls: seq<string>, j: nat)
    requires j < |ls|
    ensures WithNewlines(ls[..j + 1]) == WithNewlines(ls[..j]) + [ls[j] + "\n"]
  {
  }

  /** The issue a block stands for: its first line parsed, every later line appended,
      then serialized; None when the first line is no issue. */
  function BlockIssue(block: seq<string>): (r: Option<IssueRecord>)
    ensures r.Some? <==> |block| > 0 && IsIssueLine(block[0])
  {
    if |block| == 0 then None
    else
      match ParseLine(block[0] + "\n")
      case None => None
      case Some(first) => Some(Serialized(AppendedAll(first, WithNewlines(block[1..]))))
  }

  const IssueMarker := "__PYLINT_ISSUE__ "

  /** What `handle` writes for a block: one marker line for an issue, the lines
      as they came otherwise. `stringify` stands for `JSON.stringify`. */
  function BlockOutput(block: seq<string>, stringify: IssueRecord -> string): seq<string> {
    match BlockIssue(block)
    case Some(j) => [IssueMarker + stringify(j) + "\n"]
    case None => WithNewlines(block)
  }

  /** The `addIssue` a block leads to, if any. */
  function BlockAdds(block: seq<string>, ops: PathOps, root: string): seq<Streamed> {
    match BlockIssue(block)
    case Some(j) => [Streamed(UriOf(ops, j.file, root), j)]
    case None => []
  }

  /** What `f` gives for each block, one after the other. */
  function FlatMap<T>(bs: seq<seq<string>>, f: seq<string> -> seq<T>): seq<T> {
    if |bs| == 0 then [] else f(bs[0]) + FlatMap(bs[1..], f)
  }

  lemma {:induction false} FlatMapAppend<T>(bs: seq<seq<string>>, b: seq<string>, f: seq<string> -> seq<T>)
    ensures FlatMap(bs + [b], f) == FlatMap(bs, f) + f(b)
    decreases |bs|
  {
    if |bs| == 0 {
      assert FlatMap([b], f) == f(b) + FlatMap([], f);
    } else {
      assert (bs + [b])[1..] == bs[1..] + [b];
      FlatMapAppend(bs[1..], b, f);
    }
  }

  function OutputOf(stringify: IssueRecord -> string): seq<string> -> seq<string> {
    block => BlockOutput(block, stringify)
  }

  function AddsOf(ops: PathOps, root: string): seq<string> -> seq<Streamed> {
    block => BlockAdds(block, ops, root)
  }

  /** What `handle` writes for the blocks. */
  function Output(bs: seq<seq<string>>, stringify: IssueRecord -> string): seq<string> {
    FlatMap(bs, OutputOf(stringify))
  }

  /** The issues `handle` adds for the blocks, with the uris they are filed under. */
  function Additions(bs: seq<seq<string>>, ops: PathOps, root: string): seq<Streamed> {
    FlatMap(bs, AddsOf(ops, root))
  }

  /** An issue's block keeps its continuation lines: the serialized raw text is the
      block's lines, each with its line feed, and the message holds them too. */
  lemma BlockIssueRaw(block: seq<string>, first: IssueRecord)
    requires |block| > 0 && ParseLine(block[0] + "\n") == Some(first)
    ensures BlockIssue(block).value.raw == Concat(WithNewlines(block))
    ensures |BlockIssue(block).value.message| >= |first.message| + |block| - 1
  {
    var rest := WithNewlines(block[1..]);
    assert BlockIssue(block) == Some(Serialized(AppendedAll(first, rest)));
    SerializedAppendedAll(first, rest);
    assert first.raw == block[0] + "\n";
    ConcatWithNewlines(block);
  }

  lemma SerializedAppendedAll(first: IssueRecord, rest: seq<string>)
    ensures Serialized(AppendedAll(first, rest)).raw == first.raw + Concat(rest)
    ensures |Serialized(AppendedAll(first, rest)).message| >= |first.message| + |rest|
  {
    AppendedAllRaw(first, rest);
  }

  lemma ConcatWithNewlines(block: seq<string>)
    requires |block| > 0
    ensures Concat(WithNewlines(block)) == block[0] + "\n" + Concat(WithNewlines(block[1..]))
  {
    assert WithNewlines(block)[1..] == WithNewlines(block[1..]);
  }

  /** A block whose first line is no issue is written back line by line, and no
      issue is added for it. */
  lemma VerbatimBlock(block: seq<string>, stringify: IssueRecord -> string, ops: PathOps, root: string)
    requires |block| > 0 && !IsIssueLine(block[0])
    ensures BlockOutput(block, stringify) == WithNewlines(block)
    ensures BlockAdds(block, ops, root) == []
  {
  }

  /** What `handle` has done once it reaches line `i`: `done` are the blocks before
      it, `written` their output, and `byFile` and `streamed` hold their issues. */
  ghost predicate Reached(lines: seq<string>, flags: seq<bool>, i: nat, done: seq<seq<string>>,
                          all: seq<seq<string>>, written: seq<string>, byFile: ByFile,
                          streamed: seq<Streamed>, m0: ByFile, s0: seq<Streamed>, ops: PathOps,
                          root: string, stringify: IssueRecord -> string)
  {
    && i <= |lines| == |flags|
    && byFile.Valid() && m0.Valid()
    && done + Blocks(lines, i, flags) == all
    && (forall k :: 0 <= k < |done| ==> |done[k]| > 0)
    && written == Output(done, stringify)
    && byFile == AddAll(m0, Additions(done, ops, root))
    && streamed == s0 + Additions(done, ops, root)
  }

  /** One turn of `handle`'s outer loop: the block that starts at `i` joins the
      blocks done so far, and what it writes and adds follows what they did. */
  lemma ReachedStep(lines: seq<string>, flags: seq<bool>, i: nat, done: seq<seq<string>>,
                    all: seq<seq<string>>, written: seq<string>, byFile: ByFile,
                    streamed: seq<Streamed>, m0: ByFile, s0: seq<Streamed>, ops: PathOps,
                    root: string, stringify: IssueRecord -> string,
                    out: seq<string>, byFile': ByFile, streamed': seq<Streamed>)
    requires i < |lines| && !(lines[i] == "" && i == |lines| - 1)
    requires Reached(lines, flags, i, done, all, written, byFile, streamed, m0, s0, ops, root, stringify)
    requires var b := lines[i..BlockEnd(lines, i, flags)];
      && out == BlockOutput(b, stringify)
      && byFile'.Valid()
      && byFile' == AddAll(byFile, BlockAdds(b, ops, root))
      && streamed' == streamed + BlockAdds(b, ops, root)
    ensures var e := BlockEnd(lines, i, flags);
      Reached(lines, flags, e, done + [lines[i..e]], all, written + out, byFile', streamed', m0, s0,
              ops, root, stringify)
  {
    var e := BlockEnd(lines, i, flags);
    var b := lines[i..e];
    BlocksJoinDone(lines, flags, i, done, all);
    FlatMapAppend(done, b, OutputOf(stringify));
    AdditionsStep(done, b, ops, root, m0, s0);
  }

  /** The block that starts at `i` joins the blocks done before it. */
  lemma BlocksJoinDone(lines: seq<string>, flags: seq<bool>, i: nat, done: seq<seq<string>>,
                       all: seq<seq<string>>)
    requires i < |lines| == |flags| && !(lines[i] == "" && i == |lines| - 1)
    requires done + Blocks(lines, i, flags) == all
    requires forall k :: 0 <= k < |done| ==> |done[k]| > 0
    ensures var e := BlockEnd(lines, i, flags);
      var d := done + [lines[i..e]];
      && d + Blocks(lines, e, flags) == all
      && (forall k :: 0 <= k < |d| ==> |d[k]| > 0)
  {
    var e := BlockEnd(lines, i, flags);
    BlocksStep(lines, i, flags);
    AppendAssoc(done, [lines[i..e]], Blocks(lines, e, flags));
  }

  /** The issues of one more block are added after those of the blocks before it. */
  lemma AdditionsStep(done: seq<seq<string>>, b: seq<string>, ops: PathOps, root: string,
                      m0: ByFile, s0: seq<Streamed>)
    requires m0.Valid()
    ensures AddAll(m0, Additions(done + [b], ops, root))
         == AddAll(AddAll(m0, Additions(done, ops, root)), BlockAdds(b, ops, root))
    ensures s0 + Additions(done + [b], ops, root) == s0 + Additions(done, ops, root) + BlockAdds(b, ops, root)
  {
    FlatMapAppend(done, b, AddsOf(ops, root));
    AddAllConcat(m0, Additions(done, ops, root), BlockAdds(b, ops, root));
    AppendAssoc(s0, Additions(done, ops, root), BlockAdds(b, ops, root));
  }

  // ---------------------------------------------------------------------------
  // The task
  // ---------------------------------------------------------------------------

  /** The extension's settings as `PylintWrappedSettingsReader.read` returns them. */
  datatype Settings = Settings(
    pylintPath: string,
    usePythonModule: bool,
    enableAll: bool,
    recursive: bool,
    extraArgs: seq<string>)

  /** The settings when none is configured. */
  const DefaultSettings := Settings("pylint", true, true, true, [])

  datatype Spawn = Spawn(command: string, args: seq<string>, cwd: string)

  /** Where the interpreter comes from when pylint runs as a module: the inputs of
      `PythonInterpreter.resolve` for the folder. */
  datatype InterpreterSources = InterpreterSources(
    overrideSetting: Option<string>, ext: PythonExtension, defaultSetting: Option<string>)

  /** The arguments after the target. */
  function Options(settings: Settings): seq<string> {
    (if settings.recursive then ["--recursive=y"] else [])
    + (if settings.enableAll then ["--enable=all"] else [])
    + settings.extraArgs
  }

  /** The arguments pylint gets: `-m pylint` in module mode, then the target, then
      the options. */
  function Arguments(settings: Settings, target: string): (args: seq<string>)
    ensures var k := if settings.usePythonModule then 2 else 0;
      && |args| == k + 1 + |Options(settings)|
      && args[k] == target
      && args[k + 1..] == Options(settings)
      && (settings.usePythonModule ==> args[..2] == ["-m", "pylint"])
  {
    (if settings.usePythonModule then ["-m", "pylint"] else []) + [target] + Options(settings)
  }

  /** `createSpawn(folder, target)`: pylint as a module of the resolved interpreter,
      or the configured pylint program, on `target`, in the folder. */
  function CreateSpawn(settings: Settings, folderPath: string, target: string,
                       interpreter: InterpreterSources): (s: Spawn)
    ensures s.cwd == folderPath && s.args == Arguments(settings, target)
    ensures settings.usePythonModule ==>
      s.command == Resolve(interpreter.overrideSetting, interpreter.ext, interpreter.defaultSetting)
      && s.command != []
    ensures !settings.usePythonModule ==> s.command == settings.pylintPath
  {
    if settings.usePythonModule then
      var exe := Resolve(interpreter.overrideSetting, interpreter.ext, interpreter.defaultSetting);
      Spawn(exe, Arguments(settings, target), folderPath)
    else
      Spawn(settings.pylintPath, Arguments(settings, target), folderPath)
  }

  /** The module form passes the same arguments as the direct form, behind `-m pylint`. */
  lemma ModuleFormExtendsDirect(settings: Settings, target: string)
    ensures Arguments(settings.(usePythonModule := true), target)
         == ["-m", "pylint"] + Arguments(settings.(usePythonModule := false), target)
  {
    var o := Options(settings);
    assert Options(settings.(usePythonModule := true)) == o == Options(settings.(usePythonModule := false));
  }

  /** An option flag is passed exactly when its setting asks for it (the target and
      the extra arguments aside). */
  lemma FlagsFollowSettings(settings: Settings, target: string)
    requires target != "--recursive=y" && target != "--enable=all"
    requires "--recursive=y" !in settings.extraArgs && "--enable=all" !in settings.extraArgs
    ensures "--recursive=y" in Arguments(settings, target) <==> settings.recursive
    ensures "--enable=all" in Arguments(settings, target) <==> settings.enableAll
  {
    var rec := if settings.recursive then ["--recursive=y"] else [];
    var all := if settings.enableAll then ["--enable=all"] else [];
    var head := if settings.usePythonModule then ["-m", "pylint"] else [];
    assert Arguments(settings, target) == head + [target] + (rec + all + settings.extraArgs);
    assert |"--recursive=y"| == 13 && |"--enable=all"| == 12 && |"-m"| == 2 && |"pylint"| == 6;
    assert "--recursive=y" !in head && "--enable=all" !in head;
    assert "--recursive=y" !in all && "--enable=all" !in rec;
  }

  /** With the default settings pylint runs as `-m pylint . --recursive=y --enable=all`. */
  lemma DefaultSpawn(folderPath: string, interpreter: InterpreterSources)
    ensures CreateSpawn(DefaultSettings, folderPath, ".", interpreter).args
         == ["-m", "pylint", ".", "--recursive=y", "--enable=all"]
  {
  }

  /** `PylintWrappedTask`: `handle` files the issues it finds with the diagnostics
      publisher, under the workspace folder `root`. */
  class PylintWrappedTask {
    const publisher: DiagnosticsPublisher
    const root: string
    const stringify: IssueRecord -> string

    constructor (publisher: DiagnosticsPublisher, root: string, stringify: IssueRecord -> string)
      ensures this.publisher == publisher && this.root == root && this.stringify == stringify
    {
      this.publisher := publisher;
      this.root := root;
      this.stringify := stringify;
    }

    /** `handle(chunk, out)`: `written` holds what goes to `out`, in order. */
    method Handle(text: string) returns (written: seq<string>)
      requires publisher.Valid()
      modifies publisher
      ensures publisher.Valid()
      ensures written == Output(ChunkBlocks(text), stringify)
      ensures publisher.byFile == AddAll(old(publisher.byFile), Additions(ChunkBlocks(text), publisher.paths, root))
      ensures publisher.streamed == old(publisher.streamed) + Additions(ChunkBlocks(text), publisher.paths, root)
      ensures publisher.reported == old(publisher.reported)
    {
      var lines := SplitLines(text);
      ghost var flags := IssueStarts(lines);
      IssueStartsMarked(lines);
      ghost var all := Blocks(lines, 0, flags);
      ghost var m0, s0, r0 := publisher.byFile, publisher.streamed, publisher.reported;
      written := [];
      ghost var done: seq<seq<string>> := [];
      var i := 0;
      while i < |lines|
        invariant Progress(lines, flags, i, done, all, written, m0, s0, r0)
      {
        var isLast := i == |lines| - 1;
        var line := lines[i];
        if line == "" && isLast {
          assert Blocks(lines, i, flags) == [] == Blocks(lines, i + 1, flags);
          i := i + 1;
          continue;
        }
        ghost var start := i;
        var out;
        out, i := HandleBlock(lines, flags, i, done, all, written, m0, s0, r0);
        done := done + [lines[start..i]];
        written := written + out;
      }
      assert Blocks(lines, i, flags) == [];
      assert done == all;
    }

    /** What `handle` has done once it reaches line `i`, with the batches reported
        so far unchanged. */
    ghost predicate Progress(lines: seq<string>, flags: seq<bool>, i: nat, done: seq<seq<string>>,
                             all: seq<seq<string>>, written: seq<string>, m0: ByFile, s0: seq<Streamed>,
                             r0: seq<Batch>)
      reads publisher
    {
      && publisher.reported == r0
      && Reached(lines, flags, i, done, all, written, publisher.byFile, publisher.streamed,
                 m0, s0, publisher.paths, root, stringify)
    }

    /** One turn of `handle`'s outer loop on a block that is not the skipped empty
        last line: `next` is where the following block starts. */
    method HandleBlock(lines: seq<string>, ghost flags: seq<bool>, i: nat, ghost done: seq<seq<string>>,
                       ghost all: seq<seq<string>>, ghost written: seq<string>, ghost m0: ByFile,
                       ghost s0: seq<Streamed>, ghost r0: seq<Batch>)
      returns (out: seq<string>, next: nat)
      requires MarksIssueStarts(lines, flags)
      requires i < |lines| && !(lines[i] == "" && i == |lines| - 1)
      requires Progress(lines, flags, i, done, all, written, m0, s0, r0)
      modifies publisher
      ensures i < next <= |lines|
      ensures Progress(lines, flags, next, done + [lines[i..next]], all, written + out, m0, s0, r0)
    {
      var buffer, last := CollectBlock(lines, flags, i);
      out := EmitStep(buffer, lines, flags, i, done, all, written, m0, s0, r0);
      next := last + 1;
    }

    /** Writes and adds what the block `buffer`, which starts at line `i`, stands for. */
    method EmitStep(buffer: seq<string>, ghost lines: seq<string>, ghost flags: seq<bool>, ghost i: nat,
                    ghost done: seq<seq<string>>, ghost all: seq<seq<string>>, ghost written: seq<string>,
                    ghost m0: ByFile, ghost s0: seq<Streamed>, ghost r0: seq<Batch>)
      returns (out: seq<string>)
      requires i < |lines| && !(lines[i] == "" && i == |lines| - 1)
      requires Progress(lines, flags, i, done, all, written, m0, s0, r0)
      requires buffer == lines[i..BlockEnd(lines, i, flags)]
      modifies publisher
      ensures Progress(lines, flags, BlockEnd(lines, i, flags), done + [buffer], all, written + out, m0, s0, r0)
    {
      ghost var byFile, streamed := publisher.byFile, publisher.streamed;
      out := EmitBlock(buffer);
      ReachedStep(lines, flags, i, done, all, written, byFile, streamed, m0, s0, publisher.paths, root,
                  stringify, out, publisher.byFile, publisher.streamed);
    }

    /** The inner loop of `handle`: the lines of the block that starts at `i0`, and
        the index of its last line. A marker line is taken without asking whether
        it starts an issue. */
    method CollectBlock(lines: seq<string>, ghost flags: seq<bool>, i0: nat) returns (buffer: seq<string>, i: nat)
      requires i0 < |lines| && MarksIssueStarts(lines, flags)
      ensures i + 1 == BlockEnd(lines, i0, flags)
      ensures buffer == lines[i0..i + 1]
    {
      i := i0;
      buffer := [lines[i]];
      while i + 1 < |lines|
        invariant i0 <= i < |lines|
        invariant buffer == lines[i0..i + 1]
        invariant BlockEnd(lines, i0, flags) == BlockEnd(lines, i, flags)
      {
        var next := lines[i + 1];
        if !(StartsWith(next, "==") || (|next| > 0 && IsSpace(next[0]))) {
          var startsIssue := IsIssueLineAt(lines, flags, i + 1);
          if startsIssue {
            BlockEndNext(lines, i, flags);
            break;
          }
        }
        BlockEndNext(lines, i, flags);
        SliceExtend(lines, i0, i + 1);
        buffer := buffer + [next];
        i := i + 1;
      }
    }

    /** `isIssueLine(lines[k])`: whether `fromLine` accepts the line with a line
        feed. `fromLine` never throws here, so the `catch` has nothing to do. */
    static method IsIssueLineAt(lines: seq<string>, ghost flags: seq<bool>, k: nat) returns (b: bool)
      requires k < |lines| && MarksIssueStarts(lines, flags)
      ensures b == flags[k]
    {
      var issue := Issue.FromLine(lines[k] + "\n");
      b := issue != null;
      assert b == IsIssueLine(lines[k]);
    }

    /** The end of `handle`'s outer loop body: for an issue, append the
        continuation lines, write its marker and add it; otherwise echo the lines. */
    method EmitBlock(buffer: seq<string>) returns (out: seq<string>)
      requires |buffer| > 0 && publisher.Valid()
      modifies publisher
      ensures publisher.Valid()
      ensures out == BlockOutput(buffer, stringify)
      ensures publisher.byFile == AddAll(old(publisher.byFile), BlockAdds(buffer, publisher.paths, root))
      ensures publisher.streamed == old(publisher.streamed) + BlockAdds(buffer, publisher.paths, root)
      ensures publisher.reported == old(publisher.reported)
    {
      var issue := Issue.FromLine(buffer[0] + "\n");
      if issue != null {
        out := EmitIssue(issue, buffer);
      } else {
        out := Echo(buffer);
      }
    }

    /** The marker for a block whose first line parsed as `issue`, and the issue
        handed to the publisher. */
    method EmitIssue(issue: Issue, buffer: seq<string>) returns (out: seq<string>)
      requires |buffer| > 0 && publisher.Valid()
      requires ParseLine(buffer[0] + "\n") == Some(issue.View())
      modifies issue, publisher
      ensures publisher.Valid()
      ensures out == BlockOutput(buffer, stringify)
      ensures publisher.byFile == AddAll(old(publisher.byFile), BlockAdds(buffer, publisher.paths, root))
      ensures publisher.streamed == old(publisher.streamed) + BlockAdds(buffer, publisher.paths, root)
      ensures publisher.reported == old(publisher.reported)
    {
      ghost var first := issue.View();
      AppendContinuations(issue, buffer[1..]);
      var json := issue.ToJSON();
      assert BlockIssue(buffer) == Some(json);
      out := [IssueMarker + stringify(json) + "\n"];
      publisher.AddIssue(issue.View(), root);
      ghost var item := Streamed(UriOf(publisher.paths, json.file, root), json);
      assert BlockAdds(buffer, publisher.paths, root) == [item];
      assert AddAll(old(publisher.byFile), [item]) == AddTo(old(publisher.byFile), item);
    }

    /** `appendContinuation(buffer[j] + "\n")` for every later line of the block. */
    method AppendContinuations(issue: Issue, rest: seq<string>)
      modifies issue
      ensures issue.View() == AppendedAll(old(issue.View()), WithNewlines(rest))
    {
      ghost var first := issue.View();
      var j := 0;
      while j < |rest|
        invariant 0 <= j <= |rest|
        invariant issue.View() == AppendedAll(first, WithNewlines(rest[..j]))
      {
        WithNewlinesStep(rest, j);
        AppendedAllConcat(first, WithNewlines(rest[..j]), [rest[j] + "\n"]);
        issue.AppendContinuation(rest[j] + "\n");
        j := j + 1;
      }
      assert rest[..j] == rest;
    }

    /** A block that is no issue, written back line by line. */
    method Echo(buffer: seq<string>) returns (out: seq<string>)
      requires |buffer| > 0 && !IsIssueLine(buffer[0])
      ensures out == BlockOutput(buffer, stringify)
    {
      out := [];
      var j := 0;
      while j < |buffer|
        invariant 0 <= j <= |buffer|
        invariant out == WithNewlines(buffer[..j])
      {
        WithNewlinesStep(buffer, j);
        out := out + [buffer[j] + "\n"];
        j := j + 1;
      }
      assert buffer[..j] == buffer;
    }
  }
}
