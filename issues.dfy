/**
 * One pylint issue: how a report line becomes an issue (`IssueImpl.fromLine` and
 * the constructor), how continuation lines are added to it, and the record
 * `toJSON` hands on.
 */
module Issues {
  import opened Wrappers
  import opened Text
  import opened Grammar

  /** The severities a diagnostic is reported with. */
  predicate IsSeverity(c: char) {
    c == 'E' || c == 'W' || c == 'I'
  }

  /** The fields of an issue as `toJSON` returns them. `category` is the folded
      category, `originalCategory` the letter pylint printed. Line and column are
      JavaScript numbers; the parser only produces whole numbers from 0 up. */
  datatype IssueRecord = IssueRecord(
    file: string,
    line: int,
    column: int,
    category: char,
    originalCategory: char,
    code: Option<string>,
    codeTag: Option<string>,
    message: string,
    raw: string)

  /** Refactor and convention messages are reported as information. */
  function FoldCategory(c: char): (r: char)
    ensures r != 'R' && r != 'C'
    ensures IsPrimaryCategory(c) ==> IsSeverity(r)
    ensures c != 'R' && c != 'C' ==> r == c
  {
    if c == 'R' || c == 'C' then 'I' else c
  }

  /** The message code: the code rest with whitespace trimmed, absent when nothing
      is left. */
  function CodeOf(codeRest: string): (r: Option<string>)
    ensures r.None? <==> All(codeRest, Space)
    ensures r.Some? ==> |r.value| > 0 && |r.value| <= |codeRest|
    ensures r.Some? ==> !IsSpace(r.value[0]) && !IsSpace(r.value[|r.value| - 1])
  {
    var t := Trim(codeRest);
    if t == [] then None else Some(t)
  }

  /** A code surrounded by whitespace is found as it is. */
  lemma CodeOfPadded(a: string, t: string, b: string)
    requires All(a, Space) && All(b, Space)
    requires |t| > 0 && !IsSpace(t[0]) && !IsSpace(t[|t| - 1])
    ensures CodeOf(a + t + b) == Some(t)
  {
    TrimPadded(a, t, b);
  }

  /** The tag stored by the constructor and by `toJSON`: the text in the closing
      parentheses of the message when there is some, otherwise the earlier tag. */
  function TagOf(message: string, previous: Option<string>): (r: Option<string>)
    ensures r == previous
         || (r.Some? && r.value != [] && All(r.value, NotParen) && EndsWith(message, "(" + r.value + ")"))
    ensures (|message| == 0 || message[|message| - 1] != ')') ==> r == previous
  {
    match MatchCodeTag(message)
    case None => previous
    case Some(t) =>
      MatchCodeTagSound(message);
      if t != [] then Some(t) else previous
  }

  /** A message ending in a parenthesised non-empty text without parentheses gets
      that text as its tag, whatever the tag was before. */
  lemma TagOfComplete(pre: string, t: string, previous: Option<string>)
    requires t != [] && All(t, NotParen)
    ensures TagOf(pre + "(" + t + ")", previous) == Some(t)
  {
    MatchCodeTagComplete(pre, t);
  }

  /** What the constructor of an issue stores. */
  function Construct(file: string, line: int, column: int, category: char, originalCategory: char,
                     codeRest: string, message: string, raw: string): (r: IssueRecord)
    ensures r.code != Some([]) && r.codeTag != Some([])
    ensures r.message == message && r.raw == raw
  {
    IssueRecord(file, line, column, category, originalCategory, CodeOf(codeRest), TagOf(message, None),
                message, raw)
  }

  /** `IssueImpl.fromLine`: PATT first, then PATT_ALT, on the line without its
      final line feed; None when neither matches. */
  function ParseLine(line: string): (r: Option<IssueRecord>)
    ensures r.Some? ==> r.value.raw == line && r.value.code != Some([]) && r.value.codeTag != Some([])
    ensures r.Some? ==> r.value.line >= 0 && r.value.column >= 0
    ensures r.Some? ==> IsUpper(r.value.originalCategory)
    ensures r.Some? ==> r.value.category == FoldCategory(r.value.originalCategory)
  {
    var clean := StripTrailingNewline(line);
    match MatchPrimary(clean)
    case Some(g) =>
      Some(Construct(g.file, DecimalValue(g.line), DecimalValue(g.column), FoldCategory(g.category),
                     g.category, g.codeRest, g.message, line))
    case None =>
      match MatchAlt(clean)
      case Some(g) =>
        Some(Construct(g.file, DecimalValue(g.line), 0, FoldCategory(g.code[0]), g.code[0],
                       " " + g.code, g.message, line))
      case None => None
  }

  /** A line is an issue exactly when one of the two patterns can match it. */
  lemma ParseLineDecides(line: string)
    ensures var clean := StripTrailingNewline(line);
      ParseLine(line).Some? <==>
        (exists q :: IsPrimarySplit(clean, q)) || (exists q :: IsAltSplit(clean, q))
  {
    var clean := StripTrailingNewline(line);
    if q :| IsPrimarySplit(clean, q) {
      MatchPrimaryIsFirstMatch(clean, q);
    } else if q :| IsAltSplit(clean, q) {
      MatchAltIsFirstMatch(clean, q);
    }
  }

  /** An empty line is not an issue. */
  lemma EmptyLineIsNoIssue()
    ensures ParseLine("\n") == None
  {
    ParseLineDecides("\n");
    assert StripTrailingNewline("\n") == "";
  }

  /** A line PATT can match is parsed by PATT, even when PATT_ALT matches it too:
      its category is then a severity. */
  lemma ParseLinePrimary(line: string, q: PrimarySplit)
    requires IsPrimarySplit(StripTrailingNewline(line), q)
    ensures var r := ParseLine(line);
      && MatchPrimary(StripTrailingNewline(line)).Some?
      && r.Some?
      && IsSeverity(r.value.category)
      && IsPrimaryCategory(r.value.originalCategory)
    ensures var g := MatchPrimary(StripTrailingNewline(line)).value;
      ParseLine(line) == Some(Construct(g.file, DecimalValue(g.line), DecimalValue(g.column),
                                        FoldCategory(g.category), g.category, g.codeRest, g.message, line))
  {
    MatchPrimaryIsFirstMatch(StripTrailingNewline(line), q);
  }

  /** A line only PATT_ALT matches gets column 0, the bracketed code as its code,
      and a category folded from the code's letter. */
  lemma ParseLineAlt(line: string, q: AltSplit)
    requires MatchPrimary(StripTrailingNewline(line)).None?
    requires IsAltSplit(StripTrailingNewline(line), q)
    ensures var clean := StripTrailingNewline(line);
      var r := ParseLine(line);
      && MatchAlt(clean).Some?
      && r.Some?
      && r.value.column == 0
      && r.value.code == Some(MatchAlt(clean).value.code)
      && r.value.originalCategory == MatchAlt(clean).value.code[0]
  {
    var clean := StripTrailingNewline(line);
    MatchAltIsFirstMatch(clean, q);
    var code := MatchAlt(clean).value.code;
    assert In(code[1..][|code| - 2], Digit);
    assert " " + code == " " + code + "";
    CodeOfPadded(" ", code, "");
  }

  /** Formatting a PATT line from its parts and parsing it gives the parts back,
      when the message holds no ':' and does not start with whitespace. */
  lemma ParseLineOfPrimaryLine(file: string, line: string, column: string, ws1: string, category: char,
                               codeRest: string, ws2: string, message: string)
    requires All(file, Dot) && |line| > 0 && All(line, Digit) && |column| > 0 && All(column, Digit)
    requires |ws1| > 0 && All(ws1, Space) && IsPrimaryCategory(category) && All(codeRest, NotColon)
    requires |ws2| > 0 && All(ws2, Space) && All(message, Dot) && All(message, NotColon)
    requires message == [] || !IsSpace(message[0])
    ensures var text := PrimaryLine(file, line, column, ws1, category, codeRest, ws2, message) + "\n";
      ParseLine(text) == Some(Construct(file, DecimalValue(line), DecimalValue(column),
                                        FoldCategory(category), category, codeRest, message, text))
  {
    var s := PrimaryLine(file, line, column, ws1, category, codeRest, ws2, message);
    assert StripTrailingNewline(s + "\n") == s;
    MatchPrimaryOfLine(file, line, column, ws1, category, codeRest, ws2, message);
  }

  // The three lines of the runner tests. Each is written as the parts PATT reads:
  // "file.py:10:5: W0123: Example message\n",
  // "path/to/file.py:1:0: R0801: Similar lines in 2 files\n" and
  // "file.py:2:3: E999: Crash\n".

  lemma StandardLineParts()
    ensures All("file.py", Dot) && All("10", Digit) && All("5", Digit) && All(" ", Space)
    ensures All("0123", NotColon) && All("Example message", Dot) && All("Example message", NotColon)
    ensures DecimalValue("10") == 10 && DecimalValue("5") == 5
  {
  }

  /** A code with no whitespace at its ends is found as it is. */
  lemma CodeOfUnpadded(t: string)
    requires |t| > 0 && !IsSpace(t[0]) && !IsSpace(t[|t| - 1])
    ensures CodeOf(t) == Some(t)
  {
    assert "" + t + "" == t;
    CodeOfPadded("", t, "");
  }

  /** The standard line: every field as the test expects it. */
  lemma StandardLineExample(text: string)
    requires text == PrimaryLine("file.py", "10", "5", " ", 'W', "0123", " ", "Example message") + "\n"
    ensures ParseLine(text)
         == Some(IssueRecord("file.py", 10, 5, 'W', 'W', Some("0123"), None, "Example message", text))
  {
    StandardLineParts();
    CodeOfUnpadded("0123");
    ParseLineOfPrimaryLine("file.py", "10", "5", " ", 'W', "0123", " ", "Example message");
  }

  lemma SimilarLinesParts()
    ensures All("path/to/file.py", Dot) && All("1", Digit) && All("0", Digit) && All(" ", Space)
    ensures All("0801", NotColon) && All("Similar lines in 2 files", Dot)
    ensures All("Similar lines in 2 files", NotColon)
    ensures DecimalValue("1") == 1 && DecimalValue("0") == 0
  {
  }

  /** The duplicate-code line: PATT reads it (column 0) and the refactor category
      becomes information. */
  lemma SimilarLinesExample(text: string)
    requires text == PrimaryLine("path/to/file.py", "1", "0", " ", 'R', "0801", " ", "Similar lines in 2 files") + "\n"
    ensures ParseLine(text)
         == Some(IssueRecord("path/to/file.py", 1, 0, 'I', 'R', Some("0801"), None, "Similar lines in 2 files", text))
    ensures var r := AppendedAll(ParseLine(text).value, SimilarLinesContinuations);
      && r.file == "path/to/file.py" && r.line == 1 && r.column == 0
      && r.category == 'I' && r.code == Some("0801")
  {
    SimilarLinesParts();
    CodeOfUnpadded("0801");
    ParseLineOfPrimaryLine("path/to/file.py", "1", "0", " ", 'R', "0801", " ", "Similar lines in 2 files");
    AppendedAllRaw(ParseLine(text).value, SimilarLinesContinuations);
  }

  /** The two continuation lines the duplicate-code test appends. */
  const SimilarLinesContinuations := [" ==a.tests\U{2236}[107\U{2236}113]\n", " ==b.tests\U{2236}[50\U{2236}56]\n"]

  lemma CrashLineParts()
    ensures All("file.py", Dot) && All("2", Digit) && All("3", Digit) && All(" ", Space)
    ensures All("999", NotColon) && All("Crash", Dot) && All("Crash", NotColon)
    ensures DecimalValue("2") == 2 && DecimalValue("3") == 3
  {
  }

  /** The serialization test: the record `toJSON` returns for the crash line. */
  lemma CrashLineExample(text: string)
    requires text == PrimaryLine("file.py", "2", "3", " ", 'E', "999", " ", "Crash") + "\n"
    ensures ParseLine(text).Some?
    ensures Serialized(ParseLine(text).value)
         == IssueRecord("file.py", 2, 3, 'E', 'E', Some("999"), None, "Crash", text)
  {
    CrashLineParts();
    CodeOfUnpadded("999");
    ParseLineOfPrimaryLine("file.py", "2", "3", " ", 'E', "999", " ", "Crash");
  }

  /** `appendContinuation`: the line, without its line feed, becomes a new line of
      the message; the raw text gains the line as it is. */
  function Appended(r: IssueRecord, line: string): (a: IssueRecord)
    ensures a.raw == r.raw + line
    ensures a.message == r.message + "\n" + StripTrailingNewline(line)
    ensures a.(message := r.message, raw := r.raw) == r
  {
    r.(message := r.message + "\n" + StripTrailingNewline(line), raw := r.raw + line)
  }

  /** The issue after a run of continuation lines, in order. */
  function AppendedAll(r: IssueRecord, lines: seq<string>): IssueRecord
    decreases |lines|
  {
    if |lines| == 0 then r else AppendedAll(Appended(r, lines[0]), lines[1..])
  }

  /** Adding one run of continuation lines and then another is adding both runs at once. */
  lemma {:induction false} AppendedAllConcat(r: IssueRecord, xs: seq<string>, ys: seq<string>)
    ensures AppendedAll(r, xs + ys) == AppendedAll(AppendedAll(r, xs), ys)
    decreases |xs|
  {
    if |xs| == 0 {
      assert xs + ys == ys;
    } else {
      assert (xs + ys)[0] == xs[0];
      assert (xs + ys)[1..] == xs[1..] + ys;
      AppendedAllConcat(Appended(r, xs[0]), xs[1..], ys);
    }
  }

  function Concat(lines: seq<string>): string
    decreases |lines|
  {
    if |lines| == 0 then [] else lines[0] + Concat(lines[1..])
  }

  /** Continuation lines change only message and raw, and the raw text is the
      first line followed by every continuation line exactly as it came. */
  lemma {:induction false} AppendedAllRaw(r: IssueRecord, lines: seq<string>)
    ensures AppendedAll(r, lines).raw == r.raw + Concat(lines)
    ensures AppendedAll(r, lines).(message := r.message, raw := r.raw) == r
    ensures |AppendedAll(r, lines).message| >= |r.message| + |lines|
    decreases |lines|
  {
    if |lines| > 0 {
      AppendedAllRaw(Appended(r, lines[0]), lines[1..]);
      assert r.raw + lines[0] + Concat(lines[1..]) == r.raw + Concat(lines);
    }
  }

  /** `toJSON`: the fields, after looking for a tag in the message once more; an
      earlier tag is kept when none is found. */
  function Serialized(r: IssueRecord): (j: IssueRecord)
    ensures j.(codeTag := r.codeTag) == r
    ensures r.codeTag.Some? ==> j.codeTag.Some?
    ensures j.codeTag == r.codeTag || EndsWith(r.message, "(" + j.codeTag.value + ")")
  {
    r.(codeTag := TagOf(r.message, r.codeTag))
  }

  /** Serializing twice gives the same record as serializing once. */
  lemma SerializedIdempotent(r: IssueRecord)
    ensures Serialized(Serialized(r)) == Serialized(r)
  {
  }

  /** A continuation line that ends in a parenthesised tag makes that the tag the
      serialized issue reports. */
  lemma SerializedAfterTaggedLine(r: IssueRecord, pre: string, t: string)
    requires t != [] && All(t, NotParen)
    ensures Serialized(Appended(r, pre + "(" + t + ")")).codeTag == Some(t)
  {
    var line := pre + "(" + t + ")";
    assert StripTrailingNewline(line) == line;
    assert r.message + "\n" + line == (r.message + "\n" + pre) + "(" + t + ")";
    TagOfComplete(r.message + "\n" + pre, t, r.codeTag);
  }

  // ---------------------------------------------------------------------------
  // The issue object
  // ---------------------------------------------------------------------------

  /** `IssueImpl`: the fields fixed at construction are constants; the tag, the
      message and the raw text change as continuation lines arrive and when the
      issue is serialized. */
  class Issue {
    const file: string
    const line: int
    const column: int
    const category: char
    const originalCategory: char
    const code: Option<string>
    const codeRest: string
    var codeTag: Option<string>
    var message: string
    var raw: string

    function View(): IssueRecord
      reads this
    {
      IssueRecord(file, line, column, category, originalCategory, code, codeTag, message, raw)
    }

    constructor (file: string, line: int, column: int, category: char, originalCategory: char,
                 codeRest: string, message: string, raw: string)
      ensures View() == Construct(file, line, column, category, originalCategory, codeRest, message, raw)
      ensures this.codeRest == codeRest
    {
      this.file := file;
      this.line := line;
      this.column := column;
      this.category := category;
      this.originalCategory := originalCategory;
      this.codeRest := codeRest;
      var trimmed := Trim(codeRest);
      this.code := if trimmed == [] then None else Some(trimmed);
      this.message := message;
      this.raw := raw;
      var tag := MatchCodeTag(message);
      if tag.Some? && tag.value != [] {
        this.codeTag := Some(tag.value);
      } else {
        this.codeTag := None;
      }
    }

    static method FromLine(text: string) returns (issue: Issue?)
      ensures issue == null <==> ParseLine(text).None?
      ensures issue != null ==> fresh(issue) && issue.View() == ParseLine(text).value
    {
      var clean := StripTrailingNewline(text);
      var m := MatchPrimary(clean);
      if m.Some? {
        var g := m.value;
        var cat := g.category;
        if cat == 'R' || cat == 'C' {
          cat := 'I';
        }
        issue := new Issue(g.file, DecimalValue(g.line), DecimalValue(g.column), cat, g.category,
                           g.codeRest, g.message, text);
        return;
      }
      var alt := MatchAlt(clean);
      if alt.Some? {
        var g := alt.value;
        var cat := g.code[0];
        if cat == 'R' || cat == 'C' {
          cat := 'I';
        }
        issue := new Issue(g.file, DecimalValue(g.line), 0, cat, g.code[0], " " + g.code, g.message, text);
        return;
      }
      issue := null;
    }

    method AppendContinuation(text: string)
      modifies this
      ensures View() == Appended(old(View()), text)
    {
      message := message + "\n" + StripTrailingNewline(text);
      raw := raw + text;
    }

    method ToJSON() returns (j: IssueRecord)
      modifies this
      ensures j == Serialized(old(View()))
      ensures View() == j
    {
      var tag := MatchCodeTag(message);
      if tag.Some? && tag.value != [] {
        codeTag := Some(tag.value);
      }
      j := View();
    }
  }
}
