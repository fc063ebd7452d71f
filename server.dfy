/**
 * The language server: it turns the issues the client sends into LSP diagnostics,
 * keeps one list of diagnostics per uri, and publishes a uri's whole list each
 * time it changes. Every `sendDiagnostics` call is recorded in order.
 */
module Server {
  import opened Wrappers
  import opened Text
  import opened OrderedMaps
  import opened Issues

  datatype DiagnosticSeverity = Error | Warning | Information

  /** A zero-based position in a document. */
  datatype Position = Position(line: nat, character: nat)

  datatype Range = Range(start: Position, end: Position)

  /** Which field becomes the diagnostic's code: `code` on the bulk path, `codeTag`
      on the stream path, the category when that field is absent or empty. */
  datatype CodeSelector = CodeOrCategory | CodeTagOrCategory

  datatype Diagnostic = Diagnostic(
    range: Range,
    message: string,
    severity: DiagnosticSeverity,
    code: string,
    source: string,
    href: string)

  /** A JavaScript string value that is present and not empty. */
  predicate Truthy(o: Option<string>) {
    o.Some? && o.value != []
  }

  /** `Math.max(0, (n || 1) - 1)`: the zero-based coordinate of the one-based `n`,
      where 0 counts as 1 and anything smaller is clamped. */
  function StartOf(n: int): (r: nat)
    ensures n >= 1 ==> r == n - 1
    ensures n <= 1 ==> r == 0
  {
    var oneBased := if n == 0 then 1 else n;
    if oneBased - 1 > 0 then oneBased - 1 else 0
  }

  /** Converting back: a coordinate from 1 up is one more than its start. */
  lemma StartOfInverse(n: int)
    requires n >= 1
    ensures StartOf(n) + 1 == n
    ensures StartOf(0) == StartOf(1) == 0
  {
  }

  /** Only "E" is an error and only "W" a warning; everything else is information. */
  function SeverityOf(category: char): (s: DiagnosticSeverity)
    ensures s == Error <==> category == 'E'
    ensures s == Warning <==> category == 'W'
    ensures s == Information <==> category != 'E' && category != 'W'
  {
    if category == 'E' then Error else if category == 'W' then Warning else Information
  }

  /** A refactor or convention message is shown as information. */
  lemma FoldedSeverity(c: char)
    requires c == 'R' || c == 'C' || c == 'I'
    ensures SeverityOf(FoldCategory(c)) == Information
  {
  }

  /** The diagnostic's code. */
  function CodeValue(issue: IssueRecord, selector: CodeSelector): (c: string)
    ensures selector == CodeOrCategory && Truthy(issue.code) ==> c == issue.code.value
    ensures selector == CodeTagOrCategory && Truthy(issue.codeTag) ==> c == issue.codeTag.value
    ensures ((selector == CodeOrCategory && !Truthy(issue.code))
             || (selector == CodeTagOrCategory && !Truthy(issue.codeTag))) ==> c == [issue.category]
    ensures c != []
  {
    var field := if selector == CodeOrCategory then issue.code else issue.codeTag;
    if Truthy(field) then field.value else [issue.category]
  }

  /** `categoryMap[c]`, "" when the letter has no page of its own. */
  function CategoryName(c: char): (name: string)
    ensures name != [] <==> c in {'E', 'W', 'C', 'R', 'I'}
  {
    match c
    case 'E' => "error"
    case 'W' => "warning"
    case 'C' => "convention"
    case 'R' => "refactor"
    case 'I' => "information"
    case _ => ""
  }

  /** The documentation category: the letter pylint printed, falling back to the
      folded category. */
  function DocCategory(issue: IssueRecord): (name: string)
    ensures CategoryName(issue.originalCategory) != [] ==> name == CategoryName(issue.originalCategory)
    ensures CategoryName(issue.originalCategory) == [] ==> name == CategoryName(issue.category)
  {
    var byOriginal := CategoryName(issue.originalCategory);
    if byOriginal != [] then byOriginal else CategoryName(issue.category)
  }

  const DocsRoot := "https://pylint.readthedocs.io/en/latest/"
  const BaseUserDocs := DocsRoot + "user_guide/messages"
  const BaseTechnical := DocsRoot + "technical_reference/messages/messages.html"

  /** `pylintDocUrl`: the message's own page when it has a tag and a known category,
      else the anchor of its code on the technical page, else the technical page. */
  function PylintDocUrl(issue: IssueRecord): (url: string)
    ensures Truthy(issue.codeTag) && DocCategory(issue) != [] ==>
      url == BaseUserDocs + "/" + DocCategory(issue) + "/" + issue.codeTag.value + ".html"
    ensures !(Truthy(issue.codeTag) && DocCategory(issue) != []) && Truthy(issue.code) ==>
      url == BaseTechnical + "#" + Trim(issue.code.value)
    ensures !(Truthy(issue.codeTag) && DocCategory(issue) != []) && !Truthy(issue.code) ==>
      url == BaseTechnical
  {
    var name := DocCategory(issue);
    if Truthy(issue.codeTag) && name != [] then BaseUserDocs + "/" + name + "/" + issue.codeTag.value + ".html"
    else if Truthy(issue.code) then BaseTechnical + "#" + Trim(issue.code.value)
    else BaseTechnical
  }

  /** Every documentation link points into the pylint documentation. */
  lemma DocUrlIsPylintDocs(issue: IssueRecord)
    ensures StartsWith(PylintDocUrl(issue), DocsRoot)
  {
    var rest;
    if Truthy(issue.codeTag) && DocCategory(issue) != [] {
      rest := "user_guide/messages" + "/" + DocCategory(issue) + "/" + issue.codeTag.value + ".html";
    } else if Truthy(issue.code) {
      rest := "technical_reference/messages/messages.html" + "#" + Trim(issue.code.value);
    } else {
      rest := "technical_reference/messages/messages.html";
    }
    assert PylintDocUrl(issue) == DocsRoot + rest;
    StartsWithConcat(DocsRoot, rest);
  }

  /** A tagged convention message links to the convention page although its
      category was folded to information. */
  lemma DocUrlUsesOriginalCategory(issue: IssueRecord)
    requires issue.originalCategory == 'C' && issue.category == FoldCategory('C')
    requires Truthy(issue.codeTag)
    ensures PylintDocUrl(issue) == BaseUserDocs + "/convention/" + issue.codeTag.value + ".html"
  {
    assert DocCategory(issue) == "convention";
  }

  /** A fatal message (letter F) has no category page: one with a code links to
      that code on the technical page, tagged or not. */
  lemma FatalDocUrl(issue: IssueRecord)
    requires issue.originalCategory == 'F' && issue.category == FoldCategory('F')
    requires Truthy(issue.code)
    ensures PylintDocUrl(issue) == BaseTechnical + "#" + Trim(issue.code.value)
  {
    assert DocCategory(issue) == [];
  }

  /** `issueToDiagnostic`: a one-character range at the issue's start, its severity,
      message, code and documentation link. */
  function IssueToDiagnostic(issue: IssueRecord, selector: CodeSelector, source: string): (d: Diagnostic)
    ensures d.range.start == Position(StartOf(issue.line), StartOf(issue.column))
    ensures d.range.end.line == d.range.start.line
    ensures d.range.end.character == d.range.start.character + 1
    ensures d.severity == SeverityOf(issue.category)
    ensures d.message == issue.message && d.source == source
    ensures d.code == CodeValue(issue, selector)
    ensures d.href == PylintDocUrl(issue)
  {
    var startLine := StartOf(issue.line);
    var startCol := StartOf(issue.column);
    var endCol := if startCol + 1 >= startCol then startCol + 1 else startCol;
    Diagnostic(
      Range(Position(startLine, startCol), Position(startLine, endCol)),
      issue.message, SeverityOf(issue.category), CodeValue(issue, selector), source,
      PylintDocUrl(issue))
  }

  /** A parsed issue lands on the line and column pylint printed, counted from zero. */
  lemma ParsedIssueRange(text: string, selector: CodeSelector, source: string)
    requires ParseLine(text).Some?
    ensures var issue := ParseLine(text).value;
      var d := IssueToDiagnostic(issue, selector, source);
      && (issue.line >= 1 ==> d.range.start.line + 1 == issue.line)
      && (issue.column >= 1 ==> d.range.start.character + 1 == issue.column)
      && (issue.column == 0 ==> d.range.start.character == 0)
  {
  }

  /** `issues.map(...)` on the bulk path: one diagnostic per issue, in order. */
  function BulkDiagnostics(issues: seq<IssueRecord>): (ds: seq<Diagnostic>)
    ensures |ds| == |issues|
    ensures forall i :: 0 <= i < |issues| ==> ds[i] == IssueToDiagnostic(issues[i], CodeOrCategory, "pylint")
  {
    seq(|issues|, i requires 0 <= i < |issues| => IssueToDiagnostic(issues[i], CodeOrCategory, "pylint"))
  }

  /** The stream path's diagnostic for one issue. */
  function StreamDiagnostic(issue: IssueRecord): Diagnostic {
    IssueToDiagnostic(issue, CodeTagOrCategory, "Pylint")
  }

  /** The two paths differ only in the code and the source label. */
  lemma BulkAndStreamAgree(issue: IssueRecord)
    ensures var b := BulkDiagnostics([issue])[0];
      var s := StreamDiagnostic(issue);
      && b.(code := s.code, source := s.source) == s
      && b.source == "pylint" && s.source == "Pylint"
  {
  }

  /** A call `connection.sendDiagnostics({uri, diagnostics})`. */
  datatype Published = Published(uri: string, diagnostics: seq<Diagnostic>)

  /** One empty publication per uri of `ks`, in order. */
  function EmptyPublications(ks: seq<string>): (r: seq<Published>)
    ensures |r| == |ks|
    ensures forall i :: 0 <= i < |ks| ==> r[i] == Published(ks[i], [])
  {
    seq(|ks|, i requires 0 <= i < |ks| => Published(ks[i], []))
  }

  /** Publishing a bulk list twice leaves what publishing it once leaves. */
  lemma ReplaceIdempotent(m: OrderedMap<seq<Diagnostic>>, uri: string, ds: seq<Diagnostic>)
    requires m.Valid()
    ensures Set(Set(m, uri, ds), uri, ds) == Set(m, uri, ds)
  {
  }

  class LspServer {
    /** `diagnosticsByFile`: uri to its diagnostics, in first-insertion order. */
    var diagnosticsByFile: OrderedMap<seq<Diagnostic>>
    /** The `sendDiagnostics` calls made, in order. */
    var sent: seq<Published>

    ghost predicate Valid()
      reads this
    {
      diagnosticsByFile.Valid()
    }

    constructor ()
      ensures Valid() && diagnosticsByFile == Empty() && sent == []
    {
      diagnosticsByFile := Empty();
      sent := [];
    }

    /** `onDiagnostics`: the incoming issues replace the uri's list, which is published. */
    method OnDiagnostics(uri: string, issues: seq<IssueRecord>)
      requires Valid()
      modifies this
      ensures Valid()
      ensures diagnosticsByFile == Set(old(diagnosticsByFile), uri, BulkDiagnostics(issues))
      ensures sent == old(sent) + [Published(uri, BulkDiagnostics(issues))]
    {
      var list := BulkDiagnostics(issues);
      diagnosticsByFile := Set(diagnosticsByFile, uri, list);
      sent := sent + [Published(uri, list)];
    }

    /** `onClearDiagnostics`: with a uri, forget and blank that uri only, tracked or
        not; without one, blank every tracked uri in map order and forget them all. */
    method OnClearDiagnostics(uri: Option<string>)
      requires Valid()
      modifies this
      ensures Valid()
      ensures Truthy(uri) ==> diagnosticsByFile == Delete(old(diagnosticsByFile), uri.value)
      ensures Truthy(uri) ==> sent == old(sent) + [Published(uri.value, [])]
      ensures !Truthy(uri) ==> diagnosticsByFile == Empty()
      ensures !Truthy(uri) ==> sent == old(sent) + EmptyPublications(old(diagnosticsByFile).keys)
    {
      if Truthy(uri) {
        diagnosticsByFile := Delete(diagnosticsByFile, uri.value);
        sent := sent + [Published(uri.value, [])];
        return;
      }
      var ks := diagnosticsByFile.keys;
      var i := 0;
      while i < |ks|
        invariant 0 <= i <= |ks|
        invariant diagnosticsByFile == old(diagnosticsByFile)
        invariant sent == old(sent) + EmptyPublications(ks[..i])
      {
        assert EmptyPublications(ks[..i + 1]) == EmptyPublications(ks[..i]) + [Published(ks[i], [])];
        sent := sent + [Published(ks[i], [])];
        i := i + 1;
      }
      assert ks[..i] == ks;
      diagnosticsByFile := Empty();
    }

    /** `onStreamIssue`: append the issue's diagnostic to the uri's list, creating it
        if absent, publish the whole list and answer ok. */
    method OnStreamIssue(uri: string, issue: IssueRecord) returns (ok: bool)
      requires Valid()
      modifies this
      ensures Valid() && ok
      ensures var list := Get(old(diagnosticsByFile), uri).GetOr([]) + [StreamDiagnostic(issue)];
        && diagnosticsByFile == Set(old(diagnosticsByFile), uri, list)
        && sent == old(sent) + [Published(uri, list)]
    {
      var list := Get(diagnosticsByFile, uri).GetOr([]);
      list := list + [StreamDiagnostic(issue)];
      diagnosticsByFile := Set(diagnosticsByFile, uri, list);
      sent := sent + [Published(uri, list)];
      ok := true;
    }
  }
}
