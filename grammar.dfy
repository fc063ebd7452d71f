/**
 * The regular expressions of the extension, written out as matchers.
 *
 *   PATT     = /^(.*):(\d+):(\d+):\s+(W|E|I|R|C)([^:]*):\s+(.*)$/
 *   PATT_ALT = /^(.*):(\d+):\s*\[([A-Z]\d+)[^\]]*\]\s*(.*)$/
 *   code tag = /.*\(([^\(\)]*)\)$/
 *
 * A way for one of the two line patterns to match a string is given by the
 * positions where its quantified parts end (a `...Split`). JavaScript's
 * backtracking tries greedy quantifiers longest first, left to right, so the
 * match it reports is the split whose end positions are lexicographically
 * greatest. The matchers compute that split; the lemmas prove that they find one
 * whenever the pattern can match and that no other split ranks above it.
 */
module Grammar {
  import opened Wrappers
  import opened Text

  /** Lexicographic order on the end positions of two candidate splits. */
  predicate RankLeq(a: seq<int>, b: seq<int>) {
    if |a| == 0 || |b| == 0 then true
    else a[0] < b[0] || (a[0] == b[0] && RankLeq(a[1..], b[1..]))
  }

  /** Two rank sequences that agree before position `i` and differ upwards there
      (or agree throughout) are in order. */
  lemma {:induction false} RankLeqAt(a: seq<int>, b: seq<int>, i: nat)
    requires |a| == |b| && i <= |a|
    requires forall j :: 0 <= j < i ==> a[j] == b[j]
    requires i == |a| || a[i] < b[i]
    ensures RankLeq(a, b)
    decreases i
  {
    if |a| > 0 && i > 0 {
      RankLeqAt(a[1..], b[1..], i - 1);
    }
  }

  /** The largest index below `hi` with the property `p`. */
  function LastWhere(hi: nat, p: nat -> bool): (r: Option<nat>)
    ensures r.Some? ==> r.value < hi && p(r.value) && forall j :: r.value < j < hi ==> !p(j)
    ensures r.None? ==> forall j :: 0 <= j < hi ==> !p(j)
  {
    if hi == 0 then None
    else if p(hi - 1) then Some(hi - 1)
    else LastWhere(hi - 1, p)
  }

  // ---------------------------------------------------------------------------
  // PATT: file:line:column:<ws>C<codeRest>:<ws>message
  // ---------------------------------------------------------------------------

  predicate IsPrimaryCategory(c: char) {
    c == 'W' || c == 'E' || c == 'I' || c == 'R' || c == 'C'
  }

  /** End positions: `fileEnd`, `lineEnd`, `columnEnd` hold the three ':' after
      file, line and column; `category` is where the category letter stands;
      `codeEnd` holds the ':' after the code rest; `messageStart` is where the
      second whitespace run stops. */
  datatype PrimarySplit = PrimarySplit(
    fileEnd: nat, lineEnd: nat, columnEnd: nat, category: nat, codeEnd: nat, messageStart: nat)
  {
    function Rank(): seq<int> { [fileEnd, lineEnd, columnEnd, category, codeEnd, messageStart] }
  }

  /** Everything after the file agrees with PATT. */
  predicate IsPrimaryTail(s: string, q: PrimarySplit) {
    && q.fileEnd < q.lineEnd < q.columnEnd < q.category < q.codeEnd < q.messageStart <= |s|
    && s[q.fileEnd] == ':'
    && q.fileEnd + 1 < q.lineEnd && AllIn(s, q.fileEnd + 1, q.lineEnd, Digit) && s[q.lineEnd] == ':'
    && q.lineEnd + 1 < q.columnEnd && AllIn(s, q.lineEnd + 1, q.columnEnd, Digit) && s[q.columnEnd] == ':'
    && q.columnEnd + 1 < q.category && AllIn(s, q.columnEnd + 1, q.category, Space)
    && IsPrimaryCategory(s[q.category])
    && AllIn(s, q.category + 1, q.codeEnd, NotColon) && s[q.codeEnd] == ':'
    && q.codeEnd + 1 < q.messageStart && AllIn(s, q.codeEnd + 1, q.messageStart, Space)
    && AllIn(s, q.messageStart, |s|, Dot)
  }

  /** `q` is one way in which PATT matches the whole of `s`. */
  predicate IsPrimarySplit(s: string, q: PrimarySplit) {
    IsPrimaryTail(s, q) && AllIn(s, 0, q.fileEnd, Dot)
  }

  /** The positions each quantifier of PATT reaches after a file ending at `e1`
      when it takes all it can. */
  function GreedyPrimaryTail(s: string, e1: nat): PrimarySplit {
    var e2 := e1 + 1 + RunFrom(s, e1 + 1, Digit);
    var e3 := e2 + 1 + RunFrom(s, e2 + 1, Digit);
    var e4 := e3 + 1 + RunFrom(s, e3 + 1, Space);
    var e5 := e4 + 1 + RunFrom(s, e4 + 1, NotColon);
    var e6 := e5 + 1 + RunFrom(s, e5 + 1, Space);
    PrimarySplit(e1, e2, e3, e4, e5, e6)
  }

  /** The rest of PATT after a file ending at `e1`: it matches when the greedy
      positions form a split. */
  function PrimaryTailAt(s: string, e1: nat): (r: Option<PrimarySplit>)
    ensures r.Some? ==> r.value.fileEnd == e1 && IsPrimaryTail(s, r.value)
  {
    var q := GreedyPrimaryTail(s, e1);
    if IsPrimaryTail(s, q) then Some(q) else None
  }

  /** Digits, whitespace and the code rest are each followed by a character
      outside their class, so in any split they end where the greedy runs end. */
  lemma PrimaryRunsExact(s: string, q: PrimarySplit)
    requires IsPrimaryTail(s, q)
    ensures q.fileEnd + 1 + RunFrom(s, q.fileEnd + 1, Digit) == q.lineEnd
    ensures q.lineEnd + 1 + RunFrom(s, q.lineEnd + 1, Digit) == q.columnEnd
    ensures q.columnEnd + 1 + RunFrom(s, q.columnEnd + 1, Space) == q.category
    ensures q.category + 1 + RunFrom(s, q.category + 1, NotColon) == q.codeEnd
  {
    RunFromExact(s, q.fileEnd + 1, q.lineEnd, Digit);
    RunFromExact(s, q.lineEnd + 1, q.columnEnd, Digit);
    RunFromExact(s, q.columnEnd + 1, q.category, Space);
    RunFromExact(s, q.category + 1, q.codeEnd, NotColon);
  }

  lemma GreedyPrimaryTailBy(s: string, e1: nat, e2: nat, e3: nat, e4: nat, e5: nat)
    requires e1 + 1 + RunFrom(s, e1 + 1, Digit) == e2
    requires e2 + 1 + RunFrom(s, e2 + 1, Digit) == e3
    requires e3 + 1 + RunFrom(s, e3 + 1, Space) == e4
    requires e4 + 1 + RunFrom(s, e4 + 1, NotColon) == e5
    ensures GreedyPrimaryTail(s, e1) == PrimarySplit(e1, e2, e3, e4, e5, e5 + 1 + RunFrom(s, e5 + 1, Space))
  {
  }

  /** The whitespace before the message may be extended as far as the greedy run
      goes: what it takes from the message is whitespace, and what is left of the
      message still has no line terminator. */
  lemma PrimaryMessageStretch(s: string, q: PrimarySplit)
    requires IsPrimaryTail(s, q)
    ensures var m := q.codeEnd + 1 + RunFrom(s, q.codeEnd + 1, Space);
      m >= q.messageStart && IsPrimaryTail(s, q.(messageStart := m))
  {
    RunFromAtLeast(s, q.codeEnd + 1, q.messageStart, Space);
    RunFromProps(s, q.codeEnd + 1, Space);
  }

  /** Given where the file ends, the rest of a PATT match is fixed, except that the
      second whitespace run takes all the whitespace it can. */
  lemma PrimaryTailAtComplete(s: string, q: PrimarySplit)
    requires IsPrimaryTail(s, q)
    ensures var r := PrimaryTailAt(s, q.fileEnd);
      && r.Some?
      && r.value.lineEnd == q.lineEnd && r.value.columnEnd == q.columnEnd
      && r.value.category == q.category && r.value.codeEnd == q.codeEnd
      && r.value.messageStart >= q.messageStart
  {
    var m := q.codeEnd + 1 + RunFrom(s, q.codeEnd + 1, Space);
    GreedyPrimaryTailOf(s, q);
    PrimaryMessageStretch(s, q);
    assert PrimaryTailAt(s, q.fileEnd) == Some(q.(messageStart := m));
  }

  lemma GreedyPrimaryTailOf(s: string, q: PrimarySplit)
    requires IsPrimaryTail(s, q)
    ensures GreedyPrimaryTail(s, q.fileEnd) == q.(messageStart := q.codeEnd + 1 + RunFrom(s, q.codeEnd + 1, Space))
  {
    PrimaryRunsExact(s, q);
    GreedyPrimaryTailBy(s, q.fileEnd, q.lineEnd, q.columnEnd, q.category, q.codeEnd);
  }

  /** `k` can end the greedy `(.*)` file group of PATT. */
  predicate PrimaryFileEnd(s: string, k: nat) {
    AllIn(s, 0, k, Dot) && PrimaryTailAt(s, k).Some?
  }

  /** The split `s.match(PATT)` reports, or None when it returns null. */
  function MatchPrimarySplit(s: string): (r: Option<PrimarySplit>)
    ensures r.Some? ==> IsPrimarySplit(s, r.value)
  {
    match LastWhere(|s|, (k: nat) => PrimaryFileEnd(s, k))
    case None => None
    case Some(k) => PrimaryTailAt(s, k)
  }

  /** MatchPrimarySplit is how `s.match(PATT)` decides: it succeeds whenever PATT can
      match `s`, and the split it reports ranks first in backtracking order. */
  lemma MatchPrimaryIsFirstMatch(s: string, q: PrimarySplit)
    requires IsPrimarySplit(s, q)
    ensures MatchPrimarySplit(s).Some?
    ensures RankLeq(q.Rank(), MatchPrimarySplit(s).value.Rank())
  {
    PrimaryTailAtComplete(s, q);
    var p := (k: nat) => PrimaryFileEnd(s, k);
    assert p(q.fileEnd);
    var r := MatchPrimarySplit(s).value;
    assert r.fileEnd >= q.fileEnd;
    if r.fileEnd > q.fileEnd {
      RankLeqAt(q.Rank(), r.Rank(), 0);
    } else if r.messageStart > q.messageStart {
      RankLeqAt(q.Rank(), r.Rank(), 5);
    } else {
      RankLeqAt(q.Rank(), r.Rank(), 6);
    }
  }

  /** The capture groups of PATT. */
  datatype PrimaryGroups = PrimaryGroups(
    file: string, line: string, column: string, category: char, codeRest: string, message: string)

  function PrimaryGroupsOf(s: string, q: PrimarySplit): (g: PrimaryGroups)
    requires IsPrimarySplit(s, q)
    ensures All(g.line, Digit) && All(g.column, Digit) && IsPrimaryCategory(g.category)
    ensures |g.line| > 0 && |g.column| > 0
    ensures All(g.codeRest, NotColon) && All(g.message, Dot)
  {
    PrimaryGroups(s[..q.fileEnd], s[q.fileEnd + 1..q.lineEnd], s[q.lineEnd + 1..q.columnEnd],
                  s[q.category], s[q.category + 1..q.codeEnd], s[q.messageStart..])
  }

  /** `s.match(PATT)`: the groups, or None for null. */
  function MatchPrimary(s: string): Option<PrimaryGroups> {
    match MatchPrimarySplit(s)
    case None => None
    case Some(q) => Some(PrimaryGroupsOf(s, q))
  }

  // ---------------------------------------------------------------------------
  // PATT on a line with a single reading
  // ---------------------------------------------------------------------------

  /** A line in the layout PATT describes, built from its parts. */
  function PrimaryLine(file: string, line: string, column: string, ws1: string, category: char,
                       codeRest: string, ws2: string, message: string): string
  {
    file + ":" + line + ":" + column + ":" + ws1 + [category] + codeRest + ":" + ws2 + message
  }

  lemma PrimaryLineLayout(file: string, line: string, column: string, ws1: string, category: char,
                          codeRest: string, ws2: string, message: string)
    ensures var s := PrimaryLine(file, line, column, ws1, category, codeRest, ws2, message);
      var a := |file|; var b := a + 1 + |line|; var c := b + 1 + |column|;
      var d := c + 1 + |ws1|; var e := d + 1 + |codeRest|; var m := e + 1 + |ws2|;
      && |s| == m + |message|
      && s[..a] == file && s[a] == ':' && s[a + 1..b] == line && s[b] == ':'
      && s[b + 1..c] == column && s[c] == ':' && s[c + 1..d] == ws1 && s[d] == category
      && s[d + 1..e] == codeRest && s[e] == ':' && s[e + 1..m] == ws2 && s[m..] == message
  {
  }

  /** The split PATT has in a line built from well-formed parts. */
  lemma PrimaryLineSplit(file: string, line: string, column: string, ws1: string, category: char,
                         codeRest: string, ws2: string, message: string)
    requires All(file, Dot) && |line| > 0 && All(line, Digit) && |column| > 0 && All(column, Digit)
    requires |ws1| > 0 && All(ws1, Space) && IsPrimaryCategory(category) && All(codeRest, NotColon)
    requires |ws2| > 0 && All(ws2, Space) && All(message, Dot)
    ensures var s := PrimaryLine(file, line, column, ws1, category, codeRest, ws2, message);
      var a := |file|; var b := a + 1 + |line|; var c := b + 1 + |column|;
      var d := c + 1 + |ws1|; var e := d + 1 + |codeRest|; var m := e + 1 + |ws2|;
      IsPrimarySplit(s, PrimarySplit(a, b, c, d, e, m))
  {
    var s := PrimaryLine(file, line, column, ws1, category, codeRest, ws2, message);
    var a := |file|; var b := a + 1 + |line|; var c := b + 1 + |column|;
    var d := c + 1 + |ws1|; var e := d + 1 + |codeRest|; var m := e + 1 + |ws2|;
    PrimaryLineLayout(file, line, column, ws1, category, codeRest, ws2, message);
    AllInSlice(s, 0, a, Dot);
    AllInSlice(s, a + 1, b, Digit);
    AllInSlice(s, b + 1, c, Digit);
    AllInSlice(s, c + 1, d, Space);
    AllInSlice(s, d + 1, e, NotColon);
    AllInSlice(s, e + 1, m, Space);
    AllInSlice(s, m, |s|, Dot);
  }

  /** When the message of a PATT split `q` holds no ':', no split can put the end
      of the file later: every ':' after the file is followed by a character that
      cannot start the next field. */
  lemma PrimaryFileEndLast(s: string, q: PrimarySplit, r: PrimarySplit)
    requires IsPrimarySplit(s, q) && IsPrimarySplit(s, r)
    requires AllIn(s, q.messageStart, |s|, NotColon)
    ensures r.fileEnd <= q.fileEnd
  {
    var f := r.fileEnd;
    assert q.fileEnd < f < q.lineEnd || q.lineEnd < f < q.columnEnd ==> In(s[f], Digit);
    assert q.columnEnd < f < q.category || q.codeEnd < f < q.messageStart ==> In(s[f], Space);
    assert q.category < f < q.codeEnd || q.messageStart <= f ==> In(s[f], NotColon);
    assert f <= q.fileEnd || f == q.lineEnd || f == q.columnEnd || f == q.codeEnd;
    assert In(s[q.columnEnd + 1], Space) && In(s[q.codeEnd + 1], Space);
    assert f == q.columnEnd || f == q.codeEnd ==> In(s[f + 1], Digit);
    if f == q.lineEnd {
      PrimaryRunsExact(s, r);
      RunFromExact(s, q.lineEnd + 1, q.columnEnd, Digit);
    }
    assert f == q.lineEnd ==> In(s[q.columnEnd + 1], Digit);
  }

  /** A PATT split whose message holds no ':' and does not start with whitespace is
      the one `s.match(PATT)` reports. */
  lemma MatchPrimaryUnique(s: string, q: PrimarySplit)
    requires IsPrimarySplit(s, q)
    requires AllIn(s, q.messageStart, |s|, NotColon)
    requires q.messageStart < |s| ==> !In(s[q.messageStart], Space)
    ensures MatchPrimarySplit(s) == Some(q)
  {
    MatchPrimaryIsFirstMatch(s, q);
    var r := MatchPrimarySplit(s).value;
    PrimaryFileEndLast(s, q, r);
    GreedyPrimaryTailOf(s, q);
    RunFromExact(s, q.codeEnd + 1, q.messageStart, Space);
  }

  /** ... and the groups it reports are the slices of that split. */
  lemma MatchPrimaryUniqueGroups(s: string, q: PrimarySplit, g: PrimaryGroups)
    requires IsPrimarySplit(s, q)
    requires AllIn(s, q.messageStart, |s|, NotColon)
    requires q.messageStart < |s| ==> !In(s[q.messageStart], Space)
    requires g == PrimaryGroups(s[..q.fileEnd], s[q.fileEnd + 1..q.lineEnd],
      s[q.lineEnd + 1..q.columnEnd], s[q.category], s[q.category + 1..q.codeEnd], s[q.messageStart..])
    ensures MatchPrimary(s) == Some(g)
  {
    MatchPrimaryUnique(s, q);
  }

  /** Formatting a line from well-formed parts and matching PATT gives the parts back,
      provided the message holds no ':' and does not start with whitespace. */
  lemma MatchPrimaryOfLine(file: string, line: string, column: string, ws1: string, category: char,
                           codeRest: string, ws2: string, message: string)
    requires All(file, Dot) && |line| > 0 && All(line, Digit) && |column| > 0 && All(column, Digit)
    requires |ws1| > 0 && All(ws1, Space) && IsPrimaryCategory(category) && All(codeRest, NotColon)
    requires |ws2| > 0 && All(ws2, Space) && All(message, Dot) && All(message, NotColon)
    requires message == [] || !IsSpace(message[0])
    ensures MatchPrimary(PrimaryLine(file, line, column, ws1, category, codeRest, ws2, message))
         == Some(PrimaryGroups(file, line, column, category, codeRest, message))
  {
    var s := PrimaryLine(file, line, column, ws1, category, codeRest, ws2, message);
    var a := |file|; var b := a + 1 + |line|; var c := b + 1 + |column|;
    var d := c + 1 + |ws1|; var e := d + 1 + |codeRest|; var m := e + 1 + |ws2|;
    PrimaryLineSplit(file, line, column, ws1, category, codeRest, ws2, message);
    PrimaryLineLayout(file, line, column, ws1, category, codeRest, ws2, message);
    AllInSlice(s, m, |s|, NotColon);
    if m < |s| {
      assert s[m] == message[0];
    }
    var q := PrimarySplit(a, b, c, d, e, m);
    MatchPrimaryUniqueGroups(s, q, PrimaryGroups(file, line, column, category, codeRest, message));
  }

  // ---------------------------------------------------------------------------
  // PATT_ALT: file:line:<ws>[L<digits><extra>]<ws>message
  // ---------------------------------------------------------------------------

  /** End positions: `fileEnd` and `lineEnd` hold the ':' after file and line;
      `open` holds '['; the code letter is at `open + 1` and its digits end at
      `codeEnd`; `close` holds ']'; `messageStart` is where the last whitespace
      run stops. */
  datatype AltSplit = AltSplit(
    fileEnd: nat, lineEnd: nat, open: nat, codeEnd: nat, close: nat, messageStart: nat)
  {
    function Rank(): seq<int> { [fileEnd, lineEnd, open, codeEnd, close, messageStart] }
  }

  predicate IsAltTail(s: string, q: AltSplit) {
    && q.fileEnd < q.lineEnd < q.open && q.open + 2 < q.codeEnd <= q.close < q.messageStart <= |s|
    && s[q.fileEnd] == ':'
    && q.fileEnd + 1 < q.lineEnd && AllIn(s, q.fileEnd + 1, q.lineEnd, Digit) && s[q.lineEnd] == ':'
    && AllIn(s, q.lineEnd + 1, q.open, Space) && s[q.open] == '['
    && IsUpper(s[q.open + 1]) && AllIn(s, q.open + 2, q.codeEnd, Digit)
    && AllIn(s, q.codeEnd, q.close, NotCloseBracket) && s[q.close] == ']'
    && AllIn(s, q.close + 1, q.messageStart, Space)
    && AllIn(s, q.messageStart, |s|, Dot)
  }

  /** `q` is one way in which PATT_ALT matches the whole of `s`. */
  predicate IsAltSplit(s: string, q: AltSplit) {
    IsAltTail(s, q) && AllIn(s, 0, q.fileEnd, Dot)
  }

  /** The positions each quantifier of PATT_ALT reaches after a file ending at `e1`
      when it takes all it can. */
  function GreedyAltTail(s: string, e1: nat): AltSplit {
    var e2 := e1 + 1 + RunFrom(s, e1 + 1, Digit);
    var o := e2 + 1 + RunFrom(s, e2 + 1, Space);
    var c := o + 2 + RunFrom(s, o + 2, Digit);
    var b := c + RunFrom(s, c, NotCloseBracket);
    var m := b + 1 + RunFrom(s, b + 1, Space);
    AltSplit(e1, e2, o, c, b, m)
  }

  /** The rest of PATT_ALT after a file ending at `e1`: it matches when the greedy
      positions form a split. */
  function AltTailAt(s: string, e1: nat): (r: Option<AltSplit>)
    ensures r.Some? ==> r.value.fileEnd == e1 && IsAltTail(s, r.value)
  {
    var q := GreedyAltTail(s, e1);
    if IsAltTail(s, q) then Some(q) else None
  }

  /** The line digits and the whitespace before '[' end where the greedy runs end;
      the greedy code digits take at least those of `q` but stop before its ']',
      and from there the first ']' is the one of `q`. */
  lemma AltRunsExact(s: string, q: AltSplit)
    requires IsAltTail(s, q)
    ensures q.fileEnd + 1 + RunFrom(s, q.fileEnd + 1, Digit) == q.lineEnd
    ensures q.lineEnd + 1 + RunFrom(s, q.lineEnd + 1, Space) == q.open
    ensures var c := q.open + 2 + RunFrom(s, q.open + 2, Digit);
      && q.codeEnd <= c <= q.close
      && AllIn(s, q.open + 2, c, Digit)
      && c + RunFrom(s, c, NotCloseBracket) == q.close
  {
    RunFromExact(s, q.fileEnd + 1, q.lineEnd, Digit);
    RunFromExact(s, q.lineEnd + 1, q.open, Space);
    RunFromAtLeast(s, q.open + 2, q.codeEnd, Digit);
    RunFromProps(s, q.open + 2, Digit);
    var c := q.open + 2 + RunFrom(s, q.open + 2, Digit);
    assert c <= q.close by {
      assert !In(s[q.close], Digit);
    }
    RunFromExact(s, c, q.close, NotCloseBracket);
  }

  lemma GreedyAltTailBy(s: string, e1: nat, e2: nat, o: nat, c: nat, b: nat)
    requires e1 + 1 + RunFrom(s, e1 + 1, Digit) == e2
    requires e2 + 1 + RunFrom(s, e2 + 1, Space) == o
    requires o + 2 + RunFrom(s, o + 2, Digit) == c
    requires c + RunFrom(s, c, NotCloseBracket) == b
    ensures GreedyAltTail(s, e1) == AltSplit(e1, e2, o, c, b, b + 1 + RunFrom(s, b + 1, Space))
  {
  }

  /** The code digits may be extended up to `c` (digits are not ']'), and the
      whitespace after ']' as far as the greedy run goes. */
  lemma AltStretch(s: string, q: AltSplit, c: nat)
    requires IsAltTail(s, q)
    requires q.codeEnd <= c <= q.close && AllIn(s, q.open + 2, c, Digit)
    ensures var m := q.close + 1 + RunFrom(s, q.close + 1, Space);
      m >= q.messageStart && IsAltTail(s, q.(codeEnd := c, messageStart := m))
  {
    RunFromAtLeast(s, q.close + 1, q.messageStart, Space);
    RunFromProps(s, q.close + 1, Space);
  }

  /** Given where the file ends, the greedy code digits take at least the digits of
      any other split; when they take the same, the rest is fixed except that the
      last whitespace run takes all the whitespace it can. */
  lemma AltTailAtComplete(s: string, q: AltSplit)
    requires IsAltTail(s, q)
    ensures var r := AltTailAt(s, q.fileEnd);
      && r.Some?
      && r.value.lineEnd == q.lineEnd && r.value.open == q.open
      && r.value.codeEnd >= q.codeEnd
      && (r.value.codeEnd == q.codeEnd ==> r.value.close == q.close && r.value.messageStart >= q.messageStart)
  {
    var c := q.open + 2 + RunFrom(s, q.open + 2, Digit);
    var m := q.close + 1 + RunFrom(s, q.close + 1, Space);
    GreedyAltTailOf(s, q);
    AltStretch(s, q, c);
    assert AltTailAt(s, q.fileEnd) == Some(q.(codeEnd := c, messageStart := m));
  }

  lemma GreedyAltTailOf(s: string, q: AltSplit)
    requires IsAltTail(s, q)
    ensures var c := q.open + 2 + RunFrom(s, q.open + 2, Digit);
      && q.codeEnd <= c <= q.close && AllIn(s, q.open + 2, c, Digit)
      && GreedyAltTail(s, q.fileEnd) == q.(codeEnd := c, messageStart := q.close + 1 + RunFrom(s, q.close + 1, Space))
  {
    AltRunsExact(s, q);
    var c := q.open + 2 + RunFrom(s, q.open + 2, Digit);
    GreedyAltTailBy(s, q.fileEnd, q.lineEnd, q.open, c, q.close);
  }

  predicate AltFileEnd(s: string, k: nat) {
    AllIn(s, 0, k, Dot) && AltTailAt(s, k).Some?
  }

  /** The split `s.match(PATT_ALT)` reports, or None when it returns null. */
  function MatchAltSplit(s: string): (r: Option<AltSplit>)
    ensures r.Some? ==> IsAltSplit(s, r.value)
  {
    match LastWhere(|s|, (k: nat) => AltFileEnd(s, k))
    case None => None
    case Some(k) => AltTailAt(s, k)
  }

  /** MatchAltSplit is how `s.match(PATT_ALT)` decides: it succeeds whenever PATT_ALT
      can match `s`, and the split it reports ranks first in backtracking order. */
  lemma MatchAltIsFirstMatch(s: string, q: AltSplit)
    requires IsAltSplit(s, q)
    ensures MatchAltSplit(s).Some?
    ensures RankLeq(q.Rank(), MatchAltSplit(s).value.Rank())
  {
    AltTailAtComplete(s, q);
    var p := (k: nat) => AltFileEnd(s, k);
    assert p(q.fileEnd);
    var r := MatchAltSplit(s).value;
    assert r.fileEnd >= q.fileEnd;
    if r.fileEnd > q.fileEnd {
      RankLeqAt(q.Rank(), r.Rank(), 0);
    } else if r.codeEnd > q.codeEnd {
      RankLeqAt(q.Rank(), r.Rank(), 3);
    } else if r.messageStart > q.messageStart {
      RankLeqAt(q.Rank(), r.Rank(), 5);
    } else {
      RankLeqAt(q.Rank(), r.Rank(), 6);
    }
  }

  /** The capture groups of PATT_ALT; `code` is `[A-Z]\d+`. */
  datatype AltGroups = AltGroups(file: string, line: string, code: string, message: string)

  function AltGroupsOf(s: string, q: AltSplit): (g: AltGroups)
    requires IsAltSplit(s, q)
    ensures All(g.line, Digit) && |g.line| > 0
    ensures |g.code| >= 2 && IsUpper(g.code[0]) && All(g.code[1..], Digit)
    ensures All(g.message, Dot)
  {
    AltGroups(s[..q.fileEnd], s[q.fileEnd + 1..q.lineEnd], s[q.open + 1..q.codeEnd], s[q.messageStart..])
  }

  /** `s.match(PATT_ALT)`: the groups, or None for null. */
  function MatchAlt(s: string): Option<AltGroups> {
    match MatchAltSplit(s)
    case None => None
    case Some(q) => Some(AltGroupsOf(s, q))
  }

  // ---------------------------------------------------------------------------
  // code tag: the text between the last '(' and a ')' that ends the message
  // ---------------------------------------------------------------------------

  /** Group 1 of `/.*\(([^\(\)]*)\)$/`, or None when it does not match. The match
      may start at its '(' (the leading `.*` may be empty), so line terminators
      before it do not matter. */
  function MatchCodeTag(msg: string): Option<string> {
    var n := |msg|;
    if n == 0 || msg[n - 1] != ')' then None
    else
      RunBeforeProps(msg, n - 1, NotParen);
      var j := n - 1 - RunBefore(msg, n - 1, NotParen);
      if j == 0 || msg[j - 1] != '(' then None else Some(msg[j..n - 1])
  }

  /** Whatever the tag matcher returns stands between a '(' and the closing ')'
      at the very end, and holds no parenthesis. */
  lemma MatchCodeTagSound(msg: string)
    requires MatchCodeTag(msg).Some?
    ensures var t := MatchCodeTag(msg).value;
      All(t, NotParen) && EndsWith(msg, "(" + t + ")")
  {
    var n := |msg|;
    RunBeforeProps(msg, n - 1, NotParen);
    var j := n - 1 - RunBefore(msg, n - 1, NotParen);
    assert 0 < j < n && msg[j - 1] == '(' && msg[n - 1] == ')';
    var t := msg[j..n - 1];
    assert MatchCodeTag(msg).value == t;
    AllInSlice(msg, j, n - 1, NotParen);
    Bracketed(msg, j);
  }

  /** The tail of `s` from `j - 1` is its element there, the middle, and its last element. */
  lemma Bracketed<T>(s: seq<T>, j: nat)
    requires 0 < j < |s|
    ensures s[j - 1..] == [s[j - 1]] + s[j..|s| - 1] + [s[|s| - 1]]
  {
  }

  /** A message that ends with a parenthesised text free of parentheses has that
      text as its tag, whatever comes before. */
  lemma MatchCodeTagComplete(pre: string, t: string)
    requires All(t, NotParen)
    ensures MatchCodeTag(pre + "(" + t + ")") == Some(t)
  {
    var msg := pre + "(" + t + ")";
    var n := |msg|;
    assert msg[n - 1] == ')';
    assert forall i :: 0 <= i < |t| ==> msg[|pre| + 1 + i] == t[i];
    assert AllIn(msg, |pre| + 1, n - 1, NotParen) by {
      forall i | |pre| + 1 <= i < n - 1 ensures In(msg[i], NotParen) {
        assert msg[|pre| + 1 + (i - |pre| - 1)] == t[i - |pre| - 1];
      }
    }
    assert msg[|pre|] == '(';
    RunBeforeExact(msg, |pre| + 1, n - 1, NotParen);
    assert msg[|pre| + 1..n - 1] == t;
  }
}
