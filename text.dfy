/**
 * Character classes and string helpers with JavaScript's meaning: the `\s` class
 * of a RegExp, the code points `.` refuses, `String.prototype.trim`, and the
 * decimal value `Number(...)` gives a string of ASCII digits.
 */
module Text {

  /** JavaScript WhiteSpace and LineTerminator code points: what `\s` matches and `trim` removes. */
  predicate IsSpace(c: char) {
    || c == ' ' || c == '\t' || c == '\n' || c == '\r' || c == '\U{000B}' || c == '\U{000C}'
    || c == '\U{00A0}' || c == '\U{1680}' || ('\U{2000}' <= c <= '\U{200A}')
    || c == '\U{2028}' || c == '\U{2029}' || c == '\U{202F}' || c == '\U{205F}'
    || c == '\U{3000}' || c == '\U{FEFF}'
  }

  /** The code points a RegExp `.` does not match (no `s` flag). */
  predicate IsLineTerminator(c: char) {
    c == '\n' || c == '\r' || c == '\U{2028}' || c == '\U{2029}'
  }

  /** `\d`: an ASCII digit. */
  predicate IsDigit(c: char) { '0' <= c <= '9' }

  /** `[A-Z]`. */
  predicate IsUpper(c: char) { 'A' <= c <= 'Z' }

  /** The character classes the patterns of this extension use. */
  datatype CharClass =
    | Space            // \s
    | Dot              // .
    | Digit            // \d
    | NotColon         // [^:]
    | NotCloseBracket  // [^\]]
    | NotParen         // [^\(\)]

  predicate In(c: char, k: CharClass) {
    match k
    case Space => IsSpace(c)
    case Dot => !IsLineTerminator(c)
    case Digit => IsDigit(c)
    case NotColon => c != ':'
    case NotCloseBracket => c != ']'
    case NotParen => c != '(' && c != ')'
  }

  /** Every character of `s` is in the class `k`. */
  predicate All(s: string, k: CharClass) {
    forall i {:trigger In(s[i], k)} :: 0 <= i < |s| ==> In(s[i], k)
  }

  /** Every character of `s[lo..hi]` is in the class `k`. */
  predicate AllIn(s: string, lo: int, hi: int, k: CharClass) {
    forall i {:trigger In(s[i], k)} :: lo <= i < hi && 0 <= i < |s| ==> In(s[i], k)
  }

  predicate StartsWith(s: string, prefix: string) {
    |prefix| <= |s| && s[..|prefix|] == prefix
  }

  predicate EndsWith(s: string, suffix: string) {
    |suffix| <= |s| && s[|s| - |suffix|..] == suffix
  }

  lemma StartsWithConcat(a: string, b: string)
    ensures StartsWith(a + b, a)
  {
    assert (a + b)[..|a|] == a;
  }

  /** A slice all of class `k` is a range of `s` all of class `k`, and back. */
  lemma AllInSlice(s: string, lo: nat, hi: nat, k: CharClass)
    requires lo <= hi <= |s|
    ensures All(s[lo..hi], k) <==> AllIn(s, lo, hi, k)
  {
    if All(s[lo..hi], k) {
      forall i | lo <= i < hi ensures In(s[i], k) {
        assert s[lo..hi][i - lo] == s[i];
      }
    }
    if AllIn(s, lo, hi, k) {
      forall i | 0 <= i < hi - lo ensures In(s[lo..hi][i], k) {
        assert s[lo..hi][i] == s[lo + i];
      }
    }
  }

  /** How many characters of class `k` start at position `i`: what a greedy `k*`
      there consumes. Its properties are the lemmas below, so that a term mentioning
      it stays cheap for the verifier. */
  function RunFrom(s: string, i: nat, k: CharClass): nat
    decreases |s| - i
  {
    if i >= |s| || !In(s[i], k) then 0 else 1 + RunFrom(s, i + 1, k)
  }

  /** The run stays inside `s`, is all of class `k`, and stops at a character outside `k`. */
  lemma {:induction false} RunFromProps(s: string, i: nat, k: CharClass)
    ensures i + RunFrom(s, i, k) <= |s| || RunFrom(s, i, k) == 0
    ensures AllIn(s, i, i + RunFrom(s, i, k), k)
    ensures i + RunFrom(s, i, k) < |s| ==> !In(s[i + RunFrom(s, i, k)], k)
    decreases |s| - i
  {
    if i < |s| && In(s[i], k) {
      RunFromProps(s, i + 1, k);
    }
  }

  /** A run of class `k` that stops at a character outside `k` (or at the end) is
      exactly what the greedy run takes. */
  lemma {:induction false} RunFromExact(s: string, i: nat, j: nat, k: CharClass)
    requires i <= j <= |s| && AllIn(s, i, j, k) && (j < |s| ==> !In(s[j], k))
    ensures RunFrom(s, i, k) == j - i
    decreases j - i
  {
    if i < j {
      assert In(s[i], k);
      RunFromExact(s, i + 1, j, k);
    }
  }

  /** The greedy run is at least as long as any run of its class at the same place. */
  lemma {:induction false} RunFromAtLeast(s: string, i: nat, j: nat, k: CharClass)
    requires i <= j <= |s| && AllIn(s, i, j, k)
    ensures RunFrom(s, i, k) >= j - i
    decreases j - i
  {
    if i < j {
      assert In(s[i], k);
      RunFromAtLeast(s, i + 1, j, k);
    }
  }

  /** How many characters of class `k` end just before position `hi`. */
  function RunBefore(s: string, hi: nat, k: CharClass): nat
    requires hi <= |s|
  {
    if hi == 0 || !In(s[hi - 1], k) then 0 else 1 + RunBefore(s, hi - 1, k)
  }

  lemma {:induction false} RunBeforeProps(s: string, hi: nat, k: CharClass)
    requires hi <= |s|
    ensures RunBefore(s, hi, k) <= hi
    ensures AllIn(s, hi - RunBefore(s, hi, k), hi, k)
    ensures RunBefore(s, hi, k) < hi ==> !In(s[hi - RunBefore(s, hi, k) - 1], k)
  {
    if hi > 0 && In(s[hi - 1], k) {
      RunBeforeProps(s, hi - 1, k);
    }
  }

  /** A run of class `k` ending at `hi` that starts after a character outside `k`
      (or at the start) is exactly what RunBefore takes. */
  lemma {:induction false} RunBeforeExact(s: string, j: nat, hi: nat, k: CharClass)
    requires j <= hi <= |s| && AllIn(s, j, hi, k) && (j > 0 ==> !In(s[j - 1], k))
    ensures RunBefore(s, hi, k) == hi - j
    decreases hi - j
  {
    if j < hi {
      assert In(s[hi - 1], k);
      RunBeforeExact(s, j, hi - 1, k);
    }
  }

  /** `String.prototype.trim`: drop leading and trailing whitespace. */
  function Trim(s: string): (r: string)
    ensures |r| <= |s|
    ensures r == [] || (!IsSpace(r[0]) && !IsSpace(r[|r| - 1]))
    ensures r == [] <==> All(s, Space)
  {
    RunFromProps(s, 0, Space);
    var lead := RunFrom(s, 0, Space);
    if lead == |s| then []
    else
      RunBeforeProps(s, |s|, Space);
      var trail := RunBefore(s, |s|, Space);
      assert |s| - trail > lead;
      assert !All(s, Space) by { assert !In(s[lead], Space); }
      s[lead..|s| - trail]
  }

  /** Trimming removes exactly the whitespace padding around a text that has none at its ends. */
  lemma TrimPadded(a: string, t: string, b: string)
    requires All(a, Space) && All(b, Space)
    requires t == [] || (!IsSpace(t[0]) && !IsSpace(t[|t| - 1]))
    ensures Trim(a + t + b) == t
  {
    var s := a + t + b;
    assert forall i :: 0 <= i < |a| ==> s[i] == a[i];
    assert forall i :: 0 <= i < |b| ==> s[|a| + |t| + i] == b[i];
    if t == [] {
      assert All(s, Space) by {
        forall i | 0 <= i < |s| ensures In(s[i], Space) {
          if i >= |a| { assert s[|a| + |t| + (i - |a|)] == b[i - |a|]; }
        }
      }
    } else {
      assert s[|a|] == t[0];
      assert s[|a| + |t| - 1] == t[|t| - 1];
      RunFromExact(s, 0, |a|, Space);
      assert AllIn(s, |a| + |t|, |s|, Space) by {
        forall i | |a| + |t| <= i < |s| ensures In(s[i], Space) {
          assert s[|a| + |t| + (i - |a| - |t|)] == b[i - |a| - |t|];
        }
      }
      RunBeforeExact(s, |a| + |t|, |s|, Space);
      assert s[|a|..|s| - |b|] == t;
    }
  }

  /** `s.replace(/\n$/, "")`: remove one trailing line feed, if there is one. */
  function StripTrailingNewline(s: string): (r: string)
    ensures r == s || r + "\n" == s
    ensures r + "\n" == s <==> EndsWith(s, "\n")
  {
    if |s| > 0 && s[|s| - 1] == '\n' then s[..|s| - 1] else s
  }

  /** `Number(d)` for a string of ASCII digits. */
  function DecimalValue(d: string): nat
    requires All(d, Digit)
  {
    if |d| == 0 then 0
    else
      var init := d[..|d| - 1];
      assert In(d[|d| - 1], Digit);
      assert All(init, Digit) by {
        forall i | 0 <= i < |init| ensures In(init[i], Digit) {
          assert init[i] == d[i] && In(d[i], Digit);
        }
      }
      10 * DecimalValue(init) + (d[|d| - 1] as int - '0' as int)
  }
}
