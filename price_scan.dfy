/**
 * The price scanner of the product normaliser: the leftmost match of the
 * regular expression `[\d,]+\.?\d*` in a free-form price string, with its
 * commas removed, converted by Python's `float`.
 *
 * The scanner (`SearchPattern`) is written the way a backtracking regex engine
 * finds the match: the first position holding a digit or a comma, then the
 * greedy run of digits and commas, an optional dot and the greedy run of
 * digits. It is proved against an independent reference, a finite automaton
 * (`Matches`) for the language of the expression: the span found is the
 * leftmost position where any match starts, and the longest match there.
 */
module PriceScan {
  import opened Wrappers
  import opened Decimal

  /** The character class `[\d,]` (ASCII digits only). */
  predicate IsDigitOrComma(c: char) {
    IsDigit(c) || c == ','
  }

  // ---------------------------------------------------------------------------
  // Reference: an automaton for the language of `[\d,]+\.?\d*`
  // ---------------------------------------------------------------------------

  /** Initial: nothing read; Grouped: inside `[\d,]+`; Fraction: after the dot. */
  datatype State = Initial | Grouped | Fraction | Rejected

  function Step(st: State, c: char): State {
    match st
    case Initial => if IsDigitOrComma(c) then Grouped else Rejected
    case Grouped => if IsDigitOrComma(c) then Grouped else if c == '.' then Fraction else Rejected
    case Fraction => if IsDigit(c) then Fraction else Rejected
    case Rejected => Rejected
  }

  function Consume(st: State, m: string): State
    decreases |m|
  {
    if |m| == 0 then st else Consume(Step(st, m[0]), m[1..])
  }

  /** `m` belongs to the language of `[\d,]+\.?\d*`. */
  predicate Matches(m: string) {
    Consume(Initial, m) == Grouped || Consume(Initial, m) == Fraction
  }

  lemma {:induction false} ConsumeAppend(st: State, a: string, b: string)
    ensures Consume(st, a + b) == Consume(Consume(st, a), b)
    decreases |a|
  {
    if |a| == 0 {
      assert a + b == b;
    } else {
      assert (a + b)[0] == a[0] && (a + b)[1..] == a[1..] + b;
      ConsumeAppend(Step(st, a[0]), a[1..], b);
    }
  }

  lemma {:induction false} RejectedIsFinal(m: string)
    ensures Consume(Rejected, m) == Rejected
  {
    if |m| > 0 {
      RejectedIsFinal(m[1..]);
    }
  }

  lemma {:induction false} ConsumeGroup(m: string)
    requires forall k :: 0 <= k < |m| ==> IsDigitOrComma(m[k])
    ensures Consume(Grouped, m) == Grouped
  {
    if |m| > 0 {
      ConsumeGroup(m[1..]);
    }
  }

  lemma {:induction false} ConsumeFraction(m: string)
    requires IsDigits(m)
    ensures Consume(Fraction, m) == Fraction
  {
    if |m| > 0 {
      ConsumeFraction(m[1..]);
    }
  }

  /** Every match begins with a digit or a comma; in particular none is empty. */
  lemma {:induction false} MatchStartsWithGroupChar(s: string, k: nat, l: nat)
    requires k <= l <= |s| && Matches(s[k..l])
    ensures k < l && IsDigitOrComma(s[k])
  {
    var m := s[k..l];
    if |m| > 0 && !IsDigitOrComma(m[0]) {
      RejectedIsFinal(m[1..]);
    }
  }

  // ---------------------------------------------------------------------------
  // The scanner
  // ---------------------------------------------------------------------------

  /** End of the greedy run of `[\d,]` starting at `i`. */
  function SkipGroup(s: string, i: nat): (j: nat)
    requires i <= |s|
    ensures i <= j <= |s|
    ensures forall k :: i <= k < j ==> IsDigitOrComma(s[k])
    ensures j < |s| ==> !IsDigitOrComma(s[j])
    decreases |s| - i
  {
    if i < |s| && IsDigitOrComma(s[i]) then SkipGroup(s, i + 1) else i
  }

  /** End of the greedy run of `\d` starting at `i`. */
  function SkipDigits(s: string, i: nat): (j: nat)
    requires i <= |s|
    ensures i <= j <= |s|
    ensures forall k :: i <= k < j ==> IsDigit(s[k])
    ensures j < |s| ==> !IsDigit(s[j])
    decreases |s| - i
  {
    if i < |s| && IsDigit(s[i]) then SkipDigits(s, i + 1) else i
  }

  /** End of the greedy match `[\d,]+\.?\d*` that starts at `i`. */
  function MatchEnd(s: string, i: nat): (j: nat)
    requires i <= |s|
    ensures i <= j <= |s|
    ensures i < |s| && IsDigitOrComma(s[i]) ==> i < j
  {
    var g := SkipGroup(s, i);
    if g < |s| && s[g] == '.' then SkipDigits(s, g + 1) else g
  }

  /** The first position at or after `i` that holds a digit or a comma. */
  function FirstCandidate(s: string, i: nat): (r: Option<nat>)
    requires i <= |s|
    ensures r.Some? ==> i <= r.value < |s| && IsDigitOrComma(s[r.value])
    ensures forall k :: i <= k < |s| && (r.None? || k < r.value) ==> !IsDigitOrComma(s[k])
    decreases |s| - i
  {
    if i == |s| then None
    else if IsDigitOrComma(s[i]) then Some(i)
    else FirstCandidate(s, i + 1)
  }

  /** A half-open range `[start, end)` of positions of a string. */
  datatype Span = Span(start: nat, end: nat)

  /** `re.search(r"[\d,]+\.?\d*", s)`: the span of the match, if any. */
  function SearchPattern(s: string): (r: Option<Span>)
    ensures r.Some? ==> r.value.start < r.value.end <= |s|
  {
    match FirstCandidate(s, 0)
    case None => None
    case Some(i) => Some(Span(i, MatchEnd(s, i)))
  }

  /** The greedy run of `[\d,]` from a digit or comma leaves the automaton in Grouped. */
  lemma {:induction false} GroupState(s: string, i: nat)
    requires i < |s| && IsDigitOrComma(s[i])
    ensures i < SkipGroup(s, i) && Consume(Initial, s[i..SkipGroup(s, i)]) == Grouped
  {
    var g := SkipGroup(s, i);
    var m := s[i..g];
    assert m[0] == s[i] && m[1..] == s[i + 1..g];
    ConsumeGroup(s[i + 1..g]);
  }

  /** A dot followed by digits moves the automaton from Grouped to Fraction. */
  lemma {:induction false} FractionState(s: string, g: nat, j: nat)
    requires g < j <= |s| && s[g] == '.'
    requires forall k :: g < k < j ==> IsDigit(s[k])
    ensures Consume(Grouped, s[g..j]) == Fraction
  {
    var m := s[g..j];
    assert m[0] == '.' && m[1..] == s[g + 1..j];
    ConsumeFraction(m[1..]);
  }

  /** The greedy match starting at a digit or comma is accepted by the automaton. */
  lemma {:induction false} MatchEndState(s: string, i: nat)
    requires i < |s| && IsDigitOrComma(s[i])
    ensures i < MatchEnd(s, i) <= |s|
    ensures var g := SkipGroup(s, i);
            Consume(Initial, s[i..MatchEnd(s, i)])
              == if g < |s| && s[g] == '.' then Fraction else Grouped
  {
    var g := SkipGroup(s, i);
    GroupState(s, i);
    if g < |s| && s[g] == '.' {
      var j := SkipDigits(s, g + 1);
      FractionState(s, g, j);
      assert s[i..j] == s[i..g] + s[g..j];
      ConsumeAppend(Initial, s[i..g], s[g..j]);
    }
  }

  /** No match starting at `i` extends past the greedy match. */
  lemma {:induction false} MatchEndLongest(s: string, i: nat, l: nat)
    requires i < |s| && IsDigitOrComma(s[i])
    requires MatchEnd(s, i) < l <= |s|
    ensures !Matches(s[i..l])
  {
    var j := MatchEnd(s, i);
    MatchEndState(s, i);
    assert s[i..l] == s[i..j] + ([s[j]] + s[j + 1..l]);
    ConsumeAppend(Initial, s[i..j], [s[j]] + s[j + 1..l]);
    var st := Consume(Initial, s[i..j]);
    assert Step(st, s[j]) == Rejected;
    RejectedIsFinal(s[j + 1..l]);
  }

  /**
   * `SearchPattern` has the semantics of `re.search`: it finds a span exactly
   * when some substring matches; its span matches; no substring starting
   * further left matches; and among the matches at its start it is the longest,
   * which for this expression is what the greedy quantifiers select.
   */
  lemma {:induction false} SearchPatternIsLeftmostLongest(s: string)
    ensures SearchPattern(s).None? ==>
              forall k, l :: 0 <= k <= l <= |s| ==> !Matches(s[k..l])
    ensures SearchPattern(s).Some? ==>
              var sp := SearchPattern(s).value;
              sp.start < sp.end <= |s| && Matches(s[sp.start..sp.end]) &&
              (forall k, l :: 0 <= k < sp.start && k <= l <= |s| ==> !Matches(s[k..l])) &&
              (forall l :: sp.end < l <= |s| ==> !Matches(s[sp.start..l]))
  {
    var first := FirstCandidate(s, 0);
    forall k, l | 0 <= k <= l <= |s| && (first.None? || k < first.value)
      ensures !Matches(s[k..l])
    {
      if Matches(s[k..l]) {
        MatchStartsWithGroupChar(s, k, l);
      }
    }
    if first.Some? {
      var i := first.value;
      MatchEndState(s, i);
      forall l | MatchEnd(s, i) < l <= |s|
        ensures !Matches(s[i..l])
      {
        MatchEndLongest(s, i, l);
      }
    }
  }

  // ---------------------------------------------------------------------------
  // Conversion of the match to a number
  // ---------------------------------------------------------------------------

  /** `m.replace(",", "")`. */
  function RemoveCommas(m: string): string {
    if |m| == 0 then ""
    else (if m[0] == ',' then "" else [m[0]]) + RemoveCommas(m[1..])
  }

  /** Position of the first dot of `t`, or `|t|` when there is none. */
  function DotIndex(t: string): (d: nat)
    ensures d <= |t|
    ensures d < |t| ==> t[d] == '.'
    ensures forall k :: 0 <= k < d ==> t[k] != '.'
  {
    if |t| == 0 then 0
    else if t[0] == '.' then 0
    else 1 + DotIndex(t[1..])
  }

  /** A parsed price: no number in the text, a number, or a failed conversion. */
  datatype ParsedPrice = NoPrice | Price(value: real) | NotANumber

  /**
   * Python's `float(t)` on decimal literals `digits[.digits]` with at least one
   * digit; everything else (here: the empty text and a lone dot) raises.
   * Values are exact: IEEE rounding is not modelled.
   */
  function FloatOf(t: string): ParsedPrice {
    var d := DotIndex(t);
    var whole := t[..d];
    var frac := if d < |t| then t[d + 1..] else "";
    if IsDigits(whole) && IsDigits(frac) && |whole| + |frac| > 0 then
      Price(ParseNat(whole) as real + ParseNat(frac) as real / Pow10(|frac|) as real)
    else
      NotANumber
  }

  /** Lines 28-29 of the normaliser: the price of a raw price string. */
  function ParsePrice(s: string): ParsedPrice {
    match SearchPattern(s)
    case None => NoPrice
    case Some(sp) => FloatOf(RemoveCommas(s[sp.start..sp.end]))
  }

  lemma {:induction false} RemoveCommasAppend(a: string, b: string)
    ensures RemoveCommas(a + b) == RemoveCommas(a) + RemoveCommas(b)
  {
    if |a| == 0 {
      assert a + b == b;
    } else {
      assert (a + b)[0] == a[0] && (a + b)[1..] == a[1..] + b;
      RemoveCommasAppend(a[1..], b);
    }
  }

  lemma {:induction false} RemoveCommasOfDigits(m: string)
    requires IsDigits(m)
    ensures RemoveCommas(m) == m
  {
    if |m| > 0 {
      RemoveCommasOfDigits(m[1..]);
    }
  }

  lemma {:induction false} RemoveCommasNoComma(m: string)
    requires forall k :: 0 <= k < |m| ==> m[k] != ','
    ensures RemoveCommas(m) == m
  {
    if |m| > 0 {
      assert forall k :: 0 <= k < |m[1..]| ==> m[1..][k] == m[k + 1];
      RemoveCommasNoComma(m[1..]);
      assert m == [m[0]] + m[1..];
    }
  }

  /** Removing the commas of a `[\d,]` run leaves its digits, and nothing when it has none. */
  lemma {:induction false} RemoveCommasOfGroup(m: string)
    requires forall k :: 0 <= k < |m| ==> IsDigitOrComma(m[k])
    ensures IsDigits(RemoveCommas(m))
    ensures |RemoveCommas(m)| == 0 <==> forall k :: 0 <= k < |m| ==> !IsDigit(m[k])
  {
    if |m| > 0 {
      RemoveCommasOfGroup(m[1..]);
      var rest := RemoveCommas(m[1..]);
      assert forall k :: 1 <= k < |m| ==> m[1..][k - 1] == m[k];
      if m[0] != ',' {
        assert RemoveCommas(m) == [m[0]] + rest;
      }
    }
  }

  /** Whether the span `[i, j)` of `s` holds a digit. */
  predicate HasDigitIn(s: string, i: nat, j: nat)
    requires i <= j <= |s|
  {
    exists k :: i <= k < j && IsDigit(s[k])
  }

  /** `float` of a comma-free `[\d,]` run: fails exactly when the run holds no digit. */
  lemma {:induction false} FloatOfGroup(s: string, i: nat, g: nat)
    requires i <= g <= |s|
    requires forall k :: i <= k < g ==> IsDigitOrComma(s[k])
    ensures FloatOf(RemoveCommas(s[i..g])) == NotANumber <==> !HasDigitIn(s, i, g)
  {
    RemoveCommasOfGroup(s[i..g]);
    var w := RemoveCommas(s[i..g]);
    assert forall k :: i <= k < g ==> s[i..g][k - i] == s[k];
    assert DotIndex(w) == |w| by {
      var d := DotIndex(w);
      if d < |w| { assert false; }
    }
    assert w[..|w|] == w;
  }

  /** `float` of `digits.digits` fails exactly when both parts are empty. */
  lemma {:induction false} FloatOfDotted(w: string, f: string)
    requires IsDigits(w) && IsDigits(f)
    ensures FloatOf(w + ['.'] + f) == NotANumber <==> |w| + |f| == 0
  {
    var t := w + ['.'] + f;
    assert t[|w|] == '.';
    assert DotIndex(t) == |w|;
    assert t[..|w|] == w && t[|w| + 1..] == f;
  }

  /** Removing the commas of a run, a dot and digits keeps the dot and the digits. */
  lemma {:induction false} RemoveCommasOfFraction(s: string, i: nat, g: nat, j: nat)
    requires i <= g < j <= |s| && s[g] == '.'
    requires forall k :: g < k < j ==> IsDigit(s[k])
    ensures RemoveCommas(s[i..j]) == RemoveCommas(s[i..g]) + ['.'] + s[g + 1..j]
  {
    var f := s[g + 1..j];
    assert IsDigits(f);
    assert s[i..j] == s[i..g] + ([s[g]] + f);
    RemoveCommasAppend(s[i..g], [s[g]] + f);
    RemoveCommasAppend([s[g]], f);
    RemoveCommasOfDigits(f);
    assert RemoveCommas([s[g]]) == ['.'];
  }

  /** `float` of a comma-free `[\d,]` run, a dot and digits: fails exactly when neither part holds a digit. */
  lemma {:induction false} FloatOfFraction(s: string, i: nat, g: nat, j: nat)
    requires i <= g < j <= |s| && s[g] == '.'
    requires forall k :: i <= k < g ==> IsDigitOrComma(s[k])
    requires forall k :: g < k < j ==> IsDigit(s[k])
    ensures FloatOf(RemoveCommas(s[i..j])) == NotANumber <==> !HasDigitIn(s, i, j)
  {
    RemoveCommasOfGroup(s[i..g]);
    var w := RemoveCommas(s[i..g]);
    var f := s[g + 1..j];
    assert forall k :: i <= k < g ==> s[i..g][k - i] == s[k];
    RemoveCommasOfFraction(s, i, g, j);
    assert IsDigits(f);
    FloatOfDotted(w, f);
    if |f| > 0 { assert IsDigit(s[g + 1]); }
  }

  /** The conversion of the greedy match fails exactly when the match holds no digit. */
  lemma {:induction false} FloatOfMatch(s: string, i: nat)
    requires i < |s| && IsDigitOrComma(s[i])
    ensures var j := MatchEnd(s, i);
            i < j <= |s| &&
            (FloatOf(RemoveCommas(s[i..j])) == NotANumber <==> !HasDigitIn(s, i, j))
  {
    var g := SkipGroup(s, i);
    MatchEndState(s, i);
    if g < |s| && s[g] == '.' {
      FloatOfFraction(s, i, g, MatchEnd(s, i));
    } else {
      FloatOfGroup(s, i, g);
    }
  }

  /** The leftmost match of the price pattern holds no digit (only commas, possibly a dot). */
  predicate MatchHasNoDigit(s: string) {
    SearchPattern(s).Some? &&
    var sp := SearchPattern(s).value;
    !HasDigitIn(s, sp.start, sp.end)
  }

  /**
   * The outcomes of the price scan: no price exactly when the text holds no
   * digit and no comma; a failed conversion exactly when the leftmost match
   * holds no digit (it is made of commas, possibly with a dot); otherwise a
   * non-negative number.
   */
  lemma {:induction false} ParsePriceOutcomes(s: string)
    ensures ParsePrice(s) == NoPrice <==> forall k :: 0 <= k < |s| ==> !IsDigitOrComma(s[k])
    ensures ParsePrice(s) == NotANumber <==> MatchHasNoDigit(s)
    ensures ParsePrice(s).Price? ==> ParsePrice(s).value >= 0.0
  {
    var first := FirstCandidate(s, 0);
    if first.Some? {
      var i := first.value;
      var j := MatchEnd(s, i);
      FloatOfMatch(s, i);
      assert SearchPattern(s) == Some(Span(i, j));
      assert ParsePrice(s) == FloatOf(RemoveCommas(s[i..j]));
      assert IsDigitOrComma(s[i]);
      FloatOfNonNegative(RemoveCommas(s[i..j]));
    } else {
      assert SearchPattern(s) == None;
    }
  }

  /** `float` of a decimal literal without a sign is never negative. */
  lemma FloatOfNonNegative(t: string)
    ensures FloatOf(t).Price? ==> FloatOf(t).value >= 0.0
  {
    var d := DotIndex(t);
    var frac := if d < |t| then t[d + 1..] else "";
    if IsDigits(t[..d]) && IsDigits(frac) {
      var part := ParseNat(frac) as real;
      var scale := Pow10(|frac|) as real;
      assert part >= 0.0 && scale >= 1.0;
      assert part / scale >= 0.0;
    }
  }

  lemma {:induction false} ParseNatSnoc(a: string, c: char)
    requires IsDigits(a) && IsDigit(c)
    ensures IsDigits(a + [c]) && ParseNat(a + [c]) == ParseNat(a) * 10 + DigitValue(c)
  {
    assert (a + [c])[..|a|] == a;
  }

  lemma {:induction false} GroupedExampleMatch()
    ensures SearchPattern("$1,234.50") == Some(Span(1, 9))
  {
    var s := "$1,234.50";
    assert FirstCandidate(s, 0) == Some(1);
    assert SkipGroup(s, 1) == 6;
    assert SkipDigits(s, 7) == 9;
  }

  lemma {:induction false} GroupedExampleDigits()
    ensures IsDigits("1234") && ParseNat("1234") == 1234
    ensures IsDigits("50") && ParseNat("50") == 50
  {
    ParseNatSnoc("", '1');
    assert "" + ['1'] == "1";
    ParseNatSnoc("1", '2');
    assert "1" + ['2'] == "12";
    ParseNatSnoc("12", '3');
    assert "12" + ['3'] == "123";
    ParseNatSnoc("123", '4');
    assert "123" + ['4'] == "1234";
    ParseNatSnoc("", '5');
    assert "" + ['5'] == "5";
    ParseNatSnoc("5", '0');
    assert "5" + ['0'] == "50";
  }

  lemma {:induction false} GroupedExampleFloat()
    ensures FloatOf("1234.50") == Price(1234.5)
  {
    GroupedExampleDigits();
    var t := "1234.50";
    assert DotIndex(t) == 4;
    assert t[..4] == "1234" && t[5..] == "50";
    assert ParseNat("1234") == 1234 && ParseNat("50") == 50;
    assert Pow10(2) == 100 by { assert Pow10(1) == 10; }
    assert IsDigits("1234") && IsDigits("50");
  }

  /** Dropping the comma between two comma-free groups joins them. */
  lemma RemoveCommasJoin(a: string, b: string)
    requires forall k :: 0 <= k < |a| ==> a[k] != ','
    requires forall k :: 0 <= k < |b| ==> b[k] != ','
    ensures RemoveCommas(a + "," + b) == a + b
  {
    assert ","[0] == ',' && ","[1..] == "";
    assert RemoveCommas(",") == "";
    RemoveCommasAppend(a + ",", b);
    RemoveCommasAppend(a, ",");
    RemoveCommasNoComma(a);
    RemoveCommasNoComma(b);
    calc {
      RemoveCommas(a + "," + b);
      RemoveCommas(a + ",") + RemoveCommas(b);
      RemoveCommas(a) + RemoveCommas(",") + RemoveCommas(b);
      { assert a + "" == a; }
      a + b;
    }
  }

  lemma {:induction false} GroupedExampleCommas()
    ensures RemoveCommas("1,234.50") == "1234.50"
  {
    assert "1,234.50" == "1" + "," + "234.50";
    RemoveCommasJoin("1", "234.50");
    assert "1" + "234.50" == "1234.50";
  }

  /** `"$1,234.50"` parses to 1234.5: the commas are dropped. */
  lemma {:induction false} ParsePriceGroupedExample()
    ensures ParsePrice("$1,234.50") == Price(1234.5)
  {
    var s := "$1,234.50";
    GroupedExampleMatch();
    assert s[1..9] == "1,234.50";
    GroupedExampleCommas();
    GroupedExampleFloat();
  }

  lemma {:induction false} RangeExampleMatch()
    ensures SearchPattern("$10 - $20") == Some(Span(1, 3))
  {
    var s := "$10 - $20";
    assert FirstCandidate(s, 0) == Some(1);
    assert SkipGroup(s, 1) == 3;
  }

  lemma {:induction false} RangeExampleFloat()
    ensures FloatOf("10") == Price(10.0)
  {
    ParseNatSnoc("", '1');
    assert "" + ['1'] == "1";
    ParseNatSnoc("1", '0');
    assert "1" + ['0'] == "10";
    assert DotIndex("10") == 2;
    assert "10"[..2] == "10";
  }

  /** `"$10 - $20"` parses to 10: only the leftmost match is used. */
  lemma {:induction false} ParsePriceRangeExample()
    ensures ParsePrice("$10 - $20") == Price(10.0)
  {
    var s := "$10 - $20";
    RangeExampleMatch();
    assert s[1..3] == "10";
    assert RemoveCommas("10") == "10";
    RangeExampleFloat();
  }

  /** Texts without digits or commas have no price. */
  lemma {:induction false} ParsePriceNoNumberExamples()
    ensures ParsePrice("Free") == NoPrice
    ensures ParsePrice("") == NoPrice
  {
    ParsePriceOutcomes("Free");
    ParsePriceOutcomes("");
  }

  /** `"a, b"`: the leftmost match is a lone comma and `float("")` raises. */
  lemma {:induction false} ParsePriceCommaExample()
    ensures ParsePrice("a, b") == NotANumber
  {
    var s := "a, b";
    assert FirstCandidate(s, 0) == Some(1);
    assert SkipGroup(s, 1) == 2;
    ParsePriceOutcomes(s);
  }
}
