/**
 * The lab-report extractor of gout_analyzer.go: each non-blank line that the
 * lab-line pattern matches becomes one LabResult whose status is derived from
 * its value and reference bounds.
 */
module LabParser {
  import opened Wrappers
  import opened Strings
  import opened LabPattern
  import opened LabPatternFacts
  import opened Sequences

  /** 正常 / 偏高 / 偏低 */
  datatype Status = Normal | High | Low {
    function Label(): string {
      match this
      case Normal => "正常"
      case High => "偏高"
      case Low => "偏低"
    }
  }

  /** One measurement of a lab report. Values are exact decimals. */
  datatype LabResult = LabResult(
    parameter: string,
    value: real,
    unit: string,
    referenceMin: real,
    referenceMax: real,
    status: Status)

  /** The upper bound a `>X` notation is given: "no upper bound" in practice. */
  const UnboundedMax: real := 999999.0

  /** determineStatus: above a set upper bound is high, else below a set lower bound is low. */
  function DetermineStatus(value: real, referenceMin: real, referenceMax: real): (s: Status)
    ensures s == High <==> referenceMax > 0.0 && value > referenceMax
    ensures s == Low <==> !(referenceMax > 0.0 && value > referenceMax) && referenceMin > 0.0 && value < referenceMin
    ensures s == Normal <==> !(referenceMax > 0.0 && value > referenceMax) && !(referenceMin > 0.0 && value < referenceMin)
  {
    if referenceMax > 0.0 && value > referenceMax then High
    else if referenceMin > 0.0 && value < referenceMin then Low
    else Normal
  }

  /** Bounds are inclusive: a value on or between its bounds is normal. */
  lemma StatusWithinBounds(value: real, referenceMin: real, referenceMax: real)
    requires referenceMin <= value <= referenceMax
    ensures DetermineStatus(value, referenceMin, referenceMax) == Normal
  {
  }

  /** With no bound set (both 0), every value is normal, negative or huge. */
  lemma StatusWithoutBounds(value: real)
    ensures DetermineStatus(value, 0.0, 0.0) == Normal
  {
  }

  /** A lower bound of 0 never makes a value low, whatever the value. */
  lemma StatusZeroFloorNeverLow(value: real, referenceMax: real)
    ensures DetermineStatus(value, 0.0, referenceMax) != Low
  {
  }

  /** The value of a decimal digit (0 for any other character). */
  function DigitValue(c: char): nat {
    if IsDigit(c) then c as int - '0' as int else 0
  }

  /** The integer written by the digits `t[lo..hi]`. */
  function DigitsValue(t: string, lo: nat, hi: nat): nat
    requires lo <= hi <= |t|
    decreases hi - lo
  {
    if lo == hi then 0 else DigitsValue(t, lo, hi - 1) * 10 + DigitValue(t[hi - 1])
  }

  /** The fraction written by the digits `t[lo..hi]` after a decimal point. */
  function FractionValue(t: string, lo: nat, hi: nat): real
    requires lo <= hi <= |t|
    decreases hi - lo
  {
    if lo == hi then 0.0 else (DigitValue(t[lo]) as real + FractionValue(t, lo + 1, hi)) / 10.0
  }

  /** The exact value of a numeral `digits[.digits]`. */
  function DecimalValue(t: string): real
    requires IsNumeral(t)
  {
    var k := RunLength(t, Digits);
    var whole := DigitsValue(t, 0, k) as real;
    if k < |t| then whole + FractionValue(t, k + 1, |t|) else whole
  }

  /**
   * strconv.ParseFloat on the strings the pattern captures: it succeeds exactly
   * on numerals, with their exact value.
   */
  function ParseFloat(t: string): (r: Option<real>)
    ensures r.Some? <==> IsNumeral(t)
  {
    if IsNumeral(t) then Some(DecimalValue(t)) else None
  }

  /** A numeral without a fractional part denotes its digits' integer. */
  lemma ParseFloatInteger(t: string)
    requires t != [] && forall i :: 0 <= i < |t| ==> IsDigit(t[i])
    ensures ParseFloat(t) == Some(DigitsValue(t, 0, |t|) as real)
  {
    RunLengthAll(t, Digits);
  }

  /** Ten to the power `n`. */
  function Pow10(n: nat): (p: nat)
    ensures p >= 1
  {
    if n == 0 then 1 else 10 * Pow10(n - 1)
  }

  /** The number `whole.digits` whose fractional part `digits` has `count` places: `whole + digits / 10^count`. */
  function PointValue(whole: nat, digits: nat, count: nat): (v: real)
    ensures v >= whole as real
  {
    whole as real + digits as real / Pow10(count) as real
  }

  /** The integer written by a run of characters depends only on those characters. */
  lemma {:induction false} DigitsAgree(u: string, a: nat, ha: nat, v: string, b: nat, hb: nat)
    requires a <= ha <= |u| && b <= hb <= |v| && ha - a == hb - b
    requires u[a..ha] == v[b..hb]
    ensures DigitsValue(u, a, ha) == DigitsValue(v, b, hb)
    decreases ha - a
  {
    if a < ha {
      var m := ha - a;
      assert u[ha - 1] == u[a..ha][m - 1] == v[b..hb][m - 1] == v[hb - 1];
      assert u[a..ha - 1] == u[a..ha][..m - 1] == v[b..hb][..m - 1] == v[b..hb - 1];
      DigitsAgree(u, a, ha - 1, v, b, hb - 1);
    }
  }

  /** Read from the front, the first digit of `t[lo..hi]` counts `10^(hi - lo - 1)` times. */
  lemma {:induction false} DigitsFront(t: string, lo: nat, hi: nat)
    requires lo < hi <= |t|
    ensures DigitsValue(t, lo, hi) == DigitValue(t[lo]) * Pow10(hi - lo - 1) + DigitsValue(t, lo + 1, hi)
  {
    if hi > lo + 1 {
      DigitsFront(t, lo, hi - 1);
      var y, e := DigitsValue(t, lo, hi - 1), DigitValue(t[hi - 1]);
      assert DigitsValue(t, lo, hi) == y * 10 + e;
      assert DigitsValue(t, lo + 1, hi) == DigitsValue(t, lo + 1, hi - 1) * 10 + e;
      assert Pow10(hi - lo - 1) == Pow10(hi - lo - 2) * 10;
      ShiftDigit(y, DigitValue(t[lo]), Pow10(hi - lo - 2), DigitsValue(t, lo + 1, hi - 1), e);
    }
  }

  /** Appending a digit to `d * p + x` shifts both parts one place. */
  lemma ShiftDigit(y: int, d: int, p: int, x: int, e: int)
    requires y == d * p + x
    ensures y * 10 + e == d * (p * 10) + (x * 10 + e)
  {
  }

  /** The digits after a decimal point are worth their integer divided by ten to their count. */
  lemma {:induction false} FractionDigits(t: string, lo: nat, hi: nat)
    requires lo <= hi <= |t|
    ensures FractionValue(t, lo, hi) == DigitsValue(t, lo, hi) as real / Pow10(hi - lo) as real
    decreases hi - lo
  {
    if lo < hi {
      FractionDigits(t, lo + 1, hi);
      DigitsFront(t, lo, hi);
      var d, p, rest := DigitValue(t[lo]), Pow10(hi - lo - 1), DigitsValue(t, lo + 1, hi);
      assert FractionValue(t, lo, hi) == (d as real + FractionValue(t, lo + 1, hi)) / 10.0;
      assert Pow10(hi - lo) == 10 * p;
      ShiftFraction(DigitsValue(t, lo, hi), d, p, rest);
    }
  }

  /** Moving a digit `d` in front of the fraction `rest / p` divides by ten once more. */
  lemma ShiftFraction(v: int, d: int, p: int, rest: int)
    requires p > 0 && v == d * p + rest
    ensures (d as real + rest as real / p as real) / 10.0 == v as real / (10 * p) as real
  {
    assert v as real == d as real * p as real + rest as real;
  }

  /** A numeral `w.f` denotes the integer of `w` plus that of `f` over ten to the count of `f`. */
  lemma ParseFloatDecimal(w: string, f: string)
    requires w != [] && forall i :: 0 <= i < |w| ==> IsDigit(w[i])
    requires forall i :: 0 <= i < |f| ==> IsDigit(f[i])
    ensures ParseFloat(w + "." + f) == Some(PointValue(DigitsValue(w, 0, |w|), DigitsValue(f, 0, |f|), |f|))
  {
    var t := w + "." + f;
    assert t[..|w|] == w && t[|w|] == '.' && t[|w| + 1..] == f;
    CutNumeral(t, w, f);
    CutDigits(t, w, f);
    DecimalParts(t, |w|, DigitsValue(w, 0, |w|), DigitsValue(f, 0, |f|), |f|);
  }

  /** A string `t` cut at a point into digits `w` and `f` is a numeral whose run of digits is `w`. */
  lemma CutNumeral(t: string, w: string, f: string)
    requires w != [] && forall i :: 0 <= i < |w| ==> IsDigit(w[i])
    requires forall i :: 0 <= i < |f| ==> IsDigit(f[i])
    requires |t| == |w| + 1 + |f| && t[..|w|] == w && t[|w|] == '.' && t[|w| + 1..] == f
    ensures IsNumeral(t) && RunLength(t, Digits) == |w|
  {
    PrefixRun(t, w);
    RunLengthAll(f, Digits);
    PointNumeral(t, |w|);
  }

  /** In a string `t` cut at a point into `w` and `f`, the two integers are those of `w` and `f`. */
  lemma CutDigits(t: string, w: string, f: string)
    requires |t| == |w| + 1 + |f| && t[..|w|] == w && t[|w| + 1..] == f
    ensures DigitsValue(t, 0, |w|) == DigitsValue(w, 0, |w|)
    ensures DigitsValue(t, |w| + 1, |t|) == DigitsValue(f, 0, |f|)
  {
    PrefixDigits(t, w);
    SuffixDigits(t, |w| + 1, f);
  }

  /** A run of digits filling a prefix `w` of `t` and stopped by a point ends there. */
  lemma PrefixRun(t: string, w: string)
    requires forall i :: 0 <= i < |w| ==> IsDigit(w[i])
    requires |w| < |t| && t[..|w|] == w && t[|w|] == '.'
    ensures RunLength(t, Digits) == |w|
  {
    assert t == w + t[|w|..];
    RunLengthAll(w, Digits);
    RunLengthConcat(w, t[|w|..], Digits);
  }

  /** The digits of a prefix `w` of `t` are worth what they are worth in `w`. */
  lemma PrefixDigits(t: string, w: string)
    requires |w| <= |t| && t[..|w|] == w
    ensures DigitsValue(t, 0, |w|) == DigitsValue(w, 0, |w|)
  {
    assert t[0..|w|] == w[0..|w|];
    DigitsAgree(t, 0, |w|, w, 0, |w|);
  }

  /** The digits of the suffix `f` of `t` from `k` are worth what they are worth in `f`. */
  lemma SuffixDigits(t: string, k: nat, f: string)
    requires k <= |t| && t[k..] == f
    ensures DigitsValue(t, k, |t|) == DigitsValue(f, 0, |f|)
  {
    assert t[k..|t|] == f[0..|f|];
    DigitsAgree(t, k, |t|, f, 0, |f|);
  }

  /** Digits up to a point at `k > 0`, then digits to the end, make a numeral. */
  lemma PointNumeral(t: string, k: nat)
    requires 0 < k < |t| && RunLength(t, Digits) == k && t[k] == '.'
    requires RunLength(t[k + 1..], Digits) == |t| - k - 1
    ensures IsNumeral(t)
  {
  }

  /** The value of a numeral with a point at `k`, from the integers written before and after it. */
  lemma DecimalParts(t: string, k: nat, whole: nat, digits: nat, count: nat)
    requires IsNumeral(t) && RunLength(t, Digits) == k < |t|
    requires DigitsValue(t, 0, k) == whole && DigitsValue(t, k + 1, |t|) == digits
    requires count == |t| - k - 1
    ensures ParseFloat(t) == Some(PointValue(whole, digits, count))
  {
    FractionDigits(t, k + 1, |t|);
  }

  /** The reference bounds the post-match code reads off the groups (gout_analyzer.go:111-133). */
  function ReferenceBounds(g: Groups): (real, real) {
    if g.rangeMin != "" && g.rangeMax != "" then
      var low, high := ParseFloat(g.rangeMin), ParseFloat(g.rangeMax);
      if low.Some? && high.Some? then (low.value, high.value) else (0.0, 0.0)
    else if g.boundValue != "" then
      var bound := ParseFloat(g.boundValue);
      if bound.None? then (0.0, 0.0)
      else if g.boundOp == "<" then (0.0, bound.value)
      else if g.boundOp == ">" then (bound.value, UnboundedMax)
      else (0.0, 0.0)
    else (0.0, 0.0)
  }

  /** The LabResult built from a match, or None where the value does not parse. */
  function BuildResult(g: Groups): (r: Option<LabResult>)
    ensures r.Some? <==> IsNumeral(g.value)
  {
    match ParseFloat(g.value)
    case None => None
    case Some(value) =>
      var bounds := ReferenceBounds(g);
      Some(LabResult(TrimSpace(g.name), value, TrimSpace(g.unit), bounds.0, bounds.1,
                     DetermineStatus(value, bounds.0, bounds.1)))
  }

  /** A result whose status agrees with its bounds and whose texts are trimmed. */
  predicate WellFormed(r: LabResult) {
    && r.status == DetermineStatus(r.value, r.referenceMin, r.referenceMax)
    && IsTrimmed(r.parameter)
    && IsTrimmed(r.unit)
  }

  /** What the post-match code builds is well formed. */
  lemma BuildResultWellFormed(g: Groups)
    ensures BuildResult(g).Some? ==> WellFormed(BuildResult(g).value)
  {
  }

  /** What one input line contributes: nothing when blank or unmatched. */
  function ParseLine(line: string): (r: Option<LabResult>)
    ensures r.Some? ==> TrimSpace(line) != ""
  {
    var trimmed := TrimSpace(line);
    if trimmed == "" then None
    else
      match MatchLine(trimmed)
      case None => None
      case Some(g) => BuildResult(g)
  }

  /** Every result a line yields is well formed. */
  lemma ParseLineWellFormed(line: string)
    ensures ParseLine(line).Some? ==> WellFormed(ParseLine(line).value)
  {
    var trimmed := TrimSpace(line);
    if trimmed != "" {
      var m := MatchLine(trimmed);
      if m.Some? {
        assert ParseLine(line) == BuildResult(m.value);
        BuildResultWellFormed(m.value);
      }
    }
  }

  /** A line yields a result exactly when it is not blank and the pattern matches its trimmed form. */
  lemma ParseLineMatches(line: string)
    ensures ParseLine(line).Some? <==> TrimSpace(line) != "" && MatchLine(TrimSpace(line)).Some?
  {
    var trimmed := TrimSpace(line);
    if trimmed != "" {
      MatchLineNumeric(trimmed);
    }
  }

  /** A trimmed line that the pattern matches yields what its groups build. */
  lemma ParseLineOfTrimmed(line: string, g: Groups)
    requires TrimSpace(line) == line != "" && MatchLine(line) == Some(g)
    ensures ParseLine(line) == BuildResult(g)
  {
  }

  function LineResults(line: string): seq<LabResult> {
    match ParseLine(line)
    case None => []
    case Some(r) => [r]
  }

  /** The results of a sequence of lines, in line order. */
  function ParseLines(lines: seq<string>): seq<LabResult> {
    if lines == [] then []
    else ParseLines(lines[..|lines| - 1]) + LineResults(lines[|lines| - 1])
  }

  /** The number of lines that are not blank after trimming. */
  function NonBlankCount(lines: seq<string>): nat {
    if lines == [] then 0
    else NonBlankCount(lines[..|lines| - 1]) + (if TrimSpace(lines[|lines| - 1]) == "" then 0 else 1)
  }

  /** One more line adds that line's results at the end. */
  lemma ParseLinesSnoc(lines: seq<string>, line: string)
    ensures ParseLines(lines + [line]) == ParseLines(lines) + LineResults(line)
  {
    assert (lines + [line])[..|lines|] == lines;
  }

  /** The results of a prefix one line longer. */
  lemma ParseLinesPrefix(lines: seq<string>, i: nat)
    requires i < |lines|
    ensures ParseLines(lines[..i + 1]) == ParseLines(lines[..i]) + LineResults(lines[i])
  {
    assert lines[..i + 1][..i] == lines[..i];
  }

  /** Parsing distributes over concatenation of line sequences: results keep line order. */
  lemma {:induction false} ParseLinesConcat(a: seq<string>, b: seq<string>)
    ensures ParseLines(a + b) == ParseLines(a) + ParseLines(b)
    decreases |b|
  {
    if b == [] {
      assert a + b == a;
    } else {
      var init, last := b[..|b| - 1], b[|b| - 1];
      SplitLast(a, b);
      ParseLinesConcat(a, init);
      ParseLinesSnoc(a + init, last);
      ParseLinesSnoc(init, last);
      AppendAssoc(ParseLines(a), ParseLines(init), LineResults(last));
    }
  }

  /** At most one result per non-blank line, and every result is well formed. */
  lemma {:induction false} ParseLinesBounded(lines: seq<string>)
    ensures |ParseLines(lines)| <= NonBlankCount(lines) <= |lines|
    ensures forall r :: r in ParseLines(lines) ==> WellFormed(r)
  {
    if lines != [] {
      ParseLinesBounded(lines[..|lines| - 1]);
      ParseLineWellFormed(lines[|lines| - 1]);
    }
  }

  /**
   * The reference-range part of the post-match code (gout_analyzer.go:111-133):
   * a `min-max` range when both ends were captured, else a `<x` or `>x` bound;
   * both stay 0 when neither applies. It is the statement form of
   * `ReferenceBounds`, which states the same thing as one expression.
   */
  method ReadReference(g: Groups) returns (referenceMin: real, referenceMax: real)
    ensures (referenceMin, referenceMax) == ReferenceBounds(g)
  {
    referenceMin, referenceMax := 0.0, 0.0;
    if g.rangeMin != "" && g.rangeMax != "" {
      var min, max := ParseFloat(g.rangeMin), ParseFloat(g.rangeMax);
      if min.Some? && max.Some? {
        referenceMin, referenceMax := min.value, max.value;
      }
    } else if g.boundValue != "" {
      var refValue := ParseFloat(g.boundValue);
      if refValue.Some? {
        var operator := g.boundOp;
        if operator == "<" {
          referenceMax := refValue.value;
          referenceMin := 0.0;
        } else if operator == ">" {
          referenceMin := refValue.value;
          referenceMax := UnboundedMax;
        }
      }
    }
  }

  /**
   * The post-match code of parseLabInput (gout_analyzer.go:98-136): the name,
   * the value, the unit, the reference bounds and the status; None where the
   * value does not parse. It is the statement form of `BuildResult`, which
   * states the same thing as one expression.
   */
  method BuildLabResult(g: Groups) returns (result: Option<LabResult>)
    ensures result == BuildResult(g)
  {
    var parameter := TrimSpace(g.name);
    var value := ParseFloat(g.value);
    if value.None? {
      return None;
    }
    var unit := TrimSpace(g.unit);
    var referenceMin, referenceMax := ReadReference(g);
    var status := DetermineStatus(value.value, referenceMin, referenceMax);
    result := Some(LabResult(parameter, value.value, unit, referenceMin, referenceMax, status));
  }

  /**
   * parseLabInput: split the input on line feeds, trim each line, skip blank
   * lines, match the rest and build one result per matched line.
   */
  method ParseLabInput(input: string) returns (results: seq<LabResult>)
    ensures results == ParseLines(Split(input))
    ensures |results| <= NonBlankCount(Split(input))
    ensures forall r :: r in results ==> WellFormed(r)
  {
    results := [];
    var lines := Split(input);
    for i := 0 to |lines|
      invariant results == ParseLines(lines[..i])
    {
      ParseLinesPrefix(lines, i);
      var line := TrimSpace(lines[i]);
      if line == "" {
        continue;
      }
      var matches := MatchLine(line);
      if matches.Some? {
        var result := BuildLabResult(matches.value);
        if result.Some? {
          results := results + [result.value];
        }
      }
    }
    assert lines[..|lines|] == lines;
    ParseLinesBounded(lines);
  }
}
