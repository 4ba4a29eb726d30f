/**
 * What the lab-line pattern makes of the line shapes a report uses:
 * `name value unit (参考范围: low-high)`, `name value unit (<bound)` and the
 * labelled bound `name value unit (参考范围: <bound)`, which the pattern
 * reads through its bound alternative with an empty sign.
 */
module LabShapes {
  import opened Wrappers
  import opened LabPattern
  import opened LabPatternFacts

  /** Stretches without digits are passed over by the scan for a match. */
  lemma {:induction false} FindSkip(s: string, i: nat, j: nat, start: nat)
    requires start <= i <= j <= |s|
    requires forall k :: i <= k < j ==> !IsDigit(s[k])
    ensures Find(s, i, start) == Find(s, j, start)
    decreases j - i
  {
    if i < j {
      FindSkip(s, i + 1, j, start);
    }
  }

  /** A character that starts neither alternative and is not a line feed is passed over by `.*?`. */
  lemma MatchTailSkip(c: char, rest: string)
    requires c != '参' && !IsOpening(c) && c != '\n'
    ensures MatchTail([c] + rest) == MatchTail(rest)
  {
    var s := [c] + rest;
    assert s[1..] == rest;
  }

  /** No character of a unit is white space, so the pattern's `\s*` stops at the unit. */
  lemma UnitNotSpace(unit: string)
    requires unit != [] && forall k :: 0 <= k < |unit| ==> IsUnitChar(unit[k])
    ensures !IsPatternSpace(unit[0])
  {
  }

  /** After the value: one space, the unit, then the tail text. */
  lemma MatchAtHead(name: string, value: string, unit: string, tail: string)
    requires IsNumeral(value)
    requires unit != [] && forall k :: 0 <= k < |unit| ==> IsUnitChar(unit[k])
    requires tail == [] || !IsUnitChar(tail[0])
    ensures var s := value + (" " + (unit + tail));
      && IsDigit(s[0])
      && MatchAt(name, s) == match MatchTail(tail)
                             case None => None
                             case Some(t) => Some(GroupsOf(name, value, unit, t))
  {
    var afterUnit := unit + tail;
    var afterSpace := " " + afterUnit;
    var s := value + afterSpace;
    NumeralConcat(value, afterSpace);
    assert s[..|value|] == value && s[|value|..] == afterSpace;
    UnitNotSpace(unit);
    assert afterSpace[1..] == afterUnit;
    assert RunLength(afterSpace, Spaces) == 1;
    assert SkipSpaces(afterSpace) == afterUnit;
    RunLengthAll(unit, UnitChars);
    RunLengthConcat(unit, tail, UnitChars);
    assert afterUnit[..|unit|] == unit && afterUnit[|unit|..] == tail;
  }

  /** The scan reaches the first digit with the name group being the text before the space. */
  lemma NameThenDigit(name: string, s: string)
    requires name != [] && !IsPatternSpace(name[|name| - 1])
    requires forall k :: 0 <= k < |name| ==> !IsDigit(name[k])
    requires s != [] && IsDigit(s[0])
    ensures var line := name + (" " + s);
      MatchAt(name, s).Some? ==> MatchLine(line) == MatchAt(name, s)
  {
    NameSkipped(name, s);
    NameEndAfter(name, s);
  }

  /** The scan passes over the name and the space, which hold no digit. */
  lemma NameSkipped(name: string, s: string)
    requires forall k :: 0 <= k < |name| ==> !IsDigit(name[k])
    ensures var line := name + (" " + s);
      MatchLine(line) == Find(line, |name| + 1, 0)
  {
    var line := name + (" " + s);
    assert line[|name|] == ' ';
    assert forall k :: 0 <= k < |name| ==> line[k] == name[k];
    FindSkip(line, 0, |name| + 1, 0);
  }

  /** At the first digit, the name group ends where the space before it begins. */
  lemma NameEndAfter(name: string, s: string)
    requires name != [] && !IsPatternSpace(name[|name| - 1])
    requires s != [] && IsDigit(s[0])
    ensures var line := name + (" " + s);
      MatchAt(name, s).Some? ==> Find(line, |name| + 1, 0) == MatchAt(name, s)
  {
    var line := name + (" " + s);
    var d := |name| + 1;
    assert line[d..] == s;
    assert line[d] == s[0];
    assert line[..|name|] == name;
    assert SpaceRunStart(line, 0, d) == |name| by {
      assert line[d - 1] == ' ' && line[d - 2] == name[|name| - 1];
    }
  }

  /**
   * A line made of a name without digits, a space, a numeral, a space, a unit
   * and a tail text is matched with exactly those name, value and unit groups,
   * as soon as the tail text holds one of the two alternatives.
   */
  lemma HeadMatch(name: string, value: string, unit: string, tail: string)
    requires name != [] && !IsPatternSpace(name[|name| - 1])
    requires forall k :: 0 <= k < |name| ==> !IsDigit(name[k])
    requires IsNumeral(value)
    requires unit != [] && forall k :: 0 <= k < |unit| ==> IsUnitChar(unit[k])
    requires tail == [] || !IsUnitChar(tail[0])
    ensures var line := name + (" " + (value + (" " + (unit + tail))));
      MatchTail(tail).Some? ==> MatchLine(line) == Some(GroupsOf(name, value, unit, MatchTail(tail).value))
  {
    MatchAtHead(name, value, unit, tail);
    NameThenDigit(name, value + (" " + (unit + tail)));
  }

  /** `\s*` takes exactly one space in front of a character that is not white space. */
  lemma SkipOneSpace(t: string)
    requires |t| >= 2 && t[0] == ' ' && !IsPatternSpace(t[1])
    ensures SkipSpaces(t) == t[1..]
  {
    assert RunLength(t[1..], Spaces) == 0;
    assert RunLength(t, Spaces) == 1;
  }

  /** The range label `参考范围: ` leads to the sign of the lower end. */
  lemma LabelAt(s: string, r: string)
    requires |s| >= 6 && s[0] == '参' && s[1] == '考' && s[2] == '范' && s[3] == '围'
    requires s[4] == ':' && s[5] == ' ' && s[6..] == r
    requires r != [] && !IsPatternSpace(r[0])
    ensures MatchRange(s) == RangeSign(r)
  {
    var w := s[3..];
    assert w[0] == '围';
    var c := w[1..];
    assert c[0] == ':';
    var t := c[1..];
    assert t[0] == ' ' && t[1..] == r;
    SkipOneSpace(t);
  }

  /** Without a sign, the lower end starts right away. */
  lemma UnsignedStep(t: string)
    requires t != [] && IsDigit(t[0])
    ensures RangeSign(t) == RangeLow("", t) && BoundSign(t) == BoundNumber("", t)
  {
    assert !IsComparison(t[0]);
  }

  /** A sign `<` or `>` is group 4 or group 7. */
  lemma SignStep(op: string, t: string)
    requires op == "<" || op == ">"
    ensures RangeSign(op + t) == RangeLow(op, t) && BoundSign(op + t) == BoundNumber(op, t)
  {
    assert (op + t)[..1] == op && (op + t)[1..] == t;
  }

  /** `low-high)` is read as the two ends of a range. */
  lemma RangeRestOf(op: string, low: string, high: string)
    requires IsNumeral(low) && IsNumeral(high)
    ensures var s := low + ("-" + (high + ")"));
      IsDigit(s[0]) && RangeLow(op, s) == Some(RangeTail(op, low, high))
  {
    var afterHigh := high + ")";
    var rest := "-" + afterHigh;
    var s := low + rest;
    NumeralConcat(low, rest);
    assert s[..|low|] == low && s[|low|..] == rest;
    assert SkipSpaces(rest) == rest;
    RangeSeparatorOf(op, low, high);
  }

  /** `-high)` after the lower end gives the upper end. */
  lemma RangeSeparatorOf(op: string, low: string, high: string)
    requires IsNumeral(high)
    ensures RangeSeparator(op, low, "-" + (high + ")")) == Some(RangeTail(op, low, high))
  {
    var afterHigh := high + ")";
    var rest := "-" + afterHigh;
    assert rest[1..] == afterHigh;
    assert SkipSpaces(afterHigh) == afterHigh;
    NumeralConcat(high, ")");
    assert afterHigh[..|high|] == high;
  }

  /** ` (参考范围: low-high)` is read by the range alternative. */
  lemma RangeNoteTail(low: string, high: string)
    requires IsNumeral(low) && IsNumeral(high)
    ensures MatchTail(" (参考范围: " + (low + ("-" + (high + ")")))) == Some(RangeTail("", low, high))
  {
    var r := low + ("-" + (high + ")"));
    RangeSignOf(low, high);
    LabelledNote(r);
  }

  /** `low-high)` without a sign is the range from `low` to `high`. */
  lemma RangeSignOf(low: string, high: string)
    requires IsNumeral(low) && IsNumeral(high)
    ensures var r := low + ("-" + (high + ")"));
      r != [] && IsDigit(r[0]) && RangeSign(r) == Some(RangeTail("", low, high))
  {
    var r := low + ("-" + (high + ")"));
    RangeRestOf("", low, high);
    UnsignedStep(r);
  }

  /** In ` (参考范围: r)`, `.*?` passes over the space and the bracket, then tries the range at the label. */
  lemma LabelledNote(r: string)
    requires r != [] && !IsPatternSpace(r[0])
    ensures RangeSign(r).Some? ==> MatchTail(" (参考范围: " + r) == RangeSign(r)
  {
    var n := " (参考范围: " + r;
    NoteLabel(r);
    var m := n[1..];
    assert m[1..] == n[2..];
    LabelAt(n[2..], r);
    MatchTailStep(n);
    OpeningPassed(m);
  }

  /** An opening bracket not followed by white space, a sign or a digit is passed over by `.*?`. */
  lemma OpeningPassed(s: string)
    requires |s| >= 2 && IsOpening(s[0])
    requires !IsPatternSpace(s[1]) && !IsComparison(s[1]) && !IsDigit(s[1])
    ensures MatchTail(s) == MatchTail(s[1..])
  {
    var t := s[1..];
    assert t[0] == s[1];
    assert RunLength(t, Spaces) == 0;
    assert SkipSpaces(t) == t;
    assert BoundSign(t) == BoundNumber("", t) == None;
    assert MatchBound(s) == None;
    assert MatchRange(s) == None;
    MatchTailMoves(s);
  }

  lemma OpenStep(t: string)
    ensures MatchBound("(" + t) == BoundSign(SkipSpaces(t))
  {
    assert ("(" + t)[1..] == t;
  }

  /** `bound)` is read as the bound. */
  lemma BoundNumberOf(op: string, bound: string)
    requires IsNumeral(bound)
    ensures BoundNumber(op, bound + ")") == Some(BoundTail(op, bound))
  {
    NumeralConcat(bound, ")");
    assert (bound + ")")[..|bound|] == bound;
  }

  /** `(op bound)` is the bound alternative at its start. */
  lemma BoundOf(op: string, bound: string)
    requires IsComparisonGroup(op) && IsNumeral(bound)
    ensures MatchBound("(" + (op + (bound + ")"))) == Some(BoundTail(op, bound))
  {
    var afterBound := bound + ")";
    var r := op + afterBound;
    OpenStep(r);
    assert r[0] == if op == "" then bound[0] else op[0];
    assert SkipSpaces(r) == r;
    if op == "" {
      assert r == afterBound;
      UnsignedStep(afterBound);
    } else {
      SignStep(op, afterBound);
    }
    BoundNumberOf(op, bound);
  }

  /** ` (op bound)`, with `op` empty, `<` or `>`, is read by the bound alternative. */
  lemma BoundNoteTail(op: string, bound: string)
    requires IsComparisonGroup(op) && IsNumeral(bound)
    ensures MatchTail(" (" + (op + (bound + ")"))) == Some(BoundTail(op, bound))
  {
    var r := op + (bound + ")");
    assert " (" + r == [' '] + ("(" + r);
    MatchTailSkip(' ', "(" + r);
    BoundOf(op, bound);
  }

  lemma MatchTailStep(s: string)
    requires s != [] && s[0] != '参' && !IsOpening(s[0]) && s[0] != '\n'
    ensures MatchTail(s) == MatchTail(s[1..])
  {
  }

  /** Where neither alternative matches, `.*?` moves on by one character. */
  lemma MatchTailMoves(s: string)
    requires MatchRange(s).None? && MatchBound(s).None?
    requires s != [] && s[0] != '\n'
    ensures MatchTail(s) == MatchTail(s[1..])
  {
  }

  /** Where the range alternative fails and the bound alternative matches, the bound is the tail. */
  lemma MatchTailBound(s: string)
    requires MatchRange(s).None? && MatchBound(s).Some?
    ensures MatchTail(s) == MatchBound(s)
  {
  }

  /** A lower end followed by `)` is no range. */
  lemma RangeLowStops(op: string, low: string)
    requires IsNumeral(low)
    ensures RangeLow(op, low + ")") == None
  {
    NumeralConcat(low, ")");
    assert (low + ")")[|low|..] == ")";
    assert SkipSpaces(")") == ")";
  }

  /**
   * ` (参考范围: <bound)`: the range alternative fails at the `)`, and the bound
   * alternative then matches at the `<`, taking it as its opening bracket, so
   * the sign group is empty.
   */
  lemma LabelledBoundTail(bound: string)
    requires IsNumeral(bound)
    ensures MatchTail(" (参考范围: " + ("<" + (bound + ")"))) == Some(BoundTail("", bound))
  {
    var r := "<" + (bound + ")");
    LabelledRangeFails(bound);
    LabelPassedOver(r);
    BoundOfOpening('<', bound);
    MatchTailBound(r);
  }

  /**
   * In ` (参考范围: r)`, where the range alternative fails, `.*?` passes over
   * the whole label to `r`.
   */
  lemma LabelPassedOver(r: string)
    requires r != [] && !IsPatternSpace(r[0]) && RangeSign(r) == None
    ensures MatchTail(" (参考范围: " + r) == MatchTail(r)
  {
    var n := " (参考范围: " + r;
    NoteLabel(r);
    var m := n[1..];
    assert m[1..] == n[2..];
    LabelAt(n[2..], r);
    MatchTailStep(n);
    OpeningPassed(m);
    LabelSkipped(n[2..], r);
  }

  /** The characters of ` (参考范围: r)`, position by position. */
  lemma NoteLabel(r: string)
    ensures var n := " (参考范围: " + r;
      && |n| == |r| + 8 && n[0] == ' ' && n[1] == '('
      && n[2..][0] == '参' && n[2..][1] == '考' && n[2..][2] == '范' && n[2..][3] == '围'
      && n[2..][4] == ':' && n[2..][5] == ' ' && n[2..][6..] == r
  {
    var n := " (参考范围: " + r;
    assert n[8..] == r;
    assert n[2..][6..] == n[8..];
  }

  /** Where the range alternative fails at the label, `.*?` passes over the label. */
  lemma LabelSkipped(l: string, r: string)
    requires |l| >= 6 && l[0] == '参' && l[1] == '考' && l[2] == '范' && l[3] == '围'
    requires l[4] == ':' && l[5] == ' ' && l[6..] == r
    requires MatchRange(l) == None
    ensures MatchTail(l) == MatchTail(r)
  {
    MatchTailMoves(l);
    PassOver(l, 1);
    PassOver(l, 2);
    PassOver(l, 3);
    PassOver(l, 4);
    PassOver(l, 5);
  }

  /** `.*?` passes over a character that starts no alternative and ends no line. */
  lemma PassOver(s: string, i: nat)
    requires i < |s| && s[i] != '参' && !IsOpening(s[i]) && s[i] != '\n'
    ensures MatchTail(s[i..]) == MatchTail(s[i + 1..])
  {
    assert s[i..][1..] == s[i + 1..];
    MatchTailStep(s[i..]);
  }

  /** The range alternative takes `参考范围: <bound` and then fails at the `)`. */
  lemma LabelledRangeFails(bound: string)
    requires IsNumeral(bound)
    ensures var r := "<" + (bound + ")");
      !IsPatternSpace(r[0]) && RangeSign(r) == None
  {
    SignStep("<", bound + ")");
    RangeLowStops("<", bound);
  }

  /** `c bound)`, with `c` an opening bracket, is the bound alternative without a sign. */
  lemma BoundOfOpening(c: char, bound: string)
    requires IsOpening(c) && IsNumeral(bound)
    ensures MatchBound([c] + (bound + ")")) == Some(BoundTail("", bound))
  {
    var afterBound := bound + ")";
    assert ([c] + afterBound)[1..] == afterBound;
    assert SkipSpaces(afterBound) == afterBound;
    UnsignedStep(afterBound);
    BoundNumberOf("", bound);
  }
}
