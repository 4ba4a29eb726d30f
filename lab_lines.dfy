/**
 * What parseLabInput makes of the three line shapes the lab reports use:
 * `name value unit (参考范围: low-high)`, `name value unit (op bound)` and
 * `name value unit (参考范围: <bound)`.
 */
module LabLines {
  import opened Wrappers
  import opened Strings
  import opened LabPattern
  import opened LabPatternFacts
  import opened LabShapes
  import opened LabParser

  /** A parameter name as reports write it: no digits, no white space at either end. */
  predicate IsName(name: string) {
    name != [] && IsTrimmed(name) && forall k :: 0 <= k < |name| ==> !IsDigit(name[k])
  }

  /** A unit the pattern's `[a-zA-Z/μmol]+` takes whole. */
  predicate IsUnit(unit: string) {
    unit != [] && forall k :: 0 <= k < |unit| ==> IsUnitChar(unit[k])
  }

  /** `name value unit` followed by the reference note. */
  function LabLine(name: string, value: string, unit: string, note: string): string {
    name + (" " + (value + (" " + (unit + note))))
  }

  /** ` (参考范围: low-high)` */
  function RangeNote(low: string, high: string): string {
    " (参考范围: " + (low + ("-" + (high + ")")))
  }

  /** ` (op bound)` */
  function BoundNote(op: string, bound: string): string {
    " (" + (op + (bound + ")"))
  }

  /** ` (参考范围: <bound)` */
  function LabelledBoundNote(bound: string): string {
    " (参考范围: " + ("<" + (bound + ")"))
  }

  /** A lab line whose note ends in `)` is its own trimmed form. */
  lemma LabLineTrimmed(name: string, value: string, unit: string, note: string)
    requires IsName(name) && note != [] && note[|note| - 1] == ')'
    ensures TrimSpace(LabLine(name, value, unit, note)) == LabLine(name, value, unit, note)
  {
    var line := LabLine(name, value, unit, note);
    assert line[0] == name[0];
    assert line[|line| - 1] == note[|note| - 1];
    TrimSpaceOfTrimmed(line);
  }

  /** A unit has no white space, so trimming keeps it. */
  lemma UnitTrimmed(unit: string)
    requires IsUnit(unit)
    ensures TrimSpace(unit) == unit
  {
    assert IsUnitChar(unit[0]) && IsUnitChar(unit[|unit| - 1]);
    TrimSpaceOfTrimmed(unit);
  }

  /** The groups of a lab line whose note the tail reads as `tail`. */
  lemma LabLineGroups(name: string, value: string, unit: string, note: string, tail: Tail)
    requires IsName(name) && IsNumeral(value) && IsUnit(unit)
    requires note != [] && note[0] == ' ' && note[|note| - 1] == ')'
    requires MatchTail(note) == Some(tail)
    ensures ParseLine(LabLine(name, value, unit, note)) == BuildResult(GroupsOf(name, value, unit, tail))
  {
    LabLineMatches(name, value, unit, note, tail);
    LabLineTrimmed(name, value, unit, note);
    ParseLineOfTrimmed(LabLine(name, value, unit, note), GroupsOf(name, value, unit, tail));
  }

  /** The pattern takes a lab line apart into its name, value, unit and note. */
  lemma LabLineMatches(name: string, value: string, unit: string, note: string, tail: Tail)
    requires IsName(name) && IsNumeral(value) && IsUnit(unit)
    requires note != [] && note[0] == ' '
    requires MatchTail(note) == Some(tail)
    ensures MatchLine(LabLine(name, value, unit, note)) == Some(GroupsOf(name, value, unit, tail))
  {
    assert !IsPatternSpace(name[|name| - 1]);
    assert !IsUnitChar(note[0]);
    HeadMatch(name, value, unit, note);
  }

  /** The LabResult a matched lab line yields, given its reference bounds. */
  function Expected(name: string, value: string, unit: string, referenceMin: real, referenceMax: real): LabResult
    requires IsNumeral(value)
  {
    var v := DecimalValue(value);
    LabResult(name, v, unit, referenceMin, referenceMax, DetermineStatus(v, referenceMin, referenceMax))
  }

  /** What the post-match code builds from the groups of a lab line. */
  lemma BuildFromGroups(name: string, value: string, unit: string, tail: Tail)
    requires IsName(name) && IsNumeral(value) && IsUnit(unit)
    ensures var bounds := ReferenceBounds(GroupsOf(name, value, unit, tail));
      BuildResult(GroupsOf(name, value, unit, tail)) == Some(Expected(name, value, unit, bounds.0, bounds.1))
  {
    TrimSpaceOfTrimmed(name);
    UnitTrimmed(unit);
  }

  /** The reference bounds a note gives, read off the alternative that matched it. */
  function NoteBounds(tail: Tail): (real, real)
    requires TailNumeric(tail)
  {
    match tail
    case RangeTail(_, low, high) => (DecimalValue(low), DecimalValue(high))
    case BoundTail(op, bound) =>
      if op == "<" then (0.0, DecimalValue(bound))
      else if op == ">" then (DecimalValue(bound), UnboundedMax)
      else (0.0, 0.0)
  }

  /** The post-match code reads the bounds of the alternative that matched. */
  lemma ReferenceBoundsOfTail(name: string, value: string, unit: string, tail: Tail)
    requires TailNumeric(tail)
    ensures ReferenceBounds(GroupsOf(name, value, unit, tail)) == NoteBounds(tail)
  {
  }

  /** `name value unit (参考范围: low-high)` gives the range as the reference bounds. */
  lemma RangeLineParsed(name: string, value: string, unit: string, low: string, high: string)
    requires IsName(name) && IsNumeral(value) && IsUnit(unit)
    requires IsNumeral(low) && IsNumeral(high)
    ensures ParseLine(LabLine(name, value, unit, RangeNote(low, high)))
         == Some(Expected(name, value, unit, DecimalValue(low), DecimalValue(high)))
  {
    var tail := RangeTail("", low, high);
    RangeNoteTail(low, high);
    LabLineGroups(name, value, unit, RangeNote(low, high), tail);
    BuildFromGroups(name, value, unit, tail);
    ReferenceBoundsOfTail(name, value, unit, tail);
  }

  /**
   * `name value unit (<bound)` bounds the value from above, `(>bound)` from
   * below with 999999 above it, and `(bound)` without a sign sets no bound.
   */
  lemma BoundLineParsed(name: string, value: string, unit: string, op: string, bound: string)
    requires IsName(name) && IsNumeral(value) && IsUnit(unit)
    requires IsComparisonGroup(op) && IsNumeral(bound)
    ensures ParseLine(LabLine(name, value, unit, BoundNote(op, bound)))
         == Some(if op == "<" then Expected(name, value, unit, 0.0, DecimalValue(bound))
                 else if op == ">" then Expected(name, value, unit, DecimalValue(bound), UnboundedMax)
                 else Expected(name, value, unit, 0.0, 0.0))
  {
    var tail := BoundTail(op, bound);
    BoundNoteTail(op, bound);
    LabLineGroups(name, value, unit, BoundNote(op, bound), tail);
    BuildFromGroups(name, value, unit, tail);
    ReferenceBoundsOfTail(name, value, unit, tail);
  }

  /**
   * `name value unit (参考范围: <bound)` is read through the bound alternative
   * with an empty sign, so no bound is set and the value is always normal,
   * however far above `bound` it lies.
   */
  lemma LabelledBoundLineParsed(name: string, value: string, unit: string, bound: string)
    requires IsName(name) && IsNumeral(value) && IsUnit(unit) && IsNumeral(bound)
    ensures ParseLine(LabLine(name, value, unit, LabelledBoundNote(bound)))
         == Some(Expected(name, value, unit, 0.0, 0.0))
    ensures ParseLine(LabLine(name, value, unit, LabelledBoundNote(bound))).value.status == Normal
  {
    var tail := BoundTail("", bound);
    LabelledBoundTail(bound);
    LabLineGroups(name, value, unit, LabelledBoundNote(bound), tail);
    BuildFromGroups(name, value, unit, tail);
    ReferenceBoundsOfTail(name, value, unit, tail);
  }
}
