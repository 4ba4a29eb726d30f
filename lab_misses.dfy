/**
 * Lines the lab-line pattern does not match: a unit that starts with a
 * character outside `[a-zA-Z/μmol]`, such as the `×10⁹/L` of a white-cell
 * count, leaves every numeral of the line without a unit after it, so the
 * scan for a match fails at every candidate and the line is skipped.
 */
module LabMisses {
  import opened Wrappers
  import opened Strings
  import opened LabPattern
  import opened LabPatternFacts
  import opened LabShapes
  import opened LabParser
  import opened LabLines

  /** A numeral whose last character is a digit, i.e. not of the form `12.`. */
  predicate IsClosedNumeral(v: string) {
    IsNumeral(v) && IsDigit(v[|v| - 1])
  }

  /** Dropping the leading digit of a numeral that goes on with a digit leaves a numeral. */
  lemma NumeralTail(v: string)
    requires IsNumeral(v) && |v| > 1 && IsDigit(v[1])
    ensures IsNumeral(v[1..])
  {
    var t := v[1..];
    var k := RunLength(v, Digits);
    assert RunLength(t, Digits) == k - 1;
    if k < |v| && v[k] == '.' {
      assert t[k - 1] == v[k];
      assert t[k..] == v[k + 1..];
    }
  }

  /** After `d.` a closed numeral holds only digits, and at least one. */
  lemma NumeralFraction(v: string)
    requires IsClosedNumeral(v) && |v| > 1 && v[1] == '.'
    ensures IsClosedNumeral(v[2..])
  {
    var f := v[2..];
    assert RunLength(v, Digits) == 1;
    assert RunLength(f, Digits) == |f|;
    assert v[|v| - 1] == f[|f| - 1];
  }

  /** A numeral followed by text that neither extends it nor starts a unit has no match at it. */
  lemma StuckAt(name: string, v: string, post: string)
    requires IsNumeral(v)
    requires post != [] && !IsDigit(post[0]) && post[0] != '.'
    requires RunLength(SkipSpaces(post), UnitChars) == 0
    ensures IsDigit((v + post)[0]) && MatchAt(name, v + post) == None
  {
    NumeralConcat(v, post);
    assert (v + post)[|v|..] == post;
  }

  /** At a digit that starts a value with no unit after it, the scan moves on past that digit. */
  lemma FindAtValue(s: string, p: nat, v: string, post: string, start: nat)
    requires p <= |s| && s[p..] == v + post && start <= p
    requires IsNumeral(v)
    requires post != [] && !IsDigit(post[0]) && post[0] != '.'
    requires RunLength(SkipSpaces(post), UnitChars) == 0
    ensures p < |s| && Find(s, p, start) == Find(s, p + 1, p + 1)
  {
    assert s[p] == v[0];
    if start < p {
      StuckAt(s[start..NameEnd(s, start, p)], v, post);
    }
  }

  /**
   * The scan passes over a closed numeral followed by such text, trying and
   * failing at each digit that may start a match.
   */
  lemma {:induction false} FindOverValue(s: string, p: nat, v: string, post: string, start: nat, end: nat)
    requires p <= |s| && s[p..] == v + post && start <= p && end == p + |v|
    requires IsClosedNumeral(v)
    requires post != [] && !IsDigit(post[0]) && post[0] != '.'
    requires RunLength(SkipSpaces(post), UnitChars) == 0
    ensures end <= |s| && Find(s, p, start) == Find(s, end, end)
    decreases |v|
  {
    FindAtValue(s, p, v, post, start);
    if |v| > 1 {
      ShiftOne(s, p, v, post);
      if IsDigit(v[1]) {
        NumeralTail(v);
        FindOverValue(s, p + 1, v[1..], post, p + 1, end);
      } else {
        assert RunLength(v, Digits) == 1;
        NumeralFraction(v);
        ShiftOne(s, p + 1, v[1..], post);
        assert v[1..][1..] == v[2..];
        FindPastChar(s, p + 1, p + 1);
        FindOverValue(s, p + 2, v[2..], post, p + 1, end);
      }
    }
  }

  /** A character that is not a digit is passed over by the scan. */
  lemma FindPastChar(s: string, p: nat, start: nat)
    requires start <= p < |s| && !IsDigit(s[p])
    ensures Find(s, p, start) == Find(s, p + 1, start)
  {
  }

  /** Text that starts with neither white space nor a unit character offers no unit. */
  lemma NoUnitAhead(post: string)
    requires post != [] && !IsPatternSpace(post[0]) && !IsUnitChar(post[0])
    ensures RunLength(SkipSpaces(post), UnitChars) == 0
  {
    assert RunLength(post, Spaces) == 0;
    assert SkipSpaces(post) == post;
  }

  /** A piece without digits is passed over by the scan. */
  lemma FindOverText(s: string, p: nat, piece: string, post: string, start: nat, end: nat)
    requires p <= |s| && s[p..] == piece + post && start <= p && end == p + |piece|
    requires forall k :: 0 <= k < |piece| ==> !IsDigit(piece[k])
    ensures end <= |s| && Find(s, p, start) == Find(s, end, start)
  {
    assert forall k :: p <= k < end ==> s[k] == piece[k - p];
    FindSkip(s, p, end, start);
  }

  /** One character further on. */
  lemma ShiftOne(s: string, p: nat, v: string, post: string)
    requires p <= |s| && s[p..] == v + post && v != []
    ensures p < |s| && s[p] == v[0] && s[p + 1..] == v[1..] + post
  {
    assert s[p + 1..] == s[p..][1..];
    assert (v + post)[1..] == v[1..] + post;
  }

  /** What follows a prefix of the rest of a string. */
  lemma DropFront(s: string, p: nat, a: string, b: string, q: nat)
    requires p <= |s| && s[p..] == a + b && q == p + |a|
    ensures q <= |s| && s[q..] == b
  {
    assert s[q..] == s[p..][|a|..];
  }

  /** The label of a range note holds no digit. */
  lemma OpeningDigitFree()
    ensures forall k :: 0 <= k < |" (参考范围: "| ==> !IsDigit(" (参考范围: "[k])
  {
  }

  /**
   * `text (参考范围: low-high)` with `text` free of digits is passed over to
   * its end with no match: `low` is followed by `-`, `high` by `)`.
   */
  lemma RangeNoteSkipped(s: string, p: nat, text: string, low: string, high: string, start: nat)
    requires p <= |s| && s[p..] == text + RangeNote(low, high) && start <= p
    requires forall k :: 0 <= k < |text| ==> !IsDigit(text[k])
    requires IsClosedNumeral(low) && IsClosedNumeral(high)
    ensures Find(s, p, start) == None
  {
    var opening := " (参考范围: ";
    var numbers := low + ("-" + (high + ")"));
    var p0 := p + |text|;
    var p1 := p0 + |opening|;
    OpeningDigitFree();
    FindOverText(s, p, text, RangeNote(low, high), start, p0);
    DropFront(s, p, text, RangeNote(low, high), p0);
    FindOverText(s, p0, opening, numbers, start, p1);
    DropFront(s, p0, opening, numbers, p1);
    RangeNumbersSkipped(s, p1, low, high, start);
  }

  /** `low-high)` is passed over to its end with no match. */
  lemma RangeNumbersSkipped(s: string, p: nat, low: string, high: string, start: nat)
    requires p <= |s| && s[p..] == low + ("-" + (high + ")")) && start <= p
    requires IsClosedNumeral(low) && IsClosedNumeral(high)
    ensures Find(s, p, start) == None
  {
    var p1 := p + |low|;
    var p2 := p1 + 1;
    var p3 := p2 + |high|;
    NoUnitAhead("-" + (high + ")"));
    FindOverValue(s, p, low, "-" + (high + ")"), start, p1);
    DropFront(s, p, low, "-" + (high + ")"), p1);
    FindOverText(s, p1, "-", high + ")", p1, p2);
    DropFront(s, p1, "-", high + ")", p2);
    NoUnitAhead(")");
    FindOverValue(s, p2, high, ")", p1, p3);
    DropFront(s, p2, high, ")", p3);
    FindOverText(s, p3, ")", [], p3, p3 + 1);
  }

  /**
   * `value c n more` with `c` outside the unit class and `n` followed by a
   * character outside it is passed over up to `more`: neither the value nor
   * `n` has a unit after it.
   */
  lemma ForeignUnitSkipped(s: string, p: nat, value: string, c: char, n: string, more: string,
                           start: nat, end: nat)
    requires p <= |s| && s[p..] == value + (" " + ([c] + (n + more))) && start <= p
    requires end == p + |value| + 2 + |n|
    requires IsClosedNumeral(value) && IsClosedNumeral(n)
    requires !IsDigit(c) && !IsPatternSpace(c) && !IsUnitChar(c)
    requires more != [] && more[0] != '.' && !IsDigit(more[0]) && !IsPatternSpace(more[0]) && !IsUnitChar(more[0])
    ensures end <= |s| && Find(s, p, start) == Find(s, end, end) && s[end..] == more
  {
    var afterValue := " " + ([c] + (n + more));
    var p1 := p + |value|;
    var p2 := p1 + 2;
    SkipOneSpace(afterValue);
    assert SkipSpaces(afterValue)[0] == c;
    FindOverValue(s, p, value, afterValue, start, p1);
    DropFront(s, p, value, afterValue, p1);
    assert afterValue == [' ', c] + (n + more);
    FindOverText(s, p1, [' ', c], n + more, p1, p2);
    DropFront(s, p1, [' ', c], n + more, p2);
    NoUnitAhead(more);
    FindOverValue(s, p2, n, more, p1, end);
    DropFront(s, p2, n, more, end);
  }

  /**
   * `name value unit (参考范围: low-high)` with a unit of the shape `c n rest`,
   * where `c` and the first character of `rest` are neither letters of the
   * unit class nor white space and `n` is a numeral, is skipped: the value,
   * `n`, `low` and `high` are each followed by something other than a unit.
   */
  lemma ForeignUnitRangeLine(name: string, value: string, c: char, n: string, rest: string,
                             low: string, high: string)
    requires IsName(name) && IsClosedNumeral(value)
    requires !IsDigit(c) && !IsPatternSpace(c) && !IsUnitChar(c)
    requires IsClosedNumeral(n)
    requires rest != [] && rest[0] != '.' && !IsPatternSpace(rest[0]) && !IsUnitChar(rest[0])
    requires forall k :: 0 <= k < |rest| ==> !IsDigit(rest[k])
    requires IsClosedNumeral(low) && IsClosedNumeral(high)
    ensures ParseLine(LabLine(name, value, [c] + (n + rest), RangeNote(low, high))) == None
  {
    var unit := [c] + (n + rest);
    var note := RangeNote(low, high);
    LabLineTrimmed(name, value, unit, note);
    ForeignUnitMatch(name, value, c, n, rest, low, high);
  }

  /** The pattern finds no match in such a line. */
  lemma ForeignUnitMatch(name: string, value: string, c: char, n: string, rest: string,
                         low: string, high: string)
    requires forall k :: 0 <= k < |name| ==> !IsDigit(name[k])
    requires IsClosedNumeral(value)
    requires !IsDigit(c) && !IsPatternSpace(c) && !IsUnitChar(c)
    requires IsClosedNumeral(n)
    requires rest != [] && rest[0] != '.' && !IsPatternSpace(rest[0]) && !IsUnitChar(rest[0])
    requires forall k :: 0 <= k < |rest| ==> !IsDigit(rest[k])
    requires IsClosedNumeral(low) && IsClosedNumeral(high)
    ensures MatchLine(LabLine(name, value, [c] + (n + rest), RangeNote(low, high))) == None
  {
    var unit := [c] + (n + rest);
    var note := RangeNote(low, high);
    var line := LabLine(name, value, unit, note);
    NameSkipped(name, value + (" " + (unit + note)));
    LineAfterName(name, value, c, n, rest, note);
    ForeignUnitFind(line, |name| + 1, value, c, n, rest, low, high);
  }

  /** A lab line after its name and the space. */
  lemma LineAfterName(name: string, value: string, c: char, n: string, rest: string, note: string)
    ensures var line := LabLine(name, value, [c] + (n + rest), note);
      |name| + 1 <= |line| && line[|name| + 1..] == value + (" " + ([c] + (n + (rest + note))))
  {
    var unit := [c] + (n + rest);
    var line := LabLine(name, value, unit, note);
    assert line[|name| + 1..] == value + (" " + (unit + note));
    assert unit + note == [c] + (n + (rest + note));
  }

  /** The scan of such a line, from its value on, finds nothing. */
  lemma ForeignUnitFind(s: string, p: nat, value: string, c: char, n: string, rest: string,
                        low: string, high: string)
    requires p <= |s| && s[p..] == value + (" " + ([c] + (n + (rest + RangeNote(low, high)))))
    requires IsClosedNumeral(value)
    requires !IsDigit(c) && !IsPatternSpace(c) && !IsUnitChar(c)
    requires IsClosedNumeral(n)
    requires rest != [] && rest[0] != '.' && !IsPatternSpace(rest[0]) && !IsUnitChar(rest[0])
    requires forall k :: 0 <= k < |rest| ==> !IsDigit(rest[k])
    requires IsClosedNumeral(low) && IsClosedNumeral(high)
    ensures Find(s, p, 0) == None
  {
    var p1 := p + |value| + 2 + |n|;
    assert (rest + RangeNote(low, high))[0] == rest[0];
    ForeignUnitSkipped(s, p, value, c, n, rest + RangeNote(low, high), 0, p1);
    RangeNoteSkipped(s, p1, rest, low, high, p1);
  }
}
