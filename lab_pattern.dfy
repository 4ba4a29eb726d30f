/**
 * The lab-line pattern of gout_analyzer.go:88, matched the way Go's regexp
 * package matches it (leftmost match, Perl-style preference among the ways a
 * match can be made):
 *
 *   ([^0-9]+?)\s*([0-9]+\.?[0-9]*)\s*([a-zA-Z/μmol]+).*?
 *   (?: 参考范围?[：:]?\s*([<>]?)([0-9]+\.?[0-9]*)\s*[-~至]\s*([0-9]+\.?[0-9]*)
 *     | [（(<]\s*([<>]?)([0-9]+\.?[0-9]*)\s*[）)>]? )
 *
 * Every greedy or optional piece of the pattern is forced: giving back a
 * character always leaves a digit, a separator or a bracket facing a piece that
 * cannot take it. So the match is found by a deterministic scan:
 *   - the lazy name group ends right before the first digit after its start, so
 *     the candidates are the starts of digit runs, tried from left to right;
 *   - at a candidate the value is the longest numeral, then spaces, then the
 *     longest non-empty run of unit characters;
 *   - the lazy `.*?` then tries each later position in turn, the range
 *     alternative before the bound alternative, and the first success wins.
 * Apart from the scan for the leftmost match, each piece is a function of the
 * text that is still ahead of it.
 */
module LabPattern {
  import opened Wrappers

  /** [0-9] */
  predicate IsDigit(c: char) {
    '0' <= c <= '9'
  }

  /** RE2's \s, which is [\t\n\f\r ] (narrower than strings.TrimSpace). */
  predicate IsPatternSpace(c: char) {
    c == '\t' || c == '\n' || c == '\U{000C}' || c == '\r' || c == ' '
  }

  /** [a-zA-Z/μmol]: ASCII letters, the slash and the Greek mu. */
  predicate IsUnitChar(c: char) {
    ('a' <= c <= 'z') || ('A' <= c <= 'Z') || c == '/' || c == 'μ'
  }

  /** [-~至] */
  predicate IsRangeSeparator(c: char) {
    c == '-' || c == '~' || c == '至'
  }

  /** [（(<] */
  predicate IsOpening(c: char) {
    c == '（' || c == '(' || c == '<'
  }

  /** [<>] */
  predicate IsComparison(c: char) {
    c == '<' || c == '>'
  }

  /** The three character classes the pattern repeats with `+` or `*`. */
  datatype CharClass = Digits | Spaces | UnitChars

  predicate InClass(c: char, cls: CharClass) {
    match cls
    case Digits => IsDigit(c)
    case Spaces => IsPatternSpace(c)
    case UnitChars => IsUnitChar(c)
  }

  /** The length of the longest run of characters of class `cls` at the start of `s`. */
  function RunLength(s: string, cls: CharClass): (n: nat)
    ensures n <= |s|
    ensures n == |s| || !InClass(s[n], cls)
  {
    if s != [] && InClass(s[0], cls) then 1 + RunLength(s[1..], cls) else 0
  }

  /** `\s*` taken greedily: what is left after the leading pattern spaces. */
  function SkipSpaces(s: string): string {
    s[RunLength(s, Spaces)..]
  }

  /** The length of `[0-9]+\.?[0-9]*` taken greedily from the digit that starts `s`. */
  function NumeralLength(s: string): (n: nat)
    requires s != [] && IsDigit(s[0])
    ensures 0 < n <= |s|
  {
    var k := RunLength(s, Digits);
    if k < |s| && s[k] == '.' then k + 1 + RunLength(s[k + 1..], Digits) else k
  }

  /** A whole string of the numeral shape `[0-9]+\.?[0-9]*`. */
  predicate IsNumeral(t: string) {
    t != [] && IsDigit(t[0]) && NumeralLength(t) == |t|
  }

  /** The smallest `t` in `lo..hi` such that `s[t..hi]` is all pattern spaces. */
  function SpaceRunStart(s: string, lo: nat, hi: nat): (t: nat)
    requires lo <= hi <= |s|
    ensures lo <= t <= hi
    ensures t == lo || !IsPatternSpace(s[t - 1])
    decreases hi - lo
  {
    if lo < hi && IsPatternSpace(s[hi - 1]) then SpaceRunStart(s, lo, hi - 1) else hi
  }

  /**
   * The end of the lazy name group `([^0-9]+?)` that starts at `start` when the
   * digits begin at `d`: as short as possible, leaving to `\s*` the spaces in
   * front of the digits, but never empty.
   */
  function NameEnd(s: string, start: nat, d: nat): (k: nat)
    requires start < d <= |s|
    ensures start < k <= d
  {
    var t := SpaceRunStart(s, start, d);
    if t == start then start + 1 else t
  }

  /** What follows the unit: which alternative matched and its groups. */
  datatype Tail =
    | RangeTail(op: string, low: string, high: string)    // groups 4, 5, 6
    | BoundTail(op: string, bound: string)                 // groups 7, 8

  /** The eight capture groups; a group that took no part in the match is "". */
  datatype Groups = Groups(
    name: string, value: string, unit: string,
    rangeOp: string, rangeMin: string, rangeMax: string,
    boundOp: string, boundValue: string)

  /*
   * The two alternatives are written as chains of small functions, one per
   * piece of the pattern; each takes the text still ahead of it and hands what
   * is left to the next piece.
   */

  /** `参考范围?[：:]?\s*([<>]?)([0-9]+\.?[0-9]*)\s*[-~至]\s*([0-9]+\.?[0-9]*)` at the start of `s`. */
  function MatchRange(s: string): Option<Tail> {
    if |s| >= 3 && s[0] == '参' && s[1] == '考' && s[2] == '范' then RangeWord(s[3..]) else None
  }

  /** `围?`, then the rest of the range alternative. */
  function RangeWord(s: string): Option<Tail> {
    if s != [] && s[0] == '围' then RangeColon(s[1..]) else RangeColon(s)
  }

  /** `[：:]?\s*`, then the rest of the range alternative. */
  function RangeColon(s: string): Option<Tail> {
    if s != [] && (s[0] == '：' || s[0] == ':') then RangeSign(SkipSpaces(s[1..])) else RangeSign(SkipSpaces(s))
  }

  /** `([<>]?)`, group 4, then the rest of the range alternative. */
  function RangeSign(s: string): Option<Tail> {
    if s != [] && IsComparison(s[0]) then RangeLow(s[..1], s[1..]) else RangeLow("", s)
  }

  /** The range alternative from its lower end on; `op` is group 4. */
  function RangeLow(op: string, s: string): Option<Tail> {
    if s != [] && IsDigit(s[0]) then RangeRest(op, s) else None
  }

  /** `([0-9]+\.?[0-9]*)\s*`, group 5, from the first digit of the lower end. */
  function RangeRest(op: string, s: string): Option<Tail>
    requires s != [] && IsDigit(s[0])
  {
    var n := NumeralLength(s);
    RangeSeparator(op, s[..n], SkipSpaces(s[n..]))
  }

  /** `[-~至]\s*` after the lower end `low`. */
  function RangeSeparator(op: string, low: string, s: string): Option<Tail> {
    if s != [] && IsRangeSeparator(s[0]) then RangeHigh(op, low, SkipSpaces(s[1..])) else None
  }

  /** `([0-9]+\.?[0-9]*)`, group 6, the upper end. */
  function RangeHigh(op: string, low: string, s: string): Option<Tail> {
    if s != [] && IsDigit(s[0]) then Some(RangeTail(op, low, s[..NumeralLength(s)])) else None
  }

  /** `[（(<]\s*([<>]?)([0-9]+\.?[0-9]*)\s*[）)>]?` at the start of `s` (the closing part is optional). */
  function MatchBound(s: string): Option<Tail> {
    if s != [] && IsOpening(s[0]) then BoundSign(SkipSpaces(s[1..])) else None
  }

  /** `([<>]?)`, group 7, then the bound. */
  function BoundSign(s: string): Option<Tail> {
    if s != [] && IsComparison(s[0]) then BoundNumber(s[..1], s[1..]) else BoundNumber("", s)
  }

  /** `([0-9]+\.?[0-9]*)`, group 8; `op` is group 7. */
  function BoundNumber(op: string, s: string): Option<Tail> {
    if s != [] && IsDigit(s[0]) then Some(BoundTail(op, s[..NumeralLength(s)])) else None
  }

  /** The lazy `.*?` followed by the alternation: the first position where either matches. */
  function MatchTail(s: string): Option<Tail> {
    var range := MatchRange(s);
    if range.Some? then range
    else
      var bound := MatchBound(s);
      if bound.Some? then bound
      else if s != [] && s[0] != '\n' then MatchTail(s[1..])
      else None
  }

  /**
   * The rest of a match whose name group is `name` and whose value starts `s`:
   * the value, `\s*`, the unit, then the tail.
   */
  function MatchAt(name: string, s: string): Option<Groups>
    requires s != [] && IsDigit(s[0])
  {
    var n := NumeralLength(s);
    var unitText := SkipSpaces(s[n..]);
    var k := RunLength(unitText, UnitChars);
    if k == 0 then None
    else
      match MatchTail(unitText[k..])
      case None => None
      case Some(tail) => Some(GroupsOf(name, s[..n], unitText[..k], tail))
  }

  function GroupsOf(name: string, value: string, unit: string, tail: Tail): Groups {
    match tail
    case RangeTail(op, low, high) => Groups(name, value, unit, op, low, high, "", "")
    case BoundTail(op, bound) => Groups(name, value, unit, "", "", "", op, bound)
  }

  /**
   * The leftmost match at or after `i`; `start` is the first position after the
   * last digit seen, i.e. the leftmost place a name group may start.
   */
  function Find(s: string, i: nat, start: nat): Option<Groups>
    requires start <= i <= |s|
    decreases |s| - i
  {
    if i == |s| then None
    else if IsDigit(s[i]) then
      if start < i then
        var m := MatchAt(s[start..NameEnd(s, start, i)], s[i..]);
        if m.Some? then m else Find(s, i + 1, i + 1)
      else Find(s, i + 1, i + 1)
    else Find(s, i + 1, start)
  }

  /** regexp.FindStringSubmatch with the lab-line pattern: None when the line does not match. */
  function MatchLine(line: string): Option<Groups> {
    Find(line, 0, 0)
  }
}
