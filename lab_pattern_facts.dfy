/**
 * Facts about the lab-line matcher: the runs it takes are exactly the
 * maximal runs, so on text assembled from pieces it splits the text back into
 * those pieces; stretches without digits, brackets or the range label are
 * passed over; and every number it captures is a numeral.
 */
module LabPatternFacts {
  import opened Wrappers
  import opened Sequences
  import opened LabPattern

  /** A string made only of characters of a class is one whole run. */
  lemma {:induction false} RunLengthAll(s: string, cls: CharClass)
    requires forall k :: 0 <= k < |s| ==> InClass(s[k], cls)
    ensures RunLength(s, cls) == |s|
  {
    if s != [] {
      RunLengthAll(s[1..], cls);
    }
  }

  /** Every character a run passes over is of its class. */
  lemma {:induction false} RunLengthRun(s: string, cls: CharClass)
    ensures forall k :: 0 <= k < RunLength(s, cls) ==> InClass(s[k], cls)
  {
    if s != [] && InClass(s[0], cls) {
      RunLengthRun(s[1..], cls);
    }
  }

  /** A run that ends inside `a` ends there in `a + b` as well; one that fills `a` continues into `b`. */
  lemma {:induction false} RunLengthConcat(a: string, b: string, cls: CharClass)
    ensures RunLength(a + b, cls) == if RunLength(a, cls) < |a| then RunLength(a, cls) else |a| + RunLength(b, cls)
  {
    if a == [] {
      assert a + b == b;
    } else {
      assert (a + b)[1..] == a[1..] + b;
      RunLengthConcat(a[1..], b, cls);
    }
  }

  /** The run at the start of a prefix is the run of the whole, cut at the prefix's end. */
  lemma RunLengthTake(s: string, m: nat, cls: CharClass)
    requires m <= |s|
    ensures RunLength(s[..m], cls) == if RunLength(s, cls) < m then RunLength(s, cls) else m
  {
    assert s == s[..m] + s[m..];
    RunLengthConcat(s[..m], s[m..], cls);
  }

  /** A numeral followed by text that cannot extend it is read as exactly that numeral. */
  lemma NumeralConcat(v: string, rest: string)
    requires IsNumeral(v)
    requires rest == [] || (!IsDigit(rest[0]) && rest[0] != '.')
    ensures IsDigit((v + rest)[0]) && NumeralLength(v + rest) == |v|
  {
    var k := RunLength(v, Digits);
    RunLengthConcat(v, rest, Digits);
    if k < |v| {
      assert (v + rest)[k] == v[k];
      assert (v + rest)[k + 1..] == v[k + 1..] + rest;
      RunLengthConcat(v[k + 1..], rest, Digits);
    } else if rest != [] {
      assert (v + rest)[|v|] == rest[0];
    }
  }

  /** What the value pattern takes from the start of `s` is a numeral. */
  lemma NumeralPrefix(s: string)
    requires s != [] && IsDigit(s[0])
    ensures IsNumeral(s[..NumeralLength(s)])
  {
    var n := NumeralLength(s);
    var p := s[..n];
    var k := RunLength(s, Digits);
    RunLengthTake(s, n, Digits);
    assert p[0] == s[0];
    if k < |s| && s[k] == '.' {
      var r := s[k + 1..];
      assert p[k] == s[k];
      assert p[k + 1..] == r[..n - k - 1];
      RunLengthTake(r, n - k - 1, Digits);
    }
  }

  /** `([<>]?)` captures nothing, `<` or `>`. */
  predicate IsComparisonGroup(op: string) {
    op == "" || op == "<" || op == ">"
  }

  /** Both ends of a range, or the bound, are numerals; the signs are comparison groups. */
  predicate TailNumeric(tail: Tail) {
    match tail
    case RangeTail(op, low, high) => IsComparisonGroup(op) && IsNumeral(low) && IsNumeral(high)
    case BoundTail(op, bound) => IsComparisonGroup(op) && IsNumeral(bound)
  }

  /**
   * The groups of a match: the value is a numeral, the unit is not empty, and
   * exactly one alternative took part, with numerals in its number groups.
   */
  predicate GroupsNumeric(g: Groups) {
    && IsNumeral(g.value) && g.unit != []
    && (|| (IsComparisonGroup(g.rangeOp) && IsNumeral(g.rangeMin) && IsNumeral(g.rangeMax)
            && g.boundOp == "" && g.boundValue == "")
        || (g.rangeOp == "" && g.rangeMin == "" && g.rangeMax == ""
            && IsComparisonGroup(g.boundOp) && IsNumeral(g.boundValue)))
  }

  lemma RangeHighNumeric(op: string, low: string, s: string)
    requires IsComparisonGroup(op) && IsNumeral(low)
    ensures RangeHigh(op, low, s).Some? ==> TailNumeric(RangeHigh(op, low, s).value)
  {
    if s != [] && IsDigit(s[0]) {
      NumeralPrefix(s);
    }
  }

  lemma RangeLowNumeric(op: string, s: string)
    requires IsComparisonGroup(op)
    ensures RangeLow(op, s).Some? ==> TailNumeric(RangeLow(op, s).value)
  {
    if s != [] && IsDigit(s[0]) {
      NumeralPrefix(s);
      var n := NumeralLength(s);
      var r := SkipSpaces(s[n..]);
      if r != [] && IsRangeSeparator(r[0]) {
        RangeHighNumeric(op, s[..n], SkipSpaces(r[1..]));
      }
    }
  }

  lemma RangeSignNumeric(s: string)
    ensures RangeSign(s).Some? ==> TailNumeric(RangeSign(s).value)
  {
    if s != [] && IsComparison(s[0]) {
      assert s[..1] == [s[0]];
      RangeLowNumeric(s[..1], s[1..]);
    } else {
      RangeLowNumeric("", s);
    }
  }

  lemma MatchRangeNumeric(s: string)
    ensures MatchRange(s).Some? ==> TailNumeric(MatchRange(s).value)
  {
    if |s| >= 3 && s[0] == '参' && s[1] == '考' && s[2] == '范' {
      var r1 := s[3..];
      var r2 := if r1 != [] && r1[0] == '围' then r1[1..] else r1;
      var r3 := if r2 != [] && (r2[0] == '：' || r2[0] == ':') then r2[1..] else r2;
      RangeSignNumeric(SkipSpaces(r3));
    }
  }

  lemma BoundSignNumeric(s: string)
    ensures BoundSign(s).Some? ==> TailNumeric(BoundSign(s).value)
  {
    if s != [] && IsComparison(s[0]) {
      assert s[..1] == [s[0]];
      if s[1..] != [] && IsDigit(s[1..][0]) {
        NumeralPrefix(s[1..]);
      }
    } else if s != [] && IsDigit(s[0]) {
      NumeralPrefix(s);
    }
  }

  lemma MatchBoundNumeric(s: string)
    ensures MatchBound(s).Some? ==> TailNumeric(MatchBound(s).value)
  {
    if s != [] && IsOpening(s[0]) {
      BoundSignNumeric(SkipSpaces(s[1..]));
    }
  }

  lemma {:induction false} MatchTailNumeric(s: string)
    ensures MatchTail(s).Some? ==> TailNumeric(MatchTail(s).value)
  {
    MatchRangeNumeric(s);
    MatchBoundNumeric(s);
    if s != [] && s[0] != '\n' {
      MatchTailNumeric(s[1..]);
    }
  }

  lemma MatchAtNumeric(name: string, s: string)
    requires s != [] && IsDigit(s[0])
    ensures MatchAt(name, s).Some? ==> GroupsNumeric(MatchAt(name, s).value)
  {
    NumeralPrefix(s);
    var unitText := SkipSpaces(s[NumeralLength(s)..]);
    var k := RunLength(unitText, UnitChars);
    if k > 0 {
      MatchTailNumeric(unitText[k..]);
    }
  }

  lemma {:induction false} FindNumeric(s: string, i: nat, start: nat)
    requires start <= i <= |s|
    ensures Find(s, i, start).Some? ==> GroupsNumeric(Find(s, i, start).value)
    decreases |s| - i
  {
    if i < |s| {
      if IsDigit(s[i]) {
        if start < i {
          MatchAtNumeric(s[start..NameEnd(s, start, i)], s[i..]);
        }
        FindNumeric(s, i + 1, i + 1);
      } else {
        FindNumeric(s, i + 1, start);
      }
    }
  }

  /** Whatever the pattern captures in a number group is a numeral, so ParseFloat accepts it. */
  lemma MatchLineNumeric(line: string)
    ensures MatchLine(line).Some? ==> GroupsNumeric(MatchLine(line).value)
  {
    FindNumeric(line, 0, 0);
  }
}
