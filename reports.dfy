/**
 * Whole reports: the text of a lab report is split into lines, the lines are
 * read, and the measurements read are assessed, as GoutLabAnalyzer.Call does
 * before rendering the result (gout_analyzer.go:60-66). The two reports of
 * test.go are followed through the whole pipeline.
 */
module Reports {
  import opened Wrappers
  import opened Strings
  import opened LabPattern
  import opened LabParser
  import opened LabLines
  import opened LabMisses
  import opened RiskClassifier
  import opened Scenarios

  /** parseLabInput, then analyzeGoutRisk on the measurements it read. */
  method AnalyzeReport(input: string) returns (analysis: GoutAnalysisResult)
    ensures analysis == Analyze(ParseLines(Split(input)))
  {
    var results := ParseLabInput(input);
    analysis := AnalyzeGoutRisk(results);
  }

  /** A lab line made of pieces without line feeds has none. */
  lemma LabLineSingle(name: string, value: string, unit: string, note: string)
    requires '\n' !in name && '\n' !in value && '\n' !in unit && '\n' !in note
    ensures '\n' !in LabLine(name, value, unit, note)
  {
  }

  /** The two reference notes add no line feed. */
  lemma NotesSingle(low: string, high: string)
    requires '\n' !in low && '\n' !in high
    ensures '\n' !in RangeNote(low, high) && '\n' !in LabelledBoundNote(high)
  {
  }

  /** The first line read alone. */
  lemma ParseOne(lines: seq<string>)
    requires 1 <= |lines|
    ensures ParseLines(lines[..1]) == LineResults(lines[0])
  {
    assert lines[..0] == [];
    ParseLinesPrefix(lines, 0);
    assert [] + LineResults(lines[0]) == LineResults(lines[0]);
  }

  /** The first two lines, one after the other. */
  lemma ParseTwo(lines: seq<string>)
    requires 2 <= |lines|
    ensures ParseLines(lines[..2]) == LineResults(lines[0]) + LineResults(lines[1])
  {
    ParseOne(lines);
    ParseLinesPrefix(lines, 1);
  }

  /** The first three lines, one after the other. */
  lemma ParseThree(lines: seq<string>)
    requires 3 <= |lines|
    ensures ParseLines(lines[..3]) == LineResults(lines[0]) + LineResults(lines[1]) + LineResults(lines[2])
  {
    ParseTwo(lines);
    ParseLinesPrefix(lines, 2);
  }

  /** The first four lines, one after the other. */
  lemma ParseFour(lines: seq<string>)
    requires 4 <= |lines|
    ensures ParseLines(lines[..4])
         == LineResults(lines[0]) + LineResults(lines[1]) + LineResults(lines[2]) + LineResults(lines[3])
  {
    ParseThree(lines);
    ParseLinesPrefix(lines, 3);
  }

  /** The numbers of the white-cell line. */
  lemma WhiteCellNumerals()
    ensures IsClosedNumeral("12.5") && IsClosedNumeral("10")
    ensures IsClosedNumeral("4.0") && IsClosedNumeral("10.0")
  {
    TwoDigitDecimalNumeral("12.5");
    TwoDigitNumeral("10");
    OneDecimalNumeral("4.0");
    TwoDigitDecimalNumeral("10.0");
  }

  /** The name of the white-cell line, and its unit, which opens with `×`. */
  lemma WhiteCellText()
    ensures IsName("白细胞")
    ensures "×10⁹/L" == ['×'] + ("10" + "⁹/L")
  {
  }

  /**
   * `白细胞 12.5 ×10⁹/L (参考范围: 4.0-10.0)` (test.go:20): `×` is outside the
   * unit class, so the line yields nothing.
   */
  lemma WhiteCellLine()
    ensures ParseLine(LabLine("白细胞", "12.5", "×10⁹/L", RangeNote("4.0", "10.0"))) == None
  {
    WhiteCellNumerals();
    WhiteCellText();
    ForeignUnitRangeLine("白细胞", "12.5", '×', "10", "⁹/L", "4.0", "10.0");
  }

  /** The lines of the report test.go:16-20 calls high-risk. */
  const HighRiskLines: seq<string> := [
    LabLine("尿酸", "580", "umol/L", RangeNote("208", "428")),
    LabLine("C反应蛋白", "25.6", "mg/L", LabelledBoundNote("3.0")),
    LabLine("血沉", "55", "mm/h", LabelledBoundNote("15")),
    LabLine("肌酐", "135", "umol/L", RangeNote("54", "106")),
    LabLine("白细胞", "12.5", "×10⁹/L", RangeNote("4.0", "10.0"))]

  /** The lines of the normal report of test.go:32-35. */
  const NormalLines: seq<string> := [
    LabLine("尿酸", "350", "umol/L", RangeNote("208", "428")),
    LabLine("C反应蛋白", "1.2", "mg/L", LabelledBoundNote("3.0")),
    LabLine("血沉", "8", "mm/h", LabelledBoundNote("15")),
    LabLine("肌酐", "85", "umol/L", RangeNote("54", "106"))]

  /** Taking every element leaves a sequence as it is. */
  lemma TakeAll(lines: seq<string>)
    ensures lines[..|lines|] == lines
  {
  }

  /** A line that yields a measurement contributes exactly that one. */
  lemma LineYields(line: string, result: LabResult)
    requires ParseLine(line) == Some(result)
    ensures LineResults(line) == [result]
  {
  }

  /** Four one-element pieces put back together. */
  lemma JoinFour(a: seq<LabResult>, b: seq<LabResult>, c: seq<LabResult>, d: seq<LabResult>, results: seq<LabResult>)
    requires |results| == 4
    requires a == [results[0]] && b == [results[1]] && c == [results[2]] && d == [results[3]]
    ensures a + b + c + d == results
  {
  }

  /** Four lines without line feeds, joined and split again. */
  lemma FourLinesSplit(l0: string, l1: string, l2: string, l3: string)
    requires '\n' !in l0 && '\n' !in l1 && '\n' !in l2 && '\n' !in l3
    ensures Split(Join([l0, l1, l2, l3])) == [l0, l1, l2, l3]
  {
    var lines := [l0, l1, l2, l3];
    forall i | 0 <= i < |lines|
      ensures '\n' !in lines[i]
    {
      assert lines[i] == l0 || lines[i] == l1 || lines[i] == l2 || lines[i] == l3;
    }
    SplitJoin(lines);
  }

  /** Five lines without line feeds, joined and split again. */
  lemma FiveLinesSplit(l0: string, l1: string, l2: string, l3: string, l4: string)
    requires '\n' !in l0 && '\n' !in l1 && '\n' !in l2 && '\n' !in l3 && '\n' !in l4
    ensures Split(Join([l0, l1, l2, l3, l4])) == [l0, l1, l2, l3, l4]
  {
    var tail := [l1, l2, l3, l4];
    FourLinesSplit(l1, l2, l3, l4);
    SplitSingle(l0);
    var lines := [l0] + tail;
    assert lines[1..] == tail;
    SplitConcat(l0, Join(tail));
    assert lines == [l0, l1, l2, l3, l4];
  }

  /** Five lines are four lines and one more. */
  lemma AppendFifth(l0: string, l1: string, l2: string, l3: string, l4: string)
    ensures [l0, l1, l2, l3] + [l4] == [l0, l1, l2, l3, l4]
  {
  }

  /** A line that yields nothing adds nothing. */
  lemma SnocNothing(lines: seq<string>, line: string, results: seq<LabResult>)
    requires ParseLines(lines) == results && LineResults(line) == []
    ensures ParseLines(lines + [line]) == results
  {
    ParseLinesSnoc(lines, line);
    assert results + [] == results;
  }

  /** Four lines that each yield one measurement yield those four, in order. */
  lemma FourLinesParsed(l0: string, l1: string, l2: string, l3: string,
                        r0: LabResult, r1: LabResult, r2: LabResult, r3: LabResult)
    requires ParseLine(l0) == Some(r0) && ParseLine(l1) == Some(r1)
    requires ParseLine(l2) == Some(r2) && ParseLine(l3) == Some(r3)
    ensures ParseLines([l0, l1, l2, l3]) == [r0, r1, r2, r3]
  {
    var lines := [l0, l1, l2, l3];
    ParseFour(lines);
    TakeAll(lines);
    LineYields(l0, r0);
    LineYields(l1, r1);
    LineYields(l2, r2);
    LineYields(l3, r3);
    JoinFour(LineResults(l0), LineResults(l1), LineResults(l2), LineResults(l3), [r0, r1, r2, r3]);
  }

  /** The same with a fifth line that yields nothing. */
  lemma FiveLinesParsed(l0: string, l1: string, l2: string, l3: string, l4: string,
                        r0: LabResult, r1: LabResult, r2: LabResult, r3: LabResult)
    requires ParseLine(l0) == Some(r0) && ParseLine(l1) == Some(r1)
    requires ParseLine(l2) == Some(r2) && ParseLine(l3) == Some(r3)
    requires ParseLine(l4) == None
    ensures ParseLines([l0, l1, l2, l3, l4]) == [r0, r1, r2, r3]
  {
    FourLinesParsed(l0, l1, l2, l3, r0, r1, r2, r3);
    assert LineResults(l4) == [];
    SnocNothing([l0, l1, l2, l3], l4, [r0, r1, r2, r3]);
    AppendFifth(l0, l1, l2, l3, l4);
  }

  /** The high-risk report yields four measurements; its white-cell line yields none. */
  lemma HighRiskReportRead()
    ensures ParseLines(Split(Join(HighRiskLines)))
         == [LabResult("尿酸", 580.0, "umol/L", 208.0, 428.0, High),
             LabResult("C反应蛋白", 25.6, "mg/L", 0.0, 0.0, Normal),
             LabResult("血沉", 55.0, "mm/h", 0.0, 0.0, Normal),
             LabResult("肌酐", 135.0, "umol/L", 54.0, 106.0, High)]
  {
    NotesSingle("208", "428");
    NotesSingle("54", "106");
    NotesSingle("4.0", "10.0");
    NotesSingle("", "3.0");
    NotesSingle("", "15");
    LabLineSingle("尿酸", "580", "umol/L", RangeNote("208", "428"));
    LabLineSingle("C反应蛋白", "25.6", "mg/L", LabelledBoundNote("3.0"));
    LabLineSingle("血沉", "55", "mm/h", LabelledBoundNote("15"));
    LabLineSingle("肌酐", "135", "umol/L", RangeNote("54", "106"));
    LabLineSingle("白细胞", "12.5", "×10⁹/L", RangeNote("4.0", "10.0"));
    HighUricLine();
    HighCrpLine();
    HighEsrLine();
    HighCreatinineLine();
    WhiteCellLine();
    FiveLinesSplit(LabLine("尿酸", "580", "umol/L", RangeNote("208", "428")),
                   LabLine("C反应蛋白", "25.6", "mg/L", LabelledBoundNote("3.0")),
                   LabLine("血沉", "55", "mm/h", LabelledBoundNote("15")),
                   LabLine("肌酐", "135", "umol/L", RangeNote("54", "106")),
                   LabLine("白细胞", "12.5", "×10⁹/L", RangeNote("4.0", "10.0")));
    FiveLinesParsed(LabLine("尿酸", "580", "umol/L", RangeNote("208", "428")),
                   LabLine("C反应蛋白", "25.6", "mg/L", LabelledBoundNote("3.0")),
                   LabLine("血沉", "55", "mm/h", LabelledBoundNote("15")),
                   LabLine("肌酐", "135", "umol/L", RangeNote("54", "106")),
                   LabLine("白细胞", "12.5", "×10⁹/L", RangeNote("4.0", "10.0")),
                   LabResult("尿酸", 580.0, "umol/L", 208.0, 428.0, High),
                   LabResult("C反应蛋白", 25.6, "mg/L", 0.0, 0.0, Normal),
                   LabResult("血沉", 55.0, "mm/h", 0.0, 0.0, Normal),
                   LabResult("肌酐", 135.0, "umol/L", 54.0, 106.0, High));
  }

  /** The normal report yields its four measurements, all normal. */
  lemma NormalReportRead()
    ensures ParseLines(Split(Join(NormalLines)))
         == [LabResult("尿酸", 350.0, "umol/L", 208.0, 428.0, Normal),
             LabResult("C反应蛋白", 1.2, "mg/L", 0.0, 0.0, Normal),
             LabResult("血沉", 8.0, "mm/h", 0.0, 0.0, Normal),
             LabResult("肌酐", 85.0, "umol/L", 54.0, 106.0, Normal)]
  {
    NotesSingle("208", "428");
    NotesSingle("54", "106");
    NotesSingle("", "3.0");
    NotesSingle("", "15");
    LabLineSingle("尿酸", "350", "umol/L", RangeNote("208", "428"));
    LabLineSingle("C反应蛋白", "1.2", "mg/L", LabelledBoundNote("3.0"));
    LabLineSingle("血沉", "8", "mm/h", LabelledBoundNote("15"));
    LabLineSingle("肌酐", "85", "umol/L", RangeNote("54", "106"));
    NormalUricLine();
    NormalCrpLine();
    NormalEsrLine();
    NormalCreatinineLine();
    FourLinesSplit(LabLine("尿酸", "350", "umol/L", RangeNote("208", "428")),
                   LabLine("C反应蛋白", "1.2", "mg/L", LabelledBoundNote("3.0")),
                   LabLine("血沉", "8", "mm/h", LabelledBoundNote("15")),
                   LabLine("肌酐", "85", "umol/L", RangeNote("54", "106")));
    FourLinesParsed(LabLine("尿酸", "350", "umol/L", RangeNote("208", "428")),
                   LabLine("C反应蛋白", "1.2", "mg/L", LabelledBoundNote("3.0")),
                   LabLine("血沉", "8", "mm/h", LabelledBoundNote("15")),
                   LabLine("肌酐", "85", "umol/L", RangeNote("54", "106")),
                   LabResult("尿酸", 350.0, "umol/L", 208.0, 428.0, Normal),
                   LabResult("C反应蛋白", 1.2, "mg/L", 0.0, 0.0, Normal),
                   LabResult("血沉", 8.0, "mm/h", 0.0, 0.0, Normal),
                   LabResult("肌酐", 85.0, "umol/L", 54.0, 106.0, Normal));
  }

  /**
   * The report test.go:16-20 calls high-risk is assessed as medium risk: its
   * inflammation markers carry no bound and its white-cell line is skipped.
   */
  method AnalyzeHighRiskReport() returns (analysis: GoutAnalysisResult)
    ensures analysis.riskLevel == MediumRisk && analysis.followUpNeeded
    ensures analysis.recommendations == [UrgentUricNote, MediumRiskSummary] + GeneralAdvice + KidneyAdvice
    ensures analysis.uricAcidLevel == Some(LabResult("尿酸", 580.0, "umol/L", 208.0, 428.0, High))
    ensures analysis.inflammatoryMarkers == [LabResult("C反应蛋白", 25.6, "mg/L", 0.0, 0.0, Normal),
                                             LabResult("血沉", 55.0, "mm/h", 0.0, 0.0, Normal)]
    ensures analysis.kidneyFunction == [LabResult("肌酐", 135.0, "umol/L", 54.0, 106.0, High)]
  {
    HighRiskReportRead();
    analysis := AnalyzeReport(Join(HighRiskLines));
    HighRiskCaseAssessed(LabResult("尿酸", 580.0, "umol/L", 208.0, 428.0, High),
                         LabResult("C反应蛋白", 25.6, "mg/L", 0.0, 0.0, Normal),
                         LabResult("血沉", 55.0, "mm/h", 0.0, 0.0, Normal),
                         LabResult("肌酐", 135.0, "umol/L", 54.0, 106.0, High));
  }

  /** The normal report of test.go:32-35 is assessed as low risk with no follow-up. */
  method AnalyzeNormalReport() returns (analysis: GoutAnalysisResult)
    ensures analysis.riskLevel == LowRisk && !analysis.followUpNeeded
    ensures analysis.recommendations == [NormalSummary]
  {
    NormalReportRead();
    analysis := AnalyzeReport(Join(NormalLines));
    NormalCaseAssessed(LabResult("尿酸", 350.0, "umol/L", 208.0, 428.0, Normal),
                       LabResult("C反应蛋白", 1.2, "mg/L", 0.0, 0.0, Normal),
                       LabResult("血沉", 8.0, "mm/h", 0.0, 0.0, Normal),
                       LabResult("肌酐", 85.0, "umol/L", 54.0, 106.0, Normal));
  }
}
