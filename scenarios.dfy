/**
 * The model on the inputs the repository's own test drivers use
 * (test.go:16-20, 32-35, 188): which lines are read and how, and what an
 * empty list of measurements is assessed as.
 */
module Scenarios {
  import opened Wrappers
  import opened Strings
  import opened LabPattern
  import opened LabPatternFacts
  import opened LabParser
  import opened LabLines
  import opened RiskClassifier

  /** A text without digits. */
  predicate DigitFree(s: string) {
    forall c :: c in s ==> !IsDigit(c)
  }

  /** The pattern needs a digit for the value: without one the scan finds nothing. */
  lemma {:induction false} FindWithoutDigits(s: string, i: nat, start: nat)
    requires start <= i <= |s| && DigitFree(s)
    ensures Find(s, i, start) == None
    decreases |s| - i
  {
    if i < |s| {
      assert s[i] in s;
      FindWithoutDigits(s, i + 1, start);
    }
  }

  /** Every line of Split is a piece of its input, so it has only the input's characters. */
  lemma {:induction false} SplitKeepsCharacters(s: string)
    ensures forall i, c :: 0 <= i < |Split(s)| && c in Split(s)[i] ==> c in s
  {
    if s != [] {
      SplitKeepsCharacters(s[1..]);
      var rest := Split(s[1..]);
      assert forall c :: c in s[1..] ==> c in s;
      if s[0] != '\n' {
        assert forall c :: c in [s[0]] + rest[0] ==> c == s[0] || c in rest[0];
      }
    }
  }

  /** What TrimSpace keeps is a piece of the line. */
  lemma TrimSpaceDigitFree(line: string)
    requires DigitFree(line)
    ensures DigitFree(TrimSpace(line))
  {
    var l := TrimLeft(line);
    assert forall c :: c in l ==> c in line;
    var r := TrimRight(l);
    assert forall c :: c in r ==> c in l;
  }

  /** A line without digits yields nothing. */
  lemma ParseLineDigitFree(line: string)
    requires DigitFree(line)
    ensures ParseLine(line) == None
  {
    TrimSpaceDigitFree(line);
    var trimmed := TrimSpace(line);
    if trimmed != "" {
      FindWithoutDigits(trimmed, 0, 0);
    }
  }

  /** Lines without digits yield nothing. */
  lemma {:induction false} ParseLinesDigitFree(lines: seq<string>)
    requires forall i :: 0 <= i < |lines| ==> DigitFree(lines[i])
    ensures ParseLines(lines) == []
  {
    if lines != [] {
      ParseLinesDigitFree(lines[..|lines| - 1]);
      ParseLineDigitFree(lines[|lines| - 1]);
    }
  }

  /** A report without a single digit yields no measurement at all, and no error. */
  lemma NoDigitsNoResults(input: string)
    requires DigitFree(input)
    ensures ParseLines(Split(input)) == []
  {
    var lines := Split(input);
    SplitKeepsCharacters(input);
    ParseLinesDigitFree(lines);
  }

  /** The malformed report of test.go:188 gives an empty list. */
  method ParseInvalidReport() returns (results: seq<LabResult>)
    ensures results == []
  {
    NoDigitsNoResults("无效的化验单数据");
    results := ParseLabInput("无效的化验单数据");
  }

  /** A one-digit numeral and its value. */
  lemma OneDigitNumeral(t: string)
    requires |t| == 1 && IsDigit(t[0])
    ensures IsNumeral(t) && DecimalValue(t) == DigitValue(t[0]) as real
  {
    RunLengthAll(t, Digits);
  }

  /** A two-digit numeral and its value. */
  lemma TwoDigitNumeral(t: string)
    requires |t| == 2 && IsDigit(t[0]) && IsDigit(t[1])
    ensures IsNumeral(t) && DecimalValue(t) == (10 * DigitValue(t[0]) + DigitValue(t[1])) as real
  {
    RunLengthAll(t, Digits);
    assert DigitsValue(t, 0, 1) == DigitValue(t[0]);
  }

  /** A three-digit numeral and its value. */
  lemma ThreeDigitNumeral(t: string)
    requires |t| == 3 && IsDigit(t[0]) && IsDigit(t[1]) && IsDigit(t[2])
    ensures IsNumeral(t)
    ensures DecimalValue(t) == (100 * DigitValue(t[0]) + 10 * DigitValue(t[1]) + DigitValue(t[2])) as real
  {
    RunLengthAll(t, Digits);
    assert DigitsValue(t, 0, 1) == DigitValue(t[0]);
    assert DigitsValue(t, 0, 2) == 10 * DigitValue(t[0]) + DigitValue(t[1]);
  }

  /** A numeral `d.d` and its value. */
  lemma OneDecimalNumeral(t: string)
    requires |t| == 3 && IsDigit(t[0]) && t[1] == '.' && IsDigit(t[2])
    ensures IsNumeral(t) && DecimalValue(t) == DigitValue(t[0]) as real + DigitValue(t[2]) as real / 10.0
  {
    assert RunLength(t[1..], Digits) == 0;
    assert RunLength(t[2..], Digits) == 1;
  }

  /** A numeral `dd.d` and its value. */
  lemma TwoDigitDecimalNumeral(t: string)
    requires |t| == 4 && IsDigit(t[0]) && IsDigit(t[1]) && t[2] == '.' && IsDigit(t[3])
    ensures IsNumeral(t)
    ensures DecimalValue(t) == (10 * DigitValue(t[0]) + DigitValue(t[1])) as real + DigitValue(t[3]) as real / 10.0
  {
    assert RunLength(t[2..], Digits) == 0;
    assert RunLength(t[1..], Digits) == 1;
    assert RunLength(t[3..], Digits) == 1;
    assert DigitsValue(t, 0, 1) == DigitValue(t[0]);
  }

  /** `580` is the numeral 580.0. */
  lemma Numeral580()
    ensures IsNumeral("580") && DecimalValue("580") == 580.0
  {
    ThreeDigitNumeral("580");
  }

  /** `208` is the numeral 208.0. */
  lemma Numeral208()
    ensures IsNumeral("208") && DecimalValue("208") == 208.0
  {
    ThreeDigitNumeral("208");
  }

  /** `428` is the numeral 428.0. */
  lemma Numeral428()
    ensures IsNumeral("428") && DecimalValue("428") == 428.0
  {
    ThreeDigitNumeral("428");
  }

  /** `135` is the numeral 135.0. */
  lemma Numeral135()
    ensures IsNumeral("135") && DecimalValue("135") == 135.0
  {
    ThreeDigitNumeral("135");
  }

  /** `106` is the numeral 106.0. */
  lemma Numeral106()
    ensures IsNumeral("106") && DecimalValue("106") == 106.0
  {
    ThreeDigitNumeral("106");
  }

  /** `350` is the numeral 350.0. */
  lemma Numeral350()
    ensures IsNumeral("350") && DecimalValue("350") == 350.0
  {
    ThreeDigitNumeral("350");
  }

  /** `55` is the numeral 55.0. */
  lemma Numeral55()
    ensures IsNumeral("55") && DecimalValue("55") == 55.0
  {
    TwoDigitNumeral("55");
  }

  /** `54` is the numeral 54.0. */
  lemma Numeral54()
    ensures IsNumeral("54") && DecimalValue("54") == 54.0
  {
    TwoDigitNumeral("54");
  }

  /** `85` is the numeral 85.0. */
  lemma Numeral85()
    ensures IsNumeral("85") && DecimalValue("85") == 85.0
  {
    TwoDigitNumeral("85");
  }

  /** `15` is a numeral. */
  lemma Numeral15()
    ensures IsNumeral("15")
  {
    TwoDigitNumeral("15");
  }

  /** `8` is the numeral 8.0. */
  lemma Numeral8()
    ensures IsNumeral("8") && DecimalValue("8") == 8.0
  {
    OneDigitNumeral("8");
  }

  /** `25.6` is the numeral 25.6. */
  lemma Numeral25Point6()
    ensures IsNumeral("25.6") && DecimalValue("25.6") == 25.6
  {
    TwoDigitDecimalNumeral("25.6");
  }

  /** `1.2` is the numeral 1.2. */
  lemma Numeral1Point2()
    ensures IsNumeral("1.2") && DecimalValue("1.2") == 1.2
  {
    OneDecimalNumeral("1.2");
  }

  /** `3.0` is a numeral. */
  lemma Numeral3Point0()
    ensures IsNumeral("3.0")
  {
    OneDecimalNumeral("3.0");
  }

  /** The parameter names of the test reports. */
  lemma ScenarioNames()
    ensures IsName("尿酸") && IsName("C反应蛋白") && IsName("血沉") && IsName("肌酐")
  {
  }

  /** The units of the test reports. */
  lemma ScenarioUnits()
    ensures IsUnit("umol/L") && IsUnit("mg/L") && IsUnit("mm/h")
  {
  }

  /** `尿酸 580 umol/L (参考范围: 208-428)` (test.go:16): above the range, so high. */
  lemma HighUricLine()
    ensures ParseLine(LabLine("尿酸", "580", "umol/L", RangeNote("208", "428")))
         == Some(LabResult("尿酸", 580.0, "umol/L", 208.0, 428.0, High))
  {
    Numeral580();
    Numeral208();
    Numeral428();
    ScenarioNames();
    ScenarioUnits();
    RangeLineParsed("尿酸", "580", "umol/L", "208", "428");
  }

  /** `C反应蛋白 25.6 mg/L (参考范围: <3.0)` (test.go:17): no bound is set, so even this value counts as normal. */
  lemma HighCrpLine()
    ensures ParseLine(LabLine("C反应蛋白", "25.6", "mg/L", LabelledBoundNote("3.0")))
         == Some(LabResult("C反应蛋白", 25.6, "mg/L", 0.0, 0.0, Normal))
  {
    Numeral25Point6();
    Numeral3Point0();
    ScenarioNames();
    ScenarioUnits();
    LabelledBoundLineParsed("C反应蛋白", "25.6", "mg/L", "3.0");
  }

  /** `血沉 55 mm/h (参考范围: <15)` (test.go:18): normal for the same reason. */
  lemma HighEsrLine()
    ensures ParseLine(LabLine("血沉", "55", "mm/h", LabelledBoundNote("15")))
         == Some(LabResult("血沉", 55.0, "mm/h", 0.0, 0.0, Normal))
  {
    Numeral55();
    Numeral15();
    ScenarioNames();
    ScenarioUnits();
    LabelledBoundLineParsed("血沉", "55", "mm/h", "15");
  }

  /** `肌酐 135 umol/L (参考范围: 54-106)` (test.go:19): above the range, so high. */
  lemma HighCreatinineLine()
    ensures ParseLine(LabLine("肌酐", "135", "umol/L", RangeNote("54", "106")))
         == Some(LabResult("肌酐", 135.0, "umol/L", 54.0, 106.0, High))
  {
    Numeral135();
    Numeral54();
    Numeral106();
    ScenarioNames();
    ScenarioUnits();
    RangeLineParsed("肌酐", "135", "umol/L", "54", "106");
  }

  /** `尿酸 350 umol/L (参考范围: 208-428)` (test.go:32): within the range. */
  lemma NormalUricLine()
    ensures ParseLine(LabLine("尿酸", "350", "umol/L", RangeNote("208", "428")))
         == Some(LabResult("尿酸", 350.0, "umol/L", 208.0, 428.0, Normal))
  {
    Numeral350();
    Numeral208();
    Numeral428();
    ScenarioNames();
    ScenarioUnits();
    RangeLineParsed("尿酸", "350", "umol/L", "208", "428");
  }

  /** `C反应蛋白 1.2 mg/L (参考范围: <3.0)` (test.go:33). */
  lemma NormalCrpLine()
    ensures ParseLine(LabLine("C反应蛋白", "1.2", "mg/L", LabelledBoundNote("3.0")))
         == Some(LabResult("C反应蛋白", 1.2, "mg/L", 0.0, 0.0, Normal))
  {
    Numeral1Point2();
    Numeral3Point0();
    ScenarioNames();
    ScenarioUnits();
    LabelledBoundLineParsed("C反应蛋白", "1.2", "mg/L", "3.0");
  }

  /** `血沉 8 mm/h (参考范围: <15)` (test.go:34). */
  lemma NormalEsrLine()
    ensures ParseLine(LabLine("血沉", "8", "mm/h", LabelledBoundNote("15")))
         == Some(LabResult("血沉", 8.0, "mm/h", 0.0, 0.0, Normal))
  {
    Numeral8();
    Numeral15();
    ScenarioNames();
    ScenarioUnits();
    LabelledBoundLineParsed("血沉", "8", "mm/h", "15");
  }

  /** `肌酐 85 umol/L (参考范围: 54-106)` (test.go:35): within the range. */
  lemma NormalCreatinineLine()
    ensures ParseLine(LabLine("肌酐", "85", "umol/L", RangeNote("54", "106")))
         == Some(LabResult("肌酐", 85.0, "umol/L", 54.0, 106.0, Normal))
  {
    Numeral85();
    Numeral54();
    Numeral106();
    ScenarioNames();
    ScenarioUnits();
    RangeLineParsed("肌酐", "85", "umol/L", "54", "106");
  }

  /** A name without `酸` and `u` holds no uric-acid keyword. */
  lemma NotUricAcid(name: string)
    requires '酸' !in name && 'u' !in name
    ensures !IsUricAcid(name)
  {
    NotContainsAbsent(name, "尿酸", '酸');
    NotContainsAbsent(name, "uric", 'u');
  }

  /** A name without `反`, `p`, `沉`, `s`, `胞` and `w` holds no inflammation keyword. */
  lemma NotInflammatory(name: string)
    requires '反' !in name && 'p' !in name && '沉' !in name && 's' !in name && '胞' !in name && 'w' !in name
    ensures !IsInflammatory(name)
  {
    NotContainsAbsent(name, "c反应蛋白", '反');
    NotContainsAbsent(name, "crp", 'p');
    NotContainsAbsent(name, "血沉", '沉');
    NotContainsAbsent(name, "esr", 's');
    NotContainsAbsent(name, "白细胞", '胞');
    NotContainsAbsent(name, "wbc", 'w');
  }

  /** A name without `肌`, `t`, `素`, `u`, `肾` and `g` holds no kidney keyword. */
  lemma NotKidney(name: string)
    requires '肌' !in name && 't' !in name && '素' !in name && 'u' !in name && '肾' !in name && 'g' !in name
    ensures !IsKidney(name)
  {
    NotContainsAbsent(name, "肌酐", '肌');
    NotContainsAbsent(name, "creatinine", 't');
    NotContainsAbsent(name, "尿素", '素');
    NotContainsAbsent(name, "urea", 'u');
    NotContainsAbsent(name, "肾小球", '肾');
    NotContainsAbsent(name, "gfr", 'g');
  }

  /** `尿酸` lower-cases to `尿酸`. */
  lemma UricLower()
    ensures ToLower("尿酸") == "尿酸"
  {
    LowerOfLower("尿酸");
  }

  /** `尿酸` holds the keyword `尿酸`. */
  lemma UricInUricAcid()
    ensures IsUricAcid("尿酸")
  {
    assert HasPrefix("尿酸", "尿酸");
  }

  /** `C反应蛋白` lower-cases to `c反应蛋白`. */
  lemma CrpLower()
    ensures ToLower("C反应蛋白") == "c反应蛋白"
  {
  }

  /** `c反应蛋白` holds the keyword `c反应蛋白`. */
  lemma CrpInInflammation()
    ensures IsInflammatory("c反应蛋白")
  {
    assert HasPrefix("c反应蛋白", "c反应蛋白");
  }

  /** `血沉` lower-cases to `血沉`. */
  lemma EsrLower()
    ensures ToLower("血沉") == "血沉"
  {
    LowerOfLower("血沉");
  }

  /** `血沉` holds the keyword `血沉`. */
  lemma EsrInInflammation()
    ensures IsInflammatory("血沉")
  {
    assert HasPrefix("血沉", "血沉");
  }

  /** `肌酐` lower-cases to `肌酐`. */
  lemma CreatinineLower()
    ensures ToLower("肌酐") == "肌酐"
  {
    LowerOfLower("肌酐");
  }

  /** `肌酐` holds the keyword `肌酐`. */
  lemma CreatinineInKidney()
    ensures IsKidney("肌酐")
  {
    assert HasPrefix("肌酐", "肌酐");
  }

  /** The characters the keyword tests look for that `尿酸` lacks. */
  lemma UricLacks()
    ensures '反' !in "尿酸" && 'p' !in "尿酸" && '沉' !in "尿酸"
    ensures 's' !in "尿酸" && '胞' !in "尿酸" && 'w' !in "尿酸"
    ensures '肌' !in "尿酸" && 't' !in "尿酸" && '素' !in "尿酸"
    ensures 'u' !in "尿酸" && '肾' !in "尿酸" && 'g' !in "尿酸"
  {
  }

  /** A uric-acid measurement is in the uric-acid group only. */
  lemma UricCategories(r: LabResult)
    requires r.parameter == "尿酸"
    ensures InCategory(r, UricAcid) && !InCategory(r, Inflammation) && !InCategory(r, Kidney)
  {
    UricLacks();
    UricInUricAcid();
    NotInflammatory("尿酸");
    NotKidney("尿酸");
    UricLower();
  }

  /** The characters the keyword tests look for that `c反应蛋白` lacks. */
  lemma CrpLacks()
    ensures '酸' !in "c反应蛋白" && 'u' !in "c反应蛋白"
    ensures '肌' !in "c反应蛋白" && 't' !in "c反应蛋白" && '素' !in "c反应蛋白"
    ensures '肾' !in "c反应蛋白" && 'g' !in "c反应蛋白"
  {
  }

  /** A C-reactive protein measurement is in the inflammation group only. */
  lemma CrpCategories(r: LabResult)
    requires r.parameter == "C反应蛋白"
    ensures !InCategory(r, UricAcid) && InCategory(r, Inflammation) && !InCategory(r, Kidney)
  {
    CrpLacks();
    NotUricAcid("c反应蛋白");
    NotKidney("c反应蛋白");
    CrpInInflammation();
    CrpLower();
  }

  /** The characters the keyword tests look for that `血沉` lacks. */
  lemma EsrLacks()
    ensures '酸' !in "血沉" && 'u' !in "血沉" && '肌' !in "血沉"
    ensures 't' !in "血沉" && '素' !in "血沉" && '肾' !in "血沉"
    ensures 'g' !in "血沉"
  {
  }

  /** A sedimentation-rate measurement is in the inflammation group only. */
  lemma EsrCategories(r: LabResult)
    requires r.parameter == "血沉"
    ensures !InCategory(r, UricAcid) && InCategory(r, Inflammation) && !InCategory(r, Kidney)
  {
    EsrLacks();
    NotUricAcid("血沉");
    EsrInInflammation();
    NotKidney("血沉");
    EsrLower();
  }

  /** The characters the keyword tests look for that `肌酐` lacks. */
  lemma CreatinineLacks()
    ensures '酸' !in "肌酐" && 'u' !in "肌酐" && '反' !in "肌酐"
    ensures 'p' !in "肌酐" && '沉' !in "肌酐" && 's' !in "肌酐"
    ensures '胞' !in "肌酐" && 'w' !in "肌酐"
  {
  }

  /** A creatinine measurement is in the kidney group only. */
  lemma CreatinineCategories(r: LabResult)
    requires r.parameter == "肌酐"
    ensures !InCategory(r, UricAcid) && !InCategory(r, Inflammation) && InCategory(r, Kidney)
  {
    CreatinineLacks();
    NotUricAcid("肌酐");
    NotInflammatory("肌酐");
    CreatinineInKidney();
    CreatinineLower();
  }

  /** The scan of four measurements, one step each. */
  lemma ScanFour(a: LabResult, b: LabResult, c: LabResult, d: LabResult)
    ensures ScanAll([a, b, c, d]) == Step(Step(Step(Step(ScanAll([]), a), b), c), d)
  {
    assert [a][..0] == [];
    assert ScanAll([a]) == Step(ScanAll([]), a);
    assert [a, b][..1] == [a];
    assert ScanAll([a, b]) == Step(ScanAll([a]), b);
    assert [a, b, c][..2] == [a, b];
    assert ScanAll([a, b, c]) == Step(ScanAll([a, b]), c);
    assert [a, b, c, d][..3] == [a, b, c];
  }

  /** `r` is in group `c` and in no other. */
  predicate OnlyIn(r: LabResult, c: Category) {
    && (InCategory(r, UricAcid) <==> c == UricAcid)
    && (InCategory(r, Inflammation) <==> c == Inflammation)
    && (InCategory(r, Kidney) <==> c == Kidney)
  }

  /** A step over a measurement of the uric-acid group only. */
  lemma StepUricAcid(s: Scan, r: LabResult)
    requires OnlyIn(r, UricAcid)
    ensures Step(s, r) == Scan(Some(r), s.inflammatoryMarkers, s.kidneyFunction, s.notes + UricNote(r),
                               s.uricAcidHigh || r.status == High, s.inflammationPresent, s.kidneyIssues)
  {
  }

  /** A step over a measurement of the inflammation group only. */
  lemma StepInflammation(s: Scan, r: LabResult)
    requires OnlyIn(r, Inflammation)
    ensures Step(s, r) == Scan(s.uricAcidLevel, s.inflammatoryMarkers + [r], s.kidneyFunction, s.notes,
                               s.uricAcidHigh, s.inflammationPresent || r.status == High, s.kidneyIssues)
  {
  }

  /** A step over a measurement of the kidney group only that is not low. */
  lemma StepKidney(s: Scan, r: LabResult)
    requires OnlyIn(r, Kidney) && r.status != Low
    ensures Step(s, r) == Scan(s.uricAcidLevel, s.inflammatoryMarkers, s.kidneyFunction + [r], s.notes,
                               s.uricAcidHigh, s.inflammationPresent, s.kidneyIssues || r.status == High)
  {
  }

  /** What the loop gathers from a uric-acid, two inflammation and a kidney measurement. */
  lemma ScanOfFour(u: LabResult, c: LabResult, e: LabResult, k: LabResult)
    requires OnlyIn(u, UricAcid) && OnlyIn(c, Inflammation) && OnlyIn(e, Inflammation)
    requires OnlyIn(k, Kidney) && k.status != Low
    ensures ScanAll([u, c, e, k])
         == Scan(Some(u), [c, e], [k], UricNote(u), u.status == High,
                 c.status == High || e.status == High, k.status == High)
  {
    ScanFour(u, c, e, k);
    var s0 := ScanAll([]);
    StepUricAcid(s0, u);
    StepInflammation(Step(s0, u), c);
    StepInflammation(Step(Step(s0, u), c), e);
    StepKidney(Step(Step(Step(s0, u), c), e), k);
  }

  /**
   * A report of a uric-acid value above 500, two normal inflammation markers
   * and a high kidney marker: medium risk, with the urgent uric-acid note,
   * the medium summary and both advice blocks.
   */
  lemma UricAndKidneyHighAssessed(u: LabResult, c: LabResult, e: LabResult, k: LabResult)
    requires OnlyIn(u, UricAcid) && u.status == High && u.value > 500.0
    requires OnlyIn(c, Inflammation) && c.status == Normal
    requires OnlyIn(e, Inflammation) && e.status == Normal
    requires OnlyIn(k, Kidney) && k.status == High
    ensures Analyze([u, c, e, k])
         == GoutAnalysisResult(Some(u), [c, e], [k], MediumRisk,
                               [UrgentUricNote, MediumRiskSummary] + GeneralAdvice + KidneyAdvice, true)
  {
    ScanOfFour(u, c, e, k);
    assert UricNote(u) == [UrgentUricNote];
    MediumConclusion(ScanAll([u, c, e, k]));
    assert [UrgentUricNote] + [MediumRiskSummary] == [UrgentUricNote, MediumRiskSummary];
  }

  /** High uric acid with a kidney issue but no inflammation concludes as medium risk. */
  lemma MediumConclusion(s: Scan)
    requires s.uricAcidHigh && !s.inflammationPresent && s.kidneyIssues
    ensures Conclude(s)
         == GoutAnalysisResult(s.uricAcidLevel, s.inflammatoryMarkers, s.kidneyFunction, MediumRisk,
                               s.notes + [MediumRiskSummary] + GeneralAdvice + KidneyAdvice, true)
  {
  }

  /**
   * A report of one normal measurement in each group and a second normal
   * inflammation marker: low risk, the all-normal summary only, no follow-up.
   */
  lemma AllNormalAssessed(u: LabResult, c: LabResult, e: LabResult, k: LabResult)
    requires OnlyIn(u, UricAcid) && u.status == Normal
    requires OnlyIn(c, Inflammation) && c.status == Normal
    requires OnlyIn(e, Inflammation) && e.status == Normal
    requires OnlyIn(k, Kidney) && k.status == Normal
    ensures Analyze([u, c, e, k])
         == GoutAnalysisResult(Some(u), [c, e], [k], LowRisk, [NormalSummary], false)
  {
    ScanOfFour(u, c, e, k);
    assert UricNote(u) == [];
  }

  /**
   * The four measurements of the report test.go:16-20 calls high-risk (its
   * white-cell line is not among them: the `×10⁹/L` unit is outside
   * `[a-zA-Z/μmol]+`). The inflammation markers read as normal, so the
   * assessment is medium risk, not high.
   */
  lemma HighRiskCaseAssessed(u: LabResult, c: LabResult, e: LabResult, k: LabResult)
    requires u == LabResult("尿酸", 580.0, "umol/L", 208.0, 428.0, High)
    requires c == LabResult("C反应蛋白", 25.6, "mg/L", 0.0, 0.0, Normal)
    requires e == LabResult("血沉", 55.0, "mm/h", 0.0, 0.0, Normal)
    requires k == LabResult("肌酐", 135.0, "umol/L", 54.0, 106.0, High)
    ensures Analyze([u, c, e, k])
         == GoutAnalysisResult(Some(u), [c, e], [k], MediumRisk,
                               [UrgentUricNote, MediumRiskSummary] + GeneralAdvice + KidneyAdvice, true)
  {
    UricCategories(u);
    CrpCategories(c);
    EsrCategories(e);
    CreatinineCategories(k);
    UricAndKidneyHighAssessed(u, c, e, k);
  }

  /** The report of test.go:32-35 is assessed as low risk with the all-normal summary. */
  lemma NormalCaseAssessed(u: LabResult, c: LabResult, e: LabResult, k: LabResult)
    requires u == LabResult("尿酸", 350.0, "umol/L", 208.0, 428.0, Normal)
    requires c == LabResult("C反应蛋白", 1.2, "mg/L", 0.0, 0.0, Normal)
    requires e == LabResult("血沉", 8.0, "mm/h", 0.0, 0.0, Normal)
    requires k == LabResult("肌酐", 85.0, "umol/L", 54.0, 106.0, Normal)
    ensures Analyze([u, c, e, k]) == GoutAnalysisResult(Some(u), [c, e], [k], LowRisk, [NormalSummary], false)
  {
    UricCategories(u);
    CrpCategories(c);
    EsrCategories(e);
    CreatinineCategories(k);
    AllNormalAssessed(u, c, e, k);
  }

  /** No measurement at all: low risk, the all-normal summary, no follow-up. */
  lemma EmptyAnalysis()
    ensures Analyze([]) == GoutAnalysisResult(None, [], [], LowRisk, [NormalSummary], false)
  {
  }
}
