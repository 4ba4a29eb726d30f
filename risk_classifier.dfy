/**
 * The risk assessment of gout_analyzer.go (analyzeGoutRisk): one pass over the
 * measurements sorts them into the uric-acid, inflammation and kidney groups
 * by keywords in their lower-cased names and raises three flags; a fixed table
 * then turns the flags into a risk level, a follow-up flag and advice texts.
 */
module RiskClassifier {
  import opened Wrappers
  import opened Strings
  import opened LabParser
  import Sequences

  /** 低风险 / 中风险 / 高风险 */
  datatype RiskLevel = LowRisk | MediumRisk | HighRisk {
    function Label(): string {
      match this
      case LowRisk => "低风险"
      case MediumRisk => "中风险"
      case HighRisk => "高风险"
    }

    /** The order LOW < MEDIUM < HIGH. */
    function Rank(): nat {
      match this
      case LowRisk => 0
      case MediumRisk => 1
      case HighRisk => 2
    }
  }

  /** The outcome of the analysis; `uricAcidLevel` is None where no uric-acid line was seen. */
  datatype GoutAnalysisResult = GoutAnalysisResult(
    uricAcidLevel: Option<LabResult>,
    inflammatoryMarkers: seq<LabResult>,
    kidneyFunction: seq<LabResult>,
    riskLevel: RiskLevel,
    recommendations: seq<string>,
    followUpNeeded: bool)

  /** The uric-acid keywords (gout_analyzer.go:172), on a lower-cased name. */
  predicate IsUricAcid(name: string) {
    Contains(name, "尿酸") || Contains(name, "uric")
  }

  /** The inflammation keywords (gout_analyzer.go:185-187), on a lower-cased name. */
  predicate IsInflammatory(name: string) {
    || Contains(name, "c反应蛋白") || Contains(name, "crp")
    || Contains(name, "血沉") || Contains(name, "esr")
    || Contains(name, "白细胞") || Contains(name, "wbc")
  }

  /** The kidney keywords (gout_analyzer.go:195-197), on a lower-cased name. */
  predicate IsKidney(name: string) {
    || Contains(name, "肌酐") || Contains(name, "creatinine")
    || Contains(name, "尿素") || Contains(name, "urea")
    || Contains(name, "肾小球") || Contains(name, "gfr")
  }

  /** The three groups, each decided on its own: a measurement may be in several. */
  datatype Category = UricAcid | Inflammation | Kidney

  predicate InCategory(r: LabResult, c: Category) {
    var name := ToLower(r.parameter);
    match c
    case UricAcid => IsUricAcid(name)
    case Inflammation => IsInflammatory(name)
    case Kidney => IsKidney(name)
  }

  /** A measurement that sets the flag of its group: high, or for a `gfr` kidney marker also low. */
  predicate Raises(r: LabResult, c: Category) {
    && InCategory(r, c)
    && (|| r.status == High
        || (c == Kidney && Contains(ToLower(r.parameter), "gfr") && r.status == Low))
  }

  const UrgentUricNote := "尿酸水平显著升高，建议立即就医，考虑药物治疗"
  const DietUricNote := "尿酸水平偏高，建议调整饮食，限制高嘌呤食物摄入"

  const HighRiskSummary := "存在多项异常指标，强烈建议立即就医，需要专业医生制定治疗方案"
  const MediumRiskSummary := "建议尽快就医，进行进一步检查和评估"
  const LowRiskSummary := "建议调整生活方式，定期复查"
  const NormalSummary := "各项指标基本正常，保持健康的生活方式"

  /** The four texts the decision table chooses from (gout_analyzer.go:209, 213, 217, 221). */
  const Summaries: set<string> := {HighRiskSummary, MediumRiskSummary, LowRiskSummary, NormalSummary}

  /** The general advice given when uric acid is high or inflammation is present (gout_analyzer.go:226-231). */
  const GeneralAdvice: seq<string> := [
    "建议低嘌呤饮食：避免内脏、海鲜、浓汤等高嘌呤食物",
    "增加饮水量，每日至少2000ml",
    "限制酒精摄入，特别是啤酒",
    "适量运动，避免剧烈运动",
    "控制体重，避免肥胖"]

  /** The kidney advice given when a kidney marker is abnormal (gout_analyzer.go:235-238). */
  const KidneyAdvice: seq<string> := [
    "注意保护肾功能，避免使用肾毒性药物",
    "控制血压和血糖",
    "定期监测肾功能指标"]

  /** The note a high uric-acid measurement adds: urgent above 500, dietary above 450. */
  function UricNote(r: LabResult): seq<string> {
    if InCategory(r, UricAcid) && r.status == High then
      if r.value > 500.0 then [UrgentUricNote]
      else if r.value > 450.0 then [DietUricNote]
      else []
    else []
  }

  /** What the loop of analyzeGoutRisk has gathered so far. */
  datatype Scan = Scan(
    uricAcidLevel: Option<LabResult>,
    inflammatoryMarkers: seq<LabResult>,
    kidneyFunction: seq<LabResult>,
    notes: seq<string>,
    uricAcidHigh: bool,
    inflammationPresent: bool,
    kidneyIssues: bool)

  /** Only the measurements of group `c`, in their order. */
  function Grouped(rs: seq<LabResult>, c: Category, r: LabResult): seq<LabResult> {
    if InCategory(r, c) then rs + [r] else rs
  }

  /** One iteration of the loop (gout_analyzer.go:169-202). */
  function Step(s: Scan, r: LabResult): Scan {
    Scan(
      if InCategory(r, UricAcid) then Some(r) else s.uricAcidLevel,
      Grouped(s.inflammatoryMarkers, Inflammation, r),
      Grouped(s.kidneyFunction, Kidney, r),
      s.notes + UricNote(r),
      s.uricAcidHigh || Raises(r, UricAcid),
      s.inflammationPresent || Raises(r, Inflammation),
      s.kidneyIssues || Raises(r, Kidney))
  }

  /** The loop over all measurements, in order. */
  function ScanAll(results: seq<LabResult>): Scan {
    if results == [] then Scan(None, [], [], [], false, false, false)
    else Step(ScanAll(results[..|results| - 1]), results[|results| - 1])
  }

  /** The decision table (gout_analyzer.go:206-222): the risk level and the summary text. */
  function Decide(uricAcidHigh: bool, inflammationPresent: bool, kidneyIssues: bool): (RiskLevel, string) {
    if uricAcidHigh && inflammationPresent && kidneyIssues then (HighRisk, HighRiskSummary)
    else if uricAcidHigh && (inflammationPresent || kidneyIssues) then (MediumRisk, MediumRiskSummary)
    else if uricAcidHigh then (LowRisk, LowRiskSummary)
    else (LowRisk, NormalSummary)
  }

  /** The advice blocks appended after the summary (gout_analyzer.go:225-239). */
  function Blocks(uricAcidHigh: bool, inflammationPresent: bool, kidneyIssues: bool): seq<string> {
    (if uricAcidHigh || inflammationPresent then GeneralAdvice else [])
    + (if kidneyIssues then KidneyAdvice else [])
  }

  /** The decision table and the advice blocks applied to what the loop gathered. */
  function Conclude(s: Scan): GoutAnalysisResult {
    var decision := Decide(s.uricAcidHigh, s.inflammationPresent, s.kidneyIssues);
    GoutAnalysisResult(
      s.uricAcidLevel, s.inflammatoryMarkers, s.kidneyFunction, decision.0,
      s.notes + [decision.1] + Blocks(s.uricAcidHigh, s.inflammationPresent, s.kidneyIssues),
      s.uricAcidHigh)
  }

  /** The result of analyzeGoutRisk. */
  function Analyze(results: seq<LabResult>): GoutAnalysisResult {
    Conclude(ScanAll(results))
  }

  /** The scan of a prefix one measurement longer. */
  lemma ScanAllPrefix(results: seq<LabResult>, i: nat)
    requires i < |results|
    ensures ScanAll(results[..i + 1]) == Step(ScanAll(results[..i]), results[i])
  {
    assert results[..i + 1][..i] == results[..i];
  }

  /**
   * analyzeGoutRisk: the loop gathers the groups, the uric-acid notes and the
   * three flags; the decision table and the advice blocks follow.
   */
  method AnalyzeGoutRisk(results: seq<LabResult>) returns (analysis: GoutAnalysisResult)
    ensures analysis == Analyze(results)
  {
    var uricAcidLevel: Option<LabResult> := None;
    var inflammatoryMarkers: seq<LabResult> := [];
    var kidneyFunction: seq<LabResult> := [];
    var recommendations: seq<string> := [];
    var uricAcidHigh, inflammationPresent, kidneyIssues := false, false, false;
    for i := 0 to |results|
      invariant Scan(uricAcidLevel, inflammatoryMarkers, kidneyFunction, recommendations,
                     uricAcidHigh, inflammationPresent, kidneyIssues) == ScanAll(results[..i])
    {
      ScanAllPrefix(results, i);
      var result := results[i];
      var parameterLower := ToLower(result.parameter);
      if IsUricAcid(parameterLower) {
        uricAcidLevel := Some(result);
        if result.status == High {
          uricAcidHigh := true;
          if result.value > 500.0 {
            recommendations := recommendations + [UrgentUricNote];
          } else if result.value > 450.0 {
            recommendations := recommendations + [DietUricNote];
          }
        }
      }
      if IsInflammatory(parameterLower) {
        inflammatoryMarkers := inflammatoryMarkers + [result];
        if result.status == High {
          inflammationPresent := true;
        }
      }
      if IsKidney(parameterLower) {
        kidneyFunction := kidneyFunction + [result];
        if result.status == High || (Contains(parameterLower, "gfr") && result.status == Low) {
          kidneyIssues := true;
        }
      }
    }
    assert results[..|results|] == results;
    analysis := Assess(Scan(uricAcidLevel, inflammatoryMarkers, kidneyFunction, recommendations,
                            uricAcidHigh, inflammationPresent, kidneyIssues));
  }

  /**
   * The decision table (gout_analyzer.go:205-222) and the advice blocks (gout_analyzer.go:224-239),
   * as the source writes them: flag updates and appends in order. `Conclude` states the same
   * result as one expression.
   */
  method Assess(s: Scan) returns (analysis: GoutAnalysisResult)
    ensures analysis == Conclude(s)
  {
    var uricAcidHigh, inflammationPresent, kidneyIssues := s.uricAcidHigh, s.inflammationPresent, s.kidneyIssues;
    var recommendations := s.notes;
    var riskLevel: RiskLevel;
    var followUpNeeded: bool;
    if uricAcidHigh && inflammationPresent && kidneyIssues {
      riskLevel, followUpNeeded := HighRisk, true;
      recommendations := recommendations + [HighRiskSummary];
    } else if uricAcidHigh && (inflammationPresent || kidneyIssues) {
      riskLevel, followUpNeeded := MediumRisk, true;
      recommendations := recommendations + [MediumRiskSummary];
    } else if uricAcidHigh {
      riskLevel, followUpNeeded := LowRisk, true;
      recommendations := recommendations + [LowRiskSummary];
    } else {
      riskLevel, followUpNeeded := LowRisk, false;
      recommendations := recommendations + [NormalSummary];
    }
    var decision := Decide(uricAcidHigh, inflammationPresent, kidneyIssues);
    assert riskLevel == decision.0 && recommendations == s.notes + [decision.1];
    if uricAcidHigh || inflammationPresent {
      recommendations := recommendations + GeneralAdvice;
    }
    if kidneyIssues {
      recommendations := recommendations + KidneyAdvice;
    }
    Sequences.AppendAssoc(s.notes + [decision.1], if uricAcidHigh || inflammationPresent then GeneralAdvice else [],
                          if kidneyIssues then KidneyAdvice else []);
    analysis := GoutAnalysisResult(s.uricAcidLevel, s.inflammatoryMarkers, s.kidneyFunction, riskLevel,
                                   recommendations, followUpNeeded);
  }
}
