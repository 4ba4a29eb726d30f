/**
 * What analyzeGoutRisk promises, proved about its model: the groups are
 * order-keeping filters of the input, the flags say that some measurement of
 * the group is abnormal, the risk level follows the flags and only rises as
 * measurements are added, the last uric-acid line is the one kept, and the
 * advice is the uric-acid notes, exactly one summary and the blocks the flags
 * call for.
 */
module RiskFacts {
  import opened Wrappers
  import opened Strings
  import opened LabParser
  import opened RiskClassifier
  import Sequences

  /** The measurements of group `c`, in input order (an independent, front-first definition). */
  function Select(rs: seq<LabResult>, c: Category): (sel: seq<LabResult>)
    ensures |sel| <= |rs|
  {
    if rs == [] then [] else (if InCategory(rs[0], c) then [rs[0]] else []) + Select(rs[1..], c)
  }

  /** A measurement is selected exactly when it is in the input and in the group. */
  lemma {:induction false} SelectMembers(rs: seq<LabResult>, c: Category)
    ensures forall x :: x in Select(rs, c) <==> x in rs && InCategory(x, c)
  {
    if rs != [] {
      SelectMembers(rs[1..], c);
      assert rs == [rs[0]] + rs[1..];
    }
  }

  /** Selecting from two pieces selects from each, in order. */
  lemma {:induction false} SelectConcat(a: seq<LabResult>, b: seq<LabResult>, c: Category)
    ensures Select(a + b, c) == Select(a, c) + Select(b, c)
  {
    if a == [] {
      assert a + b == b;
    } else {
      assert (a + b)[1..] == a[1..] + b;
      SelectConcat(a[1..], b, c);
    }
  }

  /** Selecting from a longer input adds the last measurement when it is in the group. */
  lemma SelectSnoc(rs: seq<LabResult>, c: Category)
    requires rs != []
    ensures Select(rs, c) == Grouped(Select(rs[..|rs| - 1], c), c, rs[|rs| - 1])
  {
    var init, last := rs[..|rs| - 1], rs[|rs| - 1];
    assert rs == init + [last];
    SelectConcat(init, [last], c);
    assert Select([last], c) == if InCategory(last, c) then [last] else [];
  }

  /** The inflammation and kidney lists are the order-keeping filters of the input. */
  lemma {:induction false} ScanGroups(rs: seq<LabResult>)
    ensures ScanAll(rs).inflammatoryMarkers == Select(rs, Inflammation)
    ensures ScanAll(rs).kidneyFunction == Select(rs, Kidney)
  {
    if rs != [] {
      ScanGroups(rs[..|rs| - 1]);
      SelectSnoc(rs, Inflammation);
      SelectSnoc(rs, Kidney);
    }
  }

  /** Some measurement of the input raises the flag of group `c`. */
  predicate AnyRaises(rs: seq<LabResult>, c: Category) {
    exists i :: 0 <= i < |rs| && Raises(rs[i], c)
  }

  lemma AnyRaisesSnoc(rs: seq<LabResult>, c: Category)
    requires rs != []
    ensures AnyRaises(rs, c) <==> AnyRaises(rs[..|rs| - 1], c) || Raises(rs[|rs| - 1], c)
  {
    var init := rs[..|rs| - 1];
    if AnyRaises(init, c) {
      var i :| 0 <= i < |init| && Raises(init[i], c);
      assert rs[i] == init[i];
    }
    if AnyRaises(rs, c) {
      var i :| 0 <= i < |rs| && Raises(rs[i], c);
      if i < |init| {
        assert init[i] == rs[i];
      }
    }
  }

  /** Each flag is set exactly when some measurement of its group is abnormal. */
  lemma {:induction false} ScanFlags(rs: seq<LabResult>)
    ensures ScanAll(rs).uricAcidHigh == AnyRaises(rs, UricAcid)
    ensures ScanAll(rs).inflammationPresent == AnyRaises(rs, Inflammation)
    ensures ScanAll(rs).kidneyIssues == AnyRaises(rs, Kidney)
  {
    if rs != [] {
      ScanFlags(rs[..|rs| - 1]);
      AnyRaisesSnoc(rs, UricAcid);
      AnyRaisesSnoc(rs, Inflammation);
      AnyRaisesSnoc(rs, Kidney);
    }
  }

  /**
   * HIGH exactly when all three flags are set; MEDIUM when uric acid is high and
   * exactly one of the other two is set; LOW otherwise. Follow-up is needed
   * exactly when uric acid is high.
   */
  lemma RiskLevelIff(rs: seq<LabResult>)
    ensures var u, i, k := AnyRaises(rs, UricAcid), AnyRaises(rs, Inflammation), AnyRaises(rs, Kidney);
      && (Analyze(rs).riskLevel == HighRisk <==> u && i && k)
      && (Analyze(rs).riskLevel == MediumRisk <==> u && i != k)
      && (Analyze(rs).riskLevel == LowRisk <==> !u || (!i && !k))
      && Analyze(rs).followUpNeeded == u
  {
    ScanFlags(rs);
  }

  /** A flag once raised by a prefix stays raised. */
  lemma AnyRaisesPrefix(a: seq<LabResult>, b: seq<LabResult>, c: Category)
    requires AnyRaises(a, c)
    ensures AnyRaises(a + b, c)
  {
    var i :| 0 <= i < |a| && Raises(a[i], c);
    assert (a + b)[i] == a[i];
  }

  /** Adding measurements never lowers the risk level. */
  lemma RiskMonotone(a: seq<LabResult>, b: seq<LabResult>)
    ensures Analyze(a).riskLevel.Rank() <= Analyze(a + b).riskLevel.Rank()
  {
    ScanFlags(a);
    ScanFlags(a + b);
    if AnyRaises(a, UricAcid) { AnyRaisesPrefix(a, b, UricAcid); }
    if AnyRaises(a, Inflammation) { AnyRaisesPrefix(a, b, Inflammation); }
    if AnyRaises(a, Kidney) { AnyRaisesPrefix(a, b, Kidney); }
  }

  /** `i` is the last measurement of group `c`. */
  predicate IsLastOf(rs: seq<LabResult>, i: int, c: Category) {
    && 0 <= i < |rs| && InCategory(rs[i], c)
    && forall j :: i < j < |rs| ==> !InCategory(rs[j], c)
  }

  /** The uric-acid level of a longer input: the last measurement when it is a uric-acid one. */
  lemma UricLevelSnoc(rs: seq<LabResult>)
    requires rs != []
    ensures ScanAll(rs).uricAcidLevel
         == if InCategory(rs[|rs| - 1], UricAcid) then Some(rs[|rs| - 1]) else ScanAll(rs[..|rs| - 1]).uricAcidLevel
  {
  }

  /** No uric-acid level is kept exactly when there is no uric-acid measurement. */
  lemma {:induction false} UricLevelNone(rs: seq<LabResult>)
    ensures ScanAll(rs).uricAcidLevel.None? <==> forall j :: 0 <= j < |rs| ==> !InCategory(rs[j], UricAcid)
  {
    if rs != [] {
      var init := rs[..|rs| - 1];
      UricLevelNone(init);
      UricLevelSnoc(rs);
      assert forall j :: 0 <= j < |init| ==> init[j] == rs[j];
    }
  }

  /** The uric-acid level kept is the last uric-acid measurement. */
  lemma {:induction false} UricLevelIsLast(rs: seq<LabResult>)
    ensures ScanAll(rs).uricAcidLevel.Some? ==>
      exists i :: IsLastOf(rs, i, UricAcid) && rs[i] == ScanAll(rs).uricAcidLevel.value
  {
    if rs != [] {
      var init := rs[..|rs| - 1];
      UricLevelIsLast(init);
      UricLevelSnoc(rs);
      if InCategory(rs[|rs| - 1], UricAcid) {
        assert IsLastOf(rs, |rs| - 1, UricAcid);
      } else if ScanAll(init).uricAcidLevel.Some? {
        var i :| IsLastOf(init, i, UricAcid) && init[i] == ScanAll(init).uricAcidLevel.value;
        LastOfKept(rs, i);
      }
    }
  }

  /** A last uric-acid measurement of the prefix stays the last one when a non-uric-acid measurement follows. */
  lemma LastOfKept(rs: seq<LabResult>, i: int)
    requires rs != [] && !InCategory(rs[|rs| - 1], UricAcid)
    requires IsLastOf(rs[..|rs| - 1], i, UricAcid)
    ensures IsLastOf(rs, i, UricAcid) && rs[i] == rs[..|rs| - 1][i]
  {
    var init := rs[..|rs| - 1];
    assert forall j :: 0 <= j < |init| ==> init[j] == rs[j];
  }

  /** The uric-acid notes in input order (an independent, front-first definition). */
  function UricNotes(rs: seq<LabResult>): (notes: seq<string>)
    ensures |notes| <= |rs|
  {
    if rs == [] then [] else UricNote(rs[0]) + UricNotes(rs[1..])
  }

  lemma {:induction false} UricNotesConcat(a: seq<LabResult>, b: seq<LabResult>)
    ensures UricNotes(a + b) == UricNotes(a) + UricNotes(b)
  {
    if a == [] {
      assert a + b == b;
    } else {
      assert (a + b)[1..] == a[1..] + b;
      UricNotesConcat(a[1..], b);
      Sequences.AppendAssoc(UricNote(a[0]), UricNotes(a[1..]), UricNotes(b));
    }
  }

  lemma {:induction false} ScanNotes(rs: seq<LabResult>)
    ensures ScanAll(rs).notes == UricNotes(rs)
  {
    if rs != [] {
      var init, last := rs[..|rs| - 1], rs[|rs| - 1];
      ScanNotes(init);
      assert rs == init + [last];
      UricNotesConcat(init, [last]);
      assert UricNotes([last]) == UricNote(last);
    }
  }

  /** Every note is one of the two uric-acid texts. */
  lemma {:induction false} NotesAreUric(rs: seq<LabResult>)
    ensures forall t :: t in UricNotes(rs) ==> t == UrgentUricNote || t == DietUricNote
  {
    if rs != [] {
      NotesAreUric(rs[1..]);
    }
  }

  /** The urgent note appears exactly when some high uric-acid value is above 500. */
  lemma {:induction false} UrgentNoteIff(rs: seq<LabResult>)
    ensures UrgentUricNote in UricNotes(rs) <==>
      exists i :: 0 <= i < |rs| && InCategory(rs[i], UricAcid) && rs[i].status == High && rs[i].value > 500.0
  {
    if rs != [] {
      UrgentNoteIff(rs[1..]);
      assert UrgentUricNote != DietUricNote by {
        assert UrgentUricNote[5] != DietUricNote[5];
      }
      if exists i :: 0 <= i < |rs[1..]| && InCategory(rs[1..][i], UricAcid) && rs[1..][i].status == High && rs[1..][i].value > 500.0 {
        var i :| 0 <= i < |rs[1..]| && InCategory(rs[1..][i], UricAcid) && rs[1..][i].status == High && rs[1..][i].value > 500.0;
        assert rs[i + 1] == rs[1..][i];
      }
      if exists i :: 0 <= i < |rs| && InCategory(rs[i], UricAcid) && rs[i].status == High && rs[i].value > 500.0 {
        var i :| 0 <= i < |rs| && InCategory(rs[i], UricAcid) && rs[i].status == High && rs[i].value > 500.0;
        if i > 0 {
          assert rs[1..][i - 1] == rs[i];
        }
      }
    }
  }

  /** The recommendations: the uric-acid notes, then the summary, then the advice blocks. */
  lemma Recommendations(rs: seq<LabResult>)
    ensures var u, i, k := AnyRaises(rs, UricAcid), AnyRaises(rs, Inflammation), AnyRaises(rs, Kidney);
      Analyze(rs).recommendations == UricNotes(rs) + [Decide(u, i, k).1] + Blocks(u, i, k)
  {
    ScanFlags(rs);
    ScanNotes(rs);
  }

  /** The notes, the summaries and the two advice blocks share no text. */
  lemma TextsDistinct()
    ensures UrgentUricNote !in Summaries && DietUricNote !in Summaries
    ensures UrgentUricNote !in GeneralAdvice + KidneyAdvice && DietUricNote !in GeneralAdvice + KidneyAdvice
    ensures forall t :: t in GeneralAdvice ==> t !in Summaries && t !in KidneyAdvice
    ensures forall t :: t in KidneyAdvice ==> t !in Summaries
  {
  }

  /**
   * Exactly one summary text is given: it comes right after the uric-acid
   * notes, and no other recommendation is one of the four summaries.
   */
  lemma SummaryOnce(rs: seq<LabResult>)
    ensures var recs, n := Analyze(rs).recommendations, |UricNotes(rs)|;
      && n < |recs| && recs[n] in Summaries
      && forall j :: 0 <= j < |recs| && j != n ==> recs[j] !in Summaries
  {
    var u, i, k := AnyRaises(rs, UricAcid), AnyRaises(rs, Inflammation), AnyRaises(rs, Kidney);
    Recommendations(rs);
    NotesAreUric(rs);
    TextsDistinct();
    BlocksHoldNoSummary(u, i, k);
    LoneSummary(UricNotes(rs), Decide(u, i, k).1, Blocks(u, i, k));
  }

  lemma BlocksHoldNoSummary(u: bool, i: bool, k: bool)
    ensures forall t :: t in Blocks(u, i, k) ==> t !in Summaries
  {
    TextsDistinct();
  }

  /** A summary between texts that are not summaries is the only summary. */
  lemma LoneSummary(notes: seq<string>, summary: string, blocks: seq<string>)
    requires summary in Summaries
    requires forall t :: t in notes ==> t !in Summaries
    requires forall t :: t in blocks ==> t !in Summaries
    ensures var recs := notes + [summary] + blocks;
      && recs[|notes|] in Summaries
      && forall j :: 0 <= j < |recs| && j != |notes| ==> recs[j] !in Summaries
  {
    var recs := notes + [summary] + blocks;
    forall j | 0 <= j < |recs| && j != |notes|
      ensures recs[j] !in Summaries
    {
      if j < |notes| {
        assert recs[j] == notes[j];
      } else {
        assert recs[j] == blocks[j - |notes| - 1];
      }
    }
  }

  /**
   * The general advice is given exactly when uric acid is high or inflammation
   * is present, and the kidney advice exactly when a kidney marker is abnormal.
   */
  lemma BlocksIff(rs: seq<LabResult>)
    ensures var recs := Analyze(rs).recommendations;
      && (GeneralAdvice[0] in recs <==> AnyRaises(rs, UricAcid) || AnyRaises(rs, Inflammation))
      && (KidneyAdvice[0] in recs <==> AnyRaises(rs, Kidney))
  {
    var u, i, k := AnyRaises(rs, UricAcid), AnyRaises(rs, Inflammation), AnyRaises(rs, Kidney);
    var notes := UricNotes(rs);
    Recommendations(rs);
    NotesAreUric(rs);
    TextsDistinct();
    assert GeneralAdvice[0] !in notes && KidneyAdvice[0] !in notes;
  }
}
