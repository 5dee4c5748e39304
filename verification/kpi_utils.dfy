/**
 * The two KPI rules of kpiUtils.ts that involve no arithmetic: the default
 * estimate for a phase, chosen by its tags, and the advice drawn from the
 * computed results.
 */
module KpiUtils {
  import opened JsValues
  import opened ProcessTypes

  // ---------------------------------------------------------------------
  // getDefaultKPI (kpiUtils.ts:6-64)
  // ---------------------------------------------------------------------

  /** The six time, error-rate and cost figures of an estimate. */
  datatype Estimate = Estimate(
    timeManual: real, timeAuto: real,
    errorManual: real, errorAuto: real,
    costManual: real, costAuto: real)

  /** The figures when none of TRG, AGT, TOL and OUT is present. */
  const BaseEstimate := Estimate(15.0, 2.0, 5.0, 1.0, 10.0, 2.0)

  /** The figures each of the four deciding tag types sets. */
  function EstimateFor(t: TagType): Estimate {
    match t
    case TRG => Estimate(5.0, 0.1, 2.0, 0.1, 3.0, 0.5)
    case AGT => Estimate(30.0, 3.0, 15.0, 2.0, 25.0, 5.0)
    case TOL => Estimate(20.0, 1.0, 8.0, 0.5, 15.0, 3.0)
    case OUT => Estimate(10.0, 1.0, 5.0, 0.5, 8.0, 1.0)
    case _ => BaseEstimate
  }

  /** Precedence among the deciding tag types; 0 for the ones that decide nothing. */
  function Rank(t: TagType): nat {
    match t
    case OUT => 4
    case TOL => 3
    case AGT => 2
    case TRG => 1
    case _ => 0
  }

  /** The deciding tag type of highest precedence present, if any. */
  function Dominant(tags: seq<Tag>): Option<TagType> {
    if HasTagType(tags, OUT) then Some(OUT)
    else if HasTagType(tags, TOL) then Some(TOL)
    else if HasTagType(tags, AGT) then Some(AGT)
    else if HasTagType(tags, TRG) then Some(TRG)
    else None
  }

  /** The estimate that the tags select. */
  function DefaultKPI(phase: Phase): ProcessKPI {
    var e := if Dominant(phase.tags).Some? then EstimateFor(Dominant(phase.tags).value) else BaseEstimate;
    ProcessKPI(phase.id, e.timeManual, e.timeAuto, e.errorManual, e.errorAuto, e.costManual, e.costAuto, 10.0)
  }

  /** The tag type that decides is present, and no tag of higher precedence is. */
  lemma DominantIsHighest(tags: seq<Tag>)
    ensures Dominant(tags).Some? ==> HasTagType(tags, Dominant(tags).value) && Rank(Dominant(tags).value) >= 1
    ensures Dominant(tags).Some? ==> forall t :: HasTagType(tags, t) ==> Rank(t) <= Rank(Dominant(tags).value)
    ensures Dominant(tags).None? <==> forall t :: HasTagType(tags, t) ==> Rank(t) == 0
  {
  }

  /**
   * `getDefaultKPI`: start from the base figures and let each deciding tag
   * present overwrite all six, TRG first and OUT last.
   */
  method GetDefaultKPI(phase: Phase) returns (kpi: ProcessKPI)
    ensures kpi == DefaultKPI(phase)
  {
    var hasTrigger := HasTagType(phase.tags, TRG);
    var hasAgent := HasTagType(phase.tags, AGT);
    var hasTool := HasTagType(phase.tags, TOL);
    var hasOutput := HasTagType(phase.tags, OUT);

    var timeManual, timeAuto := 15.0, 2.0;
    var errorManual, errorAuto := 5.0, 1.0;
    var costManual, costAuto := 10.0, 2.0;
    var volume := 10.0;

    if hasTrigger {
      timeManual, timeAuto := 5.0, 0.1;
      errorManual, errorAuto := 2.0, 0.1;
      costManual, costAuto := 3.0, 0.5;
    }
    if hasAgent {
      timeManual, timeAuto := 30.0, 3.0;
      errorManual, errorAuto := 15.0, 2.0;
      costManual, costAuto := 25.0, 5.0;
    }
    if hasTool {
      timeManual, timeAuto := 20.0, 1.0;
      errorManual, errorAuto := 8.0, 0.5;
      costManual, costAuto := 15.0, 3.0;
    }
    if hasOutput {
      timeManual, timeAuto := 10.0, 1.0;
      errorManual, errorAuto := 5.0, 0.5;
      costManual, costAuto := 8.0, 1.0;
    }

    kpi := ProcessKPI(phase.id, timeManual, timeAuto, errorManual, errorAuto, costManual, costAuto, volume);
  }

  /** The KPI belongs to the phase and assumes ten operations a day. */
  lemma DefaultKPIIdentity(phase: Phase)
    ensures DefaultKPI(phase).phaseId == phase.id && DefaultKPI(phase).volumePerDay == 10.0
  {
  }

  /** With no deciding tag: 15/2 minutes, 5/1 error rate, 10/2 EUR. */
  lemma DefaultKPIBase(phase: Phase)
    requires !HasTagType(phase.tags, TRG) && !HasTagType(phase.tags, AGT)
    requires !HasTagType(phase.tags, TOL) && !HasTagType(phase.tags, OUT)
    ensures var k := DefaultKPI(phase);
      k.timeManualMinutes == 15.0 && k.timeAutoMinutes == 2.0 &&
      k.errorRateManual == 5.0 && k.errorRateAuto == 1.0 &&
      k.costManualEur == 10.0 && k.costAutoEur == 2.0
  {
  }

  /** An OUT tag decides whatever else the phase carries; TOL decides unless OUT is there. */
  lemma DefaultKPIPrecedence(phase: Phase)
    ensures HasTagType(phase.tags, OUT) ==> DefaultKPI(phase).timeManualMinutes == 10.0 && DefaultKPI(phase).costManualEur == 8.0
    ensures !HasTagType(phase.tags, OUT) && HasTagType(phase.tags, TOL) ==>
      DefaultKPI(phase).timeManualMinutes == 20.0 && DefaultKPI(phase).errorRateManual == 8.0
    ensures !HasTagType(phase.tags, OUT) && !HasTagType(phase.tags, TOL) && HasTagType(phase.tags, AGT) ==>
      DefaultKPI(phase).timeManualMinutes == 30.0 && DefaultKPI(phase).costAutoEur == 5.0
  {
  }

  lemma HasTagTypeAppend(tags: seq<Tag>, tag: Tag, t: TagType)
    requires tag.tagType != t
    ensures HasTagType(tags + [tag], t) <==> HasTagType(tags, t)
  {
    if HasTagType(tags + [tag], t) {
      var x :| x in tags + [tag] && x.tagType == t;
      assert x in tags;
    }
    if HasTagType(tags, t) {
      var x :| x in tags && x.tagType == t;
      assert x in tags + [tag];
    }
  }

  /** LLM, PRM and MEM tags do not change the estimate. */
  lemma NonDecidingTagsIgnored(phase: Phase, tag: Tag)
    requires tag.tagType == LLM || tag.tagType == PRM || tag.tagType == MEM
    ensures DefaultKPI(phase.(tags := phase.tags + [tag])) == DefaultKPI(phase)
  {
    HasTagTypeAppend(phase.tags, tag, OUT);
    HasTagTypeAppend(phase.tags, tag, TOL);
    HasTagTypeAppend(phase.tags, tag, AGT);
    HasTagTypeAppend(phase.tags, tag, TRG);
  }

  // ---------------------------------------------------------------------
  // getKPISuggestions (kpiUtils.ts:159-186)
  // ---------------------------------------------------------------------

  /** The five pieces of advice; the low-efficiency one names the phases. */
  datatype KPIHint =
    | TimeSavingLow
    | PaybackLong
    | LowEfficiency(phaseNames: seq<string>)
    | ErrorReductionLow
    | RoiExcellent

  function KPIHintText(h: KPIHint): string {
    match h
    case TimeSavingLow =>
      "Il risparmio di tempo e' sotto il 50%. Valuta se alcune fasi possono essere ulteriormente automatizzate."
    case PaybackLong =>
      "Il tempo di payback supera 6 mesi. Considera di partire con le fasi a ROI piu' alto."
    case LowEfficiency(names) =>
      "Le fasi \"" + Join(names, "\", \"") + "\" hanno efficienza bassa. Rivedi i parametri."
    case ErrorReductionLow =>
      "La riduzione errori e' minima. L'automazione potrebbe non essere giustificata solo per la qualita'."
    case RoiExcellent =>
      "ROI eccellente! Questo processo e' un ottimo candidato per l'automazione prioritaria."
  }

  /** `phaseResults.filter(p => p.efficiencyScore < 40)`. */
  function LowScoring(ps: seq<PhaseKPIResult>): (r: seq<PhaseKPIResult>)
    ensures |r| <= |ps|
    ensures forall p :: p in r <==> p in ps && p.efficiencyScore < 40.0
  {
    if ps == [] then []
    else if ps[0].efficiencyScore < 40.0 then [ps[0]] + LowScoring(ps[1..])
    else LowScoring(ps[1..])
  }

  /** The names of `ps`, in order. */
  function Names(ps: seq<PhaseKPIResult>): (r: seq<string>)
    ensures |r| == |ps| && forall i :: 0 <= i < |ps| ==> r[i] == ps[i].phaseName
  {
    seq(|ps|, i requires 0 <= i < |ps| => ps[i].phaseName)
  }

  /** The advice in the order the source pushes it, given which rules fire and the low scorers' names. */
  function KPIHintsFor(timeLow: bool, paybackLong: bool, lowNames: seq<string>, errorLow: bool, roiHigh: bool)
    : seq<KPIHint>
  {
    PushIf(PushIf(PushIf(PushIf(PushIf([],
      timeLow, TimeSavingLow),
      paybackLong, PaybackLong),
      |lowNames| > 0, LowEfficiency(lowNames)),
      errorLow, ErrorReductionLow),
      roiHigh, RoiExcellent)
  }

  /** The advice for `results`: the thresholds of `getKPISuggestions`. */
  function KPIHints(results: KPIResults): seq<KPIHint> {
    KPIHintsFor(results.totalTimeSavedPercent < 50.0, results.paybackDays > 180.0,
      Names(LowScoring(results.phaseResults)), results.totalErrorReduction < 5.0, results.roiPercent > 300.0)
  }

  /** `suggestions.push(...)` when the rule fires; the list of advice behind it grows alike. */
  method PushSuggestion(suggestions: seq<string>, ghost hints: seq<KPIHint>, fires: bool, h: KPIHint)
    returns (r: seq<string>)
    requires suggestions == MapSeq(KPIHintText, hints)
    ensures r == MapSeq(KPIHintText, PushIf(hints, fires, h))
  {
    MapSeqPush(KPIHintText, hints, fires, h);
    r := suggestions;
    if fires {
      r := r + [KPIHintText(h)];
    }
  }

  /** `getKPISuggestions`: one push per rule that fires. */
  method GetKPISuggestions(results: KPIResults) returns (suggestions: seq<string>)
    ensures suggestions == MapSeq(KPIHintText, KPIHints(results))
  {
    suggestions := [];
    ghost var hints: seq<KPIHint> := [];

    var timeLow := results.totalTimeSavedPercent < 50.0;
    suggestions := PushSuggestion(suggestions, hints, timeLow, TimeSavingLow);
    hints := PushIf(hints, timeLow, TimeSavingLow);

    var paybackLong := results.paybackDays > 180.0;
    suggestions := PushSuggestion(suggestions, hints, paybackLong, PaybackLong);
    hints := PushIf(hints, paybackLong, PaybackLong);

    var lowEfficiency := LowScoring(results.phaseResults);
    var names := Names(lowEfficiency);
    suggestions := PushSuggestion(suggestions, hints, |lowEfficiency| > 0, LowEfficiency(names));
    hints := PushIf(hints, |names| > 0, LowEfficiency(names));

    var errorLow := results.totalErrorReduction < 5.0;
    suggestions := PushSuggestion(suggestions, hints, errorLow, ErrorReductionLow);
    hints := PushIf(hints, errorLow, ErrorReductionLow);

    var roiHigh := results.roiPercent > 300.0;
    suggestions := PushSuggestion(suggestions, hints, roiHigh, RoiExcellent);
    hints := PushIf(hints, roiHigh, RoiExcellent);
  }

  /** A piece of advice is a low-efficiency one. */
  predicate IsLowEfficiency(h: KPIHint) {
    h.LowEfficiency?
  }

  /** Each piece of advice is there exactly when its rule fires; at most five. */
  lemma KPIHintsForRules(timeLow: bool, paybackLong: bool, lowNames: seq<string>, errorLow: bool, roiHigh: bool)
    ensures var s := KPIHintsFor(timeLow, paybackLong, lowNames, errorLow, roiHigh);
      (TimeSavingLow in s <==> timeLow) &&
      (PaybackLong in s <==> paybackLong) &&
      ((exists h :: h in s && IsLowEfficiency(h)) <==> |lowNames| > 0) &&
      (|lowNames| > 0 ==> LowEfficiency(lowNames) in s) &&
      (ErrorReductionLow in s <==> errorLow) &&
      (RoiExcellent in s <==> roiHigh) &&
      |s| <= 5
  {
    KPIHintsForMembers(timeLow, paybackLong, lowNames, errorLow, roiHigh);
    var s := KPIHintsFor(timeLow, paybackLong, lowNames, errorLow, roiHigh);
    if |lowNames| > 0 {
      assert IsLowEfficiency(LowEfficiency(lowNames));
    }
  }

  /** What the list of advice holds: each piece whose rule fires, and nothing else. */
  lemma KPIHintsForMembers(timeLow: bool, paybackLong: bool, lowNames: seq<string>, errorLow: bool, roiHigh: bool)
    ensures var s := KPIHintsFor(timeLow, paybackLong, lowNames, errorLow, roiHigh);
      |s| <= 5 &&
      forall h :: h in s <==>
        (timeLow && h == TimeSavingLow) || (paybackLong && h == PaybackLong) ||
        (|lowNames| > 0 && h == LowEfficiency(lowNames)) ||
        (errorLow && h == ErrorReductionLow) || (roiHigh && h == RoiExcellent)
  {
    var s1 := PushIf([], timeLow, TimeSavingLow);
    var s2 := PushIf(s1, paybackLong, PaybackLong);
    var s3 := PushIf(s2, |lowNames| > 0, LowEfficiency(lowNames));
    var s4 := PushIf(s3, errorLow, ErrorReductionLow);
    PushIfMembers([], timeLow, TimeSavingLow);
    PushIfMembers(s1, paybackLong, PaybackLong);
    PushIfMembers(s2, |lowNames| > 0, LowEfficiency(lowNames));
    PushIfMembers(s3, errorLow, ErrorReductionLow);
    PushIfMembers(s4, roiHigh, RoiExcellent);
  }

  /** The place of each piece of advice in the order the source pushes them. */
  function KPIHintPos(h: KPIHint): nat {
    match h
    case TimeSavingLow => 0
    case PaybackLong => 1
    case LowEfficiency(_) => 2
    case ErrorReductionLow => 3
    case RoiExcellent => 4
  }

  /** The advice comes in the source's order (time, payback, efficiency, errors, ROI), each piece at most once. */
  lemma KPIHintsForOrdered(timeLow: bool, paybackLong: bool, lowNames: seq<string>, errorLow: bool, roiHigh: bool)
    ensures var s := KPIHintsFor(timeLow, paybackLong, lowNames, errorLow, roiHigh);
      OrderedBy(KPIHintPos, s) && forall i, j :: 0 <= i < j < |s| ==> s[i] != s[j]
  {
    var s1 := PushIf([], timeLow, TimeSavingLow);
    var s2 := PushIf(s1, paybackLong, PaybackLong);
    var s3 := PushIf(s2, |lowNames| > 0, LowEfficiency(lowNames));
    var s4 := PushIf(s3, errorLow, ErrorReductionLow);
    PushIfOrdered(KPIHintPos, [], timeLow, TimeSavingLow);
    PushIfOrdered(KPIHintPos, s1, paybackLong, PaybackLong);
    PushIfOrdered(KPIHintPos, s2, |lowNames| > 0, LowEfficiency(lowNames));
    PushIfOrdered(KPIHintPos, s3, errorLow, ErrorReductionLow);
    PushIfOrdered(KPIHintPos, s4, roiHigh, RoiExcellent);
    OrderedDistinct(KPIHintPos, KPIHintsFor(timeLow, paybackLong, lowNames, errorLow, roiHigh));
  }

  /** Some phase scores under 40 exactly when the filter keeps one. */
  lemma LowScoringNonEmpty(ps: seq<PhaseKPIResult>)
    ensures |LowScoring(ps)| > 0 <==> exists p :: p in ps && p.efficiencyScore < 40.0
  {
    var low := LowScoring(ps);
    if exists p :: p in ps && p.efficiencyScore < 40.0 {
      var p :| p in ps && p.efficiencyScore < 40.0;
      assert p in low;
    }
    if |low| > 0 {
      assert low[0] in low;
    }
  }

  /** Each piece of advice appears exactly when its threshold is crossed. */
  lemma KPIHintsRules(results: KPIResults)
    ensures var s := KPIHints(results);
      (TimeSavingLow in s <==> results.totalTimeSavedPercent < 50.0) &&
      (PaybackLong in s <==> results.paybackDays > 180.0) &&
      ((exists h :: h in s && IsLowEfficiency(h)) <==> exists p :: p in results.phaseResults && p.efficiencyScore < 40.0) &&
      (ErrorReductionLow in s <==> results.totalErrorReduction < 5.0) &&
      (RoiExcellent in s <==> results.roiPercent > 300.0)
    ensures |KPIHints(results)| <= 5
    ensures var s := KPIHints(results);
      OrderedBy(KPIHintPos, s) && forall i, j :: 0 <= i < j < |s| ==> s[i] != s[j]
  {
    var names := Names(LowScoring(results.phaseResults));
    KPIHintsForOrdered(results.totalTimeSavedPercent < 50.0, results.paybackDays > 180.0,
      names, results.totalErrorReduction < 5.0, results.roiPercent > 300.0);
    KPIHintsForRules(results.totalTimeSavedPercent < 50.0, results.paybackDays > 180.0,
      names, results.totalErrorReduction < 5.0, results.roiPercent > 300.0);
    LowScoringNonEmpty(results.phaseResults);
  }

  /** The low-efficiency advice names exactly the phases scoring under 40, in their order. */
  lemma LowEfficiencyNamesPhases(results: KPIResults)
    requires exists p :: p in results.phaseResults && p.efficiencyScore < 40.0
    ensures var low := LowScoring(results.phaseResults);
      LowEfficiency(Names(low)) in KPIHints(results) &&
      (forall n :: n in Names(low) <==> exists p :: p in results.phaseResults && p.efficiencyScore < 40.0 && p.phaseName == n)
  {
    var low := LowScoring(results.phaseResults);
    var p :| p in results.phaseResults && p.efficiencyScore < 40.0;
    assert p in low;
    forall n | n in Names(low)
      ensures exists p :: p in results.phaseResults && p.efficiencyScore < 40.0 && p.phaseName == n
    {
      var i :| 0 <= i < |low| && Names(low)[i] == n;
      assert low[i] in low;
    }
    forall n | exists p :: p in results.phaseResults && p.efficiencyScore < 40.0 && p.phaseName == n
      ensures n in Names(low)
    {
      var q :| q in results.phaseResults && q.efficiencyScore < 40.0 && q.phaseName == n;
      assert q in low;
      var i :| 0 <= i < |low| && low[i] == q;
      assert Names(low)[i] == n;
    }
  }

  /** `LowScoring` keeps the phases' relative order: it is the filter, element by element. */
  lemma {:induction false} LowScoringOrder(ps: seq<PhaseKPIResult>, p: PhaseKPIResult)
    ensures LowScoring(ps + [p]) == LowScoring(ps) + (if p.efficiencyScore < 40.0 then [p] else [])
  {
    if ps == [] {
      assert [p][1..] == [];
    } else {
      assert (ps + [p])[1..] == ps[1..] + [p];
      LowScoringOrder(ps[1..], p);
    }
  }

  /** One name gives no separator; two names are joined by `", "`. */
  lemma LowEfficiencyText(a: string, b: string)
    ensures KPIHintText(LowEfficiency([a])) == "Le fasi \"" + a + "\" hanno efficienza bassa. Rivedi i parametri."
    ensures KPIHintText(LowEfficiency([a, b])) == "Le fasi \"" + a + "\", \"" + b + "\" hanno efficienza bassa. Rivedi i parametri."
  {
    assert [a, b][..1] == [a];
  }
}
