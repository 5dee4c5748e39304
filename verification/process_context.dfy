/**
 * The process reducer and its provider (processContext.tsx). The reducer is a
 * pure function from state and action to the next state; `ProcessStore`
 * plays the part of `useReducer`, holding the current state and replacing it
 * on each dispatch.
 */
module ProcessContext {
  import opened JsValues
  import opened ProcessTypes
  import ProcessUtils

  /** `initialState`. */
  const InitialState := ProcessState([], "Nuovo Processo", Custom, None, map[])

  /** The actions that go through a phase-list utility. */
  predicate EditsPhases(action: ProcessAction) {
    action.AddPhase? || action.UpdatePhase? || action.DeletePhase? || action.AssignTag? || action.RemoveTag?
  }

  /** `processReducer`. */
  function ProcessReducer(state: ProcessState, action: ProcessAction): ProcessState {
    match action
    case AddPhase(phase) => state.(phases := ProcessUtils.AddPhase(state.phases, phase))
    case UpdatePhase(id, updates) => state.(phases := ProcessUtils.UpdatePhase(state.phases, id, updates))
    case DeletePhase(id) => state.(phases := ProcessUtils.DeletePhase(state.phases, id))
    case ReorderPhases(phases) => state.(phases := phases)
    case AssignTag(id, tag) => state.(phases := ProcessUtils.AssignTag(state.phases, id, tag))
    case RemoveTag(id, index) => state.(phases := ProcessUtils.RemoveTag(state.phases, id, index))
    case SetProcessName(name) => state.(processName := name)
    case LoadTemplate(flow) => ProcessState(flow.phases, flow.name, flow.pattern, flow.templateId, map[])
    case SetPattern(pattern) => state.(pattern := pattern)
    case Reset => InitialState
    case SetKPI(id, kpi) => state.(kpis := state.kpis[id := kpi])
    case ResetKPIs => state.(kpis := map[])
  }

  /** The phase actions change `phases` alone; a deleted phase keeps its KPI entry. */
  lemma PhaseActionsChangeOnlyPhases(state: ProcessState, action: ProcessAction)
    requires EditsPhases(action)
    ensures var r := ProcessReducer(state, action);
      r.processName == state.processName && r.pattern == state.pattern &&
      r.templateId == state.templateId && r.kpis == state.kpis
    ensures action.AddPhase? ==> ProcessReducer(state, action).phases == ProcessUtils.AddPhase(state.phases, action.phase)
    ensures action.DeletePhase? ==> ProcessReducer(state, action).phases == ProcessUtils.DeletePhase(state.phases, action.phaseId)
    ensures action.UpdatePhase? ==>
      ProcessReducer(state, action).phases == ProcessUtils.UpdatePhase(state.phases, action.id, action.updates)
    ensures action.AssignTag? ==>
      ProcessReducer(state, action).phases == ProcessUtils.AssignTag(state.phases, action.phaseId, action.tag)
    ensures action.RemoveTag? ==>
      ProcessReducer(state, action).phases == ProcessUtils.RemoveTag(state.phases, action.phaseId, action.tagIndex)
  {
  }

  /** A reorder stores its payload as given, without renumbering. */
  lemma ReorderStoresPayload(state: ProcessState, phases: seq<Phase>)
    ensures ProcessReducer(state, ReorderPhases(phases)) == state.(phases := phases)
  {
  }

  /** Loading a template takes phases, name, pattern and template id from it and clears the KPIs. */
  lemma LoadTemplateClearsKpis(state: ProcessState, flow: ProcessFlow)
    ensures var r := ProcessReducer(state, LoadTemplate(flow));
      r.phases == flow.phases && r.processName == flow.name && r.pattern == flow.pattern &&
      r.templateId == flow.templateId && r.kpis == map[]
  {
  }

  /** Setting a KPI touches only its own entry. */
  lemma SetKpiOnlyItsEntry(state: ProcessState, phaseId: string, kpi: ProcessKPI)
    ensures var r := ProcessReducer(state, SetKPI(phaseId, kpi));
      r.kpis.Keys == state.kpis.Keys + {phaseId} && r.kpis[phaseId] == kpi &&
      (forall k :: k in state.kpis && k != phaseId ==> r.kpis[k] == state.kpis[k]) &&
      r.phases == state.phases && r.processName == state.processName &&
      r.pattern == state.pattern && r.templateId == state.templateId
  {
  }

  /** Resetting the KPIs empties them and keeps everything else. */
  lemma ResetKpisKeepsPhases(state: ProcessState)
    ensures ProcessReducer(state, ResetKPIs) == state.(kpis := map[])
    ensures ProcessReducer(state, ResetKPIs).kpis.Keys == {}
  {
  }

  /** Name and pattern actions change only their own field. */
  lemma FieldSettersLocal(state: ProcessState, name: string, pattern: Pattern)
    ensures ProcessReducer(state, SetProcessName(name)) == state.(processName := name)
    ensures ProcessReducer(state, SetPattern(pattern)) == state.(pattern := pattern)
  {
  }

  /** A reset gives the initial state: no phases, the default name, pattern custom, no template, no KPIs. */
  lemma ResetIsInitial(state: ProcessState)
    ensures var r := ProcessReducer(state, Reset);
      r.phases == [] && r.processName == "Nuovo Processo" && r.pattern == Custom &&
      r.templateId == None && r.kpis == map[]
  {
  }

  /** Adding, deleting and tag edits keep the phases numbered 1..n. */
  lemma ReducerKeepsNumbering(state: ProcessState, action: ProcessAction)
    requires ProcessUtils.OrderedFromOne(state.phases)
    requires action.AddPhase? || action.DeletePhase? || action.AssignTag? || action.RemoveTag? ||
      (action.UpdatePhase? && action.updates.order.None?)
    ensures ProcessUtils.OrderedFromOne(ProcessReducer(state, action).phases)
  {
    match action
    case AddPhase(phase) => ProcessUtils.AddPhaseKeepsOrdered(state.phases, phase);
    case DeletePhase(id) => ProcessUtils.DeletePhaseContract(state.phases, id);
    case AssignTag(_, _) =>
    case RemoveTag(_, _) =>
    case UpdatePhase(_, _) =>
  }

  /** Assigning and removing tags keep every phase free of repeated tag types. */
  lemma ReducerKeepsTagsDistinct(state: ProcessState, action: ProcessAction)
    requires forall i :: 0 <= i < |state.phases| ==> TagTypesDistinct(state.phases[i].tags)
    requires action.AssignTag? || action.RemoveTag? || (action.AddPhase? && TagTypesDistinct(action.phase.tags))
    ensures var ps := ProcessReducer(state, action).phases;
      forall i :: 0 <= i < |ps| ==> TagTypesDistinct(ps[i].tags)
  {
    match action
    case AssignTag(id, tag) => ProcessUtils.AssignTagKeepsDistinct(state.phases, id, tag);
    case RemoveTag(id, index) =>
      var ps := ProcessReducer(state, action).phases;
      forall i | 0 <= i < |ps|
        ensures TagTypesDistinct(ps[i].tags)
      {
        var tags := state.phases[i].tags;
        if state.phases[i].id == id && 0 <= index < |tags| {
          var t2 := tags[..index] + tags[index + 1..];
          forall a, b | 0 <= a < b < |t2|
            ensures t2[a].tagType != t2[b].tagType
          {
            var a' := if a < index then a else a + 1;
            var b' := if b < index then b else b + 1;
            assert t2[a] == tags[a'] && t2[b] == tags[b'];
          }
        }
      }
    case AddPhase(phase) =>
      var ps := ProcessReducer(state, action).phases;
      forall i | 0 <= i < |ps|
        ensures TagTypesDistinct(ps[i].tags)
      {
        if i < |state.phases| {
          assert ps[i] == ps[..|state.phases|][i];
        }
      }
  }

  /** `getKPIResults`: nothing while no KPI is set, else the totals `calculate` computes. */
  function KPIResultsOf(state: ProcessState, calculate: (seq<Phase>, map<string, ProcessKPI>) -> KPIResults)
    : (r: Option<KPIResults>)
    ensures r.None? <==> state.kpis.Keys == {}
    ensures r.Some? ==> r.value == calculate(state.phases, state.kpis)
  {
    if |state.kpis.Keys| == 0 then None else Some(calculate(state.phases, state.kpis))
  }

  /** After a KPI is set there are results; after the KPIs are reset or a template loaded there are none. */
  lemma KPIResultsAfterActions(state: ProcessState, calculate: (seq<Phase>, map<string, ProcessKPI>) -> KPIResults,
                               phaseId: string, kpi: ProcessKPI, flow: ProcessFlow)
    ensures KPIResultsOf(ProcessReducer(state, SetKPI(phaseId, kpi)), calculate).Some?
    ensures KPIResultsOf(ProcessReducer(state, ResetKPIs), calculate).None?
    ensures KPIResultsOf(ProcessReducer(state, LoadTemplate(flow)), calculate).None?
  {
    assert phaseId in ProcessReducer(state, SetKPI(phaseId, kpi)).kpis.Keys;
  }

  /** The provider: the current state, replaced by the reducer on each dispatch. */
  class ProcessStore {
    var state: ProcessState

    constructor ()
      ensures state == InitialState
    {
      state := InitialState;
    }

    method Dispatch(action: ProcessAction)
      modifies this
      ensures state == ProcessReducer(old(state), action)
    {
      state := ProcessReducer(state, action);
    }

    /** `getSemaforoStatus`. */
    function GetSemaforoStatus(): (s: ProcessUtils.SemaforoStatus)
      reads this
      ensures s == ProcessUtils.Green <==> |state.phases| <= 5
      ensures s == ProcessUtils.Yellow <==> 6 <= |state.phases| <= 7
      ensures s == ProcessUtils.Red <==> |state.phases| >= 8
    {
      ProcessUtils.CalculateSemaforoStatus(|state.phases|).status
    }

    /** `getPhaseCount`. */
    function GetPhaseCount(): (n: nat)
      reads this
      ensures n == |state.phases|
    {
      |state.phases|
    }

    /** `getKPIResults`, with `calculateKPIResults` as the parameter `calculate`. */
    function GetKPIResults(calculate: (seq<Phase>, map<string, ProcessKPI>) -> KPIResults): (r: Option<KPIResults>)
      reads this
      ensures r.None? <==> state.kpis.Keys == {}
    {
      KPIResultsOf(state, calculate)
    }
  }
}
