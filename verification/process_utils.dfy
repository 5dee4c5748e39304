/**
 * Phase-list editing (processUtils.ts): the traffic-light classification,
 * renumbering, adding, updating, deleting and reordering phases, assigning
 * and removing tags, and the two complexity advisors.
 */
module ProcessUtils {
  import opened JsValues
  import opened ProcessTypes

  // ---------------------------------------------------------------------
  // Semaforo (processUtils.ts:9-32)
  // ---------------------------------------------------------------------

  datatype SemaforoStatus = Green | Yellow | Red

  datatype SemaforoResult = SemaforoResult(status: SemaforoStatus, phaseCount: int, maxSafe: int, message: string)

  const GreenMessage := "\U{1F7E2} PISTA LIBERA - Workflow semplice e veloce"
  const YellowMessage := "\U{1F7E1} ZONA GIALLA - Complessit\U{E0} media, valuta semplificazione"
  const RedMessage := "\U{1F534} FUORI GIOCO - Troppo complesso, rischio fallimento"

  /** Green up to five phases, yellow for six or seven, red beyond. */
  function CalculateSemaforoStatus(phaseCount: int): (r: SemaforoResult)
    ensures r.phaseCount == phaseCount
    ensures r.status == Green <==> phaseCount <= 5
    ensures r.status == Yellow <==> 6 <= phaseCount <= 7
    ensures r.status == Red <==> phaseCount >= 8
    ensures r.maxSafe == (if phaseCount <= 5 then 5 else 7)
    ensures r.message == (if phaseCount <= 5 then GreenMessage else if phaseCount <= 7 then YellowMessage else RedMessage)
  {
    if phaseCount <= 5 then SemaforoResult(Green, phaseCount, 5, GreenMessage)
    else if phaseCount <= 7 then SemaforoResult(Yellow, phaseCount, 7, YellowMessage)
    else SemaforoResult(Red, phaseCount, 7, RedMessage)
  }

  /** More phases never give a better light. */
  lemma SemaforoMonotone(m: int, n: int)
    requires m <= n
    ensures CalculateSemaforoStatus(n).status == Green ==> CalculateSemaforoStatus(m).status == Green
    ensures CalculateSemaforoStatus(m).status == Red ==> CalculateSemaforoStatus(n).status == Red
    ensures CalculateSemaforoStatus(m).maxSafe <= CalculateSemaforoStatus(n).maxSafe
  {
  }

  /** Every standard template is green. */
  lemma StandardTemplatesGreen(stamp: string, key: string)
    requires key in StandardTemplates(stamp)
    ensures CalculateSemaforoStatus(|StandardTemplates(stamp)[key].phases|).status == Green
  {
    StandardTemplatesWellFormed(stamp, key);
  }

  // ---------------------------------------------------------------------
  // Renumbering, adding, updating, deleting (processUtils.ts:62-99)
  // ---------------------------------------------------------------------

  /** Phase i has order i + 1. */
  predicate OrderedFromOne(phases: seq<Phase>) {
    forall i :: 0 <= i < |phases| ==> phases[i].order == i + 1
  }

  /** Every phase keeps all its fields but `order`, which becomes its position plus one. */
  function Renumber(phases: seq<Phase>): (r: seq<Phase>)
    ensures |r| == |phases|
    ensures forall i :: 0 <= i < |phases| ==> r[i] == phases[i].(order := i + 1)
  {
    seq(|phases|, i requires 0 <= i < |phases| => phases[i].(order := i + 1))
  }

  lemma RenumberOrdered(phases: seq<Phase>)
    ensures OrderedFromOne(Renumber(phases))
  {
  }

  /** Renumbering an ordered list changes nothing; in particular renumbering twice is renumbering once. */
  lemma RenumberOrderedIdentity(phases: seq<Phase>)
    requires OrderedFromOne(phases)
    ensures Renumber(phases) == phases
  {
    assert forall i :: 0 <= i < |phases| ==> phases[i].(order := i + 1) == phases[i];
  }

  lemma RenumberIdempotent(phases: seq<Phase>)
    ensures Renumber(Renumber(phases)) == Renumber(phases)
  {
    RenumberOrderedIdentity(Renumber(phases));
  }

  /** The phase is appended with order `|phases| + 1`; the earlier phases are unchanged. */
  function AddPhase(phases: seq<Phase>, phase: Phase): (r: seq<Phase>)
    ensures |r| == |phases| + 1
    ensures r[..|phases|] == phases
    ensures r[|phases|] == phase.(order := |phases| + 1)
  {
    phases + [phase.(order := |phases| + 1)]
  }

  lemma AddPhaseKeepsOrdered(phases: seq<Phase>, phase: Phase)
    requires OrderedFromOne(phases)
    ensures OrderedFromOne(AddPhase(phases, phase))
  {
    var r := AddPhase(phases, phase);
    forall i | 0 <= i < |r|
      ensures r[i].order == i + 1
    {
      if i < |phases| {
        assert r[i] == r[..|phases|][i];
      }
    }
  }

  /** `{...phase, ...updates}`: every field present in the update replaces the phase's. */
  function Merge(phase: Phase, u: PhaseUpdate): Phase {
    Phase(
      if u.id.Some? then u.id.value else phase.id,
      if u.name.Some? then u.name.value else phase.name,
      if u.description.Some? then u.description.value else phase.description,
      if u.tags.Some? then u.tags.value else phase.tags,
      if u.order.Some? then u.order.value else phase.order)
  }

  const NoUpdate := PhaseUpdate(None, None, None, None, None)

  lemma MergeNothing(phase: Phase)
    ensures Merge(phase, NoUpdate) == phase
  {
  }

  /** Later updates win: merging twice is merging the combined update. */
  lemma MergeTwice(phase: Phase, u: PhaseUpdate, v: PhaseUpdate)
    ensures Merge(Merge(phase, u), v) ==
      Merge(phase, PhaseUpdate(
        if v.id.Some? then v.id else u.id,
        if v.name.Some? then v.name else u.name,
        if v.description.Some? then v.description else u.description,
        if v.tags.Some? then v.tags else u.tags,
        if v.order.Some? then v.order else u.order))
  {
  }

  /** The updates are merged into exactly the phases whose id matches. */
  function UpdatePhase(phases: seq<Phase>, phaseId: string, updates: PhaseUpdate): (r: seq<Phase>)
    ensures |r| == |phases|
    ensures forall i :: 0 <= i < |phases| && phases[i].id == phaseId ==> r[i] == Merge(phases[i], updates)
    ensures forall i :: 0 <= i < |phases| && phases[i].id != phaseId ==> r[i] == phases[i]
  {
    seq(|phases|, i requires 0 <= i < |phases| => if phases[i].id == phaseId then Merge(phases[i], updates) else phases[i])
  }

  /** An id no phase has changes nothing. */
  lemma UpdateUnknownId(phases: seq<Phase>, phaseId: string, updates: PhaseUpdate)
    requires forall i :: 0 <= i < |phases| ==> phases[i].id != phaseId
    ensures UpdatePhase(phases, phaseId, updates) == phases
  {
  }

  /** `phases.filter(p => p.id !== phaseId)`. */
  function WithoutId(phases: seq<Phase>, phaseId: string): (r: seq<Phase>)
    ensures |r| <= |phases|
    ensures forall p :: p in r <==> p in phases && p.id != phaseId
  {
    if phases == [] then []
    else if phases[0].id == phaseId then WithoutId(phases[1..], phaseId)
    else [phases[0]] + WithoutId(phases[1..], phaseId)
  }

  /** The filter keeps the phases' relative order: it is the filter, phase by phase. */
  lemma {:induction false} WithoutIdOrder(phases: seq<Phase>, p: Phase, phaseId: string)
    ensures WithoutId(phases + [p], phaseId) == WithoutId(phases, phaseId) + (if p.id != phaseId then [p] else [])
  {
    if phases == [] {
      assert [p][1..] == [];
    } else {
      assert (phases + [p])[1..] == phases[1..] + [p];
      WithoutIdOrder(phases[1..], p, phaseId);
    }
  }

  /** The phases with that id are removed, the others keep their order, and the list is renumbered. */
  function DeletePhase(phases: seq<Phase>, phaseId: string): (r: seq<Phase>)
    ensures |r| == |WithoutId(phases, phaseId)|
    ensures forall i :: 0 <= i < |r| ==> r[i] == WithoutId(phases, phaseId)[i].(order := i + 1)
  {
    Renumber(WithoutId(phases, phaseId))
  }

  /** After a delete no phase has the id, the others are all there, and the orders run 1..n. */
  lemma DeletePhaseContract(phases: seq<Phase>, phaseId: string)
    ensures var r := DeletePhase(phases, phaseId);
      OrderedFromOne(r) &&
      (forall i :: 0 <= i < |r| ==> r[i].id != phaseId) &&
      (forall p :: p in phases && p.id != phaseId ==> exists i :: 0 <= i < |r| && r[i] == p.(order := i + 1))
  {
    var w := WithoutId(phases, phaseId);
    var r := DeletePhase(phases, phaseId);
    forall i | 0 <= i < |r|
      ensures r[i].id != phaseId
    {
      assert w[i] in w;
    }
    forall p | p in phases && p.id != phaseId
      ensures exists i :: 0 <= i < |r| && r[i] == p.(order := i + 1)
    {
      assert p in w;
      var i :| 0 <= i < |w| && w[i] == p;
      assert r[i] == p.(order := i + 1);
    }
  }

  /** Deleting an id no phase has only renumbers. */
  lemma {:induction false} DeleteUnknownId(phases: seq<Phase>, phaseId: string)
    requires forall i :: 0 <= i < |phases| ==> phases[i].id != phaseId
    ensures WithoutId(phases, phaseId) == phases
  {
    if phases != [] {
      DeleteUnknownId(phases[1..], phaseId);
    }
  }

  // ---------------------------------------------------------------------
  // Reordering (processUtils.ts:104-113)
  // ---------------------------------------------------------------------

  /** `s.splice(i, 1)`: the element at `i` taken out. */
  function Removed<T>(s: seq<T>, i: nat): seq<T>
    requires i < |s|
  {
    s[..i] + s[i + 1..]
  }

  /** `s.splice(i, 0, x)` for `0 <= i <= |s|`. */
  function Inserted<T>(s: seq<T>, i: nat, x: T): seq<T>
    requires i <= |s|
  {
    s[..i] + [x] + s[i..]
  }

  /** Where `splice(toIndex, 0, x)` puts `x` in a list of `n - 1` elements: past the end means at the end. */
  function Landing(n: nat, toIndex: nat): nat
    requires n > 0
  {
    if toIndex < n then toIndex else n - 1
  }

  /** The list with the element at `fromIndex` taken out and put back in at `toIndex`. */
  function Moved<T>(s: seq<T>, fromIndex: nat, toIndex: nat): seq<T>
    requires fromIndex < |s|
  {
    Inserted(Removed(s, fromIndex), Landing(|s|, toIndex), s[fromIndex])
  }

  lemma RemovedAt<T>(s: seq<T>, i: nat, k: nat)
    requires i < |s| && k < |s| - 1
    ensures Removed(s, i)[k] == if k < i then s[k] else s[k + 1]
  {
  }

  lemma InsertedAt<T>(s: seq<T>, i: nat, x: T, k: nat)
    requires i <= |s| && k <= |s|
    ensures Inserted(s, i, x)[k] == if k < i then s[k] else if k == i then x else s[k - 1]
  {
  }

  /** Element k of the moved list, position by position. */
  lemma MovedAt<T>(s: seq<T>, f: nat, t: nat, k: nat)
    requires f < |s| && k < |s|
    ensures |Moved(s, f, t)| == |s|
    ensures var l := Landing(|s|, t);
      Moved(s, f, t)[k] ==
        if k == l then s[f]
        else if f <= k < l then s[k + 1]
        else if l < k <= f then s[k - 1]
        else s[k]
  {
    var l := Landing(|s|, t);
    InsertedAt(Removed(s, f), l, s[f], k);
    if k < l {
      RemovedAt(s, f, k);
    } else if k > l {
      RemovedAt(s, f, k - 1);
    }
  }

  /** Moving permutes the list. */
  lemma MovedPermutation<T>(s: seq<T>, f: nat, t: nat)
    requires f < |s|
    ensures multiset(Moved(s, f, t)) == multiset(s)
  {
    var r := Removed(s, f);
    var l := Landing(|s|, t);
    assert s == s[..f] + [s[f]] + s[f + 1..];
    assert multiset(s) == multiset(r) + multiset{s[f]};
    assert r == r[..l] + r[l..];
    assert multiset(Inserted(r, l, s[f])) == multiset(r) + multiset{s[f]};
  }

  /** The moved element lands at `toIndex` (the last place when that is past the end). */
  lemma MovedLands<T>(s: seq<T>, f: nat, t: nat)
    requires f < |s|
    ensures Moved(s, f, t)[Landing(|s|, t)] == s[f]
  {
  }

  /** Taking the moved element out again gives the others in their old relative order. */
  lemma MovedKeepsOthers<T>(s: seq<T>, f: nat, t: nat)
    requires f < |s|
    ensures Removed(Moved(s, f, t), Landing(|s|, t)) == Removed(s, f)
  {
    var r := Removed(s, f);
    var l := Landing(|s|, t);
    assert Inserted(r, l, s[f])[..l] == r[..l];
    assert Inserted(r, l, s[f])[l + 1..] == r[l..];
  }

  /** The elements at `from + 1 .. to` each move one place down. */
  method ShiftDown(a: array<Phase>, from: nat, to: nat)
    requires from <= to < a.Length
    modifies a
    ensures forall k :: 0 <= k < a.Length ==> a[k] == if from <= k < to then old(a[k + 1]) else old(a[k])
  {
    var i := from;
    while i < to
      invariant from <= i <= to
      invariant forall k :: 0 <= k < a.Length ==> a[k] == if from <= k < i then old(a[k + 1]) else old(a[k])
    {
      a[i] := a[i + 1];
      i := i + 1;
    }
  }

  /** The elements at `to .. from - 1` each move one place up. */
  method ShiftUp(a: array<Phase>, to: nat, from: nat)
    requires to <= from < a.Length
    modifies a
    ensures forall k :: 0 <= k < a.Length ==> a[k] == if to < k <= from then old(a[k - 1]) else old(a[k])
  {
    var i := from;
    while i > to
      invariant to <= i <= from
      invariant forall k :: 0 <= k < a.Length ==> a[k] == if i < k <= from then old(a[k - 1]) else old(a[k])
    {
      a[i] := a[i - 1];
      i := i - 1;
    }
  }

  /** The two splices of `reorderPhases`, done in place by shifting the elements in between. */
  method MoveInPlace(a: array<Phase>, fromIndex: nat, toIndex: nat)
    requires fromIndex < a.Length && toIndex < a.Length
    modifies a
    ensures a[..] == Moved(old(a[..]), fromIndex, toIndex)
  {
    ghost var s := a[..];
    var removed := a[fromIndex];
    if fromIndex < toIndex {
      ShiftDown(a, fromIndex, toIndex);
    } else {
      ShiftUp(a, toIndex, fromIndex);
    }
    a[toIndex] := removed;
    forall k | 0 <= k < a.Length
      ensures a[k] == Moved(s, fromIndex, toIndex)[k]
    {
      MovedAt(s, fromIndex, toIndex, k);
    }
  }

  /** `renumberPhases` done in place. */
  method RenumberInPlace(a: array<Phase>)
    modifies a
    ensures a[..] == Renumber(old(a[..]))
  {
    for i := 0 to a.Length
      invariant forall k :: 0 <= k < i ==> a[k] == old(a[k]).(order := k + 1)
      invariant forall k :: i <= k < a.Length ==> a[k] == old(a[k])
    {
      a[i] := a[i].(order := i + 1);
    }
  }

  /** `reorderPhases`: the phases copied into an array, moved, then renumbered. */
  method ReorderPhases(phases: seq<Phase>, fromIndex: nat, toIndex: nat) returns (r: seq<Phase>)
    requires fromIndex < |phases|
    ensures r == Renumber(Moved(phases, fromIndex, toIndex))
  {
    var a := new Phase[|phases|](i requires 0 <= i < |phases| => phases[i]);
    assert a[..] == phases;
    MoveInPlace(a, fromIndex, Landing(|phases|, toIndex));
    RenumberInPlace(a);
    r := a[..];
  }

  /** The reordered list holds the same phases (up to `order`), the moved one at its place, orders 1..n. */
  lemma ReorderContract(phases: seq<Phase>, fromIndex: nat, toIndex: nat)
    requires fromIndex < |phases|
    ensures var m := Moved(phases, fromIndex, toIndex);
      var r := Renumber(m);
      multiset(m) == multiset(phases) &&
      |r| == |phases| && OrderedFromOne(r) &&
      r[Landing(|phases|, toIndex)] == phases[fromIndex].(order := Landing(|phases|, toIndex) + 1) &&
      Removed(m, Landing(|phases|, toIndex)) == Removed(phases, fromIndex)
  {
    MovedPermutation(phases, fromIndex, toIndex);
    MovedLands(phases, fromIndex, toIndex);
    MovedKeepsOthers(phases, fromIndex, toIndex);
    MovedAt(phases, fromIndex, toIndex, 0);
  }

  // ---------------------------------------------------------------------
  // Tags (processUtils.ts:118-149)
  // ---------------------------------------------------------------------

  /** The tag is appended to a phase only when no tag of its type is there yet. */
  function WithTag(phase: Phase, tag: Tag): Phase {
    if HasTagType(phase.tags, tag.tagType) then phase else phase.(tags := phase.tags + [tag])
  }

  /** `assignTag`: only the phases with that id may change. */
  function AssignTag(phases: seq<Phase>, phaseId: string, tag: Tag): (r: seq<Phase>)
    ensures |r| == |phases|
    ensures forall i :: 0 <= i < |phases| ==> r[i] == if phases[i].id == phaseId then WithTag(phases[i], tag) else phases[i]
  {
    seq(|phases|, i requires 0 <= i < |phases| => if phases[i].id == phaseId then WithTag(phases[i], tag) else phases[i])
  }

  /** No phase gets a second tag of one type. */
  lemma WithTagKeepsDistinct(phase: Phase, tag: Tag)
    requires TagTypesDistinct(phase.tags)
    ensures TagTypesDistinct(WithTag(phase, tag).tags)
    ensures HasTagType(WithTag(phase, tag).tags, tag.tagType)
  {
    var tags := phase.tags;
    if !HasTagType(tags, tag.tagType) {
      var t2 := tags + [tag];
      forall i, j | 0 <= i < j < |t2|
        ensures t2[i].tagType != t2[j].tagType
      {
        if j == |tags| {
          assert tags[i] in tags;
        }
      }
      assert tag in t2;
    }
  }

  lemma AssignTagKeepsDistinct(phases: seq<Phase>, phaseId: string, tag: Tag)
    requires forall i :: 0 <= i < |phases| ==> TagTypesDistinct(phases[i].tags)
    ensures var r := AssignTag(phases, phaseId, tag);
      forall i :: 0 <= i < |r| ==> TagTypesDistinct(r[i].tags)
  {
    forall i | 0 <= i < |phases|
      ensures TagTypesDistinct(WithTag(phases[i], tag).tags)
    {
      WithTagKeepsDistinct(phases[i], tag);
    }
  }

  /** Assigning the same tag twice is assigning it once. */
  lemma AssignTagIdempotent(phases: seq<Phase>, phaseId: string, tag: Tag)
    ensures AssignTag(AssignTag(phases, phaseId, tag), phaseId, tag) == AssignTag(phases, phaseId, tag)
  {
    var once := AssignTag(phases, phaseId, tag);
    forall i | 0 <= i < |phases| && phases[i].id == phaseId
      ensures WithTag(once[i], tag) == once[i]
    {
      if !HasTagType(phases[i].tags, tag.tagType) {
        assert tag in once[i].tags;
      }
    }
  }

  /** `tags.filter((_, index) => index !== tagIndex)`. */
  function WithoutTagAt(tags: seq<Tag>, tagIndex: int): (r: seq<Tag>)
    ensures 0 <= tagIndex < |tags| ==> r == tags[..tagIndex] + tags[tagIndex + 1..]
    ensures !(0 <= tagIndex < |tags|) ==> r == tags
  {
    if 0 <= tagIndex < |tags| then tags[..tagIndex] + tags[tagIndex + 1..] else tags
  }

  /** `removeTag`: the tag at `tagIndex` leaves the phases with that id; the others are untouched. */
  function RemoveTag(phases: seq<Phase>, phaseId: string, tagIndex: int): (r: seq<Phase>)
    ensures |r| == |phases|
    ensures forall i :: 0 <= i < |phases| && phases[i].id != phaseId ==> r[i] == phases[i]
    ensures forall i :: 0 <= i < |phases| && phases[i].id == phaseId ==>
      r[i] == phases[i].(tags := WithoutTagAt(phases[i].tags, tagIndex))
  {
    seq(|phases|, i requires 0 <= i < |phases| =>
      if phases[i].id == phaseId then phases[i].(tags := WithoutTagAt(phases[i].tags, tagIndex)) else phases[i])
  }

  /** An index outside the matching phase's tags leaves the list as it was. */
  lemma RemoveTagOutOfRange(phases: seq<Phase>, phaseId: string, tagIndex: int)
    requires forall i :: 0 <= i < |phases| && phases[i].id == phaseId ==> !(0 <= tagIndex < |phases[i].tags|)
    ensures RemoveTag(phases, phaseId, tagIndex) == phases
  {
    assert forall i :: 0 <= i < |phases| ==> RemoveTag(phases, phaseId, tagIndex)[i] == phases[i];
  }

  /** Removing a tag just assigned to a phase that had no tag of its type gives the phase back. */
  lemma RemoveUndoesAssign(phase: Phase, tag: Tag)
    requires !HasTagType(phase.tags, tag.tagType)
    ensures WithTag(phase, tag).(tags := WithoutTagAt(WithTag(phase, tag).tags, |phase.tags|)) == phase
  {
    assert (phase.tags + [tag])[..|phase.tags|] == phase.tags;
  }

  // ---------------------------------------------------------------------
  // Advisors (processUtils.ts:154-218)
  // ---------------------------------------------------------------------

  /** The number of phases carrying a tag of type `t`. */
  function CountWithTag(phases: seq<Phase>, t: TagType): (n: nat)
    ensures n <= |phases|
  {
    if phases == [] then 0
    else (if HasTagType(phases[0].tags, t) then 1 else 0) + CountWithTag(phases[1..], t)
  }

  /** The four simplification hints. */
  datatype SimplifyHint = ConsolidateTriggers | CombineApiCalls | ConsolidatePrompts | EssentialSteps

  /** The text pushed for each hint. */
  function HintText(h: SimplifyHint): string {
    match h
    case ConsolidateTriggers => "\U{1F4A1} Considera di consolidare pi\U{F9} trigger in uno singolo webhook"
    case CombineApiCalls => "\U{1F4A1} Valuta di combinare pi\U{F9} API call in un unico HTTP request"
    case ConsolidatePrompts => "\U{1F4A1} Consolida multiple istruzioni AI in un unico system prompt con variabili"
    case EssentialSteps => "\U{2753} Quali sono i 3 step ESSENZIALI? Il resto potrebbe essere eliminato?"
  }

  /** The hints for the four rule outcomes, in the order the source pushes them. */
  function HintsFor(triggers: bool, tools: bool, prompts: bool, long: bool): seq<SimplifyHint> {
    PushIf(PushIf(PushIf(PushIf([], triggers, ConsolidateTriggers), tools, CombineApiCalls), prompts, ConsolidatePrompts),
      long, EssentialSteps)
  }

  /** The hints that fire for `phases`. */
  function SimplifyHints(phases: seq<Phase>): seq<SimplifyHint> {
    HintsFor(CountWithTag(phases, TRG) > 1, CountWithTag(phases, TOL) > 2, CountWithTag(phases, PRM) > 1, |phases| > 5)
  }

  /** Each hint is there exactly when its rule fires. */
  lemma HintsForRules(triggers: bool, tools: bool, prompts: bool, long: bool)
    ensures var s := HintsFor(triggers, tools, prompts, long);
      (ConsolidateTriggers in s <==> triggers) &&
      (CombineApiCalls in s <==> tools) &&
      (ConsolidatePrompts in s <==> prompts) &&
      (EssentialSteps in s <==> long)
  {
  }

  /** A push of a hint not yet in the list keeps the list free of repeats. */
  lemma PushIfDistinct(list: seq<SimplifyHint>, fires: bool, h: SimplifyHint)
    requires forall i, j :: 0 <= i < j < |list| ==> list[i] != list[j]
    requires h !in list
    ensures var r := PushIf(list, fires, h);
      |r| <= |list| + 1 && forall i, j :: 0 <= i < j < |r| ==> r[i] != r[j]
  {
  }

  /** At most four hints, none twice. */
  lemma HintsForDistinct(triggers: bool, tools: bool, prompts: bool, long: bool)
    ensures var s := HintsFor(triggers, tools, prompts, long);
      |s| <= 4 && forall i, j :: 0 <= i < j < |s| ==> s[i] != s[j]
  {
    var s1 := PushIf([], triggers, ConsolidateTriggers);
    var s2 := PushIf(s1, tools, CombineApiCalls);
    var s3 := PushIf(s2, prompts, ConsolidatePrompts);
    PushIfDistinct([], triggers, ConsolidateTriggers);
    PushIfDistinct(s1, tools, CombineApiCalls);
    PushIfDistinct(s2, prompts, ConsolidatePrompts);
    PushIfDistinct(s3, long, EssentialSteps);
  }

  /** The place of each hint in the order the source pushes them. */
  function HintPos(h: SimplifyHint): nat {
    match h
    case ConsolidateTriggers => 0
    case CombineApiCalls => 1
    case ConsolidatePrompts => 2
    case EssentialSteps => 3
  }

  /** The hints come in the source's order: triggers, API calls, prompts, length. */
  lemma HintsForOrdered(triggers: bool, tools: bool, prompts: bool, long: bool)
    ensures OrderedBy(HintPos, HintsFor(triggers, tools, prompts, long))
  {
    var s1 := PushIf([], triggers, ConsolidateTriggers);
    var s2 := PushIf(s1, tools, CombineApiCalls);
    var s3 := PushIf(s2, prompts, ConsolidatePrompts);
    PushIfOrdered(HintPos, [], triggers, ConsolidateTriggers);
    PushIfOrdered(HintPos, s1, tools, CombineApiCalls);
    PushIfOrdered(HintPos, s2, prompts, ConsolidatePrompts);
    PushIfOrdered(HintPos, s3, long, EssentialSteps);
  }

  /** `getSimplifySuggestions`: one push per rule that fires. */
  method GetSimplifySuggestions(phases: seq<Phase>) returns (suggestions: seq<string>)
    ensures suggestions == MapSeq(HintText, SimplifyHints(phases))
  {
    suggestions := [];
    ghost var hints: seq<SimplifyHint> := [];
    var triggerCount := CountWithTag(phases, TRG);
    MapSeqPush(HintText, hints, triggerCount > 1, ConsolidateTriggers);
    hints := PushIf(hints, triggerCount > 1, ConsolidateTriggers);
    if triggerCount > 1 {
      suggestions := suggestions + [HintText(ConsolidateTriggers)];
    }
    var toolCount := CountWithTag(phases, TOL);
    MapSeqPush(HintText, hints, toolCount > 2, CombineApiCalls);
    hints := PushIf(hints, toolCount > 2, CombineApiCalls);
    if toolCount > 2 {
      suggestions := suggestions + [HintText(CombineApiCalls)];
    }
    var prmCount := CountWithTag(phases, PRM);
    MapSeqPush(HintText, hints, prmCount > 1, ConsolidatePrompts);
    hints := PushIf(hints, prmCount > 1, ConsolidatePrompts);
    if prmCount > 1 {
      suggestions := suggestions + [HintText(ConsolidatePrompts)];
    }
    MapSeqPush(HintText, hints, |phases| > 5, EssentialSteps);
    hints := PushIf(hints, |phases| > 5, EssentialSteps);
    if |phases| > 5 {
      suggestions := suggestions + [HintText(EssentialSteps)];
    }
  }

  /** The four rules of `getSimplifySuggestions` on a phase list. */
  lemma SimplifyHintsRules(phases: seq<Phase>)
    ensures var s := SimplifyHints(phases);
      (ConsolidateTriggers in s <==> CountWithTag(phases, TRG) > 1) &&
      (CombineApiCalls in s <==> CountWithTag(phases, TOL) > 2) &&
      (ConsolidatePrompts in s <==> CountWithTag(phases, PRM) > 1) &&
      (EssentialSteps in s <==> |phases| > 5) &&
      |s| <= 4 && (forall i, j :: 0 <= i < j < |s| ==> s[i] != s[j]) &&
      OrderedBy(HintPos, s)
  {
    HintsForOrdered(CountWithTag(phases, TRG) > 1, CountWithTag(phases, TOL) > 2, CountWithTag(phases, PRM) > 1, |phases| > 5);
    HintsForRules(CountWithTag(phases, TRG) > 1, CountWithTag(phases, TOL) > 2, CountWithTag(phases, PRM) > 1, |phases| > 5);
    HintsForDistinct(CountWithTag(phases, TRG) > 1, CountWithTag(phases, TOL) > 2, CountWithTag(phases, PRM) > 1, |phases| > 5);
  }

  /** No phase with the tag type, no count. */
  lemma {:induction false} CountWithTagZero(phases: seq<Phase>, t: TagType)
    requires forall i :: 0 <= i < |phases| ==> !HasTagType(phases[i].tags, t)
    ensures CountWithTag(phases, t) == 0
  {
    if phases != [] {
      CountWithTagZero(phases[1..], t);
    }
  }

  function YellowWarning(n: nat): string {
    "\U{26A0}\U{FE0F} Processo in ZONA GIALLA (" + NatToString(n) + " fasi). Valuta semplificazione."
  }

  function RedWarning(n: nat): string {
    "\U{1F534} Processo FUORI GIOCO (" + NatToString(n) + " fasi)! Troppo complesso. Semplifica prima di procedere."
  }

  /** `validateProcessComplexity`: invalid past seven phases; one warning past five. */
  method ValidateProcessComplexity(phases: seq<Phase>) returns (valid: bool, warnings: seq<string>)
    ensures valid <==> |phases| <= 7
    ensures |phases| <= 5 ==> warnings == []
    ensures 6 <= |phases| <= 7 ==> warnings == [YellowWarning(|phases|)]
    ensures |phases| > 7 ==> warnings == [RedWarning(|phases|)]
  {
    warnings := [];
    var status := CalculateSemaforoStatus(|phases|);
    if status.status == Yellow {
      warnings := warnings + [YellowWarning(|phases|)];
    } else if status.status == Red {
      warnings := warnings + [RedWarning(|phases|)];
      return false, warnings;
    }
    return true, warnings;
  }
}
