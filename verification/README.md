# Meta-Hodos process builder and n8n workflow generator, in Dafny

This project models the deterministic core of the `generator-app` of
architettiAI: a Next.js application that helps a user break a business process
into phases and turn the result into an n8n workflow. The parts modelled are
these:

- **Workflow synthesis** (`app/api/generate/route.ts`). It takes the language
  model's reply and produces the n8n workflow document:
  - extracts the JSON object from the reply;
  - normalises every raw node: id, default name, type version, grid position;
  - sanitises each node's parameters against a per-type allow-list;
  - renames duplicate node names in order;
  - merges `connections` with `ai_connections`, with a linear-chain fallback;
  - assembles the document;
  - the POST handler: the blank-prompt check and the counts in the response.
    `name` defaults to `Generated Workflow` only when the property is absent;
    an explicit `null` is passed on.
- **Phase-list editing** (`lib/processUtils.ts`):
  - the traffic-light ("semaforo") classification by phase count;
  - renumbering, adding, updating, deleting and reordering phases;
  - assigning and removing tags;
  - the two complexity advisors.
- **The process reducer** (`lib/processContext.tsx`): twelve actions over the
  process state, and the provider's getters. The provider is a class whose
  `Dispatch` replaces its `state` field.
- **Phase decomposition** (`app/api/process/decompose/route.ts`):
  - the blank-description check;
  - the fenced-code-block match;
  - per-phase defaults, renumbering and truncation to seven phases;
  - the single generic phase used when anything fails.
- **The two KPI rules without arithmetic** (`lib/kpiUtils.ts`):
  - the default estimate of a phase, selected by tag precedence;
  - the threshold advice drawn from computed KPI results.
- **The data model and the six standard templates** (`types/process.ts`).

Parsed JSON is the datatype `JsValues.Json`. A property that is absent
(`undefined`) is `None`. The JavaScript behaviour the routes depend on is
written out:
- truthiness and `a || b`;
- `typeof null === 'object'`, and arrays are objects;
- `Object.entries` of arrays and strings gives index keys;
- reading a property of null throws;
- `String(v)` as a property key;
- `trim` and `\s`, including the Unicode spaces.

## Files

| file | module | models |
|---|---|---|
| js_values.dfy | JsValues | JSON values and the JavaScript operations used on them |
| extraction.dfy | ResponseExtraction | the clean-up and brace extraction of the generator's reply |
| sanitizer.dfy | ParameterSanitizer | `sanitizeParameters`, `sanitizeScheduleRule`, `getDefaultTypeVersion` |
| graph.dfy | WorkflowGraph | node construction, name deduplication, connection merge and fallback |
| generate.dfy | GenerateRoute | `generateWorkflowWithAI` after the model call, and the POST handler |
| process_types.dfy | ProcessTypes | the types and `STANDARD_TEMPLATES` |
| process_utils.dfy | ProcessUtils | the phase-list utilities |
| process_context.dfy | ProcessContext | `processReducer` and the provider |
| decompose.dfy | DecomposeRoute | the decomposition route |
| kpi_utils.dfy | KpiUtils | `getDefaultKPI` and `getKPISuggestions` |

## Model

| member | source | states |
|---|---|---|
| JsValues.Get | generator-app/src/app/api/generate/route.ts:362 | a property read gives a value exactly when the value is an object that has the key, and then the key's value |
| JsValues.OrElse | generator-app/src/app/api/generate/route.ts:427-440 | `v \|\| d` is `v` when `v` is truthy and `d` otherwise |
| JsValues.NatToStringInjective | generator-app/src/app/api/generate/route.ts:386 | two numbers that print alike are equal |
| JsValues.PrefixedNumbersDiffer | generator-app/src/app/api/process/decompose/route.ts:122 | one prefix followed by two different numbers gives two different strings |
| JsValues.TrimEmpty | generator-app/src/app/api/generate/route.ts:590 | `s.trim()` is empty exactly when every character of `s` is white space |
| JsValues.WhitespaceIsBlank | generator-app/src/app/api/process/decompose/route.ts:84 | a string of white space only fails the `!v \|\| !v.trim()` check |
| JsValues.StripMarker | generator-app/src/app/api/generate/route.ts:346 | deleting a marker with the white space after it never lengthens the text |
| JsValues.FirstIndex | generator-app/src/app/api/generate/route.ts:349 | the index found holds the character and none comes before it; no index means the character is absent |
| JsValues.LastIndex | generator-app/src/app/api/generate/route.ts:349 | the index found holds the character and none comes after it; no index means the character is absent |
| ResponseExtraction.ObjectSpan | generator-app/src/app/api/generate/route.ts:349-352 | `/\{[\s\S]*\}/` matches exactly when a `{` precedes a `}`; the match runs from the first `{` to the last `}` |
| ResponseExtraction.SpanWhenBracesExist | generator-app/src/app/api/generate/route.ts:349-352 | a `{` before a `}` means the first `{` comes before the last `}` |
| ResponseExtraction.PlainReplyExtraction | generator-app/src/app/api/generate/route.ts:343-352 | with no fences, the text parsed is the braced object itself, whatever text comes before or after it |
| ResponseExtraction.FencedReplyExtraction | generator-app/src/app/api/generate/route.ts:346-352 | an object in a ```` ```json ```` fence, with white space and text around it, is extracted exactly |
| ResponseExtraction.NoBraceReply | generator-app/src/app/api/generate/route.ts:349-352 | a cleaned reply without `{` is parsed as it stands |
| ParameterSanitizer.DefaultTypeVersion | generator-app/src/app/api/generate/route.ts:555-583 | the table's version for a listed type, 1 for any other type, and never below 1 |
| ParameterSanitizer.VersionsAtLeastOne | generator-app/src/app/api/generate/route.ts:556-582 | no table entry is falsy, so `\|\| 1` only applies to an unlisted type |
| ParameterSanitizer.KeepScalars | generator-app/src/app/api/generate/route.ts:503-509 | the copy holds exactly the string, number and boolean entries, with their values unchanged |
| ParameterSanitizer.SanitizeScheduleRule | generator-app/src/app/api/generate/route.ts:543-553 | the result always has the single key `interval`, holding an array; it is the rule's own interval exactly when the rule is an object whose `interval` is an array, and the 9 o'clock default otherwise |
| ParameterSanitizer.ScheduleRuleFixedPoint | generator-app/src/app/api/generate/route.ts:543-553 | a sanitised rule sanitises to itself |
| ParameterSanitizer.AllowedStep | generator-app/src/app/api/generate/route.ts:516-538 | one more allow-listed key adds at most that key, cleaned according to its value |
| ParameterSanitizer.CopyAllowed | generator-app/src/app/api/generate/route.ts:515-540 | the loop over the allow-list computes `Allowed` |
| ParameterSanitizer.SanitizeParameters | generator-app/src/app/api/generate/route.ts:448-541 | the method's maps equal `Sanitized(type, params)` |
| ParameterSanitizer.NonObjectParams | generator-app/src/app/api/generate/route.ts:449 | parameters that are not an object or an array give `{}` for every type |
| ParameterSanitizer.EmptyAllowList | generator-app/src/app/api/generate/route.ts:513 | a type with an empty allow-list gives `{}` for any parameters |
| ParameterSanitizer.BranchNodesLoseParameters | generator-app/src/app/api/generate/route.ts:461-464 | `if`, `set` and `switch` nodes always get `{}` |
| ParameterSanitizer.UnknownTypeKeepsScalars | generator-app/src/app/api/generate/route.ts:499-510 | for an unlisted type, the keys kept are exactly the top-level scalar ones, with their values |
| ParameterSanitizer.CustomNodeExample | generator-app/src/app/api/generate/route.ts:502-510 | an unknown node type keeps its string parameter and loses the nested object |
| ParameterSanitizer.RegisteredTypeContract | generator-app/src/app/api/generate/route.ts:515-540 | for a listed type: only allow-listed keys the input has appear; scalars are unchanged; an object-typed `rule` is the sanitised rule; object-typed `options` keep their scalar entries; other non-scalars are omitted |
| ParameterSanitizer.OptionsQuirks | generator-app/src/app/api/generate/route.ts:525-535 | `options: null` becomes `{}`; array options are filtered by index key |
| ParameterSanitizer.ScalarEntriesFixedPoint | generator-app/src/app/api/generate/route.ts:503-509 | filtering scalars twice is filtering once |
| ParameterSanitizer.OptionEntriesFixedPoint | generator-app/src/app/api/generate/route.ts:527-535 | cleaned options clean to themselves |
| ParameterSanitizer.CleanedFixedPoint | generator-app/src/app/api/generate/route.ts:520-536 | a cleaned value passes the filter again and cleans to itself |
| ParameterSanitizer.SanitizeIdempotent | generator-app/src/app/api/generate/route.ts:448-541 | sanitising the sanitised parameters gives them back |
| WorkflowGraph.BuildNodes | generator-app/src/app/api/generate/route.ts:367-379 | the map throws exactly when some raw node is null; otherwise it gives one node per raw node, in order, built at its index |
| WorkflowGraph.BareNodeDefaults | generator-app/src/app/api/generate/route.ts:367-379 | a raw node that is not an object gets every default: name `Node i`, no type, version 1, the grid position, `{}` |
| WorkflowGraph.SuppliedValuesKept | generator-app/src/app/api/generate/route.ts:368-375 | a truthy name and type version, and any array as position, are kept as given |
| WorkflowGraph.MissingValuesDefaulted | generator-app/src/app/api/generate/route.ts:368-377 | the defaults: `Node i` with 0-based i, the type's default version, `[250 + 300i, 300]` unless `position` is an array, and `parameters`, else `config`, else `{}` |
| WorkflowGraph.Deduplicated | generator-app/src/app/api/generate/route.ts:382-390 | the same number of nodes, each with only its name replaced by its deduplicated name |
| WorkflowGraph.CountStep | generator-app/src/app/api/generate/route.ts:384-389 | one more node adds one to the count of its own name and leaves the other counts alone |
| WorkflowGraph.DeduplicateNames | generator-app/src/app/api/generate/route.ts:382-390 | the loop renames the array in place to `Deduplicated` of its old contents |
| WorkflowGraph.DedupKeepsAllButNames | generator-app/src/app/api/generate/route.ts:382-390 | node count, order, ids, types, versions, positions and parameters are unchanged |
| WorkflowGraph.DedupNaming | generator-app/src/app/api/generate/route.ts:384-389 | the first node with a raw name keeps it; the k-th (k >= 2) becomes `"X k"` |
| WorkflowGraph.DedupCollisionExample | generator-app/src/app/api/generate/route.ts:382-390 | `["A","A","A 2"]` becomes `["A","A 2","A 2"]`: the names are not always distinct |
| WorkflowGraph.SuffixInjective | generator-app/src/app/api/generate/route.ts:386 | `a + " " + k` determines both `a` and `k` |
| WorkflowGraph.CountIncreases | generator-app/src/app/api/generate/route.ts:384-386 | two nodes with the same raw name have different counts before them |
| WorkflowGraph.DedupDistinct | generator-app/src/app/api/generate/route.ts:382-390 | when no raw name already reads as another's `"X k"`, the final names are pairwise distinct |
| WorkflowGraph.CopyKinds | generator-app/src/app/api/generate/route.ts:400-402 | the inner loop overwrites the recorded kinds with the source's kinds |
| WorkflowGraph.AddSource | generator-app/src/app/api/generate/route.ts:397-403 | one outer round records the source's kinds over those already there |
| WorkflowGraph.CopyLayer | generator-app/src/app/api/generate/route.ts:396-415 | one copy loop throws on a null target; otherwise every (source, kind) of the layer overwrites the same entry |
| WorkflowGraph.MergeConnections | generator-app/src/app/api/generate/route.ts:393-415 | the two loops compute `MergedConnections` |
| WorkflowGraph.AiConnectionsOverwrite | generator-app/src/app/api/generate/route.ts:396-415 | a (source, kind) in `ai_connections` takes its value from there; the kinds of `connections` that it leaves out survive |
| WorkflowGraph.NullTargetThrows | generator-app/src/app/api/generate/route.ts:397-401 | a null under a source of `connections` makes generation throw |
| WorkflowGraph.LinearFallback | generator-app/src/app/api/generate/route.ts:418-424 | the fallback loop builds `Chain(nodes)` |
| WorkflowGraph.SingleNodeNoChain | generator-app/src/app/api/generate/route.ts:419 | one node, or none, gives no connections |
| WorkflowGraph.ChainKeys | generator-app/src/app/api/generate/route.ts:419-423 | the chain's sources are the names of every node but the last |
| WorkflowGraph.ChainOfDistinct | generator-app/src/app/api/generate/route.ts:418-424 | with distinct names, n nodes give n - 1 entries, and node i points to node i + 1 through `main` |
| WorkflowGraph.ChainOnlyWhenEmpty | generator-app/src/app/api/generate/route.ts:418 | the chain is built only when the merged maps are empty; otherwise they are used as given |
| GenerateRoute.RenameNodes | generator-app/src/app/api/generate/route.ts:382-390 | the nodes after the in-place loop are `Deduplicated` of those built |
| GenerateRoute.ConnectNodes | generator-app/src/app/api/generate/route.ts:393-424 | the merged connections, or the chain when they are empty |
| GenerateRoute.BuildWorkflow | generator-app/src/app/api/generate/route.ts:367-441 | the steps compute `FromRawNodes` |
| GenerateRoute.GenerateWorkflowWithAI | generator-app/src/app/api/generate/route.ts:343-441 | the steps compute `Synthesis` of the reply |
| GenerateRoute.DocumentConstants | generator-app/src/app/api/generate/route.ts:426-441 | every document has `settings = {executionOrder: 'v1'}`, `staticData = null`, `pinData = {}`, the requested name and at least one node |
| GenerateRoute.DocumentNodes | generator-app/src/app/api/generate/route.ts:362-390 | the document's nodes are the raw nodes, built in order and then renamed |
| GenerateRoute.SynthesisParsesJsonText | generator-app/src/app/api/generate/route.ts:343-364 | a success means the model answered, and what it holds is the document of the parsed extracted text |
| GenerateRoute.UnparsableReply | generator-app/src/app/api/generate/route.ts:354-360 | a reply the parser rejects fails with the parse message |
| GenerateRoute.NodesMissing | generator-app/src/app/api/generate/route.ts:362-364 | missing, non-array or empty `nodes` fails with the nodes message, which differs from the parse message |
| GenerateRoute.NonTextReply | generator-app/src/app/api/generate/route.ts:343 | a reply that is not a text block is handled as the empty text |
| GenerateRoute.ActiveNodes | generator-app/src/app/api/generate/route.ts:599 | the filter keeps only non-sticky-note nodes and never lengthens the list |
| GenerateRoute.Types | generator-app/src/app/api/generate/route.ts:610 | one type per node, in order |
| GenerateRoute.BlankPromptRefused | generator-app/src/app/api/generate/route.ts:590-595 | a missing or blank prompt gives 400 `Prompt required`, whatever the model would answer |
| GenerateRoute.ActivePlusSticky | generator-app/src/app/api/generate/route.ts:599-609 | active nodes plus sticky notes make up all nodes |
| GenerateRoute.ResponseCounts | generator-app/src/app/api/generate/route.ts:608-610 | `nodeCount + stickyNoteCount = nodes.length`; `stickyNoteCount` counts the sticky notes; one detected type per active node |
| GenerateRoute.ActiveKeepsOthers | generator-app/src/app/api/generate/route.ts:599 | every node whose type is not exactly the sticky-note type is counted |
| ProcessTypes.StandardTemplates | generator-app/src/types/process.ts:100-333 | the table has exactly the keys WHSE, SALES, MKTG, SERV, PROD, STRAT |
| ProcessTypes.TemplatePhasesListed | generator-app/src/types/process.ts:100-333 | each template is standard, its template id is its own id, and its phases are one of the six lists |
| ProcessTypes.NumberedSmall | generator-app/src/types/process.ts:106-140 | three or four phases with orders 1.. and ids "1".. are numbered from one |
| ProcessTypes.DistinctSmall | generator-app/src/types/process.ts:106-140 | up to three tags with pairwise different types have distinct types |
| ProcessTypes.WellFormedSmall | generator-app/src/types/process.ts:106-140 | the checks above make a well-formed template |
| ProcessTypes.WarehouseWellFormed | generator-app/src/types/process.ts:101-141 | the WHSE phases are well formed |
| ProcessTypes.SalesWellFormed | generator-app/src/types/process.ts:143-176 | the SALES phases are well formed |
| ProcessTypes.MarketingWellFormed | generator-app/src/types/process.ts:178-218 | the MKTG phases are well formed |
| ProcessTypes.ServiceWellFormed | generator-app/src/types/process.ts:220-254 | the SERV phases are well formed |
| ProcessTypes.ProductionWellFormed | generator-app/src/types/process.ts:256-289 | the PROD phases are well formed |
| ProcessTypes.StrategyWellFormed | generator-app/src/types/process.ts:291-332 | the STRAT phases are well formed |
| ProcessTypes.TemplateWellFormed | generator-app/src/types/process.ts:100-333 | every listed phase list is well formed |
| ProcessTypes.StandardTemplatesWellFormed | generator-app/src/types/process.ts:100-333 | every standard template: 3 or 4 phases, phase k with order k+1 and id "k+1", a TRG tag on the first phase, no tag type twice in a phase |
| ProcessUtils.CalculateSemaforoStatus | generator-app/src/lib/processUtils.ts:9-32 | green with maxSafe 5 exactly up to 5 phases, yellow with 7 exactly for 6-7, red with 7 exactly from 8; `phaseCount` is the input; the message matches the colour |
| ProcessUtils.SemaforoMonotone | generator-app/src/lib/processUtils.ts:9-32 | more phases never give a better light or a lower maxSafe |
| ProcessUtils.StandardTemplatesGreen | generator-app/src/lib/processUtils.ts:9-16 | every standard template is green |
| ProcessUtils.Renumber | generator-app/src/lib/processUtils.ts:62-67 | same length; every phase keeps every field but `order`, which becomes index + 1 |
| ProcessUtils.RenumberOrdered | generator-app/src/lib/processUtils.ts:62-67 | renumbered lists are numbered 1..n |
| ProcessUtils.RenumberOrderedIdentity | generator-app/src/lib/processUtils.ts:62-67 | a list already numbered 1..n is left as it is |
| ProcessUtils.RenumberIdempotent | generator-app/src/lib/processUtils.ts:62-67 | renumbering twice is renumbering once |
| ProcessUtils.AddPhase | generator-app/src/lib/processUtils.ts:72-78 | the phase is appended with order old length + 1; the earlier phases are unchanged |
| ProcessUtils.AddPhaseKeepsOrdered | generator-app/src/lib/processUtils.ts:72-78 | adding keeps a list numbered 1..n |
| ProcessUtils.MergeNothing | generator-app/src/lib/processUtils.ts:89 | an empty update leaves the phase unchanged |
| ProcessUtils.MergeTwice | generator-app/src/lib/processUtils.ts:89 | two merges are one merge of the combined update, with later fields winning |
| ProcessUtils.UpdatePhase | generator-app/src/lib/processUtils.ts:83-91 | same length; phases whose id matches get the merge, all others stay identical |
| ProcessUtils.UpdateUnknownId | generator-app/src/lib/processUtils.ts:83-91 | an id no phase has changes nothing |
| ProcessUtils.WithoutId | generator-app/src/lib/processUtils.ts:97 | the filter keeps exactly the phases without the id |
| ProcessUtils.WithoutIdOrder | generator-app/src/lib/processUtils.ts:97 | the filter keeps the remaining phases in their relative order |
| ProcessUtils.DeletePhase | generator-app/src/lib/processUtils.ts:96-99 | the filtered phases, in order, renumbered |
| ProcessUtils.DeletePhaseContract | generator-app/src/lib/processUtils.ts:96-99 | after a delete no phase has the id, every other phase is still there, and orders run 1..n |
| ProcessUtils.DeleteUnknownId | generator-app/src/lib/processUtils.ts:96-99 | deleting an unknown id only renumbers |
| ProcessUtils.MovedAt | generator-app/src/lib/processUtils.ts:109-111 | element k of the moved list, position by position |
| ProcessUtils.MovedPermutation | generator-app/src/lib/processUtils.ts:109-111 | the two splices permute the list |
| ProcessUtils.MovedLands | generator-app/src/lib/processUtils.ts:111 | the moved element lands at `toIndex`, or last when that is past the end |
| ProcessUtils.MovedKeepsOthers | generator-app/src/lib/processUtils.ts:109-111 | the other elements keep their relative order |
| ProcessUtils.ShiftDown | generator-app/src/lib/processUtils.ts:110 | the elements between the two indices move one place down; the rest stay |
| ProcessUtils.ShiftUp | generator-app/src/lib/processUtils.ts:111 | the elements between the two indices move one place up; the rest stay |
| ProcessUtils.MoveInPlace | generator-app/src/lib/processUtils.ts:109-111 | the in-place move gives `Moved` of the old contents |
| ProcessUtils.RenumberInPlace | generator-app/src/lib/processUtils.ts:62-67 | the in-place renumbering gives `Renumber` of the old contents |
| ProcessUtils.ReorderPhases | generator-app/src/lib/processUtils.ts:104-113 | the result is the moved list, renumbered |
| ProcessUtils.ReorderContract | generator-app/src/lib/processUtils.ts:104-113 | up to `order`, the result is a permutation of the input; the moved phase sits at `toIndex`; the others keep their relative order; orders run 1..n |
| ProcessUtils.AssignTag | generator-app/src/lib/processUtils.ts:118-130 | only phases with the id may change, and only by getting the tag when they had none of its type |
| ProcessUtils.WithTagKeepsDistinct | generator-app/src/lib/processUtils.ts:120-126 | a phase with distinct tag types keeps them distinct and then has the tag's type |
| ProcessUtils.AssignTagKeepsDistinct | generator-app/src/lib/processUtils.ts:118-130 | assigning preserves "no two tags of one type in a phase" |
| ProcessUtils.AssignTagIdempotent | generator-app/src/lib/processUtils.ts:118-130 | assigning the same tag twice is assigning it once |
| ProcessUtils.WithoutTagAt | generator-app/src/lib/processUtils.ts:144 | the tag at the index is removed when the index is in range; otherwise the tags are unchanged |
| ProcessUtils.RemoveTag | generator-app/src/lib/processUtils.ts:135-149 | matching phases lose exactly the tag at the index; other phases are untouched |
| ProcessUtils.RemoveTagOutOfRange | generator-app/src/lib/processUtils.ts:135-149 | an index out of range in every matching phase leaves the list unchanged |
| ProcessUtils.RemoveUndoesAssign | generator-app/src/lib/processUtils.ts:118-149 | removing a freshly assigned tag gives the phase back |
| ProcessUtils.CountWithTag | generator-app/src/lib/processUtils.ts:158-160 | the count never exceeds the number of phases |
| ProcessUtils.HintsForRules | generator-app/src/lib/processUtils.ts:154-195 | each suggestion is present exactly when its rule fires |
| ProcessUtils.PushIfDistinct | generator-app/src/lib/processUtils.ts:161-192 | pushing a new suggestion keeps the list free of repeats |
| ProcessUtils.HintsForDistinct | generator-app/src/lib/processUtils.ts:154-195 | at most four suggestions, none twice |
| ProcessUtils.HintsForOrdered | generator-app/src/lib/processUtils.ts:154-195 | the suggestions come in the order the rules are checked: triggers, API calls, prompts, length |
| ProcessUtils.GetSimplifySuggestions | generator-app/src/lib/processUtils.ts:154-195 | the pushed texts are those of `SimplifyHints(phases)`, in order |
| ProcessUtils.SimplifyHintsRules | generator-app/src/lib/processUtils.ts:154-195 | triggers iff more than one phase has TRG, tools iff more than two have TOL, prompts iff more than one has PRM, essentials iff more than 5 phases; at most four, none twice, in the rules' order |
| ProcessUtils.CountWithTagZero | generator-app/src/lib/processUtils.ts:158-160 | no phase with the tag gives a count of 0 |
| ProcessUtils.ValidateProcessComplexity | generator-app/src/lib/processUtils.ts:200-218 | invalid exactly past 7 phases; no warning up to 5; exactly the yellow warning for 6-7 and the red one from 8 |
| ProcessContext.ProcessReducer | generator-app/src/lib/processContext.tsx:33-125 | the action's transition; its properties are the lemmas below |
| ProcessContext.PhaseActionsChangeOnlyPhases | generator-app/src/lib/processContext.tsx:35-81 | ADD, UPDATE, DELETE, ASSIGN_TAG and REMOVE_TAG change only `phases`, each to the result of its own utility (`addPhase`, `updatePhase`, `deletePhase`, `assignTag`, `removeTag`), and a deleted phase keeps its KPI |
| ProcessContext.ReorderStoresPayload | generator-app/src/lib/processContext.tsx:57-61 | REORDER_PHASES stores the payload verbatim and changes nothing else |
| ProcessContext.LoadTemplateClearsKpis | generator-app/src/lib/processContext.tsx:89-96 | LOAD_TEMPLATE takes phases, name, pattern and template id from the payload and empties `kpis` |
| ProcessContext.SetKpiOnlyItsEntry | generator-app/src/lib/processContext.tsx:104-111 | SET_KPI sets `kpis[phaseId]` and keeps every other entry and field |
| ProcessContext.ResetKpisKeepsPhases | generator-app/src/lib/processContext.tsx:113-117 | RESET_KPIS empties `kpis` and keeps everything else |
| ProcessContext.FieldSettersLocal | generator-app/src/lib/processContext.tsx:83-102 | SET_PROCESS_NAME and SET_PATTERN change only their own field |
| ProcessContext.ResetIsInitial | generator-app/src/lib/processContext.tsx:25-31 | RESET gives no phases, `Nuovo Processo`, custom, no template and no KPIs |
| ProcessContext.ReducerKeepsNumbering | generator-app/src/lib/processContext.tsx:35-81 | adding, deleting, tag edits and order-free updates keep phases numbered 1..n |
| ProcessContext.ReducerKeepsTagsDistinct | generator-app/src/lib/processContext.tsx:35-81 | tag edits, and adding a phase with distinct tag types, keep every phase's tag types distinct |
| ProcessContext.KPIResultsOf | generator-app/src/lib/processContext.tsx:142-146 | null exactly when `kpis` has no keys; otherwise the result of the calculation |
| ProcessContext.KPIResultsAfterActions | generator-app/src/lib/processContext.tsx:104-117 | there are results after SET_KPI, and none after RESET_KPIS or LOAD_TEMPLATE |
| ProcessContext.ProcessStore.constructor | generator-app/src/lib/processContext.tsx:132 | the store starts in `initialState` |
| ProcessContext.ProcessStore.Dispatch | generator-app/src/lib/processContext.tsx:132 | the new state is the reducer applied to the old one |
| ProcessContext.ProcessStore.GetSemaforoStatus | generator-app/src/lib/processContext.tsx:134-136 | green exactly when there are at most 5 phases, yellow exactly when there are 6 or 7, red exactly when there are 8 or more |
| ProcessContext.ProcessStore.GetPhaseCount | generator-app/src/lib/processContext.tsx:138-140 | the number of phases |
| ProcessContext.ProcessStore.GetKPIResults | generator-app/src/lib/processContext.tsx:142-146 | null exactly when `kpis` has no keys |
| DecomposeRoute.FirstFence | generator-app/src/app/api/process/decompose/route.ts:112 | the least index where three backticks start, or none when there is no fence |
| DecomposeRoute.ContentStart | generator-app/src/app/api/process/decompose/route.ts:112 | the capture starts past the fence, an optional `json` and the white space after them |
| DecomposeRoute.FirstClose | generator-app/src/app/api/process/decompose/route.ts:112 | the least place from which white space and a fence follow, or none |
| DecomposeRoute.UnfencedReplyParsedWhole | generator-app/src/app/api/process/decompose/route.ts:112-113 | a reply without a fence is parsed whole |
| DecomposeRoute.UnclosedFenceParsedWhole | generator-app/src/app/api/process/decompose/route.ts:112-113 | a fence with no closing fence after it does not match, so the whole reply is parsed |
| DecomposeRoute.CaptureTrimmed | generator-app/src/app/api/process/decompose/route.ts:112 | the capture never starts or ends with white space |
| DecomposeRoute.FencedBlockOf | generator-app/src/app/api/process/decompose/route.ts:112-113 | after the first fence and its tag, white space, a block, white space and a fence: the capture is the block |
| DecomposeRoute.JsonFenceCaptured | generator-app/src/app/api/process/decompose/route.ts:112-113 | a block in a ```` ```json ```` fence after text without backticks is what gets parsed, without its surrounding space |
| DecomposeRoute.PlainFenceCaptured | generator-app/src/app/api/process/decompose/route.ts:112-113 | the same for a bare ```` ``` ```` fence, unless the block itself starts with `json` right after the fence |
| DecomposeRoute.PhaseItems | generator-app/src/app/api/process/decompose/route.ts:115-119 | phases are found exactly when the text parsed, not to null, and `phases` is an array |
| DecomposeRoute.NormalizeAll | generator-app/src/app/api/process/decompose/route.ts:121-127 | one phase per item, each normalised at its own index |
| DecomposeRoute.FirstSeven | generator-app/src/app/api/process/decompose/route.ts:130-132 | a prefix of at most seven phases |
| DecomposeRoute.DecomposePhases | generator-app/src/app/api/process/decompose/route.ts:108-147 | the reassigned `phases` ends as `DecomposedPhases` of the reply |
| DecomposeRoute.BlankDescriptionRefused | generator-app/src/app/api/process/decompose/route.ts:84-89 | a missing or blank description gives 400, whatever the model would answer |
| DecomposeRoute.ServerErrors | generator-app/src/app/api/process/decompose/route.ts:153-159 | a body that is not JSON or is null, a truthy non-string description, or a failed model call gives the 500 error |
| DecomposeRoute.SuccessPhases | generator-app/src/app/api/process/decompose/route.ts:80-152 | a success means a non-blank string description and a text reply, and carries their phases |
| DecomposeRoute.PhasesShape | generator-app/src/app/api/process/decompose/route.ts:121-132 | at most 7 phases with orders 1..n; when the reply lists phases, they are its first min(n, 7), each normalised at its index |
| DecomposeRoute.FallbackWhenNoPhases | generator-app/src/app/api/process/decompose/route.ts:117-119 | a reply that does not parse, or has no array of phases, gives exactly the generic phase `phase_1`, `Processo Custom`, the description, `[{AGT, CUSTOM}]`, order 1 |
| DecomposeRoute.FallbackOnNullPhase | generator-app/src/app/api/process/decompose/route.ts:121-147 | a null phase anywhere in the list, even past the seventh, also gives the generic phase |
| DecomposeRoute.NormalizedDefaults | generator-app/src/app/api/process/decompose/route.ts:121-127 | a phase with no truthy field gets `phase_{i+1}`, `Fase Senza Nome`, `''`, `[]` and order i + 1 |
| DecomposeRoute.NormalizedKeepsValues | generator-app/src/app/api/process/decompose/route.ts:121-127 | truthy id, name, description and tags are kept; `order` is always i + 1 |
| DecomposeRoute.DefaultIdsDistinct | generator-app/src/app/api/process/decompose/route.ts:122 | default ids at two positions differ |
| KpiUtils.DominantIsHighest | generator-app/src/lib/kpiUtils.ts:7-52 | the deciding tag is present and no present tag outranks it; there is none exactly when no TRG, AGT, TOL or OUT is present |
| KpiUtils.GetDefaultKPI | generator-app/src/lib/kpiUtils.ts:6-64 | the overwrites of the seven locals give `DefaultKPI(phase)` |
| KpiUtils.DefaultKPIIdentity | generator-app/src/lib/kpiUtils.ts:19-63 | `phaseId` is the phase's id and `volumePerDay` is 10 |
| KpiUtils.DefaultKPIBase | generator-app/src/lib/kpiUtils.ts:13-18 | with no deciding tag: 15/2 minutes, 5/1 error rate, 10/2 EUR |
| KpiUtils.DefaultKPIPrecedence | generator-app/src/lib/kpiUtils.ts:21-52 | OUT decides whatever else is present; TOL unless OUT is present; AGT unless TOL or OUT is present |
| KpiUtils.HasTagTypeAppend | generator-app/src/lib/kpiUtils.ts:7-10 | a tag of another type does not change whether a type is present |
| KpiUtils.NonDecidingTagsIgnored | generator-app/src/lib/kpiUtils.ts:7-52 | LLM, PRM and MEM tags do not change the estimate |
| KpiUtils.LowScoring | generator-app/src/lib/kpiUtils.ts:170 | the filter keeps exactly the phase results scoring under 40 |
| KpiUtils.Names | generator-app/src/lib/kpiUtils.ts:173 | the names of the phase results, in order |
| KpiUtils.PushSuggestion | generator-app/src/lib/kpiUtils.ts:162-183 | one conditional push of a suggestion's text |
| KpiUtils.GetKPISuggestions | generator-app/src/lib/kpiUtils.ts:159-186 | the pushed texts are those of `KPIHints(results)`, in order |
| KpiUtils.KPIHintsForMembers | generator-app/src/lib/kpiUtils.ts:159-186 | the list holds each piece of advice whose rule fires and nothing else, at most five |
| KpiUtils.KPIHintsForRules | generator-app/src/lib/kpiUtils.ts:159-186 | each piece of advice is present exactly when its rule fires |
| KpiUtils.KPIHintsForOrdered | generator-app/src/lib/kpiUtils.ts:159-186 | the advice comes in the order the rules are checked (time, payback, efficiency, errors, ROI), each piece at most once |
| KpiUtils.LowScoringNonEmpty | generator-app/src/lib/kpiUtils.ts:170-171 | some phase scores under 40 exactly when the filter keeps one |
| KpiUtils.KPIHintsRules | generator-app/src/lib/kpiUtils.ts:159-186 | time iff saved percent < 50; payback iff > 180 days; low efficiency iff some score < 40; errors iff reduction < 5; ROI iff > 300; at most five, none twice, in the rules' order |
| KpiUtils.LowEfficiencyNamesPhases | generator-app/src/lib/kpiUtils.ts:170-175 | the low-efficiency advice names exactly the phases scoring under 40 |
| KpiUtils.LowScoringOrder | generator-app/src/lib/kpiUtils.ts:170 | the filter keeps the phases' relative order |
| KpiUtils.LowEfficiencyText | generator-app/src/lib/kpiUtils.ts:172-174 | one name has no separator; two are joined by `", "` inside the quotes |

## Left out

- **The model calls.** The Anthropic calls (generate/route.ts:325-341 and decompose/route.ts:92-102) are I/O. Their outcome is the `ModelReply` parameter: a text block, another kind of block, no content, or a thrown error.
- **`JSON.parse`.** It is the parameter `parse`, which gives `None` when parsing throws. `JSON.stringify`, `serializeProcess` and `deserializeProcess` are left out as foreign calls.
- **Ids and clocks.**
  - `crypto.randomUUID` is the parameter `uuid`.
  - `generatePhaseId` and `createPhase` are left out because they depend on the clock and on randomness.
  - The templates' `createdAt` and `updatedAt` stamps are the parameter `stamp`.
- **`calculateKPIResults`.** It uses floating-point division and rounding. It is the parameter `calculate` of `getKPIResults`. `generateKPIPDFData` and `generateKPIPDF` are rendering and are left out.
- **Constant text with nothing to prove.** The system prompts, and the UI tables `TAG_COLORS`, `TAG_DESCRIPTIONS` and `TAG_EMOJIS`.
- **Logging.** `console.error` is not modelled.
- **Error text.** A TypeError's message is the engine's own text, so it is modelled as a failure kind and not as text.
- **`style` in the decompose request.** It is read but never used.
- **Prototype keys.** Keys inherited from `Object.prototype` (`constructor`, `__proto__`, ...) are not modelled. JavaScript would find them in the allow-list table, the version table and the name counter.
- **Object key order.** Objects are maps, so the insertion order of their keys (and with it the order of connection sources) is not modelled.
- **Number formatting.** Only plain decimal notation is modelled; exponent notation is not.
- ProcessUtils.ReorderPhases: requires `fromIndex` to denote a phase. With an out-of-range index, JavaScript's `splice` removes nothing and inserts `undefined`, which renumbering turns into a phase holding only `order`. A phase with missing fields has no counterpart in the typed model. Negative indices are not modelled either.
- ProcessUtils.UpdatePhase: an update that sets a field to an explicit `undefined` is not modelled. A field is either present in the update or absent from it.
- ProcessContext.ProcessReducer: the `default` branch (processContext.tsx:122-123) cannot be reached, because the action datatype is closed to the twelve cases.
- DecomposeRoute.FencedBlock: the regular expression of decompose/route.ts:112 is modelled by its characterisation, not by a backtracking matcher.
  - Only the first fence can start a match: any later fence lies past the first capture's start, so a close that follows it also follows the first.
  - The lazy capture ends at the first place from which white space and a fence follow.
  - The `\s*` before the capture takes as much white space as there is. Handing some of it back to the capture adds no place where a close can match, so no other match exists.
- GenerateRoute.HandleGenerate: the `'Failed to generate workflow'` fallback message cannot occur, because everything thrown is an `Error`. The failure kind carries the message instead.

What the code does not do, and the model therefore does not claim:
- Node names are not always unique after deduplication (generate/route.ts:382-390, `DedupCollisionExample`).
- Nothing checks that connections name existing nodes or that there is exactly one trigger (generate/route.ts:393-424).
- `/api/generate` reads only `prompt` and `name`; a `phases` field is ignored (generate/route.ts:587-588).
- A reply with an empty `phases` array gives a success with no phases; the generic phase is not used (decompose/route.ts:117-127).
