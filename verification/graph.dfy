/**
 * From the parsed model reply to the nodes and connections of the workflow
 * document (generate/route.ts:366-424): one node per raw node with its
 * defaults filled in, duplicate names renamed in order, the `connections` and
 * `ai_connections` maps merged, and a linear chain when neither gives any.
 */
module WorkflowGraph {
  import opened JsValues
  import opened ParameterSanitizer

  /** A TypeError thrown by reading a property of null (or `Object.entries(null)`). */
  datatype Fault = NullAccess

  /**
   * A node of the generated document. `name`, `nodeType`, `typeVersion` and
   * `position` are whatever the model gave (the source only casts them), with
   * the defaults filled in; `nodeType` is `None` when the model gave no type.
   */
  datatype WorkflowNode = WorkflowNode(
    id: string,
    name: Json,
    nodeType: Option<Json>,
    typeVersion: Json,
    position: Json,
    parameters: map<string, Json>)

  /** `node.parameters || node.config || {}`. */
  function RawParams(raw: Json): Json {
    OrElse(Get(raw, "parameters"), OrElse(Get(raw, "config"), JObj(map[])))
  }

  /** The grid position of the node at `index`: x from 250 in steps of 300, y 300. */
  function GridPosition(index: nat): Json {
    JArr([JNum((250 + 300 * index) as real), JNum(300.0)])
  }

  /** The node built from the raw node at `index` (route.ts:367-379); `raw` is not null. */
  function BuildNode(raw: Json, index: nat, id: string): WorkflowNode
    requires !raw.JNull?
  {
    var position := Get(raw, "position");
    var nodeType := Get(raw, "type");
    WorkflowNode(
      id,
      OrElse(Get(raw, "name"), JStr("Node " + NatToString(index))),
      nodeType,
      OrElse(Get(raw, "typeVersion"), JNum(DefaultTypeVersion(KeyOf(nodeType)))),
      if IsArray(position) then position.value else GridPosition(index),
      Sanitized(KeyOf(nodeType), RawParams(raw)))
  }

  /** Some raw node is null, so reading its `position` throws. */
  predicate HasNull(raws: seq<Json>) {
    exists i :: 0 <= i < |raws| && raws[i].JNull?
  }

  /** `parsed.nodes.map(...)`; `uuid(i)` stands for the i-th `crypto.randomUUID()`. */
  function BuildNodes(raws: seq<Json>, uuid: nat -> string): (r: Result<seq<WorkflowNode>, Fault>)
    ensures r.Err? <==> HasNull(raws)
    ensures r.Ok? ==> |r.value| == |raws|
    ensures r.Ok? ==> forall i :: 0 <= i < |raws| ==> r.value[i] == BuildNode(raws[i], i, uuid(i))
  {
    if HasNull(raws) then Err(NullAccess)
    else Ok(seq(|raws|, i requires 0 <= i < |raws| => BuildNode(raws[i], i, uuid(i))))
  }

  /** A raw node with no name, type, version, position or parameters gets every default. */
  lemma BareNodeDefaults(raw: Json, index: nat, id: string)
    requires !raw.JNull? && !raw.JObj?
    ensures BuildNode(raw, index, id) ==
      WorkflowNode(id, JStr("Node " + NatToString(index)), None, JNum(1.0), GridPosition(index), map[])
  {
    assert AllowList("undefined").None?;
    assert "undefined" !in VersionMap;
  }

  /**
   * The model's own values win when present: a truthy name and type version,
   * and any array as position (its elements are not checked).
   */
  lemma SuppliedValuesKept(fields: map<string, Json>, index: nat, id: string)
    ensures var n := BuildNode(JObj(fields), index, id);
      n.id == id &&
      ("name" in fields && IsTruthy(fields["name"]) ==> n.name == fields["name"]) &&
      ("typeVersion" in fields && IsTruthy(fields["typeVersion"]) ==> n.typeVersion == fields["typeVersion"]) &&
      ("position" in fields && fields["position"].JArr? ==> n.position == fields["position"]) &&
      ("type" in fields ==> n.nodeType == Some(fields["type"]))
  {
  }

  /**
   * The defaults: name "Node i" for the 0-based index, the type's default
   * version, the grid position whenever `position` is not an array, and
   * `parameters`, then `config`, then `{}` as the parameters to sanitise.
   */
  lemma MissingValuesDefaulted(fields: map<string, Json>, index: nat, id: string)
    ensures var n := BuildNode(JObj(fields), index, id);
      (!Truthy(Get(JObj(fields), "name")) ==> n.name == JStr("Node " + NatToString(index))) &&
      (!Truthy(Get(JObj(fields), "typeVersion")) ==>
        n.typeVersion == JNum(DefaultTypeVersion(KeyOf(Get(JObj(fields), "type"))))) &&
      (!IsArray(Get(JObj(fields), "position")) ==> n.position == GridPosition(index)) &&
      (Truthy(Get(JObj(fields), "parameters")) ==>
        n.parameters == Sanitized(KeyOf(n.nodeType), fields["parameters"])) &&
      (!Truthy(Get(JObj(fields), "parameters")) && Truthy(Get(JObj(fields), "config")) ==>
        n.parameters == Sanitized(KeyOf(n.nodeType), fields["config"])) &&
      (!Truthy(Get(JObj(fields), "parameters")) && !Truthy(Get(JObj(fields), "config")) ==>
        n.parameters == map[])
  {
    var n := BuildNode(JObj(fields), index, id);
    if !Truthy(Get(JObj(fields), "parameters")) && !Truthy(Get(JObj(fields), "config")) {
      var t := KeyOf(n.nodeType);
      match AllowList(t)
      case None =>
      case Some(keys) =>
    }
  }

  // ---------------------------------------------------------------------
  // Name deduplication (route.ts:381-390)
  // ---------------------------------------------------------------------

  /** The key `nameCount[node.name]` reads: the name converted to a string. */
  function NameKey(n: WorkflowNode): string {
    ToJsString(n.name)
  }

  /** How many nodes of `nodes` have the name key `key`. */
  function Count(nodes: seq<WorkflowNode>, key: string): nat {
    if nodes == [] then 0
    else Count(nodes[..|nodes| - 1], key) + (if NameKey(nodes[|nodes| - 1]) == key then 1 else 0)
  }

  /** The name the loop gives node `i`: kept at its first occurrence, `"X k"` at the k-th. */
  function DedupedName(nodes: seq<WorkflowNode>, i: nat): Json
    requires i < |nodes|
  {
    var key := NameKey(nodes[i]);
    var seen := Count(nodes[..i], key);
    if seen == 0 then nodes[i].name else JStr(key + " " + NatToString(seen + 1))
  }

  /** The nodes after the dedup loop: only names change. */
  function Deduplicated(nodes: seq<WorkflowNode>): (r: seq<WorkflowNode>)
    ensures |r| == |nodes|
    ensures forall i :: 0 <= i < |nodes| ==> r[i] == nodes[i].(name := DedupedName(nodes, i))
  {
    seq(|nodes|, i requires 0 <= i < |nodes| => nodes[i].(name := DedupedName(nodes, i)))
  }

  lemma {:induction false} CountAppend(nodes: seq<WorkflowNode>, n: WorkflowNode, key: string)
    ensures Count(nodes + [n], key) == Count(nodes, key) + (if NameKey(n) == key then 1 else 0)
  {
    assert (nodes + [n])[..|nodes|] == nodes;
  }

  /** One more node adds one to the count of its own key and leaves the other counts alone. */
  lemma CountStep(nodes: seq<WorkflowNode>, i: nat)
    requires i < |nodes|
    ensures forall k :: Count(nodes[..i + 1], k) == Count(nodes[..i], k) + (if k == NameKey(nodes[i]) then 1 else 0)
  {
    assert nodes[..i + 1] == nodes[..i] + [nodes[i]];
    forall k | true
      ensures Count(nodes[..i + 1], k) == Count(nodes[..i], k) + (if k == NameKey(nodes[i]) then 1 else 0)
    {
      CountAppend(nodes[..i], nodes[i], k);
    }
  }

  /** The loop of route.ts:382-390, renaming the nodes in place. */
  method DeduplicateNames(nodes: array<WorkflowNode>)
    modifies nodes
    ensures nodes[..] == Deduplicated(old(nodes[..]))
  {
    ghost var orig := nodes[..];
    var nameCount: map<string, nat> := map[];
    for i := 0 to nodes.Length
      invariant forall j :: 0 <= j < i ==> nodes[j] == orig[j].(name := DedupedName(orig, j))
      invariant forall j :: i <= j < nodes.Length ==> nodes[j] == orig[j]
      invariant forall k :: k in nameCount <==> Count(orig[..i], k) > 0
      invariant forall k :: k in nameCount ==> nameCount[k] == Count(orig[..i], k)
    {
      var node := nodes[i];
      var key := ToJsString(node.name);
      CountStep(orig, i);
      ghost var seen := Count(orig[..i], key);
      assert seen == if key in nameCount then nameCount[key] else 0;
      if key in nameCount && nameCount[key] != 0 {
        var count := nameCount[key] + 1;
        nameCount := nameCount[key := count];
        nodes[i] := node.(name := JStr(key + " " + NatToString(count)));
      } else {
        nameCount := nameCount[key := 1];
      }
      assert nodes[i] == orig[i].(name := DedupedName(orig, i));
    }
    assert nodes[..] == Deduplicated(orig);
  }

  /** Renaming keeps the number and order of nodes and every field but the name. */
  lemma DedupKeepsAllButNames(nodes: seq<WorkflowNode>)
    ensures var r := Deduplicated(nodes);
      |r| == |nodes| &&
      forall i :: 0 <= i < |nodes| ==>
        r[i].id == nodes[i].id && r[i].nodeType == nodes[i].nodeType &&
        r[i].typeVersion == nodes[i].typeVersion && r[i].position == nodes[i].position &&
        r[i].parameters == nodes[i].parameters
  {
  }

  /** The first node with a given name keeps it; the k-th (k >= 2) is renamed `"X k"`. */
  lemma DedupNaming(nodes: seq<WorkflowNode>, i: nat)
    requires i < |nodes|
    ensures Count(nodes[..i], NameKey(nodes[i])) == 0 ==> Deduplicated(nodes)[i].name == nodes[i].name
    ensures Count(nodes[..i], NameKey(nodes[i])) > 0 ==>
      Deduplicated(nodes)[i].name ==
        JStr(NameKey(nodes[i]) + " " + NatToString(Count(nodes[..i + 1], NameKey(nodes[i]))))
  {
    assert nodes[..i + 1] == nodes[..i] + [nodes[i]];
    CountAppend(nodes[..i], nodes[i], NameKey(nodes[i]));
  }

  /** A node named `name`, otherwise blank, for the examples below. */
  function Named(name: string): WorkflowNode {
    WorkflowNode("", JStr(name), None, JNum(1.0), JNull, map[])
  }

  /** Uniqueness is not guaranteed: ["A", "A", "A 2"] becomes ["A", "A 2", "A 2"]. */
  lemma DedupCollisionExample()
    ensures var r := Deduplicated([Named("A"), Named("A"), Named("A 2")]);
      r[0].name == JStr("A") && r[1].name == JStr("A 2") && r[2].name == JStr("A 2")
  {
    var s := [Named("A"), Named("A"), Named("A 2")];
    assert s[..0] == [];
    assert s[..1] == [Named("A")];
    assert s[..2] == [Named("A"), Named("A")];
    assert [Named("A")][..0] == [];
    assert [Named("A"), Named("A")][..1] == [Named("A")];
    assert Count(s[..1], "A") == 1;
    assert NatToString(2) == "2";
    assert Count(s[..2], "A 2") == 0 by {
      assert Count([Named("A")], "A 2") == 0;
    }
  }

  /** No raw name already reads as `"X k"` for some raw name X and k >= 2. */
  ghost predicate NoSuffixCollision(nodes: seq<WorkflowNode>) {
    forall i, j, c: nat :: 0 <= i < |nodes| && 0 <= j < |nodes| && c >= 2 ==>
      NameKey(nodes[i]) != NameKey(nodes[j]) + " " + NatToString(c)
  }

  lemma DigitsHaveNoSpace(n: nat, k: nat)
    requires k < |NatToString(n)|
    ensures NatToString(n)[k] != ' '
  {
  }

  /** The last space of `a + " " + digits` is the one before the digits. */
  lemma SpaceBeforeDigits(a: string, m: nat)
    ensures LastIndex(a + " " + NatToString(m), ' ') == Some(|a|)
  {
    var s := a + " " + NatToString(m);
    assert s[|a| + 1..] == NatToString(m);
    LastIndexAt(s, ' ', |a|);
  }

  /** `a + " " + digits` determines `a` and the number. */
  lemma SuffixInjective(a: string, m: nat, b: string, n: nat)
    requires a + " " + NatToString(m) == b + " " + NatToString(n)
    ensures a == b && m == n
  {
    assert |a| == |b| by {
      SpaceBeforeDigits(a, m);
      SpaceBeforeDigits(b, n);
    }
    assert a + " " == b + " " && NatToString(m) == NatToString(n) by {
      ConcatCancel(a + " ", NatToString(m), b + " ", NatToString(n));
    }
    assert a == b by {
      ConcatCancel(a, " ", b, " ");
    }
    NatToStringInjective(m, n);
  }

  lemma ConcatCancel(a: string, c: string, b: string, d: string)
    requires a + c == b + d && |a| == |b|
    ensures a == b && c == d
  {
    assert a == (a + c)[..|a|];
    assert c == (a + c)[|a|..];
  }

  /** Two nodes with the same raw name have different counts before them. */
  lemma {:induction false} CountIncreases(nodes: seq<WorkflowNode>, i: nat, j: nat)
    requires i < j < |nodes| && NameKey(nodes[i]) == NameKey(nodes[j])
    ensures Count(nodes[..i], NameKey(nodes[i])) < Count(nodes[..j], NameKey(nodes[i]))
  {
    var key := NameKey(nodes[i]);
    CountPrefixMonotone(nodes, i + 1, j, key);
    assert nodes[..i + 1] == nodes[..i] + [nodes[i]];
    CountAppend(nodes[..i], nodes[i], key);
  }

  lemma {:induction false} CountPrefixMonotone(nodes: seq<WorkflowNode>, i: nat, j: nat, key: string)
    requires i <= j <= |nodes|
    ensures Count(nodes[..i], key) <= Count(nodes[..j], key)
    decreases j - i
  {
    if i < j {
      CountPrefixMonotone(nodes, i, j - 1, key);
      assert nodes[..j] == nodes[..j - 1] + [nodes[j - 1]];
      CountAppend(nodes[..j - 1], nodes[j - 1], key);
    }
  }

  /** The name key a node ends with, from its raw key and how often that key came before. */
  function FinalKey(key: string, seen: nat): string {
    if seen == 0 then key else key + " " + NatToString(seen + 1)
  }

  lemma DedupedKey(nodes: seq<WorkflowNode>, i: nat)
    requires i < |nodes|
    ensures NameKey(Deduplicated(nodes)[i]) == FinalKey(NameKey(nodes[i]), Count(nodes[..i], NameKey(nodes[i])))
  {
  }

  lemma NoCollisionAt(nodes: seq<WorkflowNode>, i: nat, j: nat, c: nat)
    requires NoSuffixCollision(nodes)
    requires i < |nodes| && j < |nodes| && c >= 2
    ensures NameKey(nodes[i]) != NameKey(nodes[j]) + " " + NatToString(c)
  {
  }

  /** Final keys differ unless a raw key collides with a renamed one. */
  lemma FinalKeysDiffer(ki: string, si: nat, kj: string, sj: nat)
    requires ki == kj ==> si < sj
    requires si == 0 && sj > 0 ==> ki != kj + " " + NatToString(sj + 1)
    requires sj == 0 && si > 0 ==> kj != ki + " " + NatToString(si + 1)
    ensures FinalKey(ki, si) != FinalKey(kj, sj)
  {
    if si > 0 && sj > 0 && FinalKey(ki, si) == FinalKey(kj, sj) {
      SuffixInjective(ki, si + 1, kj, sj + 1);
    }
  }

  /** Without such a collision, the names after the loop are pairwise distinct. */
  lemma DedupDistinct(nodes: seq<WorkflowNode>, i: nat, j: nat)
    requires NoSuffixCollision(nodes)
    requires i < j < |nodes|
    ensures NameKey(Deduplicated(nodes)[i]) != NameKey(Deduplicated(nodes)[j])
  {
    var ki, kj := NameKey(nodes[i]), NameKey(nodes[j]);
    var si, sj := Count(nodes[..i], ki), Count(nodes[..j], kj);
    DedupedKey(nodes, i);
    DedupedKey(nodes, j);
    if ki == kj {
      CountIncreases(nodes, i, j);
    }
    if si == 0 && sj > 0 {
      NoCollisionAt(nodes, i, j, sj + 1);
    }
    if sj == 0 && si > 0 {
      NoCollisionAt(nodes, j, i, si + 1);
    }
    FinalKeysDiffer(ki, si, kj, sj);
  }

  // ---------------------------------------------------------------------
  // Connections (route.ts:392-424)
  // ---------------------------------------------------------------------

  /** Source node name to connection kind (`main`, `ai_tool`, ...) to the connection arrays. */
  type Connections = map<string, map<string, Json>>

  /** Some source entry of the layer is null, so `Object.entries` throws on it. */
  predicate HasNullTarget(layer: map<string, Json>) {
    exists k :: k in layer && layer[k].JNull?
  }

  /** The kinds already recorded for `source`, or `{}` (`if (!connections[s]) connections[s] = {}`). */
  function KindsOf(conns: Connections, source: string): map<string, Json> {
    if source in conns then conns[source] else map[]
  }

  /** The effect of one copy loop: every (source, kind) of `layer` overwrites the same entry of `conns`. */
  function Overlay(conns: Connections, layer: map<string, Json>): Connections {
    map k | k in conns.Keys + layer.Keys ::
      if k in layer then KindsOf(conns, k) + Entries(layer[k]) else conns[k]
  }

  /** One of the two loops, when `parsed[field]` is truthy and of type object. */
  function MergeLayer(conns: Connections, value: Option<Json>): Result<Connections, Fault> {
    if Truthy(value) && IsObjectType(value.value) then
      var layer := Entries(value.value);
      if HasNullTarget(layer) then Err(NullAccess) else Ok(Overlay(conns, layer))
    else Ok(conns)
  }

  /** `connections` after both loops of route.ts:393-415. */
  function MergedConnections(parsed: Json): Result<Connections, Fault> {
    match MergeLayer(map[], Get(parsed, "connections"))
    case Err(e) => Err(e)
    case Ok(conns) => MergeLayer(conns, Get(parsed, "ai_connections"))
  }

  /** The keys of `m` that are in `keys`. */
  function Restrict(m: map<string, Json>, keys: set<string>): map<string, Json> {
    map k | k in m && k in keys :: m[k]
  }

  /** The inner loop: `connections[sourceName][connType] = connArrays` for each entry. */
  method CopyKinds(kinds: map<string, Json>, targets: map<string, Json>) returns (r: map<string, Json>)
    ensures r == kinds + targets
  {
    r := kinds;
    var todo := targets.Keys;
    while todo != {}
      invariant todo <= targets.Keys
      invariant r == kinds + Restrict(targets, targets.Keys - todo)
      decreases |todo|
    {
      var k :| k in todo;
      r := r[k := targets[k]];
      todo := todo - {k};
    }
    assert Restrict(targets, targets.Keys - todo) == targets;
  }

  /** `acc` is `conns` with the sources of `layer` outside `todo` copied over. */
  ghost predicate PartlyCopied(conns: Connections, layer: map<string, Json>, todo: set<string>, acc: Connections) {
    (forall k :: k in acc <==> k in conns || (k in layer && k !in todo)) &&
    (forall k :: k in acc ==>
      acc[k] == if k in layer && k !in todo then KindsOf(conns, k) + Entries(layer[k]) else conns[k])
  }

  lemma CopyStart(conns: Connections, layer: map<string, Json>)
    ensures PartlyCopied(conns, layer, layer.Keys, conns)
  {
  }

  lemma CopyStep(conns: Connections, layer: map<string, Json>, todo: set<string>, k: string, acc: Connections)
    requires PartlyCopied(conns, layer, todo, acc) && k in todo && k in layer
    ensures (if k in acc then acc[k] else map[]) == KindsOf(conns, k)
    ensures PartlyCopied(conns, layer, todo - {k},
      acc[k := (if k in acc then acc[k] else map[]) + Entries(layer[k])])
  {
  }

  lemma CopyEnd(conns: Connections, layer: map<string, Json>, acc: Connections)
    requires PartlyCopied(conns, layer, {}, acc)
    ensures acc == Overlay(conns, layer)
  {
  }

  /** One round of the outer loop: the kinds of `targets` copied over those recorded for `source`. */
  method AddSource(conns: Connections, source: string, targets: Json) returns (r: Connections)
    ensures r == conns[source := (if source in conns then conns[source] else map[]) + Entries(targets)]
  {
    var existing := if source in conns then conns[source] else map[];
    var kinds := CopyKinds(existing, Entries(targets));
    r := conns[source := kinds];
  }

  /** One copy loop over the entries of `layer`, throwing on a null target. */
  method CopyLayer(conns: Connections, layer: map<string, Json>) returns (r: Result<Connections, Fault>)
    ensures HasNullTarget(layer) ==> r == Err(NullAccess)
    ensures !HasNullTarget(layer) ==> r == Ok(Overlay(conns, layer))
  {
    var acc := conns;
    var todo := layer.Keys;
    CopyStart(conns, layer);
    while todo != {}
      invariant todo <= layer.Keys
      invariant PartlyCopied(conns, layer, todo, acc)
      invariant forall k :: k in layer && k !in todo ==> !layer[k].JNull?
      decreases |todo|
    {
      var source :| source in todo;
      var targets := layer[source];
      if targets.JNull? {
        return Err(NullAccess);
      }
      CopyStep(conns, layer, todo, source, acc);
      acc := AddSource(acc, source, targets);
      todo := todo - {source};
    }
    CopyEnd(conns, layer, acc);
    assert !HasNullTarget(layer);
    return Ok(acc);
  }

  /** Both loops of route.ts:393-415. */
  method MergeConnections(parsed: Json) returns (r: Result<Connections, Fault>)
    ensures r == MergedConnections(parsed)
  {
    var conns: Connections := map[];
    var main := Get(parsed, "connections");
    if Truthy(main) && IsObjectType(main.value) {
      var merged := CopyLayer(conns, Entries(main.value));
      if merged.Err? {
        return merged;
      }
      conns := merged.value;
    }
    var ai := Get(parsed, "ai_connections");
    if Truthy(ai) && IsObjectType(ai.value) {
      r := CopyLayer(conns, Entries(ai.value));
    } else {
      r := Ok(conns);
    }
  }

  /**
   * `ai_connections` wins: every (source, kind) it gives is taken from it, and
   * the kinds of `connections` that it does not mention survive.
   */
  lemma AiConnectionsOverwrite(main: map<string, Json>, ai: map<string, Json>, source: string, kind: string)
    requires !HasNullTarget(main) && !HasNullTarget(ai)
    ensures var r := MergedConnections(JObj(map["connections" := JObj(main), "ai_connections" := JObj(ai)]));
      r.Ok? &&
      (source in ai && kind in Entries(ai[source]) ==>
        source in r.value && kind in r.value[source] && r.value[source][kind] == Entries(ai[source])[kind]) &&
      (source in main && kind in Entries(main[source]) && !(source in ai && kind in Entries(ai[source])) ==>
        source in r.value && kind in r.value[source] && r.value[source][kind] == Entries(main[source])[kind])
  {
    var parsed := JObj(map["connections" := JObj(main), "ai_connections" := JObj(ai)]);
    assert Get(parsed, "connections") == Some(JObj(main));
    assert Get(parsed, "ai_connections") == Some(JObj(ai));
  }

  /** A null under some source in either map makes the generation throw. */
  lemma NullTargetThrows(parsed: Json)
    requires Truthy(Get(parsed, "connections")) && IsObjectType(Get(parsed, "connections").value)
    requires HasNullTarget(Entries(Get(parsed, "connections").value))
    ensures MergedConnections(parsed) == Err(NullAccess)
  {
  }

  /** `{main: [[{node: target, type: 'main', index: 0}]]}`. */
  function MainEdge(target: Json): map<string, Json> {
    map["main" := JArr([JArr([JObj(map["node" := target, "type" := JStr("main"), "index" := JNum(0.0)])])])]
  }

  /** The connections the fallback loop has written after its first `m` rounds. */
  function ChainUpTo(nodes: seq<WorkflowNode>, m: nat): Connections
    requires m < |nodes| || m == 0
  {
    if m == 0 then map[]
    else ChainUpTo(nodes, m - 1)[NameKey(nodes[m - 1]) := MainEdge(nodes[m].name)]
  }

  /** The linear chain of route.ts:418-423: each node connects to the next. */
  function Chain(nodes: seq<WorkflowNode>): Connections {
    if |nodes| <= 1 then map[] else ChainUpTo(nodes, |nodes| - 1)
  }

  /** The fallback loop, writing one entry per round. */
  method LinearFallback(nodes: seq<WorkflowNode>) returns (conns: Connections)
    ensures conns == Chain(nodes)
  {
    conns := map[];
    if |nodes| <= 1 {
      return;
    }
    var i := 0;
    while i < |nodes| - 1
      invariant 0 <= i <= |nodes| - 1
      invariant conns == ChainUpTo(nodes, i)
    {
      conns := conns[ToJsString(nodes[i].name) := MainEdge(nodes[i + 1].name)];
      i := i + 1;
    }
  }

  /** A single node (or none) gives no connections. */
  lemma SingleNodeNoChain(nodes: seq<WorkflowNode>)
    requires |nodes| <= 1
    ensures Chain(nodes) == map[]
  {
  }

  /** The chain's sources are exactly the name keys of all nodes but the last. */
  lemma {:induction false} ChainKeys(nodes: seq<WorkflowNode>, m: nat)
    requires m < |nodes| || m == 0
    ensures ChainUpTo(nodes, m).Keys == set i | 0 <= i < m :: NameKey(nodes[i])
  {
    if m > 0 {
      ChainKeys(nodes, m - 1);
      assert (set i | 0 <= i < m :: NameKey(nodes[i])) ==
        (set i | 0 <= i < m - 1 :: NameKey(nodes[i])) + {NameKey(nodes[m - 1])};
    }
  }

  /** With distinct name keys, node i connects to node i + 1 and to nothing else. */
  lemma {:induction false} ChainEdges(nodes: seq<WorkflowNode>, m: nat, i: nat)
    requires m < |nodes| || m == 0
    requires forall a, b :: 0 <= a < b < |nodes| ==> NameKey(nodes[a]) != NameKey(nodes[b])
    requires i < m
    ensures NameKey(nodes[i]) in ChainUpTo(nodes, m)
    ensures ChainUpTo(nodes, m)[NameKey(nodes[i])] == MainEdge(nodes[i + 1].name)
  {
    if i < m - 1 {
      ChainEdges(nodes, m - 1, i);
    }
  }

  /** The fallback for n nodes with distinct names has n - 1 entries, one per consecutive pair. */
  lemma ChainOfDistinct(nodes: seq<WorkflowNode>)
    requires |nodes| >= 1
    requires forall a, b :: 0 <= a < b < |nodes| ==> NameKey(nodes[a]) != NameKey(nodes[b])
    ensures Chain(nodes).Keys == set i | 0 <= i < |nodes| - 1 :: NameKey(nodes[i])
    ensures forall i :: 0 <= i < |nodes| - 1 ==> Chain(nodes)[NameKey(nodes[i])] == MainEdge(nodes[i + 1].name)
  {
    if |nodes| > 1 {
      ChainKeys(nodes, |nodes| - 1);
      forall i | 0 <= i < |nodes| - 1
        ensures Chain(nodes)[NameKey(nodes[i])] == MainEdge(nodes[i + 1].name)
      {
        ChainEdges(nodes, |nodes| - 1, i);
      }
    }
  }

  /** The connections of the document: the merged maps, or the chain when they give no source. */
  function FinalConnections(parsed: Json, nodes: seq<WorkflowNode>): Result<Connections, Fault> {
    match MergedConnections(parsed)
    case Err(e) => Err(e)
    case Ok(conns) => if conns.Keys == {} then Ok(Chain(nodes)) else Ok(conns)
  }

  /** The chain is built only when the merged maps are empty; otherwise they are used as given. */
  lemma ChainOnlyWhenEmpty(parsed: Json, nodes: seq<WorkflowNode>)
    requires MergedConnections(parsed).Ok?
    ensures MergedConnections(parsed).value != map[] ==>
      FinalConnections(parsed, nodes) == MergedConnections(parsed)
    ensures MergedConnections(parsed).value == map[] ==> FinalConnections(parsed, nodes) == Ok(Chain(nodes))
  {
    var m := MergedConnections(parsed).value;
    if m != map[] {
      var k :| k in m;
    }
  }
}
