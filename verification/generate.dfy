/**
 * The workflow generator route (generate/route.ts): from the model's reply to
 * the n8n workflow document, and the POST handler around it.
 *
 * The model call is not modelled: its outcome is the `ModelReply` parameter.
 * `JSON.parse` is the parameter `parse` (`None` when it throws) and
 * `crypto.randomUUID` is the parameter `uuid` (the id of the i-th node).
 */
module GenerateRoute {
  import opened JsValues
  import opened ResponseExtraction
  import opened ParameterSanitizer
  import opened WorkflowGraph

  /**
   * The first content block of the model's answer, an answer with no content
   * blocks (reading `content[0].type` then throws), or the error the call threw.
   */
  datatype ModelReply = TextBlock(text: string) | NonTextBlock | NoContent | CallFailed(message: string)

  /** Why generation failed; each becomes a 500 response. */
  datatype GenerateError =
    | ParseFailed
    | NoValidNodes
    | TypeErrorThrown
    | ModelCallFailed(message: string)

  const ParseFailedMessage := "Failed to parse AI response. Please try again with a more specific description."
  const NoValidNodesMessage := "AI response did not contain valid nodes. Please describe your workflow in more detail."
  const FailureHint := "Try describing your workflow in more detail, mentioning specific services and the trigger event."

  /** The `error` text of the 500 response; a TypeError carries the engine's own text. */
  function ErrorMessage(e: GenerateError): Option<string> {
    match e
    case ParseFailed => Some(ParseFailedMessage)
    case NoValidNodes => Some(NoValidNodesMessage)
    case TypeErrorThrown => None
    case ModelCallFailed(m) => Some(m)
  }

  /** The n8n workflow document of route.ts:428-436. */
  datatype WorkflowDocument = WorkflowDocument(
    name: Json,
    nodes: seq<WorkflowNode>,
    connections: Connections,
    settings: map<string, Json>,
    staticData: Json,
    pinData: map<string, Json>)

  /** The value `generateWorkflowWithAI` returns. */
  datatype Generation = Generation(
    pattern: Json,
    workflow: WorkflowDocument,
    explanation: Json,
    recommendations: Json,
    credentialsNeeded: Json)

  const Settings: map<string, Json> := map["executionOrder" := JStr("v1")]

  /** The text taken from the reply: the text block, or '' for any other block. */
  function ReplyText(reply: ModelReply): string
    requires !reply.CallFailed? && !reply.NoContent?
  {
    if reply.TextBlock? then reply.text else ""
  }

  /** The document and its companions once nodes and connections are known (route.ts:426-441). */
  function Assemble(parsed: Json, name: Json, nodes: seq<WorkflowNode>, conns: Connections): Generation {
    Generation(
      OrElse(Get(parsed, "pattern"), JStr("custom")),
      WorkflowDocument(name, nodes, conns, Settings, JNull, map[]),
      OrElse(Get(parsed, "flow_description"), JStr("Generated workflow")),
      OrElse(Get(parsed, "recommendations"), JArr([])),
      OrElse(Get(parsed, "credentials_needed"), JArr([])))
  }

  /** The raw nodes, when `parsed.nodes` is a non-empty array. */
  function RawNodes(parsed: Json): Option<seq<Json>> {
    var nodes := Get(parsed, "nodes");
    if IsArray(nodes) && |nodes.value.items| > 0 then Some(nodes.value.items) else None
  }

  /** The document once the raw nodes are known: build, rename, connect (route.ts:367-441). */
  function FromRawNodes(parsed: Json, name: Json, raws: seq<Json>, uuid: nat -> string)
    : Result<Generation, GenerateError>
  {
    match BuildNodes(raws, uuid)
    case Err(_) => Err(TypeErrorThrown)
    case Ok(built) =>
      var nodes := Deduplicated(built);
      match FinalConnections(parsed, nodes)
      case Err(_) => Err(TypeErrorThrown)
      case Ok(conns) => Ok(Assemble(parsed, name, nodes, conns))
  }

  /** The document from the parsed reply (route.ts:362-441). */
  function FromParsed(parsed: Json, name: Json, uuid: nat -> string): Result<Generation, GenerateError> {
    if parsed.JNull? then Err(TypeErrorThrown)
    else
      match RawNodes(parsed)
      case None => Err(NoValidNodes)
      case Some(raws) => FromRawNodes(parsed, name, raws, uuid)
  }

  /** What `generateWorkflowWithAI` computes from the model's reply (route.ts:343-441). */
  function Synthesis(reply: ModelReply, name: Json, parse: string -> Option<Json>, uuid: nat -> string)
    : Result<Generation, GenerateError>
  {
    if reply.CallFailed? then Err(ModelCallFailed(reply.message))
    else if reply.NoContent? then Err(TypeErrorThrown)
    else
      match parse(JsonText(ReplyText(reply)))
      case None => Err(ParseFailed)
      case Some(parsed) => FromParsed(parsed, name, uuid)
  }

  /** The built nodes copied into an array and renamed in place (route.ts:382-390). */
  method RenameNodes(built: seq<WorkflowNode>) returns (nodes: seq<WorkflowNode>)
    ensures nodes == Deduplicated(built)
  {
    var a := new WorkflowNode[|built|](i requires 0 <= i < |built| => built[i]);
    assert a[..] == built;
    DeduplicateNames(a);
    nodes := a[..];
  }

  /** The merged connections, or the linear chain when they are empty (route.ts:393-424). */
  method ConnectNodes(parsed: Json, nodes: seq<WorkflowNode>) returns (r: Result<Connections, Fault>)
    ensures r == FinalConnections(parsed, nodes)
  {
    r := MergeConnections(parsed);
    if r.Ok? && r.value.Keys == {} {
      var chain := LinearFallback(nodes);
      r := Ok(chain);
    }
  }

  /** The nodes built, renamed and connected. */
  method BuildWorkflow(parsed: Json, name: Json, raws: seq<Json>, uuid: nat -> string)
    returns (r: Result<Generation, GenerateError>)
    ensures r == FromRawNodes(parsed, name, raws, uuid)
  {
    var built := BuildNodes(raws, uuid);
    if built.Err? {
      return Err(TypeErrorThrown);
    }
    var nodes := RenameNodes(built.value);
    var conns := ConnectNodes(parsed, nodes);
    if conns.Err? {
      return Err(TypeErrorThrown);
    }
    return Ok(Assemble(parsed, name, nodes, conns.value));
  }

  /** `generateWorkflowWithAI`, step by step. */
  method GenerateWorkflowWithAI(reply: ModelReply, name: Json, parse: string -> Option<Json>, uuid: nat -> string)
    returns (r: Result<Generation, GenerateError>)
    ensures r == Synthesis(reply, name, parse, uuid)
  {
    if reply.CallFailed? {
      return Err(ModelCallFailed(reply.message));
    }
    if reply.NoContent? {
      return Err(TypeErrorThrown);
    }
    var jsonStr := JsonText(ReplyText(reply));
    var parsedOrNot := parse(jsonStr);
    if parsedOrNot.None? {
      return Err(ParseFailed);
    }
    var parsed := parsedOrNot.value;
    if parsed.JNull? {
      return Err(TypeErrorThrown);
    }
    var raws := RawNodes(parsed);
    if raws.None? {
      return Err(NoValidNodes);
    }
    r := BuildWorkflow(parsed, name, raws.value, uuid);
  }

  /** Every generated document has the fixed settings, null static data and empty pin data. */
  lemma DocumentConstants(parsed: Json, name: Json, uuid: nat -> string)
    requires FromParsed(parsed, name, uuid).Ok?
    ensures var w := FromParsed(parsed, name, uuid).value.workflow;
      w.settings == map["executionOrder" := JStr("v1")] && w.staticData == JNull && w.pinData == map[] &&
      w.name == name && |w.nodes| >= 1
  {
  }

  /** The nodes of the document are the raw nodes built in order, then renamed. */
  lemma DocumentNodes(parsed: Json, name: Json, uuid: nat -> string)
    requires FromParsed(parsed, name, uuid).Ok?
    ensures RawNodes(parsed).Some? && BuildNodes(RawNodes(parsed).value, uuid).Ok?
    ensures FromParsed(parsed, name, uuid).value.workflow.nodes == Deduplicated(BuildNodes(RawNodes(parsed).value, uuid).value)
  {
  }

  /** A successful generation is the document of the parsed text between the braces of the reply. */
  lemma SynthesisParsesJsonText(reply: ModelReply, name: Json, parse: string -> Option<Json>, uuid: nat -> string)
    requires Synthesis(reply, name, parse, uuid).Ok?
    ensures !reply.CallFailed? && !reply.NoContent? && parse(JsonText(ReplyText(reply))).Some?
    ensures Synthesis(reply, name, parse, uuid) == FromParsed(parse(JsonText(ReplyText(reply))).value, name, uuid)
  {
  }

  /** A reply the parser rejects fails with the parse message. */
  lemma UnparsableReply(reply: ModelReply, name: Json, parse: string -> Option<Json>, uuid: nat -> string)
    requires !reply.CallFailed? && !reply.NoContent? && parse(JsonText(ReplyText(reply))).None?
    ensures Synthesis(reply, name, parse, uuid) == Err(ParseFailed)
    ensures ErrorMessage(ParseFailed) == Some("Failed to parse AI response. Please try again with a more specific description.")
  {
  }

  /** A parsed object with no `nodes`, a non-array `nodes` or an empty one fails with the nodes message. */
  lemma NodesMissing(reply: ModelReply, name: Json, parse: string -> Option<Json>, uuid: nat -> string)
    requires !reply.CallFailed? && !reply.NoContent? && parse(JsonText(ReplyText(reply))).Some?
    requires var parsed := parse(JsonText(ReplyText(reply))).value;
      !parsed.JNull? && !(IsArray(Get(parsed, "nodes")) && Get(parsed, "nodes").value.items != [])
    ensures Synthesis(reply, name, parse, uuid) == Err(NoValidNodes)
    ensures ErrorMessage(NoValidNodes) == Some("AI response did not contain valid nodes. Please describe your workflow in more detail.")
    ensures ErrorMessage(NoValidNodes) != ErrorMessage(ParseFailed)
  {
  }

  /** A reply that is not a text block is parsed as the empty text. */
  lemma NonTextReply(name: Json, parse: string -> Option<Json>, uuid: nat -> string)
    ensures Synthesis(NonTextBlock, name, parse, uuid) == Synthesis(TextBlock(""), name, parse, uuid)
  {
  }

  // ---------------------------------------------------------------------
  // POST (route.ts:585-623)
  // ---------------------------------------------------------------------

  /** The JSON body of a successful response. */
  datatype SuccessBody = SuccessBody(
    pattern: Json,
    workflow: WorkflowDocument,
    explanation: Json,
    recommendations: Json,
    credentialsNeeded: Json,
    nodeCount: nat,
    stickyNoteCount: int,
    detectedNodes: seq<Option<Json>>)

  /** Why the handler answered 500. */
  datatype ServerFailure =
    | BodyNotJson
    | BodyTypeError
    | PromptTypeError
    | GenerationFailed(cause: GenerateError)

  datatype Response =
    | Success(body: SuccessBody)
    | BadRequest(error: string)
    | ServerError(failure: ServerFailure, hint: string)

  const StickyNoteType := "n8n-nodes-base.stickyNote"

  /** `n.type !== 'n8n-nodes-base.stickyNote'`. */
  predicate IsActive(n: WorkflowNode) {
    n.nodeType != Some(JStr(StickyNoteType))
  }

  /** The nodes that are not sticky notes, in order. */
  function ActiveNodes(nodes: seq<WorkflowNode>): (r: seq<WorkflowNode>)
    ensures |r| <= |nodes|
    ensures forall i :: 0 <= i < |r| ==> IsActive(r[i])
  {
    if nodes == [] then []
    else if IsActive(nodes[0]) then [nodes[0]] + ActiveNodes(nodes[1..])
    else ActiveNodes(nodes[1..])
  }

  /** The number of sticky notes among `nodes`. */
  function StickyCount(nodes: seq<WorkflowNode>): nat {
    if nodes == [] then 0 else (if IsActive(nodes[0]) then 0 else 1) + StickyCount(nodes[1..])
  }

  /** The types of `nodes`, in order. */
  function Types(nodes: seq<WorkflowNode>): (r: seq<Option<Json>>)
    ensures |r| == |nodes| && forall i :: 0 <= i < |nodes| ==> r[i] == nodes[i].nodeType
  {
    if nodes == [] then [] else [nodes[0].nodeType] + Types(nodes[1..])
  }

  /** The success body built from a generation (route.ts:601-611). */
  function SuccessOf(g: Generation): SuccessBody {
    var nodes := g.workflow.nodes;
    var active := ActiveNodes(nodes);
    SuccessBody(g.pattern, g.workflow, g.explanation, g.recommendations, g.credentialsNeeded,
      |active|, |nodes| - |active|, Types(active))
  }

  /**
   * The POST handler. `body` is `None` when the request body is not JSON. The
   * model is only asked once the prompt has passed the check.
   */
  function HandleGenerate(body: Option<Json>, reply: ModelReply, parse: string -> Option<Json>, uuid: nat -> string)
    : Response
  {
    if body.None? then ServerError(BodyNotJson, FailureHint)
    else if body.value.JNull? then ServerError(BodyTypeError, FailureHint)
    else
      var prompt := Get(body.value, "prompt");
      var nameField := Get(body.value, "name");
      var name := if nameField.Some? then nameField.value else JStr("Generated Workflow");
      if TrimThrows(prompt) then ServerError(PromptTypeError, FailureHint)
      else if BlankText(prompt) then BadRequest("Prompt required")
      else
        match Synthesis(reply, name, parse, uuid)
        case Err(e) => ServerError(GenerationFailed(e), FailureHint)
        case Ok(g) => Success(SuccessOf(g))
  }

  /** A blank prompt is refused with 400 whatever the model would have answered. */
  lemma BlankPromptRefused(body: Json, r1: ModelReply, r2: ModelReply, parse: string -> Option<Json>, uuid: nat -> string)
    requires !body.JNull?
    requires !TrimThrows(Get(body, "prompt")) && BlankText(Get(body, "prompt"))
    ensures HandleGenerate(Some(body), r1, parse, uuid) == BadRequest("Prompt required")
    ensures HandleGenerate(Some(body), r1, parse, uuid) == HandleGenerate(Some(body), r2, parse, uuid)
  {
  }

  lemma {:induction false} ActivePlusSticky(nodes: seq<WorkflowNode>)
    ensures |ActiveNodes(nodes)| + StickyCount(nodes) == |nodes|
  {
    if nodes != [] {
      ActivePlusSticky(nodes[1..]);
    }
  }

  /** The two counts add up to the number of nodes, and the second counts the sticky notes. */
  lemma ResponseCounts(g: Generation)
    ensures var b := SuccessOf(g);
      b.nodeCount + b.stickyNoteCount == |g.workflow.nodes| &&
      b.stickyNoteCount == StickyCount(g.workflow.nodes) &&
      |b.detectedNodes| == b.nodeCount
  {
    ActivePlusSticky(g.workflow.nodes);
  }

  /** Only a node whose type is exactly the sticky-note string is left out of the count. */
  lemma {:induction false} ActiveKeepsOthers(nodes: seq<WorkflowNode>, i: nat)
    requires i < |nodes| && IsActive(nodes[i])
    ensures nodes[i] in ActiveNodes(nodes)
  {
    if i > 0 {
      ActiveKeepsOthers(nodes[1..], i - 1);
    }
  }
}
