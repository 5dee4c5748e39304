/**
 * The process-decomposition route (app/api/process/decompose/route.ts): a
 * description is checked, the model's reply is searched for a fenced code
 * block, the block (or the whole reply) is parsed, and the phases it lists
 * are normalised: defaults filled in, orders renumbered, at most seven kept,
 * and a single generic phase when anything in that chain fails.
 *
 * The model call is the `GenerateRoute.ModelReply` parameter and
 * `JSON.parse` the parameter `parse` (`None` when it throws).
 */
module DecomposeRoute {
  import opened JsValues
  import GenerateRoute

  // ---------------------------------------------------------------------
  // The match /```(?:json)?\s*([\s\S]*?)\s*```/ (route.ts:112-113)
  // ---------------------------------------------------------------------

  /** Three backticks start at `i`. */
  predicate FenceAt(s: string, i: nat) {
    i + 3 <= |s| && s[i] == '`' && s[i + 1] == '`' && s[i + 2] == '`'
  }

  /** The letters `json` start at `i`. */
  predicate JsonTagAt(s: string, i: nat) {
    i + 4 <= |s| && s[i] == 'j' && s[i + 1] == 's' && s[i + 2] == 'o' && s[i + 3] == 'n'
  }

  /** The first fence at or after `from`. */
  function FirstFence(s: string, from: nat): (r: Option<nat>)
    requires from <= |s|
    ensures r.Some? ==> from <= r.value && FenceAt(s, r.value) &&
                        forall i :: from <= i < r.value ==> !FenceAt(s, i)
    ensures r.None? ==> forall i :: from <= i ==> !FenceAt(s, i)
    decreases |s| - from
  {
    if from + 3 > |s| then None
    else if FenceAt(s, from) then Some(from)
    else FirstFence(s, from + 1)
  }

  /**
   * Where the capture starts once the fence at `p` is passed: after `json`
   * when it follows the fence, then after as much white space as there is.
   */
  function ContentStart(s: string, p: nat): (q: nat)
    requires FenceAt(s, p)
    ensures p + 3 <= q <= |s|
  {
    var a := p + 3 + (if JsonTagAt(s, p + 3) then 4 else 0);
    |s| - |TrimStart(s[a..])|
  }

  /** `\s*```` matches at `e`: white space, then a fence. */
  predicate Closes(s: string, e: nat) {
    e <= |s| && FenceAt(TrimStart(s[e..]), 0)
  }

  /** The first `e` at or after `from` where the closing `\s*```` matches. */
  function FirstClose(s: string, from: nat): (r: Option<nat>)
    requires from <= |s|
    ensures r.Some? ==> from <= r.value <= |s| && Closes(s, r.value) &&
                        forall e :: from <= e < r.value ==> !Closes(s, e)
    ensures r.None? ==> forall e :: from <= e ==> !Closes(s, e)
    decreases |s| - from
  {
    if Closes(s, from) then Some(from)
    else if from == |s| then None
    else FirstClose(s, from + 1)
  }

  /**
   * Group 1 of the match, if there is one. Only the first fence can start a
   * match: a later fence lies past the capture's start, so if no close
   * follows the first fence none follows the later one either. The lazy
   * capture ends at the first place where white space and a fence follow.
   */
  function FencedBlock(s: string): Option<string> {
    match FirstFence(s, 0)
    case None => None
    case Some(p) =>
      var q := ContentStart(s, p);
      match FirstClose(s, q)
      case None => None
      case Some(e) => Some(s[q..e])
  }

  /** `jsonMatch ? jsonMatch[1] : responseText`: a match is truthy even when its capture is empty. */
  function JsonString(responseText: string): string {
    match FencedBlock(responseText)
    case Some(block) => block
    case None => responseText
  }

  // ---------------------------------------------------------------------
  // Per-phase normalisation, truncation and the fallback (route.ts:108-147)
  // ---------------------------------------------------------------------

  /** A phase of the response; the first four fields are whatever the reply held, or a default. */
  datatype DecomposedPhase = DecomposedPhase(id: Json, name: Json, description: Json, tags: Json, order: nat)

  const MaxPhases := 7

  /** The map callback of route.ts:121-127 on a phase that is not null. */
  function Normalized(phase: Json, index: nat): DecomposedPhase
    requires !phase.JNull?
  {
    DecomposedPhase(
      OrElse(Get(phase, "id"), JStr("phase_" + NatToString(index + 1))),
      OrElse(Get(phase, "name"), JStr("Fase Senza Nome")),
      OrElse(Get(phase, "description"), JStr("")),
      OrElse(Get(phase, "tags"), JArr([])),
      index + 1)
  }

  /** The generic phase of route.ts:138-146, carrying the request's description. */
  function FallbackPhase(description: string): DecomposedPhase {
    DecomposedPhase(JStr("phase_1"), JStr("Processo Custom"), JStr(description),
      JArr([JObj(map["type" := JStr("AGT"), "value" := JStr("CUSTOM")])]), 1)
  }

  /**
   * `parsed.phases` when it is an array: `None` when the reply did not parse,
   * when it parsed to null (reading `phases` throws) or when `phases` is
   * missing, falsy or not an array.
   */
  function PhaseItems(parsed: Option<Json>): (r: Option<seq<Json>>)
    ensures r.Some? <==> parsed.Some? && !parsed.value.JNull? && IsArray(Get(parsed.value, "phases"))
  {
    if parsed.None? || parsed.value.JNull? then None
    else
      var phases := Get(parsed.value, "phases");
      if IsArray(phases) then Some(phases.value.items) else None
  }

  /** Some element is null, so reading its `id` throws inside `map`. */
  predicate HasNull(items: seq<Json>) {
    exists i :: 0 <= i < |items| && items[i].JNull?
  }

  /** The mapped phases, in order. */
  function NormalizeAll(items: seq<Json>): (r: seq<DecomposedPhase>)
    requires !HasNull(items)
    ensures |r| == |items|
  {
    seq(|items|, i requires 0 <= i < |items| => Normalized(items[i], i))
  }

  /** `phases.length > 7 ? phases.slice(0, 7) : phases`. */
  function FirstSeven(phases: seq<DecomposedPhase>): (r: seq<DecomposedPhase>)
    ensures |r| <= MaxPhases && r <= phases
  {
    if |phases| > MaxPhases then phases[..MaxPhases] else phases
  }

  /** The phases the route answers with for a reply text and a description. */
  function DecomposedPhases(responseText: string, description: string, parse: string -> Option<Json>)
    : seq<DecomposedPhase>
  {
    match PhaseItems(parse(JsonString(responseText)))
    case None => [FallbackPhase(description)]
    case Some(items) =>
      if HasNull(items) then [FallbackPhase(description)] else FirstSeven(NormalizeAll(items))
  }

  /** The inner `try` of route.ts:108-147: the local `phases` is reassigned by the map, the truncation or the fallback. */
  method DecomposePhases(responseText: string, description: string, parse: string -> Option<Json>)
    returns (phases: seq<DecomposedPhase>)
    ensures phases == DecomposedPhases(responseText, description, parse)
  {
    phases := [];
    var jsonString := JsonString(responseText);
    var parsed := parse(jsonString);
    var items := PhaseItems(parsed);
    if items.None? || HasNull(items.value) {
      phases := [FallbackPhase(description)];
      return;
    }
    phases := NormalizeAll(items.value);
    if |phases| > MaxPhases {
      phases := phases[..MaxPhases];
    }
  }

  // ---------------------------------------------------------------------
  // The POST handler (route.ts:80-160)
  // ---------------------------------------------------------------------

  datatype Response =
    | Success(phases: seq<DecomposedPhase>)
    | BadRequest(error: string)
    | ServerError(error: string)

  const DescriptionRequired := "Descrizione processo richiesta"
  const DecompositionFailed := "Errore nella decomposizione"

  /**
   * The handler. `body` is `None` when the request body is not JSON; a null
   * body cannot be destructured. A missing content block makes
   * `response.content[0].type` throw outside the inner `try`.
   */
  function HandleDecompose(body: Option<Json>, reply: GenerateRoute.ModelReply, parse: string -> Option<Json>)
    : Response
  {
    if body.None? || body.value.JNull? then ServerError(DecompositionFailed)
    else
      var description := Get(body.value, "description");
      if TrimThrows(description) then ServerError(DecompositionFailed)
      else if BlankText(description) then BadRequest(DescriptionRequired)
      else if reply.CallFailed? || reply.NoContent? then ServerError(DecompositionFailed)
      else Success(DecomposedPhases(GenerateRoute.ReplyText(reply), description.value.s, parse))
  }

  // ---------------------------------------------------------------------
  // Properties
  // ---------------------------------------------------------------------

  /** A missing or blank description is refused with 400 before the model is asked. */
  lemma BlankDescriptionRefused(body: Json, r1: GenerateRoute.ModelReply, r2: GenerateRoute.ModelReply,
                                parse: string -> Option<Json>)
    requires !body.JNull?
    requires !TrimThrows(Get(body, "description")) && BlankText(Get(body, "description"))
    ensures HandleDecompose(Some(body), r1, parse) == BadRequest(DescriptionRequired)
    ensures HandleDecompose(Some(body), r1, parse) == HandleDecompose(Some(body), r2, parse)
  {
  }

  /** A request that does not pass the check, or a failed model call, never yields phases. */
  lemma ServerErrors(body: Option<Json>, reply: GenerateRoute.ModelReply, parse: string -> Option<Json>)
    requires body.None? || body.value.JNull? || TrimThrows(Get(body.value, "description")) ||
      ((reply.CallFailed? || reply.NoContent?) && !BlankText(Get(body.value, "description")))
    ensures HandleDecompose(body, reply, parse) == ServerError(DecompositionFailed)
  {
  }

  /** A successful answer carries the phases of the reply's text and the description as given. */
  lemma SuccessPhases(body: Json, reply: GenerateRoute.ModelReply, parse: string -> Option<Json>)
    requires HandleDecompose(Some(body), reply, parse).Success?
    ensures !reply.CallFailed? && !reply.NoContent?
    ensures var d := Get(body, "description");
      d.Some? && d.value.JStr? && Trim(d.value.s) != "" &&
      HandleDecompose(Some(body), reply, parse).phases == DecomposedPhases(GenerateRoute.ReplyText(reply), d.value.s, parse)
  {
  }

  /**
   * At most seven phases, numbered 1, 2, ... in order; when the reply lists
   * phases, they are its first seven, each normalised at its own index.
   */
  lemma PhasesShape(responseText: string, description: string, parse: string -> Option<Json>)
    ensures var r := DecomposedPhases(responseText, description, parse);
      |r| <= MaxPhases && forall i :: 0 <= i < |r| ==> r[i].order == i + 1
    ensures var items := PhaseItems(parse(JsonString(responseText)));
      var r := DecomposedPhases(responseText, description, parse);
      items.Some? && !HasNull(items.value) ==>
        |r| == (if |items.value| > MaxPhases then MaxPhases else |items.value|) &&
        forall i :: 0 <= i < |r| ==> r[i] == Normalized(items.value[i], i)
  {
    var r := DecomposedPhases(responseText, description, parse);
    var items := PhaseItems(parse(JsonString(responseText)));
    if items.Some? && !HasNull(items.value) {
      var all := NormalizeAll(items.value);
      assert r == FirstSeven(all);
      forall i | 0 <= i < |r|
        ensures r[i] == Normalized(items.value[i], i) && r[i].order == i + 1
      {
        assert r[i] == all[i];
      }
    }
  }

  /** When the reply does not give an array of phases, the answer is the one generic phase. */
  lemma FallbackWhenNoPhases(responseText: string, description: string, parse: string -> Option<Json>)
    requires var parsed := parse(JsonString(responseText));
      parsed.None? || parsed.value.JNull? || !IsArray(Get(parsed.value, "phases"))
    ensures DecomposedPhases(responseText, description, parse) == [FallbackPhase(description)]
    ensures var f := FallbackPhase(description);
      f.id == JStr("phase_1") && f.name == JStr("Processo Custom") && f.description == JStr(description) &&
      f.order == 1 && f.tags == JArr([JObj(map["type" := JStr("AGT"), "value" := JStr("CUSTOM")])])
  {
  }

  /** A null phase anywhere in the list, even past the seventh, also gives the generic phase. */
  lemma FallbackOnNullPhase(responseText: string, description: string, parse: string -> Option<Json>, k: nat)
    requires PhaseItems(parse(JsonString(responseText))).Some?
    requires var items := PhaseItems(parse(JsonString(responseText))).value;
      k < |items| && items[k].JNull?
    ensures DecomposedPhases(responseText, description, parse) == [FallbackPhase(description)]
  {
  }

  /** A phase without truthy fields gets every default; its order is always its position plus one. */
  lemma NormalizedDefaults(phase: Json, index: nat)
    requires !phase.JNull?
    requires !Truthy(Get(phase, "id")) && !Truthy(Get(phase, "name")) &&
      !Truthy(Get(phase, "description")) && !Truthy(Get(phase, "tags"))
    ensures Normalized(phase, index) ==
      DecomposedPhase(JStr("phase_" + NatToString(index + 1)), JStr("Fase Senza Nome"), JStr(""), JArr([]), index + 1)
  {
  }

  /** The reply's own values are kept when truthy; its `order` never is. */
  lemma NormalizedKeepsValues(phase: Json, index: nat)
    requires !phase.JNull?
    ensures var n := Normalized(phase, index);
      (Truthy(Get(phase, "id")) ==> n.id == Get(phase, "id").value) &&
      (Truthy(Get(phase, "name")) ==> n.name == Get(phase, "name").value) &&
      (Truthy(Get(phase, "description")) ==> n.description == Get(phase, "description").value) &&
      (Truthy(Get(phase, "tags")) ==> n.tags == Get(phase, "tags").value) &&
      n.order == index + 1
  {
  }

  /** Default ids at two positions differ. */
  lemma DefaultIdsDistinct(p1: Json, i: nat, p2: Json, j: nat)
    requires !p1.JNull? && !p2.JNull? && i != j
    requires !Truthy(Get(p1, "id")) && !Truthy(Get(p2, "id"))
    ensures Normalized(p1, i).id != Normalized(p2, j).id
  {
    PrefixedNumbersDiffer("phase_", i + 1, j + 1);
  }

  /** A reply without three backticks in a row is parsed whole. */
  lemma UnfencedReplyParsedWhole(responseText: string)
    requires forall i :: 0 <= i < |responseText| ==> !FenceAt(responseText, i)
    ensures JsonString(responseText) == responseText
  {
  }

  /** A fence with no closing fence after it is no match: the whole reply is parsed. */
  lemma UnclosedFenceParsedWhole(responseText: string)
    requires FirstFence(responseText, 0).Some?
    requires forall e :: ContentStart(responseText, FirstFence(responseText, 0).value) <= e ==> !Closes(responseText, e)
    ensures JsonString(responseText) == responseText
  {
  }

  /** White space in front of a close is part of it. */
  lemma CloseAbsorbsSpace(s: string, e: nat)
    requires 0 < e <= |s| && IsJsWhitespace(s[e - 1]) && Closes(s, e)
    ensures Closes(s, e - 1)
  {
    assert s[e - 1..][1..] == s[e..];
  }

  /** The capture never starts or ends with white space: the two `\s*` take it. */
  lemma CaptureTrimmed(s: string)
    requires FencedBlock(s).Some?
    ensures var c := FencedBlock(s).value;
      c == [] || (!IsJsWhitespace(c[0]) && !IsJsWhitespace(c[|c| - 1]))
  {
    var p := FirstFence(s, 0).value;
    var q := ContentStart(s, p);
    var e := FirstClose(s, q).value;
    assert FencedBlock(s).value == s[q..e];
    if e > q {
      assert !IsJsWhitespace(s[q]) by {
        var a := p + 3 + (if JsonTagAt(s, p + 3) then 4 else 0);
        TrimStartSuffix(s[a..]);
        assert s[q..] == TrimStart(s[a..]);
        assert s[q] == s[q..][0];
      }
      if IsJsWhitespace(s[e - 1]) {
        CloseAbsorbsSpace(s, e);
        assert false;
      }
    }
  }

  /** White space in front of a text is skipped. */
  lemma {:induction false} TrimStartSkips(w: string, t: string)
    requires forall k :: 0 <= k < |w| ==> IsJsWhitespace(w[k])
    ensures TrimStart(w + t) == TrimStart(t)
  {
    if w != [] {
      assert (w + t)[0] == w[0];
      assert (w + t)[1..] == w[1..] + t;
      assert TrimStart(w + t) == TrimStart((w + t)[1..]);
      TrimStartSkips(w[1..], t);
    } else {
      assert w + t == t;
    }
  }

  /** Trimming a text that ends in a non-space character stops inside it. */
  lemma {:induction false} TrimStartStopsInside(x: string, y: string)
    requires x != [] && !IsJsWhitespace(x[|x| - 1])
    ensures TrimStart(x + y) == TrimStart(x) + y && TrimStart(x) != []
  {
    if IsJsWhitespace(x[0]) {
      assert |x| > 1;
      assert (x + y)[1..] == x[1..] + y;
      TrimStartStopsInside(x[1..], y);
    }
  }

  /** The first fence of a text without backticks followed by a fence is that fence. */
  lemma FenceAfterPlain(pre: string, t: string)
    requires Lacks(pre, '`') && FenceAt(t, 0)
    ensures FirstFence(pre + t, 0) == Some(|pre|)
  {
    var s := pre + t;
    forall i | 0 <= i < |pre|
      ensures !FenceAt(s, i)
    {
      assert s[i] == pre[i];
    }
    assert s[|pre|] == t[0] && s[|pre| + 1] == t[1] && s[|pre| + 2] == t[2];
    assert FenceAt(s, |pre|);
  }

  /** Past `a`, white space and then a character that is not: the capture starts at that character. */
  lemma StartPastSpace(s: string, a: nat, w1: string, x: string)
    requires a <= |s| && s[a..] == w1 + x
    requires forall k :: 0 <= k < |w1| ==> IsJsWhitespace(w1[k])
    requires x != [] && !IsJsWhitespace(x[0])
    ensures |s| - |TrimStart(s[a..])| == a + |w1| && s[a + |w1|..] == x
  {
    TrimStartSkips(w1, x);
    assert s[a + |w1|..] == s[a..][|w1|..];
  }

  /** White space and then a fence: the close matches here. */
  lemma ClosesBefore(s: string, e: nat, w2: string, tail: string)
    requires e <= |s| && s[e..] == w2 + tail && FenceAt(tail, 0)
    requires forall k :: 0 <= k < |w2| ==> IsJsWhitespace(w2[k])
    ensures Closes(s, e)
  {
    TrimStartSkips(w2, tail);
    assert TrimStart(tail) == tail;
  }

  /** Inside a block without backticks that ends in a non-space character the close cannot match. */
  lemma NoCloseInside(s: string, q: nat, body: string, rest: string)
    requires q <= |s| && s[q..] == body + rest
    requires Lacks(body, '`') && body != [] && !IsJsWhitespace(body[|body| - 1])
    ensures forall e :: q <= e < q + |body| ==> !Closes(s, e)
  {
    forall e | q <= e < q + |body|
      ensures !Closes(s, e)
    {
      var x := body[e - q..];
      assert s[e..] == x + rest by {
        assert s[e..] == s[q..][e - q..];
      }
      TrimStartStopsInside(x, rest);
      TrimStartSuffix(x);
      var t := TrimStart(x);
      assert t[0] == x[|x| - |t|];
    }
  }

  /** The close matches at `e` and nowhere between `from` and `e`: `e` is the first. */
  lemma FirstCloseIs(s: string, from: nat, e: nat)
    requires from <= e <= |s| && Closes(s, e)
    requires forall k :: from <= k < e ==> !Closes(s, k)
    ensures FirstClose(s, from) == Some(e)
  {
  }

  /** Past `a`, only white space before the fence: the capture is empty. */
  lemma CaptureEmpty(s: string, a: nat, w: string, tail: string)
    requires a <= |s| && s[a..] == w + tail && FenceAt(tail, 0)
    requires forall k :: 0 <= k < |w| ==> IsJsWhitespace(w[k])
    ensures var q := |s| - |TrimStart(s[a..])|;
      q <= |s| && FirstClose(s, q) == Some(q)
  {
    TrimStartSkips(w, tail);
    assert TrimStart(tail) == tail;
    var q := |s| - |TrimStart(s[a..])|;
    assert s[q..] == tail by {
      assert s[q..] == s[a..][|w|..];
    }
    ClosesBefore(s, q, [], tail);
  }

  /** A block without backticks ending in a non-space character, white space and a fence: the close is right after the block. */
  lemma CloseAfterBlock(s: string, q: nat, body: string, w2: string, tail: string)
    requires q <= |s| && s[q..] == body + (w2 + tail) && FenceAt(tail, 0)
    requires forall k :: 0 <= k < |w2| ==> IsJsWhitespace(w2[k])
    requires Lacks(body, '`') && body != [] && !IsJsWhitespace(body[|body| - 1])
    ensures q + |body| <= |s| && FirstClose(s, q) == Some(q + |body|)
  {
    NoCloseInside(s, q, body, w2 + tail);
    assert s[q + |body|..] == w2 + tail by {
      assert s[q + |body|..] == s[q..][|body|..];
    }
    ClosesBefore(s, q + |body|, w2, tail);
    FirstCloseIs(s, q, q + |body|);
  }

  /** Past `a`, white space, a block as in `CaptureAfter` that is not empty, white space and a fence. */
  lemma CaptureBlock(s: string, a: nat, w1: string, body: string, w2: string, tail: string)
    requires a <= |s| && s[a..] == w1 + (body + (w2 + tail)) && FenceAt(tail, 0)
    requires forall k :: 0 <= k < |w1| ==> IsJsWhitespace(w1[k])
    requires forall k :: 0 <= k < |w2| ==> IsJsWhitespace(w2[k])
    requires Lacks(body, '`') && body != [] && !IsJsWhitespace(body[0]) && !IsJsWhitespace(body[|body| - 1])
    ensures var q := |s| - |TrimStart(s[a..])|;
      q + |body| <= |s| && FirstClose(s, q) == Some(q + |body|) && s[q..q + |body|] == body
  {
    StartPastSpace(s, a, w1, body + (w2 + tail));
    var q := a + |w1|;
    assert s[q..q + |body|] == body by {
      assert s[q..q + |body|] == s[q..][..|body|];
    }
    CloseAfterBlock(s, q, body, w2, tail);
  }

  /**
   * After the point `a`, white space, a block without backticks and with no
   * white space at its ends, white space and a fence: the capture is the block.
   */
  lemma CaptureAfter(s: string, a: nat, w1: string, body: string, w2: string, tail: string)
    requires a <= |s| && s[a..] == w1 + (body + (w2 + tail)) && FenceAt(tail, 0)
    requires forall k :: 0 <= k < |w1| ==> IsJsWhitespace(w1[k])
    requires forall k :: 0 <= k < |w2| ==> IsJsWhitespace(w2[k])
    requires Lacks(body, '`')
    requires body == [] || (!IsJsWhitespace(body[0]) && !IsJsWhitespace(body[|body| - 1]))
    ensures var q := |s| - |TrimStart(s[a..])|;
      q + |body| <= |s| && FirstClose(s, q) == Some(q + |body|) && s[q..q + |body|] == body
  {
    if body == [] {
      var w := w1 + w2;
      assert body + (w2 + tail) == w2 + tail;
      assert s[a..] == w + tail;
      assert forall k :: 0 <= k < |w| ==> IsJsWhitespace(w[k]) by {
        forall k | 0 <= k < |w| ensures IsJsWhitespace(w[k]) {
          if k < |w1| { assert w[k] == w1[k]; } else { assert w[k] == w2[k - |w1|]; }
        }
      }
      CaptureEmpty(s, a, w, tail);
    } else {
      CaptureBlock(s, a, w1, body, w2, tail);
    }
  }

  /** The block found past the first fence and its tag is the capture. */
  lemma FencedBlockFrom(s: string, p: nat, a: nat, body: string)
    requires FirstFence(s, 0) == Some(p)
    requires a == p + 3 + (if JsonTagAt(s, p + 3) then 4 else 0) && a <= |s|
    requires var q := |s| - |TrimStart(s[a..])|;
      q + |body| <= |s| && FirstClose(s, q) == Some(q + |body|) && s[q..q + |body|] == body
    ensures FencedBlock(s) == Some(body)
  {
    assert ContentStart(s, p) == |s| - |TrimStart(s[a..])|;
  }

  /** The first fence, its tag, then white space, a block as in `CaptureAfter`, white space and a fence: the capture is the block. */
  lemma FencedBlockOf(s: string, p: nat, a: nat, w1: string, body: string, w2: string, tail: string)
    requires FirstFence(s, 0) == Some(p)
    requires a == p + 3 + (if JsonTagAt(s, p + 3) then 4 else 0)
    requires a <= |s| && s[a..] == w1 + (body + (w2 + tail)) && FenceAt(tail, 0)
    requires forall k :: 0 <= k < |w1| ==> IsJsWhitespace(w1[k])
    requires forall k :: 0 <= k < |w2| ==> IsJsWhitespace(w2[k])
    requires Lacks(body, '`')
    requires body == [] || (!IsJsWhitespace(body[0]) && !IsJsWhitespace(body[|body| - 1]))
    ensures FencedBlock(s) == Some(body)
  {
    CaptureAfter(s, a, w1, body, w2, tail);
    FencedBlockFrom(s, p, a, body);
  }

  /** Text without backticks, then an opening fence: the fence is the first, and what follows it is `rest`. */
  lemma OpeningFence(pre: string, open: string, rest: string)
    requires Lacks(pre, '`') && FenceAt(open, 0)
    ensures var s := pre + (open + rest);
      FirstFence(s, 0) == Some(|pre|) && s[|pre| + |open|..] == rest &&
      (JsonTagAt(s, |pre| + 3) <==> JsonTagAt(open + rest, 3))
  {
    var t := open + rest;
    FenceAfterPlain(pre, t);
    var s := pre + t;
    assert s[|pre|..] == t;
    assert s[|pre| + |open|..] == t[|open|..];
    assert t[|open|..] == rest;
  }

  /** ```` ```json ```` after text without backticks: the capture is the block, without its surrounding space. */
  lemma JsonFenceCaptured(pre: string, w1: string, body: string, w2: string, post: string)
    requires Lacks(pre, '`') && Lacks(body, '`')
    requires forall k :: 0 <= k < |w1| ==> IsJsWhitespace(w1[k])
    requires forall k :: 0 <= k < |w2| ==> IsJsWhitespace(w2[k])
    requires body == [] || (!IsJsWhitespace(body[0]) && !IsJsWhitespace(body[|body| - 1]))
    ensures FencedBlock(pre + ("```json" + (w1 + (body + (w2 + ("```" + post)))))) == Some(body)
    ensures JsonString(pre + ("```json" + (w1 + (body + (w2 + ("```" + post)))))) == body
  {
    var tail := "```" + post;
    var rest := w1 + (body + (w2 + tail));
    var s := pre + ("```json" + rest);
    var p := |pre|;
    assert FenceAt(tail, 0);
    assert JsonTagAt("```json" + rest, 3) by {
      assert FenceAt("```json", 0);
    }
    OpeningFence(pre, "```json", rest);
    FencedBlockOf(s, p, p + 7, w1, body, w2, tail);
  }

  /** A plain ```` ``` ```` fence: the same, provided the block is not taken for the `json` tag. */
  lemma PlainFenceCaptured(pre: string, w1: string, body: string, w2: string, post: string)
    requires Lacks(pre, '`') && Lacks(body, '`')
    requires forall k :: 0 <= k < |w1| ==> IsJsWhitespace(w1[k])
    requires forall k :: 0 <= k < |w2| ==> IsJsWhitespace(w2[k])
    requires body == [] || (!IsJsWhitespace(body[0]) && !IsJsWhitespace(body[|body| - 1]))
    requires w1 != [] || !JsonTagAt(body, 0)
    ensures FencedBlock(pre + ("```" + (w1 + (body + (w2 + ("```" + post)))))) == Some(body)
  {
    var tail := "```" + post;
    var rest := w1 + (body + (w2 + tail));
    var s := pre + ("```" + rest);
    var p := |pre|;
    assert FenceAt(tail, 0);
    OpeningFence(pre, "```", rest);
    NotJsonTag(rest, w1, body, w2, tail);
    FencedBlockOf(s, p, p + 3, w1, body, w2, tail);
  }

  /** White space, a block that does not start with `json`, white space and a fence do not start with `json`. */
  lemma NotJsonTag(rest: string, w1: string, body: string, w2: string, tail: string)
    requires rest == w1 + (body + (w2 + tail)) && FenceAt(tail, 0)
    requires forall k :: 0 <= k < |w1| ==> IsJsWhitespace(w1[k])
    requires forall k :: 0 <= k < |w2| ==> IsJsWhitespace(w2[k])
    requires Lacks(body, '`')
    requires w1 != [] || !JsonTagAt(body, 0)
    ensures !JsonTagAt(rest, 0)
  {
  }
}
