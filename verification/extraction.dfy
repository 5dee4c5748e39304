/**
 * Recovering the JSON text from the model's reply in the workflow generator
 * (generate/route.ts): code-fence markers are deleted, the text is trimmed,
 * and the span from the first `{` to the last `}` is what gets parsed.
 */
module ResponseExtraction {
  import opened JsValues

  /** No character of `s` is a backtick. */
  predicate NoBackticks(s: string) {
    forall k :: 0 <= k < |s| ==> s[k] != '`'
  }

  lemma SpanWhenBracesExist(s: string)
    ensures (exists i, j :: 0 <= i < j < |s| && s[i] == '{' && s[j] == '}') ==>
      FirstIndex(s, '{').Some? && LastIndex(s, '}').Some? && FirstIndex(s, '{').value < LastIndex(s, '}').value
  {
    if exists i, j :: 0 <= i < j < |s| && s[i] == '{' && s[j] == '}' {
      var i, j :| 0 <= i < j < |s| && s[i] == '{' && s[j] == '}';
      FirstIndexBound(s, '{', i);
      LastIndexBound(s, '}', j);
    }
  }

  /**
   * The match of `/\{[\s\S]*\}/`: from the first `{` to the last `}`, if a `}`
   * follows some `{`.
   */
  function ObjectSpan(s: string): (r: Option<string>)
    ensures r.Some? <==> exists i, j :: 0 <= i < j < |s| && s[i] == '{' && s[j] == '}'
    ensures r.Some? ==> exists i, j ::
      0 <= i < j < |s| && r.value == s[i..j + 1] && s[i] == '{' && s[j] == '}'
      && Lacks(s[..i], '{') && Lacks(s[j + 1..], '}')
  {
    SpanWhenBracesExist(s);
    var first := FirstIndex(s, '{');
    var last := LastIndex(s, '}');
    if first.Some? && last.Some? && first.value < last.value then
      Some(s[first.value..last.value + 1])
    else
      None
  }

  /** The text route.ts:343-352 hands to `JSON.parse`. */
  function JsonText(reply: string): string {
    var cleaned := CleanReply(reply);
    match ObjectSpan(cleaned)
    case Some(span) => span
    case None => cleaned
  }

  /** Deleting a marker that starts with a backtick leaves a backtick-free prefix alone. */
  lemma {:induction false} StripKeepsPlainPrefix(x: string, y: string, marker: string)
    requires marker != "" && marker[0] == '`' && NoBackticks(x)
    ensures StripMarker(x + y, marker) == x + StripMarker(y, marker)
  {
    if x != [] {
      assert (x + y)[1..] == x[1..] + y;
      assert (x + y)[0] == x[0] != marker[0];
      StripKeepsPlainPrefix(x[1..], y, marker);
    } else {
      assert x + y == y;
    }
  }

  lemma StripPlain(x: string, marker: string)
    requires marker != "" && marker[0] == '`' && NoBackticks(x)
    ensures StripMarker(x, marker) == x
  {
    StripKeepsPlainPrefix(x, "", marker);
    assert x + "" == x;
  }

  lemma {:induction false} TrimStartConcat(x: string, y: string)
    requires y != [] && !IsJsWhitespace(y[0])
    ensures TrimStart(x + y) == TrimStart(x) + y
  {
    if x == [] {
      assert x + y == y;
    } else if IsJsWhitespace(x[0]) {
      assert (x + y)[1..] == x[1..] + y;
      TrimStartConcat(x[1..], y);
    } else {
      assert (x + y)[0] == x[0];
    }
  }

  lemma {:induction false} TrimEndConcat(x: string, y: string)
    requires x != [] && !IsJsWhitespace(x[|x| - 1])
    ensures TrimEnd(x + y) == x + TrimEnd(y)
  {
    if y == [] {
      assert x + y == x;
    } else if IsJsWhitespace(y[|y| - 1]) {
      assert (x + y)[..|x + y| - 1] == x + y[..|y| - 1];
      TrimEndConcat(x, y[..|y| - 1]);
    } else {
      assert (x + y)[|x + y| - 1] == y[|y| - 1];
    }
  }

  lemma Regroup(a: string, b: string, c: string)
    ensures a + b + c == a + (b + c)
  {
  }

  lemma TrimAround(a: string, obj: string, b: string)
    requires |obj| >= 2 && obj[0] == '{' && obj[|obj| - 1] == '}'
    ensures Trim(a + obj + b) == TrimStart(a) + obj + TrimEnd(b)
  {
    var x := obj + b;
    var y := TrimStart(a) + obj;
    assert x[0] == '{';
    assert y[|y| - 1] == '}';
    Regroup(a, obj, b);
    TrimStartConcat(a, x);
    Regroup(TrimStart(a), obj, b);
    TrimEndConcat(y, b);
  }

  /** With no `{` before it and no `}` after it, a braced text is exactly the span that gets parsed. */
  lemma ObjectSpanAround(a: string, obj: string, b: string)
    requires |obj| >= 2 && obj[0] == '{' && obj[|obj| - 1] == '}'
    requires Lacks(a, '{') && Lacks(b, '}')
    ensures ObjectSpan(a + obj + b) == Some(obj)
  {
    var s := a + obj + b;
    var j := |a| + |obj| - 1;
    assert s[..|a|] == a;
    FirstIndexAt(s, '{', |a|);
    assert s[j + 1..] == b;
    LastIndexAt(s, '}', j);
    assert s[|a|..j + 1] == obj;
  }

  lemma TrimStartLacks(a: string, c: char)
    requires Lacks(a, c)
    ensures Lacks(TrimStart(a), c)
  {
    var t := TrimStart(a);
    TrimStartSuffix(a);
    forall k | 0 <= k < |t| ensures t[k] != c {
      assert t[k] == a[|a| - |t| + k];
    }
  }

  lemma TrimEndLacks(b: string, c: char)
    requires Lacks(b, c)
    ensures Lacks(TrimEnd(b), c)
  {
    var t := TrimEnd(b);
    TrimEndPrefix(b);
    forall k | 0 <= k < |t| ensures t[k] != c {
      assert t[k] == b[k];
    }
  }

  /**
   * A reply with no fence that already is a braced object, possibly with some
   * prose before and after it, is reduced to exactly that object.
   */
  lemma {:induction false} PlainReplyExtraction(pre: string, obj: string, post: string)
    requires |obj| >= 2 && obj[0] == '{' && obj[|obj| - 1] == '}'
    requires NoBackticks(pre) && NoBackticks(obj) && NoBackticks(post)
    requires Lacks(pre, '{') && Lacks(post, '}')
    ensures JsonText(pre + obj + post) == obj
  {
    var s := pre + obj + post;
    assert NoBackticks(s) by {
      forall k | 0 <= k < |s| ensures s[k] != '`' {
        if k < |pre| { assert s[k] == pre[k]; }
        else if k < |pre| + |obj| { assert s[k] == obj[k - |pre|]; }
        else { assert s[k] == post[k - |pre| - |obj|]; }
      }
    }
    StripPlain(s, "```json");
    StripPlain(s, "```");
    TrimAround(pre, obj, post);
    TrimStartLacks(pre, '{');
    TrimEndLacks(post, '}');
    ObjectSpanAround(TrimStart(pre), obj, TrimEnd(post));
  }

  lemma {:induction false} TrimStartWhitespace(w: string)
    requires forall k :: 0 <= k < |w| ==> IsJsWhitespace(w[k])
    ensures TrimStart(w) == []
  {
    if w != [] {
      TrimStartWhitespace(w[1..]);
    }
  }

  lemma NoBackticksConcat(x: string, y: string)
    requires NoBackticks(x) && NoBackticks(y)
    ensures NoBackticks(x + y)
  {
    forall k | 0 <= k < |x + y| ensures (x + y)[k] != '`' {
      if k < |x| { assert (x + y)[k] == x[k]; } else { assert (x + y)[k] == y[k - |x|]; }
    }
  }

  /** A marker at the front is deleted with the white space after it. */
  lemma MarkerAtFront(marker: string, rest: string)
    requires marker != ""
    ensures StripMarker(marker + rest, marker) == StripMarker(TrimStart(rest), marker)
  {
    assert marker <= marker + rest;
    assert (marker + rest)[|marker|..] == rest;
  }

  /** White space before a non-blank text is trimmed away. */
  lemma LeadingWhitespaceTrimmed(w: string, x: string)
    requires forall k :: 0 <= k < |w| ==> IsJsWhitespace(w[k])
    requires x != [] && !IsJsWhitespace(x[0])
    ensures TrimStart(w + x) == x
  {
    TrimStartConcat(w, x);
    TrimStartWhitespace(w);
  }

  /** The opening marker at the front goes, with the white space after it. */
  lemma OpeningDeleted(w1: string, body: string, post: string)
    requires NoBackticks(body) && NoBackticks(post) && !("json" <= post)
    requires forall k :: 0 <= k < |w1| ==> IsJsWhitespace(w1[k])
    requires body != [] && !IsJsWhitespace(body[0])
    ensures StripMarker("```json" + (w1 + (body + ("```" + post))), "```json") == body + ("```" + post)
  {
    var tail := "```" + post;
    MarkerAtFront("```json", w1 + (body + tail));
    LeadingWhitespaceTrimmed(w1, body + tail);
    StripKeepsPlainPrefix(body, tail, "```json");
    ClosingFenceKept(post);
  }

  /** The first pass deletes the opening marker and the white space after it, and keeps the closing fence. */
  lemma FirstPass(pre: string, w1: string, body: string, post: string)
    requires NoBackticks(pre) && NoBackticks(body) && NoBackticks(post) && !("json" <= post)
    requires forall k :: 0 <= k < |w1| ==> IsJsWhitespace(w1[k])
    requires body != [] && !IsJsWhitespace(body[0])
    ensures StripMarker(pre + "```json" + w1 + body + "```" + post, "```json") == pre + body + "```" + post
  {
    var rest := "```json" + (w1 + (body + ("```" + post)));
    RightNested(pre, "```json", w1, body, "```", post);
    StripKeepsPlainPrefix(pre, rest, "```json");
    OpeningDeleted(w1, body, post);
    RightNested3(pre, body, "```", post);
  }

  lemma RightNested(a: string, b: string, c: string, d: string, e: string, f: string)
    ensures a + b + c + d + e + f == a + (b + (c + (d + (e + f))))
  {
  }

  lemma RightNested3(a: string, b: string, c: string, d: string)
    ensures a + (b + (c + d)) == a + b + c + d
  {
  }

  /** Where the marker does not start, the first character is kept. */
  lemma KeepFirst(s: string, marker: string)
    requires marker != "" && s != [] && !(marker <= s)
    ensures StripMarker(s, marker) == [s[0]] + StripMarker(s[1..], marker)
  {
  }

  /** "```json" after one or two backticks needs another backtick right after them. */
  lemma OpeningNeedsTick(ticks: string, post: string)
    requires 1 <= |ticks| < 3
    ensures "```json" <= ticks + post ==> post != [] && post[0] == '`'
  {
    var s := ticks + post;
    if "```json" <= s {
      assert s[|ticks|] == "```json"[|ticks|];
      assert s[|ticks|] == post[0];
    }
  }

  /** "```json" after three characters needs "json" right after them. */
  lemma OpeningNeedsJson(ticks: string, post: string)
    requires |ticks| == 3
    ensures "```json" <= ticks + post ==> "json" <= post
  {
    var s := ticks + post;
    if "```json" <= s {
      assert s[3..7] == post[..4];
      assert "```json"[3..7] == "json";
    }
  }

  /** A backtick run of at most three, then a backtick-free text, cannot hold "```json". */
  lemma NotOpeningAt(ticks: string, post: string)
    requires 1 <= |ticks| <= 3
    requires NoBackticks(post) && (|ticks| == 3 ==> !("json" <= post))
    ensures !("```json" <= ticks + post)
  {
    if |ticks| < 3 {
      OpeningNeedsTick(ticks, post);
    } else {
      OpeningNeedsJson(ticks, post);
    }
  }

  /** The closing fence is not the opening marker unless "json" follows it. */
  lemma ClosingFenceKept(post: string)
    requires NoBackticks(post) && !("json" <= post)
    ensures StripMarker("```" + post, "```json") == "```" + post
  {
    var open := "```json";
    StripPlain(post, open);
    NotOpeningAt("`", post);
    KeepFirst("`" + post, open);
    assert ("`" + post)[1..] == post;
    NotOpeningAt("``", post);
    KeepFirst("``" + post, open);
    assert ("``" + post)[1..] == "`" + post;
    NotOpeningAt("```", post);
    KeepFirst("```" + post, open);
    assert ("```" + post)[1..] == "``" + post;
  }

  /** The second pass deletes the closing fence and the white space after it. */
  lemma SecondPass(head: string, post: string)
    requires NoBackticks(head) && NoBackticks(post)
    ensures StripMarker(head + "```" + post, "```") == head + TrimStart(post)
  {
    assert head + "```" + post == head + ("```" + post);
    StripKeepsPlainPrefix(head, "```" + post, "```");
    assert ("```" + post)[3..] == post;
    assert NoBackticks(TrimStart(post)) by {
      TrimStartSuffix(post);
      forall k | 0 <= k < |TrimStart(post)| ensures TrimStart(post)[k] != '`' {
        assert TrimStart(post)[k] == post[|post| - |TrimStart(post)| + k];
      }
    }
    StripPlain(TrimStart(post), "```");
  }

  /**
   * A reply that wraps the object in a json code fence, after some prose, is
   * reduced to exactly that object.
   */
  lemma {:induction false} FencedReplyExtraction(pre: string, w1: string, obj: string, w2: string, post: string)
    requires |obj| >= 2 && obj[0] == '{' && obj[|obj| - 1] == '}'
    requires NoBackticks(pre) && NoBackticks(obj) && NoBackticks(post)
    requires Lacks(pre, '{') && Lacks(post, '}') && !("json" <= post)
    requires forall k :: 0 <= k < |w1| ==> IsJsWhitespace(w1[k])
    requires forall k :: 0 <= k < |w2| ==> IsJsWhitespace(w2[k])
    ensures JsonText(pre + "```json" + w1 + obj + w2 + "```" + post) == obj
  {
    var s := pre + "```json" + w1 + obj + w2 + "```" + post;
    var body := obj + w2;
    assert NoBackticks(body) by {
      assert NoBackticks(w2);
      NoBackticksConcat(obj, w2);
    }
    var once := pre + body + "```" + post;
    assert StripMarker(s, "```json") == once by {
      assert s == pre + "```json" + w1 + body + "```" + post;
      FirstPass(pre, w1, body, post);
    }
    var tail := w2 + TrimStart(post);
    var twice := pre + obj + tail;
    assert StripMarker(once, "```") == twice by {
      NoBackticksConcat(pre, body);
      assert once == (pre + body) + "```" + post;
      SecondPass(pre + body, post);
      assert (pre + body) + TrimStart(post) == twice;
    }
    assert CleanReply(s) == TrimStart(pre) + obj + TrimEnd(tail) by {
      TrimAround(pre, obj, tail);
    }
    assert Lacks(TrimEnd(tail), '}') by {
      TrimStartLacks(post, '}');
      assert Lacks(tail, '}') by {
        forall k | 0 <= k < |tail| ensures tail[k] != '}' {
          if k < |w2| { assert tail[k] == w2[k]; } else { assert tail[k] == TrimStart(post)[k - |w2|]; }
        }
      }
      TrimEndLacks(tail, '}');
    }
    TrimStartLacks(pre, '{');
    ObjectSpanAround(TrimStart(pre), obj, TrimEnd(tail));
  }

  /** A reply with no `{` at all is handed to the parser as the whole cleaned text. */
  lemma NoBraceReply(reply: string)
    requires Lacks(CleanReply(reply), '{')
    ensures JsonText(reply) == CleanReply(reply)
  {
  }
}
