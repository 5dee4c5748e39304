/**
 * The part of JavaScript's value semantics that the generator routes rely on:
 * parsed JSON values, truthiness, `typeof`, `Object.entries`, conversion to a
 * string (template literals and property keys), whitespace and `trim`.
 *
 * A property that is absent reads as `undefined`; the model writes it `None`.
 * Objects are maps: the insertion order of their keys is not modelled.
 */
module JsValues {

  datatype Option<+T> = None | Some(value: T)

  datatype Result<+T, +E> = Ok(value: T) | Err(error: E)

  /** A value produced by `JSON.parse`. */
  datatype Json =
    | JNull
    | JBool(b: bool)
    | JNum(n: real)
    | JStr(s: string)
    | JArr(items: seq<Json>)
    | JObj(fields: map<string, Json>)

  /** JavaScript truthiness: null, false, 0 and "" are falsy; arrays and objects are truthy. */
  predicate IsTruthy(v: Json) {
    match v
    case JNull => false
    case JBool(b) => b
    case JNum(n) => n != 0.0
    case JStr(s) => s != ""
    case JArr(_) => true
    case JObj(_) => true
  }

  /** Truthiness of a property read; `undefined` is falsy. */
  predicate Truthy(v: Option<Json>) {
    v.Some? && IsTruthy(v.value)
  }

  /** `typeof v` is 'string', 'number' or 'boolean'. */
  predicate IsScalar(v: Json) {
    v.JBool? || v.JNum? || v.JStr?
  }

  /** `typeof v === 'object'`: true of null and of arrays as well as of objects. */
  predicate IsObjectType(v: Json) {
    v.JNull? || v.JArr? || v.JObj?
  }

  /** `v && typeof v === 'object'`: an array or an object. */
  predicate IsNonNullObject(v: Option<Json>) {
    v.Some? && (v.value.JArr? || v.value.JObj?)
  }

  /** `Array.isArray(v)` of a property read. */
  predicate IsArray(v: Option<Json>) {
    v.Some? && v.value.JArr?
  }

  /**
   * `v[key]` on a value that is not null. Only the own properties of parsed
   * objects are read; the keys the routes read (`nodes`, `name`, `phases`, ...)
   * are never array indices, `length` or a method of a string or an array.
   */
  function Get(v: Json, key: string): (r: Option<Json>)
    ensures r.Some? <==> v.JObj? && key in v.fields
    ensures r.Some? ==> r.value == v.fields[key]
  {
    if v.JObj? && key in v.fields then Some(v.fields[key]) else None
  }

  /** The decimal digit for `d`. */
  function Digit(d: nat): (c: char)
    requires d < 10
    ensures '0' <= c <= '9'
  {
    "0123456789"[d]
  }

  /** Decimal rendering of a natural number, as `String(n)` gives it. */
  function NatToString(n: nat): (s: string)
    ensures |s| >= 1
    ensures forall i :: 0 <= i < |s| ==> '0' <= s[i] <= '9'
    ensures (|s| == 1) == (n < 10)
    ensures s[|s| - 1] == Digit(n % 10)
  {
    if n < 10 then [Digit(n)] else NatToString(n / 10) + [Digit(n % 10)]
  }

  lemma DigitInjective(a: nat, b: nat)
    requires a < 10 && b < 10 && Digit(a) == Digit(b)
    ensures a == b
  {
  }

  /** Different numbers print differently. */
  lemma {:induction false} NatToStringInjective(a: nat, b: nat)
    requires NatToString(a) == NatToString(b)
    ensures a == b
  {
    var s := NatToString(a);
    DigitInjective(a % 10, b % 10);
    if a >= 10 && b >= 10 {
      assert NatToString(a / 10) == s[..|s| - 1] == NatToString(b / 10);
      NatToStringInjective(a / 10, b / 10);
    }
  }

  /** A common prefix can be cancelled. */
  lemma PrefixCancel(a: string, x: string, y: string)
    requires a + x == a + y
    ensures x == y
  {
    assert x == (a + x)[|a|..];
    assert y == (a + y)[|a|..];
  }

  /** One prefix followed by two different numbers gives two different strings. */
  lemma PrefixedNumbersDiffer(prefix: string, m: nat, n: nat)
    requires m != n
    ensures prefix + NatToString(m) != prefix + NatToString(n)
  {
    if prefix + NatToString(m) == prefix + NatToString(n) {
      PrefixCancel(prefix, NatToString(m), NatToString(n));
      NatToStringInjective(m, n);
    }
  }

  /** Digits of the fractional part `f` (0 <= f < 1), at most `fuel` of them, without trailing zeros. */
  function FractionDigits(f: real, fuel: nat): string
    requires 0.0 <= f < 1.0
    decreases fuel
  {
    if fuel == 0 || f == 0.0 then ""
    else
      var scaled := f * 10.0;
      var d := scaled.Floor;
      assert 0 <= d < 10;
      [Digit(d)] + FractionDigits(scaled - d as real, fuel - 1)
  }

  /**
   * `String(n)` for a number in plain decimal form: integers print without a
   * fraction, other values with their decimal digits (at most 20 of them).
   */
  function NumberToString(n: real): string {
    var m := if n < 0.0 then -n else n;
    var whole := m.Floor;
    var frac := m - whole as real;
    var digits := NatToString(whole) + (if frac == 0.0 then "" else "." + FractionDigits(frac, 20));
    if n < 0.0 then "-" + digits else digits
  }

  /**
   * `String(v)`, which is also the property key `v` names when it is used to
   * index an object. An array prints its elements joined by ",", null elements
   * as empty strings.
   */
  function ToJsString(v: Json): string
    decreases v, 1
  {
    match v
    case JNull => "null"
    case JBool(b) => if b then "true" else "false"
    case JNum(n) => NumberToString(n)
    case JStr(s) => s
    case JArr(items) => JoinElements(v, items)
    case JObj(_) => "[object Object]"
  }

  /** `Array.prototype.join(",")` of the elements of `whole`, which holds `items`. */
  function JoinElements(whole: Json, items: seq<Json>): string
    requires whole.JArr? && items <= whole.items
    decreases whole, 0, |items|
  {
    if items == [] then ""
    else
      var last := items[|items| - 1];
      assert last in whole.items;
      var text := if last.JNull? then "" else ToJsString(last);
      if |items| == 1 then text else JoinElements(whole, items[..|items| - 1]) + "," + text
  }

  /** The property key of a value that may be `undefined`. */
  function KeyOf(v: Option<Json>): string {
    if v.None? then "undefined" else ToJsString(v.value)
  }

  /** The entries `Object.entries(s)` gives for a string: one per character, keyed by index. */
  function CharEntries(s: string): map<string, Json> {
    IndexInjective();
    map i | 0 <= i < |s| :: NatToString(i) := JStr([s[i]])
  }

  /** The entries `Object.entries(a)` gives for an array: one per element, keyed by index. */
  function ItemEntries(items: seq<Json>): map<string, Json> {
    IndexInjective();
    map i | 0 <= i < |items| :: NatToString(i) := items[i]
  }

  /** Element `i` of a string is its entry under the key `String(i)`. */
  lemma CharEntriesAt(s: string, i: nat)
    requires i < |s|
    ensures NatToString(i) in CharEntries(s) && CharEntries(s)[NatToString(i)] == JStr([s[i]])
  {
    IndexInjective();
  }

  /** Element `i` of an array is its entry under the key `String(i)`. */
  lemma ItemEntriesAt(items: seq<Json>, i: nat)
    requires i < |items|
    ensures NatToString(i) in ItemEntries(items) && ItemEntries(items)[NatToString(i)] == items[i]
  {
    IndexInjective();
  }

  /** The only keys of an array's entries are its indices. */
  lemma ItemEntriesKeys(items: seq<Json>, k: string)
    requires k in ItemEntries(items)
    ensures exists i :: 0 <= i < |items| && k == NatToString(i)
  {
  }

  lemma IndexInjective()
    ensures forall a: nat, b: nat :: NatToString(a) == NatToString(b) ==> a == b
  {
    forall a: nat, b: nat | NatToString(a) == NatToString(b) {
      NatToStringInjective(a, b);
    }
  }

  /**
   * `Object.entries(v)` as a map, for a value that is not null (on null the
   * call throws a TypeError). Numbers and booleans have no entries.
   */
  function Entries(v: Json): map<string, Json> {
    match v
    case JObj(fields) => fields
    case JArr(items) => ItemEntries(items)
    case JStr(s) => CharEntries(s)
    case _ => map[]
  }

  /** The characters JavaScript's `\s` and `String.prototype.trim` treat as white space. */
  predicate IsJsWhitespace(c: char) {
    c == '\t' || c == '\n' || c == '\U{000B}' || c == '\U{000C}' || c == '\r' || c == ' '
    || c == '\U{00A0}' || c == '\U{1680}' || ('\U{2000}' <= c <= '\U{200A}')
    || c == '\U{2028}' || c == '\U{2029}' || c == '\U{202F}' || c == '\U{205F}'
    || c == '\U{3000}' || c == '\U{FEFF}'
  }

  /** `s` with its leading white space removed. */
  function TrimStart(s: string): (r: string)
    ensures |r| <= |s|
  {
    if s != [] && IsJsWhitespace(s[0]) then TrimStart(s[1..]) else s
  }

  /** `s` with its trailing white space removed. */
  function TrimEnd(s: string): (r: string)
    ensures |r| <= |s|
  {
    if s != [] && IsJsWhitespace(s[|s| - 1]) then TrimEnd(s[..|s| - 1]) else s
  }

  /** `s.trim()`. */
  function Trim(s: string): string {
    TrimEnd(TrimStart(s))
  }

  /** `TrimStart` keeps a suffix of its input, one that does not start with white space. */
  lemma {:induction false} TrimStartSuffix(s: string)
    ensures TrimStart(s) == s[|s| - |TrimStart(s)|..]
    ensures TrimStart(s) != [] ==> !IsJsWhitespace(TrimStart(s)[0])
  {
    if s != [] && IsJsWhitespace(s[0]) {
      TrimStartSuffix(s[1..]);
      assert s[1..][|s| - 1 - |TrimStart(s)|..] == s[|s| - |TrimStart(s)|..];
    }
  }

  /** `TrimEnd` keeps a prefix of its input, one that does not end with white space. */
  lemma {:induction false} TrimEndPrefix(s: string)
    ensures TrimEnd(s) == s[..|TrimEnd(s)|]
    ensures TrimEnd(s) != [] ==> !IsJsWhitespace(TrimEnd(s)[|TrimEnd(s)| - 1])
  {
    if s != [] && IsJsWhitespace(s[|s| - 1]) {
      TrimEndPrefix(s[..|s| - 1]);
      assert s[..|s| - 1][..|TrimEnd(s)|] == s[..|TrimEnd(s)|];
    }
  }

  /** Everything `TrimStart` removes is white space. */
  lemma {:induction false} TrimStartDropsWhitespace(s: string)
    ensures forall i :: 0 <= i < |s| - |TrimStart(s)| ==> IsJsWhitespace(s[i])
  {
    if s != [] && IsJsWhitespace(s[0]) {
      TrimStartDropsWhitespace(s[1..]);
      assert forall i :: 1 <= i < |s| - |TrimStart(s)| ==> s[i] == s[1..][i - 1];
    }
  }

  /** Everything `TrimEnd` removes is white space. */
  lemma {:induction false} TrimEndDropsWhitespace(s: string)
    ensures forall i :: |TrimEnd(s)| <= i < |s| ==> IsJsWhitespace(s[i])
  {
    if s != [] && IsJsWhitespace(s[|s| - 1]) {
      TrimEndDropsWhitespace(s[..|s| - 1]);
      assert forall i :: |TrimEnd(s)| <= i < |s| - 1 ==> s[i] == s[..|s| - 1][i];
    }
  }

  /** `s.trim()` is empty exactly when `s` is all white space. */
  lemma TrimEmpty(s: string)
    ensures Trim(s) == "" <==> forall i :: 0 <= i < |s| ==> IsJsWhitespace(s[i])
  {
    var t := TrimStart(s);
    TrimStartDropsWhitespace(s);
    TrimEndDropsWhitespace(t);
    TrimStartSuffix(s);
    TrimEndPrefix(t);
    if t != [] {
      assert !IsJsWhitespace(t[0]);
      assert TrimEnd(t) != [];
      assert !IsJsWhitespace(s[|s| - |t|]);
    }
  }

  /** `a || b` for a property read and a default. */
  function OrElse(v: Option<Json>, default: Json): (r: Json)
    ensures Truthy(v) ==> r == v.value
    ensures !Truthy(v) ==> r == default
  {
    if Truthy(v) then v.value else default
  }

  /** `!v || !v.trim()` throws on a truthy value that is not a string: it has no `trim`. */
  predicate TrimThrows(v: Option<Json>) {
    Truthy(v) && !v.value.JStr?
  }

  /** `!v || !v.trim()` holds: `v` is missing, falsy, or a string of white space only. */
  predicate BlankText(v: Option<Json>) {
    !Truthy(v) || (v.value.JStr? && Trim(v.value.s) == "")
  }

  /** A string of white space only is blank text. */
  lemma WhitespaceIsBlank(s: string)
    requires forall i :: 0 <= i < |s| ==> IsJsWhitespace(s[i])
    ensures BlankText(Some(JStr(s)))
  {
    TrimEmpty(s);
  }

  /** No character of `s` is `c`. */
  predicate Lacks(s: string, c: char) {
    forall k :: 0 <= k < |s| ==> s[k] != c
  }

  /**
   * `s.replace(/<marker>\s*\/g, '')`: every occurrence of `marker`, scanning
   * left to right, is deleted together with the white space that follows it.
   */
  function StripMarker(s: string, marker: string): (r: string)
    requires marker != ""
    ensures |r| <= |s|
    decreases |s|
  {
    if s == "" then ""
    else if marker <= s then StripMarker(TrimStart(s[|marker|..]), marker)
    else [s[0]] + StripMarker(s[1..], marker)
  }

  /** The reply after the clean-up of route.ts:346: both fence markers deleted, then trimmed. */
  function CleanReply(reply: string): string {
    Trim(StripMarker(StripMarker(reply, "```json"), "```"))
  }

  /** Index of the first `c` in `s`. */
  function FirstIndex(s: string, c: char): (r: Option<nat>)
    ensures r.Some? ==> r.value < |s| && s[r.value] == c && Lacks(s[..r.value], c)
    ensures r.None? ==> Lacks(s, c)
  {
    if s == [] then None
    else if s[0] == c then Some(0)
    else
      match FirstIndex(s[1..], c)
      case Some(k) => assert s[..k + 1] == [s[0]] + s[1..][..k]; Some(k + 1)
      case None => None
  }

  /** Index of the last `c` in `s`. */
  function LastIndex(s: string, c: char): (r: Option<nat>)
    ensures r.Some? ==> r.value < |s| && s[r.value] == c && Lacks(s[r.value + 1..], c)
    ensures r.None? ==> Lacks(s, c)
  {
    if s == [] then None
    else if s[|s| - 1] == c then Some(|s| - 1)
    else LastIndex(s[..|s| - 1], c)
  }

  /** A `c` at index `i` means the first `c` is at `i` or before. */
  lemma {:induction false} FirstIndexBound(s: string, c: char, i: nat)
    requires i < |s| && s[i] == c
    ensures FirstIndex(s, c).Some? && FirstIndex(s, c).value <= i
  {
    if s[0] != c {
      FirstIndexBound(s[1..], c, i - 1);
    }
  }

  /** A `c` at index `j` means the last `c` is at `j` or after. */
  lemma {:induction false} LastIndexBound(s: string, c: char, j: nat)
    requires j < |s| && s[j] == c
    ensures LastIndex(s, c).Some? && LastIndex(s, c).value >= j
  {
    if s[|s| - 1] != c {
      LastIndexBound(s[..|s| - 1], c, j);
    }
  }

  lemma {:induction false} FirstIndexAt(s: string, c: char, i: nat)
    requires i < |s| && s[i] == c && Lacks(s[..i], c)
    ensures FirstIndex(s, c) == Some(i)
  {
    if i > 0 {
      assert s[0] == s[..i][0];
      assert s[1..][..i - 1] == s[..i][1..];
      FirstIndexAt(s[1..], c, i - 1);
    }
  }

  lemma {:induction false} LastIndexAt(s: string, c: char, j: nat)
    requires j < |s| && s[j] == c && Lacks(s[j + 1..], c)
    ensures LastIndex(s, c) == Some(j)
    decreases |s|
  {
    if j < |s| - 1 {
      assert s[|s| - 1] == s[j + 1..][|s| - 2 - j];
      assert s[..|s| - 1][j + 1..] == s[j + 1..][..|s| - 2 - j];
      LastIndexAt(s[..|s| - 1], c, j);
    }
  }

  /** `if (fires) list.push(h)`. */
  function PushIf<T>(list: seq<T>, fires: bool, h: T): seq<T> {
    if fires then list + [h] else list
  }

  /** `xs.map(f)`. */
  function MapSeq<T, U>(f: T -> U, xs: seq<T>): (r: seq<U>)
    ensures |r| == |xs| && forall i :: 0 <= i < |xs| ==> r[i] == f(xs[i])
  {
    seq(|xs|, i requires 0 <= i < |xs| => f(xs[i]))
  }

  /** Mapping after a conditional push is pushing the image. */
  lemma MapSeqPush<T, U>(f: T -> U, xs: seq<T>, fires: bool, x: T)
    ensures MapSeq(f, PushIf(xs, fires, x)) == PushIf(MapSeq(f, xs), fires, f(x))
  {
  }

  /** What a conditional push holds. */
  lemma PushIfMembers<T>(list: seq<T>, fires: bool, h: T)
    ensures forall x :: x in PushIf(list, fires, h) <==> x in list || (fires && x == h)
    ensures |PushIf(list, fires, h)| == |list| + (if fires then 1 else 0)
  {
  }

  /** Every element of `s` sits at a strictly smaller position than every later one. */
  predicate OrderedBy<T>(pos: T -> nat, s: seq<T>) {
    forall i, j :: 0 <= i < j < |s| ==> pos(s[i]) < pos(s[j])
  }

  /** Pushing an element placed after everything in the list keeps the list in order. */
  lemma PushIfOrdered<T>(pos: T -> nat, list: seq<T>, fires: bool, h: T)
    requires OrderedBy(pos, list)
    requires forall x :: x in list ==> pos(x) < pos(h)
    ensures OrderedBy(pos, PushIf(list, fires, h))
    ensures forall x :: x in PushIf(list, fires, h) ==> pos(x) <= pos(h)
  {
    if fires {
      var r := list + [h];
      forall i, j | 0 <= i < j < |r| ensures pos(r[i]) < pos(r[j]) {
        if j == |list| {
          assert r[i] == list[i];
          assert list[i] in list;
        }
      }
    }
  }

  /** A list in strict order repeats nothing. */
  lemma OrderedDistinct<T>(pos: T -> nat, s: seq<T>)
    requires OrderedBy(pos, s)
    ensures forall i, j :: 0 <= i < j < |s| ==> s[i] != s[j]
  {
  }

  /** `parts.join(sep)`. */
  function Join(parts: seq<string>, sep: string): string {
    if parts == [] then ""
    else if |parts| == 1 then parts[0]
    else Join(parts[..|parts| - 1], sep) + sep + parts[|parts| - 1]
  }
}
