/**
 * JavaScript values and the built-in behaviours of the language that the
 * thread parsers and renderers rely on: JSON values as loaded from disk,
 * `undefined`, truthiness, `??` and `||`, property access with and without
 * optional chaining, the `in` operator, `typeof`, `String(x)` and
 * `Array.prototype.join`.
 */
module Js {
  import opened Strings

  datatype Option<+T> = None | Some(value: T)

  /** A computation that may throw; `:-` propagates the exception. */
  datatype Result<+T, +E> = Ok(value: T) | Err(error: E) {
    predicate IsFailure() { Err? }
    function PropagateFailure<U>(): Result<U, E>
      requires Err?
    {
      Err(error)
    }
    function Extract(): T
      requires Ok?
    {
      value
    }
  }

  /** The exceptions the modelled code raises on its own: reading a property
    * of `null`/`undefined`, `in` on a primitive, calling a missing method
    * (TypeError), and `JSON.parse` of malformed text (SyntaxError). */
  datatype JsError = TypeError | SyntaxError

  type JsResult<T> = Result<T, JsError>

  /** A JSON value. Objects keep their own properties in insertion order;
    * numbers are the integral numbers JSON documents carry here. */
  datatype JValue =
    | JNull
    | JBool(b: bool)
    | JNum(n: int)
    | JStr(s: string)
    | JArr(items: seq<JValue>)
    | JObj(fields: seq<Field>)

  datatype Field = Field(key: string, value: JValue)

  /** A property value: `None` is `undefined`. */
  type Prop = Option<JValue>

  /** `JSON.parse`, which the model takes as a parameter: `None` means the
    * text is not JSON and the call throws a SyntaxError. */
  type Parser = string -> Option<JValue>

  function Str(s: string): Prop
  {
    Some(JStr(s))
  }

  function Obj(fields: seq<Field>): JValue
  {
    JObj(fields)
  }

  /** A value statically known to be an object (a TypeScript object type). */
  type JObject = v: JValue | v.JObj? witness JObj([])

  /** `o.key = v`: an existing property keeps its place, a new one is
    * appended, every other property is untouched. */
  function SetField(fields: seq<Field>, key: string, v: JValue): (r: seq<Field>)
    ensures Lookup(r, key) == Some(v)
    ensures forall k :: k != key ==> Lookup(r, k) == Lookup(fields, k)
    ensures |r| == |fields| + (if Lookup(fields, key).Some? then 0 else 1)
  {
    if |fields| == 0 then [Field(key, v)]
    else if fields[0].key == key then [Field(key, v)] + fields[1..]
    else [fields[0]] + SetField(fields[1..], key, v)
  }

  /** The value of the first property named `key`. */
  function Lookup(fields: seq<Field>, key: string): (r: Prop)
  {
    if |fields| == 0 then None
    else if fields[0].key == key then Some(fields[0].value)
    else Lookup(fields[1..], key)
  }

  /** A property found is the value of the first field with that key. */
  lemma {:induction false} LookupFound(fields: seq<Field>, key: string)
    requires Lookup(fields, key).Some?
    ensures exists i :: 0 <= i < |fields| && fields[i].key == key && fields[i].value == Lookup(fields, key).value
  {
    if fields[0].key != key {
      LookupFound(fields[1..], key);
      var i :| 0 <= i < |fields| - 1 && fields[1..][i].key == key && fields[1..][i].value == Lookup(fields, key).value;
      assert fields[i + 1] == fields[1..][i];
    }
  }

  /** `v?.key` on a value: `undefined` unless `v` is an object holding `key`. */
  function Get(v: JValue, key: string): (r: Prop)
    ensures r.Some? ==> v.JObj?
  {
    if v.JObj? then Lookup(v.fields, key) else None
  }

  /** `p?.key`: optional chaining also absorbs `null` and `undefined`. */
  function OptGet(p: Prop, key: string): (r: Prop)
    ensures Nullish(p) ==> r.None?
  {
    if p.Some? then Get(p.value, key) else None
  }

  /** `p.key`: throws on `null` and `undefined`. */
  function Member(p: Prop, key: string): (r: JsResult<Prop>)
    ensures r.Err? <==> Nullish(p)
    ensures r.Ok? ==> r.value == OptGet(p, key)
  {
    if Nullish(p) then Err(TypeError) else Ok(Get(p.value, key))
  }

  /** `key in p`: only objects (and arrays) may be asked; array index names
    * and `length` are never probed by the modelled code. */
  function In(key: string, p: Prop): (r: JsResult<bool>)
    ensures r.Err? <==> !(p.Some? && (p.value.JObj? || p.value.JArr?))
    ensures r == Ok(true) <==> p.Some? && p.value.JObj? && Lookup(p.value.fields, key).Some?
  {
    if p.Some? && p.value.JObj? then Ok(Lookup(p.value.fields, key).Some?)
    else if p.Some? && p.value.JArr? then Ok(false)
    else Err(TypeError)
  }

  predicate Nullish(p: Prop)
  {
    p.None? || p.value.JNull?
  }

  /** JavaScript truthiness: `undefined`, `null`, `false`, `0` and `""` are falsy. */
  predicate Truthy(p: Prop)
  {
    match p
    case None => false
    case Some(v) =>
      match v
      case JNull => false
      case JBool(b) => b
      case JNum(n) => n != 0
      case JStr(s) => s != ""
      case JArr(_) => true
      case JObj(_) => true
  }

  /** `a ?? b` */
  function Coalesce(a: Prop, b: Prop): (r: Prop)
    ensures !Nullish(a) ==> r == a
    ensures Nullish(a) ==> r == b
  {
    if Nullish(a) then b else a
  }

  /** `a || b` */
  function Or(a: Prop, b: Prop): (r: Prop)
    ensures Truthy(a) ==> r == a
    ensures !Truthy(a) ==> r == b
  {
    if Truthy(a) then a else b
  }

  predicate IsString(p: Prop)
  {
    p.Some? && p.value.JStr?
  }

  predicate IsArray(p: Prop)
  {
    p.Some? && p.value.JArr?
  }

  /** `typeof p === "object"`, which holds for `null`, arrays and objects. */
  predicate IsObjectType(p: Prop)
  {
    p.Some? && (p.value.JNull? || p.value.JArr? || p.value.JObj?)
  }

  /** Strict equality with a string literal. */
  predicate IsStr(p: Prop, s: string)
  {
    p == Some(JStr(s))
  }

  /** `p == s` (loose equality) for a string literal `s` that is not a
    * numeral: a string is equal when it has the same text, an array or an
    * object when its string conversion does; numbers, booleans, `null` and
    * `undefined` never equal such a literal, because it converts to NaN. */
  predicate LooseEqualsText(p: Prop, s: string)
  {
    p.Some? && (p.value.JStr? || p.value.JArr? || p.value.JObj?) && ValueToStr(p.value) == s
  }

  /** `a === b` between JSON values: primitives and `undefined` compare by
    * value; two parsed objects or arrays are never the same object. */
  predicate StrictEquals(a: Prop, b: Prop)
  {
    a == b && (a.None? || !(a.value.JArr? || a.value.JObj?))
  }

  /** The elements of an array, or the TypeError of calling `.map`/`.forEach`
    * on anything else. */
  function Elements(p: Prop): (r: JsResult<seq<JValue>>)
    ensures r.Ok? <==> IsArray(p)
  {
    if IsArray(p) then Ok(p.value.items) else Err(TypeError)
  }

  /** `(p ?? [])` used as an array. */
  function ElementsOrEmpty(p: Prop): (r: JsResult<seq<JValue>>)
    ensures Nullish(p) ==> r == Ok([])
    ensures IsArray(p) ==> r == Ok(p.value.items)
  {
    if Nullish(p) then Ok([]) else Elements(p)
  }

  /** `String(p)` and template-literal interpolation. */
  function ToStr(p: Prop): string
  {
    match p
    case None => "undefined"
    case Some(v) => ValueToStr(v)
  }

  function ValueToStr(v: JValue): string
  {
    match v
    case JNull => "null"
    case JBool(b) => if b then "true" else "false"
    case JNum(n) => IntToString(n)
    case JStr(s) => s
    case JArr(items) => ItemsToStr(items)
    case JObj(_) => "[object Object]"
  }

  /** `Array.prototype.toString`: the elements joined with commas, `null`
    * elements shown as the empty string. */
  function ItemsToStr(items: seq<JValue>): string
  {
    if |items| == 0 then ""
    else
      var head := if items[0].JNull? then "" else ValueToStr(items[0]);
      if |items| == 1 then head else head + "," + ItemsToStr(items[1..])
  }

  /** One element as `Array.prototype.join` shows it. */
  function JoinPiece(p: Prop): (r: string)
    ensures Nullish(p) ==> r == ""
    ensures p.Some? && p.value.JStr? ==> r == p.value.s
  {
    if Nullish(p) then "" else ToStr(p)
  }

  function JoinPieces(ps: seq<Prop>): (r: seq<string>)
    ensures |r| == |ps|
    ensures forall i :: 0 <= i < |ps| ==> r[i] == JoinPiece(ps[i])
  {
    if |ps| == 0 then [] else [JoinPiece(ps[0])] + JoinPieces(ps[1..])
  }

  /** `ps.join(sep)` */
  function JoinProps(ps: seq<Prop>, sep: string): string
  {
    Join(JoinPieces(ps), sep)
  }

  function Somes(vs: seq<JValue>): (r: seq<Prop>)
    ensures |r| == |vs|
    ensures forall i :: 0 <= i < |vs| ==> r[i] == Some(vs[i])
  {
    if |vs| == 0 then [] else [Some(vs[0])] + Somes(vs[1..])
  }

  /** `Object.keys(v)` for objects; arrays and strings list their indices. */
  function ObjectKeys(v: JValue): (r: seq<string>)
    ensures v.JObj? ==> |r| == |v.fields| && forall i :: 0 <= i < |r| ==> r[i] == v.fields[i].key
    ensures v.JArr? ==> |r| == |v.items|
    ensures v.JStr? ==> |r| == |v.s|
  {
    match v
    case JObj(fields) => FieldKeys(fields)
    case JArr(items) => IndexNames(|items|)
    case JStr(s) => IndexNames(|s|)
    case _ => []
  }

  /** `Object.values(v)`: an object's property values in the order stored,
    * an array's elements, a string's characters; nothing for other values. */
  function ObjectValues(v: JValue): (r: seq<JValue>)
    ensures v.JObj? ==> |r| == |v.fields| && forall i :: 0 <= i < |r| ==> r[i] == v.fields[i].value
    ensures v.JArr? ==> r == v.items
    ensures v.JStr? ==> |r| == |v.s| && forall i :: 0 <= i < |r| ==> r[i] == JStr([v.s[i]])
    ensures !(v.JObj? || v.JArr? || v.JStr?) ==> r == []
  {
    match v
    case JObj(fields) => FieldValues(fields)
    case JArr(items) => items
    case JStr(s) => CharValues(s)
    case _ => []
  }

  function FieldValues(fields: seq<Field>): (r: seq<JValue>)
    ensures |r| == |fields| && forall i :: 0 <= i < |r| ==> r[i] == fields[i].value
  {
    if |fields| == 0 then [] else [fields[0].value] + FieldValues(fields[1..])
  }

  function CharValues(s: string): (r: seq<JValue>)
    ensures |r| == |s| && forall i :: 0 <= i < |r| ==> r[i] == JStr([s[i]])
  {
    if |s| == 0 then [] else [JStr([s[0]])] + CharValues(s[1..])
  }

  function FieldKeys(fields: seq<Field>): (r: seq<string>)
    ensures |r| == |fields|
    ensures forall i :: 0 <= i < |r| ==> r[i] == fields[i].key
  {
    if |fields| == 0 then [] else [fields[0].key] + FieldKeys(fields[1..])
  }

  function IndexNames(n: nat): (r: seq<string>)
    ensures |r| == n
    ensures forall i :: 0 <= i < n ==> r[i] == NatToString(i)
  {
    if n == 0 then [] else IndexNames(n - 1) + [NatToString(n - 1)]
  }

  /** `v[k]` for the property name `k` of an object, an array or a string. */
  function Index(v: JValue, k: string): Prop
  {
    match v
    case JObj(fields) => Lookup(fields, k)
    case JArr(items) => ArrayAt(items, k, 0)
    case JStr(s) => StrAt(s, k, 0)
    case _ => None
  }

  /** The element whose index is named `k`, searching from index `from`. */
  function ArrayAt(items: seq<JValue>, k: string, from: nat): (r: Prop)
    ensures r.Some? ==> r.value in items
    decreases |items| - from
  {
    if from >= |items| then None
    else if NatToString(from) == k then Some(items[from])
    else ArrayAt(items, k, from + 1)
  }

  function StrAt(s: string, k: string, from: nat): Prop
    decreases |s| - from
  {
    if from >= |s| then None
    else if NatToString(from) == k then Str([s[from]])
    else StrAt(s, k, from + 1)
  }

  /** Index names are unique, so the name of index `i` denotes element `i`. */
  lemma {:induction false} ArrayAtIndex(items: seq<JValue>, i: nat, from: nat)
    requires from <= i < |items|
    ensures ArrayAt(items, NatToString(i), from) == Some(items[i])
    decreases i - from
  {
    if from < i {
      if NatToString(from) == NatToString(i) {
        NatToStringInjective(from, i);
      }
      ArrayAtIndex(items, i, from + 1);
    }
  }

  /** The search `String.prototype.match` performs for a pattern without
    * the global flag: the value at the leftmost position from `k` up to
    * `n` where the pattern, tried by `m`, matches. */
  function Leftmost<T>(m: nat -> Option<T>, k: nat, n: nat): Option<T>
    decreases n + 1 - k
  {
    if k > n then None
    else if m(k).Some? then m(k)
    else Leftmost(m, k + 1, n)
  }

  /** The value found comes from a position with no match before it, and
    * there is none exactly when no position matches. */
  lemma {:induction false} LeftmostFirst<T>(m: nat -> Option<T>, k: nat, n: nat)
    ensures Leftmost(m, k, n).Some? ==>
      exists i :: k <= i <= n && m(i) == Leftmost(m, k, n) && forall j :: k <= j < i ==> m(j).None?
    ensures Leftmost(m, k, n).None? <==> forall i :: k <= i <= n ==> m(i).None?
    decreases n + 1 - k
  {
    if k <= n && m(k).None? {
      LeftmostFirst(m, k + 1, n);
      if Leftmost(m, k, n).Some? {
        var i :| k + 1 <= i <= n && m(i) == Leftmost(m, k, n) && forall j :: k + 1 <= j < i ==> m(j).None?;
        assert forall j :: k <= j < i ==> m(j).None?;
      }
    }
  }

  /** The search finds the first position that matches. */
  lemma {:induction false} LeftmostAt<T>(m: nat -> Option<T>, k: nat, i: nat, n: nat)
    requires i <= k <= n && m(k).Some?
    requires forall j :: i <= j < k ==> m(j).None?
    ensures Leftmost(m, i, n) == m(k)
    decreases k - i
  {
    if i < k {
      LeftmostAt(m, k, i + 1, n);
    }
  }
}
