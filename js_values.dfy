/**
  The slice of JavaScript's value semantics that the schema validator and the
  model factory depend on: the values a caller passes, `typeof`, truthiness,
  ASCII case conversion, and plain objects seen as ordered lists of own
  properties (enumeration order is list order).
 */
module JsValues {

  datatype Option<T> = None | Some(value: T)

  /** A check that either passes or throws an Error carrying `message`. */
  datatype Outcome = Pass | Fail(message: string)

  /** A computed value, or the message of the Error thrown instead. */
  datatype Result<T> = Ok(value: T) | Err(message: string)

  type Key = string

  /** JSON-like JavaScript values; `Obj` holds its own properties in enumeration order. */
  datatype Value =
    | Str(s: string)
    | Num(n: real)
    | Bool(b: bool)
    | Null
    | Undefined
    | Obj(props: seq<(Key, Value)>)
    | Arr(items: seq<Value>)

  type Props = seq<(Key, Value)>

  /** One schema entry's descriptor `{type, required?, default?}`; an absent
      `required` is `false`, an absent `default` is `Undefined`. */
  datatype FieldSpec = FieldSpec(typ: string, required: bool, default: Value)

  type Schema = seq<(Key, FieldSpec)>

  /** The JavaScript `typeof` operator on the modelled values. */
  function TypeOf(v: Value): (t: string)
    ensures t == "undefined" <==> v.Undefined?
    ensures t == "object" <==> v.Null? || v.Obj? || v.Arr?
    ensures t != "array"
  {
    match v
    case Str(_) => "string"
    case Num(_) => "number"
    case Bool(_) => "boolean"
    case Null => "object"
    case Undefined => "undefined"
    case Obj(_) => "object"
    case Arr(_) => "object"
  }

  /** JavaScript truthiness: `""`, `0`, `false`, `null` and `undefined` are falsy. */
  predicate Truthy(v: Value)
    ensures Truthy(v) <==> v !in {Str(""), Num(0.0), Bool(false), Null, Undefined}
  {
    match v
    case Str(s) => s != ""
    case Num(n) => n != 0.0
    case Bool(b) => b
    case Null => false
    case Undefined => false
    case Obj(_) => true
    case Arr(_) => true
  }

  /** `String.prototype.toUpperCase` on one character, for ASCII letters. */
  function UpperChar(c: char): char {
    if 'a' <= c <= 'z' then (c as int - 32) as char else c
  }

  /** `String.prototype.toLowerCase` on one character, for ASCII letters. */
  function LowerChar(c: char): char {
    if 'A' <= c <= 'Z' then (c as int + 32) as char else c
  }

  function ToLowerCase(s: string): (r: string)
    ensures |r| == |s|
    ensures forall i :: 0 <= i < |s| ==> r[i] == LowerChar(s[i])
  {
    seq(|s|, i requires 0 <= i < |s| => LowerChar(s[i]))
  }

  /** Position of the first property named `k` at or after `i`, or `|s|` if there is none. */
  function IndexFrom<V>(s: seq<(Key, V)>, k: Key, i: nat): (r: nat)
    requires i <= |s|
    ensures i <= r <= |s|
    ensures r < |s| ==> s[r].0 == k
    ensures forall j :: i <= j < r ==> s[j].0 != k
    decreases |s| - i
  {
    if i == |s| || s[i].0 == k then i else IndexFrom(s, k, i + 1)
  }

  function IndexOf<V>(s: seq<(Key, V)>, k: Key): nat {
    IndexFrom(s, k, 0)
  }

  /** `obj.hasOwnProperty(k)`. */
  predicate HasKey<V>(s: seq<(Key, V)>, k: Key) {
    IndexOf(s, k) < |s|
  }

  /** `obj[k]`: the property's value, `undefined` when there is no such property. */
  function Get(s: Props, k: Key): Value {
    var i := IndexOf(s, k);
    if i < |s| then s[i].1 else Undefined
  }

  /** `obj[k] = v`: an existing property keeps its place, a new one goes last. */
  function SetProp(s: Props, k: Key, v: Value): (r: Props)
    ensures HasKey(s, k) ==> |r| == |s| && r[IndexOf(s, k)] == (k, v)
    ensures !HasKey(s, k) ==> r == s + [(k, v)]
  {
    var i := IndexOf(s, k);
    if i < |s| then s[i := (k, v)] else s + [(k, v)]
  }

  /** After `obj[k] = v`, reading `k` gives `v`, every other key reads as
      before, and the owned keys are the old ones and `k`. */
  lemma SetPropReads(s: Props, k: Key, v: Value, k': Key)
    ensures Get(SetProp(s, k, v), k') == if k' == k then v else Get(s, k')
    ensures HasKey(SetProp(s, k, v), k') <==> k' == k || HasKey(s, k')
  {
    var r := SetProp(s, k, v);
    var i := IndexOf(s, k);
    if k' == k {
      IndexUnique(r, k, i);
    } else if HasKey(s, k') {
      IndexUnique(r, k', IndexOf(s, k'));
    } else {
      IndexUnique(r, k', |r|);
    }
  }

  /** The first position holding `k` is determined by the positions before it. */
  lemma IndexUnique<V>(s: seq<(Key, V)>, k: Key, i: nat)
    requires i <= |s|
    requires i < |s| ==> s[i].0 == k
    requires forall j :: 0 <= j < i ==> s[j].0 != k
    ensures IndexOf(s, k) == i
  {
  }

  predicate DistinctKeys<V>(s: seq<(Key, V)>) {
    forall i, j :: 0 <= i < j < |s| ==> s[i].0 != s[j].0
  }

  /** With distinct keys, a property found at position `i` is the one `Get` returns. */
  lemma GetAt(s: Props, i: nat)
    requires DistinctKeys(s) && i < |s|
    ensures HasKey(s, s[i].0) && Get(s, s[i].0) == s[i].1
  {
    IndexUnique(s, s[i].0, i);
  }

  lemma HasKeyAt<V>(s: seq<(Key, V)>, i: nat)
    requires i < |s|
    ensures HasKey(s, s[i].0)
  {
  }
}
