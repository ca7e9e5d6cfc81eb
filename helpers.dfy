/**
  src/tools/helpers.ts: `Capitalize`, which upper-cases the first character of a
  model name for error messages, and `keysComparator`, which checks a candidate
  object against a schema in two passes and throws on the first violation:
  first an unknown-key pass in candidate order, then a type pass in schema order.
 */
module Helpers {
  import opened JsValues

  // ---------------------------------------------------------------------------
  // Capitalize

  /** The string `Capitalize` returns: the first character upper-cased, the rest as given. */
  function Capitalized(s: string): (r: string)
    ensures |r| == |s|
    ensures |s| > 0 ==> r[0] == UpperChar(s[0])
    ensures forall i :: 0 < i < |s| ==> r[i] == s[i]
  {
    if |s| == 0 then s else [UpperChar(s[0])] + s[1..]
  }

  /** `Capitalize` as written: split into an array, overwrite slot 0, join. */
  method Capitalize(s: string) returns (r: string)
    ensures r == Capitalized(s)
  {
    var arr := new char[|s|](i requires 0 <= i < |s| => s[i]);
    if arr.Length > 0 {
      arr[0] := UpperChar(arr[0]);
    }
    r := arr[..];
  }

  lemma CapitalizeEmpty()
    ensures Capitalized("") == ""
  {
  }

  lemma CapitalizeUser()
    ensures Capitalized("user") == "User"
  {
  }

  /** Capitalizing twice is capitalizing once. */
  lemma CapitalizeIdempotent(s: string)
    ensures Capitalized(Capitalized(s)) == Capitalized(s)
  {
  }

  // ---------------------------------------------------------------------------
  // keysComparator

  /** The unknown-key error: names the key, then the capitalized model name. */
  function UnknownKeyMessage(key: Key, modelName: string): (r: string)
    ensures |r| == 35 + |key| + |modelName|
    ensures r[..10] == "Property \"" && r[10..10 + |key|] == key
    ensures r[10 + |key|..35 + |key|] == "\" does not exist on type "
    ensures r[35 + |key|..] == Capitalized(modelName)
  {
    "Property \"" + key + "\" does not exist on type " + Capitalized(modelName)
  }

  /** The type error: names the key, the declared type and the actual `typeof`, each quoted. */
  function TypeMismatchMessage(key: Key, expected: string, actual: string): (r: string)
    ensures var k, e := |key|, |expected|;
      |r| == 40 + k + e + |actual|
      && r[..10] == "Property \"" && r[10..10 + k] == key
      && r[10 + k..23 + k] == "\" should be \"" && r[23 + k..23 + k + e] == expected
      && r[23 + k + e..39 + k + e] == "\" type but got \"" && r[39 + k + e..|r| - 1] == actual
      && r[|r| - 1] == '"'
  {
    "Property \"" + key + "\" should be \"" + expected + "\" type but got \"" + actual + "\""
  }

  /** A schema entry whose key the candidate has, with a value of another `typeof`. */
  predicate Mismatch(entry: (Key, FieldSpec), cand: Props) {
    HasKey(cand, entry.0) && entry.1.typ != TypeOf(Get(cand, entry.0))
  }

  /** Every candidate key is a schema key. */
  predicate AllKnown(schema: Schema, cand: Props) {
    forall j :: 0 <= j < |cand| ==> HasKey(schema, cand[j].0)
  }

  /** Every shared key's value has the `typeof` the schema declares. */
  predicate AllTyped(schema: Schema, cand: Props) {
    forall j :: 0 <= j < |schema| ==> !Mismatch(schema[j], cand)
  }

  /** Position, in candidate order from `i`, of the first key the schema lacks (`|cand|` if none). */
  function FirstUnknown(schema: Schema, cand: Props, i: nat): (r: nat)
    requires i <= |cand|
    ensures i <= r <= |cand|
    ensures forall j :: i <= j < r ==> HasKey(schema, cand[j].0)
    ensures r < |cand| ==> !HasKey(schema, cand[r].0)
    decreases |cand| - i
  {
    if i == |cand| || !HasKey(schema, cand[i].0) then i else FirstUnknown(schema, cand, i + 1)
  }

  /** Position, in schema order from `i`, of the first mismatching entry (`|schema|` if none). */
  function FirstMismatch(schema: Schema, cand: Props, i: nat): (r: nat)
    requires i <= |schema|
    ensures i <= r <= |schema|
    ensures forall j :: i <= j < r ==> !Mismatch(schema[j], cand)
    ensures r < |schema| ==> Mismatch(schema[r], cand)
    decreases |schema| - i
  {
    if i == |schema| || Mismatch(schema[i], cand) then i else FirstMismatch(schema, cand, i + 1)
  }

  /** What `keysComparator(schema, cand, modelName)` does: return, or throw this message. */
  function KeysVerdict(schema: Schema, cand: Props, modelName: string): (r: Outcome)
    ensures r.Pass? <==> AllKnown(schema, cand) && AllTyped(schema, cand)
  {
    var u := FirstUnknown(schema, cand, 0);
    if u < |cand| then
      Fail(UnknownKeyMessage(cand[u].0, modelName))
    else
      var t := FirstMismatch(schema, cand, 0);
      if t < |schema| then
        Fail(TypeMismatchMessage(schema[t].0, schema[t].1.typ, TypeOf(Get(cand, schema[t].0))))
      else
        Pass
  }

  /** `keysComparator` as written: two loops, each leaving at its first violation. */
  method KeysComparator(schema: Schema, cand: Props, modelName: string) returns (r: Outcome)
    ensures r == KeysVerdict(schema, cand, modelName)
  {
    var i := 0;
    while i < |cand|
      invariant 0 <= i <= |cand|
      invariant FirstUnknown(schema, cand, i) == FirstUnknown(schema, cand, 0)
    {
      var key := cand[i].0;
      if !HasKey(schema, key) {
        var name := Capitalize(modelName);
        return Fail("Property \"" + key + "\" does not exist on type " + name);
      }
      i := i + 1;
    }
    var j := 0;
    while j < |schema|
      invariant 0 <= j <= |schema|
      invariant FirstMismatch(schema, cand, j) == FirstMismatch(schema, cand, 0)
    {
      var key := schema[j].0;
      if HasKey(cand, key) {
        var actual := TypeOf(Get(cand, key));
        if schema[j].1.typ != actual {
          return Fail(TypeMismatchMessage(key, schema[j].1.typ, actual));
        }
      }
      j := j + 1;
    }
    return Pass;
  }

  /** An empty candidate always passes. */
  lemma EmptyCandidatePasses(schema: Schema, modelName: string)
    ensures KeysVerdict(schema, [], modelName) == Pass
  {
  }

  /** An unknown key is reported, for the first such key in candidate order,
      whatever type mismatches the candidate also has. */
  lemma UnknownKeyReportedFirst(schema: Schema, cand: Props, modelName: string, i: nat)
    requires i < |cand| && !HasKey(schema, cand[i].0)
    requires forall j :: 0 <= j < i ==> HasKey(schema, cand[j].0)
    ensures KeysVerdict(schema, cand, modelName)
         == Fail("Property \"" + cand[i].0 + "\" does not exist on type " + Capitalized(modelName))
  {
    assert FirstUnknown(schema, cand, 0) == i;
  }

  /** With every key known, the first mismatching schema entry in schema order is
      reported, with the declared type and the actual `typeof`. */
  lemma TypeMismatchReported(schema: Schema, cand: Props, modelName: string, i: nat)
    requires AllKnown(schema, cand)
    requires i < |schema| && Mismatch(schema[i], cand)
    requires forall j :: 0 <= j < i ==> !Mismatch(schema[j], cand)
    ensures KeysVerdict(schema, cand, modelName)
         == Fail("Property \"" + schema[i].0 + "\" should be \"" + schema[i].1.typ
                 + "\" type but got \"" + TypeOf(Get(cand, schema[i].0)) + "\"")
  {
    assert FirstUnknown(schema, cand, 0) == |cand|;
    assert FirstMismatch(schema, cand, 0) == i;
  }

  /** A schema field declared `"array"` rejects every value given for it:
      `typeof` never yields `"array"`. */
  lemma ArrayTypeNeverMatches(schema: Schema, cand: Props, modelName: string, i: nat)
    requires i < |schema| && schema[i].1.typ == "array" && HasKey(cand, schema[i].0)
    ensures KeysVerdict(schema, cand, modelName).Fail?
  {
    assert Mismatch(schema[i], cand);
  }
}
