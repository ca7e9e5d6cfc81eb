/**
  index.ts, `Model(modelName, schema)`: the derived collection name, the entity
  constructor `objectCreator` (required-field check, then `keysComparator`,
  then property assignment on `this`), and the static queries, which validate
  their filter or update before the token is read and a request is made.
  The identifier provider, the clock and the token file are parameters.
 */
module ModelFactory {
  import opened JsValues
  import opened Helpers
  import Gateway

  /** The pair a call of `Model` closes over. */
  datatype Model = Model(modelName: string, schema: Schema)

  // ---------------------------------------------------------------------------
  // Collection name

  predicate EndsWithLowerS(s: string) {
    |s| > 0 && s[|s| - 1] == 's'
  }

  /** The lower-cased name followed by `"es"` when the name as given ends in `'s'`, else `"s"`. */
  function CollectionName(modelName: string): (r: string)
    ensures |r| == |modelName| + (if EndsWithLowerS(modelName) then 2 else 1)
    ensures r[..|modelName|] == ToLowerCase(modelName)
    ensures r[|r| - 1] == 's'
    ensures EndsWithLowerS(modelName) ==> r[|r| - 2] == 'e'
  {
    ToLowerCase(modelName) + (if EndsWithLowerS(modelName) then "es" else "s")
  }

  lemma CollectionNameExamples()
    ensures CollectionName("User") == "users"
    ensures CollectionName("Bus") == "buses"
    ensures CollectionName("city") == "citys"
    ensures CollectionName("BUS") == "buss"
    ensures CollectionName("") == "s"
  {
    assert ToLowerCase("User") == "user";
    assert ToLowerCase("Bus") == "bus";
    assert ToLowerCase("city") == "city";
    assert ToLowerCase("BUS") == "bus";
  }

  // ---------------------------------------------------------------------------
  // Construction checks

  /** The missing-field error: names the key, then the capitalized model name. */
  function RequiredMessage(key: Key, modelName: string): (r: string)
    ensures |r| == 32 + |key| + |modelName|
    ensures r[..10] == "Property \"" && r[10..10 + |key|] == key
    ensures r[10 + |key|..32 + |key|] == "\" is required on type "
    ensures r[32 + |key|..] == Capitalized(modelName)
  {
    "Property \"" + key + "\" is required on type " + Capitalized(modelName)
  }

  /** A required schema entry that the options do not own. */
  predicate MissingRequired(entry: (Key, FieldSpec), options: Props) {
    entry.1.required && !HasKey(options, entry.0)
  }

  predicate RequiredPresent(schema: Schema, options: Props) {
    forall j :: 0 <= j < |schema| ==> !MissingRequired(schema[j], options)
  }

  /** Position, in schema order from `i`, of the first missing required entry (`|schema|` if none). */
  function FirstMissing(schema: Schema, options: Props, i: nat): (r: nat)
    requires i <= |schema|
    ensures i <= r <= |schema|
    ensures forall j :: i <= j < r ==> !MissingRequired(schema[j], options)
    ensures r < |schema| ==> MissingRequired(schema[r], options)
    decreases |schema| - i
  {
    if i == |schema| || MissingRequired(schema[i], options) then i else FirstMissing(schema, options, i + 1)
  }

  /** Whether `new objectCreator(options)` gets past its checks, or the message it throws. */
  function ConstructionVerdict(schema: Schema, options: Props, modelName: string): (r: Outcome)
    ensures r.Pass? <==> RequiredPresent(schema, options) && AllKnown(schema, options) && AllTyped(schema, options)
  {
    var m := FirstMissing(schema, options, 0);
    if m < |schema| then Fail(RequiredMessage(schema[m].0, modelName))
    else KeysVerdict(schema, options, modelName)
  }

  /** A missing required field is reported, for the first one in schema order,
      before anything the key and type checks would report. */
  lemma RequiredReportedFirst(schema: Schema, options: Props, modelName: string, i: nat)
    requires i < |schema| && MissingRequired(schema[i], options)
    requires forall j :: 0 <= j < i ==> !MissingRequired(schema[j], options)
    ensures ConstructionVerdict(schema, options, modelName)
         == Fail("Property \"" + schema[i].0 + "\" is required on type " + Capitalized(modelName))
  {
  }

  /** Once every required field is present, construction fails exactly as `keysComparator` does. */
  lemma ConstructionDefersToKeys(schema: Schema, options: Props, modelName: string)
    requires RequiredPresent(schema, options)
    ensures ConstructionVerdict(schema, options, modelName) == KeysVerdict(schema, options, modelName)
  {
  }

  // ---------------------------------------------------------------------------
  // Property assignment

  /** `option || default || null`, with JavaScript truthiness. */
  function FieldValue(option: Value, default: Value): (r: Value)
    ensures Truthy(r) || r == Null
    ensures Truthy(r) ==> r == option || r == default
    ensures Truthy(option) ==> r == option
  {
    if Truthy(option) then option else if Truthy(default) then default else Null
  }

  /** A falsy option (`0`, `""`, `false`, `null`, `undefined`) is treated as if it
      were absent: the field takes the default, or `null`. */
  lemma FalsyOptionIgnored(option: Value, default: Value)
    requires !Truthy(option)
    ensures FieldValue(option, default) == FieldValue(Undefined, default)
    ensures FieldValue(option, default) == if Truthy(default) then default else Null
  {
  }

  /** The properties `objectCreator` sets before the schema fields: the provided
      id, the clock reading and `null`, as three distinct own properties in that order. */
  function Base(id: string, now: int): (r: Props)
    ensures |r| == 3 && DistinctKeys(r)
    ensures r[0].0 == "_id" && r[1].0 == "_creationDate" && r[2].0 == "_updatingDate"
    ensures Get(r, "_id") == Str(id) && Get(r, "_creationDate") == Num(now as real)
    ensures Get(r, "_updatingDate") == Null
  {
    var r := [("_id", Str(id)), ("_creationDate", Num(now as real)), ("_updatingDate", Null)];
    GetAt(r, 0);
    GetAt(r, 1);
    GetAt(r, 2);
    r
  }

  /** `props` after the assignment loop has handled the first `n` schema entries:
      the properties already there keep their places, and at most `n` are added. */
  function Assigned(schema: Schema, options: Props, props: Props, n: nat): (r: Props)
    requires n <= |schema|
    ensures |props| <= |r| <= |props| + n
    ensures forall i :: 0 <= i < |props| ==> r[i].0 == props[i].0
  {
    if n == 0 then props
    else
      var e := schema[n - 1];
      SetProp(Assigned(schema, options, props, n - 1), e.0, FieldValue(Get(options, e.0), e.1.default))
  }

  /** Assigning the three bookkeeping properties to an empty object gives `Base`. */
  lemma BaseAssigned(id: string, now: int)
    ensures SetProp(SetProp(SetProp([], "_id", Str(id)), "_creationDate", Num(now as real)), "_updatingDate", Null)
         == Base(id, now)
  {
    var p1 := SetProp([], "_id", Str(id));
    assert p1 == [("_id", Str(id))];
    IndexUnique(p1, "_creationDate", 1);
    var p2 := SetProp(p1, "_creationDate", Num(now as real));
    assert p2 == [("_id", Str(id)), ("_creationDate", Num(now as real))];
    IndexUnique(p2, "_updatingDate", 2);
  }

  /** The own properties of a successfully constructed entity: `_id`,
      `_creationDate` and `_updatingDate` come first in enumeration order, followed
      by at most one property per schema entry. */
  function Constructed(schema: Schema, options: Props, id: string, now: int): (r: Props)
    ensures 3 <= |r| <= 3 + |schema|
    ensures r[0].0 == "_id" && r[1].0 == "_creationDate" && r[2].0 == "_updatingDate"
  {
    Assigned(schema, options, Base(id, now), |schema|)
  }

  lemma {:induction false} AssignedField(schema: Schema, options: Props, props: Props, n: nat, j: nat)
    requires DistinctKeys(schema) && j < n <= |schema|
    ensures Get(Assigned(schema, options, props, n), schema[j].0)
         == FieldValue(Get(options, schema[j].0), schema[j].1.default)
  {
    var e := schema[n - 1];
    SetPropReads(Assigned(schema, options, props, n - 1), e.0, FieldValue(Get(options, e.0), e.1.default), schema[j].0);
    if j < n - 1 {
      AssignedField(schema, options, props, n - 1, j);
    }
  }

  lemma {:induction false} AssignedOther(schema: Schema, options: Props, props: Props, n: nat, k: Key)
    requires n <= |schema|
    requires forall j :: 0 <= j < n ==> schema[j].0 != k
    ensures Get(Assigned(schema, options, props, n), k) == Get(props, k)
  {
    if n > 0 {
      var e := schema[n - 1];
      SetPropReads(Assigned(schema, options, props, n - 1), e.0, FieldValue(Get(options, e.0), e.1.default), k);
      AssignedOther(schema, options, props, n - 1, k);
    }
  }

  /** Some of the first `n` schema entries has key `k`. */
  predicate KeyBefore(schema: Schema, k: Key, n: nat)
    requires n <= |schema|
  {
    n > 0 && (schema[n - 1].0 == k || KeyBefore(schema, k, n - 1))
  }

  lemma {:induction false} KeyBeforeAll(schema: Schema, k: Key, n: nat)
    requires n <= |schema|
    ensures KeyBefore(schema, k, n) <==> exists j :: 0 <= j < n && schema[j].0 == k
  {
    if n > 0 {
      KeyBeforeAll(schema, k, n - 1);
      if schema[n - 1].0 == k {
        assert exists j :: 0 <= j < n && schema[j].0 == k;
      }
    }
  }

  lemma {:induction false} AssignedKeys(schema: Schema, options: Props, props: Props, n: nat, k: Key)
    requires n <= |schema|
    ensures HasKey(Assigned(schema, options, props, n), k) <==> HasKey(props, k) || KeyBefore(schema, k, n)
  {
    if n > 0 {
      var e := schema[n - 1];
      SetPropReads(Assigned(schema, options, props, n - 1), e.0, FieldValue(Get(options, e.0), e.1.default), k);
      AssignedKeys(schema, options, props, n - 1, k);
    }
  }

  /** A constructed entity owns exactly the three bookkeeping properties and the
      schema's fields; each field holds `options[key] || default || null`; the
      bookkeeping properties hold the provided id, the clock reading and `null`
      unless the schema declares a field of the same name, which then wins. */
  lemma ConstructedEntity(schema: Schema, options: Props, id: string, now: int)
    requires DistinctKeys(schema)
    ensures forall j :: 0 <= j < |schema| ==>
      Get(Constructed(schema, options, id, now), schema[j].0)
        == FieldValue(Get(options, schema[j].0), schema[j].1.default)
    ensures !HasKey(schema, "_id") ==> Get(Constructed(schema, options, id, now), "_id") == Str(id)
    ensures !HasKey(schema, "_creationDate") ==>
      Get(Constructed(schema, options, id, now), "_creationDate") == Num(now as real)
    ensures !HasKey(schema, "_updatingDate") ==>
      Get(Constructed(schema, options, id, now), "_updatingDate") == Null
    ensures forall k :: (HasKey(Constructed(schema, options, id, now), k)
                         <==> k == "_id" || k == "_creationDate" || k == "_updatingDate" || HasKey(schema, k))
  {
    var c := Constructed(schema, options, id, now);
    forall j | 0 <= j < |schema|
      ensures Get(c, schema[j].0) == FieldValue(Get(options, schema[j].0), schema[j].1.default)
    {
      AssignedField(schema, options, Base(id, now), |schema|, j);
    }
    forall k | !HasKey(schema, k)
      ensures Get(c, k) == Get(Base(id, now), k)
    {
      AssignedOther(schema, options, Base(id, now), |schema|, k);
    }
    GetAt(Base(id, now), 0);
    GetAt(Base(id, now), 1);
    GetAt(Base(id, now), 2);
    forall k
      ensures HasKey(c, k) <==> k == "_id" || k == "_creationDate" || k == "_updatingDate" || HasKey(schema, k)
    {
      AssignedKeys(schema, options, Base(id, now), |schema|, k);
      KeyBeforeAll(schema, k, |schema|);
      if HasKey(schema, k) {
        HasKeyAt(schema, IndexOf(schema, k));
      }
    }
  }

  /** Options that hold every required field, no unknown key and only correctly
      typed values construct; every schema field they leave out takes its
      default when that is truthy, else `null`. */
  lemma ValidOptionsConstruct(schema: Schema, options: Props, modelName: string, id: string, now: int)
    requires DistinctKeys(schema)
    requires RequiredPresent(schema, options) && AllKnown(schema, options) && AllTyped(schema, options)
    ensures ConstructionVerdict(schema, options, modelName) == Pass
    ensures forall j :: 0 <= j < |schema| && !HasKey(options, schema[j].0) ==>
      Get(Constructed(schema, options, id, now), schema[j].0)
        == if Truthy(schema[j].1.default) then schema[j].1.default else Null
  {
    ConstructedEntity(schema, options, id, now);
  }

  function AnnSchema(): Schema {
    [("name", FieldSpec("string", true, Undefined)), ("age", FieldSpec("number", false, Num(0.0)))]
  }

  /** Example: `{name: "Ann"}` passes the checks of a schema with a
      required string `name` and a number `age` whose default is `0`. */
  lemma AnnAccepted()
    ensures ConstructionVerdict(AnnSchema(), [("name", Str("Ann"))], "user") == Pass
  {
    var schema, options := AnnSchema(), [("name", Str("Ann"))];
    IndexUnique(options, "name", 0);
    IndexUnique(options, "age", 1);
    IndexUnique(schema, "name", 0);
    assert !Mismatch(schema[0], options) && !Mismatch(schema[1], options);
    assert RequiredPresent(schema, options);
  }

  /** ... and the entity has `name` `"Ann"`, the provided `_id`, `_updatingDate`
      `null`, and `age` `null`, not `0`, because `0` is falsy. */
  lemma AnnExample(schema: Schema, options: Props, id: string, now: int)
    requires schema == AnnSchema() && options == [("name", Str("Ann"))]
    ensures Get(Constructed(schema, options, id, now), "name") == Str("Ann")
    ensures Get(Constructed(schema, options, id, now), "age") == Null
    ensures Get(Constructed(schema, options, id, now), "_id") == Str(id)
    ensures Get(Constructed(schema, options, id, now), "_updatingDate") == Null
  {
    IndexUnique(options, "name", 0);
    IndexUnique(options, "age", 1);
    AssignedField(schema, options, Base(id, now), 2, 0);
    AssignedField(schema, options, Base(id, now), 2, 1);
    AssignedOther(schema, options, Base(id, now), 2, "_id");
    AssignedOther(schema, options, Base(id, now), 2, "_updatingDate");
    GetAt(Base(id, now), 0);
    GetAt(Base(id, now), 2);
  }

  /** An explicit `age: 0` is overridden by a truthy default: `0 || 18` is `18`. */
  lemma ZeroOptionExample(schema: Schema, options: Props, id: string, now: int)
    requires schema == [("name", FieldSpec("string", true, Undefined)), ("age", FieldSpec("number", false, Num(18.0)))]
    requires options == [("name", Str("Ann")), ("age", Num(0.0))]
    ensures ConstructionVerdict(schema, options, "user") == Pass
    ensures Get(Constructed(schema, options, id, now), "age") == Num(18.0)
  {
    IndexUnique(options, "name", 0);
    IndexUnique(options, "age", 1);
    IndexUnique(schema, "name", 0);
    IndexUnique(schema, "age", 1);
    assert !Mismatch(schema[0], options) && !Mismatch(schema[1], options);
    AssignedField(schema, options, Base(id, now), 2, 1);
  }

  // ---------------------------------------------------------------------------
  // The entity under construction: JavaScript's `this`

  /** An entity object; `props` are its own properties in insertion order
      (the `save` method property is not modelled). */
  class Document {
    var props: Props

    constructor ()
      ensures props == []
    {
      props := [];
    }

    /** `this[k] = v`. */
    method Assign(k: Key, v: Value)
      modifies this
      ensures props == SetProp(old(props), k, v)
    {
      props := SetProp(props, k, v);
    }

    /** The loop `for (key in schema) this[key] = options[key] || schema[key].default || null`. */
    method AssignFields(schema: Schema, options: Props)
      modifies this
      ensures props == Assigned(schema, options, old(props), |schema|)
    {
      ghost var start := props;
      var j := 0;
      while j < |schema|
        invariant 0 <= j <= |schema|
        invariant props == Assigned(schema, options, start, j)
      {
        var key := schema[j].0;
        Assign(key, FieldValue(Get(options, key), schema[j].1.default));
        j := j + 1;
      }
    }
  }

  /** `new objectCreator(options)`, with `idGenerator()` as `newId` and `Date.now()` as `now`. */
  method ObjectCreator(model: Model, options: Props, newId: string, now: int) returns (r: Result<Document>)
    ensures r.Err? <==> ConstructionVerdict(model.schema, options, model.modelName).Fail?
    ensures r.Err? ==> r.message == ConstructionVerdict(model.schema, options, model.modelName).message
    ensures r.Ok? ==> fresh(r.value) && r.value.props == Constructed(model.schema, options, newId, now)
  {
    var self := new Document();
    var schema := model.schema;
    var i := 0;
    while i < |schema|
      invariant 0 <= i <= |schema|
      invariant FirstMissing(schema, options, i) == FirstMissing(schema, options, 0)
    {
      var key := schema[i].0;
      if schema[i].1.required && !HasKey(options, key) {
        var name := Capitalize(model.modelName);
        return Err("Property \"" + key + "\" is required on type " + name);
      }
      i := i + 1;
    }
    var check := KeysComparator(schema, options, model.modelName);
    if check.Fail? {
      return Err(check.message);
    }
    self.Assign("_id", Str(newId));
    self.Assign("_creationDate", Num(now as real));
    self.Assign("_updatingDate", Null);
    BaseAssigned(newId, now);
    self.AssignFields(schema, options);
    return Ok(self);
  }

  // ---------------------------------------------------------------------------
  // Static queries

  /** The `if (x) keysComparator(schema, x, modelName)` guard: an absent filter or update skips it. */
  function Validate(model: Model, candidate: Option<Props>): (r: Outcome)
    ensures candidate.None? ==> r == Pass
    ensures candidate.Some? ==> r == KeysVerdict(model.schema, candidate.value, model.modelName)
  {
    if candidate.Some? then KeysVerdict(model.schema, candidate.value, model.modelName) else Pass
  }

  /** The request built from the token: reached only when validation passed. */
  function Guarded(check: Outcome, request: Gateway.Request): (r: Result<Gateway.Request>)
    ensures check.Fail? ==> r == Err(check.message)
    ensures check.Pass? ==> r == Ok(request)
  {
    match check
    case Fail(msg) => Err(msg)
    case Pass => Ok(request)
  }

  /** `find(filter?)`. */
  function Find(model: Model, filter: Option<Props>, token: string): (r: Result<Gateway.Request>)
    ensures r.Err? <==> filter.Some? && KeysVerdict(model.schema, filter.value, model.modelName).Fail?
    ensures r.Err? ==> r.message == KeysVerdict(model.schema, filter.value, model.modelName).message
    ensures r.Ok? ==> (r.value.endpoint == Gateway.Find && r.value.token == token
                       && r.value.collectionName == CollectionName(model.modelName)
                       && r.value.filter == filter && r.value.itemId.None? && r.value.update.None?)
  {
    Guarded(Validate(model, filter),
            Gateway.Request(Gateway.Find, token, CollectionName(model.modelName), filter, None, None))
  }

  /** `findById(id)`: no validation. */
  function FindById(model: Model, id: string, token: string): (r: Result<Gateway.Request>)
    ensures r.Ok?
    ensures r.value.endpoint == Gateway.FindById && r.value.token == token
         && r.value.collectionName == CollectionName(model.modelName)
         && r.value.itemId == Some(id) && r.value.filter.None? && r.value.update.None?
  {
    Ok(Gateway.Request(Gateway.FindById, token, CollectionName(model.modelName), None, Some(id), None))
  }

  /** `findOne(filter)`. */
  function FindOne(model: Model, filter: Option<Props>, token: string): (r: Result<Gateway.Request>)
    ensures r.Err? <==> filter.Some? && KeysVerdict(model.schema, filter.value, model.modelName).Fail?
    ensures r.Err? ==> r.message == KeysVerdict(model.schema, filter.value, model.modelName).message
    ensures r.Ok? ==> (r.value.endpoint == Gateway.FindOne && r.value.token == token
                       && r.value.collectionName == CollectionName(model.modelName)
                       && r.value.filter == filter && r.value.itemId.None? && r.value.update.None?)
  {
    Guarded(Validate(model, filter),
            Gateway.Request(Gateway.FindOne, token, CollectionName(model.modelName), filter, None, None))
  }

  /** `findByIdAndUpdate(id, update)`. */
  function FindByIdAndUpdate(model: Model, id: string, update: Option<Props>, token: string)
    : (r: Result<Gateway.Request>)
    ensures r.Err? <==> update.Some? && KeysVerdict(model.schema, update.value, model.modelName).Fail?
    ensures r.Err? ==> r.message == KeysVerdict(model.schema, update.value, model.modelName).message
    ensures r.Ok? ==> (r.value.endpoint == Gateway.FindByIdAndUpdate && r.value.token == token
                       && r.value.collectionName == CollectionName(model.modelName)
                       && r.value.itemId == Some(id) && r.value.update == update && r.value.filter.None?)
  {
    Guarded(Validate(model, update),
            Gateway.Request(Gateway.FindByIdAndUpdate, token, CollectionName(model.modelName), None, Some(id), update))
  }

  /** `findByIdAndDelete(id)`: no validation. */
  function FindByIdAndDelete(model: Model, id: string, token: string): (r: Result<Gateway.Request>)
    ensures r.Ok?
    ensures r.value.endpoint == Gateway.FindByIdAndDelete && r.value.token == token
         && r.value.collectionName == CollectionName(model.modelName)
         && r.value.itemId == Some(id) && r.value.filter.None? && r.value.update.None?
  {
    Ok(Gateway.Request(Gateway.FindByIdAndDelete, token, CollectionName(model.modelName), None, Some(id), None))
  }

  /** A rejected filter or update is rejected whatever the token file holds:
      validation happens before the token is read, and no request is built. */
  lemma ValidationPrecedesToken(model: Model, id: string, candidate: Option<Props>, t1: string, t2: string)
    ensures Find(model, candidate, t1).Err? ==> Find(model, candidate, t1) == Find(model, candidate, t2)
    ensures FindOne(model, candidate, t1).Err? ==> FindOne(model, candidate, t1) == FindOne(model, candidate, t2)
    ensures FindByIdAndUpdate(model, id, candidate, t1).Err? ==>
      FindByIdAndUpdate(model, id, candidate, t1) == FindByIdAndUpdate(model, id, candidate, t2)
  {
  }

  /** Filters and updates are held to the schema's keys and types only: a
      missing required field never rejects them. */
  lemma FiltersSkipRequiredCheck(model: Model, id: string, filter: Props, token: string)
    requires AllKnown(model.schema, filter) && AllTyped(model.schema, filter)
    ensures Find(model, Some(filter), token).Ok?
    ensures FindOne(model, Some(filter), token).Ok?
    ensures FindByIdAndUpdate(model, id, Some(filter), token).Ok?
  {
  }
}
