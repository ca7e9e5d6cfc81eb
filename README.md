# field-database: schema validation and model construction

field-database is a TypeScript client for a remote document store. A caller
declares a schema and a model name. `Model(modelName, schema)` returns a
constructor that validates and builds entities, plus static queries (`find`,
`findById`, `findOne`, `findByIdAndUpdate`, `findByIdAndDelete`) that validate
their filter or update and then send a request carrying a bearer token.
`Field.connect` builds that token and stores it in a local file.

This project models the rule-bearing part of that client in Dafny:

- `JsValues` (js_values.dfy): the JavaScript values a caller passes (string,
  number, boolean, `null`, `undefined`, object, array), `typeof`, truthiness,
  ASCII `toUpperCase`/`toLowerCase`, and plain objects as ordered lists of own
  properties. `Get` returns `undefined` for a missing key. `SetProp` is
  `obj[k] = v`: an existing key keeps its place and a new key goes last.
- `Helpers` (helpers.dfy), for src/tools/helpers.ts:
  - `Capitalize` is a method that, like the source, copies the string into an
    array, overwrites slot 0 and joins. It is proved equal to the function `Capitalized`.
  - `keysComparator` is a method with the source's two loops: unknown keys in
    candidate order, then types in schema order. It is proved equal to the
    function `KeysVerdict`, whose properties are lemmas.
- `ModelFactory` (model_factory.dfy), for index.ts `Model`:
  - the collection-name rule;
  - `objectCreator` as the method `ObjectCreator`. It runs the required-field
    loop, then `KeysComparator`, then assigns `_id`, `_creationDate` and
    `_updatingDate` and every schema field on a `Document` object, keeping the
    `||` truthiness chain. It is proved equal to the functions
    `ConstructionVerdict` and `Constructed`.
  - the five queries, as functions that return either the validation error or a
    request descriptor (`Gateway.Request`).
- `Gateway` (gateway.dfy): the request descriptor. It holds the endpoint, the
  token, the collection name, and the filter, item id and update.
- `Connection` (connection.dfy): the token template of `Field.connect`, a
  parser that inverts it, and `Connect` on a token-file object. `Connect`
  overwrites the file before it builds the connect request.

External inputs are parameters:
- `idGenerator()` is `newId`.
- `Date.now()` is `now`.
- The token read from the file before each query is `token`.

Validation works on immutable values, so it cannot change the schema or the
candidate.

The construction rule is `options[key] || schema[key].default || null`, and
`0` is falsy. So `{name: "Ann"}`, against a schema whose `age` has default `0`,
yields `age: null`, not `age: 0`. `AnnExample` proves this outcome. `ZeroOptionExample`
shows the same rule replacing an explicit `age: 0` with a truthy default.

Two further consequences of the code are proved:
- A schema field named `_id`, `_creationDate` or `_updatingDate` overwrites
  the generated value. This is because the field loop assigns `this[key]`
  after the bookkeeping properties.
- A schema type of `"array"` can never match, because `typeof []` is `"object"`.

## Model

| member | source | states |
|---|---|---|
| `Helpers.Capitalized` | src/tools/helpers.ts:1-7 | the result has the input's length; its first character is the upper case of the input's first; every later character is unchanged |
| `Helpers.Capitalize` | src/tools/helpers.ts:1-7 | the array-splitting implementation returns exactly `Capitalized(s)` |
| `Helpers.CapitalizeEmpty` | src/tools/helpers.ts:3 | `Capitalize("")` is `""` |
| `Helpers.CapitalizeUser` | src/tools/helpers.ts:3-4 | `Capitalize("user")` is `"User"` |
| `Helpers.CapitalizeIdempotent` | src/tools/helpers.ts:2-6 | capitalizing twice gives the same string as capitalizing once |
| `Helpers.UnknownKeyMessage` | src/tools/helpers.ts:12 | the message is `Property "`, the key, `" does not exist on type ` and the capitalized model name, in that order |
| `Helpers.TypeMismatchMessage` | src/tools/helpers.ts:18 | the message is `Property "`, the key, `" should be "`, the declared type, `" type but got "`, the actual `typeof` and a closing quote, in that order |
| `Helpers.FirstUnknown` | src/tools/helpers.ts:10-14 | returns the first candidate position, in candidate order, whose key the schema does not own; every earlier key is owned |
| `Helpers.FirstMismatch` | src/tools/helpers.ts:15-21 | returns the first schema position, in schema order, whose key the candidate owns with a value of a different `typeof`; no earlier entry mismatches |
| `Helpers.KeysVerdict` | src/tools/helpers.ts:9-22 | passes if and only if every candidate key is a schema key and every shared key's value has the declared `typeof` |
| `Helpers.KeysComparator` | src/tools/helpers.ts:9-22 | the two early-exit loops return exactly `KeysVerdict`: the same pass or the same error message |
| `Helpers.EmptyCandidatePasses` | src/tools/helpers.ts:9-22 | an empty candidate always passes |
| `Helpers.UnknownKeyReportedFirst` | src/tools/helpers.ts:10-14 | if a candidate key is unknown, the error is `Property "<key>" does not exist on type <Capitalize(modelName)>` for the first such key in candidate order, whatever type mismatches also exist |
| `Helpers.TypeMismatchReported` | src/tools/helpers.ts:15-19 | with all keys known, the error is `Property "<key>" should be "<type>" type but got "<typeof>"` for the first mismatching schema entry in schema order |
| `Helpers.ArrayTypeNeverMatches` | src/tools/helpers.ts:17 | a field declared `"array"` rejects every value supplied for it |
| `JsValues.TypeOf` | src/tools/helpers.ts:17 | `typeof` yields `"undefined"` only for `undefined`, yields `"object"` exactly for `null`, objects and arrays, and never yields `"array"` |
| `JsValues.Truthy` | index.ts:52 | a value is falsy exactly when it is `""`, `0`, `false`, `null` or `undefined` |
| `JsValues.SetPropReads` | index.ts:52 | after `obj[k] = v`, reading `k` gives `v`, every other key reads as before, and the owned keys are the old ones plus `k` |
| `ModelFactory.CollectionName` | index.ts:22 | the result starts with the lower-cased name and ends in `'s'`; it is two characters longer, ending in `"es"`, exactly when the original name ends in a lower-case `'s'`, and one character longer otherwise |
| `ModelFactory.CollectionNameExamples` | index.ts:22 | `"User"`→`"users"`, `"Bus"`→`"buses"`, `"city"`→`"citys"`, `"BUS"`→`"buss"`, `""`→`"s"` |
| `ModelFactory.FirstMissing` | index.ts:26-30 | returns the first schema position, in schema order, whose field is required and not owned by the options; no earlier one is |
| `ModelFactory.RequiredMessage` | index.ts:28 | the message is `Property "`, the key, `" is required on type ` and the capitalized model name, in that order |
| `ModelFactory.ConstructionVerdict` | index.ts:26-36 | construction passes its checks if and only if every required field is present, every option key is a schema key, and every shared value has the declared `typeof` |
| `ModelFactory.RequiredReportedFirst` | index.ts:26-30 | a missing required field gives `Property "<key>" is required on type <Capitalize(modelName)>` for the first one in schema order, before any key or type error |
| `ModelFactory.ConstructionDefersToKeys` | index.ts:32-36 | once the required fields are present, construction fails or passes exactly as `keysComparator` does, with its message |
| `ModelFactory.FieldValue` | index.ts:52 | the assigned value is truthy or `null`; a truthy value is the option or the default; a truthy option always wins |
| `ModelFactory.FalsyOptionIgnored` | index.ts:52 | a falsy option (`0`, `""`, `false`, `null`, `undefined`) is treated as absent: the field gets the default if truthy, else `null` |
| `ModelFactory.Base` | index.ts:38-40 | three distinct own properties in this order: `_id` holds the provided id, `_creationDate` the clock reading and `_updatingDate` `null` |
| `ModelFactory.Assigned` | index.ts:49-54 | the field loop keeps every existing property in its place and adds at most one property per handled schema entry |
| `ModelFactory.Constructed` | index.ts:38-54 | `_id`, `_creationDate` and `_updatingDate` come first in enumeration order, followed by at most one property per schema entry |
| `ModelFactory.AssignedField` | index.ts:49-54 | after the loop has handled a schema entry, reading that entry's key gives the option if truthy, else the default if truthy, else `null` |
| `ModelFactory.AssignedOther` | index.ts:49-54 | a key not among the handled schema entries keeps its earlier value |
| `ModelFactory.AssignedKeys` | index.ts:49-54 | the object owns exactly its earlier keys plus the handled schema keys |
| `ModelFactory.ConstructedEntity` | index.ts:38-54 | the entity owns exactly `_id`, `_creationDate`, `_updatingDate` and the schema keys. Each schema field holds the option if truthy, else the default if truthy, else `null`. `_id` is the provided id, `_creationDate` the clock reading and `_updatingDate` is `null`, unless a schema field of the same name overwrites it |
| `ModelFactory.ValidOptionsConstruct` | index.ts:24-56 | options with every required field, no unknown key and correct types construct; each field they omit takes its truthy default, else `null` |
| `ModelFactory.AnnAccepted` | index.ts:26-36 | `{name: "Ann"}` passes the checks of a schema with a required string `name` and a number `age` defaulting to `0` |
| `ModelFactory.AnnExample` | index.ts:38-54 | that entity has `name` `"Ann"`, `age` `null` (not `0`), the provided `_id` and `_updatingDate` `null` |
| `ModelFactory.ZeroOptionExample` | index.ts:52 | an explicit `age: 0` with default `18` gives `age` `18` |
| `ModelFactory.Document.Assign` | index.ts:52 | `this[k] = v` replaces the entity's property list by `SetProp` of the old one |
| `ModelFactory.Document.AssignFields` | index.ts:49-54 | the field loop leaves the property list equal to `Assigned` of the old list over the whole schema |
| `ModelFactory.ObjectCreator` | index.ts:24-56 | fails exactly when `ConstructionVerdict` fails, with its message; otherwise returns a fresh entity whose properties are `Constructed(schema, options, newId, now)` |
| `ModelFactory.Validate` | index.ts:59-65 | an absent filter or update skips validation; a present one is checked by `keysComparator`, without the required-field check |
| `ModelFactory.Find` | index.ts:58-69 | fails if and only if a filter is given and `keysComparator` rejects it, with its message; otherwise the request goes to the find endpoint with the token, the collection name and the filter |
| `ModelFactory.FindById` | index.ts:71-75 | does no validation, so it never returns a validation error; the request carries the token, the collection name and the item id |
| `ModelFactory.FindOne` | index.ts:77-88 | fails if and only if a filter is given and `keysComparator` rejects it; otherwise the request goes to the findOne endpoint with the token, the collection name and the filter |
| `ModelFactory.FindByIdAndUpdate` | index.ts:90-105 | fails if and only if an update is given and `keysComparator` rejects it; otherwise the request carries the token, the collection name, the item id and the update |
| `ModelFactory.FindByIdAndDelete` | index.ts:107-110 | does no validation, so it never returns a validation error; the request carries the token, the collection name and the item id |
| `ModelFactory.ValidationPrecedesToken` | index.ts:58-105 | for `find`, `findOne` and `findByIdAndUpdate`, a rejected filter or update gives the same error whatever token is stored: validation happens before the token is read, and no request is built |
| `ModelFactory.FiltersSkipRequiredCheck` | index.ts:58-105 | a filter or update with known keys and correct types is accepted by `find`, `findOne` and `findByIdAndUpdate`, even when it omits required fields |
| `Connection.Token` | index.ts:123 | the token is exactly the label `login`, the login, the label `password`, the password, the label `projectId` and the project id, in that order, with one bar character between consecutive pieces |
| `Connection.TokenParses` | index.ts:123 | the token (the labels `login`, `password`, `projectId` and the three values, joined by the bar character) parses back to the same credentials when none of them contains a bar |
| `Connection.ParsedIsToken` | index.ts:123 | every string that parses as a token is exactly the template applied to the parsed credentials, which contain no bar character |
| `Connection.TokenFile.constructor` | index.ts:9 | the token file object holds the contents it is given |
| `Connection.Connect` | index.ts:122-125 | the token file holds exactly the template string, and the connect request carries that same string |

## Left out

- Transport and gateway tables (src/api/AxiosApi.ts, src/api/fieldCollectionsAPI.ts, src/api/fieldConnectionAPI.ts): HTTP paths, methods, headers and JSON bodies are not modelled. A query ends in a request descriptor naming its endpoint.
- Remote responses: what `find`, `findById`, `findOne` and `findByIdAndUpdate` return (`response.data.items` / `item`) depends on the server and is not modelled.
- The attached `save` method and its request (index.ts:41-48), and the error wrapping `Save error: (...)` / `FieldDB connection error: (...)` (index.ts:46, 126-127): these depend on asynchronous remote failures.
- Async and promise behaviour, and interleaving of concurrent calls on the shared token file.
- File I/O: the token file is the `TokenFile` object in `Connect`, and a plain `token` parameter in the queries.
- `idGenerator` (src/tools/idGenerator is not part of this model) and `Date.now()` are parameters (`newId`, `now`). The clock reading is an integer.
- `JsValues.UpperChar`, `JsValues.LowerChar`: only ASCII letters change case. Non-ASCII letters are left as they are, unlike JavaScript, so length-changing mappings such as `'ß'`→`"SS"` are not modelled. `Capitalize`'s split into UTF-16 code units is modelled as a split into characters.
- Property order is list order. JavaScript's `for...in` visits integer-like keys first, in ascending order. The model assumes non-numeric keys.
- Prototype-chain properties seen by `for...in` are not modelled: only own properties exist.
- Numbers are mathematical reals (`Num(n: real)`): IEEE double rounding, `Infinity`, `-0` and `NaN` are not modelled. No modelled rule depends on them except the truthiness of `NaN`.
- Values: functions, symbols, bigints and `NaN` are not modelled. A schema entry's `type` is always a string, and `required` is the truthiness of the given flag.
- Filters, updates and options are always objects or absent. A primitive filter, and `options` being `undefined` (a `TypeError` at `hasOwnProperty`), are not modelled.
- `FieldValue`, `ConstructedEntity`: the `save` method property, which is assigned before the schema fields and would be overwritten by a schema field named `save`, is not among the entity's modelled properties.
