# Zone binding of napajs, modelled in Dafny

napajs exposes its multi-isolate execution engine ("zones") to Node.js through
`ZoneWrap`, a binding class in `modules/napajs/node/zone-wrap.cpp`. This
project models the deterministic part of that binding:

- **Zone construction** (`ZoneConstruction`): `NewInstance` puts a
  constructor-type tag (`Create` = 0, `Get` = 1) in front of the caller's
  arguments and calls the zone constructor, `NewCallback`. The constructor
  checks the zone id and, for `createZone`, the settings object. It flattens
  the settings into one option string ` --key value --key value ...`. The
  result is the decision to create a new zone or to look up an existing one.
- **Request building** (`RequestBuilder`): `CreateRequestAndExecute` fills a
  default `ExecuteRequest` from the request object's `module`, `function`,
  `arguments` and `timeout` properties. It passes the request to a
  continuation only when `function` is present and is text.
- **Response encoding** (`ResponseEncoder`): `CreateResponseObject` turns an
  `ExecuteResponse` into the host object `{code, errorMessage, returnValue}`.
  The payload becomes the empty string, the parsed JSON value, or the raw text.
- **Zone operations** (`ZoneOperations`): `broadcast`, `broadcastSync`,
  `execute` and `executeSync`. Each returns a trace of what the call does:
  a thrown argument error, handler creation, the engine call, and the value
  returned. Every engine call comes after all argument checks have passed.

Host values are the datatype `JsValues.JsValue`. The host conversions the
binding relies on are written out in `JsValues`:
- property lookup (`GetProperty`);
- ToString (`ToUtf8`);
- ToUint32 (`ToUint32`).

Three inputs are parameters because their implementations are not part of
this model:
- the host's JSON parser;
- the settings-object-to-map conversion (`V8ObjectToMap`);
- the engine's answers to blocking calls.

Behaviours of the code worth knowing:
- A property lookup is empty only when the lookup throws. A property the
  object does not have reads as `undefined`. So an object without `module`
  gives the module text `"undefined"`, and one without `timeout` gives
  timeout 0 (`MissingPropertiesReadAsUndefined`).
- The `arguments` value is cast to an array without any check
  (zone-wrap.cpp line 236), so an object without `arguments` is not
  handled (`ArgumentsReadable`). The model reads a non-array `arguments`
  as no arguments; see "## Findings".
- The request's argument texts are views into a vector that is destroyed
  at line 242, before the request is used at line 253. The model keeps
  those texts alive; see "## Findings".
- `execute` creates its completion handler (line 143) before it builds the
  request (line 151). A request that fails validation therefore still
  creates a handler. That handler is never dispatched.
- The zone id is checked to be text, but not to be non-empty.
- Values of `ConstructorType` are taken as `CREATE` = 0 and `GET` = 1.
  zone-wrap.h is not part of this model.

## Model

| member | source | states |
|---|---|---|
| `ZoneConstruction.BuildConstructorArgs` | modules/napajs/node/zone-wrap.cpp:43-49 | the constructor's argument vector has length args+1, the tag at index 0, and caller argument i-1 at index i |
| `ZoneConstruction.FlattenSettings` | modules/napajs/node/zone-wrap.cpp:70-79 | the string-stream loop yields exactly the concatenation of ` --key value` over the entries, in iteration order |
| `ZoneConstruction.Flattened` | modules/napajs/node/zone-wrap.cpp:77-79 | the option string is empty exactly when there are no entries, and otherwise starts with a space |
| `ZoneConstruction.FlattenedSnoc` | modules/napajs/node/zone-wrap.cpp:77-79 | appending one settings entry appends exactly its ` --key value` text |
| `ZoneConstruction.SplitAtSpace` | modules/napajs/node/zone-wrap.cpp:78 | splitting an option string at the first space loses nothing and leaves a space-free token |
| `ZoneConstruction.SplitAtSpaceOfToken` | modules/napajs/node/zone-wrap.cpp:78 | a space-free key or value is read back whole from the option text |
| `ZoneConstruction.FlattenedParsesBack` | modules/napajs/node/zone-wrap.cpp:70-82 | when no key or value holds a space, the option string handed to the engine determines the settings entries and their order |
| `ZoneConstruction.FlattenedAmbiguousWithSpaces` | modules/napajs/node/zone-wrap.cpp:78 | keys and values are not escaped: a value holding ` --c d` flattens like a second entry |
| `ZoneConstruction.NewCallback` | modules/napajs/node/zone-wrap.cpp:58-94 | a non-construct call is refused; both CREATE and GET refuse a non-text zone id; CREATE refuses a present settings argument that is not an object; on success CREATE yields the id with the flattened settings (empty with no settings argument) and GET yields the id to look up |
| `ZoneConstruction.NewInstance` | modules/napajs/node/zone-wrap.cpp:39-56 | seen from the caller of createZone/getZone, its first argument is the zone id and its second the settings; the same acceptance conditions, error messages and results hold, shifted by one |
| `ZoneConstruction.NewInstanceAsWritten` | modules/napajs/node/zone-wrap.cpp:53 | as written, every call the constructor rejects (a non-text zone id, a non-object settings argument) aborts the process at `ToLocalChecked` instead of throwing; accepted calls construct the same zone as `NewInstance` |
| `RequestBuilder.CreateRequestAndExecute` | modules/napajs/node/zone-wrap.cpp:210-254 | the continuation receives exactly the request the object stands for, with argument texts kept alive (the corrected builder of "## Findings"); on a validation failure it is never invoked and the error is returned instead |
| `RequestBuilder.ArgumentViewsAsWritten` | modules/napajs/node/zone-wrap.cpp:234-242 | as written, the argument views point into a vector that is released at the end of the `if` block (the live buffers are the owned ones minus the block's): for any non-empty `arguments` array, none of them can be read when the request is handed on |
| `RequestBuilder.ArgumentViewsKeptAlive` | modules/napajs/node/zone-wrap.cpp:218-222 | with the converted vector kept at function scope, as `module` is, every view reads its argument's text, in order |
| `RequestBuilder.AbsentArgumentsUnreadable` | modules/napajs/node/zone-wrap.cpp:233-236 | the unchecked cast makes an object without `arguments`, such as `{function: "f"}`, one the source cannot handle |
| `RequestBuilder.RequestFromWhereReadable` | modules/napajs/node/zone-wrap.cpp:234-241 | on every object the source can read, the corrected array check gives the same arguments as the unchecked cast |
| `RequestBuilder.RequestFrom` | modules/napajs/node/zone-wrap.cpp:215-248 | the request an object stands for: validation fails exactly when the `function` lookup is empty or is not text, with the missing/not-a-string message of lines 227 and 229; an accepted request carries that text as its function (its other fields: `RequestFields`) |
| `RequestBuilder.RequestFields` | modules/napajs/node/zone-wrap.cpp:215-248 | `function` equals the given text; `module` and `timeout` are set exactly when their lookup is non-empty and keep their defaults otherwise; arguments keep number and order, element for element, when the lookup gives an array, and stay empty otherwise |
| `RequestBuilder.RequestRoundTrip` | modules/napajs/node/zone-wrap.cpp:215-248 | the object that spells out a request is one the source can read, and building from it gives back that request |
| `RequestBuilder.MissingPropertiesReadAsUndefined` | modules/napajs/node/zone-wrap.cpp:219-248 | an object giving only `function` builds a request with module text "undefined", no arguments and timeout 0 |
| `ResponseEncoder.CreateResponseObject` | modules/napajs/node/zone-wrap.cpp:173-208 | the host object read back through property lookup: `code` converts back to the response's code, `errorMessage` is its message, and `returnValue` is the empty string for an empty payload, the parsed value when parsing succeeds, and the payload text when it fails |
| `ResponseEncoder.ResponseFieldsReadBack` | modules/napajs/node/zone-wrap.cpp:177-187 | the response object has exactly the fields code, errorMessage, returnValue in that order; code is the response's code as a number; any other key reads as undefined |
| `ResponseEncoder.RawTextSurvives` | modules/napajs/node/zone-wrap.cpp:193-197 | a payload the parser rejects reaches the host as exactly the engine's text |
| `ResponseEncoder.EmptyPayloadLooksLikeEmptyJsonString` | modules/napajs/node/zone-wrap.cpp:189-198 | an empty payload and the JSON text `""` are encoded alike |
| `ZoneOperations.Broadcast` | modules/napajs/node/zone-wrap.cpp:96-119 | rejected exactly when the source is not text or the callback not a function, with no engine call; otherwise a handler is created, then the source is dispatched |
| `ZoneOperations.BroadcastSync` | modules/napajs/node/zone-wrap.cpp:121-132 | rejected exactly when the source is not text; otherwise the engine is called and its code is returned as a number |
| `ZoneOperations.Execute` | modules/napajs/node/zone-wrap.cpp:134-156 | the engine is reached exactly when the request is an object, the callback a function and the request builds; a build failure throws after the handler was created and never dispatches |
| `ZoneOperations.ExecuteSync` | modules/napajs/node/zone-wrap.cpp:158-171 | on a non-object or a failed build the call throws, the engine is not called and no return value is set; otherwise the built request goes to the engine and the encoded response is returned |
| `JsValues.Uint32RoundTrip` | modules/napajs/node/zone-wrap.cpp:46 | a 32-bit tag or code stored as a host number converts back to itself |
| `JsValues.NumericTextAgreesWithNumber` | modules/napajs/node/zone-wrap.cpp:247 | a check of the host conversion model: a timeout given as decimal text converts to the same value as the number |
| `JsValues.DecimalRoundTrip` | modules/napajs/node/zone-wrap.cpp:247 | a check of the host conversion model: reading the decimal text of a natural number gives the number back |

## Left out

- Host registration (`Init`, the persistent constructor, prototype methods; lines 14, 23-37, 51) is process-wide plumbing with no logic to model.
- Wrapping and unwrapping the native object (`Wrap`, `Unwrap`, `Holder`), handle scopes and try/catch scopes are host memory management.
- `NodeAsyncHandler` and its cross-thread callback dispatch (lines 105-118, 143-155) are not part of this model. Its implementation (node-async-handler.h) is outside the modelled file. The model records only that a handler is created and that the engine call follows.
- The argument conversions inside the async handlers (lines 108-112, 143-147) run inside `NodeAsyncHandler`. The execute one is `CreateResponseObject`, which is modelled.
- The engine itself is not modelled: `ZoneProxy` construction, `ZoneProxy::Get` (including a lookup that finds no zone), and `Broadcast`/`BroadcastSync`/`Execute`/`ExecuteSync`. Blocking calls take the engine's answer as a parameter. Asynchronous calls end at the dispatch event.
- JSON parsing (line 197) and `V8ObjectToMap` (line 75) are parameters, because their implementations are not part of this model. `V8ArrayToVector` (line 236) is modelled as ToString applied to each element.
- The transport context (lines 205, 250) is unimplemented in the source.
- Host numbers are unbounded integers here: fractional and non-finite numbers, the 2^53 limit of exact host integers, and the exponent form (`1e+21`) the host's ToString prints from 10^21 up are not modelled; `ToUtf8` prints every integer as plain digits.
- ToUint32 of text reads plain decimal digits only: surrounding whitespace, signs, hex and exponents read as 0. Objects convert through their ToString, and no user-defined `valueOf` or `toString` is modelled.
- A throwing `valueOf` during the timeout conversion, which `FromJust` would abort on, is not modelled.
- A lookup on an array or function request object finds none of the four request keys.
- Property lookups see own properties only; the prototype chain is not modelled. A request whose `function` is inherited (a class getter, `Object.create({function: "f"})`) is accepted by the code but rejected by the model with the not-a-string message.
- A throwing getter on `module` (lines 219-220), `arguments` (lines 234-235) or `timeout` (lines 245-246) leaves a pending host exception, which is not modelled. The code skips the field and still runs the continuation. So the engine is reached, and in `executeSync` the return value is set (lines 167-169), yet the call then throws. `Execute` and `ExecuteSync` end such a trace with the dispatch or the return, without the `Threw` event.
- Host strings reach the model as Dafny strings: UTF-8 conversion is not modelled. Neither is truncation at an embedded NUL where a raw `char*` is passed on (`*zoneId` at lines 82 and 87, `*source` at lines 116 and 129).
- CreateRequestAndExecute: passes the argument texts by value, as the corrected builder does. The source's request holds views into a vector destroyed at line 242, before line 253 hands the request on (`ArgumentViewsAsWritten`, "## Findings").
- RequestFields: the arguments it states are the texts the corrected builder keeps alive. The source's views into them dangle by line 253.
- RequestRoundTrip: the arguments it gives back are the texts the corrected builder keeps alive. The source's views into them dangle by line 253.
- ArgumentsReadable: a request without `arguments`, such as `{function: "f"}`, is excluded by the source, because line 236 casts `undefined` to an array. The model's builder instead reads any non-array `arguments` as no arguments ("## Findings").
- `NewInstance`: a constructor failure is returned as `Failure`, the corrected behaviour. In the source it reaches `ToLocalChecked` on an empty handle, which the host treats as fatal (`NewInstanceAsWritten`, "## Findings").

## Findings

| source | as written | input that shows it | evidently intended | confidence | as-written member | corrected member |
|---|---|---|---|---|---|---|
| modules/napajs/node/zone-wrap.cpp:234-253 | the converted `arguments` vector is local to the `if` block. The request keeps only non-owning views into its texts, and the vector is destroyed at line 242, before `func(request)` at line 253 | `execute({function: "f", arguments: ["1"]}, cb)`: the engine receives a view into a released buffer | keep the vector alive until `func` has run, as `module` is kept at line 218 | high for the lifetime as written; not executed | `RequestBuilder.ArgumentViewsAsWritten` | `RequestBuilder.ArgumentViewsKeptAlive` (used by `RequestBuilder.CreateRequestAndExecute`) |
| modules/napajs/node/zone-wrap.cpp:233-236 | `arguments` is called optional, but an absent property reads as `undefined`, and that is cast to an array without a check | `executeSync({function: "f"})`: `V8ArrayToVector` is given `undefined` | treat a missing or non-array `arguments` as no arguments | medium; the code's callers may always pass an array; not executed | `RequestBuilder.AbsentArgumentsUnreadable` | `RequestBuilder.MissingPropertiesReadAsUndefined` (with `RequestBuilder.RequestFromWhereReadable`) |
| modules/napajs/node/zone-wrap.cpp:53 | `ToLocalChecked` is applied to the result of constructing the zone, which is empty whenever the constructor threw its validation error | `createZone(5)`: the constructor rejects the zone id and the process aborts | surface the constructor's error to the caller of createZone/getZone as a thrown exception | medium; fatal on an empty handle is the host's documented behaviour; not executed | `ZoneConstruction.NewInstanceAsWritten` | `ZoneConstruction.NewInstance` |
