# Starhive client: request marshalling and response dispatch

A Dafny model of the data-mapping core of `StarhiveClient`, the REST client
of the Starhive Next.js starter. It covers:

- **Serialisation** (`createRequestObject`): a Starhive object's `accept`
  issues a sequence of visits, in order, each of one of the closed set of
  attribute kinds of `AttributeVisitor`. The client's visitor pushes one
  `{attributeId, values}` entry onto an `attributes` list for every present
  attribute. For a workflow attribute that carries a
  transition it also records a `{transitionId}` directive under the attribute id in a `transitions` map.
  The visitor is a class (`Request.RequestVisitor`) whose fields are that list
  and that map. `Request.CreateRequestObject` runs the visits against a
  fresh visitor and is proved equal to the specification function
  `Request.RequestOf`. The lemmas about `RequestOf` state what the request
  holds.
- **Bulk operations**: `createOrUpdateObjectsInBulk` turns each object into a
  `patch` operation (truthy id) or a `create` operation (any other id).
  `deleteObjectsInBulk` turns each id into one `delete` operation.
- **Client operations**: the id guard of `updateObject`, the `typeId` stamp of
  `createObject`, the decoder-registry lookups, and `parseJsonObject`. The
  last drives a decoder through `setId`, one `visitJsonAttribute` per wire
  attribute in order, then `build`.

Modules, one per part of the source:

- `Wrappers`: `Option` (JavaScript `undefined`) and `Result` (a thrown error).
- `Domain`: the visited value types and the attribute kinds (`Visit`), plus
  the object capability (`StarhiveObject`).
- `Encoding`: the per-kind value-to-string conversion.
- `Request`: `createRequestObject`.
- `Bulk`: the bulk operation lists.
- `Decoding`: decoders and `parseJsonObject`.
- `Client`: the client class.

Modelling choices:

- `accept(visitor)` is modelled as the sequence of visits the object issues.
- Ids follow JavaScript truthiness. `Domain.IsTruthy` holds for a present,
  non-empty string, so an object whose id is `""` is created in bulk and
  rejected by `updateObject`.
- The runtime conversions the source borrows are fields of an
  `Encoding.Encoders` record, so every property holds whatever they compute.
  These are number `toString`, the `Intl.DateTimeFormat('se', …)` date format,
  `toISOString`, `URL.toString` and `JSON.stringify` of a location.
- Booleans, option values and user values have fixed encodings: `"true"`/`"false"`,
  `getValue()` and `id`. Text, reference, IP-address and email values are sent
  unchanged.
- Network I/O is replaced by parameters. Each client method takes the
  server's response as an argument. The client keeps `sent`, the log of
  requests it handed to the transport. An `updateObject` that fails the id
  guard leaves that log unchanged. `createObject` and `updateObject` look the decoder up only
  after their request was sent, as in the source.
- The generated decoders are external. `Decoding.JsonDecoder` records the
  calls it receives, and `build()` returns `Decoding.DecodedObject`: the
  decoder's factory and the calls it received before `build()`.
- Wire attribute values and `JsonAttributeValue` are one type
  (`Decoding.JsonAttributeValue`), so the field-for-field copy
  `new JsonAttributeValue(v.valueId, v.value, v.details)` of
  `parseJsonObject` is left implicit.
- OptionValue.ts is not part of this model. `getValue()` is taken to return
  the option's stored value (`Domain.OptionValue.value`).

Two behaviours of the code worth noting:

- A type id missing from the decoder registry fails because
  `decoders.get(typeId)!!()` calls `undefined`. The `!!` is a TypeScript
  non-null assertion with no runtime effect. The result is a JavaScript
  `TypeError` whose message does not name the type id. The model's
  `Client.ClientError.TypeError` therefore carries no type id.
- The `StarhiveClient` constructor checks neither token nor workspace id.

## Model

| member | source | states |
|---|---|---|
| `Encoding.MapSeq` | app/api/starhive/client/StarhiveClient.ts:130 | `values.map(f)`: the result has the input's length and order, and element i is `f` of input element i |
| `Encoding.EncodedValues` | app/api/starhive/client/StarhiveClient.ts:126-203 | per attribute kind, the sent strings match the input values one for one. Booleans become `"true"`/`"false"`, options their stored value, users their id. Text, reference, IP and email values are unchanged. Numbers, dates, date-times, URLs and locations go through their runtime converter |
| `Request.RequestOfAppend` | app/api/starhive/client/StarhiveClient.ts:119-224 | serialising visits `a` then `b` concatenates their attribute lists and merges their transition maps, `b`'s directives winning on a shared key |
| `Request.NoTypeId` | app/api/starhive/client/StarhiveClient.ts:119-124 | the request built by `createRequestObject` carries no `typeId` |
| `Request.SingleVisit` | app/api/starhive/client/StarhiveClient.ts:125-221 | an object with one visit yields exactly that visit's entries and directive |
| `Request.VoidVisitIsInvisible` | app/api/starhive/client/StarhiveClient.ts:126-205 | an attribute with `values` undefined, or a workflow with neither state nor transition, leaves the request unchanged wherever in the visit order it occurs |
| `Request.AttributesFollowVisits` | app/api/starhive/client/StarhiveClient.ts:120-128 | `attributes` is the concatenation of the visits' entries in the order `accept` issued them: no merging, dropping or reordering |
| `Request.TransitionsRecordLastDirective` | app/api/starhive/client/StarhiveClient.ts:217-219 | `transitions` has a key exactly when some workflow visit with that id carried a transition, and its value is the transition id of the last such visit |
| `Request.RequestOfSnoc` | app/api/starhive/client/StarhiveClient.ts:222 | one more visit applies exactly that visit's callback to the request built so far |
| `Request.ValueVisitEffect` | app/api/starhive/client/StarhiveClient.ts:126-203 | a non-workflow visit with undefined values changes nothing. Otherwise it appends exactly one entry, with its attribute id and its encoded values. Transitions are never touched |
| `Request.WorkflowVisitEffect` | app/api/starhive/client/StarhiveClient.ts:204-220 | workflow decision table. Neither state nor transition: nothing changes. A state: `[state.id]` is appended, even when a transition is also given. Only a transition: `[transition.to.id]` is appended. A transition sets `transitions[id]` to its id, overwriting, and touches no other key |
| `Request.RequestVisitor.constructor` | app/api/starhive/client/StarhiveClient.ts:120-124 | the visitor starts with an empty `attributes` list and an empty `transitions` map |
| `Request.RequestVisitor.VisitValues` | app/api/starhive/client/StarhiveClient.ts:126-131 | a non-workflow callback returns on undefined values, otherwise pushes exactly one entry, and leaves `transitions` alone |
| `Request.RequestVisitor.VisitWorkflow` | app/api/starhive/client/StarhiveClient.ts:204-220 | the workflow callback updates `attributes` and `transitions` by the decision table above |
| `Request.RequestVisitor.Dispatch` | app/api/starhive/client/AttributeVisitor.ts:6-34 | dispatching a visit to its kind's callback applies `Request.Step` to the visitor's state |
| `Request.CreateRequestObject` | app/api/starhive/client/StarhiveClient.ts:119-224 | the request built by running the object's visits against a fresh visitor equals `RequestOf` of those visits |
| `Bulk.CreateOrUpdateOperations` | app/api/starhive/client/StarhiveClient.ts:286-304 | one operation per object, same order. A truthy id gives `patch` with that `objectId`; any other id gives `create` with the object's `typeId`. The attributes and transitions are those of the object's request |
| `Bulk.DeleteOperations` | app/api/starhive/client/StarhiveClient.ts:315-318 | one `delete` operation per id, carrying that id, in order |
| `Decoding.JsonDecoder.constructor` | app/api/starhive/client/JsonDecoder.ts:4-10 | a fresh decoder of a given factory has received no calls |
| `Decoding.JsonDecoder.SetId` | app/api/starhive/client/JsonDecoder.ts:5 | `setId` is recorded after the earlier calls |
| `Decoding.JsonDecoder.VisitJsonAttribute` | app/api/starhive/client/JsonDecoder.ts:7 | `visitJsonAttribute` is recorded after the earlier calls |
| `Decoding.JsonDecoder.Build` | app/api/starhive/client/JsonDecoder.ts:9 | `build` returns the object determined by the decoder and the calls it received |
| `Decoding.AttributeCalls` | app/api/starhive/client/StarhiveClient.ts:384-387 | one `visitJsonAttribute` per wire attribute, in order, with that attribute's id and values |
| `Decoding.ParseCallsOrder` | app/api/starhive/client/StarhiveClient.ts:382-389 | `parseJsonObject` calls `setId(body.id)` first and `build` last. In between, call i+1 visits wire attribute i |
| `Decoding.ParseJsonObject` | app/api/starhive/client/StarhiveClient.ts:382-389 | the decoder receives exactly `setId`, the attribute visits and `build`. The result is what it builds from them |
| `Client.LookupDecoder` | app/api/starhive/client/StarhiveClient.ts:115 | the lookup succeeds exactly for a registered type id and yields its factory. Otherwise it fails with a `TypeError` |
| `Client.RequireId` | app/api/starhive/client/StarhiveClient.ts:265-267 | the guard passes exactly for a present, non-empty id. Otherwise it fails with "Object id is missing" |
| `Client.CreatePayload` | app/api/starhive/client/StarhiveClient.ts:239-240 | the body `createObject` posts is the object's request with `typeId` set to the object's type id |
| `Client.DecodeWith` | app/api/starhive/client/StarhiveClient.ts:115-116 | decoding succeeds exactly when the type id is registered, with that decoder's reading of the body |
| `Client.DecodeAll` | app/api/starhive/client/StarhiveClient.ts:355-358 | search results decode only when every result's own type id is registered. Then result i is result i decoded by its type's decoder; otherwise the whole page fails |
| `Client.StarhiveClient.constructor` | app/api/starhive/client/StarhiveClient.ts:93-102 | stores token, workspace id, registry and base URL (default `https://api.starhive.com/public/v1`), and nothing has been sent |
| `Client.StarhiveClient.GetObject` | app/api/starhive/client/StarhiveClient.ts:112-117 | sends one GET for the id, then decodes with the decoder of the given type id, failing when it is unregistered |
| `Client.StarhiveClient.CreateObject` | app/api/starhive/client/StarhiveClient.ts:237-249 | posts the object's request stamped with its type id, then decodes the response. An unregistered type fails only after the post |
| `Client.StarhiveClient.UpdateObject` | app/api/starhive/client/StarhiveClient.ts:264-278 | a falsy id fails with "Object id is missing" and nothing is sent. Otherwise it sends one PATCH of the object's request under its id, then decodes the response, failing with a `TypeError` after the PATCH when the type id is unregistered |
| `Client.StarhiveClient.CreateOrUpdateObjectsInBulk` | app/api/starhive/client/StarhiveClient.ts:285-307 | sends one bulk request whose operations are the objects' create/patch operations in order, and returns the server's bulk response unchanged |
| `Client.StarhiveClient.DeleteObjectsInBulk` | app/api/starhive/client/StarhiveClient.ts:314-321 | sends one bulk request of one delete per id, and returns the server's response unchanged |
| `Client.StarhiveClient.Search` | app/api/starhive/client/StarhiveClient.ts:349-360 | sends one search with the given window (default offset 0, limit 50). It passes total, page size and last-page flag through and decodes every result by its own type id. One unregistered type fails the page |

## Left out

- HTTP transport: the axios instance, the authorisation and workspace headers, URL construction and query encoding. Transport errors and their `console.log` before rethrowing are also out, because they are network I/O. Responses are parameters instead.
- The content upload (`getUploadUrl`, `uploadData`, `uploadInMemoryStreamData`, `uploadFileStreamData`), because it is only network calls and a file read.
- The concrete runtime converters (number `toString`, `Intl.DateTimeFormat`, `toISOString`, `URL.toString`, `JSON.stringify`), because they are locale, floating-point and library behaviour. They are parameters of every property.
- Encoding.EncodedValues: the converters are total functions, so serialisation never throws, because the model's `Date` is an integer time value and its numbers are `real`. An Invalid Date, on which `formatToParts` (StarhiveClient.ts:136) and `toISOString` (:142) throw a `RangeError` that aborts `createObject`, `updateObject` and the bulk calls, cannot be represented. Neither can `NaN` or `Infinity`, which number `toString` (:148, :154) would send as text.
- Page envelope parsing (`parseInt`, `JSON.parse` of `isLast`), because it is library parsing of server strings. `Client.StarhiveClient.Search` takes the envelope already parsed. `getSpaces`, `getTypes` and `getTypesEnriched` are left out for the same reason: they are envelope parsing plus a fixed field copy.
- Server behaviour, because this code does not enforce it: the 80-operation bulk limit, "update removes values that are not provided", the contents of bulk responses and what `isLast` means.
- What the generated decoders compute from the calls they receive, because those decoders are code generated per workspace and are not in this repository.
- Malformed response bodies (a missing `attributes` list or `id`), because the wire objects are assumed to have the documented shape.
- Aliasing, because nothing mutates the shared structures after construction. The bulk operations share their `attributes` array and `transitions` object with the `ObjectData` built for them; the model uses values.
- JavaScript plain-object quirks of the `transitions` map (keys such as `__proto__`), because the model uses a Dafny `map`.
- `createClient` in app/api/ClientFactory.ts, because it only reads environment variables.
- The UI files and the build configuration.
