# Simulation records API: a Dafny model

This project models the request handling of a small HTTP endpoint that stores and
retrieves "simulation" records (id, user id, environment id, a JSON payload, a
numeric result and a summary). It covers four pieces:

- the payload validator `validateSimulationData`, which runs its checks in a fixed
  order and reports the first failure;
- the hex step of `generateDataHash`, which writes the SHA-256 digest of the
  serialized `data` field as lower-case, zero-padded hex;
- the handlers' decisions: `handleSimulationPost`, `handleSimulationGet`,
  `routeSimulation`, and the routing and catch-all of `fetch`, mapping a request
  and the abstract outcome of the store to a status and a body;
- `getCorsHeaders` and the merge of its headers into every response.

Modules, one per concern:

| file | module | models |
|---|---|---|
| wrappers.dfy | `Wrappers` | `Option`, `Result` |
| json.dfy | `Json` | parsed JSON values, `typeof … === 'object'` and `in` |
| hex.dfy | `HexEncoding` | `b.toString(16).padStart(2, '0')` joined, and a decoder as its partner |
| validation.dfy | `Validation` | `validateSimulationData` (specification function and the looping method) |
| http.dfy | `Http` | requests, responses and thrown values as plain values |
| simulations.dfy | `Simulations` | hash, store outcomes, POST and GET handlers, `routeSimulation` |
| index.dfy | `Index` | allow-list, `getCorsHeaders`, path routing, the 500 catch, the header merge (`Fetch`) |

Inputs that stand for code outside the model:

- `Runtime` carries `JSON.stringify`, `TextEncoder.encode` and SHA-256 as function
  values; SHA-256 returns a 32-byte `Digest`.
- `Store` carries the INSERT (`insert: Row -> InsertOutcome`: `Inserted` or
  `InsertThrew(e)`) and the SELECT by id (`selectById: string -> SelectOutcome`:
  `Found(row)`, `NotFound` or `SelectThrew(e)`).
- A `Request` is its method, its path, the `id` query parameter (absent when the
  query has none), the `Origin` header (absent when not sent) and the outcome of
  parsing the body as JSON (`Parsed(v)` or `Malformed(e)`).
- A thrown value is `ErrorObject(message)` or `NonError`, so that both arms of
  `error instanceof Error ? error.message : fallback` are modelled.

Where the code's behaviour differs from its own declared `PostData` interface and from what its messages suggest, the model follows the code:

- An array passes the first check (`typeof [] === 'object'`), so a JSON array body is
  refused with "Missing required field: id", not with "Invalid data structure".
- `summary` is declared a string in the `PostData` interface, but the validator never
  checks its type; any JSON value is accepted and stored (`DataAndSummaryUnconstrained`).
- The identifier-type message says "sim_id" although the field is named `id`; the
  model keeps the message as written.
- A POST whose insert throws something that is not an `Error` gets the message
  "Unknown error".

## Model

| member | source | states |
|---|---|---|
| `Json.IsObject` | src/simulations.ts:20 | `typeof v === 'object' && v !== null` holds exactly for values that are neither null nor a boolean, number or string, so arrays pass |
| `Json.Has` | src/simulations.ts:26 | `field in v` is true only of a value that passes the object check of line 20, never of a primitive |
| `Validation.FirstMissing` | src/simulations.ts:24-29 | the index found is the first required field absent from the value: all earlier ones are present, and it is absent (or all are present) |
| `Validation.Validate` | src/simulations.ts:19-38 | accepts exactly the non-null objects with all six keys, string `id`/`user_id`/`env_id` and a numeric `result`; on success the typed record holds exactly those fields' values |
| `Validation.ValidateSimulationData` | src/simulations.ts:19-38 | the loop over the required fields with early exit returns the same result or error as the check-by-check specification |
| `Validation.RejectsNonObjectFirst` | src/simulations.ts:20-22 | a value that is not an object (null, a boolean, number or string) is refused with "Invalid data structure" before any field is examined |
| `Validation.ReportsFirstMissingField` | src/simulations.ts:24-29 | when fields are missing, the error names the first missing one in the order id, user_id, env_id, data, result, summary |
| `Validation.PresenceBeforeTypes` | src/simulations.ts:24-34 | an object lacking any required field gets a missing-field error, whatever the types of the identifiers |
| `Validation.IdentifiersBeforeResult` | src/simulations.ts:32-36 | with every field present, a non-string id, user_id or env_id yields "sim_id, user_id, and env_id must be strings", whatever `result` holds |
| `Validation.ResultCheckedLast` | src/simulations.ts:35-37 | with all fields present and string identifiers, a non-number `result` yields "result must be a number" |
| `Validation.DataAndSummaryUnconstrained` | src/simulations.ts:19-38 | replacing `data` and `summary` of an accepted body by any values keeps it accepted |
| `Validation.MessagesDistinguishErrors` | src/simulations.ts:21-36 | the four error messages (with the field name in the missing-field one) are pairwise distinct, so the message identifies the failed check |
| `HexEncoding.Digit` | src/simulations.ts:15 | a digit that `toString(16)` writes is in [0-9a-f] |
| `HexEncoding.ToBase16` | src/simulations.ts:15 | `n.toString(16)` has one digit exactly when n < 16 and two when 16 <= n < 256 |
| `HexEncoding.PadStart` | src/simulations.ts:15 | `padStart` leaves a long enough string alone, otherwise fills on the left up to the width and keeps the string as suffix |
| `HexEncoding.ByteToHex` | src/simulations.ts:15 | `b.toString(16).padStart(2, '0')` is always two characters from [0-9a-f] |
| `HexEncoding.ByteToHexDigits` | src/simulations.ts:15 | each byte becomes exactly two digits, high nibble first, with a leading '0' below 16 |
| `HexEncoding.Hex` | src/simulations.ts:14-16 | mapping every byte to its two digits and joining gives a string twice as long as the bytes |
| `HexEncoding.HexAt` | src/simulations.ts:14-16 | byte i of the input is written at characters 2i and 2i+1 of the joined string |
| `HexEncoding.HexLayout` | src/simulations.ts:14-16 | the encoding is twice as long as the bytes and byte i sits at characters 2i and 2i+1 |
| `HexEncoding.HexAlphabet` | src/simulations.ts:14-16 | every character of the encoding is in [0-9a-f] |
| `HexEncoding.HexRoundTrip` | src/simulations.ts:14-16 | decoding the encoding gives back the bytes |
| `HexEncoding.HexCanonical` | src/simulations.ts:14-16 | a string that decodes to some bytes is the encoding of those bytes |
| `HexEncoding.HexInjective` | src/simulations.ts:14-16 | distinct byte strings have distinct encodings |
| `HexEncoding.DigitInverse` | src/simulations.ts:15 | decoding a written digit gives its value back |
| `HexEncoding.DigitValueInverse` | src/simulations.ts:15 | every lower-case hex character is the digit written for its value |
| `Simulations.GenerateDataHash` | src/simulations.ts:12-17 | the hash is 64 characters from [0-9a-f] that decode to the SHA-256 digest of the encoded serialization of the value |
| `Simulations.HandlePost` | src/simulations.ts:40-74 | `handleSimulationPost` answers only 201 or 400, always as JSON, and 201 only for a body that passes validation |
| `Simulations.HandleGet` | src/simulations.ts:76-114 | `handleSimulationGet` answers only 200, 404 or 500, always as JSON, and anything but 404 only when an `id` parameter is present |
| `Simulations.RouteSimulation` | src/simulations.ts:116-124 | `routeSimulation` throws only for a POST; what it returns has status 200, 201, 400, 404, 405 or 500 and no header but Content-Type |
| `Simulations.SubmittedRow` | src/simulations.ts:44-57 | the inserted row carries the body's id, user_id, env_id, data, result and summary, and the hex digest of the `data` field alone |
| `Simulations.PostCreated` | src/simulations.ts:40-66 | a POST body gets 201 exactly when it passes validation and the insert of its row succeeds; the reply is "Simulation inserted successfully" with the submitted id and the hex digest of `data` |
| `Simulations.PostRejected` | src/simulations.ts:40-74 | a body that fails validation gets 400 with the validation message; an insert that throws gets 400 with the error's message ("Unknown error" for a non-Error) |
| `Simulations.InvalidPostIgnoresStore` | src/simulations.ts:40-46 | validation runs before the insert: an invalid body's reply does not depend on the store |
| `Simulations.GetOutcomes` | src/simulations.ts:76-114 | no id gives 404 "Query not valid"; no row gives 404 "Simulation not found"; a row gives 200 with that row; a throwing lookup gives 500 "Error retrieving simulation", whatever was thrown |
| `Simulations.RouteOutcomes` | src/simulations.ts:116-124 | only a POST whose body does not parse throws out of the handler, and it throws the parser's error; other methods than GET and POST get 405 "Method Not Allowed" |
| `Index.Route` | src/index.ts:27-43 | the routed response (before CORS) has status 200, 201, 400, 404, 405 or 500 and carries no header but Content-Type, so none of the CORS names |
| `Index.CorsHeaders` | src/index.ts:3-17 | always the allowed-methods and allowed-headers entries with their fixed values; the allow-origin entry exactly when the Origin is one of the two allow-listed origins, with the Origin verbatim; no other keys |
| `Index.EmptyOriginGetsNoAllowOrigin` | src/index.ts:12-14 | an empty or absent Origin header gets no allow-origin entry |
| `Index.OtherPathNotFound` | src/index.ts:29-33 | any path other than "/api/simulations" gets plain-text 404 "Not Found", whatever the method |
| `Index.EscapedErrorIsServerError` | src/index.ts:34-43 | a POST whose body does not parse becomes a 500 carrying the error's message, or "Internal Server Error" for a non-Error value |
| `Index.StatusTable` | src/index.ts:27-43 | the status of every request: 200, 201, 400, 404, 405 or 500, each exactly under its condition on path, method, body, id parameter and store outcome |
| `Index.Headers.constructor` | src/index.ts:29-42 | the header list of whichever response `response` holds (routed, 404 or 500) starts as the headers that response was built with |
| `Index.Headers.Set` | src/index.ts:48 | setting a header replaces or adds that one name and leaves the rest |
| `Index.ApplyCors` | src/index.ts:46-49 | setting the CORS entries one by one leaves the old headers overridden by the CORS map |
| `Index.MergeSetsOnlyCors` | src/index.ts:45-51 | after the merge the fixed CORS values are present, the allow-origin entry follows the allow-list and, when `getCorsHeaders` sets it, holds the request's Origin verbatim; every other header is unchanged in presence and value |
| `Index.Fetch` | src/index.ts:24-52 | the response has the routed status and body, and the routed headers merged with the CORS headers of the request's Origin; it always carries the fixed methods and headers values, and carries Access-Control-Allow-Origin exactly when the Origin is one of the two allow-listed origins, with the Origin verbatim |

## Left out

- SHA-256, `TextEncoder` and `JSON.stringify` are inputs of the model (`Runtime`); the digest, the UTF-8 encoding and the serializer's dependence on key order are not modelled. JSON objects are maps, so key order is not represented at all.
- JSON numbers are exact reals (`Num(n: real)`): IEEE-double rounding, `-0`, and `Infinity` from an overflowing literal such as `1e400` (still `typeof 'number'`) are not represented; no validated behaviour depends on them.
- The D1 database is replaced by abstract outcomes (`Store`): SQL semantics, `created_at`, primary-key uniqueness and a POST-then-GET round trip depend on the store and are not modelled.
- The `simulationId === null` branch after `has('id')` cannot be taken and is not modelled.
- `new URL(...)`, `searchParams`, `request.json()` and the runtime's Request, Response and Headers objects are represented by the values they yield: header names are kept as written (the runtime's case-insensitive names are not modelled), text responses carry no default content type, and response bodies are kept as JSON values rather than serialized strings.
- The runtime's normalisation of method names is not modelled; the method is compared as a string.
- `in` on an array, and on properties inherited from the object prototype, is modelled only for the six required names, for which it is false.
- `console.error` logging, async sequencing, and the `env` and `ctx` parameters are I/O and runtime concerns and are left out.
