/**
 * The simulation handler: the content hash, the POST and GET handlers and
 * the method switch. The store and the runtime's serializer, text encoder
 * and SHA-256 are inputs.
 */
module Simulations {
  import opened Wrappers
  import opened Json
  import opened HexEncoding
  import opened Validation
  import opened Http

  /** A SHA-256 digest: 32 bytes. */
  type Digest = s: seq<Byte> | |s| == 32 witness seq(32, _ => 0)

  /** The runtime calls the hash is built from: `JSON.stringify`, `TextEncoder.encode` and SHA-256. */
  datatype Runtime = Runtime(
    stringify: Value -> string,
    encode: string -> seq<Byte>,
    sha256: seq<Byte> -> Digest)

  /** The digest that `generateDataHash` encodes: SHA-256 of the UTF-8 bytes of the serialization. */
  function DataDigest(rt: Runtime, data: Value): Digest
  {
    rt.sha256(rt.encode(rt.stringify(data)))
  }

  /** `generateDataHash`: 64 lower-case hex characters that decode to the digest of the serialized value. */
  function GenerateDataHash(rt: Runtime, data: Value): (h: string)
    ensures |h| == 64
    ensures forall k :: 0 <= k < |h| ==> IsHexDigit(h[k])
    ensures FromHex(h) == Some(DataDigest(rt, data))
  {
    var digest := DataDigest(rt, data);
    HexLayout(digest);
    HexAlphabet(digest);
    HexRoundTrip(digest);
    Hex(digest)
  }

  /** The row the POST handler inserts; `created_at` is filled in by the store. */
  datatype Row = Row(
    id: string,
    userId: string,
    envId: string,
    dataHash: string,
    data: Value,
    result: real,
    summary: Value)

  /** What the INSERT statement does: succeeds, or throws (a duplicate id, say). */
  datatype InsertOutcome = Inserted | InsertThrew(error: Thrown)

  /** What the SELECT by id does: a row, no row, or a throw. */
  datatype SelectOutcome = Found(row: map<string, Value>) | NotFound | SelectThrew(error: Thrown)

  /** The database, as the two statements the handlers run. */
  datatype Store = Store(
    insert: Row -> InsertOutcome,
    selectById: string -> SelectOutcome)

  const InsertedMessage := "Simulation inserted successfully"
  const NotFoundMessage := "Simulation not found"
  const QueryNotValidMessage := "Query not valid"
  const RetrieveErrorMessage := "Error retrieving simulation"
  const UnknownErrorMessage := "Unknown error"

  /** The row built from a validated body and its hash. */
  function RowOf(p: PostData, hash: string): Row
  {
    Row(p.id, p.userId, p.envId, hash, p.data, p.result, p.summary)
  }

  /** The body of a 201 response. */
  function CreatedBody(id: string, hash: string): Body
  {
    JsonBody(Obj(map["message" := Str(InsertedMessage), "id" := Str(id), "data_hash" := Str(hash)]))
  }

  /** `handleSimulationPost`: validate, hash the `data` field, insert; any failure becomes a 400. */
  function HandlePost(rt: Runtime, store: Store, payload: Value): (r: Reply)
    ensures r.status in {201, 400}
    ensures r.headers == JsonHeaders
    ensures r.status == 201 ==> Validate(payload).Ok?
  {
    match Validate(payload)
    case Err(e) => JsonMessage(400, e.Message())
    case Ok(p) =>
      var hash := GenerateDataHash(rt, p.data);
      match store.insert(RowOf(p, hash))
      case Inserted => Reply(201, CreatedBody(p.id, hash), JsonHeaders)
      case InsertThrew(e) => JsonMessage(400, ThrownMessage(e, UnknownErrorMessage))
  }

  /** `handleSimulationGet`, given the `id` query parameter. */
  function HandleGet(store: Store, idParam: Option<string>): (r: Reply)
    ensures r.status in {200, 404, 500}
    ensures r.headers == JsonHeaders
    ensures r.status != 404 ==> idParam.Some?
  {
    match idParam
    case None => JsonMessage(404, QueryNotValidMessage)
    case Some(id) =>
      match store.selectById(id)
      case Found(row) => Reply(200, JsonBody(Obj(row)), JsonHeaders)
      case NotFound => JsonMessage(404, NotFoundMessage)
      case SelectThrew(_) => JsonMessage(500, RetrieveErrorMessage)
  }

  /** `routeSimulation`: POST reads the body (a parse failure escapes), GET reads by id, anything else is 405. */
  function RouteSimulation(rt: Runtime, store: Store, req: Request): (c: Completion)
    ensures c.Threw? ==> req.verb == "POST"
    ensures c.Returned? ==> c.reply.status in {200, 201, 400, 404, 405, 500}
    ensures c.Returned? ==> c.reply.headers.Keys <= {"Content-Type"}
  {
    if req.verb == "POST" then
      match req.body
      case Malformed(e) => Threw(e)
      case Parsed(v) => Returned(HandlePost(rt, store, v))
    else if req.verb == "GET" then
      Returned(HandleGet(store, req.idParam))
    else
      Returned(TextReply(405, "Method Not Allowed"))
  }

  /** The row a valid body becomes: its fields, and the hash of its `data` field alone. */
  function SubmittedRow(rt: Runtime, payload: Value): (row: Row)
    requires Acceptable(payload)
    ensures Str(row.id) == payload.fields["id"]
    ensures Str(row.userId) == payload.fields["user_id"]
    ensures Str(row.envId) == payload.fields["env_id"]
    ensures row.data == payload.fields["data"]
    ensures Num(row.result) == payload.fields["result"]
    ensures row.summary == payload.fields["summary"]
    ensures row.dataHash == Hex(DataDigest(rt, payload.fields["data"]))
  {
    RowOf(Validate(payload).value, GenerateDataHash(rt, Validate(payload).value.data))
  }

  /** A POST is created (201) exactly when the body is acceptable and the insert of its row succeeds; the reply echoes the id and the hash of `data`. */
  lemma PostCreated(rt: Runtime, store: Store, payload: Value)
    ensures HandlePost(rt, store, payload).status == 201 <==>
      Acceptable(payload) && store.insert(SubmittedRow(rt, payload)) == Inserted
    ensures HandlePost(rt, store, payload).status == 201 ==>
      HandlePost(rt, store, payload) ==
        Reply(201, CreatedBody(payload.fields["id"].s, Hex(DataDigest(rt, payload.fields["data"]))), JsonHeaders)
  {
  }

  /** Every other POST outcome is a 400 carrying the validation message or the insert error's message. */
  lemma PostRejected(rt: Runtime, store: Store, payload: Value)
    ensures !Acceptable(payload) ==>
      HandlePost(rt, store, payload) == JsonMessage(400, Validate(payload).error.Message())
    ensures Acceptable(payload) && store.insert(SubmittedRow(rt, payload)).InsertThrew? ==>
      HandlePost(rt, store, payload) ==
        JsonMessage(400, ThrownMessage(store.insert(SubmittedRow(rt, payload)).error, UnknownErrorMessage))
  {
  }

  /** A body that fails validation never reaches the store: the reply is the same whatever the store does. */
  lemma InvalidPostIgnoresStore(rt: Runtime, s1: Store, s2: Store, payload: Value)
    requires !Acceptable(payload)
    ensures HandlePost(rt, s1, payload) == HandlePost(rt, s2, payload)
  {
  }

  /** The GET outcomes: 404 without an id or without a row, 200 with the row, 500 with a generic message on a throw. */
  lemma GetOutcomes(store: Store, idParam: Option<string>)
    ensures idParam.None? ==> HandleGet(store, idParam) == JsonMessage(404, QueryNotValidMessage)
    ensures HandleGet(store, idParam).status == 200 <==>
      idParam.Some? && store.selectById(idParam.value).Found?
    ensures HandleGet(store, idParam).status == 200 ==>
      HandleGet(store, idParam).body == JsonBody(Obj(store.selectById(idParam.value).row))
    ensures idParam.Some? && store.selectById(idParam.value) == NotFound ==>
      HandleGet(store, idParam) == JsonMessage(404, NotFoundMessage)
    ensures HandleGet(store, idParam).status == 500 <==>
      idParam.Some? && store.selectById(idParam.value).SelectThrew?
    ensures HandleGet(store, idParam).status == 500 ==>
      HandleGet(store, idParam) == JsonMessage(500, RetrieveErrorMessage)
  {
  }

  /** Only a POST with an unreadable body throws out of the handler; a method other than GET or POST is a 405. */
  lemma RouteOutcomes(rt: Runtime, store: Store, req: Request)
    ensures RouteSimulation(rt, store, req).Threw? <==> req.verb == "POST" && req.body.Malformed?
    ensures RouteSimulation(rt, store, req).Threw? ==> RouteSimulation(rt, store, req).error == req.body.error
    ensures req.verb != "GET" && req.verb != "POST" ==>
      RouteSimulation(rt, store, req) == Returned(TextReply(405, "Method Not Allowed"))
  {
  }
}
