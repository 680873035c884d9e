/**
 * The data-access layer of the observation client: the five request builders
 * and `fetchJson`, which turns whatever the transport produced into exactly one
 * outcome. `fetch`, JSON parsing and the `Headers` object are foreign; the
 * transport's result is an input here.
 */
module Api {
  import opened Wrappers

  /** An observation as the client holds it: each field name mapped to its text. */
  type Record = map<string, string>

  /** The default base URL; the `API_BASE_URL` environment override is not modelled. */
  const ApiBaseUrl: string := "http://localhost:5000"

  const AbortErrorName: string := "AbortError"
  const NoContentStatus: int := 204
  const ObservationIdField: string := "observation_id"

  // ---------------------------------------------------------------------------
  // Requests

  datatype Method = Get | Post | Put | Delete

  /** A cancellation token (an `AbortSignal`), known only by its identity. */
  datatype Signal = Signal(id: nat)

  /** The JSON request body `{ data: observation }`. */
  datatype Envelope = Data(observation: Record)

  /**
   * The options object handed to `fetch`: an absent `httpMethod` (the `method` key) means GET,
   * `headers` says whether the shared `Content-Type: application/json`
   * headers are attached.
   */
  datatype Options = Options(httpMethod: Option<Method>, headers: bool, body: Option<Envelope>, signal: Option<Signal>)

  /** What `fetch` is asked to do. */
  datatype Request = Request(url: string, options: Options)

  /** The argument list of one `fetchJson` call, trailing extra arguments included. */
  datatype Invocation = Invocation(url: string, options: Options, extra: seq<Record>)

  /** The method `fetch` uses for these options. */
  function Verb(o: Options): Method {
    if o.httpMethod.Some? then o.httpMethod.value else Get
  }

  /**
   * The request `fetchJson` passes on: it declares only `url` and `options`,
   * so any further argument is dropped.
   */
  function Issued(call: Invocation): Request {
    Request(call.url, call.options)
  }

  function CollectionUrl(): string {
    ApiBaseUrl + "/observations"
  }

  function ItemPrefix(): string {
    ApiBaseUrl + "/observations/"
  }

  function ItemUrl(id: string): string {
    ItemPrefix() + id
  }

  /** The template text of `observation.observation_id`: "undefined" when the key is absent. */
  function IdText(observation: Record): string {
    if ObservationIdField in observation then observation[ObservationIdField] else "undefined"
  }

  function CreateObservation(observation: Record, signal: Option<Signal>): Invocation {
    Invocation(CollectionUrl(), Options(Some(Post), true, Some(Data(observation)), signal), [])
  }

  function ListObservations(signal: Option<Signal>): Invocation {
    Invocation(CollectionUrl(), Options(None, true, None, signal), [])
  }

  /** Passes `{ signal }` only, plus an ignored empty object. */
  function ReadObservation(observationId: string, signal: Option<Signal>): Invocation {
    Invocation(ItemUrl(observationId), Options(None, false, None, signal), [map[]])
  }

  /** Passes the observation itself as an ignored third argument. */
  function UpdateObservation(updated: Record, signal: Option<Signal>): Invocation {
    Invocation(ItemUrl(IdText(updated)), Options(Some(Put), true, Some(Data(updated)), signal), [updated])
  }

  /** No headers and no body. */
  function DeleteObservation(observationId: string, signal: Option<Signal>): Invocation {
    Invocation(ItemUrl(observationId), Options(Some(Delete), false, None, signal), [])
  }

  /** One logical CRUD operation of the access layer. */
  datatype Operation =
    | CreateOp(observation: Record)
    | ListOp
    | ReadOp(id: string)
    | UpdateOp(observation: Record)
    | DeleteOp(id: string)

  function Build(op: Operation, signal: Option<Signal>): Invocation {
    match op
    case CreateOp(o) => CreateObservation(o, signal)
    case ListOp => ListObservations(signal)
    case ReadOp(id) => ReadObservation(id, signal)
    case UpdateOp(o) => UpdateObservation(o, signal)
    case DeleteOp(id) => DeleteObservation(id, signal)
  }

  /** One call of an access-layer function: which operation, with which signal. */
  datatype ApiCall = ApiCall(op: Operation, signal: Option<Signal>)

  /** The request `fetch` receives for a call. */
  function Sent(call: ApiCall): Request {
    Issued(Build(call.op, call.signal))
  }

  predicate HasItemPrefix(url: string) {
    |ItemPrefix()| <= |url| && url[..|ItemPrefix()|] == ItemPrefix()
  }

  /**
   * Reads a request back into the operation and signal that produced it, and
   * refuses anything no builder sends: the left inverse of `Build`, written
   * from the request's shape rather than by running the builders.
   */
  function Decode(r: Request): Option<(Operation, Option<Signal>)> {
    var o := r.options;
    if r.url == CollectionUrl() then
      if o.httpMethod == Some(Post) && o.headers && o.body.Some? then
        Some((CreateOp(o.body.value.observation), o.signal))
      else if o.httpMethod.None? && o.headers && o.body.None? then
        Some((ListOp, o.signal))
      else None
    else if HasItemPrefix(r.url) then
      var id := r.url[|ItemPrefix()|..];
      if o.httpMethod.None? && !o.headers && o.body.None? then
        Some((ReadOp(id), o.signal))
      else if o.httpMethod == Some(Put) && o.headers && o.body.Some? && IdText(o.body.value.observation) == id then
        Some((UpdateOp(o.body.value.observation), o.signal))
      else if o.httpMethod == Some(Delete) && !o.headers && o.body.None? then
        Some((DeleteOp(id), o.signal))
      else None
    else None
  }

  lemma ItemUrlParts(id: string)
    ensures HasItemPrefix(ItemUrl(id))
    ensures ItemUrl(id)[|ItemPrefix()|..] == id
    ensures ItemUrl(id) != CollectionUrl()
  {
    assert |ItemUrl(id)| > |CollectionUrl()|;
  }

  /** Every builder's request is read back as the operation and signal it was built from. */
  lemma DecodeBuild(op: Operation, signal: Option<Signal>)
    ensures Decode(Issued(Build(op, signal))) == Some((op, signal))
  {
    match op
    case CreateOp(_) =>
    case ListOp =>
    case ReadOp(id) => ItemUrlParts(id);
    case UpdateOp(o) => ItemUrlParts(IdText(o));
    case DeleteOp(id) => ItemUrlParts(id);
  }

  /** Conversely, every request `Decode` accepts is exactly what the builders produce. */
  lemma BuildDecode(r: Request)
    requires Decode(r).Some?
    ensures Issued(Build(Decode(r).value.0, Decode(r).value.1)) == r
  {
    if r.url != CollectionUrl() {
      var n := |ItemPrefix()|;
      assert r.url == r.url[..n] + r.url[n..];
    }
  }

  /** No two operations (or signals) produce the same request. */
  lemma BuildInjective(op1: Operation, s1: Option<Signal>, op2: Operation, s2: Option<Signal>)
    requires Issued(Build(op1, s1)) == Issued(Build(op2, s2))
    ensures op1 == op2 && s1 == s2
  {
    DecodeBuild(op1, s1);
    DecodeBuild(op2, s2);
  }

  /** The method, target, headers and body of each builder's request. */
  lemma RequestShapes(observation: Record, id: string, signal: Option<Signal>)
    ensures var r := Issued(CreateObservation(observation, signal));
      Verb(r.options) == Post && r.url == CollectionUrl() && r.options.headers
      && r.options.body == Some(Data(observation)) && r.options.signal == signal
    ensures var r := Issued(ListObservations(signal));
      Verb(r.options) == Get && r.options.httpMethod.None? && r.url == CollectionUrl()
      && r.options.headers && r.options.body.None?
    ensures var r := Issued(ReadObservation(id, signal));
      Verb(r.options) == Get && r.url == ItemUrl(id) && !r.options.headers && r.options.body.None?
    ensures var r := Issued(UpdateObservation(observation, signal));
      Verb(r.options) == Put && r.options.headers && r.options.body == Some(Data(observation))
      && (ObservationIdField in observation ==> r.url == ItemUrl(observation[ObservationIdField]))
      && (ObservationIdField !in observation ==> r.url == ItemUrl("undefined"))
    ensures var r := Issued(DeleteObservation(id, signal));
      Verb(r.options) == Delete && r.url == ItemUrl(id) && !r.options.headers && r.options.body.None?
  {
  }

  // ---------------------------------------------------------------------------
  // Responses

  /** A thrown JavaScript error, by its `name` and `message`. */
  datatype Exception = Exception(name: string, message: string)

  /** The parsed JSON body: its `error` and `data` fields, each possibly absent. */
  datatype Payload<V> = Payload(error: Option<string>, data: Option<V>)

  /**
   * Reading the body: the payload, or the exception raised on the way from
   * the status check to the payload's fields. That is `response.json()`
   * failing, or a JSON `null` body whose `error` field cannot be read.
   */
  datatype Body<V> = Parsed(payload: Payload<V>) | Unparsable(failure: Exception)

  /** What `fetch` produced: a response with its status, or a thrown error. */
  datatype Transport<V> = Response(status: int, body: Body<V>) | Thrown(failure: Exception)

  /** How the promise returned by `fetchJson` settles. */
  datatype Outcome<V> = ResolveNull | ResolveData(value: V) | ResolveUndefined | Reject(message: string)

  /** JavaScript truthiness of an optional string field. */
  predicate Truthy(field: Option<string>) {
    field.Some? && field.value != ""
  }

  /** The catch block: an `AbortError` falls through to `undefined`, anything else rejects. */
  function Catch<V>(e: Exception): Outcome<V> {
    if e.name != AbortErrorName then Reject(e.message) else ResolveUndefined
  }

  function FetchJson<V>(t: Transport<V>): Outcome<V> {
    match t
    case Thrown(e) => Catch(e)
    case Response(status, body) =>
      if status == NoContentStatus then ResolveNull
      else
        match body
        case Unparsable(e) => Catch(e)
        case Parsed(payload) =>
          if Truthy(payload.error) then Reject(payload.error.value)
          else if payload.data.Some? then ResolveData(payload.data.value)
          else ResolveUndefined
  }

  // Reference reading of a transport result, independent of the classifier.

  predicate NoContent<V>(t: Transport<V>) {
    t.Response? && t.status == NoContentStatus
  }

  /** The exception the try block raises, if any. */
  function Raised<V>(t: Transport<V>): Option<Exception> {
    if t.Thrown? then Some(t.failure)
    else if t.status != NoContentStatus && t.body.Unparsable? then Some(t.body.failure)
    else None
  }

  /** The payload the try block gets to inspect, if any. */
  function Inspected<V>(t: Transport<V>): Option<Payload<V>> {
    if t.Response? && t.status != NoContentStatus && t.body.Parsed? then Some(t.body.payload) else None
  }

  /** Every transport result is a no-content response, a raised exception, or an inspected payload. */
  lemma TransportPartition<V>(t: Transport<V>)
    ensures NoContent(t) || Raised(t).Some? || Inspected(t).Some?
    ensures !(NoContent(t) && Raised(t).Some?)
    ensures !(NoContent(t) && Inspected(t).Some?)
    ensures !(Raised(t).Some? && Inspected(t).Some?)
  {
  }

  /** Each outcome, with the exact circumstances that produce it. */
  lemma FetchJsonOutcomes<V>(t: Transport<V>)
    ensures FetchJson(t).ResolveNull? <==> NoContent(t)
    ensures FetchJson(t).Reject? <==>
      || (Raised(t).Some? && Raised(t).value.name != AbortErrorName)
      || (Inspected(t).Some? && Truthy(Inspected(t).value.error))
    ensures Raised(t).Some? && Raised(t).value.name != AbortErrorName ==>
      FetchJson(t) == Reject(Raised(t).value.message)
    ensures Inspected(t).Some? && Truthy(Inspected(t).value.error) ==>
      FetchJson(t) == Reject(Inspected(t).value.error.value)
    ensures FetchJson(t).ResolveData? <==>
      Inspected(t).Some? && !Truthy(Inspected(t).value.error) && Inspected(t).value.data.Some?
    ensures FetchJson(t).ResolveData? ==> FetchJson(t).value == Inspected(t).value.data.value
    ensures FetchJson(t).ResolveUndefined? <==>
      || (Raised(t).Some? && Raised(t).value.name == AbortErrorName)
      || (Inspected(t).Some? && !Truthy(Inspected(t).value.error) && Inspected(t).value.data.None?)
  {
  }

  /** A 204 resolves to null whatever the body holds: the body is never read. */
  lemma NoContentIgnoresBody<V>(b: Body<V>)
    ensures FetchJson(Response(NoContentStatus, b)) == ResolveNull
  {
  }

  /** Apart from 204 the status is never consulted: the payload alone decides. */
  lemma StatusNeverChecked<V>(s1: int, s2: int, b: Body<V>)
    requires s1 != NoContentStatus && s2 != NoContentStatus
    ensures FetchJson(Response(s1, b)) == FetchJson(Response(s2, b))
  {
  }

  /** A truthy `error` field rejects with its text even on a success status. */
  lemma PayloadErrorRejects<V>(status: int, message: string, data: Option<V>)
    requires status != NoContentStatus && message != ""
    ensures FetchJson(Response(status, Parsed(Payload(Some(message), data)))) == Reject(message)
  {
  }

  /** A missing or empty `error` field falls through to `data`, even on an error status. */
  lemma FalsyErrorResolvesData<V>(status: int, error: Option<string>, v: V)
    requires status != NoContentStatus && (error.None? || error == Some(""))
    ensures FetchJson(Response(status, Parsed(Payload(error, Some(v))))) == ResolveData(v)
  {
  }
}
