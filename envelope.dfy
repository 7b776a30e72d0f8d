/** Optional values: a field that a request or a row may leave undefined. */
module Optional {
  datatype Option<+T> = None | Some(value: T) {
    function GetOr(default: T): T {
      match this
      case Some(v) => v
      case None => default
    }
  }
}

/** The uniform response envelope every service answers with
    (src/modules/functions/functions.service.ts, `generateResponseApi`). */
module Envelope {
  import opened Optional

  // The HTTP status codes the services use.
  const OK: int := 200
  const CREATED: int := 201
  const BAD_REQUEST: int := 400
  const NOT_FOUND: int := 404
  const REQUEST_TIMEOUT: int := 408
  const CONFLICT: int := 409
  const INTERNAL_SERVER_ERROR: int := 500

  /** Members of the `Messages` enumeration; their text is not part of the
      model, only that they are distinct and non-empty. */
  datatype MessageKey =
    | InternalServerError | Successful | SuccessfullyCreated | SuccessfullyUpdated
    | SuccessfullyDeleted | NoDataFound | ErrorCreating | ErrorUpdating | ErrorFetching

  /** A message: an enumeration member, a member followed by a detail
      (`${Messages.ERROR_CREATING} "..."`), or free text. */
  datatype Message = Key(key: MessageKey) | Keyed(key: MessageKey, detail: string) | Text(text: string)

  /** JavaScript truthiness of a message: only the empty text is falsy. */
  predicate Truthy(m: Message) {
    !(m.Text? && m.text == "")
  }

  datatype Meta = Meta(page: int, pageSize: int, totalPages: int, total: int, search: string)

  /** The argument of `generateResponseApi`: every field may be left out. */
  datatype Values<D> = Values(
    ok: Option<bool>, status: Option<int>, message: Option<Message>,
    data: Option<seq<D>>, meta: Option<Meta>, issues: Option<seq<string>>)

  /** The envelope `{ok, status, message, data, meta, issues}`. */
  datatype Body<D> = Body(
    ok: bool, status: int, message: Message,
    data: Option<seq<D>>, meta: Option<Meta>, issues: Option<seq<string>>)

  datatype Kind = HttpException | Objet

  /** What a service call ends with: the envelope returned as a value, the
      envelope thrown inside an `HttpException` with its status code, or no
      value at all (a path that computes an envelope and drops it). */
  datatype Response<D> = Returned(body: Body<D>) | Thrown(body: Body<D>, code: int) | NoBody {
    predicate IsError(status: int) {
      Thrown? && code == status && !body.ok
    }
  }

  function MessageOf<D>(values: Values<D>): (m: Message)
    ensures values.message.Some? && Truthy(values.message.value) ==> m == values.message.value
    ensures !(values.message.Some? && Truthy(values.message.value)) ==>
      m == if values.ok == Some(true) then Key(Successful) else Key(InternalServerError)
  {
    var given := values.message.Some? && Truthy(values.message.value);
    if !given && values.ok != Some(true) then Key(InternalServerError)
    else if given then values.message.value
    else Key(Successful)
  }

  /** `ok || false`, `status || 500`, the message rule, the other fields copied;
      returned for 'Objet', thrown with the status otherwise. */
  function GenerateResponseApi<D>(values: Values<D>, kind: Kind := HttpException): (r: Response<D>)
    ensures r.Returned? <==> kind == Objet
    ensures !r.NoBody?
    ensures r.body.ok <==> values.ok == Some(true)
    ensures values.status.Some? && values.status.value != 0 ==> r.body.status == values.status.value
    ensures values.status.None? || values.status == Some(0) ==> r.body.status == INTERNAL_SERVER_ERROR
    ensures r.Thrown? ==> r.code == r.body.status
    ensures r.body.message == MessageOf(values)
    ensures r.body.data == values.data && r.body.meta == values.meta && r.body.issues == values.issues
  {
    var status := if values.status.Some? && values.status.value != 0 then values.status.value else INTERNAL_SERVER_ERROR;
    var body := Body(values.ok == Some(true), status, MessageOf(values), values.data, values.meta, values.issues);
    if kind == Objet then Returned(body) else Thrown(body, status)
  }

  /** The error path every service takes: `generateResponseApi({status, message})`. */
  function Fail<D>(status: int, message: Message): (r: Response<D>)
    requires status != 0 && Truthy(message)
    ensures r.IsError(status) && r.body.message == message
    ensures r.body.data.None?
  {
    GenerateResponseApi(Values(None, Some(status), Some(message), None, None, None))
  }

  /** A success envelope with the given status, message and data. */
  function Success<D>(status: int, message: Option<Message>, data: Option<seq<D>>, meta: Option<Meta>, kind: Kind): (r: Response<D>)
    requires status != 0
    ensures r.Returned? <==> kind == Objet
    ensures !r.NoBody? && r.body.ok && r.body.status == status && r.body.data == data && r.body.meta == meta
    ensures r.Thrown? ==> r.code == status
  {
    GenerateResponseApi(Values(Some(true), Some(status), message, data, meta, None), kind)
  }

  /** The catch-all `generateResponseApi({})` of every `catch` block that
      meets an error other than an `HttpException`: a thrown 500 whose
      message is INTERNAL_SERVER_ERROR. */
  function Unexpected<D>(): (r: Response<D>)
    ensures r.IsError(INTERNAL_SERVER_ERROR) && r.body.message == Key(InternalServerError)
    ensures r.body.data.None? && r.body.meta.None?
  {
    GenerateResponseApi(Values(None, None, None, None, None, None))
  }

  /** A one-argument call throws even when it reports success. */
  lemma DefaultKindThrows<D>(values: Values<D>)
    ensures GenerateResponseApi(values).Thrown?
  {
  }

  /** An envelope whose message is the default SUCCESSFUL is an `ok` one, and
      one whose message is the default INTERNAL_SERVER_ERROR is not, unless the
      caller passed those messages themselves. */
  lemma DefaultMessageMatchesOk<D>(values: Values<D>, kind: Kind)
    requires values.message.None?
    ensures GenerateResponseApi(values, kind).body.message ==
            (if GenerateResponseApi(values, kind).body.ok then Key(Successful) else Key(InternalServerError))
  {
  }
}
