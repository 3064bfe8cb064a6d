/**
 * The envelope handling every endpoint shares: a 4xx/5xx status fails before the body is
 * read; otherwise the body's `ok` boolean selects the Success or the Error variant. The
 * `unwrap()` and `panic!` calls of the endpoints are kept as an explicit Panicked outcome.
 */
module Envelope {
  import opened Wrappers
  import opened Json
  import opened Http

  /** The `unwrap()` / `panic!` sites that abort the process. */
  datatype Panic =
      /** `value.get(key).unwrap()` when there is no such key */
    | MissingKey(key: string)
      /** `.as_bool().unwrap()`, `.as_str().unwrap()`, `.as_array().unwrap()` on another kind */
    | NotOfKind(key: string, kind: string)
      /** `serde_json::from_value::<target>(..).unwrap()` when deserialisation fails */
    | Undeserializable(target: string)
      /** `panic!("Unexpected type")` in reactions.get */
    | UnexpectedType
      /** `panic!("Unexpected item type: {}", found)` in reactions.list */
    | UnexpectedItemType(found: string)

  /** The `reqwest::Error` an endpoint returns as `Err`. */
  datatype ClientError =
    | Transport                     // `send().await?` never got a reply
    | HttpStatus(status: StatusCode) // `error_for_status()` on a 4xx or 5xx reply
    | BodyNotJson                   // `json::<Value>()` could not read the body as JSON

  /** What a call to an endpoint does: returns a value, returns an error, or panics. */
  datatype Outcome<+T> = Returned(value: T) | Failed(error: ClientError) | Panicked(reason: Panic)

  /** `BotsInfoError`, `EmojiError`, `ReactionsError`: the same `{ok, error}` shape. */
  datatype ApiError = ApiError(ok: bool, error: string)

  /** The two variants of every `...Response` enum. */
  datatype ApiResponse<+S> = Success(success: S) | Error(error: ApiError)

  /** `value.get(key).unwrap()` */
  function Field(v: Json, key: string): (r: Result<Json, Panic>)
    ensures r.Ok? <==> Get(v, key).Some?
    ensures r.Ok? ==> Get(v, key) == Some(r.value)
    ensures r.Fail? ==> r.error == MissingKey(key)
  {
    match Get(v, key)
    case Some(x) => Ok(x)
    case None => Fail(MissingKey(key))
  }

  /** `value.get(key).unwrap().as_str().unwrap()` */
  function StrField(v: Json, key: string): (r: Result<string, Panic>)
    ensures r.Ok? <==> Get(v, key).Some? && Get(v, key).value.JStr?
    ensures r.Ok? ==> Get(v, key) == Some(JStr(r.value))
    ensures r.Fail? ==> r.error == if Get(v, key).None? then MissingKey(key) else NotOfKind(key, "str")
  {
    var x :- Field(v, key);
    if x.JStr? then Ok(x.s) else Fail(NotOfKind(key, "str"))
  }

  /** `value.get(key).unwrap().as_bool().unwrap()` */
  function BoolField(v: Json, key: string): (r: Result<bool, Panic>)
    ensures r.Ok? <==> Get(v, key).Some? && Get(v, key).value.JBool?
    ensures r.Ok? ==> Get(v, key) == Some(JBool(r.value))
    ensures r.Fail? ==> r.error == if Get(v, key).None? then MissingKey(key) else NotOfKind(key, "bool")
  {
    var x :- Field(v, key);
    if x.JBool? then Ok(x.b) else Fail(NotOfKind(key, "bool"))
  }

  /** `value.get(key).unwrap().as_array().unwrap()` */
  function ArrayField(v: Json, key: string): (r: Result<seq<Json>, Panic>)
    ensures r.Ok? <==> Get(v, key).Some? && Get(v, key).value.JArr?
    ensures r.Ok? ==> Get(v, key) == Some(JArr(r.value))
    ensures r.Fail? ==> r.error == if Get(v, key).None? then MissingKey(key) else NotOfKind(key, "array")
  {
    var x :- Field(v, key);
    if x.JArr? then Ok(x.elems) else Fail(NotOfKind(key, "array"))
  }

  /** `serde_json::from_value::<target>(..).unwrap()` */
  function Unwrap<T>(x: Option<T>, target: string): (r: Result<T, Panic>)
    ensures r.Ok? <==> x.Some?
    ensures r.Ok? ==> x == Some(r.value)
    ensures r.Fail? ==> r.error == Undeserializable(target)
  {
    match x
    case Some(y) => Ok(y)
    case None => Fail(Undeserializable(target))
  }

  /** Deserialising the `{ok, error}` error struct. */
  function DecodeApiError(v: Json): (r: Option<ApiError>)
    ensures r.Some? <==>
      && v.JObj? && Get(v, "ok").Some? && Get(v, "ok").value.JBool?
      && Get(v, "error").Some? && Get(v, "error").value.JStr?
    ensures r.Some? ==> Get(v, "ok") == Some(JBool(r.value.ok)) && Get(v, "error") == Some(JStr(r.value.error))
  {
    if !v.JObj? then None
    else
      var ok :- Required(v.members, "ok", AsBool);
      var error :- Required(v.members, "error", AsStr);
      Some(ApiError(ok, error))
  }

  function EncodeApiError(e: ApiError): Json {
    JObj(map["ok" := JBool(e.ok), "error" := JStr(e.error)])
  }

  /** A body that passed the status check, was JSON, and had a boolean `ok`. */
  datatype Admitted = Admitted(ok: bool, body: Json)

  /** `error_for_status()`, `json::<Value>()`, then `value.get("ok").unwrap().as_bool().unwrap()`. */
  function Admit(reply: HttpReply): (r: Outcome<Admitted>)
    ensures r.Failed? <==> reply.Unanswered? || IsErrorStatus(reply.status) || reply.body.None?
    ensures r.Returned? ==>
      reply.Reply? && reply.body == Some(r.value.body) && Get(r.value.body, "ok") == Some(JBool(r.value.ok))
  {
    match reply
    case Unanswered => Failed(Transport)
    case Reply(status, body) =>
      if IsErrorStatus(status) then Failed(HttpStatus(status))
      else if body.None? then Failed(BodyNotJson)
      else
        match BoolField(body.value, "ok")
        case Ok(ok) => Returned(Admitted(ok, body.value))
        case Fail(p) => Panicked(p)
  }

  /** The `ok == false` arm: `Error(serde_json::from_value(value).unwrap())`. */
  function ErrorArm<S>(body: Json, errorType: string): Outcome<ApiResponse<S>> {
    match DecodeApiError(body)
    case Some(e) => Returned(Error(e))
    case None => Panicked(Undeserializable(errorType))
  }

  /** The `ok == true` arm, given what the endpoint's success decoding produced. */
  function SuccessArm<S>(decoded: Result<S, Panic>): Outcome<ApiResponse<S>> {
    match decoded
    case Ok(s) => Returned(Success(s))
    case Fail(p) => Panicked(p)
  }

  /** The whole response handling of one endpoint, given how it decodes a success body. */
  function Dispatch<S>(reply: HttpReply, errorType: string, success: Json -> Result<S, Panic>)
    : (r: Outcome<ApiResponse<S>>)
    ensures r.Failed? <==> Admit(reply).Failed?
    ensures r.Returned? ==> Admit(reply).Returned? && (r.value.Success? <==> Admit(reply).value.ok)
  {
    match Admit(reply)
    case Returned(a) => if a.ok then SuccessArm(success(a.body)) else ErrorArm(a.body, errorType)
    case Failed(e) => Failed(e)
    case Panicked(p) => Panicked(p)
  }

  /** A 4xx or 5xx status is an error whatever the body holds: no decoding happens. */
  lemma StatusBeforeBody<S>(status: StatusCode, body: Option<Json>, errorType: string,
                            success: Json -> Result<S, Panic>)
    requires IsErrorStatus(status)
    ensures Dispatch(Reply(status, body), errorType, success) == Failed(HttpStatus(status))
  {
  }

  /** The call returns an `Err` exactly for no reply, a 4xx/5xx status, or a body that is not JSON. */
  lemma FailedIff<S>(reply: HttpReply, errorType: string, success: Json -> Result<S, Panic>)
    ensures Dispatch(reply, errorType, success).Failed? <==>
      reply.Unanswered? || IsErrorStatus(reply.status) || reply.body.None?
  {
  }

  /**
   * With an admitted status and a JSON body, `ok` decides: true gives the success decoding,
   * false the error struct, and a missing or non-boolean `ok` panics.
   */
  lemma OkSelectsVariant<S>(status: StatusCode, v: Json, errorType: string,
                            success: Json -> Result<S, Panic>)
    requires !IsErrorStatus(status)
    ensures var r := Dispatch(Reply(status, Some(v)), errorType, success);
      && (Get(v, "ok") == Some(JBool(true)) ==> r == SuccessArm(success(v)))
      && (Get(v, "ok") == Some(JBool(false)) ==> r == ErrorArm(v, errorType))
      && (Get(v, "ok").None? ==> r == Panicked(MissingKey("ok")))
      && (Get(v, "ok").Some? && !Get(v, "ok").value.JBool? ==> r == Panicked(NotOfKind("ok", "bool")))
  {
  }

  /** A Success variant comes only from an admitted (not 4xx/5xx) JSON reply whose body says `ok: true`. */
  lemma SuccessIff<S>(reply: HttpReply, errorType: string, success: Json -> Result<S, Panic>, s: S)
    ensures Dispatch(reply, errorType, success) == Returned(Success(s)) <==>
      && reply.Reply? && !IsErrorStatus(reply.status) && reply.body.Some?
      && Get(reply.body.value, "ok") == Some(JBool(true))
      && success(reply.body.value) == Ok(s)
  {
  }

  /** An Error variant comes only from a body that says `ok: false` and carries its `error` string. */
  lemma ErrorIff<S>(reply: HttpReply, errorType: string, success: Json -> Result<S, Panic>, e: ApiError)
    ensures Dispatch(reply, errorType, success) == Returned(Error(e)) <==>
      && reply.Reply? && !IsErrorStatus(reply.status) && reply.body.Some?
      && Get(reply.body.value, "ok") == Some(JBool(false))
      && Get(reply.body.value, "error") == Some(JStr(e.error))
      && !e.ok
  {
    if reply.Reply? && reply.body.Some? {
      var v := reply.body.value;
      if Get(v, "ok") == Some(JBool(false)) && Get(v, "error").Some? && Get(v, "error").value.JStr? {
        assert DecodeApiError(v) == Some(ApiError(false, Get(v, "error").value.s));
      }
    }
  }

  /** Serialising an error struct and deserialising it gives it back. */
  lemma ApiErrorRoundTrip(e: ApiError)
    ensures DecodeApiError(EncodeApiError(e)) == Some(e)
  {
    var m := EncodeApiError(e).members;
    assert "ok" in m && m["ok"] == JBool(e.ok);
    assert "error" in m && m["error"] == JStr(e.error);
  }

  /** A served `{ok: false, error}` body comes back as the Error variant carrying that struct. */
  lemma ErrorEnvelopeRoundTrip<S>(status: StatusCode, e: ApiError, errorType: string,
                                  success: Json -> Result<S, Panic>)
    requires !IsErrorStatus(status) && !e.ok
    ensures Dispatch(Reply(status, Some(EncodeApiError(e))), errorType, success) == Returned(Error(e))
  {
    ApiErrorRoundTrip(e);
    assert Get(EncodeApiError(e), "ok") == Some(JBool(false));
  }
}
