/**
 * `ReactionsApi`: the wrappers of `reactions.add`, `reactions.get`, `reactions.list` and
 * `reactions.remove`. `get` and `list` resolve a polymorphic payload by its `type`
 * discriminator; `list` does so for every element of `items`, in order.
 */
module Reactions {
  import opened Wrappers
  import opened Numeric
  import opened Json
  import opened Http
  import opened Util
  import opened Envelope
  import opened ReactionsData

  const AddEndpoint := "https://slack.com/api/reactions.add"
  const GetEndpoint := "https://slack.com/api/reactions.get"
  const ListEndpoint := "https://slack.com/api/reactions.list"
  const RemoveEndpoint := "https://slack.com/api/reactions.remove"

  // ---------------- parameters and queries ----------------

  datatype AddParams = AddParams(channel: string, name: string, timestamp: string)

  datatype GetParams = GetParams(
    channel: Option<string>, file: Option<string>, fileComment: Option<string>,
    full: Option<bool>, timestamp: Option<string>)

  datatype ListParams = ListParams(
    count: Option<i32>, cursor: Option<string>, full: Option<bool>, limit: Option<i32>,
    page: Option<i32>, teamId: Option<string>, user: Option<string>)

  /** `name` is required; the remote service also wants channel and timestamp, or file, or file_comment. */
  datatype RemoveParams = RemoveParams(
    name: string, channel: Option<string>, file: Option<string>,
    fileComment: Option<string>, timestamp: Option<string>)

  /** `.map(|v| v.to_string())` on an optional flag. */
  function RenderBool(o: Option<bool>): (r: Option<string>)
    ensures r.Some? <==> o.Some?
    ensures o.Some? ==> ParseBool(r.value) == Some(o.value)
  {
    if o.Some? then BoolRoundTrip(o.value); Some(BoolToString(o.value)) else None
  }

  /** `.map(|v| v.to_string())` on an optional `i32`. */
  function RenderInt(o: Option<i32>): (r: Option<string>)
    ensures r.Some? <==> o.Some?
    ensures o.Some? ==> ParseInt(r.value) == Some(o.value as int)
  {
    if o.Some? then IntRoundTrip(o.value as int); Some(IntToString(o.value as int)) else None
  }

  /** The parameters `get` adds, in the order it adds them. */
  function GetFields(p: GetParams): seq<QueryField> {
    [("channel", p.channel), ("file", p.file), ("file_comment", p.fileComment),
     ("full", RenderBool(p.full)), ("timestamp", p.timestamp)]
  }

  /** The parameters `list` adds, in the order it adds them. */
  function ListFields(p: ListParams): seq<QueryField> {
    [("count", RenderInt(p.count)), ("cursor", p.cursor), ("full", RenderBool(p.full)),
     ("limit", RenderInt(p.limit)), ("page", RenderInt(p.page)), ("team_id", p.teamId),
     ("user", p.user)]
  }

  /** The parameters `remove` adds, in the order it adds them; `name` is always present. */
  function RemoveFields(p: RemoveParams): seq<QueryField> {
    [("channel", p.channel), ("file", p.file), ("file_comment", p.fileComment),
     ("name", Some(p.name)), ("timestamp", p.timestamp)]
  }

  /** `ReactionsListParams::default()`: nothing set, so `list` sends no query at all. */
  function DefaultListParams(): (p: ListParams)
    ensures Params(ListFields(p)) == []
  {
    ParamsOfSeven(("count", None), ("cursor", None), ("full", None), ("limit", None), ("page", None),
      ("team_id", None), ("user", None));
    ListParams(None, None, None, None, None, None, None)
  }

  // ---------------- payloads ----------------

  /** `ReactionsAddSuccess` / `ReactionsRemoveSuccess`: the bare acknowledgement. */
  datatype Ack = Ack(ok: bool)

  /** The acknowledgement deserialises exactly when the body has a boolean `ok`, and carries it. */
  function DecodeAck(v: Json): (r: Option<Ack>)
    ensures r.Some? <==> BoolField(v, "ok").Ok?
    ensures r.Some? ==> BoolField(v, "ok") == Ok(r.value.ok)
  {
    if !v.JObj? then None
    else
      var ok :- Required(v.members, "ok", AsBool);
      Some(Ack(ok))
  }

  /** `from_value::<ReactionsAddSuccess>(value).unwrap()`: the acknowledgement, or a panic naming the struct. */
  function AddSuccess(v: Json): (r: Result<Ack, Panic>)
    ensures r.Ok? <==> BoolField(v, "ok").Ok?
    ensures r.Ok? ==> r.value == Ack(BoolField(v, "ok").value)
    ensures r.Fail? ==> r.error == Undeserializable("ReactionsAddSuccess")
  {
    Unwrap(DecodeAck(v), "ReactionsAddSuccess")
  }

  /** `from_value::<ReactionsRemoveSuccess>(value).unwrap()`: the acknowledgement, or a panic naming the struct. */
  function RemoveSuccess(v: Json): (r: Result<Ack, Panic>)
    ensures r.Ok? <==> BoolField(v, "ok").Ok?
    ensures r.Ok? ==> r.value == Ack(BoolField(v, "ok").value)
    ensures r.Fail? ==> r.error == Undeserializable("ReactionsRemoveSuccess")
  {
    Unwrap(DecodeAck(v), "ReactionsRemoveSuccess")
  }

  /** `ReactionsGetSuccess`; `kind` is the `type` discriminator, `ok` is always set to true. */
  datatype GetSuccess =
    | GetMessage(ok: bool, kind: string, message: MessageData, channel: string)
    | GetFile(ok: bool, kind: string, file: FileData)
    | GetFileComment(ok: bool, kind: string, file: FileData, comment: Json)

  /** `ReactionsListItem`; `kind` is the item's `type` discriminator. */
  datatype ListItem =
    | MessageItem(kind: string, channel: string, message: MessageData)
    | FileItem(kind: string, file: FileData)
    | FileCommentItem(kind: string, file: FileData, comment: Json)

  /** `ReactionsListResponseMetadata` */
  datatype ResponseMetadata = ResponseMetadata(nextCursor: string)

  /** `ReactionsListSuccess` */
  datatype ListSuccess = ListSuccess(ok: bool, items: seq<ListItem>, responseMetadata: ResponseMetadata)

  /** `ReactionsListResponseMetadata::default()`: an empty cursor. */
  function DefaultMetadata(): (m: ResponseMetadata)
    ensures m.nextCursor == ""
  {
    ResponseMetadata("")
  }

  /** `serde_json::from_value::<MessageData>(value.get("message").unwrap().clone()).unwrap()` */
  function MessageField(v: Json): (r: Result<MessageData, Panic>)
    ensures r.Ok? <==> Field(v, "message").Ok? && DecodeMessageData(Field(v, "message").value).Some?
    ensures r.Ok? ==> DecodeMessageData(Field(v, "message").value) == Some(r.value)
    ensures r.Fail? ==>
      r.error == if Field(v, "message").Fail? then MissingKey("message") else Undeserializable("MessageData")
  {
    var m :- Field(v, "message");
    Unwrap(DecodeMessageData(m), "MessageData")
  }

  /** `serde_json::from_value::<FileData>(value.get("file").unwrap().clone()).unwrap()` */
  function FileField(v: Json): (r: Result<FileData, Panic>)
    ensures r.Ok? <==> Field(v, "file").Ok? && DecodeFileData(Field(v, "file").value).Some?
    ensures r.Ok? ==> DecodeFileData(Field(v, "file").value) == Some(r.value)
    ensures r.Fail? ==>
      r.error == if Field(v, "file").Fail? then MissingKey("file") else Undeserializable("FileData")
  {
    var f :- Field(v, "file");
    Unwrap(DecodeFileData(f), "FileData")
  }

  /** The `ok == true` arm of `get`: the discriminator selects the variant. */
  function GetSuccessBody(v: Json): Result<GetSuccess, Panic> {
    var t :- StrField(v, "type");
    if t == "message" then
      var message :- MessageField(v);
      var channel :- StrField(v, "channel");
      Ok(GetMessage(true, t, message, channel))
    else if t == "file" then
      var file :- FileField(v);
      Ok(GetFile(true, t, file))
    else if t == "file_comment" then
      var file :- FileField(v);
      var comment :- Field(v, "comment");
      Ok(GetFileComment(true, t, file, comment))
    else
      Fail(UnexpectedType)
  }

  /** One turn of the `for item in items` loop of `list`: the item's discriminator selects the variant. */
  function ResolveItem(item: Json): Result<ListItem, Panic> {
    var t :- StrField(item, "type");
    if t == "message" then
      var channel :- StrField(item, "channel");
      var message :- MessageField(item);
      Ok(MessageItem(t, channel, message))
    else if t == "file" then
      var file :- FileField(item);
      Ok(FileItem(t, file))
    else if t == "file_comment" then
      var file :- FileField(item);
      var comment :- Field(item, "comment");
      Ok(FileCommentItem(t, file, comment))
    else
      Fail(UnexpectedItemType(t))
  }

  /** Every item resolved, in order; the first item that fails fails the whole list. */
  function ResolveItems(items: seq<Json>): Result<seq<ListItem>, Panic>
    decreases |items|
  {
    if items == [] then Ok([])
    else
      var x :- ResolveItem(items[0]);
      var xs :- ResolveItems(items[1..]);
      Ok([x] + xs)
  }

  function DecodeMetadata(v: Json): Option<ResponseMetadata> {
    if !v.JObj? then None
    else
      var cursor :- Required(v.members, "next_cursor", AsStr);
      Some(ResponseMetadata(cursor))
  }

  /** `match serde_json::from_value(..) { Ok(metadata) => metadata, Err(_) => default() }` */
  function MetadataOrDefault(v: Json): ResponseMetadata {
    match DecodeMetadata(v)
    case Some(m) => m
    case None => DefaultMetadata()
  }

  /** The `ok == true` arm of `list`: items first, then the (lenient) pagination metadata. */
  function ListSuccessBody(v: Json): Result<ListSuccess, Panic> {
    var items :- ArrayField(v, "items");
    var resolved :- ResolveItems(items);
    var metadata :- Field(v, "response_metadata");
    Ok(ListSuccess(true, resolved, MetadataOrDefault(metadata)))
  }

  // ---------------- what ResolveItems means ----------------

  /** The list resolves exactly when every item does, and then item for item, in order. */
  lemma {:induction false} ResolveItemsOk(items: seq<Json>)
    ensures ResolveItems(items).Ok? <==> forall i | 0 <= i < |items| :: ResolveItem(items[i]).Ok?
    ensures ResolveItems(items).Ok? ==>
      |ResolveItems(items).value| == |items| &&
      forall i | 0 <= i < |items| :: ResolveItem(items[i]) == Ok(ResolveItems(items).value[i])
    decreases |items|
  {
    if items != [] {
      ResolveItemsOk(items[1..]);
      assert forall i | 1 <= i < |items| :: items[i] == items[1..][i - 1];
      if ResolveItem(items[0]).Ok? && !ResolveItems(items[1..]).Ok? {
        var k :| 0 <= k < |items[1..]| && !ResolveItem(items[1..][k]).Ok?;
        assert !ResolveItem(items[k + 1]).Ok?;
      }
    }
  }

  /** A failing list reports the failure of its first failing item. */
  lemma {:induction false} ResolveItemsFail(items: seq<Json>)
    requires ResolveItems(items).Fail?
    ensures exists i | 0 <= i < |items| ::
      ResolveItem(items[i]) == Fail(ResolveItems(items).error) &&
      forall j | 0 <= j < i :: ResolveItem(items[j]).Ok?
    decreases |items|
  {
    if ResolveItem(items[0]).Ok? {
      ResolveItemsFail(items[1..]);
      var k :| 0 <= k < |items[1..]| &&
        ResolveItem(items[1..][k]) == Fail(ResolveItems(items[1..]).error) &&
        forall j | 0 <= j < k :: ResolveItem(items[1..][j]).Ok?;
      assert ResolveItem(items[k + 1]) == Fail(ResolveItems(items).error);
      forall j | 0 <= j < k + 1 ensures ResolveItem(items[j]).Ok? {
        if j > 0 { assert items[j] == items[1..][j - 1]; }
      }
    } else {
      assert ResolveItem(items[0]) == Fail(ResolveItems(items).error);
    }
  }

  // ---------------- the imperative parts ----------------

  /** The `for item in items` loop of `list`, pushing each resolved item onto the result vector. */
  method ResolveListItems(items: seq<Json>) returns (r: Result<seq<ListItem>, Panic>)
    ensures r == ResolveItems(items)
    ensures r.Ok? ==> (|r.value| == |items| &&
      forall i | 0 <= i < |items| :: ResolveItem(items[i]) == Ok(r.value[i]))
  {
    var resolved: seq<ListItem> := [];
    var i := 0;
    while i < |items|
      invariant 0 <= i <= |items| && |resolved| == i
      invariant forall j | 0 <= j < i :: ResolveItem(items[j]) == Ok(resolved[j])
    {
      var item := ResolveItem(items[i]);
      if item.Fail? {
        ResolveItemsOk(items);
        ResolveItemsFail(items);
        var k :| 0 <= k < |items| && ResolveItem(items[k]) == Fail(ResolveItems(items).error) &&
          forall j | 0 <= j < k :: ResolveItem(items[j]).Ok?;
        assert k == i;
        return Fail(item.error);
      }
      resolved := resolved + [item.value];
      i := i + 1;
    }
    ResolveItemsOk(items);
    assert ResolveItems(items).value == resolved;
    r := Ok(resolved);
  }

  /** The success arm of `list` as it runs: the items array, the item loop, then the metadata. */
  method DecodeListSuccess(v: Json) returns (r: Result<ListSuccess, Panic>)
    ensures r == ListSuccessBody(v)
  {
    var items := ArrayField(v, "items");
    if items.Fail? {
      return Fail(items.error);
    }
    var resolved := ResolveListItems(items.value);
    if resolved.Fail? {
      return Fail(resolved.error);
    }
    var metadata := Field(v, "response_metadata");
    if metadata.Fail? {
      return Fail(metadata.error);
    }
    r := Ok(ListSuccess(true, resolved.value, MetadataOrDefault(metadata.value)));
  }

  /** `ReactionsApi::add`: three required pairs on a POST, then the reply. */
  method Add(token: string, p: AddParams, reply: HttpReply)
    returns (request: Request, r: Outcome<ApiResponse<Ack>>)
    ensures request == Request(POST, AddEndpoint,
      [("channel", p.channel), ("name", p.name), ("timestamp", p.timestamp)], Bearer(token))
    ensures r == Dispatch(reply, "ReactionsError", AddSuccess)
  {
    var url := new Url.Parse(AddEndpoint);
    url.AppendPair("channel", p.channel);
    url.AppendPair("name", p.name);
    url.AppendPair("timestamp", p.timestamp);
    request := Request(POST, url.endpoint, url.query, Bearer(token));
    r := Dispatch(reply, "ReactionsError", AddSuccess);
  }

  /** `ReactionsApi::get`: the optional pairs on a GET, then the reply and its discriminator. */
  method Get(token: string, p: GetParams, reply: HttpReply)
    returns (request: Request, r: Outcome<ApiResponse<GetSuccess>>)
    ensures request == Request(GET, GetEndpoint, Params(GetFields(p)), Bearer(token))
    ensures r == Dispatch(reply, "ReactionsError", GetSuccessBody)
  {
    var url := new Url.Parse(GetEndpoint);
    AddParamToUrl(url, "channel", p.channel);
    AddParamToUrl(url, "file", p.file);
    AddParamToUrl(url, "file_comment", p.fileComment);
    AddParamToUrl(url, "full", RenderBool(p.full));
    AddParamToUrl(url, "timestamp", p.timestamp);
    ParamsOfFive(("channel", p.channel), ("file", p.file), ("file_comment", p.fileComment),
      ("full", RenderBool(p.full)), ("timestamp", p.timestamp));
    request := Request(GET, url.endpoint, url.query, Bearer(token));
    r := Dispatch(reply, "ReactionsError", GetSuccessBody);
  }

  /** `ReactionsApi::list`: the optional pairs on a GET, then the reply, its items and metadata. */
  method List(token: string, p: ListParams, reply: HttpReply)
    returns (request: Request, r: Outcome<ApiResponse<ListSuccess>>)
    ensures request == Request(GET, ListEndpoint, Params(ListFields(p)), Bearer(token))
    ensures r == Dispatch(reply, "ReactionsError", ListSuccessBody)
  {
    var url := new Url.Parse(ListEndpoint);
    AddParamToUrl(url, "count", RenderInt(p.count));
    AddParamToUrl(url, "cursor", p.cursor);
    AddParamToUrl(url, "full", RenderBool(p.full));
    AddParamToUrl(url, "limit", RenderInt(p.limit));
    AddParamToUrl(url, "page", RenderInt(p.page));
    AddParamToUrl(url, "team_id", p.teamId);
    AddParamToUrl(url, "user", p.user);
    ParamsOfSeven(("count", RenderInt(p.count)), ("cursor", p.cursor), ("full", RenderBool(p.full)),
      ("limit", RenderInt(p.limit)), ("page", RenderInt(p.page)), ("team_id", p.teamId), ("user", p.user));
    request := Request(GET, url.endpoint, url.query, Bearer(token));
    r := HandleListReply(reply);
  }

  /** The reply handling of `list`: the shared envelope first, then the success arm with its item loop. */
  method HandleListReply(reply: HttpReply) returns (r: Outcome<ApiResponse<ListSuccess>>)
    ensures r == Dispatch(reply, "ReactionsError", ListSuccessBody)
  {
    match Admit(reply)
    case Failed(e) => r := Failed(e);
    case Panicked(reason) => r := Panicked(reason);
    case Returned(a) =>
      if a.ok {
        var success := DecodeListSuccess(a.body);
        r := SuccessArm(success);
      } else {
        r := ErrorArm(a.body, "ReactionsError");
      }
  }

  /** `ReactionsApi::remove`: the optional pairs and the required name on a POST, then the reply. */
  method Remove(token: string, p: RemoveParams, reply: HttpReply)
    returns (request: Request, r: Outcome<ApiResponse<Ack>>)
    ensures request == Request(POST, RemoveEndpoint, Params(RemoveFields(p)), Bearer(token))
    ensures r == Dispatch(reply, "ReactionsError", RemoveSuccess)
  {
    var url := new Url.Parse(RemoveEndpoint);
    AddParamToUrl(url, "channel", p.channel);
    AddParamToUrl(url, "file", p.file);
    AddParamToUrl(url, "file_comment", p.fileComment);
    AddParamToUrl(url, "name", Some(p.name));
    AddParamToUrl(url, "timestamp", p.timestamp);
    ParamsOfFive(("channel", p.channel), ("file", p.file), ("file_comment", p.fileComment),
      ("name", Some(p.name)), ("timestamp", p.timestamp));
    request := Request(POST, url.endpoint, url.query, Bearer(token));
    r := Dispatch(reply, "ReactionsError", RemoveSuccess);
  }

  // ---------------- what the queries carry ----------------

  /**
   * `get` carries each of channel, file, file_comment, full and timestamp exactly when present
   * (full as "true"/"false"), and no other key; `GetQueryInOrder` gives their order.
   */
  lemma GetQueryCarries(p: GetParams)
    ensures var q := Params(GetFields(p));
      && Carries(q, "channel", p.channel) && Carries(q, "file", p.file)
      && Carries(q, "file_comment", p.fileComment) && Carries(q, "timestamp", p.timestamp)
      && Carries(q, "full", if p.full.Some? then Some(if p.full.value then "true" else "false") else None)
      && forall key | key !in {"channel", "file", "file_comment", "full", "timestamp"} :: Lacks(q, key)
  {
    var fs := GetFields(p);
    ParamsCarry(fs, 0); ParamsCarry(fs, 1); ParamsCarry(fs, 2); ParamsCarry(fs, 3); ParamsCarry(fs, 4);
    forall key | key !in {"channel", "file", "file_comment", "full", "timestamp"}
      ensures Lacks(Params(fs), key)
    {
      ParamsLack(fs, key);
    }
  }

  /** The query of `get` holds channel, file, file_comment, full and timestamp in that order. */
  lemma GetQueryInOrder(p: GetParams)
    ensures Params(GetFields(p)) == Param("channel", p.channel) + Param("file", p.file)
      + Param("file_comment", p.fileComment) + Param("full", RenderBool(p.full)) + Param("timestamp", p.timestamp)
  {
    var fs := GetFields(p);
    ParamsOfFive(fs[0], fs[1], fs[2], fs[3], fs[4]);
  }

  /**
   * `list` carries each of its seven parameters exactly when present, count/limit/page as
   * decimal strings that read back as the numbers, and no other key.
   */
  lemma ListQueryCarries(p: ListParams)
    ensures var q := Params(ListFields(p));
      && Carries(q, "count", RenderInt(p.count)) && Carries(q, "cursor", p.cursor)
      && Carries(q, "full", RenderBool(p.full)) && Carries(q, "limit", RenderInt(p.limit))
      && Carries(q, "page", RenderInt(p.page)) && Carries(q, "team_id", p.teamId)
      && Carries(q, "user", p.user)
      && forall key | key !in {"count", "cursor", "full", "limit", "page", "team_id", "user"} :: Lacks(q, key)
    ensures p.count.Some? ==> ParseInt(RenderInt(p.count).value) == Some(p.count.value as int)
    ensures p.limit.Some? ==> ParseInt(RenderInt(p.limit).value) == Some(p.limit.value as int)
    ensures p.page.Some? ==> ParseInt(RenderInt(p.page).value) == Some(p.page.value as int)
  {
    var fs := ListFields(p);
    ParamsCarry(fs, 0); ParamsCarry(fs, 1); ParamsCarry(fs, 2); ParamsCarry(fs, 3);
    ParamsCarry(fs, 4); ParamsCarry(fs, 5); ParamsCarry(fs, 6);
    forall key | key !in {"count", "cursor", "full", "limit", "page", "team_id", "user"}
      ensures Lacks(Params(fs), key)
    {
      ParamsLack(fs, key);
    }
  }

  /** `remove` always carries `name` exactly once; the optional parameters only when present. */
  lemma RemoveQueryCarries(p: RemoveParams)
    ensures var q := Params(RemoveFields(p));
      && Carries(q, "name", Some(p.name))
      && Carries(q, "channel", p.channel) && Carries(q, "file", p.file)
      && Carries(q, "file_comment", p.fileComment) && Carries(q, "timestamp", p.timestamp)
      && forall key | key !in {"channel", "file", "file_comment", "name", "timestamp"} :: Lacks(q, key)
  {
    var fs := RemoveFields(p);
    ParamsCarry(fs, 0); ParamsCarry(fs, 1); ParamsCarry(fs, 2); ParamsCarry(fs, 3); ParamsCarry(fs, 4);
    forall key | key !in {"channel", "file", "file_comment", "name", "timestamp"}
      ensures Lacks(Params(fs), key)
    {
      ParamsLack(fs, key);
    }
  }

  /**
   * In the `remove` query, `name` comes after whichever of channel, file and file_comment
   * are present, and only timestamp may follow it.
   */
  lemma RemoveNamePlacement(p: RemoveParams)
    ensures exists i | 0 <= i < |Params(RemoveFields(p))| ::
        && Params(RemoveFields(p))[i] == ("name", p.name)
        && (forall j | 0 <= j < i :: Params(RemoveFields(p))[j].0 in {"channel", "file", "file_comment"})
        && (forall j | i < j < |Params(RemoveFields(p))| :: Params(RemoveFields(p))[j].0 == "timestamp")
  {
    var fs := RemoveFields(p);
    var front := fs[..3];
    assert fs[..4][..3] == front;
    var before := Params(front);
    var after := Param("timestamp", p.timestamp);
    var q := Params(fs);
    assert q == Params(fs[..4]) + after;
    assert Params(fs[..4]) == before + Param("name", Some(p.name));
    assert q == before + [("name", p.name)] + after;
    var i := |before|;
    assert q[i] == ("name", p.name);
    forall j | 0 <= j < i ensures q[j].0 in {"channel", "file", "file_comment"} {
      assert q[j] == before[j];
      RemoveFrontKeys(p, j);
    }
    forall j | i < j < |q| ensures q[j].0 == "timestamp" {
      assert q[j] == after[j - i - 1];
    }
  }

  /** Before `name`, the `remove` query holds only channel, file and file_comment pairs. */
  lemma RemoveFrontKeys(p: RemoveParams, j: nat)
    requires j < |Params(RemoveFields(p)[..3])|
    ensures Params(RemoveFields(p)[..3])[j].0 in {"channel", "file", "file_comment"}
  {
    var front := RemoveFields(p)[..3];
    ParamsKeysFrom(front, j);
    var k :| 0 <= k < 3 && front[k].1.Some? && Params(front)[j] == (front[k].0, front[k].1.value);
  }

  // ---------------- what the discriminator selects ----------------

  /**
   * A `get` success is the variant its `type` names, with that `type` and `ok: true`;
   * a `type` other than message, file or file_comment panics.
   */
  lemma GetVariantFollowsType(v: Json)
    ensures var r := GetSuccessBody(v);
      && (r.Ok? ==>
            && StrField(v, "type") == Ok(r.value.kind) && r.value.ok
            && (r.value.GetMessage? <==> r.value.kind == "message")
            && (r.value.GetFile? <==> r.value.kind == "file")
            && (r.value.GetFileComment? <==> r.value.kind == "file_comment"))
      && (StrField(v, "type").Fail? ==> r == Fail(StrField(v, "type").error))
      && ((StrField(v, "type").Ok? && StrField(v, "type").value !in {"message", "file", "file_comment"})
            ==> r == Fail(UnexpectedType))
  {
  }

  /**
   * A `list` item is the variant its `type` names, carrying that `type`; any other
   * `type` panics with the offending value.
   */
  lemma ItemVariantFollowsType(item: Json)
    ensures var r := ResolveItem(item);
      && (r.Ok? ==>
            && StrField(item, "type") == Ok(r.value.kind)
            && (r.value.MessageItem? <==> r.value.kind == "message")
            && (r.value.FileItem? <==> r.value.kind == "file")
            && (r.value.FileCommentItem? <==> r.value.kind == "file_comment"))
      && (StrField(item, "type").Fail? ==> r == Fail(StrField(item, "type").error))
      && ((StrField(item, "type").Ok? && StrField(item, "type").value !in {"message", "file", "file_comment"})
            ==> r == Fail(UnexpectedItemType(StrField(item, "type").value)))
  {
  }

  /** One item of unknown type, after items that resolve, fails the whole `list` call. */
  lemma ListFailsOnUnknownItem(v: Json, i: nat)
    requires ArrayField(v, "items").Ok? && i < |ArrayField(v, "items").value|
    requires forall j | 0 <= j < i :: ResolveItem(ArrayField(v, "items").value[j]).Ok?
    requires StrField(ArrayField(v, "items").value[i], "type").Ok?
    requires StrField(ArrayField(v, "items").value[i], "type").value !in {"message", "file", "file_comment"}
    ensures ListSuccessBody(v) ==
      Fail(UnexpectedItemType(StrField(ArrayField(v, "items").value[i], "type").value))
  {
    var items := ArrayField(v, "items").value;
    ResolveItemsOk(items);
    ResolveItemsFail(items);
    var k :| 0 <= k < |items| && ResolveItem(items[k]) == Fail(ResolveItems(items).error) &&
      forall j | 0 <= j < k :: ResolveItem(items[j]).Ok?;
    assert k == i;
  }

  /**
   * After the items, `response_metadata` decides the cursor: a missing key panics, a value that
   * does not deserialise falls back to the empty cursor, and a good one is kept.
   */
  lemma MetadataFallback(v: Json)
    requires ArrayField(v, "items").Ok? && ResolveItems(ArrayField(v, "items").value).Ok?
    ensures var xs := ResolveItems(ArrayField(v, "items").value).value;
      && (Field(v, "response_metadata").Fail? ==>
            ListSuccessBody(v) == Fail(MissingKey("response_metadata")))
      && (Field(v, "response_metadata").Ok? && DecodeMetadata(Field(v, "response_metadata").value).None? ==>
            ListSuccessBody(v) == Ok(ListSuccess(true, xs, ResponseMetadata(""))))
      && (Field(v, "response_metadata").Ok? && DecodeMetadata(Field(v, "response_metadata").value).Some? ==>
            ListSuccessBody(v) == Ok(ListSuccess(true, xs, DecodeMetadata(Field(v, "response_metadata").value).value)))
  {
  }

  // ---------------- serialisation and round trips ----------------

  function EncodeGetSuccess(s: GetSuccess): Json {
    match s
    case GetMessage(ok, kind, message, channel) =>
      JObj(map["ok" := JBool(ok), "type" := JStr(kind), "message" := EncodeMessageData(message),
               "channel" := JStr(channel)])
    case GetFile(ok, kind, file) =>
      JObj(map["ok" := JBool(ok), "type" := JStr(kind), "file" := EncodeFileData(file)])
    case GetFileComment(ok, kind, file, comment) =>
      JObj(map["ok" := JBool(ok), "type" := JStr(kind), "file" := EncodeFileData(file),
               "comment" := comment])
  }

  /** A `get` success as decoding can produce it: ok, its `type` naming its variant, a valid file. */
  predicate WellFormedGet(s: GetSuccess) {
    s.ok &&
    match s
    case GetMessage(_, kind, _, _) => kind == "message"
    case GetFile(_, kind, file) => kind == "file" && ValidFileData(file)
    case GetFileComment(_, kind, file, _) => kind == "file_comment" && ValidFileData(file)
  }

  function EncodeItem(x: ListItem): Json {
    match x
    case MessageItem(kind, channel, message) =>
      JObj(map["type" := JStr(kind), "channel" := JStr(channel), "message" := EncodeMessageData(message)])
    case FileItem(kind, file) =>
      JObj(map["type" := JStr(kind), "file" := EncodeFileData(file)])
    case FileCommentItem(kind, file, comment) =>
      JObj(map["type" := JStr(kind), "file" := EncodeFileData(file), "comment" := comment])
  }

  predicate WellFormedItem(x: ListItem) {
    match x
    case MessageItem(kind, _, _) => kind == "message"
    case FileItem(kind, file) => kind == "file" && ValidFileData(file)
    case FileCommentItem(kind, file, _) => kind == "file_comment" && ValidFileData(file)
  }

  function EncodeListSuccess(s: ListSuccess): Json {
    JObj(map["ok" := JBool(s.ok), "items" := JArr(FromElems(s.items, EncodeItem)),
             "response_metadata" := JObj(map["next_cursor" := JStr(s.responseMetadata.nextCursor)])])
  }

  /** A served `get` success comes back as the same variant with the same contents. */
  lemma GetRoundTrip(status: StatusCode, s: GetSuccess)
    requires !IsErrorStatus(status) && WellFormedGet(s)
    ensures Dispatch(Reply(status, Some(EncodeGetSuccess(s))), "ReactionsError", GetSuccessBody)
      == Returned(Success(s))
  {
    var v := EncodeGetSuccess(s);
    assert Field(v, "ok") == Ok(JBool(true));
    assert Field(v, "type") == Ok(JStr(s.kind));
    match s
    case GetMessage(_, _, message, channel) =>
      MessageDataRoundTrip(message);
      assert Field(v, "message") == Ok(EncodeMessageData(message));
      assert Field(v, "channel") == Ok(JStr(channel));
    case GetFile(_, _, file) =>
      FileDataRoundTrip(file);
      assert Field(v, "file") == Ok(EncodeFileData(file));
    case GetFileComment(_, _, file, comment) =>
      FileDataRoundTrip(file);
      assert Field(v, "file") == Ok(EncodeFileData(file));
      assert Field(v, "comment") == Ok(comment);
  }

  lemma ItemRoundTrip(x: ListItem)
    requires WellFormedItem(x)
    ensures ResolveItem(EncodeItem(x)) == Ok(x)
  {
    var v := EncodeItem(x);
    assert Field(v, "type") == Ok(JStr(x.kind));
    match x
    case MessageItem(_, channel, message) =>
      MessageDataRoundTrip(message);
      assert Field(v, "message") == Ok(EncodeMessageData(message));
      assert Field(v, "channel") == Ok(JStr(channel));
    case FileItem(_, file) =>
      FileDataRoundTrip(file);
      assert Field(v, "file") == Ok(EncodeFileData(file));
    case FileCommentItem(_, file, comment) =>
      FileDataRoundTrip(file);
      assert Field(v, "file") == Ok(EncodeFileData(file));
      assert Field(v, "comment") == Ok(comment);
  }

  /** Resolving the serialised items gives back the same items, same length, same order. */
  lemma ItemsRoundTrip(xs: seq<ListItem>)
    requires forall i | 0 <= i < |xs| :: WellFormedItem(xs[i])
    ensures ResolveItems(FromElems(xs, EncodeItem)) == Ok(xs)
  {
    var es := FromElems(xs, EncodeItem);
    FromElemsPointwise(xs, EncodeItem);
    forall i | 0 <= i < |es| ensures ResolveItem(es[i]) == Ok(xs[i]) {
      ItemRoundTrip(xs[i]);
    }
    ResolveItemsOk(es);
    assert ResolveItems(es).value == xs;
  }

  /** A served `list` success comes back with the same items in the same order and the same cursor. */
  lemma ListRoundTrip(status: StatusCode, s: ListSuccess)
    requires !IsErrorStatus(status) && s.ok
    requires forall i | 0 <= i < |s.items| :: WellFormedItem(s.items[i])
    ensures Dispatch(Reply(status, Some(EncodeListSuccess(s))), "ReactionsError", ListSuccessBody)
      == Returned(Success(s))
  {
    var v := EncodeListSuccess(s);
    ItemsRoundTrip(s.items);
    assert Field(v, "ok") == Ok(JBool(true));
    assert Field(v, "items") == Ok(JArr(FromElems(s.items, EncodeItem)));
    var md := JObj(map["next_cursor" := JStr(s.responseMetadata.nextCursor)]);
    assert Field(v, "response_metadata") == Ok(md);
    assert DecodeMetadata(md) == Some(s.responseMetadata);
  }

  /** A `reactions.add` answered `{ok: false, error: "invalid_name"}` returns that error. */
  lemma AddRejected(status: StatusCode)
    requires !IsErrorStatus(status)
    ensures Dispatch(Reply(status, Some(EncodeApiError(ApiError(false, "invalid_name")))), "ReactionsError", AddSuccess)
      == Returned(Error(ApiError(false, "invalid_name")))
  {
    ErrorEnvelopeRoundTrip(status, ApiError(false, "invalid_name"), "ReactionsError", AddSuccess);
  }

  /**
   * An admitted reply whose body says `ok: true` is acknowledged: the `{ok}` success struct of
   * `add` and of `remove` always deserialises from it, so neither call panics there.
   */
  lemma AckSucceeds(status: StatusCode, v: Json)
    requires !IsErrorStatus(status) && Field(v, "ok") == Ok(JBool(true))
    ensures Dispatch(Reply(status, Some(v)), "ReactionsError", AddSuccess) == Returned(Success(Ack(true)))
    ensures Dispatch(Reply(status, Some(v)), "ReactionsError", RemoveSuccess) == Returned(Success(Ack(true)))
  {
    OkSelectsVariant(status, v, "ReactionsError", AddSuccess);
    OkSelectsVariant(status, v, "ReactionsError", RemoveSuccess);
  }
}
