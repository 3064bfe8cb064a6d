/** `BotsAPI::info`, the wrapper of the `bots.info` method. */
module Bots {
  import opened Wrappers
  import opened Numeric
  import opened Json
  import opened Http
  import opened Util
  import opened Envelope

  const InfoEndpoint := "https://slack.com/api/bots.info"

  datatype BotsInfoParams = BotsInfoParams(bot: Option<string>, teamId: Option<string>)

  /** The parameters `info` adds, in the order it adds them. */
  function InfoFields(p: BotsInfoParams): seq<QueryField> {
    [("bot", p.bot), ("team_id", p.teamId)]
  }

  /** `BotsInfoParams::new_default`: no parameter set, so the query stays empty. */
  function NewDefault(): (p: BotsInfoParams)
    ensures Params(InfoFields(p)) == []
  {
    BotsInfoParams(None, None)
  }

  datatype BotIcons = BotIcons(image36: string, image48: string, image72: string)

  datatype Bot = Bot(id: string, deleted: bool, name: string, appId: string, userId: string,
                     updated: i64, icons: BotIcons)

  datatype BotsInfoSuccess = BotsInfoSuccess(ok: bool, bot: Bot)

  function DecodeBotIcons(v: Json): Option<BotIcons> {
    if !v.JObj? then None
    else
      var m := v.members;
      var image36 :- Required(m, "image_36", AsStr);
      var image48 :- Required(m, "image_48", AsStr);
      var image72 :- Required(m, "image_72", AsStr);
      Some(BotIcons(image36, image48, image72))
  }

  function DecodeBot(v: Json): Option<Bot> {
    if !v.JObj? then None
    else
      var m := v.members;
      var id :- Required(m, "id", AsStr);
      var deleted :- Required(m, "deleted", AsBool);
      var name :- Required(m, "name", AsStr);
      var appId :- Required(m, "app_id", AsStr);
      var userId :- Required(m, "user_id", AsStr);
      var updated :- Required(m, "updated", ToI64);
      var icons :- Required(m, "icons", DecodeBotIcons);
      Some(Bot(id, deleted, name, appId, userId, updated, icons))
  }

  function DecodeBotsInfoSuccess(v: Json): Option<BotsInfoSuccess> {
    if !v.JObj? then None
    else
      var ok :- Required(v.members, "ok", AsBool);
      var bot :- Required(v.members, "bot", DecodeBot);
      Some(BotsInfoSuccess(ok, bot))
  }

  /** The `ok == true` arm: `Success(serde_json::from_value(value).unwrap())`. */
  function InfoSuccess(v: Json): Result<BotsInfoSuccess, Panic> {
    Unwrap(DecodeBotsInfoSuccess(v), "BotsInfoSuccess")
  }

  function EncodeBotIcons(i: BotIcons): Json {
    JObj(map["image_36" := JStr(i.image36), "image_48" := JStr(i.image48), "image_72" := JStr(i.image72)])
  }

  function EncodeBot(b: Bot): Json {
    JObj(map["id" := JStr(b.id), "deleted" := JBool(b.deleted), "name" := JStr(b.name),
             "app_id" := JStr(b.appId), "user_id" := JStr(b.userId),
             "updated" := JInt(b.updated as int), "icons" := EncodeBotIcons(b.icons)])
  }

  function EncodeBotsInfoSuccess(s: BotsInfoSuccess): Json {
    JObj(map["ok" := JBool(s.ok), "bot" := EncodeBot(s.bot)])
  }

  /** `BotsAPI::info`: builds the GET request, then handles the reply. */
  method Info(token: string, params: Option<BotsInfoParams>, reply: HttpReply)
    returns (request: Request, r: Outcome<ApiResponse<BotsInfoSuccess>>)
    ensures request == Request(GET, InfoEndpoint, Params(InfoFields(params.GetOr(NewDefault()))), Bearer(token))
    ensures r == Dispatch(reply, "BotsInfoError", InfoSuccess)
  {
    var url := new Url.Parse(InfoEndpoint);
    var p := params.GetOr(NewDefault());
    AddParamToUrl(url, "bot", p.bot);
    AddParamToUrl(url, "team_id", p.teamId);
    ParamsOfTwo(("bot", p.bot), ("team_id", p.teamId));
    request := Request(GET, url.endpoint, url.query, Bearer(token));
    r := Dispatch(reply, "BotsInfoError", InfoSuccess);
  }

  /**
   * `bot` and `team_id` are each carried exactly when present, `bot` first when both are,
   * and no other key is.
   */
  lemma InfoQueryCarries(p: BotsInfoParams)
    ensures var q := Params(InfoFields(p));
      && Carries(q, "bot", p.bot) && Carries(q, "team_id", p.teamId)
      && (forall key | key != "bot" && key != "team_id" :: Lacks(q, key))
      && (p.bot.Some? && p.teamId.Some? ==> q == [("bot", p.bot.value), ("team_id", p.teamId.value)])
  {
    var fs := InfoFields(p);
    ParamsCarry(fs, 0);
    ParamsCarry(fs, 1);
    forall key | key != "bot" && key != "team_id" ensures Lacks(Params(fs), key) {
      ParamsLack(fs, key);
    }
    ParamsOfTwo(("bot", p.bot), ("team_id", p.teamId));
  }

  /**
   * `info(None)` and `info(Some(BotsInfoParams::new_default()))` send the same request, with
   * an empty query, and handle a reply the same way.
   */
  method InfoDefaults(token: string, reply: HttpReply)
    returns (without: Request, withDefault: Request,
             handledWithout: Outcome<ApiResponse<BotsInfoSuccess>>,
             handledWithDefault: Outcome<ApiResponse<BotsInfoSuccess>>)
    ensures without == withDefault && without.query == []
    ensures handledWithout == handledWithDefault
  {
    without, handledWithout := Info(token, None, reply);
    withDefault, handledWithDefault := Info(token, Some(NewDefault()), reply);
  }

  lemma BotIconsRoundTrip(i: BotIcons)
    ensures DecodeBotIcons(EncodeBotIcons(i)) == Some(i)
  {
    var m := EncodeBotIcons(i).members;
    assert m["image_36"] == JStr(i.image36) && m["image_48"] == JStr(i.image48);
    assert m["image_72"] == JStr(i.image72);
  }

  /** Serialising a bot record and deserialising it gives it back. */
  lemma BotRoundTrip(b: Bot)
    ensures DecodeBot(EncodeBot(b)) == Some(b)
  {
    BotIconsRoundTrip(b.icons);
    var m := EncodeBot(b).members;
    assert m["id"] == JStr(b.id) && m["deleted"] == JBool(b.deleted) && m["name"] == JStr(b.name);
    assert m["app_id"] == JStr(b.appId) && m["user_id"] == JStr(b.userId);
    assert m["updated"] == JInt(b.updated as int) && m["icons"] == EncodeBotIcons(b.icons);
  }

  /** A served `{ok: true, bot}` body comes back as the Success variant holding that bot. */
  lemma InfoSuccessRoundTrip(status: StatusCode, s: BotsInfoSuccess)
    requires !IsErrorStatus(status) && s.ok
    ensures Dispatch(Reply(status, Some(EncodeBotsInfoSuccess(s))), "BotsInfoError", InfoSuccess)
      == Returned(Success(s))
  {
    BotRoundTrip(s.bot);
    var v := EncodeBotsInfoSuccess(s);
    assert v.members["ok"] == JBool(true) && v.members["bot"] == EncodeBot(s.bot);
    assert DecodeBotsInfoSuccess(v) == Some(s);
  }

  /** A bot record lacking any of its seven fields does not deserialise. */
  lemma BotRequiresEveryField(m: map<string, Json>, key: string)
    requires key in ["id", "deleted", "name", "app_id", "user_id", "updated", "icons"]
    requires key !in m
    ensures DecodeBot(JObj(m)) == None
  {
  }

  /** An icons record lacking any of its three image URLs does not deserialise. */
  lemma BotIconsRequireEveryField(m: map<string, Json>, key: string)
    requires key in ["image_36", "image_48", "image_72"]
    requires key !in m
    ensures DecodeBotIcons(JObj(m)) == None
  {
  }

  /** An `ok: true` body whose bot does not deserialise panics instead of returning. */
  lemma InfoSuccessPanicsOnBadBot(status: StatusCode, v: Json)
    requires !IsErrorStatus(status)
    requires Get(v, "ok") == Some(JBool(true))
    requires Get(v, "bot").None? || DecodeBot(Get(v, "bot").value).None?
    ensures Dispatch(Reply(status, Some(v)), "BotsInfoError", InfoSuccess)
      == Panicked(Undeserializable("BotsInfoSuccess"))
  {
  }
}
