/** `EmojiAPI::list`, the wrapper of the `emoji.list` method. */
module Emoji {
  import opened Wrappers
  import opened Numeric
  import opened Json
  import opened Http
  import opened Util
  import opened Envelope

  const ListEndpoint := "https://slack.com/api/emoji.list"

  datatype EmojiListParams = EmojiListParams(includeCategories: bool)

  /** `EmojiListParams::new_default`: categories are not requested. */
  function NewDefault(): (p: EmojiListParams)
    ensures !p.includeCategories
  {
    EmojiListParams(false)
  }

  datatype Category = Category(name: string, emojiNames: seq<string>)

  datatype EmojiListSuccess = EmojiListSuccess(
    ok: bool,
    emoji: map<string, string>,           // emoji name -> image URL
    cacheTs: string,
    categoriesVersion: Option<string>,
    categories: Option<seq<Category>>)

  function DecodeCategory(v: Json): Option<Category> {
    if !v.JObj? then None
    else
      var name :- Required(v.members, "name", AsStr);
      var emojiNames :- Required(v.members, "emoji_names", ToStrSeq);
      Some(Category(name, emojiNames))
  }

  function ToCategories(v: Json): Option<seq<Category>> {
    ToSeq(v, DecodeCategory)
  }

  function DecodeEmojiListSuccess(v: Json): Option<EmojiListSuccess> {
    if !v.JObj? then None
    else
      var m := v.members;
      var ok :- Required(m, "ok", AsBool);
      var emoji :- Required(m, "emoji", ToStrMap);
      var cacheTs :- Required(m, "cache_ts", AsStr);
      var categoriesVersion :- Optional(m, "categories_version", AsStr);
      var categories :- Optional(m, "categories", ToCategories);
      Some(EmojiListSuccess(ok, emoji, cacheTs, categoriesVersion, categories))
  }

  /** The `ok == true` arm: `Success(serde_json::from_value(value).unwrap())`. */
  function ListSuccess(v: Json): Result<EmojiListSuccess, Panic> {
    Unwrap(DecodeEmojiListSuccess(v), "EmojiListSuccess")
  }

  function EncodeCategory(c: Category): Json {
    JObj(map["name" := JStr(c.name), "emoji_names" := FromStrSeq(c.emojiNames)])
  }

  function EncodeEmojiListSuccess(s: EmojiListSuccess): Json {
    var required := map["ok" := JBool(s.ok), "emoji" := FromStrMap(s.emoji), "cache_ts" := JStr(s.cacheTs)];
    var withVersion := WithOptional(required, "categories_version",
      if s.categoriesVersion.Some? then Some(JStr(s.categoriesVersion.value)) else None);
    JObj(WithOptional(withVersion, "categories",
      if s.categories.Some? then Some(JArr(FromElems(s.categories.value, EncodeCategory))) else None))
  }

  /** `EmojiAPI::list`: builds the GET request, then handles the reply. */
  method List(token: string, params: Option<EmojiListParams>, reply: HttpReply)
    returns (request: Request, r: Outcome<ApiResponse<EmojiListSuccess>>)
    ensures request.verb == GET && request.endpoint == ListEndpoint && request.authorization == Bearer(token)
    ensures request.query == [("include_categories", BoolToString(params.GetOr(NewDefault()).includeCategories))]
    ensures params.None? ==> request.query == [("include_categories", "false")]
    ensures Carries(request.query, "include_categories",
                    Some(BoolToString(params.GetOr(NewDefault()).includeCategories)))
    ensures forall key | key != "include_categories" :: Lacks(request.query, key)
    ensures ParseBool(request.query[0].1) == Some(params.GetOr(NewDefault()).includeCategories)
    ensures r == Dispatch(reply, "EmojiError", ListSuccess)
  {
    var url := new Url.Parse(ListEndpoint);
    var p := params.GetOr(NewDefault());
    url.AppendPair("include_categories", BoolToString(p.includeCategories));
    request := Request(GET, url.endpoint, url.query, Bearer(token));
    r := Dispatch(reply, "EmojiError", ListSuccess);
    var flag := BoolToString(p.includeCategories);
    CarriedBetween([], "include_categories", Some(flag), []);
    assert [] + Param("include_categories", Some(flag)) + [] == request.query;
    BoolRoundTrip(p.includeCategories);
  }

  lemma CategoryRoundTrip(c: Category)
    ensures DecodeCategory(EncodeCategory(c)) == Some(c)
  {
    StrSeqRoundTrip(c.emojiNames);
    var m := EncodeCategory(c).members;
    assert m["name"] == JStr(c.name) && m["emoji_names"] == FromStrSeq(c.emojiNames);
  }

  /** Serialising an emoji listing and deserialising it gives it back, optional parts included. */
  lemma EmojiListSuccessRoundTrip(s: EmojiListSuccess)
    ensures DecodeEmojiListSuccess(EncodeEmojiListSuccess(s)) == Some(s)
  {
    var m := EncodeEmojiListSuccess(s).members;
    StrMapRoundTrip(s.emoji);
    assert "ok" in m && m["ok"] == JBool(s.ok);
    assert "emoji" in m && m["emoji"] == FromStrMap(s.emoji);
    assert "cache_ts" in m && m["cache_ts"] == JStr(s.cacheTs);
    if s.categoriesVersion.Some? {
      assert m["categories_version"] == JStr(s.categoriesVersion.value);
    } else {
      assert "categories_version" !in m;
    }
    if s.categories.Some? {
      var cs := s.categories.value;
      forall i | 0 <= i < |cs| ensures DecodeCategory(EncodeCategory(cs[i])) == Some(cs[i]) {
        CategoryRoundTrip(cs[i]);
      }
      ElemsRoundTrip(cs, EncodeCategory, DecodeCategory);
      assert m["categories"] == JArr(FromElems(cs, EncodeCategory));
    } else {
      assert "categories" !in m;
    }
  }

  /** A served `{ok: true, ...}` listing comes back as the Success variant holding it. */
  lemma ListSuccessRoundTrip(status: StatusCode, s: EmojiListSuccess)
    requires !IsErrorStatus(status) && s.ok
    ensures Dispatch(Reply(status, Some(EncodeEmojiListSuccess(s))), "EmojiError", ListSuccess)
      == Returned(Success(s))
  {
    EmojiListSuccessRoundTrip(s);
    assert EncodeEmojiListSuccess(s).members["ok"] == JBool(true);
  }

  /**
   * `emoji` and `cache_ts` are required; `categories_version` and `categories` may be
   * absent, and then decode to None.
   */
  lemma ListSuccessFields(m: map<string, Json>)
    ensures DecodeEmojiListSuccess(JObj(m)).Some? ==>
      "emoji" in m && m["emoji"].JObj? && "cache_ts" in m && m["cache_ts"].JStr?
    ensures ("ok" in m && m["ok"].JBool? && "emoji" in m && ToStrMap(m["emoji"]).Some? &&
             "cache_ts" in m && m["cache_ts"].JStr? &&
             "categories_version" !in m && "categories" !in m) ==>
      DecodeEmojiListSuccess(JObj(m)) ==
        Some(EmojiListSuccess(m["ok"].b, ToStrMap(m["emoji"]).value, m["cache_ts"].s, None, None))
  {
  }

  /** A category lacking its name or its emoji names does not deserialise. */
  lemma CategoryRequiresBoth(m: map<string, Json>)
    requires "name" !in m || "emoji_names" !in m
    ensures DecodeCategory(JObj(m)) == None
  {
  }
}
