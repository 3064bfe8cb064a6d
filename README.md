# slackify-wrapped: typed Slack Web API wrappers, modelled in Dafny

slackify-wrapped wraps six Slack Web API methods in typed Rust calls: `reactions.add`,
`reactions.get`, `reactions.list`, `reactions.remove`, `bots.info` and `emoji.list`. Each call
has the same shape:

1. Build the method's URL and add the query parameters. Optional ones go through
   `add_param_to_url`, which appends a pair only when a value is present.
2. Send the request with a bearer token.
3. Reject a 4xx/5xx status (`error_for_status`).
4. Read the body as JSON.
5. Branch on the body's boolean `ok`:
   - `ok: false` deserialises the error struct `{ok, error}`;
   - `ok: true` deserialises the method's success payload.

`reactions.get` and every item of `reactions.list` then branch again, on a `type`
discriminator: `message`, `file` or `file_comment`.

In the source, every `unwrap()`/`panic!` is a panic. The model makes each panic an explicit
outcome. Every call therefore ends in one of three ways (`Envelope.Outcome`):

- `Returned(Success(..))` or `Returned(Error(..))`: the call returned a value;
- `Failed(..)`: the call returned an `Err`. The causes are no reply, a 4xx/5xx status, or a
  body that is not JSON;
- `Panicked(..)`: the call panicked. The reason says which `unwrap` or `panic!` fired:
  - a missing key;
  - a value of the wrong JSON kind;
  - a struct that does not deserialise;
  - `Unexpected type` (`get`);
  - `Unexpected item type: <t>` (`list`).

Modules, one per file:

- `Wrappers`: `Option` and `Result`.
- `Numeric`:
  - the `i32`/`i64` ranges;
  - `bool::to_string` and `i32::to_string`, with readers that prove them injective.
- `Json`:
  - a `serde_json::Value` model;
  - serde-style decoders: a required field must be present and of the right kind; an
    `Option` field may be absent or null; unknown fields are ignored;
  - encoders.
- `Http`:
  - the mutable `Url` (a class whose `query` field `append_pair` extends);
  - requests, replies and status codes.
- `Util`:
  - `add_param_to_url`;
  - what it means for a query to carry a parameter;
  - `Params`, the query produced by adding a list of optional parameters in order.
- `Envelope`: the response handling shared by all endpoints (`Admit`, `Dispatch`).
- `Bots`: `bots.info`.
- `Emoji`: `emoji.list`.
- `ReactionsData`: the message, reaction and file payloads.
- `Reactions`: the four `reactions.*` calls.

Three behaviours of the code shape the model:

- Only 400–599 is an HTTP error (`error_for_status`); a 1xx or 3xx reply goes on to decoding.
- A missing `response_metadata` in a `reactions.list` success panics (`unwrap`); only a present
  value that fails to deserialise falls back to the empty cursor (see `Reactions.MetadataFallback`).
- A missing or non-boolean `ok`, and an unknown `type`, panic; they are not returned as errors.

## Model

| member | source | states |
|---|---|---|
| Util.AddParamToUrl | src/slack/util.rs:3-7 | the URL's query becomes the old query plus `(name, v)` when the value is `Some(v)`, and is unchanged when it is `None` |
| Util.ParamExtends | src/slack/util.rs:3-7 | adding an absent parameter leaves the query as it was; a present one adds exactly one pair, at the end, and keeps every earlier pair in place |
| Util.CarriedBetween | src/slack/util.rs:3-7 | a parameter added between pairs with other keys is carried exactly as its value says: once if present, not at all if absent |
| Util.LacksConcat | src/slack/util.rs:3-7 | a key is missing from a concatenated query iff it is missing from both parts |
| Util.ParamLacksOther | src/slack/util.rs:3-7 | adding a parameter never introduces a pair with a different key |
| Util.DuplicateNotCarried | src/slack/util.rs:3-7 | two identical pairs do not carry that parameter exactly once |
| Util.AddTwice | src/slack/util.rs:3-7 | adding the same present parameter twice appends two identical pairs: the operation appends and never replaces, so it is not idempotent |
| Util.ParamsSnoc | src/slack/util.rs:3-7 | adding one more optional parameter extends the query by exactly what `add_param_to_url` appends for it |
| Util.ParamsLack | src/slack/util.rs:3-7 | a key that none of the added parameters has never appears in the query |
| Util.ParamsCarry | src/slack/util.rs:3-7 | when parameter names are distinct, each parameter is carried exactly once if present and absent otherwise |
| Util.CarriesBefore | src/slack/util.rs:3-7 | parameters added later with other keys do not change how an earlier parameter is carried |
| Util.ParamsInOrder | src/slack/util.rs:3-7 | the query lists the pairs of earlier parameters before those of later ones |
| Util.ParamsKeysFrom | src/slack/util.rs:3-7 | every pair of the query is one of the added parameters, holding its present value |
| Http.Url.Parse | src/slack/reactions.rs:17 | a freshly parsed endpoint URL has that endpoint and an empty query |
| Http.IsErrorStatus | src/slack/reactions.rs:30 | `error_for_status`: a status is an error exactly when it is a client or server error, 400 to 599 |
| Http.Url.AppendPair | src/slack/reactions.rs:18-21 | `append_pair` adds exactly one pair at the end of the query |
| Numeric.BoolRoundTrip | src/slack/reactions.rs:48 | `bool::to_string` yields "true"/"false", and that text reads back as the same boolean |
| Numeric.NatToStringDigits | src/slack/reactions.rs:108 | the decimal rendering of a natural number is a non-empty digit string with no leading zero, whose value is the number |
| Numeric.IntRoundTrip | src/slack/reactions.rs:108-112 | the decimal rendering of an integer (with `-` when negative) reads back as the same integer |
| Numeric.IntToStringInjective | src/slack/reactions.rs:108-112 | distinct integers render to distinct query values |
| Json.ElemsRoundTrip | src/slack/reactions.rs:273 | a `Vec` deserialises element by element: serialising the elements and deserialising them gives the same sequence, provided each element round-trips |
| Json.StrSeqRoundTrip | src/slack/reactions.rs:311-313 | a `Vec<String>` survives serialisation and deserialisation unchanged |
| Json.StrMapRoundTrip | src/slack/emoji.rs:70 | a `HashMap<String, String>` survives serialisation and deserialisation unchanged |
| Envelope.Field | src/slack/reactions.rs:68 | `value.get(key).unwrap()`: the member under the key when there is one, otherwise a `MissingKey` panic naming it |
| Envelope.StrField | src/slack/reactions.rs:131 | `get(key).unwrap().as_str().unwrap()`: the string exactly when the member is a string; a missing key or another kind panics, naming the key |
| Envelope.BoolField | src/slack/reactions.rs:32 | `get(key).unwrap().as_bool().unwrap()`: the boolean exactly when the member is a boolean; a missing key or another kind panics, naming the key |
| Envelope.ArrayField | src/slack/reactions.rs:128 | `get(key).unwrap().as_array().unwrap()`: the elements exactly when the member is an array; a missing key or another kind panics, naming the key |
| Envelope.Unwrap | src/slack/reactions.rs:67-70 | `from_value::<T>(..).unwrap()`: the deserialised value when there is one, otherwise an `Undeserializable` panic naming the target type |
| Envelope.Admit | src/slack/reactions.rs:30-32 | the status check, the JSON read and the `ok` read: it fails exactly for no reply, a 4xx/5xx status or a non-JSON body; when it returns, the body's `ok` is the boolean it reports (a missing or non-boolean `ok` panics) |
| Envelope.Dispatch | src/slack/reactions.rs:30-38 | the whole reply handling an endpoint shares: it fails exactly when `Admit` fails, and when it returns, the variant is Success exactly when the body said `ok: true` |
| Envelope.DecodeApiError | src/slack/reactions.rs:229-233 | the error struct deserialises exactly from an object with a boolean `ok` and a string `error`, and carries those two values |
| Envelope.ErrorArm | src/slack/reactions.rs:34 | computes the `ok: false` arm: the error struct, or a panic naming the error type when it does not deserialise |
| Envelope.SuccessArm | src/slack/reactions.rs:33 | computes the `ok: true` arm: the decoded success payload, or the panic its decoding raised |
| Envelope.StatusBeforeBody | src/slack/reactions.rs:30-38 | a 4xx/5xx status gives `Err(status)` whatever the body holds; no decoding happens |
| Envelope.FailedIff | src/slack/reactions.rs:23-38 | the call returns an `Err` iff there is no reply, the status is 4xx/5xx, or the body is not JSON |
| Envelope.OkSelectsVariant | src/slack/reactions.rs:30-35 | with an admitted JSON body, `ok: true` selects the success decoding and `ok: false` the error struct; a missing `ok` panics with that key, and a non-boolean `ok` panics as not a bool |
| Envelope.SuccessIff | src/slack/reactions.rs:30-35 | the Success variant with payload s is returned iff the reply is admitted, `ok` is true, and the success body decodes to s |
| Envelope.ErrorIff | src/slack/reactions.rs:30-35 | the Error variant with struct e is returned iff the reply is admitted, `ok` is false, the body's `error` string is e's, and e.ok is false |
| Envelope.ApiErrorRoundTrip | src/slack/reactions.rs:229-233 | the `{ok, error}` struct survives serialisation and deserialisation |
| Envelope.ErrorEnvelopeRoundTrip | src/slack/reactions.rs:30-35 | a served `{ok: false, error}` body comes back as the Error variant carrying that struct |
| Bots.DecodeBotIcons | src/slack/bots.rs:83-87 | computes the deserialisation of `BotIcons`: three required string URLs |
| Bots.DecodeBot | src/slack/bots.rs:72-80 | computes the deserialisation of `Bot`: seven required fields, `deleted` a boolean, `updated` a 64-bit integer, `icons` a `BotIcons` |
| Bots.DecodeBotsInfoSuccess | src/slack/bots.rs:66-69 | computes the deserialisation of `BotsInfoSuccess`: a boolean `ok` and a `Bot` |
| Bots.InfoSuccess | src/slack/bots.rs:45 | computes the `ok: true` arm of `info`: the `BotsInfoSuccess`, or a panic when it does not deserialise |
| Bots.NewDefault | src/slack/bots.rs:13-18 | the default `bots.info` parameters add nothing to the query |
| Bots.Info | src/slack/bots.rs:28-51 | `info` sends GET to bots.info with the bearer token and with the query of the given parameters, or of the defaults when none are given; the reply is handled by the shared dispatch with the `BotsInfoSuccess` decoding |
| Bots.InfoQueryCarries | src/slack/bots.rs:32-33 | `bot` and `team_id` are each carried exactly when present; when both are, the query is exactly `bot` then `team_id`; no other key appears |
| Bots.InfoDefaults | src/slack/bots.rs:31 | `info(None)` and `info(Some(new_default()))` send the same request, whose query is empty, and handle a reply identically |
| Bots.BotIconsRoundTrip | src/slack/bots.rs:83-87 | `BotIcons` survives serialisation and deserialisation |
| Bots.BotRoundTrip | src/slack/bots.rs:72-80 | `Bot`, with its 64-bit `updated`, survives serialisation and deserialisation |
| Bots.InfoSuccessRoundTrip | src/slack/bots.rs:42-50 | a served `bots.info` success body comes back as the same Success payload |
| Bots.BotRequiresEveryField | src/slack/bots.rs:72-80 | a bot object lacking any of its seven fields does not deserialise |
| Bots.BotIconsRequireEveryField | src/slack/bots.rs:83-87 | an icons object lacking any of its three URLs does not deserialise |
| Bots.InfoSuccessPanicsOnBadBot | src/slack/bots.rs:45 | an `ok: true` body whose `bot` is missing or malformed panics as an undeserialisable `BotsInfoSuccess` |
| Emoji.DecodeCategory | src/slack/emoji.rs:77-80 | computes the deserialisation of `Category`: a required name and a required list of emoji names |
| Emoji.DecodeEmojiListSuccess | src/slack/emoji.rs:68-74 | computes the deserialisation of `EmojiListSuccess`: `ok`, the name-to-URL map and `cache_ts` required; `categories_version` and `categories` absent or null give None |
| Emoji.ListSuccess | src/slack/emoji.rs:44 | computes the `ok: true` arm of `list`: the `EmojiListSuccess`, or a panic when it does not deserialise |
| Emoji.NewDefault | src/slack/emoji.rs:13-17 | the default `emoji.list` parameters do not include categories |
| Emoji.List | src/slack/emoji.rs:27-50 | `list` sends GET to emoji.list with the bearer token and with exactly one pair, `include_categories`, set to "true"/"false" (to "false" when no parameters are given); that key is carried exactly once, no other key appears, and the value reads back as the flag; the reply is handled by the shared dispatch with the `EmojiListSuccess` decoding |
| Emoji.CategoryRoundTrip | src/slack/emoji.rs:77-80 | `Category` survives serialisation and deserialisation |
| Emoji.EmojiListSuccessRoundTrip | src/slack/emoji.rs:68-74 | `EmojiListSuccess`, with or without its optional categories, survives serialisation and deserialisation |
| Emoji.ListSuccessRoundTrip | src/slack/emoji.rs:41-49 | a served `emoji.list` success body comes back as the same Success payload |
| Emoji.ListSuccessFields | src/slack/emoji.rs:68-74 | a success needs `emoji` (an object) and `cache_ts` (a string); when `categories_version` and `categories` are absent, it still decodes, with both None |
| Emoji.CategoryRequiresBoth | src/slack/emoji.rs:77-80 | a category lacking `name` or `emoji_names` does not deserialise |
| ReactionsData.DecodeFileData | src/slack/reactions.rs:277-317 | computes the deserialisation of `FileData`: every one of its 38 fields present with its kind, the fields kept and unknown ones dropped |
| ReactionsData.DecodeReaction | src/slack/reactions.rs:259-264 | computes the deserialisation of `Reaction`: name, users and a 32-bit count |
| ReactionsData.DecodeMessageData | src/slack/reactions.rs:266-275 | computes the deserialisation of `MessageData` (key `type`), with `team` optional and `reactions` a list of `Reaction` |
| ReactionsData.FileDataDecodes | src/slack/reactions.rs:277-317 | a file object deserialises iff each of the 38 `FileData` fields is present with its kind; the result then fits the schema |
| ReactionsData.FileDataRoundTrip | src/slack/reactions.rs:277-317 | a well-formed `FileData` survives serialisation and deserialisation |
| ReactionsData.FileDataRequiresEveryField | src/slack/reactions.rs:277-317 | a file object lacking any one schema field does not deserialise |
| ReactionsData.ReactionRoundTrip | src/slack/reactions.rs:259-264 | `Reaction`, with its 32-bit count, survives serialisation and deserialisation |
| ReactionsData.MessageDataRoundTrip | src/slack/reactions.rs:266-275 | `MessageData`, with its optional `team` and its list of reactions, survives serialisation and deserialisation |
| Reactions.DecodeAck | src/slack/reactions.rs:246-249 | the `{ok}` struct shared by `ReactionsAddSuccess` and `ReactionsRemoveSuccess` (lines 433-436) deserialises exactly when the body has a boolean `ok`, and carries it |
| Reactions.AddSuccess | src/slack/reactions.rs:33 | the `ok: true` arm of `add`: the acknowledgement exactly when `ok` is a boolean, otherwise a panic naming `ReactionsAddSuccess` |
| Reactions.RemoveSuccess | src/slack/reactions.rs:219 | the `ok: true` arm of `remove`: the acknowledgement exactly when `ok` is a boolean, otherwise a panic naming `ReactionsRemoveSuccess` |
| Reactions.RenderBool | src/slack/reactions.rs:48 | `.map(\|v\| v.to_string())` on an optional boolean: present exactly when the flag is, and the text reads back as the flag |
| Reactions.RenderInt | src/slack/reactions.rs:108 | `.map(\|v\| v.to_string())` on an optional `i32`: present exactly when the number is, and the text reads back as the number |
| Reactions.Add | src/slack/reactions.rs:15-39 | `add` sends POST to reactions.add with the bearer token and exactly `channel`, `name`, `timestamp` in that order; the reply is handled by the shared dispatch with the `{ok}` success decoding |
| Reactions.Get | src/slack/reactions.rs:41-102 | `get` sends GET to reactions.get with the query of its five optional parameters in source order; the reply is handled by the shared dispatch with the type-discriminated success decoding |
| Reactions.MessageField | src/slack/reactions.rs:67-70 | `from_value::<MessageData>(get("message").unwrap()).unwrap()`: the message exactly when the key is present and deserialises; otherwise it panics on the missing key or on `MessageData` |
| Reactions.FileField | src/slack/reactions.rs:83-84 | `from_value::<FileData>(get("file").unwrap()).unwrap()` (also at lines 91-92, 154-157 and 165-168): the file exactly when the key is present and deserialises; otherwise it panics on the missing key or on `FileData` |
| Reactions.GetSuccessBody | src/slack/reactions.rs:62-97 | computes the `ok: true` arm of `get`: reads `type`, then per type the message and channel, the file, or the file and comment; any other type panics with "Unexpected type" |
| Reactions.GetQueryCarries | src/slack/reactions.rs:45-49 | each of channel, file, file_comment, full ("true"/"false") and timestamp is carried exactly when present; no other key appears |
| Reactions.GetQueryInOrder | src/slack/reactions.rs:45-49 | the query is the pairs of channel, file, file_comment, full and timestamp in the order `get` adds them |
| Reactions.GetVariantFollowsType | src/slack/reactions.rs:62-97 | a decoded `get` success is the variant its `type` names, carries that `type` and has `ok` true; a missing or non-string `type` panics for that reason; any other `type` string panics with "Unexpected type" |
| Reactions.GetRoundTrip | src/slack/reactions.rs:58-99 | a served, well-formed `get` success body (message, file or file_comment) comes back as the same variant with the same contents |
| Reactions.ResolveItem | src/slack/reactions.rs:131-175 | computes one pass of the item loop: reads `type`, then per type the channel and message, the file, or the file and comment; any other type panics naming it |
| Reactions.ResolveItems | src/slack/reactions.rs:128-177 | computes the item loop: every item resolved in order, or the first panic |
| Reactions.DecodeMetadata | src/slack/reactions.rs:395-398 | computes the deserialisation of the pagination metadata: a required string `next_cursor` |
| Reactions.DefaultMetadata | src/slack/reactions.rs:400-406 | `ReactionsListResponseMetadata::default()`: the empty cursor |
| Reactions.MetadataOrDefault | src/slack/reactions.rs:181-186 | computes the lenient metadata read: the decoded metadata, or the default when it does not deserialise |
| Reactions.ListSuccessBody | src/slack/reactions.rs:127-188 | computes the `ok: true` arm of `list`: the `items` array, the item loop, then the required `response_metadata` read leniently |
| Reactions.DefaultListParams | src/slack/reactions.rs:363-375 | `ReactionsListParams::default()` sets nothing, so `list` sends an empty query |
| Reactions.List | src/slack/reactions.rs:104-193 | `list` sends GET to reactions.list with the query of its seven optional parameters in source order; the reply is handled by the shared dispatch with the list success decoding |
| Reactions.ListQueryCarries | src/slack/reactions.rs:108-114 | each of the seven parameters is carried exactly when present, and no other key appears; count, limit and page go as decimal text that reads back as the number |
| Reactions.HandleListReply | src/slack/reactions.rs:123-192 | handling a `list` reply equals the shared dispatch with the list success decoding |
| Reactions.DecodeListSuccess | src/slack/reactions.rs:127-188 | decoding a `list` success equals `ListSuccessBody`: items first, then `response_metadata` |
| Reactions.ResolveListItems | src/slack/reactions.rs:128-177 | the item loop computes `ResolveItems`: on success one item per input, in order, each the resolution of its input; a failure is the panic of the first failing item (see `Reactions.ResolveItemsFail`) |
| Reactions.ResolveItemsOk | src/slack/reactions.rs:128-177 | all items resolve iff each one does; then the result has the same length and resolves pointwise |
| Reactions.ResolveItemsFail | src/slack/reactions.rs:128-177 | a failing list fails with the panic of its first failing item |
| Reactions.ItemVariantFollowsType | src/slack/reactions.rs:131-175 | a resolved item is the variant its `type` names and carries that `type`; a missing or non-string `type` panics for that reason; any other string panics as an unexpected item type naming it |
| Reactions.ListFailsOnUnknownItem | src/slack/reactions.rs:173-175 | one item of unknown type, after items that resolve, makes the whole call panic with that type |
| Reactions.MetadataFallback | src/slack/reactions.rs:178-187 | after the items: a missing `response_metadata` panics; one that does not deserialise gives the empty cursor; one that does is kept |
| Reactions.ItemRoundTrip | src/slack/reactions.rs:377-393 | a well-formed item of each variant survives serialisation and resolution |
| Reactions.ItemsRoundTrip | src/slack/reactions.rs:128-177 | a serialised list of well-formed items resolves to the same items in the same order |
| Reactions.ListRoundTrip | src/slack/reactions.rs:123-192 | a served `list` success body comes back as the same Success payload: same items, same order, same cursor |
| Reactions.Remove | src/slack/reactions.rs:195-226 | `remove` sends POST to reactions.remove with the query of channel, file, file_comment, the always-present name, and timestamp; the reply is handled by the shared dispatch with the `{ok}` success decoding |
| Reactions.RemoveQueryCarries | src/slack/reactions.rs:202-206 | `name` is always carried exactly once; the optional parameters are carried exactly when present; no other key appears |
| Reactions.RemoveNamePlacement | src/slack/reactions.rs:202-206 | `name` comes after whichever of channel, file and file_comment are present, and only timestamp may follow it |
| Reactions.AddRejected | src/slack/reactions.rs:30-37 | an `add` answered `{ok: false, error: "invalid_name"}` returns the Error variant with that error |
| Reactions.AckSucceeds | src/slack/reactions.rs:30-33 | an admitted reply whose body says `ok: true` makes both `add` and `remove` return `Success` with the acknowledgement `{ok: true}`; neither panics there (`remove`: lines 215-219) |

## Left out

- HTTP transport: the client, `send().await`, the async runtime and the bearer header's
  transmission. The reply is an input to each call: either no reply, or a status with a body
  that may or may not be JSON.
- Percent-encoding of query values is not modelled. The query is kept as the sequence of
  `(name, value)` pairs that `append_pair` receives.
- `Url::parse(..).expect(..)` on the constant endpoint URLs is not modelled as a failure,
  because those constants always parse.
- Serde's positional (JSON array) form of structs is not modelled. Structs decode from
  objects only.
- `serde_json::Value` numbers are modelled as integers and reals. Whether a float such as
  `3.0` fits an integer field follows integer/real kind only.
- `comment: Value` and `shares: HashMap<String, Value>` are kept as raw JSON values.
- `FileData` is kept as its map of 38 checked fields, not as a 38-field record.
- `client.rs` (token from the environment, client construction), `main.rs`, `features/` and
  `tests.rs` are not part of this model. They only call the wrappers.
