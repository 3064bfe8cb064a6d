/**
 * The payload records of the reactions endpoints: `Reaction`, `MessageData` and `FileData`,
 * with how `serde_json::from_value` reads them and how they are written as JSON.
 */
module ReactionsData {
  import opened Wrappers
  import opened Numeric
  import opened Json

  datatype Reaction = Reaction(name: string, users: seq<string>, count: i32)

  /** `MessageData`; `kind` is the JSON field `type`. */
  datatype MessageData = MessageData(
    kind: string, text: string, user: string, ts: string,
    team: Option<string>, reactions: seq<Reaction>, permalink: string)

  /** The JSON kinds the fields of `FileData` take. */
  datatype Kind =
    | KStr      // String
    | KBool     // bool
    | KI32      // i32
    | KStrSeq   // Vec<String>
    | KObject   // HashMap<String, Value>

  /** The fields of `FileData`, each with the kind its Rust type demands; all are required. */
  const FileDataSchema: seq<(string, Kind)> := [
    ("id", KStr), ("created", KI32), ("timestamp", KI32), ("name", KStr), ("title", KStr),
    ("mimetype", KStr), ("filetype", KStr), ("pretty_type", KStr), ("user", KStr),
    ("user_team", KStr), ("editable", KBool), ("size", KI32), ("mode", KStr),
    ("is_external", KBool), ("external_type", KStr), ("is_public", KBool),
    ("public_url_shared", KBool), ("display_as_bot", KBool), ("username", KStr),
    ("url_private", KStr), ("url_private_download", KStr), ("permalink", KStr),
    ("permalink_public", KStr), ("edit_link", KStr), ("preview", KStr),
    ("preview_highlight", KStr), ("lines", KI32), ("lines_more", KI32),
    ("preview_is_truncated", KBool), ("comments_count", KI32), ("is_starred", KBool),
    ("shares", KObject), ("channels", KStrSeq), ("groups", KStrSeq), ("ims", KStrSeq),
    ("has_more_shares", KBool), ("has_rich_preview", KBool), ("file_access", KStr)]

  const FileDataKeys: set<string> := set i | 0 <= i < |FileDataSchema| :: FileDataSchema[i].0

  predicate HasKind(v: Json, k: Kind) {
    match k
    case KStr => v.JStr?
    case KBool => v.JBool?
    case KI32 => ToI32(v).Some?
    case KStrSeq => ToStrSeq(v).Some?
    case KObject => v.JObj?
  }

  /** Every schema field is present with its kind. */
  predicate FitsSchema(m: map<string, Json>) {
    forall i | 0 <= i < |FileDataSchema| ::
      FileDataSchema[i].0 in m && HasKind(m[FileDataSchema[i].0], FileDataSchema[i].1)
  }

  /** `FileData`, kept as its checked fields (the record is wide and flat). */
  datatype FileData = FileData(fields: map<string, Json>)

  /** A file record as deserialisation produces it: exactly the schema's fields, each of its kind. */
  predicate ValidFileData(f: FileData) {
    FitsSchema(f.fields) && f.fields.Keys == FileDataKeys
  }

  function DecodeFileData(v: Json): Option<FileData> {
    if v.JObj? && FitsSchema(v.members) then
      Some(FileData(map k | k in v.members && k in FileDataKeys :: v.members[k]))
    else None
  }

  function EncodeFileData(f: FileData): Json {
    JObj(f.fields)
  }

  function DecodeReaction(v: Json): Option<Reaction> {
    if !v.JObj? then None
    else
      var name :- Required(v.members, "name", AsStr);
      var users :- Required(v.members, "users", ToStrSeq);
      var count :- Required(v.members, "count", ToI32);
      Some(Reaction(name, users, count))
  }

  function ToReactions(v: Json): Option<seq<Reaction>> {
    ToSeq(v, DecodeReaction)
  }

  function DecodeMessageData(v: Json): Option<MessageData> {
    if !v.JObj? then None
    else
      var m := v.members;
      var kind :- Required(m, "type", AsStr);
      var text :- Required(m, "text", AsStr);
      var user :- Required(m, "user", AsStr);
      var ts :- Required(m, "ts", AsStr);
      var team :- Optional(m, "team", AsStr);
      var reactions :- Required(m, "reactions", ToReactions);
      var permalink :- Required(m, "permalink", AsStr);
      Some(MessageData(kind, text, user, ts, team, reactions, permalink))
  }

  function EncodeReaction(r: Reaction): Json {
    JObj(map["name" := JStr(r.name), "users" := FromStrSeq(r.users), "count" := JInt(r.count as int)])
  }

  function EncodeMessageData(d: MessageData): Json {
    var required := map["type" := JStr(d.kind), "text" := JStr(d.text), "user" := JStr(d.user),
                        "ts" := JStr(d.ts), "reactions" := JArr(FromElems(d.reactions, EncodeReaction)),
                        "permalink" := JStr(d.permalink)];
    JObj(WithOptional(required, "team", if d.team.Some? then Some(JStr(d.team.value)) else None))
  }

  /** Deserialisation keeps exactly the schema's fields of an object that fits the schema. */
  lemma FileDataDecodes(v: Json)
    ensures DecodeFileData(v).Some? <==> v.JObj? && FitsSchema(v.members)
    ensures DecodeFileData(v).Some? ==> ValidFileData(DecodeFileData(v).value)
  {
    if v.JObj? && FitsSchema(v.members) {
      var f := DecodeFileData(v).value;
      forall i | 0 <= i < |FileDataSchema|
        ensures FileDataSchema[i].0 in f.fields && HasKind(f.fields[FileDataSchema[i].0], FileDataSchema[i].1)
      {
        assert FileDataSchema[i].0 in FileDataKeys;
      }
      forall k | k in FileDataKeys ensures k in f.fields {
        var i :| 0 <= i < |FileDataSchema| && FileDataSchema[i].0 == k;
      }
    }
  }

  /** Serialising a file record and deserialising it gives it back. */
  lemma FileDataRoundTrip(f: FileData)
    requires ValidFileData(f)
    ensures DecodeFileData(EncodeFileData(f)) == Some(f)
  {
    var back := map k | k in f.fields && k in FileDataKeys :: f.fields[k];
    assert back.Keys == f.fields.Keys;
    assert back == f.fields;
  }

  /** A file record lacking any schema field does not deserialise. */
  lemma FileDataRequiresEveryField(m: map<string, Json>, i: nat)
    requires i < |FileDataSchema| && FileDataSchema[i].0 !in m
    ensures DecodeFileData(JObj(m)) == None
  {
  }

  lemma ReactionRoundTrip(r: Reaction)
    ensures DecodeReaction(EncodeReaction(r)) == Some(r)
  {
    StrSeqRoundTrip(r.users);
    var m := EncodeReaction(r).members;
    assert m["name"] == JStr(r.name) && m["users"] == FromStrSeq(r.users);
    assert m["count"] == JInt(r.count as int);
  }

  /** Where each field of a message lands in its serialised object. */
  lemma MessageDataMembers(d: MessageData)
    ensures var m := EncodeMessageData(d).members;
      && m.Keys == {"type", "text", "user", "ts", "reactions", "permalink"} + (if d.team.Some? then {"team"} else {})
      && m["type"] == JStr(d.kind) && m["text"] == JStr(d.text) && m["user"] == JStr(d.user)
      && m["ts"] == JStr(d.ts) && m["permalink"] == JStr(d.permalink)
      && m["reactions"] == JArr(FromElems(d.reactions, EncodeReaction))
      && (d.team.Some? ==> m["team"] == JStr(d.team.value))
  {
  }

  /** Serialising a message and deserialising it gives it back, its reactions in order. */
  lemma MessageDataRoundTrip(d: MessageData)
    ensures DecodeMessageData(EncodeMessageData(d)) == Some(d)
  {
    forall i | 0 <= i < |d.reactions| ensures DecodeReaction(EncodeReaction(d.reactions[i])) == Some(d.reactions[i]) {
      ReactionRoundTrip(d.reactions[i]);
    }
    ElemsRoundTrip(d.reactions, EncodeReaction, DecodeReaction);
    MessageDataMembers(d);
    var m := EncodeMessageData(d).members;
    assert Required(m, "reactions", ToReactions) == Some(d.reactions);
    assert Optional(m, "team", AsStr) == Some(d.team);
  }
}
