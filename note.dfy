/**
 * The generated `Note` model of `src/openapi/models/Note.ts`: the mapping
 * between the client-side object (`frameLength`) and the wire object
 * (`frame_length`), and the shape check `instanceOfNote`. JavaScript values
 * keep `undefined` apart from `null`, and key presence apart from value.
 */
module Note {

  datatype JsValue =
    | Undefined
    | Null
    | Bool(b: bool)
    | Num(n: real)
    | Str(s: string)
    | Obj(fields: map<string, JsValue>)

  /** The keys of a client-side `Note` and of its wire form. */
  const NoteKeys: set<string> := {"id", "key", "frameLength", "lyric"}
  const WireKeys: set<string> := {"id", "key", "frame_length", "lyric"}

  /**
   * `json[key]`: a missing key reads as `undefined`, and so does any of these
   * keys on a value that is not an object.
   */
  function Get(json: JsValue, key: string): JsValue
  {
    if json.Obj? && key in json.fields then json.fields[key] else Undefined
  }

  /** `exists(json, key)` of the generated runtime: neither undefined nor null. */
  predicate Exists(json: JsValue, key: string)
  {
    Get(json, key) != Undefined && Get(json, key) != Null
  }

  /**
   * `instanceOfNote`: both required properties are present as keys, whatever
   * their values; so any object with all four `Note` keys passes.
   */
  function InstanceOfNote(value: map<string, JsValue>): (r: bool)
    ensures NoteKeys <= value.Keys ==> r
  {
    "frameLength" in value && "lyric" in value
  }

  /** `NoteFromJSONTyped`; the discriminator flag plays no part for `Note`. */
  function NoteFromJSONTyped(json: JsValue, ignoreDiscriminator: bool): (r: JsValue)
    ensures (json == Undefined || json == Null) ==> r == json
    ensures json != Undefined && json != Null ==>
      && r.Obj? && r.fields.Keys == NoteKeys
      && r.fields["frameLength"] == Get(json, "frame_length")
      && r.fields["lyric"] == Get(json, "lyric")
      && (Exists(json, "id") ==> r.fields["id"] == Get(json, "id"))
      && (!Exists(json, "id") ==> r.fields["id"] == Undefined)
      && (Exists(json, "key") ==> r.fields["key"] == Get(json, "key"))
      && (!Exists(json, "key") ==> r.fields["key"] == Undefined)
  {
    if json == Undefined || json == Null then json
    else
      Obj(map[
        "id" := if !Exists(json, "id") then Undefined else Get(json, "id"),
        "key" := if !Exists(json, "key") then Undefined else Get(json, "key"),
        "frameLength" := Get(json, "frame_length"),
        "lyric" := Get(json, "lyric")])
  }

  /** `NoteFromJSON`: every object it builds passes `instanceOfNote`. */
  function NoteFromJSON(json: JsValue): (r: JsValue)
    ensures (json == Undefined || json == Null) ==> r == json
    ensures json != Undefined && json != Null ==>
      && r.Obj? && InstanceOfNote(r.fields)
      && r.fields["frameLength"] == Get(json, "frame_length")
  {
    NoteFromJSONTyped(json, false)
  }

  /** `NoteToJSON`: undefined and null pass through; otherwise exactly the wire keys. */
  function NoteToJSON(value: JsValue): (r: JsValue)
    ensures value == Undefined ==> r == Undefined
    ensures value == Null ==> r == Null
    ensures value != Undefined && value != Null ==>
      && r.Obj? && r.fields.Keys == WireKeys
      && r.fields["frame_length"] == Get(value, "frameLength")
      && r.fields["id"] == Get(value, "id")
      && r.fields["key"] == Get(value, "key")
      && r.fields["lyric"] == Get(value, "lyric")
  {
    if value == Undefined then Undefined
    else if value == Null then Null
    else
      Obj(map[
        "id" := Get(value, "id"),
        "key" := Get(value, "key"),
        "frame_length" := Get(value, "frameLength"),
        "lyric" := Get(value, "lyric")])
  }

  /** The four `Note` properties of an object, missing ones read as undefined. */
  function NoteFields(note: map<string, JsValue>): map<string, JsValue>
  {
    map k | k in NoteKeys :: Get(Obj(note), k)
  }

  /** Neither `id` nor `key` is `null`: undefined or any other value is fine. */
  predicate NoNullIds(json: JsValue)
  {
    Get(json, "id") != Null && Get(json, "key") != Null
  }

  /**
   * Round trip: a note whose `id` and `key` are not `null` comes back as its
   * four properties; a note with exactly those keys comes back unchanged.
   */
  lemma RoundTrip(note: map<string, JsValue>)
    requires NoNullIds(Obj(note))
    ensures NoteFromJSON(NoteToJSON(Obj(note))) == Obj(NoteFields(note))
    ensures note.Keys == NoteKeys ==> NoteFromJSON(NoteToJSON(Obj(note))) == Obj(note)
  {
    var back := NoteFromJSON(NoteToJSON(Obj(note)));
    assert back.fields == NoteFields(note);
    if note.Keys == NoteKeys {
      assert NoteFields(note) == note;
    }
  }

  /**
   * A `null` id or key does not survive the round trip: `exists` turns it into
   * undefined, so the round trip gives back the note's properties exactly when
   * neither is `null`.
   */
  lemma NullIdBecomesUndefined(note: map<string, JsValue>)
    ensures Get(Obj(note), "id") == Null ==> NoteFromJSON(NoteToJSON(Obj(note))).fields["id"] == Undefined
    ensures Get(Obj(note), "key") == Null ==> NoteFromJSON(NoteToJSON(Obj(note))).fields["key"] == Undefined
    ensures NoteFromJSON(NoteToJSON(Obj(note))) == Obj(NoteFields(note)) <==> NoNullIds(Obj(note))
  {
    var back := NoteFromJSON(NoteToJSON(Obj(note)));
    if NoNullIds(Obj(note)) {
      RoundTrip(note);
    } else if Get(Obj(note), "id") == Null {
      assert back.fields["id"] != NoteFields(note)["id"];
    } else {
      assert back.fields["key"] != NoteFields(note)["key"];
    }
  }

  /** The other way round: wire objects whose `id` and `key` are not `null` keep their wire fields. */
  lemma WireRoundTrip(wire: map<string, JsValue>)
    requires NoNullIds(Obj(wire))
    ensures NoteToJSON(NoteFromJSON(Obj(wire))) == Obj(map k | k in WireKeys :: Get(Obj(wire), k))
  {
    var back := NoteToJSON(NoteFromJSON(Obj(wire)));
    assert back.fields == map k | k in WireKeys :: Get(Obj(wire), k);
  }
}
