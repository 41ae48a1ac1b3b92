/** The JSON form of persisted state, as trees (serialization.py). */
module Serialization {
  import opened Prelude

  /** Python values the serializer meets. `Set` is a set or a frozenset, which compare equal; a stamp is known by its
      canonical text; `Unsupported` is a value of any other type, or a dict with a key that is no string. */
  datatype Py =
    | Nil
    | Bool(b: bool)
    | Int(n: int)
    | Float(r: real)
    | Str(s: string)
    | Bytes(bytes: seq<bv8>)
    | Stamp(kind: StampKind, text: string)
    | Tuple(items: seq<Py>)
    | ListOf(items: seq<Py>)
    | Set(elements: set<Py>)
    | DictOf(entries: map<string, Py>)
    | Registered(tag: string, fields: map<string, Py>)
    | Unsupported

  datatype StampKind = DateTime | Date | Time | Uuid

  datatype Json =
    | JNull
    | JBool(b: bool)
    | JInt(n: int)
    | JFloat(r: real)
    | JStr(s: string)
    | JArray(items: seq<Json>)
    | JObject(members: map<string, Json>)

  datatype Failure = Failure

  const TYPE := "__type__"

  /** What the standard library contributes: base64, the text forms of stamps, the order in which encoded set items are
      written, the order of the keys of an object, and what a registered class does with other than all its fields. */
  datatype Library = Library(
    base64: seq<bv8> -> string,
    unbase64: string -> Option<seq<bv8>>,
    parse: (StampKind, string) -> Option<string>,
    sorted: set<Json> -> seq<Json>,
    keys: set<string> -> seq<string>,
    construct: (string, map<string, Py>) -> Result<Py, Failure>)
  {
    ghost predicate Valid() {
      && (forall b :: unbase64(base64(b)) == Some(b))
      && (forall s :: (set j | j in sorted(s)) == s)
      && (forall tag, fields :: construct(tag, fields).Ok? ==> construct(tag, fields).value.Registered?)
    }
  }

  // ----- the registered classes ----------------------------------------------------------------------------

  const MESSAGE: set<string> := {"content", "id", "name", "additional_kwargs", "response_metadata", "type"}

  const FIELDS: map<string, set<string>> := map[
    "lx:msg.system" := MESSAGE,
    "lx:msg.human" := MESSAGE,
    "lx:msg.ai" := MESSAGE + {"tool_calls", "usage"},
    "lx:msg.tool" := MESSAGE + {"tool_call_id", "status"},
    "lx:msg.ai_chunk" := MESSAGE + {"tool_call_chunks", "usage"},
    "lx:msg.remove" := {"id", "type"},
    "lx:tool_call" := {"name", "args", "id", "type"},
    "lx:tool_call_chunk" := {"name", "args", "id", "index"},
    "lx:interrupt" := {"value", "resumable", "id", "when", "task_id", "namespace", "task_path"},
    "lx:send" := {"node", "arg"},
    "lx:task_snapshot" := {"id", "name", "path", "error", "interrupts", "result"}]

  function StampTag(kind: StampKind): string {
    match kind
    case DateTime => "datetime"
    case Date => "date"
    case Time => "time"
    case Uuid => "uuid"
  }

  // ----- several results -----------------------------------------------------------------------------------

  predicate AllOk<T>(rs: seq<Result<T, Failure>>) { forall i :: 0 <= i < |rs| ==> rs[i].Ok? }

  function Values<T>(rs: seq<Result<T, Failure>>): seq<T>
    requires AllOk(rs)
  {
    seq(|rs|, i requires 0 <= i < |rs| => rs[i].value)
  }

  predicate AllOkMap<T>(rs: map<string, Result<T, Failure>>) { forall k :: k in rs ==> rs[k].Ok? }

  function MapValues<T>(rs: map<string, Result<T, Failure>>): map<string, T>
    requires AllOkMap(rs)
  {
    map k | k in rs :: rs[k].value
  }

  // ----- _encode -------------------------------------------------------------------------------------------

  function Tagged(tag: string, member: string, value: Json): Json {
    JObject(map[TYPE := JStr(tag), member := value])
  }

  function Encode(v: Py, lib: Library): Result<Json, Failure> {
    match v
    case Nil => Ok(JNull)
    case Bool(b) => Ok(JBool(b))
    case Int(n) => Ok(JInt(n))
    case Float(r) => Ok(JFloat(r))
    case Str(s) => Ok(JStr(s))
    case Bytes(bytes) => Ok(Tagged("bytes", "value", JStr(lib.base64(bytes))))
    case Stamp(kind, text) => Ok(Tagged(StampTag(kind), "value", JStr(text)))
    case Tuple(items) =>
      var encoded := seq(|items|, i requires 0 <= i < |items| => Encode(items[i], lib));
      if AllOk(encoded) then Ok(Tagged("tuple", "items", JArray(Values(encoded)))) else Err(Failure)
    case ListOf(items) =>
      var encoded := seq(|items|, i requires 0 <= i < |items| => Encode(items[i], lib));
      if AllOk(encoded) then Ok(JArray(Values(encoded))) else Err(Failure)
    case Set(elements) =>
      if forall e :: e in elements ==> Encode(e, lib).Ok? then
        Ok(Tagged("set", "items", JArray(lib.sorted(set e | e in elements :: Encode(e, lib).value))))
      else Err(Failure)
    case DictOf(entries) =>
      var encoded := map k | k in entries :: Encode(entries[k], lib);
      if AllOkMap(encoded) then Ok(JObject(MapValues(encoded))) else Err(Failure)
    case Registered(tag, fields) =>
      var encoded := map k | k in fields :: Encode(fields[k], lib);
      if AllOkMap(encoded) then Ok(Tagged(tag, "fields", JObject(MapValues(encoded)))) else Err(Failure)
    case Unsupported => Err(Failure)
  }

  // ----- _decode -------------------------------------------------------------------------------------------

  /** A value that can be an element of a set once decoded, where sets come back as plain sets. */
  predicate Hashes(v: Py) {
    match v
    case Tuple(items) => forall i :: 0 <= i < |items| ==> Hashes(items[i])
    case Registered(_, fields) => forall k :: k in fields ==> Hashes(fields[k])
    case ListOf(_) => false
    case Set(_) => false
    case DictOf(_) => false
    case _ => true
  }

  /** JSON read as it is. */
  function Raw(j: Json): Py {
    match j
    case JNull => Nil
    case JBool(b) => Bool(b)
    case JInt(n) => Int(n)
    case JFloat(r) => Float(r)
    case JStr(s) => Str(s)
    case JArray(items) => ListOf(seq(|items|, i requires 0 <= i < |items| => Raw(items[i])))
    case JObject(members) => DictOf(map k | k in members :: Raw(members[k]))
  }

  predicate Prefixed(tag: string) { |tag| >= 3 && tag[..3] == "lx:" }

  /** A registered class called with decoded fields. */
  function Construct(tag: string, fields: map<string, Py>, lib: Library): Result<Py, Failure> {
    if fields.Keys == FieldsOf(tag) then Ok(Registered(tag, fields)) else lib.construct(tag, fields)
  }

  function FieldsOf(tag: string): set<string> { if tag in FIELDS then FIELDS[tag] else {} }

  /** What iterating over a JSON value gives: items, characters or keys. */
  function Elements(j: Json, lib: Library): Option<seq<Json>> {
    match j
    case JArray(items) => Some(items)
    case JStr(s) => Some(seq(|s|, i requires 0 <= i < |s| => JStr([s[i]])))
    case JObject(members) =>
      var keys := lib.keys(members.Keys);
      Some(seq(|keys|, i requires 0 <= i < |keys| => JStr(keys[i])))
    case _ => Option.None
  }

  function DecodeStamp(kind: StampKind, members: map<string, Json>, lib: Library): Result<Py, Failure> {
    if "value" in members && members["value"].JStr? && lib.parse(kind, members["value"].s).Some? then
      Ok(Stamp(kind, lib.parse(kind, members["value"].s).value))
    else Err(Failure)
  }

  function Decode(j: Json, lib: Library): Result<Py, Failure> {
    match j
    case JArray(items) =>
      var decoded := seq(|items|, i requires 0 <= i < |items| => Decode(items[i], lib));
      if AllOk(decoded) then Ok(ListOf(Values(decoded))) else Err(Failure)
    case JObject(members) =>
      var kind := if TYPE in members && members[TYPE].JStr? then members[TYPE].s else "";
      if Prefixed(kind) then
        if kind !in FIELDS || "fields" !in members || !members["fields"].JObject? then Err(Failure)
        else
          var fields := members["fields"].members;
          var decoded := map k | k in fields :: Decode(fields[k], lib);
          if AllOkMap(decoded) then Construct(kind, MapValues(decoded), lib) else Err(Failure)
      else if kind == "bytes" then
        if "value" in members && members["value"].JStr? && lib.unbase64(members["value"].s).Some? then
          Ok(Bytes(lib.unbase64(members["value"].s).value))
        else Err(Failure)
      else if kind == "tuple" || kind == "set" then
        if "items" !in members then Err(Failure)
        else if members["items"].JArray? then
          var items := members["items"].items;
          var decoded := seq(|items|, i requires 0 <= i < |items| => Decode(items[i], lib));
          if !AllOk(decoded) then Err(Failure) else Gather(kind, Values(decoded))
        else
          match Elements(members["items"], lib)
          case Some(items) => Gather(kind, seq(|items|, i requires 0 <= i < |items| => Raw(items[i])))
          case None => Err(Failure)
      else if kind == "datetime" then DecodeStamp(DateTime, members, lib)
      else if kind == "date" then DecodeStamp(Date, members, lib)
      else if kind == "time" then DecodeStamp(Time, members, lib)
      else if kind == "uuid" then DecodeStamp(Uuid, members, lib)
      else if kind == "path" then
        if "value" in members then Ok(Raw(members["value"])) else Err(Failure)
      else
        var decoded := map k | k in members :: Decode(members[k], lib);
        if AllOkMap(decoded) then Ok(DictOf(MapValues(decoded))) else Err(Failure)
    case _ => Ok(Raw(j))
  }

  /** `tuple(...)` or `set(...)` of decoded items. */
  function Gather(kind: string, items: seq<Py>): Result<Py, Failure> {
    if kind == "tuple" then Ok(Tuple(items))
    else if forall i :: 0 <= i < |items| ==> Hashes(items[i]) then Ok(Set(set e | e in items))
    else Err(Failure)
  }

  // ----- dumps and loads --------------------------------------------------------------------------------------------

  const VERSION := 2

  function Dumps(v: Py, lib: Library): Result<Json, Failure> {
    var value :- Encode(v, lib);
    Ok(JObject(map["version" := JInt(VERSION), "value" := value]))
  }

  /** Documents of versions 1 and 2 are read. */
  function Loads(envelope: Json, lib: Library): Result<Py, Failure> {
    if !envelope.JObject? || "version" !in envelope.members || "value" !in envelope.members then Err(Failure)
    else if envelope.members["version"] !in {JInt(1), JInt(VERSION)} then Err(Failure)
    else Decode(envelope.members["value"], lib)
  }
}
