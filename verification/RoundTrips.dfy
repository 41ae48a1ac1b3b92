/** Which values come back from their JSON form unchanged (serialization.py 85-161). */
module RoundTrips {
  import opened Prelude
  import opened Serialization

  function Round(v: Py, lib: Library): Result<Py, Failure> {
    var j :- Encode(v, lib);
    Decode(j, lib)
  }

  /** A value Python lets into a set, where sets are frozen ones. */
  predicate Frozen(v: Py) {
    match v
    case Tuple(items) => forall i :: 0 <= i < |items| ==> Frozen(items[i])
    case Set(elements) => forall e :: e in elements ==> Frozen(e)
    case Registered(_, fields) => forall k :: k in fields ==> Frozen(fields[k])
    case ListOf(_) => false
    case DictOf(_) => false
    case _ => true
  }

  /** A value Python can hold: elements of sets are hashable, registered objects have exactly their fields, and stamps
      are known by their canonical text. */
  predicate Proper(v: Py, lib: Library) {
    match v
    case Stamp(kind, text) => lib.parse(kind, text) == Some(text)
    case Tuple(items) => forall i :: 0 <= i < |items| ==> Proper(items[i], lib)
    case ListOf(items) => forall i :: 0 <= i < |items| ==> Proper(items[i], lib)
    case Set(elements) => forall e :: e in elements ==> Proper(e, lib) && Frozen(e)
    case DictOf(entries) => forall k :: k in entries ==> Proper(entries[k], lib)
    case Registered(tag, fields) =>
      tag in FIELDS && fields.Keys == FIELDS[tag] && forall k :: k in fields ==> Proper(fields[k], lib)
    case _ => true
  }

  /** A type tag the decoder acts on. */
  predicate Reserved(tag: string) {
    Prefixed(tag) || tag in {"bytes", "tuple", "set", "datetime", "date", "time", "uuid", "path"}
  }

  predicate ReservedDict(entries: map<string, Py>) {
    TYPE in entries && entries[TYPE].Str? && Reserved(entries[TYPE].s)
  }

  /** No unsupported value anywhere, no dict whose `__type__` is a reserved tag, and no set within a set. */
  predicate Faithful(v: Py) {
    match v
    case Tuple(items) => forall i :: 0 <= i < |items| ==> Faithful(items[i])
    case ListOf(items) => forall i :: 0 <= i < |items| ==> Faithful(items[i])
    case Set(elements) => forall e :: e in elements ==> Faithful(e) && Hashes(e)
    case DictOf(entries) => !ReservedDict(entries) && forall k :: k in entries ==> Faithful(entries[k])
    case Registered(_, fields) => forall k :: k in fields ==> Faithful(fields[k])
    case Unsupported => false
    case _ => true
  }

  // ----- one constructor at a time --------------------------------------------------------------------------------

  function Rounds(items: seq<Py>, lib: Library): (r: seq<Result<Py, Failure>>)
    ensures |r| == |items|
  {
    seq(|items|, i requires 0 <= i < |items| => Round(items[i], lib))
  }

  function RoundsMap(entries: map<string, Py>, lib: Library): (r: map<string, Result<Py, Failure>>)
    ensures r.Keys == entries.Keys
  {
    map k | k in entries :: Round(entries[k], lib)
  }

  function Encodes(items: seq<Py>, lib: Library): (r: seq<Result<Json, Failure>>)
    ensures |r| == |items|
  {
    seq(|items|, i requires 0 <= i < |items| => Encode(items[i], lib))
  }

  function Decodes(items: seq<Json>, lib: Library): (r: seq<Result<Py, Failure>>)
    ensures |r| == |items|
  {
    seq(|items|, i requires 0 <= i < |items| => Decode(items[i], lib))
  }

  /** Encoding each item and decoding each of them is rounding each. */
  lemma {:induction false} DecodesEncodes(items: seq<Py>, lib: Library)
    ensures AllOk(Encodes(items, lib)) ==> Decodes(Values(Encodes(items, lib)), lib) == Rounds(items, lib)
    ensures !AllOk(Encodes(items, lib)) ==> !AllOk(Rounds(items, lib))
  {
    hide Encode, Decode;
    if AllOk(Encodes(items, lib)) {
      assert forall i :: 0 <= i < |items| ==> Encodes(items, lib)[i].Ok?;
    } else {
      var i :| 0 <= i < |items| && Encodes(items, lib)[i].Err?;
      assert Rounds(items, lib)[i].Err?;
    }
  }

  lemma {:induction false} RoundList(items: seq<Py>, lib: Library)
    ensures Round(ListOf(items), lib) ==
            if AllOk(Rounds(items, lib)) then Ok(ListOf(Values(Rounds(items, lib)))) else Err(Failure)
  {
    DecodesEncodes(items, lib);
    assert Encode(ListOf(items), lib) ==
           if AllOk(Encodes(items, lib)) then Ok(JArray(Values(Encodes(items, lib)))) else Err(Failure);
    if AllOk(Encodes(items, lib)) {
      var js := Values(Encodes(items, lib));
      assert Decode(JArray(js), lib) ==
             if AllOk(Decodes(js, lib)) then Ok(ListOf(Values(Decodes(js, lib)))) else Err(Failure);
    }
  }

  lemma {:induction false} NotPrefixed(tag: string)
    requires tag == "" || tag[0] != 'l'
    ensures !Prefixed(tag)
  {
    assert |tag| >= 3 ==> tag[..3][0] == tag[0];
  }

  lemma {:induction false} DecodeGathered(kind: string, js: seq<Json>, lib: Library)
    requires kind == "tuple" || kind == "set"
    ensures Decode(Tagged(kind, "items", JArray(js)), lib) ==
            if AllOk(Decodes(js, lib)) then Gather(kind, Values(Decodes(js, lib))) else Err(Failure)
  {
    NotPrefixed(kind);
    assert "items" != TYPE;
  }

  lemma {:induction false} RoundTuple(items: seq<Py>, lib: Library)
    ensures Round(Tuple(items), lib) ==
            if AllOk(Rounds(items, lib)) then Ok(Tuple(Values(Rounds(items, lib)))) else Err(Failure)
  {
    DecodesEncodes(items, lib);
    assert Encode(Tuple(items), lib) ==
           if AllOk(Encodes(items, lib)) then Ok(Tagged("tuple", "items", JArray(Values(Encodes(items, lib)))))
           else Err(Failure);
    if AllOk(Encodes(items, lib)) {
      DecodeGathered("tuple", Values(Encodes(items, lib)), lib);
    }
  }

  function EncodesMap(entries: map<string, Py>, lib: Library): (r: map<string, Result<Json, Failure>>)
    ensures r.Keys == entries.Keys
  {
    map k | k in entries :: Encode(entries[k], lib)
  }

  function DecodesMap(members: map<string, Json>, lib: Library): (r: map<string, Result<Py, Failure>>)
    ensures r.Keys == members.Keys
  {
    map k | k in members :: Decode(members[k], lib)
  }

  lemma {:induction false} DecodesEncodesMap(entries: map<string, Py>, lib: Library)
    ensures AllOkMap(EncodesMap(entries, lib)) ==>
              DecodesMap(MapValues(EncodesMap(entries, lib)), lib) == RoundsMap(entries, lib)
    ensures !AllOkMap(EncodesMap(entries, lib)) ==> !AllOkMap(RoundsMap(entries, lib))
  {
    hide Encode, Decode;
    if AllOkMap(EncodesMap(entries, lib)) {
      assert forall k :: k in entries ==> EncodesMap(entries, lib)[k].Ok?;
    } else {
      var k :| k in entries && EncodesMap(entries, lib)[k].Err?;
      assert RoundsMap(entries, lib)[k].Err?;
    }
  }

  /** The kind the decoder reads off an object. */
  function KindOf(members: map<string, Json>): string {
    if TYPE in members && members[TYPE].JStr? then members[TYPE].s else ""
  }

  lemma {:induction false} DecodePlain(members: map<string, Json>, lib: Library)
    requires !Reserved(KindOf(members))
    ensures Decode(JObject(members), lib) ==
            if AllOkMap(DecodesMap(members, lib)) then Ok(DictOf(MapValues(DecodesMap(members, lib)))) else Err(Failure)
  {
  }

  /** Only text is encoded as text. */
  lemma {:induction false} EncodedText(v: Py, lib: Library)
    ensures Encode(v, lib).Ok? ==> (Encode(v, lib).value.JStr? <==> v.Str?)
    ensures v.Str? ==> Encode(v, lib) == Ok(JStr(v.s))
  {
  }

  /** A dict whose type tag is not reserved is rounded entry by entry. */
  lemma {:induction false} RoundDict(entries: map<string, Py>, lib: Library)
    requires !ReservedDict(entries)
    ensures Round(DictOf(entries), lib) ==
            if AllOkMap(RoundsMap(entries, lib)) then Ok(DictOf(MapValues(RoundsMap(entries, lib)))) else Err(Failure)
  {
    hide Reserved, Encode, Decode;
    DecodesEncodesMap(entries, lib);
    EncodeDict(entries, lib);
    if AllOkMap(EncodesMap(entries, lib)) {
      var members := MapValues(EncodesMap(entries, lib));
      if TYPE in entries {
        EncodedText(entries[TYPE], lib);
      }
      EmptyKind();
      DecodePlain(members, lib);
    }
  }

  lemma {:induction false} EmptyKind()
    ensures !Reserved("")
  {
    NotPrefixed("");
  }

  lemma {:induction false} DecodeRegistered(tag: string, fields: map<string, Json>, lib: Library)
    requires tag in FIELDS && Prefixed(tag)
    ensures Decode(Tagged(tag, "fields", JObject(fields)), lib) ==
            if AllOkMap(DecodesMap(fields, lib)) then Construct(tag, MapValues(DecodesMap(fields, lib)), lib)
            else Err(Failure)
  {
    assert "fields" != TYPE;
  }

  lemma {:induction false} TagsPrefixed(tag: string)
    requires tag in FIELDS
    ensures Prefixed(tag)
  {
  }

  lemma {:induction false} EncodeRegistered(tag: string, fields: map<string, Py>, lib: Library)
    ensures Encode(Registered(tag, fields), lib) ==
            if AllOkMap(EncodesMap(fields, lib)) then
              Ok(Tagged(tag, "fields", JObject(MapValues(EncodesMap(fields, lib)))))
            else Err(Failure)
  {
  }

  lemma {:induction false} EncodeDict(entries: map<string, Py>, lib: Library)
    ensures Encode(DictOf(entries), lib) ==
            if AllOkMap(EncodesMap(entries, lib)) then Ok(JObject(MapValues(EncodesMap(entries, lib))))
            else Err(Failure)
  {
  }

  /** A registered object with exactly its fields is rounded field by field. */
  lemma {:induction false} RoundRegistered(tag: string, fields: map<string, Py>, lib: Library)
    requires tag in FIELDS && fields.Keys == FIELDS[tag]
    ensures Round(Registered(tag, fields), lib) ==
            if AllOkMap(RoundsMap(fields, lib)) then Ok(Registered(tag, MapValues(RoundsMap(fields, lib))))
            else Err(Failure)
  {
    hide Encode, Decode, Prefixed;
    TagsPrefixed(tag);
    DecodesEncodesMap(fields, lib);
    EncodeRegistered(tag, fields, lib);
    if AllOkMap(EncodesMap(fields, lib)) {
      var members := MapValues(EncodesMap(fields, lib));
      DecodeRegistered(tag, members, lib);
      if AllOkMap(RoundsMap(fields, lib)) {
        assert MapValues(RoundsMap(fields, lib)).Keys == FIELDS[tag];
      }
    }
  }

  /** The encoded items of a set. */
  function Image(elements: set<Py>, lib: Library): set<Json>
    requires forall e :: e in elements ==> Encode(e, lib).Ok?
  {
    set e | e in elements :: Encode(e, lib).value
  }

  /** The items written for a set are the encodings of its elements. */
  lemma {:induction false} SortedImage(elements: set<Py>, lib: Library)
    requires lib.Valid() && forall e :: e in elements ==> Encode(e, lib).Ok?
    ensures var js := lib.sorted(Image(elements, lib));
            && (forall e :: e in elements ==> Encode(e, lib).value in js)
            && (forall j :: j in js ==> exists e :: e in elements && Encode(e, lib).value == j)
  {
    hide Encode;
    var js := lib.sorted(Image(elements, lib));
    assert (set j | j in js) == Image(elements, lib);
    forall e | e in elements
      ensures Encode(e, lib).value in js
    {
      assert Encode(e, lib).value in Image(elements, lib);
      assert Encode(e, lib).value in (set j | j in js);
    }
    forall j | j in js
      ensures exists e :: e in elements && Encode(e, lib).value == j
    {
      assert j in (set j | j in js);
      assert j in Image(elements, lib);
    }
  }

  lemma {:induction false} EncodeSet(elements: set<Py>, lib: Library)
    ensures Encode(Set(elements), lib) ==
            if forall e :: e in elements ==> Encode(e, lib).Ok? then
              Ok(Tagged("set", "items", JArray(lib.sorted(Image(elements, lib)))))
            else Err(Failure)
  {
  }

  /** A set comes back only if each of its elements comes back, as something hashable. */
  lemma {:induction false} RoundSetOk(elements: set<Py>, lib: Library)
    requires lib.Valid() && Round(Set(elements), lib).Ok?
    ensures forall e :: e in elements ==> Round(e, lib).Ok? && Hashes(Round(e, lib).value)
  {
    EncodeSet(elements, lib);
    hide Encode, Decode, Hashes;
    var js := lib.sorted(Image(elements, lib));
    DecodeGathered("set", js, lib);
    SortedImage(elements, lib);
    forall e | e in elements
      ensures Round(e, lib).Ok? && Hashes(Round(e, lib).value)
    {
      var i :| 0 <= i < |js| && js[i] == Encode(e, lib).value;
      assert Decodes(js, lib)[i].Ok? && Hashes(Values(Decodes(js, lib))[i]);
    }
  }

  /** It comes back unchanged if each of its elements comes back unchanged and is hashable then. */
  lemma {:induction false} RoundSetBack(elements: set<Py>, lib: Library)
    requires lib.Valid() && forall e :: e in elements ==> Round(e, lib) == Ok(e) && Hashes(e)
    ensures Round(Set(elements), lib) == Ok(Set(elements))
  {
    EncodeSet(elements, lib);
    hide Encode, Decode, Hashes;
    var js := lib.sorted(Image(elements, lib));
    DecodeGathered("set", js, lib);
    SortedImage(elements, lib);
    forall i | 0 <= i < |js|
      ensures Decodes(js, lib)[i].Ok? && Decodes(js, lib)[i].value in elements
    {
      assert js[i] in js;
      var e :| e in elements && Encode(e, lib).value == js[i];
    }
    var values := Values(Decodes(js, lib));
    forall e | e in elements
      ensures e in values
    {
      var i :| 0 <= i < |js| && js[i] == Encode(e, lib).value;
      assert values[i] == e;
    }
    assert forall v :: v in values ==> v in elements;
    assert (set v | v in values) == elements;
  }

  // ----- dicts the decoder takes for something else ---------------------------------------------------------------

  lemma {:induction false} DecodeReserved(members: map<string, Json>, lib: Library)
    requires lib.Valid() && Reserved(KindOf(members)) && KindOf(members) != "path"
    ensures Decode(JObject(members), lib).Ok? ==> !Decode(JObject(members), lib).value.DictOf?
  {
  }

  lemma {:induction false} DecodePath(members: map<string, Json>, lib: Library)
    requires KindOf(members) == "path"
    ensures Decode(JObject(members), lib) == if "value" in members then Ok(Raw(members["value"])) else Err(Failure)
  {
    NotPrefixed("path");
  }

  predicate PathDict(v: Py) {
    v.DictOf? && TYPE in v.entries && v.entries[TYPE] == Str("path") && "value" in v.entries
  }

  /** The tags of encoded values that are no dicts. */
  lemma {:induction false} EncodedTag(v: Py, lib: Library)
    requires Proper(v, lib) && !v.DictOf? && Encode(v, lib).Ok? && Encode(v, lib).value.JObject?
    ensures KindOf(Encode(v, lib).value.members) != "path"
  {
    hide Proper;
    assert "value" != TYPE && "items" != TYPE && "fields" != TYPE;
    if v.Registered? {
      ProperTag(v, lib);
      NotPrefixed("path");
    }
  }

  lemma {:induction false} ProperTag(v: Py, lib: Library)
    requires Proper(v, lib) && v.Registered?
    ensures Prefixed(v.tag)
  {
    TagsPrefixed(v.tag);
  }

  /** Under a path tag the value is taken as it is written, and no dict is written as its own value. */
  lemma {:induction false} PathChanges(v: Py, lib: Library)
    requires PathDict(v) && Proper(v, lib) && Encode(v.entries["value"], lib).Ok?
    ensures Raw(Encode(v.entries["value"], lib).value) != v
    decreases v
  {
    hide Encode, Proper, Raw;
    var x := v.entries["value"];
    var j := Encode(x, lib).value;
    if Raw(j) == v {
      RawDict(j, v);
      ProperEntry(v, "value", lib);
      if !x.DictOf? {
        EncodedTag(x, lib);
      }
      EncodeDict(x.entries, lib);
      EncodedText(x.entries[TYPE], lib);
      PathChanges(x, lib);
    }
  }

  lemma {:induction false} ProperEntry(v: Py, k: string, lib: Library)
    requires v.DictOf? && Proper(v, lib) && k in v.entries
    ensures Proper(v.entries[k], lib)
  {
  }

  lemma {:induction false} RawDict(j: Json, v: Py)
    requires v.DictOf? && Raw(j) == v
    ensures j.JObject? && j.members.Keys == v.entries.Keys
    ensures forall k :: k in j.members ==> Raw(j.members[k]) == v.entries[k]
    ensures forall k :: k in j.members && v.entries[k].Str? ==> j.members[k] == JStr(v.entries[k].s)
  {
  }

  /** A dict with a reserved type tag does not come back as it was. */
  lemma {:induction false} ReservedChanges(entries: map<string, Py>, lib: Library)
    requires lib.Valid() && ReservedDict(entries) && Proper(DictOf(entries), lib)
    ensures Round(DictOf(entries), lib) != Ok(DictOf(entries))
  {
    hide Encode, Decode, Proper, Raw, Reserved;
    EncodeDict(entries, lib);
    EncodedText(entries[TYPE], lib);
    if AllOkMap(EncodesMap(entries, lib)) {
      var members := MapValues(EncodesMap(entries, lib));
      if KindOf(members) != "path" {
        DecodeReserved(members, lib);
      } else {
        DecodePath(members, lib);
        if "value" in members {
          PathChanges(DictOf(entries), lib);
        }
      }
    }
  }

  // ----- the law -----------------------------------------------------------------------------------------------------

  /** A hashable value either comes back unchanged or not at all. */
  lemma {:induction false} FrozenRound(v: Py, lib: Library)
    requires lib.Valid() && Proper(v, lib) && Frozen(v)
    ensures Round(v, lib).Ok? ==> Round(v, lib) == Ok(v)
    decreases v
  {
    match v
    case Tuple(items) =>
      forall i | 0 <= i < |items|
        ensures Round(items[i], lib).Ok? ==> Round(items[i], lib) == Ok(items[i])
      {
        FrozenRound(items[i], lib);
      }
      RoundTuple(items, lib);
      SameItems(items, lib);
    case Set(elements) =>
      if Round(v, lib).Ok? {
        RoundSetOk(elements, lib);
        forall e | e in elements
          ensures Round(e, lib) == Ok(e)
        {
          FrozenRound(e, lib);
        }
        RoundSetBack(elements, lib);
      }
    case Registered(tag, fields) =>
      forall k | k in fields
        ensures Round(fields[k], lib).Ok? ==> Round(fields[k], lib) == Ok(fields[k])
      {
        FrozenRound(fields[k], lib);
      }
      RoundRegistered(tag, fields, lib);
      SameEntries(fields, lib);
    case _ =>
      RoundLeaf(v, lib);
  }

  predicate Leaf(v: Py) {
    match v
    case Tuple(_) => false
    case ListOf(_) => false
    case Set(_) => false
    case DictOf(_) => false
    case Registered(_, _) => false
    case _ => true
  }

  lemma {:induction false} RoundStamp(kind: StampKind, text: string, lib: Library)
    requires lib.parse(kind, text) == Some(text)
    ensures Round(Stamp(kind, text), lib) == Ok(Stamp(kind, text))
  {
    NotPrefixed(StampTag(kind));
    assert "value" != TYPE;
    assert Encode(Stamp(kind, text), lib) == Ok(Tagged(StampTag(kind), "value", JStr(text)));
  }

  lemma {:induction false} RoundBytes(bytes: seq<bv8>, lib: Library)
    requires lib.Valid()
    ensures Round(Bytes(bytes), lib) == Ok(Bytes(bytes))
  {
    NotPrefixed("bytes");
    assert "value" != TYPE;
    assert Encode(Bytes(bytes), lib) == Ok(Tagged("bytes", "value", JStr(lib.base64(bytes))));
  }

  lemma {:induction false} RoundLeaf(v: Py, lib: Library)
    requires lib.Valid() && Proper(v, lib) && Leaf(v)
    ensures if v.Unsupported? then Round(v, lib).Err? else Round(v, lib) == Ok(v)
  {
    if v.Stamp? {
      RoundStamp(v.kind, v.text, lib);
    } else if v.Bytes? {
      RoundBytes(v.bytes, lib);
    }
  }

  /** No item comes back as another. */
  predicate OnlyUnchanged(items: seq<Py>, lib: Library) {
    forall i :: 0 <= i < |items| && Round(items[i], lib).Ok? ==> Round(items[i], lib) == Ok(items[i])
  }

  predicate OnlyUnchangedEntries(entries: map<string, Py>, lib: Library) {
    forall k :: k in entries && Round(entries[k], lib).Ok? ==> Round(entries[k], lib) == Ok(entries[k])
  }

  lemma {:induction false} SameItems(items: seq<Py>, lib: Library)
    ensures (AllOk(Rounds(items, lib)) && Values(Rounds(items, lib)) == items) <==>
            forall i :: 0 <= i < |items| ==> Round(items[i], lib) == Ok(items[i])
    ensures AllOk(Rounds(items, lib)) && OnlyUnchanged(items, lib) ==> Values(Rounds(items, lib)) == items
  {
    hide Round;
    if AllOk(Rounds(items, lib)) && Values(Rounds(items, lib)) == items {
      forall i | 0 <= i < |items|
        ensures Round(items[i], lib) == Ok(items[i])
      {
        assert Rounds(items, lib)[i].value == Values(Rounds(items, lib))[i];
      }
    }
    if forall i :: 0 <= i < |items| ==> Round(items[i], lib) == Ok(items[i]) {
      assert Values(Rounds(items, lib)) == items;
    }
  }

  lemma {:induction false} SameEntries(entries: map<string, Py>, lib: Library)
    ensures (AllOkMap(RoundsMap(entries, lib)) && MapValues(RoundsMap(entries, lib)) == entries) <==>
            forall k :: k in entries ==> Round(entries[k], lib) == Ok(entries[k])
    ensures AllOkMap(RoundsMap(entries, lib)) && OnlyUnchangedEntries(entries, lib) ==>
              MapValues(RoundsMap(entries, lib)) == entries
  {
    hide Round;
    if AllOkMap(RoundsMap(entries, lib)) && MapValues(RoundsMap(entries, lib)) == entries {
      forall k | k in entries
        ensures Round(entries[k], lib) == Ok(entries[k])
      {
        assert RoundsMap(entries, lib)[k].value == MapValues(RoundsMap(entries, lib))[k];
      }
    }
    if forall k :: k in entries ==> Round(entries[k], lib) == Ok(entries[k]) {
      assert MapValues(RoundsMap(entries, lib)) == entries;
    }
  }

  /** A value comes back from its JSON form unchanged if and only if nothing in it is unsupported, no dict carries a
      reserved type tag and no set holds a set. */
  lemma {:induction false} RoundTrip(v: Py, lib: Library)
    requires lib.Valid() && Proper(v, lib)
    ensures Round(v, lib) == Ok(v) <==> Faithful(v)
    decreases v
  {
    hide Round, Reserved, Library.Valid, Hashes, Frozen;
    match v
    case Tuple(items) =>
      forall i | 0 <= i < |items|
        ensures Round(items[i], lib) == Ok(items[i]) <==> Faithful(items[i])
      {
        RoundTrip(items[i], lib);
      }
      RoundTuple(items, lib);
      SameItems(items, lib);
    case ListOf(items) =>
      forall i | 0 <= i < |items|
        ensures Round(items[i], lib) == Ok(items[i]) <==> Faithful(items[i])
      {
        RoundTrip(items[i], lib);
      }
      RoundList(items, lib);
      SameItems(items, lib);
    case Set(elements) =>
      forall e | e in elements
        ensures (Round(e, lib) == Ok(e) <==> Faithful(e)) && (Round(e, lib).Ok? ==> Round(e, lib) == Ok(e))
      {
        RoundTrip(e, lib);
        FrozenRound(e, lib);
      }
      if Round(v, lib).Ok? {
        RoundSetOk(elements, lib);
      }
      if Faithful(v) {
        RoundSetBack(elements, lib);
      }
    case DictOf(entries) =>
      if ReservedDict(entries) {
        ReservedChanges(entries, lib);
      } else {
        forall k | k in entries
          ensures Round(entries[k], lib) == Ok(entries[k]) <==> Faithful(entries[k])
        {
          RoundTrip(entries[k], lib);
        }
        RoundDict(entries, lib);
        SameEntries(entries, lib);
      }
    case Registered(tag, fields) =>
      forall k | k in fields
        ensures Round(fields[k], lib) == Ok(fields[k]) <==> Faithful(fields[k])
      {
        RoundTrip(fields[k], lib);
      }
      RoundRegistered(tag, fields, lib);
      SameEntries(fields, lib);
    case _ =>
      RoundLeaf(v, lib);
  }

  /** The same of a whole document: with its version number, a value can be loaded exactly when it is faithful. */
  lemma {:induction false} LoadsDumps(v: Py, lib: Library)
    requires lib.Valid() && Proper(v, lib)
    ensures (Dumps(v, lib).Ok? && Loads(Dumps(v, lib).value, lib) == Ok(v)) <==> Faithful(v)
  {
    hide Encode, Decode, Faithful, Proper, Library.Valid;
    RoundTrip(v, lib);
    assert "version" != "value";
  }
}
