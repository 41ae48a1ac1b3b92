/** How a checkpoint is rebuilt from its stored document (checkpoint/sqlite.py, lines 27-84). */
module CheckpointRows {
  import opened Prelude
  import opened Serialization
  import opened RoundTrips

  /** `str(x)` and `int(x)` of a value that is no text, or no number. */
  datatype Conversions = Conversions(text: Py -> string, number: Py -> Option<int>)

  type Fields = map<string, Py>

  /** The fields of a checkpoint. */
  const CHECKPOINT: set<string> := {
    "id", "ts", "step", "channel_values", "next", "pending_sends", "pending_interrupts", "parent_id", "namespace",
    "run_id", "channel_versions", "tasks", "schema_version"}

  function Get(fields: Fields, key: string, otherwise: Py): Py { if key in fields then fields[key] else otherwise }

  /** `str(value[key])`. */
  function Text(fields: Fields, key: string, conv: Conversions): Result<Py, Failure> {
    if key !in fields then Err(Failure) else Ok(AsText(fields[key], conv))
  }

  function AsText(v: Py, conv: Conversions): Py { if v.Str? then v else Str(conv.text(v)) }

  /** `int(x)`. */
  function Number(v: Py, conv: Conversions): Result<int, Failure> {
    if v.Int? then Ok(v.n) else if conv.number(v).Some? then Ok(conv.number(v).value) else Err(Failure)
  }

  /** `tuple(x)` of a tuple or a list. */
  function Items(v: Py): Result<seq<Py>, Failure> {
    match v
    case Tuple(items) => Ok(items)
    case ListOf(items) => Ok(items)
    case _ => Err(Failure)
  }

  /** `dict(x)` of a dict. */
  function Mapping(v: Py): Result<Py, Failure> { if v.DictOf? then Ok(v) else Err(Failure) }

  function AllItems(v: Py, each: Py -> Result<Py, Failure>): Result<Py, Failure> {
    var items :- Items(v);
    var rebuilt := seq(|items|, i requires 0 <= i < |items| => each(items[i]));
    if AllOk(rebuilt) then Ok(Tuple(Values(rebuilt))) else Err(Failure)
  }

  predicate Is(v: Py, tag: string) { v.Registered? && v.tag == tag }

  function Truth(v: Py): bool {
    match v
    case Nil => false
    case Bool(b) => b
    case Int(n) => n != 0
    case Float(r) => r != 0.0
    case Str(s) => s != ""
    case Bytes(b) => b != []
    case Tuple(items) => items != []
    case ListOf(items) => items != []
    case Set(elements) => elements != {}
    case DictOf(entries) => entries != map[]
    case _ => true
  }

  /** `_interrupt`: an Interrupt as it is, or one built from a mapping. */
  function RebuildInterrupt(v: Py, conv: Conversions): Result<Py, Failure> {
    if Is(v, "lx:interrupt") then Ok(v)
    else if !v.DictOf? then Err(Failure)
    else
      var e := v.entries;
      var namespace :- Items(Get(e, "namespace", Tuple([])));
      var path :- Items(Get(e, "task_path", Tuple([])));
      Ok(Registered("lx:interrupt", map[
        "value" := Get(e, "value", Nil), "resumable" := Bool(Truth(Get(e, "resumable", Bool(true)))),
        "id" := Get(e, "id", Nil), "when" := AsText(Get(e, "when", Str("during")), conv),
        "task_id" := Get(e, "task_id", Nil), "namespace" := Tuple(namespace), "task_path" := Tuple(path)]))
  }

  function Interrupts(conv: Conversions): Py -> Result<Py, Failure> { x => RebuildInterrupt(x, conv) }

  /** `_task`. */
  function RebuildTask(v: Py, conv: Conversions): Result<Py, Failure> {
    if Is(v, "lx:task_snapshot") then Ok(v)
    else if !v.DictOf? then Err(Failure)
    else
      var e := v.entries;
      var id :- Text(e, "id", conv);
      var name :- Text(e, "name", conv);
      var path :- Items(Get(e, "path", Tuple([])));
      var interrupts :- AllItems(Get(e, "interrupts", Tuple([])), Interrupts(conv));
      Ok(Registered("lx:task_snapshot", map[
        "id" := id, "name" := name, "path" := Tuple(path), "error" := Get(e, "error", Nil),
        "interrupts" := interrupts, "result" := Get(e, "result", Nil)]))
  }

  function RebuildSend(v: Py, conv: Conversions): Result<Py, Failure> {
    if Is(v, "lx:send") then Ok(v)
    else if !v.DictOf? then Err(Failure)
    else
      var node :- Text(v.entries, "node", conv);
      Ok(Registered("lx:send", map["node" := node, "arg" := Get(v.entries, "arg", Nil)]))
  }

  function Tasks(conv: Conversions): Py -> Result<Py, Failure> { x => RebuildTask(x, conv) }

  function Sends(conv: Conversions): Py -> Result<Py, Failure> { x => RebuildSend(x, conv) }

  function Versions(v: Py, conv: Conversions): Result<Py, Failure> {
    if !v.DictOf? then Err(Failure)
    else
      var numbers := map k | k in v.entries :: Number(v.entries[k], conv);
      if AllOkMap(numbers) then Ok(DictOf(map k | k in numbers :: Int(numbers[k].value))) else Err(Failure)
  }

  /** `_checkpoint`: a document newer than version 2 is refused, an older one is brought to version 2. */
  function Rebuild(v: Py, conv: Conversions): Result<Fields, Failure> {
    if !v.DictOf? then Err(Failure)
    else
      var f := v.entries;
      var schema :- Number(Get(f, "schema_version", Int(1)), conv);
      if schema > 2 then Err(Failure)
      else
        var id :- Text(f, "id", conv);
        var ts :- Text(f, "ts", conv);
        var step :- if "step" in f then Number(f["step"], conv) else Err(Failure);
        var values :- Mapping(Get(f, "channel_values", DictOf(map[])));
        var next :- Items(Get(f, "next", Tuple([])));
        var sends :- AllItems(Get(f, "pending_sends", Tuple([])), Sends(conv));
        var interrupts :- AllItems(Get(f, "pending_interrupts", Tuple([])), Interrupts(conv));
        var namespace :- Items(Get(f, "namespace", Tuple([])));
        var versions :- Versions(Get(f, "channel_versions", DictOf(map[])), conv);
        var tasks :- AllItems(Get(f, "tasks", Tuple([])), Tasks(conv));
        Ok(map[
          "id" := id, "ts" := ts, "step" := Int(step), "channel_values" := values, "next" := Tuple(next),
          "pending_sends" := sends, "pending_interrupts" := interrupts, "parent_id" := Get(f, "parent_id", Nil),
          "namespace" := Tuple(namespace), "run_id" := Get(f, "run_id", Nil), "channel_versions" := versions,
          "tasks" := tasks, "schema_version" := Int(2)])
  }

  predicate TupleOf(v: Py, tag: string) {
    v.Tuple? && forall i :: 0 <= i < |v.items| ==> Is(v.items[i], tag)
  }

  /** The fields of a checkpoint object of version 2. */
  predicate IsCheckpoint(c: Fields) {
    && c.Keys == CHECKPOINT
    && c["id"].Str? && c["ts"].Str? && c["step"].Int? && c["channel_values"].DictOf? && c["next"].Tuple?
    && TupleOf(c["pending_sends"], "lx:send") && TupleOf(c["pending_interrupts"], "lx:interrupt")
    && c["namespace"].Tuple? && TupleOf(c["tasks"], "lx:task_snapshot")
    && c["channel_versions"].DictOf?
    && (forall k :: k in c["channel_versions"].entries ==> c["channel_versions"].entries[k].Int?)
    && c["schema_version"] == Int(2)
  }

  lemma {:induction false} ItemsStay(v: Py, tag: string, each: Py -> Result<Py, Failure>)
    requires TupleOf(v, tag) && forall x :: Is(x, tag) ==> each(x) == Ok(x)
    ensures AllItems(v, each) == Ok(v)
  {
    var rebuilt := seq(|v.items|, i requires 0 <= i < |v.items| => each(v.items[i]));
    assert AllOk(rebuilt) && Values(rebuilt) == v.items;
  }

  lemma {:induction false} VersionsStay(v: Py, conv: Conversions)
    requires v.DictOf? && forall k :: k in v.entries ==> v.entries[k].Int?
    ensures Versions(v, conv) == Ok(v)
  {
    var numbers := map k | k in v.entries :: Number(v.entries[k], conv);
    assert AllOkMap(numbers);
    assert (map k | k in numbers :: Int(numbers[k].value)) == v.entries;
  }

  lemma {:induction false} RegisteredStay(conv: Conversions)
    ensures forall x :: Is(x, "lx:send") ==> Sends(conv)(x) == Ok(x)
    ensures forall x :: Is(x, "lx:interrupt") ==> Interrupts(conv)(x) == Ok(x)
    ensures forall x :: Is(x, "lx:task_snapshot") ==> Tasks(conv)(x) == Ok(x)
  {
  }

  /** Rebuilding the fields of a checkpoint gives that checkpoint. */
  lemma {:induction false} RebuildRestores(c: Fields, conv: Conversions)
    requires IsCheckpoint(c)
    ensures Rebuild(DictOf(c), conv) == Ok(c)
  {
    hide AllItems, Versions, Sends, Interrupts, Tasks, Is;
    RegisteredStay(conv);
    ItemsStay(c["pending_sends"], "lx:send", Sends(conv));
    ItemsStay(c["pending_interrupts"], "lx:interrupt", Interrupts(conv));
    ItemsStay(c["tasks"], "lx:task_snapshot", Tasks(conv));
    VersionsStay(c["channel_versions"], conv);
    assert Rebuild(DictOf(c), conv).Ok?;
    assert Rebuild(DictOf(c), conv).value == c;
  }

  lemma {:induction false} RoundTupleOf(v: Py, tag: string, lib: Library)
    requires TupleOf(v, tag) && Proper(v, lib) && Round(v, lib).Ok?
    ensures TupleOf(Round(v, lib).value, tag)
  {
    hide Round;
    RoundTuple(v.items, lib);
    forall i | 0 <= i < |v.items|
      ensures Rounds(v.items, lib)[i].Ok? ==> Is(Rounds(v.items, lib)[i].value, tag)
    {
      RoundRegistered(v.items[i].tag, v.items[i].fields, lib);
    }
  }

  /** What comes back of a checkpoint is one again, unless its channel values were taken for something else. */
  lemma {:induction false} RoundedIsCheckpoint(c: Fields, d: Fields, lib: Library)
    requires lib.Valid() && IsCheckpoint(c) && Proper(DictOf(c), lib)
    requires d.Keys == c.Keys && forall k :: k in c ==> Round(c[k], lib) == Ok(d[k])
    requires d["channel_values"].DictOf?
    ensures IsCheckpoint(d)
  {
    hide Round, Is, Proper;
    ProperFields(c, lib);
    RoundTrip(c["id"], lib);
    RoundTrip(c["ts"], lib);
    RoundTrip(c["step"], lib);
    RoundTrip(c["schema_version"], lib);
    RoundTrip(c["channel_versions"], lib);
    RoundTuple(c["next"].items, lib);
    RoundTuple(c["namespace"].items, lib);
    RoundTupleOf(c["pending_sends"], "lx:send", lib);
    RoundTupleOf(c["pending_interrupts"], "lx:interrupt", lib);
    RoundTupleOf(c["tasks"], "lx:task_snapshot", lib);
  }

  lemma {:induction false} ProperFields(c: Fields, lib: Library)
    requires Proper(DictOf(c), lib)
    ensures forall k :: k in c ==> Proper(c[k], lib)
  {
  }

  lemma {:induction false} NotReserved(c: Fields)
    requires c.Keys == CHECKPOINT
    ensures !ReservedDict(c)
  {
    assert TYPE !in CHECKPOINT;
  }

  /** A stored checkpoint is loaded as it was saved if and only if all its fields are faithful. */
  lemma {:induction false} CheckpointRoundTrip(c: Fields, lib: Library, conv: Conversions)
    requires lib.Valid() && IsCheckpoint(c) && Proper(DictOf(c), lib)
    ensures (Round(DictOf(c), lib).Ok? && Rebuild(Round(DictOf(c), lib).value, conv) == Ok(c)) <==>
            forall k :: k in c ==> Faithful(c[k])
  {
    hide Round, Proper, Faithful, Rebuild, Library.Valid;
    ProperFields(c, lib);
    NotReserved(c);
    RoundDict(c, lib);
    SameEntries(c, lib);
    forall k | k in c
      ensures Round(c[k], lib) == Ok(c[k]) <==> Faithful(c[k])
    {
      RoundTrip(c[k], lib);
    }
    if AllOkMap(RoundsMap(c, lib)) {
      var d := MapValues(RoundsMap(c, lib));
      if d["channel_values"].DictOf? {
        RoundedIsCheckpoint(c, d, lib);
        RebuildRestores(d, conv);
      } else {
        RefusesValues(d, conv);
      }
    }
  }

  lemma {:induction false} RefusesValues(d: Fields, conv: Conversions)
    requires "channel_values" in d && !d["channel_values"].DictOf?
    ensures Rebuild(DictOf(d), conv).Err?
  {
  }
}
