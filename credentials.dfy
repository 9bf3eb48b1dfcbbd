/** `CredentialsDB`: one row per registered user, keyed by an autoincrement
    id, with the discord and steam identities and a `dirty` sync flag. */
module Credentials {
  import opened Values
  import opened Sql
  import opened Codec
  import opened Statements
  import opened Writer

  const DbName := "credentials_db"

  const Spec := TableSpec(
    "credentials_db",
    [ "id INTEGER PRIMARY KEY AUTOINCREMENT",
      "discord_id TEXT NOT NULL UNIQUE",
      "steam64_id TEXT",
      "dirty INTEGER NOT NULL DEFAULT 1" ],
    [])

  // ---------------------------------------------------------------------
  // Writes

  /** `set_up`. */
  method SetUp(w: TableWriter) returns (r: Completion)
    requires w.Valid()
    modifies w
    ensures w.Valid()
    ensures r.Returned? <==> old(w.startedAttr).Declared? && old(w.queueAttr).Declared?
    ensures old(w.startedAttr).Undeclared? ==> r == Raised(AttributeError("_worker_started"))
    ensures r.Returned? ==> w.workers == 1 && w.Queue() == old(w.Queue()) + Bootstrap(Spec)
    ensures r.Raised? ==> w.queueAttr == old(w.queueAttr) && w.workers == old(w.workers)
    ensures w.store == old(w.store) && w.failures == old(w.failures)
  {
    r := w.InitFromSpec(Spec);
  }

  /** The keyword arguments `create` passes to `_insert`: a missing steam id
      is passed as None. */
  function CreateColumns(discordId: string, steam64Id: Option<string>): seq<Column>
  {
    [ Column("discord_id", VStr(discordId), Str),
      Column("steam64_id", if steam64Id.Some? then VStr(steam64Id.value) else VNone, Str) ]
  }

  /** `create`: one INSERT of the two identities through `_insert`. */
  method Create(w: TableWriter, discordId: string, steam64Id: Option<string>) returns (r: Completion)
    requires w.Valid() && w.dbName == DbName
    modifies w
    ensures w.Valid()
    ensures r == (if old(w.queueAttr).Undeclared? then Raised(AttributeError("_queue")) else Returned)
    ensures r.Returned? ==> w.Queue() == old(w.Queue()) + [InsertTask(DbName, CreateColumns(discordId, steam64Id), w.json)]
    ensures r.Raised? ==> w.queueAttr == old(w.queueAttr)
    ensures w.startedAttr == old(w.startedAttr) && w.workers == old(w.workers)
    ensures w.store == old(w.store) && w.failures == old(w.failures)
  {
    r := w.Insert(CreateColumns(discordId, steam64Id));
  }

  /** The INSERT of `create` names discord_id then steam64_id with one
      placeholder each, and both parameters bind (a missing steam id as
      NULL), so only the engine can refuse it. */
  lemma CreateBinds(discordId: string, steam64Id: Option<string>, json: JsonCodec)
    ensures var t := InsertTask(DbName, CreateColumns(discordId, steam64Id), json);
      && Count('?', t.sql) == |t.params.value| == 2
      && t.params.value[0] == VStr(discordId)
      && (t.params.value[1] == VNone <==> steam64Id.None?)
      && ParamsBindable(t)
  {
    var cols := CreateColumns(discordId, steam64Id);
    forall i | 0 <= i < |cols| ensures NoMark(cols[i].name) {
    }
    PlainColumns(DbName, cols);
    InsertTaskShape(DbName, cols, json);
    var ps := InsertTask(DbName, cols, json).params.value;
    forall k | 0 <= k < |ps| ensures Bindable(ps[k]) {
    }
  }

  /** `delete`: one DELETE keyed by id through `_delete`. */
  method Delete(w: TableWriter, id: int) returns (r: Completion)
    requires w.Valid() && w.dbName == DbName
    modifies w
    ensures w.Valid()
    ensures r == (if old(w.queueAttr).Undeclared? then Raised(AttributeError("_queue")) else Returned)
    ensures r.Returned? ==> w.Queue() == old(w.Queue()) + [DeleteTask(DbName, "id", VInt(id))]
    ensures r.Raised? ==> w.queueAttr == old(w.queueAttr)
    ensures w.startedAttr == old(w.startedAttr) && w.workers == old(w.workers)
    ensures w.store == old(w.store) && w.failures == old(w.failures)
  {
    r := w.Delete("id", VInt(id));
  }

  /** The optional arguments of `update`, in the order its blocks test them. */
  function UpdateOptions(discordId: Option<string>, steam64Id: Option<string>): seq<OptColumn>
  {
    [ OptColumn("discord_id", if discordId.Some? then Some(VStr(discordId.value)) else None, Str),
      OptColumn("steam64_id", if steam64Id.Some? then Some(VStr(steam64Id.value)) else None, Str) ]
  }

  /** `update`: nothing happens when both arguments are None (a steam id
      cannot be cleared this way); otherwise one UPDATE of the given columns
      keyed by id goes through `_update`. */
  method Update(w: TableWriter, id: int, discordId: Option<string>, steam64Id: Option<string>) returns (r: Completion)
    requires w.Valid() && w.dbName == DbName
    modifies w
    ensures w.Valid()
    ensures discordId.None? && steam64Id.None? ==> r == Returned && w.queueAttr == old(w.queueAttr)
    ensures !(discordId.None? && steam64Id.None?) ==>
      r == (if old(w.queueAttr).Undeclared? then Raised(AttributeError("_queue")) else Returned)
    ensures !(discordId.None? && steam64Id.None?) && r.Returned? ==>
      w.Queue() == old(w.Queue()) + [UpdateTask(DbName, "id", VInt(id), Present(UpdateOptions(discordId, steam64Id)), w.json)]
    ensures r.Raised? ==> w.queueAttr == old(w.queueAttr)
    ensures w.startedAttr == old(w.startedAttr) && w.workers == old(w.workers)
    ensures w.store == old(w.store) && w.failures == old(w.failures)
  {
    var cols: seq<Column> := [];
    if discordId.Some? {
      cols := cols + [Column("discord_id", VStr(discordId.value), Str)];
    }
    if steam64Id.Some? {
      cols := cols + [Column("steam64_id", VStr(steam64Id.value), Str)];
    }
    ghost var opts := UpdateOptions(discordId, steam64Id);
    assert cols == Kept(opts[0]) + Kept(opts[1]);
    PresentOfTwo(opts);
    if |cols| == 0 {
      return Returned;
    }
    r := w.Update("id", VInt(id), cols);
  }

  /** Every parameter of an update binds, and the id comes last. */
  lemma UpdateBinds(id: int, discordId: Option<string>, steam64Id: Option<string>, json: JsonCodec)
    ensures var t := UpdateTask(DbName, "id", VInt(id), Present(UpdateOptions(discordId, steam64Id)), json);
      && ParamsBindable(t)
      && |t.params.value| == (if discordId.Some? then 1 else 0) + (if steam64Id.Some? then 1 else 0) + 1
      && t.params.value[|t.params.value| - 1] == VInt(id)
  {
    PresentOfTwo(UpdateOptions(discordId, steam64Id));
  }

  /** The single column `set_dirty` (true) and `clear_dirty` (false) write. */
  function DirtyColumn(dirty: bool): seq<Column>
  {
    [Column("dirty", VInt(if dirty then 1 else 0), Int)]
  }

  /** `set_dirty`: an UPDATE of the flag to 1, keyed by id. */
  method SetDirty(w: TableWriter, id: int) returns (r: Completion)
    requires w.Valid() && w.dbName == DbName
    modifies w
    ensures w.Valid()
    ensures r == (if old(w.queueAttr).Undeclared? then Raised(AttributeError("_queue")) else Returned)
    ensures r.Returned? ==> w.Queue() == old(w.Queue()) + [UpdateTask(DbName, "id", VInt(id), DirtyColumn(true), w.json)]
    ensures r.Raised? ==> w.queueAttr == old(w.queueAttr)
    ensures w.startedAttr == old(w.startedAttr) && w.workers == old(w.workers)
    ensures w.store == old(w.store) && w.failures == old(w.failures)
  {
    r := w.Update("id", VInt(id), [Column("dirty", VInt(1), Int)]);
  }

  /** `clear_dirty`: an UPDATE of the flag to 0, keyed by id. */
  method ClearDirty(w: TableWriter, id: int) returns (r: Completion)
    requires w.Valid() && w.dbName == DbName
    modifies w
    ensures w.Valid()
    ensures r == (if old(w.queueAttr).Undeclared? then Raised(AttributeError("_queue")) else Returned)
    ensures r.Returned? ==> w.Queue() == old(w.Queue()) + [UpdateTask(DbName, "id", VInt(id), DirtyColumn(false), w.json)]
    ensures r.Raised? ==> w.queueAttr == old(w.queueAttr)
    ensures w.startedAttr == old(w.startedAttr) && w.workers == old(w.workers)
    ensures w.store == old(w.store) && w.failures == old(w.failures)
  {
    r := w.Update("id", VInt(id), [Column("dirty", VInt(0), Int)]);
  }

  /** The flag written by set_dirty / clear_dirty is stored as 1 / 0 and read
      back under the bool tag of `_get_by` as the flag itself. */
  lemma DirtyRoundTrip(dirty: bool, id: int, json: JsonCodec)
    ensures var t := UpdateTask(DbName, "id", VInt(id), DirtyColumn(dirty), json);
      && t.params == Some([VInt(if dirty then 1 else 0), VInt(id)])
      && ToCell(t.params.value[0]) == Some(Integer(if dirty then 1 else 0))
      && Unpack(ToCell(t.params.value[0]).value, Fields[3].tag, json) == Ok(VBool(dirty))
  {
    var flag := VInt(if dirty then 1 else 0);
    assert Packed(DirtyColumn(dirty), json) == [flag];
    assert [flag] + [VInt(id)] == [flag, VInt(id)];
    assert Fields[3].tag == Bool;
  }

  // ---------------------------------------------------------------------
  // Reads

  /** The `fields` of `_get_by`, in order. */
  const Fields := [ Field("id", Int), Field("discord_id", Str), Field("steam64_id", Str), Field("dirty", Bool) ]

  /** `_get_by`: `_get` keyed by any column; `fetch` is the engine's answer. */
  function GetBy(field: string, value: Value, fetch: SQLTask -> Option<seq<Cell>>, json: JsonCodec): (r: Result<Option<Record>>)
    ensures fetch(SelectTask(DbName, field, value, Fields)).None? ==> r == Ok(None)
  {
    Statements.Get(DbName, field, value, Fields, fetch, json)
  }

  /** What a lookup keyed by any column returns: None when the engine finds
      no row; for a full row, the dict keyed by the four fields, each cell
      unpacked with its tag, failing exactly when some cell does not unpack. */
  predicate LookupMeans(field: string, value: Value, fetch: SQLTask -> Option<seq<Cell>>, json: JsonCodec,
                        r: Result<Option<Record>>)
  {
    var f := fetch(SelectTask(DbName, field, value, Fields));
    && (f.None? ==> r == Ok(None))
    && (r.Ok? && r.value.Some? ==> f.Some?)
    && (f.Some? && |f.value| == |Fields| ==>
          && (r.Ok? <==> forall i :: 0 <= i < |Fields| ==> Unpack(f.value[i], Fields[i].tag, json).Ok?)
          && (r.Ok? ==> r.value.Some? && Keys(r.value.value) == FieldNames(Fields))
          && (r.Ok? ==> forall i :: 0 <= i < |Fields| ==> r.value.value[i].1 == Unpack(f.value[i], Fields[i].tag, json).value))
  }

  lemma LookupSpec(field: string, value: Value, fetch: SQLTask -> Option<seq<Cell>>, json: JsonCodec)
    ensures LookupMeans(field, value, fetch, json, GetBy(field, value, fetch, json))
  {
    var f := fetch(SelectTask(DbName, field, value, Fields));
    if f.Some? && |f.value| == |Fields| {
      GetSpec(DbName, field, value, Fields, fetch, json);
    }
  }

  /** `get_by_id`: the lookup keyed by id. */
  function GetById(id: int, fetch: SQLTask -> Option<seq<Cell>>, json: JsonCodec): (r: Result<Option<Record>>)
    ensures LookupMeans("id", VInt(id), fetch, json, r)
  {
    LookupSpec("id", VInt(id), fetch, json);
    GetBy("id", VInt(id), fetch, json)
  }

  /** `get_by_discord`: the lookup keyed by discord_id. */
  function GetByDiscord(discordId: string, fetch: SQLTask -> Option<seq<Cell>>, json: JsonCodec): (r: Result<Option<Record>>)
    ensures LookupMeans("discord_id", VStr(discordId), fetch, json, r)
  {
    LookupSpec("discord_id", VStr(discordId), fetch, json);
    GetBy("discord_id", VStr(discordId), fetch, json)
  }

  /** `get_by_steam`: the lookup keyed by steam64_id. */
  function GetBySteam(steam64Id: string, fetch: SQLTask -> Option<seq<Cell>>, json: JsonCodec): (r: Result<Option<Record>>)
    ensures LookupMeans("steam64_id", VStr(steam64Id), fetch, json, r)
  {
    LookupSpec("steam64_id", VStr(steam64Id), fetch, json);
    GetBy("steam64_id", VStr(steam64Id), fetch, json)
  }

  /** The three lookups ask the engine the same SELECT of the same four
      fields, differing only in the key column and its value. */
  lemma LookupsShareSelect(id: int, discordId: string, steam64Id: string)
    ensures SelectTask(DbName, "id", VInt(id), Fields).params == Some([VInt(id)])
    ensures SelectTask(DbName, "discord_id", VStr(discordId), Fields).params == Some([VStr(discordId)])
    ensures SelectTask(DbName, "steam64_id", VStr(steam64Id), Fields).params == Some([VStr(steam64Id)])
    ensures forall k :: k in ["id", "discord_id", "steam64_id"] ==>
      Count('?', SelectTask(DbName, k, VNone, Fields).sql) == 1
  {
    forall i | 0 <= i < |Fields| ensures NoMark(Fields[i].name) {
    }
    PlainFields(Fields);
    forall k | k in ["id", "discord_id", "steam64_id"]
      ensures Count('?', SelectTask(DbName, k, VNone, Fields).sql) == 1
    {
      SelectPlaceholders(DbName, FieldNames(Fields), k);
    }
  }

  /** A stored credential as the engine hands it back. */
  function StoredRow(id: int, discordId: string, steam64Id: Option<string>, dirty: int): seq<Cell>
  {
    [Integer(id), Text(discordId), if steam64Id.Some? then Text(steam64Id.value) else Null, Integer(dirty)]
  }

  /** A stored credential reads back field by field: a missing steam id as
      the string "None" (not None), and the flag as a bool. */
  lemma GetByReadsRow(field: string, value: Value, id: int, discordId: string, steam64Id: Option<string>, dirty: int,
                      fetch: SQLTask -> Option<seq<Cell>>, json: JsonCodec)
    requires fetch(SelectTask(DbName, field, value, Fields)) == Some(StoredRow(id, discordId, steam64Id, dirty))
    ensures GetBy(field, value, fetch, json).Ok? && GetBy(field, value, fetch, json).value.Some?
    ensures var d := GetBy(field, value, fetch, json).value.value;
      && Keys(d) == FieldNames(Fields)
      && d[0].1 == VInt(id) && d[1].1 == VStr(discordId)
      && d[2].1 == VStr(if steam64Id.Some? then steam64Id.value else "None")
      && d[3].1 == VBool(dirty != 0)
  {
    var row := StoredRow(id, discordId, steam64Id, dirty);
    assert forall i :: 0 <= i < 4 ==> Unpack(row[i], Fields[i].tag, json).Ok?;
    GetSpec(DbName, field, value, Fields, fetch, json);
  }

  /** Reading cannot tell a missing steam id from the literal steam id
      "None". */
  lemma MissingSteamIsAmbiguous(field: string, value: Value, id: int, discordId: string, dirty: int,
                                fetch1: SQLTask -> Option<seq<Cell>>, fetch2: SQLTask -> Option<seq<Cell>>, json: JsonCodec)
    requires fetch1(SelectTask(DbName, field, value, Fields)) == Some(StoredRow(id, discordId, None, dirty))
    requires fetch2(SelectTask(DbName, field, value, Fields)) == Some(StoredRow(id, discordId, Some("None"), dirty))
    ensures GetBy(field, value, fetch1, json) == GetBy(field, value, fetch2, json)
  {
    var r1 := StoredRow(id, discordId, None, dirty);
    var r2 := StoredRow(id, discordId, Some("None"), dirty);
    assert forall i :: 0 <= i < 4 ==> Unpack(r1[i], Fields[i].tag, json) == Unpack(r2[i], Fields[i].tag, json);
    MapRowSame(Fields, r1, r2, json);
  }

  /** Rows that unpack alike map alike. */
  lemma {:induction false} MapRowSame(fields: seq<Field>, r1: seq<Cell>, r2: seq<Cell>, json: JsonCodec)
    requires |r1| == |r2|
    requires forall i :: 0 <= i < |r1| && i < |fields| ==> Unpack(r1[i], fields[i].tag, json) == Unpack(r2[i], fields[i].tag, json)
    ensures MapRow(fields, r1, json) == MapRow(fields, r2, json)
    decreases |fields|
  {
    if |fields| > 0 && |r1| > 0 {
      assert forall i :: 0 <= i < |r1| - 1 && i < |fields| - 1 ==>
        r1[1..][i] == r1[i + 1] && r2[1..][i] == r2[i + 1] && fields[1..][i] == fields[i + 1];
      MapRowSame(fields[1..], r1[1..], r2[1..], json);
    }
  }
}
