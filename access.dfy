/** `AccessDB`: the access flags of a credential, one row per credential,
    kept in a single `data` column declared as a json blob. The code passes
    that column with the `dict` tag, which leaves it unencoded. */
module Access {
  import opened Values
  import opened Sql
  import opened Codec
  import opened Statements
  import opened Writer

  const DbName := "access_db"

  const Spec := TableSpec(
    "access_db",
    [ "cid INTEGER PRIMARY KEY",
      "data BLOB NOT NULL" ],
    [])

  /** A Python `dict[str, bool]`. */
  function DictOf(m: map<string, bool>): (v: Value)
    ensures v.VDict? && v.entries.Keys == m.Keys
    ensures forall k :: k in m ==> v.entries[k] == VBool(m[k])
  {
    VDict(map k | k in m :: VBool(m[k]))
  }

  /** `access or {}`: None and the (falsy) empty dict both give `{}`. */
  function CreateData(access: Option<map<string, bool>>): Value
  {
    if access.Some? && access.value != map[] then DictOf(access.value) else VDict(map[])
  }

  /** The `or` only replaces None: a given dict, empty or not, is stored as
      itself, and None is stored as the empty dict. */
  lemma CreateDataDefault(access: Option<map<string, bool>>)
    ensures CreateData(access) == DictOf(if access.Some? then access.value else map[])
  {
    if access.None? || access.value == map[] {
      assert DictOf(map[]).entries == map[];
    }
  }

  // ---------------------------------------------------------------------
  // Writes

  /** `set_up`. */
  method SetUp(w: TableWriter) returns (r: Completion)
    requires w.Valid()
    modifies w
    ensures w.Valid()
    ensures r.Returned? <==> old(w.startedAttr).Declared? && old(w.queueAttr).Declared?
    ensures old(w.startedAttr).Undeclared? ==> r == Raised(AttributeError("_worker_started"))
    ensures r.Returned? ==> w.workers == 1 && w.Queue() == old(w.Queue()) + Bootstrap(Spec)
    ensures r.Raised? ==> w.queueAttr == old(w.queueAttr) && w.workers == old(w.workers)
    ensures w.store == old(w.store) && w.failures == old(w.failures)
  {
    r := w.InitFromSpec(Spec);
  }

  /** The keyword arguments `create` passes to `_insert`; `dataTag` is the
      tag of the data column (`dict` as written). */
  function CreateColumns(cid: int, access: Option<map<string, bool>>, dataTag: Tag): seq<Column>
  {
    [Column("cid", VInt(cid), Int), Column("data", CreateData(access), dataTag)]
  }

  /** `create`: one INSERT of cid and the flags through `_insert`. */
  method Create(w: TableWriter, cid: int, access: Option<map<string, bool>> := None) returns (r: Completion)
    requires w.Valid() && w.dbName == DbName
    modifies w
    ensures w.Valid()
    ensures r == (if old(w.queueAttr).Undeclared? then Raised(AttributeError("_queue")) else Returned)
    ensures r.Returned? ==> w.Queue() == old(w.Queue()) + [InsertTask(DbName, CreateColumns(cid, access, Dict), w.json)]
    ensures r.Raised? ==> w.queueAttr == old(w.queueAttr)
    ensures w.startedAttr == old(w.startedAttr) && w.workers == old(w.workers)
    ensures w.store == old(w.store) && w.failures == old(w.failures)
  {
    r := w.Insert(CreateColumns(cid, access, Dict));
  }

  /** The INSERT of `create` carries the dict itself as its second
      parameter, which sqlite3 refuses to bind: the worker logs the task and
      commits nothing, whatever the engine and the state. */
  lemma CreateNeverCommits(store: Store, cid: int, access: Option<map<string, bool>>, json: JsonCodec, engine: Engine)
    ensures var t := InsertTask(DbName, CreateColumns(cid, access, Dict), json);
      && t.params == Some([VInt(cid), CreateData(access)])
      && !ParamsBindable(t)
      && !Succeeds(store, t, engine)
  {
    var t := InsertTask(DbName, CreateColumns(cid, access, Dict), json);
    assert Packed(CreateColumns(cid, access, Dict), json) == [VInt(cid), CreateData(access)];
    assert !Bindable(t.params.value[1]);
  }

  /** With the data column under the json tag the INSERT binds, and the
      stored text reads back as the dict under a lawful codec. */
  lemma EncodedCreateRoundTrip(cid: int, access: Option<map<string, bool>>, json: JsonCodec)
    requires Lawful(json)
    ensures var t := InsertTask(DbName, CreateColumns(cid, access, Json), json);
      && t.params == Some([VInt(cid), VStr(json.dumps(CreateData(access)))])
      && ParamsBindable(t)
      && Unpack(ToCell(t.params.value[1]).value, Json, json) == Ok(CreateData(access))
  {
    assert Packed(CreateColumns(cid, access, Json), json) == [VInt(cid), VStr(json.dumps(CreateData(access)))];
    JsonRoundTrip(CreateData(access), json);
  }

  /** The single column `update` writes when flags are given. */
  function UpdateColumns(access: map<string, bool>, dataTag: Tag): seq<Column>
  {
    [Column("data", DictOf(access), dataTag)]
  }

  /** `update`: nothing happens when `access` is None; any given dict, the
      empty one included (no `or` here), becomes one UPDATE keyed by cid
      through `_update`. */
  method Update(w: TableWriter, cid: int, access: Option<map<string, bool>>) returns (r: Completion)
    requires w.Valid() && w.dbName == DbName
    modifies w
    ensures w.Valid()
    ensures access.None? ==> r == Returned && w.queueAttr == old(w.queueAttr)
    ensures access.Some? ==> r == (if old(w.queueAttr).Undeclared? then Raised(AttributeError("_queue")) else Returned)
    ensures access.Some? && r.Returned? ==>
      w.Queue() == old(w.Queue()) + [UpdateTask(DbName, "cid", VInt(cid), UpdateColumns(access.value, Dict), w.json)]
    ensures r.Raised? ==> w.queueAttr == old(w.queueAttr)
    ensures w.startedAttr == old(w.startedAttr) && w.workers == old(w.workers)
    ensures w.store == old(w.store) && w.failures == old(w.failures)
  {
    var cols: seq<Column> := [];
    if access.Some? {
      cols := cols + [Column("data", DictOf(access.value), Dict)];
      assert cols == UpdateColumns(access.value, Dict);
    }
    if |cols| == 0 {
      return Returned;
    }
    r := w.Update("cid", VInt(cid), cols);
  }

  /** Like `create`, an update never commits: its first parameter is the
      dict itself. */
  lemma UpdateNeverCommits(store: Store, cid: int, access: map<string, bool>, json: JsonCodec, engine: Engine)
    ensures var t := UpdateTask(DbName, "cid", VInt(cid), UpdateColumns(access, Dict), json);
      && t.params == Some([DictOf(access), VInt(cid)])
      && !Succeeds(store, t, engine)
  {
    var t := UpdateTask(DbName, "cid", VInt(cid), UpdateColumns(access, Dict), json);
    assert Packed(UpdateColumns(access, Dict), json) == [DictOf(access)];
    assert [DictOf(access)] + [VInt(cid)] == [DictOf(access), VInt(cid)];
    assert !Bindable(t.params.value[0]);
  }

  /** With the json tag an update binds and its text reads back as the dict. */
  lemma EncodedUpdateRoundTrip(cid: int, access: map<string, bool>, json: JsonCodec)
    requires Lawful(json)
    ensures var t := UpdateTask(DbName, "cid", VInt(cid), UpdateColumns(access, Json), json);
      && t.params == Some([VStr(json.dumps(DictOf(access))), VInt(cid)])
      && ParamsBindable(t)
      && Unpack(ToCell(t.params.value[0]).value, Json, json) == Ok(DictOf(access))
  {
    var text := VStr(json.dumps(DictOf(access)));
    assert Packed(UpdateColumns(access, Json), json) == [text];
    assert [text] + [VInt(cid)] == [text, VInt(cid)];
    JsonRoundTrip(DictOf(access), json);
  }

  /** `delete`: one DELETE keyed by cid through `_delete`. */
  method Delete(w: TableWriter, cid: int) returns (r: Completion)
    requires w.Valid() && w.dbName == DbName
    modifies w
    ensures w.Valid()
    ensures r == (if old(w.queueAttr).Undeclared? then Raised(AttributeError("_queue")) else Returned)
    ensures r.Returned? ==> w.Queue() == old(w.Queue()) + [DeleteTask(DbName, "cid", VInt(cid))]
    ensures r.Raised? ==> w.queueAttr == old(w.queueAttr)
    ensures w.startedAttr == old(w.startedAttr) && w.workers == old(w.workers)
    ensures w.store == old(w.store) && w.failures == old(w.failures)
  {
    r := w.Delete("cid", VInt(cid));
  }

  // ---------------------------------------------------------------------
  // Reads

  /** The `fields` of `get`; `dataTag` is the tag of data (`dict` as written). */
  function Fields(dataTag: Tag): seq<Field>
  {
    [Field("cid", Int), Field("data", dataTag)]
  }

  /** `get`: `_get` keyed by cid; `fetch` is the engine's answer. */
  function Get(cid: int, fetch: SQLTask -> Option<seq<Cell>>, json: JsonCodec): (r: Result<Option<Record>>)
    ensures fetch(SelectTask(DbName, "cid", VInt(cid), Fields(Dict))).None? ==> r == Ok(None)
  {
    Statements.Get(DbName, "cid", VInt(cid), Fields(Dict), fetch, json)
  }

  /** Under the dict tag a stored text reads back only when it is empty
      (`dict("")` is `{}`); any other text, JSON included, raises
      ValueError. */
  lemma GetOfText(cid: int, c: int, s: string, fetch: SQLTask -> Option<seq<Cell>>, json: JsonCodec)
    requires fetch(SelectTask(DbName, "cid", VInt(cid), Fields(Dict))) == Some([Integer(c), Text(s)])
    ensures Get(cid, fetch, json).Ok? <==> s == ""
    ensures s == "" ==> Get(cid, fetch, json) == Ok(Some([("cid", VInt(c)), ("data", VDict(map[]))]))
    ensures s != "" ==> Get(cid, fetch, json) == Err(ValueError)
  {
    var row := [Integer(c), Text(s)];
    assert row[1..] == [Text(s)] && row[1..][1..] == [];
    assert Fields(Dict)[1..] == [Field("data", Dict)] && Fields(Dict)[1..][1..] == [];
    MapRowSpec(Fields(Dict), row, json);
    if s == "" {
      var d := MapRow(Fields(Dict), row, json).value;
      assert d == [d[0], d[1]];
    }
  }

  /** With the data column read under the json tag, what an encoded
      `create` stores reads back as the flags it was given. */
  lemma EncodedGetRoundTrip(cid: int, access: Option<map<string, bool>>, fetch: SQLTask -> Option<seq<Cell>>, json: JsonCodec)
    requires Lawful(json)
    requires fetch(SelectTask(DbName, "cid", VInt(cid), Fields(Json))) ==
      Some([Integer(cid), Text(json.dumps(CreateData(access)))])
    ensures Statements.Get(DbName, "cid", VInt(cid), Fields(Json), fetch, json) ==
      Ok(Some([("cid", VInt(cid)), ("data", CreateData(access))]))
  {
    var row := [Integer(cid), Text(json.dumps(CreateData(access)))];
    JsonRoundTrip(CreateData(access), json);
    assert row[1..] == [Text(json.dumps(CreateData(access)))] && row[1..][1..] == [];
    assert Fields(Json)[1..] == [Field("data", Json)] && Fields(Json)[1..][1..] == [];
    MapRowSpec(Fields(Json), row, json);
    var d := MapRow(Fields(Json), row, json).value;
    assert d == [d[0], d[1]];
  }
}
