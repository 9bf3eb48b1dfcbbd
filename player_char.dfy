/** `PlayerCharDB`: the characters a credential owns. All its writes go
    through the generic builders of BaseDB. The list of content ids is
    written with the `list` tag, which leaves it unencoded. */
module PlayerChar {
  import opened Values
  import opened Sql
  import opened Codec
  import opened Statements
  import opened Writer

  const DbName := "player_char_db"

  const Spec := TableSpec(
    "player_char_db",
    [ "uid INTEGER PRIMARY KEY AUTOINCREMENT",
      "cid INTEGER NOT NULL",
      "name TEXT NOT NULL",
      "discord_url TEXT",
      "char_type TEXT NOT NULL",
      "content_ids BLOB NOT NULL",
      "game_db_id INTEGER" ],
    [ "CREATE INDEX IF NOT EXISTS idx_player_char_db_id ON player_char_db (cid);" ])

  /** `PlayerCharType`. */
  datatype CharType = Lore | Norm

  function CharTypeText(t: CharType): string
  {
    match t
    case Lore => "lore"
    case Norm => "norm"
  }

  /** A Python list of str. */
  function StrList(ids: seq<string>): (v: Value)
    ensures v.VList? && |v.items| == |ids|
  {
    VList(seq(|ids|, i requires 0 <= i < |ids| => VStr(ids[i])))
  }

  function OptStr(x: Option<string>): Value
  {
    if x.Some? then VStr(x.value) else VNone
  }

  function OptInt(x: Option<int>): Value
  {
    if x.Some? then VInt(x.value) else VNone
  }

  // ---------------------------------------------------------------------
  // Writes

  /** `set_up`. */
  method SetUp(w: TableWriter) returns (r: Completion)
    requires w.Valid()
    modifies w
    ensures w.Valid()
    ensures r.Returned? <==> old(w.startedAttr).Declared? && old(w.queueAttr).Declared?
    ensures old(w.startedAttr).Undeclared? ==> r == Raised(AttributeError("_worker_started"))
    ensures r.Returned? ==> w.workers == 1 && w.Queue() == old(w.Queue()) + Bootstrap(Spec)
    ensures r.Raised? ==> w.queueAttr == old(w.queueAttr) && w.workers == old(w.workers)
    ensures w.store == old(w.store) && w.failures == old(w.failures)
  {
    r := w.InitFromSpec(Spec);
  }

  /** The keyword arguments `create` passes to `_insert`, in call order;
      `contentTag` is the tag of content_ids (`list` as written). */
  function CreateColumns(cid: int, name: string, charType: CharType, contentIds: seq<string>,
                         discordUrl: Option<string>, gameDbId: Option<int>, contentTag: Tag): seq<Column>
  {
    [ Column("cid", VInt(cid), Int),
      Column("name", VStr(name), Str),
      Column("discord_url", OptStr(discordUrl), Str),
      Column("char_type", VStr(CharTypeText(charType)), Str),
      Column("content_ids", StrList(contentIds), contentTag),
      Column("game_db_id", OptInt(gameDbId), Int) ]
  }

  /** `create`: one INSERT of the six columns through `_insert`. */
  method Create(w: TableWriter, cid: int, name: string, charType: CharType, contentIds: seq<string>,
                discordUrl: Option<string> := None, gameDbId: Option<int> := None)
    returns (r: Completion)
    requires w.Valid() && w.dbName == DbName
    modifies w
    ensures w.Valid()
    ensures r == (if old(w.queueAttr).Undeclared? then Raised(AttributeError("_queue")) else Returned)
    ensures r.Returned? ==>
      w.Queue() == old(w.Queue()) + [InsertTask(DbName, CreateColumns(cid, name, charType, contentIds, discordUrl, gameDbId, List), w.json)]
    ensures r.Raised? ==> w.queueAttr == old(w.queueAttr)
    ensures w.startedAttr == old(w.startedAttr) && w.workers == old(w.workers)
    ensures w.store == old(w.store) && w.failures == old(w.failures)
  {
    r := w.Insert(CreateColumns(cid, name, charType, contentIds, discordUrl, gameDbId, List));
  }

  /** The INSERT of `create` names the six columns in call order with one
      placeholder each, but its fifth parameter is the list itself, which
      sqlite3 refuses to bind: the worker logs the task and commits nothing,
      whatever the engine and the state. */
  lemma CreateNeverCommits(store: Store, cid: int, name: string, charType: CharType, contentIds: seq<string>,
                           discordUrl: Option<string>, gameDbId: Option<int>, json: JsonCodec, engine: Engine)
    ensures var t := InsertTask(DbName, CreateColumns(cid, name, charType, contentIds, discordUrl, gameDbId, List), json);
      && Count('?', t.sql) == |t.params.value| == 6
      && t.params.value[4] == StrList(contentIds)
      && !Succeeds(store, t, engine)
  {
    var cols := CreateColumns(cid, name, charType, contentIds, discordUrl, gameDbId, List);
    CreateShape(cols, json);
    assert cols[4].value == StrList(contentIds) && cols[4].tag == List;
  }

  /** The six column names hold no `?`, so the INSERT has one placeholder
      per column, each bound to that column's packed value. */
  lemma CreateShape(cols: seq<Column>, json: JsonCodec)
    requires |cols| == 6
    requires Names(cols) == ["cid", "name", "discord_url", "char_type", "content_ids", "game_db_id"]
    ensures var t := InsertTask(DbName, cols, json);
      && Count('?', t.sql) == |t.params.value| == 6
      && forall i :: 0 <= i < 6 ==> t.params.value[i] == Pack(cols[i].value, cols[i].tag, json)
  {
    forall i | 0 <= i < |cols| ensures NoMark(cols[i].name) {
      assert cols[i].name == Names(cols)[i];
    }
    PlainColumns(DbName, cols);
    InsertTaskShape(DbName, cols, json);
  }

  /** With content_ids under the json tag every parameter binds, and the
      stored text reads back as the list under a lawful codec. */
  lemma EncodedCreateBinds(cid: int, name: string, charType: CharType, contentIds: seq<string>,
                           discordUrl: Option<string>, gameDbId: Option<int>, json: JsonCodec)
    requires Lawful(json)
    ensures var t := InsertTask(DbName, CreateColumns(cid, name, charType, contentIds, discordUrl, gameDbId, Json), json);
      && ParamsBindable(t)
      && t.params.value[4] == VStr(json.dumps(StrList(contentIds)))
      && Unpack(ToCell(t.params.value[4]).value, Json, json) == Ok(StrList(contentIds))
  {
    JsonRoundTrip(StrList(contentIds), json);
  }

  /** The optional arguments of `update`, in the order its blocks test them. */
  function UpdateOptions(name: Option<string>, discordUrl: Option<string>, charType: Option<CharType>,
                         contentIds: Option<seq<string>>, gameDbId: Option<int>): seq<OptColumn>
  {
    [ OptColumn("name", if name.Some? then Some(VStr(name.value)) else None, Str),
      OptColumn("discord_url", if discordUrl.Some? then Some(VStr(discordUrl.value)) else None, Str),
      OptColumn("char_type", if charType.Some? then Some(VStr(CharTypeText(charType.value))) else None, Str),
      OptColumn("content_ids", if contentIds.Some? then Some(StrList(contentIds.value)) else None, List),
      OptColumn("game_db_id", if gameDbId.Some? then Some(VInt(gameDbId.value)) else None, Int) ]
  }

  /** The five `if x is not None` blocks: the dict `cols` holds exactly the
      given arguments, in argument order. */
  method CollectColumns(opts: seq<OptColumn>) returns (cols: seq<Column>)
    requires |opts| == 5
    ensures cols == Present(opts)
  {
    cols := [];
    for i := 0 to 5
      invariant cols == Present(opts[..i])
    {
      if opts[i].value.Some? {
        cols := cols + [Column(opts[i].name, opts[i].value.value, opts[i].tag)];
      }
      assert opts[..i + 1] == opts[..i] + [opts[i]];
      PresentAppend(opts[..i], [opts[i]]);
      PresentOfOne(opts[i]);
    }
    assert opts[..5] == opts;
  }

  predicate NothingGiven(name: Option<string>, discordUrl: Option<string>, charType: Option<CharType>,
                         contentIds: Option<seq<string>>, gameDbId: Option<int>)
  {
    name.None? && discordUrl.None? && charType.None? && contentIds.None? && gameDbId.None?
  }

  /** No column is kept exactly when no argument is given. */
  lemma UpdateOptionsEmpty(name: Option<string>, discordUrl: Option<string>, charType: Option<CharType>,
                           contentIds: Option<seq<string>>, gameDbId: Option<int>)
    ensures Present(UpdateOptions(name, discordUrl, charType, contentIds, gameDbId)) == [] <==>
      NothingGiven(name, discordUrl, charType, contentIds, gameDbId)
  {
    PresentOfFive(UpdateOptions(name, discordUrl, charType, contentIds, gameDbId));
  }

  /** `update`: nothing happens when no argument is given; otherwise one
      UPDATE of the given columns keyed by uid goes through `_update`. */
  method Update(w: TableWriter, uid: int, name: Option<string>, discordUrl: Option<string>,
                charType: Option<CharType>, contentIds: Option<seq<string>>, gameDbId: Option<int>)
    returns (r: Completion)
    requires w.Valid() && w.dbName == DbName
    modifies w
    ensures w.Valid()
    ensures NothingGiven(name, discordUrl, charType, contentIds, gameDbId) ==>
      r == Returned && w.queueAttr == old(w.queueAttr)
    ensures !NothingGiven(name, discordUrl, charType, contentIds, gameDbId) ==>
      r == (if old(w.queueAttr).Undeclared? then Raised(AttributeError("_queue")) else Returned)
    ensures !NothingGiven(name, discordUrl, charType, contentIds, gameDbId) && r.Returned? ==>
      var t := UpdateTask(DbName, "uid", VInt(uid), Present(UpdateOptions(name, discordUrl, charType, contentIds, gameDbId)), w.json);
      w.Queue() == old(w.Queue()) + [t]
    ensures r.Raised? ==> w.queueAttr == old(w.queueAttr)
    ensures w.startedAttr == old(w.startedAttr) && w.workers == old(w.workers)
    ensures w.store == old(w.store) && w.failures == old(w.failures)
  {
    var cols := CollectColumns(UpdateOptions(name, discordUrl, charType, contentIds, gameDbId));
    UpdateOptionsEmpty(name, discordUrl, charType, contentIds, gameDbId);
    if |cols| == 0 {
      return Returned;
    }
    r := w.Update("uid", VInt(uid), cols);
  }

  /** An update that touches content_ids never commits, for the same reason
      as `create`; one that leaves it out binds every parameter. */
  lemma UpdateContentNeverCommits(store: Store, uid: int, name: Option<string>, discordUrl: Option<string>,
                                  charType: Option<CharType>, contentIds: Option<seq<string>>, gameDbId: Option<int>,
                                  json: JsonCodec, engine: Engine)
    ensures var t := UpdateTask(DbName, "uid", VInt(uid), Present(UpdateOptions(name, discordUrl, charType, contentIds, gameDbId)), json);
      && (contentIds.Some? <==> !ParamsBindable(t))
      && (contentIds.Some? ==> !Succeeds(store, t, engine))
  {
    var opts := UpdateOptions(name, discordUrl, charType, contentIds, gameDbId);
    UpdateParamsBindable(DbName, "uid", VInt(uid), opts, json);
    if contentIds.Some? {
      assert opts[3].value == Some(StrList(contentIds.value));
    } else {
      assert GivenBindable(opts);
    }
  }

  /** `delete`: one DELETE keyed by uid through `_delete`. */
  method Delete(w: TableWriter, uid: int) returns (r: Completion)
    requires w.Valid() && w.dbName == DbName
    modifies w
    ensures w.Valid()
    ensures r == (if old(w.queueAttr).Undeclared? then Raised(AttributeError("_queue")) else Returned)
    ensures r.Returned? ==> w.Queue() == old(w.Queue()) + [DeleteTask(DbName, "uid", VInt(uid))]
    ensures r.Raised? ==> w.queueAttr == old(w.queueAttr)
    ensures w.startedAttr == old(w.startedAttr) && w.workers == old(w.workers)
    ensures w.store == old(w.store) && w.failures == old(w.failures)
  {
    r := w.Delete("uid", VInt(uid));
  }

  // ---------------------------------------------------------------------
  // Reads

  /** The `fields` of `get` and `list_by_owner`, in order. */
  const Fields := [ Field("uid", Int), Field("cid", Int), Field("name", Str), Field("discord_url", Str),
                    Field("char_type", Str), Field("content_ids", List), Field("game_db_id", Int) ]

  /** `get`: `_get` keyed by uid; `fetch` is the engine's answer. */
  function Get(uid: int, fetch: SQLTask -> Option<seq<Cell>>, json: JsonCodec): (r: Result<Option<Record>>)
    ensures fetch(SelectTask(DbName, "uid", VInt(uid), Fields)).None? ==> r == Ok(None)
  {
    Statements.Get(DbName, "uid", VInt(uid), Fields, fetch, json)
  }

  /** A character without a game id (the column may be NULL, and is until
      the game side exists) cannot be read: `int(None)` raises. */
  lemma GetWithoutGameId(uid: int, fetch: SQLTask -> Option<seq<Cell>>, json: JsonCodec)
    requires fetch(SelectTask(DbName, "uid", VInt(uid), Fields)).Some?
    requires |fetch(SelectTask(DbName, "uid", VInt(uid), Fields)).value| == 7
    requires fetch(SelectTask(DbName, "uid", VInt(uid), Fields)).value[6] == Null
    ensures Get(uid, fetch, json).Err?
  {
    GetSpec(DbName, "uid", VInt(uid), Fields, fetch, json);
    assert Unpack(Null, Fields[6].tag, json).Err?;
  }

  /** A stored row with a game id, as the engine hands it back. */
  function StoredRow(uid: int, cid: int, name: string, charType: string, content: string, gameDbId: int): seq<Cell>
  {
    [Integer(uid), Integer(cid), Text(name), Null, Text(charType), Text(content), Integer(gameDbId)]
  }

  /** A row with a game id reads back field by field: a NULL discord_url as
      the string "None", and the stored content_ids text as the list of its
      characters. */
  lemma GetReadsRow(uid: int, cid: int, name: string, charType: string, content: string, gameDbId: int,
                    fetch: SQLTask -> Option<seq<Cell>>, json: JsonCodec)
    requires fetch(SelectTask(DbName, "uid", VInt(uid), Fields)) == Some(StoredRow(uid, cid, name, charType, content, gameDbId))
    ensures Get(uid, fetch, json).Ok? && Get(uid, fetch, json).value.Some?
    ensures var d := Get(uid, fetch, json).value.value;
      && Keys(d) == FieldNames(Fields)
      && d[0].1 == VInt(uid) && d[1].1 == VInt(cid) && d[2].1 == VStr(name)
      && d[3].1 == VStr("None") && d[4].1 == VStr(charType)
      && d[5].1 == VList(seq(|content|, k requires 0 <= k < |content| => VStr([content[k]])))
      && d[6].1 == VInt(gameDbId)
  {
    var row := StoredRow(uid, cid, name, charType, content, gameDbId);
    StoredRowUnpacks(uid, cid, name, charType, content, gameDbId, json);
    GetSpec(DbName, "uid", VInt(uid), Fields, fetch, json);
  }

  lemma StoredRowUnpacks(uid: int, cid: int, name: string, charType: string, content: string, gameDbId: int, json: JsonCodec)
    ensures var row := StoredRow(uid, cid, name, charType, content, gameDbId);
      && |row| == |Fields|
      && (forall i :: 0 <= i < 7 ==> Unpack(row[i], Fields[i].tag, json).Ok?)
      && Unpack(row[0], Fields[0].tag, json) == Ok(VInt(uid))
      && Unpack(row[1], Fields[1].tag, json) == Ok(VInt(cid))
      && Unpack(row[2], Fields[2].tag, json) == Ok(VStr(name))
      && Unpack(row[3], Fields[3].tag, json) == Ok(VStr("None"))
      && Unpack(row[4], Fields[4].tag, json) == Ok(VStr(charType))
      && Unpack(row[5], Fields[5].tag, json) == Ok(VList(seq(|content|, k requires 0 <= k < |content| => VStr([content[k]]))))
      && Unpack(row[6], Fields[6].tag, json) == Ok(VInt(gameDbId))
  {
  }

  /** `list_by_owner` as written: it calls `cls._list`, which neither this
      class nor BaseDB defines, so the lookup raises before any query. */
  function ListByOwnerAsWritten(cid: int, fetchAll: SQLTask -> seq<seq<Cell>>, json: JsonCodec): (r: Result<seq<Record>>)
    ensures r.Err? && r.error == AttributeError("_list")
  {
    Err(AttributeError("_list"))
  }

  /** The query `_list` is evidently meant to run: the `_get` SELECT of the
      same fields for the owner, ordered by uid. */
  function ListTask(cid: int): SQLTask
  {
    SQLTask(SelectSql(DbName, FieldNames(Fields), "cid") + " ORDER BY uid", Some([VInt(cid)]))
  }

  /** Each fetched row mapped as `_get` maps one; the first row that fails
      to unpack aborts the whole list. */
  function MapRows(fields: seq<Field>, rows: seq<seq<Cell>>, json: JsonCodec): Result<seq<Record>>
    decreases |rows|
  {
    if |rows| == 0 then Ok([])
    else
      match MapRow(fields, rows[0], json)
      case Err(e) => Err(e)
      case Ok(d) =>
        match MapRows(fields, rows[1..], json)
        case Err(e) => Err(e)
        case Ok(rest) => Ok([d] + rest)
  }

  /** The list succeeds exactly when every row maps, and then holds one
      dict per fetched row, in the engine's (uid) order. */
  lemma {:induction false} MapRowsSpec(fields: seq<Field>, rows: seq<seq<Cell>>, json: JsonCodec)
    ensures MapRows(fields, rows, json).Ok? <==> forall i :: 0 <= i < |rows| ==> MapRow(fields, rows[i], json).Ok?
    ensures MapRows(fields, rows, json).Ok? ==>
      |MapRows(fields, rows, json).value| == |rows| &&
      forall i :: 0 <= i < |rows| ==> MapRows(fields, rows, json).value[i] == MapRow(fields, rows[i], json).value
    decreases |rows|
  {
    if |rows| > 0 {
      MapRowsSpec(fields, rows[1..], json);
      assert forall i :: 1 <= i < |rows| ==> rows[1..][i - 1] == rows[i];
      if MapRow(fields, rows[0], json).Ok? && !MapRows(fields, rows[1..], json).Ok? {
        var j :| 0 <= j < |rows[1..]| && !MapRow(fields, rows[1..][j], json).Ok?;
        assert !MapRow(fields, rows[j + 1], json).Ok?;
      }
    }
  }

  /** `list_by_owner` with `_list` provided: the owner's rows as `_get`
      would read each of them. */
  function ListByOwner(cid: int, fetchAll: SQLTask -> seq<seq<Cell>>, json: JsonCodec): (r: Result<seq<Record>>)
    ensures r.Ok? ==> |r.value| == |fetchAll(ListTask(cid))|
    ensures r.Ok? <==> forall i :: 0 <= i < |fetchAll(ListTask(cid))| ==> MapRow(Fields, fetchAll(ListTask(cid))[i], json).Ok?
  {
    MapRowsSpec(Fields, fetchAll(ListTask(cid)), json);
    MapRows(Fields, fetchAll(ListTask(cid)), json)
  }

  /** One owned character without a game id makes the whole list fail. */
  lemma ListWithoutGameId(cid: int, fetchAll: SQLTask -> seq<seq<Cell>>, json: JsonCodec, i: nat)
    requires i < |fetchAll(ListTask(cid))|
    requires |fetchAll(ListTask(cid))[i]| == 7 && fetchAll(ListTask(cid))[i][6] == Null
    ensures ListByOwner(cid, fetchAll, json).Err?
  {
    MapRowSpec(Fields, fetchAll(ListTask(cid))[i], json);
    assert Unpack(Null, Fields[6].tag, json).Err?;
  }
}
