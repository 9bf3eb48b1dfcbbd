/** `PermaLimitDB`: the permanent slot and weight allowance of a credential,
    one row per credential. Its writes are hand-written statements. */
module PermaLimit {
  import opened Values
  import opened Sql
  import opened Codec
  import opened Statements
  import opened Writer

  const Table := "perma_limit"

  /** No index statements: the field defaults to an empty list. */
  const Spec := TableSpec(
    "perma_limit",
    [ "cid INTEGER PRIMARY KEY",
      "char_slot INTEGER NOT NULL DEFAULT 0",
      "lore_char_slot INTEGER NOT NULL DEFAULT 0",
      "weight_bytes INTEGER NOT NULL DEFAULT 0" ],
    [])

  // ---------------------------------------------------------------------
  // Statements

  /** The columns `create` names, in statement order. */
  const CreateKeys := ["cid", "char_slot", "lore_char_slot", "weight_bytes"]

  /** The statement `create` passes on; every allowance defaults to 0. Its
      text is the INSERT over `CreateKeys` with four placeholders. */
  function CreateTask(cid: int, charSlot: int := 0, loreCharSlot: int := 0, weightBytes: int := 0): SQLTask
  {
    SQLTask(InsertSql(Table, CreateKeys, 4),
            Some([VInt(cid), VInt(charSlot), VInt(loreCharSlot), VInt(weightBytes)]))
  }

  function CreateColumns(cid: int, charSlot: int, loreCharSlot: int, weightBytes: int): seq<Column>
  {
    [ Column("cid", VInt(cid), NoTag), Column("char_slot", VInt(charSlot), NoTag),
      Column("lore_char_slot", VInt(loreCharSlot), NoTag), Column("weight_bytes", VInt(weightBytes), NoTag) ]
  }

  /** The hand-written INSERT is exactly what `_insert` would build for the
      same columns. */
  lemma CreateIsGenericInsert(cid: int, charSlot: int, loreCharSlot: int, weightBytes: int, json: JsonCodec)
    ensures CreateTask(cid, charSlot, loreCharSlot, weightBytes) ==
      InsertTask(Table, CreateColumns(cid, charSlot, loreCharSlot, weightBytes), json)
  {
    var cols := CreateColumns(cid, charSlot, loreCharSlot, weightBytes);
    forall i | 0 <= i < 4 ensures Names(cols)[i] == CreateKeys[i] {
    }
    assert Names(cols) == CreateKeys;
    var ps := CreateTask(cid, charSlot, loreCharSlot, weightBytes).params.value;
    forall i | 0 <= i < 4 ensures Packed(cols, json)[i] == ps[i] {
    }
    assert Packed(cols, json) == ps;
  }

  /** The INSERT of `create` carries one placeholder per parameter, every
      parameter binds, and leaving the allowances out stores zeros. */
  lemma CreatePlaceholders(cid: int, charSlot: int, loreCharSlot: int, weightBytes: int)
    ensures var t := CreateTask(cid, charSlot, loreCharSlot, weightBytes);
      Count('?', t.sql) == |t.params.value| == 4 && ParamsBindable(t)
    ensures CreateTask(cid).params == Some([VInt(cid), VInt(0), VInt(0), VInt(0)])
  {
    CreateKeysPlain();
    InsertPlaceholders(Table, CreateKeys, 4);
    var ps := CreateTask(cid, charSlot, loreCharSlot, weightBytes).params.value;
    forall k | 0 <= k < |ps| ensures Bindable(ps[k]) {
    }
  }

  lemma CreateKeysPlain()
    ensures PlainNames(Table, CreateKeys)
  {
    forall k | k in CreateKeys ensures NoMark(k) {
    }
  }

  function IntOption(x: Option<int>): Option<Value>
  {
    if x.Some? then Some(VInt(x.value)) else None
  }

  /** The optional columns of `update`, in argument order. */
  function UpdateOptions(charSlot: Option<int>, loreCharSlot: Option<int>, weightBytes: Option<int>): seq<OptColumn>
  {
    [ OptColumn("char_slot", IntOption(charSlot), NoTag),
      OptColumn("lore_char_slot", IntOption(loreCharSlot), NoTag),
      OptColumn("weight_bytes", IntOption(weightBytes), NoTag) ]
  }

  /** The statement `update` builds: none when every argument is None, and
      otherwise an UPDATE of exactly the given columns, in argument order,
      keyed by cid, which is what `_update` builds for them. */
  method UpdateStatement(cid: int, charSlot: Option<int>, loreCharSlot: Option<int>, weightBytes: Option<int>)
    returns (task: Option<SQLTask>)
    ensures task.None? <==> charSlot.None? && loreCharSlot.None? && weightBytes.None?
    ensures task.Some? ==> forall json: JsonCodec ::
      task.value == UpdateTask(Table, "cid", VInt(cid), Present(UpdateOptions(charSlot, loreCharSlot, weightBytes)), json)
  {
    var opts := UpdateOptions(charSlot, loreCharSlot, weightBytes);
    var fields, params := SetParts(opts);
    ghost var cols := Present(opts);
    UpdateOptionsEmpty(charSlot, loreCharSlot, weightBytes);
    if |fields| == 0 {
      return None;
    }
    params := params + [VInt(cid)];
    task := Some(SQLTask("UPDATE perma_limit SET " + Join(fields, ", ") + " WHERE cid = ?", Some(params)));
    UpdateText(Names(cols));
    forall json: JsonCodec
      ensures task.value == UpdateTask(Table, "cid", VInt(cid), cols, json)
    {
      PresentNoJson(opts);
      PackedPlain(cols, json);
    }
  }

  /** The three `if x is not None` blocks of `update`, in argument order:
      one `k = ?` clause and one parameter per given argument. */
  method SetParts(opts: seq<OptColumn>) returns (fields: seq<string>, params: seq<Value>)
    requires |opts| == 3
    ensures fields == SetClauses(Names(Present(opts)))
    ensures params == RawValues(Present(opts))
  {
    fields, params := AppendIfGiven([], [], opts[0]);
    assert fields == ClauseOf(opts[0]) && params == ParamOf(opts[0]);
    fields, params := AppendIfGiven(fields, params, opts[1]);
    fields, params := AppendIfGiven(fields, params, opts[2]);
    ClausesOfThree(opts);
    ClausesOfPresent(opts);
    ParamsOfPresent(opts);
  }

  /** No column is kept exactly when every argument is None. */
  lemma UpdateOptionsEmpty(charSlot: Option<int>, loreCharSlot: Option<int>, weightBytes: Option<int>)
    ensures Present(UpdateOptions(charSlot, loreCharSlot, weightBytes)) == [] <==>
      charSlot.None? && loreCharSlot.None? && weightBytes.None?
  {
    var opts := UpdateOptions(charSlot, loreCharSlot, weightBytes);
    PresentAppend(opts[..2], [opts[2]]);
    assert opts == opts[..2] + [opts[2]];
    PresentOfTwo(opts[..2]);
    PresentOfOne(opts[2]);
  }

  /** The hand-written UPDATE text is the generic one for this table. */
  lemma UpdateText(keys: seq<string>)
    ensures UpdateSql(Table, keys, "cid") == "UPDATE perma_limit SET " + Join(SetClauses(keys), ", ") + " WHERE cid = ?"
  {
    assert "UPDATE " + Table + " SET " == "UPDATE perma_limit SET ";
    assert " WHERE " + "cid" + " = ?" == " WHERE cid = ?";
    var head := "UPDATE perma_limit SET " + Join(SetClauses(keys), ", ");
    assert head + " WHERE " + "cid" + " = ?" == head + (" WHERE " + "cid" + " = ?");
  }

  /** The statement `delete` passes on: the generic DELETE keyed by cid. */
  function DeleteStatement(cid: int): (t: SQLTask)
    ensures t == DeleteTask(Table, "cid", VInt(cid))
  {
    assert "DELETE FROM " + Table == "DELETE FROM perma_limit";
    assert "DELETE FROM perma_limit" + " WHERE " == "DELETE FROM perma_limit WHERE ";
    assert "DELETE FROM perma_limit WHERE " + "cid" == "DELETE FROM perma_limit WHERE cid";
    SQLTask("DELETE FROM perma_limit WHERE cid = ?", Some([VInt(cid)]))
  }

  /** The DELETE binds its one parameter to its one placeholder. */
  lemma DeleteStatementShape(cid: int)
    ensures var t := DeleteStatement(cid);
      Count('?', t.sql) == |t.params.value| == 1
  {
    DeleteTaskShape(Table, "cid", VInt(cid));
  }

  // ---------------------------------------------------------------------
  // Writes through the class-level writer

  /** `set_up`. */
  method SetUp(w: TableWriter) returns (r: Completion)
    requires w.Valid()
    modifies w
    ensures w.Valid()
    ensures r.Returned? <==> old(w.startedAttr).Declared? && old(w.queueAttr).Declared?
    ensures old(w.startedAttr).Undeclared? ==> r == Raised(AttributeError("_worker_started"))
    ensures r.Returned? ==> w.workers == 1 && w.Queue() == old(w.Queue()) + Bootstrap(Spec)
    ensures r.Raised? ==> w.queueAttr == old(w.queueAttr) && w.workers == old(w.workers)
    ensures w.store == old(w.store) && w.failures == old(w.failures)
  {
    r := w.InitFromSpec(Spec);
  }

  /** `update` as the source wrote it: with no column to change it returns
      before reaching `cls.write`; otherwise the lookup of `write`, which
      neither this class nor BaseDB defines, raises. */
  method UpdateAsWritten(w: TableWriter, cid: int, charSlot: Option<int>, loreCharSlot: Option<int>, weightBytes: Option<int>)
    returns (r: Completion)
    ensures r.Returned? <==> charSlot.None? && loreCharSlot.None? && weightBytes.None?
    ensures r.Raised? ==> r.error == AttributeError("write")
  {
    var task := UpdateStatement(cid, charSlot, loreCharSlot, weightBytes);
    if task.None? {
      return Returned;
    }
    r := w.Write(task.value);
  }

  /** `create` as the source wrote it: the lookup of `cls.write` raises
      before anything is queued. */
  method CreateAsWritten(w: TableWriter, cid: int, charSlot: int := 0, loreCharSlot: int := 0, weightBytes: int := 0)
    returns (r: Completion)
    ensures r == Raised(AttributeError("write"))
  {
    r := w.Write(CreateTask(cid, charSlot, loreCharSlot, weightBytes));
  }

  /** `delete` as the source wrote it: the lookup of `cls.write` raises. */
  method DeleteAsWritten(w: TableWriter, cid: int) returns (r: Completion)
    ensures r == Raised(AttributeError("write"))
  {
    r := w.Write(DeleteStatement(cid));
  }

  /** `create` with its statement queued through `submit_write`. */
  method Create(w: TableWriter, cid: int, charSlot: int := 0, loreCharSlot: int := 0, weightBytes: int := 0)
    returns (r: Completion)
    requires w.Valid()
    modifies w
    ensures w.Valid()
    ensures r == (if old(w.queueAttr).Undeclared? then Raised(AttributeError("_queue")) else Returned)
    ensures r.Returned? ==> w.Queue() == old(w.Queue()) + [CreateTask(cid, charSlot, loreCharSlot, weightBytes)]
    ensures r.Raised? ==> w.queueAttr == old(w.queueAttr)
    ensures w.startedAttr == old(w.startedAttr) && w.workers == old(w.workers)
    ensures w.store == old(w.store) && w.failures == old(w.failures)
  {
    r := w.SubmitWrite(CreateTask(cid, charSlot, loreCharSlot, weightBytes));
  }

  /** `update` with its statement queued through `submit_write`: nothing is
      queued when every argument is None. */
  method Update(w: TableWriter, cid: int, charSlot: Option<int>, loreCharSlot: Option<int>, weightBytes: Option<int>)
    returns (r: Completion)
    requires w.Valid()
    modifies w
    ensures w.Valid()
    ensures charSlot.None? && loreCharSlot.None? && weightBytes.None? ==>
      r == Returned && w.queueAttr == old(w.queueAttr)
    ensures !(charSlot.None? && loreCharSlot.None? && weightBytes.None?) ==>
      r == (if old(w.queueAttr).Undeclared? then Raised(AttributeError("_queue")) else Returned)
    ensures !(charSlot.None? && loreCharSlot.None? && weightBytes.None?) && r.Returned? ==>
      w.Queue() == old(w.Queue()) + [UpdateTask(Table, "cid", VInt(cid), Present(UpdateOptions(charSlot, loreCharSlot, weightBytes)), w.json)]
    ensures r.Raised? ==> w.queueAttr == old(w.queueAttr)
    ensures w.startedAttr == old(w.startedAttr) && w.workers == old(w.workers)
    ensures w.store == old(w.store) && w.failures == old(w.failures)
  {
    var task := UpdateStatement(cid, charSlot, loreCharSlot, weightBytes);
    if task.None? {
      return Returned;
    }
    r := w.SubmitWrite(task.value);
  }

  /** `delete` with its statement queued through `submit_write`. */
  method Delete(w: TableWriter, cid: int) returns (r: Completion)
    requires w.Valid()
    modifies w
    ensures w.Valid()
    ensures r == (if old(w.queueAttr).Undeclared? then Raised(AttributeError("_queue")) else Returned)
    ensures r.Returned? ==> w.Queue() == old(w.Queue()) + [DeleteTask(Table, "cid", VInt(cid))]
    ensures r.Raised? ==> w.queueAttr == old(w.queueAttr)
    ensures w.startedAttr == old(w.startedAttr) && w.workers == old(w.workers)
    ensures w.store == old(w.store) && w.failures == old(w.failures)
  {
    r := w.SubmitWrite(DeleteStatement(cid));
  }

  // ---------------------------------------------------------------------
  // Reads

  /** A row of `perma_limit`; every column is NOT NULL. */
  datatype PermaRow = PermaRow(cid: int, charSlot: int, loreCharSlot: int, weightBytes: int)

  /** The dict `get` builds from a row, keys in SELECT order. */
  function ToRecord(row: PermaRow): (d: Record)
    ensures Keys(d) == ["cid", "char_slot", "lore_char_slot", "weight_bytes"]
    ensures Lookup(d, "cid") == Some(VInt(row.cid))
  {
    [ ("cid", VInt(row.cid)), ("char_slot", VInt(row.charSlot)),
      ("lore_char_slot", VInt(row.loreCharSlot)), ("weight_bytes", VInt(row.weightBytes)) ]
  }

  /** `get`: the first row with that cid (cid is the primary key), as a dict,
      or None when there is none. */
  function Get(table: seq<PermaRow>, cid: int): (r: Option<Record>)
    ensures r.None? <==> forall i :: 0 <= i < |table| ==> table[i].cid != cid
    ensures r.Some? ==> exists i :: 0 <= i < |table| && table[i].cid == cid && r.value == ToRecord(table[i])
    decreases |table|
  {
    if |table| == 0 then None
    else if table[0].cid == cid then Some(ToRecord(table[0]))
    else
      var rest := Get(table[1..], cid);
      assert rest.Some? ==> exists i :: 1 <= i < |table| && table[i].cid == cid && rest.value == ToRecord(table[i]) by {
        if rest.Some? {
          var j :| 0 <= j < |table[1..]| && table[1..][j].cid == cid && rest.value == ToRecord(table[1..][j]);
          assert table[j + 1] == table[1..][j];
        }
      }
      rest
  }

  /** With cid a key (no two rows share it), `get` returns exactly the row
      that has it. */
  lemma GetByKey(table: seq<PermaRow>, i: nat)
    requires i < |table|
    requires forall j, k :: 0 <= j < k < |table| ==> table[j].cid != table[k].cid
    ensures Get(table, table[i].cid) == Some(ToRecord(table[i]))
  {
    var r := Get(table, table[i].cid);
    var j :| 0 <= j < |table| && table[j].cid == table[i].cid && r.value == ToRecord(table[j]);
    assert j == i;
  }
}
