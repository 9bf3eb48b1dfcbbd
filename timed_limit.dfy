/** `TimedLimitDB`: time-limited grants of character slots and weight to a
    credential, with their expiry and status. Its writes are hand-written
    statements; its reads select rows of the `timed_limit` table. */
module TimedLimit {
  import opened Values
  import opened Sql
  import opened Codec
  import opened Statements
  import opened Writer

  const Table := "timed_limit"

  const Spec := TableSpec(
    "timed_limit",
    [ "uid INTEGER PRIMARY KEY AUTOINCREMENT",
      "cid INTEGER NOT NULL",
      "char_slot INTEGER NOT NULL DEFAULT 0",
      "weight_bytes INTEGER NOT NULL DEFAULT 0",
      "expired INTEGER NOT NULL",
      "status TEXT NOT NULL" ],
    [ "CREATE INDEX IF NOT EXISTS idx_timed_limit_id ON timed_limit (cid);",
      "CREATE INDEX IF NOT EXISTS idx_timed_limit_expired ON timed_limit (expired);" ])

  /** `TimedLimitStatus`. */
  datatype Status = Active | Expired | Disabled

  function StatusText(s: Status): string
  {
    match s
    case Active => "active"
    case Expired => "expired"
    case Disabled => "disabled"
  }

  // ---------------------------------------------------------------------
  // Statements

  /** The columns `create` names, in statement order. */
  const CreateKeys := ["cid", "char_slot", "weight_bytes", "expired", "status"]

  /** The statement `create` passes on: one positional parameter per column.
      Its text is the INSERT over `CreateKeys` with five placeholders. */
  function CreateTask(cid: int, charSlot: int, weightBytes: int, expired: int, status: Status): SQLTask
  {
    SQLTask(InsertSql(Table, CreateKeys, 5), Some(CreateParams(cid, charSlot, weightBytes, expired, status)))
  }

  function CreateParams(cid: int, charSlot: int, weightBytes: int, expired: int, status: Status): seq<Value>
  {
    [VInt(cid), VInt(charSlot), VInt(weightBytes), VInt(expired), VStr(StatusText(status))]
  }

  /** The same insert as the generic builder's columns, none of them encoded. */
  function CreateColumns(cid: int, charSlot: int, weightBytes: int, expired: int, status: Status): seq<Column>
  {
    [ Column("cid", VInt(cid), NoTag), Column("char_slot", VInt(charSlot), NoTag),
      Column("weight_bytes", VInt(weightBytes), NoTag), Column("expired", VInt(expired), NoTag),
      Column("status", VStr(StatusText(status)), NoTag) ]
  }

  /** The hand-written INSERT is exactly what `_insert` would build for the
      same columns. */
  lemma CreateIsGenericInsert(cid: int, charSlot: int, weightBytes: int, expired: int, status: Status, json: JsonCodec)
    ensures CreateTask(cid, charSlot, weightBytes, expired, status) ==
      InsertTask(Table, CreateColumns(cid, charSlot, weightBytes, expired, status), json)
  {
    var cols := CreateColumns(cid, charSlot, weightBytes, expired, status);
    forall i | 0 <= i < 5 ensures Names(cols)[i] == CreateKeys[i] {
    }
    assert Names(cols) == CreateKeys;
    var ps := CreateParams(cid, charSlot, weightBytes, expired, status);
    forall i | 0 <= i < 5 ensures Packed(cols, json)[i] == ps[i] {
    }
    assert Packed(cols, json) == ps;
  }

  /** The INSERT of `create` carries one placeholder per parameter, and every
      parameter binds. */
  lemma CreatePlaceholders(cid: int, charSlot: int, weightBytes: int, expired: int, status: Status)
    ensures var t := CreateTask(cid, charSlot, weightBytes, expired, status);
      Count('?', t.sql) == |t.params.value| == 5 && ParamsBindable(t)
  {
    CreateKeysPlain();
    InsertPlaceholders(Table, CreateKeys, 5);
    var ps := CreateParams(cid, charSlot, weightBytes, expired, status);
    forall k | 0 <= k < |ps| ensures Bindable(ps[k]) {
    }
  }

  lemma CreateKeysPlain()
    ensures PlainNames(Table, CreateKeys)
  {
    forall k | k in CreateKeys ensures NoMark(k) {
    }
  }

  /** The optional columns of `update`, in argument order. */
  function UpdateOptions(charSlot: Option<int>, weightBytes: Option<int>, expired: Option<int>, status: Option<Status>): seq<OptColumn>
  {
    [ OptColumn("char_slot", if charSlot.Some? then Some(VInt(charSlot.value)) else None, NoTag),
      OptColumn("weight_bytes", if weightBytes.Some? then Some(VInt(weightBytes.value)) else None, NoTag),
      OptColumn("expired", if expired.Some? then Some(VInt(expired.value)) else None, NoTag),
      OptColumn("status", if status.Some? then Some(VStr(StatusText(status.value))) else None, NoTag) ]
  }

  /** The statement `update` builds: none when every argument is None, and
      otherwise an UPDATE of exactly the given columns, in argument order,
      keyed by uid, which is what `_update` builds for them. */
  method UpdateStatement(uid: int, charSlot: Option<int>, weightBytes: Option<int>, expired: Option<int>, status: Option<Status>)
    returns (task: Option<SQLTask>)
    ensures task.None? <==> charSlot.None? && weightBytes.None? && expired.None? && status.None?
    ensures task.Some? ==> forall json: JsonCodec ::
      task.value == UpdateTask(Table, "uid", VInt(uid), Present(UpdateOptions(charSlot, weightBytes, expired, status)), json)
  {
    var opts := UpdateOptions(charSlot, weightBytes, expired, status);
    var fields, params := SetParts(opts);
    ghost var cols := Present(opts);
    UpdateOptionsEmpty(charSlot, weightBytes, expired, status);
    if |fields| == 0 {
      return None;
    }
    params := params + [VInt(uid)];
    task := Some(SQLTask("UPDATE timed_limit SET " + Join(fields, ", ") + " WHERE uid = ?", Some(params)));
    UpdateText(Names(cols));
    forall json: JsonCodec
      ensures task.value == UpdateTask(Table, "uid", VInt(uid), cols, json)
    {
      PresentNoJson(opts);
      PackedPlain(cols, json);
    }
  }

  /** The four `if x is not None` blocks of `update`, in argument order:
      one `k = ?` clause and one parameter per given argument. */
  method SetParts(opts: seq<OptColumn>) returns (fields: seq<string>, params: seq<Value>)
    requires |opts| == 4
    ensures fields == SetClauses(Names(Present(opts)))
    ensures params == RawValues(Present(opts))
  {
    fields, params := AppendIfGiven([], [], opts[0]);
    assert fields == ClauseOf(opts[0]) && params == ParamOf(opts[0]);
    fields, params := AppendIfGiven(fields, params, opts[1]);
    fields, params := AppendIfGiven(fields, params, opts[2]);
    fields, params := AppendIfGiven(fields, params, opts[3]);
    ClausesOfFour(opts);
    ParamsOfFour(opts);
    ClausesOfPresent(opts);
    ParamsOfPresent(opts);
  }

  /** No column is kept exactly when every argument is None. */
  lemma UpdateOptionsEmpty(charSlot: Option<int>, weightBytes: Option<int>, expired: Option<int>, status: Option<Status>)
    ensures Present(UpdateOptions(charSlot, weightBytes, expired, status)) == [] <==>
      charSlot.None? && weightBytes.None? && expired.None? && status.None?
  {
    PresentOfFour(UpdateOptions(charSlot, weightBytes, expired, status));
  }

  /** The hand-written UPDATE text is the generic one for this table. */
  lemma UpdateText(keys: seq<string>)
    ensures UpdateSql(Table, keys, "uid") == "UPDATE timed_limit SET " + Join(SetClauses(keys), ", ") + " WHERE uid = ?"
  {
    assert "UPDATE " + Table + " SET " == "UPDATE timed_limit SET ";
    assert " WHERE " + "uid" + " = ?" == " WHERE uid = ?";
    var head := "UPDATE timed_limit SET " + Join(SetClauses(keys), ", ");
    assert head + " WHERE " + "uid" + " = ?" == head + (" WHERE " + "uid" + " = ?");
  }

  /** The statement `delete` passes on: the generic DELETE keyed by uid. */
  function DeleteStatement(uid: int): (t: SQLTask)
    ensures t == DeleteTask(Table, "uid", VInt(uid))
  {
    assert "DELETE FROM " + Table == "DELETE FROM timed_limit";
    assert "DELETE FROM timed_limit" + " WHERE " == "DELETE FROM timed_limit WHERE ";
    assert "DELETE FROM timed_limit WHERE " + "uid" == "DELETE FROM timed_limit WHERE uid";
    SQLTask("DELETE FROM timed_limit WHERE uid = ?", Some([VInt(uid)]))
  }

  /** The DELETE binds its one parameter to its one placeholder. */
  lemma DeleteStatementShape(uid: int)
    ensures var t := DeleteStatement(uid);
      Count('?', t.sql) == |t.params.value| == 1
  {
    DeleteTaskShape(Table, "uid", VInt(uid));
  }

  // ---------------------------------------------------------------------
  // Writes through the class-level writer

  /** `set_up`. */
  method SetUp(w: TableWriter) returns (r: Completion)
    requires w.Valid()
    modifies w
    ensures w.Valid()
    ensures r.Returned? <==> old(w.startedAttr).Declared? && old(w.queueAttr).Declared?
    ensures old(w.startedAttr).Undeclared? ==> r == Raised(AttributeError("_worker_started"))
    ensures r.Returned? ==> w.workers == 1 && w.Queue() == old(w.Queue()) + Bootstrap(Spec)
    ensures r.Raised? ==> w.queueAttr == old(w.queueAttr) && w.workers == old(w.workers)
    ensures w.store == old(w.store) && w.failures == old(w.failures)
  {
    r := w.InitFromSpec(Spec);
  }

  /** `create` as the source wrote it: `cls.write` is looked up before the
      statement is built, and neither this class nor BaseDB defines it. */
  method CreateAsWritten(w: TableWriter, cid: int, charSlot: int, weightBytes: int, expired: int, status: Status := Active)
    returns (r: Completion)
    ensures r == Raised(AttributeError("write"))
  {
    r := w.Write(CreateTask(cid, charSlot, weightBytes, expired, status));
  }

  /** `update` as the source wrote it: with no column to change it returns
      before reaching `cls.write`; otherwise the lookup raises. */
  method UpdateAsWritten(w: TableWriter, uid: int, charSlot: Option<int>, weightBytes: Option<int>, expired: Option<int>, status: Option<Status>)
    returns (r: Completion)
    ensures r.Returned? <==> charSlot.None? && weightBytes.None? && expired.None? && status.None?
    ensures r.Raised? ==> r.error == AttributeError("write")
  {
    var task := UpdateStatement(uid, charSlot, weightBytes, expired, status);
    if task.None? {
      return Returned;
    }
    r := w.Write(task.value);
  }

  /** `delete` as the source wrote it: the lookup of `cls.write` raises. */
  method DeleteAsWritten(w: TableWriter, uid: int) returns (r: Completion)
    ensures r == Raised(AttributeError("write"))
  {
    r := w.Write(DeleteStatement(uid));
  }

  /** `create` with its statement queued through `submit_write`; the
      status defaults to active. */
  method Create(w: TableWriter, cid: int, charSlot: int, weightBytes: int, expired: int, status: Status := Active)
    returns (r: Completion)
    requires w.Valid()
    modifies w
    ensures w.Valid()
    ensures r == (if old(w.queueAttr).Undeclared? then Raised(AttributeError("_queue")) else Returned)
    ensures r.Returned? ==> w.Queue() == old(w.Queue()) + [CreateTask(cid, charSlot, weightBytes, expired, status)]
    ensures r.Raised? ==> w.queueAttr == old(w.queueAttr)
    ensures w.startedAttr == old(w.startedAttr) && w.workers == old(w.workers)
    ensures w.store == old(w.store) && w.failures == old(w.failures)
  {
    r := w.SubmitWrite(CreateTask(cid, charSlot, weightBytes, expired, status));
  }

  /** `update` with its statement queued through `submit_write`: nothing is
      queued when every argument is None. */
  method Update(w: TableWriter, uid: int, charSlot: Option<int>, weightBytes: Option<int>, expired: Option<int>, status: Option<Status>)
    returns (r: Completion)
    requires w.Valid()
    modifies w
    ensures w.Valid()
    ensures charSlot.None? && weightBytes.None? && expired.None? && status.None? ==>
      r == Returned && w.Queue() == old(w.Queue()) && w.queueAttr == old(w.queueAttr)
    ensures !(charSlot.None? && weightBytes.None? && expired.None? && status.None?) ==>
      r == (if old(w.queueAttr).Undeclared? then Raised(AttributeError("_queue")) else Returned)
    ensures !(charSlot.None? && weightBytes.None? && expired.None? && status.None?) && r.Returned? ==>
      w.Queue() == old(w.Queue()) + [UpdateTask(Table, "uid", VInt(uid), Present(UpdateOptions(charSlot, weightBytes, expired, status)), w.json)]
    ensures r.Raised? ==> w.queueAttr == old(w.queueAttr)
    ensures w.startedAttr == old(w.startedAttr) && w.workers == old(w.workers)
    ensures w.store == old(w.store) && w.failures == old(w.failures)
  {
    var task := UpdateStatement(uid, charSlot, weightBytes, expired, status);
    if task.None? {
      return Returned;
    }
    r := w.SubmitWrite(task.value);
  }

  /** `delete` with its statement queued through `submit_write`. */
  method Delete(w: TableWriter, uid: int) returns (r: Completion)
    requires w.Valid()
    modifies w
    ensures w.Valid()
    ensures r == (if old(w.queueAttr).Undeclared? then Raised(AttributeError("_queue")) else Returned)
    ensures r.Returned? ==> w.Queue() == old(w.Queue()) + [DeleteTask(Table, "uid", VInt(uid))]
    ensures r.Raised? ==> w.queueAttr == old(w.queueAttr)
    ensures w.startedAttr == old(w.startedAttr) && w.workers == old(w.workers)
    ensures w.store == old(w.store) && w.failures == old(w.failures)
  {
    r := w.SubmitWrite(DeleteStatement(uid));
  }

  // ---------------------------------------------------------------------
  // Reads over the table's rows

  /** A row of `timed_limit`; every column is NOT NULL. */
  datatype TimedRow = TimedRow(uid: int, cid: int, charSlot: int, weightBytes: int, expired: int, status: string)

  /** The dict each read builds from a row, keys in SELECT order. */
  function ToRecord(row: TimedRow): (d: Record)
    ensures Keys(d) == ["uid", "cid", "char_slot", "weight_bytes", "expired", "status"]
  {
    [ ("uid", VInt(row.uid)), ("cid", VInt(row.cid)), ("char_slot", VInt(row.charSlot)),
      ("weight_bytes", VInt(row.weightBytes)), ("expired", VInt(row.expired)), ("status", VStr(row.status)) ]
  }

  function ToRecords(rows: seq<TimedRow>): (r: seq<Record>)
    ensures |r| == |rows|
  {
    seq(|rows|, i requires 0 <= i < |rows| => ToRecord(rows[i]))
  }

  /** `get`: the first row with that uid (uid is the primary key), as a dict,
      or None when there is none. */
  function Get(table: seq<TimedRow>, uid: int): (r: Option<Record>)
    ensures r.None? <==> forall i :: 0 <= i < |table| ==> table[i].uid != uid
    ensures r.Some? ==> exists i :: 0 <= i < |table| && table[i].uid == uid && r.value == ToRecord(table[i])
    decreases |table|
  {
    if |table| == 0 then None
    else if table[0].uid == uid then Some(ToRecord(table[0]))
    else
      var rest := Get(table[1..], uid);
      assert rest.Some? ==> exists i :: 1 <= i < |table| && table[i].uid == uid && rest.value == ToRecord(table[i]) by {
        if rest.Some? {
          var j :| 0 <= j < |table[1..]| && table[1..][j].uid == uid && rest.value == ToRecord(table[1..][j]);
          assert table[j + 1] == table[1..][j];
        }
      }
      rest
  }

  /** The rows of credential `cid`, in table order. */
  function OwnedBy(table: seq<TimedRow>, cid: int): (r: seq<TimedRow>)
    ensures forall x :: x in r <==> x in table && x.cid == cid
    ensures multiset(r) <= multiset(table)
  {
    if |table| == 0 then []
    else
      assert table == [table[0]] + table[1..];
      (if table[0].cid == cid then [table[0]] else []) + OwnedBy(table[1..], cid)
  }

  /** The rows of credential `cid` that are active and expire after `now`. */
  function ActiveOf(table: seq<TimedRow>, cid: int, now: int): (r: seq<TimedRow>)
    ensures forall x :: x in r <==> x in table && x.cid == cid && x.status == "active" && x.expired > now
    ensures multiset(r) <= multiset(table)
  {
    if |table| == 0 then []
    else
      assert table == [table[0]] + table[1..];
      var keep := table[0].cid == cid && table[0].status == "active" && table[0].expired > now;
      (if keep then [table[0]] else []) + ActiveOf(table[1..], cid, now)
  }

  // ORDER BY expired

  /** Each row expires no earlier than the one before it. */
  predicate SortedByExpired(rows: seq<TimedRow>)
  {
    forall i :: 0 < i < |rows| ==> rows[i - 1].expired <= rows[i].expired
  }

  /** Put `x` in front of the first row that expires no earlier. */
  function InsertByExpired(x: TimedRow, rows: seq<TimedRow>): (r: seq<TimedRow>)
    requires SortedByExpired(rows)
    ensures SortedByExpired(r)
    ensures multiset(r) == multiset(rows) + multiset{x}
    ensures |r| == |rows| + 1
    ensures r[0] == if |rows| == 0 || x.expired <= rows[0].expired then x else rows[0]
  {
    if |rows| == 0 then [x]
    else if x.expired <= rows[0].expired then [x] + rows
    else
      assert rows == [rows[0]] + rows[1..];
      [rows[0]] + InsertByExpired(x, rows[1..])
  }

  /** The rows ordered by expiry: sorted, and a permutation of the input. */
  function SortByExpired(rows: seq<TimedRow>): (r: seq<TimedRow>)
    ensures SortedByExpired(r)
    ensures multiset(r) == multiset(rows)
  {
    if |rows| == 0 then []
    else
      assert rows == [rows[0]] + rows[1..];
      InsertByExpired(rows[0], SortByExpired(rows[1..]))
  }

  /** `list_by_owner`: every row of credential `cid`, earliest expiry first. */
  function ListByOwner(table: seq<TimedRow>, cid: int): seq<Record>
  {
    ToRecords(SortByExpired(OwnedBy(table, cid)))
  }

  /** `now or int(time.time())`: None and 0 both fall back to the clock. */
  function EffectiveNow(now: Option<int>, clock: int): int
  {
    if now.None? || now.value == 0 then clock else now.value
  }

  /** `list_active`: the active rows of credential `cid` that expire after
      the effective time, earliest expiry first. */
  function ListActive(table: seq<TimedRow>, cid: int, now: Option<int>, clock: int): seq<Record>
  {
    ToRecords(SortByExpired(ActiveOf(table, cid, EffectiveNow(now, clock))))
  }

  /** `list_by_owner` returns exactly the owner's rows, each once, as dicts,
      earliest expiry first. */
  lemma ListByOwnerSpec(table: seq<TimedRow>, cid: int)
    ensures var rows := SortByExpired(OwnedBy(table, cid));
      && ListByOwner(table, cid) == ToRecords(rows)
      && SortedByExpired(rows)
      && (forall x :: x in rows <==> x in table && x.cid == cid)
      && multiset(rows) <= multiset(table)
  {
    var rows := SortByExpired(OwnedBy(table, cid));
    forall x ensures x in rows <==> x in table && x.cid == cid {
      assert x in rows <==> x in multiset(rows);
    }
  }

  /** `list_active` returns exactly the rows that are active, owned by
      `cid` and not yet expired at the effective time, as dicts, earliest
      expiry first; the active list is part of the owner's list. */
  lemma ListActiveSpec(table: seq<TimedRow>, cid: int, now: Option<int>, clock: int)
    ensures var t := EffectiveNow(now, clock);
      var rows := SortByExpired(ActiveOf(table, cid, t));
      && ListActive(table, cid, now, clock) == ToRecords(rows)
      && SortedByExpired(rows)
      && (forall x :: x in rows <==> x in table && x.cid == cid && x.status == "active" && x.expired > t)
      && multiset(rows) <= multiset(SortByExpired(OwnedBy(table, cid)))
  {
    var t := EffectiveNow(now, clock);
    var rows := SortByExpired(ActiveOf(table, cid, t));
    forall x ensures x in rows <==> x in table && x.cid == cid && x.status == "active" && x.expired > t {
      assert x in rows <==> x in multiset(rows);
    }
    ActiveWithinOwned(table, cid, t);
  }

  lemma {:induction false} ActiveWithinOwned(table: seq<TimedRow>, cid: int, now: int)
    ensures multiset(ActiveOf(table, cid, now)) <= multiset(OwnedBy(table, cid))
  {
    if |table| > 0 {
      ActiveWithinOwned(table[1..], cid, now);
    }
  }

  /** An explicit `now` of 0 is not a time: it falls back to the clock just
      like an absent one, and a later clock never adds rows. */
  lemma ZeroNowIsAbsent(table: seq<TimedRow>, cid: int, clock: int, later: int)
    requires clock <= later
    ensures ListActive(table, cid, Some(0), clock) == ListActive(table, cid, None, clock)
    ensures multiset(ActiveOf(table, cid, later)) <= multiset(ActiveOf(table, cid, clock))
  {
    ActiveShrinks(table, cid, clock, later);
  }

  lemma {:induction false} ActiveShrinks(table: seq<TimedRow>, cid: int, t: int, later: int)
    requires t <= later
    ensures multiset(ActiveOf(table, cid, later)) <= multiset(ActiveOf(table, cid, t))
  {
    if |table| > 0 {
      ActiveShrinks(table[1..], cid, t, later);
    }
  }
}
