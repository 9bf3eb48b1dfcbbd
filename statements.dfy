/** The generic statement builders of `BaseDB`: `_insert`, `_update`,
    `_delete` turn tagged columns into an SQLTask, and `_get` maps a fetched
    row into a dict keyed by the requested fields. */
module Statements {
  import opened Values
  import opened Sql
  import opened Codec

  /** One keyword argument `name=(value, tag)` of `_insert` / `_update`. */
  datatype Column = Column(name: string, value: Value, tag: Tag)

  /** One entry `name: tag` of the `fields` dict of `_get`. */
  datatype Field = Field(name: string, tag: Tag)

  /** An optional argument of an entity's `update`: `value` is `None` when
      the caller passed None. */
  datatype OptColumn = OptColumn(name: string, value: Option<Value>, tag: Tag)

  function Names(cols: seq<Column>): (r: seq<string>)
    ensures |r| == |cols|
  {
    seq(|cols|, i requires 0 <= i < |cols| => cols[i].name)
  }

  /** The raw values, in column order. */
  function RawValues(cols: seq<Column>): (r: seq<Value>)
    ensures |r| == |cols|
  {
    seq(|cols|, i requires 0 <= i < |cols| => cols[i].value)
  }

  /** The packed values, in column order. */
  function Packed(cols: seq<Column>, json: JsonCodec): (r: seq<Value>)
    ensures |r| == |cols|
  {
    seq(|cols|, i requires 0 <= i < |cols| => Pack(cols[i].value, cols[i].tag, json))
  }

  function FieldNames(fields: seq<Field>): (r: seq<string>)
    ensures |r| == |fields|
  {
    seq(|fields|, i requires 0 <= i < |fields| => fields[i].name)
  }

  predicate NoJsonTag(cols: seq<Column>)
  {
    forall i :: 0 <= i < |cols| ==> cols[i].tag != Json
  }

  /** Without a json tag, packing changes nothing. */
  lemma PackedPlain(cols: seq<Column>, json: JsonCodec)
    requires NoJsonTag(cols)
    ensures Packed(cols, json) == RawValues(cols)
  {
  }

  // ---------------------------------------------------------------------
  // The statements

  function InsertTask(table: string, cols: seq<Column>, json: JsonCodec): SQLTask
  {
    SQLTask(InsertSql(table, Names(cols), |cols|), Some(Packed(cols, json)))
  }

  function UpdateTask(table: string, whereKey: string, whereVal: Value, cols: seq<Column>, json: JsonCodec): SQLTask
  {
    SQLTask(UpdateSql(table, Names(cols), whereKey), Some(Packed(cols, json) + [whereVal]))
  }

  function DeleteTask(table: string, whereKey: string, whereVal: Value): SQLTask
  {
    SQLTask(DeleteSql(table, whereKey), Some([whereVal]))
  }

  /** The read statement of `_get`, with its single parameter. */
  function SelectTask(table: string, whereKey: string, whereVal: Value, fields: seq<Field>): SQLTask
  {
    SQLTask(SelectSql(table, FieldNames(fields), whereKey), Some([whereVal]))
  }

  /** The loop of `_insert`: column names and packed values collected in
      argument order. */
  method BuildInsert(table: string, cols: seq<Column>, json: JsonCodec) returns (task: SQLTask)
    ensures task == InsertTask(table, cols, json)
  {
    var keys: seq<string> := [];
    var vals: seq<Value> := [];
    for i := 0 to |cols|
      invariant |keys| == i && |vals| == i
      invariant forall k :: 0 <= k < i ==> keys[k] == cols[k].name
      invariant forall k :: 0 <= k < i ==> vals[k] == Pack(cols[k].value, cols[k].tag, json)
    {
      keys := keys + [cols[i].name];
      vals := vals + [Pack(cols[i].value, cols[i].tag, json)];
    }
    assert keys == Names(cols) && vals == Packed(cols, json);
    task := SQLTask(InsertSql(table, keys, |vals|), Some(vals));
  }

  /** The loop of `_update`: one `k = ?` clause and one packed value per
      column in argument order, then the where-value. */
  method BuildUpdate(table: string, whereKey: string, whereVal: Value, cols: seq<Column>, json: JsonCodec)
    returns (task: SQLTask)
    ensures task == UpdateTask(table, whereKey, whereVal, cols, json)
  {
    var setSql: seq<string> := [];
    var params: seq<Value> := [];
    for i := 0 to |cols|
      invariant |setSql| == i && |params| == i
      invariant forall k :: 0 <= k < i ==> setSql[k] == cols[k].name + " = ?"
      invariant forall k :: 0 <= k < i ==> params[k] == Pack(cols[k].value, cols[k].tag, json)
    {
      setSql := setSql + [cols[i].name + " = ?"];
      params := params + [Pack(cols[i].value, cols[i].tag, json)];
    }
    assert setSql == SetClauses(Names(cols)) && params == Packed(cols, json);
    params := params + [whereVal];
    task := SQLTask("UPDATE " + table + " SET " + Join(setSql, ", ") + " WHERE " + whereKey + " = ?", Some(params));
  }

  /** Names without `?`: the statements of the three builders then carry one
      placeholder per parameter. */
  predicate PlainNames(table: string, names: seq<string>)
  {
    NoMark(table) && forall k :: k in names ==> NoMark(k)
  }

  /** Field names without `?`, checked one field at a time. */
  lemma PlainFields(fields: seq<Field>)
    requires forall i :: 0 <= i < |fields| ==> NoMark(fields[i].name)
    ensures forall k :: k in FieldNames(fields) ==> NoMark(k)
  {
    forall k | k in FieldNames(fields) ensures NoMark(k) {
      var i :| 0 <= i < |fields| && FieldNames(fields)[i] == k;
    }
  }

  /** Column names without `?`, checked one column at a time. */
  lemma PlainColumns(table: string, cols: seq<Column>)
    requires NoMark(table)
    requires forall i :: 0 <= i < |cols| ==> NoMark(cols[i].name)
    ensures PlainNames(table, Names(cols))
  {
    forall k | k in Names(cols) ensures NoMark(k) {
      var i :| 0 <= i < |cols| && Names(cols)[i] == k;
    }
  }

  /** `_insert`: the columns appear in argument order, the parameters are the
      packed values in the same order, and there are as many `?` as values. */
  lemma InsertTaskShape(table: string, cols: seq<Column>, json: JsonCodec)
    requires PlainNames(table, Names(cols))
    ensures var t := InsertTask(table, cols, json);
      && t.params.Some?
      && |t.params.value| == |cols|
      && (forall i :: 0 <= i < |cols| ==> t.params.value[i] == Pack(cols[i].value, cols[i].tag, json))
      && Count('?', t.sql) == |t.params.value|
  {
    InsertPlaceholders(table, Names(cols), |cols|);
  }

  /** `_update`: one parameter per column in order, packed, and the where-value
      last; the statement holds as many `?` as parameters. */
  lemma UpdateTaskShape(table: string, whereKey: string, whereVal: Value, cols: seq<Column>, json: JsonCodec)
    requires PlainNames(table, Names(cols)) && NoMark(whereKey)
    ensures var t := UpdateTask(table, whereKey, whereVal, cols, json);
      && t.params.Some?
      && |t.params.value| == |cols| + 1
      && (forall i :: 0 <= i < |cols| ==> t.params.value[i] == Pack(cols[i].value, cols[i].tag, json))
      && t.params.value[|cols|] == whereVal
      && Count('?', t.sql) == |t.params.value|
  {
    UpdatePlaceholders(table, Names(cols), whereKey);
  }

  /** `_delete`: one task whose only parameter is the key value. */
  lemma DeleteTaskShape(table: string, whereKey: string, whereVal: Value)
    requires NoMark(table) && NoMark(whereKey)
    ensures var t := DeleteTask(table, whereKey, whereVal);
      t.params == Some([whereVal]) && Count('?', t.sql) == 1
  {
    DeletePlaceholders(table, whereKey);
  }

  // ---------------------------------------------------------------------
  // Reading a row back

  /** The dict comprehension of `_get` over `zip(fields, row)`: stops at the
      shorter of the two, and the first unpack that raises aborts it. */
  function MapRow(fields: seq<Field>, row: seq<Cell>, json: JsonCodec): Result<Record>
    decreases |fields|
  {
    if |fields| == 0 || |row| == 0 then Ok([])
    else
      match Unpack(row[0], fields[0].tag, json)
      case Err(e) => Err(e)
      case Ok(v) =>
        match MapRow(fields[1..], row[1..], json)
        case Err(e) => Err(e)
        case Ok(rest) => Ok([(fields[0].name, v)] + rest)
  }

  function Min(a: nat, b: nat): nat
  {
    if a <= b then a else b
  }

  /** A mapped row has one entry per zipped position, keyed by the field and
      holding that cell unpacked with the field's tag; it fails exactly when
      one of those cells fails to unpack. */
  lemma {:induction false} MapRowSpec(fields: seq<Field>, row: seq<Cell>, json: JsonCodec)
    ensures MapRow(fields, row, json).Ok? <==>
      forall i :: 0 <= i < Min(|fields|, |row|) ==> Unpack(row[i], fields[i].tag, json).Ok?
    ensures MapRow(fields, row, json).Ok? ==>
      var d := MapRow(fields, row, json).value;
      && |d| == Min(|fields|, |row|)
      && (forall i :: 0 <= i < |d| ==> d[i] == (fields[i].name, Unpack(row[i], fields[i].tag, json).value))
    decreases |fields|
  {
    if |fields| > 0 && |row| > 0 {
      MapRowSpec(fields[1..], row[1..], json);
      var n := Min(|fields|, |row|);
      if Unpack(row[0], fields[0].tag, json).Ok? && MapRow(fields[1..], row[1..], json).Ok? {
        var d := MapRow(fields, row, json).value;
        forall i | 0 <= i < |d| ensures d[i] == (fields[i].name, Unpack(row[i], fields[i].tag, json).value) {
          if i > 0 {
            assert d[i] == MapRow(fields[1..], row[1..], json).value[i - 1];
          }
        }
      } else if Unpack(row[0], fields[0].tag, json).Ok? {
        var j :| 0 <= j < Min(|fields| - 1, |row| - 1) && Unpack(row[1..][j], fields[1..][j].tag, json).Err?;
        assert Unpack(row[j + 1], fields[j + 1].tag, json).Err?;
      }
    }
  }

  /** `_get`: read the first row matching `where`, None when there is none,
      otherwise the row mapped through MapRow. `fetch` is the engine's answer
      to the SELECT. */
  function Get(table: string, whereKey: string, whereVal: Value, fields: seq<Field>,
               fetch: SQLTask -> Option<seq<Cell>>, json: JsonCodec): (r: Result<Option<Record>>)
    ensures fetch(SelectTask(table, whereKey, whereVal, fields)).None? ==> r == Ok(None)
    ensures r.Ok? && r.value.Some? ==> fetch(SelectTask(table, whereKey, whereVal, fields)).Some?
  {
    match fetch(SelectTask(table, whereKey, whereVal, fields))
    case None => Ok(None)
    case Some(row) =>
      match MapRow(fields, row, json)
      case Err(e) => Err(e)
      case Ok(d) => Ok(Some(d))
  }

  /** A row with one cell per field reads back as a dict whose keys are
      exactly the fields, in order, each value unpacked with its tag. */
  lemma GetSpec(table: string, whereKey: string, whereVal: Value, fields: seq<Field>,
                fetch: SQLTask -> Option<seq<Cell>>, json: JsonCodec)
    requires fetch(SelectTask(table, whereKey, whereVal, fields)).Some?
    requires |fetch(SelectTask(table, whereKey, whereVal, fields)).value| == |fields|
    ensures var row := fetch(SelectTask(table, whereKey, whereVal, fields)).value;
      var r := Get(table, whereKey, whereVal, fields, fetch, json);
      && (r.Ok? <==> forall i :: 0 <= i < |fields| ==> Unpack(row[i], fields[i].tag, json).Ok?)
      && (r.Ok? ==> r.value.Some? && Keys(r.value.value) == FieldNames(fields))
      && (r.Ok? ==> forall i :: 0 <= i < |fields| ==>
            r.value.value[i].1 == Unpack(row[i], fields[i].tag, json).value)
  {
    var row := fetch(SelectTask(table, whereKey, whereVal, fields)).value;
    MapRowSpec(fields, row, json);
  }

  // ---------------------------------------------------------------------
  // Optional columns of the entity updates

  /** The columns an entity's `update` keeps: those whose argument is not
      None, in argument order. */
  function Present(opts: seq<OptColumn>): seq<Column>
  {
    if |opts| == 0 then [] else Kept(opts[0]) + Present(opts[1..])
  }

  /** The column one optional argument contributes: none when it is None. */
  function Kept(o: OptColumn): seq<Column>
  {
    if o.value.Some? then [Column(o.name, o.value.value, o.tag)] else []
  }

  function OptNames(opts: seq<OptColumn>): (r: seq<string>)
    ensures |r| == |opts|
  {
    seq(|opts|, i requires 0 <= i < |opts| => opts[i].name)
  }

  /** Present distributes over concatenation. */
  lemma {:induction false} PresentAppend(a: seq<OptColumn>, b: seq<OptColumn>)
    ensures Present(a + b) == Present(a) + Present(b)
  {
    if |a| > 0 {
      assert (a + b)[0] == a[0];
      assert (a + b)[1..] == a[1..] + b;
      PresentAppend(a[1..], b);
    } else {
      assert a + b == b;
    }
  }

  /** Present over a single option is what that option keeps. */
  lemma PresentOfOne(o: OptColumn)
    ensures Present([o]) == Kept(o)
  {
    assert [o][1..] == [];
  }

  lemma PresentOfTwo(opts: seq<OptColumn>)
    requires |opts| == 2
    ensures Present(opts) == Kept(opts[0]) + Kept(opts[1])
  {
    assert opts == [opts[0]] + [opts[1]];
    PresentAppend([opts[0]], [opts[1]]);
    PresentOfOne(opts[0]);
    PresentOfOne(opts[1]);
  }

  lemma PresentOfFour(opts: seq<OptColumn>)
    requires |opts| == 4
    ensures Present(opts) == Kept(opts[0]) + Kept(opts[1]) + Kept(opts[2]) + Kept(opts[3])
  {
    assert opts == opts[..2] + opts[2..];
    PresentAppend(opts[..2], opts[2..]);
    PresentOfTwo(opts[..2]);
    PresentOfTwo(opts[2..]);
  }

  lemma PresentOfFive(opts: seq<OptColumn>)
    requires |opts| == 5
    ensures Present(opts) == Kept(opts[0]) + Kept(opts[1]) + Kept(opts[2]) + Kept(opts[3]) + Kept(opts[4])
  {
    assert opts == opts[..4] + [opts[4]];
    PresentAppend(opts[..4], [opts[4]]);
    PresentOfFour(opts[..4]);
    PresentOfOne(opts[4]);
  }

  // The hand-written updates build the SET clauses and the parameters
  // themselves, one `if x is not None` block per argument.

  /** The clause one optional argument contributes. */
  function ClauseOf(o: OptColumn): seq<string>
  {
    if o.value.Some? then [o.name + " = ?"] else []
  }

  /** The parameter one optional argument contributes. */
  function ParamOf(o: OptColumn): seq<Value>
  {
    if o.value.Some? then [o.value.value] else []
  }

  function Clauses(opts: seq<OptColumn>): seq<string>
  {
    if |opts| == 0 then [] else ClauseOf(opts[0]) + Clauses(opts[1..])
  }

  function Params(opts: seq<OptColumn>): seq<Value>
  {
    if |opts| == 0 then [] else ParamOf(opts[0]) + Params(opts[1..])
  }

  /** One `if x is not None: fields.append("k = ?"); params.append(x)` block. */
  method AppendIfGiven(fields: seq<string>, params: seq<Value>, o: OptColumn)
    returns (fields': seq<string>, params': seq<Value>)
    ensures fields' == fields + ClauseOf(o)
    ensures params' == params + ParamOf(o)
  {
    fields', params' := fields, params;
    if o.value.Some? {
      fields' := fields' + [o.name + " = ?"];
      params' := params' + [o.value.value];
    }
  }

  lemma ClausesCons(c: Column, rest: seq<Column>)
    ensures SetClauses(Names([c] + rest)) == [c.name + " = ?"] + SetClauses(Names(rest))
  {
    assert Names([c] + rest) == [c.name] + Names(rest);
  }

  lemma RawCons(c: Column, rest: seq<Column>)
    ensures RawValues([c] + rest) == [c.value] + RawValues(rest)
  {
  }

  /** The hand-written clauses are the `k = ?` clauses of the kept columns. */
  lemma {:induction false} ClausesOfPresent(opts: seq<OptColumn>)
    ensures Clauses(opts) == SetClauses(Names(Present(opts)))
  {
    if |opts| > 0 {
      ClausesOfPresent(opts[1..]);
      var rest := Present(opts[1..]);
      if opts[0].value.Some? {
        var c := Kept(opts[0])[0];
        assert Present(opts) == [c] + rest;
        ClausesCons(c, rest);
      } else {
        assert Present(opts) == rest;
      }
    }
  }

  /** The hand-written parameters are the values of the kept columns. */
  lemma {:induction false} ParamsOfPresent(opts: seq<OptColumn>)
    ensures Params(opts) == RawValues(Present(opts))
  {
    if |opts| > 0 {
      ParamsOfPresent(opts[1..]);
      var rest := Present(opts[1..]);
      if opts[0].value.Some? {
        var c := Kept(opts[0])[0];
        assert Present(opts) == [c] + rest;
        RawCons(c, rest);
      } else {
        assert Present(opts) == rest;
      }
    }
  }

  lemma ClausesOfThree(opts: seq<OptColumn>)
    requires |opts| == 3
    ensures Clauses(opts) == ClauseOf(opts[0]) + ClauseOf(opts[1]) + ClauseOf(opts[2])
    ensures Params(opts) == ParamOf(opts[0]) + ParamOf(opts[1]) + ParamOf(opts[2])
  {
    assert opts[2..][1..] == [];
    assert opts[1..][1..] == opts[2..];
    assert Clauses(opts[2..]) == ClauseOf(opts[2]);
    assert Params(opts[2..]) == ParamOf(opts[2]);
  }

  lemma ClausesOfFour(opts: seq<OptColumn>)
    requires |opts| == 4
    ensures Clauses(opts) == ClauseOf(opts[0]) + ClauseOf(opts[1]) + ClauseOf(opts[2]) + ClauseOf(opts[3])
  {
    assert opts[3..][1..] == [];
    assert opts[2..][1..] == opts[3..];
    assert opts[1..][1..] == opts[2..];
    assert Clauses(opts[3..]) == ClauseOf(opts[3]);
    assert Clauses(opts[2..]) == ClauseOf(opts[2]) + Clauses(opts[3..]);
    assert Clauses(opts[1..]) == ClauseOf(opts[1]) + Clauses(opts[2..]);
  }

  lemma ParamsOfFour(opts: seq<OptColumn>)
    requires |opts| == 4
    ensures Params(opts) == ParamOf(opts[0]) + ParamOf(opts[1]) + ParamOf(opts[2]) + ParamOf(opts[3])
  {
    assert opts[3..][1..] == [];
    assert opts[2..][1..] == opts[3..];
    assert opts[1..][1..] == opts[2..];
    assert Params(opts[3..]) == ParamOf(opts[3]);
    assert Params(opts[2..]) == ParamOf(opts[2]) + Params(opts[3..]);
    assert Params(opts[1..]) == ParamOf(opts[1]) + Params(opts[2..]);
  }

  /** Options none of which is json-tagged keep no json-tagged column. */
  lemma {:induction false} PresentNoJson(opts: seq<OptColumn>)
    requires forall i :: 0 <= i < |opts| ==> opts[i].tag != Json
    ensures NoJsonTag(Present(opts))
  {
    if |opts| > 0 {
      PresentNoJson(opts[1..]);
    }
  }

  /** Present keeps no column exactly when every argument is None. */
  lemma {:induction false} PresentEmpty(opts: seq<OptColumn>)
    ensures Present(opts) == [] <==> forall i :: 0 <= i < |opts| ==> opts[i].value.None?
  {
    if |opts| > 0 {
      PresentEmpty(opts[1..]);
      assert forall i :: 1 <= i < |opts| ==> opts[i] == opts[1..][i - 1];
    }
  }

  /** Present keeps a column exactly when that argument is given, with the
      given value and tag. */
  lemma {:induction false} PresentMembers(opts: seq<OptColumn>)
    ensures forall c :: c in Present(opts) <==>
      exists i :: 0 <= i < |opts| && opts[i].value == Some(c.value) && opts[i].name == c.name && opts[i].tag == c.tag
  {
    if |opts| > 0 {
      PresentMembers(opts[1..]);
      var rest := Present(opts[1..]);
      forall c ensures c in rest <==>
        exists i :: 1 <= i < |opts| && opts[i].value == Some(c.value) && opts[i].name == c.name && opts[i].tag == c.tag
      {
        if c in rest {
          var j :| 0 <= j < |opts[1..]| && opts[1..][j].value == Some(c.value) && opts[1..][j].name == c.name && opts[1..][j].tag == c.tag;
          assert opts[j + 1] == opts[1..][j];
        }
        if exists i :: 1 <= i < |opts| && opts[i].value == Some(c.value) && opts[i].name == c.name && opts[i].tag == c.tag {
          var i :| 1 <= i < |opts| && opts[i].value == Some(c.value) && opts[i].name == c.name && opts[i].tag == c.tag;
          assert opts[1..][i - 1] == opts[i];
        }
      }
    }
  }

  predicate AllBindable(cols: seq<Column>)
  {
    forall k :: 0 <= k < |cols| ==> Bindable(cols[k].value)
  }

  predicate GivenBindable(opts: seq<OptColumn>)
  {
    forall i :: 0 <= i < |opts| && opts[i].value.Some? ==> Bindable(opts[i].value.value)
  }

  lemma AllBindableCons(c: Column, rest: seq<Column>)
    ensures AllBindable([c] + rest) <==> Bindable(c.value) && AllBindable(rest)
  {
    var all := [c] + rest;
    if AllBindable(all) {
      assert all[0] == c;
      forall k | 0 <= k < |rest| ensures Bindable(rest[k].value) {
        assert all[k + 1] == rest[k];
      }
    }
    if Bindable(c.value) && AllBindable(rest) {
      forall k | 0 <= k < |all| ensures Bindable(all[k].value) {
        if k > 0 { assert all[k] == rest[k - 1]; }
      }
    }
  }

  /** The parameters of an update, the kept values followed by the key, can
      all be bound exactly when the kept values can. */
  lemma RawWithKeyBindable(cols: seq<Column>, key: Value)
    requires Bindable(key)
    ensures var ps := RawValues(cols) + [key];
      (forall k :: 0 <= k < |ps| ==> Bindable(ps[k])) <==> AllBindable(cols)
  {
    var ps := RawValues(cols) + [key];
    assert forall k :: 0 <= k < |cols| ==> ps[k] == cols[k].value;
    assert ps[|cols|] == key;
  }

  /** Every kept value can be bound exactly when every given argument can. */
  lemma {:induction false} PresentBindable(opts: seq<OptColumn>)
    ensures AllBindable(Present(opts)) <==> GivenBindable(opts)
  {
    if |opts| > 0 {
      PresentBindable(opts[1..]);
      var rest := Present(opts[1..]);
      assert Present(opts) == Kept(opts[0]) + rest;
      assert forall i :: 1 <= i < |opts| ==> opts[i] == opts[1..][i - 1];
      assert GivenBindable(opts) <==>
        (opts[0].value.Some? ==> Bindable(opts[0].value.value)) && GivenBindable(opts[1..]);
      if opts[0].value.Some? {
        var c := Column(opts[0].name, opts[0].value.value, opts[0].tag);
        assert Present(opts) == [c] + rest;
        AllBindableCons(c, rest);
      } else {
        assert Present(opts) == rest;
      }
    }
  }

  /** The kept names stay in argument order. */
  lemma {:induction false} PresentOrder(opts: seq<OptColumn>)
    ensures IsSubsequence(Names(Present(opts)), OptNames(opts))
  {
    if |opts| > 0 {
      PresentOrder(opts[1..]);
      var rest := Present(opts[1..]);
      assert OptNames(opts) == [opts[0].name] + OptNames(opts[1..]);
      SubsequenceCons(opts[0].name, Names(rest), OptNames(opts[1..]));
      if opts[0].value.Some? {
        assert Names(Present(opts)) == [opts[0].name] + Names(rest);
      } else {
        assert Present(opts) == rest;
      }
    }
  }
}
