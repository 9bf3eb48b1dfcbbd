/** Statements as values (SQLTask), the table-schema descriptor (TableSpec)
    and the statement texts the persistence core builds. */
module Sql {
  import opened Values

  /** An immutable unit of work: statement text and its bound parameters
      (`None` when the statement has no parameters). */
  datatype SQLTask = SQLTask(sql: string, params: Option<seq<Value>>)

  /** A table's name, its column definitions and its index statements. */
  datatype TableSpec = TableSpec(name: string, columns: seq<string>, indexes: seq<string>)

  /** `sep.join(parts)`. */
  function Join(parts: seq<string>, sep: string): string
  {
    if |parts| == 0 then ""
    else if |parts| == 1 then parts[0]
    else parts[0] + sep + Join(parts[1..], sep)
  }

  /** `", ".join("?" * n)`: joining a string joins its characters. */
  function Placeholders(n: nat): string
  {
    Join(Marks(n), ", ")
  }

  /** `"?" * n`, as the strings a join iterates over. */
  function Marks(n: nat): (r: seq<string>)
    ensures |r| == n
  {
    seq(n, _ => "?")
  }

  function CreateTableSql(name: string, columns: seq<string>): string
  {
    "CREATE TABLE IF NOT EXISTS " + name + " (" + Join(columns, ", ") + ");"
  }

  function InsertSql(table: string, keys: seq<string>, n: nat): string
  {
    "INSERT INTO " + table + " (" + Join(keys, ", ") + ") VALUES (" + Placeholders(n) + ")"
  }

  /** The `k = ?` clauses of an UPDATE, one per column, in column order. */
  function SetClauses(keys: seq<string>): (r: seq<string>)
    ensures |r| == |keys|
  {
    seq(|keys|, i requires 0 <= i < |keys| => keys[i] + " = ?")
  }

  function UpdateSql(table: string, keys: seq<string>, whereKey: string): string
  {
    "UPDATE " + table + " SET " + Join(SetClauses(keys), ", ") + " WHERE " + whereKey + " = ?"
  }

  function DeleteSql(table: string, whereKey: string): string
  {
    "DELETE FROM " + table + " WHERE " + whereKey + " = ?"
  }

  function SelectSql(table: string, fields: seq<string>, whereKey: string): string
  {
    "SELECT " + Join(fields, ", ") + " FROM " + table + " WHERE " + whereKey + " = ?"
  }

  /** The bootstrap statements of a table, as a list. */
  function Bootstrap(spec: TableSpec): seq<SQLTask>
  {
    [SQLTask(CreateTableSql(spec.name, spec.columns), None)]
      + seq(|spec.indexes|, i requires 0 <= i < |spec.indexes| => SQLTask(spec.indexes[i], None))
  }

  /** `TableSpec.sql_tasks`: the idempotent CREATE TABLE first, then every
      index statement in its declared order, none of them with parameters. */
  method SqlTasks(spec: TableSpec) returns (tasks: seq<SQLTask>)
    ensures |tasks| == 1 + |spec.indexes|
    ensures tasks[0] == SQLTask("CREATE TABLE IF NOT EXISTS " + spec.name + " (" + Join(spec.columns, ", ") + ");", None)
    ensures forall i :: 0 <= i < |spec.indexes| ==> tasks[i + 1] == SQLTask(spec.indexes[i], None)
    ensures forall t :: t in tasks ==> t.params.None?
    ensures tasks == Bootstrap(spec)
  {
    tasks := [SQLTask(CreateTableSql(spec.name, spec.columns), None)];
    for i := 0 to |spec.indexes|
      invariant |tasks| == 1 + i
      invariant tasks[0] == SQLTask(CreateTableSql(spec.name, spec.columns), None)
      invariant forall k :: 0 <= k < i ==> tasks[k + 1] == SQLTask(spec.indexes[k], None)
      invariant forall t :: t in tasks ==> t.params.None?
    {
      tasks := tasks + [SQLTask(spec.indexes[i], None)];
    }
  }

  // ---------------------------------------------------------------------
  // Counting placeholders

  /** Number of occurrences of c in s. */
  function Count(c: char, s: string): nat
  {
    if |s| == 0 then 0
    else (if s[0] == c then 1 else 0) + Count(c, s[1..])
  }

  /** s contains no `?`, so it contributes no placeholder. */
  predicate NoMark(s: string)
  {
    forall i :: 0 <= i < |s| ==> s[i] != '?'
  }

  lemma {:induction false} NoMarkCount(s: string)
    requires NoMark(s)
    ensures Count('?', s) == 0
  {
    if |s| > 0 {
      NoMarkCount(s[1..]);
    }
  }

  lemma {:induction false} CountConcat(c: char, a: string, b: string)
    ensures Count(c, a + b) == Count(c, a) + Count(c, b)
  {
    if |a| == 0 {
      assert a + b == b;
    } else {
      assert (a + b)[1..] == a[1..] + b;
      CountConcat(c, a[1..], b);
    }
  }

  /** Text without `?` on both sides of a join stays without `?`. */
  lemma NoMarkConcat(a: string, b: string)
    requires NoMark(a) && NoMark(b)
    ensures NoMark(a + b)
  {
    forall i | 0 <= i < |a + b| ensures (a + b)[i] != '?' {
      if i < |a| {
        assert (a + b)[i] == a[i];
      } else {
        assert (a + b)[i] == b[i - |a|];
      }
    }
  }

  lemma {:induction false} NoMarkJoin(parts: seq<string>, sep: string)
    requires NoMark(sep)
    requires forall i :: 0 <= i < |parts| ==> NoMark(parts[i])
    ensures NoMark(Join(parts, sep))
  {
    if |parts| > 1 {
      var rest := parts[1..];
      forall i | 0 <= i < |rest| ensures NoMark(rest[i]) {
        assert rest[i] == parts[i + 1];
      }
      NoMarkJoin(rest, sep);
      NoMarkConcat(parts[0], sep);
      NoMarkConcat(parts[0] + sep, Join(rest, sep));
    }
  }

  /** A prefix without `?` adds no placeholder. */
  lemma CountBefore(a: string, m: string)
    requires NoMark(a)
    ensures Count('?', a + m) == Count('?', m)
  {
    NoMarkCount(a);
    CountConcat('?', a, m);
  }

  /** A suffix without `?` adds no placeholder. */
  lemma CountAfter(m: string, b: string)
    requires NoMark(b)
    ensures Count('?', m + b) == Count('?', m)
  {
    NoMarkCount(b);
    CountConcat('?', m, b);
  }

  /** The ` = ?` that closes a clause holds one placeholder. */
  lemma ClauseMark(m: string)
    ensures Count('?', m + " = ?") == Count('?', m) + 1
  {
    assert Count('?', " = ?") == 1;
    CountConcat('?', m, " = ?");
  }

  /** A separator without c, and parts with one occurrence each: the joined
      text has one occurrence per part. */
  lemma {:induction false} JoinCount(c: char, parts: seq<string>, sep: string)
    requires Count(c, sep) == 0
    requires forall i :: 0 <= i < |parts| ==> Count(c, parts[i]) == 1
    ensures Count(c, Join(parts, sep)) == |parts|
  {
    if |parts| == 1 {
      assert Join(parts, sep) == parts[0];
    } else if |parts| > 1 {
      var rest := parts[1..];
      forall i | 0 <= i < |rest| ensures Count(c, rest[i]) == 1 {
        assert rest[i] == parts[i + 1];
      }
      JoinCount(c, rest, sep);
      assert Join(parts, sep) == parts[0] + sep + Join(rest, sep);
      CountConcat(c, parts[0] + sep, Join(rest, sep));
      CountConcat(c, parts[0], sep);
    }
  }

  lemma PlaceholderCount(n: nat)
    ensures Count('?', Placeholders(n)) == n
  {
    assert Count('?', "?") == 1;
    NoMarkCount(", ");
    JoinCount('?', Marks(n), ", ");
  }

  /** Names without `?` joined by a comma hold none. */
  lemma NamesNoMark(names: seq<string>)
    requires forall k :: k in names ==> NoMark(k)
    ensures NoMark(Join(names, ", "))
  {
    forall i | 0 <= i < |names| ensures NoMark(names[i]) {
      assert names[i] in names;
    }
    NoMarkJoin(names, ", ");
  }

  /** The INSERT statement holds exactly one `?` per value, provided the
      table and column names hold none. */
  lemma InsertPlaceholders(table: string, keys: seq<string>, n: nat)
    requires NoMark(table)
    requires forall k :: k in keys ==> NoMark(k)
    ensures Count('?', InsertSql(table, keys, n)) == n
  {
    var j := Join(keys, ", ");
    NamesNoMark(keys);
    NoMarkConcat("INSERT INTO ", table);
    NoMarkConcat("INSERT INTO " + table, " (");
    NoMarkConcat("INSERT INTO " + table + " (", j);
    NoMarkConcat("INSERT INTO " + table + " (" + j, ") VALUES (");
    var head := "INSERT INTO " + table + " (" + j + ") VALUES (";
    PlaceholderCount(n);
    CountBefore(head, Placeholders(n));
    CountAfter(head + Placeholders(n), ")");
  }

  /** The UPDATE statement holds one `?` per SET column plus the one of the
      WHERE clause, provided the names hold none. */
  lemma UpdatePlaceholders(table: string, keys: seq<string>, whereKey: string)
    requires NoMark(table) && NoMark(whereKey)
    requires forall k :: k in keys ==> NoMark(k)
    ensures Count('?', UpdateSql(table, keys, whereKey)) == |keys| + 1
  {
    var clauses := SetClauses(keys);
    var j := Join(clauses, ", ");
    assert Count('?', j) == |keys| by {
      forall i | 0 <= i < |clauses| ensures Count('?', clauses[i]) == 1 {
        assert keys[i] in keys;
        NoMarkCount(keys[i]);
        ClauseMark(keys[i]);
      }
      NoMarkCount(", ");
      JoinCount('?', clauses, ", ");
    }
    NoMarkConcat("UPDATE ", table);
    NoMarkConcat("UPDATE " + table, " SET ");
    var head := "UPDATE " + table + " SET ";
    CountBefore(head, j);
    CountAfter(head + j, " WHERE ");
    CountAfter(head + j + " WHERE ", whereKey);
    ClauseMark(head + j + " WHERE " + whereKey);
  }

  /** A `WHERE k = ?` tail adds exactly one `?` to a statement. */
  lemma WhereTailCount(prefix: string, whereKey: string)
    requires NoMark(whereKey)
    ensures Count('?', prefix + " WHERE " + whereKey + " = ?") == Count('?', prefix) + 1
  {
    CountAfter(prefix, " WHERE ");
    CountAfter(prefix + " WHERE ", whereKey);
    ClauseMark(prefix + " WHERE " + whereKey);
  }

  /** DELETE ... WHERE k = ? holds exactly one `?`. */
  lemma DeletePlaceholders(table: string, whereKey: string)
    requires NoMark(table) && NoMark(whereKey)
    ensures Count('?', DeleteSql(table, whereKey)) == 1
  {
    NoMarkConcat("DELETE FROM ", table);
    NoMarkCount("DELETE FROM " + table);
    WhereTailCount("DELETE FROM " + table, whereKey);
  }

  /** SELECT f1, ... FROM t WHERE k = ? holds exactly one `?`. */
  lemma SelectPlaceholders(table: string, fields: seq<string>, whereKey: string)
    requires NoMark(table) && NoMark(whereKey)
    requires forall k :: k in fields ==> NoMark(k)
    ensures Count('?', SelectSql(table, fields, whereKey)) == 1
  {
    var j := Join(fields, ", ");
    NamesNoMark(fields);
    NoMarkConcat("SELECT ", j);
    NoMarkConcat("SELECT " + j, " FROM ");
    NoMarkConcat("SELECT " + j + " FROM ", table);
    var head := "SELECT " + j + " FROM " + table;
    NoMarkCount(head);
    WhereTailCount(head, whereKey);
  }
}
