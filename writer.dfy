/** The per-table write path of `BaseDB`: the class-level queue and "worker
    started" flag, bootstrap, submission, the transaction of one write and the
    worker loop that drains the queue. One `TableWriter` object stands for
    the class-level state of one `BaseDB` subclass. */
module Writer {
  import opened Values
  import opened Sql
  import opened Codec
  import opened Statements

  /** A class attribute, as Python looks it up: absent from the class and
      all its bases, or declared with a value. */
  datatype Attr<T> = Undeclared | Declared(value: T)

  /** How a subclass declares the writer state. `BaseDB` itself declares
      neither `_queue` nor `_worker_started`. */
  datatype Layout =
    | Inherited   // nothing declared: what most entity classes do
    | LazyQueue   // `_queue = None`, `_worker_started = False`
    | EagerQueue  // `_queue = Queue()`, `_worker_started = False`

  /** The table's committed state: the statements committed so far, in
      commit order. The SQL engine itself is not modelled. */
  type Store = seq<SQLTask>

  /** Whether the engine accepts a statement against a given state
      (constraints, locks and disk errors are the engine's business). */
  type Engine = (Store, SQLTask) -> bool

  /** sqlite3 binds only None, int, bool and str parameters. */
  predicate ParamsBindable(task: SQLTask)
  {
    task.params.None? || forall k :: 0 <= k < |task.params.value| ==> Bindable(task.params.value[k])
  }

  /** Whether executing `task` against `store` goes through. */
  predicate Succeeds(store: Store, task: SQLTask, engine: Engine)
  {
    ParamsBindable(task) && engine(store, task)
  }

  /** An update built from optional arguments, none json-tagged, binds
      exactly when every given argument binds. */
  lemma UpdateParamsBindable(table: string, whereKey: string, whereVal: Value, opts: seq<OptColumn>, json: JsonCodec)
    requires forall i :: 0 <= i < |opts| ==> opts[i].tag != Json
    requires Bindable(whereVal)
    ensures ParamsBindable(UpdateTask(table, whereKey, whereVal, Present(opts), json)) <==> GivenBindable(opts)
  {
    var cols := Present(opts);
    PresentNoJson(opts);
    PackedPlain(cols, json);
    RawWithKeyBindable(cols, whereVal);
    PresentBindable(opts);
  }

  /** What draining a run of tasks leaves: the new state and the tasks that
      failed and were logged, in the order they were taken. */
  datatype Drained = Drained(store: Store, failed: seq<SQLTask>)

  /** The worker's reference behaviour: take tasks strictly in FIFO order;
      a task that succeeds is committed; one that fails leaves the state as
      it was, is logged, and the next task runs. */
  function Run(store: Store, tasks: seq<SQLTask>, engine: Engine): Drained
    decreases |tasks|
  {
    if |tasks| == 0 then Drained(store, [])
    else if Succeeds(store, tasks[0], engine) then Run(store + [tasks[0]], tasks[1..], engine)
    else
      var rest := Run(store, tasks[1..], engine);
      Drained(rest.store, [tasks[0]] + rest.failed)
  }

  /** Draining a + b is draining a, then draining b from where a left off. */
  lemma {:induction false} RunAppend(store: Store, a: seq<SQLTask>, b: seq<SQLTask>, engine: Engine)
    ensures var first := Run(store, a, engine);
      var second := Run(first.store, b, engine);
      Run(store, a + b, engine) == Drained(second.store, first.failed + second.failed)
    decreases |a|
  {
    if |a| == 0 {
      assert a + b == b;
    } else {
      assert (a + b)[0] == a[0];
      assert (a + b)[1..] == a[1..] + b;
      if Succeeds(store, a[0], engine) {
        RunAppend(store + [a[0]], a[1..], b, engine);
      } else {
        RunAppend(store, a[1..], b, engine);
      }
    }
  }

  /** Draining never rewrites what was committed before: the old state is a
      prefix of the new one. */
  lemma {:induction false} RunExtends(store: Store, tasks: seq<SQLTask>, engine: Engine)
    ensures |store| <= |Run(store, tasks, engine).store|
    ensures Run(store, tasks, engine).store[..|store|] == store
    decreases |tasks|
  {
    if |tasks| > 0 {
      if Succeeds(store, tasks[0], engine) {
        RunExtends(store + [tasks[0]], tasks[1..], engine);
        var after := Run(store, tasks, engine).store;
        assert after[..|store|] == after[..|store| + 1][..|store|];
      } else {
        RunExtends(store, tasks[1..], engine);
      }
    }
  }

  /** The tasks a drain commits, in commit order. */
  function Committed(store: Store, tasks: seq<SQLTask>, engine: Engine): seq<SQLTask>
  {
    RunExtends(store, tasks, engine);
    Run(store, tasks, engine).store[|store|..]
  }

  /** Every queued task is either committed or logged, never both and never
      lost: together they are exactly the queued tasks. */
  lemma {:induction false} RunConserves(store: Store, tasks: seq<SQLTask>, engine: Engine)
    ensures Run(store, tasks, engine).store == store + Committed(store, tasks, engine)
    ensures multiset(Committed(store, tasks, engine)) + multiset(Run(store, tasks, engine).failed) == multiset(tasks)
    decreases |tasks|
  {
    RunExtends(store, tasks, engine);
    var o := Run(store, tasks, engine);
    assert o.store == o.store[..|store|] + o.store[|store|..];
    if |tasks| > 0 {
      var t := tasks[0];
      assert tasks == [t] + tasks[1..];
      if Succeeds(store, t, engine) {
        RunConserves(store + [t], tasks[1..], engine);
        assert Committed(store, tasks, engine) == [t] + Committed(store + [t], tasks[1..], engine);
      } else {
        RunConserves(store, tasks[1..], engine);
        assert Committed(store, tasks, engine) == Committed(store, tasks[1..], engine);
      }
    }
  }

  /** The worker keeps FIFO order: the committed tasks and the logged ones
      each appear in the order they were queued. */
  lemma {:induction false} RunKeepsOrder(store: Store, tasks: seq<SQLTask>, engine: Engine)
    ensures IsSubsequence(Committed(store, tasks, engine), tasks)
    ensures IsSubsequence(Run(store, tasks, engine).failed, tasks)
    decreases |tasks|
  {
    if |tasks| > 0 {
      var t := tasks[0];
      assert tasks == [t] + tasks[1..];
      RunKeepsOrder(store + [t], tasks[1..], engine);
      RunKeepsOrder(store, tasks[1..], engine);
      if Succeeds(store, t, engine) {
        RunExtends(store + [t], tasks[1..], engine);
        assert Committed(store, tasks, engine) == [t] + Committed(store + [t], tasks[1..], engine);
        SubsequenceCons(t, Committed(store + [t], tasks[1..], engine), tasks[1..]);
        SubsequenceCons(t, Run(store + [t], tasks[1..], engine).failed, tasks[1..]);
      } else {
        assert Committed(store, tasks, engine) == Committed(store, tasks[1..], engine);
        SubsequenceCons(t, Committed(store, tasks[1..], engine), tasks[1..]);
        SubsequenceCons(t, Run(store, tasks[1..], engine).failed, tasks[1..]);
      }
    }
  }

  /** A failing task is dropped without effect: the state after the whole
      run is the state had it never been queued, and the tasks after it all
      still run. */
  lemma FailedTaskIsSkipped(store: Store, a: seq<SQLTask>, t: SQLTask, b: seq<SQLTask>, engine: Engine)
    requires !Succeeds(Run(store, a, engine).store, t, engine)
    ensures Run(store, a + [t] + b, engine).store == Run(store, a + b, engine).store
    ensures Run(store, a + [t] + b, engine).failed ==
      Run(store, a, engine).failed + [t] + Run(Run(store, a, engine).store, b, engine).failed
  {
    var first := Run(store, a, engine);
    var rest := Run(first.store, b, engine);
    var tb := [t] + b;
    assert tb[0] == t && tb[1..] == b;
    assert Run(first.store, tb, engine) == Drained(rest.store, [t] + rest.failed);
    assert a + [t] + b == a + tb;
    RunAppend(store, a, tb, engine);
    RunAppend(store, a, b, engine);
    assert first.failed + ([t] + rest.failed) == first.failed + [t] + rest.failed;
  }

  /** When the engine accepts every task, the drained state is exactly the
      old state followed by every task in submission order. */
  lemma {:induction false} RunAllAccepted(store: Store, tasks: seq<SQLTask>, engine: Engine)
    requires forall s: Store, k :: 0 <= k < |tasks| ==> Succeeds(s, tasks[k], engine)
    ensures Run(store, tasks, engine) == Drained(store + tasks, [])
    decreases |tasks|
  {
    if |tasks| > 0 {
      assert Succeeds(store, tasks[0], engine);
      RunAllAccepted(store + [tasks[0]], tasks[1..], engine);
      assert store + [tasks[0]] + tasks[1..] == store + tasks;
    }
  }

  // ---------------------------------------------------------------------

  class TableWriter {
    const dbName: string
    const json: JsonCodec
    var queueAttr: Attr<Option<seq<SQLTask>>>  // `cls._queue`
    var startedAttr: Attr<bool>                 // `cls._worker_started`
    var workers: nat                            // worker threads started for this class
    var store: Store                            // what the table file holds
    ghost var failures: seq<SQLTask>            // the tasks logged as failed

    /** At most one worker; a worker exists exactly when the flag is set and
        the queue it drains exists. */
    ghost predicate Valid()
      reads this
    {
      && workers <= 1
      && (workers == 1 ==> startedAttr == Declared(true) && queueAttr.Declared? && queueAttr.value.Some?)
      && (startedAttr == Declared(true) && queueAttr.Declared? ==> workers == 1)
    }

    /** The queued tasks (none while the queue does not exist). */
    function Queue(): seq<SQLTask>
      reads this
    {
      if queueAttr.Declared? && queueAttr.value.Some? then queueAttr.value.value else []
    }

    constructor (dbName: string, layout: Layout, json: JsonCodec)
      ensures Valid()
      ensures this.dbName == dbName && this.json == json
      ensures layout.Inherited? ==> queueAttr == Undeclared && startedAttr == Undeclared
      ensures layout.LazyQueue? ==> queueAttr == Declared(None) && startedAttr == Declared(false)
      ensures layout.EagerQueue? ==> queueAttr == Declared(Some([])) && startedAttr == Declared(false)
      ensures workers == 0 && store == [] && failures == [] && Queue() == []
    {
      this.dbName := dbName;
      this.json := json;
      match layout {
        case Inherited => queueAttr, startedAttr := Undeclared, Undeclared;
        case LazyQueue => queueAttr, startedAttr := Declared(None), Declared(false);
        case EagerQueue => queueAttr, startedAttr := Declared(Some([])), Declared(false);
      }
      workers := 0;
      store := [];
      failures := [];
    }

    /** `_get_queue`: create the queue when it is None, and from then on
        hand back that same queue. */
    method GetQueue() returns (r: Result<seq<SQLTask>>)
      modifies this
      ensures old(Valid()) ==> Valid()
      ensures old(queueAttr).Undeclared? ==> r == Err(AttributeError("_queue")) && queueAttr == old(queueAttr)
      ensures old(queueAttr) == Declared(None) ==> queueAttr == Declared(Some([])) && r == Ok([])
      ensures old(queueAttr).Declared? && old(queueAttr).value.Some? ==>
        queueAttr == old(queueAttr) && r == Ok(old(queueAttr).value.value)
      ensures r.Ok? ==> queueAttr == Declared(Some(r.value)) && Queue() == old(Queue())
      ensures startedAttr == old(startedAttr) && workers == old(workers)
      ensures store == old(store) && failures == old(failures)
    {
      match queueAttr {
        case Undeclared =>
          r := Err(AttributeError("_queue"));
        case Declared(q) =>
          if q.None? {
            queueAttr := Declared(Some([]));
          }
          r := Ok(queueAttr.value.value);
      }
    }

    /** `_start_worker`: the first call sets the flag and starts the one
        worker; later calls return at once, so there is never a second
        worker. The flag is read before anything is set. */
    method StartWorker() returns (r: Completion)
      requires Valid()
      modifies this
      ensures Valid()
      ensures old(startedAttr).Undeclared? ==> r == Raised(AttributeError("_worker_started"))
      ensures old(startedAttr).Undeclared? || old(startedAttr) == Declared(true) ==>
        queueAttr == old(queueAttr) && startedAttr == old(startedAttr) && workers == old(workers)
      ensures old(startedAttr) == Declared(true) ==> r == Returned
      ensures old(startedAttr) == Declared(false) ==> startedAttr == Declared(true)
      ensures old(startedAttr) == Declared(false) && old(queueAttr).Undeclared? ==>
        r == Raised(AttributeError("_queue")) && workers == 0
      ensures old(startedAttr) == Declared(false) && old(queueAttr).Declared? ==> r == Returned && workers == 1
      ensures old(startedAttr).Declared? && old(queueAttr).Declared? ==>
        queueAttr.Declared? && queueAttr.value.Some? && Queue() == old(Queue())
      ensures old(queueAttr).Undeclared? ==> queueAttr == old(queueAttr)
      ensures r.Raised? <==> old(startedAttr).Undeclared? || (old(startedAttr) == Declared(false) && old(queueAttr).Undeclared?)
      ensures r.Returned? ==> startedAttr == Declared(true)
      ensures r.Raised? ==> workers == old(workers)
      ensures workers == old(workers) || (old(workers) == 0 && workers == 1)
      ensures store == old(store) && failures == old(failures)
    {
      match startedAttr {
        case Undeclared =>
          r := Raised(AttributeError("_worker_started"));
          return;
        case Declared(started) =>
          if started {
            r := Returned;
            return;
          }
      }
      startedAttr := Declared(true);
      var q := GetQueue();
      if q.Err? {
        r := Raised(q.error);
        return;
      }
      workers := workers + 1;  // Thread(target=worker, daemon=True).start()
      r := Returned;
    }

    /** `_init_db`: start the worker, then queue the bootstrap tasks in list
        order, behind whatever is already queued. */
    method InitDb(tasks: seq<SQLTask>) returns (r: Completion)
      requires Valid()
      modifies this
      ensures Valid()
      ensures r.Returned? <==> old(startedAttr).Declared? && old(queueAttr).Declared?
      ensures old(startedAttr).Undeclared? ==> r == Raised(AttributeError("_worker_started"))
      ensures old(startedAttr).Declared? && old(queueAttr).Undeclared? ==> r == Raised(AttributeError("_queue"))
      ensures r.Returned? ==> workers == 1 && Queue() == old(Queue()) + tasks
      ensures r.Raised? ==> queueAttr == old(queueAttr) && workers == old(workers)
      ensures store == old(store) && failures == old(failures)
    {
      r := StartWorker();
      if r.Raised? {
        return;
      }
      var q := GetQueue();
      if q.Err? {
        r := Raised(q.error);
        return;
      }
      var queue := q.value;
      assert queue + tasks[..0] == queue;
      for i := 0 to |tasks|
        invariant Valid() && workers == 1
        invariant queueAttr == Declared(Some(queue + tasks[..i]))
        invariant store == old(store) && failures == old(failures)
      {
        assert queue + tasks[..i + 1] == queue + tasks[..i] + [tasks[i]];
        queueAttr := Declared(Some(queue + tasks[..i] + [tasks[i]]));  // queue.put(task)
      }
      assert tasks[..|tasks|] == tasks;
    }

    /** `_init_from_spec`: bootstrap with the table's compiled statements. */
    method InitFromSpec(spec: TableSpec) returns (r: Completion)
      requires Valid()
      modifies this
      ensures Valid()
      ensures r.Returned? <==> old(startedAttr).Declared? && old(queueAttr).Declared?
      ensures old(startedAttr).Undeclared? ==> r == Raised(AttributeError("_worker_started"))
      ensures r.Returned? ==> workers == 1 && Queue() == old(Queue()) + Bootstrap(spec)
      ensures r.Raised? ==> queueAttr == old(queueAttr) && workers == old(workers)
      ensures store == old(store) && failures == old(failures)
    {
      var tasks := SqlTasks(spec);
      r := InitDb(tasks);
    }

    /** `submit_write`: append to the queue and return at once. */
    method SubmitWrite(task: SQLTask) returns (r: Completion)
      requires Valid()
      modifies this
      ensures Valid()
      ensures r == (if old(queueAttr).Undeclared? then Raised(AttributeError("_queue")) else Returned)
      ensures r.Returned? ==> Queue() == old(Queue()) + [task]
      ensures r.Raised? ==> queueAttr == old(queueAttr)
      ensures startedAttr == old(startedAttr) && workers == old(workers)
      ensures store == old(store) && failures == old(failures)
    {
      var q := GetQueue();
      if q.Err? {
        r := Raised(q.error);
        return;
      }
      queueAttr := Declared(Some(q.value + [task]));
      r := Returned;
    }

    /** `cls.write(task)`: BaseDB defines no `write`, so the attribute lookup
        raises before anything is queued. */
    method Write(task: SQLTask) returns (r: Completion)
      ensures r == Raised(AttributeError("write"))
    {
      r := Raised(AttributeError("write"));
    }

    /** `_insert`: submit the INSERT built from the columns. */
    method Insert(cols: seq<Column>) returns (r: Completion)
      requires Valid()
      modifies this
      ensures Valid()
      ensures r == (if old(queueAttr).Undeclared? then Raised(AttributeError("_queue")) else Returned)
      ensures r.Returned? ==> Queue() == old(Queue()) + [InsertTask(dbName, cols, json)]
      ensures r.Raised? ==> queueAttr == old(queueAttr)
      ensures startedAttr == old(startedAttr) && workers == old(workers)
      ensures store == old(store) && failures == old(failures)
    {
      var task := BuildInsert(dbName, cols, json);
      r := SubmitWrite(task);
    }

    /** `_update`: submit the UPDATE built from the columns and `where`. */
    method Update(whereKey: string, whereVal: Value, cols: seq<Column>) returns (r: Completion)
      requires Valid()
      modifies this
      ensures Valid()
      ensures r == (if old(queueAttr).Undeclared? then Raised(AttributeError("_queue")) else Returned)
      ensures r.Returned? ==> Queue() == old(Queue()) + [UpdateTask(dbName, whereKey, whereVal, cols, json)]
      ensures r.Raised? ==> queueAttr == old(queueAttr)
      ensures startedAttr == old(startedAttr) && workers == old(workers)
      ensures store == old(store) && failures == old(failures)
    {
      var task := BuildUpdate(dbName, whereKey, whereVal, cols, json);
      r := SubmitWrite(task);
    }

    /** `_delete`: submit one DELETE keyed on `where`. */
    method Delete(whereKey: string, whereVal: Value) returns (r: Completion)
      requires Valid()
      modifies this
      ensures Valid()
      ensures r == (if old(queueAttr).Undeclared? then Raised(AttributeError("_queue")) else Returned)
      ensures r.Returned? ==> Queue() == old(Queue()) + [DeleteTask(dbName, whereKey, whereVal)]
      ensures r.Raised? ==> queueAttr == old(queueAttr)
      ensures startedAttr == old(startedAttr) && workers == old(workers)
      ensures store == old(store) && failures == old(failures)
    {
      r := SubmitWrite(DeleteTask(dbName, whereKey, whereVal));
    }

    /** `_execute_write`: BEGIN, execute, COMMIT; on failure ROLLBACK and
        re-raise. The state is either committed with the task or unchanged. */
    method ExecuteWrite(task: SQLTask, engine: Engine) returns (raised: bool)
      modifies this`store
      ensures raised <==> !Succeeds(old(store), task, engine)
      ensures store == if raised then old(store) else old(store) + [task]
    {
      var before := store;          // BEGIN
      if Succeeds(store, task, engine) {
        store := store + [task];    // execute, COMMIT
        raised := false;
      } else {
        store := before;            // ROLLBACK, then raise
        raised := true;
      }
    }

    /** One turn of the worker loop: take the head of the queue, execute it,
        log it if it raised, and go on. */
    method WorkerStep(engine: Engine)
      requires Valid() && workers == 1 && Queue() != []
      modifies this
      ensures Valid() && workers == 1 && startedAttr == old(startedAttr)
      ensures Queue() == old(Queue())[1..]
      ensures var o := Run(old(store), old(Queue())[..1], engine);
        store == o.store && failures == old(failures) + o.failed
    {
      var pending := queueAttr.value.value;
      var task := pending[0];                   // queue.get()
      queueAttr := Declared(Some(pending[1..]));
      var raised := ExecuteWrite(task, engine);
      if raised {
        failures := failures + [task];          // logging.exception(...)
      }
      assert pending[..1] == [task] && [task][1..] == [];
    }

    /** The worker loop run until the queue is empty: the resulting state and
        log are those of the reference behaviour Run over the queued tasks. */
    method Drain(engine: Engine)
      requires Valid() && workers == 1
      modifies this
      ensures Valid() && workers == 1 && startedAttr == old(startedAttr)
      ensures Queue() == []
      ensures var o := Run(old(store), old(Queue()), engine);
        store == o.store && failures == old(failures) + o.failed
    {
      ghost var pending := Queue();
      ghost var i := 0;
      while Queue() != []
        invariant Valid() && workers == 1 && startedAttr == old(startedAttr)
        invariant 0 <= i <= |pending| && Queue() == pending[i..]
        invariant var o := Run(old(store), pending[..i], engine);
          store == o.store && failures == old(failures) + o.failed
        decreases |Queue()|
      {
        RunAppend(old(store), pending[..i], [pending[i]], engine);
        assert pending[..i + 1] == pending[..i] + [pending[i]];
        assert Queue()[..1] == [pending[i]];
        WorkerStep(engine);
        i := i + 1;
      }
      assert pending[..i] == pending;
    }
  }

  // ---------------------------------------------------------------------
  // Bootstrapping a class, from a fresh process

  /** A class that declares no writer state (BaseDB declares none): its
      bootstrap raises AttributeError on `_worker_started` and queues
      nothing. */
  method SetUpInherited(spec: TableSpec, json: JsonCodec) returns (r: Completion, queued: seq<SQLTask>, workers: nat)
    ensures r == Raised(AttributeError("_worker_started"))
    ensures queued == [] && workers == 0
  {
    var w := new TableWriter(spec.name, Inherited, json);
    r := w.InitFromSpec(spec);
    queued := w.Queue();
    workers := w.workers;
  }

  /** A class that declares `_queue` and `_worker_started`: bootstrap starts
      exactly one worker and queues the compiled statements. */
  method SetUpDeclared(spec: TableSpec, layout: Layout, json: JsonCodec) returns (r: Completion, queued: seq<SQLTask>, workers: nat)
    requires !layout.Inherited?
    ensures r == Returned && queued == Bootstrap(spec) && workers == 1
  {
    var w := new TableWriter(spec.name, layout, json);
    r := w.InitFromSpec(spec);
    queued := w.Queue();
    workers := w.workers;
  }

  /** Bootstrapping twice keeps a single worker and queues the (idempotent)
      statements twice, the second copy behind the first. */
  method SetUpTwice(spec: TableSpec, layout: Layout, json: JsonCodec) returns (r1: Completion, r2: Completion, queued: seq<SQLTask>, workers: nat)
    requires !layout.Inherited?
    ensures r1 == Returned && r2 == Returned
    ensures queued == Bootstrap(spec) + Bootstrap(spec) && workers == 1
  {
    var w := new TableWriter(spec.name, layout, json);
    r1 := w.InitFromSpec(spec);
    r2 := w.InitFromSpec(spec);
    queued := w.Queue();
    workers := w.workers;
  }
}
