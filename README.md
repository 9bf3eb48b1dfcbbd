# Persistence core of the S-P-F-Base databases, in Dafny

The Python package `db_control` keeps one SQLite file per entity. Every
entity class inherits from `BaseDB`, which provides the following:

- **Bootstrapping.** A `TableSpec` compiles into `SQLTask` values (statement
  text plus parameters): one idempotent `CREATE TABLE` and then the index
  statements. They go on the class's write queue.
- **A single writer per class.** `_start_worker` sets a flag and starts one
  thread. That thread takes tasks from the class queue in FIFO order and
  executes each one in its own transaction (BEGIN, execute, COMMIT, or
  ROLLBACK on failure). A failing task is logged and skipped.
- **Statement builders.** `_insert`, `_update` and `_delete` turn keyword
  columns `name=(value, tag)` into an `SQLTask` and submit it. `_get` runs a
  SELECT and maps the row back into a dict.
- **A value codec.** `_pack` JSON-encodes under the `json` tag and passes
  everything else through. `_unpack` JSON-decodes, applies the tag as a
  constructor (`int`, `str`, `bool`, `list`, `dict`), or returns the raw cell.

Five entity modules sit on top of this:

- `TimedLimitDB` and `PermaLimitDB` write hand-built statements and read rows
  directly.
- `PlayerCharDB`, `CredentialsDB` and `AccessDB` go through the generic
  builders.

## How the project is laid out

| file | module | models |
|---|---|---|
| `values.dfy` | `Values` | Python values, SQLite cells, sqlite3 parameter binding, dict records |
| `sql.dfy` | `Sql` | `SQLTask`, `TableSpec.sql_tasks`, the statement texts, and placeholder counts |
| `codec.dfy` | `Codec` | `_pack`, `_unpack`, `str(int)` / `int(str)` |
| `statements.dfy` | `Statements` | `_insert`, `_update`, `_delete`, `_get`, and the optional-column blocks of the entity updates |
| `writer.dfy` | `Writer` | the class-level queue and worker (`TableWriter`), `_execute_write`, and the reference FIFO run `Run` |
| `timed_limit.dfy` | `TimedLimit` | `TimedLimitDB` |
| `perma_limit.dfy` | `PermaLimit` | `PermaLimitDB` |
| `player_char.dfy` | `PlayerChar` | `PlayerCharDB` |
| `credentials.dfy` | `Credentials` | `CredentialsDB` |
| `access.dfy` | `Access` | `AccessDB` |

### How the class-level writer is modelled

`Writer.TableWriter` holds the state `BaseDB` keeps on each class:

- `queueAttr` is `cls._queue` and `startedAttr` is `cls._worker_started`.
  Each is either `Undeclared`, where reading it raises AttributeError, or
  `Declared(value)`.
- `workers` counts the worker threads started.
- `store` is the sequence of statements committed to the table file.
- `failures` (ghost) is the sequence of tasks the worker logged as failed.

The SQL engine is a parameter `Engine`, a predicate telling whether a
statement goes through against a given committed state. A task also fails
whenever sqlite3 cannot bind one of its parameters (a list or a dict). The
worker loop (`WorkerStep`, `Drain`) is proved to leave exactly the state and
log of the reference function `Run`. `Run`'s own properties are proved as
lemmas:

- the old state is a prefix of the new one;
- every task is either committed or logged, never both and never twice;
- both kinds keep the queue order;
- a failed task changes nothing.

### What the entity modules show

- **`TimedLimitDB` and `PermaLimitDB`** call `cls.write`. Neither they nor
  `BaseDB` define `write`, so every create, every non-empty update and every
  delete raises AttributeError. This is modelled as written
  (`…AsWritten`) and as evidently intended, through `submit_write`.
- **`PlayerCharDB`** passes `content_ids` with the `list` tag and
  **`AccessDB`** passes `data` with the `dict` tag. As written, their
  `create` raises AttributeError on `_queue` before anything is queued,
  because no class declares `_queue` or `_worker_started` (the first
  finding). Once both attributes are declared, `_pack` leaves the list or
  dict unencoded, sqlite3 cannot bind it, and the worker logs and drops
  the write. The model keeps the tags as written and proves that those
  writes never commit. It also proves that the `json` tag would bind and
  read back, which needs the `json` tag on the matching `get` too: as
  written, `PlayerCharDB.get` reads `content_ids` with `list` (giving the
  characters of the text) and `AccessDB.get` reads `data` with `dict`
  (which raises ValueError on JSON text).
- **Reads.**
  - `_unpack` applies `str` to a NULL cell and gives the string `"None"`.
  - It applies `int` to NULL and raises TypeError. So a character without a
    game id cannot be read.
  - `dict` of any non-empty text raises ValueError.

## Model

| member | source | states |
|---|---|---|
| Sql.SqlTasks | db_control/base_db.py:27-37 | the CREATE TABLE IF NOT EXISTS over the joined column definitions comes first, then one task per index statement in list order, all without parameters |
| Sql.PlaceholderCount | db_control/base_db.py:154 | `", ".join("?" * n)` holds exactly n placeholders |
| Sql.InsertPlaceholders | db_control/base_db.py:154 | an INSERT over column names without `?` holds exactly one `?` per value |
| Sql.UpdatePlaceholders | db_control/base_db.py:169 | an UPDATE holds one `?` per SET column plus the one of its WHERE |
| Sql.DeletePlaceholders | db_control/base_db.py:193-198 | a DELETE holds exactly one `?` |
| Sql.SelectPlaceholders | db_control/base_db.py:177-182 | the SELECT of `_get` holds exactly one `?` |
| Codec.Pack | db_control/base_db.py:117-122 | under the json tag the result is a bindable string; under any other tag the value is unchanged |
| Codec.JsonRoundTrip | db_control/base_db.py:117-129 | under the json tag any value, containers included, is stored as text and decoded back to itself by a lawful codec |
| Codec.ScalarRoundTrip | db_control/base_db.py:124-129 | int, str and bool values stored under their own tag read back unchanged, and `int(str(i)) == i` |
| Codec.DecimalRoundTrip | db_control/base_db.py:129 | parsing the decimal text of an integer gives the integer back |
| Codec.ContainersStayUnencoded | db_control/base_db.py:117-122 | a list or dict under a tag other than json is passed through and cannot be bound |
| Codec.UnpackOfNull | db_control/base_db.py:124-129 | NULL reads as "None" under str and as False under bool, stays None without a tag, and raises TypeError under int, list, dict and json |
| Codec.BoolOfInteger | db_control/base_db.py:129 | under bool an integer cell reads False exactly when it is 0 |
| Statements.BuildInsert | db_control/base_db.py:145-155 | the loop collects the names and packed values in argument order and yields the INSERT over them |
| Statements.BuildUpdate | db_control/base_db.py:157-170 | the loop collects one `k = ?` clause and one packed value per column in order, then appends the where-value |
| Statements.InsertTaskShape | db_control/base_db.py:145-155 | one parameter per column, each the column's value packed with its tag, in order, and as many `?` as parameters |
| Statements.UpdateTaskShape | db_control/base_db.py:157-170 | the packed column values in order, then the where-value last, and as many `?` as parameters |
| Statements.DeleteTaskShape | db_control/base_db.py:189-198 | the only parameter is the key value and the text holds one `?` |
| Statements.PackedPlain | db_control/base_db.py:117-122 | without a json tag the packed parameters are the raw values |
| Statements.MapRowSpec | db_control/base_db.py:187 | the dict has one entry per zipped field and cell, keyed by the field and holding the cell unpacked with its tag; it fails exactly when one of those cells fails to unpack |
| Statements.Get | db_control/base_db.py:172-187 | no row gives None; a dict is only returned for a fetched row |
| Statements.GetSpec | db_control/base_db.py:172-187 | a row with one cell per field reads back as a dict keyed by exactly the fields, in order, each value unpacked with its tag, and fails exactly when some cell fails |
| Statements.AppendIfGiven | db_control/limit/timed_limit_db.py:68-70 | an `if x is not None` block appends the clause and the parameter when the argument is given, and nothing otherwise |
| Statements.PresentAppend | db_control/game/player_char_db.py:60-75 | collecting the given arguments distributes over concatenation of the argument list |
| Statements.ClausesOfPresent | db_control/limit/timed_limit_db.py:65-82 | the clauses collected block by block are the `k = ?` clauses of the given columns |
| Statements.ParamsOfPresent | db_control/limit/timed_limit_db.py:65-82 | the parameters collected block by block are the values of the given columns |
| Statements.PresentEmpty | db_control/game/player_char_db.py:77-78 | no column is collected exactly when every optional argument is None |
| Statements.PresentMembers | db_control/game/player_char_db.py:60-75 | a column is collected exactly when its argument is given, with that value and tag |
| Statements.PresentOrder | db_control/game/player_char_db.py:60-75 | the collected names keep argument order |
| Statements.PresentNoJson | db_control/limit/timed_limit_db.py:65-82 | options without a json tag collect columns without one |
| Statements.PresentBindable | db_control/game/player_char_db.py:60-75 | every collected value can be bound exactly when every given argument can |
| Writer.TableWriter.constructor | db_control/base_db.py:40-41 | a fresh class has no worker and nothing queued or committed; the layout decides which attributes exist |
| Writer.TableWriter.GetQueue | db_control/base_db.py:43-48 | an undeclared queue raises; a None queue is created empty once; an existing queue is returned unchanged |
| Writer.TableWriter.StartWorker | db_control/base_db.py:82-102 | raises exactly when the flag is undeclared, or unset with the queue undeclared; the first call sets the flag and starts the one worker; later calls change nothing, so there is never a second worker |
| Writer.TableWriter.InitDb | db_control/base_db.py:108-115 | returns exactly when both attributes exist; the bootstrap tasks are queued in order behind what is already queued, with one worker running |
| Writer.TableWriter.InitFromSpec | db_control/base_db.py:104-106 | returns exactly when `_worker_started` and `_queue` are both declared, an undeclared flag raising AttributeError on `_worker_started`; on return one worker runs and exactly the compiled statements of the spec are queued behind what was queued; a raise leaves the queue and the worker count; the committed state and the failure log never change |
| Writer.TableWriter.SubmitWrite | db_control/base_db.py:131-133 | the task goes to the back of the queue; an undeclared `_queue` raises AttributeError and queues nothing; the flag, the worker count, the committed state and the failure log never change |
| Writer.TableWriter.Write | db_control/limit/timed_limit_db.py:45 | looking up `cls.write` always raises AttributeError |
| Writer.TableWriter.Insert | db_control/base_db.py:145-155 | queues exactly the INSERT built from the columns against the class's table; an undeclared `_queue` raises AttributeError and queues nothing; the flag, the worker count, the committed state and the failure log never change |
| Writer.TableWriter.Update | db_control/base_db.py:157-170 | queues exactly the UPDATE built from the columns and the where pair; an undeclared `_queue` raises AttributeError and queues nothing; the flag, the worker count, the committed state and the failure log never change |
| Writer.TableWriter.Delete | db_control/base_db.py:189-198 | queues exactly the DELETE keyed by the where pair; an undeclared `_queue` raises AttributeError and queues nothing; the flag, the worker count, the committed state and the failure log never change |
| Writer.TableWriter.ExecuteWrite | db_control/base_db.py:67-80 | raises exactly when the statement does not go through; the committed state then is unchanged (rollback), and otherwise it gains exactly the task |
| Writer.TableWriter.WorkerStep | db_control/base_db.py:90-100 | takes the head of the queue, commits it or logs it, and leaves the rest of the queue |
| Writer.TableWriter.Drain | db_control/base_db.py:90-100 | running the worker until the queue is empty leaves exactly the state and log of the FIFO reference run |
| Writer.RunAppend | db_control/base_db.py:90-100 | draining two batches is draining the first, then the second from where the first left off |
| Writer.RunExtends | db_control/base_db.py:90-100 | the worker only appends to the committed state |
| Writer.RunConserves | db_control/base_db.py:90-100 | every queued task is either committed or logged, exactly once |
| Writer.RunKeepsOrder | db_control/base_db.py:90-100 | committed tasks and logged tasks each keep queue order |
| Writer.FailedTaskIsSkipped | db_control/base_db.py:93-97 | a failing task leaves the state unchanged and the tasks after it run as if it had never been queued |
| Writer.UpdateParamsBindable | db_control/base_db.py:157-170 | an UPDATE of collected optional arguments binds exactly when every given argument binds |
| Writer.RunAllAccepted | db_control/base_db.py:90-100 | when every task goes through, the state gains exactly the queue and nothing is logged |
| Writer.SetUpInherited | db_control/base_db.py:82-88 | a class that declares neither `_queue` nor `_worker_started` fails its bootstrap with AttributeError and starts and queues nothing |
| Writer.SetUpDeclared | db_control/base_db.py:104-115 | a class declaring both attributes bootstraps with one worker and exactly the compiled statements queued |
| Writer.SetUpTwice | db_control/base_db.py:82-115 | a second bootstrap keeps the single worker and queues the statements again behind the first copy |
| TimedLimit.CreateIsGenericInsert | db_control/limit/timed_limit_db.py:45-54 | the hand-written INSERT is the one `_insert` builds for the same five columns |
| TimedLimit.CreatePlaceholders | db_control/limit/timed_limit_db.py:45-54 | five placeholders for five bindable parameters |
| TimedLimit.UpdateStatement | db_control/limit/timed_limit_db.py:56-98 | no statement exactly when every argument is None; otherwise the UPDATE of exactly the given columns in argument order keyed by uid, the one `_update` builds |
| TimedLimit.SetParts | db_control/limit/timed_limit_db.py:65-82 | the four blocks collect the clauses and parameters of exactly the given arguments |
| TimedLimit.UpdateOptionsEmpty | db_control/limit/timed_limit_db.py:84-85 | nothing is collected exactly when all four arguments are None |
| TimedLimit.DeleteStatement | db_control/limit/timed_limit_db.py:101-102 | the hand-written DELETE is the one `_delete` builds keyed by uid |
| TimedLimit.DeleteStatementShape | db_control/limit/timed_limit_db.py:101-102 | one placeholder for its one parameter |
| TimedLimit.SetUp | db_control/limit/timed_limit_db.py:32-34 | returns exactly when `_worker_started` and `_queue` are both declared, an undeclared flag raising AttributeError on `_worker_started`; on return one worker runs and the timed_limit statements (table and both indexes) are queued behind what was queued; a raise leaves the queue and the worker count; the committed state and the failure log never change |
| TimedLimit.CreateAsWritten | db_control/limit/timed_limit_db.py:36-54 | always raises AttributeError on `write` |
| TimedLimit.UpdateAsWritten | db_control/limit/timed_limit_db.py:56-98 | returns exactly when every argument is None, and otherwise raises AttributeError on `write` |
| TimedLimit.DeleteAsWritten | db_control/limit/timed_limit_db.py:100-102 | always raises AttributeError on `write` |
| TimedLimit.Create | db_control/limit/timed_limit_db.py:36-54 | queues exactly the create statement, status defaulting to active; an undeclared `_queue` raises AttributeError and queues nothing; the flag, the worker count, the committed state and the failure log never change |
| TimedLimit.Update | db_control/limit/timed_limit_db.py:56-98 | queues nothing when every argument is None, and otherwise exactly the UPDATE of the given columns; an undeclared `_queue` raises AttributeError and queues nothing; the flag, the worker count, the committed state and the failure log never change |
| TimedLimit.Delete | db_control/limit/timed_limit_db.py:100-102 | queues exactly the DELETE keyed by uid; an undeclared `_queue` raises AttributeError and queues nothing; the flag, the worker count, the committed state and the failure log never change |
| TimedLimit.Get | db_control/limit/timed_limit_db.py:104-127 | None exactly when no row has the uid; otherwise the dict of a row with that uid |
| TimedLimit.OwnedBy | db_control/limit/timed_limit_db.py:129-155 | exactly the rows of the credential, none invented |
| TimedLimit.ActiveOf | db_control/limit/timed_limit_db.py:157-188 | exactly the owner's rows that are active and expire after the given time |
| TimedLimit.InsertByExpired | db_control/limit/timed_limit_db.py:137 | inserting into rows ordered by expiry keeps them ordered and adds exactly that row |
| TimedLimit.SortByExpired | db_control/limit/timed_limit_db.py:137 | ordered by expiry and a permutation of its input |
| TimedLimit.ListByOwnerSpec | db_control/limit/timed_limit_db.py:129-155 | every row of the owner exactly once, as dicts, earliest expiry first |
| TimedLimit.ListActiveSpec | db_control/limit/timed_limit_db.py:157-188 | exactly the active, unexpired rows of the owner, earliest expiry first, and a part of the owner's list |
| TimedLimit.ZeroNowIsAbsent | db_control/limit/timed_limit_db.py:161 | an explicit now of 0 falls back to the clock like an absent one, and a later time never adds rows |
| PermaLimit.CreateIsGenericInsert | db_control/limit/perma_limit_db.py:31-39 | the hand-written INSERT is the one `_insert` builds for the same four columns |
| PermaLimit.CreatePlaceholders | db_control/limit/perma_limit_db.py:23-39 | four placeholders for four bindable parameters, and the allowances default to 0 |
| PermaLimit.UpdateStatement | db_control/limit/perma_limit_db.py:41-78 | no statement exactly when every argument is None; otherwise the UPDATE of exactly the given columns keyed by cid, the one `_update` builds |
| PermaLimit.SetParts | db_control/limit/perma_limit_db.py:49-62 | the three blocks collect the clauses and parameters of exactly the given arguments |
| PermaLimit.UpdateOptionsEmpty | db_control/limit/perma_limit_db.py:64-65 | nothing is collected exactly when all three arguments are None |
| PermaLimit.DeleteStatement | db_control/limit/perma_limit_db.py:80-82 | the hand-written DELETE is the one `_delete` builds keyed by cid |
| PermaLimit.DeleteStatementShape | db_control/limit/perma_limit_db.py:80-82 | one placeholder for its one parameter |
| PermaLimit.SetUp | db_control/limit/perma_limit_db.py:19-21 | returns exactly when `_worker_started` and `_queue` are both declared, an undeclared flag raising AttributeError on `_worker_started`; on return one worker runs and the perma_limit statements are queued behind what was queued; a raise leaves the queue and the worker count; the committed state and the failure log never change |
| PermaLimit.CreateAsWritten | db_control/limit/perma_limit_db.py:23-39 | always raises AttributeError on `write` |
| PermaLimit.UpdateAsWritten | db_control/limit/perma_limit_db.py:41-78 | returns exactly when every argument is None, and otherwise raises AttributeError on `write` |
| PermaLimit.DeleteAsWritten | db_control/limit/perma_limit_db.py:80-82 | always raises AttributeError on `write` |
| PermaLimit.Create | db_control/limit/perma_limit_db.py:23-39 | queues exactly the create statement; an undeclared `_queue` raises AttributeError and queues nothing; the flag, the worker count, the committed state and the failure log never change |
| PermaLimit.Update | db_control/limit/perma_limit_db.py:41-78 | queues nothing when every argument is None, and otherwise exactly the UPDATE of the given columns; an undeclared `_queue` raises AttributeError and queues nothing; the flag, the worker count, the committed state and the failure log never change |
| PermaLimit.Delete | db_control/limit/perma_limit_db.py:80-82 | queues exactly the DELETE keyed by cid; an undeclared `_queue` raises AttributeError and queues nothing; the flag, the worker count, the committed state and the failure log never change |
| PermaLimit.Get | db_control/limit/perma_limit_db.py:84-105 | None exactly when no row has the cid; otherwise the dict of a row with that cid |
| PermaLimit.GetByKey | db_control/limit/perma_limit_db.py:84-105 | with cid a key, `get` returns exactly the row holding it |
| PlayerChar.SetUp | db_control/game/player_char_db.py:27-29 | returns exactly when `_worker_started` and `_queue` are both declared, an undeclared flag raising AttributeError on `_worker_started`; on return one worker runs and the player_char_db statements (table and its index) are queued behind what was queued; a raise leaves the queue and the worker count; the committed state and the failure log never change |
| PlayerChar.Create | db_control/game/player_char_db.py:31-48 | queues exactly the INSERT `_insert` builds from the six tagged columns; an undeclared `_queue` raises AttributeError and queues nothing; the flag, the worker count, the committed state and the failure log never change |
| PlayerChar.CreateNeverCommits | db_control/game/player_char_db.py:41-48 | the INSERT has six placeholders, but its content_ids parameter is the list itself, so it never commits |
| PlayerChar.EncodedCreateBinds | db_control/game/player_char_db.py:46 | under the json tag the INSERT binds and content_ids reads back as the list |
| PlayerChar.CollectColumns | db_control/game/player_char_db.py:60-75 | the five blocks collect exactly the given arguments in order |
| PlayerChar.UpdateOptionsEmpty | db_control/game/player_char_db.py:77-78 | nothing is collected exactly when all five arguments are None |
| PlayerChar.Update | db_control/game/player_char_db.py:50-83 | queues nothing when no argument is given, and otherwise exactly the UPDATE of the given columns keyed by uid; an undeclared `_queue` raises AttributeError and queues nothing; the flag, the worker count, the committed state and the failure log never change |
| PlayerChar.UpdateContentNeverCommits | db_control/game/player_char_db.py:71-72 | an update is unbindable exactly when it sets content_ids, and then never commits |
| PlayerChar.Delete | db_control/game/player_char_db.py:85-87 | queues exactly the DELETE keyed by uid; an undeclared `_queue` raises AttributeError and queues nothing; the flag, the worker count, the committed state and the failure log never change |
| PlayerChar.Get | db_control/game/player_char_db.py:89-102 | no row gives None |
| PlayerChar.GetWithoutGameId | db_control/game/player_char_db.py:100 | a character whose game id is NULL cannot be read: `int(None)` raises |
| PlayerChar.GetReadsRow | db_control/game/player_char_db.py:89-102 | a stored character reads back field by field; a NULL discord_url reads as "None" and the content text as its characters |
| PlayerChar.ListByOwnerAsWritten | db_control/game/player_char_db.py:104-118 | always raises AttributeError on `_list` |
| PlayerChar.MapRowsSpec | db_control/game/player_char_db.py:104-118 | the list succeeds exactly when every row maps, with one dict per row, in order |
| PlayerChar.ListByOwner | db_control/game/player_char_db.py:104-118 | one dict per fetched row, and it succeeds exactly when every row maps |
| PlayerChar.ListWithoutGameId | db_control/game/player_char_db.py:116 | one owned character without a game id makes the whole list fail |
| Credentials.SetUp | db_control/user_base/credentials_db.py:19-21 | returns exactly when `_worker_started` and `_queue` are both declared, an undeclared flag raising AttributeError on `_worker_started`; on return one worker runs and the credentials_db statements are queued behind what was queued; a raise leaves the queue and the worker count; the committed state and the failure log never change |
| Credentials.Create | db_control/user_base/credentials_db.py:23-28 | queues exactly the INSERT of the two identities; an undeclared `_queue` raises AttributeError and queues nothing; the flag, the worker count, the committed state and the failure log never change |
| Credentials.CreateBinds | db_control/user_base/credentials_db.py:23-28 | two placeholders for two bindable parameters; a missing steam id is passed as NULL |
| Credentials.Delete | db_control/user_base/credentials_db.py:30-32 | queues exactly the DELETE keyed by id; an undeclared `_queue` raises AttributeError and queues nothing; the flag, the worker count, the committed state and the failure log never change |
| Credentials.Update | db_control/user_base/credentials_db.py:34-55 | queues nothing when both arguments are None, and otherwise exactly the UPDATE of the given identities keyed by id; an undeclared `_queue` raises AttributeError and queues nothing; the flag, the worker count, the committed state and the failure log never change |
| Credentials.UpdateBinds | db_control/user_base/credentials_db.py:34-55 | every parameter binds, one per given identity, with the id last |
| Credentials.SetDirty | db_control/user_base/credentials_db.py:81-86 | queues exactly the UPDATE setting the flag to 1; an undeclared `_queue` raises AttributeError and queues nothing; the flag, the worker count, the committed state and the failure log never change |
| Credentials.ClearDirty | db_control/user_base/credentials_db.py:88-93 | queues exactly the UPDATE setting the flag to 0; an undeclared `_queue` raises AttributeError and queues nothing; the flag, the worker count, the committed state and the failure log never change |
| Credentials.DirtyRoundTrip | db_control/user_base/credentials_db.py:57-93 | the flag written by set_dirty / clear_dirty reads back under the bool tag as the flag itself |
| Credentials.GetBy | db_control/user_base/credentials_db.py:57-67 | no row gives None |
| Credentials.LookupSpec | db_control/user_base/credentials_db.py:57-67 | whichever key column is looked up: no row gives None, a dict comes only from a fetched row, a full row reads back keyed by the four fields with each cell unpacked by its tag, failing exactly when some cell does not unpack |
| Credentials.GetById | db_control/user_base/credentials_db.py:69-71 | for the SELECT keyed by id: no row gives None, a dict comes only from a fetched row, and a full row reads back keyed by the four fields, each cell unpacked with its tag, failing exactly when some cell does not unpack |
| Credentials.GetByDiscord | db_control/user_base/credentials_db.py:73-75 | the same for the SELECT keyed by discord_id |
| Credentials.GetBySteam | db_control/user_base/credentials_db.py:77-79 | the same for the SELECT keyed by steam64_id |
| Credentials.LookupsShareSelect | db_control/user_base/credentials_db.py:57-79 | the three lookups send one placeholder bound to the looked-up value |
| Credentials.GetByReadsRow | db_control/user_base/credentials_db.py:57-67 | a stored credential reads back field by field, a missing steam id as "None" and the flag as a bool |
| Credentials.MissingSteamIsAmbiguous | db_control/user_base/credentials_db.py:64 | a missing steam id and the steam id "None" read back identically |
| Access.CreateDataDefault | db_control/admis/access_db.py:29 | `access or {}` stores a given dict as itself and None as the empty dict |
| Access.SetUp | db_control/admis/access_db.py:17-19 | returns exactly when `_worker_started` and `_queue` are both declared, an undeclared flag raising AttributeError on `_worker_started`; on return one worker runs and the access_db statements are queued behind what was queued; a raise leaves the queue and the worker count; the committed state and the failure log never change |
| Access.Create | db_control/admis/access_db.py:21-30 | queues exactly the INSERT of cid and the flags; an undeclared `_queue` raises AttributeError and queues nothing; the flag, the worker count, the committed state and the failure log never change |
| Access.CreateNeverCommits | db_control/admis/access_db.py:27-30 | the data parameter is the dict itself, so the INSERT never commits |
| Access.EncodedCreateRoundTrip | db_control/admis/access_db.py:29 | under the json tag the INSERT binds and data reads back as the flags |
| Access.Update | db_control/admis/access_db.py:32-50 | queues nothing when access is None, and otherwise (empty dict included) exactly the UPDATE of data keyed by cid; an undeclared `_queue` raises AttributeError and queues nothing; the flag, the worker count, the committed state and the failure log never change |
| Access.UpdateNeverCommits | db_control/admis/access_db.py:41-50 | the data parameter is the dict itself, so the UPDATE never commits |
| Access.EncodedUpdateRoundTrip | db_control/admis/access_db.py:42 | under the json tag the UPDATE binds and data reads back as the flags |
| Access.Delete | db_control/admis/access_db.py:52-54 | queues exactly the DELETE keyed by cid; an undeclared `_queue` raises AttributeError and queues nothing; the flag, the worker count, the committed state and the failure log never change |
| Access.Get | db_control/admis/access_db.py:56-64 | no row gives None |
| Access.GetOfText | db_control/admis/access_db.py:56-64 | under the dict tag a stored text reads back only when empty, as `{}`; any other text raises ValueError |
| Access.EncodedGetRoundTrip | db_control/admis/access_db.py:56-64 | under the json tag what an encoded create stores reads back as its flags |

## Left out

- The file system is not modelled: the data directory, the database path, opening connections and the PRAGMAs of `_connect`. A statement's outcome is the `Engine` parameter instead.
- SQL semantics are not modelled. The committed state is the sequence of committed statements, and reads take the engine's answer (`fetch`) as a parameter. The exceptions are the timed and perma reads, which are modelled over typed rows.
- Threads are not modelled: the daemon worker runs concurrently with the producers and `queue.task_done` is called. The worker loop is modelled as sequential steps taken after the writes were queued.
- `logging.exception` is modelled only as the ghost log of failed tasks; the message text is not.
- `json.dumps` and `json.loads` are parameters. Only their round-trip law is assumed where it is used (`Codec.Lawful`).
- The hand-written SQL texts of the timed and perma modules are modelled without their leading, trailing and line-break whitespace. Apart from that they are the texts the generic builders produce.
- SQLite's 64-bit INTEGER limit is not modelled; integers are unbounded, as Python's are.
- Cells of type REAL or BLOB are not modelled, because nothing in the core writes them.
- TimedLimit.ListByOwnerSpec: ties in expiry come out in one fixed order (the sort's). SQLite's ORDER BY does not promise a tie order, so the model is stricter than the engine.
- PlayerChar.ListByOwner: the ORDER BY uid is left to the engine's answer (`fetchAll`) and is not re-checked.
- Credentials.GetBy: the field name is interpolated into the SQL unescaped. Only the three fixed names are modelled.
- `read`, the connection context manager of `BaseDB`, is modelled only through the `fetch` parameters of the reads.
- Statements.Get, Statements.GetSpec, TimedLimit.Get, TimedLimit.ListByOwnerSpec, TimedLimit.ListActiveSpec, PermaLimit.Get, PlayerChar.Get, PlayerChar.ListByOwner, Credentials.GetBy and Access.Get: the engine's answer to a read cannot raise, so a read that raises sqlite3.OperationalError is not modelled. One example is "no such table", which every read meets as written, because `set_up` never gets to queue CREATE TABLE.
- Codec.ParseDecimal: `int` on text is modelled as an optional minus sign followed by ASCII digits. Python's `int` also accepts surrounding whitespace, `_` between digits and non-ASCII decimal digits (`int(" 7")` is 7, `int("1_0")` is 10); the model raises ValueError on these.
- TimedLimit.Status and PlayerChar.CharType: the `Literal` annotations on `status` and `char_type` are not checked at run time, so Python accepts any string there. The model admits only the listed values.

## Findings

The as-written members model the code as it stands. The write methods of the timed and perma modules and `PlayerChar.ListByOwner` model the evidently intended call. For the two container tags, the entity methods keep the tag as written, and the corrected members are the same columns under the `json` tag.

| source | as written | input that shows it | evidently intended | confidence | as-written member | corrected member |
|---|---|---|---|---|---|---|
| db_control/base_db.py:44-48 | `_get_queue` and `_start_worker` read `cls._queue` and `cls._worker_started`, which no class declares | any `set_up()`, e.g. `CredentialsDB.set_up()`, raises AttributeError on `_worker_started` | class attributes `_queue = None` and `_worker_started = False` | high, not executed | Writer.SetUpInherited | Writer.SetUpDeclared |
| db_control/limit/timed_limit_db.py:45 | `create` calls `cls.write`, which is defined nowhere | `TimedLimitDB.create(1, 1, 0, 100)` raises AttributeError | `cls.submit_write` | high, not executed | TimedLimit.CreateAsWritten | TimedLimit.Create |
| db_control/limit/timed_limit_db.py:89 | `update` calls `cls.write` | `TimedLimitDB.update(1, char_slot=2)` raises AttributeError | `cls.submit_write` | high, not executed | TimedLimit.UpdateAsWritten | TimedLimit.Update |
| db_control/limit/timed_limit_db.py:102 | `delete` calls `cls.write` | `TimedLimitDB.delete(1)` raises AttributeError | `cls.submit_write` | high, not executed | TimedLimit.DeleteAsWritten | TimedLimit.Delete |
| db_control/limit/perma_limit_db.py:31 | `create` calls `cls.write` | `PermaLimitDB.create(1)` raises AttributeError | `cls.submit_write` | high, not executed | PermaLimit.CreateAsWritten | PermaLimit.Create |
| db_control/limit/perma_limit_db.py:69 | `update` calls `cls.write` | `PermaLimitDB.update(1, char_slot=2)` raises AttributeError | `cls.submit_write` | high, not executed | PermaLimit.UpdateAsWritten | PermaLimit.Update |
| db_control/limit/perma_limit_db.py:82 | `delete` calls `cls.write` | `PermaLimitDB.delete(1)` raises AttributeError | `cls.submit_write` | high, not executed | PermaLimit.DeleteAsWritten | PermaLimit.Delete |
| db_control/game/player_char_db.py:106 | `list_by_owner` calls `cls._list`, which is defined nowhere | `PlayerCharDB.list_by_owner(1)` raises AttributeError | a `_list` that selects the fields for the owner, ordered by uid, and maps each row as `_get` does | high, not executed | PlayerChar.ListByOwnerAsWritten | PlayerChar.ListByOwner |
| db_control/game/player_char_db.py:46 | content_ids is passed with the `list` tag, so it reaches sqlite3 as a list | with `_queue` and `_worker_started` declared (first row), `PlayerCharDB.create(1, "a", "lore", ["x"])` is logged as failed and never stored; as written it raises AttributeError on `_queue` first | the `json` tag, which encodes the list as text, with `get` reading content_ids under `json` as well | medium, not executed | PlayerChar.CreateNeverCommits | PlayerChar.EncodedCreateBinds |
| db_control/admis/access_db.py:29 | data (a json blob column) is passed with the `dict` tag, so it reaches sqlite3 as a dict | with `_queue` and `_worker_started` declared (first row), `AccessDB.create(1)` is logged as failed and never stored; as written it raises AttributeError on `_queue` first | the `json` tag, with `get` reading data under `json` as well | medium, not executed | Access.CreateNeverCommits | Access.EncodedCreateRoundTrip |
