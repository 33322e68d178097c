# libdb-rs handle lifecycle and status routing, in Dafny

This project models the safe-handle layer that the Rust crate libdb-rs
puts over Berkeley DB. It covers three files: `src/db.rs` (the builders,
`Env`, `Db`, `Cursor` and `Transaction`, with their `Drop` impls),
`src/dbt.rs` (the result buffer) and `src/error.rs` (the error value and
the engine's status codes).

The engine is a stand-in (`Ffi.Engine`). It keeps a ghost table of every
native handle it has handed out and the life-cycle phase of each. It also
keeps a ghost log of every call made to it, with its arguments and, for
each call whose status the binding reads, the status it answered (the
create, close and `free` entries carry no status). Every status it
answers is arbitrary, so each contract below holds whatever the engine says. `Engine.Valid` keeps two
invariants:

- on the log and the table together: a handle appears in a close, commit,
  abort or `free` call at most once, and exactly once when its phase in
  the table says it has been given back;
- on the table alone: a database that is not closed belongs to no
  environment or to an open one.

The engine closes an environment only when none of its databases is
still open.

On the binding side:

- Rust values that are updated in place become classes with `modifies`
  frames.
- Each `Drop` impl becomes an explicit method: `Release` on the classes,
  `Dbt.Drop` for the buffer, and `Environment.Drop` for one `Arc<Env>`
  reference. Methods that take `self` by value (`open`, `commit`,
  `abort`) end by running the drop of what they consumed.
- `Arc<Env>` is a shared block (`Db.EnvArcInner`) with a strong count.
  Each `Arc` value is a `Db.Environment` with a ghost identity.
- The block records which reference keeps the environment alive for
  which database. The last drop closes the environment, and can be proved
  to meet the engine's rule, because every open database holds a
  reference of its own.

The pure parts are functions with lemmas:

- the status-code routing of `get`, `put`, `next`, `commit` and `abort`
  (the routing of `cursor` is stated in `Db.Cursor`'s contract);
- the `DbType` conversion;
- `unwrap_txn_ptr`;
- the buffer views `as_slice`, `Deref` and `Debug`;
- the error value.

Files:

- `wrappers.dfy`: `Option`, `Result`.
- `error.dfy`: `Errors`, from src/error.rs.
- `ffi.dfy`: `Ffi`, the engine stand-in.
- `dbt.dfy`: `Dbt`, from src/dbt.rs.
- `db_status.dfy`: `DbStatus`, the pure half of src/db.rs.
- `db.dfy`: `Db`, the handle-owning half of src/db.rs.
- `scenarios.dfy`: `Scenarios`, whole lifecycles in the shape of
  tests/integration_test.rs.

Three facts about the code shape the model:

- `Cursor::next` at the end of the data returns `Err(DB_NOTFOUND)`
  (src/db.rs:440-443).
- `Cursor` has no `Drop`, so its engine handle is never closed
  (src/db.rs:406-446).
- `Error` carries only the status code (src/error.rs:9-11).

## Model

| member | source | states |
|---|---|---|
| Errors.NewError | src/error.rs:15-17 | the error stores exactly the code it was built from |
| Errors.ErrnoRoundTrip | src/error.rs:9-22 | `errno(new(e)) == e`, and two errors are equal exactly when their codes are |
| Errors.Errno | src/error.rs:19-22 | the code is all an error holds: `new(errno(e)) == e` |
| Errors.AsString | src/error.rs:25-29 | the message is the engine's lookup applied to the stored code |
| Errors.Display | src/error.rs:32-36 | `Display` writes exactly `as_string()` |
| Errors.MessageDependsOnlyOnCode | src/error.rs:13-36 | building an error does no lookup: errors with the same code display the same text under the same lookup |
| Errors.NamedCodesConsecutive | src/error.rs:39-95 | the 29 named codes run from -30999 to -30971 one apart, all negative and pairwise distinct |
| Errors.NotFoundIsNotSuccess | src/error.rs:61 | `DB_NOTFOUND` is the twelfth named code and differs from the success code 0 |
| Dbt.AsSlice | src/dbt.rs:23-28 | `Owned(s)` shows `s` itself; `Ptr(d)` shows exactly `d.size` bytes read at `d.data` |
| Dbt.Deref | src/dbt.rs:45-51 | `Deref` is `as_slice` |
| Dbt.FromRaw | src/dbt.rs:53-57 | every engine result becomes the engine-owned `Ptr` variant with that descriptor |
| Dbt.FromRawShowsBlock | src/dbt.rs:26 | a buffer made from an engine result shows the first `size` bytes of its block |
| Dbt.Debug | src/dbt.rs:31-35 | `Debug` writes `{:?}` of `as_slice()` |
| Dbt.DebugRoundTrip | src/dbt.rs:31-35 | the Debug text, read back, gives exactly the bytes of `as_slice()`, so it loses nothing |
| Dbt.ViewsAgree | src/dbt.rs:23-51 | `as_slice`, `Deref` and `Debug` all show the same bytes |
| Dbt.Drop | src/dbt.rs:37-43 | only `Ptr` is freed: one `free` of its block, released exactly once and unreadable afterwards; `Owned` issues no call and changes nothing |
| Ffi.CallerBytes | src/db.rs:327-329 | the engine sees a prefix of the caller's slice, all of it when its length fits in `u32` |
| DbStatus.DbTypeCode | src/db.rs:146-156 | every variant maps to an engine type code, and `Any` exactly to `DB_UNKNOWN` |
| DbStatus.DbTypeOfCode | src/db.rs:146-156 | a code has a variant exactly when it is one of the five codes |
| DbStatus.DbTypeCodeRoundTrip | src/db.rs:146-156 | the five variants map to five distinct codes, and the code gives the variant back |
| DbStatus.GetOutcome | src/db.rs:335-339 | status 0 gives `Ok(Some(Ptr(data)))`, `DB_NOTFOUND` gives `Ok(None)`, every other status gives `Err` with that code; each direction is an iff |
| DbStatus.GetSplitByStatus | src/db.rs:335-339 | the kind of outcome (found, absent, error) is exactly the class of the status (0, `DB_NOTFOUND`, any other), so two statuses give the same kind iff they share a class; and two statuses give the same outcome iff they are equal |
| DbStatus.UnitOutcome | src/db.rs:369-372 | `Ok` exactly on status 0, otherwise `Err` with that code |
| DbStatus.NextOutcome | src/db.rs:440-443 | `(Some(Ptr(key)), Some(Ptr(data)))` exactly on status 0, otherwise `Err` with that code |
| DbStatus.NextAtEndIsError | src/db.rs:440-443 | end of data comes out as `Err(DB_NOTFOUND)`, not as absent buffers |
| Db.UnwrapTxnPtr | src/db.rs:512-517 | no transaction gives the null pointer, a transaction gives its current pointer |
| Db.EnvPtrOf | src/db.rs:233-236 | the builder passes its environment's handle to `db_create`, or null when it has none |
| Db.Transaction.Commit | src/db.rs:474-483 | one engine commit with the caller's mode; the result is `Ok` iff it answered 0; the pointer is null afterwards either way, so the drop that follows issues nothing and the transaction is resolved exactly once |
| Db.Transaction.Abort | src/db.rs:488-497 | one engine abort; `Ok` iff it answered 0; pointer nulled either way; resolved exactly once |
| Db.Transaction.Release | src/db.rs:500-509 | a null pointer issues nothing; a live transaction gets exactly one abort, whose status is ignored |
| Db.Env.Txn | src/db.rs:116-125 | one `txn_begin` with the parent's pointer; on status 0 a live transaction on a fresh handle, the only new entry in the table, otherwise `Err` with the status, the table and the handle counter unchanged |
| Db.Env.Release | src/db.rs:128-136 | a non-null handle is closed once, and only when none of its databases is open |
| Db.Environment.New | src/db.rs:81 | a fresh reference block with count 1 and no database to keep alive |
| Db.Environment.Clone | src/db.rs:187 | the count goes up by one, with a new reference distinct from every live one |
| Db.Environment.Drop | src/db.rs:128-136 | the count goes down by one; the last reference closes the environment once, after all its databases have closed |
| Db.EnvironmentBuilder.constructor | src/db.rs:32-46 | one `db_env_create`; the builder owns the new handle with home `None`, flags `DB_NONE`, mode 0 |
| Db.EnvironmentBuilder.SetHome | src/db.rs:49-52 | sets the home and nothing else |
| Db.EnvironmentBuilder.SetFlags | src/db.rs:55-58 | sets the flags and nothing else |
| Db.EnvironmentBuilder.SetMode | src/db.rs:61-64 | sets the mode and nothing else |
| Db.EnvironmentBuilder.Open | src/db.rs:67-86 | one engine open with the home, flags and mode the builder held before the call, which changes no setting; on 0 the handle moves into a fresh `Arc<Env>` of count 1, not yet released; otherwise the builder's drop closes it, exactly once, before `Err(code)` |
| Db.EnvironmentBuilder.Release | src/db.rs:89-97 | closes the handle exactly once unless `open` moved it out |
| Db.DatabaseBuilder.constructor | src/db.rs:173-183 | no environment, transaction, file or name; flags `DB_NONE`, mode 0, B-tree |
| Db.DatabaseBuilder.SetEnvironment | src/db.rs:186-189 | the builder holds a fresh clone of the given reference, and the reference it held before, if any, is dropped; a previous block of another environment stays valid with the databases it keeps unchanged; when that was its last reference, that environment is closed (one close in the log, its handle marked closed), otherwise the log and the handle table are unchanged |
| Db.DatabaseBuilder.SetTransaction | src/db.rs:192-195 | sets the transaction and nothing else |
| Db.DatabaseBuilder.SetFile | src/db.rs:198-201 | sets the file and nothing else |
| Db.DatabaseBuilder.SetName | src/db.rs:204-207 | sets the name and nothing else |
| Db.DatabaseBuilder.SetFlags | src/db.rs:210-213 | sets the flags and nothing else |
| Db.DatabaseBuilder.SetMode | src/db.rs:216-219 | sets the mode and nothing else |
| Db.DatabaseBuilder.SetDbType | src/db.rs:222-225 | sets the type and nothing else |
| Db.DatabaseBuilder.Open | src/db.rs:231-270 | the log grows by exactly `db_create` in the builder's environment and `DB->open` with the builder's settings. On 0 a `Db` owns the new handle and the environment reference, and the table gains that handle as open. Otherwise the handle is closed exactly once, then the reference is dropped, and `Err(code)` is returned; the table gains the handle as closed and, when the builder held the last reference, also marks the environment closed. One new handle is numbered either way |
| Db.DatabaseBuilder.CreateHandle | src/db.rs:252-258 | one `db_create` in the builder's environment, whose reference from then on keeps that environment alive for the new handle; one new handle is numbered, and a transaction given to the builder stays live |
| Db.DatabaseBuilder.DropOther | src/db.rs:187 | the previous reference, when it belongs to another environment, is dropped: its block loses that holder and keeps its owners and validity, that environment is closed exactly when it was the last reference, and the new reference and the one it was cloned from stay valid |
| Db.DatabaseBuilder.OpenHandle | src/db.rs:260-268 | one `DB->open`; on 0 the `Db` and the handle open, otherwise the handle closed exactly once and the reference given back, with the same log and table as `Open`, and no new handle numbered |
| Db.DatabaseBuilder.OpenNative | src/db.rs:261 | one `DB->open` with the builder's settings; the handle is open exactly on status 0 and nothing else in the table changes |
| Db.CloseCreated | src/db.rs:264-266 | a handle that failed to open is closed once and the reference dropped; the table is the one before `db_create` with the handle closed, and the environment closed too when that was its last reference; no new handle is numbered |
| Db.DatabaseBuilder.Release | src/db.rs:162 | dropping the builder drops its environment reference: the count goes down by one, the block stays valid with the databases it keeps unchanged, and the environment closes only if that was the last reference; the log and the table change by that close and nothing else |
| Db.Db.Get | src/db.rs:326-341 | one engine `get` with the transaction's pointer and the caller's key bytes; the result is `GetOutcome` of its status; on 0 the value is a fresh, readable engine block, the only new entry in the table; otherwise the table and the handle counter are unchanged |
| Db.Db.Put | src/db.rs:359-374 | one engine `put` with the caller's key and value bytes; the result is `UnitOutcome` of its status; no handle changes |
| Db.Db.Cursor | src/db.rs:394-403 | one `cursor` call; on 0 a cursor over this database on a fresh handle, the only new entry in the table, otherwise `Err` with the status, the table and the handle counter unchanged |
| Db.Db.Release | src/db.rs:448-454 | the handle is closed exactly once, then the environment reference is dropped; the environment's close follows only when that was the last reference; the table changes by exactly those closes |
| Db.CloseDb | src/db.rs:448-454 | one `DB->close`, then the drop of the environment reference that kept the environment alive for this handle; the new table is the old one with the handle closed, and the environment closed when that was its last reference |
| Db.Cursor.Next | src/db.rs:433-445 | one `DB_NEXT` step; the result is `NextOutcome` of its status; on 0 key and value are two distinct fresh readable blocks and they are the only new entries in the table; otherwise the table is unchanged |
| Scenarios.OpenAtHome | src/db.rs:49-86 | a builder given only a home: the engine open gets that home with flags `DB_NONE` and mode 0; on success the environment is open behind a valid reference, otherwise its handle is released once |
| Scenarios.AbandonDatabaseBuilder | src/db.rs:162 | a database builder given an environment and dropped without `open` makes no engine call, and the caller's reference stays valid with the count and the databases it keeps unchanged |
| Scenarios.AbandonEnvironmentBuilder | src/db.rs:32-46 | a builder made and dropped logs exactly create then close of one new handle, which is released once |
| Scenarios.PutThenDrop | tests/integration_test.rs:13-17 | a put, then the last drop of the database: the handle is released once and the environment reference it held is given back |
| Scenarios.UseDatabase | tests/integration_test.rs:12-17 | a database opened in an environment, used and dropped: its handle is released exactly once whether `open` succeeds or fails, and the environment's reference count is restored |
| Scenarios.DropFirstOfTwo | src/db.rs:448-454 | of two databases open in one environment through references of their own, dropping the first logs only its close: the environment stays open and the second database stays valid |
| Scenarios.EnvironmentAndDatabase | tests/integration_test.rs:11-17 | the environment handle of the whole run is released exactly once, by the last call, whether its `open` succeeds or fails |
| Scenarios.StepAndDrop | src/db.rs:411-445 | one `next` whose buffers are dropped at the end of the step: on success both returned blocks are freed exactly once; every handle that existed before is unchanged, so the cursor's database stays open and the cursor can step again |
| Scenarios.DropPair | src/dbt.rs:37-43 | dropping the pair `next` returned frees both blocks, each exactly once, and changes no other handle |
| Scenarios.WalkTwoSteps | src/db.rs:411-445 | two steps on one cursor, each dropping its buffers: at most four blocks are handed out, each freed exactly once, and the database stays valid |
| Scenarios.CursorWalk | src/db.rs:411-432 | a `put`, a cursor and two steps of the walk on a database without an environment: the database stays valid and each of the at most four blocks handed out is freed exactly once |
| Scenarios.TransactionScope | tests/integration_test.rs:38-64 | each scope's transaction, if begun, is resolved by exactly one engine call: committed for the commit scope, aborted for the explicit-abort and out-of-scope scopes |

## Left out

- The engine itself (`db_env_create`, `db_create`, every `DB_ENV`/`DB`/`DB_TXN`/`DBC` method, `db_strerror`, `libc::free`). It is a stand-in with arbitrary statuses. Stored records, isolation, nested-transaction rules and durability across reopen are not modelled, so the tests' checks on stored values are not restated.
- Allocation failure in `db_env_create` and `db_create` (src/db.rs:43, src/db.rs:255-258) panics in the source. Here both allocations succeed.
- The `unwrap()`s of path and `CString` conversion (src/db.rs:50, 199, 205). Strings are passed as `string`.
- `Flags` is an opaque `u32` passed through unchanged, because the flags modules are not part of this model. `CommitType` is kept symbolic because the `DB_TXN_*` values are not part of it either.
- The `DBTYPE` code values are Berkeley DB's db.h numbering (1 to 5), which src/db.rs takes from the engine's headers.
- `Cursor` never closes its engine handle and has no `Drop`, and `Db::cursor` passes the address of a stack-local `DBC`. Neither is given a close step here.
- Db.Cursor.Next: requires the cursor's database to be open. The engine demands this of every cursor call, but Rust does not enforce it, because `Cursor` has no lifetime tied to its `Db`.
- `Database = Arc<Db>` is not reference-counted: `Db.Release` is the drop of the last `Database`, since the binding never clones one itself.
- `Transaction` holds no environment reference, so the model, like the source, does not stop an environment closing while one of its transactions is unresolved.
- `Send`/`Sync` and all concurrency are left out.
- Db.DatabaseBuilder.SetEnvironment: requires that two distinct reference blocks never hold the same environment handle, and that the new reference is not the one the builder already holds. Both follow from `Arc::new` taking the `Env` by value.
- Scenarios.UseDatabase: requires an environment reference that keeps no database alive yet, as one fresh from `EnvironmentBuilder::open` is.
- Scenarios.TransactionScope: runs on a database opened without an environment, whereas the test's database lives in the environment of its transactions.
- The commented-out `DBT` struct (src/dbt.rs:61-120) and the re-exports in src/lib.rs.
