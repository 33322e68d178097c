/**
  Whole lifecycles driven through the binding, in the shape of the crate's
  integration tests and doc examples: what each run leaves in the engine's
  log, whatever status every engine call answers. The engine stores no
  records here, so the tests' checks on stored values are not restated.
*/
module Scenarios {
  import opened Wrappers
  import opened Errors
  import opened Ffi
  import opened Db

  /**
    A builder that is made and then dropped without `open` closes its
    environment handle, once.
  */
  method AbandonEnvironmentBuilder(engine: Engine) returns (ghost envHandle: Handle)
    requires engine.Valid()
    modifies engine
    ensures engine.Valid()
    ensures envHandle != Null && envHandle !in old(engine.handles)
    ensures engine.trace == old(engine.trace) + [EnvCreate(envHandle), EnvClose(envHandle)]
    ensures engine.Releases(envHandle) == 1
  {
    var builder := new EnvironmentBuilder(engine);
    envHandle := builder.handle;
    builder.Release();
  }

  /**
    One `put` on an open database, then its last `Database` reference
    dropped: the handle is closed, once, and the environment reference the
    database held is given back.
  */
  method PutThenDrop(database: Db, key: seq<byte>, value: seq<byte>)
    requires database.Valid() && database.env.Some?
    modifies database.engine, database.env.value.inner
    ensures database.engine.Valid() && database.engine.Releases(database.db) == 1
    ensures var inner := database.env.value.inner;
      && inner.holders == old(inner.holders) - {database.env.value.id}
      && inner.owners == old(inner.owners) && inner.Valid()
  {
    var stored := database.Put(None, key, value, DB_NONE);
    database.Release();
  }

  /**
    A database opened inside the environment `env` refers to, one `put`,
    then the database dropped: its handle is given back exactly once,
    whether `open` succeeds or fails, and the reference count of `env` is
    as it was, with no database left for `env` to keep alive.
  */
  method UseDatabase(engine: Engine, env: Environment, key: seq<byte>, value: seq<byte>) returns (ghost db: Handle)
    requires engine.Valid() && env.inner.data.engine == engine && env.Valid()
    requires forall d :: !env.Keeps(d)
    modifies engine, env.inner
    ensures engine.Valid() && env.Valid()
    ensures forall d :: !env.Keeps(d)
    ensures env.inner.strong == old(env.inner.strong)
    ensures db != Null && db !in old(engine.handles) && engine.Releases(db) == 1
  {
    var builder := new DatabaseBuilder(engine);
    builder.SetEnvironment(env);
    ghost var clone := builder.env.value;
    assert env.inner.holders == old(env.inner.holders) + {clone.id} && clone.id !in old(env.inner.holders);
    var opening;
    ghost var status;
    opening, db, status := builder.Open();
    if opening.Ok? {
      PutThenDrop(opening.value, key, value);
    }
    assert env.inner.holders == old(env.inner.holders) && env.inner.Valid();
    assert env.inner.owners == old(env.inner.owners)[db := clone.id] && clone.id != env.id;
    forall d
      ensures !env.Keeps(d)
    {
      if d != db {
        assert !old(env.Keeps(d));
      }
    }
  }

  /**
    Two databases open in one environment, each through a reference of its
    own, and the first one dropped: only its handle is closed, the
    environment stays open, and the second database is still valid.
  */
  method DropFirstOfTwo(first: Db, second: Db)
    requires first.Valid() && second.Valid() && first.engine == second.engine
    requires first.env.Some? && second.env.Some? && first.env.value.inner == second.env.value.inner
    requires first.env.value.id != second.env.value.id
    modifies first.engine, first.env.value.inner
    ensures second.Valid()
    ensures first.engine.trace == old(first.engine.trace) + [DbClose(first.db)]
    ensures first.engine.Releases(first.db) == 1
    ensures first.engine.IsOpenEnv(first.env.value.inner.data.envPtr)
  {
    var inner := first.env.value.inner;
    ghost var both := {first.env.value.id, second.env.value.id};
    assert inner.strong >= 2 by {
      assert inner.holders == (inner.holders - both) + both;
      assert |both| == 2;
    }
    first.Release();
  }

  /**
    `EnvironmentBuilder::new().home(dir).open()`: the engine open gets the
    configured home with the default flags and mode, and the handle is open
    on success, closed once on failure.
  */
  method OpenAtHome(engine: Engine, home: string) returns (r: Result<Environment, Error>, ghost envHandle: Handle)
    requires engine.Valid()
    modifies engine
    ensures engine.Valid() && envHandle !in old(engine.handles)
    ensures |engine.trace| >= |old(engine.trace)| + 2
    ensures engine.trace[|old(engine.trace)|] == EnvCreate(envHandle)
    ensures var c := engine.trace[|old(engine.trace)| + 1];
      c.EnvOpen? && c == EnvOpen(envHandle, Some(home), DB_NONE, 0, c.status) && (r.Ok? <==> c.status == SUCCESS)
    ensures r.Ok? ==> engine.IsOpenEnv(envHandle) && r.value.Valid() && r.value.inner.data.envPtr == envHandle
    ensures r.Err? ==> engine.Releases(envHandle) == 1
  {
    var builder := new EnvironmentBuilder(engine);
    envHandle := builder.handle;
    builder.SetHome(home);
    r := builder.Open();
  }

  /**
    A database builder given an environment and then dropped without
    `open`: no engine call is made, and the caller's own reference is still
    valid, with the count and the databases it keeps as they were.
  */
  method AbandonDatabaseBuilder(engine: Engine, env: Environment)
    requires engine.Valid() && env.inner.data.engine == engine && env.Valid() && env.KeepsNoDb()
    modifies engine, env.inner
    ensures env.Valid() && env.inner.strong == old(env.inner.strong) && env.inner.owners == old(env.inner.owners)
    ensures engine.trace == old(engine.trace) && engine.handles == old(engine.handles)
  {
    var builder := new DatabaseBuilder(engine);
    builder.SetEnvironment(env);
    ghost var clone := builder.env.value;
    assert env.inner.holders == old(env.inner.holders) + {clone.id} && clone.id !in old(env.inner.holders);
    builder.Release();
    assert env.inner.holders == old(env.inner.holders);
  }

  /**
    An environment opened, a database used inside it, then the environment
    dropped: the environment handle is given back exactly once, by the last
    call, whether its `open` succeeds or fails.
  */
  method EnvironmentAndDatabase(engine: Engine, home: string, key: seq<byte>, value: seq<byte>)
    returns (ghost envHandle: Handle)
    requires engine.Valid()
    modifies engine
    ensures engine.Valid()
    ensures envHandle != Null && envHandle !in old(engine.handles)
    ensures engine.Releases(envHandle) == 1 && engine.LastCall() == EnvClose(envHandle)
  {
    var envBuilder := new EnvironmentBuilder(engine);
    envHandle := envBuilder.handle;
    envBuilder.SetHome(home);
    var res := envBuilder.Open();
    if res.Ok? {
      var env := res.value;
      ghost var db := UseDatabase(engine, env, key, value);
      env.Drop();
    }
  }

  /**
    One step of the walk in the example of `Cursor::next`, on a database
    opened without an environment: the two buffers it returns are dropped
    at the end of the step. Both blocks the engine handed out are freed
    exactly once, every handle that existed before is as it was, and the
    cursor can step again.
  */
  method StepAndDrop(database: Db, cursor: Cursor) returns (found: bool, ghost blocks: set<Handle>)
    requires database.Valid() && database.env.None?
    requires cursor.engine == database.engine && cursor.Valid() && cursor.DbHandle() == database.db
    modifies database.engine
    ensures database.Valid() && cursor.Valid() && cursor.DbHandle() == database.db
    ensures found ==> |blocks| == 2
    ensures !found ==> blocks == {}
    ensures forall h :: h in blocks ==> h !in old(database.engine.handles) && database.engine.Releases(h) == 1
    ensures forall h :: h in old(database.engine.handles) ==>
      h in database.engine.handles && database.engine.handles[h] == old(database.engine.handles[h])
  {
    var engine := database.engine;
    var r := cursor.Next();
    found := r.Ok?;
    blocks := {};
    if r.Ok? {
      var key, data := r.value.0.value, r.value.1.value;
      assert engine.IsLiveBlock(key.raw.data) && engine.IsLiveBlock(data.raw.data);
      DropPair(engine, key, data);
      blocks := {key.raw.data, data.raw.data};
    }
  }

  /**
    The end of the scope of the pair `next` returned: both engine blocks
    freed, each exactly once, and no other handle touched.
  */
  method DropPair(engine: Engine, key: Dbt.Dbt, data: Dbt.Dbt)
    requires engine.Valid() && key.Ptr? && data.Ptr? && key.raw.data != data.raw.data
    requires engine.IsLiveBlock(key.raw.data) && engine.IsLiveBlock(data.raw.data)
    modifies engine
    ensures engine.Valid() && engine.nextHandle == old(engine.nextHandle)
    ensures engine.Releases(key.raw.data) == 1 && engine.Releases(data.raw.data) == 1
    ensures engine.handles == old(engine.handles)[key.raw.data := old(engine.handles[key.raw.data]).(freed := true)]
                                                 [data.raw.data := old(engine.handles[data.raw.data]).(freed := true)]
  {
    Dbt.Drop(key, engine);
    Dbt.Drop(data, engine);
  }

  /**
    Two steps of the walk on one cursor, each dropping its buffers: at most
    four blocks are handed out, each freed exactly once, and the database
    stays valid.
  */
  method WalkTwoSteps(database: Db, cursor: Cursor) returns (ghost blocks: set<Handle>)
    requires database.Valid() && database.env.None?
    requires cursor.engine == database.engine && cursor.Valid() && cursor.DbHandle() == database.db
    modifies database.engine
    ensures database.Valid()
    ensures |blocks| <= 4
    ensures forall h :: h in blocks ==> h !in old(database.engine.handles) && database.engine.Releases(h) == 1
  {
    var first, firstBlocks := StepAndDrop(database, cursor);
    var second, secondBlocks := StepAndDrop(database, cursor);
    blocks := firstBlocks + secondBlocks;
  }

  /**
    The example of `Cursor::next`: a `put`, a cursor, and two steps of the
    walk. Whatever the engine answers, the database stays open and every
    block handed out during the walk is freed exactly once.
  */
  method CursorWalk(database: Db, key: seq<byte>, value: seq<byte>) returns (ghost blocks: set<Handle>)
    requires database.Valid() && database.env.None?
    modifies database.engine
    ensures database.Valid()
    ensures |blocks| <= 4
    ensures forall h :: h in blocks ==> h !in old(database.engine.handles) && database.engine.Releases(h) == 1
  {
    var stored := database.Put(None, key, value, DB_NONE);
    var opening := database.Cursor();
    blocks := {};
    if opening.Ok? {
      blocks := WalkTwoSteps(database, opening.value);
    }
  }

  /** How a transaction scope of `test_transaction` ends. */
  datatype Ending = ExplicitAbort | OutOfScope | ExplicitCommit

  /**
    One transaction scope of `test_transaction`: begin, one `put` inside the
    transaction, then the ending. A begun transaction is resolved by exactly
    one engine call, an abort unless it was committed.
  */
  method TransactionScope(engine: Engine, database: Db, env: Env, key: seq<byte>, value: seq<byte>, ending: Ending)
    returns (ghost txn: Option<Handle>)
    requires database.engine == engine && env.engine == engine && database.env == None
    requires database.Valid() && engine.IsOpenEnv(env.envPtr)
    modifies engine
    ensures database.Valid() && engine.IsOpenEnv(env.envPtr)
    ensures txn.Some? ==>
      && txn.value !in old(engine.handles) && engine.Releases(txn.value) == 1
      && engine.handles[txn.value].TxnNative?
      && engine.handles[txn.value].txnPhase == (if ending == ExplicitCommit then Committed else Aborted)
      && |engine.trace| == |old(engine.trace)| + 3
  {
    txn := None;
    var begun := env.Txn(None, DB_NONE);
    if begun.Ok? {
      var t := begun.value;
      txn := Some(t.handle);
      var stored := database.Put(Some(t), key, value, DB_NONE);
      if ending == ExplicitAbort {
        var r := t.Abort();
      } else if ending == OutOfScope {
        t.Release();
      } else {
        var r := t.Commit(Inherit);
      }
    }
  }
}
