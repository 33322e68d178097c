/**
  The handle-owning half of src/db.rs: the builders, `Env` and its shared
  `Environment` reference, `Db`, `Cursor` and `Transaction`. Each `Drop`
  impl is an explicit `Release` method; `open`, `commit` and `abort` take
  `self` by value, so they end by running the `Drop` of what they consumed.
*/
module Db {
  import opened Wrappers
  import opened Errors
  import opened Ffi
  import opened Dbt
  import opened DbStatus

  /** `unwrap_txn_ptr`: the native handle of the borrowed transaction, or null for none. */
  function UnwrapTxnPtr(txn: Option<Transaction>): (p: Handle)
    reads if txn.Some? then {txn.value} else {}
    ensures txn.None? ==> p == Null
    ensures txn.Some? ==> p == txn.value.txnPtr
  {
    match txn
    case Some(t) => t.txnPtr
    case None => Null
  }

  /** The environment handle a database builder hands to `db_create`. */
  function EnvPtrOf(env: Option<Environment>): (p: Handle)
    ensures env.None? ==> p == Null
    ensures env.Some? ==> p == env.value.inner.data.envPtr
  {
    match env
    case Some(e) => e.inner.data.envPtr
    case None => Null
  }

  // ------------------------------------------------------------------------
  // Transaction

  /** `Transaction`: a native transaction handle, nulled once it is resolved. */
  class Transaction {
    const engine: Engine
    var txnPtr: Handle
    /** The native handle the transaction was begun with. */
    ghost const handle: Handle

    ghost predicate Valid()
      reads this, engine
    {
      && engine.Valid()
      && handle in engine.handles && engine.handles[handle].TxnNative?
      && (txnPtr != Null ==> txnPtr == handle && engine.IsActiveTxn(handle))
    }

    /** Not yet consumed by `commit`, `abort` or drop. */
    ghost predicate Live()
      reads this, engine
    {
      Valid() && txnPtr != Null
    }

    constructor (engine: Engine, txnPtr: Handle)
      requires engine.Valid() && engine.IsActiveTxn(txnPtr)
      ensures this.engine == engine && this.txnPtr == txnPtr && handle == txnPtr && Live()
    {
      this.engine := engine;
      this.txnPtr := txnPtr;
      handle := txnPtr;
    }

    /**
      `commit`: one engine commit, then the pointer is nulled whatever the
      status, so the drop at the end of the call issues nothing.
    */
    method Commit(mode: CommitType) returns (r: Result<(), Error>)
      requires Live()
      modifies this, engine
      ensures Valid() && txnPtr == Null
      ensures engine.nextHandle == old(engine.nextHandle)
      ensures engine.handles == old(engine.handles)[handle := old(engine.handles[handle]).(txnPhase := Committed)]
      ensures |engine.trace| == |old(engine.trace)| + 1
      ensures engine.LastCall().TxnCommit? && engine.trace == old(engine.trace) + [TxnCommit(handle, mode, engine.LastCall().status)]
      ensures r == UnitOutcome(engine.LastCall().status)
      ensures engine.Releases(handle) == 1
    {
      var status := engine.TxnCommit(txnPtr, mode);
      r := UnitOutcome(status);
      txnPtr := Null;
      Release();
    }

    /** `abort`: one engine abort, then the pointer is nulled whatever the status. */
    method Abort() returns (r: Result<(), Error>)
      requires Live()
      modifies this, engine
      ensures Valid() && txnPtr == Null
      ensures engine.nextHandle == old(engine.nextHandle)
      ensures engine.handles == old(engine.handles)[handle := old(engine.handles[handle]).(txnPhase := Aborted)]
      ensures |engine.trace| == |old(engine.trace)| + 1
      ensures engine.LastCall().TxnAbort? && engine.trace == old(engine.trace) + [TxnAbort(handle, engine.LastCall().status)]
      ensures r == UnitOutcome(engine.LastCall().status)
      ensures engine.Releases(handle) == 1
    {
      var status := engine.TxnAbort(txnPtr);
      r := UnitOutcome(status);
      txnPtr := Null;
      Release();
    }

    /**
      `Drop for Transaction`: aborts only a transaction still unresolved, and
      ignores the status of that abort.
    */
    method Release()
      requires Valid()
      modifies engine
      ensures engine.Valid() && engine.nextHandle == old(engine.nextHandle)
      ensures txnPtr == Null ==> engine.trace == old(engine.trace) && engine.handles == old(engine.handles)
      ensures txnPtr != Null ==>
        && |engine.trace| == |old(engine.trace)| + 1
        && engine.LastCall().TxnAbort? && engine.trace == old(engine.trace) + [TxnAbort(handle, engine.LastCall().status)]
        && engine.handles == old(engine.handles)[handle := old(engine.handles[handle]).(txnPhase := Aborted)]
        && engine.Releases(handle) == 1
    {
      if txnPtr != Null {
        var ignored := engine.TxnAbort(txnPtr);
      }
    }
  }

  // ------------------------------------------------------------------------
  // Environment

  /** `Env`: the native environment handle, closed when the `Env` is dropped. */
  class Env {
    const engine: Engine
    const envPtr: Handle

    constructor (engine: Engine, envPtr: Handle)
      ensures this.engine == engine && this.envPtr == envPtr
    {
      this.engine := engine;
      this.envPtr := envPtr;
    }

    /** `Env::txn`: begins a transaction, nested under `parent` when there is one. */
    method Txn(parent: Option<Transaction>, flags: Flags) returns (r: Result<Transaction, Error>)
      requires engine.Valid() && engine.IsOpenEnv(envPtr)
      requires parent.Some? ==> parent.value.engine == engine && parent.value.Live()
      modifies engine
      ensures engine.Valid()
      ensures |engine.trace| == |old(engine.trace)| + 1
      ensures var c := engine.LastCall();
        && engine.trace == old(engine.trace) + [c]
        && c.TxnBegin? && c.env == envPtr && c.parent == UnwrapTxnPtr(parent) && c.flags == flags
        && (r.Ok? <==> c.status == SUCCESS)
        && (r.Err? ==> r.error == NewError(c.status) && engine.handles == old(engine.handles)
                       && engine.nextHandle == old(engine.nextHandle))
        && (r.Ok? ==> && fresh(r.value) && r.value.engine == engine && r.value.handle == c.txn && r.value.Live()
                      && engine.nextHandle == old(engine.nextHandle) + 1
                      && c.txn !in old(engine.handles)
                      && engine.handles == old(engine.handles)[c.txn := TxnNative(envPtr, c.parent, Active)])
    {
      var status, txnPtr := engine.TxnBegin(envPtr, UnwrapTxnPtr(parent), flags);
      if status == SUCCESS {
        var t := new Transaction(engine, txnPtr);
        r := Ok(t);
      } else {
        r := Err(NewError(status));
      }
    }

    /** `Drop for Env`: closes a non-null handle; the engine demands that none of its databases is still open. */
    method Release()
      requires engine.Valid()
      requires envPtr != Null ==> envPtr in engine.handles && engine.handles[envPtr].EnvNative?
                                  && engine.handles[envPtr].envPhase != EnvClosed && engine.NoLiveDbIn(envPtr)
      modifies engine
      ensures engine.Valid() && engine.nextHandle == old(engine.nextHandle)
      ensures envPtr == Null ==> engine.trace == old(engine.trace) && engine.handles == old(engine.handles)
      ensures envPtr != Null ==> engine.trace == old(engine.trace) + [EnvClose(envPtr)]
                                 && engine.handles == old(engine.handles)[envPtr := EnvNative(EnvClosed)]
                                 && engine.Releases(envPtr) == 1
    {
      if envPtr != Null {
        engine.EnvClose(envPtr);
      }
    }
  }

  /**
    `ArcInner<Env>`: the shared block behind every `Environment` reference.
    References are told apart by a ghost identity.
  */
  class EnvArcInner {
    var strong: nat
    const data: Env
    /** The identities of the references alive, one for each unit of `strong`. */
    ghost var holders: set<nat>
    /** The identity the next clone gets. */
    ghost var nextId: nat
    /** For each database created in this environment, the identity of the reference that keeps the environment alive for it. */
    ghost var owners: map<Handle, nat>

    /** Everything but the ownership of the open databases. */
    ghost predicate Counted()
      reads this, data.engine
    {
      && data.engine.Valid()
      && data.envPtr in data.engine.handles && data.engine.handles[data.envPtr].EnvNative?
      && strong == |holders|
      && (forall i :: i in holders ==> i < nextId)
      && (forall d :: d in owners ==> owners[d] < nextId)
      && (strong > 0 ==> data.engine.IsOpenEnv(data.envPtr))
      && (strong == 0 ==> data.engine.handles[data.envPtr] == EnvNative(EnvClosed))
    }

    /**
      Every database of the environment not yet closed, except `n`, is kept
      alive by a reference of its own.
    */
    ghost predicate OwnedExcept(n: Handle)
      reads this, data.engine
    {
      && (forall d :: data.engine.LiveDbIn(data.envPtr, d) && d != n ==> d in owners && owners[d] in holders)
      && (forall d, e ::
            (data.engine.LiveDbIn(data.envPtr, d) && data.engine.LiveDbIn(data.envPtr, e) && d != n && e != n
             && d in owners && e in owners && owners[d] == owners[e]) ==> d == e)
    }

    ghost predicate Valid()
      reads this, data.engine
    {
      Counted() && OwnedExcept(Null)
    }

    constructor (data: Env)
      ensures this.data == data && strong == 0 && holders == {} && nextId == 0 && owners == map[]
    {
      this.data := data;
      strong := 0;
      holders := {};
      nextId := 0;
      owners := map[];
    }
  }

  /** `Environment = Arc<Env>`: one object per reference. */
  class Environment {
    const inner: EnvArcInner
    ghost const id: nat

    ghost predicate Valid()
      reads inner, inner.data.engine
    {
      id in inner.holders && inner.Valid()
    }

    /** This reference keeps the environment alive for database `d`. */
    ghost predicate Keeps(d: Handle)
      reads inner
    {
      d in inner.owners && inner.owners[d] == id
    }

    /** This reference keeps the environment alive for no database still open. */
    ghost predicate KeepsNoDb()
      reads inner, inner.data.engine
    {
      forall d :: Keeps(d) ==> !inner.data.engine.LiveDbIn(inner.data.envPtr, d)
    }

    /** `Arc::new(env)` */
    constructor New(env: Env)
      requires env.engine.Valid() && env.engine.IsOpenEnv(env.envPtr) && env.engine.NoLiveDbIn(env.envPtr)
      ensures Valid() && KeepsNoDb() && fresh(inner) && inner.data == env
      ensures inner.holders == {id} && inner.strong == 1 && inner.owners == map[]
    {
      var block := new EnvArcInner(env);
      block.holders := {0};
      block.nextId := 1;
      block.strong := 1;
      inner := block;
      id := 0;
    }

    /** A new reference to an existing block, not yet counted. */
    constructor Share(inner: EnvArcInner, ghost id: nat)
      ensures this.inner == inner && this.id == id
    {
      this.inner := inner;
      this.id := id;
    }

    /** This reference from now on keeps the environment alive for the database handle `d` just created in it. */
    ghost method Adopt(d: Handle)
      requires id in inner.holders && inner.Counted() && inner.OwnedExcept(d)
      requires forall e :: Keeps(e) && e != d ==> !inner.data.engine.LiveDbIn(inner.data.envPtr, e)
      modifies inner
      ensures Valid() && Keeps(d) && inner.owners == old(inner.owners)[d := id]
      ensures inner.holders == old(inner.holders) && inner.strong == old(inner.strong) && inner.nextId == old(inner.nextId)
    {
      inner.owners := inner.owners[d := id];
    }

    /** `Arc::clone` */
    method Clone() returns (a: Environment)
      requires Valid()
      modifies inner
      ensures fresh(a) && a.inner == inner && a.id == old(inner.nextId) && a.id !in old(inner.holders)
      ensures inner.holders == old(inner.holders) + {a.id} && inner.strong == old(inner.strong) + 1
      ensures inner.owners == old(inner.owners) && inner.nextId == old(inner.nextId) + 1
      ensures a.Valid() && a.KeepsNoDb() && Valid()
    {
      a := new Environment.Share(inner, inner.nextId);
      inner.holders := inner.holders + {a.id};
      inner.nextId := inner.nextId + 1;
      inner.strong := inner.strong + 1;
    }

    /**
      Dropping one reference. The last one drops the `Env`, which closes the
      environment; by then no database of it can be open, since each open
      database holds a reference of its own.
    */
    method Drop()
      requires Valid() && KeepsNoDb()
      modifies inner, inner.data.engine
      ensures inner.Valid()
      ensures inner.holders == old(inner.holders) - {id} && inner.strong == old(inner.strong) - 1
      ensures inner.owners == old(inner.owners) && inner.nextId == old(inner.nextId)
      ensures inner.data.engine.nextHandle == old(inner.data.engine.nextHandle)
      ensures old(inner.strong) > 1 ==> inner.data.engine.trace == old(inner.data.engine.trace)
                                        && inner.data.engine.handles == old(inner.data.engine.handles)
      ensures old(inner.strong) == 1 ==>
        && inner.data.engine.trace == old(inner.data.engine.trace) + [EnvClose(inner.data.envPtr)]
        && inner.data.engine.handles == old(inner.data.engine.handles)[inner.data.envPtr := EnvNative(EnvClosed)]
        && inner.data.engine.Releases(inner.data.envPtr) == 1
    {
      inner.strong := inner.strong - 1;
      inner.holders := inner.holders - {id};
      assert old(inner.holders) == inner.holders + {id} && id !in inner.holders;
      if inner.strong == 0 {
        forall d | inner.data.engine.LiveDbIn(inner.data.envPtr, d)
          ensures false
        {
        }
        inner.data.Release();
      }
    }
  }

  /**
    A reference stays valid across engine calls that leave its environment's
    handle as it was and open no new database in it.
  */
  twostate lemma StillValid(a: Environment)
    requires old(a.Valid()) && unchanged(a.inner)
    requires a.inner.data.engine.Valid()
    requires a.inner.data.envPtr in a.inner.data.engine.handles
    requires a.inner.data.engine.handles[a.inner.data.envPtr] == old(a.inner.data.engine.handles[a.inner.data.envPtr])
    requires forall d :: a.inner.data.engine.LiveDbIn(a.inner.data.envPtr, d) ==> old(a.inner.data.engine.LiveDbIn(a.inner.data.envPtr, d))
    ensures a.Valid()
  {
  }

  /** `EnvironmentBuilder`: owns a created environment handle until `open` hands it to an `Env`. */
  class EnvironmentBuilder {
    const engine: Engine
    var envPtr: Handle
    var home: Option<string>
    var flags: Flags
    var mode: int32
    /** The handle allocated when the builder was made. */
    ghost const handle: Handle

    ghost predicate Valid()
      reads this, engine
    {
      && engine.Valid()
      && handle in engine.handles && engine.handles[handle].EnvNative?
      && (envPtr != Null ==> envPtr == handle && engine.handles[handle] == EnvNative(EnvCreated))
    }

    /** `EnvironmentBuilder::new`; the allocation is taken to succeed. */
    constructor (engine: Engine)
      requires engine.Valid()
      modifies engine
      ensures Valid() && this.engine == engine && envPtr == handle && handle != Null
      ensures home == None && flags == DB_NONE && mode == 0
      ensures handle !in old(engine.handles) && engine.nextHandle == old(engine.nextHandle) + 1
      ensures engine.handles == old(engine.handles)[handle := EnvNative(EnvCreated)]
      ensures engine.trace == old(engine.trace) + [EnvCreate(handle)]
    {
      this.engine := engine;
      var envPtr := engine.EnvCreate();
      this.envPtr := envPtr;
      handle := envPtr;
      home := None;
      flags := DB_NONE;
      mode := 0;
    }

    method SetHome(home: string)
      modifies this`home
      ensures this.home == Some(home)
    {
      this.home := Some(home);
    }

    method SetFlags(flags: Flags)
      modifies this`flags
      ensures this.flags == flags
    {
      this.flags := flags;
    }

    method SetMode(mode: int32)
      modifies this`mode
      ensures this.mode == mode
    {
      this.mode := mode;
    }

    /**
      `EnvironmentBuilder::open`. On status 0 the handle moves into a new
      `Env` behind a fresh reference count of one and the builder's pointer
      is nulled; otherwise the builder's drop, at the end of the call,
      closes the handle before the error is seen.
    */
    method Open() returns (r: Result<Environment, Error>)
      requires Valid() && envPtr != Null
      modifies this`envPtr, engine
      ensures engine.Valid() && engine.nextHandle == old(engine.nextHandle)
      ensures |engine.trace| > |old(engine.trace)|
      ensures engine.trace[|old(engine.trace)|].EnvOpen?
      ensures var status := engine.trace[|old(engine.trace)|].status;
        && engine.trace[|old(engine.trace)|] == EnvOpen(handle, old(home), old(flags), old(mode), status)
        && (r.Ok? <==> status == SUCCESS)
        && (r.Ok? ==> && envPtr == Null
                      && engine.trace == old(engine.trace) + [EnvOpen(handle, old(home), old(flags), old(mode), status)]
                      && engine.handles == old(engine.handles)[handle := EnvNative(EnvOpened)]
                      && fresh(r.value) && fresh(r.value.inner) && fresh(r.value.inner.data)
                      && r.value.Valid() && r.value.inner.data.envPtr == handle && r.value.inner.data.engine == engine
                      && r.value.inner.strong == 1 && r.value.inner.holders == {r.value.id} && r.value.inner.owners == map[]
                      && r.value.KeepsNoDb()
                      && engine.Releases(handle) == 0)
        && (r.Err? ==> && r.error == NewError(status)
                       && engine.trace == old(engine.trace) + [EnvOpen(handle, old(home), old(flags), old(mode), status), EnvClose(handle)]
                       && engine.handles == old(engine.handles)[handle := EnvNative(EnvClosed)]
                       && engine.Releases(handle) == 1)
    {
      var status := engine.EnvOpen(envPtr, home, flags, mode);
      if status == SUCCESS {
        var env := new Env(engine, envPtr);
        envPtr := Null;
        forall d | engine.LiveDbIn(handle, d)
          ensures false
        {
        }
        var arc := new Environment.New(env);
        r := Ok(arc);
      } else {
        r := Err(NewError(status));
      }
      Release();
    }

    /** `Drop for EnvironmentBuilder`: closes the handle unless `open` moved it into an `Env`. */
    method Release()
      requires Valid()
      modifies engine
      ensures engine.Valid() && engine.nextHandle == old(engine.nextHandle)
      ensures envPtr == Null ==> engine.trace == old(engine.trace) && engine.handles == old(engine.handles)
      ensures envPtr != Null ==> engine.trace == old(engine.trace) + [EnvClose(handle)]
                                 && engine.handles == old(engine.handles)[handle := EnvNative(EnvClosed)]
                                 && engine.Releases(handle) == 1
    {
      if envPtr != Null {
        forall d | engine.LiveDbIn(envPtr, d)
          ensures false
        {
        }
        engine.EnvClose(envPtr);
      }
    }
  }

  // ------------------------------------------------------------------------
  // Database

  /** `DatabaseBuilder`: the options of a database handle not yet created. */
  class DatabaseBuilder {
    const engine: Engine
    var env: Option<Environment>
    var txn: Option<Transaction>
    var file: Option<string>
    var name: Option<string>
    var flags: Flags
    var mode: int32
    var dbType: DbType

    ghost predicate Valid()
      reads this, engine, if env.Some? then {env.value.inner} else {}
    {
      && engine.Valid()
      && (env.Some? ==> env.value.inner.data.engine == engine && env.value.Valid() && env.value.KeepsNoDb())
    }

    /** `DatabaseBuilder::new`: no environment, no transaction, no file, no name, B-tree. */
    constructor (engine: Engine)
      requires engine.Valid()
      ensures Valid() && this.engine == engine
      ensures env == None && txn == None && file == None && name == None
      ensures flags == DB_NONE && mode == 0 && dbType == BTree
    {
      this.engine := engine;
      env := None;
      txn := None;
      file := None;
      name := None;
      flags := DB_NONE;
      mode := 0;
      dbType := BTree;
    }

    /**
      `environment`: the builder takes a reference of its own to `e`, then
      drops the reference it held before, if any. Two distinct reference
      blocks never own the same environment handle, since `Arc::new` takes
      the `Env` by value.
    */
    method SetEnvironment(e: Environment)
      requires Valid() && e.Valid() && e.inner.data.engine == engine
      requires env.Some? && env.value.inner == e.inner ==> env.value.id != e.id
      requires env.Some? ==> env.value.inner == e.inner || env.value.inner.data.envPtr != e.inner.data.envPtr
      modifies this`env, e.inner, engine, if env.Some? then {env.value.inner} else {}
      ensures Valid() && e.Valid()
      ensures env.Some? && fresh(env.value) && env.value.inner == e.inner && env.value.id !in old(e.inner.holders)
      ensures e.inner.owners == old(e.inner.owners)
      ensures engine.nextHandle == old(engine.nextHandle)
      ensures old(env).None? ==> && e.inner.holders == old(e.inner.holders) + {env.value.id}
                                 && engine.trace == old(engine.trace) && engine.handles == old(engine.handles)
      ensures old(env).Some? && old(env.value.inner) == e.inner ==>
        && e.inner.holders == old(e.inner.holders) + {env.value.id} - {old(env.value.id)}
        && engine.trace == old(engine.trace) && engine.handles == old(engine.handles)
      ensures old(env).Some? && old(env.value.inner) != e.inner ==>
        && e.inner.holders == old(e.inner.holders) + {env.value.id}
        && old(env.value.inner).holders == old(env.value.inner.holders) - {old(env.value.id)}
        && old(env.value.inner).owners == old(env.value.inner.owners) && old(env.value.inner).Valid()
        && (old(env.value.inner.strong) > 1 ==> engine.trace == old(engine.trace) && engine.handles == old(engine.handles))
        && (old(env.value.inner.strong) == 1 ==>
              && engine.trace == old(engine.trace) + [EnvClose(EnvPtrOf(old(env)))]
              && engine.handles == old(engine.handles)[EnvPtrOf(old(env)) := EnvNative(EnvClosed)])
    {
      var a := e.Clone();
      if env.Some? {
        var previous := env.value;
        if previous.inner != e.inner {
          DropOther(previous, e, a);
        } else {
          previous.Drop();
          assert a.id in e.inner.holders && e.id in e.inner.holders;
        }
      }
      env := Some(a);
      assert a.Valid() && e.Valid();
    }

    /**
      The drop of the previous reference `previous` in `environment`, when it
      shares no block with the new reference `a` cloned from `e`: the block of
      `e` and both its references stay valid.
    */
    method DropOther(previous: Environment, e: Environment, a: Environment)
      requires previous.Valid() && previous.KeepsNoDb() && previous.inner.data.engine == engine
      requires e.Valid() && a.Valid() && a.inner == e.inner && e.inner.data.engine == engine
      requires previous.inner != e.inner && previous.inner.data.envPtr != e.inner.data.envPtr
      modifies previous.inner, engine
      ensures e.Valid() && a.Valid()
      ensures previous.inner.holders == old(previous.inner.holders) - {previous.id}
      ensures previous.inner.owners == old(previous.inner.owners) && previous.inner.Valid()
      ensures engine.nextHandle == old(engine.nextHandle)
      ensures old(previous.inner.strong) > 1 ==> engine.trace == old(engine.trace) && engine.handles == old(engine.handles)
      ensures old(previous.inner.strong) == 1 ==>
        && engine.trace == old(engine.trace) + [EnvClose(previous.inner.data.envPtr)]
        && engine.handles == old(engine.handles)[previous.inner.data.envPtr := EnvNative(EnvClosed)]
    {
      label Before:
      previous.Drop();
      StillValid@Before(a);
      StillValid@Before(e);
    }

    /** `transaction`: the database is to be opened inside `t`. */
    method SetTransaction(t: Transaction)
      modifies this`txn
      ensures txn == Some(t)
    {
      txn := Some(t);
    }

    method SetFile(file: string)
      modifies this`file
      ensures this.file == Some(file)
    {
      this.file := Some(file);
    }

    method SetName(name: string)
      modifies this`name
      ensures this.name == Some(name)
    {
      this.name := Some(name);
    }

    method SetFlags(flags: Flags)
      modifies this`flags
      ensures this.flags == flags
    {
      this.flags := flags;
    }

    method SetMode(mode: int32)
      modifies this`mode
      ensures this.mode == mode
    {
      this.mode := mode;
    }

    method SetDbType(dbType: DbType)
      modifies this`dbType
      ensures this.dbType == dbType
    {
      this.dbType := dbType;
    }

    /**
      `DatabaseBuilder::open`: one `db_create` (taken to succeed) and one
      `DB->open`. On status 0 the environment reference moves into the new
      `Db`; otherwise the handle is closed and, when the builder is dropped
      at the end of the call, so is its environment reference.
      `db` and `status` name the new handle and the status of the open.
    */
    method Open() returns (r: Result<Db, Error>, ghost db: Handle, ghost status: int32)
      requires Valid()
      requires txn.Some? ==> txn.value.engine == engine && txn.value.Live()
      modifies this`env, engine, if env.Some? then {env.value.inner} else {}
      ensures env.None? && engine.Valid() && engine.nextHandle == old(engine.nextHandle) + 1
      ensures db != Null && db !in old(engine.handles)
      ensures engine.trace == old(engine.trace)
        + [DbCreate(db, EnvPtrOf(old(env))), DbOpen(db, UnwrapTxnPtr(txn), file, name, DbTypeCode(dbType), flags, mode, status)]
        + (if r.Ok? then [] else Teardown(db, EnvPtrOf(old(env)), old(env).Some? && old(env.value.inner.strong) == 1))
      ensures r.Ok? <==> status == SUCCESS
      ensures r.Ok? ==>
        && fresh(r.value) && r.value.engine == engine && r.value.db == db && r.value.env == old(env) && r.value.Valid()
        && engine.handles == old(engine.handles)[db := DbNative(EnvPtrOf(old(env)), DbOpened)]
      ensures r.Err? ==>
        && r.error == NewError(status)
        && engine.Releases(db) == 1
        && engine.handles == TornDown(old(engine.handles), db, EnvPtrOf(old(env)), old(env).Some? && old(env.value.inner.strong) == 1)
      ensures r.Err? && old(env).Some? ==> old(env.value.inner).holders == old(env.value.inner.holders) - {old(env.value.id)}
                                           && old(env.value.inner).Valid()
      ensures old(env).Some? ==> old(env.value.inner).owners == old(env.value.inner.owners)[db := old(env.value.id)]
      ensures r.Ok? && old(env).Some? ==> old(env.value.inner).holders == old(env.value.inner.holders)
    {
      var e := env;
      env := None;
      var dbPtr := CreateHandle(e);
      db := dbPtr;
      r, status := OpenHandle(e, dbPtr, old(engine.handles), old(engine.trace));
    }

    /**
      The `db_create` step of `open`, taken to succeed: a new handle in the
      environment of `e`, which the reference `e`, if any, from now on keeps
      alive for it.
    */
    method CreateHandle(e: Option<Environment>) returns (dbPtr: Handle)
      requires engine.Valid()
      requires e.Some? ==> e.value.inner.data.engine == engine && e.value.Valid() && e.value.KeepsNoDb()
      requires txn.Some? ==> txn.value.engine == engine && txn.value.Live()
      modifies engine, if e.Some? then {e.value.inner} else {}
      ensures engine.Valid() && dbPtr != Null && dbPtr !in old(engine.handles)
      ensures txn.Some? ==> txn.value.Live()
      ensures engine.nextHandle == old(engine.nextHandle) + 1
      ensures engine.handles == old(engine.handles)[dbPtr := DbNative(EnvPtrOf(e), DbCreated)]
      ensures engine.trace == old(engine.trace) + [DbCreate(dbPtr, EnvPtrOf(e))]
      ensures e.Some? ==> && e.value.inner.data.engine == engine && e.value.Valid() && e.value.Keeps(dbPtr)
                          && e.value.inner.holders == old(e.value.inner.holders)
                          && e.value.inner.strong == old(e.value.inner.strong)
                          && e.value.inner.owners == old(e.value.inner.owners)[dbPtr := e.value.id]
    {
      var envPtr := EnvPtrOf(e);
      label Start:
      dbPtr := engine.DbCreate(envPtr);
      if e.Some? {
        assert forall d :: engine.LiveDbIn(envPtr, d) && d != dbPtr ==> old@Start(engine.LiveDbIn(envPtr, d));
        assert e.value.inner.Counted() && e.value.inner.OwnedExcept(dbPtr);
        e.value.Adopt(dbPtr);
      }
    }

    /**
      The `DB->open` step of `open`, on the handle `dbPtr` just created in the
      environment of `e`: on status 0 a `Db` takes the handle and the
      reference `e`; otherwise both are given back. `table` and `log` are
      the engine's handle table and log before that `db_create`.
    */
    method OpenHandle(e: Option<Environment>, dbPtr: Handle, ghost table: map<Handle, Native>, ghost log: seq<Call>)
      returns (r: Result<Db, Error>, ghost status: int32)
      requires engine.Valid() && engine.handles == table[dbPtr := DbNative(EnvPtrOf(e), DbCreated)]
      requires engine.trace == log + [DbCreate(dbPtr, EnvPtrOf(e))]
      requires e.Some? ==> e.value.inner.data.engine == engine && e.value.Valid() && e.value.Keeps(dbPtr)
      requires txn.Some? ==> txn.value.engine == engine && txn.value.Live()
      modifies engine, if e.Some? then {e.value.inner} else {}
      ensures engine.Valid() && engine.nextHandle == old(engine.nextHandle)
      ensures engine.trace == log + [DbCreate(dbPtr, EnvPtrOf(e)), DbOpen(dbPtr, UnwrapTxnPtr(txn), file, name, DbTypeCode(dbType), flags, mode, status)]
                              + (if r.Ok? then [] else Teardown(dbPtr, EnvPtrOf(e), e.Some? && old(e.value.inner.strong) == 1))
      ensures r.Ok? <==> status == SUCCESS
      ensures r.Ok? ==>
        && fresh(r.value) && r.value.engine == engine && r.value.db == dbPtr && r.value.env == e && r.value.Valid()
        && engine.handles == table[dbPtr := DbNative(EnvPtrOf(e), DbOpened)]
      ensures r.Err? ==>
        && r.error == NewError(status)
        && engine.Releases(dbPtr) == 1
        && engine.handles == TornDown(table, dbPtr, EnvPtrOf(e), e.Some? && old(e.value.inner.strong) == 1)
      ensures r.Err? && e.Some? ==> e.value.inner.holders == old(e.value.inner.holders) - {e.value.id} && e.value.inner.Valid()
      ensures e.Some? ==> e.value.inner.owners == old(e.value.inner.owners)
      ensures r.Ok? && e.Some? ==> e.value.inner.holders == old(e.value.inner.holders)
    {
      var ret := OpenNative(e, dbPtr, table, log);
      status := ret;
      ghost var logged := engine.trace;
      if ret == SUCCESS {
        var d := new Db(engine, e, dbPtr);
        r := Ok(d);
        assert engine.trace == logged + [];
      } else {
        r := Err(NewError(ret));
        ghost var lastRef := e.Some? && e.value.inner.strong == 1;
        CloseCreated(engine, e, dbPtr, table, logged);
        assert engine.trace == logged + Teardown(dbPtr, EnvPtrOf(e), lastRef);
      }
    }

    /**
      The `DB->open` call itself, with the builder's settings, on the handle
      `db_create` just added to `table` after the calls in `log`; the
      reference `e` still keeps the environment alive for it.
    */
    method OpenNative(e: Option<Environment>, dbPtr: Handle, ghost table: map<Handle, Native>, ghost log: seq<Call>)
      returns (status: int32)
      requires engine.Valid() && engine.handles == table[dbPtr := DbNative(EnvPtrOf(e), DbCreated)]
      requires engine.trace == log + [DbCreate(dbPtr, EnvPtrOf(e))]
      requires e.Some? ==> e.value.inner.data.engine == engine && e.value.Valid() && e.value.Keeps(dbPtr)
      requires txn.Some? ==> txn.value.engine == engine && txn.value.Live()
      modifies engine
      ensures engine.Valid() && engine.nextHandle == old(engine.nextHandle)
      ensures engine.trace == log + [DbCreate(dbPtr, EnvPtrOf(e)), DbOpen(dbPtr, UnwrapTxnPtr(txn), file, name, DbTypeCode(dbType), flags, mode, status)]
      ensures engine.handles == table[dbPtr := DbNative(EnvPtrOf(e), if status == SUCCESS then DbOpened else DbCreated)]
      ensures e.Some? ==> e.value.Valid() && e.value.Keeps(dbPtr)
    {
      label Created:
      status := engine.DbOpen(dbPtr, UnwrapTxnPtr(txn), file, name, DbTypeCode(dbType), flags, mode);
      if e.Some? {
        StillValid@Created(e.value);
      }
    }

    /** `Drop for DatabaseBuilder`: drops the environment reference, if any. */
    method Release()
      requires Valid()
      modifies engine, if env.Some? then {env.value.inner} else {}
      ensures engine.Valid() && engine.nextHandle == old(engine.nextHandle)
      ensures env.None? ==> engine.trace == old(engine.trace) && engine.handles == old(engine.handles)
      ensures env.Some? ==> && env.value.inner.holders == old(env.value.inner.holders) - {env.value.id}
                            && env.value.inner.strong == old(env.value.inner.strong) - 1
                            && env.value.inner.owners == old(env.value.inner.owners) && env.value.inner.Valid()
      ensures env.Some? && old(env.value.inner.strong) > 1 ==> engine.trace == old(engine.trace) && engine.handles == old(engine.handles)
      ensures env.Some? && old(env.value.inner.strong) == 1 ==>
        && engine.trace == old(engine.trace) + [EnvClose(EnvPtrOf(env))]
        && engine.handles == old(engine.handles)[EnvPtrOf(env) := EnvNative(EnvClosed)]
    {
      if env.Some? {
        env.value.Drop();
      }
    }
  }

  /** `Db`, shared as `Database = Arc<Db>`: an open database handle and the environment reference it holds. */
  class Db {
    const engine: Engine
    const env: Option<Environment>
    const db: Handle

    ghost predicate Valid()
      reads this, engine, if env.Some? then {env.value.inner} else {}
    {
      && engine.Valid()
      && engine.IsOpenDb(db)
      && engine.handles[db].env == EnvPtrOf(env)
      && (env.Some? ==> env.value.inner.data.engine == engine && env.value.Valid() && env.value.Keeps(db))
    }

    constructor (engine: Engine, env: Option<Environment>, db: Handle)
      requires engine.Valid() && engine.IsOpenDb(db) && engine.handles[db].env == EnvPtrOf(env)
      requires env.Some? ==> env.value.Valid() && env.value.inner.data.engine == engine && env.value.Keeps(db)
      ensures this.engine == engine && this.env == env && this.db == db && Valid()
    {
      this.engine := engine;
      this.env := env;
      this.db := db;
    }

    /**
      `Db::get` with a malloc'd result: the engine sees the first `len as u32`
      bytes of `key`; status 0 gives the engine's block, `DB_NOTFOUND` gives
      `None`, any other status is an error.
    */
    method Get(txn: Option<Transaction>, key: seq<byte>, flags: Flags) returns (r: Result<Option<Dbt>, Error>)
      requires Valid()
      requires txn.Some? ==> txn.value.engine == engine && txn.value.Live()
      modifies engine
      ensures Valid()
      ensures |engine.trace| == |old(engine.trace)| + 1 && engine.LastCall().Get?
      ensures var c := engine.LastCall();
        && engine.trace == old(engine.trace) + [c]
        && c.db == db && c.txn == UnwrapTxnPtr(txn) && c.key == CallerBytes(key) && c.flags == flags
        && r == GetOutcome(c.status, c.dataOut)
        && (c.status == SUCCESS ==> && c.dataOut.data !in old(engine.handles) && engine.IsLiveBlock(c.dataOut.data)
                                    && engine.handles == old(engine.handles)[c.dataOut.data := engine.handles[c.dataOut.data]]
                                    && Readable(c.dataOut, engine.Memory())
                                    && engine.nextHandle == old(engine.nextHandle) + 1)
        && (c.status != SUCCESS ==> engine.nextHandle == old(engine.nextHandle) && engine.handles == old(engine.handles))
    {
      var status, data := engine.Get(db, UnwrapTxnPtr(txn), CallerBytes(key), flags);
      r := GetOutcome(status, data);
    }

    /** `Db::put`: the engine sees the first `len as u32` bytes of key and value. */
    method Put(txn: Option<Transaction>, key: seq<byte>, data: seq<byte>, flags: Flags) returns (r: Result<(), Error>)
      requires Valid()
      requires txn.Some? ==> txn.value.engine == engine && txn.value.Live()
      modifies engine
      ensures Valid()
      ensures engine.nextHandle == old(engine.nextHandle) && engine.handles == old(engine.handles)
      ensures |engine.trace| == |old(engine.trace)| + 1 && engine.LastCall().Put?
      ensures var c := engine.LastCall();
        && engine.trace == old(engine.trace) + [c]
        && c.db == db && c.txn == UnwrapTxnPtr(txn) && c.key == CallerBytes(key) && c.value == CallerBytes(data)
        && c.flags == flags
        && r == UnitOutcome(c.status)
    {
      var status := engine.Put(db, UnwrapTxnPtr(txn), CallerBytes(key), CallerBytes(data), flags);
      r := UnitOutcome(status);
    }

    /** `Db::cursor` */
    method Cursor() returns (r: Result<Cursor, Error>)
      requires Valid()
      modifies engine
      ensures Valid()
      ensures |engine.trace| == |old(engine.trace)| + 1 && engine.LastCall().CursorOpen?
      ensures var c := engine.LastCall();
        && engine.trace == old(engine.trace) + [c]
        && c.db == db
        && (r.Ok? <==> c.status == SUCCESS)
        && (r.Err? ==> r.error == NewError(c.status) && engine.handles == old(engine.handles)
                       && engine.nextHandle == old(engine.nextHandle))
        && (r.Ok? ==> && fresh(r.value) && r.value.engine == engine && r.value.dbcPtr == c.cursor
                      && engine.nextHandle == old(engine.nextHandle) + 1
                      && c.cursor !in old(engine.handles)
                      && engine.handles == old(engine.handles)[c.cursor := CursorNative(db)]
                      && r.value.Valid() && r.value.DbHandle() == db)
    {
      var status, dbcPtr := engine.CursorOpen(db);
      if status == SUCCESS {
        var cursor := new Cursor(engine, dbcPtr);
        r := Ok(cursor);
      } else {
        r := Err(NewError(status));
      }
    }

    /**
      `Drop for Db`, run when the last `Database` reference goes: closes the
      handle, then drops the environment reference it held.
    */
    method Release()
      requires Valid()
      modifies engine, if env.Some? then {env.value.inner} else {}
      ensures engine.Valid() && engine.nextHandle == old(engine.nextHandle)
      ensures engine.Releases(db) == 1
      ensures engine.trace == old(engine.trace) + Teardown(db, EnvPtrOf(env), env.Some? && old(env.value.inner.strong) == 1)
      ensures engine.handles == TornDown(old(engine.handles), db, EnvPtrOf(env), env.Some? && old(env.value.inner.strong) == 1)
      ensures env.Some? ==> && env.value.inner.holders == old(env.value.inner.holders) - {env.value.id}
                            && env.value.inner.owners == old(env.value.inner.owners) && env.value.inner.Valid()
    {
      CloseDb(engine, env, db);
    }
  }

  /**
    Closes a database handle, then drops the environment reference that kept
    its environment alive for it: the drop of a `Db`, and the end of a
    failed `DatabaseBuilder::open`.
  */
  method CloseDb(engine: Engine, env: Option<Environment>, db: Handle)
    requires engine.Valid() && db in engine.handles && engine.handles[db].DbNative? && engine.handles[db].dbPhase != DbClosed
    requires engine.handles[db].env == EnvPtrOf(env)
    requires env.Some? ==> env.value.inner.data.engine == engine && env.value.Valid() && env.value.Keeps(db)
    modifies engine, if env.Some? then {env.value.inner} else {}
    ensures engine.Valid() && engine.nextHandle == old(engine.nextHandle)
    ensures engine.Releases(db) == 1
    ensures engine.trace == old(engine.trace) + Teardown(db, EnvPtrOf(env), env.Some? && old(env.value.inner.strong) == 1)
    ensures engine.handles == TornDown(old(engine.handles), db, EnvPtrOf(env), env.Some? && old(env.value.inner.strong) == 1)
    ensures env.Some? ==> && env.value.inner.holders == old(env.value.inner.holders) - {env.value.id}
                          && env.value.inner.owners == old(env.value.inner.owners) && env.value.inner.Valid()
  {
    label Open:
    engine.DbClose(db);
    if env.Some? {
      StillValid@Open(env.value);
      env.value.Drop();
    }
  }

  /**
    The end of a failed `DatabaseBuilder::open`: `CloseDb` on the handle
    `db_create` added to `table` and that `DB->open` left unopened, after
    the calls in `log`.
  */
  method CloseCreated(engine: Engine, e: Option<Environment>, dbPtr: Handle, ghost table: map<Handle, Native>, ghost log: seq<Call>)
    requires engine.Valid() && engine.handles == table[dbPtr := DbNative(EnvPtrOf(e), DbCreated)] && engine.trace == log
    requires e.Some? ==> e.value.inner.data.engine == engine && e.value.Valid() && e.value.Keeps(dbPtr)
    modifies engine, if e.Some? then {e.value.inner} else {}
    ensures engine.Valid() && engine.nextHandle == old(engine.nextHandle) && engine.Releases(dbPtr) == 1
    ensures engine.trace == log + Teardown(dbPtr, EnvPtrOf(e), e.Some? && old(e.value.inner.strong) == 1)
    ensures engine.handles == TornDown(table, dbPtr, EnvPtrOf(e), e.Some? && old(e.value.inner.strong) == 1)
    ensures e.Some? ==> && e.value.inner.holders == old(e.value.inner.holders) - {e.value.id}
                        && e.value.inner.owners == old(e.value.inner.owners) && e.value.inner.Valid()
  {
    assert table[dbPtr := DbNative(EnvPtrOf(e), DbCreated)][dbPtr := DbNative(EnvPtrOf(e), DbClosed)]
        == table[dbPtr := DbNative(EnvPtrOf(e), DbClosed)];
    CloseDb(engine, e, dbPtr);
  }

  /**
    The calls that give back a database handle: `DB->close`, followed by the
    environment's close when the handle held its last reference.
  */
  ghost function Teardown(db: Handle, envPtr: Handle, lastRef: bool): seq<Call>
  {
    [DbClose(db)] + (if lastRef then [EnvClose(envPtr)] else [])
  }

  /**
    The handle table after `Teardown`: the database handle closed, and the
    environment handle closed too when the database held its last reference.
  */
  ghost function TornDown(handles: map<Handle, Native>, db: Handle, envPtr: Handle, lastRef: bool): map<Handle, Native>
  {
    var closed := handles[db := DbNative(envPtr, DbClosed)];
    if lastRef then closed[envPtr := EnvNative(EnvClosed)] else closed
  }

  /** `Cursor`: a native cursor handle; the binding never closes it. */
  class Cursor {
    const engine: Engine
    const dbcPtr: Handle

    ghost predicate Valid()
      reads this, engine
    {
      engine.Valid() && dbcPtr in engine.handles && engine.handles[dbcPtr].CursorNative?
    }

    /** The database the cursor walks. */
    ghost function DbHandle(): Handle
      reads this, engine
      requires Valid()
    {
      engine.handles[dbcPtr].db
    }

    constructor (engine: Engine, dbcPtr: Handle)
      ensures this.engine == engine && this.dbcPtr == dbcPtr
    {
      this.engine := engine;
      this.dbcPtr := dbcPtr;
    }

    /**
      `Cursor::next`: one `DB_NEXT` step; on status 0 both key and value are
      engine blocks, and any other status, `DB_NOTFOUND` at the end included,
      is an error. The caller keeps the cursor's database open.
    */
    method Next() returns (r: Result<(Option<Dbt>, Option<Dbt>), Error>)
      requires Valid() && engine.IsOpenDb(DbHandle())
      modifies engine
      ensures Valid() && DbHandle() == old(DbHandle())
      ensures |engine.trace| == |old(engine.trace)| + 1 && engine.LastCall().CursorGet?
      ensures var c := engine.LastCall();
        && engine.trace == old(engine.trace) + [c]
        && c.cursor == dbcPtr
        && r == NextOutcome(c.status, c.keyOut, c.dataOut)
        && (c.status == SUCCESS ==> && c.keyOut.data !in old(engine.handles) && c.dataOut.data !in old(engine.handles)
                                    && c.keyOut.data != c.dataOut.data
                                    && Readable(c.keyOut, engine.Memory()) && Readable(c.dataOut, engine.Memory())
                                    && engine.nextHandle == old(engine.nextHandle) + 2
                                    && engine.handles == old(engine.handles)[c.keyOut.data := engine.handles[c.keyOut.data]]
                                                                            [c.dataOut.data := engine.handles[c.dataOut.data]])
        && (c.status != SUCCESS ==> engine.nextHandle == old(engine.nextHandle) && engine.handles == old(engine.handles))
    {
      var status, key, data := engine.CursorGet(dbcPtr);
      r := NextOutcome(status, key, data);
    }
  }
}
