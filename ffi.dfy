/**
  The storage engine behind the binding, seen only through its call
  interface. Nothing of its storage is modelled: it keeps a table of the
  native handles it has handed out (environments, databases, transactions,
  cursors and the result blocks it allocates) with the life-cycle phase of
  each, and a log of every call made to it with the arguments and the
  status it answered. Every status it answers is arbitrary.
*/
module Ffi {
  import opened Wrappers
  import opened Errors

  /** A native pointer; `Null` is the null pointer. */
  type Handle = nat
  const Null: Handle := 0

  type u32 = x: int | 0 <= x < 0x1_0000_0000
  type byte = x: int | 0 <= x < 0x100

  /** The engine's option bit set, passed through unchanged. */
  type Flags = u32
  const DB_NONE: Flags := 0

  /** `ffi::DBT` as the binding reads it: a data pointer and a length. */
  datatype RawDbt = RawDbt(data: Handle, size: u32)

  /** The three commit modes of src/db.rs:462-470, as engine commit flags. */
  datatype CommitType = Inherit | NoSync | Sync

  datatype EnvPhase = EnvCreated | EnvOpened | EnvClosed
  datatype DbPhase = DbCreated | DbOpened | DbClosed
  datatype TxnPhase = Active | Committed | Aborted

  /** What a native handle refers to, and where it is in its life. */
  datatype Native =
    | EnvNative(envPhase: EnvPhase)
    | DbNative(env: Handle, dbPhase: DbPhase)
    | TxnNative(txnEnv: Handle, parent: Handle, txnPhase: TxnPhase)
    | CursorNative(db: Handle)
    | BlockNative(bytes: seq<byte>, freed: bool)

  /** Whether the handle has been given back to the engine (closed, resolved or freed). */
  predicate Released(n: Native) {
    match n
    case EnvNative(p) => p == EnvClosed
    case DbNative(_, p) => p == DbClosed
    case TxnNative(_, _, p) => p != Active
    case CursorNative(_) => false
    case BlockNative(_, freed) => freed
  }

  /** One call into the engine, with its arguments and the status it answered. */
  datatype Call =
    | EnvCreate(env: Handle)
    | EnvOpen(env: Handle, home: Option<string>, flags: Flags, mode: int32, status: int32)
    | EnvClose(env: Handle)
    | TxnBegin(env: Handle, parent: Handle, flags: Flags, txn: Handle, status: int32)
    | TxnCommit(txn: Handle, commitMode: CommitType, status: int32)
    | TxnAbort(txn: Handle, status: int32)
    | DbCreate(db: Handle, env: Handle)
    | DbOpen(db: Handle, txn: Handle, file: Option<string>, name: Option<string>,
             dbType: int, flags: Flags, mode: int32, status: int32)
    | DbClose(db: Handle)
    | Get(db: Handle, txn: Handle, key: seq<byte>, flags: Flags, status: int32, dataOut: RawDbt)
    | Put(db: Handle, txn: Handle, key: seq<byte>, value: seq<byte>, flags: Flags, status: int32)
    | CursorOpen(db: Handle, cursor: Handle, status: int32)
    | CursorGet(cursor: Handle, status: int32, keyOut: RawDbt, dataOut: RawDbt)
    | Free(block: Handle)

  /** Whether the call gives handle `h` back: a close, a commit, an abort or a `free`. */
  predicate GivesBack(c: Call, h: Handle) {
    match c
    case EnvClose(e) => e == h
    case TxnCommit(t, _, _) => t == h
    case TxnAbort(t, _) => t == h
    case DbClose(d) => d == h
    case Free(b) => b == h
    case _ => false
  }

  /** How many calls of the log give handle `h` back. */
  function ReleaseCount(trace: seq<Call>, h: Handle): nat {
    if trace == [] then 0
    else ReleaseCount(trace[..|trace| - 1], h) + (if GivesBack(trace[|trace| - 1], h) then 1 else 0)
  }

  /** Appending one call adds one to the count of exactly the handle that call gives back. */
  lemma ReleaseCountAppend(trace: seq<Call>, c: Call)
    ensures forall h :: ReleaseCount(trace + [c], h) == ReleaseCount(trace, h) + (if GivesBack(c, h) then 1 else 0)
  {
    assert (trace + [c])[..|trace|] == trace;
  }

  /**
    How the bytes of a caller's slice reach the engine: the binding stores
    `len() as u32` as the size, so only the first `len mod 2^32` bytes are seen.
  */
  function CallerBytes(s: seq<byte>): (seen: seq<byte>)
    ensures |s| < 0x1_0000_0000 ==> seen == s
    ensures seen <= s
  {
    s[..|s| % 0x1_0000_0000]
  }

  class Engine {
    /** The next handle value the engine hands out. */
    var nextHandle: Handle
    /** Every native handle handed out so far, with its phase. */
    ghost var handles: map<Handle, Native>
    /** Every call made so far, in order. */
    ghost var trace: seq<Call>

    ghost predicate IsOpenEnv(e: Handle)
      reads this
    {
      e in handles && handles[e] == EnvNative(EnvOpened)
    }

    /** `d` is a database handle of environment `e` that has not been closed yet. */
    ghost predicate LiveDbIn(e: Handle, d: Handle)
      reads this
    {
      d in handles && handles[d].DbNative? && handles[d].env == e && handles[d].dbPhase != DbClosed
    }

    ghost predicate NoLiveDbIn(e: Handle)
      reads this
    {
      forall d :: !LiveDbIn(e, d)
    }

    ghost predicate IsOpenDb(d: Handle)
      reads this
    {
      d in handles && handles[d].DbNative? && handles[d].dbPhase == DbOpened
    }

    ghost predicate IsActiveTxn(t: Handle)
      reads this
    {
      t in handles && handles[t].TxnNative? && handles[t].txnPhase == Active
    }

    ghost predicate IsLiveBlock(b: Handle)
      reads this
    {
      b in handles && handles[b].BlockNative? && !handles[b].freed
    }

    /** The engine-allocated memory that may still be read: the blocks not yet freed. */
    ghost function Memory(): map<Handle, seq<byte>>
      reads this
    {
      map b | b in handles && handles[b].BlockNative? && !handles[b].freed :: handles[b].bytes
    }

    /** How many calls so far gave `h` back. */
    ghost function Releases(h: Handle): nat
      reads this
    {
      ReleaseCount(trace, h)
    }

    ghost function LastCall(): Call
      reads this
      requires trace != []
    {
      trace[|trace| - 1]
    }

    ghost predicate Valid()
      reads this
    {
      && Null < nextHandle
      && Null !in handles
      && (forall h :: h in handles ==> h < nextHandle)
      // every handle is given back at most once, and exactly when its phase says so
      && (forall h :: ReleaseCount(trace, h) == (if h in handles && Released(handles[h]) then 1 else 0))
      // a database that is not closed belongs to no environment or to an open one
      && (forall d :: d in handles && handles[d].DbNative? && handles[d].dbPhase != DbClosed && handles[d].env != Null
            ==> IsOpenEnv(handles[d].env))
    }

    constructor ()
      ensures Valid() && handles == map[] && trace == []
    {
      nextHandle := 1;
      handles := map[];
      trace := [];
    }

    /** Appends `c` to the log, keeping the release counts in step. */
    ghost method Log(c: Call)
      modifies this`trace
      ensures trace == old(trace) + [c]
      ensures forall h :: ReleaseCount(trace, h) == ReleaseCount(old(trace), h) + (if GivesBack(c, h) then 1 else 0)
    {
      ReleaseCountAppend(trace, c);
      trace := trace + [c];
    }

    /** `db_env_create`; allocation is taken to succeed. */
    method EnvCreate() returns (env: Handle)
      requires Valid()
      modifies this
      ensures Valid()
      ensures env == old(nextHandle) && env != Null && env !in old(handles)
      ensures nextHandle == old(nextHandle) + 1
      ensures handles == old(handles)[env := EnvNative(EnvCreated)]
      ensures trace == old(trace) + [Call.EnvCreate(env)]
    {
      env := nextHandle;
      nextHandle := nextHandle + 1;
      handles := handles[env := EnvNative(EnvCreated)];
      Log(Call.EnvCreate(env));
    }

    /** `DB_ENV->open` */
    method EnvOpen(env: Handle, home: Option<string>, flags: Flags, mode: int32) returns (status: int32)
      requires Valid() && env in handles && handles[env] == EnvNative(EnvCreated)
      modifies this
      ensures Valid() && nextHandle == old(nextHandle)
      ensures handles == old(handles)[env := EnvNative(if status == SUCCESS then EnvOpened else EnvCreated)]
      ensures trace == old(trace) + [Call.EnvOpen(env, home, flags, mode, status)]
    {
      status :| true;
      handles := handles[env := EnvNative(if status == SUCCESS then EnvOpened else EnvCreated)];
      Log(Call.EnvOpen(env, home, flags, mode, status));
    }

    /** `DB_ENV->close`; the engine demands that no database of the environment is still open. */
    method EnvClose(env: Handle)
      requires Valid() && env in handles && handles[env].EnvNative? && handles[env].envPhase != EnvClosed
      requires NoLiveDbIn(env)
      modifies this
      ensures Valid() && nextHandle == old(nextHandle)
      ensures handles == old(handles)[env := EnvNative(EnvClosed)]
      ensures trace == old(trace) + [Call.EnvClose(env)]
    {
      forall d | d in handles && handles[d].DbNative? && handles[d].env == env
        ensures handles[d].dbPhase == DbClosed
      {
        assert !LiveDbIn(env, d);
      }
      handles := handles[env := EnvNative(EnvClosed)];
      Log(Call.EnvClose(env));
    }

    /** `DB_ENV->txn_begin` */
    method TxnBegin(env: Handle, parent: Handle, flags: Flags) returns (status: int32, txn: Handle)
      requires Valid() && IsOpenEnv(env)
      requires parent != Null ==> IsActiveTxn(parent)
      modifies this
      ensures Valid()
      ensures status == SUCCESS ==> txn == old(nextHandle) && txn !in old(handles) && nextHandle == old(nextHandle) + 1
                                    && handles == old(handles)[txn := TxnNative(env, parent, Active)]
      ensures status != SUCCESS ==> txn == Null && nextHandle == old(nextHandle) && handles == old(handles)
      ensures trace == old(trace) + [Call.TxnBegin(env, parent, flags, txn, status)]
    {
      status :| true;
      if status == SUCCESS {
        txn := nextHandle;
        nextHandle := nextHandle + 1;
        handles := handles[txn := TxnNative(env, parent, Active)];
      } else {
        txn := Null;
      }
      Log(Call.TxnBegin(env, parent, flags, txn, status));
    }

    /** `DB_TXN->commit`; the handle is resolved whatever the status. */
    method TxnCommit(txn: Handle, mode: CommitType) returns (status: int32)
      requires Valid() && IsActiveTxn(txn)
      modifies this
      ensures Valid() && nextHandle == old(nextHandle)
      ensures handles == old(handles)[txn := old(handles[txn]).(txnPhase := Committed)]
      ensures trace == old(trace) + [Call.TxnCommit(txn, mode, status)]
    {
      status :| true;
      handles := handles[txn := handles[txn].(txnPhase := Committed)];
      Log(Call.TxnCommit(txn, mode, status));
    }

    /** `DB_TXN->abort`; the handle is resolved whatever the status. */
    method TxnAbort(txn: Handle) returns (status: int32)
      requires Valid() && IsActiveTxn(txn)
      modifies this
      ensures Valid() && nextHandle == old(nextHandle)
      ensures handles == old(handles)[txn := old(handles[txn]).(txnPhase := Aborted)]
      ensures trace == old(trace) + [Call.TxnAbort(txn, status)]
    {
      status :| true;
      handles := handles[txn := handles[txn].(txnPhase := Aborted)];
      Log(Call.TxnAbort(txn, status));
    }

    /** `db_create`; allocation is taken to succeed. */
    method DbCreate(env: Handle) returns (db: Handle)
      requires Valid() && (env == Null || IsOpenEnv(env))
      modifies this
      ensures Valid()
      ensures db == old(nextHandle) && db != Null && db !in old(handles)
      ensures nextHandle == old(nextHandle) + 1
      ensures handles == old(handles)[db := DbNative(env, DbCreated)]
      ensures trace == old(trace) + [Call.DbCreate(db, env)]
    {
      db := nextHandle;
      nextHandle := nextHandle + 1;
      handles := handles[db := DbNative(env, DbCreated)];
      Log(Call.DbCreate(db, env));
    }

    /** `DB->open` */
    method DbOpen(db: Handle, txn: Handle, file: Option<string>, name: Option<string>,
                  dbType: int, flags: Flags, mode: int32) returns (status: int32)
      requires Valid() && db in handles && handles[db].DbNative? && handles[db].dbPhase == DbCreated
      requires txn != Null ==> IsActiveTxn(txn)
      modifies this
      ensures Valid() && nextHandle == old(nextHandle)
      ensures handles == old(handles)[db := old(handles[db]).(dbPhase := if status == SUCCESS then DbOpened else DbCreated)]
      ensures trace == old(trace) + [Call.DbOpen(db, txn, file, name, dbType, flags, mode, status)]
    {
      status :| true;
      handles := handles[db := handles[db].(dbPhase := if status == SUCCESS then DbOpened else DbCreated)];
      Log(Call.DbOpen(db, txn, file, name, dbType, flags, mode, status));
    }

    /** `DB->close`; its status is never looked at by the binding. */
    method DbClose(db: Handle)
      requires Valid() && db in handles && handles[db].DbNative? && handles[db].dbPhase != DbClosed
      modifies this
      ensures Valid() && nextHandle == old(nextHandle)
      ensures handles == old(handles)[db := old(handles[db]).(dbPhase := DbClosed)]
      ensures trace == old(trace) + [Call.DbClose(db)]
    {
      handles := handles[db := handles[db].(dbPhase := DbClosed)];
      Log(Call.DbClose(db));
    }

    /** Allocates a fresh result block of arbitrary contents (`DB_DBT_MALLOC`). */
    method NewBlock() returns (raw: RawDbt, ghost bytes: seq<byte>)
      requires Valid()
      modifies this`nextHandle, this`handles
      ensures raw.data == old(nextHandle) && raw.data !in old(handles) && nextHandle == old(nextHandle) + 1
      ensures |bytes| == raw.size && handles == old(handles)[raw.data := BlockNative(bytes, false)]
      ensures Valid()
    {
      var size: u32 :| true;
      assert |seq(size, _ => 0)| == size;
      bytes :| |bytes| == size;
      raw := RawDbt(nextHandle, size);
      nextHandle := nextHandle + 1;
      handles := handles[raw.data := BlockNative(bytes, false)];
    }

    /** `DB->get` with `DB_DBT_MALLOC`: on success the value is in a fresh engine block. */
    method Get(db: Handle, txn: Handle, key: seq<byte>, flags: Flags) returns (status: int32, data: RawDbt)
      requires Valid() && IsOpenDb(db)
      requires txn != Null ==> IsActiveTxn(txn)
      modifies this
      ensures Valid()
      ensures status == SUCCESS ==> data.data == old(nextHandle) && data.data !in old(handles) && nextHandle == old(nextHandle) + 1
                                    && IsLiveBlock(data.data) && |handles[data.data].bytes| == data.size
                                    && handles == old(handles)[data.data := handles[data.data]]
      ensures status != SUCCESS ==> data == RawDbt(Null, 0) && nextHandle == old(nextHandle) && handles == old(handles)
      ensures trace == old(trace) + [Call.Get(db, txn, key, flags, status, data)]
    {
      status :| true;
      if status == SUCCESS {
        ghost var bytes;
        data, bytes := NewBlock();
      } else {
        data := RawDbt(Null, 0);
      }
      Log(Call.Get(db, txn, key, flags, status, data));
    }

    /** `DB->put` */
    method Put(db: Handle, txn: Handle, key: seq<byte>, value: seq<byte>, flags: Flags) returns (status: int32)
      requires Valid() && IsOpenDb(db)
      requires txn != Null ==> IsActiveTxn(txn)
      modifies this
      ensures Valid() && nextHandle == old(nextHandle) && handles == old(handles)
      ensures trace == old(trace) + [Call.Put(db, txn, key, value, flags, status)]
    {
      status :| true;
      Log(Call.Put(db, txn, key, value, flags, status));
    }

    /** `DB->cursor` */
    method CursorOpen(db: Handle) returns (status: int32, cursor: Handle)
      requires Valid() && IsOpenDb(db)
      modifies this
      ensures Valid()
      ensures status == SUCCESS ==> cursor == old(nextHandle) && cursor !in old(handles) && nextHandle == old(nextHandle) + 1
                                    && handles == old(handles)[cursor := CursorNative(db)]
      ensures status != SUCCESS ==> cursor == Null && nextHandle == old(nextHandle) && handles == old(handles)
      ensures trace == old(trace) + [Call.CursorOpen(db, cursor, status)]
    {
      status :| true;
      if status == SUCCESS {
        cursor := nextHandle;
        nextHandle := nextHandle + 1;
        handles := handles[cursor := CursorNative(db)];
      } else {
        cursor := Null;
      }
      Log(Call.CursorOpen(db, cursor, status));
    }

    /** `DBC->c_get` with `DB_NEXT`: on success key and value are in two fresh engine blocks. */
    method CursorGet(cursor: Handle) returns (status: int32, key: RawDbt, data: RawDbt)
      requires Valid() && cursor in handles && handles[cursor].CursorNative? && IsOpenDb(handles[cursor].db)
      modifies this
      ensures Valid()
      ensures status == SUCCESS ==> key.data == old(nextHandle) && data.data == old(nextHandle) + 1
                                    && nextHandle == old(nextHandle) + 2
                                    && IsLiveBlock(key.data) && |handles[key.data].bytes| == key.size
                                    && IsLiveBlock(data.data) && |handles[data.data].bytes| == data.size
                                    && handles == old(handles)[key.data := handles[key.data]][data.data := handles[data.data]]
      ensures status != SUCCESS ==> key == data == RawDbt(Null, 0) && nextHandle == old(nextHandle) && handles == old(handles)
      ensures trace == old(trace) + [Call.CursorGet(cursor, status, key, data)]
    {
      status :| true;
      if status == SUCCESS {
        ghost var keyBytes, dataBytes;
        key, keyBytes := NewBlock();
        data, dataBytes := NewBlock();
      } else {
        key, data := RawDbt(Null, 0), RawDbt(Null, 0);
      }
      Log(Call.CursorGet(cursor, status, key, data));
    }

    /** `libc::free` of an engine-allocated block. */
    method Free(block: Handle)
      requires Valid() && IsLiveBlock(block)
      modifies this
      ensures Valid() && nextHandle == old(nextHandle)
      ensures handles == old(handles)[block := old(handles[block]).(freed := true)]
      ensures trace == old(trace) + [Call.Free(block)]
    {
      handles := handles[block := handles[block].(freed := true)];
      Log(Call.Free(block));
    }
  }
}
