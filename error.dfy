/**
  The error value of the binding and the engine's named status codes
  (src/error.rs). An `Error` carries the engine's status code and nothing
  else; its message is looked up only when it is asked for.
*/
module Errors {

  /** Rust's `i32`, the type of every engine status code. */
  type int32 = x: int | -0x8000_0000 <= x < 0x8000_0000

  /** The status code of a successful engine call. */
  const SUCCESS: int32 := 0

  /** An error returned from an engine call. */
  datatype Error = Error(errno: int32)

  /** `Error::new`: wraps the code; no lookup happens here. */
  function NewError(code: int32): (e: Error)
    ensures e.errno == code
  {
    Error(code)
  }

  /** `Error::errno`: the code is all an error carries, so rebuilding from it gives the same error. */
  function Errno(e: Error): (code: int32)
    ensures NewError(code) == e
  {
    e.errno
  }

  /** `Error::new(e).errno() == e`, and two errors are equal exactly when their codes are. */
  lemma ErrnoRoundTrip(a: int32, b: int32)
    ensures Errno(NewError(a)) == a
    ensures NewError(a) == NewError(b) <==> a == b
  {
  }

  /**
    `Error::as_string`: the engine's `db_strerror` applied to the code at the
    time of the call. The engine's lookup is a parameter of the model.
  */
  function AsString(e: Error, strerror: int32 -> string): (s: string)
    ensures s == strerror(Errno(e))
  {
    strerror(e.errno)
  }

  /** `Display for Error` writes `as_string()`. */
  function Display(e: Error, strerror: int32 -> string): (s: string)
    ensures s == AsString(e, strerror)
  {
    AsString(e, strerror)
  }

  /**
    Since an error holds only its code, its message is fixed by the code and
    the lookup in force when it is displayed, never by when it was built.
  */
  lemma MessageDependsOnlyOnCode(e1: Error, e2: Error, strerror: int32 -> string)
    requires Errno(e1) == Errno(e2)
    ensures Display(e1, strerror) == Display(e2, strerror)
  {
  }

  const DB_BUFFER_SMALL: int32      := -30999
  const DB_DONOTINDEX: int32        := -30998
  const DB_FOREIGN_CONFLICT: int32  := -30997
  const DB_KEYEMPTY: int32          := -30996
  const DB_KEYEXIST: int32          := -30995
  const DB_LOCK_DEADLOCK: int32     := -30994
  const DB_LOCK_NOTGRANTED: int32   := -30993
  const DB_LOG_BUFFER_FULL: int32   := -30992
  const DB_NOSERVER: int32          := -30991
  const DB_NOSERVER_HOME: int32     := -30990
  const DB_NOSERVER_ID: int32       := -30989
  const DB_NOTFOUND: int32          := -30988
  const DB_OLD_VERSION: int32       := -30987
  const DB_PAGE_NOTFOUND: int32     := -30986
  const DB_REP_DUPMASTER: int32     := -30985
  const DB_REP_HANDLE_DEAD: int32   := -30984
  const DB_REP_HOLDELECTION: int32  := -30983
  const DB_REP_IGNORE: int32        := -30982
  const DB_REP_ISPERM: int32        := -30981
  const DB_REP_JOIN_FAILURE: int32  := -30980
  const DB_REP_LEASE_EXPIRED: int32 := -30979
  const DB_REP_LOCKOUT: int32       := -30978
  const DB_REP_NEWSITE: int32       := -30977
  const DB_REP_NOTPERM: int32       := -30976
  const DB_REP_UNAVAIL: int32       := -30975
  const DB_RUNRECOVERY: int32       := -30974
  const DB_SECONDARY_BAD: int32     := -30973
  const DB_VERIFY_BAD: int32        := -30972
  const DB_VERSION_MISMATCH: int32  := -30971

  /** The named codes in the order the source declares them. */
  const NamedCodes: seq<int32> := [
    DB_BUFFER_SMALL, DB_DONOTINDEX, DB_FOREIGN_CONFLICT, DB_KEYEMPTY,
    DB_KEYEXIST, DB_LOCK_DEADLOCK, DB_LOCK_NOTGRANTED, DB_LOG_BUFFER_FULL,
    DB_NOSERVER, DB_NOSERVER_HOME, DB_NOSERVER_ID, DB_NOTFOUND,
    DB_OLD_VERSION, DB_PAGE_NOTFOUND, DB_REP_DUPMASTER, DB_REP_HANDLE_DEAD,
    DB_REP_HOLDELECTION, DB_REP_IGNORE, DB_REP_ISPERM, DB_REP_JOIN_FAILURE,
    DB_REP_LEASE_EXPIRED, DB_REP_LOCKOUT, DB_REP_NEWSITE, DB_REP_NOTPERM,
    DB_REP_UNAVAIL, DB_RUNRECOVERY, DB_SECONDARY_BAD, DB_VERIFY_BAD,
    DB_VERSION_MISMATCH
  ]

  /**
    The 29 named codes run consecutively from DB_BUFFER_SMALL to
    DB_VERSION_MISMATCH, so they are negative and pairwise distinct.
  */
  lemma NamedCodesConsecutive()
    ensures |NamedCodes| == 29
    ensures NamedCodes[0] == DB_BUFFER_SMALL && NamedCodes[28] == DB_VERSION_MISMATCH
    ensures forall i :: 0 <= i < |NamedCodes| ==> NamedCodes[i] == DB_BUFFER_SMALL + i
    ensures forall i :: 0 <= i < |NamedCodes| ==> NamedCodes[i] < SUCCESS
    ensures forall i, j :: 0 <= i < j < |NamedCodes| ==> NamedCodes[i] != NamedCodes[j]
  {
    forall i | 0 <= i < |NamedCodes|
      ensures NamedCodes[i] == DB_BUFFER_SMALL + i
    {
      if i < 8 {
        assert i == 0 || i == 1 || i == 2 || i == 3 || i == 4 || i == 5 || i == 6 || i == 7;
      } else if i < 16 {
        assert i == 8 || i == 9 || i == 10 || i == 11 || i == 12 || i == 13 || i == 14 || i == 15;
      } else if i < 24 {
        assert i == 16 || i == 17 || i == 18 || i == 19 || i == 20 || i == 21 || i == 22 || i == 23;
      } else {
        assert i == 24 || i == 25 || i == 26 || i == 27 || i == 28;
      }
    }
  }

  /**
    The "not found" code is a named code distinct from success; this is what
    keeps `get`'s found / absent / error split unambiguous.
  */
  lemma NotFoundIsNotSuccess()
    ensures DB_NOTFOUND != SUCCESS
    ensures DB_NOTFOUND in NamedCodes && NamedCodes[11] == DB_NOTFOUND
  {
  }
}
