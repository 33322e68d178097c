/**
  The pure half of src/db.rs: the database-type conversion and the way each
  call routes the engine's status code into its Rust result.
*/
module DbStatus {
  import opened Wrappers
  import opened Errors
  import opened Ffi
  import opened Dbt

  datatype DbType = BTree | Hash | Recno | Queue | Any

  /** The engine's `DBTYPE` codes (Berkeley DB's db.h). */
  const DB_BTREE: int := 1
  const DB_HASH: int := 2
  const DB_RECNO: int := 3
  const DB_QUEUE: int := 4
  const DB_UNKNOWN: int := 5

  /** `From<DbType> for DBTYPE` */
  function DbTypeCode(t: DbType): (code: int)
    ensures DB_BTREE <= code <= DB_UNKNOWN
    ensures code == DB_UNKNOWN <==> t == Any
  {
    match t
    case BTree => DB_BTREE
    case Hash => DB_HASH
    case Recno => DB_RECNO
    case Queue => DB_QUEUE
    case Any => DB_UNKNOWN
  }

  /** The variant an engine type code stands for, if any; the inverse of `DbTypeCode`. */
  function DbTypeOfCode(code: int): (t: Option<DbType>)
    ensures t.Some? <==> DB_BTREE <= code <= DB_UNKNOWN
  {
    if code == DB_BTREE then Some(BTree)
    else if code == DB_HASH then Some(Hash)
    else if code == DB_RECNO then Some(Recno)
    else if code == DB_QUEUE then Some(Queue)
    else if code == DB_UNKNOWN then Some(Any)
    else None
  }

  /** The five variants map to five distinct codes: the conversion loses nothing. */
  lemma DbTypeCodeRoundTrip(t: DbType, u: DbType)
    ensures DbTypeOfCode(DbTypeCode(t)) == Some(t)
    ensures DbTypeCode(t) == DbTypeCode(u) <==> t == u
  {
  }

  /**
    `Db::get`: status 0 gives the engine-owned buffer, `DB_NOTFOUND` gives
    no record, and every other status is an error carrying that status.
  */
  function GetOutcome(status: int32, data: RawDbt): (r: Result<Option<Dbt>, Error>)
    ensures r.Ok? && r.value.Some? <==> status == SUCCESS
    ensures r.Ok? && r.value.None? <==> status == DB_NOTFOUND
    ensures r.Err? <==> status != SUCCESS && status != DB_NOTFOUND
    ensures r.Ok? && r.value.Some? ==> r.value.value == Ptr(data)
    ensures r.Err? ==> Errno(r.error) == status
  {
    match status
    case 0 => Ok(Some(FromRaw(data)))
    case _ => if status == DB_NOTFOUND then Ok(None) else Err(NewError(status))
  }

  /** `Db::put`, `Transaction::commit` and `Transaction::abort`: status 0 is success, anything else an error. */
  function UnitOutcome(status: int32): (r: Result<(), Error>)
    ensures r.Ok? <==> status == SUCCESS
    ensures r.Err? ==> Errno(r.error) == status
  {
    if status == SUCCESS then Ok(()) else Err(NewError(status))
  }

  /**
    `Cursor::next`: status 0 gives both buffers, engine-owned; any other
    status, end of data included, is an error carrying it.
  */
  function NextOutcome(status: int32, key: RawDbt, data: RawDbt): (r: Result<(Option<Dbt>, Option<Dbt>), Error>)
    ensures r.Ok? <==> status == SUCCESS
    ensures r.Ok? ==> r.value == (Some(Ptr(key)), Some(Ptr(data)))
    ensures r.Err? ==> Errno(r.error) == status
  {
    if status == SUCCESS then Ok((Some(FromRaw(key)), Some(FromRaw(data)))) else Err(NewError(status))
  }

  /** What a `get` came to: a record, no record, or an error. */
  datatype GetKind = Found | Absent | Failed

  function KindOf(r: Result<Option<Dbt>, Error>): GetKind {
    if r.Err? then Failed else if r.value.Some? then Found else Absent
  }

  /** How `get` routes a status: 0, `DB_NOTFOUND`, or any other. */
  function StatusClass(status: int32): GetKind {
    if status == SUCCESS then Found else if status == DB_NOTFOUND then Absent else Failed
  }

  /**
    `get` splits the statuses into three classes: two statuses give the
    same kind of outcome exactly when they fall in the same class, and two
    statuses give the same outcome exactly when they are equal, so the
    routing loses no status.
  */
  lemma GetSplitByStatus(s1: int32, s2: int32, data: RawDbt)
    ensures KindOf(GetOutcome(s1, data)) == StatusClass(s1)
    ensures KindOf(GetOutcome(s1, data)) == KindOf(GetOutcome(s2, data)) <==> StatusClass(s1) == StatusClass(s2)
    ensures GetOutcome(s1, data) == GetOutcome(s2, data) <==> s1 == s2
  {
    var r1, r2 := GetOutcome(s1, data), GetOutcome(s2, data);
    if r1 == r2 && r1.Err? {
      assert Errno(r1.error) == s1 && Errno(r2.error) == s2;
    }
  }

  /** A cursor that has run off the end reports `Err(DB_NOTFOUND)`, not an absent pair. */
  lemma NextAtEndIsError(key: RawDbt, data: RawDbt)
    ensures NextOutcome(DB_NOTFOUND, key, data) == Err(Error(DB_NOTFOUND))
  {
    NotFoundIsNotSuccess();
  }
}
