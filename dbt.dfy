/**
  The result buffer of the binding (src/dbt.rs). Despite its name, `Owned`
  is the borrowed case: a view of memory the caller owns, which is never
  released. `Ptr` holds a block the engine allocated, which is freed once,
  when the buffer is dropped.
*/
module Dbt {
  import opened Wrappers
  import opened Ffi

  datatype Dbt = Owned(slice: seq<byte>) | Ptr(raw: RawDbt)

  /** `mem` holds the whole span a raw buffer describes. */
  ghost predicate Readable(raw: RawDbt, mem: map<Handle, seq<byte>>) {
    raw.data in mem && raw.size <= |mem[raw.data]|
  }

  /**
    `DBT::as_slice`. `mem` is the engine memory that may still be read; the
    engine's `Memory()` leaves out every freed block, so a freed buffer
    cannot be read.
  */
  function AsSlice(b: Dbt, mem: map<Handle, seq<byte>>): (s: seq<byte>)
    requires b.Ptr? ==> Readable(b.raw, mem)
    ensures b.Owned? ==> s == b.slice
    ensures b.Ptr? ==> |s| == b.raw.size && forall i :: 0 <= i < |s| ==> s[i] == mem[b.raw.data][i]
  {
    match b
    case Owned(s) => s
    case Ptr(raw) => mem[raw.data][..raw.size]
  }

  /** `Deref for DBT` goes through `as_slice`. */
  function Deref(b: Dbt, mem: map<Handle, seq<byte>>): (s: seq<byte>)
    requires b.Ptr? ==> Readable(b.raw, mem)
    ensures s == AsSlice(b, mem)
  {
    AsSlice(b, mem)
  }

  /** `From<ffi::DBT> for DBT`: every engine result becomes the engine-owned variant. */
  function FromRaw(raw: RawDbt): (b: Dbt)
    ensures b.Ptr? && b.raw == raw
  {
    Ptr(raw)
  }

  /** A buffer made from an engine result shows exactly the `size` bytes at its data pointer. */
  lemma FromRawShowsBlock(raw: RawDbt, mem: map<Handle, seq<byte>>)
    requires Readable(raw, mem)
    ensures AsSlice(FromRaw(raw), mem) == mem[raw.data][..raw.size]
  {
  }

  // ----- `Debug for DBT`: Rust's `{:?}` of a byte slice, e.g. "[1, 22, 255]" -----

  predicate IsDigit(c: char) {
    '0' <= c <= '9'
  }

  function DigitChar(d: int): (c: char)
    requires 0 <= d < 10
    ensures IsDigit(c) && c as int - '0' as int == d
  {
    ('0' as int + d) as char
  }

  /** The decimal numeral of a byte, without leading zeros. */
  function Decimal(b: byte): (t: string)
    ensures 1 <= |t| <= 3 && forall i :: 0 <= i < |t| ==> IsDigit(t[i])
  {
    if b < 10 then [DigitChar(b)]
    else if b < 100 then [DigitChar(b / 10), DigitChar(b % 10)]
    else [DigitChar(b / 100), DigitChar(b / 10 % 10), DigitChar(b % 10)]
  }

  /** The items of a slice separated by ", ". */
  function Items(s: seq<byte>): string
  {
    if s == [] then ""
    else if |s| == 1 then Decimal(s[0])
    else Decimal(s[0]) + ", " + Items(s[1..])
  }

  function FormatBytes(s: seq<byte>): string
  {
    "[" + Items(s) + "]"
  }

  /** `fmt::Debug for DBT` writes `{:?}` of `as_slice()`. */
  function Debug(b: Dbt, mem: map<Handle, seq<byte>>): (text: string)
    requires b.Ptr? ==> Readable(b.raw, mem)
    ensures text == FormatBytes(AsSlice(b, mem))
  {
    FormatBytes(AsSlice(b, mem))
  }

  // ----- reading the Debug text back, to show that it loses nothing -----

  function DigitValue(c: char): (v: nat)
    requires IsDigit(c)
    ensures v < 10
  {
    c as int - '0' as int
  }

  /** The number a run of decimal digits denotes. */
  function DigitsValue(t: string): (v: nat)
    requires forall i :: 0 <= i < |t| ==> IsDigit(t[i])
  {
    if t == [] then 0 else DigitsValue(t[..|t| - 1]) * 10 + DigitValue(t[|t| - 1])
  }

  /** The length of the run of digits `t` starts with. */
  function DigitRun(t: string): (n: nat)
    ensures n <= |t|
    ensures forall i :: 0 <= i < n ==> IsDigit(t[i])
    ensures n < |t| ==> !IsDigit(t[n])
  {
    if t == [] || !IsDigit(t[0]) then 0 else 1 + DigitRun(t[1..])
  }

  function ParseItems(t: string): Option<seq<byte>>
    decreases |t|
  {
    if t == [] then Some([])
    else
      var n := DigitRun(t);
      var v := DigitsValue(t[..n]);
      if n == 0 || n > 3 || v > 255 then None
      else if n == |t| then Some([v as byte])
      else if n + 2 < |t| && t[n] == ',' && t[n + 1] == ' ' then
        match ParseItems(t[n + 2..])
        case Some(rest) => Some([v as byte] + rest)
        case None => None
      else None
  }

  function ParseDebug(text: string): Option<seq<byte>>
  {
    if |text| >= 2 && text[0] == '[' && text[|text| - 1] == ']' then ParseItems(text[1..|text| - 1])
    else None
  }

  lemma DecimalValue(b: byte)
    ensures DigitsValue(Decimal(b)) == b
  {
    var t := Decimal(b);
    if b < 10 {
      assert t[..0] == [];
    } else if b < 100 {
      var hi := [DigitChar(b / 10)];
      assert t[..1] == hi && hi[..0] == [];
      assert DigitsValue(hi) == b / 10;
    } else {
      var hi := [DigitChar(b / 100), DigitChar(b / 10 % 10)];
      var top := [DigitChar(b / 100)];
      assert t[..2] == hi && hi[..1] == top && top[..0] == [];
      assert DigitsValue(top) == b / 100;
      assert DigitsValue(hi) == b / 100 * 10 + b / 10 % 10;
    }
  }

  lemma DigitRunOfNumeral(d: string, rest: string)
    requires forall i :: 0 <= i < |d| ==> IsDigit(d[i])
    requires rest == [] || !IsDigit(rest[0])
    ensures DigitRun(d + rest) == |d|
    decreases |d|
  {
    if d != [] {
      assert (d + rest)[1..] == d[1..] + rest;
      DigitRunOfNumeral(d[1..], rest);
    }
  }

  /** A numeral followed by a non-digit is read back as its byte, leaving what follows. */
  lemma ReadNumeral(b: byte, rest: string)
    requires rest == [] || !IsDigit(rest[0])
    ensures var t, n := Decimal(b) + rest, |Decimal(b)|;
      DigitRun(t) == n && t[..n] == Decimal(b) && DigitsValue(t[..n]) == b && t[n..] == rest
  {
    var d := Decimal(b);
    DigitRunOfNumeral(d, rest);
    assert (d + rest)[..|d|] == d;
    assert (d + rest)[|d|..] == rest;
    DecimalValue(b);
  }

  lemma ItemsNonEmpty(s: seq<byte>)
    requires s != []
    ensures |Items(s)| >= 1
  {
    if |s| > 1 {
      assert Items(s) == Decimal(s[0]) + ", " + Items(s[1..]);
    }
  }

  /** A numeral followed by ", ": the run of digits is the numeral, the separator comes next. */
  lemma ReadItem(d: string, tail: string)
    requires forall i :: 0 <= i < |d| ==> IsDigit(d[i])
    ensures var t, n := d + ", " + tail, |d|;
      && DigitRun(t) == n && t[..n] == d && t[n] == ',' && t[n + 1] == ' ' && t[n + 2..] == tail
  {
    var t := d + ", " + tail;
    assert t == d + (", " + tail);
    DigitRunOfNumeral(d, ", " + tail);
    assert t[..|d|] == d;
    assert t[|d|..] == ", " + tail;
    assert t[|d|..][2..] == tail;
  }

  /** One item and its separator are read back, leaving the items that follow. */
  lemma ParseItemsStep(b: byte, tail: string)
    requires |tail| >= 1
    ensures ParseItems(Decimal(b) + ", " + tail) ==
      match ParseItems(tail)
      case Some(rest) => Some([b] + rest)
      case None => None
  {
    ReadItem(Decimal(b), tail);
    DecimalValue(b);
  }

  lemma {:induction false} ItemsRoundTrip(s: seq<byte>)
    ensures ParseItems(Items(s)) == Some(s)
    decreases |s|
  {
    if s == [] {
    } else if |s| == 1 {
      ReadNumeral(s[0], "");
      assert Decimal(s[0]) + "" == Decimal(s[0]);
      assert s == [s[0]];
    } else {
      ItemsNonEmpty(s[1..]);
      ParseItemsStep(s[0], Items(s[1..]));
      ItemsRoundTrip(s[1..]);
      assert [s[0]] + s[1..] == s;
    }
  }

  /** The Debug text of a buffer determines its bytes: reading it back gives exactly `as_slice()`. */
  lemma {:induction false} DebugRoundTrip(b: Dbt, mem: map<Handle, seq<byte>>)
    requires b.Ptr? ==> Readable(b.raw, mem)
    ensures ParseDebug(Debug(b, mem)) == Some(AsSlice(b, mem))
  {
    var s := AsSlice(b, mem);
    var text := FormatBytes(s);
    assert text[1..|text| - 1] == Items(s);
    ItemsRoundTrip(s);
  }

  /** Every view of a buffer (`as_slice`, `Deref`, `Debug`) shows the same bytes. */
  lemma ViewsAgree(b: Dbt, mem: map<Handle, seq<byte>>)
    requires b.Ptr? ==> Readable(b.raw, mem)
    ensures Deref(b, mem) == AsSlice(b, mem)
    ensures ParseDebug(Debug(b, mem)) == Some(Deref(b, mem))
  {
    DebugRoundTrip(b, mem);
  }

  /**
    `Drop for DBT`: frees the data block of the engine-owned variant only.
    The requirement that the block is still live is Rust's single ownership:
    a buffer is dropped once.
  */
  method Drop(b: Dbt, engine: Engine)
    requires engine.Valid()
    requires b.Ptr? ==> engine.IsLiveBlock(b.raw.data)
    modifies engine
    ensures engine.Valid() && engine.nextHandle == old(engine.nextHandle)
    ensures b.Owned? ==> engine.trace == old(engine.trace) && engine.handles == old(engine.handles)
    ensures b.Ptr? ==> engine.trace == old(engine.trace) + [Free(b.raw.data)]
                       && engine.handles == old(engine.handles)[b.raw.data := old(engine.handles[b.raw.data]).(freed := true)]
                       && engine.Releases(b.raw.data) == 1
                       && !Readable(b.raw, engine.Memory())
  {
    match b
    case Ptr(raw) =>
      engine.Free(raw.data);
    case Owned(_) =>
  }
}
