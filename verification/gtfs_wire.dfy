/**
 * The tagged-item view of the Protocol Buffers wire format on which the GTFS
 * Realtime codec works.  A serialized message is a sequence of items; each
 * item carries a tag (field number times 8 plus wire type, as in the
 * "Message Structure" section of the Protocol Buffers encoding) and a payload
 * that is already split off the byte stream.  Varint byte layout is not
 * modelled, but its size is (SizeOfVarint).
 */
module GtfsWire {
  import opened Wrappers

  const TWO_32: int := 0x1_0000_0000
  const TWO_64: int := 0x1_0000_0000_0000_0000

  type u32 = x: int | 0 <= x < 0x1_0000_0000
  type u64 = x: int | 0 <= x < 0x1_0000_0000_0000_0000
  type i32 = x: int | -0x8000_0000 <= x < 0x8000_0000

  /** An f32 or f64 payload, kept as its bit pattern. */
  type F32 = bv32
  type F64 = bv64

  /** One payload, by wire type. */
  datatype WireValue =
    | Varint(n: u64)                  // wire type 0
    | Fixed64(bits64: bv64)             // wire type 1
    | LenString(s: string)            // wire type 2, a UTF-8 string
    | LenMessage(items: seq<Field>)   // wire type 2, an embedded message
    | Fixed32(bits32: bv32)             // wire type 5

  datatype Field = Field(tag: nat, value: WireValue)

  /**
   * Why a reader gave up on an item: a known field whose payload is not of
   * the wire type the reader expects, or an unknown field that cannot be
   * skipped.
   */
  datatype DecodeError = WrongWireType(expected: nat) | Unskippable(tag: nat)

  type Decoded<T> = Result<T, DecodeError>

  function WireType(v: WireValue): nat {
    match v
    case Varint(_) => 0
    case Fixed64(_) => 1
    case LenString(_) => 2
    case LenMessage(_) => 2
    case Fixed32(_) => 5
  }

  /** The tag of field `number` with wire type `wireType`. */
  function Tag(number: nat, wireType: nat): nat {
    number * 8 + wireType
  }

  /** An item whose tag agrees with its payload's wire type. */
  predicate WellFormed(f: Field) {
    f.tag % 8 == WireType(f.value)
  }

  // ---- Readers (the BytesReader::read_* calls), on one payload ----

  /** Two's-complement reading of the low 32 bits, as `read_int32` does. */
  function AsI32(n: int): (r: i32)
    ensures (n - r) % TWO_32 == 0
  {
    var low := n % TWO_32;
    if low < 0x8000_0000 then low else low - TWO_32
  }

  /** The u64 bit pattern of a signed value, as `write_int32` emits it. */
  function AsU64(i: i32): (r: u64)
    ensures AsI32(r) == i
  {
    if i < 0 then i + TWO_64 else i
  }

  function ReadUint64(v: WireValue): Decoded<u64> {
    if v.Varint? then Ok(v.n) else Err(WrongWireType(0))
  }

  function ReadUint32(v: WireValue): Decoded<u32> {
    if v.Varint? then Ok(v.n % TWO_32) else Err(WrongWireType(0))
  }

  function ReadInt32(v: WireValue): Decoded<i32> {
    if v.Varint? then Ok(AsI32(v.n)) else Err(WrongWireType(0))
  }

  /** `read_bool` reads a 32-bit varint, so only the low 32 bits decide. */
  function ReadBool(v: WireValue): Decoded<bool> {
    if v.Varint? then Ok(v.n % TWO_32 != 0) else Err(WrongWireType(0))
  }

  function ReadString(v: WireValue): Decoded<string> {
    if v.LenString? then Ok(v.s) else Err(WrongWireType(2))
  }

  function ReadNested(v: WireValue): Decoded<seq<Field>> {
    if v.LenMessage? then Ok(v.items) else Err(WrongWireType(2))
  }

  function ReadFloat(v: WireValue): Decoded<F32> {
    if v.Fixed32? then Ok(v.bits32) else Err(WrongWireType(5))
  }

  function ReadDouble(v: WireValue): Decoded<F64> {
    if v.Fixed64? then Ok(v.bits64) else Err(WrongWireType(1))
  }

  /** `read_unknown`: a well-formed item is skipped, anything else is an error. */
  function SkipUnknown<M>(m: M, f: Field): Decoded<M> {
    if WellFormed(f) then Ok(m) else Err(Unskippable(f.tag))
  }

  // ---- Writers ----

  function WriteString(s: string): WireValue {
    LenString(s)
  }

  function WriteNested(items: seq<Field>): WireValue {
    LenMessage(items)
  }

  function WriteUint32(x: u32): WireValue {
    Varint(x)
  }

  function WriteUint64(x: u64): WireValue {
    Varint(x)
  }

  function WriteFloat(x: F32): WireValue {
    Fixed32(x)
  }

  function WriteDouble(x: F64): WireValue {
    Fixed64(x)
  }

  function WriteBool(b: bool): WireValue {
    Varint(if b then 1 else 0)
  }

  function WriteInt32(i: i32): WireValue {
    Varint(AsU64(i))
  }

  lemma ReadWriteScalars(b: bool, i: i32, x: u32, y: u64)
    ensures ReadBool(WriteBool(b)) == Ok(b)
    ensures ReadInt32(WriteInt32(i)) == Ok(i)
    ensures ReadUint32(Varint(x)) == Ok(x)
    ensures ReadUint64(Varint(y)) == Ok(y)
  {
  }

  // ---- The decode loop: fold a stream of items into a record ----

  /**
   * `from_reader`: start from `acc`, apply `step` to each item in stream
   * order, and stop at the first error.
   */
  function Fold<M>(step: (M, Field) -> Decoded<M>, acc: M, items: seq<Field>): Decoded<M>
    decreases |items|
  {
    if items == [] then Ok(acc)
    else
      match step(acc, items[0])
      case Err(e) => Err(e)
      case Ok(next) => Fold(step, next, items[1..])
  }

  /** Decoding a concatenation decodes the first part, then carries on from its record. */
  lemma {:induction false} FoldAppend<M>(step: (M, Field) -> Decoded<M>, acc: M, a: seq<Field>, b: seq<Field>)
    ensures Fold(step, acc, a + b) ==
            match Fold(step, acc, a)
            case Err(e) => Err(e)
            case Ok(m) => Fold(step, m, b)
    decreases |a|
  {
    if a == [] {
      assert a + b == b;
    } else {
      assert (a + b)[0] == a[0];
      assert (a + b)[1..] == a[1..] + b;
      match step(acc, a[0])
      case Err(e) =>
      case Ok(next) => FoldAppend(step, next, a[1..], b);
    }
  }

  /**
   * One optional item in front of `rest`: if it is absent the record does
   * not change, if present its step takes `acc` to `acc'`.
   */
  lemma FoldEmit<M>(step: (M, Field) -> Decoded<M>, acc: M, acc': M, e: seq<Field>, rest: seq<Field>)
    requires |e| <= 1
    requires e == [] ==> acc' == acc
    requires |e| == 1 ==> step(acc, e[0]) == Ok(acc')
    ensures Fold(step, acc, e + rest) == Fold(step, acc', rest)
  {
    if |e| == 1 {
      assert (e + rest)[0] == e[0];
      assert (e + rest)[1..] == rest;
    } else {
      assert e + rest == rest;
    }
  }

  /** The item list for an optional field: one item when present, none otherwise. */
  function Emit<T>(o: Option<T>, tag: nat, write: T -> WireValue): (r: seq<Field>)
    ensures |r| <= 1
  {
    match o
    case None => []
    case Some(x) => [Field(tag, write(x))]
  }

  /** The item list for a repeated field: one item per element, in order. */
  function Repeated<T>(xs: seq<T>, tag: nat, write: T -> WireValue): (r: seq<Field>)
    ensures |r| == |xs|
  {
    if xs == [] then [] else [Field(tag, write(xs[0]))] + Repeated(xs[1..], tag, write)
  }

  /** The item list for a field written only when `cond` holds. */
  function EmitIf(cond: bool, f: Field): (r: seq<Field>)
    ensures |r| <= 1
  {
    if cond then [f] else []
  }

  // ---- Sizes (quick_protobuf's sizeofs) ----

  /** `sizeof_varint`: the number of 7-bit groups needed for `n`. */
  function SizeOfVarint(n: nat): (r: nat)
    ensures 1 <= r
    ensures n < 0x80 ==> r == 1
  {
    if n < 0x80 then 1 else 1 + SizeOfVarint(n / 0x80)
  }

  /** `sizeof_len`: a length prefix followed by that many bytes. */
  function SizeOfLen(len: nat): nat {
    SizeOfVarint(len) + len
  }

  /** `map_or(0, size)` over an optional field. */
  function OptSize<T>(o: Option<T>, size: T -> nat): nat {
    match o
    case None => 0
    case Some(x) => size(x)
  }

  /** `iter().map(size).sum()` over a repeated field. */
  function SumSizes<T>(xs: seq<T>, size: T -> nat): nat {
    if xs == [] then 0 else size(xs[0]) + SumSizes(xs[1..], size)
  }

  /** The number of bytes of the UTF-8 encoding of one character. */
  function Utf8Width(c: char): nat {
    if c as int < 0x80 then 1
    else if c as int < 0x800 then 2
    else if c as int < 0x1_0000 then 3
    else 4
  }

  /** `str::len`: the UTF-8 byte length of a string. */
  function Utf8Len(s: string): nat {
    if s == [] then 0 else Utf8Width(s[0]) + Utf8Len(s[1..])
  }

  /** The number of bytes a serialized item list occupies. */
  function EncodedSize(items: seq<Field>): nat
    decreases items
  {
    if items == [] then 0 else ItemSize(items[0]) + EncodedSize(items[1..])
  }

  /** The number of bytes of one item: its tag varint, then its payload. */
  function ItemSize(f: Field): nat
    decreases f
  {
    SizeOfVarint(f.tag) +
    match f.value
    case Varint(n) => SizeOfVarint(n)
    case Fixed64(_) => 8
    case LenString(s) => SizeOfLen(Utf8Len(s))
    case LenMessage(inner) => SizeOfLen(EncodedSize(inner))
    case Fixed32(_) => 4
  }

  lemma {:induction false} EncodedSizeAppend(a: seq<Field>, b: seq<Field>)
    ensures EncodedSize(a + b) == EncodedSize(a) + EncodedSize(b)
    decreases |a|
  {
    if a == [] {
      assert a + b == b;
    } else {
      assert (a + b)[0] == a[0];
      assert (a + b)[1..] == a[1..] + b;
      EncodedSizeAppend(a[1..], b);
    }
  }

  lemma EncodedSizeSingle(f: Field)
    ensures EncodedSize([f]) == ItemSize(f)
  {
    assert [f][1..] == [];
  }

}
