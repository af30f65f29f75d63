/** Failure-carrying results and the fixed-width integers of the source. */
module Common {

  datatype Option<+T> = None | Some(value: T)

  /** Error texts are not modelled: a failure is just `Err`. */
  datatype Result<+T> = Err | Ok(value: T)

  function Prepend<T>(a: seq<T>, r: Result<seq<T>>): Result<seq<T>>
  {
    match r
    case Err => Err
    case Ok(b) => Ok(a + b)
  }

  lemma PrependConcat<T>(a: seq<T>, b: seq<T>, r: Result<seq<T>>)
    ensures Prepend([], r) == r
    ensures Prepend(a + b, r) == Prepend(a, Prepend(b, r))
  {
    if r.Ok? {
      assert [] + r.value == r.value;
      assert (a + b) + r.value == a + (b + r.value);
    }
  }

  lemma ConcatAssoc<T>(a: seq<T>, b: seq<T>, c: seq<T>)
    ensures (a + b) + c == a + (b + c)
  {
  }

  type Byte = x: int | 0 <= x < 256
  type Bytes = seq<Byte>

  const TWO31: int := 0x8000_0000
  const TWO32: int := 0x1_0000_0000
  const TWO63: int := 0x8000_0000_0000_0000
  const TWO64: int := 0x1_0000_0000_0000_0000

  type U32 = x: int | 0 <= x < 0x1_0000_0000
  type U64 = x: int | 0 <= x < 0x1_0000_0000_0000_0000
  type I64 = x: int | -0x8000_0000_0000_0000 <= x < 0x8000_0000_0000_0000

  /** Go's uint64(int64) conversion. */
  function ToU64(x: I64): (u: U64)
  {
    if x < 0 then x + TWO64 else x
  }

  /** Go's int64(uint64) conversion. */
  function ToI64(u: U64): (x: I64)
  {
    if u < TWO63 then u else u - TWO64
  }

  /** Go's int(int32(uint64)) conversion: the low 32 bits, sign-extended. */
  function ToI32(u: U64): (x: I64)
    ensures -TWO31 <= x < TWO31
    ensures (x - u) % TWO32 == 0
  {
    var low := u % TWO32;
    if low < TWO31 then low else low - TWO32
  }

  /** The value an int-valued field has after crossing the wire as an int32. */
  function Trunc32(x: I64): (r: I64)
    ensures -TWO31 <= r < TWO31
    ensures -TWO31 <= x < TWO31 ==> r == x
  {
    ToI32(ToU64(x))
  }
}
