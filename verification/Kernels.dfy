/** Number encodings: random seeds in two's complement, durations as normalised time deltas. */
module Kernels {
  import opened Common
  import opened Wire
  import opened Values
  import opened Nested

  // ---------------------------------------------------------------------------
  // Random seeds

  function BitLen(m: nat): nat
  {
    if m == 0 then 0 else 1 + BitLen(m / 2)
  }

  function Abs(n: int): nat { if n < 0 then -n else n }

  /** Bytes used for a seed: room for its magnitude and a sign bit. */
  function SeedSize(n: int): (size: nat)
    ensures size >= 1
  {
    (BitLen(Abs(n)) + 8) / 8
  }

  /** The non-negative number written for a seed. */
  function Unsigned(n: int): int
  {
    if n < 0 then n + Pow256(SeedSize(n)) else n
  }

  /** Little-endian two's complement, as Python reads a signed seed. */
  function TwosComplement(b: Bytes): int
    requires b != []
  {
    var v := FromLittleEndian(b);
    if v >= 128 * Pow256(|b| - 1) then v - Pow256(|b|) else v
  }

  predicate FitsSigned(n: int, size: nat)
    requires size >= 1
  {
    -128 * Pow256(size - 1) <= n < 128 * Pow256(size - 1)
  }

  lemma {:induction false} BitLenBound(m: nat, k: nat)
    ensures BitLen(m) <= k <==> m < Pow2(k)
  {
    if m > 0 && k > 0 {
      BitLenBound(m / 2, k - 1);
    }
  }

  function Pow2(k: nat): (p: nat)
    ensures p >= 1
  {
    if k == 0 then 1 else 2 * Pow2(k - 1)
  }

  lemma SmallBitLen(m: nat)
    requires m < 256
    ensures BitLen(m) <= 8 && (BitLen(m) == 8 <==> m >= 128)
  {
    assert Pow2(4) == 16;
    assert Pow2(7) == 128;
    BitLenBound(m, 7);
    BitLenBound(m, 8);
  }

  lemma ByteOfBits(m: nat)
    requires m >= 256
    ensures BitLen(m) == 8 + BitLen(m / 256)
  {
    assert BitLen(m) == 2 + BitLen(m / 2 / 2) && m / 2 / 2 == m / 4;
    assert BitLen(m / 4) == 2 + BitLen(m / 4 / 2 / 2) && m / 4 / 2 / 2 == m / 16;
    assert BitLen(m / 16) == 2 + BitLen(m / 16 / 2 / 2) && m / 16 / 2 / 2 == m / 64;
    assert BitLen(m / 64) == 2 + BitLen(m / 64 / 2 / 2) && m / 64 / 2 / 2 == m / 256;
  }

  lemma {:induction false} SizeBounds(m: nat)
    ensures
      var size := (BitLen(m) + 8) / 8;
      && m < 128 * Pow256(size - 1)
      && (size >= 2 ==> m >= 128 * Pow256(size - 2))
  {
    if m < 256 {
      SmallBitLen(m);
      assert Pow256(0) == 1 && Pow256(1) == 256;
    } else {
      ByteOfBits(m);
      SizeBounds(m / 256);
      var size := (BitLen(m / 256) + 8) / 8;
      assert Pow256(size) == 256 * Pow256(size - 1);
      if size >= 2 {
        assert Pow256(size - 1) == 256 * Pow256(size - 2);
      }
    }
  }

  /**
   The size always suffices, so filling the buffer cannot fail; one byte less suffices only for
   the negative powers of two that need no sign bit of their own.
   */
  lemma SeedSizeSuffices(n: int)
    ensures FitsSigned(n, SeedSize(n)) && 0 <= Unsigned(n) < Pow256(SeedSize(n))
    ensures SeedSize(n) >= 2 ==> (FitsSigned(n, SeedSize(n) - 1) <==> n == -128 * Pow256(SeedSize(n) - 2))
  {
    SizeBounds(Abs(n));
    var size := SeedSize(n);
    assert Pow256(size) == 256 * Pow256(size - 1);
  }

  function SeedBytes(n: int): (b: Bytes)
    ensures |b| == SeedSize(n)
  {
    SeedSizeSuffices(n);
    LittleEndian(Unsigned(n), SeedSize(n))
  }

  /** Every integer seed, of any size and sign, is read back exactly. */
  lemma SeedRoundTrip(n: int)
    ensures TwosComplement(SeedBytes(n)) == n
  {
    SeedSizeSuffices(n);
    var size := SeedSize(n);
    LittleEndianRoundTrip(Unsigned(n), size);
    assert Pow256(size) == 256 * Pow256(size - 1);
  }

  /** Big-endian bytes of a number that fits. */
  method FillBytes(z: nat, size: nat) returns (a: array<Byte>)
    requires z < Pow256(size)
    ensures fresh(a) && a.Length == size
    ensures forall i :: 0 <= i < size ==> a[size - 1 - i] == LittleEndian(z, size)[i]
  {
    a := new Byte[size](_ => 0);
    var rest: nat, i: nat := z, 0;
    while i < size
      invariant i <= size && 0 <= rest < Pow256(size - i)
      invariant forall j :: 0 <= j < i ==> a[size - 1 - j] == LittleEndian(z, size)[j]
      invariant LittleEndian(z, size)[i..] == LittleEndian(rest, size - i)
    {
      assert LittleEndian(z, size)[i..][0] == rest % 256;
      assert LittleEndian(z, size)[i..][1..] == LittleEndian(rest / 256, size - i - 1);
      a[size - 1 - i] := rest % 256;
      rest := rest / 256;
      i := i + 1;
    }
  }

  method ReverseBytes(a: array<Byte>)
    modifies a
    ensures forall k :: 0 <= k < a.Length ==> a[k] == old(a[a.Length - 1 - k])
  {
    var i, j := 0, a.Length - 1;
    while i < j
      invariant 0 <= i <= a.Length && j == a.Length - 1 - i
      invariant forall k :: 0 <= k < a.Length ==>
        a[k] == if k < i || k > j then old(a[a.Length - 1 - k]) else old(a[k])
    {
      a[i], a[j] := a[j], a[i];
      i, j := i + 1, j - 1;
    }
  }

  /** Adds the modulus to a negative seed, writes it big-endian, and reverses the buffer in place. */
  method EncodeSeed(n: int) returns (a: array<Byte>)
    ensures a[..] == SeedBytes(n)
  {
    var size := SeedSize(n);
    var z := n;
    if z < 0 {
      z := z + Pow256(size);
    }
    SeedSizeSuffices(n);
    a := FillBytes(z, size);
    ReverseBytes(a);
    assert forall k :: 0 <= k < size ==> a[k] == LittleEndian(z, size)[k];
  }

  // ---------------------------------------------------------------------------
  // Durations

  /** Go's integer division, which truncates toward zero. */
  function Quo(x: int, d: int): int
    requires d > 0
  {
    if x < 0 then -((-x) / d) else x / d
  }

  const DAY: int := 86_400_000_000

  type Delta = v: Value | v.TimeDelta? witness TimeDelta(0, 0, 0)

  function Micros(t: Delta): int { t.days * DAY + t.seconds * 1_000_000 + t.micros }

  /** Python's canonical form. */
  predicate Normalised(t: Delta)
  {
    0 <= t.seconds < 86_400 && 0 <= t.micros < 1_000_000
  }

  /** A duration in nanoseconds as a time delta of whole microseconds, truncated toward zero. */
  method EncodeDuration(x: I64) returns (t: Delta)
    ensures Normalised(t) && Micros(t) == Quo(x, 1000) && -TWO31 <= t.days < TWO31
  {
    var micros := Quo(x, 1000);
    var days := Quo(micros, DAY);
    micros := micros - days * DAY;
    if micros < 0 {
      days := days - 1;
      micros := micros + DAY;
    }
    t := TimeDelta(days, micros / 1_000_000, micros % 1_000_000);
  }

  /** Normalised deltas are determined by their total. */
  lemma NormalFormIsUnique(s: Delta, t: Delta)
    requires Normalised(s) && Normalised(t)
    ensures Micros(s) == Micros(t) <==> s == t
  {
  }

  /** Truncation loses exactly what is below a microsecond, and never changes the sign. */
  lemma TruncationLoss(x: I64)
    ensures Abs(x - 1000 * Quo(x, 1000)) < 1000
    ensures x - 1000 * Quo(x, 1000) == 0 <==> x % 1000 == 0
    ensures x >= 0 ==> 0 <= 1000 * Quo(x, 1000) <= x
    ensures x <= 0 ==> x <= 1000 * Quo(x, 1000) <= 0
  {
  }

  /** Each part is read back as a 32-bit integer. */
  lemma DeltaRead(t: Delta)
    ensures DecodeTimeDelta(ScalarField(t).bytes) == TimeDelta(Trunc32(t.days), Trunc32(t.seconds), Trunc32(t.micros))
  {
    hide Write, Parse, LastField;
    var fs := [VarintField(1, ToU64(t.days)), VarintField(2, ToU64(t.seconds)), VarintField(3, ToU64(t.micros))];
    assert AllCanonical(fs) && Increasing(fs);
    ParseWrite(fs);
    LastFieldAt(fs, 0, 1);
    LastFieldAt(fs, 1, 2);
    LastFieldAt(fs, 2, 3);
  }

  /** A normalised delta crosses the wire unchanged exactly when its days fit 32 bits. */
  lemma DeltaRoundTrip(t: Delta)
    requires Normalised(t)
    ensures DecodeTimeDelta(ScalarField(t).bytes) == t <==> -TWO31 <= t.days < TWO31
  {
    hide DecodeTimeDelta, ScalarField;
    DeltaRead(t);
  }

  /** So every 64-bit duration reaches the sandbox as its whole microseconds. */
  method SendDuration(x: I64) returns (received: Delta)
    ensures Normalised(received) && Micros(received) == Quo(x, 1000)
  {
    hide DecodeTimeDelta, ScalarField;
    var t := EncodeDuration(x);
    DeltaRoundTrip(t);
    received := DecodeTimeDelta(ScalarField(t).bytes);
  }

  // ---------------------------------------------------------------------------
  // The cap on one system sleep

  const UNLIMITED: I64 := -1
  const TEN_SECONDS: I64 := 10_000_000_000

  /** The host's cap in nanoseconds and the microseconds told to the worker, if it is told any. */
  datatype SleepCap = SleepCap(host: I64, told: Option<U64>)

  method EncodeSleepCap(max: Option<I64>) returns (r: Result<SleepCap>)
    ensures r.Err? <==> max.Some? && max.value < 0 && max.value != UNLIMITED
    ensures r.Ok? && max.None? ==> r.value == SleepCap(TEN_SECONDS, None)
    ensures r.Ok? && max.Some? ==> r.value.told.Some?
    ensures r.Ok? && max.Some? ==> (r.value.host == UNLIMITED <==> max.value == UNLIMITED)
    ensures r.Ok? && max.Some? ==> (r.value.told.value == TWO64 - 1 <==> max.value == UNLIMITED)
    ensures r.Ok? && max.Some? && max.value != UNLIMITED ==>
      r.value.host == 1000 * r.value.told.value && max.value - 1000 < r.value.host <= max.value
  {
    if max.None? {
      return Ok(SleepCap(TEN_SECONDS, None));
    }
    var cap := max.value;
    if cap < 0 && cap != UNLIMITED {
      return Err;
    }
    var micros: U64 := TWO64 - 1;
    if cap != UNLIMITED {
      cap := cap - cap % 1000;
      micros := cap / 1000;
    }
    return Ok(SleepCap(cap, Some(micros)));
  }
}
