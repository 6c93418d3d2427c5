// The chunk checksum and the XOR "munging" of the peer-to-peer transfer protocol.
// Sender and receiver run the same loop over the bytes as they are on the wire.

module ChunkIntegrity {

  type Byte = bv8

  const WORD: int := 0x1_0000_0000   // 2^32, the modulus of a uint32
  const LANES: int := 24             // shift distances cycle through 0..23

  function Pow2(k: nat): (p: nat)
    ensures p > 0
  {
    if k == 0 then 1 else 2 * Pow2(k - 1)
  }

  /** The value of the C expression (uint32) v << k: bits beyond 31 fall off. */
  function ShiftLeft32(v: nat, k: nat): nat {
    (v * Pow2(k)) % WORD
  }

  /** The position-weighted sum over the unbounded naturals: no wrap, no truncation. */
  function WeightedSum(data: seq<Byte>): nat {
    if |data| == 0 then 0
    else var last := |data| - 1;
      WeightedSum(data[..last]) + (data[last] as int) * Pow2(last % LANES)
  }

  function Checksum(data: seq<Byte>): (sum: nat)
    ensures sum < WORD
  {
    WeightedSum(data) % WORD
  }

  lemma {:induction false} Pow2Bound(k: nat, n: nat)
    requires k <= n
    ensures Pow2(k) <= Pow2(n)
  {
    if k < n {
      Pow2Bound(k, n - 1);
    }
  }

  lemma LaneBound(k: nat)
    requires k < LANES
    ensures Pow2(k) <= 0x80_0000
  {
    Pow2Bound(k, 23);
    Pow2Of23();
  }

  lemma Pow2Of23()
    ensures Pow2(23) == 0x80_0000
  {
    assert Pow2(6) == 64;
    assert Pow2(12) == 4096;
    assert Pow2(18) == 0x4_0000;
  }

  /** A byte shifted by its lane distance fits in 31 bits, so the shift loses nothing. */
  lemma ShiftLosesNothing(b: Byte, i: nat)
    ensures (b as int) * Pow2(i % LANES) < WORD / 2
    ensures ShiftLeft32(b as int, i % LANES) == (b as int) * Pow2(i % LANES)
  {
    LaneBound(i % LANES);
    MulMonotone(b as int, 255, Pow2(i % LANES), 0x80_0000);
  }

  lemma MulMonotone(a: nat, b: nat, x: nat, y: nat)
    requires a <= b && x <= y
    ensures a * x <= b * y
  {
    assert a * x <= b * x;
    assert b * x <= b * y;
  }

  /** The wrapping loop, as both ends of a transfer run it. */
  method CalculateChecksum(data: array<Byte>, byteCount: nat) returns (sum: nat)
    requires byteCount <= data.Length
    ensures sum == Checksum(data[..byteCount])
  {
    sum := 0;
    for i := 0 to byteCount
      invariant sum == Checksum(data[..i])
    {
      ShiftLosesNothing(data[i], i);
      assert data[..i + 1][..i] == data[..i];
      AddWraps(WeightedSum(data[..i]), (data[i] as int) * Pow2(i % LANES));
      sum := (sum + ShiftLeft32(data[i] as int, i % LANES)) % WORD;
    }
  }

  lemma AddWraps(a: nat, b: nat)
    ensures (a % WORD + b) % WORD == (a + b) % WORD
  {
    assert a == WORD * (a / WORD) + a % WORD;
    ModCancel(a % WORD + b, a / WORD);
  }

  lemma {:induction false} ModCancel(x: nat, q: nat)
    ensures (x + WORD * q) % WORD == x % WORD
  {
    if q > 0 {
      ModCancel(x, q - 1);
      assert x + WORD * q == (x + WORD * (q - 1)) + WORD;
    }
  }

  // ----- The int32 message field that carries the uint32 sum -----

  type Int32 = x: int | -0x8000_0000 <= x < 0x8000_0000

  function ToInt32(u: nat): Int32
    requires u < WORD
  {
    if u < 0x8000_0000 then u else u - WORD
  }

  function ToUint32(i: Int32): (u: nat)
    ensures u < WORD
  {
    if i < 0 then i + WORD else i
  }

  // ----- What the checksum detects -----

  lemma {:induction false} WeightedSumUpdate(data: seq<Byte>, i: nat, b: Byte)
    requires i < |data|
    ensures WeightedSum(data[i := b])
         == WeightedSum(data) + ((b as int) - (data[i] as int)) * Pow2(i % LANES)
  {
    var last := |data| - 1;
    var p := Pow2(i % LANES);
    var changed := data[i := b];
    if i == last {
      assert changed[..last] == data[..last];
      DistributeDifference(b as int, data[i] as int, p);
    } else {
      assert changed[..last] == data[..last][i := b];
      assert changed[last] == data[last];
      WeightedSumUpdate(data[..last], i, b);
    }
  }

  lemma DistributeDifference(x: int, y: int, p: int)
    ensures (x - y) * p == x * p - y * p
  {
  }

  lemma NonzeroDeltaInRange(d: int, p: nat, delta: int)
    requires d != 0 && -255 <= d <= 255 && 1 <= p <= 0x80_0000 && delta == d * p
    ensures delta != 0 && -WORD < delta < WORD
  {
    if d > 0 {
      MulMonotone(1, d, 1, p);
      MulMonotone(d, 255, p, 0x80_0000);
    } else {
      MulMonotone(1, -d, 1, p);
      MulMonotone(-d, 255, p, 0x80_0000);
      DistributeDifference(0, -d, p);
    }
  }

  lemma SingleByteDelta(data: seq<Byte>, i: nat, b: Byte) returns (delta: int)
    requires i < |data| && data[i] != b
    ensures WeightedSum(data[i := b]) == WeightedSum(data) + delta
    ensures delta != 0 && -WORD < delta < WORD
  {
    var d := ByteDifference(data[i], b);
    var p := Pow2(i % LANES);
    WeightedSumUpdate(data, i, b);
    delta := d * p;
    LaneBound(i % LANES);
    NonzeroDeltaInRange(d, p, delta);
  }

  lemma ByteDifference(x: Byte, y: Byte) returns (d: int)
    requires x != y
    ensures d == (y as int) - (x as int) && d != 0 && -255 <= d <= 255
  {
    d := (y as int) - (x as int);
    if d == 0 {
      ByteValueInjective(x, y);
    }
  }

  lemma ByteValueInjective(x: Byte, y: Byte)
    requires x as int == y as int
    ensures x == y
  {
    assert x == (x as int) as Byte;
  }

  /** Changing any one byte of a chunk, wherever it is and however long the chunk,
      changes the value that travels in the int32 checksum field. */
  lemma SingleByteChangeDetected(data: seq<Byte>, i: nat, b: Byte)
    requires i < |data| && data[i] != b
    ensures ToUint32(ToInt32(Checksum(data[i := b]))) != Checksum(data)
  {
    var delta := SingleByteDelta(data, i, b);
    NearbySumsDiffer(WeightedSum(data), WeightedSum(data[i := b]), delta);
  }

  lemma NearbySumsDiffer(a: nat, c: nat, delta: int)
    requires c == a + delta && delta != 0 && -WORD < delta < WORD
    ensures a % WORD != c % WORD
  {
    assert a == WORD * (a / WORD) + a % WORD;
    assert c == WORD * (c / WORD) + c % WORD;
  }

  lemma SwapDelta(data: seq<Byte>, i: nat, j: nat)
    requires i < j < |data|
    ensures var d := (data[j] as int) - (data[i] as int);
      WeightedSum(data[i := data[j]][j := data[i]]) == WeightedSum(data) + d * (Pow2(i % LANES) - Pow2(j % LANES))
  {
    hide WeightedSum, Pow2;
    var half := data[i := data[j]];
    WeightedSumUpdate(data, i, data[j]);
    WeightedSumUpdate(half, j, data[i]);
    assert half[j] == data[j];
    SwapTerms(data[i] as int, data[j] as int, Pow2(i % LANES), Pow2(j % LANES));
  }

  lemma SwapTerms(x: int, y: int, p: int, q: int)
    ensures (y - x) * p + (x - y) * q == (y - x) * (p - q)
  {
  }

  lemma {:induction false} Pow2Grows(k: nat, n: nat)
    requires k < n
    ensures Pow2(k) < Pow2(n)
  {
    if k < n - 1 {
      Pow2Grows(k, n - 1);
    }
  }

  lemma SwapInRange(d: int, p: nat, q: nat)
    requires d != 0 && -255 <= d <= 255 && 1 <= p <= 0x80_0000 && 1 <= q <= 0x80_0000 && p != q
    ensures d * (p - q) != 0 && -WORD < d * (p - q) < WORD
  {
    if p > q {
      NonzeroDeltaInRange(d, p - q, d * (p - q));
    } else {
      NonzeroDeltaInRange(-d, q - p, -d * (q - p));
      SignsCancel(d, p, q);
    }
  }

  lemma SignsCancel(d: int, p: int, q: int)
    ensures -d * (q - p) == d * (p - q)
  {
  }

  lemma SwapUnseen(data: seq<Byte>, i: nat, j: nat)
    requires i < j < |data| && (data[i] == data[j] || i % LANES == j % LANES)
    ensures WeightedSum(data[i := data[j]][j := data[i]]) == WeightedSum(data)
  {
    hide WeightedSum, Pow2;
    SwapDelta(data, i, j);
    TimesNought((data[j] as int) - (data[i] as int), Pow2(i % LANES) - Pow2(j % LANES));
  }

  lemma TimesNought(x: int, y: int)
    ensures x == 0 || y == 0 ==> x * y == 0
  {
  }

  lemma SwapSeen(data: seq<Byte>, i: nat, j: nat)
    requires i < j < |data| && data[i] != data[j] && i % LANES != j % LANES
    ensures WeightedSum(data[i := data[j]][j := data[i]]) % WORD != WeightedSum(data) % WORD
  {
    hide WeightedSum, Pow2;
    SwapDelta(data, i, j);
    LanesDiffer(i, j);
    var d := ByteDifference(data[i], data[j]);
    SwapInRange(d, Pow2(i % LANES), Pow2(j % LANES));
    var delta: int := d * (Pow2(i % LANES) - Pow2(j % LANES));
    NearbySumsDiffer(WeightedSum(data), WeightedSum(data[i := data[j]][j := data[i]]), delta);
  }

  /** Swapping two bytes of a chunk goes unseen exactly if they are equal or a multiple of
      24 places apart. */
  lemma SwapDetected(data: seq<Byte>, i: nat, j: nat)
    requires i < j < |data|
    ensures Checksum(data[i := data[j]][j := data[i]]) == Checksum(data) <==> data[i] == data[j] || (j - i) % 24 == 0
  {
    hide WeightedSum;
    SameLane(i, j);
    if data[i] == data[j] || i % LANES == j % LANES {
      SwapUnseen(data, i, j);
    } else {
      SwapSeen(data, i, j);
    }
  }

  lemma LanesDiffer(i: nat, j: nat)
    requires i % LANES != j % LANES
    ensures var p, q := Pow2(i % LANES), Pow2(j % LANES);
      p != q && p <= 0x80_0000 && q <= 0x80_0000
  {
    LaneBound(i % LANES);
    LaneBound(j % LANES);
    if i % LANES < j % LANES {
      Pow2Grows(i % LANES, j % LANES);
    } else {
      Pow2Grows(j % LANES, i % LANES);
    }
  }

  lemma SameLane(i: nat, j: nat)
    requires i < j
    ensures i % LANES == j % LANES <==> (j - i) % 24 == 0
  {
  }

  /** Two compensating changes can go unseen: the check is no stronger than that. */
  lemma TwoByteChangeCanEscape()
    ensures Checksum([2, 0]) == Checksum([0, 1])
  {
    assert [2 as Byte, 0 as Byte][..1] == [2];
    assert [0 as Byte, 1 as Byte][..1] == [0];
    assert WeightedSum([2]) == 2 && WeightedSum([0]) == 0;
    assert Pow2(1) == 2;
  }

  // ----- Munging: every byte XOR 0xFF -----

  function MungeByte(b: Byte): Byte { b ^ 0xFF }

  function Munged(data: seq<Byte>): (r: seq<Byte>)
    ensures |r| == |data|
  {
    seq(|data|, i requires 0 <= i < |data| => MungeByte(data[i]))
  }

  method MungeInPlace(buffer: array<Byte>, count: nat)
    requires count <= buffer.Length
    modifies buffer
    ensures buffer[..count] == Munged(old(buffer[..count]))
    ensures buffer[count..] == old(buffer[count..])
  {
    for i := 0 to count
      invariant forall k :: 0 <= k < i ==> buffer[k] == MungeByte(old(buffer[k]))
      invariant forall k :: i <= k < buffer.Length ==> buffer[k] == old(buffer[k])
    {
      buffer[i] := buffer[i] ^ 0xFF;
    }
  }

  lemma MungedTwice(data: seq<Byte>)
    ensures Munged(Munged(data)) == data
  {
    forall i | 0 <= i < |data| ensures Munged(Munged(data))[i] == data[i] {
      assert (data[i] ^ 0xFF) ^ 0xFF == data[i];
    }
  }

  /** Sum of the lane weights of a chunk of n bytes. */
  function LaneSum(n: nat): nat {
    if n == 0 then 0 else LaneSum(n - 1) + Pow2((n - 1) % LANES)
  }

  lemma {:induction false} MungedWeightedSum(data: seq<Byte>)
    ensures WeightedSum(Munged(data)) + WeightedSum(data) == 255 * LaneSum(|data|)
  {
    if |data| > 0 {
      var last := |data| - 1;
      assert Munged(data)[..last] == Munged(data[..last]);
      MungedWeightedSum(data[..last]);
      var p, b := Pow2(last % LANES), data[last] as int;
      DistributeDifference(255, b, p);
      assert Munged(data)[last] == MungeByte(data[last]);
    }
  }

  /** Munged and plain checksums of one chunk add up to a constant that depends on the
      chunk length only, so a receiver that verified after un-munging would compare
      against the complement of the sum that was sent. */
  lemma MungedChecksumComplement(data: seq<Byte>)
    ensures (Checksum(Munged(data)) + Checksum(data)) % WORD == (255 * LaneSum(|data|)) % WORD
  {
    hide WeightedSum, LaneSum, Munged, Checksum;
    MungedWeightedSum(data);
    ChecksumWraps(data);
    ChecksumWraps(Munged(data));
    BothWrap(WeightedSum(Munged(data)), WeightedSum(data), 255 * LaneSum(|data|));
  }

  lemma ChecksumWraps(data: seq<Byte>)
    ensures Checksum(data) == WeightedSum(data) % WORD
  {
  }

  lemma BothWrap(a: nat, b: nat, total: nat)
    requires a + b == total
    ensures (a % WORD + b % WORD) % WORD == total % WORD
  {
    AddWraps(a, b % WORD);
    AddWraps(b, a);
  }
}
