/**
  `Utilities.ByteToBoolArrayNoAlloc`: unpacks a byte list into an existing bool
  array, bit `i mod 8` of byte `i div 8` going to element `i`, least-significant
  bit first. The packing it undoes is given here as its partner.
*/
module Utilities {

  /** Bit `j` of `b`, the test `(b & (1 << j)) != 0`. */
  predicate Bit(b: bv8, j: nat)
    requires j < 8
  {
    b & (1 << j) != 0
  }

  /** The first `n` unpacked bits of `bytes`. */
  function Unpacked(bytes: seq<bv8>, n: nat): (bools: seq<bool>)
    requires |bytes| >= (n + 7) / 8
    ensures |bools| == n
    ensures forall i :: 0 <= i < n ==> bools[i] == Bit(bytes[i / 8], i % 8)
  {
    seq(n, i requires 0 <= i < n => Bit(bytes[i / 8], i % 8))
  }

  /** Up to eight bools packed into one byte, the first one in the least-significant bit. */
  function PackByte(bools: seq<bool>): bv8
    requires |bools| <= 8
    decreases |bools|
  {
    if bools == [] then 0
    else (PackByte(bools[1..]) << 1) | (if bools[0] then 1 else 0)
  }

  /** Bools packed eight to a byte; a last partial byte has its high bits clear. */
  function Pack(bools: seq<bool>): (bytes: seq<bv8>)
    ensures |bytes| == (|bools| + 7) / 8
    decreases |bools|
  {
    if |bools| <= 8 then (if bools == [] then [] else [PackByte(bools)])
    else [PackByte(bools[..8])] + Pack(bools[8..])
  }

  /** Shifting left by one moves bit `j - 1` to bit `j` and leaves bit 0 to the bit or-ed in. */
  lemma ShiftedBit(x: bv8, c: bool, j: nat)
    requires j < 8
    ensures Bit((x << 1) | (if c then 1 else 0), j) == if j == 0 then c else Bit(x, j - 1)
  {
  }

  /** Bit `j` of a packed byte is bool `j`, and clear past the end. */
  lemma {:induction false} PackByteBits(bools: seq<bool>, j: nat)
    requires |bools| <= 8 && j < 8
    ensures Bit(PackByte(bools), j) == (j < |bools| && bools[j])
    decreases |bools|
  {
    if bools == [] {
    } else {
      ShiftedBit(PackByte(bools[1..]), bools[0], j);
      if j > 0 {
        PackByteBits(bools[1..], j - 1);
      }
    }
  }

  /** Byte `k` of the packing holds bools `8k` to `8k + 7`. */
  lemma {:induction false} PackBytes(bools: seq<bool>, i: nat)
    requires i < |bools|
    ensures Bit(Pack(bools)[i / 8], i % 8) == bools[i]
    decreases |bools|
  {
    if |bools| <= 8 {
      PackByteBits(bools, i);
    } else if i < 8 {
      PackByteBits(bools[..8], i);
    } else {
      PackBytes(bools[8..], i - 8);
      assert (i - 8) / 8 == i / 8 - 1 && (i - 8) % 8 == i % 8;
    }
  }

  /** Unpacking undoes packing. */
  lemma UnpackPack(bools: seq<bool>)
    ensures Unpacked(Pack(bools), |bools|) == bools
  {
    forall i | 0 <= i < |bools|
      ensures Unpacked(Pack(bools), |bools|)[i] == bools[i]
    {
      PackBytes(bools, i);
    }
  }

  /**
    `ByteToBoolArrayNoAlloc`: every element of `bools` is overwritten with its bit.
    The length check is commented out in the original, so with fewer bytes than
    started groups of eight bools the elements the bytes cover are written and the
    read past the last byte throws; `outOfRange` reports that exception.
  */
  method ByteToBoolArrayNoAlloc(bytes: seq<bv8>, bools: array<bool>) returns (outOfRange: bool)
    modifies bools
    ensures outOfRange <==> 8 * |bytes| < bools.Length
    ensures var n := if outOfRange then 8 * |bytes| else bools.Length;
      && bools[..n] == Unpacked(bytes, n)
      && bools[n..] == old(bools[n..])
  {
    for i := 0 to bools.Length
      invariant i <= 8 * |bytes|
      invariant forall k :: 0 <= k < i ==> bools[k] == Bit(bytes[k / 8], k % 8)
      invariant forall k :: i <= k < bools.Length ==> bools[k] == old(bools[k])
    {
      var byteIndex := i / 8;
      var bitIndex := i % 8;
      if byteIndex >= |bytes| {
        return true;
      }
      bools[i] := bytes[byteIndex] & (1 << bitIndex) != 0;
    }
    return false;
  }
}
