/** Assembling a conversion result from the sampled data line, most significant bit
    first, and the binary digits that read it back. */
module Bits {

  function Pow2(n: nat): (p: nat)
    ensures p >= 1
  {
    if n == 0 then 1 else 2 * Pow2(n - 1)
  }

  lemma {:induction false} Pow2Monotone(i: nat, j: nat)
    requires i <= j
    ensures Pow2(i) <= Pow2(j)
    decreases j
  {
    if i < j {
      Pow2Monotone(i, j - 1);
    }
  }

  /** Fewer than eight samples leave the top bit of a uint8_t accumulator clear. */
  lemma PackLeavesTopBitClear(samples: seq<int>)
    requires |samples| < 8
    ensures Pack(samples) < 0x80
  {
    assert Pow2(7) == 128 by {
      assert Pow2(1) == 2 && Pow2(2) == 4 && Pow2(3) == 8;
      assert Pow2(4) == 16 && Pow2(5) == 32 && Pow2(6) == 64;
    }
    Pow2Monotone(|samples|, 7);
  }

  /** `digitalRead(data) ? 1 : 0`: any nonzero reading counts as a 1 bit. */
  function BitOf(v: int): (b: nat)
    ensures b <= 1 && (b == 1 <==> v != 0)
  {
    if v != 0 then 1 else 0
  }

  /** The readings reduced to the bits they stand for. */
  function Normalize(samples: seq<int>): (bits: seq<int>)
  {
    seq(|samples|, i requires 0 <= i < |samples| => BitOf(samples[i]))
  }

  /** The accumulator after `val <<= 1; val |= bit` has run once per sample, starting
      from 0: the first sample ends up most significant. */
  function Pack(samples: seq<int>): (v: nat)
    ensures v < Pow2(|samples|)
    decreases |samples|
  {
    if samples == [] then 0
    else 2 * Pack(samples[..|samples| - 1]) + BitOf(samples[|samples| - 1])
  }

  /** The `n` binary digits of `v`, most significant first; digit `i` is bit `n-1-i`. */
  function Unpack(v: nat, n: nat): (digits: seq<int>)
    ensures |digits| == n
  {
    if n == 0 then [] else Unpack(v / 2, n - 1) + [v % 2]
  }

  /** Reading the packed value back digit by digit yields the samples in the order they
      were taken: sample 0 is the most significant bit, the last sample bit 0. */
  lemma {:induction false} UnpackPack(samples: seq<int>)
    ensures Unpack(Pack(samples), |samples|) == Normalize(samples)
    decreases |samples|
  {
    if samples != [] {
      var n := |samples|;
      var init := samples[..n - 1];
      UnpackPack(init);
      var p := Pack(init);
      assert (2 * p + BitOf(samples[n - 1])) / 2 == p;
      assert (2 * p + BitOf(samples[n - 1])) % 2 == BitOf(samples[n - 1]);
      assert Unpack(Pack(samples), n) == Normalize(init) + [BitOf(samples[n - 1])];
      assert Normalize(samples) == Normalize(init) + [BitOf(samples[n - 1])];
    }
  }

  /** Every value below 2^n is what packing its own n digits produces. */
  lemma {:induction false} PackUnpack(v: nat, n: nat)
    requires v < Pow2(n)
    ensures Pack(Unpack(v, n)) == v
    decreases n
  {
    if n > 0 {
      PackUnpack(v / 2, n - 1);
      var digits := Unpack(v, n);
      assert digits[..n - 1] == Unpack(v / 2, n - 1);
      assert digits[n - 1] == v % 2;
    }
  }

  /** The uint8_t accumulator of the source after `val <<= 1; val |= bit` has run once
      per sample, starting from 0, computed on the byte itself. */
  function PackByte(samples: seq<int>): (v: bv8)
    decreases |samples|
  {
    if samples == [] then 0
    else (PackByte(samples[..|samples| - 1]) << 1) | (if samples[|samples| - 1] != 0 then 1 else 0)
  }

  /** The loop step of the conversion: shifting sample i into an accumulator that holds
      the first i samples gives the first i + 1 samples. */
  lemma PackByteStep(samples: seq<int>, i: nat)
    requires i < |samples|
    ensures PackByte(samples[..i + 1])
            == (PackByte(samples[..i]) << 1) | (if samples[i] != 0 then 1 else 0)
  {
    assert samples[..i + 1][..i] == samples[..i];
  }

  /** Up to eight samples, nothing is shifted out of the byte: it holds exactly the
      number whose binary digits are the samples, the first one most significant. */
  lemma {:induction false} PackByteValue(samples: seq<int>)
    requires |samples| <= 8
    ensures PackByte(samples) as int == Pack(samples)
    decreases |samples|
  {
    if samples != [] {
      var init := samples[..|samples| - 1];
      PackByteValue(init);
      PackLeavesTopBitClear(init);
      ShiftIn(PackByte(init), if samples[|samples| - 1] != 0 then 1 else 0);
    }
  }

  /** One step of the source's accumulator on uint8_t, `val <<= 1; val |= bit`, doubles
      the value and adds the bit, provided the top bit is clear so nothing is shifted out. */
  lemma ShiftIn(v: bv8, b: bv8)
    requires v < 0x80 && b <= 1
    ensures ((v << 1) | b) as int == 2 * (v as int) + b as int
  {
    assert (v << 1) as int == 2 * (v as int);
    assert (v << 1) & 1 == 0;
  }

  /** Shifting left and or-ing in a bit moves every bit of the byte one place up. */
  lemma ShiftUp(v: bv8, b: bv8, k: nat)
    requires b <= 1 && 1 <= k < 8
    ensures (((v << 1) | b) >> k) & 1 == (v >> (k - 1)) & 1
  {
  }

  /** MSB first, bit by bit: of up to eight samples shifted in, sample i ends up in bit
      |samples| - 1 - i of the byte, set exactly when the sample is nonzero. With eight
      samples the first is bit 7 and the last bit 0. */
  lemma {:induction false} PackByteBits(samples: seq<int>, i: nat)
    requires |samples| <= 8 && i < |samples|
    ensures (PackByte(samples) >> (|samples| - 1 - i)) & 1 == (if samples[i] != 0 then 1 else 0)
    decreases |samples|
  {
    var n := |samples|;
    var init := samples[..n - 1];
    var b: bv8 := if samples[n - 1] != 0 then 1 else 0;
    if i < n - 1 {
      PackByteBits(init, i);
      ShiftUp(PackByte(init), b, n - 1 - i);
    } else {
      assert ((PackByte(init) << 1) | b) & 1 == b;
    }
  }
}
