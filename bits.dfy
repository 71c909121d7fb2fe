/** Bit-level view of one SPI byte, most-significant bit first (SPI mode 0 as used by the driver). */
module Bits {

  /** The mask `1 << i` of bit position i, built one single-place shift at a time. */
  function Mask(i: nat): bv8
    requires i < 8
  {
    if i == 0 then 1 else Mask(i - 1) << 1
  }

  lemma MaskIsShift(i: nat)
    requires i < 8
    ensures Mask(i) == (1 as bv8) << i
  {
    if i == 0 {} else if i == 1 {} else if i == 2 {} else if i == 3 {}
    else if i == 4 {} else if i == 5 {} else if i == 6 {} else {}
  }

  /** The level the driver puts on MOSI for bit `i` of `data`: it writes `data & (1 << i)`,
      and any non-zero value is a HIGH level. */
  function Bit(data: bv8, i: nat): bool
    requires i < 8
  {
    (data & Mask(i)) != 0
  }

  /** The eight MOSI levels of `data`, in the order they are clocked out (bit 7 first). */
  function MsbFirst(data: bv8): (r: seq<bool>)
    ensures |r| == 8
  {
    seq(8, k requires 0 <= k < 8 => Bit(data, 7 - k))
  }

  /** One sampled level as the value `digitalRead` returns (0 or 1). */
  function Level(b: bool): bv8 {
    if b then 1 else 0
  }

  /** The response byte after the samples `s` have been shifted in: each step is
      `resp <<= 1; resp |= sample` on an 8-bit variable, so the first sample ends up highest. */
  function Acc(s: seq<bool>): bv8
  {
    if |s| == 0 then 0 else (Acc(s[..|s| - 1]) << 1) | Level(s[|s| - 1])
  }

  lemma AccSnoc(s: seq<bool>, k: nat)
    requires k < |s|
    ensures Acc(s[..k + 1]) == (Acc(s[..k]) << 1) | Level(s[k])
  {
    assert s[..k + 1][..k] == s[..k];
  }

  lemma AccPush(s: seq<bool>, b: bool)
    ensures Acc(s + [b]) == (Acc(s) << 1) | Level(b)
  {
    assert (s + [b])[..|s|] == s;
  }

  /** Closed form of a full eight-sample response: sample k lands in bit 7 - k. */
  lemma AccEight(s: seq<bool>)
    requires |s| == 8
    ensures Acc(s) == (Level(s[0]) << 7) | (Level(s[1]) << 6) | (Level(s[2]) << 5) | (Level(s[3]) << 4)
                    | (Level(s[4]) << 3) | (Level(s[5]) << 2) | (Level(s[6]) << 1) | Level(s[7])
  {
    assert s[..0] == [];
    AccSnoc(s, 0); AccSnoc(s, 1); AccSnoc(s, 2); AccSnoc(s, 3);
    AccSnoc(s, 4); AccSnoc(s, 5); AccSnoc(s, 6); AccSnoc(s, 7);
    assert s[..8] == s;
  }

  /** Loopback: if every sample equals the level just driven on MOSI, the byte comes back unchanged. */
  lemma LoopbackRoundTrip(data: bv8)
    ensures Acc(MsbFirst(data)) == data
  {
    AccEight(MsbFirst(data));
  }

  /** Sample k of a full response is bit 7 - k of the decoded byte. */
  lemma AccBit(s: seq<bool>, k: nat)
    requires |s| == 8 && k < 8
    ensures Bit(Acc(s), 7 - k) == s[k]
  {
    AccEight(s);
  }

  /** The decoder loses nothing: re-encoding a decoded response gives back the samples. */
  lemma SampleOrder(s: seq<bool>)
    requires |s| == 8
    ensures MsbFirst(Acc(s)) == s
  {
    var r := Acc(s);
    forall k | 0 <= k < 8 ensures MsbFirst(r)[k] == s[k] {
      AccBit(s, k);
    }
  }
}
