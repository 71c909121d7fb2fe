/** What an observer on the bus sees of each transaction: the bytes shifted out and in, the levels
    driven on and sampled from each pin, and the transaction brackets. Each lemma states, for every
    input, what the register layer promises about one of its transactions. */
module Properties {
  import opened Bits
  import opened Arduino
  import opened Protocol

  // ---------------------------------------------------------------------------------------------
  // Trace monitors

  /** Byte-valued views of an event: the byte it shifted out, or the byte it shifted in. */
  datatype ByteProbe = SentBytes | ReceivedBytes

  /** Level-valued views of an event: a level driven on a pin, a level sampled from a pin, or a
      transaction bracket (true for `beginTransaction`, false for `endTransaction`). */
  datatype LevelProbe = WritesTo(pin: int) | ReadsFrom(pin: int) | Brackets

  function ByteOf(pr: ByteProbe, e: Event): seq<bv8> {
    match e
    case Transfer(sent, received) => if pr == SentBytes then [sent] else [received]
    case _ => []
  }

  function LevelOf(pr: LevelProbe, e: Event): seq<bool> {
    match pr
    case WritesTo(pin) => if e.DigitalWrite? && e.pin == pin then [e.high] else []
    case ReadsFrom(pin) => if e.DigitalRead? && e.pin == pin then [e.high] else []
    case Brackets =>
      if e.BeginTransaction? then [true] else if e.EndTransaction? then [false] else []
  }

  /** The bytes a probe sees over a whole trace, in order. */
  function Bytes(pr: ByteProbe, ev: seq<Event>): seq<bv8> {
    if ev == [] then [] else ByteOf(pr, ev[0]) + Bytes(pr, ev[1..])
  }

  /** The levels a probe sees over a whole trace, in order. */
  function Levels(pr: LevelProbe, ev: seq<Event>): seq<bool> {
    if ev == [] then [] else LevelOf(pr, ev[0]) + Levels(pr, ev[1..])
  }

  lemma {:induction false} BytesAppend(pr: ByteProbe, a: seq<Event>, b: seq<Event>)
    ensures Bytes(pr, a + b) == Bytes(pr, a) + Bytes(pr, b)
  {
    if a == [] {
      assert a + b == b;
    } else {
      BytesAppend(pr, a[1..], b);
      DropAppend(a, b);
      AppendAssoc(ByteOf(pr, a[0]), Bytes(pr, a[1..]), Bytes(pr, b));
    }
  }

  lemma {:induction false} LevelsAppend(pr: LevelProbe, a: seq<Event>, b: seq<Event>)
    ensures Levels(pr, a + b) == Levels(pr, a) + Levels(pr, b)
  {
    if a == [] {
      assert a + b == b;
    } else {
      LevelsAppend(pr, a[1..], b);
      DropAppend(a, b);
      AppendAssoc(LevelOf(pr, a[0]), Levels(pr, a[1..]), Levels(pr, b));
    }
  }

  lemma DropAppend<T>(a: seq<T>, b: seq<T>)
    requires a != []
    ensures (a + b)[0] == a[0] && (a + b)[1..] == a[1..] + b
  {
  }

  lemma AppendAssoc<T>(x: seq<T>, y: seq<T>, z: seq<T>)
    ensures x + (y + z) == x + y + z
  {
  }

  lemma TakeSnoc<T>(t: seq<T>, k: nat)
    requires 0 < k <= |t|
    ensures t[..k] == t[..k - 1] + [t[k - 1]]
  {
  }

  lemma BytesOne(pr: ByteProbe, e: Event)
    ensures Bytes(pr, [e]) == ByteOf(pr, e)
  {
    assert [e][1..] == [];
  }

  lemma LevelsOne(pr: LevelProbe, e: Event)
    ensures Levels(pr, [e]) == LevelOf(pr, e)
  {
    assert [e][1..] == [];
  }

  /** n zero bytes. */
  function Zeros(n: nat): (r: seq<bv8>)
    ensures |r| == n
  {
    seq(n, _ => 0)
  }

  /** n LOW levels. */
  function Lows(n: nat): (r: seq<bool>)
    ensures |r| == n
  {
    seq(n, _ => false)
  }

  /** n clock pulses as driven in SPI mode 0: LOW, then HIGH, n times. */
  function Pulses(n: nat): (r: seq<bool>)
    ensures |r| == 2 * n
  {
    seq(2 * n, j requires 0 <= j => j % 2 == 1)
  }

  // ---------------------------------------------------------------------------------------------
  // The bit-banged byte transfer

  /** One pass of the bit loop, seen by any level probe: what each of its four calls shows. */
  lemma BitLevels(pr: LevelProbe, p: Pins, out: bool, sample: bool)
    ensures Levels(pr, BitEvents(p, out, sample))
         == LevelOf(pr, DigitalWrite(p.sck, false)) + LevelOf(pr, DigitalWrite(p.mosi, out))
            + LevelOf(pr, DigitalWrite(p.sck, true)) + LevelOf(pr, DigitalRead(p.miso, sample))
  {
    var e0, e1, e2, e3 := DigitalWrite(p.sck, false), DigitalWrite(p.mosi, out), DigitalWrite(p.sck, true),
                          DigitalRead(p.miso, sample);
    assert BitEvents(p, out, sample) == [e0] + [e1] + [e2] + [e3];
    LevelsAppend(pr, [e0] + [e1] + [e2], [e3]); LevelsAppend(pr, [e0] + [e1], [e2]); LevelsAppend(pr, [e0], [e1]);
    LevelsOne(pr, e0); LevelsOne(pr, e1); LevelsOne(pr, e2); LevelsOne(pr, e3);
  }

  /** One pass of the bit loop moves no byte through the hardware peripheral. */
  lemma BitBytes(pr: ByteProbe, p: Pins, out: bool, sample: bool)
    ensures Bytes(pr, BitEvents(p, out, sample)) == []
  {
    var e0, e1, e2, e3 := DigitalWrite(p.sck, false), DigitalWrite(p.mosi, out), DigitalWrite(p.sck, true),
                          DigitalRead(p.miso, sample);
    assert BitEvents(p, out, sample) == [e0] + [e1] + [e2] + [e3];
    BytesAppend(pr, [e0] + [e1] + [e2], [e3]); BytesAppend(pr, [e0] + [e1], [e2]); BytesAppend(pr, [e0], [e1]);
    BytesOne(pr, e0); BytesOne(pr, e1); BytesOne(pr, e2); BytesOne(pr, e3);
  }

  lemma PulsesSnoc(n: nat)
    ensures Pulses(n + 1) == Pulses(n) + [false, true]
  {
  }

  lemma SwBitsLevelsSnoc(pr: LevelProbe, p: Pins, data: bv8, s: seq<bool>)
    requires 0 < |s| <= 8
    ensures Levels(pr, SwBitsEvents(p, data, s))
         == Levels(pr, SwBitsEvents(p, data, s[..|s| - 1])) + Levels(pr, BitEvents(p, Bit(data, 8 - |s|), s[|s| - 1]))
  {
    LevelsAppend(pr, SwBitsEvents(p, data, s[..|s| - 1]), BitEvents(p, Bit(data, 8 - |s|), s[|s| - 1]));
  }

  /** No byte goes through the hardware peripheral and no transaction is opened during the bit loop. */
  lemma {:induction false} SwBitsSilent(p: Pins, data: bv8, s: seq<bool>)
    requires |s| <= 8
    ensures Bytes(SentBytes, SwBitsEvents(p, data, s)) == [] && Bytes(ReceivedBytes, SwBitsEvents(p, data, s)) == []
    ensures Levels(Brackets, SwBitsEvents(p, data, s)) == []
  {
    if |s| > 0 {
      var last := BitEvents(p, Bit(data, 8 - |s|), s[|s| - 1]);
      SwBitsSilent(p, data, s[..|s| - 1]);
      BitBytes(SentBytes, p, Bit(data, 8 - |s|), s[|s| - 1]);
      BitBytes(ReceivedBytes, p, Bit(data, 8 - |s|), s[|s| - 1]);
      BitLevels(Brackets, p, Bit(data, 8 - |s|), s[|s| - 1]);
      BytesAppend(SentBytes, SwBitsEvents(p, data, s[..|s| - 1]), last);
      BytesAppend(ReceivedBytes, SwBitsEvents(p, data, s[..|s| - 1]), last);
      SwBitsLevelsSnoc(Brackets, p, data, s);
    }
  }

  /** MISO is sampled once per pass, and the levels read are the samples the loop shifts in. */
  lemma {:induction false} SwBitsSamples(p: Pins, data: bv8, s: seq<bool>)
    requires |s| <= 8
    ensures Levels(ReadsFrom(p.miso), SwBitsEvents(p, data, s)) == s
  {
    if |s| > 0 {
      SwBitsSamples(p, data, s[..|s| - 1]);
      BitLevels(ReadsFrom(p.miso), p, Bit(data, 8 - |s|), s[|s| - 1]);
      SwBitsLevelsSnoc(ReadsFrom(p.miso), p, data, s);
      TakeSnoc(s, |s|);
      assert s[..|s|] == s;
    }
  }

  /** Pass i drives bit 7 - i of `data` on MOSI. */
  lemma {:induction false} SwBitsMosi(p: Pins, data: bv8, s: seq<bool>)
    requires |s| <= 8 && p.mosi != p.sck
    ensures Levels(WritesTo(p.mosi), SwBitsEvents(p, data, s)) == MsbFirst(data)[..|s|]
  {
    if |s| > 0 {
      SwBitsMosi(p, data, s[..|s| - 1]);
      BitLevels(WritesTo(p.mosi), p, Bit(data, 8 - |s|), s[|s| - 1]);
      SwBitsLevelsSnoc(WritesTo(p.mosi), p, data, s);
      TakeSnoc(MsbFirst(data), |s|);
    }
  }

  /** Pass i, in this order: the clock goes LOW, MOSI takes bit 7 - i of `data`, the clock goes HIGH,
      and MISO is sampled — one sample per rising clock edge, after the data bit is on the line. */
  lemma {:induction false} SwBitsPass(p: Pins, data: bv8, s: seq<bool>, i: nat)
    requires |s| <= 8 && i < |s|
    ensures var ev := SwBitsEvents(p, data, s);
      && ev[4 * i] == DigitalWrite(p.sck, false)
      && ev[4 * i + 1] == DigitalWrite(p.mosi, Bit(data, 7 - i))
      && ev[4 * i + 2] == DigitalWrite(p.sck, true)
      && ev[4 * i + 3] == DigitalRead(p.miso, s[i])
    decreases |s|
  {
    var init := s[..|s| - 1];
    assert SwBitsEvents(p, data, s) == SwBitsEvents(p, data, init) + BitEvents(p, Bit(data, 8 - |s|), s[|s| - 1]);
    if i < |s| - 1 {
      SwBitsPass(p, data, init, i);
      assert init[i] == s[i];
    }
  }

  /** Each pass drives the clock LOW, then HIGH. */
  lemma {:induction false} SwBitsClock(p: Pins, data: bv8, s: seq<bool>)
    requires |s| <= 8 && p.mosi != p.sck
    ensures Levels(WritesTo(p.sck), SwBitsEvents(p, data, s)) == Pulses(|s|)
  {
    if |s| > 0 {
      SwBitsClock(p, data, s[..|s| - 1]);
      BitLevels(WritesTo(p.sck), p, Bit(data, 8 - |s|), s[|s| - 1]);
      SwBitsLevelsSnoc(WritesTo(p.sck), p, data, s);
      PulsesSnoc(|s| - 1);
    }
  }

  /** The bit loop leaves chip-select alone. */
  lemma {:induction false} SwBitsKeepsCs(p: Pins, data: bv8, s: seq<bool>)
    requires |s| <= 8 && p.cs != p.mosi && p.cs != p.sck
    ensures Levels(WritesTo(p.cs), SwBitsEvents(p, data, s)) == []
  {
    if |s| > 0 {
      SwBitsKeepsCs(p, data, s[..|s| - 1]);
      BitLevels(WritesTo(p.cs), p, Bit(data, 8 - |s|), s[|s| - 1]);
      SwBitsLevelsSnoc(WritesTo(p.cs), p, data, s);
    }
  }

  /** Loopback: if every level sampled on MISO is the level just driven on MOSI, the transfer
      returns the byte it sent. */
  lemma TransferLoopback(p: Pins, data: bv8, w: seq<bool>)
    requires |w| == 8 && p.mosi != p.sck
    requires Levels(ReadsFrom(p.miso), SwBitsEvents(p, data, w)) == Levels(WritesTo(p.mosi), SwBitsEvents(p, data, w))
    ensures Acc(w) == data
  {
    SwBitsSamples(p, data, w);
    SwBitsMosi(p, data, w);
    assert w == MsbFirst(data)[..8] == MsbFirst(data);
    LoopbackRoundTrip(data);
  }

  lemma MsbFirstZero()
    ensures MsbFirst(0) == Lows(8)
  {
    forall i | 0 <= i < 8 ensures !Bit(0, i) {
    }
  }

  lemma SamplesSplit(s: Slave, m: nat, a: nat, b: nat)
    ensures Samples(s, m, a) + Samples(s, m + a, b) == Samples(s, m, a + b)
  {
  }

  lemma SwDummyLevelsSnoc(pr: LevelProbe, p: Pins, s: Slave, m: nat, n: nat)
    requires n > 0
    ensures Levels(pr, SwDummyEvents(p, s, m, n))
         == Levels(pr, SwDummyEvents(p, s, m, n - 1)) + Levels(pr, SwBitsEvents(p, 0, Window(s, m + 8 * (n - 1))))
  {
    LevelsAppend(pr, SwDummyEvents(p, s, m, n - 1), SwBitsEvents(p, 0, Window(s, m + 8 * (n - 1))));
  }

  /** The bit-banged dummy bytes of a software read use neither the hardware peripheral nor a transaction. */
  lemma {:induction false} SwDummySilent(p: Pins, s: Slave, m: nat, n: nat)
    ensures Bytes(SentBytes, SwDummyEvents(p, s, m, n)) == [] && Bytes(ReceivedBytes, SwDummyEvents(p, s, m, n)) == []
    ensures Levels(Brackets, SwDummyEvents(p, s, m, n)) == []
  {
    if n > 0 {
      var last := SwBitsEvents(p, 0, Window(s, m + 8 * (n - 1)));
      SwDummySilent(p, s, m, n - 1);
      SwBitsSilent(p, 0, Window(s, m + 8 * (n - 1)));
      BytesAppend(SentBytes, SwDummyEvents(p, s, m, n - 1), last);
      BytesAppend(ReceivedBytes, SwDummyEvents(p, s, m, n - 1), last);
      SwDummyLevelsSnoc(Brackets, p, s, m, n);
    }
  }

  /** The n dummy bytes sample MISO 8n times in a row, from sample m on. */
  lemma {:induction false} SwDummySamples(p: Pins, s: Slave, m: nat, n: nat)
    ensures Levels(ReadsFrom(p.miso), SwDummyEvents(p, s, m, n)) == Samples(s, m, 8 * n)
  {
    if n > 0 {
      SwDummySamples(p, s, m, n - 1);
      SwBitsSamples(p, 0, Window(s, m + 8 * (n - 1)));
      SwDummyLevelsSnoc(ReadsFrom(p.miso), p, s, m, n);
      SamplesSplit(s, m, 8 * (n - 1), 8);
    }
  }

  /** MOSI stays LOW for the whole of the dummy bytes. */
  lemma {:induction false} SwDummyMosi(p: Pins, s: Slave, m: nat, n: nat)
    requires p.mosi != p.sck
    ensures Levels(WritesTo(p.mosi), SwDummyEvents(p, s, m, n)) == Lows(8 * n)
  {
    if n > 0 {
      SwDummyMosi(p, s, m, n - 1);
      SwBitsMosi(p, 0, Window(s, m + 8 * (n - 1)));
      SwDummyLevelsSnoc(WritesTo(p.mosi), p, s, m, n);
      MsbFirstZero();
      assert MsbFirst(0)[..8] == MsbFirst(0);
      assert Lows(8 * (n - 1)) + Lows(8) == Lows(8 * n);
    }
  }

  /** Nor do the dummy bytes touch chip-select. */
  lemma {:induction false} SwDummyKeepsCs(p: Pins, s: Slave, m: nat, n: nat)
    requires p.cs != p.mosi && p.cs != p.sck
    ensures Levels(WritesTo(p.cs), SwDummyEvents(p, s, m, n)) == []
  {
    if n > 0 {
      SwDummyKeepsCs(p, s, m, n - 1);
      SwBitsKeepsCs(p, 0, Window(s, m + 8 * (n - 1)));
      SwDummyLevelsSnoc(WritesTo(p.cs), p, s, m, n);
    }
  }

  lemma HwDummyUncons(s: Slave, k: nat, n: nat)
    requires n > 0
    ensures HwDummyEvents(s, k, n) == [Transfer(0, Response(s, k))] + HwDummyEvents(s, k + 1, n - 1)
  {
  }

  /** The hardware dummy bytes send n zero bytes. */
  lemma {:induction false} HwDummySent(s: Slave, k: nat, n: nat)
    ensures Bytes(SentBytes, HwDummyEvents(s, k, n)) == Zeros(n)
    decreases n
  {
    if n > 0 {
      var e := Transfer(0, Response(s, k));
      HwDummyUncons(s, k, n);
      HwDummySent(s, k + 1, n - 1);
      BytesAppend(SentBytes, [e], HwDummyEvents(s, k + 1, n - 1));
      BytesOne(SentBytes, e);
      assert [0] + Zeros(n - 1) == Zeros(n);
    }
  }

  /** The hardware dummy bytes bring in the slave's next n answers. */
  lemma {:induction false} HwDummyReceived(s: Slave, k: nat, n: nat)
    ensures Bytes(ReceivedBytes, HwDummyEvents(s, k, n)) == seq(n, i requires 0 <= i => Response(s, k + i))
    decreases n
  {
    if n > 0 {
      var e := Transfer(0, Response(s, k));
      HwDummyUncons(s, k, n);
      HwDummyReceived(s, k + 1, n - 1);
      BytesAppend(ReceivedBytes, [e], HwDummyEvents(s, k + 1, n - 1));
      BytesOne(ReceivedBytes, e);
      assert [Response(s, k)] + seq(n - 1, i requires 0 <= i => Response(s, k + 1 + i))
          == seq(n, i requires 0 <= i => Response(s, k + i));
    }
  }

  /** The hardware dummy bytes drive and sample no pin and open no transaction. */
  lemma {:induction false} HwDummyLevels(pr: LevelProbe, s: Slave, k: nat, n: nat)
    ensures Levels(pr, HwDummyEvents(s, k, n)) == []
    decreases n
  {
    if n > 0 {
      var e := Transfer(0, Response(s, k));
      HwDummyUncons(s, k, n);
      HwDummyLevels(pr, s, k + 1, n - 1);
      LevelsAppend(pr, [e], HwDummyEvents(s, k + 1, n - 1));
      LevelsOne(pr, e);
    }
  }

  lemma BytesPair(pr: ByteProbe, e0: Event, e1: Event)
    ensures Bytes(pr, [e0, e1]) == ByteOf(pr, e0) + ByteOf(pr, e1)
  {
    assert [e0, e1] == [e0] + [e1];
    BytesAppend(pr, [e0], [e1]); BytesOne(pr, e0); BytesOne(pr, e1);
  }

  lemma LevelsPair(pr: LevelProbe, e0: Event, e1: Event)
    ensures Levels(pr, [e0, e1]) == LevelOf(pr, e0) + LevelOf(pr, e1)
  {
    assert [e0, e1] == [e0] + [e1];
    LevelsAppend(pr, [e0], [e1]); LevelsOne(pr, e0); LevelsOne(pr, e1);
  }

  // ---------------------------------------------------------------------------------------------
  // Register reads

  /** The bytes a read of len registers from addr shifts out through the hardware peripheral:
      the address with the read flag set, then one zero byte per register on the hardware path
      (on the bit-banged path the dummy bytes never reach the peripheral). */
  function ReadSent(p: Pins, addr: bv8, len: nat): (r: seq<bv8>)
    ensures |r| > 0 && r[0] & BME280_SPI_READ == BME280_SPI_READ
  {
    [ReadAddress(addr)] + if UsesHardwareSpi(p) then Zeros(len) else []
  }

  /** The part of a hardware read inside chip-select: the address byte and the dummy bytes. */
  lemma HwReadInner(p: Pins, s: Slave, addr: bv8, len: nat, c: Cursor)
    ensures var ev := HwReadEvents(p, s, addr, len, c);
      && |ev| == len + 5
      && ev[2..|ev| - 2] == [Transfer(ReadAddress(addr), Response(s, c.hw))] + HwDummyEvents(s, c.hw + 1, len)
      && ev == [BeginTransaction, DigitalWrite(p.cs, false)] + ev[2..|ev| - 2] + [DigitalWrite(p.cs, true), EndTransaction]
  {
    var ev := HwReadEvents(p, s, addr, len, c);
    var inner := [Transfer(ReadAddress(addr), Response(s, c.hw))] + HwDummyEvents(s, c.hw + 1, len);
    assert ev == [BeginTransaction, DigitalWrite(p.cs, false)] + inner + [DigitalWrite(p.cs, true), EndTransaction];
  }

  /** A hardware read is one SPI transaction and one chip-select window: the transaction opens,
      chip-select goes LOW, the address byte with the read flag and len zero bytes go out, the
      slave's answers come back (the first, to the address byte, is dropped), chip-select goes
      HIGH and the transaction closes. No other pin is driven or sampled in between. */
  lemma HwReadFraming(p: Pins, s: Slave, addr: bv8, len: nat, c: Cursor)
    requires UsesHardwareSpi(p)
    ensures var ev := ReadEvents(p, s, addr, len, c); var inner := ev[2..|ev| - 2];
      && |ev| == len + 5
      && ev[0] == BeginTransaction && ev[1] == DigitalWrite(p.cs, false)
      && ev[|ev| - 2] == DigitalWrite(p.cs, true) && ev[|ev| - 1] == EndTransaction
      && Bytes(SentBytes, inner) == ReadSent(p, addr, len)
      && Bytes(ReceivedBytes, inner) == [Response(s, c.hw)] + ReadBytes(p, s, len, c)
      && (forall pr: LevelProbe :: Levels(pr, inner) == [])
  {
    var ev := ReadEvents(p, s, addr, len, c);
    var e := Transfer(ReadAddress(addr), Response(s, c.hw));
    var dummies := HwDummyEvents(s, c.hw + 1, len);
    HwReadInner(p, s, addr, len, c);
    HwDummySent(s, c.hw + 1, len);
    HwDummyReceived(s, c.hw + 1, len);
    BytesAppend(SentBytes, [e], dummies); BytesOne(SentBytes, e);
    BytesAppend(ReceivedBytes, [e], dummies); BytesOne(ReceivedBytes, e);
    var inner := ev[2..|ev| - 2];
    forall pr: LevelProbe ensures Levels(pr, inner) == [] {
      HwDummyLevels(pr, s, c.hw + 1, len);
      LevelsAppend(pr, [e], dummies); LevelsOne(pr, e);
    }
  }

  /** The part of a software read inside chip-select: the address byte, then the bit-banged dummy bytes. */
  lemma SwReadInner(p: Pins, s: Slave, addr: bv8, len: nat, c: Cursor)
    ensures var ev := SwReadEvents(p, s, addr, len, c);
      && |ev| == 32 * len + 3
      && ev[1..|ev| - 1] == [Transfer(ReadAddress(addr), Response(s, c.hw))] + SwDummyEvents(p, s, c.miso, len)
      && ev == [DigitalWrite(p.cs, false)] + ev[1..|ev| - 1] + [DigitalWrite(p.cs, true)]
  {
    var ev := SwReadEvents(p, s, addr, len, c);
    var inner := [Transfer(ReadAddress(addr), Response(s, c.hw))] + SwDummyEvents(p, s, c.miso, len);
    assert ev == [DigitalWrite(p.cs, false)] + inner + [DigitalWrite(p.cs, true)];
  }

  /** A bit-banged read is one chip-select window with no SPI transaction: chip-select goes LOW,
      the address byte with the read flag goes out through the peripheral, then MISO is sampled
      8 times per register while MOSI is held LOW, and chip-select goes HIGH. */
  lemma SwReadFraming(p: Pins, s: Slave, addr: bv8, len: nat, c: Cursor)
    requires !UsesHardwareSpi(p)
    ensures var ev := ReadEvents(p, s, addr, len, c); var inner := ev[1..|ev| - 1];
      && |ev| == 32 * len + 3
      && ev[0] == DigitalWrite(p.cs, false) && ev[|ev| - 1] == DigitalWrite(p.cs, true)
      && Bytes(SentBytes, inner) == ReadSent(p, addr, len)
      && Bytes(ReceivedBytes, inner) == [Response(s, c.hw)]
      && Levels(Brackets, inner) == []
  {
    var e := Transfer(ReadAddress(addr), Response(s, c.hw));
    var dummies := SwDummyEvents(p, s, c.miso, len);
    SwReadInner(p, s, addr, len, c);
    SwDummySilent(p, s, c.miso, len);
    BytesAppend(SentBytes, [e], dummies); BytesOne(SentBytes, e);
    BytesAppend(ReceivedBytes, [e], dummies); BytesOne(ReceivedBytes, e);
    LevelsAppend(Brackets, [e], dummies); LevelsOne(Brackets, e);
  }

  /** Chip-select is not driven inside the window of a bit-banged read, when it is wired apart from
      the clock and MOSI. */
  lemma SwReadKeepsCs(p: Pins, s: Slave, addr: bv8, len: nat, c: Cursor)
    requires !UsesHardwareSpi(p) && p.cs != p.mosi && p.cs != p.sck
    ensures var ev := ReadEvents(p, s, addr, len, c); Levels(WritesTo(p.cs), ev[1..|ev| - 1]) == []
  {
    var e := Transfer(ReadAddress(addr), Response(s, c.hw));
    var dummies := SwDummyEvents(p, s, c.miso, len);
    SwReadInner(p, s, addr, len, c);
    SwDummyKeepsCs(p, s, c.miso, len);
    LevelsAppend(WritesTo(p.cs), [e], dummies); LevelsOne(WritesTo(p.cs), e);
  }

  /** Inside the chip-select window of a bit-banged read, MISO is sampled 8 times per register
      from the slave's next samples on, while MOSI is held LOW. */
  lemma SwReadSampling(p: Pins, s: Slave, addr: bv8, len: nat, c: Cursor)
    requires !UsesHardwareSpi(p)
    ensures var ev := ReadEvents(p, s, addr, len, c); var inner := ev[1..|ev| - 1];
      && Levels(ReadsFrom(p.miso), inner) == Samples(s, c.miso, 8 * len)
      && (p.mosi != p.sck ==> Levels(WritesTo(p.mosi), inner) == Lows(8 * len))
  {
    var e := Transfer(ReadAddress(addr), Response(s, c.hw));
    var dummies := SwDummyEvents(p, s, c.miso, len);
    SwReadInner(p, s, addr, len, c);
    SwDummySamples(p, s, c.miso, len);
    LevelsAppend(ReadsFrom(p.miso), [e], dummies); LevelsOne(ReadsFrom(p.miso), e);
    if p.mosi != p.sck {
      SwDummyMosi(p, s, c.miso, len);
      LevelsAppend(WritesTo(p.mosi), [e], dummies); LevelsOne(WritesTo(p.mosi), e);
    }
  }

  /** Byte i of a bit-banged read is MISO samples 8i to 8i + 7 of the read, first sample highest. */
  lemma SwReadDecodes(p: Pins, s: Slave, len: nat, c: Cursor, i: nat)
    requires !UsesHardwareSpi(p) && i < len
    ensures 8 * i + 8 <= 8 * len
    ensures ReadBytes(p, s, len, c)[i] == Acc(Samples(s, c.miso, 8 * len)[8 * i .. 8 * i + 8])
  {
    assert Samples(s, c.miso, 8 * len)[8 * i .. 8 * i + 8] == Window(s, c.miso + 8 * i);
  }

  /** A read stores byte i of its answer at offset + i and leaves every other cell of the buffer as it was. */
  lemma SpliceCells<T>(a: seq<T>, o: nat, b: seq<T>, k: nat)
    requires o + |b| <= |a| && k < |a|
    ensures Splice(a, o, b)[k] == if o <= k < o + |b| then b[k - o] else a[k]
  {
  }

  // ---------------------------------------------------------------------------------------------
  // Register writes

  /** The bytes every register write shifts out: the address with the read flag cleared, then the value. */
  function WriteSent(addr: bv8, data: bv8): (r: seq<bv8>)
    ensures |r| == 2 && r[0] & BME280_SPI_READ == 0 && r[1] == data
  {
    [WriteAddress(addr), data]
  }

  /** The two bytes of a write, as the probes see them. */
  lemma TransferPair(e0: Event, e1: Event)
    requires e0.Transfer? && e1.Transfer?
    ensures Bytes(SentBytes, [e0, e1]) == [e0.sent, e1.sent]
    ensures Bytes(ReceivedBytes, [e0, e1]) == [e0.received, e1.received]
    ensures forall pr: LevelProbe :: Levels(pr, [e0, e1]) == []
  {
    BytesPair(SentBytes, e0, e1);
    BytesPair(ReceivedBytes, e0, e1);
    forall pr: LevelProbe ensures Levels(pr, [e0, e1]) == [] {
      LevelsPair(pr, e0, e1);
    }
  }

  /** A hardware write is one SPI transaction and one chip-select window around the two bytes. */
  lemma HwWriteFraming(p: Pins, s: Slave, addr: bv8, data: bv8, c: Cursor)
    requires UsesHardwareSpi(p)
    ensures var ev := WriteEvents(p, s, addr, data, c); var inner := ev[2..4];
      && |ev| == 6
      && ev[0] == BeginTransaction && ev[1] == DigitalWrite(p.cs, false)
      && ev[4] == DigitalWrite(p.cs, true) && ev[5] == EndTransaction
      && Bytes(SentBytes, inner) == WriteSent(addr, data)
      && Bytes(ReceivedBytes, inner) == [Response(s, c.hw), Response(s, c.hw + 1)]
      && (forall pr: LevelProbe :: Levels(pr, inner) == [])
  {
    var ev := HwWriteEvents(p, s, addr, data, c);
    var e0, e1 := Transfer(WriteAddress(addr), Response(s, c.hw)), Transfer(data, Response(s, c.hw + 1));
    assert ev[2..4] == [e0, e1];
    TransferPair(e0, e1);
  }

  /** A bit-banged write as the code has it: a chip-select window around the two bytes, which both
      go through the peripheral, followed by an `endTransaction` that no `beginTransaction` opened. */
  lemma SwWriteFraming(p: Pins, s: Slave, addr: bv8, data: bv8, c: Cursor)
    requires !UsesHardwareSpi(p)
    ensures var ev := WriteEvents(p, s, addr, data, c); var inner := ev[1..3];
      && |ev| == 5
      && ev[0] == DigitalWrite(p.cs, false) && ev[3] == DigitalWrite(p.cs, true) && ev[4] == EndTransaction
      && Bytes(SentBytes, inner) == WriteSent(addr, data)
      && Bytes(ReceivedBytes, inner) == [Response(s, c.hw), Response(s, c.hw + 1)]
      && (forall pr: LevelProbe :: Levels(pr, inner) == [])
  {
    var ev := SwWriteEvents(p, s, addr, data, c);
    var e0, e1 := Transfer(WriteAddress(addr), Response(s, c.hw)), Transfer(data, Response(s, c.hw + 1));
    assert ev[1..3] == [e0, e1];
    TransferPair(e0, e1);
  }

  // ---------------------------------------------------------------------------------------------
  // Whole transactions and start-up

  /** What a probe sees of a trace made of three parts, given what it sees of each part. */
  lemma BytesOfSequence(pr: ByteProbe, ev: seq<Event>, a: seq<Event>, b: seq<Event>, c: seq<Event>,
                        x: seq<bv8>, y: seq<bv8>, z: seq<bv8>)
    requires ev == a + b + c
    requires Bytes(pr, a) == x && Bytes(pr, b) == y && Bytes(pr, c) == z
    ensures Bytes(pr, ev) == x + y + z
  {
    BytesAppend(pr, a + b, c);
    BytesAppend(pr, a, b);
  }

  lemma LevelsOfSequence(pr: LevelProbe, ev: seq<Event>, a: seq<Event>, b: seq<Event>, c: seq<Event>,
                         x: seq<bool>, y: seq<bool>, z: seq<bool>)
    requires ev == a + b + c
    requires Levels(pr, a) == x && Levels(pr, b) == y && Levels(pr, c) == z
    ensures Levels(pr, ev) == x + y + z
  {
    LevelsAppend(pr, a + b, c);
    LevelsAppend(pr, a, b);
  }

  lemma HwReadTraffic(p: Pins, s: Slave, addr: bv8, len: nat, c: Cursor)
    requires UsesHardwareSpi(p)
    ensures Bytes(SentBytes, ReadEvents(p, s, addr, len, c)) == ReadSent(p, addr, len)
    ensures Levels(Brackets, ReadEvents(p, s, addr, len, c)) == [true, false]
  {
    var ev := HwReadEvents(p, s, addr, len, c);
    var b0, b1 := BeginTransaction, DigitalWrite(p.cs, false);
    var a0, a1 := DigitalWrite(p.cs, true), EndTransaction;
    HwReadFraming(p, s, addr, len, c);
    HwReadInner(p, s, addr, len, c);
    BytesPair(SentBytes, b0, b1); BytesPair(SentBytes, a0, a1);
    BytesOfSequence(SentBytes, ev, [b0, b1], ev[2..|ev| - 2], [a0, a1], [], ReadSent(p, addr, len), []);
    LevelsPair(Brackets, b0, b1); LevelsPair(Brackets, a0, a1);
    LevelsOfSequence(Brackets, ev, [b0, b1], ev[2..|ev| - 2], [a0, a1], [true], [], [false]);
  }

  lemma SwReadTraffic(p: Pins, s: Slave, addr: bv8, len: nat, c: Cursor)
    requires !UsesHardwareSpi(p)
    ensures Bytes(SentBytes, ReadEvents(p, s, addr, len, c)) == ReadSent(p, addr, len)
    ensures Levels(Brackets, ReadEvents(p, s, addr, len, c)) == []
  {
    var ev := SwReadEvents(p, s, addr, len, c);
    var e := Transfer(ReadAddress(addr), Response(s, c.hw));
    var dummies := SwDummyEvents(p, s, c.miso, len);
    var b0, a0 := DigitalWrite(p.cs, false), DigitalWrite(p.cs, true);
    SwReadInner(p, s, addr, len, c);
    SwDummySilent(p, s, c.miso, len);
    BytesAppend(SentBytes, [e], dummies); BytesOne(SentBytes, e);
    BytesOne(SentBytes, b0); BytesOne(SentBytes, a0);
    BytesOfSequence(SentBytes, ev, [b0], [e] + dummies, [a0], [], [ReadAddress(addr)], []);
    LevelsAppend(Brackets, [e], dummies); LevelsOne(Brackets, e);
    LevelsOne(Brackets, b0); LevelsOne(Brackets, a0);
    LevelsOfSequence(Brackets, ev, [b0], [e] + dummies, [a0], [], [], []);
  }

  /** Every read, on either path: the bytes it sends through the peripheral, and its transaction
      brackets (one begin and one end on the hardware path, none on the bit-banged path). */
  lemma ReadTraffic(p: Pins, s: Slave, addr: bv8, len: nat, c: Cursor)
    ensures Bytes(SentBytes, ReadEvents(p, s, addr, len, c)) == ReadSent(p, addr, len)
    ensures Levels(Brackets, ReadEvents(p, s, addr, len, c)) == if UsesHardwareSpi(p) then [true, false] else []
  {
    if UsesHardwareSpi(p) {
      HwReadTraffic(p, s, addr, len, c);
    } else {
      SwReadTraffic(p, s, addr, len, c);
    }
  }

  lemma HwWriteTraffic(p: Pins, s: Slave, addr: bv8, data: bv8, c: Cursor)
    requires UsesHardwareSpi(p)
    ensures Bytes(SentBytes, WriteEvents(p, s, addr, data, c)) == WriteSent(addr, data)
    ensures Levels(Brackets, WriteEvents(p, s, addr, data, c)) == [true, false]
  {
    var ev := HwWriteEvents(p, s, addr, data, c);
    var e0, e1 := Transfer(WriteAddress(addr), Response(s, c.hw)), Transfer(data, Response(s, c.hw + 1));
    var b0, b1 := BeginTransaction, DigitalWrite(p.cs, false);
    var a0, a1 := DigitalWrite(p.cs, true), EndTransaction;
    assert ev == [b0, b1] + [e0, e1] + [a0, a1];
    TransferPair(e0, e1);
    BytesPair(SentBytes, b0, b1); BytesPair(SentBytes, a0, a1);
    BytesOfSequence(SentBytes, ev, [b0, b1], [e0, e1], [a0, a1], [], WriteSent(addr, data), []);
    LevelsPair(Brackets, b0, b1); LevelsPair(Brackets, a0, a1);
    LevelsOfSequence(Brackets, ev, [b0, b1], [e0, e1], [a0, a1], [true], [], [false]);
  }

  lemma SwWriteTraffic(p: Pins, s: Slave, addr: bv8, data: bv8, c: Cursor)
    requires !UsesHardwareSpi(p)
    ensures Bytes(SentBytes, WriteEvents(p, s, addr, data, c)) == WriteSent(addr, data)
    ensures Levels(Brackets, WriteEvents(p, s, addr, data, c)) == [false]
  {
    var ev := SwWriteEvents(p, s, addr, data, c);
    var e0, e1 := Transfer(WriteAddress(addr), Response(s, c.hw)), Transfer(data, Response(s, c.hw + 1));
    var b0 := DigitalWrite(p.cs, false);
    var a0, a1 := DigitalWrite(p.cs, true), EndTransaction;
    assert ev == [b0] + [e0, e1] + [a0, a1];
    TransferPair(e0, e1);
    BytesOne(SentBytes, b0); BytesPair(SentBytes, a0, a1);
    BytesOfSequence(SentBytes, ev, [b0], [e0, e1], [a0, a1], [], WriteSent(addr, data), []);
    LevelsOne(Brackets, b0); LevelsPair(Brackets, a0, a1);
    LevelsOfSequence(Brackets, ev, [b0], [e0, e1], [a0, a1], [], [], [false]);
  }

  /** Every write, on either path: the two bytes it sends, and its transaction brackets (a
      begin and an end on the hardware path, a lone end on the bit-banged path). */
  lemma WriteTraffic(p: Pins, s: Slave, addr: bv8, data: bv8, c: Cursor)
    ensures Bytes(SentBytes, WriteEvents(p, s, addr, data, c)) == WriteSent(addr, data)
    ensures Levels(Brackets, WriteEvents(p, s, addr, data, c)) == if UsesHardwareSpi(p) then [true, false] else [false]
  {
    if UsesHardwareSpi(p) {
      HwWriteTraffic(p, s, addr, data, c);
    } else {
      SwWriteTraffic(p, s, addr, data, c);
    }
  }

  /** What the calibration reads send: their four register ranges, in order. */
  function TrimSent(p: Pins): seq<bv8> {
    ReadSent(p, TEMP_DIG_ADDR, 6) + ReadSent(p, PRESS_DIG_ADDR, 18) + ReadSent(p, HUM_DIG_ADDR1, 1) + ReadSent(p, HUM_DIG_ADDR2, 7)
  }

  /** The calibration block is read from its four register ranges, in order. */
  lemma TrimTraffic(p: Pins, s: Slave, c: Cursor)
    ensures Bytes(SentBytes, RegionsEvents(p, s, TrimRegions, c)) == TrimSent(p)
  {
    var c1 := AfterRead(p, 6, c); var c2 := AfterRead(p, 18, c1); var c3 := AfterRead(p, 1, c2);
    var r0, r1 := ReadEvents(p, s, TEMP_DIG_ADDR, 6, c), ReadEvents(p, s, PRESS_DIG_ADDR, 18, c1);
    var r2, r3 := ReadEvents(p, s, HUM_DIG_ADDR1, 1, c2), ReadEvents(p, s, HUM_DIG_ADDR2, 7, c3);
    TrimSteps(p, s, c);
    BytesAppend(SentBytes, r0 + r1 + r2, r3);
    BytesAppend(SentBytes, r0 + r1, r2);
    BytesAppend(SentBytes, r0, r1);
    ReadTraffic(p, s, TEMP_DIG_ADDR, 6, c); ReadTraffic(p, s, PRESS_DIG_ADDR, 18, c1);
    ReadTraffic(p, s, HUM_DIG_ADDR1, 1, c2); ReadTraffic(p, s, HUM_DIG_ADDR2, 7, c3);
  }

  /** Start-up configures the pins without touching the peripheral's data path. */
  lemma SetupSilent(p: Pins)
    ensures Bytes(SentBytes, SetupEvents(p)) == []
  {
    var ev := SetupEvents(p);
    if UsesHardwareSpi(p) {
      assert ev == [ev[0], ev[1]] + [ev[2]];
      BytesAppend(SentBytes, [ev[0], ev[1]], [ev[2]]);
      BytesPair(SentBytes, ev[0], ev[1]); BytesOne(SentBytes, ev[2]);
    } else {
      assert ev == [ev[0], ev[1]] + [ev[2], ev[3]] + [ev[4]];
      BytesPair(SentBytes, ev[0], ev[1]); BytesPair(SentBytes, ev[2], ev[3]); BytesOne(SentBytes, ev[4]);
      BytesOfSequence(SentBytes, ev, [ev[0], ev[1]], [ev[2], ev[3]], [ev[4]], [], [], []);
    }
  }

  /** What initialization sends: the three control-register writes in order, then the calibration reads. */
  function InitializeSent(p: Pins, regs: ControlRegs): seq<bv8> {
    WriteSent(CTRL_HUM_ADDR, regs.humidity) + WriteSent(CTRL_MEAS_ADDR, regs.measure)
    + WriteSent(CONFIG_ADDR, regs.config) + TrimSent(p)
  }

  lemma InitializeTraffic(p: Pins, regs: ControlRegs, s: Slave, c: Cursor)
    ensures Bytes(SentBytes, InitializeEvents(p, regs, s, c)) == InitializeSent(p, regs)
  {
    var w0, w1 := WriteEvents(p, s, CTRL_HUM_ADDR, regs.humidity, c), WriteEvents(p, s, CTRL_MEAS_ADDR, regs.measure, AfterWrite(c));
    var w2 := WriteEvents(p, s, CONFIG_ADDR, regs.config, AfterWrite(AfterWrite(c)));
    var trim := RegionsEvents(p, s, TrimRegions, AfterWrite(AfterWrite(AfterWrite(c))));
    BytesAppend(SentBytes, w0 + w1 + w2, trim);
    BytesAppend(SentBytes, w0 + w1, w2);
    BytesAppend(SentBytes, w0, w1);
    WriteTraffic(p, s, CTRL_HUM_ADDR, regs.humidity, c);
    WriteTraffic(p, s, CTRL_MEAS_ADDR, regs.measure, AfterWrite(c));
    WriteTraffic(p, s, CONFIG_ADDR, regs.config, AfterWrite(AfterWrite(c)));
    TrimTraffic(p, s, AfterWrite(AfterWrite(AfterWrite(c))));
  }

  /** Everything `begin` sends to the device: the chip-ID read, and only when the ID is a BME280's
      or a BMP280's, the three control-register writes in order followed by the calibration reads.
      With any other ID nothing is written. */
  lemma BeginTraffic(p: Pins, regs: ControlRegs, s: Slave, c: Cursor)
    ensures Bytes(SentBytes, BeginEvents(p, regs, s, c))
         == ReadSent(p, ID_ADDR, 1) + if KnownChipId(ChipId(p, s, c)) then InitializeSent(p, regs) else []
  {
    var known := KnownChipId(ChipId(p, s, c));
    var rest := if known then InitializeEvents(p, regs, s, AfterRead(p, 1, c)) else [];
    SetupSilent(p);
    ReadTraffic(p, s, ID_ADDR, 1, c);
    if known {
      InitializeTraffic(p, regs, s, AfterRead(p, 1, c));
    } else {
      assert Bytes(SentBytes, rest) == [];
    }
    BytesOfSequence(SentBytes, BeginEvents(p, regs, s, c), SetupEvents(p), ReadEvents(p, s, ID_ADDR, 1, c), rest,
                    [], ReadSent(p, ID_ADDR, 1), if known then InitializeSent(p, regs) else []);
  }

  // ---------------------------------------------------------------------------------------------
  // Buffer layouts

  /** The 32-byte calibration buffer: bytes [0, 6) come from the temperature registers, [6, 24)
      from the pressure registers, byte 24 from the first humidity register and [25, 32) from the
      second humidity range, each read by the read that follows the previous one. */
  lemma TrimLayout(p: Pins, s: Slave, c0: Cursor)
    ensures var c1 := AfterRead(p, 6, c0); var c2 := AfterRead(p, 18, c1); var c3 := AfterRead(p, 1, c2);
      var b := RegionsBytes(p, s, TrimRegions, c0);
      && |b| == 32
      && b[..6] == ReadBytes(p, s, 6, c0) && b[6..24] == ReadBytes(p, s, 18, c1)
      && b[24..25] == ReadBytes(p, s, 1, c2) && b[25..] == ReadBytes(p, s, 7, c3)
  {
    TrimSteps(p, s, c0);
  }

  /** The raw sample: bytes [0, 3) are the pressure registers, [3, 6) the temperature registers and
      [6, 8) the humidity registers, each byte zero-extended into the integer buffer. */
  lemma DataLayout(p: Pins, s: Slave, c0: Cursor)
    ensures var c1 := AfterRead(p, 3, c0); var c2 := AfterRead(p, 3, c1);
      var b := RegionsBytes(p, s, DataRegions, c0); var w := Widen(b);
      && |w| == 8
      && b[..3] == ReadBytes(p, s, 3, c0) && b[3..6] == ReadBytes(p, s, 3, c1) && b[6..] == ReadBytes(p, s, 2, c2)
      && forall i :: 0 <= i < 8 ==> 0 <= w[i] < 256 && w[i] == b[i] as int
  {
    DataSteps(p, s, c0);
  }
}
