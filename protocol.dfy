/** Reference definitions of every bus transaction of the BME280 SPI register layer: the trace of
    platform calls it makes, the bytes it hands back and how far it consumes the slave's answers,
    for the hardware path and for the bit-banged path. The driver's methods are proved equal to these. */
module Protocol {
  import opened Bits
  import opened Arduino

  /* Register map and chip identifiers, from the Bosch BME280 datasheet (the driver's header is
     not part of this model). BME280_SPI_READ is the read flag of section 6.3 of the datasheet:
     the most significant bit of the address byte, 1 for a read and 0 for a write. */
  const BME280_SPI_READ: bv8 := 0x80
  const ID_ADDR: bv8 := 0xD0
  const CTRL_HUM_ADDR: bv8 := 0xF2
  const CTRL_MEAS_ADDR: bv8 := 0xF4
  const CONFIG_ADDR: bv8 := 0xF5
  const PRESS_ADDR: bv8 := 0xF7
  const TEMP_ADDR: bv8 := 0xFA
  const HUM_ADDR: bv8 := 0xFD
  const TEMP_DIG_ADDR: bv8 := 0x88
  const PRESS_DIG_ADDR: bv8 := 0x8E
  const HUM_DIG_ADDR1: bv8 := 0xA1
  const HUM_DIG_ADDR2: bv8 := 0xE1
  const BME_ID: bv8 := 0x60
  const BMP_ID: bv8 := 0x58

  /** The value a bit-bang pin holds when the hardware constructor was used. */
  const UNSET_PIN: int := -1

  /** The driver's four pin numbers. */
  datatype Pins = Pins(cs: int, mosi: int, miso: int, sck: int)

  /** The transport test repeated by every read, write and `begin`. */
  predicate UsesHardwareSpi(p: Pins) {
    p.mosi == UNSET_PIN
  }

  /** The settings byte for each of the three control registers (computed by the compensation
      base class from the oversampling, mode, standby and filter settings). */
  datatype ControlRegs = ControlRegs(humidity: bv8, measure: bv8, config: bv8)

  /** First byte of a read: the read flag set, the seven register bits kept. */
  function ReadAddress(addr: bv8): (r: bv8)
    ensures r & 0x80 == 0x80
    ensures r & 0x7F == addr & 0x7F
  {
    addr | BME280_SPI_READ
  }

  /** First byte of a write: `addr & ~0x80` truncated to 8 bits, the read flag cleared. */
  function WriteAddress(addr: bv8): (r: bv8)
    ensures r & 0x80 == 0
    ensures r & 0x7F == addr & 0x7F
  {
    addr & !0x80
  }

  // ---------------------------------------------------------------------------------------------
  // Bit-banged byte transfer

  /** One pass of the bit loop: clock low, drive MOSI, clock high, sample MISO. */
  function BitEvents(p: Pins, out: bool, sample: bool): seq<Event> {
    [DigitalWrite(p.sck, false), DigitalWrite(p.mosi, out), DigitalWrite(p.sck, true), DigitalRead(p.miso, sample)]
  }

  /** The first |s| passes of the bit loop transferring `data`, with the samples `s`. */
  function SwBitsEvents(p: Pins, data: bv8, s: seq<bool>): (r: seq<Event>)
    requires |s| <= 8
    ensures |r| == 4 * |s|
  {
    if |s| == 0 then [] else SwBitsEvents(p, data, s[..|s| - 1]) + BitEvents(p, Bit(data, 8 - |s|), s[|s| - 1])
  }

  /** The n MISO levels the slave presents from sample number k on. */
  function Samples(s: Slave, k: nat, n: nat): (r: seq<bool>)
    ensures |r| == n
  {
    seq(n, i requires 0 <= i => Sample(s, k + i))
  }

  /** The eight levels one bit-banged byte samples. */
  function Window(s: Slave, k: nat): (r: seq<bool>)
    ensures |r| == 8
  {
    Samples(s, k, 8)
  }

  // ---------------------------------------------------------------------------------------------
  // Register reads

  /** The dummy zero bytes of a hardware read, from hardware answer k on. */
  function HwDummyEvents(s: Slave, k: nat, n: nat): (r: seq<Event>)
    ensures |r| == n
  {
    seq(n, i requires 0 <= i => Transfer(0, Response(s, k + i)))
  }

  function HwReadEvents(p: Pins, s: Slave, addr: bv8, len: nat, c: Cursor): seq<Event> {
    [BeginTransaction, DigitalWrite(p.cs, false), Transfer(ReadAddress(addr), Response(s, c.hw))]
    + HwDummyEvents(s, c.hw + 1, len)
    + [DigitalWrite(p.cs, true), EndTransaction]
  }

  /** The slave's answers to the dummy bytes, skipping its answer to the address byte. */
  function HwReadBytes(s: Slave, len: nat, c: Cursor): (r: seq<bv8>)
    ensures |r| == len
  {
    seq(len, i requires 0 <= i => Response(s, c.hw + 1 + i))
  }

  /** The n bit-banged dummy zero bytes of a software read, from MISO sample m on. */
  function SwDummyEvents(p: Pins, s: Slave, m: nat, n: nat): (r: seq<Event>)
    ensures |r| == 32 * n
  {
    if n == 0 then [] else SwDummyEvents(p, s, m, n - 1) + SwBitsEvents(p, 0, Window(s, m + 8 * (n - 1)))
  }

  /** A software read: the address byte goes out through the hardware peripheral, the dummy bytes
      are bit-banged, and there is no transaction bracket. */
  function SwReadEvents(p: Pins, s: Slave, addr: bv8, len: nat, c: Cursor): seq<Event> {
    [DigitalWrite(p.cs, false), Transfer(ReadAddress(addr), Response(s, c.hw))]
    + SwDummyEvents(p, s, c.miso, len)
    + [DigitalWrite(p.cs, true)]
  }

  /** Byte i of a software read is decoded from MISO samples 8i to 8i + 7. */
  function SwReadBytes(s: Slave, len: nat, c: Cursor): (r: seq<bv8>)
    ensures |r| == len
  {
    seq(len, i requires 0 <= i => Acc(Window(s, c.miso + 8 * i)))
  }

  function ReadEvents(p: Pins, s: Slave, addr: bv8, len: nat, c: Cursor): seq<Event> {
    if UsesHardwareSpi(p) then HwReadEvents(p, s, addr, len, c) else SwReadEvents(p, s, addr, len, c)
  }

  function ReadBytes(p: Pins, s: Slave, len: nat, c: Cursor): (r: seq<bv8>)
    ensures |r| == len
  {
    if UsesHardwareSpi(p) then HwReadBytes(s, len, c) else SwReadBytes(s, len, c)
  }

  /** Where the slave streams stand after a read of len bytes. */
  function AfterRead(p: Pins, len: nat, c: Cursor): Cursor {
    if UsesHardwareSpi(p) then c.(hw := c.hw + 1 + len) else Cursor(c.hw + 1, c.miso + 8 * len)
  }

  /** The buffer `a` after a read has stored `b` from index `o` on: no other cell changes. */
  function Splice<T>(a: seq<T>, o: nat, b: seq<T>): (r: seq<T>)
    requires o + |b| <= |a|
    ensures |r| == |a|
  {
    a[..o] + b + a[o + |b|..]
  }

  /** Storing right after a prefix replaces the front of what follows it. */
  lemma SpliceAfter<T>(x: seq<T>, y: seq<T>, b: seq<T>)
    requires |b| <= |y|
    ensures Splice(x + y, |x|, b) == x + b + y[|b|..]
  {
    assert (x + y)[..|x|] == x;
    assert (x + y)[|x| + |b|..] == y[|b|..];
  }

  // ---------------------------------------------------------------------------------------------
  // Register writes

  function HwWriteEvents(p: Pins, s: Slave, addr: bv8, data: bv8, c: Cursor): seq<Event> {
    [BeginTransaction, DigitalWrite(p.cs, false),
     Transfer(WriteAddress(addr), Response(s, c.hw)), Transfer(data, Response(s, c.hw + 1)),
     DigitalWrite(p.cs, true), EndTransaction]
  }

  /** A software write as the code has it: both bytes through the hardware peripheral, and an
      `endTransaction` with no `beginTransaction` before it. */
  function SwWriteEvents(p: Pins, s: Slave, addr: bv8, data: bv8, c: Cursor): seq<Event> {
    [DigitalWrite(p.cs, false),
     Transfer(WriteAddress(addr), Response(s, c.hw)), Transfer(data, Response(s, c.hw + 1)),
     DigitalWrite(p.cs, true), EndTransaction]
  }

  function WriteEvents(p: Pins, s: Slave, addr: bv8, data: bv8, c: Cursor): seq<Event> {
    if UsesHardwareSpi(p) then HwWriteEvents(p, s, addr, data, c) else SwWriteEvents(p, s, addr, data, c)
  }

  /** Both write paths consume two hardware answers and no MISO sample. */
  function AfterWrite(c: Cursor): Cursor {
    c.(hw := c.hw + 2)
  }

  // ---------------------------------------------------------------------------------------------
  // Multi-region reads: the calibration block and the raw sample

  /** A block of `len` consecutive registers starting at `addr`. */
  datatype Region = Region(addr: bv8, len: nat)

  /** The four calibration regions, in the order they are packed into the 32-byte buffer. */
  const TrimRegions: seq<Region> :=
    [Region(TEMP_DIG_ADDR, 6), Region(PRESS_DIG_ADDR, 18), Region(HUM_DIG_ADDR1, 1), Region(HUM_DIG_ADDR2, 7)]

  /** The three measurement regions, in the order they are packed into the 8-byte staging buffer. */
  const DataRegions: seq<Region> :=
    [Region(PRESS_ADDR, 3), Region(TEMP_ADDR, 3), Region(HUM_ADDR, 2)]

  function TotalLength(rs: seq<Region>): nat {
    if rs == [] then 0 else rs[0].len + TotalLength(rs[1..])
  }

  /** Reading the regions one after another, each starting where the previous one left the slave. */
  function RegionsEvents(p: Pins, s: Slave, rs: seq<Region>, c: Cursor): seq<Event> {
    if rs == [] then []
    else ReadEvents(p, s, rs[0].addr, rs[0].len, c) + RegionsEvents(p, s, rs[1..], AfterRead(p, rs[0].len, c))
  }

  /** The bytes of those reads, packed with no gap. */
  function RegionsBytes(p: Pins, s: Slave, rs: seq<Region>, c: Cursor): (r: seq<bv8>)
    ensures |r| == TotalLength(rs)
  {
    if rs == [] then []
    else ReadBytes(p, s, rs[0].len, c) + RegionsBytes(p, s, rs[1..], AfterRead(p, rs[0].len, c))
  }

  function AfterRegions(p: Pins, rs: seq<Region>, c: Cursor): Cursor {
    if rs == [] then c else AfterRegions(p, rs[1..], AfterRead(p, rs[0].len, c))
  }

  /** The reads ReadTrim makes, one after the other, are the calibration regions in order. */
  lemma TrimSteps(p: Pins, s: Slave, c0: Cursor)
    ensures var c1 := AfterRead(p, 6, c0); var c2 := AfterRead(p, 18, c1); var c3 := AfterRead(p, 1, c2);
      && RegionsEvents(p, s, TrimRegions, c0)
         == ReadEvents(p, s, TEMP_DIG_ADDR, 6, c0) + ReadEvents(p, s, PRESS_DIG_ADDR, 18, c1)
            + ReadEvents(p, s, HUM_DIG_ADDR1, 1, c2) + ReadEvents(p, s, HUM_DIG_ADDR2, 7, c3)
      && RegionsBytes(p, s, TrimRegions, c0)
         == ReadBytes(p, s, 6, c0) + ReadBytes(p, s, 18, c1) + ReadBytes(p, s, 1, c2) + ReadBytes(p, s, 7, c3)
      && AfterRegions(p, TrimRegions, c0) == AfterRead(p, 7, c3)
  {
    var c1 := AfterRead(p, 6, c0); var c2 := AfterRead(p, 18, c1); var c3 := AfterRead(p, 1, c2);
    var r1 := TrimRegions[1..];
    var r2 := r1[1..];
    var r3 := r2[1..];
    assert TrimRegions[0] == Region(TEMP_DIG_ADDR, 6) && r1[0] == Region(PRESS_DIG_ADDR, 18);
    assert r2[0] == Region(HUM_DIG_ADDR1, 1) && r3 == [Region(HUM_DIG_ADDR2, 7)] && r3[1..] == [];
    assert RegionsEvents(p, s, r3, c3) == ReadEvents(p, s, HUM_DIG_ADDR2, 7, c3) + [];
    assert RegionsBytes(p, s, r3, c3) == ReadBytes(p, s, 7, c3) + [];
    assert AfterRegions(p, r3, c3) == AfterRead(p, 7, c3);
    assert RegionsEvents(p, s, r2, c2) == ReadEvents(p, s, HUM_DIG_ADDR1, 1, c2) + RegionsEvents(p, s, r3, c3);
    assert RegionsBytes(p, s, r2, c2) == ReadBytes(p, s, 1, c2) + RegionsBytes(p, s, r3, c3);
    assert AfterRegions(p, r2, c2) == AfterRegions(p, r3, c3);
    assert RegionsEvents(p, s, r1, c1) == ReadEvents(p, s, PRESS_DIG_ADDR, 18, c1) + RegionsEvents(p, s, r2, c2);
    assert RegionsBytes(p, s, r1, c1) == ReadBytes(p, s, 18, c1) + RegionsBytes(p, s, r2, c2);
    assert AfterRegions(p, r1, c1) == AfterRegions(p, r2, c2);
  }

  /** The reads ReadData makes, one after the other, are the measurement regions in order. */
  lemma DataSteps(p: Pins, s: Slave, c0: Cursor)
    ensures var c1 := AfterRead(p, 3, c0); var c2 := AfterRead(p, 3, c1);
      && RegionsEvents(p, s, DataRegions, c0)
         == ReadEvents(p, s, PRESS_ADDR, 3, c0) + ReadEvents(p, s, TEMP_ADDR, 3, c1) + ReadEvents(p, s, HUM_ADDR, 2, c2)
      && RegionsBytes(p, s, DataRegions, c0)
         == ReadBytes(p, s, 3, c0) + ReadBytes(p, s, 3, c1) + ReadBytes(p, s, 2, c2)
      && AfterRegions(p, DataRegions, c0) == AfterRead(p, 2, c2)
  {
    var c1 := AfterRead(p, 3, c0); var c2 := AfterRead(p, 3, c1);
    var r1 := DataRegions[1..];
    var r2 := r1[1..];
    assert DataRegions[0] == Region(PRESS_ADDR, 3) && r1[0] == Region(TEMP_ADDR, 3);
    assert r2 == [Region(HUM_ADDR, 2)] && r2[1..] == [];
    assert RegionsEvents(p, s, r2, c2) == ReadEvents(p, s, HUM_ADDR, 2, c2) + [];
    assert RegionsBytes(p, s, r2, c2) == ReadBytes(p, s, 2, c2) + [];
    assert AfterRegions(p, r2, c2) == AfterRead(p, 2, c2);
    assert AfterRegions(p, r1, c1) == AfterRegions(p, r2, c2);
  }
  /** Every staged byte zero-extended into a wider integer, as the `int32_t` copy loop does. */
  function Widen(bs: seq<bv8>): (r: seq<int>)
    ensures |r| == |bs|
    ensures forall i :: 0 <= i < |bs| ==> 0 <= r[i] <= 255 && r[i] as bv8 == bs[i]
  {
    seq(|bs|, i requires 0 <= i < |bs| => bs[i] as int)
  }

  // ---------------------------------------------------------------------------------------------
  // Start-up

  /** Chip-select idles high and becomes an output; then either the hardware peripheral is
      started or the three bit-bang pins are configured. */
  function SetupEvents(p: Pins): seq<Event> {
    [DigitalWrite(p.cs, true), PinMode(p.cs, Output)]
    + if UsesHardwareSpi(p) then [SpiBegin] else [PinMode(p.sck, Output), PinMode(p.mosi, Output), PinMode(p.miso, Input)]
  }

  predicate KnownChipId(id: bv8) {
    id == BME_ID || id == BMP_ID
  }

  /** The chip-ID byte a one-byte read starting at c returns. */
  function ChipId(p: Pins, s: Slave, c: Cursor): bv8 {
    ReadBytes(p, s, 1, c)[0]
  }

  /** The three control-register writes followed by the calibration reads. */
  function InitializeEvents(p: Pins, regs: ControlRegs, s: Slave, c: Cursor): seq<Event> {
    WriteEvents(p, s, CTRL_HUM_ADDR, regs.humidity, c)
    + WriteEvents(p, s, CTRL_MEAS_ADDR, regs.measure, AfterWrite(c))
    + WriteEvents(p, s, CONFIG_ADDR, regs.config, AfterWrite(AfterWrite(c)))
    + RegionsEvents(p, s, TrimRegions, AfterWrite(AfterWrite(AfterWrite(c))))
  }

  function BeginEvents(p: Pins, regs: ControlRegs, s: Slave, c: Cursor): seq<Event> {
    SetupEvents(p) + ReadEvents(p, s, ID_ADDR, 1, c)
    + if KnownChipId(ChipId(p, s, c)) then InitializeEvents(p, regs, s, AfterRead(p, 1, c)) else []
  }
}
