/** The BME280 SPI driver object: two constructors, the bit-banged byte transfer, the register
    read and write helpers with their transport dispatch, the calibration and raw-sample readers
    and the start-up sequence. Every method is proved equal to its reference in Protocol. */
module Driver {
  import opened Bits
  import opened Arduino
  import opened Protocol

  /** An argument the source declares `uint8_t`. */
  type U8 = x: int | 0 <= x < 256

  class BME280Spi {
    const csPin: int
    const mosiPin: int
    const misoPin: int
    const sckPin: int
    /** The control-register values the base class derived from the constructor's settings. */
    const regs: ControlRegs
    /** The calibration block, consumed by the compensation code. */
    const dig: array<bv8>
    /** The platform the driver talks to. */
    const board: Board

    function Pins(): Pins {
      Protocol.Pins(csPin, mosiPin, misoPin, sckPin)
    }

    predicate Valid() {
      dig.Length == 32
    }

    /** Hardware SPI: only chip-select is given; the bit-bang pins hold the sentinel. */
    constructor Hw(spiCsPin: U8, regs: ControlRegs, board: Board)
      ensures Valid() && fresh(dig)
      ensures Pins() == Protocol.Pins(spiCsPin, UNSET_PIN, UNSET_PIN, UNSET_PIN)
      ensures UsesHardwareSpi(Pins())
      ensures this.regs == regs && this.board == board
    {
      csPin, mosiPin, misoPin, sckPin := spiCsPin, UNSET_PIN, UNSET_PIN, UNSET_PIN;
      this.regs := regs;
      this.board := board;
      dig := new bv8[32];
    }

    /** Software SPI on the given pins. A `uint8_t` pin number is never the sentinel. */
    constructor Sw(spiCsPin: U8, spiMosiPin: U8, spiMisoPin: U8, spiSckPin: U8, regs: ControlRegs, board: Board)
      ensures Valid() && fresh(dig)
      ensures Pins() == Protocol.Pins(spiCsPin, spiMosiPin, spiMisoPin, spiSckPin)
      ensures !UsesHardwareSpi(Pins())
      ensures this.regs == regs && this.board == board
    {
      csPin, mosiPin, misoPin, sckPin := spiCsPin, spiMosiPin, spiMisoPin, spiSckPin;
      this.regs := regs;
      this.board := board;
      dig := new bv8[32];
    }

    /** Bit-banged transfer of one byte, most significant bit first. */
    method SpiTransferSw(data: bv8) returns (resp: bv8)
      modifies board
      ensures resp == Acc(Window(board.slave, old(board.cursor).miso))
      ensures board.trace == old(board.trace) + SwBitsEvents(Pins(), data, Window(board.slave, old(board.cursor).miso))
      ensures board.cursor == old(board.cursor).(miso := old(board.cursor).miso + 8)
    {
      ghost var s, m0 := board.slave, board.cursor.miso;
      ghost var got: seq<bool> := [];
      resp := 0;
      var bit: int := 7;
      while bit >= 0
        invariant -1 <= bit <= 7 && |got| == 7 - bit
        invariant forall j :: 0 <= j < |got| ==> got[j] == Sample(s, m0 + j)
        invariant resp == Acc(got)
        invariant board.trace == old(board.trace) + SwBitsEvents(Pins(), data, got)
        invariant board.cursor == old(board.cursor).(miso := m0 + |got|)
      {
        ghost var before := board.trace;
        resp := resp << 1;
        var level := ClockBit(Bit(data, bit));
        resp := resp | Level(level);
        BitStep(old(board.trace), before, board.trace, Pins(), data, got, level);
        AccPush(got, level);
        got := got + [level];
        bit := bit - 1;
      }
      WindowOf(s, m0, got);
    }

    /** One pass of the bit loop of SpiTransferSw: clock low, drive MOSI, clock high, sample MISO. */
    method ClockBit(out: bool) returns (level: bool)
      modifies board
      ensures level == Sample(board.slave, old(board.cursor).miso)
      ensures board.trace == old(board.trace) + BitEvents(Pins(), out, level)
      ensures board.cursor == old(board.cursor).(miso := old(board.cursor).miso + 1)
    {
      ghost var t0 := board.trace;
      board.DigitalWrite(sckPin, false);
      board.DigitalWrite(mosiPin, out);
      board.DigitalWrite(sckPin, true);
      level := board.DigitalRead(misoPin);
      Append4(t0, Event.DigitalWrite(sckPin, false), Event.DigitalWrite(mosiPin, out),
              Event.DigitalWrite(sckPin, true), Event.DigitalRead(misoPin, level));
    }

    /** Hardware read: `len` bytes of the register block at `addr` into `buffer[offset..]`. */
    method ReadAddrHwSpi(addr: bv8, buffer: array<bv8>, offset: nat, len: U8) returns (ok: bool)
      requires offset + len <= buffer.Length
      modifies board, buffer
      ensures ok
      ensures board.trace == old(board.trace) + HwReadEvents(Pins(), board.slave, addr, len, old(board.cursor))
      ensures board.cursor == old(board.cursor).(hw := old(board.cursor).hw + 1 + len)
      ensures buffer[..] == Splice(old(buffer[..]), offset, HwReadBytes(board.slave, len, old(board.cursor)))
    {
      ghost var p, s, c := Pins(), board.slave, board.cursor;
      ghost var bytes := HwReadBytes(s, len, c);
      board.BeginTransaction();
      var readAddr := addr | BME280_SPI_READ;
      board.DigitalWrite(csPin, false);
      var _ := board.Transfer(readAddr);
      ghost var head := board.trace;
      var i := 0;
      while i < len
        invariant 0 <= i <= len
        invariant board.trace == head + HwDummyEvents(s, c.hw + 1, i)
        invariant board.cursor == c.(hw := c.hw + 1 + i)
        invariant forall k :: offset <= k < offset + i ==> buffer[k] == bytes[k - offset]
        invariant forall k :: 0 <= k < buffer.Length && !(offset <= k < offset + i) ==> buffer[k] == old(buffer[k])
      {
        ghost var before := board.trace;
        var b := board.Transfer(0);
        HwDummyStep(head, before, board.trace, s, c.hw + 1, i);
        HwReadByteAt(s, len, c, i);
        buffer[offset + i] := b;
        i := i + 1;
      }
      StoredBlock(buffer, old(buffer[..]), offset, bytes);
      ghost var tail := board.trace;
      board.DigitalWrite(csPin, true);
      board.EndTransaction();
      HwReadClose(old(board.trace), head, tail, board.trace, p, s, addr, len, c);
      ok := true;
    }

    /** Software read: as the hardware read, but the dummy bytes are bit-banged. */
    method ReadAddrSwSpi(addr: bv8, buffer: array<bv8>, offset: nat, len: U8) returns (ok: bool)
      requires offset + len <= buffer.Length
      modifies board, buffer
      ensures ok
      ensures board.trace == old(board.trace) + SwReadEvents(Pins(), board.slave, addr, len, old(board.cursor))
      ensures board.cursor == Cursor(old(board.cursor).hw + 1, old(board.cursor).miso + 8 * len)
      ensures buffer[..] == Splice(old(buffer[..]), offset, SwReadBytes(board.slave, len, old(board.cursor)))
    {
      ghost var p, s, c := Pins(), board.slave, board.cursor;
      var readAddr := addr | BME280_SPI_READ;
      board.DigitalWrite(csPin, false);
      var _ := board.Transfer(readAddr);
      ghost var head := board.trace;
      SwDummyBytes(buffer, offset, len);
      ghost var tail := board.trace;
      board.DigitalWrite(csPin, true);
      SwReadClose(old(board.trace), head, tail, board.trace, p, s, addr, len, c);
      ok := true;
    }

    /** The read loop of ReadAddrSwSpi: `len` bit-banged dummy bytes, each answer stored in turn. */
    method SwDummyBytes(buffer: array<bv8>, offset: nat, len: U8)
      requires offset + len <= buffer.Length
      modifies board, buffer
      ensures board.trace == old(board.trace) + SwDummyEvents(Pins(), board.slave, old(board.cursor).miso, len)
      ensures board.cursor == old(board.cursor).(miso := old(board.cursor).miso + 8 * len)
      ensures buffer[..] == Splice(old(buffer[..]), offset, SwReadBytes(board.slave, len, old(board.cursor)))
    {
      ghost var p, s, c := Pins(), board.slave, board.cursor;
      ghost var bytes := SwReadBytes(s, len, c);
      var i := 0;
      while i < len
        invariant 0 <= i <= len
        invariant board.trace == old(board.trace) + SwDummyEvents(p, s, c.miso, i)
        invariant board.cursor == c.(miso := c.miso + 8 * i)
        invariant forall k :: offset <= k < offset + i ==> buffer[k] == bytes[k - offset]
        invariant forall k :: 0 <= k < buffer.Length && !(offset <= k < offset + i) ==> buffer[k] == old(buffer[k])
      {
        ghost var before := board.trace;
        var b := SpiTransferSw(0);
        SwDummyStep(old(board.trace), before, board.trace, p, s, c.miso, i);
        SwReadByteAt(s, len, c, i);
        buffer[offset + i] := b;
        i := i + 1;
      }
      StoredBlock(buffer, old(buffer[..]), offset, bytes);
    }

    /** Reads through the transport the pins select. Declared `bool` in the source but it returns
        no value; every caller ignores the result, so the model returns none. */
    method ReadAddr(addr: bv8, buffer: array<bv8>, offset: nat, len: U8)
      requires offset + len <= buffer.Length
      modifies board, buffer
      ensures board.trace == old(board.trace) + ReadEvents(Pins(), board.slave, addr, len, old(board.cursor))
      ensures board.cursor == AfterRead(Pins(), len, old(board.cursor))
      ensures buffer[..] == Splice(old(buffer[..]), offset, ReadBytes(Pins(), board.slave, len, old(board.cursor)))
    {
      if mosiPin == UNSET_PIN {
        var _ := ReadAddrHwSpi(addr, buffer, offset, len);
      } else {
        var _ := ReadAddrSwSpi(addr, buffer, offset, len);
      }
    }

    method WriteRegisterSwSpi(addr: bv8, data: bv8)
      modifies board
      ensures board.trace == old(board.trace) + SwWriteEvents(Pins(), board.slave, addr, data, old(board.cursor))
      ensures board.cursor == AfterWrite(old(board.cursor))
    {
      var writeAddr := addr & !0x80;
      board.DigitalWrite(csPin, false);
      var _ := board.Transfer(writeAddr);
      var _ := board.Transfer(data);
      board.DigitalWrite(csPin, true);
      board.EndTransaction();
    }

    method WriteRegisterHwSpi(addr: bv8, data: bv8)
      modifies board
      ensures board.trace == old(board.trace) + HwWriteEvents(Pins(), board.slave, addr, data, old(board.cursor))
      ensures board.cursor == AfterWrite(old(board.cursor))
    {
      board.BeginTransaction();
      var writeAddr := addr & !0x80;
      board.DigitalWrite(csPin, false);
      var _ := board.Transfer(writeAddr);
      var _ := board.Transfer(data);
      board.DigitalWrite(csPin, true);
      board.EndTransaction();
    }

    method WriteRegister(addr: bv8, data: bv8)
      modifies board
      ensures board.trace == old(board.trace) + WriteEvents(Pins(), board.slave, addr, data, old(board.cursor))
      ensures board.cursor == AfterWrite(old(board.cursor))
    {
      if mosiPin == UNSET_PIN {
        WriteRegisterHwSpi(addr, data);
      } else {
        WriteRegisterSwSpi(addr, data);
      }
    }

    /** Packs the four calibration regions into `dig` at a running offset. */
    method ReadTrim() returns (ok: bool)
      requires Valid()
      modifies board, dig
      ensures ok
      ensures board.trace == old(board.trace) + RegionsEvents(Pins(), board.slave, TrimRegions, old(board.cursor))
      ensures board.cursor == AfterRegions(Pins(), TrimRegions, old(board.cursor))
      ensures dig[..] == RegionsBytes(Pins(), board.slave, TrimRegions, old(board.cursor))
    {
      ghost var p, s, c0 := Pins(), board.slave, board.cursor;
      ghost var t0, d0 := board.trace, dig[..];
      var ord: nat := 0;
      ReadAddr(TEMP_DIG_ADDR, dig, ord, 6);
      ord := ord + 6;
      ghost var t1, c1, d1 := board.trace, board.cursor, dig[..];
      ReadAddr(PRESS_DIG_ADDR, dig, ord, 18);
      ord := ord + 18;
      ghost var t2, c2, d2 := board.trace, board.cursor, dig[..];
      ReadAddr(HUM_DIG_ADDR1, dig, ord, 1);
      ord := ord + 1;
      ghost var t3, c3, d3 := board.trace, board.cursor, dig[..];
      ReadAddr(HUM_DIG_ADDR2, dig, ord, 7);
      ord := ord + 7;
      ok := ord == 32;
      ghost var e1, e2, e3, e4 := ReadEvents(p, s, TEMP_DIG_ADDR, 6, c0), ReadEvents(p, s, PRESS_DIG_ADDR, 18, c1),
                                   ReadEvents(p, s, HUM_DIG_ADDR1, 1, c2), ReadEvents(p, s, HUM_DIG_ADDR2, 7, c3);
      ghost var b1, b2, b3, b4 := ReadBytes(p, s, 6, c0), ReadBytes(p, s, 18, c1), ReadBytes(p, s, 1, c2), ReadBytes(p, s, 7, c3);
      Chain4(t0, t1, t2, t3, board.trace, e1, e2, e3, e4);
      assert d1 == Splice(d0, 0, b1) && d2 == Splice(d1, 6, b2) && d3 == Splice(d2, 24, b3) && dig[..] == Splice(d3, 25, b4);
      TrimSteps(p, s, c0);
      PackTrim(d0, b1, b2, b3, b4);
    }

    /** Reads pressure, temperature and humidity into an 8-byte staging buffer, then widens
        each byte into `data`. */
    method ReadData(data: array<int>) returns (ok: bool)
      requires data.Length >= 8
      modifies board, data
      ensures ok
      ensures board.trace == old(board.trace) + RegionsEvents(Pins(), board.slave, DataRegions, old(board.cursor))
      ensures board.cursor == AfterRegions(Pins(), DataRegions, old(board.cursor))
      ensures data[..8] == Widen(RegionsBytes(Pins(), board.slave, DataRegions, old(board.cursor)))
      ensures forall k :: 8 <= k < data.Length ==> data[k] == old(data[k])
    {
      ghost var p, s, c0, t0 := Pins(), board.slave, board.cursor, board.trace;
      var temp := new bv8[8];
      ghost var d0 := temp[..];
      var ord: nat := 0;
      ReadAddr(PRESS_ADDR, temp, ord, 3);
      ord := ord + 3;
      ghost var c1, t1 := board.cursor, board.trace;
      ReadAddr(TEMP_ADDR, temp, ord, 3);
      ord := ord + 3;
      ghost var c2, t2 := board.cursor, board.trace;
      ReadAddr(HUM_ADDR, temp, ord, 2);
      ord := ord + 2;
      CopyWidened(temp[..], data);
      Chain3(t0, t1, t2, board.trace, ReadEvents(p, s, PRESS_ADDR, 3, c0), ReadEvents(p, s, TEMP_ADDR, 3, c1),
             ReadEvents(p, s, HUM_ADDR, 2, c2));
      DataSteps(p, s, c0);
      PackData(d0, ReadBytes(p, s, 3, c0), ReadBytes(p, s, 3, c1), ReadBytes(p, s, 2, c2));
      ok := true;
    }

    /** Writes the three control registers, then loads the calibration block. */
    method Initialize() returns (ok: bool)
      requires Valid()
      modifies board, dig
      ensures ok
      ensures board.trace == old(board.trace) + InitializeEvents(Pins(), regs, board.slave, old(board.cursor))
      ensures board.cursor == AfterRegions(Pins(), TrimRegions, AfterWrite(AfterWrite(AfterWrite(old(board.cursor)))))
      ensures dig[..] == RegionsBytes(Pins(), board.slave, TrimRegions, AfterWrite(AfterWrite(AfterWrite(old(board.cursor)))))
    {
      ghost var p, s, c0, t0 := Pins(), board.slave, board.cursor, board.trace;
      WriteRegister(CTRL_HUM_ADDR, regs.humidity);
      ghost var t1 := board.trace;
      WriteRegister(CTRL_MEAS_ADDR, regs.measure);
      ghost var t2 := board.trace;
      WriteRegister(CONFIG_ADDR, regs.config);
      ghost var t3 := board.trace;
      ok := ReadTrim();
      Chain4(t0, t1, t2, t3, board.trace,
             WriteEvents(p, s, CTRL_HUM_ADDR, regs.humidity, c0),
             WriteEvents(p, s, CTRL_MEAS_ADDR, regs.measure, AfterWrite(c0)),
             WriteEvents(p, s, CONFIG_ADDR, regs.config, AfterWrite(AfterWrite(c0))),
             RegionsEvents(p, s, TrimRegions, AfterWrite(AfterWrite(AfterWrite(c0)))));
    }

    /** Prepares the pins, checks the chip ID and, for a known chip, initialises it. */
    method Begin() returns (ok: bool)
      requires Valid()
      modifies board, dig
      ensures ok == KnownChipId(ChipId(Pins(), board.slave, old(board.cursor)))
      ensures board.trace == old(board.trace) + BeginEvents(Pins(), regs, board.slave, old(board.cursor))
      ensures ok ==> dig[..] == RegionsBytes(Pins(), board.slave, TrimRegions,
                                               AfterWrite(AfterWrite(AfterWrite(AfterRead(Pins(), 1, old(board.cursor))))))
      ensures !ok ==> dig[..] == old(dig[..])
      ensures board.cursor == if ok then AfterRegions(Pins(), TrimRegions, AfterWrite(AfterWrite(AfterWrite(AfterRead(Pins(), 1, old(board.cursor))))))
                              else AfterRead(Pins(), 1, old(board.cursor))
    {
      ghost var p, s, c0, t0 := Pins(), board.slave, board.cursor, board.trace;
      board.DigitalWrite(csPin, true);
      board.PinMode(csPin, Output);
      if mosiPin == UNSET_PIN {
        board.SpiBegin();
      } else {
        board.PinMode(sckPin, Output);
        board.PinMode(mosiPin, Output);
        board.PinMode(misoPin, Input);
      }
      ghost var t1 := board.trace;
      assert t1 == t0 + SetupEvents(p);
      var id := new bv8[1];
      ReadAddr(ID_ADDR, id, 0, 1);
      ghost var t2 := board.trace;
      assert id[..] == ReadBytes(p, s, 1, c0);
      assert id[0] == ChipId(p, s, c0);
      if id[0] != BME_ID && id[0] != BMP_ID {
        Chain3(t0, t1, t2, t2, SetupEvents(p), ReadEvents(p, s, ID_ADDR, 1, c0), []);
        return false;
      }
      ok := Initialize();
      Chain3(t0, t1, t2, board.trace, SetupEvents(p), ReadEvents(p, s, ID_ADDR, 1, c0),
             InitializeEvents(p, regs, s, AfterRead(p, 1, c0)));
    }
  }

  lemma Chain4<T>(t0: seq<T>, t1: seq<T>, t2: seq<T>, t3: seq<T>, t4: seq<T>, e1: seq<T>, e2: seq<T>, e3: seq<T>, e4: seq<T>)
    requires t1 == t0 + e1 && t2 == t1 + e2 && t3 == t2 + e3 && t4 == t3 + e4
    ensures t4 == t0 + (e1 + e2 + e3 + e4)
  {
  }

  lemma Chain3<T>(t0: seq<T>, t1: seq<T>, t2: seq<T>, t3: seq<T>, e1: seq<T>, e2: seq<T>, e3: seq<T>)
    requires t1 == t0 + e1 && t2 == t1 + e2 && t3 == t2 + e3
    ensures t3 == t0 + (e1 + e2 + e3)
  {
  }

  /** The four stores of ReadTrim cover the 32-byte block with no gap. */
  lemma PackTrim(d0: seq<bv8>, b1: seq<bv8>, b2: seq<bv8>, b3: seq<bv8>, b4: seq<bv8>)
    requires |d0| == 32 && |b1| == 6 && |b2| == 18 && |b3| == 1 && |b4| == 7
    ensures Splice(Splice(Splice(Splice(d0, 0, b1), 6, b2), 24, b3), 25, b4) == b1 + b2 + b3 + b4
  {
    SpliceAfter([], d0, b1);
    assert [] + d0 == d0;
    var y1 := d0[6..];
    SpliceAfter(b1, y1, b2);
    var y2 := y1[18..];
    SpliceAfter(b1 + b2, y2, b3);
    var y3 := y2[1..];
    SpliceAfter(b1 + b2 + b3, y3, b4);
    assert y3[7..] == [];
  }

  /** The three stores of ReadData cover the 8-byte staging buffer with no gap. */
  lemma PackData(d0: seq<bv8>, b1: seq<bv8>, b2: seq<bv8>, b3: seq<bv8>)
    requires |d0| == 8 && |b1| == 3 && |b2| == 3 && |b3| == 2
    ensures Splice(Splice(Splice(d0, 0, b1), 3, b2), 6, b3) == b1 + b2 + b3
  {
    SpliceAfter([], d0, b1);
    assert [] + d0 == d0;
    var y1 := d0[3..];
    SpliceAfter(b1, y1, b2);
    var y2 := y1[3..];
    SpliceAfter(b1 + b2, y2, b3);
    assert y2[2..] == [];
  }

  /** One pass of the bit loop extends the trace by that pass's four events. */
  lemma BitStep(head: seq<Event>, before: seq<Event>, after: seq<Event>,
                p: Pins, data: bv8, got: seq<bool>, sample: bool)
    requires |got| < 8
    requires before == head + SwBitsEvents(p, data, got)
    requires after == before + BitEvents(p, Bit(data, 7 - |got|), sample)
    ensures after == head + SwBitsEvents(p, data, got + [sample])
  {
    var g := got + [sample];
    assert g[..|g| - 1] == got && g[|g| - 1] == sample;
    assert SwBitsEvents(p, data, g) == SwBitsEvents(p, data, got) + BitEvents(p, Bit(data, 7 - |got|), sample);
    Chain2(head, before, after, SwBitsEvents(p, data, got), BitEvents(p, Bit(data, 7 - |got|), sample));
  }

  /** Eight consecutive samples from m on are the window at m. */
  lemma WindowOf(s: Slave, m: nat, got: seq<bool>)
    requires |got| == 8 && forall j :: 0 <= j < 8 ==> got[j] == Sample(s, m + j)
    ensures got == Window(s, m)
  {
  }

  /** The copy loop at the end of ReadData: every staged byte, zero-extended, into the front of
      `dst`; the rest of `dst` is left alone. */
  method CopyWidened(src: seq<bv8>, dst: array<int>)
    requires |src| <= dst.Length
    modifies dst
    ensures dst[..|src|] == Widen(src)
    ensures forall k :: |src| <= k < dst.Length ==> dst[k] == old(dst[k])
  {
    var i := 0;
    while i < |src|
      invariant 0 <= i <= |src|
      invariant forall k :: 0 <= k < i ==> dst[k] == src[k] as int
      invariant forall k :: |src| <= k < dst.Length ==> dst[k] == old(dst[k])
    {
      dst[i] := src[i] as int;
      i := i + 1;
    }
    WidenOf(dst[..|src|], src);
  }

  /** A copy loop that zero-extends every byte produces the widened block. */
  lemma WidenOf(d: seq<int>, bs: seq<bv8>)
    requires |d| == |bs| && forall k :: 0 <= k < |bs| ==> d[k] == bs[k] as int
    ensures d == Widen(bs)
  {
  }

  lemma Append4<T>(t: seq<T>, a: T, b: T, c: T, d: T)
    ensures t + [a] + [b] + [c] + [d] == t + [a, b, c, d]
  {
  }

  lemma Chain2<T>(t0: seq<T>, t1: seq<T>, t2: seq<T>, e1: seq<T>, e2: seq<T>)
    requires t1 == t0 + e1 && t2 == t1 + e2
    ensures t2 == t0 + (e1 + e2)
  {
  }

  /** One more bit-banged dummy byte on top of `i` of them gives `i + 1` of them. */
  lemma SwDummyStep(head: seq<Event>, before: seq<Event>, after: seq<Event>, p: Pins, s: Slave, m: nat, i: nat)
    requires before == head + SwDummyEvents(p, s, m, i)
    requires after == before + SwBitsEvents(p, 0, Window(s, m + 8 * i))
    ensures after == head + SwDummyEvents(p, s, m, i + 1)
  {
  }

  /** A buffer whose cells in [o, o + |b|) hold b and whose other cells hold a is a splice. */
  lemma StoredBlock(buffer: array<bv8>, a: seq<bv8>, o: nat, b: seq<bv8>)
    requires buffer.Length == |a| && o + |b| <= |a|
    requires forall k :: o <= k < o + |b| ==> buffer[k] == b[k - o]
    requires forall k :: 0 <= k < buffer.Length && !(o <= k < o + |b|) ==> buffer[k] == a[k]
    ensures buffer[..] == Splice(a, o, b)
  {
  }

  lemma HwDummyStep(head: seq<Event>, before: seq<Event>, after: seq<Event>, s: Slave, k: nat, i: nat)
    requires before == head + HwDummyEvents(s, k, i)
    requires after == before + [Transfer(0, Response(s, k + i))]
    ensures after == head + HwDummyEvents(s, k, i + 1)
  {
    assert HwDummyEvents(s, k, i + 1) == HwDummyEvents(s, k, i) + [Transfer(0, Response(s, k + i))];
  }

  lemma HwReadByteAt(s: Slave, len: nat, c: Cursor, i: nat)
    requires i < len
    ensures HwReadBytes(s, len, c)[i] == Response(s, c.hw + 1 + i)
  {
  }

  /** The pieces of a hardware read put together in order. */
  lemma HwReadClose(t0: seq<Event>, head: seq<Event>, tail: seq<Event>, t1: seq<Event>,
                    p: Pins, s: Slave, addr: bv8, len: nat, c: Cursor)
    requires head == t0 + [BeginTransaction, DigitalWrite(p.cs, false), Transfer(ReadAddress(addr), Response(s, c.hw))]
    requires tail == head + HwDummyEvents(s, c.hw + 1, len)
    requires t1 == tail + [DigitalWrite(p.cs, true), EndTransaction]
    ensures t1 == t0 + HwReadEvents(p, s, addr, len, c)
  {
  }

  lemma SwReadByteAt(s: Slave, len: nat, c: Cursor, i: nat)
    requires i < len
    ensures SwReadBytes(s, len, c)[i] == Acc(Window(s, c.miso + 8 * i))
  {
  }

  /** The pieces of a software read put together in order. */
  lemma SwReadClose(t0: seq<Event>, head: seq<Event>, tail: seq<Event>, t1: seq<Event>,
                    p: Pins, s: Slave, addr: bv8, len: nat, c: Cursor)
    requires head == t0 + [DigitalWrite(p.cs, false), Transfer(ReadAddress(addr), Response(s, c.hw))]
    requires tail == head + SwDummyEvents(p, s, c.miso, len)
    requires t1 == tail + [DigitalWrite(p.cs, true)]
    ensures t1 == t0 + SwReadEvents(p, s, addr, len, c)
  {
  }
}
