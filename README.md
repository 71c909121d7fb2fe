# BME280 / BMP280 SPI register layer

This project models the SPI side of an Arduino driver for the Bosch BME280 and BMP280 sensors
(`src/BME280SpiSw.cpp`). The driver reaches the chip in one of two ways:

- **Hardware SPI.** It uses the SPI peripheral. The constructor sets the bit-bang pins to -1.
- **Bit-banged ("software") SPI.** It drives MOSI and SCK and samples MISO one bit at a time.

On top of that transport it provides:

- register reads (address byte with the read flag set, then dummy bytes) and register writes
  (address byte with the read flag cleared, then the value);
- the calibration-block reader, which packs 6 + 18 + 1 + 7 bytes into a 32-byte buffer;
- the raw-sample reader, which reads 3 + 3 + 2 bytes and zero-extends them into integers;
- the `begin` sequence: pin set-up, chip-ID check, three control-register writes, then the
  calibration read.

The platform is a `Board` object. It records every Arduino call (`digitalWrite`, `digitalRead`,
`pinMode`, `SPI.begin`, `SPI.beginTransaction` / `endTransaction`, `SPI.transfer`) as an event of a
trace. It answers reads from a simulated slave:

- one stream of bytes for `SPI.transfer`;
- one stream of levels for `digitalRead`.

Each driver method is an imperative method of the class `BME280Spi`. The one exception is the
copy loop `CopyWidened`, a module-level method of `Driver`. Each method is proved to produce
three things exactly:

- the trace its reference function in `Protocol` describes;
- the slave cursor that function describes;
- the buffer contents that function describes.

The lemmas in `Properties` then state what the register layer promises, by looking at those traces
through bus monitors:

- the bytes sent and received through the peripheral;
- the levels driven on or sampled from each pin;
- the transaction brackets.

Modules:

- `Bits`: MSB-first bit order of one byte, and the decoder `resp = (resp << 1) | sample`.
- `Arduino`: the event trace, the simulated slave and the `Board` class.
- `Protocol`: register constants and the reference definitions of every transaction.
- `Driver`: the `BME280Spi` class, with both constructors and every method of the file.
- `Properties`: trace monitors and the lemmas about framing, bit order, traffic and buffer layout.

Where the code does not compile, the model follows the evident intent:

- the stray `)` at line 57;
- `WriteRegister` forwarding `(addr, data)` at lines 130 and 134;
- the `;` before the hardware constructor's body at line 228.

Where the code compiles but its behaviour is undefined, the model assumes the evident intent:

- `ReadAddr` (lines 62-72) is declared `bool` but has no `return`. Falling off its end is undefined behaviour in C++.

Where the code compiles but behaves oddly, the model keeps that behaviour:

- A bit-banged read still sends its address byte with `SPI.transfer` (line 110).
- A bit-banged write sends both bytes with `SPI.transfer` (lines 148-149).
- A bit-banged write ends with an `SPI.endTransaction()` that no `beginTransaction` opened (line 154).

The raw-sample reader writes 3 + 3 + 2 = 8 bytes into its 8-byte staging buffer, so no staging
byte is left uninitialised before the copy loop. The model states this.

## Model

| member | source | states |
|---|---|---|
| Arduino.Board.Transfer | src/BME280SpiSw.cpp:85 | `SPI.transfer` returns the slave's next byte, appends one event and consumes one hardware answer |
| Arduino.Board.DigitalRead | src/BME280SpiSw.cpp:57 | `digitalRead` returns the slave's next MISO level and consumes one sample |
| Arduino.Board.DigitalWrite | src/BME280SpiSw.cpp:54-56 | `digitalWrite` appends one event with the pin and level and consumes no slave answer |
| Arduino.Board.PinMode | src/BME280SpiSw.cpp:243-255 | `pinMode` appends one event with the pin and direction and consumes no slave answer |
| Arduino.Board.SpiBegin | src/BME280SpiSw.cpp:248 | `SPI.begin` appends one event and consumes no slave answer |
| Arduino.Board.BeginTransaction | src/BME280SpiSw.cpp:76 | `SPI.beginTransaction` appends one bracket event and consumes no slave answer |
| Arduino.Board.EndTransaction | src/BME280SpiSw.cpp:97 | `SPI.endTransaction` appends one bracket event and consumes no slave answer |
| Bits.MaskIsShift | src/BME280SpiSw.cpp:55 | the bit mask used for MOSI is `1 << bit` |
| Bits.LoopbackRoundTrip | src/BME280SpiSw.cpp:49-60 | if each sample equals the bit just driven, the decoded byte equals the byte sent |
| Bits.AccBit | src/BME280SpiSw.cpp:52-57 | sample k of an 8-sample response lands in bit 7 - k of the result (first sample is the MSB) |
| Bits.SampleOrder | src/BME280SpiSw.cpp:49-60 | decoding loses nothing: the MSB-first bits of the decoded byte are the samples |
| Protocol.ReadAddress | src/BME280SpiSw.cpp:80 | the read address byte has bit 7 set and keeps the low seven address bits |
| Protocol.WriteAddress | src/BME280SpiSw.cpp:142 | the write address byte has bit 7 cleared and keeps the low seven address bits |
| Protocol.RegionsBytes | src/BME280SpiSw.cpp:178-201 | consecutive region reads pack into exactly the sum of their lengths |
| Protocol.TrimSteps | src/BME280SpiSw.cpp:182-196 | the calibration reads are the four regions 6/18/1/7, in order, each starting where the last left the slave |
| Protocol.DataSteps | src/BME280SpiSw.cpp:208-215 | the sample reads are the three regions 3/3/2, in order |
| Protocol.Widen | src/BME280SpiSw.cpp:218-221 | every widened value is in 0..255 and truncates back to its byte (zero-extension) |
| Driver.BME280Spi.Hw | src/BME280SpiSw.cpp:227-230 | the hardware constructor keeps the chip-select pin and sets the bit-bang pins to the -1 sentinel, so the hardware transport is chosen |
| Driver.BME280Spi.Sw | src/BME280SpiSw.cpp:232-237 | the software constructor keeps all four pins; a `uint8_t` pin is never -1, so the bit-banged transport is chosen |
| Driver.BME280Spi.SpiTransferSw | src/BME280SpiSw.cpp:49-60 | the result is the next eight MISO samples decoded MSB first; the trace is eight clock-low / MOSI / clock-high / sample passes driving bit 7 down to bit 0 of `data` |
| Driver.BME280Spi.ClockBit | src/BME280SpiSw.cpp:54-57 | one pass of the bit loop: its four calls, returning the sampled level |
| Driver.BME280Spi.ReadAddr | src/BME280SpiSw.cpp:62-72 | dispatches on `mosiPin == -1`; its trace, the slave position and the buffer are those of the chosen path |
| Driver.BME280Spi.ReadAddrHwSpi | src/BME280SpiSw.cpp:74-100 | returns true; the trace is begin-transaction, CS low, address, `len` dummy transfers, CS high, end-transaction; `buffer[offset + i]` is the slave's answer to dummy byte i; no other cell changes |
| Driver.BME280Spi.ReadAddrSwSpi | src/BME280SpiSw.cpp:101-123 | returns true; the trace is CS low, the address through `SPI.transfer`, `len` bit-banged zero bytes, CS high; `buffer[offset + i]` is MISO samples 8i..8i+7 decoded; no other cell changes |
| Driver.BME280Spi.SwDummyBytes | src/BME280SpiSw.cpp:113-117 | the read loop of the bit-banged path: `len` bit-banged zero bytes stored at the offset, nothing else changed |
| Driver.BME280Spi.WriteRegister | src/BME280SpiSw.cpp:126-136 | dispatches on `mosiPin == -1`; the trace is that of the chosen path; two hardware answers consumed |
| Driver.BME280Spi.WriteRegisterSwSpi | src/BME280SpiSw.cpp:138-155 | the trace is CS low, write address, data, CS high, then the unmatched end-transaction |
| Driver.BME280Spi.WriteRegisterHwSpi | src/BME280SpiSw.cpp:157-176 | the trace is begin-transaction, CS low, write address, data, CS high, end-transaction |
| Driver.BME280Spi.ReadTrim | src/BME280SpiSw.cpp:178-201 | returns true; `dig` is exactly the four calibration reads packed back to back; the trace is those four reads in order |
| Driver.BME280Spi.ReadData | src/BME280SpiSw.cpp:203-224 | returns true; `data[0..8)` is the zero-extended 3/3/2 measurement reads; cells past 8 are unchanged |
| Driver.CopyWidened | src/BME280SpiSw.cpp:218-221 | the copy loop: each staged byte zero-extended into the integer array, the rest untouched |
| Driver.BME280Spi.Initialize | src/BME280SpiSw.cpp:41-46 | returns true after the three control-register writes and the calibration read, in that order; `dig` holds the calibration block; the slave stands just past the writes and the four reads |
| Driver.BME280Spi.Begin | src/BME280SpiSw.cpp:240-268 | returns true exactly when the chip ID is 0x60 or 0x58; the trace is pin set-up for the chosen transport, the ID read, then Initialize only for a known ID; with an unknown ID `dig` is unchanged and the slave stands just past the ID read |
| Properties.SwBitsSamples | src/BME280SpiSw.cpp:52-57 | the bit loop samples MISO once per pass, in order |
| Properties.SwBitsMosi | src/BME280SpiSw.cpp:55 | pass i drives bit 7 - i of the byte on MOSI |
| Properties.SwBitsPass | src/BME280SpiSw.cpp:52-58 | pass i is, in order, SCK LOW, MOSI at bit 7 - i, SCK HIGH, then the MISO sample: one sample per rising edge, after the data bit |
| Properties.SwBitsClock | src/BME280SpiSw.cpp:54-56 | each pass drives SCK LOW and then HIGH (SPI mode 0 edges) |
| Properties.SwBitsKeepsCs | src/BME280SpiSw.cpp:52-58 | the bit loop never drives chip-select |
| Properties.SwBitsSilent | src/BME280SpiSw.cpp:52-58 | the bit loop moves no byte through the peripheral and opens no transaction |
| Properties.TransferLoopback | src/BME280SpiSw.cpp:49-60 | with MISO wired to MOSI, the transfer returns the byte it sent |
| Properties.SwDummySamples | src/BME280SpiSw.cpp:113-117 | the bit-banged dummy bytes sample MISO 8·len times in a row |
| Properties.SwDummyMosi | src/BME280SpiSw.cpp:116 | the bit-banged dummy bytes hold MOSI LOW throughout (they are zero bytes) |
| Properties.SwDummySilent | src/BME280SpiSw.cpp:113-117 | the bit-banged dummy bytes use neither the peripheral nor a transaction |
| Properties.SwDummyKeepsCs | src/BME280SpiSw.cpp:113-117 | the bit-banged dummy bytes never drive chip-select |
| Properties.HwDummySent | src/BME280SpiSw.cpp:88-92 | the hardware dummy bytes are `len` zero bytes |
| Properties.HwDummyReceived | src/BME280SpiSw.cpp:88-92 | the hardware dummy bytes bring in the slave's next `len` answers |
| Properties.HwDummyLevels | src/BME280SpiSw.cpp:88-92 | the hardware dummy bytes drive and sample no pin |
| Properties.ReadSent | src/BME280SpiSw.cpp:80-92 | the first byte of every read has the read flag set |
| Properties.HwReadFraming | src/BME280SpiSw.cpp:74-100 | hardware read: one transaction and one chip-select window; inside it exactly the address with the read flag and `len` zero bytes are sent, the answers are the dropped address answer followed by the stored bytes, and no pin is touched |
| Properties.SwReadFraming | src/BME280SpiSw.cpp:101-123 | bit-banged read: one chip-select window and no transaction; inside it only the address byte goes through the peripheral; holds for every pin assignment |
| Properties.SwReadKeepsCs | src/BME280SpiSw.cpp:107-121 | chip-select is never driven inside a bit-banged read's window, when it is wired apart from SCK and MOSI |
| Properties.SwReadSampling | src/BME280SpiSw.cpp:110-117 | inside the bit-banged read window MISO is sampled 8·len times and MOSI held LOW |
| Properties.SwReadDecodes | src/BME280SpiSw.cpp:113-117 | byte i of a bit-banged read is samples 8i..8i+7 of that read, first sample highest |
| Properties.SpliceCells | src/BME280SpiSw.cpp:88-92 | a read stores answer i at offset + i and leaves all other cells as they were |
| Properties.WriteSent | src/BME280SpiSw.cpp:142-149 | the two bytes of every write: address with the read flag cleared, then the value |
| Properties.HwWriteFraming | src/BME280SpiSw.cpp:157-176 | hardware write: one transaction and one chip-select window around exactly `[addr & ~0x80, data]` |
| Properties.SwWriteFraming | src/BME280SpiSw.cpp:138-155 | bit-banged write: a chip-select window around exactly `[addr & ~0x80, data]`, followed by an end-transaction |
| Properties.ReadTraffic | src/BME280SpiSw.cpp:62-123 | on either path a read sends exactly its read frame; its brackets are begin/end on the hardware path and none on the bit-banged path |
| Properties.WriteTraffic | src/BME280SpiSw.cpp:126-176 | on either path a write sends exactly `[addr & ~0x80, data]`; its brackets are begin/end on the hardware path and a lone end on the bit-banged path |
| Properties.TrimTraffic | src/BME280SpiSw.cpp:178-201 | the calibration reads address 0x88 (6), 0x8E (18), 0xA1 (1) and 0xE1 (7), in that order |
| Properties.SetupSilent | src/BME280SpiSw.cpp:242-256 | pin set-up sends nothing to the chip |
| Properties.InitializeTraffic | src/BME280SpiSw.cpp:41-46 | initialisation sends the humidity, measurement and config writes in order, then the calibration reads |
| Properties.BeginTraffic | src/BME280SpiSw.cpp:240-268 | `begin` sends the chip-ID read; only for ID 0x60 or 0x58 it then sends the three writes and the calibration reads; with any other ID nothing is written |
| Properties.TrimLayout | src/BME280SpiSw.cpp:178-201 | the calibration buffer is 32 bytes: [0,6) temperature, [6,24) pressure, [24,25) humidity 1, [25,32) humidity 2 |
| Properties.DataLayout | src/BME280SpiSw.cpp:203-224 | the sample buffer is [0,3) pressure, [3,6) temperature, [6,8) humidity, each byte zero-extended into 0..255 |

## Left out

- Electrical and timing behaviour of the pins and the SPI clock are not modelled. The `SPISettings(500000, MSBFIRST, SPI_MODE0)` argument is recorded only as the `BeginTransaction` event.
- The compensation base class `BME280` is not part of this model, and neither is its maths. The three control-register bytes it derives from the constructor settings are a constructor input (`ControlRegs`).
- The constructors' default arguments are not modelled, for the same reason: they only feed the base class.
- The header `BME280Spi.h` is not part of this model. The register addresses, chip IDs and the read flag 0x80 are the values from the Bosch BME280 datasheet.
- Concurrency: the driver is single-threaded, and other users of the shared SPI peripheral are not modelled.
- The slave is a fixed pair of answer streams. When a stream runs out, it answers 0 or LOW. A device whose answers depend on what it is sent is not modelled.
- The source never validates pin numbers. Lemmas that need two pins to differ take that as a hypothesis: SCK apart from MOSI (SwBitsMosi, SwBitsClock, TransferLoopback, SwDummyMosi, SwReadSampling's MOSI conjunct), and chip-select apart from SCK and MOSI (SwBitsKeepsCs, SwDummyKeepsCs, SwReadKeepsCs).
- The declared type of the pin fields is not visible (the header is missing). They are modelled as signed integers holding either a `uint8_t` pin or the -1 sentinel. The sentinel test `mosiPin == -1` (lines 64, 128, 245) works only when the fields are signed. If the header declares them `uint8_t`, then `mosiPin(-1)` (line 228) stores 255, the test is always false after integer promotion, and the hardware path is dead code. The `Hw` constructor's choice of the hardware transport rests on this assumption.
- The bit-banged path calls `SPI.transfer` (lines 110, 148-149) and `SPI.endTransaction` (line 154) on a peripheral that `begin` never starts, because `SPI.begin()` sits only on the hardware branch (lines 245-249). The model answers those transfers from the slave's byte stream as if the peripheral were running. What an un-started peripheral does on the real platform is not captured.
- Driver.BME280Spi.ReadAddr: the model assumes the call returns normally and yields no value, which is what the callers (which ignore it) need. The undefined behaviour of the missing `return` at the end of lines 62-72 is not captured; an optimising compiler may drop the function's epilogue there.
- Driver.BME280Spi.ReadAddr, ReadAddrHwSpi, ReadAddrSwSpi and SwDummyBytes require the destination range to fit the buffer. The C code writes through a raw pointer with no check, and writing past the end is undefined behaviour there.
- Driver.BME280Spi.ReadAddr and its two paths take the start offset as a parameter. The source passes `&array[ord]`, a pointer into the buffer.
- The running offset `ord` of ReadTrim and ReadData is an 8-bit counter in the source. It never passes 32, so it is modelled as a natural number.
- Driver.BME280Spi.ClockBit, Driver.BME280Spi.SwDummyBytes and Driver.CopyWidened are pieces of code that sit inline in the source: one bit pass, the read loop and the copy loop. They are split out as methods only to keep each proof small.
