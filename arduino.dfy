/** The platform primitives the driver calls (Arduino pin I/O and the SPI peripheral), each
    recorded as an event of a trace, with the device on the bus replaced by a simulated slave. */
module Arduino {

  datatype PinDirection = Input | Output

  /** One call into the platform, in the order the driver makes them. */
  datatype Event =
    | DigitalWrite(pin: int, high: bool)         // digitalWrite(pin, level)
    | DigitalRead(pin: int, high: bool)          // digitalRead(pin) and the level it returned
    | PinMode(pin: int, direction: PinDirection) // pinMode(pin, INPUT / OUTPUT)
    | SpiBegin                                   // SPI.begin()
    | BeginTransaction                           // SPI.beginTransaction(SPISettings(500000, MSBFIRST, SPI_MODE0))
    | EndTransaction                             // SPI.endTransaction()
    | Transfer(sent: bv8, received: bv8)         // SPI.transfer(sent) and the byte it returned

  /** What the device answers: one byte per hardware `SPI.transfer`, one level per `digitalRead`,
      consumed in order. Past the end of either stream the line reads as 0. */
  datatype Slave = Slave(hw: seq<bv8>, miso: seq<bool>)

  /** How much of each slave stream has been consumed. */
  datatype Cursor = Cursor(hw: nat, miso: nat)

  function Response(s: Slave, k: nat): bv8 {
    if k < |s.hw| then s.hw[k] else 0
  }

  function Sample(s: Slave, k: nat): bool {
    k < |s.miso| && s.miso[k]
  }

  /** The board the driver runs on: the trace of every platform call so far and the simulated slave. */
  class Board {
    const slave: Slave
    var trace: seq<Event>
    var cursor: Cursor

    constructor (slave: Slave)
      ensures this.slave == slave && trace == [] && cursor == Cursor(0, 0)
    {
      this.slave := slave;
      trace := [];
      cursor := Cursor(0, 0);
    }

    method DigitalWrite(pin: int, high: bool)
      modifies this
      ensures trace == old(trace) + [Event.DigitalWrite(pin, high)] && cursor == old(cursor)
    {
      trace := trace + [Event.DigitalWrite(pin, high)];
    }

    /** Returns the next MISO level of the slave. */
    method DigitalRead(pin: int) returns (high: bool)
      modifies this
      ensures high == Sample(slave, old(cursor).miso)
      ensures trace == old(trace) + [Event.DigitalRead(pin, high)]
      ensures cursor == old(cursor).(miso := old(cursor).miso + 1)
    {
      high := Sample(slave, cursor.miso);
      trace := trace + [Event.DigitalRead(pin, high)];
      cursor := cursor.(miso := cursor.miso + 1);
    }

    method PinMode(pin: int, direction: PinDirection)
      modifies this
      ensures trace == old(trace) + [Event.PinMode(pin, direction)] && cursor == old(cursor)
    {
      trace := trace + [Event.PinMode(pin, direction)];
    }

    method SpiBegin()
      modifies this
      ensures trace == old(trace) + [Event.SpiBegin] && cursor == old(cursor)
    {
      trace := trace + [Event.SpiBegin];
    }

    method BeginTransaction()
      modifies this
      ensures trace == old(trace) + [Event.BeginTransaction] && cursor == old(cursor)
    {
      trace := trace + [Event.BeginTransaction];
    }

    method EndTransaction()
      modifies this
      ensures trace == old(trace) + [Event.EndTransaction] && cursor == old(cursor)
    {
      trace := trace + [Event.EndTransaction];
    }

    /** Shifts `sent` out and returns the next byte of the slave. */
    method Transfer(sent: bv8) returns (received: bv8)
      modifies this
      ensures received == Response(slave, old(cursor).hw)
      ensures trace == old(trace) + [Event.Transfer(sent, received)]
      ensures cursor == old(cursor).(hw := old(cursor).hw + 1)
    {
      received := Response(slave, cursor.hw);
      trace := trace + [Event.Transfer(sent, received)];
      cursor := cursor.(hw := cursor.hw + 1);
    }
  }
}
