/**
 * Channel control of the PCA9685 driver: validation of timing values and the
 * bus transactions each operation issues. The bus is represented by the
 * sequence of transactions issued so far and by the answers the bus will give
 * to the next ones.
 */
module Channels {
  import opened Wrappers
  import opened Encoding
  import opened Registers
  import opened Frames

  /** The driver's error: a rejected argument, or a fault reported by the bus. */
  datatype Error<E> = InvalidInputData | I2C(cause: E)

  /** The result of an operation, Rust's `Result<(), Error<E>>`. */
  datatype Outcome<E> = Ok | Err(error: Error<E>)

  /** One bus transaction issued by the driver. */
  datatype Transaction =
    | EnableAutoInc                          // the mode-register write enabling auto-increment
    | Write(address: Byte, bytes: seq<Byte>) // a write of `bytes` to the device at `address`

  /** The answer of the bus to one transaction. */
  datatype Reply<E> = Ack | Fault(cause: E)

  /** The answer to the next transaction; a bus with no scripted fault acknowledges. */
  function NextReply<E>(replies: seq<Reply<E>>): Reply<E> {
    if |replies| == 0 then Ack else replies[0]
  }

  /** The answers left once the next transaction has been answered. */
  function Answered<E>(replies: seq<Reply<E>>): seq<Reply<E>> {
    if |replies| == 0 then [] else replies[1..]
  }

  /** A bus fault is passed to the caller unchanged, wrapped as `I2C`. */
  function Answer<E>(reply: Reply<E>): (r: Outcome<E>)
    ensures r.Ok? <==> reply.Ack?
    ensures reply.Fault? ==> r == Err(I2C(reply.cause))
  {
    match reply
    case Ack => Ok
    case Fault(e) => Err(I2C(e))
  }

  /**
   * The validation and buffer-filling loop of the bulk update: a 65-byte
   * buffer holding LED0_ON_L and then on-low, on-high, off-low, off-high of
   * each channel; None as soon as a value above 4095 is met.
   */
  method FillFrame(on: seq<U16>, off: seq<U16>) returns (frame: Option<seq<Byte>>)
    requires |on| == CHANNEL_COUNT && |off| == CHANNEL_COUNT
    ensures frame.None? <==> !AllTimings(on, off)
    ensures frame.Some? ==> frame.value == BulkFrame(on, off)
  {
    var data := new Byte[BULK_FRAME_LENGTH];
    data[0] := C0_ON_L;
    for i := 0 to CHANNEL_COUNT
      invariant forall j :: 0 <= j < i ==> IsTiming(on[j]) && IsTiming(off[j])
      invariant data[.. 4 * i + 1] == BulkFrame(on[..i], off[..i])
    {
      if on[i] > MAX_TIMING || off[i] > MAX_TIMING {
        return None;
      }
      PutChannel(data, i, on[i], off[i]);
      PayloadSnoc(on[..i], off[..i], on[i], off[i]);
      assert on[..i + 1] == on[..i] + [on[i]];
      assert off[..i + 1] == off[..i] + [off[i]];
    }
    assert on[..CHANNEL_COUNT] == on && off[..CHANNEL_COUNT] == off;
    assert data[..] == data[.. BULK_FRAME_LENGTH];
    return Some(data[..]);
  }

  /** Stores channel i's on-low, on-high, off-low and off-high bytes at 4i+1 to 4i+4. */
  method PutChannel(data: array<Byte>, i: nat, on: U16, off: U16)
    requires 4 * i + 5 <= data.Length
    modifies data
    ensures data[.. 4 * i + 5] == old(data[.. 4 * i + 1]) + ChannelBytes(on, off)
    ensures data[4 * i + 5 ..] == old(data[4 * i + 5 ..])
  {
    data[i * 4 + 1] := Lo(on);
    data[i * 4 + 2] := Hi(on);
    data[i * 4 + 3] := Lo(off);
    data[i * 4 + 4] := Hi(off);
  }

  /** A PCA9685 on an I2C bus, at a fixed device address. */
  class Pca9685<E> {
    /** The device's bus address, constant for the session. */
    const address: Byte
    /** Every transaction issued to the bus so far, in order. */
    var trace: seq<Transaction>
    /** The bus's answers to the transactions still to come. */
    var replies: seq<Reply<E>>

    constructor (address: Byte, replies: seq<Reply<E>>)
      ensures this.address == address && this.replies == replies && trace == []
    {
      this.address := address;
      this.replies := replies;
      trace := [];
    }

    /** Issues one transaction; the bus answers with its next reply. */
    method Transmit(t: Transaction) returns (r: Outcome<E>)
      modifies this
      ensures trace == old(trace) + [t]
      ensures replies == Answered(old(replies))
      ensures r == Answer(NextReply(old(replies)))
    {
      r := Answer(NextReply(replies));
      trace := trace + [t];
      replies := Answered(replies);
    }

    /** Writes one counter word, low byte first, starting at register `reg`. */
    method WriteDoubleRegister(reg: Byte, value: U16) returns (r: Outcome<E>)
      modifies this
      ensures trace == old(trace) + [Write(address, DoubleRegisterFrame(reg, value))]
      ensures replies == Answered(old(replies))
      ensures r == Answer(NextReply(old(replies)))
    {
      r := Transmit(Write(address, DoubleRegisterFrame(reg, value)));
    }

    /** Writes an ON and an OFF word in one transaction starting at register `reg`. */
    method WriteTwoDoubleRegisters(reg: Byte, on: U16, off: U16) returns (r: Outcome<E>)
      modifies this
      ensures trace == old(trace) + [Write(address, TwoDoubleRegistersFrame(reg, on, off))]
      ensures replies == Answered(old(replies))
      ensures r == Answer(NextReply(old(replies)))
    {
      r := Transmit(Write(address, TwoDoubleRegistersFrame(reg, on, off)));
    }

    /** Enables auto-increment addressing on the device. */
    method EnableAutoIncrement() returns (r: Outcome<E>)
      modifies this
      ensures trace == old(trace) + [EnableAutoInc]
      ensures replies == Answered(old(replies))
      ensures r == Answer(NextReply(old(replies)))
    {
      r := Transmit(EnableAutoInc);
    }

    /** Sets the ON counter of a channel; values above 4095 are rejected before any transaction. */
    method SetChannelOn(channel: Channel, value: U16) returns (r: Outcome<E>)
      modifies this
      ensures !IsTiming(value) ==>
        r == Err(InvalidInputData) && trace == old(trace) && replies == old(replies)
      ensures IsTiming(value) ==>
        && trace == old(trace) + [Write(address, DoubleRegisterFrame(RegisterOn(channel), value))]
        && replies == Answered(old(replies))
        && r == Answer(NextReply(old(replies)))
    {
      if value > MAX_TIMING {
        return Err(InvalidInputData);
      }
      var reg := RegisterOn(channel);
      r := WriteDoubleRegister(reg, value);
    }

    /** Sets the OFF counter of a channel; values above 4095 are rejected before any transaction. */
    method SetChannelOff(channel: Channel, value: U16) returns (r: Outcome<E>)
      modifies this
      ensures !IsTiming(value) ==>
        r == Err(InvalidInputData) && trace == old(trace) && replies == old(replies)
      ensures IsTiming(value) ==>
        && trace == old(trace) + [Write(address, DoubleRegisterFrame(RegisterOff(channel), value))]
        && replies == Answered(old(replies))
        && r == Answer(NextReply(old(replies)))
    {
      if value > MAX_TIMING {
        return Err(InvalidInputData);
      }
      var reg := RegisterOff(channel);
      r := WriteDoubleRegister(reg, value);
    }

    /**
     * Sets the ON and OFF counters of a channel in one write starting at its
     * ON register; if either value is above 4095 nothing is written at all.
     */
    method SetChannelOnOff(channel: Channel, on: U16, off: U16) returns (r: Outcome<E>)
      modifies this
      ensures !(IsTiming(on) && IsTiming(off)) ==>
        r == Err(InvalidInputData) && trace == old(trace) && replies == old(replies)
      ensures IsTiming(on) && IsTiming(off) ==>
        && trace == old(trace) + [Write(address, TwoDoubleRegistersFrame(RegisterOn(channel), on, off))]
        && replies == Answered(old(replies))
        && r == Answer(NextReply(old(replies)))
    {
      if on > MAX_TIMING || off > MAX_TIMING {
        return Err(InvalidInputData);
      }
      var reg := RegisterOn(channel);
      r := WriteTwoDoubleRegisters(reg, on, off);
    }

    /**
     * Sets a channel always on: writes `value | 0x1000` to its ON counter,
     * keeping the delay in the low twelve bits and setting the override bit.
     */
    method SetChannelFullOn(channel: Channel, value: U16) returns (r: Outcome<E>)
      modifies this
      ensures !IsTiming(value) ==>
        r == Err(InvalidInputData) && trace == old(trace) && replies == old(replies)
      ensures IsTiming(value) ==>
        && trace == old(trace) + [Write(address, DoubleRegisterFrame(RegisterOn(channel), value + FULL_FLAG))]
        && replies == Answered(old(replies))
        && r == Answer(NextReply(old(replies)))
    {
      if value > MAX_TIMING {
        return Err(InvalidInputData);
      }
      var reg := RegisterOn(channel);
      FullFlagWord(value);
      var word := BitOr(value, FULL_FLAG);
      r := WriteDoubleRegister(reg, word);
    }

    /** Sets a channel always off: writes the fixed word 0x1000 to its OFF counter. */
    method SetChannelFullOff(channel: Channel) returns (r: Outcome<E>)
      modifies this
      ensures trace == old(trace) + [Write(address, DoubleRegisterFrame(RegisterOff(channel), FULL_FLAG))]
      ensures replies == Answered(old(replies))
      ensures r == Answer(NextReply(old(replies)))
    {
      var reg := RegisterOff(channel);
      var word := FULL_FLAG;
      r := WriteDoubleRegister(reg, word);
    }

    /** Disabling a channel through the generic PWM interface sets it fully off. */
    method TryDisable(channel: Channel) returns (r: Outcome<E>)
      modifies this
      ensures trace == old(trace) + [Write(address, DoubleRegisterFrame(RegisterOff(channel), FULL_FLAG))]
      ensures replies == Answered(old(replies))
      ensures r == Answer(NextReply(old(replies)))
    {
      r := SetChannelFullOff(channel);
    }

    /**
     * Sets the ON and OFF counters of all 16 channels. Every value is checked
     * before any transaction; then auto-increment is enabled and, if that
     * succeeds, the 65-byte bulk frame is written in one transaction.
     */
    method SetAllOnOff(on: seq<U16>, off: seq<U16>) returns (r: Outcome<E>)
      requires |on| == CHANNEL_COUNT && |off| == CHANNEL_COUNT
      modifies this
      ensures !AllTimings(on, off) ==>
        r == Err(InvalidInputData) && trace == old(trace) && replies == old(replies)
      ensures AllTimings(on, off) && NextReply(old(replies)).Fault? ==>
        && trace == old(trace) + [EnableAutoInc]
        && replies == Answered(old(replies))
        && r == Answer(NextReply(old(replies)))
      ensures AllTimings(on, off) && NextReply(old(replies)).Ack? ==>
        && trace == old(trace) + [EnableAutoInc, Write(address, BulkFrame(on, off))]
        && replies == Answered(Answered(old(replies)))
        && r == Answer(NextReply(Answered(old(replies))))
    {
      var frame := FillFrame(on, off);
      if frame.None? {
        return Err(InvalidInputData);
      }
      r := EnableAutoIncrement();
      if r.Err? {
        return;
      }
      r := Transmit(Write(address, frame.value));
    }
  }
}
