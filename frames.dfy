/**
 * The bytes of each bus write the driver issues: a leading register address
 * followed by data bytes that the chip stores in consecutive registers.
 */
module Frames {
  import opened Wrappers
  import opened Encoding
  import opened Registers

  /** Number of physical channels covered by the bulk update. */
  const CHANNEL_COUNT: nat := 16

  /** Length of the bulk frame: one address byte and four bytes per channel. */
  const BULK_FRAME_LENGTH: nat := 65

  /** The write `[reg, lo(v), hi(v)]` that sets one counter word. */
  function DoubleRegisterFrame(reg: Byte, value: U16): (f: seq<Byte>)
    ensures |f| == 3 && f[0] == reg
    ensures Word(f[1], f[2]) == value
  {
    [reg, Lo(value), Hi(value)]
  }

  /** The four data bytes of one channel: on-low, on-high, off-low, off-high. */
  function ChannelBytes(on: U16, off: U16): (b: seq<Byte>)
    ensures |b| == 4
    ensures Word(b[0], b[1]) == on && Word(b[2], b[3]) == off
  {
    [Lo(on), Hi(on), Lo(off), Hi(off)]
  }

  /** The write `[reg, lo(on), hi(on), lo(off), hi(off)]` that sets an ON and an OFF word. */
  function TwoDoubleRegistersFrame(reg: Byte, on: U16, off: U16): (f: seq<Byte>)
    ensures |f| == 5 && f[0] == reg
    ensures Word(f[1], f[2]) == on && Word(f[3], f[4]) == off
  {
    [reg] + ChannelBytes(on, off)
  }

  /** Every ON and OFF value of the bulk update is a 12-bit timing. */
  predicate AllTimings(on: seq<U16>, off: seq<U16>) {
    (forall i :: 0 <= i < |on| ==> IsTiming(on[i])) &&
    (forall i :: 0 <= i < |off| ==> IsTiming(off[i]))
  }

  /** The data bytes of the bulk update, channel after channel. */
  function Payload(on: seq<U16>, off: seq<U16>): (p: seq<Byte>)
    requires |on| == |off|
    ensures |p| == 4 * |on|
  {
    if |on| == 0 then [] else ChannelBytes(on[0], off[0]) + Payload(on[1..], off[1..])
  }

  /** The 65-byte bulk write: LED0_ON_L, then the payload of the 16 channels. */
  function BulkFrame(on: seq<U16>, off: seq<U16>): (f: seq<Byte>)
    requires |on| == |off|
    ensures |f| == 1 + 4 * |on| && f[0] == RegisterOn(C0)
  {
    [C0_ON_L] + Payload(on, off)
  }

  /** Reads a payload back into the ON and OFF words it carries. */
  function DecodePayload(p: seq<Byte>): (words: (seq<U16>, seq<U16>))
    requires |p| % 4 == 0
    ensures |words.0| == |words.1| == |p| / 4
  {
    if |p| == 0 then ([], [])
    else
      var rest := DecodePayload(p[4..]);
      ([Word(p[0], p[1])] + rest.0, [Word(p[2], p[3])] + rest.1)
  }

  /**
   * The byte a write leaves in register `reg` when auto-increment addressing
   * is enabled, so that the chip advances its register pointer after each
   * data byte; None when the write does not reach `reg`.
   */
  function WrittenAt(frame: seq<Byte>, reg: int): Option<Byte>
    requires |frame| >= 1
  {
    var k := reg - frame[0] + 1;
    if 1 <= k < |frame| then Some(frame[k]) else None
  }

  /** Appending a channel to the input appends its four bytes to the payload. */
  lemma {:induction false} PayloadSnoc(on: seq<U16>, off: seq<U16>, x: U16, y: U16)
    requires |on| == |off|
    ensures Payload(on + [x], off + [y]) == Payload(on, off) + ChannelBytes(x, y)
  {
    if |on| == 0 {
      assert on + [x] == [x] && off + [y] == [y];
    } else {
      assert (on + [x])[1..] == on[1..] + [x];
      assert (off + [y])[1..] == off[1..] + [y];
      PayloadSnoc(on[1..], off[1..], x, y);
    }
  }

  /** Bytes 4i to 4i+3 of the payload are channel i's on-low, on-high, off-low, off-high. */
  lemma {:induction false} PayloadAt(on: seq<U16>, off: seq<U16>, i: nat)
    requires |on| == |off| && i < |on|
    ensures Payload(on, off)[4 * i .. 4 * i + 4] == ChannelBytes(on[i], off[i])
  {
    if i > 0 {
      PayloadAt(on[1..], off[1..], i - 1);
    }
  }

  /** Decoding an encoded payload gives back exactly the ON and OFF words. */
  lemma {:induction false} DecodeEncode(on: seq<U16>, off: seq<U16>)
    requires |on| == |off|
    ensures DecodePayload(Payload(on, off)) == (on, off)
  {
    if |on| > 0 {
      var p := Payload(on, off);
      assert p[4..] == Payload(on[1..], off[1..]);
      DecodeEncode(on[1..], off[1..]);
      SplitJoin(on[0]);
      SplitJoin(off[0]);
      assert p[..4] == ChannelBytes(on[0], off[0]);
      assert [Word(p[0], p[1])] + on[1..] == on;
      assert [Word(p[2], p[3])] + off[1..] == off;
    }
  }

  /**
   * Layout of the bulk write for 16 channels: 65 bytes, byte 0 the address of
   * channel 0's ON register, and bytes 4i+1 to 4i+4 the on-low, on-high,
   * off-low and off-high bytes of channel i.
   */
  lemma BulkFrameLayout(on: seq<U16>, off: seq<U16>, i: nat)
    requires |on| == |off| == CHANNEL_COUNT && i < CHANNEL_COUNT
    ensures |BulkFrame(on, off)| == BULK_FRAME_LENGTH
    ensures BulkFrame(on, off)[0] == RegisterOn(C0)
    ensures BulkFrame(on, off)[4 * i + 1] == Lo(on[i])
    ensures BulkFrame(on, off)[4 * i + 2] == Hi(on[i])
    ensures BulkFrame(on, off)[4 * i + 3] == Lo(off[i])
    ensures BulkFrame(on, off)[4 * i + 4] == Hi(off[i])
  {
    PayloadAt(on, off, i);
    var p := Payload(on, off);
    assert p[4 * i .. 4 * i + 4][0] == p[4 * i];
    assert p[4 * i .. 4 * i + 4][3] == p[4 * i + 3];
  }

  /**
   * With auto-increment addressing, the bulk write reaches exactly the 64
   * counter registers of channels 0 to 15, and leaves in the four registers
   * of channel i the same bytes as the single-channel ON+OFF write for it.
   */
  lemma BulkFrameMatchesChannelWrites(on: seq<U16>, off: seq<U16>, i: nat, reg: int)
    requires |on| == |off| == CHANNEL_COUNT && i < CHANNEL_COUNT
    requires RegisterOn(ChannelOf(i)) <= reg < RegisterOn(ChannelOf(i)) + 4
    ensures WrittenAt(BulkFrame(on, off), reg)
         == WrittenAt(TwoDoubleRegistersFrame(RegisterOn(ChannelOf(i)), on[i], off[i]), reg)
    ensures WrittenAt(BulkFrame(on, off), reg).Some?
  {
    ChannelBlock(i);
    BulkFrameLayout(on, off, i);
  }

  /** The bulk write touches no register outside the 64 per-channel counters. */
  lemma BulkFrameReach(on: seq<U16>, off: seq<U16>, reg: int)
    requires |on| == |off| == CHANNEL_COUNT
    ensures WrittenAt(BulkFrame(on, off), reg).Some? <==> C0_ON_L <= reg < C0_ON_L + 64
  {
  }

  /**
   * The single ON+OFF write of a channel leaves in every register what the
   * separate ON write and OFF write would leave, and those two do not overlap.
   */
  lemma OnOffFrameCombinesWrites(c: Channel, on: U16, off: U16, reg: int)
    ensures
      var both := WrittenAt(TwoDoubleRegistersFrame(RegisterOn(c), on, off), reg);
      var first := WrittenAt(DoubleRegisterFrame(RegisterOn(c), on), reg);
      var second := WrittenAt(DoubleRegisterFrame(RegisterOff(c), off), reg);
      !(first.Some? && second.Some?) && both == (if first.Some? then first else second)
  {
  }
}
