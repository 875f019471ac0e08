/**
 * The register map: the address of the ON and OFF counter registers of each
 * channel. Each counter is a 16-bit word held in two consecutive 8-bit
 * registers, low byte first, at the addresses given in the register table of
 * the NXP PCA9685 datasheet (section 7.3).
 */
module Registers {
  import opened Encoding

  /** The sixteen output channels and the broadcast pseudo-channel. */
  datatype Channel =
    | C0 | C1 | C2 | C3 | C4 | C5 | C6 | C7
    | C8 | C9 | C10 | C11 | C12 | C13 | C14 | C15
    | All

  /** LED0_ON_L: low byte of channel 0's ON counter. */
  const C0_ON_L: Byte := 0x06
  /** LED0_OFF_L: low byte of channel 0's OFF counter. */
  const C0_OFF_L: Byte := 0x08
  /** ALL_LED_ON_L: low byte of the broadcast ON counter. */
  const ALL_C_ON_L: Byte := 0xFA
  /** ALL_LED_OFF_L: low byte of the broadcast OFF counter. */
  const ALL_C_OFF_L: Byte := 0xFC
  /** Distance between the register blocks of two consecutive channels. */
  const CHANNEL_STRIDE: nat := 4

  /** The physical channels, in index order. */
  const CHANNELS: seq<Channel> :=
    [C0, C1, C2, C3, C4, C5, C6, C7, C8, C9, C10, C11, C12, C13, C14, C15]

  /** Position of a physical channel in CHANNELS. */
  function Index(c: Channel): (i: nat)
    requires c != All
    ensures i < |CHANNELS| && CHANNELS[i] == c
  {
    match c
    case C0 => 0  case C1 => 1  case C2 => 2  case C3 => 3
    case C4 => 4  case C5 => 5  case C6 => 6  case C7 => 7
    case C8 => 8  case C9 => 9  case C10 => 10  case C11 => 11
    case C12 => 12  case C13 => 13  case C14 => 14  case C15 => 15
  }

  /** The physical channel with index i. */
  function ChannelOf(i: nat): (c: Channel)
    requires i < |CHANNELS|
    ensures c != All && Index(c) == i
  {
    CHANNELS[i]
  }

  /**
   * Address of the low byte of a channel's ON counter, as the explicit
   * table; it agrees with the arithmetic progression 0x06 + 4 * index.
   */
  function RegisterOn(c: Channel): (r: Byte)
    ensures c != All ==> r == C0_ON_L + CHANNEL_STRIDE * Index(c)
    ensures c == All ==> r == ALL_C_ON_L
  {
    match c
    case C0 => 0x06  case C1 => 0x0A  case C2 => 0x0E  case C3 => 0x12
    case C4 => 0x16  case C5 => 0x1A  case C6 => 0x1E  case C7 => 0x22
    case C8 => 0x26  case C9 => 0x2A  case C10 => 0x2E  case C11 => 0x32
    case C12 => 0x36  case C13 => 0x3A  case C14 => 0x3E  case C15 => 0x42
    case All => ALL_C_ON_L
  }

  /**
   * Address of the low byte of a channel's OFF counter, as the explicit
   * table; it always sits two registers after the channel's ON counter.
   */
  function RegisterOff(c: Channel): (r: Byte)
    ensures c != All ==> r == C0_OFF_L + CHANNEL_STRIDE * Index(c)
    ensures c == All ==> r == ALL_C_OFF_L
    ensures r == RegisterOn(c) + 2
  {
    match c
    case C0 => 0x08  case C1 => 0x0C  case C2 => 0x10  case C3 => 0x14
    case C4 => 0x18  case C5 => 0x1C  case C6 => 0x20  case C7 => 0x24
    case C8 => 0x28  case C9 => 0x2C  case C10 => 0x30  case C11 => 0x34
    case C12 => 0x38  case C13 => 0x3C  case C14 => 0x40  case C15 => 0x44
    case All => ALL_C_OFF_L
  }

  /** Index and ChannelOf are inverse bijections between C0..C15 and 0..15. */
  lemma IndexRoundTrip(c: Channel)
    requires c != All
    ensures ChannelOf(Index(c)) == c
  {
  }

  /**
   * No two of the 34 (channel, edge) registers alias: distinct channels have
   * distinct ON registers and distinct OFF registers, and no ON register is
   * any OFF register. In particular All's pair is not channel 0's.
   */
  lemma RegistersDistinct(a: Channel, b: Channel)
    ensures RegisterOn(a) == RegisterOn(b) <==> a == b
    ensures RegisterOff(a) == RegisterOff(b) <==> a == b
    ensures RegisterOn(a) != RegisterOff(b)
  {
    if a != b {
      OnInjective(a, b);
    }
    OnIsNotOff(a, b);
  }

  lemma OnInjective(a: Channel, b: Channel)
    requires a != b
    ensures RegisterOn(a) != RegisterOn(b)
  {
    if a != All && b != All {
      IndexRoundTrip(a);
      IndexRoundTrip(b);
    }
  }

  lemma OnIsNotOff(a: Channel, b: Channel)
    ensures RegisterOn(a) != RegisterOff(b)
  {
    assert RegisterOn(a) % 4 == 2;
    assert RegisterOff(b) % 4 == 0;
  }

  /**
   * Every counter occupies a low and a high register, and these two-register
   * pairs never overlap: all counter addresses are even and distinct.
   */
  lemma CounterPairsDisjoint(a: Channel, b: Channel)
    ensures RegisterOn(a) % 2 == 0 && RegisterOff(a) % 2 == 0
    ensures a != b ==> RegisterOn(a) + 1 != RegisterOn(b) && RegisterOn(b) + 1 != RegisterOn(a)
    ensures a != b ==> RegisterOff(a) + 1 != RegisterOff(b) && RegisterOff(b) + 1 != RegisterOff(a)
    ensures RegisterOn(a) + 1 != RegisterOff(b) && RegisterOff(b) + 1 != RegisterOn(a)
  {
    RegistersDistinct(a, b);
  }

  /**
   * The ON and OFF counters of the sixteen physical channels fill the
   * 64 registers from LED0_ON_L upward, four per channel, in channel order,
   * below the broadcast block.
   */
  lemma ChannelBlock(i: nat)
    requires i < |CHANNELS|
    ensures RegisterOn(ChannelOf(i)) == C0_ON_L + 4 * i
    ensures RegisterOff(ChannelOf(i)) + 1 < C0_ON_L + 64 < ALL_C_ON_L
  {
  }
}
