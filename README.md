# PCA9685 channel control in Dafny

A model of the channel-control core of a Rust driver for the NXP PCA9685, a
16-channel PWM controller reached over I2C. The model covers three parts:

- **Register map.** `Registers.RegisterOn` and `Registers.RegisterOff` are total maps from the
  17 channel identifiers (`C0` to `C15` and the broadcast `All`) to the address
  of the low byte of the channel's ON or OFF counter. The register table in
  section 7.3 of the NXP PCA9685 datasheet gives the addresses:
  LEDn_ON_L = 0x06 + 4n, LEDn_OFF_L = 0x08 + 4n, ALL_LED_ON_L = 0xFA and
  ALL_LED_OFF_L = 0xFC. The map is written as an explicit table, and its
  contract proves that the table agrees with that arithmetic progression.
- **Per-channel setters.** The five setters are methods of the class
  `Channels.Pca9685`. They reject timing values above 4095 with
  `InvalidInputData` before touching the bus. Each one encodes a 16-bit word
  as low byte, high byte. Full-on ORs the value with the override bit 0x1000.
  Full-off writes the fixed word 0x1000. Each setter then issues one write.
- **Bulk update.** `SetAllOnOff` validates 32 values while filling a 65-byte
  buffer (`FillFrame`, a loop over an array). It then enables auto-increment
  addressing and issues one 65-byte write.

The bus is represented by two fields of the device object:

- `trace` holds every transaction issued, in order. A transaction is either
  `EnableAutoInc` or `Write(address, bytes)`.
- `replies` holds the bus's answers to the transactions still to come. This
  is an oracle: the environment scripts which transaction faults. An empty
  script answers `Ack`.

A transaction is recorded in `trace` even when the bus reports a fault. The
fault reaches the caller unchanged as `I2C(cause)`.

Assumptions about code that is not part of this model:

- `write_double_register(reg, v)` is one write of `[reg, lo(v), hi(v)]`.
- `write_two_double_registers(reg, on, off)` is one write of
  `[reg, lo(on), hi(on), lo(off), hi(off)]`.
- `enable_auto_increment` is one opaque transaction. It is issued on every
  call of the bulk update, with no cached mode state.
- The register constants are the datasheet values listed above. The file
  that defines them is not part of this model.

To state where a write's bytes land, `Frames.WrittenAt` gives the register
each data byte reaches. The first byte of a write is the start address, and
the chip, with auto-increment addressing enabled, advances its register
pointer after each data byte.

## Model

| member | source | states |
|---|---|---|
| `Encoding.Lo` | src/channels.rs:133 | the cast `v as u8` keeps the low eight bits: the result differs from v by a multiple of 256 |
| `Encoding.Hi` | src/channels.rs:134 | `(v >> 8) as u8` is the number of whole 256s in v: 256 * hi <= v < 256 * (hi + 1) |
| `Encoding.BitOr` | src/channels.rs:103 | the or of a and b is at least each of them and at most their sum; its per-bit meaning is stated by `OrBits` |
| `Encoding.Word` | src/channels.rs:133-134 | joining a low and a high byte gives a word whose low byte and high byte are exactly those two bytes |
| `Encoding.SplitJoin` | src/channels.rs:133-134 | for every 16-bit word, `v as u8` and `(v >> 8) as u8` join back to the word |
| `Encoding.TimingBytes` | src/channels.rs:133-136 | for a value at most 4095, the high byte is at most 0x0F and lo + 256 * hi equals the value |
| `Encoding.TimingWord` | src/channels.rs:56-61 | a plain timing value has its 12-bit counter equal to itself and the override bit 12 clear |
| `Encoding.FullFlagWord` | src/channels.rs:102-104 | for v at most 4095, `v \| 0x1000` (bitwise or on u16) equals v + 0x1000; its low 12 bits are v, bit 12 is set, the low byte is unchanged and the high byte gains 0x10 |
| `Encoding.OrBits` | src/channels.rs:103 | the model of `\|` is bitwise or: bit k of `a \| b` is set exactly when bit k of a or of b is set |
| `Encoding.OrBelow` | src/channels.rs:103 | or-ing two values below 2^n stays below 2^n, so `\|` on u16 needs no truncation |
| `Encoding.FullOffWord` | src/channels.rs:115-117 | the full-off word 0x1000 has a zero counter and the override bit set; its bytes are 0x00, 0x10 |
| `Registers.RegisterOn` | src/channels.rs:153-159 | total over all 17 channels; channel n maps to 0x06 + 4n and `All` maps to 0xFA, not to channel 0's register |
| `Registers.RegisterOff` | src/channels.rs:161-199 | total over all 17 channels; channel n maps to 0x08 + 4n, `All` maps to 0xFC, and every OFF register is the channel's ON register + 2 |
| `Registers.RegistersDistinct` | src/channels.rs:153-199 | the ON map and the OFF map are each injective, and no ON register equals any OFF register |
| `Registers.CounterPairsDisjoint` | src/channels.rs:153-199 | all counter addresses are even, so the (low, high) register pairs of distinct (channel, edge) pairs never overlap |
| `Registers.ChannelBlock` | src/channels.rs:153-159 | channel i's ON register is LED0_ON_L + 4i, and all 16 channel blocks lie below LED0_ON_L + 64, under the broadcast block |
| `Frames.DoubleRegisterFrame` | src/channels.rs:60-61 | the single-word write is 3 bytes, starts with the register, and its two data bytes decode to the value |
| `Frames.ChannelBytes` | src/channels.rs:133-136 | a channel's four data bytes decode, pair by pair, to its ON value and then its OFF value |
| `Frames.TwoDoubleRegistersFrame` | src/channels.rs:87-88 | the ON+OFF write is 5 bytes, starts with the register, and its data bytes decode to the ON value and then the OFF value |
| `Frames.Payload` | src/channels.rs:129-137 | the data bytes of the bulk update number four per channel |
| `Frames.BulkFrame` | src/channels.rs:127-137 | the bulk buffer holds one address byte, channel 0's ON register, and four bytes per channel; its byte-by-byte layout is stated by `BulkFrameLayout` |
| `Frames.DecodePayload` | src/channels.rs:133-136 | reading a payload back yields one ON word and one OFF word per four bytes |
| `Frames.PayloadSnoc` | src/channels.rs:129-137 | each loop iteration appends exactly the channel's four bytes to the bytes already filled |
| `Frames.PayloadAt` | src/channels.rs:133-136 | payload bytes 4i to 4i+3 are lo(on[i]), hi(on[i]), lo(off[i]), hi(off[i]) |
| `Frames.DecodeEncode` | src/channels.rs:133-136 | decoding the bulk payload gives back exactly the ON and OFF arrays |
| `Frames.BulkFrameLayout` | src/channels.rs:127-137 | the bulk write is 65 bytes, byte 0 is channel 0's ON register, and bytes 4i+1 to 4i+4 are lo(on[i]), hi(on[i]), lo(off[i]), hi(off[i]) |
| `Frames.BulkFrameMatchesChannelWrites` | src/channels.rs:126-139 | with auto-increment, the bulk write leaves in each register of channel i the same byte as the single-channel ON+OFF write of on[i], off[i] |
| `Frames.BulkFrameReach` | src/channels.rs:127-139 | with auto-increment, the bulk write reaches exactly the 64 registers from LED0_ON_L upward and no others |
| `Frames.OnOffFrameCombinesWrites` | src/channels.rs:78-88 | the ON+OFF write starting at the ON register leaves in every register what separate ON and OFF writes would; those two writes never overlap |
| `Channels.Answer` | src/channels.rs:138-139 | a bus reply maps to success exactly when the bus acknowledged; a fault is passed through unchanged as `I2C` |
| `Channels.FillFrame` | src/channels.rs:127-137 | the fill loop returns no buffer exactly when some on[i] or off[i] exceeds 4095; otherwise the buffer is the 65-byte bulk frame |
| `Channels.PutChannel` | src/channels.rs:133-136 | storing channel i's bytes sets positions 4i+1 to 4i+4 to its four bytes and keeps every byte before and after them |
| `Channels.Pca9685.Transmit` | src/channels.rs:139 | one transaction is appended to the trace, one bus reply is consumed, and the result is that reply, with faults wrapped as `I2C` |
| `Channels.Pca9685.WriteDoubleRegister` | src/channels.rs:61 | appends exactly one 3-byte write to the device's address |
| `Channels.Pca9685.WriteTwoDoubleRegisters` | src/channels.rs:88 | appends exactly one 5-byte write to the device's address |
| `Channels.Pca9685.EnableAutoIncrement` | src/channels.rs:138 | appends exactly one auto-increment-enable transaction |
| `Channels.Pca9685.SetChannelOn` | src/channels.rs:56-62 | above 4095: `InvalidInputData`, trace and bus replies unchanged; otherwise exactly one write of the value to the channel's ON register, with the bus's answer as result |
| `Channels.Pca9685.SetChannelOff` | src/channels.rs:65-71 | the same as SetChannelOn, but for the channel's OFF register |
| `Channels.Pca9685.SetChannelOnOff` | src/channels.rs:78-89 | if on or off exceeds 4095: `InvalidInputData` and no write at all; otherwise exactly one 5-byte write of both counters starting at the channel's ON register |
| `Channels.Pca9685.SetChannelFullOn` | src/channels.rs:98-105 | above 4095: `InvalidInputData`, no transaction; otherwise exactly one write of `value \| 0x1000` (= value + 0x1000) to the channel's ON register |
| `Channels.Pca9685.SetChannelFullOff` | src/channels.rs:114-118 | no validation path: always exactly one write of the word 0x1000 to the channel's OFF register |
| `Channels.Pca9685.TryDisable` | src/channels.rs:14-16 | disabling a channel through the generic PWM interface has exactly the effect of SetChannelFullOff |
| `Channels.Pca9685.SetAllOnOff` | src/channels.rs:126-140 | any value above 4095: `InvalidInputData` with no enable and no write; otherwise one auto-increment enable, and only if it succeeds one write of the 65-byte bulk frame; the result is the first fault or the write's answer |

## Left out

- The other members of the generic `hal::pwm::Pwm` adapter (src/channels.rs:18-43) are left out. `try_enable`, `try_get_duty`, `try_get_period` and `try_set_period` are stubs that panic. `try_get_max_duty` returns the constant 0, and `try_set_duty` does nothing. Only `try_disable` has behaviour, and it is modelled as `TryDisable`.
- The I2C transport is represented only by the transactions it receives and by its scripted replies (`Reply`). What the bus does with the bytes is outside the driver.
- The bodies of `write_double_register`, `write_two_double_registers` and `enable_auto_increment` are not part of this model. They are modelled by their assumed effect on the trace, as described above.
- The chip's own semantics are left out. This includes full-off taking precedence over full-on and the wrap-around of the auto-increment register pointer. `WrittenAt` covers only the plain advance of the register pointer, and the writes modelled here never go past register 0xFF.
- The generic parameters `I2C`/`E` and their trait bounds are reduced to the type parameter `E` of the bus error. The `get_register!` macro is written out as explicit `match` tables.
- Rust's fixed-size `[u16; 16]` arguments become sequences of 16 values. The 7-bit device address is held as a byte.
- The fill loop of `set_all_on_off` is a separate method, `FillFrame`. `SetAllOnOff` calls it, so the order of effects is unchanged: the whole batch is checked before any transaction.
