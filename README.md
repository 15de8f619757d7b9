# LW09 DALI bridge driver, modelled in Dafny

This project models the driver for the LED Warrior LW09, a bridge between I²C and DALI. The driver turns
lighting operations into register frames written to the bridge over I²C:

- assign a DALI address;
- set a lamp's arc power level;
- send a standard DALI command;
- configure a switch input;
- run a raw query.

It also polls the bridge's status register until the BUSY bit (0x40) clears.

Layout:

- `basics.dfy` (`Basics`): the byte type (`bv8`, so that shifts truncate to 8 bits the way a
  `uint8_t` assignment does), `Option`, and the C `int`-to-`uint8_t` conversion.
- `dali_constants.dfy` (`DaliConstants`): the values in `LW09Dali.h`. These are the `DALICommand` codes, the
  `DALISceneCommand` codes, the register selectors, the BUSY flag and the broadcast address.
- `dali_encoding.dfy` (`DaliEncoding`): the pure part of `LW09Dali.cpp`. It covers the range checks, the packing of the DALI
  address byte and the frame each operation sends. An operation that rejects its arguments yields `None`. Each
  encoder is specified by reading its byte back as three fields: bit 7, bits 6..1 and bit 0.
- `wire.dfy` (`Wire`): the I²C transport (Arduino `Wire`), modelled as an object. It holds an append-only log of
  transactions, the input stream of bytes the bridge will answer with, and the transmit and receive
  buffers. Bytes are written into the transmit buffer one at a time.
- `lw09_driver.dfy` (`LW09Driver`): the class `LW09Dali`. It has a constant bus address and a constant
  transport. Each method states exactly which transactions it appends to the log, how many input bytes it
  consumes and what it returns.

Behaviour of the code as written, kept in the model:

- `setDALIAddress` ORs both the group bit and the mode bit into bit 0. So `(1, a, 0)`, `(0, a, 1)` and
  `(1, a, 1)` send the same byte (`GroupAndModeBitsAlias`).
- `setLampLevel` does not range-check its address, although its documentation gives 0..63. Addresses
  64..127 set bit 7, and addresses of 128 or more wrap onto `address - 128` (`ArcPowerAddressWraps`).
- Only `sendDALICommand` treats the broadcast address 0xFF specially: it accepts it and sends the address
  byte 0xFF. `setDALIAddress` and `configureSwitchInput` reject 0xFF. `setLampLevel` accepts it like any
  other address and sends 0xFE, the same byte as for address 0x7F.
- A one-byte read with no byte available returns 0xFF. That is `Wire.read()`'s -1 narrowed to `uint8_t`.
  So an exhausted input stream reads as "busy".

The `waitForReady` loop is unbounded. Its model, and the models of the operations that call it, require
that some byte still to come in the input stream has BUSY clear. The loop's termination measure is the
distance to the first such byte.

## Model

| member | source | states |
|---|---|---|
| `Basics.ToByte` | src/LW09Dali.cpp:19-20 | converting Wire's read result to `uint8_t` keeps a byte value and turns -1 (nothing received) into 0xFF |
| `DaliConstants.CommandCodesConsecutive` | src/LW09Dali.h:12-22 | the nine `DALICommand` codes are 0x00..0x08 in declaration order, every command is listed, and no two share a code |
| `DaliConstants.SceneCodesAreOffsets` | src/LW09Dali.h:80-97 | SCENE_n is 0x10 + n, the scene codes are distinct, lie in 0x10..0x1F and differ from every command code |
| `DaliConstants.SceneCodeAt` | src/LW09Dali.h:80-97 | the table entry of SCENE_n, for each n in 0..15, is 0x10 + n |
| `DaliConstants.RegistersDistinct` | src/LW09Dali.h:107-124 | the status, command and configuration selectors are 0x00, 0x01 and 0x02, pairwise distinct |
| `DaliConstants.BusyIsBitSix` | src/LW09Dali.h:126-131 | BUSY is 1 << 6, and a status is busy exactly when its bit 6 is set |
| `DaliConstants.BroadcastOutsideShortRange` | src/LW09Dali.h:132-138 | the broadcast address 0xFF lies outside the short-address range 0..63 |
| `DaliEncoding.DaliAddressByte` | src/LW09Dali.cpp:42 | for valid arguments the byte reads back as the address in bits 6..1, bit 7 clear, and groupBit OR modeBit in bit 0 |
| `DaliEncoding.ArcPowerAddressByte` | src/LW09Dali.cpp:59 | the byte is twice the address modulo 256, with bit 0 (direct arc power) clear; bits 6..1 and 7 are the address's low six bits and bit 6 |
| `DaliEncoding.CommandAddressByte` | src/LW09Dali.cpp:89 | bit 0 (command mode) is set; a short address reads back from bits 6..1 with bit 7 clear; broadcast gives 0xFF |
| `DaliEncoding.AddressAssignmentFrame` | src/LW09Dali.cpp:38-43 | a frame is sent exactly when address <= 63 and both bits <= 1; it is [0x01, address byte, 0x00] with the address in bits 6..1, bit 7 clear and groupBit OR modeBit in bit 0 |
| `DaliEncoding.LampLevelFrame` | src/LW09Dali.cpp:55-60 | a frame is sent exactly when level != 255; it is [0x01, 2·address mod 256, level] with bit 0 of the address byte clear |
| `DaliEncoding.SwitchConfigFrame` | src/LW09Dali.cpp:64-82 | a frame is sent exactly when switchIndex <= 1, mode <= 6 and address <= 127; it starts with 0x02, ends with mode and address, and switch 1 adds two zero placeholder bytes for switch 0 |
| `DaliEncoding.DaliCommandFrame` | src/LW09Dali.cpp:85-90 | a frame is sent exactly for a short address or broadcast; it is [0x01, address byte, command code] with bit 0 set, the short address in bits 6..1, and 0xFF for broadcast |
| `DaliEncoding.GroupAndModeBitsAlias` | src/LW09Dali.cpp:42 | group bit and mode bit share bit 0: (1,a,0), (0,a,1) and (1,a,1) give the same byte, distinct from (0,a,0) |
| `DaliEncoding.AddressAssignmentInjective` | src/LW09Dali.cpp:42 | two valid assignments give the same byte exactly when their addresses agree and their bit-0 ORs agree |
| `DaliEncoding.ArcPowerAddressWraps` | src/LW09Dali.h:266 | the unchecked lamp address leaves the short-address form for 64..127 (bit 7 set) and wraps onto address - 128 from 128 on; broadcast 0xFF is sent as 0xFE, like 0x7F |
| `DaliEncoding.CommandAddressInjective` | src/LW09Dali.cpp:86-89 | distinct accepted command addresses, broadcast included, give distinct address bytes |
| `DaliEncoding.ArcPowerAndCommandNeverCollide` | src/LW09Dali.cpp:59 | no lamp-level address byte equals any command address byte, because they differ in bit 0 |
| `DaliEncoding.ExampleFrames` | src/LW09Dali.cpp:38-92 | concrete frames: OFF to address 0 is [01 01 00], MAX to broadcast is [01 FF 05], switch 1 mode 3 address 10 is [02 00 00 03 0A], switch 0 is [02 03 0A], rejected arguments send nothing |
| `LW09Driver.FirstReady` | src/LW09Dali.cpp:46-53 | the position of the first status byte with BUSY clear: that byte is not busy and every byte before it is |
| `LW09Driver.PollsShape` | src/LW09Dali.cpp:14-21 | n status polls are 2n transactions alternating "select status register" and "read one byte", all to the bridge's address |
| `LW09Driver.LW09Dali.constructor` | src/LW09Dali.cpp:4 | the bus address is the one given; it is a constant field and cannot change afterwards |
| `LW09Driver.LW09Dali.SendCommand` | src/LW09Dali.cpp:6-12 | appends exactly one transaction [0x01, address, value] to the bridge, reads nothing, changes nothing else |
| `LW09Driver.LW09Dali.ReadStatus` | src/LW09Dali.cpp:14-21 | appends "select 0x00" and a one-byte read, consumes one input byte and returns it (0xFF when none is left) |
| `LW09Driver.LW09Dali.ReadData` | src/LW09Dali.cpp:23-30 | appends "select 0x01" and a one-byte read, consumes one input byte and returns it (0xFF when none is left) |
| `LW09Driver.LW09Dali.WaitForReady` | src/LW09Dali.cpp:46-53 | polls k + 1 times, where k is the first non-busy status byte: at least once, stopping at that byte, every earlier byte busy, and consuming exactly those bytes |
| `LW09Driver.LW09Dali.ReadQuery` | src/LW09Dali.cpp:32-36 | sends the command frame, polls until BUSY clears, then reads the data register and returns the byte after the ready status |
| `LW09Driver.LW09Dali.SetDaliAddress` | src/LW09Dali.cpp:38-44 | invalid arguments leave the transport untouched; otherwise appends exactly the address-assignment frame, polls nothing and leaves the input and receive buffer as they were |
| `LW09Driver.LW09Dali.SetLampLevel` | src/LW09Dali.cpp:55-62 | level 255 leaves the transport untouched; otherwise appends the lamp-level frame followed by the status polls of WaitForReady |
| `LW09Driver.LW09Dali.ConfigureSwitchInput` | src/LW09Dali.cpp:64-83 | invalid arguments leave the transport untouched; otherwise appends exactly the switch configuration frame, polls nothing and leaves the input and receive buffer as they were |
| `LW09Driver.LW09Dali.SendDaliCommand` | src/LW09Dali.cpp:85-92 | an address in 64..254 leaves the transport untouched; otherwise appends the command frame followed by the status polls of WaitForReady |

## Left out

- The transport's internals are not modelled: physical I²C signalling, buffer sizes, and the return codes of
  `endTransmission` and `requestFrom`, which the driver ignores. The transport is only the transaction log,
  the input stream and the two buffers.
- Real-time blocking and the timing of the busy poll are not modelled. The unbounded `while (true)` in
  `waitForReady` is modelled under a precondition: a byte with BUSY clear must eventually arrive. A bridge
  that stays busy forever, which in the source makes the call hang, falls outside the model.
- Transport failures are not modelled. They show up only as missing bytes, which read as 0xFF.
- `DALISceneCommand` has no operation that accepts it. Only its values are modelled.
- Concurrency on a shared bus is not modelled. The driver does no locking and assumes exclusive access.
- The DALI bus itself (lamp behaviour, fade times) is not modelled. Only the bytes handed to the bridge are
  observable.
