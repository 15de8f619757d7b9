/** The pure part of LW09Dali.cpp: range checks, the packing of a DALI
    address byte, and the frame each operation hands to the bridge. */
module DaliEncoding {
  import opened Basics
  import opened DaliConstants

  // The fields a DALI address byte is read back as: bit 7, bits 6..1 (the
  // short address) and bit 0 (direct arc power 0 / command 1).

  function HighBit(b: byte): byte { b >> 7 }

  function AddressBits(b: byte): byte { (b >> 1) & 0x3F }

  function SelectorBit(b: byte): byte { b & 1 }

  /** The three bytes of a command-register frame. */
  function CommandFrame(address: byte, value: byte): seq<byte> {
    [RegCommand, address, value]
  }

  /** The ranges setDALIAddress accepts; anything else is ignored. */
  predicate ValidAddressAssignment(groupBit: byte, address: byte, modeBit: byte) {
    address <= 63 && groupBit <= 1 && modeBit <= 1
  }

  /** The ranges configureSwitchInput accepts; anything else is ignored. */
  predicate ValidSwitchConfig(switchIndex: byte, mode: byte, address: byte) {
    switchIndex <= 1 && mode <= 6 && address <= 127
  }

  /** The addresses sendDALICommand accepts: a short address or broadcast. */
  predicate ValidCommandAddress(address: byte) {
    address <= 63 || address == DaliBroadcast
  }

  /** The address byte of setDALIAddress: the short address in bits 6..1,
      bit 7 clear, and group bit and mode bit both ORed into bit 0. */
  function DaliAddressByte(groupBit: byte, address: byte, modeBit: byte): (b: byte)
    requires ValidAddressAssignment(groupBit, address, modeBit)
    ensures AddressBits(b) == address
    ensures HighBit(b) == 0
    ensures SelectorBit(b) == groupBit | modeBit
  {
    (address << 1) | groupBit | modeBit
  }

  /** The address byte of setLampLevel: twice the address modulo 256, so
      bit 0 (direct arc power) is clear; the address is not range-checked. */
  function ArcPowerAddressByte(address: byte): (b: byte)
    ensures SelectorBit(b) == 0
    ensures b as int == (2 * address as int) % 256
    ensures AddressBits(b) == address & 0x3F && HighBit(b) == (address >> 6) & 1
  {
    (address << 1) | 0x00
  }

  /** The address byte of sendDALICommand: the address shifted into bits
      7..1 with bit 0 (command mode) set; broadcast stays 0xFF. */
  function CommandAddressByte(address: byte): (b: byte)
    ensures SelectorBit(b) == 1
    ensures address <= 63 ==> AddressBits(b) == address && HighBit(b) == 0
    ensures address == DaliBroadcast ==> b == 0xFF
  {
    (address << 1) | 0x01
  }

  /** The frame setDALIAddress sends, or None when it sends nothing. */
  function AddressAssignmentFrame(groupBit: byte, address: byte, modeBit: byte): (f: Option<seq<byte>>)
    ensures f.Some? <==> address <= 63 && groupBit <= 1 && modeBit <= 1
    ensures f.Some? ==>
      && |f.value| == 3 && f.value[0] == RegCommand && f.value[2] == 0
      && AddressBits(f.value[1]) == address && HighBit(f.value[1]) == 0
      && SelectorBit(f.value[1]) == groupBit | modeBit
  {
    if ValidAddressAssignment(groupBit, address, modeBit) then
      Some(CommandFrame(DaliAddressByte(groupBit, address, modeBit), 0))
    else
      None
  }

  /** The frame setLampLevel sends, or None when it sends nothing. */
  function LampLevelFrame(address: byte, level: byte): (f: Option<seq<byte>>)
    ensures f.Some? <==> level != 0xFF
    ensures f.Some? ==>
      && |f.value| == 3 && f.value[0] == RegCommand && f.value[2] == level
      && SelectorBit(f.value[1]) == 0 && f.value[1] as int == (2 * address as int) % 256
  {
    if level > 254 then None else Some(CommandFrame(ArcPowerAddressByte(address), level))
  }

  /** The configuration-register frame configureSwitchInput sends, or None
      when it sends nothing. Switch 1 is programmed with zero placeholders
      in the two bytes of switch 0. */
  function SwitchConfigFrame(switchIndex: byte, mode: byte, address: byte): (f: Option<seq<byte>>)
    ensures f.Some? <==> switchIndex <= 1 && mode <= 6 && address <= 127
    ensures f.Some? ==>
      && |f.value| == 3 + 2 * switchIndex as int && f.value[0] == RegConfig
      && f.value[|f.value| - 2] == mode && f.value[|f.value| - 1] == address
      && forall i :: 1 <= i < |f.value| - 2 ==> f.value[i] == 0
  {
    if !ValidSwitchConfig(switchIndex, mode, address) then None
    else if switchIndex == 0 then Some([RegConfig, mode, address])
    else Some([RegConfig, 0x00, 0x00, mode, address])
  }

  /** The frame sendDALICommand sends, or None when it sends nothing. */
  function DaliCommandFrame(command: DaliCommand, address: byte): (f: Option<seq<byte>>)
    ensures f.Some? <==> address <= 63 || address == DaliBroadcast
    ensures f.Some? ==>
      && |f.value| == 3 && f.value[0] == RegCommand && f.value[2] == command.Code()
      && SelectorBit(f.value[1]) == 1
      && (address <= 63 ==> AddressBits(f.value[1]) == address && HighBit(f.value[1]) == 0)
      && (address == DaliBroadcast ==> f.value[1] == 0xFF)
  {
    if !ValidCommandAddress(address) then None
    else Some(CommandFrame(CommandAddressByte(address), command.Code()))
  }

  /** setDALIAddress cannot tell its group bit from its mode bit: both land
      in bit 0, so (1, a, 0) and (0, a, 1) produce the same byte, and
      (1, a, 1) the same byte again. */
  lemma GroupAndModeBitsAlias(address: byte)
    requires address <= 63
    ensures DaliAddressByte(1, address, 0) == DaliAddressByte(0, address, 1)
    ensures DaliAddressByte(1, address, 1) == DaliAddressByte(0, address, 1)
    ensures DaliAddressByte(0, address, 0) != DaliAddressByte(0, address, 1)
  {
  }

  /** Apart from that shared bit, distinct assignments give distinct bytes. */
  lemma AddressAssignmentInjective(g1: byte, a1: byte, m1: byte, g2: byte, a2: byte, m2: byte)
    requires ValidAddressAssignment(g1, a1, m1) && ValidAddressAssignment(g2, a2, m2)
    ensures DaliAddressByte(g1, a1, m1) == DaliAddressByte(g2, a2, m2)
            <==> a1 == a2 && g1 | m1 == g2 | m2
  {
  }

  /** setLampLevel does not reject addresses above 63: from 64 on the byte
      leaves the short-address form (bit 7 set), and from 128 on it wraps
      onto the byte of address - 128. */
  lemma ArcPowerAddressWraps(address: byte)
    ensures 64 <= address <= 127 ==> HighBit(ArcPowerAddressByte(address)) == 1
    ensures address >= 128 ==> ArcPowerAddressByte(address) == ArcPowerAddressByte(address - 128)
    ensures ArcPowerAddressByte(DaliBroadcast) == ArcPowerAddressByte(0x7F) == 0xFE
  {
  }

  /** Every address sendDALICommand accepts gets its own address byte. */
  lemma CommandAddressInjective(a1: byte, a2: byte)
    requires ValidCommandAddress(a1) && ValidCommandAddress(a2)
    ensures CommandAddressByte(a1) == CommandAddressByte(a2) <==> a1 == a2
  {
  }

  /** A lamp-level byte and a command byte always differ in bit 0, so the
      bridge can always tell the two kinds of frame apart. */
  lemma ArcPowerAndCommandNeverCollide(a1: byte, a2: byte)
    ensures ArcPowerAddressByte(a1) != CommandAddressByte(a2)
  {
  }

  /** Frames worked out for particular arguments. */
  lemma ExampleFrames()
    ensures DaliCommandFrame(Off, 0) == Some([0x01, 0x01, 0x00])
    ensures DaliCommandFrame(Max, DaliBroadcast) == Some([0x01, 0xFF, 0x05])
    ensures DaliCommandFrame(Max, 64) == None
    ensures SwitchConfigFrame(1, 3, 10) == Some([0x02, 0x00, 0x00, 0x03, 0x0A])
    ensures SwitchConfigFrame(0, 3, 10) == Some([0x02, 0x03, 0x0A])
    ensures SwitchConfigFrame(2, 3, 10) == None
    ensures LampLevelFrame(200, 10) == Some([0x01, 0x90, 0x0A])
    ensures LampLevelFrame(5, 0xFF) == None
    ensures AddressAssignmentFrame(1, 5, 0) == Some([0x01, 0x0B, 0x00])
  {
  }
}
