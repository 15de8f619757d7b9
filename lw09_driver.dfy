/** The LW09 driver object (LW09Dali.cpp): every operation as the sequence
    of transactions it puts on the bus and the status bytes it consumes. */
module LW09Driver {
  import opened Basics
  import opened DaliConstants
  import opened DaliEncoding
  import opened Wire

  /** The byte a one-byte read returns: the next input byte, or 0xFF (the
      -1 of an empty receive buffer, narrowed to uint8_t) when none is left. */
  function NextByte(s: seq<byte>): byte {
    if s == [] then 0xFF else s[0]
  }

  /** What is left of the input after a one-byte read. */
  function AfterRead(s: seq<byte>): seq<byte> {
    if s == [] then [] else s[1..]
  }

  /** The transactions of selecting register `reg` and reading one byte. */
  function RegisterRead(target: byte, reg: byte): seq<Transaction> {
    [Transmit(target, [reg]), Request(target, 1)]
  }

  /** The transactions of `n` status polls. */
  function Polls(target: byte, n: nat): seq<Transaction> {
    if n == 0 then [] else Polls(target, n - 1) + RegisterRead(target, RegStatus)
  }

  /** Some byte still to come has the BUSY bit clear. */
  predicate ReadyAhead(s: seq<byte>) {
    exists i :: 0 <= i < |s| && !IsBusy(s[i])
  }

  /** The position of the first status byte with BUSY clear. */
  function FirstReady(s: seq<byte>): (k: nat)
    requires ReadyAhead(s)
    ensures k < |s| && !IsBusy(s[k])
    ensures forall j :: 0 <= j < k ==> IsBusy(s[j])
  {
    if !IsBusy(s[0]) then 0
    else
      var i :| 0 <= i < |s| && !IsBusy(s[i]);
      assert 1 <= i && s[1..][i - 1] == s[i];
      1 + FirstReady(s[1..])
  }

  /** `n` polls are 2n transactions, alternately selecting the status
      register and reading one byte, all addressed to `target`. */
  lemma {:induction false} PollsShape(target: byte, n: nat)
    ensures |Polls(target, n)| == 2 * n
    ensures forall i :: 0 <= i < n ==>
      Polls(target, n)[2 * i] == Transmit(target, [RegStatus]) &&
      Polls(target, n)[2 * i + 1] == Request(target, 1)
  {
    if n > 0 {
      PollsShape(target, n - 1);
    }
  }

  class LW09Dali {
    /** The bridge's bus address, fixed for the life of the object. */
    const i2cAddress: byte
    const wire: TwoWire

    constructor (i2cAddress: byte, wire: TwoWire)
      ensures this.i2cAddress == i2cAddress && this.wire == wire
    {
      this.i2cAddress := i2cAddress;
      this.wire := wire;
    }

    /** Writes the frame [RegCommand, address, value] as one transaction. */
    method SendCommand(address: byte, value: byte)
      modifies wire
      ensures wire.log == old(wire.log) + [Transmit(i2cAddress, CommandFrame(address, value))]
      ensures wire.input == old(wire.input) && wire.rxBuffer == old(wire.rxBuffer)
      ensures wire.txTarget == i2cAddress && wire.txBuffer == []
    {
      wire.BeginTransmission(i2cAddress);
      wire.Write(RegCommand);
      wire.Write(address);
      wire.Write(value);
      assert wire.txBuffer == CommandFrame(address, value);
      wire.EndTransmission();
    }

    /** Selects the status register and reads one byte of it. */
    method ReadStatus() returns (status: byte)
      modifies wire
      ensures wire.log == old(wire.log) + RegisterRead(i2cAddress, RegStatus)
      ensures status == NextByte(old(wire.input)) && wire.input == AfterRead(old(wire.input))
      ensures wire.txTarget == i2cAddress && wire.txBuffer == [] && wire.rxBuffer == []
    {
      wire.BeginTransmission(i2cAddress);
      wire.Write(RegStatus);
      assert wire.txBuffer == [RegStatus];
      wire.EndTransmission();
      wire.RequestFrom(i2cAddress, 1);
      var r := wire.Read();
      status := ToByte(r);
    }

    /** Selects the command register and reads one byte: the answer to the
        last query. */
    method ReadData() returns (data: byte)
      modifies wire
      ensures wire.log == old(wire.log) + RegisterRead(i2cAddress, RegCommand)
      ensures data == NextByte(old(wire.input)) && wire.input == AfterRead(old(wire.input))
      ensures wire.txTarget == i2cAddress && wire.txBuffer == [] && wire.rxBuffer == []
    {
      wire.BeginTransmission(i2cAddress);
      wire.Write(RegCommand);
      assert wire.txBuffer == [RegCommand];
      wire.EndTransmission();
      wire.RequestFrom(i2cAddress, 1);
      var r := wire.Read();
      data := ToByte(r);
    }

    /** Polls the status register until a status arrives with BUSY clear:
        at least one poll, one per status byte up to and including the
        first non-busy one, every earlier one busy. */
    method WaitForReady()
      requires ReadyAhead(wire.input)
      modifies wire
      ensures var k := FirstReady(old(wire.input));
        && wire.log == old(wire.log) + Polls(i2cAddress, k + 1)
        && wire.input == old(wire.input)[k + 1..]
        && !IsBusy(old(wire.input)[k])
        && (forall j :: 0 <= j < k ==> IsBusy(old(wire.input)[j]))
      ensures wire.txTarget == i2cAddress && wire.txBuffer == [] && wire.rxBuffer == []
    {
      ghost var s := wire.input;
      ghost var k := FirstReady(s);
      ghost var n := 0;
      while true
        invariant n <= k
        invariant wire.input == s[n..]
        invariant wire.log == old(wire.log) + Polls(i2cAddress, n)
        decreases k - n
      {
        var status := ReadStatus();
        n := n + 1;
        if status & StatusBusy == 0 {
          break;
        }
      }
    }

    /** Sends a query frame, waits for the bridge, and reads its answer. */
    method ReadQuery(address: byte, value: byte) returns (answer: byte)
      requires ReadyAhead(wire.input)
      modifies wire
      ensures var k := FirstReady(old(wire.input)); var rest := old(wire.input)[k + 1..];
        && wire.log == old(wire.log) + [Transmit(i2cAddress, CommandFrame(address, value))]
                       + Polls(i2cAddress, k + 1) + RegisterRead(i2cAddress, RegCommand)
        && answer == NextByte(rest) && wire.input == AfterRead(rest)
    {
      SendCommand(address, value);
      WaitForReady();
      answer := ReadData();
    }

    /** Assigns a DALI address; out-of-range arguments leave the bus alone.
        No status poll follows. */
    method SetDaliAddress(groupBit: byte, address: byte, modeBit: byte)
      modifies wire
      ensures AddressAssignmentFrame(groupBit, address, modeBit).None? ==> unchanged(wire)
      ensures AddressAssignmentFrame(groupBit, address, modeBit).Some? ==>
        && wire.log == old(wire.log) + [Transmit(i2cAddress, AddressAssignmentFrame(groupBit, address, modeBit).value)]
        && wire.input == old(wire.input) && wire.rxBuffer == old(wire.rxBuffer)
        && wire.txTarget == i2cAddress && wire.txBuffer == []
    {
      if address > 63 || groupBit > 1 || modeBit > 1 {
        return;
      }
      var daliAddress := DaliAddressByte(groupBit, address, modeBit);
      SendCommand(daliAddress, 0);
    }

    /** Sets a lamp's arc power level and waits until the bridge is done;
        level 255 leaves the bus alone. */
    method SetLampLevel(address: byte, level: byte)
      requires level <= 254 ==> ReadyAhead(wire.input)
      modifies wire
      ensures LampLevelFrame(address, level).None? ==> unchanged(wire)
      ensures LampLevelFrame(address, level).Some? ==>
        var k := FirstReady(old(wire.input));
        && wire.log == old(wire.log) + [Transmit(i2cAddress, LampLevelFrame(address, level).value)]
                       + Polls(i2cAddress, k + 1)
        && wire.input == old(wire.input)[k + 1..]
    {
      if level > 254 {
        return;
      }
      var daliAddress := ArcPowerAddressByte(address);
      SendCommand(daliAddress, level);
      WaitForReady();
    }

    /** Programs the mode and address of one switch input; out-of-range
        arguments leave the bus alone. No status poll follows. */
    method ConfigureSwitchInput(switchIndex: byte, mode: byte, address: byte)
      modifies wire
      ensures SwitchConfigFrame(switchIndex, mode, address).None? ==> unchanged(wire)
      ensures SwitchConfigFrame(switchIndex, mode, address).Some? ==>
        && wire.log == old(wire.log) + [Transmit(i2cAddress, SwitchConfigFrame(switchIndex, mode, address).value)]
        && wire.input == old(wire.input) && wire.rxBuffer == old(wire.rxBuffer)
        && wire.txTarget == i2cAddress && wire.txBuffer == []
    {
      if switchIndex > 1 || mode > 6 || address > 127 {
        return;
      }
      wire.BeginTransmission(i2cAddress);
      wire.Write(RegConfig);
      if switchIndex == 0 {
        wire.Write(mode);
        wire.Write(address);
        assert wire.txBuffer == [RegConfig, mode, address];
      } else {
        wire.Write(0x00);
        wire.Write(0x00);
        wire.Write(mode);
        wire.Write(address);
        assert wire.txBuffer == [RegConfig, 0x00, 0x00, mode, address];
      }
      wire.EndTransmission();
    }

    /** Sends a standard DALI command to a short address or to broadcast and
        waits until the bridge is done; other addresses leave the bus alone. */
    method SendDaliCommand(command: DaliCommand, address: byte)
      requires ValidCommandAddress(address) ==> ReadyAhead(wire.input)
      modifies wire
      ensures DaliCommandFrame(command, address).None? ==> unchanged(wire)
      ensures DaliCommandFrame(command, address).Some? ==>
        var k := FirstReady(old(wire.input));
        && wire.log == old(wire.log) + [Transmit(i2cAddress, DaliCommandFrame(command, address).value)]
                       + Polls(i2cAddress, k + 1)
        && wire.input == old(wire.input)[k + 1..]
    {
      if address > 63 && address != DaliBroadcast {
        return;
      }
      var daliAddress := CommandAddressByte(address);
      SendCommand(daliAddress, command.Code());
      WaitForReady();
    }
  }
}
