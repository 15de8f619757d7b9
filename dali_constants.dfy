/** The values declared in LW09Dali.h: the DALI command codes, the scene
    codes, and the register, status and broadcast constants of the bridge. */
module DaliConstants {
  import opened Basics

  /** The direct control commands the driver can send (enum DALICommand). */
  datatype DaliCommand = Off | Up | Down | StepUp | StepDown | Max | Min | StepDownOff | OnStepUp
  {
    /** The byte value of the enumerator, as the driver casts it onto the bus. */
    function Code(): byte {
      match this
      case Off => 0x00
      case Up => 0x01
      case Down => 0x02
      case StepUp => 0x03
      case StepDown => 0x04
      case Max => 0x05
      case Min => 0x06
      case StepDownOff => 0x07
      case OnStepUp => 0x08
    }
  }

  /** Every command, in declaration order. */
  const AllCommands: seq<DaliCommand> :=
    [Off, Up, Down, StepUp, StepDown, Max, Min, StepDownOff, OnStepUp]

  /** The command codes are the nine consecutive values 0x00 to 0x08, in
      declaration order, and no two commands share a code. */
  lemma CommandCodesConsecutive()
    ensures |AllCommands| == 9
    ensures forall c: DaliCommand :: c in AllCommands
    ensures forall i :: 0 <= i < |AllCommands| ==> AllCommands[i].Code() == i as byte
    ensures forall c: DaliCommand :: c.Code() <= 0x08
    ensures forall c: DaliCommand, d: DaliCommand :: c.Code() == d.Code() ==> c == d
  {
    forall c: DaliCommand ensures c in AllCommands {
      assert AllCommands[c.Code() as int] == c;
    }
  }

  /** The scene recall codes SCENE_0 … SCENE_15 (enum DALISceneCommand). */
  const SceneCodes: seq<byte> :=
    [0x10, 0x11, 0x12, 0x13, 0x14, 0x15, 0x16, 0x17,
     0x18, 0x19, 0x1A, 0x1B, 0x1C, 0x1D, 0x1E, 0x1F]

  type SceneNumber = n: nat | n < 16

  /** The code of SCENE_n. */
  function SceneCode(n: SceneNumber): byte {
    SceneCodes[n]
  }

  /** SCENE_n is 0x10 + n, so the scene codes are distinct, lie in
      0x10..0x1F and never coincide with a command code. */
  lemma SceneCodesAreOffsets()
    ensures forall n: SceneNumber :: SceneCode(n) as int == 0x10 + n
    ensures forall n: SceneNumber :: 0x10 <= SceneCode(n) <= 0x1F
    ensures forall m: SceneNumber, n: SceneNumber :: SceneCode(m) == SceneCode(n) ==> m == n
    ensures forall n: SceneNumber, c: DaliCommand :: SceneCode(n) != c.Code()
  {
    forall n: SceneNumber ensures SceneCode(n) as int == 0x10 + n {
      SceneCodeAt(n);
    }
  }

  /** The table entry of SCENE_n is 0x10 + n. */
  lemma SceneCodeAt(n: SceneNumber)
    ensures SceneCode(n) as int == 0x10 + n
  {
    if n < 8 {
      assert SceneCodes[..8] == [0x10, 0x11, 0x12, 0x13, 0x14, 0x15, 0x16, 0x17];
      assert SceneCode(n) == SceneCodes[..8][n];
    } else {
      assert SceneCodes[8..] == [0x18, 0x19, 0x1A, 0x1B, 0x1C, 0x1D, 0x1E, 0x1F];
      assert SceneCode(n) == SceneCodes[8..][n - 8];
    }
  }

  /** Register selectors: the first byte of every frame written to the bridge. */
  const RegStatus: byte := 0x00
  const RegCommand: byte := 0x01
  const RegConfig: byte := 0x02

  /** The BUSY flag of the status register. */
  const StatusBusy: byte := 0x40

  /** The DALI address that reaches every device on the bus. */
  const DaliBroadcast: byte := 0xFF

  /** The bridge reports that it is still working on the last frame. */
  predicate IsBusy(status: byte) {
    status & StatusBusy != 0
  }

  /** The three register selectors are distinct. */
  lemma RegistersDistinct()
    ensures RegStatus != RegCommand && RegCommand != RegConfig && RegStatus != RegConfig
    ensures RegStatus == 0x00 && RegCommand == 0x01 && RegConfig == 0x02
  {
  }

  /** BUSY is the single bit 6 of the status byte: a status is busy exactly
      when that bit is set, whatever the other bits hold. */
  lemma BusyIsBitSix()
    ensures StatusBusy == 1 << 6
    ensures forall s: byte :: IsBusy(s) <==> (s >> 6) & 1 == 1
  {
  }

  /** The broadcast address is not a short address. */
  lemma BroadcastOutsideShortRange()
    ensures DaliBroadcast == 0xFF && DaliBroadcast > 63
  {
  }
}
