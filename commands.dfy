/**
  The SSD1327 command set and its wire encoding over I2C.

  Every command is sent as one I2C write whose first byte is the command
  control byte 0x80, followed by the register opcode and the command's
  operand bytes.
 */
module Commands {
  import opened Bytes

  /** Control byte that marks a command write. */
  const CommandControl: byte := 0x80

  /** The commands the driver can send, with their caller-supplied parameters. */
  datatype Command =
    | ColumnAddress(start: byte, end: byte)
    | RowAddress(start: byte, end: byte)
    | ContrastControl(value: byte)
    | Remap(value: byte)
    | DisplayStartLine(value: byte)
    | DisplayOffset(value: byte)
    | DisplayModeNormal
    | DisplayModeAllON
    | DisplayModeAllOFF
    | DisplayModeInverseDisplay
    | MUXRatio(value: byte)
    | FunctionSelectionA(value: byte)
    | SelectExternalVDD
    | SelectInternalVDD
    | DisplayON
    | DisplayOFF
    | PhaseLength(value: byte)
    | FrontClockDividerOscillatorFrequency(value: byte)
    | GPIO(value: byte)
    | SecondPreChargePeriod(value: byte)
    | LinearLUT
    | PreChargeVoltage(value: byte)
    | VCOMH(value: byte)
    | FunctionSelectionB(value: byte)
    | SetCommandLock(value: byte)
    | CommandUnlock
    | CommandLock

  /**
    The fixed 4-byte buffer and the number of its bytes that are sent,
    as the encoder builds them. Bytes past the length are zero padding.
   */
  function CommandArray(c: Command): (r: (seq<byte>, nat))
    ensures |r.0| == 4 && 2 <= r.1 <= 4
    ensures r.0[0] == CommandControl
    ensures forall i | r.1 <= i < 4 :: r.0[i] == 0
  {
    match c
    case ColumnAddress(start, end) => ([0x80, 0x15, start, end], 4)
    case RowAddress(start, end) => ([0x80, 0x75, start, end], 4)
    case ContrastControl(value) => ([0x80, 0x81, value, 0], 3)
    case Remap(value) => ([0x80, 0xA0, value, 0], 3)
    case DisplayStartLine(value) => ([0x80, 0xA1, value, 0], 3)
    case DisplayOffset(value) => ([0x80, 0xA2, value, 0], 3)
    case DisplayModeNormal => ([0x80, 0xA4, 0, 0], 2)
    case DisplayModeAllON => ([0x80, 0xA5, 0, 0], 2)
    case DisplayModeAllOFF => ([0x80, 0xA6, 0, 0], 2)
    case DisplayModeInverseDisplay => ([0x80, 0xA7, 0, 0], 2)
    case MUXRatio(value) => ([0x80, 0xA8, value, 0], 3)
    case FunctionSelectionA(value) => ([0x80, 0xAB, value, 0], 3)
    case SelectExternalVDD => ([0x80, 0xAB, 0x00, 0], 3)
    case SelectInternalVDD => ([0x80, 0xAB, 0x01, 0], 3)
    case DisplayON => ([0x80, 0xAF, 0, 0], 2)
    case DisplayOFF => ([0x80, 0xAE, 0, 0], 2)
    case PhaseLength(value) => ([0x80, 0xB1, value, 0], 3)
    case FrontClockDividerOscillatorFrequency(value) => ([0x80, 0xB3, value, 0], 3)
    case GPIO(value) => ([0x80, 0xB5, value, 0], 3)
    case SecondPreChargePeriod(value) => ([0x80, 0xB6, value, 0], 3)
    case LinearLUT => ([0x80, 0xB9, 0, 0], 2)
    case PreChargeVoltage(value) => ([0x80, 0xBC, value, 0], 3)
    case VCOMH(value) => ([0x80, 0xBE, value, 0], 3)
    case FunctionSelectionB(value) => ([0x80, 0xD5, value, 0], 3)
    case SetCommandLock(value) => ([0x80, 0xFD, value, 0], 3)
    case CommandUnlock => ([0x80, 0xFD, 0x80, 0x12], 4)
    case CommandLock => ([0x80, 0xFD, 0x80, 0x16], 4)
  }

  /** The bytes actually written for a command: the used prefix of its buffer. */
  function Encode(c: Command): (frame: seq<byte>)
    ensures 2 <= |frame| <= 4
    ensures frame[0] == CommandControl
  {
    var (data, len) := CommandArray(c);
    data[..len]
  }

  /** Exactly the first `len` bytes of the buffer are sent; the rest is zero padding. */
  lemma NoPaddingEmitted(c: Command)
    ensures |Encode(c)| == CommandArray(c).1
    ensures CommandArray(c).0 == Encode(c) + seq(4 - |Encode(c)|, _ => 0)
  {
  }

  /** The parameters the caller put into a command, in declaration order. */
  function Params(c: Command): (ps: seq<byte>)
    ensures |ps| <= 2
  {
    match c
    case ColumnAddress(start, end) => [start, end]
    case RowAddress(start, end) => [start, end]
    case ContrastControl(value) => [value]
    case Remap(value) => [value]
    case DisplayStartLine(value) => [value]
    case DisplayOffset(value) => [value]
    case MUXRatio(value) => [value]
    case FunctionSelectionA(value) => [value]
    case PhaseLength(value) => [value]
    case FrontClockDividerOscillatorFrequency(value) => [value]
    case GPIO(value) => [value]
    case SecondPreChargePeriod(value) => [value]
    case PreChargeVoltage(value) => [value]
    case VCOMH(value) => [value]
    case FunctionSelectionB(value) => [value]
    case SetCommandLock(value) => [value]
    case _ => []
  }

  /** A command with parameters is sent as control byte, opcode, then its parameters unchanged. */
  lemma ParametersPassThrough(c: Command)
    requires Params(c) != []
    ensures Encode(c) == [CommandControl, Encode(c)[1]] + Params(c)
  {
  }

  /** Commands with neither parameters nor fixed operands are sent as control byte and opcode alone. */
  predicate IsBare(c: Command) {
    c.DisplayModeNormal? || c.DisplayModeAllON? || c.DisplayModeAllOFF? ||
    c.DisplayModeInverseDisplay? || c.DisplayON? || c.DisplayOFF? || c.LinearLUT?
  }

  lemma BareCommandFrames(c: Command)
    ensures IsBare(c) <==> |Encode(c)| == 2
    ensures IsBare(c) ==> Encode(c)[1] in {0xA4, 0xA5, 0xA6, 0xA7, 0xAF, 0xAE, 0xB9}
  {
  }

  /** Whether a command is one of the two VDD selections, which have no register of their own. */
  predicate IsVddShorthand(c: Command) {
    c.SelectExternalVDD? || c.SelectInternalVDD?
  }

  /** A command with each VDD selection replaced by the Function Selection A it stands for. */
  function Canonical(c: Command): (d: Command)
    ensures !IsVddShorthand(d)
    ensures !IsVddShorthand(c) ==> d == c
  {
    match c
    case SelectExternalVDD => FunctionSelectionA(0x00)
    case SelectInternalVDD => FunctionSelectionA(0x01)
    case _ => c
  }

  /** The VDD selections are written exactly as Function Selection A with operand 0x00 or 0x01. */
  lemma VddShorthands(c: Command)
    ensures Encode(Canonical(c)) == Encode(c)
    ensures Encode(SelectExternalVDD) == Encode(FunctionSelectionA(0x00))
    ensures Encode(SelectInternalVDD) == Encode(FunctionSelectionA(0x01))
  {
  }

  /** The lock commands carry a second command control byte before their operand. */
  lemma LockFrames()
    ensures Encode(CommandUnlock) == [CommandControl, 0xFD, CommandControl, 0x12]
    ensures Encode(CommandLock) == [CommandControl, 0xFD, CommandControl, 0x16]
    ensures Encode(CommandUnlock) != Encode(SetCommandLock(0x12))
  {
  }

  /**
    The command the driver's opcode table assigns to a frame: the opcodes
    are those the commands are documented with, and the lock frames are
    laid out as the encoder writes them. This is the reverse of the encoder.
   */
  function Decode(frame: seq<byte>): (r: Option<Command>)
    ensures r.Some? ==> !IsVddShorthand(r.value)
  {
    if |frame| < 2 || frame[0] != CommandControl then None
    else if |frame| == 2 then DecodeBare(frame[1])
    else if |frame| == 3 then DecodeValue(frame[1], frame[2])
    else if |frame| == 4 then DecodePair(frame[1], frame[2], frame[3])
    else None
  }

  function DecodeBare(opcode: byte): Option<Command> {
    match opcode
    case 0xA4 => Some(DisplayModeNormal)
    case 0xA5 => Some(DisplayModeAllON)
    case 0xA6 => Some(DisplayModeAllOFF)
    case 0xA7 => Some(DisplayModeInverseDisplay)
    case 0xAF => Some(DisplayON)
    case 0xAE => Some(DisplayOFF)
    case 0xB9 => Some(LinearLUT)
    case _ => None
  }

  function DecodeValue(opcode: byte, value: byte): Option<Command> {
    match opcode
    case 0x81 => Some(ContrastControl(value))
    case 0xA0 => Some(Remap(value))
    case 0xA1 => Some(DisplayStartLine(value))
    case 0xA2 => Some(DisplayOffset(value))
    case 0xA8 => Some(MUXRatio(value))
    case 0xAB => Some(FunctionSelectionA(value))
    case 0xB1 => Some(PhaseLength(value))
    case 0xB3 => Some(FrontClockDividerOscillatorFrequency(value))
    case 0xB5 => Some(GPIO(value))
    case 0xB6 => Some(SecondPreChargePeriod(value))
    case 0xBC => Some(PreChargeVoltage(value))
    case 0xBE => Some(VCOMH(value))
    case 0xD5 => Some(FunctionSelectionB(value))
    case 0xFD => Some(SetCommandLock(value))
    case _ => None
  }

  function DecodePair(opcode: byte, a: byte, b: byte): Option<Command> {
    match opcode
    case 0x15 => Some(ColumnAddress(a, b))
    case 0x75 => Some(RowAddress(a, b))
    case 0xFD =>
      if a == 0x80 && b == 0x12 then Some(CommandUnlock)
      else if a == 0x80 && b == 0x16 then Some(CommandLock)
      else None
    case _ => None
  }

  /** The commands written as four bytes. */
  predicate IsWide(c: Command) {
    c.ColumnAddress? || c.RowAddress? || c.CommandUnlock? || c.CommandLock?
  }

  /** Decoding an encoded command gives the command back, up to the VDD shorthands. */
  lemma DecodeEncode(c: Command)
    ensures Decode(Encode(c)) == Some(Canonical(c))
  {
    if IsBare(c) {
      DecodeEncodeBare(c);
    } else if IsWide(c) {
      DecodeEncodeWide(c);
    } else {
      DecodeEncodeValue(c);
    }
  }

  /** `DecodeEncode` for the two-byte commands. */
  lemma DecodeEncodeBare(c: Command)
    requires IsBare(c)
    ensures Decode(Encode(c)) == Some(c)
  {
  }

  /** `DecodeEncode` for the four-byte commands. */
  lemma DecodeEncodeWide(c: Command)
    requires IsWide(c)
    ensures Decode(Encode(c)) == Some(c)
  {
  }

  /** `DecodeEncode` for the three-byte commands. */
  lemma DecodeEncodeValue(c: Command)
    requires !IsBare(c) && !IsWide(c)
    ensures Decode(Encode(c)) == Some(Canonical(c))
  {
  }

  /** Every frame the decoder accepts is exactly the encoding of what it returns. */
  lemma EncodeDecode(frame: seq<byte>, c: Command)
    requires Decode(frame) == Some(c)
    ensures Encode(c) == frame
  {
  }

  /** Two commands put the same bytes on the bus exactly when they agree up to the VDD shorthands. */
  lemma EncodeInjective(c: Command, d: Command)
    ensures Encode(c) == Encode(d) <==> Canonical(c) == Canonical(d)
  {
    DecodeEncode(c);
    DecodeEncode(d);
    VddShorthands(c);
    VddShorthands(d);
  }
}
