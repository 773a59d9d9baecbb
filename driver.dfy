/**
  The SSD1327 I2C driver object: the bus it owns, the slave address and the
  configured width and height, and the operations that write to the bus.
 */
module Driver {
  import opened Bytes
  import opened Commands
  import opened Framing
  import opened I2c

  /** The slave address used when none is given. */
  const DefaultAddress: byte := 0x3C

  /** The width and height used when none are given. */
  const DefaultExtent: byte := 0x7F

  /** The commands `Init` sends, in order. */
  function InitScript(width: byte, height: byte): (script: seq<Command>)
    ensures |script| == 19
  {
    [ DisplayOFF,
      ColumnAddress(0x00, width),
      RowAddress(0x00, height),
      ContrastControl(0x80),
      Remap(0x51),
      DisplayStartLine(0x00),
      DisplayOffset(0x00),
      DisplayModeNormal,
      MUXRatio(0x7F),
      PhaseLength(0x11),
      LinearLUT,
      FrontClockDividerOscillatorFrequency(0x01),
      SelectInternalVDD,
      SecondPreChargePeriod(0x04),
      VCOMH(0x0F),
      PreChargeVoltage(0x08),
      FunctionSelectionB(0x62),
      CommandUnlock,
      DisplayON ]
  }

  /** The bus transactions that sending `cmds` one by one to `address` produces. */
  function CommandWrites(address: byte, cmds: seq<Command>): (t: seq<Transaction>)
    ensures |t| == |cmds|
    ensures forall i | 0 <= i < |t| :: t[i] == Transaction(address, Encode(cmds[i]))
  {
    if cmds == [] then []
    else [Transaction(address, Encode(cmds[0]))] + CommandWrites(address, cmds[1..])
  }

  class Ssd1327I2c {
    const i2c: Bus
    const slaveAddress: byte
    const width: byte
    const height: byte

    /** A driver with the given slave address, width and height. */
    constructor NewAddWh(i2c: Bus, slaveAddress: byte, width: byte, height: byte)
      ensures this.i2c == i2c && this.slaveAddress == slaveAddress
      ensures this.width == width && this.height == height
      ensures i2c.trace == old(i2c.trace) && i2c.replies == old(i2c.replies)
    {
      this.i2c := i2c;
      this.slaveAddress := slaveAddress;
      this.width := width;
      this.height := height;
    }

    /** A driver with the given slave address and the default width and height. */
    constructor NewAdd(i2c: Bus, slaveAddress: byte)
      ensures this.i2c == i2c && this.slaveAddress == slaveAddress
      ensures width == DefaultExtent && height == DefaultExtent
      ensures i2c.trace == old(i2c.trace) && i2c.replies == old(i2c.replies)
    {
      this.i2c := i2c;
      this.slaveAddress := slaveAddress;
      width, height := DefaultExtent, DefaultExtent;
    }

    /** A driver with the default slave address and the given width and height. */
    constructor NewWh(i2c: Bus, width: byte, height: byte)
      ensures this.i2c == i2c && slaveAddress == DefaultAddress
      ensures this.width == width && this.height == height
      ensures i2c.trace == old(i2c.trace) && i2c.replies == old(i2c.replies)
    {
      this.i2c := i2c;
      slaveAddress := DefaultAddress;
      this.width := width;
      this.height := height;
    }

    /** A driver with the default slave address, width and height. */
    constructor New(i2c: Bus)
      ensures this.i2c == i2c && slaveAddress == DefaultAddress
      ensures width == DefaultExtent && height == DefaultExtent
      ensures i2c.trace == old(i2c.trace) && i2c.replies == old(i2c.replies)
    {
      this.i2c := i2c;
      slaveAddress := DefaultAddress;
      width, height := DefaultExtent, DefaultExtent;
    }

    /** Sends the commands of the init script; every reply is discarded. */
    method Init()
      modifies i2c
      ensures i2c.trace == old(i2c.trace) + CommandWrites(slaveAddress, InitScript(width, height))
      ensures |i2c.replies| == |old(i2c.replies)| + 19
      ensures old(i2c.replies) <= i2c.replies
    {
      ghost var before := i2c.trace;
      var _ := SendCmd(DisplayOFF);
      var _ := SendCmd(ColumnAddress(0x00, width));
      var _ := SendCmd(RowAddress(0x00, height));
      var _ := SendCmd(ContrastControl(0x80));
      var _ := SendCmd(Remap(0x51));
      var _ := SendCmd(DisplayStartLine(0x00));
      var _ := SendCmd(DisplayOffset(0x00));
      var _ := SendCmd(DisplayModeNormal);
      var _ := SendCmd(MUXRatio(0x7F));
      var _ := SendCmd(PhaseLength(0x11));
      var _ := SendCmd(LinearLUT);
      var _ := SendCmd(FrontClockDividerOscillatorFrequency(0x01));
      var _ := SendCmd(SelectInternalVDD);
      var _ := SendCmd(SecondPreChargePeriod(0x04));
      var _ := SendCmd(VCOMH(0x0F));
      var _ := SendCmd(PreChargeVoltage(0x08));
      var _ := SendCmd(FunctionSelectionB(0x62));
      var _ := SendCmd(CommandUnlock);
      var _ := SendCmd(DisplayON);
      SplitIntoSingletons(before, CommandWrites(slaveAddress, InitScript(width, height)));
    }

    /** One write of `bytes` to the slave address; the bus's reply is returned as is. */
    method SendBytes(bytes: seq<byte>) returns (r: WriteResult)
      modifies i2c
      ensures i2c.trace == old(i2c.trace) + [Transaction(slaveAddress, bytes)]
      ensures i2c.replies == old(i2c.replies) + [r]
    {
      r := i2c.Write(slaveAddress, bytes);
    }

    /** Sends one command as a single write of its encoding. */
    method SendCmd(cmd: Command) returns (r: WriteResult)
      modifies i2c
      ensures i2c.trace == old(i2c.trace) + [Transaction(slaveAddress, Encode(cmd))]
      ensures i2c.replies == old(i2c.replies) + [r]
    {
      var (data, len) := CommandArray(cmd);
      r := SendBytes(data[..len]);
    }

    /** Sends eight bytes of display data as a single write. */
    method SendData(data: Block) returns (r: WriteResult)
      modifies i2c
      ensures i2c.trace == old(i2c.trace) + [Transaction(slaveAddress, DataFrame(data))]
      ensures i2c.replies == old(i2c.replies) + [r]
    {
      var (frame, len) := (
        [DataControl, data[0], data[1], data[2], data[3], data[4], data[5], data[6], data[7]],
        9);
      assert frame[..len] == DataFrame(data);
      r := SendBytes(frame[..len]);
    }
  }

  /**
    What `Init` puts on the bus: nineteen command writes to the slave address,
    display off first, the column and row windows ending at the stored width
    and height, the unlock command eighteenth and display on last.
   */
  lemma InitTraceShape(address: byte, width: byte, height: byte)
    ensures var t := CommandWrites(address, InitScript(width, height));
      |t| == 19 &&
      (forall i | 0 <= i < 19 :: t[i].address == address && t[i].bytes[0] == CommandControl) &&
      t[0].bytes == [CommandControl, 0xAE] &&
      t[1].bytes == [CommandControl, 0x15, 0x00, width] &&
      t[2].bytes == [CommandControl, 0x75, 0x00, height] &&
      t[17].bytes == [CommandControl, 0xFD, CommandControl, 0x12] &&
      t[18].bytes == [CommandControl, 0xAF]
  {
  }

  /** No write of `Init` before the eighteenth carries the unlock command. */
  lemma InitUnlocksLate(address: byte, width: byte, height: byte)
    ensures var t := CommandWrites(address, InitScript(width, height));
      forall i | 0 <= i < 17 :: t[i].bytes != Encode(CommandUnlock)
  {
    InitTraceDecodes(address, width, height);
    DecodeEncode(CommandUnlock);
  }

  /**
    Each write of `Init`, read back through the driver's own opcode table,
    gives the scripted command, up to the VDD shorthand.
   */
  lemma InitTraceDecodes(address: byte, width: byte, height: byte)
    ensures var script := InitScript(width, height);
      var t := CommandWrites(address, script);
      forall i | 0 <= i < |t| :: Decode(t[i].bytes) == Some(Canonical(script[i]))
  {
    var script := InitScript(width, height);
    forall i | 0 <= i < |script|
      ensures Decode(Encode(script[i])) == Some(Canonical(script[i]))
    {
      DecodeEncode(script[i]);
    }
  }

  /** A sequence of nineteen writes, appended as nineteen single writes. */
  lemma SplitIntoSingletons(before: seq<Transaction>, ws: seq<Transaction>)
    requires |ws| == 19
    ensures before + ws
         == before + [ws[0]] + [ws[1]] + [ws[2]] + [ws[3]] + [ws[4]] + [ws[5]] + [ws[6]]
                   + [ws[7]] + [ws[8]] + [ws[9]] + [ws[10]] + [ws[11]] + [ws[12]]
                   + [ws[13]] + [ws[14]] + [ws[15]] + [ws[16]] + [ws[17]] + [ws[18]]
  {
  }
}
