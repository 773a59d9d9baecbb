# SSD1327 I2C driver — Dafny model

This project models the `ssd1327-i2c` driver (`src/lib.rs`). The driver controls an
SSD1327 greyscale OLED controller over a write-only I2C bus. The model covers:

- `u8` as `Bytes.byte`, shared by the bus, the command set and the data framing;
- the `Commands` enum, as the datatype `Commands.Command`, with byte-valued parameters;
- the command encoder of `send_cmd`. `Commands.CommandArray` is the source's match, which
  yields a padded 4-byte buffer and a length. `Commands.Encode` is the prefix that is
  actually written. Every command frame starts with the command control byte `0x80`;
- the data framing of `send_data`, in module `Framing`. `Framing.DataFrame` is the
  9-byte write: the data control byte `0x40`, then the eight payload bytes;
- the bus (`I2c.Bus`). It keeps a ghost trace of `(address, bytes)` writes and the reply
  given to each write. Each reply is an arbitrary `Ok` or `Err`;
- the driver object (`Driver.Ssd1327I2c`): its four constructors, `send_bytes`, `send_cmd`,
  `send_data` and the `init` script of 19 commands. The results of those 19 commands
  are discarded.

Three reference definitions are written independently of the encoder, and lemmas relate
the encoder to them:

- `Commands.Decode` gives the command the driver's opcode table assigns to a command frame.
  Its opcodes are those in the enum's documentation comments (`src/lib.rs:124-203`).
  The documentation gives the lock commands as `(0xFD 0x12)` and `(0xFD 0x16)`
  (`src/lib.rs:199`, `:201`). The code writes them with a second `0x80` before the operand
  (`src/lib.rs:106-107`), so `Decode` reads the lock frames in the layout the code writes.
- `Framing.DataPayload` reads a data frame back into its payload.
- `Commands.Params` lists the parameters a caller put into a command.

The round-trip lemmas show that the encoder is injective, up to two shorthands:
`SelectExternalVDD` and `SelectInternalVDD` are sent exactly as `FunctionSelectionA(0x00)`
and `FunctionSelectionA(0x01)`.

What `init` and the encoder do in this revision of `src/lib.rs`:

- The driver holds only the bus, the slave address, the width and the height. It keeps no
  framebuffer and has no pixel-drawing or flush operation.
- `init` sends `CommandUnlock` as its eighteenth command, directly before `DisplayON`
  (`src/lib.rs:64-65`).
- `init` ends the column window at the stored `width` and the row window at the stored
  `height` (`src/lib.rs:48-49`), both `0x7F` by default. The source's own comment at
  `src/lib.rs:48` doubts this value (it suggests `0x3F`).
- Only the used prefix of the encoder's buffer is written. The zero padding is never sent.
- The `CommandUnlock`/`CommandLock` frames carry a second `0x80` control byte before their
  operand (`[0x80, 0xFD, 0x80, 0x12]`). The single-value commands do not
  (`[0x80, opcode, value]`). The model reproduces both as written.

## Model

| member | source | states |
|---|---|---|
| `Commands.CommandArray` | src/lib.rs:80-108 | the buffer has 4 bytes and starts with `0x80`; the length is 2, 3 or 4; every byte past the length is zero padding |
| `Commands.Encode` | src/lib.rs:78-109 | every written command frame is 2 to 4 bytes long and starts with the command control byte `0x80` |
| `Commands.NoPaddingEmitted` | src/lib.rs:109 | the written frame is exactly the first `len` bytes of the buffer, and every byte after them is zero padding, so no padding byte is sent |
| `Commands.Params` | src/lib.rs:125-203 | a command carries at most two caller-supplied parameter bytes |
| `Commands.ParametersPassThrough` | src/lib.rs:81-105 | a command with parameters is written as `0x80`, its opcode, then its parameters unchanged and in order, with no padding |
| `Commands.BareCommandFrames` | src/lib.rs:87-101 | exactly the seven no-operand commands encode to two bytes, and their opcodes are A4, A5, A6, A7, AF, AE and B9 |
| `Commands.Canonical` | src/lib.rs:171-176 | replaces each VDD selection by the Function Selection A command it documents, and leaves every other command unchanged |
| `Commands.VddShorthands` | src/lib.rs:92-94 | `SelectExternalVDD`/`SelectInternalVDD` encode exactly like `FunctionSelectionA(0x00)`/`FunctionSelectionA(0x01)`, so replacing the shorthands never changes the bytes |
| `Commands.LockFrames` | src/lib.rs:105-107 | `CommandUnlock` and `CommandLock` are `[0x80, 0xFD, 0x80, 0x12]` and `[0x80, 0xFD, 0x80, 0x16]`, distinct from `SetCommandLock(0x12)` |
| `Commands.Decode` | src/lib.rs:124-203 | the documented opcode table read backwards; it never yields a VDD shorthand |
| `Commands.DecodeEncode` | src/lib.rs:80-108 | decoding the encoding of any command gives that command back, up to the VDD shorthands |
| `Commands.EncodeDecode` | src/lib.rs:80-108 | every frame the decoder accepts is exactly the encoding of the command it yields |
| `Commands.EncodeInjective` | src/lib.rs:80-108 | two commands produce the same bytes if and only if they are equal up to the VDD shorthands |
| `Framing.DataFrame` | src/lib.rs:113-118 | a data write is 9 bytes: `0x40`, then the 8 payload bytes in order |
| `Framing.DataRoundTrip` | src/lib.rs:115-119 | the payload read back from a data frame is the payload sent, and a frame with that payload is exactly that data frame |
| `Framing.DataIsNotCommand` | src/lib.rs:79-116 | no data frame equals any command frame; the command decoder rejects data frames and the data reader rejects command frames |
| `I2c.Bus.Write` | src/lib.rs:69-70 | one write appends exactly one `(address, bytes)` entry to the trace and records the reply it returns, whatever that reply is |
| `Driver.Ssd1327I2c.NewAddWh` | src/lib.rs:21-28 | stores the bus, address, width and height unchanged and writes nothing to the bus |
| `Driver.Ssd1327I2c.NewAdd` | src/lib.rs:31-33 | stores the address; width and height are `0x7F`; writes nothing to the bus |
| `Driver.Ssd1327I2c.NewWh` | src/lib.rs:36-38 | address `0x3C`; stores width and height; writes nothing to the bus |
| `Driver.Ssd1327I2c.New` | src/lib.rs:41-43 | address `0x3C`, width and height `0x7F`; writes nothing to the bus |
| `Driver.Ssd1327I2c.SendBytes` | src/lib.rs:69-70 | exactly one write of the given bytes to the slave address; the bus's reply is returned unchanged |
| `Driver.Ssd1327I2c.SendCmd` | src/lib.rs:78-110 | exactly one write to the slave address, carrying the command's encoding; the reply is returned unchanged |
| `Driver.Ssd1327I2c.SendData` | src/lib.rs:113-120 | exactly one 9-byte write to the slave address: `0x40` and the 8 payload bytes; the reply is returned unchanged |
| `Driver.InitScript` | src/lib.rs:46-65 | `init` sends 19 commands |
| `Driver.CommandWrites` | src/lib.rs:46-65 | sending a list of commands produces one write per command, in order, each to the given address and carrying that command's encoding |
| `Driver.Ssd1327I2c.Init` | src/lib.rs:46-65 | the trace grows by exactly the 19 command writes of the script, in order, whatever the bus replies; 19 replies are received and discarded, and the replies recorded before `init` are kept |
| `Driver.InitTraceShape` | src/lib.rs:47-65 | init writes only command frames to the slave address: `DisplayOFF` first; column window `[0, width]` and row window `[0, height]` from the stored values; `CommandUnlock` 18th; `DisplayON` last |
| `Driver.InitUnlocksLate` | src/lib.rs:47-64 | none of the first 17 init writes is the unlock frame |
| `Driver.InitTraceDecodes` | src/lib.rs:46-65 | decoding each init write gives back the scripted command, up to the VDD shorthand |

## Left out

- The `embedded_hal` I2C transport is not modelled. It is a foreign capability, reduced to a write that records `(address, bytes)` and returns an arbitrary `Ok` or `Err`.
- The transport's error type is not modelled. It is opaque and only passed on, so a failure is the single value `Err`.
- The electrical meaning of register values is not modelled: remap bits, phase length, VCOMH, precharge and GPIO modes. Commands only pass those values through.
- `#![no_std]` and the generic `I2C` type parameter are not modelled. They are build concerns with no behaviour.
- The bus is a field the driver never replaces (`const i2c`). Rust's move of the bus into the driver, and its exclusive ownership, are not modelled beyond that.
