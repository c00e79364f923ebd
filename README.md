# RM67162 QSPI display driver, modelled in Dafny

This project models the core of `rm67162`, a Rust driver for the RM67162
AMOLED controller (a 536 x 240 panel) driven over a half-duplex QSPI bus
from an ESP32. It covers three parts:

- the screen orientations: the register byte each one writes, and the size the driver reports;
- the driver object and the bus transactions it issues for each operation;
- the drawing-surface adapter: per-pixel drawing and rectangle fills.

The collaborators are replaced by an append-only log of the calls made on
them (`Bus.Event`). These are the SPI transport, the chip-select and reset
lines, and the delay source. A transfer is recorded with its lane mode,
command phase, address phase, dummy cycles and payload. The driver is the
class `Driver.Rm67162`:

- its fields are the orientation, the chip-select level and the log;
- every method's postcondition gives the new log as the old one plus the
  events of a specification function (`CommandEvents`, `WindowEvents`,
  `InitializeEvents`, `FillWithEvents`, ...);
- its invariant `Valid()` says two things: the recorded chip-select level is
  the one the log leads to, and every transfer in the log happened while
  chip-select was low.

The properties of those event sequences are proved by decoding the log again:

- `Commands` turns command writes back into command code and parameters;
- `Chunks` gives the pixel writes with their first or continuation framing;
- `Delays` and `CsLowCount` give the delays and the number of chip-select assertions;
- `Closed` says the log is bracketed and leaves chip-select high whatever
  the level before it;
- `Txns` reads the log as transactions, in order: each chip-select bracket
  with exactly the transfers made inside it, each delay, and each level
  driven on the reset line. It fixes which transfers share a bracket and
  where the delays fall between them.

Modules:

- `Numeric`: the fixed-width integer types, the `as u16` cast, and the big-endian split of a 16-bit value.
- `Bus`: the event log, its decoders, and the chip-select bracketing facts.
- `Orientations`: `Orientation`, its register value, and the reported size.
- `Driver`: the wire format, the event sequences of every operation with the lemmas about them, and the `Rm67162` class.
- `DrawTarget`: `draw_iter` and `fill_contiguous` as module-level methods that take the driver (`d: Rm67162`) as a parameter, with the lemmas about their logs.

Two facts about the code that the model keeps:

- A command's code goes into the 24-bit address phase as `cmd << 8`, so the
  code sits in bits 8..15 of the address.
- Every transport result is unwrapped, so every operation that returns a
  `Result` returns `Ok` when it returns.
- `fill_with` and `fill_contiguous` are modelled as written. See "Findings".

## Model

| member | source | states |
|---|---|---|
| `Numeric.AsU16` | src/rm67162_draw_target.rs:41 | the `as u16` cast keeps the value modulo 65536 and leaves values below 65536 unchanged |
| `Numeric.Be16` | src/rm67162.rs:85-88 | models the byte pair `v >> 8`, `v & 0xFF` of a 16-bit value; its properties are stated by `Be16RoundTrip` and `Be16Word` |
| `Numeric.Be16RoundTrip` | src/rm67162.rs:85-88 | the two bytes `v >> 8`, `v & 0xFF` are a 16-bit value's encoding, and `hi * 256 + lo` gives the value back |
| `Numeric.Be16Word` | src/rm67162.rs:96-99 | every pair of bytes is the encoding of exactly one 16-bit value, so the encoding is a bijection |
| `Orientations.ToMadctr` | src/orientation.rs:9-16 | every register value has its low five bits clear, and bit 0x20 is set exactly for the two landscape orientations |
| `Orientations.MadctrTable` | src/orientation.rs:11-14 | Portrait writes 0x00, PortraitFlipped 0xC0, Landscape 0x60, LandscapeFlipped 0xA0 |
| `Orientations.ToMadctrInjective` | src/orientation.rs:9-16 | two orientations write the same register value exactly when they are the same orientation |
| `Orientations.SizeOf` | src/rm67162_draw_target.rs:15-24 | the size is 536 x 240 or 240 x 536, and it is 536 wide exactly when the register value has bit 0x20 set |
| `Orientations.SizeTable` | src/rm67162_draw_target.rs:16-23 | Landscape and LandscapeFlipped report 536 x 240; Portrait and PortraitFlipped report 240 x 536 |
| `Bus.DecodedAppend` | src/rm67162.rs:75-105 | sequential composition of calls, as `set_address` composes three commands: decoding the log of two calls one after the other is decoding each log in turn |
| `Bus.ClosedAppend` | src/rm67162.rs:75-105 | sequential composition of calls: two logs that each leave chip-select high with every transfer bracketed still do so one after the other |
| `Bus.TxnsAppend` | src/rm67162.rs:75-105 | sequential composition of calls: after a log that leaves no bracket open, the transactions of the next log follow its own unchanged |
| `Bus.FramedTxns` | src/rm67162.rs:154-159 | transfers between driving chip-select low and high are read as exactly one bracket holding exactly those transfers |
| `Bus.WaitTxns` | src/rm67162.rs:56 | a delay is read as one wait of the same length and opens no bracket |
| `Driver.LogAppend` | src/rm67162.rs:75-105 | sequential composition of calls: the commands, chunks, delays and chip-select assertions of two logs one after the other are those of each, in order |
| `Driver.CommandWrite` | src/rm67162.rs:189-196 | models the single-lane register write of `command`; `CommandFraming` states that it carries exactly the code and the parameters |
| `Driver.ChunkWrite` | src/rm67162.rs:115-131 | models the two framings of a pixel write in `send_chunk`; `ChunkFraming` states that each carries the bytes unchanged |
| `Driver.IdRead` | src/rm67162.rs:206-213 | models the quad read of the identification register in `version`; `VersionShape` states it |
| `Driver.CommandFraming` | src/rm67162.rs:189-196 | a bus event decodes to a command exactly when it is a single-lane write with marker 0x02, address `code << 8` and the parameters as payload |
| `Driver.ChunkFraming` | src/rm67162.rs:115-131 | a bus event decodes to a first chunk exactly when it is a quad write with marker 0x32 and address 0x2C00, and to a continuation exactly when it has no command and no address; the payload is the chunk unchanged |
| `Driver.CommandEvents` | src/rm67162.rs:187-199 | models the calls `command` makes: chip-select low, one command write, chip-select high; `CommandShape` states them |
| `Driver.CommandsEvents` | src/rm67162.rs:75-105 | models `command` calls made one after another, as `set_address` makes three; `CommandsShape` states them |
| `Driver.CommandShape` | src/rm67162.rs:187-199 | `command` issues exactly one command write, carrying its code and parameters; read as transactions it is one bracket holding that write alone, and it ends with chip-select high |
| `Driver.CommandsShape` | src/rm67162.rs:187-199 | commands issued one after another decode back to the same commands in order; read as transactions they are one bracket per command, holding that command's write alone |
| `Driver.WindowRoundTrip` | src/rm67162.rs:82-104 | a command sequence parses to window `w` exactly when it is the column command, the row command and the memory-write command of `w` |
| `Driver.WindowCommands` | src/rm67162.rs:82-104 | models the three commands of `set_address` with each bound as two big-endian bytes; `WindowRoundTrip` states that they carry the window exactly |
| `Driver.WindowEvents` | src/rm67162.rs:75-105 | models the calls `set_address` makes; `WindowShape` states them |
| `Driver.WindowShape` | src/rm67162.rs:75-105 | `set_address` issues exactly 0x2A with the x bounds, 0x2B with the y bounds and 0x2C with no parameters, each in its own bracket, and they parse back to the window |
| `Driver.StreamWritesShape` | src/rm67162.rs:115-131 | the chunk writes of a burst decode to its chunks in order, only the first framed as first, with no command and no chip-select change |
| `Driver.StreamWritesTransfers` | src/rm67162.rs:155-158 | every event of a burst's chunk stream is a bus transfer, so the stream stays inside the bracket around it |
| `Driver.StreamWrites` | src/rm67162.rs:152-158 | models the `send_chunk` calls of a burst, `is_first` set for the first only, as in `fill_with` and in src/rm67162_draw_target.rs:62-72; `StreamWritesShape` states them |
| `Driver.BurstEvents` | src/rm67162.rs:145-159 | models the shape `fill_with`, `draw_point` and `fill_contiguous` share: the window commands, then one bracket of chunk writes; `BurstShape` states it |
| `Driver.BurstShape` | src/rm67162.rs:145-159 | a burst decodes to its window and its chunks in order; read as transactions it is the three window commands, each in its own bracket, then exactly one bracket holding all the chunk writes, and nothing else |
| `Driver.BracketShape` | src/rm67162.rs:154-159 | wrapping transfers in one chip-select bracket adds one assertion and keeps every transfer inside the bracket |
| `Driver.ResetShape` | src/rm67162.rs:44-50 | `reset` makes no transfer and leaves chip-select as it was; read as transactions it is reset low, 300 ms, reset high, 200 ms, in that order |
| `Driver.ScriptShape` | src/rm67162.rs:54-65 | a fixed script of commands and pauses decodes to its commands in order and its pauses in order, one chip-select assertion per command |
| `Driver.ScriptTransactions` | src/rm67162.rs:54-65 | read as transactions, a script is its steps in order: each command in a bracket of its own holding its write alone, each pause a wait between them |
| `Driver.ScriptTxnsInjective` | src/rm67162.rs:54-65 | two scripts give the same transactions exactly when they are the same script, so the transactions give the script back |
| `Driver.PowerUpScript` | src/rm67162.rs:55-64 | models the body of the power-up loop as a script of commands and pauses; `PowerUpScriptEvents` states that it runs as that loop body |
| `Driver.PowerUpScriptEvents` | src/rm67162.rs:55-64 | one round of the power-up loop is the script 0x11, 120 ms, 0x3A [0x55], 0x51 [0x00], 0x29, 10 ms, 0x51 [0xE0] |
| `Driver.PowerUpScriptTxns` | src/rm67162.rs:55-64 | the transactions of the power-up script are its five commands and its two waits, interleaved in the order of the loop body |
| `Driver.InitBlockShape` | src/rm67162.rs:55-64 | one power-up round issues its five commands and waits 120 ms and 10 ms; read as transactions it is 0x11, wait 120, 0x3A [0x55], 0x51 [0x00], 0x29, wait 10, 0x51 [0xE0], each command in its own bracket; it sends no pixels |
| `Driver.RepeatShape` | src/rm67162.rs:54-65 | repeating a closed, settled log `n` times repeats its commands, delays, chunks and transactions `n` times, multiplies its chip-select assertions by `n`, and the result is closed |
| `Driver.InitializeShape` | src/rm67162.rs:52-68 | read as transactions, `initialize` is the power-up round three times over, then 0x36 with the orientation's register value in its own bracket; it asserts chip-select sixteen times, once per command, sends no pixels and ends with chip-select high |
| `Driver.InitializeCommandCount` | src/rm67162.rs:52-68 | `initialize` issues exactly sixteen commands |
| `Driver.SetOrientationShape` | src/rm67162.rs:70-73 | `set_orientation` issues only the command 0x36 with the new orientation's register value, in one bracket of its own |
| `Driver.ScreenWindow` | src/rm67162.rs:145-150 | the window `fill_with` sets starts at (0, 0) and ends one before the width and one before the height of the current orientation |
| `Driver.ExactChunks` | src/rm67162.rs:155 | models `chunks_exact(BUFFER_SIZE)`; `ExactChunksShape` states what it yields |
| `Driver.ExactChunksShape` | src/rm67162.rs:155 | `chunks_exact(BUFFER_SIZE)` yields `len / BUFFER_SIZE` chunks of exactly BUFFER_SIZE bytes; together they are the frame up to the last whole chunk |
| `Driver.ResetEvents` | src/rm67162.rs:44-50 | models the calls `reset` makes; `ResetShape` states them |
| `Driver.InitBlockEvents` | src/rm67162.rs:55-64 | models one iteration of the power-up loop; `InitBlockShape` states it |
| `Driver.InitializeEvents` | src/rm67162.rs:52-68 | models the calls `initialize` makes; `InitializeShape` states them |
| `Driver.FillWithEvents` | src/rm67162.rs:134-162 | models the calls `fill_with` makes; `FillWithShape` and `FillWithChunks` state them |
| `Driver.DrawPointEvents` | src/rm67162.rs:164-185 | models the calls `draw_point` makes; `DrawPointShape` states them |
| `Driver.VersionEvents` | src/rm67162.rs:202-219 | models the calls `version` makes; `VersionShape` states them |
| `Driver.FillWithShape` | src/rm67162.rs:134-162 | `fill_with` sets the window (0, 0, w-1, h-1) of the current size; read as transactions, that is three single-command brackets, then one bracket holding all the exact chunks in order, only the first framed as first |
| `Driver.FillWithChunks` | src/rm67162.rs:154-158 | the chunks `fill_with` sends are `len / BUFFER_SIZE` in number, each of BUFFER_SIZE bytes, and their bytes are the frame up to the last whole chunk |
| `Driver.FillWithDropsTail` | src/rm67162.rs:142-158 | for the 257280-byte frame fixed at line 142, `chunks_exact` with the 16368-byte `BUFFER_SIZE` of lines 19-20 gives 15 chunks, so `fill_with` sends 245520 bytes, fewer than the frame holds |
| `Driver.FrameArithmetic` | src/rm67162.rs:19-20 | the frame is 15 whole buffers of 16368 bytes and 11760 bytes more |
| `Driver.AllChunks` | src/rm67162.rs:155 | models `chunks(BUFFER_SIZE)`, the corrected splitting; `AllChunksShape` states what it yields |
| `Driver.AllChunksShape` | src/rm67162.rs:155 | with `chunks` instead of `chunks_exact`, the chunks are non-empty, at most BUFFER_SIZE long, ceil(len / BUFFER_SIZE) in number, and together they are the whole frame |
| `Driver.FullFrameChunkCount` | src/rm67162.rs:155 | with `chunks`, the 257280-byte frame is 16 chunks |
| `Driver.FullFillShape` | src/rm67162.rs:145-159 | the corrected `fill_with` sets the screen window and sends every byte of the frame, 16 chunks for a full frame, all in one bracket after the three window commands |
| `Driver.DrawPointShape` | src/rm67162.rs:164-185 | `draw_point` sets the window (x, y, x, y) with three single-command brackets, then sends one first-framed chunk `[c >> 8, c & 0xFF]` in a bracket of its own; the chunk decodes back to the colour |
| `Driver.VersionShape` | src/rm67162.rs:202-219 | `version` makes exactly one quad read at address 0xDA into a three-byte buffer of 0xFF, with no command phase; read as transactions it is that one read alone in one bracket |
| `Driver.Rm67162.constructor` | src/rm67162.rs:30-42 | `new` stores the orientation and the chip-select line and issues nothing |
| `Driver.Rm67162.Emit` | src/rm67162.rs:188-198 | one call on a collaborator is appended to the log; a transfer happens only while chip-select is low |
| `Driver.Rm67162.Reset` | src/rm67162.rs:44-50 | appends the reset pulse and its delays; chip-select and orientation are unchanged |
| `Driver.Rm67162.Command` | src/rm67162.rs:187-200 | appends `CommandEvents(code, params)`, leaves chip-select high and returns `Ok` |
| `Driver.Rm67162.Initialize` | src/rm67162.rs:52-68 | its three-iteration loop appends the power-up round each time, then the orientation command: the log grows by `InitializeEvents(orientation)` |
| `Driver.Rm67162.SetOrientation` | src/rm67162.rs:70-73 | stores the new orientation, appends its register command and returns `Ok` |
| `Driver.Rm67162.SetAddress` | src/rm67162.rs:75-105 | appends the three window commands and returns `Ok` |
| `Driver.Rm67162.SendChunk` | src/rm67162.rs:107-132 | requires chip-select low, then appends one first or continuation chunk write carrying the bytes unchanged |
| `Driver.Rm67162.FillWith` | src/rm67162.rs:134-162 | its loop over the exact chunks keeps `is_first` true only before the first chunk; the log grows by `FillWithEvents(orientation, frame)` and the result is `Ok` |
| `Driver.Rm67162.DrawPoint` | src/rm67162.rs:164-185 | appends `DrawPointEvents(x, y, color)`, leaves chip-select high and returns `Ok` |
| `Driver.Rm67162.Version` | src/rm67162.rs:202-219 | appends the identification read inside a bracket and returns `Ok` with the controller's three reply bytes |
| `DrawTarget.PlottedMembers` | src/rm67162_draw_target.rs:36-39 | the pixels drawn are exactly the input pixels with no negative coordinate |
| `DrawTarget.Visible` | src/rm67162_draw_target.rs:37 | models the test for a negative coordinate; `PixelShape` and `PlottedMembers` state its effect |
| `DrawTarget.Plotted` | src/rm67162_draw_target.rs:36-41 | models the pixels the loop passes on to `draw_point`, in order; `PlottedMembers` states which they are |
| `DrawTarget.PixelWindow` | src/rm67162_draw_target.rs:41 | models the one-pixel window `draw_point` sets at the coordinates cast to `u16`; `PixelShape` states it |
| `DrawTarget.PixelEvents` | src/rm67162_draw_target.rs:37-41 | models one iteration of the `draw_iter` loop; `PixelShape` and `PixelTxns` state it |
| `DrawTarget.DrawIterEvents` | src/rm67162_draw_target.rs:32-45 | models the calls `draw_iter` makes; `DrawIterShape` and `DrawIterTxns` state them |
| `DrawTarget.PixelShape` | src/rm67162_draw_target.rs:37-41 | a pixel with a negative coordinate adds nothing; any other pixel adds its one-pixel window and one first chunk with its colour, closed |
| `DrawTarget.PixelTxns` | src/rm67162_draw_target.rs:37-41 | read as transactions, a visible pixel is its three window commands, each in its own bracket, then one bracket holding its colour chunk alone; an invisible pixel is nothing |
| `DrawTarget.DrawIterShape` | src/rm67162_draw_target.rs:32-45 | `draw_iter` issues the windows and colour chunks of the visible pixels, in input order, four chip-select assertions per pixel drawn; its log is empty exactly when no pixel is visible |
| `DrawTarget.DrawIterTxns` | src/rm67162_draw_target.rs:32-45 | read as transactions, `draw_iter` is each visible pixel's four brackets, pixel after pixel in input order, and nothing else |
| `DrawTarget.DrawIterAppend` | src/rm67162_draw_target.rs:36-42 | the log of `draw_iter` is the concatenation of the per-pixel `draw_point` logs |
| `DrawTarget.DrawIterSkipsInvisible` | src/rm67162_draw_target.rs:37-39 | inserting a pixel with a negative coordinate anywhere does not change the log |
| `DrawTarget.FillWindow` | src/rm67162_draw_target.rs:55-60 | models the window `fill_contiguous` passes, with the width and height where the end column and end row go; `FillWindowAsWritten` states its effect |
| `DrawTarget.Taken` | src/rm67162_draw_target.rs:65-67 | `take(width * height)` keeps a prefix of the colours of length min(width * height, number of colours) |
| `DrawTarget.ColorChunks` | src/rm67162_draw_target.rs:69-70 | models each colour sent as its own chunk of `to_be_bytes`; `FillContiguousShape` states it |
| `DrawTarget.FillContiguousEvents` | src/rm67162_draw_target.rs:47-77 | models the calls `fill_contiguous` makes; `FillContiguousShape` states them |
| `DrawTarget.FillContiguousShape` | src/rm67162_draw_target.rs:55-74 | `fill_contiguous` sends min(width * height, number of colours) chunks; chunk i is framed as first exactly when i = 0 and carries colour i's two bytes; read as transactions, the three window commands each in its own bracket, then exactly one bracket holding all the chunk writes, an empty one when no colour is sent |
| `DrawTarget.FillContiguousColors` | src/rm67162_draw_target.rs:69-70 | the chunks sent decode back to exactly the colours taken |
| `DrawTarget.FillWindowAsWritten` | src/rm67162_draw_target.rs:55-60 | the window gets the rectangle's width and height as its end column and end row: a 10 x 10 rectangle at (100, 100) gives a window that ends before it starts |
| `DrawTarget.FillWindowAreaAsWritten` | src/rm67162_draw_target.rs:55-60 | a 10 x 10 rectangle at the origin gets a window of 11 x 11 = 121 pixels; at (100, 100) the window ends before it starts, which `WindowArea` counts as no pixel |
| `DrawTarget.IntendedFillWindow` | src/rm67162_draw_target.rs:55-60 | the corrected window starts at the corner and spans exactly the rectangle's width and height |
| `DrawTarget.IntendedFillShape` | src/rm67162_draw_target.rs:55-74 | with the corrected window, the window holds width * height pixels, each of them gets one colour when enough colours are given, and the colours go out in one bracket after the three window commands |
| `DrawTarget.DrawIter` | src/rm67162_draw_target.rs:32-45 | its loop skips pixels with a negative coordinate and draws the others with `draw_point` at the coordinates cast to `u16`; the log grows by `DrawIterEvents(pixels)`, the orientation is unchanged and the result is `Ok` |
| `DrawTarget.FillContiguous` | src/rm67162_draw_target.rs:47-77 | its loop sends each taken colour with `first_send` true only for the first; the log grows by `FillContiguousEvents(area, colors)`, chip-select ends high and the result is `Ok` |

## Left out

- The ESP32 SPI/DMA transport, its async mode and its errors are not modelled. Every call on it is unwrapped in the source, so a transfer is an infallible append to the log.
- A transport error panics in the source, and a panic has no recovery path; neither is modelled.
- The chip-select assertion in `send_chunk` panics when chip-select is high; the model makes that a precondition of `Driver.Rm67162.SendChunk`.
- Real time is left out: a delay is recorded as a `Delay(ms)` event.
- The `println!` in `reset` is left out, because it is only logging.
- The unsafe raw-pointer slice in `send_chunk` is modelled as the sequence of bytes it points to.
- The reply `version` reads comes from the hardware, so it is a parameter of `Driver.Rm67162.Version`. The model records the request with the buffer as handed to the bus.
- The internals of `embedded_graphics` are not modelled: `Framebuffer`, `Rgb565` and `to_be_bytes`. A frame buffer is a byte sequence and a colour is a 16-bit value split high byte first.
- The iterators of `draw_iter` and `fill_contiguous` are modelled as finite sequences. A lazy or endless iterator is not modelled.
- `Driver.Rm67162.Command`: the code is a byte, not the source's `u32`. Every code the driver sends is below 0x100, and this keeps `code << 8` inside the 24-bit address.
- `DrawTarget.Taken`: `width * height` is the exact product. The source computes it in `usize`, which is 32 bits on the ESP32 and can overflow for rectangles over 2^32 pixels.
- `DrawTarget.WindowArea` counts a window whose end lies before its start as covering no pixel. What the controller does with such a window is not modelled.
- `Bus.Txns` reads a delay made while a bracket is open before that bracket. The driver never waits inside a bracket.
- The demo binaries and the platform setup (clocks, watchdog, power pin, DMA buffers) are not part of this model.

## Findings

| source | as written | input that shows it | evidently intended | confidence | as-written member | corrected member |
|---|---|---|---|---|---|---|
| src/rm67162.rs:155 | `fill_with` splits the frame with `chunks_exact(BUFFER_SIZE)`, which drops the bytes after the last whole chunk | the 536 x 240 frame of 257280 bytes: 15 chunks of 16368 bytes carry 245520 bytes, and the last 11760 bytes (5880 pixels) are never sent | send the whole frame, the last chunk shorter (`chunks`), 16 chunks | high, not executed | `Driver.FillWithDropsTail` | `Driver.FullFillShape` |
| src/rm67162_draw_target.rs:55-60 | `fill_contiguous` passes the rectangle's width and height where `set_address` expects the end column and end row | a 10 x 10 rectangle at (0, 0) gets a window of 11 x 11 pixels; at (100, 100) the window ends before it starts | window from (x, y) to (x + width - 1, y + height - 1) | high, not executed | `DrawTarget.FillWindowAreaAsWritten` | `DrawTarget.IntendedFillShape` |

The driver methods keep the behaviour as written. The corrected members are
separate definitions, proved to have the property the code evidently intends.
