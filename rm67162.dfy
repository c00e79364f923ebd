/** The RM67162 driver: the command protocol, the address window, the chunked
    pixel bursts, and the driver object that issues them. Every operation is
    specified by the events it appends to the log (a function below), and the
    properties of those event sequences are proved by decoding them again. */
module Driver {
  import opened Numeric
  import opened Bus
  import opened Orientations

  /** Pixels in one transfer buffer, and its size in bytes. */
  const BUFFER_PIXELS: nat := 16368 / 2
  const BUFFER_SIZE: nat := BUFFER_PIXELS * 2

  /** Length of the frame buffer `fill_with` takes: 536 x 240 Rgb565 pixels. */
  const FRAME_BYTES: nat := 536 * 240 * 2

  /** Command-phase markers: a register write, and a quad-lane memory write. */
  const COMMAND_MARKER: Byte := 0x02
  const QUAD_WRITE_MARKER: Byte := 0x32

  /** Controller command codes. */
  const SLEEP_OUT: Byte := 0x11
  const DISPLAY_ON: Byte := 0x29
  const COLUMN_ADDRESS_SET: Byte := 0x2A
  const ROW_ADDRESS_SET: Byte := 0x2B
  const MEMORY_WRITE: Byte := 0x2C
  const MEMORY_ACCESS_CONTROL: Byte := 0x36
  const PIXEL_FORMAT: Byte := 0x3A
  const WRITE_BRIGHTNESS: Byte := 0x51

  /** Address of the identification register. */
  const ID_ADDRESS: nat := 0xDA

  // ---------------------------------------------------------------------------
  // Transactions on the wire and their decoders

  /** A controller command with its parameter bytes. */
  datatype Cmd = Cmd(code: Byte, params: seq<Byte>)

  /** A quad-lane pixel write: a first chunk or a continuation, and its bytes. */
  datatype Chunk = Chunk(first: bool, bytes: seq<Byte>)

  /** The inclusive column and row bounds of the controller's address window. */
  datatype Window = Window(x1: U16, y1: U16, x2: U16, y2: U16)

  /** The single-lane write carrying a command: marker 0x02, the code shifted
      into bits 8..15 of the 24-bit address, the parameters as payload. */
  function CommandWrite(code: Byte, params: seq<Byte>): Event {
    Write(Single, Command8(COMMAND_MARKER, Single), Address24(code * 0x100, Single), 0, params)
  }

  /** The quad-lane write carrying pixel bytes. A first chunk announces the
      memory write (marker 0x32, address 0x2C00); a continuation has no
      command and no address phase. */
  function ChunkWrite(first: bool, bytes: seq<Byte>): Event {
    if first then Write(Quad, Command8(QUAD_WRITE_MARKER, Single), Address24(MEMORY_WRITE * 0x100, Single), 0, bytes)
    else Write(Quad, NoCommand, NoAddress, 0, bytes)
  }

  /** The request `version` makes: a quad-lane read of the identification
      register into a three-byte buffer. */
  function IdRead(buffer: seq<Byte>): Event {
    Read(Quad, NoCommand, Address24(ID_ADDRESS, Quad), 0, buffer)
  }

  function DecodeCommand(e: Event): Option<Cmd> {
    if e.Write? && e.dataMode == Single && e.command == Command8(COMMAND_MARKER, Single) && e.dummy == 0
       && e.address.Address24? && e.address.mode == Single
       && e.address.addr % 0x100 == 0 && e.address.addr < 0x1_0000
    then Some(Cmd(e.address.addr / 0x100, e.payload))
    else None
  }

  function DecodeChunk(e: Event): Option<Chunk> {
    if e.Write? && e.dataMode == Quad && e.dummy == 0 then
      if e.command == Command8(QUAD_WRITE_MARKER, Single) && e.address == Address24(MEMORY_WRITE * 0x100, Single)
      then Some(Chunk(true, e.payload))
      else if e.command == NoCommand && e.address == NoAddress then Some(Chunk(false, e.payload))
      else None
    else None
  }

  /** The commands in a log, in order. */
  function Commands(es: seq<Event>): seq<Cmd> {
    Decoded(es, DecodeCommand)
  }

  /** The pixel chunks in a log, in order. */
  function Chunks(es: seq<Event>): seq<Chunk> {
    Decoded(es, DecodeChunk)
  }

  /** The number of times a log drives chip-select low. */
  function CsLowCount(es: seq<Event>): nat {
    |Decoded(es, AsCsLow)|
  }

  /** The delays in a log, in milliseconds, in order. */
  function Delays(es: seq<Event>): seq<nat> {
    Decoded(es, AsDelay)
  }

  /** Each decoded view of a log distributes over appending logs. */
  lemma LogAppend(a: seq<Event>, b: seq<Event>)
    ensures Commands(a + b) == Commands(a) + Commands(b)
    ensures Chunks(a + b) == Chunks(a) + Chunks(b)
    ensures Delays(a + b) == Delays(a) + Delays(b)
    ensures CsLowCount(a + b) == CsLowCount(a) + CsLowCount(b)
  {
    DecodedAppend(a, b, DecodeCommand);
    DecodedAppend(a, b, DecodeChunk);
    DecodedAppend(a, b, AsDelay);
    DecodedAppend(a, b, AsCsLow);
  }

  /** A write is a command write exactly when it decodes to that command. */
  lemma CommandFraming(e: Event, c: Cmd)
    ensures DecodeCommand(e) == Some(c) <==> e == CommandWrite(c.code, c.params)
  {
  }

  /** A write is a chunk write exactly when it decodes to that chunk. */
  lemma ChunkFraming(e: Event, k: Chunk)
    ensures DecodeChunk(e) == Some(k) <==> e == ChunkWrite(k.first, k.bytes)
  {
  }

  // ---------------------------------------------------------------------------
  // Address window

  /** The commands that set a window: columns, rows (each bound as two
      big-endian bytes), then the memory-write command without parameters. */
  function WindowCommands(w: Window): seq<Cmd> {
    [Cmd(COLUMN_ADDRESS_SET, Be16(w.x1) + Be16(w.x2)),
     Cmd(ROW_ADDRESS_SET, Be16(w.y1) + Be16(w.y2)),
     Cmd(MEMORY_WRITE, [])]
  }

  /** The window a command sequence sets, if it is exactly a window setting. */
  function ParseWindow(cs: seq<Cmd>): Option<Window> {
    if |cs| == 3 && cs[0].code == COLUMN_ADDRESS_SET && |cs[0].params| == 4
       && cs[1].code == ROW_ADDRESS_SET && |cs[1].params| == 4 && cs[2] == Cmd(MEMORY_WRITE, [])
    then
      var p, q := cs[0].params, cs[1].params;
      Some(Window(Word(p[0], p[1]), Word(q[0], q[1]), Word(p[2], p[3]), Word(q[2], q[3])))
    else None
  }

  /** The window commands carry the window exactly: they parse back to it,
      and only they parse to it. */
  lemma {:induction false} WindowRoundTrip(cs: seq<Cmd>, w: Window)
    ensures ParseWindow(cs) == Some(w) <==> cs == WindowCommands(w)
  {
    if cs == WindowCommands(w) {
      assert Be16(w.x1) + Be16(w.x2) == [w.x1 / 0x100, w.x1 % 0x100, w.x2 / 0x100, w.x2 % 0x100];
      assert Be16(w.y1) + Be16(w.y2) == [w.y1 / 0x100, w.y1 % 0x100, w.y2 / 0x100, w.y2 % 0x100];
    }
    if ParseWindow(cs) == Some(w) {
      var p, q := cs[0].params, cs[1].params;
      Be16Word(p[0], p[1]);
      Be16Word(p[2], p[3]);
      Be16Word(q[0], q[1]);
      Be16Word(q[2], q[3]);
      assert p == Be16(w.x1) + Be16(w.x2);
      assert q == Be16(w.y1) + Be16(w.y2);
    }
  }

  // ---------------------------------------------------------------------------
  // Event sequences of the operations

  /** `command`: chip-select low, one command write, chip-select high. */
  function CommandEvents(code: Byte, params: seq<Byte>): seq<Event> {
    [CsLow] + [CommandWrite(code, params)] + [CsHigh]
  }

  /** Commands issued one after the other, each in its own bracket. */
  function CommandsEvents(cs: seq<Cmd>): seq<Event> {
    if cs == [] then []
    else CommandsEvents(cs[..|cs| - 1]) + CommandEvents(cs[|cs| - 1].code, cs[|cs| - 1].params)
  }

  /** `set_address`: column bounds, row bounds, then the memory-write command. */
  function WindowEvents(w: Window): seq<Event> {
    CommandsEvents(WindowCommands(w))
  }

  /** The chunk writes of one burst, as `send_chunk` issues them with the
      `is_first` flag set for the first only. */
  function StreamWrites(chs: seq<seq<Byte>>): seq<Event> {
    if chs == [] then []
    else StreamWrites(chs[..|chs| - 1]) + [ChunkWrite(|chs| == 1, chs[|chs| - 1])]
  }

  /** A burst: set the window, drive chip-select low, stream the chunks,
      drive chip-select high. */
  function BurstEvents(w: Window, chs: seq<seq<Byte>>): seq<Event> {
    WindowEvents(w) + ([CsLow] + StreamWrites(chs) + [CsHigh])
  }

  /** `reset`: the reset line held low for 300 ms, then high for 200 ms. */
  function ResetEvents(): seq<Event> {
    [ResetLow, Delay(300), ResetHigh, Delay(200)]
  }

  /** One round of the power-up sequence: sleep out, wait 120 ms, 16-bit
      colour mode, brightness 0, display on, wait 10 ms, brightness 0xE0. */
  function InitBlockEvents(): seq<Event> {
    CommandEvents(SLEEP_OUT, []) + [Delay(120)]
    + CommandEvents(PIXEL_FORMAT, [0x55]) + CommandEvents(WRITE_BRIGHTNESS, [0x00])
    + CommandEvents(DISPLAY_ON, []) + [Delay(10)]
    + CommandEvents(WRITE_BRIGHTNESS, [0xE0])
  }

  /** `n` copies of `s`, one after the other. */
  function Repeat<T>(s: seq<T>, n: nat): seq<T> {
    if n == 0 then [] else Repeat(s, n - 1) + s
  }

  /** `initialize`: three rounds of the power-up sequence, then the
      orientation register. */
  function InitializeEvents(o: Orientation): seq<Event> {
    Repeat(InitBlockEvents(), 3) + CommandEvents(MEMORY_ACCESS_CONTROL, [ToMadctr(o)])
  }

  /** The window covering the whole screen in orientation `o`. */
  function ScreenWindow(o: Orientation): (w: Window)
    ensures w.x1 == 0 && w.y1 == 0
    ensures w.x2 + 1 == SizeOf(o).width && w.y2 + 1 == SizeOf(o).height
  {
    SizeTable(o);
    Window(0, 0, AsU16(SizeOf(o).width) - 1, AsU16(SizeOf(o).height) - 1)
  }

  /** `fill_with`: the whole screen as the window, then the exact chunks. */
  function FillWithEvents(o: Orientation, frame: seq<Byte>): seq<Event> {
    BurstEvents(ScreenWindow(o), ExactChunks(frame))
  }

  /** `draw_point`: a one-pixel window, then one first chunk with the colour. */
  function DrawPointEvents(x: U16, y: U16, color: U16): seq<Event> {
    BurstEvents(Window(x, y, x, y), [Be16(color)])
  }

  /** `version`: the identification read, bracketed by chip-select. */
  function VersionEvents(): seq<Event> {
    [CsLow] + [IdRead([0xFF, 0xFF, 0xFF])] + [CsHigh]
  }

  // ---------------------------------------------------------------------------
  // What the event sequences carry

  /** The chunk framing a burst must have: its chunks in order, the first one
      flagged first and no other. */
  function Framing(chs: seq<seq<Byte>>): (ks: seq<Chunk>)
    ensures |ks| == |chs|
  {
    seq(|chs|, i requires 0 <= i < |chs| => Chunk(i == 0, chs[i]))
  }

  /** The transaction of one command: a bracket holding its command write
      and nothing else. */
  function CommandTxn(c: Cmd): Txn {
    Framed([CommandWrite(c.code, c.params)])
  }

  /** Commands in order, each in a bracket of its own. */
  function CommandTxns(cs: seq<Cmd>): (ts: seq<Txn>)
    ensures |ts| == |cs|
  {
    seq(|cs|, i requires 0 <= i < |cs| => CommandTxn(cs[i]))
  }

  /** A command is exactly one command write inside its own chip-select
      bracket. */
  lemma CommandShape(code: Byte, params: seq<Byte>)
    ensures Commands(CommandEvents(code, params)) == [Cmd(code, params)]
    ensures Chunks(CommandEvents(code, params)) == [] && Delays(CommandEvents(code, params)) == []
    ensures CsLowCount(CommandEvents(code, params)) == 1
    ensures Closed(CommandEvents(code, params))
    ensures Txns(CommandEvents(code, params)) == [CommandTxn(Cmd(code, params))]
    ensures Settled(CommandEvents(code, params))
  {
    var w := CommandWrite(code, params);
    FramedTxns([w]);
    assert [w][1..] == [] && [w][..0] == [];
    BurstClosed([w]);
    LogAppend([CsLow], [w]);
    LogAppend([CsLow] + [w], [CsHigh]);
  }

  /** Commands issued one after the other decode back to the same commands,
      each in a bracket of its own. */
  lemma {:induction false} CommandsShape(cs: seq<Cmd>)
    ensures Commands(CommandsEvents(cs)) == cs
    ensures Chunks(CommandsEvents(cs)) == [] && Delays(CommandsEvents(cs)) == []
    ensures CsLowCount(CommandsEvents(cs)) == |cs|
    ensures cs != [] ==> Closed(CommandsEvents(cs))
    ensures Txns(CommandsEvents(cs)) == CommandTxns(cs) && Settled(CommandsEvents(cs))
  {
    if cs != [] {
      var init, c := cs[..|cs| - 1], cs[|cs| - 1];
      CommandsShape(init);
      CommandShape(c.code, c.params);
      LogAppend(CommandsEvents(init), CommandEvents(c.code, c.params));
      TxnsAppend(CommandsEvents(init), CommandEvents(c.code, c.params));
      assert CommandTxns(cs) == CommandTxns(init) + [CommandTxn(c)];
      if init != [] {
        ClosedAppend(CommandsEvents(init), CommandEvents(c.code, c.params));
      } else {
        assert CommandsEvents(cs) == CommandEvents(c.code, c.params);
      }
    }
  }

  /** `set_address` issues exactly the three window commands, each in its
      own bracket, and they parse back to the window. */
  lemma WindowShape(w: Window)
    ensures Commands(WindowEvents(w)) == WindowCommands(w)
    ensures ParseWindow(Commands(WindowEvents(w))) == Some(w)
    ensures Chunks(WindowEvents(w)) == [] && Delays(WindowEvents(w)) == []
    ensures CsLowCount(WindowEvents(w)) == 3
    ensures Closed(WindowEvents(w))
    ensures Txns(WindowEvents(w)) == CommandTxns(WindowCommands(w)) && Settled(WindowEvents(w))
  {
    CommandsShape(WindowCommands(w));
    WindowRoundTrip(WindowCommands(w), w);
  }

  /** A burst's writes decode to its chunks in order, only the first flagged
      first; they hold no command and no chip-select change, so they stay
      inside the bracket around them. */
  lemma {:induction false} StreamWritesShape(chs: seq<seq<Byte>>)
    ensures Chunks(StreamWrites(chs)) == Framing(chs)
    ensures Commands(StreamWrites(chs)) == [] && Delays(StreamWrites(chs)) == []
    ensures CsLowCount(StreamWrites(chs)) == 0
    ensures Bracketed(true, StreamWrites(chs)) && CsAfter(true, StreamWrites(chs))
  {
    if chs != [] {
      var init := chs[..|chs| - 1];
      var e := ChunkWrite(|chs| == 1, chs[|chs| - 1]);
      var es := StreamWrites(init);
      StreamWritesShape(init);
      LogAppend(es, [e]);
      assert [e][1..] == [];
      assert (es + [e])[..|es|] == es;
      assert Framing(chs) == Framing(init) + [Chunk(|chs| == 1, chs[|chs| - 1])];
    }
  }

  /** A burst's writes are all transfers on the bus. */
  lemma {:induction false} StreamWritesTransfers(chs: seq<seq<Byte>>)
    ensures forall i :: 0 <= i < |StreamWrites(chs)| ==> StreamWrites(chs)[i].IsTransfer()
  {
    if chs != [] {
      StreamWritesTransfers(chs[..|chs| - 1]);
    }
  }

  lemma StreamWritesSnoc(chs: seq<seq<Byte>>, c: seq<Byte>)
    ensures StreamWrites(chs + [c]) == StreamWrites(chs) + [ChunkWrite(chs == [], c)]
  {
    assert (chs + [c])[..|chs|] == chs;
  }

  lemma BurstClosed(s: seq<Event>)
    requires Bracketed(true, s) && CsAfter(true, s)
    ensures Closed([CsLow] + s + [CsHigh])
  {
    forall low | true
      ensures Bracketed(low, [CsLow] + s + [CsHigh]) && !CsAfter(low, [CsLow] + s + [CsHigh])
    {
      assert [CsLow][..0] == [];
      assert CsAfter(low, [CsLow]);
      BracketedAppend(low, [CsLow], s);
      CsAfterAppend(low, [CsLow], s);
      BracketedAppend(low, [CsLow] + s, [CsHigh]);
      CsAfterAppend(low, [CsLow] + s, [CsHigh]);
      assert [CsHigh][..0] == [];
    }
  }

  /** A burst sets the window once, then opens one chip-select bracket in
      which its chunks go out in order, only the first framed as first. */
  lemma BurstShape(w: Window, chs: seq<seq<Byte>>)
    ensures Commands(BurstEvents(w, chs)) == WindowCommands(w)
    ensures ParseWindow(Commands(BurstEvents(w, chs))) == Some(w)
    ensures Chunks(BurstEvents(w, chs)) == Framing(chs)
    ensures Delays(BurstEvents(w, chs)) == [] && CsLowCount(BurstEvents(w, chs)) == 4
    ensures Closed(BurstEvents(w, chs))
    ensures Txns(BurstEvents(w, chs)) == CommandTxns(WindowCommands(w)) + [Framed(StreamWrites(chs))]
    ensures Settled(BurstEvents(w, chs))
  {
    var a := WindowEvents(w);
    var s := StreamWrites(chs);
    WindowShape(w);
    StreamWritesShape(chs);
    BracketShape(s);
    StreamWritesTransfers(chs);
    FramedTxns(s);
    TxnsAppend(a, [CsLow] + s + [CsHigh]);
    LogAppend(a, [CsLow] + s + [CsHigh]);
    ClosedAppend(a, [CsLow] + s + [CsHigh]);
  }

  /** Wrapping events in one chip-select bracket adds one assertion of
      chip-select and nothing that decodes to a command, chunk or delay. */
  lemma BracketShape(s: seq<Event>)
    requires Bracketed(true, s) && CsAfter(true, s)
    ensures Commands([CsLow] + s + [CsHigh]) == Commands(s)
    ensures Chunks([CsLow] + s + [CsHigh]) == Chunks(s)
    ensures Delays([CsLow] + s + [CsHigh]) == Delays(s)
    ensures CsLowCount([CsLow] + s + [CsHigh]) == CsLowCount(s) + 1
    ensures Closed([CsLow] + s + [CsHigh])
  {
    assert [CsLow][1..] == [] && [CsHigh][1..] == [];
    LogAppend([CsLow], s);
    LogAppend([CsLow] + s, [CsHigh]);
    BurstClosed(s);
  }

  /** `reset` touches only the reset line and waits 300 ms, then 200 ms. */
  lemma ResetShape()
    ensures Decoded(ResetEvents(), AsTransfer) == [] && Delays(ResetEvents()) == [300, 200]
    ensures Idle(ResetEvents())
    ensures Txns(ResetEvents()) == [ResetLevel(true), Wait(300), ResetLevel(false), Wait(200)]
    ensures Settled(ResetEvents())
  {
    var es := ResetEvents();
    var r0 := Reader([], None);
    assert es[..1][..0] == [] && es[..2][..1] == es[..1] && es[..3][..2] == es[..2];
    assert es[..4][..3] == es[..3] && es[..4] == es;
    assert ScanAll(r0, es[..1]) == Reader([ResetLevel(true)], None);
    assert ScanAll(r0, es[..2]) == Reader([ResetLevel(true), Wait(300)], None);
    assert ScanAll(r0, es[..3]) == Reader([ResetLevel(true), Wait(300), ResetLevel(false)], None);
    assert es[1..][1..][1..][1..] == [];
    IdleAll(es);
  }

  /** One step of a fixed command script: a command, or a pause. */
  datatype Step = Issue(cmd: Cmd) | Pause(ms: nat)

  /** The commands of a script, in order. */
  function Issued(steps: seq<Step>): seq<Cmd> {
    if steps == [] then []
    else Issued(steps[..|steps| - 1]) + (match steps[|steps| - 1] case Issue(c) => [c] case Pause(_) => [])
  }

  /** The pauses of a script, in order. */
  function Pauses(steps: seq<Step>): seq<nat> {
    if steps == [] then []
    else Pauses(steps[..|steps| - 1]) + (match steps[|steps| - 1] case Issue(_) => [] case Pause(ms) => [ms])
  }

  function StepEvents(st: Step): seq<Event> {
    match st
    case Issue(c) => CommandEvents(c.code, c.params)
    case Pause(ms) => [Delay(ms)]
  }

  /** The transaction of one step: a command in its own bracket, or a wait. */
  function StepTxn(st: Step): Txn {
    match st
    case Issue(c) => CommandTxn(c)
    case Pause(ms) => Wait(ms)
  }

  /** The transactions of a script, one per step, in order. */
  function ScriptTxns(steps: seq<Step>): (ts: seq<Txn>)
    ensures |ts| == |steps|
  {
    seq(|steps|, i requires 0 <= i < |steps| => StepTxn(steps[i]))
  }

  /** A script run step by step. */
  function ScriptEvents(steps: seq<Step>): seq<Event> {
    if steps == [] then [] else ScriptEvents(steps[..|steps| - 1]) + StepEvents(steps[|steps| - 1])
  }

  /** A delay decodes to itself and to nothing else. */
  lemma DelayShape(ms: nat)
    ensures Commands([Delay(ms)]) == [] && Chunks([Delay(ms)]) == []
    ensures Delays([Delay(ms)]) == [ms] && CsLowCount([Delay(ms)]) == 0
  {
    assert [Delay(ms)][1..] == [];
  }

  /** The transactions of a script give the script back: different scripts
      make different transactions. */
  lemma ScriptTxnsInjective(a: seq<Step>, b: seq<Step>)
    ensures ScriptTxns(a) == ScriptTxns(b) <==> a == b
  {
    if ScriptTxns(a) == ScriptTxns(b) {
      forall i | 0 <= i < |a|
        ensures a[i] == b[i]
      {
        assert StepTxn(a[i]) == ScriptTxns(a)[i] == ScriptTxns(b)[i] == StepTxn(b[i]);
        if a[i].Issue? && b[i].Issue? {
          assert CommandWrite(a[i].cmd.code, a[i].cmd.params).address.addr == a[i].cmd.code * 0x100;
        }
      }
    }
  }

  /** A script issues its commands, each in its own bracket, and its pauses,
      in order and nothing else; once it opens with a command it leaves
      chip-select high whatever the level before it. */
  lemma {:induction false} ScriptShape(steps: seq<Step>)
    ensures Commands(ScriptEvents(steps)) == Issued(steps)
    ensures Delays(ScriptEvents(steps)) == Pauses(steps)
    ensures Chunks(ScriptEvents(steps)) == [] && CsLowCount(ScriptEvents(steps)) == |Issued(steps)|
    ensures steps != [] && steps[0].Issue? ==> Closed(ScriptEvents(steps))
  {
    if steps != [] {
      var init, st := steps[..|steps| - 1], steps[|steps| - 1];
      ScriptShape(init);
      LogAppend(ScriptEvents(init), StepEvents(st));
      match st
      case Issue(c) =>
        CommandShape(c.code, c.params);
        if init == [] {
          assert ScriptEvents(steps) == StepEvents(st);
        } else if steps[0].Issue? {
          assert init[0] == steps[0];
          ClosedAppend(ScriptEvents(init), StepEvents(st));
        }
      case Pause(ms) =>
        DelayShape(ms);
        if init != [] && steps[0].Issue? {
          assert init[0] == steps[0];
          IdleAppend(ScriptEvents(init), ms);
        }
    }
  }

  /** Read as transactions, a script is its steps in order: each command in
      a bracket of its own, each pause a wait between them. */
  lemma {:induction false} ScriptTransactions(steps: seq<Step>)
    ensures Txns(ScriptEvents(steps)) == ScriptTxns(steps) && Settled(ScriptEvents(steps))
  {
    if steps != [] {
      var init, st := steps[..|steps| - 1], steps[|steps| - 1];
      ScriptTransactions(init);
      TxnsAppend(ScriptEvents(init), StepEvents(st));
      assert ScriptTxns(steps) == ScriptTxns(init) + [StepTxn(st)];
      match st
      case Issue(c) =>
        CommandShape(c.code, c.params);
      case Pause(ms) =>
        WaitTxns(ms);
    }
  }

  /** One round of the power-up sequence as a script. */
  function PowerUpScript(): seq<Step> {
    [Issue(Cmd(SLEEP_OUT, [])), Pause(120), Issue(Cmd(PIXEL_FORMAT, [0x55])),
     Issue(Cmd(WRITE_BRIGHTNESS, [0x00])), Issue(Cmd(DISPLAY_ON, [])), Pause(10),
     Issue(Cmd(WRITE_BRIGHTNESS, [0xE0]))]
  }

  /** The prefixes of the power-up script, one step at a time. */
  lemma PowerUpPrefixes()
    ensures PowerUpScript()[..1][..0] == []
    ensures forall k :: 1 <= k < 7 ==> PowerUpScript()[..k + 1][..k] == PowerUpScript()[..k]
    ensures PowerUpScript()[..7] == PowerUpScript()
  {
  }

  /** The power-up script runs as the power-up round. */
  lemma PowerUpScriptEvents()
    ensures ScriptEvents(PowerUpScript()) == InitBlockEvents()
  {
    var p := PowerUpScript();
    PowerUpPrefixes();
    assert ScriptEvents(p[..1]) == CommandEvents(SLEEP_OUT, []);
    assert ScriptEvents(p[..2]) == ScriptEvents(p[..1]) + [Delay(120)];
    assert ScriptEvents(p[..3]) == ScriptEvents(p[..2]) + CommandEvents(PIXEL_FORMAT, [0x55]);
    assert ScriptEvents(p[..4]) == ScriptEvents(p[..3]) + CommandEvents(WRITE_BRIGHTNESS, [0x00]);
    assert ScriptEvents(p[..5]) == ScriptEvents(p[..4]) + CommandEvents(DISPLAY_ON, []);
    assert ScriptEvents(p[..6]) == ScriptEvents(p[..5]) + [Delay(10)];
    assert ScriptEvents(p[..7]) == ScriptEvents(p[..6]) + CommandEvents(WRITE_BRIGHTNESS, [0xE0]);
  }

  /** The power-up script issues the round's five commands ... */
  lemma PowerUpScriptCommands()
    ensures Issued(PowerUpScript()) == InitBlockCommands()
  {
    var p := PowerUpScript();
    PowerUpPrefixes();
    var c1, c2, c3 := Cmd(SLEEP_OUT, []), Cmd(PIXEL_FORMAT, [0x55]), Cmd(WRITE_BRIGHTNESS, [0x00]);
    var c4 := Cmd(DISPLAY_ON, []);
    assert Issued(p[..1]) == [c1];
    assert Issued(p[..2]) == [c1];
    assert Issued(p[..3]) == [c1, c2];
    assert Issued(p[..4]) == [c1, c2, c3];
    assert Issued(p[..5]) == [c1, c2, c3, c4];
    assert Issued(p[..6]) == [c1, c2, c3, c4];
  }

  /** ... and its two pauses. */
  lemma PowerUpScriptPauses()
    ensures Pauses(PowerUpScript()) == [120, 10]
  {
    var p := PowerUpScript();
    PowerUpPrefixes();
    assert Pauses(p[..1]) == [];
    assert Pauses(p[..2]) == [120];
    assert Pauses(p[..3]) == [120];
    assert Pauses(p[..4]) == [120];
    assert Pauses(p[..5]) == [120];
    assert Pauses(p[..6]) == [120, 10];
  }

  /** The commands of one power-up round. */
  function InitBlockCommands(): seq<Cmd> {
    [Cmd(SLEEP_OUT, []), Cmd(PIXEL_FORMAT, [0x55]), Cmd(WRITE_BRIGHTNESS, [0x00]),
     Cmd(DISPLAY_ON, []), Cmd(WRITE_BRIGHTNESS, [0xE0])]
  }

  /** The transactions of one power-up round. */
  function PowerUpTxns(): seq<Txn> {
    [CommandTxn(Cmd(SLEEP_OUT, [])), Wait(120), CommandTxn(Cmd(PIXEL_FORMAT, [0x55])),
     CommandTxn(Cmd(WRITE_BRIGHTNESS, [0x00])), CommandTxn(Cmd(DISPLAY_ON, [])), Wait(10),
     CommandTxn(Cmd(WRITE_BRIGHTNESS, [0xE0]))]
  }

  /** The power-up script's steps are the power-up round's transactions. */
  lemma PowerUpScriptTxns()
    ensures ScriptTxns(PowerUpScript()) == PowerUpTxns()
  {
  }

  /** A power-up round issues its five commands, each in its own bracket,
      waits 120 ms after the first and 10 ms after the fourth, and sends no
      pixels. */
  lemma InitBlockShape()
    ensures Commands(InitBlockEvents()) == InitBlockCommands()
    ensures Delays(InitBlockEvents()) == [120, 10]
    ensures Chunks(InitBlockEvents()) == [] && CsLowCount(InitBlockEvents()) == 5
    ensures Closed(InitBlockEvents())
    ensures Txns(InitBlockEvents()) == PowerUpTxns() && Settled(InitBlockEvents())
  {
    PowerUpScriptEvents();
    PowerUpScriptCommands();
    PowerUpScriptPauses();
    ScriptShape(PowerUpScript());
    ScriptTransactions(PowerUpScript());
    PowerUpScriptTxns();
  }

  /** `n` copies of a closed log issue its commands, delays and chunks `n`
      times over and are closed again. */
  lemma {:induction false} RepeatShape(es: seq<Event>, n: nat)
    requires Closed(es) && Settled(es)
    ensures Commands(Repeat(es, n)) == Repeat(Commands(es), n)
    ensures Delays(Repeat(es, n)) == Repeat(Delays(es), n)
    ensures Chunks(Repeat(es, n)) == Repeat(Chunks(es), n)
    ensures CsLowCount(Repeat(es, n)) == n * CsLowCount(es)
    ensures n > 0 ==> Closed(Repeat(es, n))
    ensures Txns(Repeat(es, n)) == Repeat(Txns(es), n) && Settled(Repeat(es, n))
  {
    if n > 0 {
      RepeatShape(es, n - 1);
      LogAppend(Repeat(es, n - 1), es);
      TxnsAppend(Repeat(es, n - 1), es);
      if n > 1 {
        ClosedAppend(Repeat(es, n - 1), es);
      } else {
        assert Repeat(es, n) == es;
      }
    }
  }

  /** A command after a closed log adds that command and nothing else, and
      the log stays closed. */
  lemma ThenCommand(es: seq<Event>, code: Byte, params: seq<Byte>)
    requires Closed(es) && Settled(es)
    ensures Commands(es + CommandEvents(code, params)) == Commands(es) + [Cmd(code, params)]
    ensures Delays(es + CommandEvents(code, params)) == Delays(es)
    ensures Chunks(es + CommandEvents(code, params)) == Chunks(es)
    ensures CsLowCount(es + CommandEvents(code, params)) == CsLowCount(es) + 1
    ensures Closed(es + CommandEvents(code, params))
    ensures Txns(es + CommandEvents(code, params)) == Txns(es) + [CommandTxn(Cmd(code, params))]
  {
    CommandShape(code, params);
    TxnsAppend(es, CommandEvents(code, params));
    LogAppend(es, CommandEvents(code, params));
    ClosedAppend(es, CommandEvents(code, params));
  }

  lemma {:induction false} RepeatNothing<T>(n: nat)
    ensures Repeat<T>([], n) == []
  {
    if n > 0 {
      RepeatNothing<T>(n - 1);
    }
  }

  /** `initialize` runs the power-up round three times, then writes the
      memory-access-control register for the orientation, each command in
      its own bracket (sixteen chip-select assertions, one per command), and
      sends no pixels. */
  lemma InitializeShape(o: Orientation)
    ensures Commands(InitializeEvents(o)) == Repeat(InitBlockCommands(), 3) + [Cmd(MEMORY_ACCESS_CONTROL, [ToMadctr(o)])]
    ensures Delays(InitializeEvents(o)) == Repeat([120, 10], 3)
    ensures Chunks(InitializeEvents(o)) == []
    ensures CsLowCount(InitializeEvents(o)) == 16
    ensures Closed(InitializeEvents(o))
    ensures Txns(InitializeEvents(o)) == Repeat(PowerUpTxns(), 3) + [CommandTxn(Cmd(MEMORY_ACCESS_CONTROL, [ToMadctr(o)]))]
  {
    var b := InitBlockEvents();
    InitBlockShape();
    RepeatShape(b, 3);
    RepeatNothing<Chunk>(3);
    ThenCommand(Repeat(b, 3), MEMORY_ACCESS_CONTROL, [ToMadctr(o)]);
  }

  /** `initialize` issues sixteen commands. */
  lemma InitializeCommandCount(o: Orientation)
    ensures |Commands(InitializeEvents(o))| == 16
  {
    InitializeShape(o);
    var cs := InitBlockCommands();
    assert |Repeat(cs, 1)| == 5;
    assert |Repeat(cs, 2)| == 10;
  }

  /** `set_orientation` writes the register value of the new orientation and
      nothing else. */
  lemma SetOrientationShape(o: Orientation)
    ensures Commands(CommandEvents(MEMORY_ACCESS_CONTROL, [ToMadctr(o)])) == [Cmd(MEMORY_ACCESS_CONTROL, [ToMadctr(o)])]
    ensures Closed(CommandEvents(MEMORY_ACCESS_CONTROL, [ToMadctr(o)]))
    ensures Txns(CommandEvents(MEMORY_ACCESS_CONTROL, [ToMadctr(o)])) == [CommandTxn(Cmd(MEMORY_ACCESS_CONTROL, [ToMadctr(o)]))]
  {
    CommandShape(MEMORY_ACCESS_CONTROL, [ToMadctr(o)]);
  }

  // ---------------------------------------------------------------------------
  // Splitting a frame into chunks

  /** The pieces `chunks_exact(BUFFER_SIZE)` yields: consecutive slices of
      BUFFER_SIZE bytes, as long as a whole slice remains. */
  function ExactChunks(frame: seq<Byte>): seq<seq<Byte>>
    decreases |frame|
  {
    if |frame| < BUFFER_SIZE then [] else [frame[..BUFFER_SIZE]] + ExactChunks(frame[BUFFER_SIZE..])
  }

  /** The part of the frame that whole chunks cover. */
  function WholeChunksPrefix(frame: seq<Byte>): seq<Byte> {
    frame[..|frame| - |frame| % BUFFER_SIZE]
  }

  /** `chunks_exact` yields |frame| / BUFFER_SIZE chunks of exactly
      BUFFER_SIZE bytes whose concatenation is the frame up to the last whole
      chunk: the bytes past it are not part of any chunk. */
  lemma {:induction false} ExactChunksShape(frame: seq<Byte>)
    ensures |ExactChunks(frame)| == |frame| / BUFFER_SIZE
    ensures forall k :: 0 <= k < |ExactChunks(frame)| ==> |ExactChunks(frame)[k]| == BUFFER_SIZE
    ensures Flatten(ExactChunks(frame)) == WholeChunksPrefix(frame)
    decreases |frame|
  {
    if |frame| >= BUFFER_SIZE {
      var rest := frame[BUFFER_SIZE..];
      ExactChunksShape(rest);
      var chs := ExactChunks(frame);
      assert chs[1..] == ExactChunks(rest);
      assert |frame| / BUFFER_SIZE == |rest| / BUFFER_SIZE + 1;
      assert frame[..BUFFER_SIZE] + rest[..|rest| - |rest| % BUFFER_SIZE]
          == frame[..|frame| - |frame| % BUFFER_SIZE];
    }
  }

  /** The bytes of the chunks, one after the other. */
  function Flatten(chs: seq<seq<Byte>>): seq<Byte> {
    if chs == [] then [] else chs[0] + Flatten(chs[1..])
  }

  /** The payloads of decoded chunks. */
  function ChunkBytes(ks: seq<Chunk>): (chs: seq<seq<Byte>>)
    ensures |chs| == |ks|
  {
    seq(|ks|, i requires 0 <= i < |ks| => ks[i].bytes)
  }

  /** The payloads of a burst's framing are the burst's chunks. */
  lemma FramingBytes(chs: seq<seq<Byte>>)
    ensures ChunkBytes(Framing(chs)) == chs
  {
  }

  /** `fill_with` sets the whole screen as the window, then sends the exact
      chunks in order, only the first framed as first, all inside one
      chip-select bracket of their own. */
  lemma FillWithShape(o: Orientation, frame: seq<Byte>)
    ensures ParseWindow(Commands(FillWithEvents(o, frame))) == Some(ScreenWindow(o))
    ensures Chunks(FillWithEvents(o, frame)) == Framing(ExactChunks(frame))
    ensures Delays(FillWithEvents(o, frame)) == [] && CsLowCount(FillWithEvents(o, frame)) == 4
    ensures Closed(FillWithEvents(o, frame))
    ensures Txns(FillWithEvents(o, frame))
         == CommandTxns(WindowCommands(ScreenWindow(o))) + [Framed(StreamWrites(ExactChunks(frame)))]
  {
    BurstShape(ScreenWindow(o), ExactChunks(frame));
  }

  /** The chunks `fill_with` sends: |frame| / BUFFER_SIZE of them, each of
      BUFFER_SIZE bytes; together they carry the frame up to its last whole
      chunk. */
  lemma FillWithChunks(o: Orientation, frame: seq<Byte>)
    ensures |Chunks(FillWithEvents(o, frame))| == |frame| / BUFFER_SIZE
    ensures forall k :: 0 <= k < |Chunks(FillWithEvents(o, frame))| ==>
              |Chunks(FillWithEvents(o, frame))[k].bytes| == BUFFER_SIZE
    ensures Flatten(ChunkBytes(Chunks(FillWithEvents(o, frame)))) == WholeChunksPrefix(frame)
  {
    var chs := ExactChunks(frame);
    FillWithShape(o, frame);
    ExactChunksShape(frame);
    FramingBytes(chs);
  }

  /** As written, `fill_with` does not send a whole frame: 257280 bytes make
      15 chunks of 16368 bytes, and the last 11760 bytes are never sent. */
  lemma FillWithDropsTail(o: Orientation, frame: seq<Byte>)
    requires |frame| == FRAME_BYTES
    ensures |Chunks(FillWithEvents(o, frame))| == 15
    ensures |Flatten(ChunkBytes(Chunks(FillWithEvents(o, frame))))| == 245520 < |frame|
  {
    FillWithChunks(o, frame);
    FrameArithmetic();
  }

  /** A frame is 15 whole buffers and 11760 bytes. */
  lemma FrameArithmetic()
    ensures FRAME_BYTES / BUFFER_SIZE == 15 && FRAME_BYTES % BUFFER_SIZE == 11760
  {
  }

  /** The pieces `chunks(BUFFER_SIZE)` yields: as `ExactChunks`, plus the
      shorter remainder when there is one. */
  function AllChunks(frame: seq<Byte>): seq<seq<Byte>>
    decreases |frame|
  {
    if frame == [] then []
    else if |frame| <= BUFFER_SIZE then [frame]
    else [frame[..BUFFER_SIZE]] + AllChunks(frame[BUFFER_SIZE..])
  }

  /** `chunks` covers the whole frame: ceil(|frame| / BUFFER_SIZE) non-empty
      chunks of at most BUFFER_SIZE bytes whose concatenation is the frame. */
  lemma {:induction false} AllChunksShape(frame: seq<Byte>)
    ensures |AllChunks(frame)| == (|frame| + BUFFER_SIZE - 1) / BUFFER_SIZE
    ensures forall k :: 0 <= k < |AllChunks(frame)| ==> 0 < |AllChunks(frame)[k]| <= BUFFER_SIZE
    ensures Flatten(AllChunks(frame)) == frame
    decreases |frame|
  {
    if |frame| > BUFFER_SIZE {
      var rest := frame[BUFFER_SIZE..];
      AllChunksShape(rest);
      assert AllChunks(frame)[1..] == AllChunks(rest);
      assert frame[..BUFFER_SIZE] + rest == frame;
    } else if frame != [] {
      assert Flatten([frame]) == frame + Flatten([]);
    }
  }

  /** A full frame is 16 chunks under `chunks`. */
  lemma FullFrameChunkCount(frame: seq<Byte>)
    requires |frame| == FRAME_BYTES
    ensures |AllChunks(frame)| == 16
  {
    AllChunksShape(frame);
  }

  /** The frame upload `fill_with` is evidently meant to make: the whole
      screen as the window, then every byte of the frame. */
  function FullFillEvents(o: Orientation, frame: seq<Byte>): seq<Event> {
    BurstEvents(ScreenWindow(o), AllChunks(frame))
  }

  /** With `chunks` in place of `chunks_exact`, the bytes sent are exactly the
      frame, and a full frame goes out as 16 chunks. */
  lemma FullFillShape(o: Orientation, frame: seq<Byte>)
    ensures ParseWindow(Commands(FullFillEvents(o, frame))) == Some(ScreenWindow(o))
    ensures Flatten(ChunkBytes(Chunks(FullFillEvents(o, frame)))) == frame
    ensures |frame| == FRAME_BYTES ==> |Chunks(FullFillEvents(o, frame))| == 16
    ensures Closed(FullFillEvents(o, frame))
    ensures Txns(FullFillEvents(o, frame))
         == CommandTxns(WindowCommands(ScreenWindow(o))) + [Framed(StreamWrites(AllChunks(frame)))]
  {
    var chs := AllChunks(frame);
    BurstShape(ScreenWindow(o), chs);
    AllChunksShape(frame);
    FramingBytes(chs);
    if |frame| == FRAME_BYTES {
      FullFrameChunkCount(frame);
    }
  }

  /** `draw_point` sets the one-pixel window at (x, y) and sends the colour's
      two bytes as one first chunk; they decode back to the colour. */
  lemma DrawPointShape(x: U16, y: U16, color: U16)
    ensures ParseWindow(Commands(DrawPointEvents(x, y, color))) == Some(Window(x, y, x, y))
    ensures Chunks(DrawPointEvents(x, y, color)) == [Chunk(true, Be16(color))]
    ensures Word(Chunks(DrawPointEvents(x, y, color))[0].bytes[0], Chunks(DrawPointEvents(x, y, color))[0].bytes[1]) == color
    ensures Delays(DrawPointEvents(x, y, color)) == [] && CsLowCount(DrawPointEvents(x, y, color)) == 4
    ensures Closed(DrawPointEvents(x, y, color))
    ensures Txns(DrawPointEvents(x, y, color))
         == CommandTxns(WindowCommands(Window(x, y, x, y))) + [Framed([ChunkWrite(true, Be16(color))])]
  {
    BurstShape(Window(x, y, x, y), [Be16(color)]);
    assert StreamWrites([Be16(color)]) == [ChunkWrite(true, Be16(color))] by {
      StreamWritesSnoc([], Be16(color));
      assert [] + [Be16(color)] == [Be16(color)];
    }
    assert Framing([Be16(color)]) == [Chunk(true, Be16(color))];
    Be16RoundTrip(color);
  }

  /** `version` makes one read of the identification register, in its own
      chip-select bracket, and issues no command and no pixels. */
  lemma VersionShape()
    ensures Decoded(VersionEvents(), AsTransfer) == [IdRead([0xFF, 0xFF, 0xFF])]
    ensures Commands(VersionEvents()) == [] && Chunks(VersionEvents()) == []
    ensures Closed(VersionEvents())
    ensures Txns(VersionEvents()) == [Framed([IdRead([0xFF, 0xFF, 0xFF])])] && Settled(VersionEvents())
  {
    var r := IdRead([0xFF, 0xFF, 0xFF]);
    assert [r][..0] == [] && [r][1..] == [];
    BracketShape([r]);
    FramedTxns([r]);
    DecodedAppend([CsLow], [r], AsTransfer);
    DecodedAppend([CsLow] + [r], [CsHigh], AsTransfer);
    assert [CsLow][1..] == [] && [CsHigh][1..] == [];
  }

  // ---------------------------------------------------------------------------
  // The driver object

  /** The driver. Its collaborators are reduced to the log of calls made on
      them (`trace`) and the chip-select level (`csLow`, true when driven low). */
  class Rm67162 {
    var orientation: Orientation
    var csLow: bool
    var trace: seq<Event>
    /** The chip-select level the caller configured the line with. */
    ghost const csInitiallyLow: bool

    /** The recorded level is the one the log leads to, and every transfer in
        the log was issued while chip-select was low. */
    ghost predicate Valid()
      reads this
    {
      csLow == CsAfter(csInitiallyLow, trace) && Bracketed(csInitiallyLow, trace)
    }

    /** `new`: takes the bus, the chip-select line (at the level the caller
        set) and the orientation; issues nothing. */
    constructor (orientation: Orientation, csInitiallyLow: bool)
      ensures Valid()
      ensures this.orientation == orientation && csLow == csInitiallyLow && trace == []
      ensures this.csInitiallyLow == csInitiallyLow
    {
      this.orientation := orientation;
      this.csInitiallyLow := csInitiallyLow;
      csLow := csInitiallyLow;
      trace := [];
    }

    /** One call on a collaborator: a chip-select or reset level, a delay, or
        a transfer, which the bus takes only while chip-select is low. */
    method Emit(e: Event)
      requires Valid() && (e.IsTransfer() ==> csLow)
      modifies this
      ensures Valid() && orientation == old(orientation)
      ensures trace == old(trace) + [e] && csLow == CsStep(old(csLow), e)
    {
      assert (trace + [e])[..|trace|] == trace;
      trace := trace + [e];
      csLow := CsStep(csLow, e);
    }

    /** `reset`, with the reset line as the pins it drives. */
    method Reset()
      requires Valid()
      modifies this
      ensures Valid() && orientation == old(orientation) && csLow == old(csLow)
      ensures trace == old(trace) + ResetEvents()
    {
      Emit(ResetLow);
      Emit(Delay(300));
      Emit(ResetHigh);
      Emit(Delay(200));
    }

    /** `command`. */
    method Command(code: Byte, params: seq<Byte>) returns (r: SpiResult<()>)
      requires Valid()
      modifies this
      ensures Valid() && orientation == old(orientation) && !csLow
      ensures trace == old(trace) + CommandEvents(code, params)
      ensures r == Ok(())
    {
      Emit(CsLow);
      Emit(CommandWrite(code, params));
      Emit(CsHigh);
      r := Ok(());
    }

    /** `initialize`. */
    method Initialize()
      requires Valid()
      modifies this
      ensures Valid() && orientation == old(orientation) && !csLow
      ensures trace == old(trace) + InitializeEvents(orientation)
    {
      for i := 0 to 3
        invariant Valid() && orientation == old(orientation)
        invariant trace == old(trace) + Repeat(InitBlockEvents(), i)
      {
        ghost var t0 := trace;
        var _ := Command(SLEEP_OUT, []);
        ghost var done := CommandEvents(SLEEP_OUT, []);
        Emit(Delay(120));
        Extend(t0, done, [Delay(120)]);
        done := done + [Delay(120)];
        var _ := Command(PIXEL_FORMAT, [0x55]);
        Extend(t0, done, CommandEvents(PIXEL_FORMAT, [0x55]));
        done := done + CommandEvents(PIXEL_FORMAT, [0x55]);
        var _ := Command(WRITE_BRIGHTNESS, [0x00]);
        Extend(t0, done, CommandEvents(WRITE_BRIGHTNESS, [0x00]));
        done := done + CommandEvents(WRITE_BRIGHTNESS, [0x00]);
        var _ := Command(DISPLAY_ON, []);
        Extend(t0, done, CommandEvents(DISPLAY_ON, []));
        done := done + CommandEvents(DISPLAY_ON, []);
        Emit(Delay(10));
        Extend(t0, done, [Delay(10)]);
        done := done + [Delay(10)];
        var _ := Command(WRITE_BRIGHTNESS, [0xE0]);
        Extend(t0, done, CommandEvents(WRITE_BRIGHTNESS, [0xE0]));
        done := done + CommandEvents(WRITE_BRIGHTNESS, [0xE0]);
        assert done == InitBlockEvents();
        Extend(old(trace), Repeat(InitBlockEvents(), i), InitBlockEvents());
        assert Repeat(InitBlockEvents(), i + 1) == Repeat(InitBlockEvents(), i) + InitBlockEvents();
      }
      var _ := Command(MEMORY_ACCESS_CONTROL, [ToMadctr(orientation)]);
      Extend(old(trace), Repeat(InitBlockEvents(), 3), CommandEvents(MEMORY_ACCESS_CONTROL, [ToMadctr(orientation)]));
    }

    /** `set_orientation`: stores the orientation, then writes its register value. */
    method SetOrientation(o: Orientation) returns (r: SpiResult<()>)
      requires Valid()
      modifies this
      ensures Valid() && orientation == o && !csLow
      ensures trace == old(trace) + CommandEvents(MEMORY_ACCESS_CONTROL, [ToMadctr(o)])
      ensures r == Ok(())
    {
      orientation := o;
      r := Command(MEMORY_ACCESS_CONTROL, [ToMadctr(orientation)]);
    }

    /** `set_address`. */
    method SetAddress(x1: U16, y1: U16, x2: U16, y2: U16) returns (r: SpiResult<()>)
      requires Valid()
      modifies this
      ensures Valid() && orientation == old(orientation) && !csLow
      ensures trace == old(trace) + WindowEvents(Window(x1, y1, x2, y2))
      ensures r == Ok(())
    {
      ghost var cs := WindowCommands(Window(x1, y1, x2, y2));
      var _ := Command(COLUMN_ADDRESS_SET, Be16(x1) + Be16(x2));
      var _ := Command(ROW_ADDRESS_SET, Be16(y1) + Be16(y2));
      r := Command(MEMORY_WRITE, []);
      assert cs[..2][..1][..0] == [];
      assert CommandsEvents(cs[..1]) == CommandEvents(COLUMN_ADDRESS_SET, Be16(x1) + Be16(x2));
      assert CommandsEvents(cs[..2]) == CommandsEvents(cs[..1]) + CommandEvents(ROW_ADDRESS_SET, Be16(y1) + Be16(y2));
    }

    /** `send_chunk`: demands that chip-select is already low. */
    method SendChunk(chunk: seq<Byte>, isFirst: bool)
      requires Valid() && csLow
      modifies this
      ensures Valid() && orientation == old(orientation) && csLow
      ensures trace == old(trace) + [ChunkWrite(isFirst, chunk)]
    {
      Emit(ChunkWrite(isFirst, chunk));
    }

    /** `fill_with`: the frame buffer's bytes in `chunks_exact(BUFFER_SIZE)`
        pieces, inside one chip-select bracket. */
    method FillWith(frame: seq<Byte>) returns (r: SpiResult<()>)
      requires Valid()
      modifies this
      ensures Valid() && orientation == old(orientation) && !csLow
      ensures trace == old(trace) + FillWithEvents(orientation, frame)
      ensures r == Ok(())
    {
      var size := SizeOf(orientation);
      SizeTable(orientation);
      var _ := SetAddress(0, 0, AsU16(size.width) - 1, AsU16(size.height) - 1);
      ghost var before := trace;
      var isFirst := true;
      Emit(CsLow);
      var chunks := ExactChunks(frame);
      for k := 0 to |chunks|
        invariant Valid() && orientation == old(orientation) && csLow
        invariant isFirst == (k == 0)
        invariant trace == before + [CsLow] + StreamWrites(chunks[..k])
      {
        StreamWritesSnoc(chunks[..k], chunks[k]);
        assert chunks[..k + 1] == chunks[..k] + [chunks[k]];
        SendChunk(chunks[k], isFirst);
        Extend(before + [CsLow], StreamWrites(chunks[..k]), [ChunkWrite(k == 0, chunks[k])]);
        isFirst := false;
      }
      Emit(CsHigh);
      assert chunks[..|chunks|] == chunks;
      ghost var s := StreamWrites(chunks);
      Extend(before, [CsLow], s);
      Extend(before, [CsLow] + s, [CsHigh]);
      Extend(old(trace), WindowEvents(ScreenWindow(orientation)), [CsLow] + s + [CsHigh]);
      r := Ok(());
    }

    /** `draw_point`: a one-pixel window, then the colour's two bytes as a
        first-framed quad write. */
    method DrawPoint(x: U16, y: U16, color: U16) returns (r: SpiResult<()>)
      requires Valid()
      modifies this
      ensures Valid() && orientation == old(orientation) && !csLow
      ensures trace == old(trace) + DrawPointEvents(x, y, color)
      ensures r == Ok(())
    {
      var _ := SetAddress(x, y, x, y);
      ghost var before := trace;
      Emit(CsLow);
      Emit(ChunkWrite(true, Be16(color)));
      Emit(CsHigh);
      r := Ok(());
      ghost var s := StreamWrites([Be16(color)]);
      assert s == [ChunkWrite(true, Be16(color))] by {
        StreamWritesSnoc([], Be16(color));
        assert [] + [Be16(color)] == [Be16(color)];
      }
      Extend(before, [CsLow], s);
      Extend(before, [CsLow] + s, [CsHigh]);
      Extend(old(trace), WindowEvents(Window(x, y, x, y)), [CsLow] + s + [CsHigh]);
    }

    /** `version`: the three bytes the controller answers with are the input
        `reply`; the buffer handed to the bus starts as 0xFF, 0xFF, 0xFF. */
    method Version(reply: seq<Byte>) returns (r: SpiResult<seq<Byte>>)
      requires |reply| == 3
      requires Valid()
      modifies this
      ensures Valid() && orientation == old(orientation) && !csLow
      ensures trace == old(trace) + VersionEvents()
      ensures r == Ok(reply)
    {
      Emit(CsLow);
      var buf: seq<Byte> := [0xFF, 0xFF, 0xFF];
      Emit(IdRead(buf));
      buf := reply;
      Emit(CsHigh);
      r := Ok(buf);
    }
  }
}
