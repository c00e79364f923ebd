/** The driver's collaborators (the half-duplex SPI transport, the chip-select
    and reset lines, the delay source) replaced by an append-only log of the
    calls made on them, with the facts about such logs that do not depend on
    the display's protocol. */
module Bus {
  import opened Numeric

  datatype Option<+T> = None | Some(value: T)

  /** The transport returns `Ok` or a transport error. */
  datatype SpiResult<+T> = Ok(value: T) | TransportError

  /** Number of data lines used by one phase of a transfer. */
  datatype LaneMode = Single | Quad

  /** The command phase of a transfer: absent, or one byte. */
  datatype CommandPhase = NoCommand | Command8(code: Byte, mode: LaneMode)

  /** The address phase of a transfer: absent, or a 24-bit value. */
  datatype AddressPhase = NoAddress | Address24(addr: nat, mode: LaneMode)

  /** One call on a collaborator. `Read` records the request together with the
      contents of the buffer handed to the transport. */
  datatype Event =
    | Write(dataMode: LaneMode, command: CommandPhase, address: AddressPhase, dummy: nat, payload: seq<Byte>)
    | Read(dataMode: LaneMode, command: CommandPhase, address: AddressPhase, dummy: nat, buffer: seq<Byte>)
    | CsLow
    | CsHigh
    | ResetLow
    | ResetHigh
    | Delay(ms: nat)
  {
    /** A transfer on the bus, as opposed to a pin change or a delay. */
    predicate IsTransfer() {
      Write? || Read?
    }
  }

  /** The values `decode` recognises in `es`, in log order. */
  function Decoded<T>(es: seq<Event>, decode: Event -> Option<T>): (vs: seq<T>)
    ensures |vs| <= |es|
  {
    if es == [] then []
    else
      (match decode(es[0]) case Some(v) => [v] case None => []) + Decoded(es[1..], decode)
  }

  lemma {:induction false} DecodedAppend<T>(a: seq<Event>, b: seq<Event>, decode: Event -> Option<T>)
    ensures Decoded(a + b, decode) == Decoded(a, decode) + Decoded(b, decode)
  {
    if a == [] {
      assert a + b == b;
    } else {
      assert (a + b)[0] == a[0];
      assert (a + b)[1..] == a[1..] + b;
      DecodedAppend(a[1..], b, decode);
    }
  }

  /** Appending to a log in two steps is appending once. */
  lemma Extend(t: seq<Event>, a: seq<Event>, b: seq<Event>)
    ensures t + a + b == t + (a + b)
  {
  }

  function AsCsLow(e: Event): Option<Event> {
    if e.CsLow? then Some(e) else None
  }

  function AsDelay(e: Event): Option<nat> {
    if e.Delay? then Some(e.ms) else None
  }

  function AsTransfer(e: Event): Option<Event> {
    if e.IsTransfer() then Some(e) else None
  }

  /** The chip-select level (true for low, i.e. asserted) after one event. */
  function CsStep(low: bool, e: Event): bool {
    if e.CsLow? then true else if e.CsHigh? then false else low
  }

  /** The chip-select level after `es`, starting from level `low0`. */
  function CsAfter(low0: bool, es: seq<Event>): bool {
    if es == [] then low0 else CsStep(CsAfter(low0, es[..|es| - 1]), es[|es| - 1])
  }

  /** Every transfer in `es` happens while chip-select is low. */
  predicate Bracketed(low0: bool, es: seq<Event>) {
    es == [] ||
    (Bracketed(low0, es[..|es| - 1]) && (es[|es| - 1].IsTransfer() ==> CsAfter(low0, es[..|es| - 1])))
  }

  lemma {:induction false} CsAfterAppend(low0: bool, a: seq<Event>, b: seq<Event>)
    ensures CsAfter(low0, a + b) == CsAfter(CsAfter(low0, a), b)
    decreases |b|
  {
    if b == [] {
      assert a + b == a;
    } else {
      var b' := b[..|b| - 1];
      assert (a + b)[..|a + b| - 1] == a + b';
      CsAfterAppend(low0, a, b');
    }
  }

  lemma {:induction false} BracketedAppend(low0: bool, a: seq<Event>, b: seq<Event>)
    ensures Bracketed(low0, a + b) <==> Bracketed(low0, a) && Bracketed(CsAfter(low0, a), b)
    decreases |b|
  {
    if b == [] {
      assert a + b == a;
    } else {
      var b' := b[..|b| - 1];
      assert (a + b)[..|a + b| - 1] == a + b';
      BracketedAppend(low0, a, b');
      CsAfterAppend(low0, a, b');
    }
  }

  /** `es` keeps the bracketing and leaves chip-select high, whatever the
      level before it: it drives chip-select low before its first transfer and
      high after its last one. */
  predicate Closed(es: seq<Event>) {
    Bracketed(false, es) && Bracketed(true, es) && !CsAfter(false, es) && !CsAfter(true, es)
  }

  lemma ClosedAppend(a: seq<Event>, b: seq<Event>)
    requires Closed(a) && Closed(b)
    ensures Closed(a + b)
  {
    BracketedAppend(false, a, b);
    BracketedAppend(true, a, b);
    CsAfterAppend(false, a, b);
    CsAfterAppend(true, a, b);
  }

  /** A delay changes neither the bracketing nor the chip-select level. */
  lemma IdleAppend(a: seq<Event>, ms: nat)
    requires Closed(a)
    ensures Closed(a + [Delay(ms)])
  {
    assert (a + [Delay(ms)])[..|a|] == a;
  }

  /** `es` leaves the chip-select level as it was and issues no transfer. */
  predicate Idle(es: seq<Event>) {
    Bracketed(false, es) && Bracketed(true, es) && !CsAfter(false, es) && CsAfter(true, es)
  }

  lemma {:induction false} IdleAll(es: seq<Event>)
    requires forall i :: 0 <= i < |es| ==> !es[i].IsTransfer() && !es[i].CsLow? && !es[i].CsHigh?
    ensures Idle(es)
  {
    if es != [] {
      IdleAll(es[..|es| - 1]);
    }
  }

  /** What a log does, read one transaction at a time: a chip-select bracket
      with the transfers made inside it, a delay, a level driven on the reset
      line, or a transfer made while no bracket is open. */
  datatype Txn =
    | Framed(transfers: seq<Event>)
    | Wait(ms: nat)
    | ResetLevel(low: bool)
    | Stray(transfer: Event)

  /** The transactions read so far, and the bracket being read, if one is open. */
  datatype Reader = Reader(txns: seq<Txn>, open: Option<seq<Event>>)

  /** Reads one event. Driving chip-select low opens a bracket, driving it
      high closes the open one; a transfer joins the open bracket. A delay
      inside an open bracket is read before the bracket it falls in. Driving
      a level the line already has is not seen: a second low inside an open
      bracket, or a high with no bracket open, leaves the reading unchanged,
      so the number of assertions is stated with `CsLowCount`. */
  function Scan(r: Reader, e: Event): Reader {
    match e
    case CsLow => if r.open.Some? then r else Reader(r.txns, Some([]))
    case CsHigh => if r.open.Some? then Reader(r.txns + [Framed(r.open.value)], None) else r
    case Delay(ms) => Reader(r.txns + [Wait(ms)], r.open)
    case ResetLow => Reader(r.txns + [ResetLevel(true)], r.open)
    case ResetHigh => Reader(r.txns + [ResetLevel(false)], r.open)
    case _ =>
      if r.open.Some? then Reader(r.txns, Some(r.open.value + [e]))
      else Reader(r.txns + [Stray(e)], r.open)
  }

  function ScanAll(r: Reader, es: seq<Event>): Reader
    decreases |es|
  {
    if es == [] then r else Scan(ScanAll(r, es[..|es| - 1]), es[|es| - 1])
  }

  /** The transactions of a log read from its start. */
  function Txns(es: seq<Event>): seq<Txn> {
    ScanAll(Reader([], None), es).txns
  }

  /** A log that leaves no bracket open. */
  predicate Settled(es: seq<Event>) {
    ScanAll(Reader([], None), es).open == None
  }

  lemma {:induction false} ScanAllAppend(r: Reader, a: seq<Event>, b: seq<Event>)
    ensures ScanAll(r, a + b) == ScanAll(ScanAll(r, a), b)
    decreases |b|
  {
    if b == [] {
      assert a + b == a;
    } else {
      assert (a + b)[..|a + b| - 1] == a + b[..|b| - 1];
      ScanAllAppend(r, a, b[..|b| - 1]);
    }
  }

  lemma ScanShift(ts: seq<Txn>, r: Reader, e: Event)
    ensures Scan(Reader(ts + r.txns, r.open), e) == Reader(ts + Scan(r, e).txns, Scan(r, e).open)
  {
    forall t: Txn | true
      ensures ts + r.txns + [t] == ts + (r.txns + [t])
    {
    }
  }

  /** Reading further does not depend on the transactions already read. */
  lemma {:induction false} ScanAllShift(ts: seq<Txn>, open: Option<seq<Event>>, es: seq<Event>)
    ensures ScanAll(Reader(ts, open), es)
         == Reader(ts + ScanAll(Reader([], open), es).txns, ScanAll(Reader([], open), es).open)
    decreases |es|
  {
    if es == [] {
      assert ts + [] == ts;
    } else {
      ScanAllShift(ts, open, es[..|es| - 1]);
      ScanShift(ts, ScanAll(Reader([], open), es[..|es| - 1]), es[|es| - 1]);
    }
  }

  /** After a log that leaves no bracket open, the next log's transactions
      follow its own. */
  lemma TxnsAppend(a: seq<Event>, b: seq<Event>)
    requires Settled(a)
    ensures Txns(a + b) == Txns(a) + Txns(b)
    ensures Settled(a + b) == Settled(b)
  {
    ScanAllAppend(Reader([], None), a, b);
    assert ScanAll(Reader([], None), a) == Reader(Txns(a), None);
    ScanAllShift(Txns(a), None, b);
  }

  /** Transfers read while a bracket is open join it. */
  lemma {:induction false} ScanTransfers(ts: seq<Txn>, t: seq<Event>, es: seq<Event>)
    requires forall i :: 0 <= i < |es| ==> es[i].IsTransfer()
    ensures ScanAll(Reader(ts, Some(t)), es) == Reader(ts, Some(t + es))
    decreases |es|
  {
    if es == [] {
      assert t + es == t;
    } else {
      var init := es[..|es| - 1];
      ScanTransfers(ts, t, init);
      assert t + init + [es[|es| - 1]] == t + es;
    }
  }

  /** Transfers between chip-select low and high are read as one bracket
      holding exactly them. */
  lemma FramedTxns(s: seq<Event>)
    requires forall i :: 0 <= i < |s| ==> s[i].IsTransfer()
    ensures Txns([CsLow] + s + [CsHigh]) == [Framed(s)]
    ensures Settled([CsLow] + s + [CsHigh])
  {
    var r0 := Reader([], None);
    assert [CsLow][..0] == [] && [CsHigh][..0] == [];
    assert ScanAll(r0, [CsLow]) == Reader([], Some([]));
    ScanAllAppend(r0, [CsLow], s);
    ScanTransfers([], [], s);
    assert [] + s == s;
    ScanAllAppend(r0, [CsLow] + s, [CsHigh]);
  }

  /** A delay is read as one wait. */
  lemma WaitTxns(ms: nat)
    ensures Txns([Delay(ms)]) == [Wait(ms)] && Settled([Delay(ms)])
  {
    assert [Delay(ms)][..0] == [];
    assert ScanAll(Reader([], None), [Delay(ms)]) == Reader([] + [Wait(ms)], None);
    assert [] + [Wait(ms)] == [Wait(ms)];
  }
}
