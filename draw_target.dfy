/** The driver as a drawing surface: its reported size, drawing pixel by
    pixel, and filling a rectangle from a stream of colours. */
module DrawTarget {
  import opened Numeric
  import opened Bus
  import opened Orientations
  import opened Driver

  /** A point with signed 32-bit coordinates. */
  datatype Point = Point(x: I32, y: I32)

  /** A point and the Rgb565 colour to draw there. */
  datatype Pixel = Pixel(point: Point, color: U16)

  /** A rectangle: its top-left corner and its size. */
  datatype Rectangle = Rectangle(topLeft: Point, width: U32, height: U32)

  // ---------------------------------------------------------------------------
  // Drawing pixel by pixel

  /** A point the driver draws: neither coordinate is negative. */
  predicate Visible(p: Point) {
    p.x >= 0 && p.y >= 0
  }

  /** The pixels the driver draws, in order. */
  function Plotted(ps: seq<Pixel>): seq<Pixel> {
    if ps == [] then []
    else Plotted(ps[..|ps| - 1]) + (if Visible(ps[|ps| - 1].point) then [ps[|ps| - 1]] else [])
  }

  /** The pixels drawn are exactly the visible ones of the input. */
  lemma {:induction false} PlottedMembers(ps: seq<Pixel>)
    ensures forall p :: p in Plotted(ps) <==> p in ps && Visible(p.point)
    ensures |Plotted(ps)| <= |ps|
  {
    if ps != [] {
      var init, last := ps[..|ps| - 1], ps[|ps| - 1];
      PlottedMembers(init);
      assert ps == init + [last];
    }
  }

  /** One pixel: nothing for a point off the screen's negative side, else
      `draw_point` at the coordinates cast to `u16`. */
  function PixelEvents(px: Pixel): seq<Event> {
    if Visible(px.point) then DrawPointEvents(AsU16(px.point.x), AsU16(px.point.y), px.color) else []
  }

  /** `draw_iter`: the pixels one after the other. */
  function DrawIterEvents(ps: seq<Pixel>): seq<Event> {
    if ps == [] then [] else DrawIterEvents(ps[..|ps| - 1]) + PixelEvents(ps[|ps| - 1])
  }

  /** The window `draw_point` sets for a pixel. */
  function PixelWindow(px: Pixel): Window {
    Window(AsU16(px.point.x), AsU16(px.point.y), AsU16(px.point.x), AsU16(px.point.y))
  }

  /** The commands of the one-pixel windows of the pixels drawn, in order. */
  function PlotCommands(ps: seq<Pixel>): seq<Cmd> {
    if ps == [] then [] else PlotCommands(ps[..|ps| - 1]) + WindowCommands(PixelWindow(ps[|ps| - 1]))
  }

  /** The first-framed chunks carrying the colours of the pixels drawn. */
  function PlotChunks(ps: seq<Pixel>): seq<Chunk> {
    if ps == [] then [] else PlotChunks(ps[..|ps| - 1]) + [Chunk(true, Be16(ps[|ps| - 1].color))]
  }

  /** The transactions of one drawn pixel: its three window commands, each in
      its own bracket, then a bracket holding its colour chunk alone. */
  function PointTxns(px: Pixel): seq<Txn> {
    CommandTxns(WindowCommands(PixelWindow(px))) + [Framed([ChunkWrite(true, Be16(px.color))])]
  }

  /** The transactions of the pixels drawn, in order. */
  function PlotTxns(ps: seq<Pixel>): seq<Txn> {
    if ps == [] then [] else PlotTxns(ps[..|ps| - 1]) + PointTxns(ps[|ps| - 1])
  }

  /** One pixel's log: nothing for an invisible pixel; for a visible one its
      window and its colour chunk, closed. */
  lemma PixelShape(px: Pixel)
    ensures Commands(PixelEvents(px)) == if Visible(px.point) then WindowCommands(PixelWindow(px)) else []
    ensures Chunks(PixelEvents(px)) == if Visible(px.point) then [Chunk(true, Be16(px.color))] else []
    ensures Delays(PixelEvents(px)) == [] && CsLowCount(PixelEvents(px)) == if Visible(px.point) then 4 else 0
    ensures PixelEvents(px) == [] <==> !Visible(px.point)
    ensures Visible(px.point) ==> Closed(PixelEvents(px))
  {
    if Visible(px.point) {
      var w := PixelWindow(px);
      DrawPointShape(w.x1, w.y1, px.color);
      BurstShape(w, [Be16(px.color)]);
      CommandsShape(WindowCommands(w));
    }
  }

  /** One pixel's transactions: none for an invisible pixel; for a visible
      one its window commands and its colour, each in its own bracket. */
  lemma PixelTxns(px: Pixel)
    ensures Txns(PixelEvents(px)) == (if Visible(px.point) then PointTxns(px) else []) && Settled(PixelEvents(px))
  {
    if Visible(px.point) {
      var w := PixelWindow(px);
      DrawPointShape(w.x1, w.y1, px.color);
    }
  }

  /** `draw_iter` draws each visible pixel with `draw_point`, in input order,
      and nothing else: its log holds the visible pixels' windows and colours
      and is empty exactly when no pixel is visible. */
  lemma {:induction false} DrawIterShape(ps: seq<Pixel>)
    ensures Commands(DrawIterEvents(ps)) == PlotCommands(Plotted(ps))
    ensures Chunks(DrawIterEvents(ps)) == PlotChunks(Plotted(ps))
    ensures Delays(DrawIterEvents(ps)) == [] && CsLowCount(DrawIterEvents(ps)) == 4 * |Plotted(ps)|
    ensures DrawIterEvents(ps) == [] <==> Plotted(ps) == []
    ensures Plotted(ps) != [] ==> Closed(DrawIterEvents(ps))
  {
    if ps != [] {
      var init, px := ps[..|ps| - 1], ps[|ps| - 1];
      DrawIterShape(init);
      var a, b := DrawIterEvents(init), PixelEvents(px);
      assert DrawIterEvents(ps) == a + b;
      PixelShape(px);
      LogAppend(a, b);
      var q := Plotted(init);
      if Visible(px.point) {
        assert Plotted(ps) == q + [px];
        PlotSnoc(q, px);
        if q != [] {
          ClosedAppend(a, b);
        } else {
          assert a + b == b;
        }
      } else {
        assert Plotted(ps) == q;
        assert a + b == a;
      }
    }
  }

  /** The windows and colours of one more pixel drawn follow the others'. */
  lemma PlotSnoc(q: seq<Pixel>, px: Pixel)
    ensures PlotCommands(q + [px]) == PlotCommands(q) + WindowCommands(PixelWindow(px))
    ensures PlotChunks(q + [px]) == PlotChunks(q) + [Chunk(true, Be16(px.color))]
    ensures |q + [px]| == |q| + 1
  {
    assert (q + [px])[..|q|] == q;
  }

  /** Read as transactions, `draw_iter` is each visible pixel's three window
      commands, each in its own bracket, then a bracket holding its colour
      alone, pixel after pixel in input order. */
  lemma {:induction false} DrawIterTxns(ps: seq<Pixel>)
    ensures Txns(DrawIterEvents(ps)) == PlotTxns(Plotted(ps)) && Settled(DrawIterEvents(ps))
  {
    if ps != [] {
      var init, px := ps[..|ps| - 1], ps[|ps| - 1];
      DrawIterTxns(init);
      var a, b := DrawIterEvents(init), PixelEvents(px);
      PixelTxns(px);
      TxnsAppend(a, b);
      if Visible(px.point) {
        var q := Plotted(init);
        assert Plotted(ps) == q + [px];
        assert (q + [px])[..|q|] == q;
      } else {
        assert Plotted(ps) == Plotted(init);
        assert Txns(a) + [] == Txns(a);
      }
    }
  }

  /** A pixel with a negative coordinate adds nothing, wherever it stands. */
  lemma DrawIterSkipsInvisible(ps: seq<Pixel>, qs: seq<Pixel>, px: Pixel)
    requires !Visible(px.point)
    ensures DrawIterEvents(ps + [px] + qs) == DrawIterEvents(ps + qs)
  {
    DrawIterAppend(ps + [px], qs);
    DrawIterAppend(ps, qs);
    assert (ps + [px])[..|ps|] == ps;
  }

  /** Drawing two runs of pixels is drawing the first, then the second. */
  lemma {:induction false} DrawIterAppend(ps: seq<Pixel>, qs: seq<Pixel>)
    ensures DrawIterEvents(ps + qs) == DrawIterEvents(ps) + DrawIterEvents(qs)
    decreases |qs|
  {
    if qs == [] {
      assert ps + qs == ps;
    } else {
      var init, last := qs[..|qs| - 1], qs[|qs| - 1];
      assert (ps + qs)[..|ps + qs| - 1] == ps + init;
      assert (ps + qs)[|ps + qs| - 1] == last;
      DrawIterAppend(ps, init);
      calc {
        DrawIterEvents(ps + qs);
        DrawIterEvents(ps + init) + PixelEvents(last);
        DrawIterEvents(ps) + DrawIterEvents(init) + PixelEvents(last);
        { Extend(DrawIterEvents(ps), DrawIterEvents(init), PixelEvents(last)); }
        DrawIterEvents(ps) + DrawIterEvents(qs);
      }
    }
  }

  // ---------------------------------------------------------------------------
  // Filling a rectangle

  /** The window `fill_contiguous` sets: the corner, and the rectangle's
      width and height in the places of the end column and end row. */
  function FillWindow(area: Rectangle): Window {
    Window(AsU16(area.topLeft.x), AsU16(area.topLeft.y), AsU16(area.width), AsU16(area.height))
  }

  /** The colours `fill_contiguous` takes: at most width * height of them. */
  function Taken(area: Rectangle, colors: seq<U16>): (ts: seq<U16>)
    ensures |ts| == if |colors| < area.width * area.height then |colors| else area.width * area.height
    ensures ts <= colors
  {
    if |colors| < area.width * area.height then colors else colors[..area.width * area.height]
  }

  /** Each colour as its two big-endian bytes. */
  function ColorChunks(colors: seq<U16>): (chs: seq<seq<Byte>>)
    ensures |chs| == |colors|
  {
    seq(|colors|, i requires 0 <= i < |colors| => Be16(colors[i]))
  }

  /** `fill_contiguous`: the window, then one bracket holding the colours
      taken, each its own chunk. */
  function FillContiguousEvents(area: Rectangle, colors: seq<U16>): seq<Event> {
    BurstEvents(FillWindow(area), ColorChunks(Taken(area, colors)))
  }

  /** `fill_contiguous` sets its window once, then sends min(width * height,
      |colors|) chunks in input order, only the first framed as first, each the
      two bytes of its colour, inside one chip-select bracket, also when no
      colour is sent. */
  lemma FillContiguousShape(area: Rectangle, colors: seq<U16>)
    ensures ParseWindow(Commands(FillContiguousEvents(area, colors))) == Some(FillWindow(area))
    ensures |Chunks(FillContiguousEvents(area, colors))| == |Taken(area, colors)|
    ensures forall i :: 0 <= i < |Chunks(FillContiguousEvents(area, colors))| ==>
              Chunks(FillContiguousEvents(area, colors))[i] == Chunk(i == 0, Be16(colors[i]))
    ensures Delays(FillContiguousEvents(area, colors)) == [] && CsLowCount(FillContiguousEvents(area, colors)) == 4
    ensures Closed(FillContiguousEvents(area, colors))
    ensures Txns(FillContiguousEvents(area, colors))
         == CommandTxns(WindowCommands(FillWindow(area))) + [Framed(StreamWrites(ColorChunks(Taken(area, colors))))]
  {
    BurstShape(FillWindow(area), ColorChunks(Taken(area, colors)));
  }

  /** The colours two-byte chunks carry; -1 for a chunk of another length. */
  function ChunkColors(ks: seq<Chunk>): (cs: seq<int>)
    ensures |cs| == |ks|
  {
    seq(|ks|, i requires 0 <= i < |ks| => if |ks[i].bytes| == 2 then Word(ks[i].bytes[0], ks[i].bytes[1]) else -1)
  }

  /** The chunks `fill_contiguous` sends decode back to the colours taken. */
  lemma FillContiguousColors(area: Rectangle, colors: seq<U16>)
    ensures ChunkColors(Chunks(FillContiguousEvents(area, colors))) == Taken(area, colors)
  {
    FillContiguousShape(area, colors);
    var ts := Taken(area, colors);
    forall i | 0 <= i < |ts|
      ensures ChunkColors(Chunks(FillContiguousEvents(area, colors)))[i] == ts[i]
    {
      Be16RoundTrip(ts[i]);
    }
  }

  /** As written, the window is not the rectangle: a 10 x 10 rectangle at
      (100, 100) gets the window from (100, 100) to (10, 10), whose end lies
      before its start. */
  lemma FillWindowAsWritten()
    ensures FillWindow(Rectangle(Point(100, 100), 10, 10)) == Window(100, 100, 10, 10)
    ensures FillWindow(Rectangle(Point(100, 100), 10, 10)).x2 < FillWindow(Rectangle(Point(100, 100), 10, 10)).x1
    ensures FillWindow(Rectangle(Point(0, 0), 10, 10)) == Window(0, 0, 10, 10)
  {
  }

  /** A rectangle that lies on the controller's 16-bit address grid. */
  predicate OnGrid(area: Rectangle) {
    area.topLeft.x >= 0 && area.topLeft.y >= 0 && area.width > 0 && area.height > 0
    && area.topLeft.x + area.width <= 0x1_0000 && area.topLeft.y + area.height <= 0x1_0000
  }

  /** The window evidently intended: the rectangle's first and last column
      and row. */
  function IntendedFillWindow(area: Rectangle): (w: Window)
    requires OnGrid(area)
    ensures w.x1 == area.topLeft.x && w.y1 == area.topLeft.y
    ensures w.x2 - w.x1 + 1 == area.width && w.y2 - w.y1 + 1 == area.height
  {
    Window(area.topLeft.x, area.topLeft.y, area.topLeft.x + area.width - 1, area.topLeft.y + area.height - 1)
  }

  /** The fill evidently intended. */
  function IntendedFillEvents(area: Rectangle, colors: seq<U16>): seq<Event>
    requires OnGrid(area)
  {
    BurstEvents(IntendedFillWindow(area), ColorChunks(Taken(area, colors)))
  }

  /** With the intended window, the window holds exactly width * height
      pixels, and when enough colours are given every one of them receives one
      colour. */
  lemma IntendedFillShape(area: Rectangle, colors: seq<U16>)
    requires OnGrid(area)
    ensures ParseWindow(Commands(IntendedFillEvents(area, colors))) == Some(IntendedFillWindow(area))
    ensures WindowArea(IntendedFillWindow(area)) == area.width * area.height
    ensures |colors| >= area.width * area.height ==>
              |Chunks(IntendedFillEvents(area, colors))| == WindowArea(IntendedFillWindow(area))
    ensures Closed(IntendedFillEvents(area, colors))
    ensures Txns(IntendedFillEvents(area, colors))
         == CommandTxns(WindowCommands(IntendedFillWindow(area))) + [Framed(StreamWrites(ColorChunks(Taken(area, colors))))]
  {
    BurstShape(IntendedFillWindow(area), ColorChunks(Taken(area, colors)));
  }

  /** The number of pixels a window covers; none when it is inverted. */
  function WindowArea(w: Window): nat {
    if w.x2 < w.x1 || w.y2 < w.y1 then 0
    else
      var columns: nat, rows: nat := w.x2 - w.x1 + 1, w.y2 - w.y1 + 1;
      columns * rows
  }

  /** As written, the window of a 10 x 10 rectangle covers 11 x 11 pixels at
      the origin; at (100, 100) it ends before it starts, which `WindowArea`
      counts as no pixel. */
  lemma FillWindowAreaAsWritten()
    ensures WindowArea(FillWindow(Rectangle(Point(0, 0), 10, 10))) == 121
    ensures WindowArea(FillWindow(Rectangle(Point(100, 100), 10, 10))) == 0
  {
    FillWindowAsWritten();
  }

  // ---------------------------------------------------------------------------
  // The drawing operations on the driver

  /** `draw_iter`. */
  method DrawIter(d: Rm67162, pixels: seq<Pixel>) returns (r: SpiResult<()>)
    requires d.Valid()
    modifies d
    ensures d.Valid() && d.orientation == old(d.orientation)
    ensures d.trace == old(d.trace) + DrawIterEvents(pixels)
    ensures d.csLow == (old(d.csLow) && Plotted(pixels) == [])
    ensures r == Ok(())
  {
    for i := 0 to |pixels|
      invariant d.Valid() && d.orientation == old(d.orientation)
      invariant d.trace == old(d.trace) + DrawIterEvents(pixels[..i])
      invariant d.csLow == (old(d.csLow) && Plotted(pixels[..i]) == [])
    {
      assert pixels[..i + 1][..i] == pixels[..i];
      var px := pixels[i];
      if px.point.x < 0 || px.point.y < 0 {
        assert Plotted(pixels[..i + 1]) == Plotted(pixels[..i]);
        assert DrawIterEvents(pixels[..i + 1]) == DrawIterEvents(pixels[..i]) + [];
        continue;
      }
      var _ := d.DrawPoint(AsU16(px.point.x), AsU16(px.point.y), px.color);
      assert Plotted(pixels[..i + 1]) == Plotted(pixels[..i]) + [px];
      Extend(old(d.trace), DrawIterEvents(pixels[..i]), PixelEvents(px));
    }
    assert pixels[..|pixels|] == pixels;
    r := Ok(());
  }

  /** `fill_contiguous`. */
  method FillContiguous(d: Rm67162, area: Rectangle, colors: seq<U16>) returns (r: SpiResult<()>)
    requires d.Valid()
    modifies d
    ensures d.Valid() && d.orientation == old(d.orientation) && !d.csLow
    ensures d.trace == old(d.trace) + FillContiguousEvents(area, colors)
    ensures r == Ok(())
  {
    var _ := d.SetAddress(AsU16(area.topLeft.x), AsU16(area.topLeft.y), AsU16(area.width), AsU16(area.height));
    ghost var before := d.trace;
    var firstSend := true;
    d.Emit(CsLow);
    var limit := area.width * area.height;
    var i := 0;
    while i < |colors| && i < limit
      invariant i <= |colors| && i <= limit
      invariant d.Valid() && d.orientation == old(d.orientation) && d.csLow
      invariant firstSend == (i == 0)
      invariant d.trace == before + [CsLow] + StreamWrites(ColorChunks(colors[..i]))
    {
      var bytes := Be16(colors[i]);
      StreamWritesSnoc(ColorChunks(colors[..i]), bytes);
      assert ColorChunks(colors[..i + 1]) == ColorChunks(colors[..i]) + [bytes];
      d.SendChunk(bytes, firstSend);
      Extend(before + [CsLow], StreamWrites(ColorChunks(colors[..i])), [ChunkWrite(i == 0, bytes)]);
      firstSend := false;
      i := i + 1;
    }
    d.Emit(CsHigh);
    assert colors[..i] == Taken(area, colors);
    ghost var s := StreamWrites(ColorChunks(colors[..i]));
    Extend(before, [CsLow], s);
    Extend(before, [CsLow] + s, [CsHigh]);
    Extend(old(d.trace), WindowEvents(FillWindow(area)), [CsLow] + s + [CsHigh]);
    r := Ok(());
  }
}
