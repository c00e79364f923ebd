/** The four screen orientations, the value each writes to the controller's
    memory-access-control register (command 0x36), and the logical size the
    driver reports for each. */
module Orientations {
  import opened Numeric

  datatype Orientation = Landscape | LandscapeFlipped | Portrait | PortraitFlipped
  {
    predicate IsLandscape() {
      this == Landscape || this == LandscapeFlipped
    }
  }

  /** Width and height of the drawable surface, in pixels. */
  datatype Size = Size(width: nat, height: nat)

  /** The register value for an orientation: only the top three bits
      (row/column order and exchange) are ever set, and the exchange bit 0x20
      is set exactly for the two landscape orientations. */
  function ToMadctr(o: Orientation): (r: Byte)
    ensures r % 0x20 == 0
    ensures (r / 0x20) % 2 == 1 <==> o.IsLandscape()
  {
    match o
    case Portrait => 0x00
    case PortraitFlipped => 0xC0
    case Landscape => 0x60
    case LandscapeFlipped => 0xA0
  }

  /** The size the driver reports: the panel's 536 x 240 pixels, the wide side
      horizontal exactly when the register exchanges rows and columns. */
  function SizeOf(o: Orientation): (s: Size)
    ensures {s.width, s.height} == {240, 536}
    ensures s.width == 536 <==> (ToMadctr(o) / 0x20) % 2 == 1
  {
    if o.IsLandscape() then Size(536, 240) else Size(240, 536)
  }

  lemma MadctrTable()
    ensures ToMadctr(Portrait) == 0x00
    ensures ToMadctr(PortraitFlipped) == 0xC0
    ensures ToMadctr(Landscape) == 0x60
    ensures ToMadctr(LandscapeFlipped) == 0xA0
  {
  }

  lemma ToMadctrInjective(a: Orientation, b: Orientation)
    ensures ToMadctr(a) == ToMadctr(b) <==> a == b
  {
  }

  lemma SizeTable(o: Orientation)
    ensures o.IsLandscape() ==> SizeOf(o) == Size(536, 240)
    ensures !o.IsLandscape() ==> SizeOf(o) == Size(240, 536)
  {
  }
}
