/** The floor grid of the hero scene, sized to the viewport at the grid's depth
    so that it ends where the hero section ends. The canvas is taller than the
    hero section by a fixed 64-pixel overlap; that overlap, converted to world
    units, is cut off the bottom of the grid. The viewport at the grid's depth
    and the canvas size come from the renderer and are parameters here. */
module FittedGrid {
  import opened MathUtils

  /** The depth the grid sits at. */
  const GridZ: real := -25.0

  /** The overlap of the canvas below the hero section, in pixels. */
  const OverlapPx: real := 64.0

  /** The visible area at depth `GridZ`, in world units. */
  datatype Viewport = Viewport(width: real, height: real)

  datatype GridLayout = GridLayout(width: real, height: real, yPosition: real)

  /** The pixel overlap in world units: `H * (64 / max(1, canvasHeight))`. */
  function OverlapWorld(viewportHeight: real, canvasHeight: real): real {
    viewportHeight * (OverlapPx / Max(1.0, canvasHeight))
  }

  /** The overlap is never negative for a non-negative viewport, and never more
      than the whole viewport once the canvas is at least 64 pixels tall. */
  lemma OverlapBounds(viewportHeight: real, canvasHeight: real)
    requires viewportHeight >= 0.0
    ensures OverlapWorld(viewportHeight, canvasHeight) >= 0.0
    ensures canvasHeight >= OverlapPx ==> OverlapWorld(viewportHeight, canvasHeight) <= viewportHeight
  {
    var m := Max(1.0, canvasHeight);
    var q := OverlapPx / m;
    assert q > 0.0;
    MulNonNegative(viewportHeight, q);
    if canvasHeight >= OverlapPx {
      DivAtMostOne(OverlapPx, m);
      MulNonNegative(viewportHeight, 1.0 - q);
    }
  }

  lemma DivAtMostOne(a: real, m: real)
    requires 0.0 < a <= m
    ensures a / m <= 1.0
  {
  }

  /** The `useMemo` body. */
  function Layout(viewport: Viewport, canvasHeight: real): (r: GridLayout)
    ensures r.height >= 0.1 && r.height >= viewport.height - OverlapWorld(viewport.height, canvasHeight)
    ensures r.height == 0.1 || r.height == viewport.height - OverlapWorld(viewport.height, canvasHeight)
    ensures r.width >= 100.0 && r.width >= 3.0 * viewport.width
    ensures r.width == 100.0 || r.width == 3.0 * viewport.width
    ensures 2.0 * r.yPosition == OverlapWorld(viewport.height, canvasHeight)
  {
    var overlapWorld := OverlapWorld(viewport.height, canvasHeight);
    var gridVisibleHeight := Max(0.1, viewport.height - overlapWorld);
    var gridWidth := Max(viewport.width * 3.0, 100.0);
    var yPosition := overlapWorld / 2.0;
    GridLayout(gridWidth, gridVisibleHeight, yPosition)
  }

  /** Where the grid is placed: centred horizontally, at `yPosition`, at the
      grid's depth. */
  function Position(layout: GridLayout): (real, real, real) {
    (0.0, layout.yPosition, GridZ)
  }

  /** The derivation behind `yPosition = overlap / 2`: the grid is placed on the
      canvas's vertical axis at depth `GridZ`, and unless the visible height hits
      its 0.1 floor, it spans from the hero section's bottom edge,
      `-H/2 + overlap`, to the top of the canvas, `H/2`. */
  lemma GridSpansHeroSection(viewport: Viewport, canvasHeight: real)
    ensures var p := Position(Layout(viewport, canvasHeight));
      p.0 == 0.0 && p.2 == GridZ
    ensures viewport.height - OverlapWorld(viewport.height, canvasHeight) >= 0.1 ==>
      var r := Layout(viewport, canvasHeight);
      var y := Position(r).1;
      var ov := OverlapWorld(viewport.height, canvasHeight);
      && y - r.height / 2.0 == -viewport.height / 2.0 + ov
      && y + r.height / 2.0 == viewport.height / 2.0
  {
  }

  /** When the visible height hits its floor, the grid is 0.1 tall, centred at
      half the overlap. */
  lemma FlooredGrid(viewport: Viewport, canvasHeight: real)
    requires viewport.height - OverlapWorld(viewport.height, canvasHeight) < 0.1
    ensures var r := Layout(viewport, canvasHeight);
      r.height == 0.1 && 2.0 * Position(r).1 == OverlapWorld(viewport.height, canvasHeight)
  {
  }
}
