/** The sizing arithmetic of the multi-gauge path: how `count` gauges share
    a panel of `width` by `height` pixels. */
module LayoutEngine {
  import opened GaugeTypes

  /** The size of every gauge and the style of its wrapper cell. */
  datatype Tile = Tile(style: Style, width: int, height: int)

  /** The tile every one of `count` gauges gets. The longer side is split
      into `count` equal cells of `100 / count` percent each; the gauge along
      that side is the floored share minus the margin, across it the full
      panel size. A square panel gives every gauge the full panel and an
      empty style. */
  function TileFor(width: nat, height: nat, count: nat): (t: Tile)
    requires count > 0
    ensures width > height ==>
      && t.style.Horizontal?
      && t.style.rowHeight == height
      && t.style.widthPercent * count as real == 100.0
      && t.height == height
      && count * (t.width + Margin) <= width < count * (t.width + Margin + 1)
    ensures height > width ==>
      && t.style.Vertical?
      && t.style.columnWidth == width
      && t.style.heightPercent * count as real == 100.0
      && t.width == width
      && count * (t.height + Margin) <= height < count * (t.height + Margin + 1)
    ensures width == height ==> t == Tile(NoStyle, width, height)
  {
    var percent := 100.0 / count as real;
    if width > height then
      Tile(Horizontal(height, percent), width / count - Margin, height)
    else if height > width then
      Tile(Vertical(width, percent), width, height / count - Margin)
    else
      Tile(NoStyle, width, height)
  }

  /** On a wide panel a gauge has a non-negative width exactly when the panel
      is at least `count` margins wide; narrower panels produce negative widths. */
  lemma HorizontalWidthNonNegative(width: nat, height: nat, count: nat)
    requires count > 0 && width > height
    ensures TileFor(width, height, count).width >= 0 <==> width >= count * Margin
  {
  }

  /** On a tall panel a gauge has a non-negative height exactly when the panel
      is at least `count` margins tall. */
  lemma VerticalHeightNonNegative(width: nat, height: nat, count: nat)
    requires count > 0 && height > width
    ensures TileFor(width, height, count).height >= 0 <==> height >= count * Margin
  {
  }

  /** A lone gauge on a non-square panel still loses the margin along the
      longer side and sits in a cell of 100 percent; only a square panel
      gives it the full panel. */
  lemma SingleTile(width: nat, height: nat)
    ensures var t := TileFor(width, height, 1);
      && (width == height ==> t == Tile(NoStyle, width, height))
      && (width > height ==> t == Tile(Horizontal(height, 100.0), width - Margin, height))
      && (height > width ==> t == Tile(Vertical(width, 100.0), width, height - Margin))
  {
  }

  /** Three gauges on a 300 by 100 panel are 90 by 100 each, side by side;
      on a 100 by 300 panel they are 100 by 90 each, stacked. */
  lemma ThreeGaugeExample()
    ensures TileFor(300, 100, 3).style.Horizontal?
    ensures TileFor(300, 100, 3).width == 90 && TileFor(300, 100, 3).height == 100
    ensures TileFor(100, 300, 3).style.Vertical?
    ensures TileFor(100, 300, 3).width == 100 && TileFor(100, 300, 3).height == 90
  {
  }
}
