// The level generator: the skyline of buildings and the building each gorilla stands on.
module Level {
  import opened Wrappers
  import Oracle

  /** One building of the skyline: its left edge, width and height. */
  datatype Building = Building(x: int, width: int, height: int)

  const MinWidth := 6
  const MaxWidth := 10
  const MinHeight := 6
  const MaxHeight := 28

  /** Sum of the widths of the buildings. */
  function TotalWidth(bs: seq<Building>): int
  {
    if bs == [] then 0 else TotalWidth(bs[..|bs| - 1]) + bs[|bs| - 1].width
  }

  /** The first building starts at 0 and each next one starts where the previous one ends. */
  predicate Contiguous(bs: seq<Building>)
  {
    (|bs| > 0 ==> bs[0].x == 0) &&
    (forall i :: 0 < i < |bs| ==> bs[i].x == bs[i - 1].x + bs[i - 1].width)
  }

  /** The buildings tile [0, mapWidth) from left to right without gaps or overlaps. */
  predicate Tiled(bs: seq<Building>, mapWidth: int)
  {
    Contiguous(bs) && TotalWidth(bs) == mapWidth
  }

  /** Size bounds and the anti-monotony rule: every height is in range and differs from the
    * previous one; every width but the last is in range and differs from the previous one;
    * the last (possibly clipped) width is between 1 and MaxWidth. */
  predicate Shaped(bs: seq<Building>)
  {
    (forall i :: 0 <= i < |bs| ==> MinHeight <= bs[i].height <= MaxHeight) &&
    (forall i :: 0 < i < |bs| ==> bs[i].height != bs[i - 1].height) &&
    (forall i :: 0 <= i < |bs| - 1 ==> MinWidth <= bs[i].width <= MaxWidth) &&
    (forall i :: 0 < i < |bs| - 1 ==> bs[i].width != bs[i - 1].width) &&
    (|bs| > 0 ==> 1 <= bs[|bs| - 1].width <= MaxWidth)
  }

  /** The last building was not clipped: its width is a full draw that differs from its
    * predecessor's, so another building may follow it. */
  predicate Unclipped(bs: seq<Building>)
  {
    (|bs| > 0 ==> MinWidth <= bs[|bs| - 1].width) &&
    (|bs| > 1 ==> bs[|bs| - 1].width != bs[|bs| - 2].width)
  }

  lemma TotalWidthAppend(bs: seq<Building>, b: Building)
    ensures TotalWidth(bs + [b]) == TotalWidth(bs) + b.width
  {
    assert (bs + [b])[..|bs|] == bs;
  }

  /** Appending a building that starts where the skyline ends keeps it contiguous. */
  lemma ContiguousAppend(bs: seq<Building>, b: Building)
    requires Contiguous(bs)
    requires b.x == if bs == [] then 0 else bs[|bs| - 1].x + bs[|bs| - 1].width
    ensures Contiguous(bs + [b])
  {
  }

  /** Appending a building after an unclipped one, with an in-range height that differs from
    * its predecessor's and a width in [1, MaxWidth], keeps the skyline shaped. */
  lemma ShapedAppend(bs: seq<Building>, b: Building)
    requires Shaped(bs) && Unclipped(bs)
    requires MinHeight <= b.height <= MaxHeight && 1 <= b.width <= MaxWidth
    requires bs != [] ==> b.height != bs[|bs| - 1].height
    ensures Shaped(bs + [b])
  {
    var cs := bs + [b];
    assert forall i :: 0 <= i < |bs| ==> cs[i] == bs[i];
    assert forall i :: 0 <= i < |cs| - 1 ==> MinWidth <= cs[i].width <= MaxWidth;
    assert forall i :: 0 < i < |cs| - 1 ==> cs[i].width != cs[i - 1].width;
  }

  /** `generateBuildings`: place buildings from x = 0 rightwards until the map width is reached,
    * redrawing each building until both its width and its height differ from the previous
    * building's, and clipping the last one to the map edge. */
  method GenerateBuildings(mapWidth: int) returns (buildings: seq<Building>)
    ensures mapWidth <= 0 ==> buildings == []
    ensures mapWidth > 0 ==> Tiled(buildings, mapWidth)
    ensures Shaped(buildings)
  {
    var xPos := 0;
    var lastWidth: Option<int> := None;
    var lastHeight: Option<int> := None;
    buildings := [];
    while xPos < mapWidth
      invariant buildings == [] ==> xPos == 0
      invariant buildings != [] ==> 0 < xPos <= mapWidth
      invariant xPos == TotalWidth(buildings)
      invariant buildings != [] ==> xPos == buildings[|buildings| - 1].x + buildings[|buildings| - 1].width
      invariant Contiguous(buildings)
      invariant Shaped(buildings)
      // Only a building that reached the map edge can have been clipped.
      invariant xPos < mapWidth ==> Unclipped(buildings)
      invariant lastWidth == if buildings == [] then None else Some(buildings[|buildings| - 1].width)
      invariant lastHeight == if buildings == [] then None else Some(buildings[|buildings| - 1].height)
      decreases mapWidth - xPos
    {
      // The rejection-sampling loop ends with a pair that clashes with neither previous value.
      var w0 := if lastWidth == Some(MinWidth) then MinWidth + 1 else MinWidth;
      var h0 := if lastHeight == Some(MinHeight) then MinHeight + 1 else MinHeight;
      assert Some(w0) != lastWidth && Some(h0) != lastHeight;
      var width: int, height: int :|
        MinWidth <= width <= MaxWidth && MinHeight <= height <= MaxHeight &&
        Some(width) != lastWidth && Some(height) != lastHeight;

      ghost var drawn := width;
      if xPos + width > mapWidth {
        width := mapWidth - xPos;
      }
      var b := Building(xPos, width, height);
      TotalWidthAppend(buildings, b);
      ContiguousAppend(buildings, b);
      ShapedAppend(buildings, b);
      assert xPos + width < mapWidth ==> width == drawn;
      buildings := buildings + [b];
      xPos := xPos + width;
      lastWidth := Some(width);
      lastHeight := Some(height);
    }
  }

  /** Every building is at most MaxWidth wide, so the skyline has at least
    * TotalWidth / MaxWidth buildings. */
  lemma {:induction false} WidthBound(bs: seq<Building>)
    requires forall i :: 0 <= i < |bs| ==> bs[i].width <= MaxWidth
    ensures TotalWidth(bs) <= MaxWidth * |bs|
  {
    if bs != [] {
      WidthBound(bs[..|bs| - 1]);
    }
  }

  /** An 80-wide skyline has at least eight buildings. */
  lemma AtLeastEightBuildings(bs: seq<Building>)
    requires Tiled(bs, 80) && Shaped(bs)
    ensures |bs| >= 8
  {
    WidthBound(bs);
  }

  /** Player 0's building is among the first few, player 1's among the last few. */
  predicate Placed(g: seq<int>, buildingCount: int)
  {
    |g| == 2 && 1 <= g[0] <= 3 && buildingCount - 4 <= g[1] <= buildingCount - 2
  }

  /** `generateGorillaBuildings`: two independent draws. */
  method GenerateGorillaBuildings(buildingCount: int) returns (g: seq<int>)
    ensures Placed(g, buildingCount)
  {
    var first := Oracle.RandomIntBetween(1, 3);
    var second := Oracle.RandomIntBetween(buildingCount - 4, buildingCount - 2);
    g := [first, second];
  }

  /** A round's layout: the tiled skyline and the gorillas' buildings on it. */
  predicate Layout(bs: seq<Building>, g: seq<int>, mapWidth: int)
  {
    Tiled(bs, mapWidth) && Shaped(bs) && Placed(g, |bs|)
  }

  /** On the 80-wide map both gorillas stand on real, different buildings. */
  lemma PlacementValid(bs: seq<Building>, g: seq<int>)
    requires Layout(bs, g, 80)
    ensures 0 <= g[0] < |bs| && 0 <= g[1] < |bs| && g[0] != g[1]
  {
    AtLeastEightBuildings(bs);
  }
}
