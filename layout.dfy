/** The two-row layout: shell panels in a row at the top, frame panels in a
    row below, each row packed left to right with a fixed gap, every panel
    occupying its bounding box (nominal size, or swapped when it is turned). */
module Layout {
  import opened Pieces

  /** Horizontal gap before, between and after the panels of a row. */
  const MarginX: real := 20.0
  /** Vertical gap above, between and below the rows. */
  const MarginY: real := 30.0

  /** A panel with its place: the centre (cx, cy) of its bounding box and
      the bounding box's extent. */
  datatype Placed = Placed(piece: Piece, cx: real, cy: real,
                           finalWidth: real, finalHeight: real)

  /** The result of the layout: the placed panels and the canvas extent. */
  datatype Arrangement = Arrangement(placed: seq<Placed>,
                                     totalWidth: real, totalHeight: real)

  /** An axis-aligned rectangle given by its edges (y grows downwards). */
  datatype Box = Box(left: real, top: real, right: real, bottom: real)

  /** Two boxes share some area (touching edges do not count). */
  predicate Overlap(a: Box, b: Box)
  {
    a.left < b.right && b.left < a.right && a.top < b.bottom && b.top < a.bottom
  }

  /** Width of the panel's footprint in the layout. */
  function BoundWidth(p: Piece): real { if p.rotate then p.height else p.width }

  /** Height of the panel's footprint in the layout. */
  function BoundHeight(p: Piece): real { if p.rotate then p.width else p.height }

  /** The bounding box of a placed panel, centred on (cx, cy). */
  function BoxOf(q: Placed): Box
  {
    Box(q.cx - q.finalWidth / 2.0, q.cy - q.finalHeight / 2.0,
        q.cx + q.finalWidth / 2.0, q.cy + q.finalHeight / 2.0)
  }

  /** The placed panel keeps the footprint its rotation flag calls for. */
  predicate Footprinted(q: Placed)
  {
    q.finalWidth == BoundWidth(q.piece) && q.finalHeight == BoundHeight(q.piece)
  }

  /** The left edge of the `i`-th panel of a row: the margin plus, for every
      panel before it, its footprint width and one gap. */
  function LeftEdge(row: seq<Piece>, i: nat): real
    requires i <= |row|
  {
    if i == 0 then MarginX else LeftEdge(row, i - 1) + BoundWidth(row[i - 1]) + MarginX
  }

  /** The running maximum of the footprint heights of the first `i` panels,
      starting from 0. */
  function RowMaxHeight(row: seq<Piece>, i: nat): real
    requires i <= |row|
  {
    if i == 0 then 0.0
    else
      var m := RowMaxHeight(row, i - 1);
      if BoundHeight(row[i - 1]) > m then BoundHeight(row[i - 1]) else m
  }

  /** The running maximum is the largest footprint height of the panels
      seen, or 0 when none is seen or none is positive. */
  lemma {:induction false} RowMaxHeightIsMax(row: seq<Piece>, i: nat)
    requires i <= |row|
    ensures RowMaxHeight(row, i) >= 0.0
    ensures forall k :: 0 <= k < i ==> BoundHeight(row[k]) <= RowMaxHeight(row, i)
    ensures RowMaxHeight(row, i) == 0.0
         || exists k :: 0 <= k < i && BoundHeight(row[k]) == RowMaxHeight(row, i)
  {
    if i > 0 {
      RowMaxHeightIsMax(row, i - 1);
      if RowMaxHeight(row, i) != 0.0 && RowMaxHeight(row, i) != RowMaxHeight(row, i - 1) {
        assert BoundHeight(row[i - 1]) == RowMaxHeight(row, i);
      }
    }
  }

  /** The width a row needs: its final cursor plus one more gap. */
  function RowWidth(row: seq<Piece>): real { LeftEdge(row, |row|) + MarginX }

  /** The panel placed with its footprint's top-left corner at (left, top). */
  function PlaceAt(p: Piece, left: real, top: real): Placed
  {
    Placed(p, left + BoundWidth(p) / 2.0, top + BoundHeight(p) / 2.0,
           BoundWidth(p), BoundHeight(p))
  }

  /** Every panel of the row placed at its left edge, with its top at `startY`. */
  function RowPlacement(row: seq<Piece>, startY: real): (r: seq<Placed>)
  {
    seq(|row|, i requires 0 <= i < |row| => PlaceAt(row[i], LeftEdge(row, i), startY))
  }

  /** Lays out one row, moving a cursor from left to right and keeping the
      running maximum of the footprint heights. */
  method LayoutRow(row: seq<Piece>, startY: real)
    returns (withPos: seq<Placed>, rowWidth: real, rowMaxHeight: real)
    ensures withPos == RowPlacement(row, startY)
    ensures rowWidth == RowWidth(row)
    ensures rowMaxHeight == RowMaxHeight(row, |row|)
  {
    var cursorX := MarginX;
    rowMaxHeight := 0.0;
    withPos := [];
    var k := 0;
    while k < |row|
      invariant 0 <= k <= |row|
      invariant cursorX == LeftEdge(row, k)
      invariant rowMaxHeight == RowMaxHeight(row, k)
      invariant withPos == RowPlacement(row, startY)[..k]
    {
      var p := row[k];
      var finalWidth := if p.rotate then p.height else p.width;
      var finalHeight := if p.rotate then p.width else p.height;
      var cx := cursorX + finalWidth / 2.0;
      var cy := startY + finalHeight / 2.0;
      cursorX := cursorX + finalWidth + MarginX;
      if finalHeight > rowMaxHeight {
        rowMaxHeight := finalHeight;
      }
      assert Placed(p, cx, cy, finalWidth, finalHeight) == RowPlacement(row, startY)[k];
      withPos := withPos + [Placed(p, cx, cy, finalWidth, finalHeight)];
      k := k + 1;
    }
    rowWidth := cursorX + MarginX;
  }

  /** The panels of a sequence of placed panels, in order. */
  function PiecesOf(ps: seq<Placed>): (r: seq<Piece>)
    ensures |r| == |ps|
    ensures forall i :: 0 <= i < |ps| ==> r[i] == ps[i].piece
  {
    seq(|ps|, i requires 0 <= i < |ps| => ps[i].piece)
  }

  /** No two placed panels share area. */
  predicate Disjoint(ps: seq<Placed>)
  {
    forall i, j :: 0 <= i < j < |ps| ==> !Overlap(BoxOf(ps[i]), BoxOf(ps[j]))
  }

  /** Every placed panel lies on the canvas with at least MarginX to its
      left, MarginY above and below, and twice MarginX to its right (the
      row width adds a margin after the gap that already follows the last
      panel). */
  predicate InsideCanvas(a: Arrangement)
  {
    forall i :: 0 <= i < |a.placed| ==>
      && MarginX <= BoxOf(a.placed[i]).left
      && MarginY <= BoxOf(a.placed[i]).top
      && BoxOf(a.placed[i]).right + 2.0 * MarginX <= a.totalWidth
      && BoxOf(a.placed[i]).bottom + MarginY <= a.totalHeight
  }

  /** The whole layout: shell row at the top, frame row one margin below
      the shell row's tallest footprint; a 100 by 100 canvas when there is
      nothing to place. */
  function LayoutOf(pieces: seq<Piece>): Arrangement
  {
    if pieces == [] then Arrangement([], 100.0, 100.0)
    else
      var cascaron := FilterGroup(pieces, Cascaron);
      var corral := FilterGroup(pieces, Corral);
      var row2StartY := MarginY + RowMaxHeight(cascaron, |cascaron|) + MarginY;
      Arrangement(RowPlacement(cascaron, MarginY) + RowPlacement(corral, row2StartY),
                  Max(RowWidth(cascaron), RowWidth(corral)),
                  row2StartY + RowMaxHeight(corral, |corral|) + MarginY)
  }

  /** Lays out all panels: splits them by group and lays out the two rows.
      It computes, with the row loop of LayoutRow, what the specification
      function LayoutOf states in closed form. */
  method LayoutPieces(pieces: seq<Piece>) returns (layout: Arrangement)
    ensures layout == LayoutOf(pieces)
    ensures pieces == [] ==> layout.placed == [] && layout.totalWidth == 100.0 && layout.totalHeight == 100.0
    ensures PiecesOf(layout.placed) == FilterGroup(pieces, Cascaron) + FilterGroup(pieces, Corral)
    ensures multiset(PiecesOf(layout.placed)) == multiset(pieces)
    ensures forall i :: 0 <= i < |layout.placed| ==> Footprinted(layout.placed[i])
    ensures forall i, j :: 0 <= i < |FilterGroup(pieces, Cascaron)| <= j < |layout.placed| ==>
      BoxOf(layout.placed[i]).bottom + MarginY <= BoxOf(layout.placed[j]).top
    ensures AllNonNegative(pieces) ==> Disjoint(layout.placed) && InsideCanvas(layout)
  {
    if |pieces| == 0 {
      return Arrangement([], 100.0, 100.0);
    }
    var cascaron := FilterGroup(pieces, Cascaron);
    var corral := FilterGroup(pieces, Corral);
    var withPos1, rowWidth1, rowMaxHeight1 := LayoutRow(cascaron, MarginY);
    var row2StartY := MarginY + rowMaxHeight1 + MarginY;
    var withPos2, rowWidth2, rowMaxHeight2 := LayoutRow(corral, row2StartY);
    var totalWidth := Max(rowWidth1, rowWidth2);
    var totalHeight := row2StartY + rowMaxHeight2 + MarginY;
    layout := Arrangement(withPos1 + withPos2, totalWidth, totalHeight);
    LayoutKeepsOrder(pieces);
    LayoutKeepsPanels(pieces);
    LayoutFootprints(pieces);
    RowsStacked(pieces);
    if AllNonNegative(pieces) {
      LayoutIsSound(pieces);
    }
  }

  /** The cursor moves right by at least one gap per panel when footprints
      have no negative size, so it strictly increases. */
  lemma {:induction false} LeftEdgeMonotone(row: seq<Piece>, i: nat, j: nat)
    requires AllNonNegative(row)
    requires i <= j <= |row|
    ensures LeftEdge(row, i) + (j - i) as real * MarginX <= LeftEdge(row, j)
  {
    if i < j {
      LeftEdgeMonotone(row, i, j - 1);
      assert NonNegative(row[j - 1]);
    }
  }

  /** Facts about one placed panel of a row: it is the row's panel, with
      its footprint, its top at `startY`, its left edge at the cursor, and
      the next panel starts exactly one gap after its right edge. */
  lemma RowPlacementAt(row: seq<Piece>, startY: real, i: nat)
    requires i < |row|
    ensures var q := RowPlacement(row, startY)[i];
      && q.piece == row[i] && Footprinted(q)
      && BoxOf(q).left == LeftEdge(row, i)
      && BoxOf(q).right + MarginX == LeftEdge(row, i + 1)
      && BoxOf(q).top == startY
      && BoxOf(q).bottom == startY + BoundHeight(row[i])
  {
  }

  /** Within a row, consecutive panels are exactly one gap apart and, when
      no size is negative, every panel lies at least one gap to the left of
      every later one, inside the row's width and height. */
  lemma {:induction false} RowSeparated(row: seq<Piece>, startY: real)
    ensures var r := RowPlacement(row, startY);
      forall i :: 0 <= i < |r| - 1 ==> BoxOf(r[i + 1]).left == BoxOf(r[i]).right + MarginX
    ensures var r := RowPlacement(row, startY);
      AllNonNegative(row) ==>
        && (forall i, j :: 0 <= i < j < |r| ==> BoxOf(r[i]).right + MarginX <= BoxOf(r[j]).left)
        && (forall i :: 0 <= i < |r| ==>
              && MarginX <= BoxOf(r[i]).left
              && BoxOf(r[i]).right + 2.0 * MarginX <= RowWidth(row)
              && BoxOf(r[i]).top == startY
              && BoxOf(r[i]).bottom <= startY + RowMaxHeight(row, |row|))
  {
    var r := RowPlacement(row, startY);
    forall i | 0 <= i < |r| - 1
      ensures BoxOf(r[i + 1]).left == BoxOf(r[i]).right + MarginX
    {
      RowPlacementAt(row, startY, i);
      RowPlacementAt(row, startY, i + 1);
    }
    if AllNonNegative(row) {
      RowMaxHeightIsMax(row, |row|);
      forall i, j | 0 <= i < j < |r|
        ensures BoxOf(r[i]).right + MarginX <= BoxOf(r[j]).left
      {
        RowPlacementAt(row, startY, i);
        RowPlacementAt(row, startY, j);
        LeftEdgeMonotone(row, i + 1, j);
      }
      forall i | 0 <= i < |r|
        ensures && MarginX <= BoxOf(r[i]).left
                && BoxOf(r[i]).right + 2.0 * MarginX <= RowWidth(row)
                && BoxOf(r[i]).top == startY
                && BoxOf(r[i]).bottom <= startY + RowMaxHeight(row, |row|)
      {
        RowPlacementAt(row, startY, i);
        LeftEdgeMonotone(row, 0, i);
        LeftEdgeMonotone(row, i + 1, |row|);
      }
    }
  }

  /** A row places exactly its panels, in order, with their footprints. */
  lemma RowPlacementPieces(row: seq<Piece>, startY: real)
    ensures PiecesOf(RowPlacement(row, startY)) == row
    ensures forall i :: 0 <= i < |row| ==> Footprinted(RowPlacement(row, startY)[i])
  {
  }

  /** The layout places the shell panels in input order, then the frame
      panels in input order. */
  lemma LayoutKeepsOrder(pieces: seq<Piece>)
    ensures PiecesOf(LayoutOf(pieces).placed)
         == FilterGroup(pieces, Cascaron) + FilterGroup(pieces, Corral)
  {
  }

  /** Every placed panel has the footprint its rotation flag calls for:
      width and height swapped exactly when it is turned. */
  lemma LayoutFootprints(pieces: seq<Piece>)
    ensures forall i :: 0 <= i < |LayoutOf(pieces).placed| ==> Footprinted(LayoutOf(pieces).placed[i])
  {
  }

  /** The layout places every input panel exactly once. */
  lemma LayoutKeepsPanels(pieces: seq<Piece>)
    ensures multiset(PiecesOf(LayoutOf(pieces).placed)) == multiset(pieces)
  {
    LayoutKeepsOrder(pieces);
    FilterGroupSplits(pieces);
  }

  /** The frame row lies below the shell row: every frame panel's top is at
      least one vertical margin below every shell panel's bottom. */
  lemma RowsStacked(pieces: seq<Piece>)
    ensures var placed := LayoutOf(pieces).placed;
      forall i, j :: 0 <= i < |FilterGroup(pieces, Cascaron)| <= j < |placed| ==>
        BoxOf(placed[i]).bottom + MarginY <= BoxOf(placed[j]).top
  {
    if pieces != [] {
      var cascaron := FilterGroup(pieces, Cascaron);
      var corral := FilterGroup(pieces, Corral);
      var row2StartY := MarginY + RowMaxHeight(cascaron, |cascaron|) + MarginY;
      var r1, r2 := RowPlacement(cascaron, MarginY), RowPlacement(corral, row2StartY);
      var placed := LayoutOf(pieces).placed;
      assert placed == r1 + r2;
      RowMaxHeightIsMax(cascaron, |cascaron|);
      forall i, j | 0 <= i < |cascaron| <= j < |placed|
        ensures BoxOf(placed[i]).bottom + MarginY <= BoxOf(placed[j]).top
      {
        RowPlacementAt(cascaron, MarginY, i);
        RowPlacementAt(corral, row2StartY, j - |r1|);
      }
    }
  }

  /** No two placed panels overlap and every one lies on the canvas with
      its margins, whenever no panel has a negative size. */
  lemma LayoutIsSound(pieces: seq<Piece>)
    requires AllNonNegative(pieces)
    ensures Disjoint(LayoutOf(pieces).placed)
    ensures InsideCanvas(LayoutOf(pieces))
  {
    if pieces != [] {
      var cascaron := FilterGroup(pieces, Cascaron);
      var corral := FilterGroup(pieces, Corral);
      FilterGroupNonNegative(pieces, Cascaron);
      FilterGroupNonNegative(pieces, Corral);
      var mh1 := RowMaxHeight(cascaron, |cascaron|);
      var row2StartY := MarginY + mh1 + MarginY;
      var r1, r2 := RowPlacement(cascaron, MarginY), RowPlacement(corral, row2StartY);
      var a := LayoutOf(pieces);
      assert a.placed == r1 + r2;
      RowSeparated(cascaron, MarginY);
      RowSeparated(corral, row2StartY);
      RowMaxHeightIsMax(cascaron, |cascaron|);
      RowMaxHeightIsMax(corral, |corral|);
      forall i, j | 0 <= i < j < |a.placed|
        ensures !Overlap(BoxOf(a.placed[i]), BoxOf(a.placed[j]))
      {
        if j < |r1| {
          assert BoxOf(a.placed[i]).right < BoxOf(a.placed[j]).left;
        } else if i >= |r1| {
          assert BoxOf(r2[i - |r1|]).right + MarginX <= BoxOf(r2[j - |r1|]).left;
        } else {
          assert BoxOf(a.placed[i]).bottom <= MarginY + mh1;
          assert BoxOf(a.placed[j]).top == row2StartY;
        }
      }
      forall i | 0 <= i < |a.placed|
        ensures && MarginX <= BoxOf(a.placed[i]).left
                && MarginY <= BoxOf(a.placed[i]).top
                && BoxOf(a.placed[i]).right + 2.0 * MarginX <= a.totalWidth
                && BoxOf(a.placed[i]).bottom + MarginY <= a.totalHeight
      {
        if i < |r1| {
          assert BoxOf(r1[i]).bottom <= MarginY + mh1;
        } else {
          assert BoxOf(r2[i - |r1|]).top == row2StartY;
        }
      }
    }
  }
}
