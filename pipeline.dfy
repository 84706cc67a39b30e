/** The three stages composed: box dimensions to panels, panels to a
    layout, layout to a drawing. */
module Pipeline {
  import opened Pieces
  import opened Layout
  import opened Svg

  /** The layout of the panels of a box of width `w`, depth `d`, height `h`. */
  function MailerLayout(w: real, d: real, h: real): Arrangement
  {
    LayoutOf(CreateRigidMailerPieces(w, d, h))
  }

  /** The drawing exported for a box of width `w`, depth `d`, height `h`. */
  function MailerDrawing(w: real, d: real, h: real): Document
  {
    var a := MailerLayout(w, d, h);
    BuildPiecesSvg(a.placed, a.totalWidth, a.totalHeight)
  }

  /** A box with a dimension that is not positive gives no panel, and a
      drawing with nothing in it on the default 100 by 100 canvas. */
  lemma InvalidBoxGivesEmptyDrawing(w: real, d: real, h: real)
    requires w <= 0.0 || d <= 0.0 || h <= 0.0
    ensures MailerLayout(w, d, h) == Arrangement([], 100.0, 100.0)
    ensures MailerDrawing(w, d, h) == Document(ViewBox(0.0, 0.0, 100.0, 100.0), [])
  {
  }

  /** For a real box the layout places the nine panels in the generator's
      own order (the shell panels already come first), each with the
      footprint its rotation flag calls for. */
  lemma MailerLayoutKeepsTable(w: real, d: real, h: real)
    requires w > 0.0 && d > 0.0 && h > 0.0
    ensures PiecesOf(MailerLayout(w, d, h).placed) == CreateRigidMailerPieces(w, d, h)
    ensures |MailerLayout(w, d, h).placed| == 9
    ensures forall i :: 0 <= i < 9 ==> Footprinted(MailerLayout(w, d, h).placed[i])
  {
    var r := CreateRigidMailerPieces(w, d, h);
    GeneratedRows(w, d, h);
    LayoutKeepsOrder(r);
    LayoutFootprints(r);
    assert r[..5] + r[5..] == r;
  }

  /** For a real box the drawing holds nine groups, only the top flap and
      the bottom are turned, no two rectangles cover the same area and
      every rectangle lies inside the view box with the layout's margins. */
  lemma MailerDrawingIsSound(w: real, d: real, h: real)
    requires w > 0.0 && d > 0.0 && h > 0.0
    ensures var doc := MailerDrawing(w, d, h);
      && |doc.elements| == 9
      && (forall i :: 0 <= i < 9 ==> (doc.elements[i].transform.Some? <==> i == 1 || i == 3))
      && (forall i, j :: 0 <= i < j < 9 ==>
            !Overlap(Footprint(doc.elements[i]), Footprint(doc.elements[j])))
      && (forall i :: 0 <= i < 9 ==>
            && MarginX <= Footprint(doc.elements[i]).left
            && MarginY <= Footprint(doc.elements[i]).top
            && Footprint(doc.elements[i]).right + 2.0 * MarginX <= doc.viewBox.width
            && Footprint(doc.elements[i]).bottom + MarginY <= doc.viewBox.height)
  {
    var r := CreateRigidMailerPieces(w, d, h);
    var a := MailerLayout(w, d, h);
    MailerLayoutKeepsTable(w, d, h);
    assert AllNonNegative(r);
    LayoutIsSound(r);
    forall i | 0 <= i < 9 ensures NonNegative(a.placed[i].piece) && a.placed[i].piece.rotate == r[i].rotate {
      assert a.placed[i].piece == PiecesOf(a.placed)[i];
    }
    DrawingMatchesLayout(a);
  }

  /** For a real box the canvas is no larger than the margins demand: the
      first panel of each row sits exactly one horizontal margin from the
      left, the shell row exactly one vertical margin from the top, the
      wider row ends exactly two horizontal margins from the right, and the
      frame row (all of one height) ends exactly one vertical margin from
      the bottom. */
  lemma CanvasIsTight(w: real, d: real, h: real)
    requires w > 0.0 && d > 0.0 && h > 0.0
    ensures var a := MailerLayout(w, d, h);
      && |a.placed| == 9
      && BoxOf(a.placed[0]).left == MarginX && BoxOf(a.placed[0]).top == MarginY
      && BoxOf(a.placed[5]).left == MarginX
      && (BoxOf(a.placed[4]).right + 2.0 * MarginX == a.totalWidth
          || BoxOf(a.placed[8]).right + 2.0 * MarginX == a.totalWidth)
      && BoxOf(a.placed[8]).bottom + MarginY == a.totalHeight
  {
    var r := CreateRigidMailerPieces(w, d, h);
    var a := MailerLayout(w, d, h);
    MailerLayoutKeepsTable(w, d, h);
    GeneratedRows(w, d, h);
    PanelSizes(w, d, h);
    var top, bottom := r[..5], r[5..];
    var row2StartY := MarginY + RowMaxHeight(top, 5) + MarginY;
    assert a.placed == RowPlacement(top, MarginY) + RowPlacement(bottom, row2StartY);
    RowPlacementAt(top, MarginY, 0);
    RowPlacementAt(top, MarginY, 4);
    RowPlacementAt(bottom, row2StartY, 0);
    RowPlacementAt(bottom, row2StartY, 3);
    assert RowMaxHeight(bottom, 4) == Max(h - 2.0, 1.0) by {
      assert RowMaxHeight(bottom, 1) == Max(h - 2.0, 1.0);
      assert RowMaxHeight(bottom, 2) == Max(h - 2.0, 1.0);
      assert RowMaxHeight(bottom, 3) == Max(h - 2.0, 1.0);
    }
  }

  /** A 200 x 100 x 150 box: the top flap is 200 x 103 and lies turned as
      103 x 200, the spine is 148 x 200; the canvas is 791 x 438. */
  lemma ExampleBox()
    ensures var a := MailerLayout(200.0, 100.0, 150.0);
      && |a.placed| == 9
      && a.placed[1].piece.name == "Tapa superior"
      && a.placed[1].piece.width == 200.0 && a.placed[1].piece.height == 103.0
      && a.placed[1].finalWidth == 103.0 && a.placed[1].finalHeight == 200.0
      && a.placed[2].piece.name == "Lomo"
      && a.placed[2].piece.width == 148.0 && a.placed[2].piece.height == 200.0
      && a.totalWidth == 791.0 && a.totalHeight == 438.0
  {
    var r := CreateRigidMailerPieces(200.0, 100.0, 150.0);
    var a := MailerLayout(200.0, 100.0, 150.0);
    MailerLayoutKeepsTable(200.0, 100.0, 150.0);
    assert a.placed[1].piece == r[1] && a.placed[2].piece == r[2] by {
      assert PiecesOf(a.placed)[1] == r[1] && PiecesOf(a.placed)[2] == r[2];
    }
    GeneratedRows(200.0, 100.0, 150.0);
    var top, bottom := r[..5], r[5..];
    assert LeftEdge(top, 5) == 771.0 by {
      assert LeftEdge(top, 1) == 190.0;
      assert LeftEdge(top, 2) == 313.0;
      assert LeftEdge(top, 3) == 481.0;
      assert LeftEdge(top, 4) == 601.0;
    }
    assert LeftEdge(bottom, 4) == 696.0 by {
      assert LeftEdge(bottom, 1) == 240.0;
      assert LeftEdge(bottom, 2) == 460.0;
      assert LeftEdge(bottom, 3) == 578.0;
    }
    assert RowMaxHeight(top, 5) == 200.0 by {
      assert RowMaxHeight(top, 1) == 200.0;
      assert RowMaxHeight(top, 2) == 200.0;
      assert RowMaxHeight(top, 3) == 200.0;
      assert RowMaxHeight(top, 4) == 200.0;
    }
    assert RowMaxHeight(bottom, 4) == 148.0 by {
      assert RowMaxHeight(bottom, 1) == 148.0;
      assert RowMaxHeight(bottom, 2) == 148.0;
      assert RowMaxHeight(bottom, 3) == 148.0;
    }
  }

  /** A 50 x 1 x 1 box: the clamp engages, the spine and every frame panel
      side that would be 1 - 2 = -1 mm is 1 mm instead. */
  lemma ClampEngages()
    ensures var r := CreateRigidMailerPieces(50.0, 1.0, 1.0);
      && r[2].width == 1.0
      && (forall i :: 5 <= i < 9 ==> r[i].height == 1.0)
      && r[7].width == 1.0 && r[8].width == 1.0
  {
    PanelSizes(50.0, 1.0, 1.0);
  }
}
