/** The die-cut panels of a two-part rigid mailer: the outer shell
    ("Cascarón", five panels) and the inner frame ("Corral", four panels),
    derived from the finished box's width, depth and height in millimetres. */
module Pieces {

  /** The two parts of the mailer a panel belongs to. */
  datatype Group = Cascaron | Corral

  /** One rectangular panel before placement: its nominal (uncut, unrotated)
      size, and whether the layout turns it by 90 degrees. */
  datatype Piece = Piece(id: string, group: Group, name: string,
                         width: real, height: real, rotate: bool)

  function Max(a: real, b: real): real { if a >= b then a else b }

  function Min(a: real, b: real): real { if a <= b then a else b }

  /** Both nominal dimensions are at least zero. */
  predicate NonNegative(p: Piece) { p.width >= 0.0 && p.height >= 0.0 }

  predicate AllNonNegative(s: seq<Piece>) { forall i :: 0 <= i < |s| ==> NonNegative(s[i]) }

  /** A panel size derived by removing `cut` millimetres, never below 1. */
  function Reduced(x: real, cut: real): (r: real)
    ensures r >= 1.0 && r >= x - cut
    ensures r == 1.0 || r == x - cut
  {
    Max(x - cut, 1.0)
  }

  /** The nine panels for a box of width `w`, depth `d` and height `h`,
      or no panel at all when a dimension is not positive. */
  function CreateRigidMailerPieces(w: real, d: real, h: real): (r: seq<Piece>)
    ensures r == [] <==> (w <= 0.0 || d <= 0.0 || h <= 0.0)
    ensures r != [] ==> |r| == 9
    // the five shell panels come first, then the four frame panels
    ensures forall i :: 0 <= i < |r| ==> (r[i].group == Cascaron <==> i < 5)
    // only the top flap (C2) and the bottom (C4) are turned
    ensures forall i :: 0 <= i < |r| ==> (r[i].rotate <==> i == 1 || i == 3)
    ensures forall i, j :: 0 <= i < j < |r| ==> r[i].id != r[j].id
    ensures forall i :: 0 <= i < |r| ==> r[i].width > 0.0 && r[i].height > 0.0
  {
    if w <= 0.0 || d <= 0.0 || h <= 0.0 then []
    else
      var hMenos2 := Reduced(h, 2.0);
      var dMenos2 := Reduced(d, 2.0);
      var dMas3 := d + 3.0;
      var cascaron := [
        Piece("C1", Cascaron, "Panel frontal", h, w, false),
        Piece("C2", Cascaron, "Tapa superior", w, dMas3, true),
        Piece("C3", Cascaron, "Lomo", hMenos2, w, false),
        Piece("C4", Cascaron, "Fondo", w, d, true),
        Piece("C5", Cascaron, "Panel posterior", h, w, false)
      ];
      var corral := [
        Piece("R1", Corral, "Panel frontal", w, hMenos2, false),
        Piece("R2", Corral, "Panel trasero", w, hMenos2, false),
        Piece("R3", Corral, "Lateral der", dMenos2, hMenos2, false),
        Piece("R4", Corral, "Lateral izq", dMenos2, hMenos2, false)
      ];
      cascaron + corral
  }

  /** The panel table: ids, names and sizes in terms of the box: the shell panels wrap the box's
      faces (front and back h by w, the top flap w by d + 3, the spine
      h - 2 by w, the bottom w by d), the frame panels are 2 mm lower than
      the box and the frame sides 2 mm shallower, clamped to 1 mm. */
  lemma PanelSizes(w: real, d: real, h: real)
    requires w > 0.0 && d > 0.0 && h > 0.0
    ensures var r := CreateRigidMailerPieces(w, d, h);
      && r[0].id == "C1" && r[1].id == "C2" && r[2].id == "C3" && r[3].id == "C4" && r[4].id == "C5"
      && r[5].id == "R1" && r[6].id == "R2" && r[7].id == "R3" && r[8].id == "R4"
      && r[0].name == "Panel frontal" && r[1].name == "Tapa superior" && r[2].name == "Lomo"
      && r[3].name == "Fondo" && r[4].name == "Panel posterior"
      && r[5].name == "Panel frontal" && r[6].name == "Panel trasero"
      && r[7].name == "Lateral der" && r[8].name == "Lateral izq"
      && r[0].width == h && r[0].height == w
      && r[1].width == w && r[1].height == d + 3.0
      && r[2].width == Max(h - 2.0, 1.0) && r[2].height == w
      && r[3].width == w && r[3].height == d
      && r[4].width == h && r[4].height == w
      && (forall i :: 5 <= i < 7 ==> r[i].width == w && r[i].height == Max(h - 2.0, 1.0))
      && (forall i :: 7 <= i < 9 ==> r[i].width == Max(d - 2.0, 1.0) && r[i].height == Max(h - 2.0, 1.0))
  {
  }

  /** Splits a sequence of panels by group, keeping their order. */
  function FilterGroup(s: seq<Piece>, g: Group): (r: seq<Piece>)
    ensures forall i :: 0 <= i < |r| ==> r[i].group == g
  {
    if s == [] then []
    else (if s[0].group == g then [s[0]] else []) + FilterGroup(s[1..], g)
  }

  /** Filtering keeps sizes non-negative. */
  lemma FilterGroupNonNegative(s: seq<Piece>, g: Group)
    requires AllNonNegative(s)
    ensures AllNonNegative(FilterGroup(s, g))
  {
  }

  /** Filtering distributes over concatenation: it never reorders panels. */
  lemma {:induction false} FilterGroupAppend(s: seq<Piece>, t: seq<Piece>, g: Group)
    ensures FilterGroup(s + t, g) == FilterGroup(s, g) + FilterGroup(t, g)
  {
    if s == [] {
      assert s + t == t;
    } else {
      assert (s + t)[1..] == s[1..] + t;
      FilterGroupAppend(s[1..], t, g);
    }
  }

  /** The two groups together hold exactly the panels of the input. */
  lemma {:induction false} FilterGroupSplits(s: seq<Piece>)
    ensures multiset(FilterGroup(s, Cascaron) + FilterGroup(s, Corral)) == multiset(s)
  {
    if s != [] {
      var t := s[1..];
      FilterGroupSplits(t);
      MultisetShuffle([s[0]], FilterGroup(t, Cascaron), FilterGroup(t, Corral), s[0].group == Cascaron);
      assert s == [s[0]] + t;
    }
  }

  /** One panel put in front of either half of a concatenation adds the
      same to its multiset. */
  lemma MultisetShuffle(x: seq<Piece>, a: seq<Piece>, b: seq<Piece>, front: bool)
    ensures multiset((if front then x + a else a) + (if front then b else x + b))
         == multiset(x) + multiset(a + b)
  {
    if !front {
      assert a + (x + b) == (a + x) + b;
    }
  }

  /** On a sequence whose first `k` panels are of group `g` and whose other
      panels are not, filtering by `g` keeps exactly the first `k`. */
  lemma {:induction false} FilterGroupPrefix(s: seq<Piece>, g: Group, k: nat)
    requires k <= |s|
    requires forall i :: 0 <= i < |s| ==> (s[i].group == g <==> i < k)
    ensures FilterGroup(s, g) == s[..k]
  {
    if s != [] {
      var k' := if k == 0 then 0 else k - 1;
      FilterGroupPrefix(s[1..], g, k');
    }
  }

  /** On the generator's output the shell row is C1..C5 and the frame row
      R1..R4, in table order. */
  lemma GeneratedRows(w: real, d: real, h: real)
    requires w > 0.0 && d > 0.0 && h > 0.0
    ensures var r := CreateRigidMailerPieces(w, d, h);
      FilterGroup(r, Cascaron) == r[..5] && FilterGroup(r, Corral) == r[5..]
  {
    var r := CreateRigidMailerPieces(w, d, h);
    FilterGroupPrefix(r, Cascaron, 5);
    FilterGroupPrefix(r[5..] , Corral, 4);
    FilterGroupPrefix(r[..5], Corral, 0);
    FilterGroupAppend(r[..5], r[5..], Corral);
    assert r[..5] + r[5..] == r;
  }
}
