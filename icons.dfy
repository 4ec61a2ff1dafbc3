/** Icons: the shape and colour that a box hides, and the catalogue of every
    shape in every colour. */
module Icons {
  import opened Config

  datatype Shape = Donut | Square | Diamond | Lines | Oval

  /** The seven icon colours. Their RGB values only matter for drawing, so
      they are kept as names. */
  datatype Color = Red | Green | Blue | Yellow | Orange | Purple | Cyan

  datatype Icon = Icon(shape: Shape, color: Color)

  /// The shapes and colours in the order the game lists them.
  const AllShapes: seq<Shape> := [Donut, Square, Diamond, Lines, Oval]
  const AllColors: seq<Color> := [Red, Green, Blue, Yellow, Orange, Purple, Cyan]

  function ShapeIndex(s: Shape): nat {
    match s
    case Donut => 0
    case Square => 1
    case Diamond => 2
    case Lines => 3
    case Oval => 4
  }

  function ColorIndex(c: Color): nat {
    match c
    case Red => 0
    case Green => 1
    case Blue => 2
    case Yellow => 3
    case Orange => 4
    case Purple => 5
    case Cyan => 6
  }

  /// The shapes listed are each shape once: indexing and ShapeIndex are inverse.
  lemma ShapesListed(j: int)
    requires 0 <= j < |AllShapes|
    ensures ShapeIndex(AllShapes[j]) == j
  {
    if j == 0 {} else if j == 1 {} else if j == 2 {} else if j == 3 {} else {}
  }

  lemma ColorsListed(i: int)
    requires 0 <= i < |AllColors|
    ensures ColorIndex(AllColors[i]) == i
  {
    if i == 0 {} else if i == 1 {} else if i == 2 {} else if i == 3 {}
    else if i == 4 {} else if i == 5 {} else {}
  }

  /** The catalogue in the order of the game's two nested loops: colours
      outermost, shapes innermost. */
  function Catalogue(): seq<Icon> {
    seq(ColorCount * ShapeCount, k requires 0 <= k < ColorCount * ShapeCount =>
      Icon(AllShapes[k % ShapeCount], AllColors[k / ShapeCount]))
  }

  /// The position of an icon in the catalogue.
  function CatalogueIndex(ic: Icon): nat {
    ColorIndex(ic.color) * ShapeCount + ShapeIndex(ic.shape)
  }

  /** Every icon is in the catalogue exactly once: at CatalogueIndex, and at no
      other position. */
  lemma CatalogueExactlyOnce(ic: Icon, k: int)
    requires 0 <= k < |Catalogue()|
    ensures CatalogueIndex(ic) < |Catalogue()| && Catalogue()[CatalogueIndex(ic)] == ic
    ensures Catalogue()[k] == ic <==> k == CatalogueIndex(ic)
  {
    var i, j := ColorIndex(ic.color), ShapeIndex(ic.shape);
    assert (i * ShapeCount + j) / ShapeCount == i && (i * ShapeCount + j) % ShapeCount == j;
    if Catalogue()[k] == ic {
      ShapesListed(k % ShapeCount);
      ColorsListed(k / ShapeCount);
    }
  }

  /// No icon occurs twice in the catalogue.
  lemma {:induction false} CatalogueDistinct(k: int, m: int)
    requires 0 <= k < |Catalogue()| && 0 <= m < |Catalogue()|
    requires Catalogue()[k] == Catalogue()[m]
    ensures k == m
  {
    CatalogueExactlyOnce(Catalogue()[k], k);
    CatalogueExactlyOnce(Catalogue()[k], m);
  }

  /** Builds the catalogue with the game's nested loops, colour by colour and,
      within a colour, shape by shape. */
  method BuildCatalogue() returns (icons: seq<Icon>)
    ensures icons == Catalogue()
  {
    icons := [];
    var ci := 0;
    while ci < |AllColors|
      invariant 0 <= ci <= |AllColors|
      invariant |icons| == ci * ShapeCount
      invariant forall k :: 0 <= k < |icons| ==> icons[k] == Catalogue()[k]
    {
      var si := 0;
      while si < |AllShapes|
        invariant 0 <= si <= |AllShapes|
        invariant |icons| == ci * ShapeCount + si
        invariant forall k :: 0 <= k < |icons| ==> icons[k] == Catalogue()[k]
      {
        assert (ci * ShapeCount + si) / ShapeCount == ci && (ci * ShapeCount + si) % ShapeCount == si;
        icons := icons + [Icon(AllShapes[si], AllColors[ci])];
        si := si + 1;
      }
      ci := ci + 1;
    }
  }
}
