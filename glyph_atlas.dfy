/** The glyph atlas mapping used by draw_text: a character code selects a
    cell of a 16 x 8 grid in the font bitmap, and the cell gives the texture
    coordinates of the glyph's quad.

    The arithmetic is C's on a target whose `char` is a signed two's-complement
    8-bit integer, as on x86: there `c -= TOP_LEFT` wraps modulo 256 back into
    the `char` range. Both are implementation-defined in C (`char` is unsigned
    on ARM Linux, for one). `%` and `/` on a negative operand truncate toward
    zero, as C requires. */
module GlyphAtlas {
  import opened LinAlg

  /** A C `char`, assumed signed and 8 bits wide. */
  type CChar = x: int | -128 <= x < 128

  const NUL: CChar := 0
  const SPACE: CChar := 32
  /** The code just before '!', the first glyph of the atlas. */
  const TOP_LEFT: CChar := 33 - 1
  const CELLS_PER_ROW: int := 16
  const CELLS_PER_COLUMN: int := 8
  /** A glyph occupies half the width of its cell. */
  const CELL_WIDTH_UV: real := 1.0 / 16.0 / 2.0
  const CELL_HEIGHT_UV: real := 1.0 / 8.0

  /** Conversion of an int to `char`, assumed to wrap around in two's
      complement (implementation-defined in C). */
  function ToCChar(x: int): (c: CChar)
    ensures (x - c) % 256 == 0
    ensures -128 <= x < 128 ==> c == x
  {
    (x + 128) % 256 - 128
  }

  /** C's `/` for a positive divisor: the quotient truncated toward zero. */
  function CDiv(a: int, d: int): int
    requires d > 0
  {
    if a >= 0 then a / d else -((-a) / d)
  }

  /** C's `%` for a positive divisor: the remainder takes the sign of `a`. */
  function CRem(a: int, d: int): int
    requires d > 0
  {
    if a >= 0 then a % d else -((-a) % d)
  }

  /** The identity C guarantees for `/` and `%`, the range of the
      remainder, and agreement with Euclidean division when a >= 0. */
  lemma CDivRem(a: int, d: int)
    requires d > 0
    ensures d * CDiv(a, d) + CRem(a, d) == a
    ensures -d < CRem(a, d) < d
    ensures a >= 0 ==> CDiv(a, d) == a / d && CRem(a, d) == a % d && CRem(a, d) >= 0
    ensures a < 0 ==> CRem(a, d) <= 0 && CDiv(a, d) <= 0
  {
    if a < 0 {
      assert d * ((-a) / d) + (-a) % d == -a;
    }
  }

  /** A cell of the atlas grid. */
  datatype Cell = Cell(col: int, row: int)

  /** The atlas index of a glyph: `c -= TOP_LEFT` on a `char`. */
  function GlyphIndex(c: CChar): (idx: CChar)
    ensures c - TOP_LEFT >= -128 ==> idx == c - TOP_LEFT
    ensures c - TOP_LEFT < -128 ==> idx == c - TOP_LEFT + 256
  {
    ToCChar(c - TOP_LEFT)
  }

  /** The cell `(idx % 16, idx / 16)` of a glyph. */
  function GlyphCell(c: CChar): (cell: Cell)
    ensures CELLS_PER_ROW * cell.row + cell.col == GlyphIndex(c)
    ensures GlyphIndex(c) >= 0 ==> 0 <= cell.col < CELLS_PER_ROW && 0 <= cell.row < CELLS_PER_COLUMN
    ensures GlyphIndex(c) < 0 ==> -CELLS_PER_ROW < cell.col <= 0 && cell.row <= 0
  {
    var idx := GlyphIndex(c);
    CDivRem(idx, CELLS_PER_ROW);
    Cell(CRem(idx, CELLS_PER_ROW), CDiv(idx, CELLS_PER_ROW))
  }

  /** The character whose glyph sits in `cell`. */
  function CellChar(cell: Cell): CChar
  {
    ToCChar(TOP_LEFT + CELLS_PER_ROW * cell.row + cell.col)
  }

  /** Every character is recovered from its cell, so no two characters share
      a cell. */
  lemma CellCharOfGlyphCell(c: CChar)
    ensures CELLS_PER_ROW * GlyphCell(c).row + GlyphCell(c).col == GlyphIndex(c)
    ensures CellChar(GlyphCell(c)) == c
  {
    CDivRem(GlyphIndex(c), CELLS_PER_ROW);
  }

  lemma GlyphCellInjective(c1: CChar, c2: CChar)
    requires c1 != c2
    ensures GlyphCell(c1) != GlyphCell(c2)
  {
    CellCharOfGlyphCell(c1);
    CellCharOfGlyphCell(c2);
  }

  /** The texture coordinates of a glyph's top-left corner: its cell
      divided by the grid size. */
  function GlyphOrigin(c: CChar): (o: Float2)
    ensures CELLS_PER_ROW as real * o.x == GlyphCell(c).col as real
    ensures CELLS_PER_COLUMN as real * o.y == GlyphCell(c).row as real
    ensures GlyphIndex(c) >= 0 ==> 0.0 <= o.x < 1.0 && 0.0 <= o.y < 1.0
  {
    var cell := GlyphCell(c);
    Float2(cell.col as real / CELLS_PER_ROW as real, cell.row as real / CELLS_PER_COLUMN as real)
  }

  /** The texture coordinates of the glyph quad's corners: top left, top
      right, bottom right, bottom left. */
  function GlyphUVs(c: CChar): (uv: seq<Float2>)
    ensures |uv| == 4
    ensures uv[0] == GlyphOrigin(c)
    ensures uv[1].x - uv[0].x == CELL_WIDTH_UV && uv[3].y - uv[0].y == CELL_HEIGHT_UV
    ensures uv[1].y == uv[0].y && uv[2].x == uv[1].x && uv[3].x == uv[0].x && uv[2].y == uv[3].y
  {
    var o := GlyphOrigin(c);
    [o, Float2(o.x + CELL_WIDTH_UV, o.y), Float2(o.x + CELL_WIDTH_UV, o.y + CELL_HEIGHT_UV), Float2(o.x, o.y + CELL_HEIGHT_UV)]
  }

  predicate InUnitSquare(p: Float2)
  {
    0.0 <= p.x <= 1.0 && 0.0 <= p.y <= 1.0
  }

  /** A glyph's quad lies inside the atlas exactly when its index is not
      negative: for the codes from '!' up, and for the bytes that wrap
      around to indices 96..127, but not for control characters nor for
      the bytes whose index stays negative. */
  lemma GlyphInAtlas(c: CChar)
    ensures (forall k :: 0 <= k < 4 ==> InUnitSquare(GlyphUVs(c)[k])) <==> GlyphIndex(c) >= 0
  {
    var idx := GlyphIndex(c);
    var cell := GlyphCell(c);
    CDivRem(idx, CELLS_PER_ROW);
    var uv := GlyphUVs(c);
    if idx >= 0 {
      assert 0 <= cell.col < 16 && 0 <= cell.row < 8;
      assert cell.col as real <= 15.0 && cell.row as real <= 7.0;
      assert forall k :: 0 <= k < 4 ==> InUnitSquare(uv[k]);
    } else {
      assert cell.col < 0 || cell.row < 0;
      assert !InUnitSquare(uv[0]);
    }
  }

  /** The printable codes '!'..'~': the index is `c - 32`, the cell is
      given by Euclidean division, it lies in the first six rows, and the
      glyph lies inside the atlas. */
  lemma PrintableGlyph(c: CChar)
    requires 33 <= c <= 126
    ensures GlyphIndex(c) == c - 32
    ensures GlyphCell(c) == Cell((c - 32) % 16, (c - 32) / 16)
    ensures 0 <= GlyphCell(c).row <= 5
    ensures forall k :: 0 <= k < 4 ==> InUnitSquare(GlyphUVs(c)[k])
  {
    CDivRem(c - 32, CELLS_PER_ROW);
    GlyphInAtlas(c);
  }

  /** The screen corners of the glyph at position `i` of the text: a square
      of side `size` whose left edge is `i` steps of `size` right of `pos`
      (top left, top right, bottom right, bottom left). */
  function GlyphPositions(pos: Float2, size: real, i: nat): (p: seq<Float2>)
    ensures |p| == 4
    ensures p[3] == Float2(pos.x + i as real * size, pos.y)
    ensures p[1].x - p[0].x == size && p[0].y - p[3].y == size
    ensures p[1].y == p[0].y && p[2].x == p[1].x && p[3].x == p[0].x && p[2].y == p[3].y
  {
    var x := pos.x + i as real * size;
    [Float2(x, pos.y + size), Float2(x + size, pos.y + size), Float2(x + size, pos.y), Float2(x, pos.y)]
  }

  /** strlen: the position of the first NUL. */
  function StrLen(s: seq<CChar>): (n: nat)
    requires NUL in s
    ensures n < |s| && s[n] == NUL
    ensures forall k :: 0 <= k < n ==> s[k] != NUL
  {
    if s[0] == NUL then 0 else 1 + StrLen(s[1..])
  }
}
