/**
 * The `Tile` grid coordinate of a slippy map (Tile.ts): a point held both as
 * fractional tile-grid coordinates `x`, `y` and as `longitude`, `latitude`,
 * kept in step by setters, and the enumeration of the wrapped tiles that
 * cover a pixel viewport around it.
 *
 * The state of a tile is first described as a value, `TileState`, with one
 * function per setter; the class `Tile` holds the same six fields, and each
 * of its methods is proved to move its state exactly as the matching function
 * says.
 */
module TileGrid {
  import opened Wrappers
  import opened JsMath

  /** Side of one tile in pixels (`Tile.SIZE`). */
  const Size: int := 256

  /**
   * The transcendental half of the Web Mercator latitude formulas, which the
   * model keeps abstract. For a latitude, `yFraction` is the fraction of the
   * grid height above it, `(1 - ln(tan φ + sec φ) / π) / 2`, or None where
   * that is not a finite number (the logarithm of a value that is not
   * positive, as for every latitude strictly between 90 and 270 degrees);
   * for such a fraction `f`, `latitudeAt` is the latitude
   * `atan(sinh(π (1 - 2 f)))` in degrees, which is always finite. The
   * linear scaling by the tile count around them is modelled.
   */
  datatype Mercator = Mercator(yFraction: real -> Option<real>, latitudeAt: real -> real)

  /**
   * The six private fields of a tile. `#y` can hold NaN (or an infinity),
   * written `yNaN`; `y` is then 0 and carries no meaning. The other numbers
   * are finite throughout the model.
   */
  datatype TileState = TileState(zoom: int, tiles: int, x: real, y: real, yNaN: bool, longitude: real, latitude: real)

  /**
   * Tiles per axis at a zoom level, as the source's `2 << (zoom - 1)` on
   * 32-bit integers gives it (TileCountIsShift): the shift count is taken
   * modulo 32, and a shift by 30 or 31 overflows into the sign bit or out of
   * the word.
   */
  function TileCount(zoom: int): int {
    var k := (zoom - 1) % 32;
    if k == 31 then 0 else if k == 30 then -TwoTo31 else Pow2(k + 1)
  }

  /** The tile count stored beside the zoom is the one the zoom determines. */
  predicate ZoomConsistent(s: TileState) {
    s.tiles == TileCount(s.zoom)
  }

  /** The linear relation the longitude and x setters establish: x = (longitude + 180) / 360 · tiles. */
  predicate XMatchesLongitude(s: TileState) {
    s.x * 360.0 == (s.longitude + 180.0) * s.tiles as real
  }

  /** The `zoom` setter: stores the zoom and its tile count, and rescales nothing. */
  function WithZoom(s: TileState, zoom: int): (r: TileState)
    ensures r.zoom == zoom && ZoomConsistent(r)
    ensures r.x == s.x && r.y == s.y && r.yNaN == s.yNaN && r.longitude == s.longitude && r.latitude == s.latitude
  {
    s.(zoom := zoom, tiles := TileCount(zoom))
  }

  /** The `longitude` setter: stores the longitude and the x it projects to. */
  function WithLongitude(s: TileState, longitude: real): (r: TileState)
    ensures r.longitude == longitude && XMatchesLongitude(r)
    ensures r.zoom == s.zoom && r.tiles == s.tiles && r.y == s.y && r.yNaN == s.yNaN && r.latitude == s.latitude
  {
    s.(longitude := longitude, x := (longitude + 180.0) / 360.0 * s.tiles as real)
  }

  /** The `x` setter: stores x and the longitude it projects back to. The source divides by the tile count. */
  function WithX(s: TileState, x: real): (r: TileState)
    requires s.tiles != 0
    ensures r.x == x && XMatchesLongitude(r)
    ensures r.zoom == s.zoom && r.tiles == s.tiles && r.y == s.y && r.yNaN == s.yNaN && r.latitude == s.latitude
  {
    var r := s.(x := x, longitude := x / s.tiles as real * 360.0 - 180.0);
    assert r.x * 360.0 == (r.longitude + 180.0) * s.tiles as real by {
      assert r.longitude + 180.0 == x / s.tiles as real * 360.0;
    }
    r
  }

  /** The `latitude` setter: stores the latitude and the y it projects to, NaN where the projection is undefined. */
  function WithLatitude(s: TileState, latitude: real, m: Mercator): (r: TileState)
    ensures r.latitude == latitude
    ensures r.yNaN <==> m.yFraction(latitude).None?
    ensures !r.yNaN ==> r.y == m.yFraction(latitude).value * s.tiles as real
    ensures r.zoom == s.zoom && r.tiles == s.tiles && r.x == s.x && r.longitude == s.longitude
  {
    match m.yFraction(latitude)
    case Some(f) => s.(latitude := latitude, y := f * s.tiles as real, yNaN := false)
    case None => s.(latitude := latitude, y := 0.0, yNaN := true)
  }

  /** The `y` setter: stores y and the latitude it projects back to. The source divides by the tile count. */
  function WithY(s: TileState, y: real, m: Mercator): (r: TileState)
    requires s.tiles != 0
    ensures r.y == y && !r.yNaN && r.latitude == m.latitudeAt(y / s.tiles as real)
    ensures r.zoom == s.zoom && r.tiles == s.tiles && r.x == s.x && r.longitude == s.longitude
  {
    s.(y := y, yNaN := false, latitude := m.latitudeAt(y / s.tiles as real))
  }

  /** The fields of a tile before its constructor has set them; nothing of it survives construction. */
  const Unset: TileState := TileState(0, 0, 0.0, 0.0, false, 0.0, 0.0)

  /** `new Tile(a, b, zoom)`: sets the zoom, then dispatches on `a` as ConstructDispatch states. */
  function Construct(a: real, b: real, zoom: int, m: Mercator): TileState
    requires IsInteger(a) ==> TileCount(zoom) != 0
  {
    var z := WithZoom(Unset, zoom);
    if IsInteger(a) then WithY(WithX(z, a), b, m) else WithLatitude(WithLongitude(z, a), b, m)
  }

  /**
   * The constructor sets the zoom first, then reads `(a, b)` as grid
   * coordinates when `a` is an integer and as `(longitude, latitude)`
   * otherwise, so an integral longitude is taken for a tile x. Either way
   * the tile count matches the zoom and x matches the longitude.
   */
  lemma ConstructDispatch(a: real, b: real, zoom: int, m: Mercator)
    requires IsInteger(a) ==> TileCount(zoom) != 0
    ensures var r := Construct(a, b, zoom, m);
      r.zoom == zoom && ZoomConsistent(r) && XMatchesLongitude(r)
    ensures var r := Construct(a, b, zoom, m);
      IsInteger(a) ==> r.x == a && r.y == b && !r.yNaN && r.latitude == m.latitudeAt(b / r.tiles as real)
    ensures var r := Construct(a, b, zoom, m);
      !IsInteger(a) ==> r.longitude == a && r.latitude == b && (r.yNaN <==> m.yFraction(b).None?)
    ensures var r := Construct(a, b, zoom, m);
      !IsInteger(a) && !r.yNaN ==> r.y == m.yFraction(b).value * r.tiles as real
  {
  }

  /** The `x` getter: the column of the tile holding the point. */
  function IndexX(s: TileState): (r: int)
    ensures r as real <= s.x < r as real + 1.0
  {
    Floor(s.x)
  }

  /** The `y` getter: the row of the tile holding the point. */
  function IndexY(s: TileState): (r: int)
    ensures r as real <= s.y < r as real + 1.0
  {
    Floor(s.y)
  }

  // ---------------------------------------------------------------------
  // Properties of the tile count and of the setters
  // ---------------------------------------------------------------------

  /** The tile count is the 32-bit shift `2 << (zoom - 1)`, for every zoom. */
  lemma TileCountIsShift(zoom: int)
    ensures TileCount(zoom) == ShiftLeft(2, zoom - 1)
  {
    var k := (zoom - 1) % 32;
    var p := 2 * Pow2(k);
    assert ToInt32(2) == 2;
    assert ShiftLeft(2, zoom - 1) == ToInt32(p);
    assert p == Pow2(k + 1);
    Pow2Thirty();
    if k <= 29 {
      Pow2Monotone(k + 1, 30);
    } else if k == 30 {
      assert p == TwoTo31;
      assert p % TwoTo32 == TwoTo31;
    } else {
      Pow2Add(31, 1);
      assert p == TwoTo32;
    }
  }

  /** For zoom 1 to 30 the shift gives 2^zoom tiles per axis. */
  lemma TileCountIsPowerOfTwo(zoom: int)
    requires 1 <= zoom <= 30
    ensures TileCount(zoom) == Pow2(zoom)
  {
    assert (zoom - 1) % 32 == zoom - 1;
  }

  /** Outside 1 to 30 the 32-bit shift wraps: zoom 0 gives no tiles at all, zoom 31 a negative count. */
  lemma TileCountWraps()
    ensures TileCount(0) == 0
    ensures TileCount(31) == -TwoTo31
  {
    assert (0 - 1) % 32 == 31;
    assert (31 - 1) % 32 == 30;
  }

  /**
   * Setting the longitude and then setting x to the x just stored changes
   * nothing: the longitude comes back exactly.
   */
  lemma LongitudeThenX(s: TileState, longitude: real)
    requires s.tiles != 0
    ensures WithX(WithLongitude(s, longitude), WithLongitude(s, longitude).x) == WithLongitude(s, longitude)
  {
    var t := WithLongitude(s, longitude);
    var u := WithX(t, t.x);
    XDeterminesLongitude(t, u);
  }

  /** Setting x and then setting the longitude to the longitude just stored gives x back exactly. */
  lemma XThenLongitude(s: TileState, x: real)
    requires s.tiles != 0
    ensures WithLongitude(WithX(s, x), WithX(s, x).longitude) == WithX(s, x)
  {
    var t := WithX(s, x);
    var u := WithLongitude(t, t.longitude);
    assert u.x * 360.0 == t.x * 360.0;
  }

  /** With a nonzero tile count, x fixes the longitude. */
  lemma XDeterminesLongitude(t: TileState, u: TileState)
    requires t.tiles == u.tiles && t.tiles != 0 && t.x == u.x
    requires XMatchesLongitude(t) && XMatchesLongitude(u)
    ensures t.longitude == u.longitude
  {
    var n := t.tiles as real;
    assert (t.longitude + 180.0) * n == (u.longitude + 180.0) * n;
    assert (t.longitude - u.longitude) * n == 0.0;
  }

  /**
   * Setting y and then the latitude just stored gives y back, whenever the
   * two Mercator kernels undo each other at that point.
   */
  lemma YThenLatitude(s: TileState, y: real, m: Mercator)
    requires s.tiles != 0
    requires m.yFraction(m.latitudeAt(y / s.tiles as real)) == Some(y / s.tiles as real)
    ensures WithLatitude(WithY(s, y, m), WithY(s, y, m).latitude, m) == WithY(s, y, m)
  {
    var n := s.tiles as real;
    assert y / n * n == y;
  }

  /**
   * Changing the zoom does not rescale the point: a tile whose x and
   * longitude agreed no longer does once the tile count changes, unless x is 0.
   */
  lemma ZoomDoesNotRescale(s: TileState, zoom: int)
    requires XMatchesLongitude(s) && s.tiles != 0 && s.x != 0.0
    requires TileCount(zoom) != s.tiles
    ensures !XMatchesLongitude(WithZoom(s, zoom))
  {
    var r := WithZoom(s, zoom);
    ScaleDiffers(s.x * 360.0, s.longitude + 180.0, s.tiles as real, r.tiles as real);
  }

  /** If p = k·a with p nonzero, then p differs from k·b for every b other than a. */
  lemma ScaleDiffers(p: real, k: real, a: real, b: real)
    requires p == k * a && p != 0.0 && a != b
    ensures p != k * b
  {
    assert k != 0.0;
    assert k * a - k * b == k * (a - b);
  }

  // ---------------------------------------------------------------------
  // The viewport enumeration (`map`)
  // ---------------------------------------------------------------------

  /** The half-open ranges of columns [xMin, xMax) and rows [yMin, yMax) that `map` walks. */
  datatype Range = Range(xMin: int, xMax: int, yMin: int, yMax: int) {
    function Columns(): (n: nat)
      ensures n == 0 <==> xMax <= xMin
    {
      Count(xMin, xMax)
    }

    function Rows(): (n: nat)
      ensures n == 0 <==> yMax <= yMin
    {
      Count(yMin, yMax)
    }
  }

  /** Number of integers in [lo, hi). */
  function Count(lo: int, hi: int): (n: nat)
    ensures lo + n == if lo <= hi then hi else lo
  {
    if lo < hi then hi - lo else 0
  }

  /**
   * The cells around the unfloored centre (x, y) that cover `width` by
   * `height` pixels: half the viewport in tiles either side, floored below
   * and ceiled above. A NaN y makes both row bounds NaN, and no row is
   * below NaN, so the rows are then the empty range [0, 0).
   */
  function Viewport(s: TileState, width: real, height: real): Range {
    var halfWidth := (0.5 * width) / Size as real;
    var halfHeight := (0.5 * height) / Size as real;
    if s.yNaN then Range(Floor(s.x - halfWidth), Ceil(s.x + halfWidth), 0, 0)
    else Range(Floor(s.x - halfWidth), Ceil(s.x + halfWidth), Floor(s.y - halfHeight), Ceil(s.y + halfHeight))
  }

  /** Half the viewport is `width / 512` tiles: xMin is the floor of x minus that, xMax the ceiling of x plus that. */
  lemma ViewportBounds(s: TileState, width: real, height: real)
    ensures var b := Viewport(s, width, height);
      b.xMin as real <= s.x - width / 512.0 < b.xMin as real + 1.0 &&
      b.xMax as real - 1.0 < s.x + width / 512.0 <= b.xMax as real &&
      (s.yNaN ==> b.Rows() == 0) &&
      (!s.yNaN ==>
        b.yMin as real <= s.y - height / 512.0 < b.yMin as real + 1.0 &&
        b.yMax as real - 1.0 < s.y + height / 512.0 <= b.yMax as real)
  {
  }

  /** The wrap `(v + tiles) % tiles` applied to a column or row, with JavaScript's remainder. */
  function Wrap(v: int, tiles: int): int
    requires tiles != 0
  {
    Rem(v + tiles, tiles)
  }

  /** The tile `map` emits for the cell (x, y): `Tile.at` on the wrapped coordinates at the centre's zoom. */
  function Cell(c: TileState, m: Mercator, x: int, y: int): TileState
    requires c.tiles != 0 && ZoomConsistent(c)
  {
    Construct(Wrap(x, c.tiles) as real, Wrap(y, c.tiles) as real, c.zoom, m)
  }

  /** The tile emitted for (x, y) is the one `Tile.at` builds from the wrapped coordinates. */
  lemma CellIsTileAt(c: TileState, m: Mercator, x: int, y: int)
    requires c.tiles != 0 && ZoomConsistent(c)
    ensures Cell(c, m, x, y) == Construct(Rem(x + c.tiles, c.tiles) as real, Rem(y + c.tiles, c.tiles) as real, c.zoom, m)
  {
  }

  /**
   * Every emitted tile is a grid tile at the centre's zoom whose x and y are
   * the wrapped column and row, so its getters read them back.
   */
  lemma CellCoordinates(c: TileState, m: Mercator, x: int, y: int)
    requires c.tiles != 0 && ZoomConsistent(c)
    ensures var r := Cell(c, m, x, y);
      r.zoom == c.zoom && r.tiles == c.tiles &&
      r.x == Wrap(x, c.tiles) as real && r.y == Wrap(y, c.tiles) as real && !r.yNaN &&
      IndexX(r) == Wrap(x, c.tiles) && IndexY(r) == Wrap(y, c.tiles)
  {
    var tileX, tileY := Wrap(x, c.tiles), Wrap(y, c.tiles);
    assert IsInteger(tileX as real);
    ConstructDispatch(tileX as real, tileY as real, c.zoom, m);
  }

  /**
   * What `map` has pushed when its loops stand at column `col`, row `row`:
   * the columns xMin .. col - 1 in full, then the cells (col, yMin) ..
   * (col, row - 1). The cell (x, y) pushed with running index k, the number
   * of elements pushed before it, contributes `emit(x, y, k)`.
   */
  function Pushed<T>(emit: (int, int, int) -> T, b: Range, col: int, row: int): seq<T>
    requires b.xMin <= col && b.yMin <= row <= b.yMin + b.Rows()
    decreases col - b.xMin, row - b.yMin
  {
    if row > b.yMin then
      var before := Pushed(emit, b, col, row - 1);
      before + [emit(col, row - 1, |before|)]
    else if col > b.xMin then
      Pushed(emit, b, col - 1, b.yMin + b.Rows())
    else
      []
  }

  /** What `map` pushes for the cell (x, y) with index k: the mapped wrapped tile. */
  function Emitter<T>(c: TileState, m: Mercator, mapper: (TileState, int) -> T): (int, int, int) -> T
    requires c.tiles != 0 && ZoomConsistent(c)
  {
    (x: int, y: int, k: int) => mapper(Cell(c, m, x, y), k)
  }

  /** `tile.map(width, height, mapper)`: everything pushed once both loops have run to the end. */
  function Enumerate<T>(c: TileState, m: Mercator, width: real, height: real, mapper: (TileState, int) -> T): seq<T>
    requires c.tiles != 0 && ZoomConsistent(c)
  {
    var b := Viewport(c, width, height);
    Pushed(Emitter(c, m, mapper), b, b.xMin + b.Columns(), b.yMin)
  }

  /** `map` without a mapper returns the tiles themselves. */
  function Identity(t: TileState, index: int): TileState {
    t
  }

  // ---------------------------------------------------------------------
  // Properties of the enumeration
  // ---------------------------------------------------------------------

  /** At column `col`, row `row`, the loops have pushed (col - xMin) full columns and (row - yMin) more cells. */
  lemma {:induction false} PushedLength<T>(emit: (int, int, int) -> T, b: Range, col: int, row: int)
    requires b.xMin <= col && b.yMin <= row <= b.yMin + b.Rows()
    ensures |Pushed(emit, b, col, row)| == (col - b.xMin) * b.Rows() + (row - b.yMin)
    decreases col - b.xMin, row - b.yMin
  {
    if row > b.yMin {
      PushedLength(emit, b, col, row - 1);
    } else if col > b.xMin {
      PushedLength(emit, b, col - 1, b.yMin + b.Rows());
      assert (col - b.xMin) * b.Rows() == (col - 1 - b.xMin) * b.Rows() + b.Rows();
    }
  }

  /**
   * The cell (xMin + i, yMin + j), once pushed, sits at position
   * i · rows + j and was emitted with that position as its index.
   */
  lemma {:induction false} PushedAt<T>(emit: (int, int, int) -> T, b: Range, col: int, row: int, i: int, j: int)
    requires b.xMin <= col && b.yMin <= row <= b.yMin + b.Rows()
    requires 0 <= j < b.Rows() && 0 <= i
    requires i < col - b.xMin || (i == col - b.xMin && j < row - b.yMin)
    ensures var k := i * b.Rows() + j;
      0 <= k < |Pushed(emit, b, col, row)| &&
      Pushed(emit, b, col, row)[k] == emit(b.xMin + i, b.yMin + j, k)
    decreases col - b.xMin, row - b.yMin
  {
    var n := b.Rows();
    var k := i * n + j;
    PushedLength(emit, b, col, row);
    if row > b.yMin {
      var before := Pushed(emit, b, col, row - 1);
      PushedLength(emit, b, col, row - 1);
      assert |before| == (col - b.xMin) * n + (row - 1 - b.yMin);
      if i == col - b.xMin && j == row - 1 - b.yMin {
        assert k == |before|;
      } else {
        if i < col - b.xMin {
          RowMajorBefore(i, j, n, col - b.xMin);
        }
        assert k < |before|;
        PushedAt(emit, b, col, row - 1, i, j);
      }
    } else {
      PushedAt(emit, b, col - 1, b.yMin + n, i, j);
    }
  }

  /** In a row-major layout with n cells per column, a cell of an earlier column comes before every cell of a later one. */
  lemma RowMajorBefore(i: int, j: int, n: int, cols: int)
    requires 0 <= j < n && 0 <= i < cols
    ensures i * n + j < cols * n
  {
    assert (i + 1) * n <= cols * n by {
      assert cols * n - (i + 1) * n == (cols - i - 1) * n;
    }
  }

  /** The number of mapped tiles is the number of columns times the number of rows. */
  lemma EnumerateLength<T>(c: TileState, m: Mercator, width: real, height: real, mapper: (TileState, int) -> T)
    requires c.tiles != 0 && ZoomConsistent(c)
    ensures var b := Viewport(c, width, height);
      |Enumerate(c, m, width, height, mapper)| == b.Columns() * b.Rows()
  {
    var b := Viewport(c, width, height);
    PushedLength(Emitter(c, m, mapper), b, b.xMin + b.Columns(), b.yMin);
  }

  /**
   * The output runs x outer, y inner: the element at position i · rows + j
   * is the mapped tile of cell (xMin + i, yMin + j), and the mapper saw that
   * very position as its index.
   */
  lemma EnumerateAt<T>(c: TileState, m: Mercator, width: real, height: real, mapper: (TileState, int) -> T, i: int, j: int)
    requires c.tiles != 0 && ZoomConsistent(c)
    requires var b := Viewport(c, width, height); 0 <= i < b.Columns() && 0 <= j < b.Rows()
    ensures var b := Viewport(c, width, height);
      var k := i * b.Rows() + j;
      0 <= k < |Enumerate(c, m, width, height, mapper)| &&
      Enumerate(c, m, width, height, mapper)[k] == mapper(Cell(c, m, b.xMin + i, b.yMin + j), k)
  {
    var b := Viewport(c, width, height);
    PushedAt(Emitter(c, m, mapper), b, b.xMin + b.Columns(), b.yMin, i, j);
  }

  /** The tile list is empty exactly when the viewport spans no column or no row. */
  lemma EnumerateEmpty<T>(c: TileState, m: Mercator, width: real, height: real, mapper: (TileState, int) -> T)
    requires c.tiles != 0 && ZoomConsistent(c)
    ensures var b := Viewport(c, width, height);
      Enumerate(c, m, width, height, mapper) == [] <==> b.xMax <= b.xMin || b.yMax <= b.yMin
  {
    EnumerateLength(c, m, width, height, mapper);
  }

  /**
   * The wrap keeps a coordinate in [0, tiles) when it is at least -tiles,
   * and there agrees with the Euclidean remainder; below -tiles the
   * remainder of a negative dividend is negative unless it is a multiple of tiles.
   */
  lemma WrapRange(v: int, tiles: int)
    requires tiles > 0
    ensures v >= -tiles ==> 0 <= Wrap(v, tiles) < tiles && Wrap(v, tiles) == v % tiles
    ensures v < -tiles ==> -tiles < Wrap(v, tiles) <= 0
    ensures v < -tiles ==> (Wrap(v, tiles) < 0 <==> v % tiles != 0)
  {
    var r := Wrap(v, tiles);
    var q := TruncDiv(v + tiles, tiles);
    assert v + tiles == q * tiles + r;
    if v >= -tiles {
      assert v == (q - 1) * tiles + r;
      EuclideanUnique(v, tiles, q - 1, r);
    } else {
      if r == 0 {
        assert v == (q - 1) * tiles;
        EuclideanUnique(v, tiles, q - 1, 0);
      } else {
        assert v == (q - 2) * tiles + (r + tiles);
        EuclideanUnique(v, tiles, q - 2, r + tiles);
      }
    }
  }

  /** Dafny's `%` is the unique remainder in [0, n). */
  lemma EuclideanUnique(v: int, n: int, q: int, r: int)
    requires n > 0 && 0 <= r < n && v == q * n + r
    ensures v % n == r
  {
    var q', r' := v / n, v % n;
    assert v == q' * n + r';
    assert (q - q') * n == r' - r;
    if q' != q {
      MultipleAtLeast(q - q', n);
    }
  }

  lemma {:induction false} MultipleAtLeast(d: int, n: int)
    requires d != 0 && n > 0
    ensures d * n >= n || d * n <= -n
    decreases if d < 0 then -d else d
  {
    if d > 1 {
      MultipleAtLeast(d - 1, n);
      assert d * n == (d - 1) * n + n;
    } else if d < -1 {
      MultipleAtLeast(d + 1, n);
      assert d * n == (d + 1) * n - n;
    }
  }

  /**
   * The columns walked cover the whole viewport width and at most two cells
   * more: width / 256 <= xMax - xMin < width / 256 + 2. Rows alike.
   */
  lemma ColumnCountBounds(c: TileState, width: real, height: real)
    ensures var b := Viewport(c, width, height);
      width / 256.0 <= (b.xMax - b.xMin) as real < width / 256.0 + 2.0 &&
      (!c.yNaN ==> height / 256.0 <= (b.yMax - b.yMin) as real < height / 256.0 + 2.0)
  {
  }

  /** A viewport of width 0 still spans one column, unless the centre x is an integer. */
  lemma ZeroWidthColumns(c: TileState, height: real)
    ensures Viewport(c, 0.0, height).Columns() == if IsInteger(c.x) then 0 else 1
  {
    var b := Viewport(c, 0.0, height);
    if IsInteger(c.x) {
      assert b.xMin == c.x.Floor && b.xMax == c.x.Floor;
    } else {
      assert b.xMin == c.x.Floor;
      assert b.xMax == c.x.Floor + 1;
    }
  }

  /** A viewport one tile wide spans one column only when the centre sits exactly mid-tile, and two otherwise. */
  lemma OneTileWidthColumns(c: TileState, height: real)
    ensures Viewport(c, 256.0, height).Columns() == if c.x - c.x.Floor as real == 0.5 then 1 else 2
  {
    var b := Viewport(c, 256.0, height);
    var n, f := c.x.Floor, c.x - c.x.Floor as real;
    if f < 0.5 {
      assert b.xMin == n - 1 && b.xMax == n + 1;
    } else if f == 0.5 {
      assert b.xMin == n && b.xMax == n + 1;
    } else {
      assert b.xMin == n && b.xMax == n + 2;
    }
  }

  // ---------------------------------------------------------------------
  // The class
  // ---------------------------------------------------------------------

  /** A tile object with the private fields of the source; the `x`, `y` fields are the unfloored values. */
  class Tile {
    /** The Mercator kernels this tile projects latitudes with. */
    const mercator: Mercator
    var zoom: int
    var tiles: int
    var x: real
    var y: real
    var yNaN: bool
    var longitude: real
    var latitude: real

    function State(): TileState
      reads this
    {
      TileState(zoom, tiles, x, y, yNaN, longitude, latitude)
    }

    /** The tile count is always the one the zoom determines. */
    predicate Valid()
      reads this
    {
      ZoomConsistent(State())
    }

    /** `new Tile(a, b, zoom)`. */
    constructor (a: real, b: real, zoom: int, m: Mercator)
      requires IsInteger(a) ==> TileCount(zoom) != 0
      ensures mercator == m && Valid()
      ensures State() == Construct(a, b, zoom, m)
    {
      ConstructDispatch(a, b, zoom, m);
      mercator := m;
      new;
      SetZoom(zoom);
      if IsInteger(a) {
        SetX(a);
        SetY(b);
      } else {
        SetLongitude(a);
        SetLatitude(b);
      }
    }

    /** `Tile.at(a, b, zoom)`. */
    static method At(a: real, b: real, zoom: int, m: Mercator) returns (t: Tile)
      requires IsInteger(a) ==> TileCount(zoom) != 0
      ensures fresh(t) && t.mercator == m
      ensures t.State() == Construct(a, b, zoom, m)
    {
      ConstructDispatch(a, b, zoom, m);
      t := new Tile(a, b, zoom, m);
    }

    method SetZoom(z: int)
      modifies this
      ensures Valid() && State() == WithZoom(old(State()), z)
    {
      zoom := z;
      TileCountIsShift(z);
      tiles := ShiftLeft(2, z - 1);
    }

    method SetLongitude(l: real)
      requires Valid()
      modifies this
      ensures Valid() && State() == WithLongitude(old(State()), l)
    {
      longitude := l;
      x := (l + 180.0) / 360.0 * tiles as real;
    }

    method SetLatitude(l: real)
      requires Valid()
      modifies this
      ensures Valid() && State() == WithLatitude(old(State()), l, mercator)
    {
      latitude := l;
      match mercator.yFraction(l) {
        case Some(f) =>
          y := f * tiles as real;
          yNaN := false;
        case None =>
          y := 0.0;
          yNaN := true;
      }
    }

    method SetX(v: real)
      requires Valid() && tiles != 0
      modifies this
      ensures Valid() && State() == WithX(old(State()), v)
    {
      x := v;
      longitude := v / tiles as real * 360.0 - 180.0;
    }

    method SetY(v: real)
      requires Valid() && tiles != 0
      modifies this
      ensures Valid() && State() == WithY(old(State()), v, mercator)
    {
      y := v;
      yNaN := false;
      latitude := mercator.latitudeAt(v / tiles as real);
    }

    /** The `x` getter: the floor of the stored x. */
    function X(): (r: int)
      reads this
      ensures r as real <= x < r as real + 1.0
    {
      IndexX(State())
    }

    /** The `y` getter: the floor of the stored y. */
    function Y(): (r: int)
      reads this
      ensures r as real <= y < r as real + 1.0
    {
      IndexY(State())
    }

    /**
     * `map(width, height, mapper)`: walks the columns xMin .. xMax - 1 and,
     * within each, the rows yMin .. yMax - 1, pushing the mapped wrapped tile
     * with a running index. The source has NaN coordinates once the tile
     * count is 0; this model requires it nonzero.
     */
    method Map<T>(width: real, height: real, mapper: (TileState, int) -> T) returns (r: seq<T>)
      requires Valid() && tiles != 0
      ensures r == Enumerate(State(), mercator, width, height, mapper)
    {
      var zoom := this.zoom;
      var maxTiles := tiles;
      var bounds := Viewport(State(), width, height);
      var xMin, xMax, yMin, yMax := bounds.xMin, bounds.xMax, bounds.yMin, bounds.yMax;
      ghost var c := State();
      ghost var b := bounds;
      ghost var emit := Emitter(c, mercator, mapper);
      assert c.tiles == maxTiles && c.zoom == zoom;
      r := [];
      var index := 0;
      var cx := xMin;
      while cx < xMax
        invariant xMin <= cx <= xMin + b.Columns()
        invariant index == |r|
        invariant r == Pushed(emit, b, cx, yMin)
      {
        var cy := yMin;
        while cy < yMax
          invariant yMin <= cy <= yMin + b.Rows()
          invariant index == |r|
          invariant r == Pushed(emit, b, cx, cy)
        {
          var tileX := Rem(cx + maxTiles, maxTiles);
          var tileY := Rem(cy + maxTiles, maxTiles);
          var t := Tile.At(tileX as real, tileY as real, zoom, mercator);
          CellIsTileAt(c, mercator, cx, cy);
          var tile := mapper(t.State(), index);
          assert tile == emit(cx, cy, index);
          r := r + [tile];
          index := index + 1;
          cy := cy + 1;
        }
        cx := cx + 1;
      }
    }
  }
}
