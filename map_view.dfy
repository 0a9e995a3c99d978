/**
 * The `Map` constructor (Map.ts): it fills in the omitted options, reads a
 * `"lat,lng"` centre string, builds the centre tile, enumerates the tiles
 * that cover the viewport, and derives the four numbers of the SVG viewBox
 * from the first and the last tile. The constructor computes its two fields
 * once, so it is modelled as a function from its inputs to those fields.
 */
module MapView {
  import opened Wrappers
  import opened JsMath
  import opened TileGrid

  /** The `center` option: a `"lat,lng"` string or a `{lat, lng}` pair. */
  datatype Center = CenterText(text: string) | CenterPoint(lat: real, lng: real)

  /** `Partial<MapOptions>`: every option may be omitted. `url` is accepted and not used. */
  datatype Options = Options(center: Option<Center>, zoom: Option<int>, url: Option<string>)

  /** A centre whose two coordinates are finite numbers. */
  datatype Point = Point(lat: real, lng: real)

  /** The numbers of the `viewbox` string `"minX minY width height"`. */
  datatype Viewbox = Viewbox(minX: int, minY: int, width: int, height: int)

  /** The two fields the constructor sets. */
  datatype MapFields = MapFields(tiles: seq<TileState>, viewbox: Viewbox)

  /** What the constructor throws: destructuring `tiles[0]` of an empty tile list is a TypeError. */
  datatype MapError = EmptyTileList

  const DefaultCenter: Center := CenterPoint(360.0, 170.1022)
  const DefaultZoom: int := 0

  function CenterOption(o: Options): Center {
    match o.center
    case Some(c) => c
    case None => DefaultCenter
  }

  function ZoomOption(o: Options): int {
    match o.zoom
    case Some(z) => z
    case None => DefaultZoom
  }

  /** Omitted options take the defaults: centre {lat: 360, lng: 170.1022} and zoom 0. */
  lemma Defaults(o: Options)
    ensures o.center.None? ==> CenterOption(o) == CenterPoint(360.0, 170.1022)
    ensures o.center.Some? ==> CenterOption(o) == o.center.value
    ensures o.zoom.None? ==> ZoomOption(o) == 0
    ensures o.zoom.Some? ==> ZoomOption(o) == o.zoom.value
  {
  }

  // ---------------------------------------------------------------------
  // `String.prototype.split` with a one-character separator
  // ---------------------------------------------------------------------

  /** The fields of `s` between occurrences of `sep`; there is always at least one. */
  function Split(s: string, sep: char): (r: seq<string>)
    ensures |r| >= 1
    ensures forall k :: 0 <= k < |r| ==> sep !in r[k]
  {
    if |s| == 0 then [""]
    else
      var rest := Split(s[1..], sep);
      if s[0] == sep then [""] + rest else [[s[0]] + rest[0]] + rest[1..]
  }

  /** The inverse of Split: the fields with `sep` between them. */
  function Join(fields: seq<string>, sep: char): string
    requires |fields| >= 1
  {
    if |fields| == 1 then fields[0] else fields[0] + [sep] + Join(fields[1..], sep)
  }

  /** Joining the fields of a split gives the string back. */
  lemma {:induction false} JoinSplit(s: string, sep: char)
    ensures Join(Split(s, sep), sep) == s
  {
    if |s| > 0 {
      var rest := Split(s[1..], sep);
      JoinSplit(s[1..], sep);
      if s[0] == sep {
        assert Split(s, sep) == [""] + rest;
        assert s == [sep] + s[1..];
      } else {
        var r := Split(s, sep);
        assert r == [[s[0]] + rest[0]] + rest[1..];
        if |rest| == 1 {
          assert s == [s[0]] + rest[0];
        } else {
          assert rest == [rest[0]] + rest[1..];
          assert Join(rest, sep) == rest[0] + [sep] + Join(rest[1..], sep);
          assert r[1..] == rest[1..];
          assert s == [s[0]] + (rest[0] + [sep] + Join(rest[1..], sep));
        }
      }
    }
  }

  /** Splitting fields joined by a separator none of them contains gives those fields back. */
  lemma {:induction false} SplitJoin(fields: seq<string>, sep: char)
    requires |fields| >= 1
    requires forall k :: 0 <= k < |fields| ==> sep !in fields[k]
    ensures Split(Join(fields, sep), sep) == fields
    decreases |Join(fields, sep)|
  {
    SplitFieldThenRest(fields[0], if |fields| == 1 then None else Some(Join(fields[1..], sep)), sep);
    if |fields| > 1 {
      SplitJoin(fields[1..], sep);
      assert fields == [fields[0]] + fields[1..];
    }
  }

  /**
   * Splitting a field free of `sep`, followed (when `rest` is present) by
   * `sep` and `rest`, yields the field and then the fields of `rest`.
   */
  lemma {:induction false} SplitFieldThenRest(field: string, rest: Option<string>, sep: char)
    requires sep !in field
    ensures rest.None? ==> Split(field, sep) == [field]
    ensures rest.Some? ==> Split(field + [sep] + rest.value, sep) == [field] + Split(rest.value, sep)
    decreases |field|
  {
    var s := if rest.None? then field else field + [sep] + rest.value;
    if |field| == 0 {
      if rest.Some? {
        assert s == [sep] + rest.value;
        assert s[1..] == rest.value;
      }
    } else {
      SplitFieldThenRest(field[1..], rest, sep);
      var tail := if rest.None? then field[1..] else field[1..] + [sep] + rest.value;
      assert s[1..] == tail;
      assert s[0] == field[0] && s[0] != sep;
      assert field == [field[0]] + field[1..];
    }
  }

  // ---------------------------------------------------------------------
  // The centre and the constructor
  // ---------------------------------------------------------------------

  /**
   * The centre as (lat, lng). A string is split on "," and its first two
   * fields go through `toNumber`, which stands for `Number(...)` and gives
   * None for NaN or an infinity; a missing second field is `undefined`.
   * None means some coordinate is not a finite number.
   */
  function ResolveCenter(c: Center, toNumber: string -> Option<real>): Option<Point> {
    match c
    case CenterPoint(lat, lng) => Some(Point(lat, lng))
    case CenterText(text) =>
      var fields := Split(text, ',');
      var lat := toNumber(fields[0]);
      var lng := if |fields| >= 2 then toNumber(fields[1]) else None;
      if lat.Some? && lng.Some? then Some(Point(lat.value, lng.value)) else None
  }

  /**
   * In a `"lat,lng"` string the first field is the latitude and the second
   * the longitude; further fields are ignored.
   */
  lemma TextCenter(fields: seq<string>, toNumber: string -> Option<real>)
    requires |fields| >= 2
    requires forall k :: 0 <= k < |fields| ==> ',' !in fields[k]
    requires toNumber(fields[0]).Some? && toNumber(fields[1]).Some?
    ensures ResolveCenter(CenterText(Join(fields, ',')), toNumber)
         == Some(Point(toNumber(fields[0]).value, toNumber(fields[1]).value))
  {
    SplitJoin(fields, ',');
  }

  /**
   * From the centre tile on: `tiles` is `centerTile.map(width, height)` and
   * the viewbox comes from the first and the last tile.
   */
  function Build(center: TileState, m: Mercator, width: real, height: real): Result<MapFields, MapError>
    requires center.tiles != 0 && ZoomConsistent(center)
  {
    var tiles := Enumerate(center, m, width, height, Identity);
    if |tiles| == 0 then Failure(EmptyTileList)
    else
      var minX, minY := IndexX(tiles[0]), IndexY(tiles[0]);
      var maxX, maxY := IndexX(tiles[|tiles| - 1]), IndexY(tiles[|tiles| - 1]);
      Success(MapFields(tiles, Viewbox(minX, minY, maxX + 1 - minX, maxY + 1 - minY)))
  }

  /**
   * `new Map(width, height, options)`. The centre tile is `Tile.at(lng, lat, zoom)`,
   * longitude first. A centre coordinate that is not a finite number makes
   * the centre's x or y NaN or infinite, so the loops of `map` never run and
   * reading `tiles[0]` throws; so does a latitude the Mercator projection
   * cannot take (UnprojectableLatitudeFails). A tile count of 0 (zoom 0, the
   * default of this constructor, among others) turns every coordinate into
   * NaN and is outside this model.
   */
  function NewMap(width: real, height: real, options: Options, toNumber: string -> Option<real>, m: Mercator): Result<MapFields, MapError>
    requires TileCount(ZoomOption(options)) != 0
  {
    var zoom := ZoomOption(options);
    match ResolveCenter(CenterOption(options), toNumber)
    case None => Failure(EmptyTileList)
    case Some(p) =>
      ConstructDispatch(p.lng, p.lat, zoom, m);
      Build(Construct(p.lng, p.lat, zoom, m), m, width, height)
  }

  // ---------------------------------------------------------------------
  // Properties of the constructor
  // ---------------------------------------------------------------------

  /**
   * With the centre (lat, lng) resolved, the tiles are exactly the centre
   * tile's enumeration with no mapper, and that tile is built with the
   * longitude as its first argument: a geographic tile at (lng, lat) when
   * lng is not an integer, a grid tile at x = lng, y = lat when it is.
   */
  lemma NewMapTiles(width: real, height: real, options: Options, toNumber: string -> Option<real>, m: Mercator, p: Point)
    requires TileCount(ZoomOption(options)) != 0
    requires ResolveCenter(CenterOption(options), toNumber) == Some(p)
    ensures var center := Construct(p.lng, p.lat, ZoomOption(options), m);
      center.tiles != 0 && ZoomConsistent(center) &&
      (!IsInteger(p.lng) ==> center.longitude == p.lng && center.latitude == p.lat) &&
      (IsInteger(p.lng) ==> center.x == p.lng && center.y == p.lat) &&
      var tiles := Enumerate(center, m, width, height, Identity);
      NewMap(width, height, options, toNumber, m) ==
        if tiles == [] then Failure(EmptyTileList) else Build(center, m, width, height)
  {
    ConstructDispatch(p.lng, p.lat, ZoomOption(options), m);
  }

  /**
   * A fractional longitude with a latitude the Mercator projection cannot
   * take (180 degrees, for one) makes the centre's y NaN: no row is walked,
   * the tile list stays empty and the constructor throws.
   */
  lemma UnprojectableLatitudeFails(width: real, height: real, options: Options, toNumber: string -> Option<real>, m: Mercator, p: Point)
    requires TileCount(ZoomOption(options)) != 0
    requires ResolveCenter(CenterOption(options), toNumber) == Some(p)
    requires !IsInteger(p.lng) && m.yFraction(p.lat).None?
    ensures NewMap(width, height, options, toNumber, m).Failure?
  {
    var center := Construct(p.lng, p.lat, ZoomOption(options), m);
    ConstructDispatch(p.lng, p.lat, ZoomOption(options), m);
    BuildFails(center, m, width, height);
  }

  /** Without a centre option the centre tile is geographic, at longitude 170.1022 and latitude 360. */
  lemma DefaultCenterTile(zoom: int, m: Mercator)
    ensures var center := Construct(170.1022, 360.0, zoom, m);
      center.longitude == 170.1022 && center.latitude == 360.0
  {
    assert !IsInteger(170.1022) by {
      assert 170.1022.Floor == 170;
    }
    ConstructDispatch(170.1022, 360.0, zoom, m);
  }

  /** The constructor fails exactly when the viewport spans no column or no row. */
  lemma BuildFails(center: TileState, m: Mercator, width: real, height: real)
    requires center.tiles != 0 && ZoomConsistent(center)
    ensures var b := Viewport(center, width, height);
      Build(center, m, width, height).Failure? <==> b.xMax <= b.xMin || b.yMax <= b.yMin
  {
    EnumerateLength(center, m, width, height, Identity);
    var b := Viewport(center, width, height);
    if b.Columns() > 0 && b.Rows() > 0 {
      assert b.Columns() * b.Rows() > 0;
    }
  }

  /** A viewport of width 0 around a centre with integral x yields no tile, so the constructor throws. */
  lemma ZeroWidthIntegralCenterFails(center: TileState, m: Mercator, height: real)
    requires center.tiles != 0 && ZoomConsistent(center)
    requires IsInteger(center.x)
    ensures Build(center, m, 0.0, height).Failure?
  {
    ZeroWidthColumns(center, height);
    BuildFails(center, m, 0.0, height);
  }

  /**
   * The viewbox starts at the wrapped first cell (xMin, yMin); its width
   * and height run from there to the wrapped last cell (xMax - 1, yMax - 1),
   * plus one.
   */
  lemma ViewboxCorners(center: TileState, m: Mercator, width: real, height: real)
    requires center.tiles != 0 && ZoomConsistent(center)
    requires Build(center, m, width, height).Success?
    ensures var b := Viewport(center, width, height);
      var n := center.tiles;
      var v := Build(center, m, width, height).value.viewbox;
      v.minX == Wrap(b.xMin, n) && v.minY == Wrap(b.yMin, n) &&
      v.width == Wrap(b.xMax - 1, n) + 1 - Wrap(b.xMin, n) &&
      v.height == Wrap(b.yMax - 1, n) + 1 - Wrap(b.yMin, n)
  {
    var b := Viewport(center, width, height);
    var n := center.tiles;
    BuildFails(center, m, width, height);
    var cols, rows := b.Columns(), b.Rows();
    var tiles := Enumerate(center, m, width, height, Identity);
    EnumerateLength(center, m, width, height, Identity);
    LastInRowMajor(cols, rows);
    EnumerateAt(center, m, width, height, Identity, 0, 0);
    EnumerateAt(center, m, width, height, Identity, cols - 1, rows - 1);
    var first, last := tiles[0], tiles[|tiles| - 1];
    assert first == Cell(center, m, b.xMin, b.yMin);
    assert last == Cell(center, m, b.xMax - 1, b.yMax - 1);
    CellCoordinates(center, m, b.xMin, b.yMin);
    CellCoordinates(center, m, b.xMax - 1, b.yMax - 1);
    assert Build(center, m, width, height).value.viewbox ==
      Viewbox(IndexX(first), IndexY(first), IndexX(last) + 1 - IndexX(first), IndexY(last) + 1 - IndexY(first));
  }

  /** In a row-major walk of cols × rows cells, the last cell is at cols·rows − 1. */
  lemma LastInRowMajor(cols: int, rows: int)
    ensures (cols - 1) * rows + (rows - 1) == cols * rows - 1
  {
    assert (cols - 1) * rows == cols * rows - rows;
  }

  /**
   * When the viewport stays inside the grid, nothing wraps, and the viewbox
   * is exactly the range of columns and rows walked.
   */
  lemma ViewboxWithoutWrap(center: TileState, m: Mercator, width: real, height: real)
    requires center.tiles != 0 && ZoomConsistent(center)
    requires Build(center, m, width, height).Success?
    requires var b := Viewport(center, width, height);
      0 <= b.xMin && b.xMax <= center.tiles && 0 <= b.yMin && b.yMax <= center.tiles
    ensures var b := Viewport(center, width, height);
      Build(center, m, width, height).value.viewbox == Viewbox(b.xMin, b.yMin, b.xMax - b.xMin, b.yMax - b.yMin)
  {
    var b := Viewport(center, width, height);
    var n := center.tiles;
    ViewboxCorners(center, m, width, height);
    BuildFails(center, m, width, height);
    WrapRange(b.xMin, n);
    WrapRange(b.yMin, n);
    WrapRange(b.xMax - 1, n);
    WrapRange(b.yMax - 1, n);
    EuclideanUnique(b.xMin, n, 0, b.xMin);
    EuclideanUnique(b.yMin, n, 0, b.yMin);
    EuclideanUnique(b.xMax - 1, n, 0, b.xMax - 1);
    EuclideanUnique(b.yMax - 1, n, 0, b.yMax - 1);
  }

  /**
   * Across the antimeridian the viewbox no longer measures the viewport.
   * When the columns walked start left of column 0, by at most one grid
   * width, and end inside the grid, the first column wraps to the right
   * part of the grid and the viewbox is a whole grid width narrower than
   * the columns walked: 0 wide when they are as many as the tiles per axis
   * (columns -1 and 0 at zoom 1), negative when fewer.
   */
  lemma ViewboxAcrossDateline(center: TileState, m: Mercator, width: real, height: real)
    requires center.tiles > 0 && ZoomConsistent(center)
    requires var b := Viewport(center, width, height);
      -center.tiles <= b.xMin < 0 < b.xMax <= center.tiles && b.yMin < b.yMax
    ensures Build(center, m, width, height).Success?
    ensures var b := Viewport(center, width, height);
      Build(center, m, width, height).value.viewbox.width == (b.xMax - b.xMin) - center.tiles
  {
    var b := Viewport(center, width, height);
    var n := center.tiles;
    BuildFails(center, m, width, height);
    ViewboxCorners(center, m, width, height);
    WrapRange(b.xMin, n);
    WrapRange(b.xMax - 1, n);
    EuclideanUnique(b.xMin, n, -1, b.xMin + n);
    EuclideanUnique(b.xMax - 1, n, 0, b.xMax - 1);
  }
}
