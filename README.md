# Slippy-map tiles around a centre point

A model of the core of a small TypeScript library that draws a map as a
grid of Web Mercator tiles. There are two parts:

- `Tile` (Tile.ts) stores a point two ways. One is its fractional position
  on the tile grid of a zoom level (`x`, `y`). The other is its longitude and
  latitude. Setters keep the two in step. `map` enumerates the tiles that
  cover a pixel viewport around the point, wrapping column and row numbers
  that fall outside the grid.
- The `Map` constructor (Map.ts) fills in omitted options and reads a
  `"lat,lng"` centre string. It builds the centre tile and enumerates the
  tiles that cover the viewport. From the first and last tile it computes
  the four numbers of an SVG `viewBox`.

Files:

- `wrappers.dfy` (module `Wrappers`): `Option` and `Result`.
- `js_math.dfy` (module `JsMath`): the JavaScript number operations the code
  depends on, written out on integers and reals:
  - the 32-bit wrap of `<<`;
  - the remainder operator `%`, whose sign follows the dividend;
  - `Math.floor`, `Math.ceil` and `Number.isInteger`.
- `tile.dfy` (module `TileGrid`):
  - the tile state as a value (`TileState`), with one function per setter;
  - the class `Tile`, whose methods are proved to move its fields as those
    functions say;
  - the method `Tile.Map`, proved equal to the enumeration function
    `Enumerate`;
  - lemmas about the tile count, the setter round trips, the viewport and
    the order and contents of the enumeration.
- `map_view.dfy` (module `MapView`):
  - the `Map` constructor, as a function from its inputs to the two fields
    it sets (the tile list and the viewbox), or to the `TypeError` it throws
    when the tile list is empty;
  - lemmas about the defaults, the centre string and the viewbox.

### Behaviour worth knowing

- The tile count at zoom 0 is `2 << -1`, which is 0 in 32-bit arithmetic
  (`TileCountWraps`). Zoom 0 is the default of the `Map` constructor
  (Map.ts:16).
- A viewport of width 0 spans no column when the centre x is an integer,
  and one column otherwise (`ZeroWidthColumns`).
- A viewport 256 pixels wide spans one column when the centre sits exactly
  in the middle of a tile, and two otherwise (`OneTileWidthColumns`).
- The viewbox comes from the first and last tile after wrapping. When
  nothing wraps it is exactly the range walked (`ViewboxWithoutWrap`).
  When the columns start left of column 0, by at most one grid width, and
  end inside the grid, it is a whole grid width narrower than the columns
  walked, so 0 or negative when no more columns than the tiles per axis
  are walked
  (`ViewboxAcrossDateline`).
- A latitude the Mercator projection cannot take (180 degrees, for one)
  gives a NaN y. A map centred there, at a fractional longitude, walks no
  row and throws (`UnprojectableLatitudeFails`).

## Model

| member | source | states |
|---|---|---|
| JsMath.ToInt32 | Tile.ts:53 | the 32-bit conversion of the shift operators yields the signed 32-bit value congruent to its argument modulo 2^32, so a value already in that range is unchanged |
| JsMath.ShiftLeft | Tile.ts:53 | `a << b` yields a signed 32-bit value, equal to a·2^(b mod 32) whenever that product fits; `TileCountIsShift` gives its value for `2 << (zoom - 1)` |
| JsMath.IsInteger | Tile.ts:38 | `Number.isInteger` on a finite number: the number equals its floor; `ConstructDispatch` states the dispatch it drives |
| JsMath.Rem | Tile.ts:110-111 | `a % b` is a truncated remainder: it is `a - trunc(a/b)·b`, lies in [0, abs(b)) for `a >= 0` and in (-abs(b), 0] for `a < 0` |
| JsMath.Floor | Tile.ts:68 | `Math.floor` returns the integer r with r <= x < r + 1 |
| JsMath.Ceil | Tile.ts:101-102 | `Math.ceil` returns the integer r with r - 1 < x <= r |
| TileGrid.TileCount | Tile.ts:53 | the tiles per axis at a zoom; `TileCountIsShift` proves it is the 32-bit `2 << (zoom - 1)`, and `TileCountIsPowerOfTwo` and `TileCountWraps` give its values |
| TileGrid.WithZoom | Tile.ts:51-54 | the zoom setter stores the zoom and the tile count it determines, and leaves x, y, longitude and latitude unchanged |
| TileGrid.WithLongitude | Tile.ts:56-59 | the longitude setter stores the longitude and an x with x·360 = (longitude + 180)·tiles; nothing else changes |
| TileGrid.WithX | Tile.ts:71-74 | the x setter stores x and a longitude with that same linear relation; nothing else changes |
| TileGrid.WithLatitude | Tile.ts:61-65 | the latitude setter stores the latitude and y = Mercator fraction of the latitude × tiles, or a NaN y exactly where that fraction is not finite; nothing else changes |
| TileGrid.WithY | Tile.ts:80-84 | the y setter stores y and the latitude the inverse Mercator kernel gives at y / tiles; nothing else changes |
| TileGrid.Construct | Tile.ts:34-45 | `new Tile(a, b, zoom)` as a value; `ConstructDispatch` states its two branches and the invariants it establishes |
| TileGrid.ConstructDispatch | Tile.ts:34-45 | the constructor sets the zoom first. An integral first argument is read as grid x, y (y sets the latitude, and y is never NaN); any other as longitude, latitude (latitude sets y, NaN exactly where the projection is undefined). Either way the tile count matches the zoom and x matches the longitude |
| TileGrid.IndexX | Tile.ts:67-69 | the x getter is the floor of the stored x |
| TileGrid.IndexY | Tile.ts:76-78 | the y getter is the floor of the stored y |
| TileGrid.TileCountIsShift | Tile.ts:53 | the tile count equals the 32-bit shift `2 << (zoom - 1)` for every zoom |
| TileGrid.TileCountIsPowerOfTwo | Tile.ts:53 | zoom 1 to 30 gives 2^zoom tiles per axis |
| TileGrid.TileCountWraps | Tile.ts:53 | zoom 0 gives 0 tiles and zoom 31 gives -2^31 |
| TileGrid.LongitudeThenX | Tile.ts:56-74 | setting the longitude, then x to the value just stored, changes nothing |
| TileGrid.XThenLongitude | Tile.ts:56-74 | setting x, then the longitude to the value just stored, changes nothing |
| TileGrid.YThenLatitude | Tile.ts:61-84 | setting y, then the latitude just stored, restores y wherever the two Mercator kernels are inverse |
| TileGrid.ZoomDoesNotRescale | Tile.ts:51-59 | changing the zoom to one with a different tile count, on a tile with nonzero x whose x matched its longitude, breaks that relation, since neither is rescaled |
| TileGrid.Range.Columns | Tile.ts:107 | the outer loop runs xMax - xMin times, or not at all when xMax <= xMin |
| TileGrid.Range.Rows | Tile.ts:108 | the inner loop runs yMax - yMin times, or not at all when yMax <= yMin |
| TileGrid.Viewport | Tile.ts:90-102 | the column and row ranges `map` walks; `ViewportBounds`, `ColumnCountBounds`, `ZeroWidthColumns` and `OneTileWidthColumns` state them |
| TileGrid.ViewportBounds | Tile.ts:90-102 | xMin/yMin are the floors of the centre minus width/512 (height/512); xMax/yMax are the ceilings of the centre plus it; a NaN y gives no row |
| TileGrid.ColumnCountBounds | Tile.ts:90-102 | the cells walked span at least width/256 and fewer than width/256 + 2 columns (rows alike when y is a number) |
| TileGrid.ZeroWidthColumns | Tile.ts:90-107 | width 0 spans no column only when the centre x is an integer, and one column otherwise |
| TileGrid.OneTileWidthColumns | Tile.ts:90-107 | width 256 spans one column only when the centre is exactly mid-tile, and two otherwise |
| TileGrid.Wrap | Tile.ts:110-111 | the wrap `(v + tiles) % tiles` with JavaScript's remainder; `WrapRange` states where it lands |
| TileGrid.WrapRange | Tile.ts:109-111 | the wrap gives a coordinate in [0, tiles) equal to the Euclidean remainder for v >= -tiles; below that it can be negative |
| TileGrid.Cell | Tile.ts:110-112 | the tile `Tile.at` builds for a cell at the centre's zoom; `CellCoordinates` states what it holds |
| TileGrid.CellCoordinates | Tile.ts:110-112 | each emitted tile has the centre's zoom and tile count, a number as y, and x and y getters that read back the wrapped column and row |
| TileGrid.Pushed | Tile.ts:104-120 | what the loops have pushed at a given column and row; `PushedLength` and `PushedAt` state its length and contents, and it is `Tile.Map`'s loop invariant |
| TileGrid.PushedLength | Tile.ts:104-120 | after full columns xMin..col-1 and rows yMin..row-1 of column col, (col - xMin)·rows + (row - yMin) tiles have been pushed |
| TileGrid.PushedAt | Tile.ts:104-120 | cell (xMin+i, yMin+j) is at position i·rows + j, and the mapper saw that position as its index |
| TileGrid.Enumerate | Tile.ts:89-123 | the result of `map`; `EnumerateLength`, `EnumerateAt` and `EnumerateEmpty` state it, and `Tile.Map` is proved to return it |
| TileGrid.EnumerateLength | Tile.ts:89-123 | `map` returns columns × rows tiles |
| TileGrid.EnumerateAt | Tile.ts:107-118 | the result runs x outer, y inner: position i·rows + j holds the mapped tile of cell (xMin+i, yMin+j), mapped with index i·rows + j |
| TileGrid.EnumerateEmpty | Tile.ts:99-108 | the result is empty exactly when xMax <= xMin or yMax <= yMin |
| TileGrid.Tile.constructor | Tile.ts:34-45 | the new tile's fields are those the zoom-then-dispatch construction gives, and the tile count matches the zoom |
| TileGrid.Tile.At | Tile.ts:28-31 | returns a freshly allocated tile built by the constructor |
| TileGrid.Tile.SetZoom | Tile.ts:51-54 | the fields become those of the zoom setter function, and the tile count matches the zoom |
| TileGrid.Tile.SetLongitude | Tile.ts:56-59 | the fields become those of the longitude setter function |
| TileGrid.Tile.SetLatitude | Tile.ts:61-65 | the fields become those of the latitude setter function |
| TileGrid.Tile.SetX | Tile.ts:71-74 | the fields become those of the x setter function |
| TileGrid.Tile.SetY | Tile.ts:80-84 | the fields become those of the y setter function |
| TileGrid.Tile.X | Tile.ts:67-69 | the x getter is the floor of the stored x |
| TileGrid.Tile.Y | Tile.ts:76-78 | the y getter is the floor of the stored y |
| TileGrid.Tile.Map | Tile.ts:89-123 | the two nested loops push what `Enumerate` specifies: every cell of the viewport in x-outer, y-inner order, each mapped with its running index |
| MapView.CenterOption | Map.ts:14-15 | the centre option or its default; `Defaults` states both cases |
| MapView.ZoomOption | Map.ts:14-16 | the zoom option or its default; `Defaults` states both cases |
| MapView.Defaults | Map.ts:14-18 | an omitted centre is {lat: 360, lng: 170.1022} and an omitted zoom is 0; given options are used as they are |
| MapView.Split | Map.ts:21 | `split(",")` yields at least one field, and no field contains the separator |
| MapView.JoinSplit | Map.ts:21 | joining the fields of a split with the separator restores the string |
| MapView.SplitJoin | Map.ts:21 | splitting fields joined by a separator none contains gives back those fields |
| MapView.ResolveCenter | Map.ts:20-23 | the centre point, reading a string as `"lat,lng"`; `TextCenter` states the field order |
| MapView.TextCenter | Map.ts:20-23 | in a `"lat,lng"` string the first field is the latitude and the second the longitude; further fields are ignored |
| MapView.Build | Map.ts:26-29 | the tile list and viewbox from the centre tile, or the throw; `BuildFails`, `ViewboxCorners`, `ViewboxWithoutWrap` and `ViewboxAcrossDateline` state them |
| MapView.NewMap | Map.ts:13-30 | the constructor; `Defaults`, `TextCenter`, `NewMapTiles` and `UnprojectableLatitudeFails` state how it reaches `Build` |
| MapView.NewMapTiles | Map.ts:25-26 | the centre tile is `Tile.at(lng, lat, zoom)` (geographic for a fractional lng, grid for an integral one), and the tile list is its enumeration with no mapper; the constructor fails exactly when that list is empty |
| MapView.UnprojectableLatitudeFails | Map.ts:25-27 | a fractional longitude with a latitude outside the projection's domain leaves the tile list empty, so the constructor throws |
| MapView.DefaultCenterTile | Map.ts:15-25 | the default centre makes a geographic tile at longitude 170.1022, latitude 360 |
| MapView.BuildFails | Map.ts:26-28 | reading the first tile throws exactly when the viewport spans no column or no row |
| MapView.ZeroWidthIntegralCenterFails | Map.ts:26-27 | a width-0 viewport around an integral centre x yields no tile, so the constructor throws |
| MapView.ViewboxCorners | Map.ts:27-29 | the viewbox starts at the wrapped (xMin, yMin). Its width and height reach the wrapped (xMax-1, yMax-1), plus one |
| MapView.ViewboxWithoutWrap | Map.ts:27-29 | when the viewport lies inside the grid, the viewbox is exactly (xMin, yMin, xMax - xMin, yMax - yMin) |
| MapView.ViewboxAcrossDateline | Map.ts:27-29 | when the columns start at most one grid width left of column 0 and end inside the grid, the viewbox width is the columns walked minus the tiles per axis |

## Left out

- The transcendental part of the latitude formulas (`log`, `tan`, `cos`,
  `atan`, `sinh`, `PI`) is a parameter, `Mercator`. Its `yFraction` is
  partial: None where the source's y is NaN or infinite. Its `latitudeAt`
  is total. The linear scaling by the tile count around them is modelled.
- IEEE-754 rounding is not modelled. Numbers are exact reals, and grid
  columns and rows are integers.
- NaN and the infinities are modelled only for the y of a latitude outside
  the projection's domain (`yNaN`). Elsewhere they are not modelled:
  - A tile count of 0, which zoom 0 gives (the `Map` constructor's default,
    Map.ts:16), makes the source divide by zero and produce NaN.
  - The x and y setters, `map`, and the `Tile` constructor's grid branch
    therefore require a nonzero tile count, as does `NewMap`.
- TileGrid.IndexY: on a tile whose y is NaN the source's getter returns
  NaN; the model returns the floor of the placeholder 0. Nothing in the core
  reads that getter on such a tile.
- TileGrid.Tile.Y: the same as `IndexY` for a NaN y.
- `Number(...)` applied to the fields of the centre string is a parameter,
  `toNumber`. Its `None` stands for NaN or an infinity. Such a centre makes
  the source enumerate no tile and throw, and the model returns
  `Failure(EmptyTileList)` for it.
- The `svg` getter (Map.ts:32-51) is not modelled. It is string templating
  over the tiles and the viewbox.
- The `url` option is accepted and, as in the source, not used.
- The viewbox is kept as four integers instead of the space-separated string.
- TileGrid.Tile.At: its contract does not repeat that the tile count matches
  the zoom. That follows from `ConstructDispatch`.
- The zoom is an integer. A fractional zoom, which JavaScript's shift would
  truncate, is not modelled.
- The mapper is a pure function of the tile and its index. Emitted tiles are
  values (`TileState`), so object identity and later mutation of a pushed
  tile are not modelled. `Tile.Map` still allocates a tile per cell through
  `Tile.At`.
- The TypeScript overload signatures (Tile.ts:28, Tile.ts:33) carry no
  behaviour of their own.
