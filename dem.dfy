/** The Copernicus DEM mosaic readers of
    rio_tiler_pds/copernicus/aws/dem.py (`Dem30Reader`, `Dem90Reader`): the
    one-degree cell a point falls in, the object URL of that cell, the
    cells a bounding box covers, and the order of the candidates handed to
    the mosaic reader.  Coordinates are reals standing for Python floats;
    `math.floor` is `Floor`, and `int()` (truncation toward zero) is written
    out.  Reading rasters and reprojecting coordinates are not part of this
    model: the geographic bounds of a tile are a function parameter. */
module CopernicusDem {
  import opened Text
  import opened MultiBand

  /** Python's `int(x)` on a float. */
  function Trunc(x: real): int {
    if x >= 0.0 then x.Floor else -((-x).Floor)
  }

  /** `int(x)` is the integer part of `x`, rounded toward zero. */
  lemma TruncTowardZero(x: real)
    ensures x >= 0.0 ==> Trunc(x) >= 0 && Trunc(x) as real <= x < Trunc(x) as real + 1.0
    ensures x < 0.0 ==> Trunc(x) <= 0 && Trunc(x) as real - 1.0 < x <= Trunc(x) as real
  {
  }

  function Abs(n: int): nat {
    if n < 0 then -n else n
  }

  /** The naming fields of a one-degree cell: hemisphere letters and the
      absolute values of the floored latitude and longitude. */
  datatype CellId = CellId(ns: char, lat: nat, ew: char, lon: nat)

  /** `_get_dataset_url` up to the formatting: "N" when `lat >= 0`, "W" when
      `lon < 0`, then `abs(math.floor(...))` of each coordinate. */
  function CellOf(lon: real, lat: real): CellId {
    CellId(if lat >= 0.0 then 'N' else 'S', Abs(lat.Floor),
           if lon < 0.0 then 'W' else 'E', Abs(lon.Floor))
  }

  /** `Copernicus_DSM_COG_{cog}_{northsouth}{lat:02d}_00_{eastwest}{lon:03d}_00_DEM`. */
  function CellName(cog: Str, c: CellId): Str {
    NameHead(cog) + [c.ns] + ZeroPad(c.lat, 2) + LonPart(c)
  }

  function NameHead(cog: Str): Str {
    "Copernicus_DSM_COG_" + cog + "_"
  }

  function LonPart(c: CellId): Str {
    "_00_" + [c.ew] + ZeroPad(c.lon, 3) + "_00_DEM"
  }

  /** The cell names the floored coordinates: the hemisphere letter gives
      the sign back, so a cell is the pair of floors. */
  lemma CellFloors(lon: real, lat: real)
    ensures var c := CellOf(lon, lat);
      && c.ns in "NS" && c.ew in "EW"
      && lat.Floor == (if c.ns == 'N' then c.lat as int else -(c.lat as int))
      && lon.Floor == (if c.ew == 'E' then c.lon as int else -(c.lon as int))
      && (c.ns == 'S' ==> c.lat >= 1) && (c.ew == 'W' ==> c.lon >= 1)
  {
  }

  /** Two points are named by the same cell exactly when their floored
      coordinates agree. */
  lemma SameCellIffSameFloors(lon1: real, lat1: real, lon2: real, lat2: real)
    ensures CellOf(lon1, lat1) == CellOf(lon2, lat2) <==> lon1.Floor == lon2.Floor && lat1.Floor == lat2.Floor
  {
    CellFloors(lon1, lat1);
    CellFloors(lon2, lat2);
  }

  /** A point and the south-west corner of its cell are named alike. */
  lemma CellOfCorner(lon: real, lat: real)
    ensures CellOf(lon, lat) == CellOf(lon.Floor as real, lat.Floor as real)
  {
    SameCellIffSameFloors(lon, lat, lon.Floor as real, lat.Floor as real);
  }

  /** The cells of the points checked for `assets_for_point`: flooring, not
      rounding, so a point just south of the equator is in S01, and -9.9 is
      in the tenth degree. */
  lemma CellExamples()
    ensures CellOf(0.0, 0.0) == CellId('N', 0, 'E', 0)
    ensures CellOf(9.9, 9.9) == CellId('N', 9, 'E', 9)
    ensures CellOf(10.1, 10.1) == CellOf(10.0, 10.0) == CellId('N', 10, 'E', 10)
    ensures CellOf(-9.9, -9.9) == CellId('S', 10, 'W', 10)
    ensures CellOf(-10.1, -10.1) == CellId('S', 11, 'W', 11)
    ensures CellOf(-1.0, -1.0) == CellOf(-0.1, -0.1) == CellId('S', 1, 'W', 1)
  {
  }

  /** The name of a northern, eastern cell in the 30 m dataset: both
      numbers zero-padded. */
  lemma NorthEastName()
    ensures CellName("10", CellId('N', 9, 'E', 9)) == "Copernicus_DSM_COG_10_" + "N09" + "_00_E009_00_DEM"
  {
    PadExamples();
    assert NameHead("10") == "Copernicus_DSM_COG_10_";
    assert LonPart(CellId('N', 9, 'E', 9)) == "_00_E009_00_DEM";
  }

  /** The name of a southern, western cell in the 30 m dataset. */
  lemma SouthWestName()
    ensures CellName("10", CellId('S', 10, 'W', 10)) == SouthWest30
  {
    PadExamples();
    assert NameHead("10") == "Copernicus_DSM_COG_10_";
    assert LonPart(CellId('S', 10, 'W', 10)) == "_00_W010_00_DEM";
  }

  lemma PadExamples()
    ensures ZeroPad(0, 2) == "00" && ZeroPad(0, 3) == "000"
    ensures ZeroPad(9, 2) == "09" && ZeroPad(9, 3) == "009"
    ensures ZeroPad(10, 2) == "10" && ZeroPad(10, 3) == "010"
  {
    SmallNumbers();
    assert Zeros(1) == "0" && Zeros(2) == "00";
  }

  lemma SmallNumbers()
    ensures NatToStr(0) == "0" && NatToStr(9) == "9" && NatToStr(10) == "10"
  {
    assert NatToStr(1) == "1";
    assert NatToStr(10) == NatToStr(1) + [DigitChar(0)];
  }

  /** Text of the shape `h`, a letter, a digit run, then `x` starting with
      '_': equal texts have equal letters, digit runs and tails. */
  lemma LetterDigitsUnique(h: Str, a: char, d: Str, x: Str, b: char, e: Str, y: Str)
    requires AllDigits(d) && AllDigits(e)
    requires x != [] && x[0] == '_' && y != [] && y[0] == '_'
    requires h + [a] + d + x == h + [b] + e + y
    ensures a == b && d == e && x == y
  {
    var s := h + [a] + d + x;
    var t := h + [b] + e + y;
    assert s[|h|..] == [a] + (d + x);
    assert t[|h|..] == [b] + (e + y);
    assert a == s[|h|] && b == t[|h|];
    assert s[|h| + 1..] == d + x;
    assert t[|h| + 1..] == e + y;
    assert !IsDigit('_');
    DigitRunUnique(d, x, e, y);
  }

  /** A cell name followed by more text, split at the latitude field. */
  lemma UrlParts(p: Str, cog: Str, c: CellId, rest: Str)
    ensures p + (CellName(cog, c) + rest) == p + NameHead(cog) + [c.ns] + ZeroPad(c.lat, 2) + (LonPart(c) + rest)
  {
    var h := NameHead(cog);
    var z := ZeroPad(c.lat, 2);
    var l := LonPart(c);
    assert CellName(cog, c) + rest == h + [c.ns] + z + (l + rest);
  }

  /** The longitude part followed by more text, split at its digit run. */
  lemma LonParts(c: CellId, rest: Str)
    ensures LonPart(c) + rest == "_00_" + [c.ew] + ZeroPad(c.lon, 3) + ("_00_DEM" + rest)
  {
  }

  /** The fields of a cell name can be read back from any text that
      starts with it after a common prefix `p`. */
  lemma NamesUnique(p: Str, cog: Str, c1: CellId, r1: Str, c2: CellId, r2: Str)
    requires p + (CellName(cog, c1) + r1) == p + (CellName(cog, c2) + r2)
    ensures c1 == c2
  {
    UrlParts(p, cog, c1, r1);
    UrlParts(p, cog, c2, r2);
    LetterDigitsUnique(p + NameHead(cog), c1.ns, ZeroPad(c1.lat, 2), LonPart(c1) + r1,
                       c2.ns, ZeroPad(c2.lat, 2), LonPart(c2) + r2);
    ZeroPadInjective(c1.lat, c2.lat, 2);
    LonUnique(c1, r1, c2, r2);
  }

  lemma LonUnique(c1: CellId, r1: Str, c2: CellId, r2: Str)
    requires LonPart(c1) + r1 == LonPart(c2) + r2
    ensures c1.ew == c2.ew && c1.lon == c2.lon
  {
    LonParts(c1, r1);
    LonParts(c2, r2);
    LetterDigitsUnique("_00_", c1.ew, ZeroPad(c1.lon, 3), "_00_DEM" + r1,
                       c2.ew, ZeroPad(c2.lon, 3), "_00_DEM" + r2);
    ZeroPadInjective(c1.lon, c2.lon, 3);
  }

  lemma UrlAssoc(p: Str, n: Str)
    ensures p + (n + ("/" + n + ".tif")) == p + n + "/" + n + ".tif"
  {
  }

  /** The width of `range(lo, hi + 1)`. */
  function Span(lo: int, hi: int): nat {
    if hi < lo then 0 else hi - lo + 1
  }

  lemma MulSucc(a: int, n: int)
    ensures (a + 1) * n == a * n + n
  {
  }

  lemma {:induction false} MulLe(a: int, b: int, n: int)
    requires 0 <= a <= b && n >= 0
    ensures a * n <= b * n
    decreases b - a
  {
    if a < b {
      MulLe(a, b - 1, n);
      MulSucc(b - 1, n);
    }
  }

  /** Entry `(i, j)` of an `nx` by `ny` grid stored row after row lies
      inside it. */
  lemma IndexBelow(i: int, j: int, nx: int, ny: int)
    requires 0 <= i < nx && 0 <= j < ny
    ensures 0 <= i * ny + j < nx * ny
  {
    MulSucc(i, ny);
    MulLe(i + 1, nx, ny);
    MulLe(0, i, ny);
  }

  /** The inner loop of `assets_for_bbox`: `f(x, y)` for the rows
      `y0..y1` of column `x`. */
  function Column<T>(f: (int, int) -> T, x: int, y0: int, y1: int): (c: seq<T>)
    ensures |c| == Span(y0, y1)
    decreases y1 - y0
  {
    if y1 < y0 then [] else Column(f, x, y0, y1 - 1) + [f(x, y1)]
  }

  /** Both loops: columns `x0..x1`, each with rows `y0..y1`. */
  function Grid<T>(f: (int, int) -> T, x0: int, x1: int, y0: int, y1: int): seq<T>
    decreases x1 - x0
  {
    if x1 < x0 then [] else Grid(f, x0, x1 - 1, y0, y1) + Column(f, x1, y0, y1)
  }

  /** Distinct columns or rows give distinct values. */
  ghost predicate Injective<T>(f: (int, int) -> T) {
    forall x, y, x', y' :: f(x, y) == f(x', y') ==> x == x' && y == y'
  }

  /** One more row of a column. */
  lemma ColumnStep<T>(f: (int, int) -> T, x: int, y0: int, y: int)
    requires y0 <= y
    ensures Column(f, x, y0, y) == Column(f, x, y0, y - 1) + [f(x, y)]
  {
  }

  /** One more column of the grid. */
  lemma GridStep<T>(f: (int, int) -> T, x0: int, x: int, y0: int, y1: int)
    requires x0 <= x
    ensures Grid(f, x0, x, y0, y1) == Grid(f, x0, x - 1, y0, y1) + Column(f, x, y0, y1)
  {
  }

  /** Row `j` of a column is `f(x, y0 + j)`. */
  lemma {:induction false} ColumnIndex<T>(f: (int, int) -> T, x: int, y0: int, y1: int, j: int)
    requires 0 <= j < Span(y0, y1)
    ensures Column(f, x, y0, y1)[j] == f(x, y0 + j)
    decreases y1 - y0
  {
    if j < Span(y0, y1 - 1) {
      ColumnIndex(f, x, y0, y1 - 1, j);
    }
  }

  /** One entry per column and row: `nx * ny` entries. */
  lemma {:induction false} GridLength<T>(f: (int, int) -> T, x0: int, x1: int, y0: int, y1: int)
    ensures |Grid(f, x0, x1, y0, y1)| == Span(x0, x1) * Span(y0, y1)
    decreases x1 - x0
  {
    if x1 >= x0 {
      GridLength(f, x0, x1 - 1, y0, y1);
      MulSucc(Span(x0, x1 - 1), Span(y0, y1));
    }
  }

  /** The grid is longitude-major: column `i`, row `j` sits at
      `i * ny + j`, where `ny` is the number of rows. */
  lemma {:induction false} GridIndex<T>(f: (int, int) -> T, x0: int, x1: int, y0: int, y1: int, i: int, j: int)
    requires 0 <= i < Span(x0, x1) && 0 <= j < Span(y0, y1)
    ensures i * Span(y0, y1) + j < |Grid(f, x0, x1, y0, y1)|
    ensures Grid(f, x0, x1, y0, y1)[i * Span(y0, y1) + j] == f(x0 + i, y0 + j)
    decreases x1 - x0
  {
    var ny := Span(y0, y1);
    GridLength(f, x0, x1, y0, y1);
    GridLength(f, x0, x1 - 1, y0, y1);
    IndexBelow(i, j, Span(x0, x1), ny);
    if i < x1 - x0 {
      IndexBelow(i, j, x1 - x0, ny);
      GridIndex(f, x0, x1 - 1, y0, y1, i, j);
    } else {
      ColumnIndex(f, x1, y0, y1, j);
    }
  }

  /** Every entry is some column and row of the grid, at the place
      `GridIndex` gives it. */
  lemma {:induction false} GridEntry<T>(f: (int, int) -> T, x0: int, x1: int, y0: int, y1: int, k: int)
    returns (i: int, j: int)
    requires 0 <= k < |Grid(f, x0, x1, y0, y1)|
    ensures 0 <= i < Span(x0, x1) && 0 <= j < Span(y0, y1) && k == i * Span(y0, y1) + j
    ensures Grid(f, x0, x1, y0, y1)[k] == f(x0 + i, y0 + j)
    decreases x1 - x0
  {
    var front := Grid(f, x0, x1 - 1, y0, y1);
    GridLength(f, x0, x1 - 1, y0, y1);
    if k < |front| {
      i, j := GridEntry(f, x0, x1 - 1, y0, y1, k);
    } else {
      i := x1 - x0;
      j := k - |front|;
      ColumnIndex(f, x1, y0, y1, j);
    }
  }

  /** For an injective `f`, `f(x, y)` is in the grid exactly when its
      column and row are in range. */
  lemma GridMembership<T>(f: (int, int) -> T, x0: int, x1: int, y0: int, y1: int, x: int, y: int)
    requires Injective(f)
    ensures f(x, y) in Grid(f, x0, x1, y0, y1) <==> x0 <= x <= x1 && y0 <= y <= y1
  {
    var g := Grid(f, x0, x1, y0, y1);
    if x0 <= x <= x1 && y0 <= y <= y1 {
      GridIndex(f, x0, x1, y0, y1, x - x0, y - y0);
    }
    if f(x, y) in g {
      var k :| 0 <= k < |g| && g[k] == f(x, y);
      var i, j := GridEntry(f, x0, x1, y0, y1, k);
    }
  }

  /** For an injective `f`, no value is listed twice. */
  lemma GridDistinct<T>(f: (int, int) -> T, x0: int, x1: int, y0: int, y1: int, k1: int, k2: int)
    requires Injective(f)
    requires 0 <= k1 < |Grid(f, x0, x1, y0, y1)| && 0 <= k2 < |Grid(f, x0, x1, y0, y1)|
    requires Grid(f, x0, x1, y0, y1)[k1] == Grid(f, x0, x1, y0, y1)[k2]
    ensures k1 == k2
  {
    var i1, j1 := GridEntry(f, x0, x1, y0, y1, k1);
    var i2, j2 := GridEntry(f, x0, x1, y0, y1, k2);
  }

  /** `int(v + s)` for a shift `s` that makes the value non-negative is
      the shifted floor. */
  lemma TruncShift(v: real, s: int)
    requires v + s as real >= 0.0
    ensures Trunc(v + s as real) == v.Floor + s
  {
  }

  /** Shifted into the non-negative range, a coordinate between two
      corners has its floor between their truncations. */
  lemma ShiftedCorners(lo: real, v: real, hi: real, s: int)
    requires lo + s as real >= 0.0 && lo <= v <= hi
    ensures Trunc(lo + s as real) <= v.Floor + s <= Trunc(hi + s as real)
  {
    TruncShift(lo, s);
    TruncShift(hi, s);
    FloorMono(lo, v);
    FloorMono(v, hi);
  }

  lemma FloorMono(a: real, b: real)
    requires a <= b
    ensures a.Floor <= b.Floor
  {
  }

  /** Reading from the last candidate to the first. */
  function Reversed(s: seq<Str>): (r: seq<Str>)
    ensures |r| == |s|
    ensures forall i :: 0 <= i < |s| ==> r[i] == s[|s| - 1 - i]
  {
    if s == [] then [] else [s[|s| - 1]] + Reversed(s[..|s| - 1])
  }

  /** Reversing keeps every candidate exactly once. */
  lemma {:induction false} ReversedPermutes(s: seq<Str>)
    ensures multiset(Reversed(s)) == multiset(s)
  {
    if s != [] {
      var init := s[..|s| - 1];
      var last := s[|s| - 1];
      ReversedPermutes(init);
      assert Reversed(s) == [last] + Reversed(init);
      assert s == init + [last];
      calc {
        multiset(Reversed(s));
        multiset([last]) + multiset(Reversed(init));
        multiset([last]) + multiset(init);
        multiset(s);
      }
    }
  }

  /** Reversing twice gives the list back. */
  lemma ReversedTwice(s: seq<Str>)
    ensures Reversed(Reversed(s)) == s
  {
    var r := Reversed(Reversed(s));
    assert forall i :: 0 <= i < |s| ==> r[i] == s[i];
  }

  /** `list(reversed(assets)) if reverse else assets`. */
  function MosaicOrder(assets: seq<Str>, reverse: bool): seq<Str> {
    if reverse then Reversed(assets) else assets
  }

  /** `Copernicus_DSM_COG_10_S10_00_W010_00_DEM`. */
  const SouthWest30: Str := "Copernicus_DSM_COG_10_" + "S10" + "_00_W010_00_DEM"

  datatype Resolution = Dem30m | Dem90m

  /** The part of `info()` the reader fills in itself. */
  datatype DemInfo = DemInfo(
    bounds: Bounds, minzoom: int, maxzoom: int,
    bandMetadata: seq<(Str, map<Str, Str>)>, bandDescriptions: seq<(Str, Str)>,
    dtype: Str, colorinterp: seq<Str>, nodataType: Str, driver: Str, count: int)

  const WorldBounds: Bounds := Bounds(-180.0, -90.0, 180.0, 90.0)

  /** `Dem30Reader` and its subclass `Dem90Reader`, with the default
      attributes: the bucket, the `COG_10` / `COG_30` code in the prefix
      pattern, and the zoom range. */
  class DemReader {
    const resolution: Resolution
    const input: Str
    const bucket: Str
    const cog: Str
    const minzoom: int
    const maxzoom: int
    const bounds: Bounds

    predicate Valid() {
      && bounds == WorldBounds
      && match resolution
         case Dem30m =>
           input == "copernicus-dem-30m" && bucket == "copernicus-dem-30m" && cog == "10"
           && minzoom == 7 && maxzoom == 8
         case Dem90m =>
           input == "copernicus-dem-90m" && bucket == "copernicus-dem-90m" && cog == "30"
           && minzoom == 6 && maxzoom == 7
    }

    /** `Dem30Reader()`. */
    constructor Dem30()
      ensures Valid() && resolution == Dem30m
      ensures bucket == "copernicus-dem-30m" && cog == "10" && minzoom == 7 && maxzoom == 8
      ensures bounds == Bounds(-180.0, -90.0, 180.0, 90.0)
    {
      resolution := Dem30m;
      input := "copernicus-dem-30m";
      bucket := "copernicus-dem-30m";
      cog := "10";
      minzoom := 7;
      maxzoom := 8;
      bounds := WorldBounds;
    }

    /** `Dem90Reader()`. */
    constructor Dem90()
      ensures Valid() && resolution == Dem90m
      ensures bucket == "copernicus-dem-90m" && cog == "30" && minzoom == 6 && maxzoom == 7
      ensures bounds == Bounds(-180.0, -90.0, 180.0, 90.0)
    {
      resolution := Dem90m;
      input := "copernicus-dem-90m";
      bucket := "copernicus-dem-90m";
      cog := "30";
      minzoom := 6;
      maxzoom := 7;
      bounds := WorldBounds;
    }

    /** `s3://{bucket}/{dataset}.tif` where the dataset is the cell name
        as directory and as file. */
    function CellUrl(c: CellId): Str {
      "s3://" + bucket + "/" + (CellName(cog, c) + ("/" + CellName(cog, c) + ".tif"))
    }

    /** `_get_dataset_url(lon, lat)`. */
    function DatasetUrl(lon: real, lat: real): Str {
      CellUrl(CellOf(lon, lat))
    }

    /** Distinct cells have distinct URLs. */
    lemma CellUrlInjective(c1: CellId, c2: CellId)
      requires CellUrl(c1) == CellUrl(c2)
      ensures c1 == c2
    {
      NamesUnique("s3://" + bucket + "/", cog, c1, "/" + CellName(cog, c1) + ".tif",
                  c2, "/" + CellName(cog, c2) + ".tif");
    }

    /** Two points share a dataset URL exactly when they lie in the same
        one-degree cell. */
    lemma SameUrlIffSameCell(lon1: real, lat1: real, lon2: real, lat2: real)
      ensures DatasetUrl(lon1, lat1) == DatasetUrl(lon2, lat2) <==>
              lon1.Floor == lon2.Floor && lat1.Floor == lat2.Floor
    {
      SameCellIffSameFloors(lon1, lat1, lon2, lat2);
      if DatasetUrl(lon1, lat1) == DatasetUrl(lon2, lat2) {
        CellUrlInjective(CellOf(lon1, lat1), CellOf(lon2, lat2));
      }
    }

    /** `assets_for_point` in geographic coordinates: a single candidate. */
    function AssetsForPoint(lon: real, lat: real): (r: seq<Str>)
      ensures |r| == 1
    {
      [DatasetUrl(lon, lat)]
    }

    /** The URL built for grid column `x` and row `y` of `assets_for_bbox`
        (`lon = x - 360`, `lat = y - 180`). */
    function GridUrl(x: int, y: int): Str {
      DatasetUrl((x - 360) as real, (y - 180) as real)
    }

    /** `assets_for_bbox` in geographic coordinates, as a value. */
    function BboxAssets(xmin: real, ymin: real, xmax: real, ymax: real): seq<Str> {
      Grid(GridUrl, Trunc(xmin + 360.0), Trunc(xmax + 360.0), Trunc(ymin + 180.0), Trunc(ymax + 180.0))
    }

    /** `assets_for_bbox` in geographic coordinates: the corners shifted
        by 360 and 180 and truncated, then the loops. */
    method AssetsForBbox(xmin: real, ymin: real, xmax: real, ymax: real) returns (files: seq<Str>)
      ensures files == BboxAssets(xmin, ymin, xmax, ymax)
    {
      var x0 := Trunc(xmin + 360.0);
      var x1 := Trunc(xmax + 360.0);
      var y1 := Trunc(ymax + 180.0);
      var y0 := Trunc(ymin + 180.0);
      files := GridAssets(x0, x1, y0, y1);
    }

    /** The loops of `assets_for_bbox`: longitudes `x0..x1` outside,
        latitudes `y0..y1` inside, one URL appended per cell. */
    method GridAssets(x0: int, x1: int, y0: int, y1: int) returns (files: seq<Str>)
      ensures files == Grid(GridUrl, x0, x1, y0, y1)
    {
      var url := GridUrl;
      files := [];
      var x := x0;
      while x <= x1
        invariant x1 < x0 ==> x == x0
        invariant x1 >= x0 ==> x0 <= x <= x1 + 1
        invariant files == Grid(url, x0, x - 1, y0, y1)
      {
        var y := y0;
        while y <= y1
          invariant y1 < y0 ==> y == y0
          invariant y1 >= y0 ==> y0 <= y <= y1 + 1
          invariant files == Grid(url, x0, x - 1, y0, y1) + Column(url, x, y0, y - 1)
        {
          ColumnStep(url, x, y0, y);
          files := files + [url(x, y)];
          y := y + 1;
        }
        GridStep(url, x0, x, y0, y1);
        x := x + 1;
      }
    }

    /** Grid URLs name their cells: equal URLs mean equal columns and rows. */
    lemma GridUrlInjective()
      ensures Injective(GridUrl)
    {
      forall x, y, x', y' | GridUrl(x, y) == GridUrl(x', y')
        ensures x == x' && y == y'
      {
        SameUrlIffSameCell((x - 360) as real, (y - 180) as real, (x' - 360) as real, (y' - 180) as real);
      }
    }

    /** Every point of a box whose corners lie east of -360 and north of
        -180 is covered: its own dataset is among the box's candidates. */
    lemma BboxCoversPoint(xmin: real, ymin: real, xmax: real, ymax: real, lon: real, lat: real)
      requires -360.0 <= xmin <= lon <= xmax && -180.0 <= ymin <= lat <= ymax
      ensures DatasetUrl(lon, lat) in BboxAssets(xmin, ymin, xmax, ymax)
    {
      var x := lon.Floor + 360;
      var y := lat.Floor + 180;
      ShiftedCorners(xmin, lon, xmax, 360);
      ShiftedCorners(ymin, lat, ymax, 180);
      CellOfCorner(lon, lat);
      assert GridUrl(x, y) == DatasetUrl(lon, lat);
      GridUrlInjective();
      GridMembership(GridUrl, Trunc(xmin + 360.0), Trunc(xmax + 360.0), Trunc(ymin + 180.0), Trunc(ymax + 180.0), x, y);
    }

    /** A box reduced to one point lists that point's dataset and nothing
        else, as `assets_for_point` does. */
    lemma PointIsDegenerateBox(lon: real, lat: real)
      requires lon >= -360.0 && lat >= -180.0
      ensures BboxAssets(lon, lat, lon, lat) == AssetsForPoint(lon, lat)
    {
      var x := Trunc(lon + 360.0);
      var y := Trunc(lat + 180.0);
      TruncShift(lon, 360);
      TruncShift(lat, 180);
      GridStep(GridUrl, x, x, y, y);
      ColumnStep(GridUrl, x, y, y);
      assert Grid(GridUrl, x, x, y, y) == [GridUrl(x, y)];
      CellOfCorner(lon, lat);
      assert CellOf((x - 360) as real, (y - 180) as real) == CellOf(lon, lat);
    }

    /** The two-by-two box of the 30 m example, longitude-major. */
    lemma BboxExample()
      ensures BboxAssets(10.0, 10.0, 11.0, 11.0) ==
        [DatasetUrl(10.0, 10.0), DatasetUrl(10.0, 11.0), DatasetUrl(11.0, 10.0), DatasetUrl(11.0, 11.0)]
    {
      assert Trunc(370.0) == 370 && Trunc(371.0) == 371;
      assert Trunc(190.0) == 190 && Trunc(191.0) == 191;
      assert Column(GridUrl, 370, 190, 191) == [GridUrl(370, 190), GridUrl(370, 191)];
      assert Column(GridUrl, 371, 190, 191) == [GridUrl(371, 190), GridUrl(371, 191)];
      assert Grid(GridUrl, 370, 371, 190, 191) == Grid(GridUrl, 370, 370, 190, 191) + Column(GridUrl, 371, 190, 191);
      assert Grid(GridUrl, 370, 370, 190, 191) == Column(GridUrl, 370, 190, 191);
    }

    /** The 30 m URL of the point (-9.9, -9.9): cell S10/W010, named
        twice. */
    lemma Dem30Example()
      requires Valid() && resolution == Dem30m
      ensures DatasetUrl(-9.9, -9.9) ==
        "s3://copernicus-dem-30m/" + SouthWest30 + "/" + SouthWest30 + ".tif"
    {
      CellExamples();
      SouthWestName();
      assert "s3://" + bucket + "/" == "s3://copernicus-dem-30m/";
      UrlAssoc("s3://copernicus-dem-30m/", SouthWest30);
    }

    /** The candidates of `tile()`: the geographic bounds of the tile
        (`tms.bounds`, a parameter here) turned into a box, in mosaic
        order. */
    method TileCandidates(tileX: int, tileY: int, tileZ: int, tileBounds: (int, int, int) -> Bounds, reverse: bool)
      returns (assets: seq<Str>)
      ensures var b := tileBounds(tileX, tileY, tileZ);
              assets == MosaicOrder(BboxAssets(b.west, b.south, b.east, b.north), reverse)
      ensures reverse ==> Reversed(assets) == BboxAssets(tileBounds(tileX, tileY, tileZ).west, tileBounds(tileX, tileY, tileZ).south,
                                                         tileBounds(tileX, tileY, tileZ).east, tileBounds(tileX, tileY, tileZ).north)
    {
      var b := tileBounds(tileX, tileY, tileZ);
      var files := AssetsForBbox(b.west, b.south, b.east, b.north);
      assets := if reverse then Reversed(files) else files;
      ReversedTwice(files);
    }

    /** The candidates of `point()`: one dataset, so `reverse` changes
        nothing. */
    function PointCandidates(lon: real, lat: real, reverse: bool): (r: seq<Str>)
      ensures r == AssetsForPoint(lon, lat) && r[0] == DatasetUrl(lon, lat)
    {
      MosaicOrder(AssetsForPoint(lon, lat), reverse)
    }

    /** `info()`: the fixed single float32 band and the reader's own
        bounds and zooms. */
    function Info(): (r: DemInfo)
      ensures r.bounds == bounds && r.minzoom == minzoom && r.maxzoom == maxzoom
      ensures r.count == |r.bandDescriptions| == |r.bandMetadata| == |r.colorinterp| == 1
      ensures r.dtype == "float32"
    {
      DemInfo(bounds, minzoom, maxzoom, [("b1", map[])], [("b1", "")],
              "float32", ["grey"], "None", "GTiff", 1)
    }

    /** The dataset `statistics()` reads: N00/E006 for 30 m, S90/W164 for
        90 m. */
    function StatisticsUrl(): Str {
      match resolution
      case Dem30m => CellUrl(CellId('N', 0, 'E', 6))
      case Dem90m => CellUrl(CellId('S', 90, 'W', 164))
    }

    /** The statistics dataset is the cell of a real point: (6, 0) for
        30 m, the south-west corner (-164, -90) for 90 m. */
    lemma StatisticsCell()
      ensures resolution == Dem30m ==> StatisticsUrl() == DatasetUrl(6.0, 0.0)
      ensures resolution == Dem90m ==> StatisticsUrl() == DatasetUrl(-164.0, -90.0)
    {
      assert CellOf(6.0, 0.0) == CellId('N', 0, 'E', 6);
      assert CellOf(-164.0, -90.0) == CellId('S', 90, 'W', 164);
    }
  }
}
