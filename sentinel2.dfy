/** The Sentinel-2 readers of rio_tiler_pds/sentinel/aws/sentinel2.py: the
    JPEG2000 readers for L1C and L2A, the COG reader for L2A, and the two
    functions that pick a reader from the processing level.

    A reader is built from its scene id; what the Python constructor
    fetches (tileInfo.json, the STAC item) is I/O, and of the STAC item only
    its `stac_version` and the keys of its `assets` enter the model. */
module Sentinel2 {
  import opened Text
  import opened Errors
  import opened SentinelIds

  const DefaultL1CBands: seq<Str> :=
    ["B01", "B02", "B03", "B04", "B05", "B06", "B07", "B08", "B09", "B11", "B12", "B8A"]

  /** `default_l2a_bands`, the STAC < 1.0.0 order (B8A last). */
  const DefaultL2ABands: seq<Str> :=
    ["B01", "B02", "B03", "B04", "B05", "B06", "B07", "B08", "B09", "B11", "B12", "B8A"]

  /** `sentinel_l2a_band_map` in insertion order (B8A between B08 and B09):
      band name and the STAC >= 1.0.0 asset name. */
  const L2ABandMap: seq<(Str, Str)> := [
    ("B01", "coastal"), ("B02", "blue"), ("B03", "green"), ("B04", "red"),
    ("B05", "rededge1"), ("B06", "rededge2"), ("B07", "rededge3"), ("B08", "nir"),
    ("B8A", "nir08"), ("B09", "nir09"), ("B11", "swir16"), ("B12", "swir22")]

  /** `SENTINEL_L2_BANDS` and `SENTINEL_L2_PRODUCTS`, searched in this order. */
  const L2Bands: seq<(Str, seq<Str>)> := [
    ("10", ["B02", "B03", "B04", "B08"]),
    ("20", ["B02", "B03", "B04", "B05", "B06", "B07", "B08", "B11", "B12", "B8A"]),
    ("60", ["B01", "B02", "B03", "B04", "B05", "B06", "B07", "B08", "B09", "B11", "B12", "B8A"])]

  const L2Products: seq<(Str, seq<Str>)> := [
    ("10", ["AOT", "WVP"]),
    ("20", ["AOT", "SCL", "WVP"]),
    ("60", ["AOT", "SCL", "WVP"])]

  const StacBeta2: Str := "1.0.0-beta.2"

  // ---------------------------------------------------------------------
  // Band names
  // ---------------------------------------------------------------------

  /** `band if len(band) == 3 else f"B0{band[-1]}"`; `band[-1]` of "" is an
      IndexError. */
  function NormaliseBand(band: Str): (r: Result<Str>)
    ensures r.Err? <==> band == []
    ensures r.Err? ==> r.error == IndexError
    ensures r.Ok? ==> |r.value| == 3 && r.value[2] == band[|band| - 1]
    ensures |band| == 3 ==> r == Ok(band)
    ensures r.Ok? && |band| != 3 ==> r.value[..2] == "B0"
  {
    if band == [] then Err(IndexError)
    else if |band| == 3 then Ok(band)
    else Ok(['B', '0', band[|band| - 1]])
  }

  /** Normalising twice is normalising once, and a one-digit alias names the
      same band as its zero-padded form ("B1" and "B01"). */
  lemma NormaliseAliases(band: Str, d: char)
    requires NormaliseBand(band).Ok?
    ensures NormaliseBand(NormaliseBand(band).value) == NormaliseBand(band)
    ensures NormaliseBand(['B', d]) == NormaliseBand(['B', '0', d]) == Ok(['B', '0', d])
  {
  }

  /** The band named by a normalised token is a member of `catalog`, or the
      error says which token failed and lists the catalog. */
  function CheckBand(band: Str, catalog: seq<Str>): (r: Result<Str>)
    ensures r.Ok? <==> band != [] && NormaliseBand(band).value in catalog
    ensures r.Ok? ==> r.value == NormaliseBand(band).value && r.value in catalog
    ensures band == [] ==> r == Err(IndexError)
    ensures band != [] && r.Err? ==> r == Err(InvalidBandName(NormaliseBand(band).value, catalog))
  {
    var n :- NormaliseBand(band);
    if n in catalog then Ok(n) else Err(InvalidBandName(n, catalog))
  }

  // ---------------------------------------------------------------------
  // Resolution lookup (L2A)
  // ---------------------------------------------------------------------

  /** `band` is listed in the tier named `res`, and in no tier before it. */
  predicate IsFirstTier(band: Str, tiers: seq<(Str, seq<Str>)>, res: Str) {
    exists i :: 0 <= i < |tiers| && tiers[i].0 == res && band in tiers[i].1
      && forall j :: 0 <= j < i ==> band !in tiers[j].1
  }

  predicate InSomeTier(band: Str, tiers: seq<(Str, seq<Str>)>) {
    exists i :: 0 <= i < |tiers| && band in tiers[i].1
  }

  /** The `for resolution, bands in ...items(): if band in bands: return
      resolution` search. */
  function FirstTier(band: Str, tiers: seq<(Str, seq<Str>)>): (r: Option<Str>)
    ensures r.None? <==> !InSomeTier(band, tiers)
    ensures r.Some? ==> IsFirstTier(band, tiers, r.value)
  {
    if tiers == [] then None
    else if band in tiers[0].1 then
      assert IsFirstTier(band, tiers, tiers[0].0) by {
        assert 0 < |tiers| && tiers[0].0 == tiers[0].0 && band in tiers[0].1;
      }
      Some(tiers[0].0)
    else
      var rest := FirstTier(band, tiers[1..]);
      if rest.Some? then
        assert IsFirstTier(band, tiers, rest.value) by {
          var i :| 0 <= i < |tiers[1..]| && tiers[1..][i].0 == rest.value && band in tiers[1..][i].1
            && forall j :: 0 <= j < i ==> band !in tiers[1..][j].1;
          assert tiers[i + 1].0 == rest.value && band in tiers[i + 1].1;
          forall j | 0 <= j < i + 1 ensures band !in tiers[j].1 {
            if j > 0 { assert tiers[j] == tiers[1..][j - 1]; }
          }
        }
        rest
      else
        assert !InSomeTier(band, tiers) by {
          forall i | 0 <= i < |tiers| ensures band !in tiers[i].1 {
            if i > 0 { assert tiers[i] == tiers[1..][i - 1]; }
          }
        }
        None
  }

  /** `_get_resolution`: the band tables are searched only for a name
      starting with "B", then the product tables; no match is a
      ValueError. */
  function Resolution(band: Str): (r: Result<Str>)
    ensures r.Err? <==> (!StartsWith(band, "B") || !InSomeTier(band, L2Bands))
                        && !InSomeTier(band, L2Products)
    ensures r.Err? ==> r.error == ValueError("Couldn't find resolution for Band " + band)
    ensures r.Ok? && StartsWith(band, "B") && InSomeTier(band, L2Bands) ==> IsFirstTier(band, L2Bands, r.value)
    ensures r.Ok? && !(StartsWith(band, "B") && InSomeTier(band, L2Bands)) ==> IsFirstTier(band, L2Products, r.value)
  {
    var fromBands := if StartsWith(band, "B") then FirstTier(band, L2Bands) else None;
    if fromBands.Some? then Ok(fromBands.value)
    else
      var fromProducts := FirstTier(band, L2Products);
      if fromProducts.Some? then Ok(fromProducts.value)
      else Err(ValueError("Couldn't find resolution for Band " + band))
  }

  /** A band name is looked up in the band tiers, the smallest tier listing
      it winning: B02 is found at 10 m, B06 at 20 m, B01 at 60 m. */
  lemma ResolutionExamples()
    ensures Resolution("B02") == Ok("10")
    ensures Resolution("B06") == Ok("20")
    ensures Resolution("B01") == Ok("60")
  {
    BandTierExamples();
    assert StartsWith("B02", "B") && StartsWith("B06", "B") && StartsWith("B01", "B");
  }

  /** A name not starting with "B" goes to the product tiers: AOT at 10 m
      and SCL at 20 m. */
  lemma ProductResolutionExamples()
    ensures Resolution("AOT") == Ok("10")
    ensures Resolution("SCL") == Ok("20")
  {
    ProductTierExamples();
    assert !StartsWith("AOT", "B") by { assert "AOT"[..1][0] == 'A'; }
    assert !StartsWith("SCL", "B") by { assert "SCL"[..1][0] == 'S'; }
  }

  lemma BandTierExamples()
    ensures FirstTier("B02", L2Bands) == Some("10")
    ensures FirstTier("B06", L2Bands) == Some("20")
    ensures FirstTier("B01", L2Bands) == Some("60")
  {
    assert "B02" in L2Bands[0].1;
    assert "B06" !in L2Bands[0].1 && "B06" in L2Bands[1].1;
    assert "B01" !in L2Bands[0].1 && "B01" !in L2Bands[1].1 && "B01" in L2Bands[2].1;
    assert L2Bands[1..][1..] == [L2Bands[2]];
  }

  lemma ProductTierExamples()
    ensures FirstTier("AOT", L2Products) == Some("10")
    ensures FirstTier("SCL", L2Products) == Some("20")
  {
    assert "AOT" in L2Products[0].1;
    assert "SCL" !in L2Products[0].1 && "SCL" in L2Products[1].1;
  }

  /** Every band of the L2A catalog has a resolution, so the L2A band URL
      never fails with ValueError. */
  lemma L2ACatalogResolves(band: Str)
    requires band in DefaultL2ABands
    ensures Resolution(band).Ok?
  {
    assert StartsWith(band, "B");
    assert band in L2Bands[2].1;
  }

  // ---------------------------------------------------------------------
  // Key templates
  // ---------------------------------------------------------------------

  /** `tiles/{_utm}/{lat}/{sq}/{acquisitionYear}/{_month}/{_day}/{num}`. */
  function TilePrefix(p: S2Params): Str {
    "tiles/" + p.utmShort + "/" + p.lat + "/" + p.sq + "/" + p.acquisitionYear + "/"
    + p.monthShort + "/" + p.dayShort + "/" + p.num
  }

  /** `S{sensor}{satellite}_{_utm}{lat}{sq}_{yyyymmdd}_{num}_{processingLevel}`:
      the new-layout id with the zone written without its leading zero. */
  function CogSceneId(p: S2Params): Str {
    "S" + p.sensor + p.satellite + "_" + p.utmShort + p.lat + p.sq + "_"
    + p.acquisitionYear + p.acquisitionMonth + p.acquisitionDay + "_" + p.num + "_" + p.processingLevel
  }

  function CogPrefix(p: S2Params): Str {
    "sentinel-s2-" + p.levelLow + "-cogs/" + p.utmShort + "/" + p.lat + "/" + p.sq + "/"
    + p.acquisitionYear + "/" + p.monthShort + "/" + CogSceneId(p)
  }

  const CogsBucket: Str := "sentinel-cogs"
  /** The bucket's HTTPS endpoint in us-west-2 and its s3:// root. */
  const CogsHttpsRoot: Str := "https://" + CogsBucket + ".s3.us-west-2.amazonaws.com/"
  const CogsS3Root: Str := "s3://" + CogsBucket + "/"

  /** The key of the scene's STAC item: `<prefix>/<COG scene id>.json`. */
  function StacItemKey(p: S2Params): Str {
    CogPrefix(p) + "/" + CogSceneId(p) + ".json"
  }

  /** The tile prefix holds the zone, month and day as plain numbers: for
      S2A_L1C_20170729_19UDP_0 it is tiles/19/U/DP/2017/7/29/0. */
  lemma TilePrefixFields(c: S2Id)
    requires ValidS2Id(c)
    ensures TilePrefix(DeriveS2(c)) == "tiles/" + Unpadded(c.utm) + "/" + c.lat + "/" + c.sq + "/"
      + c.acquisitionYear + "/" + Unpadded(c.acquisitionMonth) + "/" + Unpadded(c.acquisitionDay) + "/" + c.num
  {
    S2ShortFields(c);
  }

  /** The COG scene id is `scene` itself when the UTM zone has no leading
      zero (zones 10 to 60); for zones 1 to 9 it is the new-layout id
      written with a one-digit zone. */
  lemma CogSceneIdIsScene(c: S2Id)
    requires ValidS2Id(c)
    ensures c.utm[0] != '0' ==> CogSceneId(DeriveS2(c)) == DeriveS2(c).scene
    ensures c.utm[0] == '0' && c.utm[1] != '0' ==>
      CogSceneId(DeriveS2(c)) == NewS2Text(c.(utm := c.utm[1..]))
  {
    var u := c.utm;
    assert DeriveS2(c).utmShort == LStrip(u, '0');
    if u[0] == '0' && u[1] != '0' {
      assert LStrip(u, '0') == LStrip(u[1..], '0') == u[1..];
    }
  }

  // ---------------------------------------------------------------------
  // COG band catalog
  // ---------------------------------------------------------------------

  /** Some entry of `table` names band `b` and an asset in `assets`. */
  predicate Kept(table: seq<(Str, Str)>, assets: set<Str>, b: Str) {
    exists i :: 0 <= i < |table| && table[i].0 == b && table[i].1 in assets
  }

  lemma KeptCons(table: seq<(Str, Str)>, assets: set<Str>, b: Str)
    requires table != []
    ensures Kept(table, assets, b) <==>
      (table[0].0 == b && table[0].1 in assets) || Kept(table[1..], assets, b)
  {
    if Kept(table, assets, b) && !(table[0].0 == b && table[0].1 in assets) {
      var i :| 0 <= i < |table| && table[i].0 == b && table[i].1 in assets;
      assert table[1..][i - 1] == table[i];
    }
    if Kept(table[1..], assets, b) {
      var i :| 0 <= i < |table[1..]| && table[1..][i].0 == b && table[1..][i].1 in assets;
      assert table[i + 1] == table[1..][i];
    }
  }

  /** The band names whose asset name (second component) is a key of the
      STAC item's `assets`, in table order. */
  function FilterByAsset(table: seq<(Str, Str)>, assets: set<Str>): (r: seq<Str>)
    ensures |r| <= |table|
    ensures forall b :: b in r <==> Kept(table, assets, b)
  {
    if table == [] then []
    else
      var rest := FilterByAsset(table[1..], assets);
      forall b ensures Kept(table, assets, b) <==> (table[0].0 == b && table[0].1 in assets) || b in rest {
        KeptCons(table, assets, b);
      }
      if table[0].1 in assets then [table[0].0] + rest else rest
  }

  function Keys(table: seq<(Str, Str)>): (ks: seq<Str>)
    ensures |ks| == |table| && forall i :: 0 <= i < |table| ==> ks[i] == table[i].0
  {
    seq(|table|, i requires 0 <= i < |table| => table[i].0)
  }

  /** The table read with each band as its own asset name. */
  function SelfNamed(bands: seq<Str>): (t: seq<(Str, Str)>)
    ensures |t| == |bands| && forall i :: 0 <= i < |bands| ==> t[i] == (bands[i], bands[i])
  {
    seq(|bands|, i requires 0 <= i < |bands| => (bands[i], bands[i]))
  }

  /** The COG reader's `bands`: for STAC "1.0.0-beta.2" the default L2A
      bands whose name is an asset key, otherwise the band-map entries whose
      common name is an asset key. */
  function CogBands(stacVersion: Str, assets: set<Str>): (r: seq<Str>)
    ensures stacVersion == StacBeta2 ==> forall b :: b in r <==> b in DefaultL2ABands && b in assets
    ensures stacVersion != StacBeta2 ==> forall b :: b in r <==> Kept(L2ABandMap, assets, b)
  {
    if stacVersion == StacBeta2 then
      var t := SelfNamed(DefaultL2ABands);
      var r := FilterByAsset(t, assets);
      assert forall b :: b in r <==> b in DefaultL2ABands && b in assets by {
        forall b ensures b in r <==> b in DefaultL2ABands && b in assets {
          if b in DefaultL2ABands && b in assets {
            var i :| 0 <= i < |DefaultL2ABands| && DefaultL2ABands[i] == b;
            assert t[i].0 == b && t[i].1 in assets;
          }
        }
      }
      r
    else FilterByAsset(L2ABandMap, assets)
  }

  /** Position of the first `x` in `xs`; `|xs|` when there is none. */
  function IndexOf(xs: seq<Str>, x: Str): (i: nat)
    ensures x in xs ==> i < |xs| && xs[i] == x && x !in xs[..i]
    ensures x !in xs ==> i == |xs|
  {
    if xs == [] then 0
    else if xs[0] == x then 0
    else
      var k := IndexOf(xs[1..], x);
      assert x in xs ==> x in xs[1..] && xs[..k + 1] == [xs[0]] + xs[1..][..k];
      1 + k
  }

  predicate Distinct(xs: seq<Str>) {
    forall i, j :: 0 <= i < j < |xs| ==> xs[i] != xs[j]
  }

  /** The bands of `r` come in the order in which `ks` lists them. */
  predicate InOrder(ks: seq<Str>, r: seq<Str>) {
    forall i, j :: 0 <= i < j < |r| ==> IndexOf(ks, r[i]) < IndexOf(ks, r[j])
  }

  /** Filtering keeps the table's order: a band listed before another in the
      result is listed before it in the table. */
  lemma {:induction false} FilterKeepsOrder(table: seq<(Str, Str)>, assets: set<Str>)
    requires Distinct(Keys(table))
    ensures forall b :: b in FilterByAsset(table, assets) ==> b in Keys(table)
    ensures InOrder(Keys(table), FilterByAsset(table, assets))
  {
    FilterWithinKeys(table, assets);
    if table != [] {
      var ks := Keys(table);
      var tail := table[1..];
      var rest := FilterByAsset(tail, assets);
      assert Keys(tail) == ks[1..];
      FilterKeepsOrder(tail, assets);
      ConsOrder(ks, rest);
      assert FilterByAsset(table, assets) == if table[0].1 in assets then [ks[0]] + rest else rest;
    }
  }

  /** Prepending the first key keeps a result drawn from the other keys
      in order. */
  lemma ConsOrder(ks: seq<Str>, rest: seq<Str>)
    requires Distinct(ks) && |ks| > 0
    requires forall b :: b in rest ==> b in ks[1..]
    requires InOrder(ks[1..], rest)
    ensures InOrder(ks, rest) && InOrder(ks, [ks[0]] + rest)
  {
    forall k | 0 <= k < |rest| ensures IndexOf(ks, rest[k]) == 1 + IndexOf(ks[1..], rest[k]) {
      IndexOfTail(ks, rest[k]);
    }
    var r := [ks[0]] + rest;
    forall i, j | 0 <= i < j < |r| ensures IndexOf(ks, r[i]) < IndexOf(ks, r[j]) {
      assert r[j] == rest[j - 1];
      if i > 0 {
        assert r[i] == rest[i - 1];
      }
    }
  }

  lemma IndexOfTail(ks: seq<Str>, b: Str)
    requires Distinct(ks) && |ks| > 0 && b in ks[1..]
    ensures IndexOf(ks, b) == 1 + IndexOf(ks[1..], b)
  {
    var k := IndexOf(ks[1..], b);
    assert ks[k + 1] == b;
  }

  lemma FilterWithinKeys(table: seq<(Str, Str)>, assets: set<Str>)
    ensures forall b :: b in FilterByAsset(table, assets) ==> b in Keys(table)
  {
    forall b | b in FilterByAsset(table, assets) ensures b in Keys(table) {
      var i :| 0 <= i < |table| && table[i].0 == b && table[i].1 in assets;
      assert Keys(table)[i] == b;
    }
  }

  /** The two catalog orders: with STAC "1.0.0-beta.2" B8A comes last, and
      otherwise it comes right after B08 when B08, B8A and B09 are all
      present. */
  lemma CogBandsOrder(stacVersion: Str, assets: set<Str>)
    ensures stacVersion == StacBeta2 ==> InOrder(DefaultL2ABands, CogBands(stacVersion, assets))
    ensures stacVersion != StacBeta2 ==> InOrder(Keys(L2ABandMap), CogBands(stacVersion, assets))
  {
    if stacVersion == StacBeta2 {
      var t := SelfNamed(DefaultL2ABands);
      assert Keys(t) == DefaultL2ABands;
      FilterKeepsOrder(t, assets);
    } else {
      assert Keys(L2ABandMap) == ["B01", "B02", "B03", "B04", "B05", "B06", "B07", "B08", "B8A", "B09", "B11", "B12"];
      FilterKeepsOrder(L2ABandMap, assets);
    }
  }

  // ---------------------------------------------------------------------
  // Readers
  // ---------------------------------------------------------------------

  /** `S2L1CReader`: bucket sentinel-s2-l1c, the L1C catalog, JPEG2000 bands
      under the tile prefix. */
  class S2L1CReader {
    const input: Str
    const sceneParams: S2Params
    const bands: seq<Str>
    const bucket: Str
    const minzoom: int
    const maxzoom: int

    predicate Valid() {
      S2Parse(input) == Ok(sceneParams) && bands == DefaultL1CBands && bucket == "sentinel-s2-l1c"
    }

    /** `__attrs_post_init__` on an id that parses. */
    constructor (input: Str)
      requires S2Parse(input).Ok?
      ensures Valid() && this.input == input && minzoom == 8 && maxzoom == 14
    {
      this.input := input;
      sceneParams := S2Parse(input).value;
      bands := DefaultL1CBands;
      bucket := "sentinel-s2-l1c";
      minzoom := 8;
      maxzoom := 14;
    }

    /** Construction, with the parser's InvalidSentinelSceneId passed on. */
    static method Open(input: Str) returns (r: Result<S2L1CReader>)
      ensures r.Ok? <==> S2Parse(input).Ok?
      ensures r.Err? ==> r.error == InvalidSentinelSceneId(input)
      ensures r.Ok? ==> fresh(r.value) && r.value.Valid() && r.value.input == input
    {
      if S2Parse(input).Err? {
        return Err(InvalidSentinelSceneId(input));
      }
      var reader := new S2L1CReader(input);
      return Ok(reader);
    }

    /** The tileInfo.json document fetched at construction. */
    function TileInfoUrl(): Str
    {
      "s3://" + bucket + "/" + TilePrefix(sceneParams) + "/tileInfo.json"
    }

    /** `_get_band_url`. */
    function BandUrl(band: Str): (r: Result<Str>)
      ensures r.Ok? <==> CheckBand(band, bands).Ok?
      ensures r.Err? ==> r.error == CheckBand(band, bands).error
      ensures r.Ok? ==> r.value == "s3://" + bucket + "/" + TilePrefix(sceneParams) + "/"
                                   + CheckBand(band, bands).value + ".jp2"
    {
      var b :- CheckBand(band, bands);
      Ok("s3://" + bucket + "/" + TilePrefix(sceneParams) + "/" + b + ".jp2")
    }

    /** Two tokens give the same URL exactly when they name the same band. */
    lemma BandUrlNamesBand(a: Str, b: Str)
      requires BandUrl(a).Ok? && BandUrl(b).Ok?
      ensures BandUrl(a) == BandUrl(b) <==> NormaliseBand(a) == NormaliseBand(b)
    {
      var x, y := CheckBand(a, bands).value, CheckBand(b, bands).value;
      var pre := "s3://" + bucket + "/" + TilePrefix(sceneParams) + "/";
      if BandUrl(a) == BandUrl(b) {
        assert pre + x + ".jp2" == pre + y + ".jp2";
        assert x == (pre + x + ".jp2")[|pre|..|pre| + 3];
        assert y == (pre + y + ".jp2")[|pre|..|pre| + 3];
      }
    }
  }

  /** `S2L2AReader`: bucket sentinel-s2-l2a, the L2A catalog, and the
      resolution directory `R{res}m/` before the band file. */
  class S2L2AReader {
    const input: Str
    const sceneParams: S2Params
    const bands: seq<Str>
    const bucket: Str
    const minzoom: int
    const maxzoom: int

    predicate Valid() {
      S2Parse(input) == Ok(sceneParams) && bands == DefaultL2ABands && bucket == "sentinel-s2-l2a"
    }

    constructor (input: Str)
      requires S2Parse(input).Ok?
      ensures Valid() && this.input == input && minzoom == 8 && maxzoom == 14
    {
      this.input := input;
      sceneParams := S2Parse(input).value;
      bands := DefaultL2ABands;
      bucket := "sentinel-s2-l2a";
      minzoom := 8;
      maxzoom := 14;
    }

    static method Open(input: Str) returns (r: Result<S2L2AReader>)
      ensures r.Ok? <==> S2Parse(input).Ok?
      ensures r.Err? ==> r.error == InvalidSentinelSceneId(input)
      ensures r.Ok? ==> fresh(r.value) && r.value.Valid() && r.value.input == input
    {
      if S2Parse(input).Err? {
        return Err(InvalidSentinelSceneId(input));
      }
      var reader := new S2L2AReader(input);
      return Ok(reader);
    }

    function TileInfoUrl(): Str
    {
      "s3://" + bucket + "/" + TilePrefix(sceneParams) + "/tileInfo.json"
    }

    /** `_get_band_url`: the band is checked first, then its resolution
      is looked up; on a valid reader the lookup cannot fail. */
    function BandUrl(band: Str): (r: Result<Str>)
      ensures CheckBand(band, bands).Err? ==> r == Err(CheckBand(band, bands).error)
      ensures CheckBand(band, bands).Ok? && Resolution(CheckBand(band, bands).value).Ok? ==>
        r == Ok("s3://" + bucket + "/" + TilePrefix(sceneParams) + "/R"
                + Resolution(CheckBand(band, bands).value).value + "m/" + CheckBand(band, bands).value + ".jp2")
      ensures Valid() ==> (r.Ok? <==> CheckBand(band, bands).Ok?)
    {
      var b :- CheckBand(band, bands);
      assert Valid() ==> Resolution(b).Ok? by { if Valid() { L2ACatalogResolves(b); } }
      var res :- Resolution(b);
      Ok("s3://" + bucket + "/" + TilePrefix(sceneParams) + "/R" + res + "m/" + b + ".jp2")
    }
  }

  /** `S2L2ACOGReader`: bucket sentinel-cogs, the catalog filtered from the
      STAC item's asset keys, one GeoTIFF per band under the COG prefix. */
  class S2L2ACOGReader {
    const input: Str
    const sceneParams: S2Params
    const stacVersion: Str
    const assets: set<Str>
    const bands: seq<Str>
    const bucket: Str
    const minzoom: int
    const maxzoom: int

    predicate Valid() {
      S2Parse(input) == Ok(sceneParams) && bands == CogBands(stacVersion, assets) && bucket == CogsBucket
    }

    /** `__attrs_post_init__` given the fetched item's `stac_version` and
        asset keys. */
    constructor (input: Str, stacVersion: Str, assets: set<Str>)
      requires S2Parse(input).Ok?
      ensures Valid() && this.input == input && this.stacVersion == stacVersion && this.assets == assets
      ensures minzoom == 8 && maxzoom == 14
    {
      this.input := input;
      sceneParams := S2Parse(input).value;
      this.stacVersion := stacVersion;
      this.assets := assets;
      bands := CogBands(stacVersion, assets);
      bucket := CogsBucket;
      minzoom := 8;
      maxzoom := 14;
    }

    /** The STAC item: first over HTTPS, then (when that fetch fails) over
        s3://.  Both URLs name the same key in the bucket. */
    function StacItemUrl(https: bool): (u: Str)
      ensures EndsWith(u, "/" + CogSceneId(sceneParams) + ".json")
      ensures bucket == CogsBucket && https ==> u == CogsHttpsRoot + StacItemKey(sceneParams)
      ensures bucket == CogsBucket && !https ==> u == CogsS3Root + StacItemKey(sceneParams)
    {
      var key := StacItemKey(sceneParams);
      var u := if https then "https://" + bucket + ".s3.us-west-2.amazonaws.com/" + key
               else "s3://" + bucket + "/" + key;
      assert u == (u[..|u| - |CogSceneId(sceneParams) + ".json"| - 1]) + ("/" + CogSceneId(sceneParams) + ".json");
      u
    }

    /** `_get_band_url`. */
    function BandUrl(band: Str): (r: Result<Str>)
      ensures r.Ok? <==> CheckBand(band, bands).Ok?
      ensures r.Err? ==> r.error == CheckBand(band, bands).error
      ensures r.Ok? ==> r.value == "s3://" + bucket + "/" + CogPrefix(sceneParams) + "/"
                                   + CheckBand(band, bands).value + ".tif"
    {
      var b :- CheckBand(band, bands);
      Ok("s3://" + bucket + "/" + CogPrefix(sceneParams) + "/" + b + ".tif")
    }

    /** A band gets a URL exactly when its asset is in the STAC item. */
    lemma BandUrlNeedsAsset(band: Str)
      requires Valid() && band != [] && stacVersion == StacBeta2
      ensures BandUrl(band).Ok? <==> NormaliseBand(band).value in DefaultL2ABands
                                     && NormaliseBand(band).value in assets
    {
    }
  }

  // ---------------------------------------------------------------------
  // Reader selection
  // ---------------------------------------------------------------------

  datatype JP2Reader = L2A(l2a: S2L2AReader) | L1C(l1c: S2L1CReader)

  /** `S2JP2Reader`: L2A ids get the L2A reader, L1C ids the L1C reader,
      other levels are not supported. */
  method OpenJP2Reader(sceneid: Str) returns (r: Result<JP2Reader>)
    ensures S2Parse(sceneid).Err? ==> r == Err(InvalidSentinelSceneId(sceneid))
    ensures S2Parse(sceneid).Ok? ==>
      var level := S2Parse(sceneid).value.processingLevel;
      && (level == "L2A" <==> r.Ok? && r.value.L2A?)
      && (level == "L1C" <==> r.Ok? && r.value.L1C?)
      && (r.Err? ==> r.error == Unsupported(level))
    ensures r.Ok? && r.value.L2A? ==> r.value.l2a.Valid() && r.value.l2a.input == sceneid
    ensures r.Ok? && r.value.L1C? ==> r.value.l1c.Valid() && r.value.l1c.input == sceneid
  {
    var parsed := S2Parse(sceneid);
    if parsed.Err? {
      return Err(parsed.error);
    }
    var level := parsed.value.processingLevel;
    if level == "L2A" {
      var reader := new S2L2AReader(sceneid);
      return Ok(L2A(reader));
    } else if level == "L1C" {
      var reader := new S2L1CReader(sceneid);
      return Ok(L1C(reader));
    }
    return Err(Unsupported(level));
  }

  /** `S2COGReader`: only L2A ids get the COG reader. */
  method OpenCOGReader(sceneid: Str, stacVersion: Str, assets: set<Str>) returns (r: Result<S2L2ACOGReader>)
    ensures S2Parse(sceneid).Err? ==> r == Err(InvalidSentinelSceneId(sceneid))
    ensures S2Parse(sceneid).Ok? ==>
      var level := S2Parse(sceneid).value.processingLevel;
      && (r.Ok? <==> level == "L2A")
      && (r.Err? ==> r.error == Unsupported(level))
    ensures r.Ok? ==> r.value.Valid() && r.value.input == sceneid && r.value.assets == assets
  {
    var parsed := S2Parse(sceneid);
    if parsed.Err? {
      return Err(parsed.error);
    }
    var level := parsed.value.processingLevel;
    if level != "L2A" {
      return Err(Unsupported(level));
    }
    var reader := new S2L2ACOGReader(sceneid, stacVersion, assets);
    return Ok(reader);
  }
}
