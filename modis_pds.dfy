/** The MODIS reader of rio_tiler_pds/modis/aws/modis_pds.py
    (`MODISReader`, bucket modis-pds): a band catalog per product, shared by
    the Terra (MOD) and Aqua (MYD) variants, and band URLs keyed by grid
    tile and date.  The tile bounds come from `modland_grid.tile_bbox`,
    which is not part of this model and is a function parameter here. */
module ModisPds {
  import opened Text
  import opened Errors
  import opened MultiBand
  import opened ModisIds

  const MCD43A4Bands: seq<Str> := [
    "B01", "B01qa", "B02", "B02qa", "B03", "B03qa", "B04", "B04qa",
    "B05", "B05qa", "B06", "B06qa", "B07", "B07qa"]
  const MOD09GQBands: seq<Str> := [
    "B01", "B02", "granule", "numobs", "obscov", "obsnum", "orbit", "qc"]
  const MOD09GABands: seq<Str> := [
    "B01", "B02", "B03", "B04", "B05", "B06", "B07", "geoflags", "granule",
    "numobs1km", "numobs500m", "obscov", "obsnum", "orbit", "qc500m", "qscan",
    "range", "senaz", "senzen", "solaz", "solzen", "state"]

  /** `modis_valid_bands`. */
  const ValidBands: map<Str, seq<Str>> := map[
    "MCD43A4" := MCD43A4Bands,
    "MOD09GQ" := MOD09GQBands,
    "MYD09GQ" := MOD09GQBands,
    "MOD09GA" := MOD09GABands,
    "MYD09GA" := MOD09GABands]

  const PdsBucket: Str := "modis-pds"

  /** `{product}.{version}/{horizontal_grid}/{vertical_grid}/{date}`. */
  function ScenePrefix(p: ModisParams): Str {
    p.product + "." + p.version + "/" + p.horizontalGrid + "/" + p.verticalGrid + "/" + p.date
  }

  /** The five supported products, and the shared Terra/Aqua catalogs. */
  lemma ProductTable(product: Str)
    ensures product in ValidBands <==>
      product in ["MCD43A4", "MOD09GQ", "MYD09GQ", "MOD09GA", "MYD09GA"]
    ensures ValidBands["MOD09GQ"] == ValidBands["MYD09GQ"] == MOD09GQBands
    ensures ValidBands["MOD09GA"] == ValidBands["MYD09GA"] == MOD09GABands
    ensures product in ValidBands ==> "B1" !in ValidBands[product] && "B01" in ValidBands[product]
  {
  }

  lemma ExamplePrefix(p: ModisParams)
    requires p.product == "MCD43A4" && p.version == "006" && p.horizontalGrid == "21"
    requires p.verticalGrid == "11" && p.date == "2017006"
    ensures ScenePrefix(p) == "MCD43A4.006/21/11/2017006"
  {
  }

  /** The literal form of a B01 URL in the bucket. */
  lemma ExampleUrl(prefix: Str, scene: Str)
    ensures "s3://" + PdsBucket + "/" + prefix + "/" + scene + "_" + "B01" + ".TIF"
         == "s3://modis-pds/" + prefix + "/" + scene + "_B01.TIF"
  {
    assert "s3://" + PdsBucket + "/" == "s3://modis-pds/";
    assert "_" + "B01" + ".TIF" == "_B01.TIF";
  }

  /** `MODISReader`, after `__attrs_post_init__`. */
  class MODISReader {
    const sceneid: Str
    const sceneParams: ModisParams
    const bands: seq<Str>
    const bounds: Bounds
    const minzoom: int
    const maxzoom: int

    predicate Valid() {
      && ModisParsedFrom(sceneParams, sceneid)
      && sceneParams.product in ValidBands
      && bands == ValidBands[sceneParams.product]
    }

    /** Construction on an id that parses to a supported product; `tileBbox`
        stands for `modland_grid.tile_bbox`. */
    constructor (sceneid: Str, tileBbox: (Str, Str) -> Bounds)
      requires ModisParse(sceneid).Ok? && ModisParse(sceneid).value.product in ValidBands
      ensures Valid() && this.sceneid == sceneid && sceneParams == ModisParse(sceneid).value
      ensures bounds == tileBbox(sceneParams.horizontalGrid, sceneParams.verticalGrid)
      ensures minzoom == 4 && maxzoom == 9
    {
      this.sceneid := sceneid;
      var p := ModisParse(sceneid).value;
      sceneParams := p;
      bands := ValidBands[p.product];
      bounds := tileBbox(p.horizontalGrid, p.verticalGrid);
      minzoom := 4;
      maxzoom := 9;
    }

    /** `__attrs_post_init__`: the parser's error for a malformed id, then
        InvalidMODISProduct for a product outside the table. */
    static method Open(sceneid: Str, tileBbox: (Str, Str) -> Bounds) returns (r: Result<MODISReader>)
      ensures ModisParse(sceneid).Err? ==> r == Err(ModisParse(sceneid).error)
      ensures ModisParse(sceneid).Ok? && ModisParse(sceneid).value.product !in ValidBands ==>
        r == Err(InvalidMODISProduct(ModisParse(sceneid).value.product))
      ensures r.Ok? <==> ModisParse(sceneid).Ok? && ModisParse(sceneid).value.product in ValidBands
      ensures r.Ok? ==> fresh(r.value) && r.value.Valid() && r.value.sceneid == sceneid
      ensures r.Ok? ==> r.value.bands == ValidBands[ModisParse(sceneid).value.product]
    {
      var parsed := ModisParse(sceneid);
      if parsed.Err? {
        return Err(parsed.error);
      }
      var product := parsed.value.product;
      if product !in ValidBands {
        return Err(InvalidMODISProduct(product));
      }
      var reader := new MODISReader(sceneid, tileBbox);
      return Ok(reader);
    }

    /** `_get_band_url`: the name is compared verbatim with the catalog. */
    function BandUrl(band: Str): (r: Result<Str>)
      ensures r.Ok? <==> band in bands
      ensures r.Err? ==> r.error == InvalidBandName(band, [])
      ensures r.Ok? ==> r.value == "s3://" + PdsBucket + "/" + ScenePrefix(sceneParams) + "/" + sceneid + "_" + band + ".TIF"
    {
      if band !in bands then Err(InvalidBandName(band, []))
      else Ok("s3://" + PdsBucket + "/" + ScenePrefix(sceneParams) + "/" + sceneid + "_" + band + ".TIF")
    }

    /** On a valid reader the URL begins with the bucket and the tile/date
        prefix, distinct bands have distinct URLs, and "B1" is not an alias
        of "B01". */
    lemma BandUrlCatalog(band: Str, other: Str)
      requires Valid()
      ensures BandUrl("B1").Err? && BandUrl("B01").Ok?
      ensures BandUrl(band).Ok? ==>
        StartsWith(BandUrl(band).value, "s3://modis-pds/" + ScenePrefix(sceneParams) + "/" + sceneid + "_")
      ensures BandUrl(band).Ok? && BandUrl(other).Ok? && BandUrl(band) == BandUrl(other) ==> band == other
    {
      ProductTable(sceneParams.product);
      var head := "s3://" + PdsBucket + "/" + ScenePrefix(sceneParams) + "/" + sceneid + "_";
      assert "s3://" + PdsBucket + "/" == "s3://modis-pds/";
      if BandUrl(band).Ok? {
        assert BandUrl(band).value == head + (band + ".TIF");
        assert (head + (band + ".TIF"))[..|head|] == head;
      }
      if BandUrl(band).Ok? && BandUrl(other).Ok? && BandUrl(band) == BandUrl(other) {
        assert BandUrl(other).value == head + (other + ".TIF");
        assert (head + (band + ".TIF"))[|head|..] == band + ".TIF";
        assert (head + (other + ".TIF"))[|head|..] == other + ".TIF";
        assert band == (band + ".TIF")[..|band|];
        assert other == (other + ".TIF")[..|other|];
      }
    }

    /** The MCD43A4 example: the MCD43A4 catalog, "granule" refused, and the
        B01 URL under `MCD43A4.006/21/11/2017006`. */
    lemma ExampleReader()
      requires Valid() && sceneid == ExampleScene
      ensures bands == MCD43A4Bands
      ensures BandUrl("granule").Err?
      ensures BandUrl("B01") == Ok("s3://modis-pds/" + "MCD43A4.006/21/11/2017006" + "/" + ExampleScene + "_B01.TIF")
    {
      ParsedFromCaptures(sceneParams, sceneid);
      ModisExample();
      assert sceneParams == ExampleParams();
      assert "granule" !in MCD43A4Bands;
      ExamplePrefix(sceneParams);
      ExampleUrl(ScenePrefix(sceneParams), sceneid);
    }
  }
}
