/** The MODIS reader of rio_tiler_pds/modis/aws/modis_astraea.py
    (`MODISReader`, bucket astraea-opendata): a band catalog per product,
    the short-name alias "B<d>" for "B0<d>", and a per-product prefix in
    the file name.  As in ModisPds, the tile bounds come from
    `modland_grid.tile_bbox`, a function parameter here. */
module ModisAstraea {
  import opened Text
  import opened Errors
  import opened MultiBand
  import opened ModisIds
  import ModisPds

  /** `MODIS_BANDS`. */
  const ModisBands: seq<Str> := [
    "B01", "B02", "B03", "B04", "B05", "B06", "B07", "B08", "B09", "B10", "B11", "B12"]

  /** `modis_valid_bands`; the MCD43A4 catalog is the same tuple as the
      modis-pds one. */
  const ValidBands: map<Str, seq<Str>> := map[
    "MCD43A4" := ModisPds.MCD43A4Bands,
    "MOD11A1" := ModisBands,
    "MYD11A1" := ModisBands,
    "MOD13A1" := ModisBands,
    "MYD13A1" := ModisBands]

  /** `MOD11A1_MYD11A1_PREFIX`: land surface temperature layers. */
  const Mod11Prefix: map<Str, Str> := map[
    "B01" := "LSTD_", "B02" := "QCD_", "B03" := "DVT_", "B04" := "DVA_",
    "B05" := "LSTN_", "B06" := "QCN_", "B07" := "NVT_", "B08" := "NVA_",
    "B09" := "E31_", "B10" := "E32_", "B11" := "CDC_", "B12" := "CNC_"]

  /** `MOD13A1_MYD13A1_PREFIX`: vegetation index layers. */
  const Mod13Prefix: map<Str, Str> := map[
    "B01" := "NDVI_", "B02" := "EVI_", "B03" := "VIQ_", "B04" := "RR_",
    "B05" := "NIRR_", "B06" := "BR_", "B07" := "MIRR_", "B08" := "VZA_",
    "B09" := "SZA_", "B10" := "RAA_", "B11" := "CDOY_", "B12" := "PR_"]

  const AstraeaBucket: Str := "astraea-opendata"

  /** The default `prefix_pattern`, the same as the modis-pds prefix. */
  function ScenePrefix(p: ModisParams): Str {
    ModisPds.ScenePrefix(p)
  }

  /** The alias rule: a name starting with "B" and shorter than three
      characters becomes "B0" followed by its last character. */
  function Normalize(band: Str): (b: Str)
    ensures StartsWith(band, "B") && |band| < 3 ==> b == "B0" + [band[|band| - 1]]
    ensures !(StartsWith(band, "B") && |band| < 3) ==> b == band
  {
    if StartsWith(band, "B") && |band| < 3 then "B0" + [band[|band| - 1]] else band
  }

  /** Normalising twice is normalising once; "B<d>" and "B0<d>" normalise
      alike, and a lone "B" becomes "B0B". */
  lemma NormalizeFacts(band: Str, d: char)
    ensures Normalize(Normalize(band)) == Normalize(band)
    ensures |Normalize(band)| >= 3 || !StartsWith(Normalize(band), "B")
    ensures Normalize("B" + [d]) == Normalize("B0" + [d]) == "B0" + [d]
    ensures Normalize("B") == "B0B"
  {
    if StartsWith(band, "B") && |band| < 3 {
      assert |Normalize(band)| == 3;
    }
    assert ("B" + [d])[..1] == "B";
    assert ("B0" + [d])[..1] == "B";
  }

  /** The file-name prefix for a product and a catalog band: the
      temperature table for MOD11A1/MYD11A1, the vegetation table for
      MOD13A1/MYD13A1, none otherwise.  A band missing from the table is a
      KeyError. */
  function FilenamePrefix(product: Str, band: Str): (r: Result<Str>)
    ensures product in ["MOD11A1", "MYD11A1"] ==>
      (r.Ok? <==> band in Mod11Prefix) && (r.Ok? ==> r.value == Mod11Prefix[band])
    ensures product in ["MOD13A1", "MYD13A1"] ==>
      (r.Ok? <==> band in Mod13Prefix) && (r.Ok? ==> r.value == Mod13Prefix[band])
    ensures product !in ["MOD11A1", "MYD11A1", "MOD13A1", "MYD13A1"] ==> r == Ok("")
    ensures r.Err? ==> r.error == KeyError(band)
  {
    if product in ["MOD11A1", "MYD11A1"] then
      if band in Mod11Prefix then Ok(Mod11Prefix[band]) else Err(KeyError(band))
    else if product in ["MOD13A1", "MYD13A1"] then
      if band in Mod13Prefix then Ok(Mod13Prefix[band]) else Err(KeyError(band))
    else Ok("")
  }

  /** Both prefix tables have a key for every band of `MODIS_BANDS`, and
      for no other name. */
  lemma PrefixTablesCover()
    ensures forall b :: b in ModisBands <==> b in Mod11Prefix
    ensures forall b :: b in ModisBands <==> b in Mod13Prefix
  {
  }

  /** The five supported products; the Terra and Aqua variants share
      `MODIS_BANDS`. */
  lemma ProductTable(product: Str)
    ensures product in ValidBands <==>
      product in ["MCD43A4", "MOD11A1", "MYD11A1", "MOD13A1", "MYD13A1"]
    ensures product in ValidBands && product != "MCD43A4" ==> ValidBands[product] == ModisBands
    ensures product in ValidBands ==> "granule" !in ValidBands[product] && "B01" in ValidBands[product]
  {
  }

  /** For every supported product and catalog band the prefix lookup
      succeeds. */
  lemma PrefixDefined(product: Str, band: Str)
    requires product in ValidBands && band in ValidBands[product]
    ensures FilenamePrefix(product, band).Ok?
  {
    PrefixTablesCover();
  }

  /** `MODISReader`, after `__attrs_post_init__`. */
  class AstraeaReader {
    const input: Str
    const sceneParams: ModisParams
    const bands: seq<Str>
    const bounds: Bounds
    const minzoom: int
    const maxzoom: int

    predicate Valid() {
      && ModisParsedFrom(sceneParams, input)
      && sceneParams.product in ValidBands
      && bands == ValidBands[sceneParams.product]
    }

    /** Construction on an id that parses to a supported product;
        `minzoom` and `maxzoom` are arguments defaulting to 4 and 9. */
    constructor (input: Str, tileBbox: (Str, Str) -> Bounds, minzoom: int, maxzoom: int)
      requires ModisParse(input).Ok? && ModisParse(input).value.product in ValidBands
      ensures Valid() && this.input == input && sceneParams == ModisParse(input).value
      ensures bounds == tileBbox(sceneParams.horizontalGrid, sceneParams.verticalGrid)
      ensures this.minzoom == minzoom && this.maxzoom == maxzoom
    {
      this.input := input;
      var p := ModisParse(input).value;
      sceneParams := p;
      bands := ValidBands[p.product];
      bounds := tileBbox(p.horizontalGrid, p.verticalGrid);
      this.minzoom := minzoom;
      this.maxzoom := maxzoom;
    }

    /** `__attrs_post_init__`: the parser's error for a malformed id, then
        InvalidMODISProduct for a product outside the table. */
    static method Open(input: Str, tileBbox: (Str, Str) -> Bounds) returns (r: Result<AstraeaReader>)
      ensures ModisParse(input).Err? ==> r == Err(ModisParse(input).error)
      ensures ModisParse(input).Ok? && ModisParse(input).value.product !in ValidBands ==>
        r == Err(InvalidMODISProduct(ModisParse(input).value.product))
      ensures r.Ok? <==> ModisParse(input).Ok? && ModisParse(input).value.product in ValidBands
      ensures r.Ok? ==> fresh(r.value) && r.value.Valid() && r.value.input == input
      ensures r.Ok? ==> r.value.bands == ValidBands[ModisParse(input).value.product]
      ensures r.Ok? ==> r.value.minzoom == 4 && r.value.maxzoom == 9
    {
      var parsed := ModisParse(input);
      if parsed.Err? {
        return Err(parsed.error);
      }
      var product := parsed.value.product;
      if product !in ValidBands {
        return Err(InvalidMODISProduct(product));
      }
      var reader := new AstraeaReader(input, tileBbox, 4, 9);
      return Ok(reader);
    }

    /** `_get_band_url`: the name is normalised, checked against the
        catalog, and written after the product's file-name prefix. */
    function BandUrl(band: Str): (r: Result<Str>)
      ensures Normalize(band) !in bands ==> r == Err(InvalidBandName(Normalize(band), []))
      ensures Normalize(band) in bands ==>
        r.Ok? == FilenamePrefix(sceneParams.product, Normalize(band)).Ok?
      ensures r.Ok? ==> r.value == "s3://" + AstraeaBucket + "/" + ScenePrefix(sceneParams) + "/" + input
                                   + "_" + FilenamePrefix(sceneParams.product, Normalize(band)).value
                                   + Normalize(band) + ".TIF"
    {
      var b := Normalize(band);
      if b !in bands then Err(InvalidBandName(b, []))
      else
        var pre :- FilenamePrefix(sceneParams.product, b);
        Ok("s3://" + AstraeaBucket + "/" + ScenePrefix(sceneParams) + "/" + input + "_" + pre + b + ".TIF")
    }

    /** On a valid reader a name has a URL exactly when its normalised
        form is in the catalog: no KeyError is possible. */
    lemma BandUrlCatalog(band: Str)
      requires Valid()
      ensures BandUrl(band).Ok? <==> Normalize(band) in bands
      ensures BandUrl(band).Err? ==> BandUrl(band).error == InvalidBandName(Normalize(band), [])
    {
      if Normalize(band) in bands {
        PrefixDefined(sceneParams.product, Normalize(band));
      }
    }

    /** The short alias and the full name give the same URL. */
    lemma AliasSameUrl(d: char)
      ensures BandUrl("B" + [d]) == BandUrl("B0" + [d])
    {
      NormalizeFacts("B", d);
    }

    /** "granule" is refused on every product, "B01" accepted, and "B1"
        is its alias. */
    lemma FirstBandAlias()
      requires Valid()
      ensures BandUrl("granule").Err? && BandUrl("B01").Ok? && BandUrl("B1") == BandUrl("B01")
    {
      ProductTable(sceneParams.product);
      PrefixDefined(sceneParams.product, "B01");
      assert Normalize("granule") == "granule";
      AliasSameUrl('1');
      assert "B" + ['1'] == "B1" && "B0" + ['1'] == "B01";
      assert Normalize("B01") == "B01";
    }

    /** The file name of each product family: LSTD_B01 for the temperature
        products, NDVI_B01 for the vegetation products, plain B01 for
        MCD43A4. */
    lemma FirstBandFileName()
      requires Valid()
      ensures var tail := if sceneParams.product in ["MOD11A1", "MYD11A1"] then "LSTD_B01"
                          else if sceneParams.product in ["MOD13A1", "MYD13A1"] then "NDVI_B01"
                          else "B01";
        BandUrl("B1") == Ok("s3://astraea-opendata/" + ScenePrefix(sceneParams) + "/" + input + "_" + tail + ".TIF")
    {
      ProductTable(sceneParams.product);
      NormalizeFacts("B1", '1');
      assert "B" + ['1'] == "B1";
      PrefixDefined(sceneParams.product, "B01");
      var pre := FilenamePrefix(sceneParams.product, "B01").value;
      var tail := if sceneParams.product in ["MOD11A1", "MYD11A1"] then "LSTD_B01"
                  else if sceneParams.product in ["MOD13A1", "MYD13A1"] then "NDVI_B01"
                  else "B01";
      assert pre + "B01" == tail;
      assert Normalize("B1") == "B01";
      assert "B01" in bands;
      assert BandUrl("B1").Ok?;
      assert BandUrl("B1").value == "s3://" + AstraeaBucket + "/" + ScenePrefix(sceneParams) + "/" + input
                                    + "_" + pre + "B01" + ".TIF";
      UrlShape(ScenePrefix(sceneParams), input, pre);
    }
  }

  /** The literal form of a B01 URL in the bucket. */
  lemma UrlShape(prefix: Str, input: Str, pre: Str)
    ensures "s3://" + AstraeaBucket + "/" + prefix + "/" + input + "_" + pre + "B01" + ".TIF"
         == "s3://astraea-opendata/" + prefix + "/" + input + "_" + (pre + "B01") + ".TIF"
  {
    assert "s3://" + AstraeaBucket + "/" == "s3://astraea-opendata/";
  }
}
