/** The Sentinel-1 reader of rio_tiler_pds/sentinel/aws/sentinel1.py: a
    fixed two-band catalog and keys under the bucket sentinel-s1-l1c.  The
    reader parses its id with `S1Parse`, the parser as written, so only ids
    starting `S1A_IW` or `S1B_IW` open (EW scenes are refused by its guard).
    The productInfo.json document the constructor fetches (and the footprint
    read from it) is I/O and not part of this model. */
module Sentinel1 {
  import opened Text
  import opened Errors
  import opened SentinelIds

  const S1Bands: seq<Str> := ["vv", "vh"]
  const S1Bucket: Str := "sentinel-s1-l1c"

  /** `{product}/{acquisitionYear}/{_month}/{_day}/{beam}/{polarisation}/{scene}`. */
  function ScenePrefix(p: S1Params): Str {
    p.product + "/" + p.acquisitionYear + "/" + p.monthShort + "/" + p.dayShort + "/"
    + p.beam + "/" + p.polarisation + "/" + p.scene
  }

  lemma PrefixDateFields(p: S1Params, sceneid: Str)
    requires IsDateTimeCI(p.startDateTime) && p == DeriveS1(S1IdOf(p), sceneid)
    ensures AllDigits(p.acquisitionMonth) && AllDigits(p.acquisitionDay)
    ensures p.monthShort == Unpadded(p.acquisitionMonth) && p.dayShort == Unpadded(p.acquisitionDay)
  {
    S1DateFields(S1IdOf(p), sceneid);
  }

  /** The prefix with the month and day keys written out. */
  lemma PrefixText(p: S1Params, month: Str, day: Str)
    requires p.monthShort == month && p.dayShort == day
    ensures ScenePrefix(p) == p.product + "/" + p.acquisitionYear + "/" + month + "/" + day
      + "/" + p.beam + "/" + p.polarisation + "/" + p.scene
  {
  }

  lemma CatalogMembers(bands: seq<Str>, band: Str)
    requires bands == S1Bands
    ensures band in bands <==> band == "vv" || band == "vh"
  {
  }

  /** The measurement file name starts with the beam in lower case. */
  lemma BeamUrl(p: S1Params, band: Str)
    requires p.beam == "IW"
    ensures "s3://" + S1Bucket + "/" + ScenePrefix(p) + "/measurement/" + Lower(p.beam) + "-" + band + ".tiff"
         == "s3://sentinel-s1-l1c/" + ScenePrefix(p) + "/measurement/iw-" + band + ".tiff"
  {
    assert Lower(p.beam) == "iw";
    assert "s3://" + S1Bucket + "/" == "s3://sentinel-s1-l1c/";
  }

  /** `S1L1CReader`. */
  class S1L1CReader {
    const sceneid: Str
    const sceneParams: S1Params
    const bands: seq<Str>
    const minzoom: int
    const maxzoom: int

    predicate Valid() {
      S1ParsedFrom(sceneParams, sceneid) && bands == S1Bands
    }

    /** `__attrs_post_init__` on an id that parses. */
    constructor (sceneid: Str)
      requires S1Parse(sceneid).Ok?
      ensures Valid() && this.sceneid == sceneid && sceneParams == S1Parse(sceneid).value
      ensures minzoom == 8 && maxzoom == 14
    {
      this.sceneid := sceneid;
      sceneParams := S1Parse(sceneid).value;
      bands := S1Bands;
      minzoom := 8;
      maxzoom := 14;
    }

    /** Construction, passing on the as-written parser's errors
        (InvalidSentinelSceneId when its guard fails, NoMatch for an id the
        guard lets through but the detailed pattern does not). */
    static method Open(sceneid: Str) returns (r: Result<S1L1CReader>)
      ensures r.Ok? <==> S1Parse(sceneid).Ok?
      ensures r.Err? ==> r.error == S1Parse(sceneid).error
      ensures r.Ok? <==> S1GuardIW(sceneid) && S1Detailed(Body(sceneid))
      ensures r.Err? ==> (r.error == InvalidSentinelSceneId(sceneid) <==> !S1Guard(sceneid))
      ensures r.Ok? ==> fresh(r.value) && r.value.Valid() && r.value.sceneid == sceneid
      ensures r.Ok? ==> r.value.sceneParams == S1Parse(sceneid).value
    {
      var parsed := S1Parse(sceneid);
      if parsed.Err? {
        return Err(parsed.error);
      }
      var reader := new S1L1CReader(sceneid);
      return Ok(reader);
    }

    /** The productInfo.json key fetched (requester pays) from the bucket:
        in the scene's folder, which starts with the product and year. */
    function ProductInfoKey(): (k: Str)
      ensures EndsWith(k, "/productInfo.json")
      ensures StartsWith(k, sceneParams.product + "/" + sceneParams.acquisitionYear + "/")
    {
      ScenePrefix(sceneParams) + "/productInfo.json"
    }

    /** `_get_band_url`: the token is compared verbatim with the catalog. */
    function BandUrl(band: Str): (r: Result<Str>)
      ensures r.Ok? <==> band in bands
      ensures r.Err? ==> r.error == InvalidBandName(band, [])
      ensures r.Ok? ==> r.value == "s3://" + S1Bucket + "/" + ScenePrefix(sceneParams)
                                   + "/measurement/" + Lower(sceneParams.beam) + "-" + band + ".tiff"
    {
      if band !in bands then Err(InvalidBandName(band, []))
      else Ok("s3://" + S1Bucket + "/" + ScenePrefix(sceneParams)
              + "/measurement/" + Lower(sceneParams.beam) + "-" + band + ".tiff")
    }

    /** On a valid reader exactly "vv" and "vh" have a URL (no aliasing:
        "VV" and "B1" are refused). */
    lemma BandUrlCatalog(band: Str)
      requires Valid()
      ensures BandUrl(band).Ok? <==> band == "vv" || band == "vh"
    {
      CatalogMembers(bands, band);
    }

    /** Every scene the reader opens is an IW scene, so the measurement
        file is `iw-<band>.tiff`. */
    lemma MeasurementFile(band: Str)
      requires Valid() && band in bands
      ensures BandUrl(band).Ok?
      ensures BandUrl(band).value == "s3://sentinel-s1-l1c/" + ScenePrefix(sceneParams) + "/measurement/iw-"
        + band + ".tiff"
    {
      BeamUrl(sceneParams, band);
    }

    /** The scene prefix ends with the id itself and holds the month and
        day without leading zeros. */
    lemma PrefixFields()
      requires Valid()
      ensures AllDigits(sceneParams.acquisitionMonth) && AllDigits(sceneParams.acquisitionDay)
      ensures ScenePrefix(sceneParams) == sceneParams.product + "/" + sceneParams.acquisitionYear + "/"
        + Unpadded(sceneParams.acquisitionMonth) + "/" + Unpadded(sceneParams.acquisitionDay)
        + "/" + sceneParams.beam + "/" + sceneParams.polarisation + "/" + sceneid
    {
      PrefixDateFields(sceneParams, sceneid);
      PrefixText(sceneParams, Unpadded(sceneParams.acquisitionMonth), Unpadded(sceneParams.acquisitionDay));
    }
  }
}
