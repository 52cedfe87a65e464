/** The Landsat Collection 2 reader of
    rio_tiler_pds/landsat/aws/landsat_collection2.py (`LandsatC2Reader`):
    the band catalog, the band URLs under the bucket usgs-landsat, the
    choice of STAC item key and the mapping of fetch failures to errors.

    The reader reads `bands`, `_processingLevelNum`, `category` and
    `_sensor_s3_prefix` from the scene parameters.  The source imports the
    Collection 1 parser of rio_tiler_pds/landsat/utils.py, which produces
    none of them, so as written `__attrs_post_init__` raises
    KeyError('bands') at line 77 for every id that parser accepts.  Here
    the fields are a record given to the constructor, and the reader is
    modelled from line 77 on with that record as `scene_params`.
    Fetching the STAC item is a function parameter returning either the
    item's bbox or the client error code. */
module LandsatC2 {
  import opened Text
  import opened Errors
  import opened MultiBand

  /** The scene parameters the reader formats its keys from. */
  datatype C2Params = C2Params(
    processingLevelNum: Str, category: Str, sensorS3Prefix: Str,
    acquisitionYear: Str, path: Str, row: Str, scene: Str, bands: seq<Str>)

  /** Outcome of `get_object` on the STAC key. */
  datatype Fetched = Item(bbox: Bounds) | ClientFailure(code: Str)

  const C2Bucket: Str := "usgs-landsat"
  const StacMissing: Str := "stac_item not found. Some RT scenes may not exist in usgs-landsat bucket."

  /** `collection02/level-{_processingLevelNum}/{category}/{_sensor_s3_prefix}/{acquisitionYear}/{path}/{row}/{scene}/{scene}`. */
  function ScenePrefix(p: C2Params): Str {
    "collection02/level-" + p.processingLevelNum + "/" + p.category + "/" + p.sensorS3Prefix + "/"
    + p.acquisitionYear + "/" + p.path + "/" + p.row + "/" + p.scene + "/" + p.scene
  }

  /** The STAC item fetched for the bounds: the plain item for level 1,
      the Surface Reflectance item otherwise. */
  function StacKey(p: C2Params): (k: Str)
    ensures p.processingLevelNum == "1" ==> k == ScenePrefix(p) + "_stac.json"
    ensures p.processingLevelNum != "1" ==> k == ScenePrefix(p) + "_SR_stac.json"
    ensures StartsWith(k, ScenePrefix(p)) && EndsWith(k, "_stac.json")
  {
    var pre := ScenePrefix(p);
    var k := if p.processingLevelNum == "1" then pre + "_stac.json" else pre + "_SR_stac.json";
    assert k[..|pre|] == pre;
    assert p.processingLevelNum != "1" ==> k == (pre + "_SR") + "_stac.json";
    k
  }

  /** `get_geometry` after the fetch: the item's bbox; a NoSuchKey failure
      becomes ValueError and any other client error is re-raised unchanged. */
  function Geometry(f: Fetched): (r: Result<Bounds>)
    ensures r.Ok? <==> f.Item?
    ensures r.Ok? ==> r.value == f.bbox
    ensures f.ClientFailure? && f.code == "NoSuchKey" ==> r == Err(ValueError(StacMissing))
    ensures f.ClientFailure? && f.code != "NoSuchKey" ==> r == Err(ClientError(f.code))
  {
    match f
    case Item(bbox) => Ok(bbox)
    case ClientFailure(code) =>
      if code == "NoSuchKey" then Err(ValueError(StacMissing)) else Err(ClientError(code))
  }

  /** `LandsatC2Reader`, after `__attrs_post_init__`. */
  class LandsatC2Reader {
    const input: Str
    const sceneParams: C2Params
    const bands: seq<Str>
    const bounds: Bounds
    const minzoom: int
    const maxzoom: int

    predicate Valid() {
      bands == sceneParams.bands
    }

    constructor (input: Str, sceneParams: C2Params, bounds: Bounds)
      ensures Valid() && this.input == input && this.sceneParams == sceneParams
      ensures this.bounds == bounds && minzoom == 5 && maxzoom == 12
    {
      this.input := input;
      this.sceneParams := sceneParams;
      bands := sceneParams.bands;
      this.bounds := bounds;
      minzoom := 5;
      maxzoom := 12;
    }

    /** `__attrs_post_init__` from line 77 on, given the supplied scene
        fields: the key is chosen from the processing level and the fetch's
        failure is mapped to an error. */
    static method Open(input: Str, sceneParams: C2Params, fetch: (Str, Str) -> Fetched)
      returns (r: Result<LandsatC2Reader>)
      ensures var f := fetch(C2Bucket, StacKey(sceneParams));
        && (r.Ok? <==> f.Item?)
        && (r.Err? ==> r.error == Geometry(f).error)
      ensures r.Ok? ==> fresh(r.value) && r.value.Valid() && r.value.sceneParams == sceneParams
                        && r.value.bounds == fetch(C2Bucket, StacKey(sceneParams)).bbox
    {
      var key := StacKey(sceneParams);
      var geometry := Geometry(fetch(C2Bucket, key));
      if geometry.Err? {
        return Err(geometry.error);
      }
      var reader := new LandsatC2Reader(input, sceneParams, geometry.value);
      return Ok(reader);
    }

    /** `_get_band_url`: the name is compared verbatim with the catalog,
        whose contents the error message lists. */
    function BandUrl(band: Str): (r: Result<Str>)
      ensures r.Ok? <==> band in bands
      ensures r.Err? ==> r.error == InvalidBandName(band, bands)
      ensures r.Ok? ==> r.value == "s3://" + C2Bucket + "/" + ScenePrefix(sceneParams) + "_" + band + ".TIF"
    {
      if band !in bands then Err(InvalidBandName(band, bands))
      else Ok("s3://" + C2Bucket + "/" + ScenePrefix(sceneParams) + "_" + band + ".TIF")
    }

    /** Distinct bands have distinct URLs, and the URL names the band right
        after the scene prefix. */
    lemma BandUrlInjective(band: Str, other: Str)
      ensures BandUrl(band).Ok? ==> StartsWith(BandUrl(band).value, "s3://usgs-landsat/" + ScenePrefix(sceneParams) + "_")
      ensures BandUrl(band).Ok? && BandUrl(other).Ok? && BandUrl(band) == BandUrl(other) ==> band == other
    {
      var head := "s3://" + C2Bucket + "/" + ScenePrefix(sceneParams) + "_";
      assert "s3://" + C2Bucket + "/" == "s3://usgs-landsat/";
      if BandUrl(band).Ok? {
        assert BandUrl(band).value == head + (band + ".TIF");
        assert (head + (band + ".TIF"))[..|head|] == head;
      }
      if BandUrl(band).Ok? && BandUrl(other).Ok? && BandUrl(band) == BandUrl(other) {
        assert BandUrl(other).value == head + (other + ".TIF");
        assert (head + (band + ".TIF"))[|head|..] == band + ".TIF";
        assert (head + (other + ".TIF"))[|head|..] == other + ".TIF";
        assert band == (band + ".TIF")[..|band|];
        assert other == (other + ".TIF")[..|other|];
      }
    }
  }
}
