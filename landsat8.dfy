/** The Landsat 8 Collection 1 reader of rio_tiler_pds/landsat/aws/landsat8.py
    (`L8Reader`): a fixed asset catalog under the bucket landsat-pds, the
    per-band nodata rule, and the band-list preparation of `tile`, `part`,
    `preview` and `point`.  The MTL document is fetched and parsed by the
    source; here its bounds are a constructor input.  Raster reads, the
    DN-to-TOA conversion and pansharpening are per-band values the model
    does not look into. */
module Landsat8 {
  import opened Text
  import opened Errors
  import opened LandsatIds
  import opened MultiBand

  const L8Bands: seq<Str> := ["B1", "B2", "B3", "B4", "B5", "B6", "B7", "B8", "B9", "B10", "B11", "BQA"]
  const L8Bucket: Str := "landsat-pds"

  /** `c1/L8/{path}/{row}/{scene}`. */
  function ScenePrefix(p: LandsatParams): Str {
    "c1/L8/" + p.path + "/" + p.row + "/" + p.scene
  }

  /** The nodata value each per-band read is given: 1 for the quality band,
      0 for every other band. */
  function Nodata(asset: Str): (n: int)
    ensures n == 1 <==> asset == "BQA"
    ensures n == 0 <==> asset != "BQA"
  {
    if asset == "BQA" then 1 else 0
  }

  /** One per-band read: where, and with which nodata value. */
  datatype BandRead = BandRead(url: Str, nodata: int)

  /** The bands to read and the labels the result carries. */
  datatype ReadPlan = ReadPlan(toRead: seq<Str>, labels: seq<Str>)

  /** The list `tile` / `part` / `preview` / `point` work on: a string
      wrapped into a 1-tuple, replaced by the expression's bands when an
      expression is given.  Unlike `stats` and `metadata`, the emptiness
      test comes after wrapping, so the empty string is one asset. */
  function TileAssets(arg: AssetsArg, expression: Str, parsed: seq<Str>): (r: seq<Str>)
    ensures expression != [] ==> r == parsed
    ensures expression == [] && arg.Single? ==> r == [arg.name]
    ensures expression == [] && arg.Several? ==> r == arg.names
    ensures expression == [] && arg.NoAssets? ==> r == []
  {
    if expression != [] then parsed
    else match arg
      case NoAssets => []
      case Single(name) => [name]
      case Several(names) => names
  }

  /** `L8Reader`, after `__enter__`. */
  class L8Reader {
    const sceneid: Str
    const sceneParams: LandsatParams
    const assets: seq<Str>
    const bounds: Bounds
    const minzoom: int
    const maxzoom: int

    predicate Valid() {
      LandsatParsedFrom(sceneParams, sceneid) && assets == L8Bands
    }

    /** `__enter__` on an id that parses; `bounds` come from the MTL document. */
    constructor (sceneid: Str, bounds: Bounds)
      requires LandsatParse(sceneid).Ok?
      ensures Valid() && this.sceneid == sceneid && sceneParams == LandsatParse(sceneid).value
      ensures this.bounds == bounds && minzoom == 7 && maxzoom == 12
    {
      this.sceneid := sceneid;
      sceneParams := LandsatParse(sceneid).value;
      assets := L8Bands;
      this.bounds := bounds;
      minzoom := 7;
      maxzoom := 12;
    }

    /** Construction, raising InvalidLandsatSceneId for an id the parser refuses. */
    static method Open(sceneid: Str, bounds: Bounds) returns (r: Result<L8Reader>)
      ensures r.Ok? <==> LandsatParse(sceneid).Ok?
      ensures r.Err? ==> r.error == InvalidLandsatSceneId(sceneid)
      ensures r.Ok? ==> fresh(r.value) && r.value.Valid() && r.value.sceneid == sceneid
    {
      var parsed := LandsatParse(sceneid);
      if parsed.Err? {
        return Err(parsed.error);
      }
      var reader := new L8Reader(sceneid, bounds);
      return Ok(reader);
    }

    /** The MTL document's key in the bucket. */
    function MtlKey(): (k: Str)
      requires Valid()
      ensures k == ScenePrefix(sceneParams) + "/" + sceneid + "_MTL.txt"
      ensures StartsWith(k, "c1/L8/") && EndsWith(k, "_MTL.txt")
    {
      ScenePrefix(sceneParams) + "/" + sceneid + "_MTL.txt"
    }

    /** `_get_asset_url`. */
    function AssetUrl(asset: Str): (r: Result<Str>)
      ensures r.Ok? <==> asset in assets
      ensures r.Err? ==> r.error == InvalidAssetName(asset)
      ensures r.Ok? ==> r.value == "s3://" + L8Bucket + "/" + ScenePrefix(sceneParams) + "/" + sceneid
                                   + "_" + asset + ".TIF"
    {
      if asset !in assets then Err(InvalidAssetName(asset))
      else Ok("s3://" + L8Bucket + "/" + ScenePrefix(sceneParams) + "/" + sceneid + "_" + asset + ".TIF")
    }

    /** The read a per-band `_reader` makes. */
    function Request(asset: Str): (r: Result<BandRead>)
      ensures r.Ok? <==> asset in assets
      ensures r.Err? ==> r.error == InvalidAssetName(asset)
      ensures r.Ok? ==> r.value.url == AssetUrl(asset).value && (r.value.nodata == 1 <==> asset == "BQA")
    {
      match AssetUrl(asset)
      case Err(e) => Err(e)
      case Ok(url) => Ok(BandRead(url, Nodata(asset)))
    }

    /** On a valid reader exactly the twelve catalog names have a URL, and
        distinct names have distinct URLs. */
    lemma AssetUrlCatalog(asset: Str, other: Str)
      requires Valid()
      ensures AssetUrl(asset).Ok? <==> asset in L8Bands
      ensures AssetUrl(asset).Ok? && AssetUrl(other).Ok? && AssetUrl(asset) == AssetUrl(other) ==> asset == other
    {
      if AssetUrl(asset).Ok? && AssetUrl(other).Ok? && AssetUrl(asset) == AssetUrl(other) {
        var head := "s3://" + L8Bucket + "/" + ScenePrefix(sceneParams) + "/" + sceneid + "_";
        assert AssetUrl(asset).value == head + (asset + ".TIF");
        assert AssetUrl(other).value == head + (other + ".TIF");
        assert (head + (asset + ".TIF"))[|head|..] == asset + ".TIF";
        assert (head + (other + ".TIF"))[|head|..] == other + ".TIF";
        assert asset == (asset + ".TIF")[..|asset + ".TIF"| - 4];
        assert other == (other + ".TIF")[..|other + ".TIF"| - 4];
      }
    }

    /** The band-list preparation of `tile` / `part` / `preview` (and of
        `point`, with `pan` false): wrap, override by the expression, refuse
        an empty list, append "B8" to the reads for pansharpening, and drop
        it again from the labels after reading. */
    method PlanRead(arg: AssetsArg, expression: Str, parsed: seq<Str>, pan: bool) returns (r: Result<ReadPlan>)
      ensures r.Err? <==> TileAssets(arg, expression, parsed) == []
      ensures r.Err? ==> r.error == MissingAssets
      ensures r.Ok? ==> r.value.labels == TileAssets(arg, expression, parsed)
      ensures r.Ok? && pan ==> r.value.toRead == r.value.labels + ["B8"]
      ensures r.Ok? && !pan ==> r.value.toRead == r.value.labels
    {
      var bands: seq<Str>;
      match arg {
        case NoAssets => bands := [];
        case Single(name) => bands := [name];
        case Several(names) => bands := names;
      }
      if expression != [] {
        bands := parsed;
      }
      if bands == [] {
        return Err(MissingAssets);
      }
      var readList := bands;
      if pan {
        readList := readList + ["B8"];
      }
      var labels := readList;
      if pan {
        labels := labels[..|labels| - 1];
      }
      return Ok(ReadPlan(readList, labels));
    }

    /** `tile` / `part` / `preview` / `point` up to the raster reads: the
        plan, then one read per band in order (the first invalid name
        raises InvalidAssetName). */
    method TileReads(arg: AssetsArg, expression: Str, parsed: seq<Str>, pan: bool)
      returns (r: Result<(seq<BandRead>, seq<Str>)>)
      ensures TileAssets(arg, expression, parsed) == [] ==> r == Err(MissingAssets)
      ensures var bands := TileAssets(arg, expression, parsed);
        var readList := if pan then bands + ["B8"] else bands;
        bands != [] ==>
          && (r.Ok? <==> forall i :: 0 <= i < |readList| ==> readList[i] in assets)
          && (r.Err? ==> exists k :: FirstFailure(readList, Request, k) && r.error == InvalidAssetName(readList[k]))
          && (r.Ok? ==> r.value.1 == bands && |r.value.0| == |readList|
                        && forall i :: 0 <= i < |readList| ==> r.value.0[i] == Request(readList[i]).value)
    {
      var plan := PlanRead(arg, expression, parsed, pan);
      if plan.Err? {
        return Err(plan.error);
      }
      var done := ReadInOrder(plan.value.toRead, Request);
      if done.Err? {
        return Err(done.error);
      }
      return Ok((done.value, plan.value.labels));
    }

    /** `stats(assets)`: refused when `assets` is empty, then one statistics
        value per asset, read with the band's nodata value. */
    function Stats<S>(arg: AssetsArg, readAt: BandRead -> S): (r: Result<map<Str, S>>)
      ensures !Given(arg) ==> r == Err(MissingAssets)
      ensures Given(arg) ==> var req := RequestedAssets(arg).value;
        && (r.Ok? <==> forall i :: 0 <= i < |req| ==> req[i] in assets)
        && (r.Err? ==> exists k :: FirstFailure(req, Request, k) && r.error == InvalidAssetName(req[k]))
        && (r.Ok? ==> r.value.Keys == (set a | a in req)
                      && forall a :: a in req ==> r.value[a] == readAt(Request(a).value))
    {
      var req :- RequestedAssets(arg);
      var f := a => ReadAsset(Request, readAt, a);
      var results :- MultiValues(req, f);
      ReadAgrees(req, Request, readAt, f, results);
      Ok(results)
    }

    /** `metadata(assets)`: as the shared assembly, with each band read at
        its nodata value. */
    function Metadata<M, S>(arg: AssetsArg, readAt: BandRead -> BandMetadata<M, S>): (r: Result<MetadataRecord<M, S>>)
      ensures !Given(arg) ==> r == Err(MissingAssets)
      ensures Given(arg) ==> var req := RequestedAssets(arg).value;
        && (r.Ok? <==> forall i :: 0 <= i < |req| ==> req[i] in assets)
        && (r.Err? ==> exists k :: FirstFailure(req, Request, k) && r.error == InvalidAssetName(req[k]))
        && (r.Ok? ==> Describes(r.value.info, Spatial(bounds, minzoom, maxzoom), req, InfosOf(ReadAll(req, Request, readAt)))
                      && r.value.statistics.Keys == (set a | a in req)
                      && forall a :: a in req ==> r.value.statistics[a] == readAt(Request(a).value).statistics)
    {
      MultiBand.Metadata(arg, Request, readAt, Spatial(bounds, minzoom, maxzoom))
    }

    /** `info(assets)`, inherited: the shared assembly over `_get_asset_url`. */
    function Info<M>(arg: AssetsArg, readAt: Str -> BandInfo<M>): (r: Result<InfoRecord<M>>)
      ensures !Given(arg) ==> r == Err(MissingAssets)
      ensures Given(arg) ==> var req := RequestedAssets(arg).value;
        && (r.Ok? <==> forall i :: 0 <= i < |req| ==> req[i] in assets)
        && (r.Err? ==> exists k :: FirstFailure(req, AssetUrl, k) && r.error == InvalidAssetName(req[k]))
        && (r.Ok? ==> Describes(r.value, Spatial(bounds, minzoom, maxzoom), req, ReadAll(req, AssetUrl, readAt)))
    {
      MultiBand.Info(arg, AssetUrl, readAt, Spatial(bounds, minzoom, maxzoom))
    }
  }

  /** `stats` refuses the empty string, while `tile` wraps it into a
      one-element list and goes on to read it. */
  lemma EmptyNameDiffers(expression: Str)
    requires expression == []
    ensures RequestedAssets(Single([])) == Err(MissingAssets)
    ensures TileAssets(Single([]), expression, []) == [[]]
  {
  }

  /** Panchromatic sharpening reads "B8" last and the labels are exactly the
      requested bands. */
  lemma PanReadsB8Last(plan: ReadPlan)
    requires plan.toRead == plan.labels + ["B8"]
    ensures plan.toRead[|plan.toRead| - 1] == "B8" && plan.toRead[..|plan.toRead| - 1] == plan.labels
  {
  }
}
