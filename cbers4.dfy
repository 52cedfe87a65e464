/** The CBERS-4 reader of rio_tiler_pds/cbers/aws/cbers4.py
    (`CBERSReader`, bucket cbers-pds): the asset catalog is the
    instrument's band list, asset URLs spell every "B" as "BAND", and the
    bounds and zoom levels are read from the reference band's file.
    Opening that file is a function parameter here. */
module Cbers4 {
  import opened Text
  import opened Errors
  import opened MultiBand
  import opened CbersIds

  const CbersBucket: Str := "cbers-pds"

  /** What the reader takes from the reference band's file. */
  datatype CogInfo = CogInfo(bounds: Bounds, minzoom: int, maxzoom: int)

  /** `CBERS4/{instrument}/{path}/{row}/{scene}`. */
  function ScenePrefix(p: CbersParams): Str {
    "CBERS4/" + p.id.instrument + "/" + p.id.path + "/" + p.id.row + "/" + p.scene
  }

  /** `asset.replace("B", "BAND")`. */
  function FileBand(asset: Str): (f: Str)
    ensures 'B' !in asset ==> f == asset
  {
    ReplaceChar(asset, 'B', "BAND")
  }

  /** A band name "B<digits>" is written "BAND<digits>". */
  lemma FileBandOfBandName(digits: Str)
    requires 'B' !in digits
    ensures FileBand("B" + digits) == "BAND" + digits
  {
    ReplaceCharAppend("B", digits, 'B', "BAND");
    assert ReplaceChar("B", 'B', "BAND") == "BAND" + ReplaceChar([], 'B', "BAND");
  }

  /** `s3://cbers-pds/{prefix}/{sceneid}_{asset'}.tif`. */
  function AssetUrlOf(p: CbersParams, sceneid: Str, asset: Str): Str {
    "s3://" + CbersBucket + "/" + ScenePrefix(p) + "/" + sceneid + "_" + FileBand(asset) + ".tif"
  }

  /** `CBERSReader`, after `__enter__`. */
  class CBERSReader {
    const sceneid: Str
    const sceneParams: CbersParams
    const instrument: InstrumentParams
    const assets: seq<Str>
    const bounds: Bounds
    const minzoom: int
    const maxzoom: int

    predicate Valid() {
      && ParsedFrom(sceneParams, sceneid)
      && sceneParams.id.instrument in Instruments
      && instrument == Instruments[sceneParams.id.instrument]
      && assets == instrument.bands
    }

    /** `__enter__` on an id that parses; `openCog` stands for opening the
        reference band's file. */
    constructor (sceneid: Str, openCog: Str -> CogInfo)
      requires CbersParse(sceneid).Ok?
      ensures Valid() && this.sceneid == sceneid
      ensures sceneParams == CbersParse(sceneid).value.params && instrument == CbersParse(sceneid).value.instrument
      ensures var cog := openCog(AssetUrlOf(sceneParams, sceneid, instrument.referenceBand));
        bounds == cog.bounds && minzoom == cog.minzoom && maxzoom == cog.maxzoom
    {
      var meta := CbersParse(sceneid).value;
      this.sceneid := sceneid;
      sceneParams := meta.params;
      instrument := meta.instrument;
      assets := meta.instrument.bands;
      var cog := openCog(AssetUrlOf(meta.params, sceneid, meta.instrument.referenceBand));
      bounds := cog.bounds;
      minzoom := cog.minzoom;
      maxzoom := cog.maxzoom;
    }

    /** `__enter__`: the parser's errors (InvalidCBERSSceneId, or KeyError
        for an instrument outside the table). */
    static method Open(sceneid: Str, openCog: Str -> CogInfo) returns (r: Result<CBERSReader>)
      ensures r.Ok? <==> CbersParse(sceneid).Ok?
      ensures r.Err? ==> r.error == CbersParse(sceneid).error
      ensures r.Ok? ==> fresh(r.value) && r.value.Valid() && r.value.sceneid == sceneid
      ensures r.Ok? ==> r.value.assets == CbersParse(sceneid).value.instrument.bands
    {
      var parsed := CbersParse(sceneid);
      if parsed.Err? {
        return Err(parsed.error);
      }
      var reader := new CBERSReader(sceneid, openCog);
      return Ok(reader);
    }

    /** `_get_asset_url`: the name is compared verbatim with the catalog. */
    function AssetUrl(asset: Str): (r: Result<Str>)
      ensures r.Ok? <==> asset in assets
      ensures r.Err? ==> r.error == InvalidAssetName(asset)
      ensures r.Ok? ==> r.value == AssetUrlOf(sceneParams, sceneid, asset)
    {
      if asset !in assets then Err(InvalidAssetName(asset))
      else Ok(AssetUrlOf(sceneParams, sceneid, asset))
    }

    /** The reference band always passes validation, so opening the reader
        never fails on its own catalog; the RGB triple is in the catalog
        too. */
    lemma ReferenceBandValid()
      requires Valid()
      ensures AssetUrl(instrument.referenceBand) == Ok(AssetUrlOf(sceneParams, sceneid, instrument.referenceBand))
      ensures forall i :: 0 <= i < |instrument.rgb| ==> AssetUrl(instrument.rgb[i]).Ok?
    {
      InstrumentTable(sceneParams.id.instrument);
    }

    /** On a valid reader the catalog is the instrument's band list in
        table order; "BAND5", the file spelling, is not an asset name; each
        band "B<d>" is written "BAND<d>" in its URL. */
    lemma AssetUrlCatalog(asset: Str)
      requires Valid()
      ensures AssetUrl("BAND5").Err?
      ensures AssetUrl(asset).Ok? ==>
        && |asset| >= 2 && asset[0] == 'B' && AllDigits(asset[1..])
        && FileBand(asset) == "BAND" + asset[1..]
    {
      if AssetUrl(asset).Ok? {
        BandNameShape(sceneParams.id.instrument, asset);
        assert asset == "B" + asset[1..];
        assert 'B' !in asset[1..] by { assert !IsDigit('B'); }
        FileBandOfBandName(asset[1..]);
      }
      assert "BAND5" !in assets by {
        if "BAND5" in assets {
          BandNameShape(sceneParams.id.instrument, "BAND5");
        }
      }
    }

    /** A PAN5M scene has the one asset "B1": no other name, not even a
        part of it, passes. */
    lemma Pan5mAssets(asset: Str)
      requires Valid() && sceneParams.id.instrument == "PAN5M"
      ensures AssetUrl(asset).Ok? <==> asset == "B1"
      ensures AssetUrl("").Err? && AssetUrl("B").Err?
    {
    }

    /** `info(assets)` over `_get_asset_url`. */
    function Info<M>(arg: AssetsArg, readAt: Str -> BandInfo<M>): (r: Result<InfoRecord<M>>)
      ensures !Given(arg) ==> r == Err(MissingAssets)
      ensures Given(arg) ==> var req := RequestedAssets(arg).value;
        && (r.Ok? <==> forall i :: 0 <= i < |req| ==> req[i] in assets)
        && (r.Err? ==> exists k :: FirstFailure(req, AssetUrl, k) && r.error == InvalidAssetName(req[k]))
        && (r.Ok? ==> Describes(r.value, Spatial(bounds, minzoom, maxzoom), req, ReadAll(req, AssetUrl, readAt)))
    {
      MultiBand.Info(arg, AssetUrl, readAt, Spatial(bounds, minzoom, maxzoom))
    }

    /** `stats(assets)` over `_get_asset_url`. */
    function Stats<S>(arg: AssetsArg, readAt: Str -> S): (r: Result<map<Str, S>>)
      ensures !Given(arg) ==> r == Err(MissingAssets)
      ensures Given(arg) ==> var req := RequestedAssets(arg).value;
        && (r.Ok? <==> forall i :: 0 <= i < |req| ==> req[i] in assets)
        && (r.Err? ==> exists k :: FirstFailure(req, AssetUrl, k) && r.error == InvalidAssetName(req[k]))
        && (r.Ok? ==> r.value.Keys == (set a | a in req)
                      && forall a :: a in req ==> r.value[a] == readAt(AssetUrlOf(sceneParams, sceneid, a)))
    {
      MultiBand.Stats(arg, AssetUrl, readAt)
    }

    /** `metadata(assets)` over `_get_asset_url`. */
    function Metadata<M, S>(arg: AssetsArg, readAt: Str -> BandMetadata<M, S>): (r: Result<MetadataRecord<M, S>>)
      ensures !Given(arg) ==> r == Err(MissingAssets)
      ensures Given(arg) ==> var req := RequestedAssets(arg).value;
        && (r.Ok? <==> forall i :: 0 <= i < |req| ==> req[i] in assets)
        && (r.Err? ==> exists k :: FirstFailure(req, AssetUrl, k) && r.error == InvalidAssetName(req[k]))
        && (r.Ok? ==> Describes(r.value.info, Spatial(bounds, minzoom, maxzoom), req, InfosOf(ReadAll(req, AssetUrl, readAt)))
                      && r.value.statistics.Keys == (set a | a in req)
                      && forall a :: a in req ==> r.value.statistics[a] == readAt(AssetUrlOf(sceneParams, sceneid, a)).statistics)
    {
      MultiBand.Metadata(arg, AssetUrl, readAt, Spatial(bounds, minzoom, maxzoom))
    }
  }

  lemma MuxPrefix(p: CbersParams, scene: Str)
    requires p.id.instrument == "MUX" && p.id.path == "057" && p.id.row == "094" && p.scene == scene
    ensures "s3://" + CbersBucket + "/" + ScenePrefix(p) + "/" == "s3://cbers-pds/CBERS4/MUX/057/094/" + scene + "/"
  {
    var head := "s3://" + CbersBucket + "/" + "CBERS4/" + "MUX" + "/" + "057" + "/" + "094" + "/";
    assert head == "s3://cbers-pds/CBERS4/MUX/057/094/";
  }

  lemma MuxUrl(p: CbersParams, scene: Str)
    requires p.id.instrument == "MUX" && p.id.path == "057" && p.id.row == "094" && p.scene == scene
    ensures AssetUrlOf(p, scene, "B6") == "s3://cbers-pds/CBERS4/MUX/057/094/" + scene + "/" + scene + "_BAND6.tif"
  {
    FileBandOfBandName("6");
    assert "B" + "6" == "B6" && "BAND" + "6" == "BAND6";
    MuxPrefix(p, scene);
    var head := "s3://" + CbersBucket + "/" + ScenePrefix(p) + "/";
    assert AssetUrlOf(p, scene, "B6") == head + scene + "_" + "BAND6" + ".tif";
    assert "_" + "BAND6" + ".tif" == "_BAND6.tif";
  }

  /** The MUX scene `CBERS_4_MUX_20171121_057_094_L2`: catalog B5 to B8,
      and the reference band B6 read from `..._BAND6.tif`. */
  lemma MuxReader(r: CBERSReader)
    requires r.Valid() && r.sceneid == MuxScene
    ensures r.assets == ["B5", "B6", "B7", "B8"]
    ensures r.AssetUrl("B6") == Ok("s3://cbers-pds/CBERS4/MUX/057/094/" + MuxScene + "/" + MuxScene + "_BAND6.tif")
  {
    ParsedFromUnique(r.sceneParams, r.sceneid);
    MuxSceneParsed();
    MuxUrl(r.sceneParams, MuxScene);
  }
}
