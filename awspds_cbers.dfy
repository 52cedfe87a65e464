/** The legacy CBERS-4 parser and reader of rio_tiler_pds/cbers/awspds_cbers.py
    (`cbers_parser`, `AWSPDS_CBERSReader`).  The groups, `scene` and `date`
    are those of CbersIds; the instrument table differs in one row: the
    PAN5M band list is written `("B1")`, which is the string "B1" and not a
    one-element tuple, so `asset in assets` is a substring test for PAN5M
    scenes.  URLs are formed as in Cbers4. */
module LegacyCbers {
  import opened Text
  import opened Errors
  import opened CbersIds
  import opened MultiBand
  import Cbers4

  /** A `bands` entry: a tuple of names, or a bare string. */
  datatype LegacyBands = BandTuple(names: seq<Str>) | BandString(text: Str)

  /** Python's `asset in bands`: tuple membership, or substring for a string. */
  predicate Contains(bands: LegacyBands, asset: Str) {
    match bands
    case BandTuple(names) => asset in names
    case BandString(text) => Occurs(asset, text)
  }

  datatype LegacyInstrument = LegacyInstrument(referenceBand: Str, bands: LegacyBands, rgb: seq<Str>)

  datatype LegacyMeta = LegacyMeta(params: CbersParams, instrument: LegacyInstrument)

  const LegacyInstruments: map<Str, LegacyInstrument> := map[
    "MUX" := LegacyInstrument("B6", BandTuple(["B5", "B6", "B7", "B8"]), ["B7", "B6", "B5"]),
    "AWFI" := LegacyInstrument("B14", BandTuple(["B13", "B14", "B15", "B16"]), ["B15", "B14", "B13"]),
    "PAN10M" := LegacyInstrument("B4", BandTuple(["B2", "B3", "B4"]), ["B3", "B4", "B2"]),
    "PAN5M" := LegacyInstrument("B1", BandString("B1"), ["B1", "B1", "B1"])]

  /** `cbers_parser`: the shared groups, then the legacy table's row; an
      instrument outside the table is a KeyError. */
  function CbersParser(sceneid: Str): (r: Result<LegacyMeta>)
    ensures var f := CbersFields(sceneid);
      && (r.Ok? <==> f.Ok? && f.value.id.instrument in LegacyInstruments)
      && (f.Err? ==> r == Err(InvalidCBERSSceneId(sceneid)))
      && (f.Ok? && !r.Ok? ==> r == Err(KeyError(f.value.id.instrument)))
      && (r.Ok? ==> r.value.params == f.value && r.value.instrument == LegacyInstruments[f.value.id.instrument])
  {
    var f := CbersFields(sceneid);
    if f.Err? then Err(f.error)
    else if f.value.id.instrument !in LegacyInstruments then Err(KeyError(f.value.id.instrument))
    else Ok(LegacyMeta(f.value, LegacyInstruments[f.value.id.instrument]))
  }

  /** The two tables have the same instruments, reference bands and RGB
      triples; the band lists agree except for PAN5M's bare string. */
  lemma TablesAgree(name: Str)
    ensures name in LegacyInstruments <==> name in Instruments
    ensures name in Instruments ==>
      && LegacyInstruments[name].referenceBand == Instruments[name].referenceBand
      && LegacyInstruments[name].rgb == Instruments[name].rgb
      && (name != "PAN5M" ==> LegacyInstruments[name].bands == BandTuple(Instruments[name].bands))
      && (name == "PAN5M" ==> LegacyInstruments[name].bands == BandString("B1"))
  {
  }

  /** The legacy parser accepts and refuses exactly the ids the current
      one does, with the same groups. */
  lemma ParsersAgree(sceneid: Str)
    ensures CbersParser(sceneid).Ok? <==> CbersParse(sceneid).Ok?
    ensures CbersParser(sceneid).Err? ==> CbersParser(sceneid).error == CbersParse(sceneid).error
    ensures CbersParser(sceneid).Ok? ==> CbersParser(sceneid).value.params == CbersParse(sceneid).value.params
  {
    if CbersFields(sceneid).Ok? {
      TablesAgree(CbersFields(sceneid).value.id.instrument);
    }
  }

  /** The substrings of "B1". */
  lemma SubstringsOfB1(x: Str)
    ensures Occurs(x, "B1") <==> x == "" || x == "B" || x == "1" || x == "B1"
  {
    var s := "B1";
    if Occurs(x, s) {
      var i :| 0 <= i <= |s| - |x| && OccursAt(x, s, i);
      assert x == s[i..i + |x|];
      if |x| == 1 {
        assert x == [s[i]];
      }
    }
    if x == "" { assert OccursAt(x, s, 0); }
    if x == "B" { assert OccursAt(x, s, 0); }
    if x == "1" { assert OccursAt(x, s, 1); }
    if x == "B1" { assert OccursAt(x, s, 0); }
  }

  /** `AWSPDS_CBERSReader`, after `__enter__`. */
  class AWSPDSCbersReader {
    const sceneid: Str
    const sceneParams: CbersParams
    const instrument: LegacyInstrument
    const assets: LegacyBands
    const bounds: Bounds
    const minzoom: int
    const maxzoom: int

    predicate Valid() {
      && ParsedFrom(sceneParams, sceneid)
      && sceneParams.id.instrument in LegacyInstruments
      && instrument == LegacyInstruments[sceneParams.id.instrument]
      && assets == instrument.bands
    }

    /** `__enter__` on an id that parses; `openCog` stands for opening the
        reference band's file. */
    constructor (sceneid: Str, openCog: Str -> Cbers4.CogInfo)
      requires CbersParser(sceneid).Ok?
      ensures Valid() && this.sceneid == sceneid
      ensures sceneParams == CbersParser(sceneid).value.params && instrument == CbersParser(sceneid).value.instrument
      ensures var cog := openCog(Cbers4.AssetUrlOf(sceneParams, sceneid, instrument.referenceBand));
        bounds == cog.bounds && minzoom == cog.minzoom && maxzoom == cog.maxzoom
    {
      var meta := CbersParser(sceneid).value;
      this.sceneid := sceneid;
      sceneParams := meta.params;
      instrument := meta.instrument;
      assets := meta.instrument.bands;
      var cog := openCog(Cbers4.AssetUrlOf(meta.params, sceneid, meta.instrument.referenceBand));
      bounds := cog.bounds;
      minzoom := cog.minzoom;
      maxzoom := cog.maxzoom;
    }

    /** `__enter__`: the parser's errors. */
    static method Open(sceneid: Str, openCog: Str -> Cbers4.CogInfo) returns (r: Result<AWSPDSCbersReader>)
      ensures r.Ok? <==> CbersParser(sceneid).Ok?
      ensures r.Err? ==> r.error == CbersParser(sceneid).error
      ensures r.Ok? ==> fresh(r.value) && r.value.Valid() && r.value.sceneid == sceneid
      ensures r.Ok? ==> r.value.assets == CbersParser(sceneid).value.instrument.bands
    {
      var parsed := CbersParser(sceneid);
      if parsed.Err? {
        return Err(parsed.error);
      }
      var reader := new AWSPDSCbersReader(sceneid, openCog);
      return Ok(reader);
    }

    /** `_get_asset_url`: `asset in self.assets`, then the Cbers4 URL. */
    function AssetUrl(asset: Str): (r: Result<Str>)
      ensures r.Ok? <==> Contains(assets, asset)
      ensures r.Err? ==> r.error == InvalidAssetName(asset)
      ensures r.Ok? ==> r.value == Cbers4.AssetUrlOf(sceneParams, sceneid, asset)
    {
      if !Contains(assets, asset) then Err(InvalidAssetName(asset))
      else Ok(Cbers4.AssetUrlOf(sceneParams, sceneid, asset))
    }

    /** The reference band passes validation for every instrument. */
    lemma ReferenceBandValid()
      requires Valid()
      ensures AssetUrl(instrument.referenceBand).Ok?
    {
      if sceneParams.id.instrument == "PAN5M" {
        SubstringsOfB1("B1");
      }
    }

    /** For a PAN5M scene the accepted names are the substrings of "B1":
        the empty name, "B" and "1" pass beside "B1", giving the files
        `<id>_.tif`, `<id>_BAND.tif` and `<id>_1.tif`. */
    lemma Pan5mAssets(asset: Str)
      requires Valid() && sceneParams.id.instrument == "PAN5M"
      ensures AssetUrl(asset).Ok? <==> asset == "" || asset == "B" || asset == "1" || asset == "B1"
      ensures AssetUrl("").Ok? && Cbers4.FileBand("") == ""
      ensures AssetUrl("B").Ok? && Cbers4.FileBand("B") == "BAND"
    {
      SubstringsOfB1(asset);
      SubstringsOfB1("");
      SubstringsOfB1("B");
      Cbers4.FileBandOfBandName("");
      assert "B" + "" == "B";
    }

    /** For every other instrument the legacy reader accepts exactly the
        current reader's catalog. */
    lemma OtherAssets(asset: Str)
      requires Valid() && sceneParams.id.instrument != "PAN5M"
      ensures AssetUrl(asset).Ok? <==> asset in Instruments[sceneParams.id.instrument].bands
    {
      TablesAgree(sceneParams.id.instrument);
    }
  }
}
