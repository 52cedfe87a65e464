/** The request validation and metadata assembly shared by the readers
    built on rio_tiler_pds/reader.py (`MultiBandReader`): `info`, `stats`,
    `metadata`, `center` and `spatial_info`.

    Reading one asset is I/O done by rio_tiler; here it is a function
    parameter from what `_get_asset_url` resolved (`U`, the URL) to a
    per-band result of an unspecified type.
    `multi_values` runs the per-asset reader over the request and collects
    a dictionary keyed by asset; it is modelled by `MultiValues`, which
    re-raises the first failure in request order. */
module MultiBand {
  import opened Text
  import opened Errors

  /** The `assets` argument: None, a single string, or a sequence. */
  datatype AssetsArg = NoAssets | Single(name: Str) | Several(names: seq<Str>)

  /** Python truthiness of the argument, as `if not assets` reads it:
      None, "" and () are false. */
  predicate Given(arg: AssetsArg) {
    match arg
    case NoAssets => false
    case Single(name) => name != []
    case Several(names) => names != []
  }

  /** `if not assets: raise MissingAssets`, then a string becomes a
      one-element tuple. */
  function RequestedAssets(arg: AssetsArg): (r: Result<seq<Str>>)
    ensures r.Err? <==> !Given(arg)
    ensures r.Err? ==> r.error == MissingAssets
    ensures r.Ok? ==> |r.value| >= 1
    ensures r.Ok? && arg.Single? ==> r.value == [arg.name]
    ensures r.Ok? && arg.Several? ==> r.value == arg.names
  {
    match arg
    case NoAssets => Err(MissingAssets)
    case Single(name) => if name == [] then Err(MissingAssets) else Ok([name])
    case Several(names) => if names == [] then Err(MissingAssets) else Ok(names)
  }

  /** Index of the first asset whose reader fails, if any. */
  predicate FirstFailure<T>(assets: seq<Str>, f: Str -> Result<T>, k: int) {
    0 <= k < |assets| && f(assets[k]).Err? && forall j :: 0 <= j < k ==> f(assets[j]).Ok?
  }

  /** `multi_values(assets, _reader)`: every asset read, or the first
      failure in request order re-raised. */
  function MultiValues<T>(assets: seq<Str>, f: Str -> Result<T>): (r: Result<map<Str, T>>)
    ensures r.Ok? <==> forall i :: 0 <= i < |assets| ==> f(assets[i]).Ok?
    ensures r.Err? ==> exists k :: FirstFailure(assets, f, k) && r.error == f(assets[k]).error
    ensures r.Ok? ==> r.value.Keys == set a | a in assets
    ensures r.Ok? ==> forall a :: a in assets ==> f(a).Ok? && r.value[a] == f(a).value
  {
    if assets == [] then Ok(map[])
    else
      var first := f(assets[0]);
      if first.Err? then
        assert FirstFailure(assets, f, 0);
        Err(first.error)
      else
        var rest := MultiValues(assets[1..], f);
        if rest.Err? then
          var k :| FirstFailure(assets[1..], f, k) && rest.error == f(assets[1..][k]).error;
          assert FirstFailure(assets, f, k + 1);
          Err(rest.error)
        else
          assert forall a :: a in assets ==> a == assets[0] || a in assets[1..];
          Ok(rest.value[assets[0] := first.value])
  }

  /** `multi_arrays(assets, _reader)`: the per-asset results stacked in
      request order, or the first failure in request order re-raised. */
  function ReadInOrder<T>(assets: seq<Str>, f: Str -> Result<T>): (r: Result<seq<T>>)
    ensures r.Ok? <==> forall i :: 0 <= i < |assets| ==> f(assets[i]).Ok?
    ensures r.Err? ==> exists k :: FirstFailure(assets, f, k) && r.error == f(assets[k]).error
    ensures r.Ok? ==> |r.value| == |assets| && forall i :: 0 <= i < |assets| ==> r.value[i] == f(assets[i]).value
  {
    if assets == [] then Ok([])
    else
      var first := f(assets[0]);
      if first.Err? then
        assert FirstFailure(assets, f, 0);
        Err(first.error)
      else
        var rest := ReadInOrder(assets[1..], f);
        if rest.Err? then
          var k :| FirstFailure(assets[1..], f, k) && rest.error == f(assets[1..][k]).error;
          assert FirstFailure(assets, f, k + 1);
          Err(rest.error)
        else
          Ok([first.value] + rest.value)
  }

  /** The `_reader` closure: resolve the asset's URL (which validates the
      name), then read it. */
  function ReadAsset<U, T>(urlOf: Str -> Result<U>, readAt: U -> T, asset: Str): (r: Result<T>)
    ensures r.Err? <==> urlOf(asset).Err?
    ensures r.Err? ==> r.error == urlOf(asset).error
    ensures r.Ok? ==> r.value == readAt(urlOf(asset).value)
  {
    match urlOf(asset)
    case Err(e) => Err(e)
    case Ok(url) => Ok(readAt(url))
  }

  datatype Bounds = Bounds(west: real, south: real, east: real, north: real)
  datatype Center = Center(x: real, y: real, zoom: int)
  datatype SpatialInfo = SpatialInfo(bounds: Bounds, center: Center, minzoom: int, maxzoom: int)

  /** The parts of a per-band `info()` / `metadata()` result the assembly
      reads: `band_metadata[0][1]`, `dtype`, `colorinterp[0]` and
      `nodata_type`. */
  datatype BandInfo<M> = BandInfo(bandMetadata: M, dtype: Str, colorinterp: Str, nodataType: Str)
  datatype BandMetadata<M, S> = BandMetadata(info: BandInfo<M>, statistics: S)

  datatype InfoRecord<M> = InfoRecord(
    spatial: SpatialInfo,
    bandMetadata: seq<(nat, M)>, bandDescriptions: seq<(nat, Str)>,
    dtype: Str, colorinterp: seq<Str>, nodataType: Str)

  datatype MetadataRecord<M, S> = MetadataRecord(info: InfoRecord<M>, statistics: map<Str, S>)

  /** `center`: the midpoint of the bounds, with the minimum zoom.  Real
      arithmetic stands for the source's floats. */
  function CenterOf(b: Bounds, minzoom: int): (c: Center)
    ensures c.zoom == minzoom
    ensures c.x - b.west == b.east - c.x && c.y - b.south == b.north - c.y
    ensures b.west <= b.east ==> b.west <= c.x <= b.east
    ensures b.south <= b.north ==> b.south <= c.y <= b.north
  {
    Center((b.west + b.east) / 2.0, (b.south + b.north) / 2.0, minzoom)
  }

  /** `spatial_info`: bounds, center and zooms, unchanged. */
  function Spatial(b: Bounds, minzoom: int, maxzoom: int): (s: SpatialInfo)
    ensures s.bounds == b && s.minzoom == minzoom && s.maxzoom == maxzoom
    ensures s.center == CenterOf(b, minzoom)
  {
    SpatialInfo(b, CenterOf(b, minzoom), minzoom, maxzoom)
  }

  /** What the assembled record says about the request: one entry per
      requested asset, in request order, numbered from 1, and `dtype` /
      `nodata_type` from the first asset.  `bands[i]` is what was read for
      `assets[i]`. */
  ghost predicate Describes<M>(rec: InfoRecord<M>, spatial: SpatialInfo, assets: seq<Str>, bands: seq<BandInfo<M>>)
    requires |assets| >= 1 && |bands| == |assets|
  {
    && rec.spatial == spatial
    && |rec.bandDescriptions| == |assets| && |rec.bandMetadata| == |assets| && |rec.colorinterp| == |assets|
    && (forall i :: 0 <= i < |assets| ==> rec.bandDescriptions[i] == (i + 1, assets[i]))
    && (forall i :: 0 <= i < |assets| ==> rec.bandMetadata[i] == (i + 1, bands[i].bandMetadata))
    && (forall i :: 0 <= i < |assets| ==> rec.colorinterp[i] == bands[i].colorinterp)
    && rec.dtype == bands[0].dtype && rec.nodataType == bands[0].nodataType
  }

  /** The values read for the request, one per asset in request order. */
  function ReadAll<U, T>(assets: seq<Str>, urlOf: Str -> Result<U>, readAt: U -> T): (vs: seq<T>)
    requires forall i :: 0 <= i < |assets| ==> urlOf(assets[i]).Ok?
    ensures |vs| == |assets| && forall i :: 0 <= i < |assets| ==> vs[i] == readAt(urlOf(assets[i]).value)
  {
    seq(|assets|, i requires 0 <= i < |assets| => readAt(urlOf(assets[i]).value))
  }

  function InfosOf<M, S>(ms: seq<BandMetadata<M, S>>): (bs: seq<BandInfo<M>>)
    ensures |bs| == |ms| && forall i :: 0 <= i < |ms| ==> bs[i] == ms[i].info
  {
    seq(|ms|, i requires 0 <= i < |ms| => ms[i].info)
  }

  /** The comprehensions of `info` / `metadata` over the per-asset results. */
  function Assemble<M>(spatial: SpatialInfo, assets: seq<Str>, results: map<Str, BandInfo<M>>): (rec: InfoRecord<M>)
    requires |assets| >= 1 && forall a :: a in assets ==> a in results
    ensures Describes(rec, spatial, assets, seq(|assets|, i requires 0 <= i < |assets| => results[assets[i]]))
  {
    var first := results[assets[0]];
    InfoRecord(spatial,
      seq(|assets|, i requires 0 <= i < |assets| => (i + 1, results[assets[i]].bandMetadata)),
      seq(|assets|, i requires 0 <= i < |assets| => (i + 1, assets[i])),
      first.dtype,
      seq(|assets|, i requires 0 <= i < |assets| => results[assets[i]].colorinterp),
      first.nodataType)
  }

  /** Reading the descriptions back in order gives the request, and their
      numbers increase. */
  lemma DescriptionsRecoverRequest<M>(rec: InfoRecord<M>, spatial: SpatialInfo, assets: seq<Str>, bands: seq<BandInfo<M>>)
    requires |assets| >= 1 && |bands| == |assets| && Describes(rec, spatial, assets, bands)
    ensures Names(rec.bandDescriptions) == assets
    ensures forall i, j :: 0 <= i < j < |rec.bandDescriptions| ==> rec.bandDescriptions[i].0 < rec.bandDescriptions[j].0
  {
    assert |Names(rec.bandDescriptions)| == |assets|;
  }

  function Names(d: seq<(nat, Str)>): (r: seq<Str>)
    ensures |r| == |d| && forall i :: 0 <= i < |d| ==> r[i] == d[i].1
  {
    seq(|d|, i requires 0 <= i < |d| => d[i].1)
  }

  /** `info(assets)`. */
  function Info<U, M>(arg: AssetsArg, urlOf: Str -> Result<U>, readAt: U -> BandInfo<M>, spatial: SpatialInfo)
    : (r: Result<InfoRecord<M>>)
    ensures !Given(arg) ==> r == Err(MissingAssets)
    ensures Given(arg) ==> var assets := RequestedAssets(arg).value;
      && (r.Ok? <==> forall i :: 0 <= i < |assets| ==> urlOf(assets[i]).Ok?)
      && (r.Err? ==> exists k :: FirstFailure(assets, urlOf, k) && r.error == urlOf(assets[k]).error)
      && (r.Ok? ==> Describes(r.value, spatial, assets, ReadAll(assets, urlOf, readAt)))
  {
    var assets :- RequestedAssets(arg);
    var f := a => ReadAsset(urlOf, readAt, a);
    var results :- MultiValues(assets, f);
    ReadAgrees(assets, urlOf, readAt, f, results);
    var rec := Assemble(spatial, assets, results);
    assert seq(|assets|, i requires 0 <= i < |assets| => results[assets[i]]) == ReadAll(assets, urlOf, readAt);
    Ok(rec)
  }

  lemma ReadAgrees<U, T>(assets: seq<Str>, urlOf: Str -> Result<U>, readAt: U -> T,
                      f: Str -> Result<T>, results: map<Str, T>)
    requires forall a :: f(a) == ReadAsset(urlOf, readAt, a)
    requires forall a :: a in assets ==> f(a).Ok? && a in results && results[a] == f(a).value
    ensures forall a :: a in assets ==> urlOf(a).Ok? && results[a] == readAt(urlOf(a).value)
  {
  }

  /** `stats(assets)`: the per-asset statistics keyed by asset. */
  function Stats<U, S>(arg: AssetsArg, urlOf: Str -> Result<U>, readAt: U -> S): (r: Result<map<Str, S>>)
    ensures !Given(arg) ==> r == Err(MissingAssets)
    ensures Given(arg) ==> var assets := RequestedAssets(arg).value;
      && (r.Ok? <==> forall i :: 0 <= i < |assets| ==> urlOf(assets[i]).Ok?)
      && (r.Err? ==> exists k :: FirstFailure(assets, urlOf, k) && r.error == urlOf(assets[k]).error)
      && (r.Ok? ==> r.value.Keys == (set a | a in assets)
                    && forall a :: a in assets ==> r.value[a] == readAt(urlOf(a).value))
  {
    var assets :- RequestedAssets(arg);
    var f := a => ReadAsset(urlOf, readAt, a);
    var results :- MultiValues(assets, f);
    ReadAgrees(assets, urlOf, readAt, f, results);
    Ok(results)
  }

  /** `metadata(assets)`: the `info` record plus the statistics keyed by
      exactly the requested assets. */
  function Metadata<U, M, S>(arg: AssetsArg, urlOf: Str -> Result<U>, readAt: U -> BandMetadata<M, S>,
                          spatial: SpatialInfo): (r: Result<MetadataRecord<M, S>>)
    ensures !Given(arg) ==> r == Err(MissingAssets)
    ensures Given(arg) ==> var assets := RequestedAssets(arg).value;
      && (r.Ok? <==> forall i :: 0 <= i < |assets| ==> urlOf(assets[i]).Ok?)
      && (r.Err? ==> exists k :: FirstFailure(assets, urlOf, k) && r.error == urlOf(assets[k]).error)
      && (r.Ok? ==> Describes(r.value.info, spatial, assets, InfosOf(ReadAll(assets, urlOf, readAt)))
                    && r.value.statistics.Keys == (set a | a in assets)
                    && forall a :: a in assets ==> r.value.statistics[a] == readAt(urlOf(a).value).statistics)
  {
    var assets :- RequestedAssets(arg);
    var f := a => ReadAsset(urlOf, readAt, a);
    var results :- MultiValues(assets, f);
    ReadAgrees(assets, urlOf, readAt, f, results);
    var infos := map a | a in results :: results[a].info;
    InfosInOrder(assets, urlOf, readAt, results);
    Ok(MetadataRecord(Assemble(spatial, assets, infos), map a | a in results :: results[a].statistics))
  }

  lemma InfosInOrder<U, M, S>(assets: seq<Str>, urlOf: Str -> Result<U>, readAt: U -> BandMetadata<M, S>,
                              results: map<Str, BandMetadata<M, S>>)
    requires forall a :: a in assets ==> urlOf(a).Ok? && a in results && results[a] == readAt(urlOf(a).value)
    ensures forall i :: 0 <= i < |assets| ==> urlOf(assets[i]).Ok?
    ensures var infos := map a | a in results :: results[a].info;
      seq(|assets|, i requires 0 <= i < |assets| => infos[assets[i]]) == InfosOf(ReadAll(assets, urlOf, readAt))
  {
    assert forall i :: 0 <= i < |assets| ==> assets[i] in assets;
  }
}
