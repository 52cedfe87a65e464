# rio-tiler-pds scene readers in Dafny

rio-tiler-pds reads public satellite datasets stored on AWS. Each dataset has
a scene-id parser and a reader class. The parser checks an id against a guard
regular expression and splits it into named fields. The reader turns those
fields into S3 keys and validates band or asset names against a fixed catalog.
Its `info`, `stats` and `metadata` calls fan out over the requested assets.

This project models, in Dafny, the following:

- the parsers for Sentinel-2, Sentinel-1, Landsat collection 1, MODIS and
  CBERS-4 ids;
- the readers for Sentinel-1, Sentinel-2 (L1C, L2A and L2A COG), Landsat 8,
  Landsat collection 2, MODIS (modis-pds and astraea-opendata), CBERS-4
  (current and legacy) and the Copernicus DEM mosaic;
- the shared `MultiBandReader` base.

Module layout follows the source files:

| module | source file |
|---|---|
| `Text`, `Errors` | string helpers and the error kinds |
| `SentinelIds` | `sentinel/utils.py` |
| `Sentinel1` | `sentinel/aws/sentinel1.py` |
| `Sentinel2` | `sentinel/aws/sentinel2.py` |
| `LandsatIds` | `landsat/utils.py` |
| `Landsat8` | `landsat/aws/landsat8.py` |
| `LandsatC2` | `landsat/aws/landsat_collection2.py` |
| `ModisIds` | `modis/utils.py` |
| `ModisPds` | `modis/aws/modis_pds.py` |
| `ModisAstraea` | `modis/aws/modis_astraea.py` |
| `CbersIds` | `cbers/utils.py` |
| `Cbers4` | `cbers/aws/cbers4.py` |
| `LegacyCbers` | `cbers/awspds_cbers.py` |
| `CopernicusDem` | `copernicus/aws/dem.py` |
| `MultiBand` | `reader.py` |

Modelling conventions:

- **Parsers** are functions returning a `Result`. A raised exception becomes
  an `Err` carrying the matching `Error` constructor. `KeyError` and a failed
  `.groupdict()` on `None` (named `NoMatch`) are errors like the others.
- **Regular expressions** are predicates over fixed positions:
  - A pattern ending in `$` is matched against `Body(sceneid)`. That is the id
    with one final newline removed, because Python's `$` also matches before
    a trailing newline.
  - The guard and the `IGNORECASE` capture pattern are kept as two separate
    predicates, and a lemma proves that the guard implies the capture pattern.
- **Readers** are classes whose fields are `const`. The source sets them once,
  in `__attrs_post_init__` or `__enter__`.
  - The constructor requires an id that parses.
  - A `static method Open` mirrors the raising construction path: it returns
    the parser's error or a fresh, valid reader.
- **Outside inputs** are parameters: network fetches, raster reads, the MODIS
  tile grid and the web-mercator tile bounds.

## Model

| member | source | states |
|---|---|---|
| Text.Body | rio_tiler_pds/landsat/utils.py:30-31 | The text a `$`-anchored pattern sees is the id itself or the id minus one final newline, and it is one character shorter exactly when the id ends in a newline. |
| Text.LStrip | rio_tiler_pds/sentinel/utils.py:83-85 | `lstrip(c)` returns a suffix of the input that does not start with `c`, and every character removed was `c`. |
| Text.Lower | rio_tiler_pds/sentinel/aws/sentinel1.py:69 | `lower()` keeps the length and lowers each character in place. |
| Text.ReplaceChar | rio_tiler_pds/cbers/aws/cbers4.py:59 | `str.replace` with a single-character pattern leaves a text without that character unchanged. |
| Text.ReplaceCharAppend | rio_tiler_pds/cbers/aws/cbers4.py:59 | Replacing in a concatenation is the same as replacing in each part. |
| Text.NatToStr | rio_tiler_pds/sentinel/utils.py:83-85 | The decimal rendering of a number is a non-empty digit string with that value and no leading zero. |
| Text.ZeroPad | rio_tiler_pds/copernicus/aws/dem.py:47 | `{:0Nd}` gives a digit string with the number's value, at least N characters long and no longer than needed. |
| Text.JoinSplit | rio_tiler_pds/landsat/utils.py:62-64 | Joining the pieces of a split on a separator gives back the text. |
| Text.SplitJoin | rio_tiler_pds/landsat/utils.py:62-64 | Splitting a join of separator-free pieces gives back the pieces. |
| Text.DigitRunUnique | rio_tiler_pds/sentinel/utils.py:83-85 | A run of digits followed by a non-digit is split the same way in any equal texts. |
| Text.DateSplits | rio_tiler_pds/landsat/utils.py:62-64 | The `"{}-{}-{}"` date of three digit groups splits on '-' back into exactly those groups. |
| Text.ZeroPadInjective | rio_tiler_pds/copernicus/aws/dem.py:47 | Two numbers written with the same `{:0Nd}` width give the same text only when the numbers are equal. |
| SentinelIds.S2Parse | rio_tiler_pds/sentinel/utils.py:9-88 | Accepts an id exactly when it matches the legacy or the new guard. Anything else gives InvalidSentinelSceneId. The captures always have the documented field shapes, and the derived keys are computed from them. A legacy id is re-spelled by its captures; for a new-layout id, `scene` is the id itself. |
| SentinelIds.LegacyCapturesValid | rio_tiler_pds/sentinel/utils.py:29-48 | An id passing the legacy guard yields well-formed captures that spell the id back in legacy order. |
| SentinelIds.NewCapturesValid | rio_tiler_pds/sentinel/utils.py:50-69 | An id passing the new-layout guard yields well-formed captures that spell the id back in new-layout order. |
| SentinelIds.S2LayoutsAgree | rio_tiler_pds/sentinel/utils.py:29-78 | Any valid captures, written in either layout, parse to the same record with those captures. This is the round trip captures → text → captures for both layouts. |
| SentinelIds.S2SceneReparses | rio_tiler_pds/sentinel/utils.py:74-78 | `scene` is the new-layout id, and parsing `scene` again returns the same record. |
| SentinelIds.S2DateSplits | rio_tiler_pds/sentinel/utils.py:79-81 | `date` splits on '-' into the year, month and day captures. |
| SentinelIds.CanonicalDigits | rio_tiler_pds/sentinel/utils.py:83-85 | A digit string without a leading zero is the decimal rendering of its own value. |
| SentinelIds.ShortForm | rio_tiler_pds/sentinel/utils.py:83-85 | `lstrip("0")` of a digit string is its number written without leading zeros; an all-zero string becomes "". |
| SentinelIds.S2ShortFields | rio_tiler_pds/sentinel/utils.py:83-85 | `_utm`, `_month` and `_day` are the zone, month and day numbers without leading zeros. |
| SentinelIds.S2LevelLow | rio_tiler_pds/sentinel/utils.py:86 | `_levelLow` is the processing level in lower case: "l1c" for L1C and "l2a" for L2A. |
| SentinelIds.S1Parse | rio_tiler_pds/sentinel/utils.py:91-152 | The parser as written. It raises InvalidSentinelSceneId exactly when the split guard fails. It succeeds exactly when the id starts `S1[AB]_IW` and matches the case-insensitive pattern. Any other guard-passing id gives NoMatch. On success the captures re-spell the id, the beam is IW, the polarisation is listed and `scene` is the input. |
| SentinelIds.S1TextShape | rio_tiler_pds/sentinel/utils.py:107-136 | A valid capture record written out is 67 characters long, starts `S1A_` or `S1B_` followed by its two-letter beam, and passes the guard's tail and the detailed pattern. Its captures read back unchanged. |
| SentinelIds.S1RoundTrip | rio_tiler_pds/sentinel/utils.py:113-151 | Every valid upper-case IW capture record, written out, parses back to itself with its derived keys. |
| SentinelIds.S1AcceptedOnShape | rio_tiler_pds/sentinel/utils.py:107-146 | An id that passes the IW alternative and the detailed pattern parses to its own captures. |
| SentinelIds.S1DateFields | rio_tiler_pds/sentinel/utils.py:142-151 | Year, month and day are the first eight characters of `startDateTime`. `date` splits back into them, and `_month`/`_day` are those numbers without leading zeros. |
| SentinelIds.S1ParseIntended | rio_tiler_pds/sentinel/utils.py:107-151 | The parser with the guard's beam alternation parenthesised. InvalidSentinelSceneId is returned exactly when the full `S1[AB]_(IW\|EW)_…$` guard fails. Success means an IW or EW id whose captures are read back. |
| SentinelIds.S1EWRejected | rio_tiler_pds/sentinel/utils.py:107-111 | As written, every well-formed EW id is refused as invalid. The intended guard accepts each one with its own captures. |
| SentinelIds.S1IntendedAgreesOnIW | rio_tiler_pds/sentinel/utils.py:107-111 | The written and the intended parser give the same result on every well-formed IW id. |
| SentinelIds.S1PrefixPassesGuard | rio_tiler_pds/sentinel/utils.py:107-140 | As written, "S1A_IW" passes the guard and fails later with NoMatch. The intended guard refuses it as InvalidSentinelSceneId. |
| Sentinel1.S1L1CReader.constructor | rio_tiler_pds/sentinel/aws/sentinel1.py:52-61 | Keeps the record the as-written parser reads from the id (beam IW, captures read back), the (vv, vh) catalog and zooms 8 to 14. |
| Sentinel1.S1L1CReader.Open | rio_tiler_pds/sentinel/aws/sentinel1.py:52-54 | Uses the parser as written. It opens exactly the ids that start `S1[AB]_IW` and match the case-insensitive pattern, so EW ids are refused and lower-case tails are accepted. It passes on the parser's error: InvalidSentinelSceneId exactly when the split guard fails, NoMatch otherwise. |
| Sentinel1.S1L1CReader.ProductInfoKey | rio_tiler_pds/sentinel/aws/sentinel1.py:56-59 | The productInfo.json key lies in the scene folder, which starts with the product and the year. |
| Sentinel1.S1L1CReader.BandUrl | rio_tiler_pds/sentinel/aws/sentinel1.py:63-69 | A band has a URL exactly when it is in the catalog; any other band gives InvalidBandName. The URL is the measurement file under the scene prefix, named after the beam in lower case. |
| Sentinel1.S1L1CReader.BandUrlCatalog | rio_tiler_pds/sentinel/aws/sentinel1.py:44 | Exactly "vv" and "vh" have a URL. The comparison is verbatim, so "VV" is refused. |
| Sentinel1.S1L1CReader.MeasurementFile | rio_tiler_pds/sentinel/aws/sentinel1.py:68-69 | Every opened scene is IW, so the measurement file is `iw-<band>.tiff`, the beam in lower case. |
| Sentinel1.S1L1CReader.PrefixFields | rio_tiler_pds/sentinel/aws/sentinel1.py:50 | The scene prefix holds the month and day without leading zeros and ends with the id itself. |
| Sentinel2.NormaliseBand | rio_tiler_pds/sentinel/aws/sentinel2.py:91 | A three-character name is kept. Any other non-empty name becomes "B0" followed by its last character. The empty name raises IndexError. |
| Sentinel2.NormaliseAliases | rio_tiler_pds/sentinel/aws/sentinel2.py:91 | Normalisation is idempotent, and "B<d>" and "B0<d>" name the same band. |
| Sentinel2.CheckBand | rio_tiler_pds/sentinel/aws/sentinel2.py:91-94 | The name is accepted exactly when its normalised form is in the catalog. Otherwise the result is InvalidBandName with the normalised name, or IndexError for "". |
| Sentinel2.FirstTier | rio_tiler_pds/sentinel/aws/sentinel2.py:196-202 | The lookup returns the resolution of the first tier that lists the band, or nothing when no tier does. |
| Sentinel2.Resolution | rio_tiler_pds/sentinel/aws/sentinel2.py:193-204 | A name starting with "B" gets its first band tier. Otherwise the first product tier is used. A name in neither raises ValueError. |
| Sentinel2.BandTierExamples | rio_tiler_pds/sentinel/aws/sentinel2.py:100-122 | The first band tier listing B02 is 10, for B06 it is 20 and for B01 it is 60. |
| Sentinel2.ProductTierExamples | rio_tiler_pds/sentinel/aws/sentinel2.py:124-131 | The first product tier listing AOT is 10, and for SCL it is 20. |
| Sentinel2.ResolutionExamples | rio_tiler_pds/sentinel/aws/sentinel2.py:100-122 | B02 resolves to 10, B06 to 20 and B01 to 60. |
| Sentinel2.ProductResolutionExamples | rio_tiler_pds/sentinel/aws/sentinel2.py:124-131 | AOT resolves to 10 and SCL to 20. |
| Sentinel2.L2ACatalogResolves | rio_tiler_pds/sentinel/aws/sentinel2.py:133-151 | Every band of the default L2A catalog has a resolution, so the L2A URL never raises ValueError for a catalog band. |
| Sentinel2.TilePrefixFields | rio_tiler_pds/sentinel/aws/sentinel2.py:72-73 | The tile prefix holds the zone, month and day as plain numbers. |
| Sentinel2.CogSceneIdIsScene | rio_tiler_pds/sentinel/aws/sentinel2.py:259-261 | The COG scene id is `scene` when the zone has two significant digits. For zones 1 to 9 it is the new-layout id with a one-digit zone. |
| Sentinel2.FilterByAsset | rio_tiler_pds/sentinel/aws/sentinel2.py:280-286 | A band is kept exactly when some table entry names it and that entry's asset is present. |
| Sentinel2.CogBands | rio_tiler_pds/sentinel/aws/sentinel2.py:274-286 | For STAC 1.0.0-beta.2 the catalog is the default L2A bands that are assets. Otherwise it is the bands whose mapped asset name is present. |
| Sentinel2.FilterKeepsOrder | rio_tiler_pds/sentinel/aws/sentinel2.py:280-286 | The filtered bands keep the table's order. |
| Sentinel2.CogBandsOrder | rio_tiler_pds/sentinel/aws/sentinel2.py:274-286 | The COG catalog lists bands in the order of the default list or of the band map. |
| Sentinel2.S2L1CReader.constructor | rio_tiler_pds/sentinel/aws/sentinel2.py:76-78 | Keeps the parsed record, the L1C catalog, bucket sentinel-s2-l1c and zooms 8 to 14. |
| Sentinel2.S2L1CReader.Open | rio_tiler_pds/sentinel/aws/sentinel2.py:76-78 | Opens exactly the ids the parser accepts and otherwise gives InvalidSentinelSceneId. |
| Sentinel2.S2L1CReader.BandUrl | rio_tiler_pds/sentinel/aws/sentinel2.py:89-97 | The URL exists exactly when the band check passes and carries its error otherwise. It is the `.jp2` file of the normalised band under the tile prefix. |
| Sentinel2.S2L1CReader.BandUrlNamesBand | rio_tiler_pds/sentinel/aws/sentinel2.py:91-97 | Two accepted names give the same URL exactly when they normalise to the same band. |
| Sentinel2.S2L2AReader.constructor | rio_tiler_pds/sentinel/aws/sentinel2.py:170-190 | Keeps the parsed record, the L2A catalog, bucket sentinel-s2-l2a and zooms 8 to 14. |
| Sentinel2.S2L2AReader.Open | rio_tiler_pds/sentinel/aws/sentinel2.py:76-78 | Opens exactly the ids the parser accepts and otherwise gives InvalidSentinelSceneId. |
| Sentinel2.S2L2AReader.BandUrl | rio_tiler_pds/sentinel/aws/sentinel2.py:206-215 | The band-check error is passed on. An accepted band goes under the `R<resolution>m` folder of the tile prefix. On a valid reader every accepted band gets a URL. |
| Sentinel2.S2L2ACOGReader.constructor | rio_tiler_pds/sentinel/aws/sentinel2.py:255-286 | Keeps the parsed record and the catalog filtered by the STAC version and the item's assets, in bucket sentinel-cogs. |
| Sentinel2.S2L2ACOGReader.StacItemUrl | rio_tiler_pds/sentinel/aws/sentinel2.py:259-269 | Both URLs name the same key, `<COG prefix>/<COG scene id>.json`. In bucket sentinel-cogs the HTTPS URL is that key under `https://sentinel-cogs.s3.us-west-2.amazonaws.com/` and the fallback is the key under `s3://sentinel-cogs/`. Both end in `/<COG scene id>.json`. |
| Sentinel2.S2L2ACOGReader.BandUrl | rio_tiler_pds/sentinel/aws/sentinel2.py:288-296 | The URL exists exactly when the band check passes against the filtered catalog. It is the `.tif` under the COG prefix. |
| Sentinel2.S2L2ACOGReader.BandUrlNeedsAsset | rio_tiler_pds/sentinel/aws/sentinel2.py:274-296 | Under STAC beta.2, a band has a URL exactly when its normalised name is a default L2A band and an asset of the item. |
| Sentinel2.OpenJP2Reader | rio_tiler_pds/sentinel/aws/sentinel2.py:309-318 | Dispatch on the processing level: L2A opens the L2A reader and L1C the L1C reader. Any other level is unsupported, and a bad id gives the parser's error. |
| Sentinel2.OpenCOGReader | rio_tiler_pds/sentinel/aws/sentinel2.py:299-306 | Only L2A ids open a COG reader. Other levels are unsupported, and a bad id gives the parser's error. |
| LandsatIds.LandsatParse | rio_tiler_pds/landsat/utils.py:30-66 | Accepts an id exactly when the collection-1 guard matches and otherwise gives InvalidLandsatSceneId. On success the captures re-spell the id, `scene` is the input and `date` is derived. |
| LandsatIds.GuardImpliesDetailed | rio_tiler_pds/landsat/utils.py:30-59 | Every id the guard lets through matches the capture pattern, so the parser never fails on `.groupdict()`. |
| LandsatIds.LandsatRoundTrip | rio_tiler_pds/landsat/utils.py:30-64 | Valid captures, written out, parse back to exactly those captures with their derived keys. |
| LandsatIds.LandsatTextInjective | rio_tiler_pds/landsat/utils.py:34-55 | Distinct valid capture records give distinct ids. |
| LandsatIds.LandsatFields | rio_tiler_pds/landsat/utils.py:41-64 | `date` splits into the acquisition fields, `scene` is the input, and path and row are the two three-digit groups. |
| LandsatIds.LandsatExample | rio_tiler_pds/landsat/utils.py:27-64 | A documented collection-1 id parses to sensor C, satellite 08, L1TP, path 005, row 004, T1 and date 2017-04-10. |
| LandsatIds.ExampleIdValid | rio_tiler_pds/landsat/utils.py:34-55 | The example's capture record has the field shapes the pattern demands. |
| Landsat8.Nodata | rio_tiler_pds/landsat/aws/landsat8.py:137 | The nodata value is 1 for BQA and 0 for every other band. |
| Landsat8.TileAssets | rio_tiler_pds/landsat/aws/landsat8.py:201-206 | A non-empty expression replaces the assets argument. Otherwise a single name is wrapped and a list is kept. |
| Landsat8.L8Reader.constructor | rio_tiler_pds/landsat/aws/landsat8.py:67-80 | Keeps the parsed record, the bounds read from the MTL document and zooms 7 to 12. |
| Landsat8.L8Reader.Open | rio_tiler_pds/landsat/aws/landsat8.py:67-69 | Opens exactly the ids the parser accepts and otherwise gives InvalidLandsatSceneId. |
| Landsat8.L8Reader.MtlKey | rio_tiler_pds/landsat/aws/landsat8.py:70-73 | The MTL key is `<prefix>/<id>_MTL.txt` under `c1/L8/`. |
| Landsat8.L8Reader.AssetUrl | rio_tiler_pds/landsat/aws/landsat8.py:82-88 | An asset has a URL exactly when it is in the catalog; any other asset gives InvalidAssetName. The URL is the `.TIF` under the scene prefix. |
| Landsat8.L8Reader.Request | rio_tiler_pds/landsat/aws/landsat8.py:215-219 | A per-band read carries the asset's URL and nodata 1 exactly for BQA. |
| Landsat8.L8Reader.AssetUrlCatalog | rio_tiler_pds/landsat/aws/landsat8.py:18-31 | On a valid reader exactly the twelve catalog bands have a URL, and distinct assets have distinct URLs. |
| Landsat8.L8Reader.PlanRead | rio_tiler_pds/landsat/aws/landsat8.py:201-213 | No bands gives MissingAssets. With `pan`, B8 is appended to the bands that are read, and the labels stay the requested bands. |
| Landsat8.L8Reader.TileReads | rio_tiler_pds/landsat/aws/landsat8.py:201-233 | Every band to read must be in the catalog, and the first one that is not gives InvalidAssetName. Reads come in order with their URL and nodata, and the labels stay the requested bands. |
| Landsat8.L8Reader.Stats | rio_tiler_pds/landsat/aws/landsat8.py:120-144 | No assets gives MissingAssets. Otherwise the result has one entry per requested asset, read with that asset's nodata, and the first unknown asset gives InvalidAssetName. |
| Landsat8.L8Reader.Metadata | rio_tiler_pds/landsat/aws/landsat8.py:146-185 | No assets gives MissingAssets, and the first unknown asset gives InvalidAssetName. The record describes the requested assets in order. Its statistics are keyed by those assets, each the statistics of that asset's read at its nodata. |
| Landsat8.L8Reader.Info | rio_tiler_pds/reader.py:38-65 | No assets gives MissingAssets, and the first unknown asset gives InvalidAssetName. The record describes the requested assets in order with the reader's spatial info. |
| Landsat8.EmptyNameDiffers | rio_tiler_pds/landsat/aws/landsat8.py:201-210 | The single name "" is MissingAssets for `info` but passes `tile`'s emptiness test as a one-element tuple. |
| Landsat8.PanReadsB8Last | rio_tiler_pds/landsat/aws/landsat8.py:212-237 | With `pan`, B8 is the last band read and dropping it gives back the labels. |
| LandsatC2.StacKey | rio_tiler_pds/landsat/aws/landsat_collection2.py:86-95 | Level 1 reads `<prefix>_stac.json`, and every other level reads `<prefix>_SR_stac.json`. |
| LandsatC2.Geometry | rio_tiler_pds/landsat/aws/landsat_collection2.py:97-109 | A fetched item gives its bbox. NoSuchKey becomes ValueError, and any other client error is re-raised. |
| LandsatC2.LandsatC2Reader.constructor | rio_tiler_pds/landsat/aws/landsat_collection2.py:77-80 | Keeps the supplied scene record, the bounds and zooms 5 to 12. |
| LandsatC2.LandsatC2Reader.Open | rio_tiler_pds/landsat/aws/landsat_collection2.py:77-109 | Given the supplied scene fields, opens exactly when the STAC fetch returns an item, with its bbox as bounds, and otherwise gives Geometry's error. |
| LandsatC2.LandsatC2Reader.BandUrl | rio_tiler_pds/landsat/aws/landsat_collection2.py:111-119 | A band has a URL exactly when it is listed; any other band gives InvalidBandName with the catalog. The URL is `<prefix>_<band>.TIF`. |
| LandsatC2.LandsatC2Reader.BandUrlInjective | rio_tiler_pds/landsat/aws/landsat_collection2.py:111-119 | Band URLs start with the bucket and prefix, and distinct bands have distinct URLs. |
| ModisIds.ModisParse | rio_tiler_pds/modis/utils.py:25-48 | Accepts an id exactly when the guard matches and otherwise gives InvalidMODISSceneId. On success the fields are the id's groups and `scene` is the input. |
| ModisIds.GuardImpliesDetailed | rio_tiler_pds/modis/utils.py:25-42 | Every guard-passing id matches the capture pattern. |
| ModisIds.ModisRoundTrip | rio_tiler_pds/modis/utils.py:25-47 | Valid fields, written out with any six-digit tail, parse back to exactly those fields. |
| ModisIds.ParsedFromCaptures | rio_tiler_pds/modis/utils.py:29-46 | A record read back from an id is that id's captures, so the parse result is unique. |
| ModisIds.StampFields | rio_tiler_pds/modis/utils.py:29-41 | Year and day-of-year are the first seven digits of the production stamp. `date` is the seven digits after ".A", and the grids are the digits after 'h' and 'v'. |
| ModisIds.ExampleValid | rio_tiler_pds/modis/utils.py:22 | The documented example's fields have the shapes the pattern demands. |
| ModisIds.ModisExample | rio_tiler_pds/modis/utils.py:22-47 | The documented MCD43A4 id parses to product MCD43A4, date 2017006, grid h21v11, version 006, year 2017 and day 018. |
| ModisPds.ProductTable | rio_tiler_pds/modis/aws/modis_pds.py:66-72 | Exactly five products are supported, and Terra and Aqua share each catalog. "B1" is never a band and "B01" always is. |
| ModisPds.ExamplePrefix | rio_tiler_pds/modis/aws/modis_pds.py:102 | The example's prefix is `MCD43A4.006/21/11/2017006`. |
| ModisPds.MODISReader.constructor | rio_tiler_pds/modis/aws/modis_pds.py:104-116 | Keeps the parsed record, the product's catalog, the grid bounds and zooms 4 to 9. |
| ModisPds.MODISReader.Open | rio_tiler_pds/modis/aws/modis_pds.py:104-116 | Returns the parser's error first, then InvalidMODISProduct for an unsupported product. Otherwise it opens with that product's catalog. |
| ModisPds.MODISReader.BandUrl | rio_tiler_pds/modis/aws/modis_pds.py:126-132 | A band has a URL exactly when it is listed verbatim; any other band gives InvalidBandName. The URL is `<prefix>/<id>_<band>.TIF` in modis-pds. |
| ModisPds.MODISReader.BandUrlCatalog | rio_tiler_pds/modis/aws/modis_pds.py:126-132 | "B1" is refused and "B01" accepted. URLs start with the bucket and prefix, and distinct bands have distinct URLs. |
| ModisPds.MODISReader.ExampleReader | rio_tiler_pds/modis/aws/modis_pds.py:87-88 | The example scene has the MCD43A4 catalog, refuses "granule" and puts B01 under `MCD43A4.006/21/11/2017006`. |
| ModisAstraea.Normalize | rio_tiler_pds/modis/aws/modis_astraea.py:136 | A name starting with "B" and shorter than three characters becomes "B0" plus its last character. Every other name is kept. |
| ModisAstraea.NormalizeFacts | rio_tiler_pds/modis/aws/modis_astraea.py:136 | The rule is idempotent, "B<d>" and "B0<d>" agree, and a bare "B" becomes "B0B". |
| ModisAstraea.FilenamePrefix | rio_tiler_pds/modis/aws/modis_astraea.py:141-146 | MOD11A1/MYD11A1 and MOD13A1/MYD13A1 look up their prefix table, and a missing band is a KeyError. Every other product uses "". |
| ModisAstraea.PrefixTablesCover | rio_tiler_pds/modis/aws/modis_astraea.py:32-83 | Both prefix tables have exactly the bands of the shared MODIS catalog. |
| ModisAstraea.ProductTable | rio_tiler_pds/modis/aws/modis_astraea.py:47-53 | Exactly five products are supported, and the four non-MCD43A4 ones share the MODIS catalog. |
| ModisAstraea.PrefixDefined | rio_tiler_pds/modis/aws/modis_astraea.py:138-146 | Every catalog band of a supported product has a filename prefix, so the URL never raises KeyError. |
| ModisAstraea.AstraeaReader.constructor | rio_tiler_pds/modis/aws/modis_astraea.py:120-132 | Keeps the parsed record, the product's catalog, the grid bounds and the given zooms. |
| ModisAstraea.AstraeaReader.Open | rio_tiler_pds/modis/aws/modis_astraea.py:120-127 | Returns the parser's error, then InvalidMODISProduct. Otherwise it opens with that product's catalog and zooms 4 to 9. |
| ModisAstraea.AstraeaReader.BandUrl | rio_tiler_pds/modis/aws/modis_astraea.py:134-149 | The normalised name must be in the catalog, or the result is InvalidBandName. The URL is `<prefix>/<id>_<filename prefix><band>.TIF`. |
| ModisAstraea.AstraeaReader.BandUrlCatalog | rio_tiler_pds/modis/aws/modis_astraea.py:136-139 | On a valid reader a band has a URL exactly when its normalised name is listed. |
| ModisAstraea.AstraeaReader.AliasSameUrl | rio_tiler_pds/modis/aws/modis_astraea.py:136 | "B<d>" and "B0<d>" give the same result. |
| ModisAstraea.AstraeaReader.FirstBandAlias | rio_tiler_pds/modis/aws/modis_astraea.py:136-139 | "granule" is refused, "B01" is accepted, and "B1" is the same URL as "B01". |
| ModisAstraea.AstraeaReader.FirstBandFileName | rio_tiler_pds/modis/aws/modis_astraea.py:141-149 | "B1" names the file `LSTD_B01`, `NDVI_B01` or `B01` according to the product. |
| CbersIds.LastSplit | rio_tiler_pds/cbers/utils.py:29-32 | Finds the last position where the greedy `\w+_[0-9]_` split can end, or reports that there is none. |
| CbersIds.CbersFields | rio_tiler_pds/cbers/utils.py:25-49 | Accepts an id exactly when the guard matches and otherwise gives InvalidCBERSSceneId. On success the groups re-spell the id with a greedy satellite, `scene` is the input and `date` is derived. |
| CbersIds.CbersParse | rio_tiler_pds/cbers/utils.py:25-74 | Gives the groups plus the instrument's row of the table. An unknown instrument is a KeyError. |
| CbersIds.GuardImpliesDetailed | rio_tiler_pds/cbers/utils.py:25-45 | Every guard-passing id matches the capture pattern. |
| CbersIds.CapturesGreedy | rio_tiler_pds/cbers/utils.py:29-32 | The split chosen leaves no later split point, as Python's greedy `\w+` does. |
| CbersIds.CbersRoundTrip | rio_tiler_pds/cbers/utils.py:28-49 | Valid greedy captures, written out, parse back to exactly those captures. |
| CbersIds.ParsedFromUnique | rio_tiler_pds/cbers/utils.py:45-49 | Any record read back from an id is the parser's result. |
| CbersIds.PlainInstrument | rio_tiler_pds/cbers/utils.py:28-45 | For `CBERS_4_<w>_…` with no '_' in `w`, the satellite is CBERS, the mission 4 and the instrument `w`. |
| CbersIds.InstrumentTable | rio_tiler_pds/cbers/utils.py:51-69 | Each instrument's reference band and its three RGB bands are in its band list. PAN5M's list is exactly ("B1",). |
| CbersIds.BandNameShape | rio_tiler_pds/cbers/utils.py:51-69 | Every catalog band is "B" followed by digits. |
| CbersIds.ReferenceBandListed | rio_tiler_pds/cbers/utils.py:70-71 | The reference band of a parsed scene is in its band list. |
| CbersIds.MuxExampleText | rio_tiler_pds/cbers/utils.py:22 | The example MUX captures are valid and spell `CBERS_4_MUX_20171121_057_094_L2`. |
| CbersIds.MuxSceneParsed | rio_tiler_pds/cbers/utils.py:22-74 | The example parses to those captures, date 2017-11-21 and the MUX row. |
| CbersIds.MuxFields | rio_tiler_pds/cbers/utils.py:22-49 | The example's groups are the MUX captures with date 2017-11-21. |
| CbersIds.MuxPrefixText | rio_tiler_pds/cbers/utils.py:47-49 | The example starts with `CBERS_4_`, and its date is 2017-11-21. |
| CbersIds.MissingLevelRefused | rio_tiler_pds/cbers/utils.py:25-26 | An id without the processing-level group is refused. |
| Cbers4.FileBand | rio_tiler_pds/cbers/aws/cbers4.py:59 | A name without 'B' is unchanged by `replace("B", "BAND")`. |
| Cbers4.FileBandOfBandName | rio_tiler_pds/cbers/aws/cbers4.py:59 | "B" followed by digits becomes "BAND" followed by the same digits. |
| Cbers4.CBERSReader.constructor | rio_tiler_pds/cbers/aws/cbers4.py:39-51 | Keeps the parsed record and instrument row. Bounds and zooms come from the reference band's file. |
| Cbers4.CBERSReader.Open | rio_tiler_pds/cbers/aws/cbers4.py:39-42 | Opens exactly the ids the parser accepts, passes on its error, and sets the catalog to the instrument's bands. |
| Cbers4.CBERSReader.AssetUrl | rio_tiler_pds/cbers/aws/cbers4.py:53-60 | An asset has a URL exactly when it is in the catalog; any other asset gives InvalidAssetName. |
| Cbers4.CBERSReader.ReferenceBandValid | rio_tiler_pds/cbers/aws/cbers4.py:44-49 | The reference band and each RGB band of a valid reader pass validation. |
| Cbers4.CBERSReader.AssetUrlCatalog | rio_tiler_pds/cbers/aws/cbers4.py:53-60 | Every accepted asset is "B" plus digits, and its file name is "BAND" plus those digits. "BAND5" is refused. |
| Cbers4.CBERSReader.Pan5mAssets | rio_tiler_pds/cbers/utils.py:68 | A PAN5M scene accepts exactly "B1". "" and "B" are refused. |
| Cbers4.CBERSReader.Info | rio_tiler_pds/reader.py:38-65 | No assets gives MissingAssets, and the first unknown asset gives InvalidAssetName. Otherwise the record describes the requested assets in order. |
| Cbers4.CBERSReader.Stats | rio_tiler_pds/reader.py:67-89 | No assets gives MissingAssets, and the first unknown asset gives InvalidAssetName. Otherwise there is one entry per requested asset, read from its URL. |
| Cbers4.CBERSReader.Metadata | rio_tiler_pds/reader.py:91-128 | No assets gives MissingAssets, and the first unknown asset gives InvalidAssetName. The record describes the requested assets in order. Its statistics are keyed by those assets, each the statistics read from that asset's URL. |
| Cbers4.MuxPrefix | rio_tiler_pds/cbers/aws/cbers4.py:35-37 | The example MUX scene's folder is `s3://cbers-pds/CBERS4/MUX/057/094/<id>/`. |
| Cbers4.MuxUrl | rio_tiler_pds/cbers/aws/cbers4.py:58-60 | B6 of the example lives at `<folder><id>_BAND6.tif`. |
| Cbers4.MuxReader | rio_tiler_pds/cbers/aws/cbers4.py:35-60 | A reader on the example has bands B5 to B8, and B6 has that URL. |
| LegacyCbers.CbersParser | rio_tiler_pds/cbers/awspds_cbers.py:28-77 | Same acceptance and errors as the current parser, with the legacy table's row. |
| LegacyCbers.TablesAgree | rio_tiler_pds/cbers/awspds_cbers.py:55-72 | The legacy and current tables agree except that PAN5M's bands are the bare string "B1". |
| LegacyCbers.ParsersAgree | rio_tiler_pds/cbers/awspds_cbers.py:28-52 | The legacy parser accepts and refuses the same ids with the same groups and errors. |
| LegacyCbers.SubstringsOfB1 | rio_tiler_pds/cbers/awspds_cbers.py:71 | The substrings of "B1" are "", "B", "1" and "B1". |
| LegacyCbers.AWSPDSCbersReader.constructor | rio_tiler_pds/cbers/awspds_cbers.py:92-104 | Keeps the parsed record and legacy row. Bounds and zooms come from the reference band's file. |
| LegacyCbers.AWSPDSCbersReader.Open | rio_tiler_pds/cbers/awspds_cbers.py:92-95 | Opens exactly the ids the parser accepts and passes on its error. |
| LegacyCbers.AWSPDSCbersReader.AssetUrl | rio_tiler_pds/cbers/awspds_cbers.py:106-113 | Validation is Python's `in`: tuple membership, or a substring test for a bare string. |
| LegacyCbers.AWSPDSCbersReader.ReferenceBandValid | rio_tiler_pds/cbers/awspds_cbers.py:97 | The reference band passes validation for every instrument. |
| LegacyCbers.AWSPDSCbersReader.Pan5mAssets | rio_tiler_pds/cbers/awspds_cbers.py:106-113 | A PAN5M scene accepts exactly "", "B", "1" and "B1". The file band of "" is "" and that of "B" is "BAND". |
| LegacyCbers.AWSPDSCbersReader.OtherAssets | rio_tiler_pds/cbers/awspds_cbers.py:55-70 | For the other instruments the legacy reader accepts exactly the current catalog. |
| CopernicusDem.TruncTowardZero | rio_tiler_pds/copernicus/aws/dem.py:171-174 | `int(x)` rounds toward zero. |
| CopernicusDem.CellFloors | rio_tiler_pds/copernicus/aws/dem.py:200-204 | The hemisphere letter and the absolute value give back the floored coordinate, and 'S'/'W' always carry at least 1. |
| CopernicusDem.SameCellIffSameFloors | rio_tiler_pds/copernicus/aws/dem.py:198-208 | Two points get the same cell exactly when their floors agree. |
| CopernicusDem.CellOfCorner | rio_tiler_pds/copernicus/aws/dem.py:200-204 | A point and its cell's south-west corner get the same cell. |
| CopernicusDem.CellExamples | rio_tiler_pds/copernicus/aws/dem.py:200-204 | Sample points: 0 to N00/E000, 9.9 to N09/E009, -9.9 to S10/W010, and -0.1 to S01/W001. |
| CopernicusDem.NorthEastName | rio_tiler_pds/copernicus/aws/dem.py:47 | The N09/E009 name is `Copernicus_DSM_COG_10_N09_00_E009_00_DEM`. |
| CopernicusDem.SouthWestName | rio_tiler_pds/copernicus/aws/dem.py:47 | The S10/W010 name is `Copernicus_DSM_COG_10_S10_00_W010_00_DEM`. |
| CopernicusDem.PadExamples | rio_tiler_pds/copernicus/aws/dem.py:47 | `{:02d}` and `{:03d}` pad 0, 9 and 10 to two and three digits. |
| CopernicusDem.NamesUnique | rio_tiler_pds/copernicus/aws/dem.py:206-208 | Two cells with the same name are the same cell. |
| CopernicusDem.Column | rio_tiler_pds/copernicus/aws/dem.py:178-181 | The inner loop yields one entry for each y from y0 to y1. |
| CopernicusDem.ColumnIndex | rio_tiler_pds/copernicus/aws/dem.py:178-181 | Entry j of a column is the cell (x, y0+j). |
| CopernicusDem.GridLength | rio_tiler_pds/copernicus/aws/dem.py:177-181 | The nested loops yield (columns × rows) entries. |
| CopernicusDem.GridIndex | rio_tiler_pds/copernicus/aws/dem.py:177-181 | Entry `i*rows + j` is the cell (x0+i, y0+j), column by column. |
| CopernicusDem.GridEntry | rio_tiler_pds/copernicus/aws/dem.py:177-181 | Every entry is some cell of the range at that index. |
| CopernicusDem.GridMembership | rio_tiler_pds/copernicus/aws/dem.py:177-181 | For an injective naming, a cell's name is in the list exactly when the cell lies in the range. |
| CopernicusDem.GridDistinct | rio_tiler_pds/copernicus/aws/dem.py:177-183 | For an injective naming, the list has no duplicates. |
| CopernicusDem.TruncShift | rio_tiler_pds/copernicus/aws/dem.py:171-174 | For a non-negative shifted coordinate, `int(v + s)` is the floor of v plus s. |
| CopernicusDem.ShiftedCorners | rio_tiler_pds/copernicus/aws/dem.py:171-183 | The shifted floor of any coordinate inside the box lies between the truncated shifted corners. |
| CopernicusDem.Reversed | rio_tiler_pds/copernicus/aws/dem.py:61 | `list(reversed(...))` keeps the length and mirrors positions. |
| CopernicusDem.ReversedPermutes | rio_tiler_pds/copernicus/aws/dem.py:61 | Reversing the asset list keeps the same assets (a permutation). |
| CopernicusDem.ReversedTwice | rio_tiler_pds/copernicus/aws/dem.py:61 | Reversing twice gives back the list. |
| CopernicusDem.DemReader.Dem30 | rio_tiler_pds/copernicus/aws/dem.py:29-48 | Bucket copernicus-dem-30m, code COG_10, zooms 7 to 8, world bounds. |
| CopernicusDem.DemReader.Dem90 | rio_tiler_pds/copernicus/aws/dem.py:212-235 | Bucket copernicus-dem-90m, code COG_30, zooms 6 to 7, world bounds. |
| CopernicusDem.DemReader.CellUrlInjective | rio_tiler_pds/copernicus/aws/dem.py:206-209 | Distinct cells have distinct URLs. |
| CopernicusDem.DemReader.SameUrlIffSameCell | rio_tiler_pds/copernicus/aws/dem.py:198-209 | Two points get the same dataset URL exactly when their floors agree. |
| CopernicusDem.DemReader.AssetsForPoint | rio_tiler_pds/copernicus/aws/dem.py:185-196 | A point maps to exactly one dataset. |
| CopernicusDem.DemReader.AssetsForBbox | rio_tiler_pds/copernicus/aws/dem.py:152-183 | The loop produces the grid of dataset URLs over the truncated shifted corners, column by column. |
| CopernicusDem.DemReader.GridAssets | rio_tiler_pds/copernicus/aws/dem.py:176-183 | The nested loops produce exactly the grid list, with the grid lemmas as loop invariants. |
| CopernicusDem.DemReader.GridUrlInjective | rio_tiler_pds/copernicus/aws/dem.py:179-181 | Grid cells map to distinct URLs. |
| CopernicusDem.DemReader.BboxCoversPoint | rio_tiler_pds/copernicus/aws/dem.py:171-183 | Every point inside the box has its dataset in the box's list. |
| CopernicusDem.DemReader.PointIsDegenerateBox | rio_tiler_pds/copernicus/aws/dem.py:171-196 | A zero-size box lists exactly the point's dataset. |
| CopernicusDem.DemReader.BboxExample | rio_tiler_pds/copernicus/aws/dem.py:171-183 | The box (10,10)-(11,11) lists four datasets, column by column. |
| CopernicusDem.DemReader.Dem30Example | rio_tiler_pds/copernicus/aws/dem.py:198-209 | On the 30 m reader, (-9.9, -9.9) maps to the S10/W010 file. |
| CopernicusDem.DemReader.TileCandidates | rio_tiler_pds/copernicus/aws/dem.py:50-61 | The tile's assets are the box list of the tile bounds, reversed when asked, and reversing again gives the box list. |
| CopernicusDem.DemReader.PointCandidates | rio_tiler_pds/copernicus/aws/dem.py:80-91 | The point reads the single dataset of its cell in either order. |
| CopernicusDem.DemReader.Info | rio_tiler_pds/copernicus/aws/dem.py:107-121 | One float32 band, with the reader's bounds and zooms. |
| CopernicusDem.DemReader.StatisticsCell | rio_tiler_pds/copernicus/aws/dem.py:123-128 | Statistics read the cell of (6, 0) for 30 m and of (-164, -90) for 90 m. |
| MultiBand.RequestedAssets | rio_tiler_pds/reader.py:42-46 | A missing or empty argument is MissingAssets. A single name is wrapped, and a list is kept. |
| MultiBand.MultiValues | rio_tiler_pds/reader.py:53 | Every asset is read; the first failure is raised. On success the keys are exactly the assets, each with its own value. |
| MultiBand.ReadAll | rio_tiler_pds/reader.py:53-58 | Reading the assets in request order gives one value per asset, each read from that asset's URL. |
| MultiBand.Names | rio_tiler_pds/reader.py:59 | The names of a description list are its second components, in order. |
| MultiBand.ReadInOrder | rio_tiler_pds/reader.py:55-63 | The per-asset lists follow the request order, and the first failure is raised. |
| MultiBand.ReadAsset | rio_tiler_pds/reader.py:48-51 | A read validates the asset first and passes on its error. |
| MultiBand.CenterOf | rio_tiler_pds/reader.py:19-26 | For any bounds, antimeridian-crossing ones included, the center is the midpoint of west/east and of south/north, at minzoom. It lies between them when they are ordered. |
| MultiBand.Spatial | rio_tiler_pds/reader.py:28-36 | The spatial info holds the bounds, the center and the zooms. |
| MultiBand.Assemble | rio_tiler_pds/reader.py:54-64 | The record carries per-asset metadata, descriptions and colour interpretation in request order. dtype and nodata_type come from the first asset. |
| MultiBand.DescriptionsRecoverRequest | rio_tiler_pds/reader.py:59 | The band descriptions give back the requested names, numbered in increasing order. |
| MultiBand.Info | rio_tiler_pds/reader.py:38-65 | No assets gives MissingAssets, and the first invalid asset gives its error. Otherwise the record describes every requested asset. |
| MultiBand.Stats | rio_tiler_pds/reader.py:67-89 | No assets gives MissingAssets, and the first invalid asset gives its error. Otherwise the keys are the requested assets, each read from its URL. |
| MultiBand.Metadata | rio_tiler_pds/reader.py:91-128 | Same acceptance as Info. The record describes the assets, and its statistics are keyed by them. |

## Left out

- I/O is not modelled:
  - Fetches of productInfo.json, tileInfo.json, STAC items and MTL documents are left out or replaced by function parameters.
  - COG opens are function parameters (`openCog`, `readAt`, `fetch`, `tileBbox`, `tileBounds`).
  - Raster reads, mosaicking, `dn_to_toa`, `_convert_stats` and pansharpening are left out.
- Bounds that come from a fetched document (footprints, MTL) enter the constructors as values.
- The Sentinel-1 reader's `bounds` is left out, because it comes from the fetched footprint.
- Regular expressions use ASCII classes only: `\d`, `\w` and `IGNORECASE` folding of non-ASCII characters are not modelled.
- Coordinates are Dafny reals, not floating point. `int(...)` and `math.floor` are modelled exactly on reals.
- The DEM CRS paths are not modelled (`transform_bounds` at copernicus/aws/dem.py:161-170, `transform_coords` at 192-194). Nor is the tile matrix set at 147-149. The boxes are taken in WGS84.
- DEM `preview`, `part` and `feature` only raise NotImplementedError and are not modelled. DEM `statistics` is modelled only by the file it reads.
- A point at latitude -0.1 maps to S01, following `abs(math.floor(lat))` in the code, not to S00.
- Bucket, prefix-pattern and reader-option overrides are not modelled; only the defaults are.
- LandsatC2 takes `_processingLevelNum`, `category`, `_sensor_s3_prefix` and the band list as a supplied scene record. The reader imports the collection-1 `sceneid_parser` of landsat/utils.py, which yields none of these keys. As written, `__attrs_post_init__` therefore raises KeyError('bands') at line 77 for every id the guard accepts, and InvalidLandsatSceneId for all other ids. The model leaves out that parse step and models lines 77-119 with `scene_params` being the supplied record.
- `MultiBandReader.stats` passes `*kwargs` (reader.py:88) where `**kwargs` is meant. The model drops the extra options.
- `tile`, `part`, `preview` and `point` of the Landsat 8 reader are modelled only up to the band list they read (PlanRead, TileReads).
- Sentinel1.S1L1CReader.ProductInfoKey: states the key's shape, not the full text.
- CopernicusDem.DemReader.AssetsForPoint: states only that one dataset is listed. PointIsDegenerateBox and PointCandidates say which dataset it is.
- Sentinel-2 tileInfo.json keys are built but not given a contract, because the fetch itself is I/O.

## Findings

| source | as written | input that shows it | evidently intended | confidence | as-written member | corrected member |
|---|---|---|---|---|---|---|
| rio_tiler_pds/sentinel/utils.py:108 | The guard `^S1[AB]_(IW)\|(EW)_…$` is an alternation of `^S1[AB]_(IW)` and `(EW)_…$`. Every EW scene id is refused, and any id starting `S1A_IW` passes the guard. | `S1A_EW_GRDM_1SDH_20180716T004042_20180716T004107_022812_02792A_FD5B` gives InvalidSentinelSceneId; `S1A_IW` fails later with NoMatch | `^S1[AB]_(IW\|EW)_…$`, accepting IW and EW ids and refusing anything else as InvalidSentinelSceneId | not executed | SentinelIds.S1EWRejected | SentinelIds.S1ParseIntended |
| rio_tiler_pds/cbers/awspds_cbers.py:71 | The PAN5M band list `("B1")` is the string "B1", not a tuple, so `asset in self.assets` is a substring test. | asset "" or "B" on a PAN5M scene is accepted and maps to `<id>_.tif` or `<id>_BAND.tif` | the one-element tuple `("B1",)`, accepting only "B1" | not executed | LegacyCbers.AWSPDSCbersReader.Pan5mAssets | Cbers4.CBERSReader.Pan5mAssets |

The Sentinel-1 reader opens scenes with the parser as written (`S1Parse`), as the
source does. `S1ParseIntended` is the corrected parser, and the lemmas above
relate the two. The current CBERS-4 reader (`Cbers4`) uses the corrected PAN5M
row. The legacy reader is kept as written.
