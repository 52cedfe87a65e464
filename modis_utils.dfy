/** The MODIS scene-id parser of rio_tiler_pds/modis/utils.py
    (`sceneid_parser`): a case-sensitive guard, then a fixed-width capture
    pattern read under IGNORECASE, plus the `scene` key.  The acquisition
    year and day of year are read from the 13-digit production stamp at the
    end of the id, not from the `A` date. */
module ModisIds {
  import opened Text
  import opened Errors

  /** The named groups, in pattern order. */
  datatype ModisParams = ModisParams(
    product: Str, date: Str, horizontalGrid: Str, verticalGrid: Str, version: Str,
    acquisitionYear: Str, acquisitionDOY: Str, scene: Str)

  /** `^M[COY]D[0-9]{2}[A-Z0-9]{2}\.A[0-9]{4}[0-9]{3}\.h[0-9]{2}v[0-9]{2}\.[0-9]{3}\.[0-9]{13}$`
      over the id without a final newline: 41 characters.  The stamp's
      digits are checked per capture (year, day of year, the rest). */
  predicate ModisGuard(b: Str) {
    |b| == 41 && b[0] == 'M' && b[1] in "COY" && b[2] == 'D'
    && AllDigits(b[3..5]) && AllUpperOrDigit(b[5..7]) && b[7] == '.'
    && b[8] == 'A' && AllDigits(b[9..16]) && b[16] == '.'
    && b[17] == 'h' && AllDigits(b[18..20]) && b[20] == 'v' && AllDigits(b[21..23]) && b[23] == '.'
    && AllDigits(b[24..27]) && b[27] == '.'
    && AllDigits(b[28..32]) && AllDigits(b[32..35]) && AllDigits(b[35..41])
  }

  /** The capture pattern under IGNORECASE. */
  predicate ModisDetailed(b: Str) {
    |b| == 41 && UpperChar(b[0]) == 'M' && UpperChar(b[1]) in "COY" && UpperChar(b[2]) == 'D'
    && AllDigits(b[3..5]) && AllAlnum(b[5..7]) && b[7] == '.'
    && UpperChar(b[8]) == 'A' && AllDigits(b[9..16]) && b[16] == '.'
    && UpperChar(b[17]) == 'H' && AllDigits(b[18..20]) && UpperChar(b[20]) == 'V'
    && AllDigits(b[21..23]) && b[23] == '.'
    && AllDigits(b[24..27]) && b[27] == '.'
    && AllDigits(b[28..32]) && AllDigits(b[32..35]) && AllDigits(b[35..41])
  }

  function ModisCaptures(b: Str, sceneid: Str): ModisParams
    requires |b| == 41
  {
    ModisParams(b[0..7], b[9..16], b[18..20], b[21..23], b[24..27], b[28..32], b[32..35], sceneid)
  }

  /** The id written from its captures and the six uncaptured stamp digits. */
  function ModisText(p: ModisParams, tail: Str): Str {
    p.product + ".A" + p.date + ".h" + p.horizontalGrid + "v" + p.verticalGrid + "."
    + p.version + "." + p.acquisitionYear + p.acquisitionDOY + tail
  }

  /** Captures of an id the guard accepts. */
  predicate ValidModisFields(p: ModisParams) {
    && |p.product| == 7 && p.product[0] == 'M' && p.product[1] in "COY" && p.product[2] == 'D'
    && AllDigits(p.product[3..5]) && AllUpperOrDigit(p.product[5..])
    && |p.date| == 7 && AllDigits(p.date)
    && |p.horizontalGrid| == 2 && AllDigits(p.horizontalGrid)
    && |p.verticalGrid| == 2 && AllDigits(p.verticalGrid)
    && |p.version| == 3 && AllDigits(p.version)
    && |p.acquisitionYear| == 4 && AllDigits(p.acquisitionYear)
    && |p.acquisitionDOY| == 3 && AllDigits(p.acquisitionDOY)
  }

  /** What a successful parse returns: valid captures that, with the
      stamp's last six digits, spell the id, and `scene` the input. */
  predicate ModisParsedFrom(p: ModisParams, sceneid: Str) {
    && ValidModisFields(p)
    && |Body(sceneid)| == 41
    && ModisText(p, Body(sceneid)[35..]) == Body(sceneid)
    && p.scene == sceneid
  }

  /** `sceneid_parser`.  An id failing the guard raises InvalidMODISSceneId;
      every id the guard accepts also matches the capture pattern. */
  function ModisParse(sceneid: Str): (r: Result<ModisParams>)
    ensures r.Ok? <==> ModisGuard(Body(sceneid))
    ensures r.Err? ==> r.error == InvalidMODISSceneId(sceneid)
    ensures r.Ok? ==> ModisParsedFrom(r.value, sceneid)
  {
    var b := Body(sceneid);
    if !ModisGuard(b) then Err(InvalidMODISSceneId(sceneid))
    else if !ModisDetailed(b) then
      GuardImpliesDetailed(b);
      assert false;
      Err(NoMatch(sceneid))
    else
      ModisParseOk(b, sceneid);
      Ok(ModisCaptures(b, sceneid))
  }

  /** The guard is stricter than the capture pattern. */
  lemma GuardImpliesDetailed(b: Str)
    requires ModisGuard(b)
    ensures ModisDetailed(b)
  {
    assert AllAlnum(b[5..7]) by {
      assert forall i :: 0 <= i < 2 ==> IsUpperOrDigit(b[5..7][i]);
    }
  }

  lemma ModisParseOk(b: Str, sceneid: Str)
    requires ModisGuard(b) && b == Body(sceneid)
    ensures ModisParsedFrom(ModisCaptures(b, sceneid), sceneid)
  {
    var p := ModisCaptures(b, sceneid);
    assert p.product[3..5] == b[3..5] && p.product[5..] == b[5..7];
    CapturesText(b, sceneid);
  }

  lemma CapturesText(b: Str, sceneid: Str)
    requires |b| == 41 && b[7] == '.' && b[8] == 'A' && b[16] == '.' && b[17] == 'h'
    requires b[20] == 'v' && b[23] == '.' && b[27] == '.'
    ensures ModisText(ModisCaptures(b, sceneid), b[35..]) == b
  {
    assert b[..0] == [];
    PrefixStep(b, 0, 7);
    assert ".A" == b[7..9];
    PrefixStep(b, 7, 9);
    PrefixStep(b, 9, 16);
    assert ".h" == b[16..18];
    PrefixStep(b, 16, 18);
    PrefixStep(b, 18, 20);
    PrefixStep(b, 20, 21);
    PrefixStep(b, 21, 23);
    PrefixStep(b, 23, 24);
    PrefixStep(b, 24, 27);
    PrefixStep(b, 27, 28);
    PrefixStep(b, 28, 32);
    PrefixStep(b, 32, 35);
    PrefixStep(b, 35, 41);
    assert b[..41] == b;
  }

  /** Where each capture sits in the written id. */
  lemma {:induction false} TextSlices(p: ModisParams, tail: Str)
    requires ValidModisFields(p) && |tail| == 6
    ensures var t := ModisText(p, tail);
      && |t| == 41 && ModisCaptures(t, p.scene) == p && t[35..] == tail
      && t[7..9] == ".A" && t[16..18] == ".h" && t[20..21] == "v" && t[23..24] == "." && t[27..28] == "."
  {
    var p1 := p.product + ".A";
    var p2 := p1 + p.date;
    var p3 := p2 + ".h";
    var p4 := p3 + p.horizontalGrid;
    var p5 := p4 + "v";
    var p6 := p5 + p.verticalGrid;
    var p7 := p6 + ".";
    var p8 := p7 + p.version;
    var p9 := p8 + ".";
    var p10 := p9 + p.acquisitionYear;
    var p11 := p10 + p.acquisitionDOY;
    var t := p11 + tail;
    assert t == ModisText(p, tail);
    assert t[..41] == t;
    Peel(t, 41, p11, tail);
    Peel(t, 35, p10, p.acquisitionDOY);
    Peel(t, 32, p9, p.acquisitionYear);
    Peel(t, 28, p8, ".");
    Peel(t, 27, p7, p.version);
    Peel(t, 24, p6, ".");
    Peel(t, 23, p5, p.verticalGrid);
    Peel(t, 21, p4, "v");
    Peel(t, 20, p3, p.horizontalGrid);
    Peel(t, 18, p2, ".h");
    Peel(t, 16, p1, p.date);
    Peel(t, 9, p.product, ".A");
  }

  /** The written id of valid captures passes the guard. */
  lemma TextGuarded(p: ModisParams, tail: Str)
    requires ValidModisFields(p) && |tail| == 6 && AllDigits(tail)
    ensures ModisGuard(ModisText(p, tail)) && Body(ModisText(p, tail)) == ModisText(p, tail)
  {
    var t := ModisText(p, tail);
    TextSlices(p, tail);
    assert t[..7] == p.product by { assert t[..7] == ModisCaptures(t, p.scene).product; }
    assert t[0] == p.product[0] && t[1] == p.product[1] && t[2] == p.product[2];
    assert t[3..5] == p.product[3..5] && t[5..7] == p.product[5..];
    assert t[7] == t[7..9][0] && t[8] == t[7..9][1];
    assert t[16] == t[16..18][0] && t[17] == t[16..18][1];
    assert t[20] == t[20..21][0] && t[23] == t[23..24][0] && t[27] == t[27..28][0];
    assert t[40] == tail[5];
  }

  /** Every id written from valid captures is accepted and reads back those
      captures, with `scene` the id itself. */
  lemma ModisRoundTrip(p: ModisParams, tail: Str)
    requires ValidModisFields(p) && |tail| == 6 && AllDigits(tail)
    requires p.scene == ModisText(p, tail)
    ensures ModisParse(ModisText(p, tail)) == Ok(p)
  {
    TextGuarded(p, tail);
    TextSlices(p, tail);
  }

  /** A successful parse is determined by the id: its fields are the
      fixed-width slices of the id. */
  lemma ParsedFromCaptures(p: ModisParams, sceneid: Str)
    requires ModisParsedFrom(p, sceneid)
    ensures p == ModisCaptures(Body(sceneid), sceneid)
  {
    TextSlices(p, Body(sceneid)[35..]);
  }

  /** `acquisitionYear` and `acquisitionDOY` are the first seven digits of
      the production stamp; `date` is the seven digits after ".A"; grid
      numbers keep their leading zeros. */
  lemma StampFields(sceneid: Str)
    requires ModisParse(sceneid).Ok?
    ensures var p := ModisParse(sceneid).value; var b := Body(sceneid);
      && p.acquisitionYear + p.acquisitionDOY == b[28..35]
      && p.date == b[9..16]
      && p.horizontalGrid == b[18..20] && p.verticalGrid == b[21..23]
      && p.scene == sceneid
  {
    var p := ModisParse(sceneid).value;
    var b := Body(sceneid);
    TextSlices(p, b[35..]);
    assert ModisCaptures(b, sceneid) == p;
  }

  /** `MCD43A4.A2017006.h21v11.006.2017018074804`, written field by field. */
  const ExampleScene: Str :=
    "MCD43A4" + ".A" + "2017006" + ".h" + "21" + "v" + "11" + "." + "006" + "." + "2017" + "018" + "074804"

  function ExampleParams(): ModisParams {
    ModisParams("MCD43A4", "2017006", "21", "11", "006", "2017", "018", ExampleScene)
  }

  lemma ExampleValid()
    ensures ValidModisFields(ExampleParams())
  {
    var p := ExampleParams();
    assert p.product[3..5] == "43";
    assert p.product[5..] == "A4";
  }

  lemma ExampleText()
    ensures ModisText(ExampleParams(), "074804") == ExampleScene
  {
  }

  /** `MCD43A4.A2017006.h21v11.006.2017018074804` has date "2017006" but
      day of year "018", from the stamp. */
  lemma ModisExample()
    ensures ModisParse(ExampleScene) == Ok(ExampleParams())
  {
    ExampleValid();
    ExampleText();
    assert AllDigits("074804");
    ModisRoundTrip(ExampleParams(), "074804");
  }
}
