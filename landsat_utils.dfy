/** The Landsat Collection 1 scene-id parser of rio_tiler_pds/landsat/utils.py
    (`sceneid_parser`): a case-sensitive guard, then a fixed-width capture
    pattern read under IGNORECASE, plus the `scene` and `date` keys. */
module LandsatIds {
  import opened Text
  import opened Errors

  /** The thirteen named groups, in pattern order. */
  datatype LandsatId = LandsatId(
    sensor: Str, satellite: Str, processingCorrectionLevel: Str,
    path: Str, row: Str,
    acquisitionYear: Str, acquisitionMonth: Str, acquisitionDay: Str,
    processingYear: Str, processingMonth: Str, processingDay: Str,
    collectionNumber: Str, collectionCategory: Str)

  /** The parser's dictionary: the groups plus `scene` and `date`. */
  datatype LandsatParams = LandsatParams(
    sensor: Str, satellite: Str, processingCorrectionLevel: Str,
    path: Str, row: Str,
    acquisitionYear: Str, acquisitionMonth: Str, acquisitionDay: Str,
    processingYear: Str, processingMonth: Str, processingDay: Str,
    collectionNumber: Str, collectionCategory: Str,
    scene: Str, date: Str)

  const Categories: seq<Str> := ["T1", "T2", "RT"]

  /** `^L[COTEM]0[0-9]_L\d{1}[A-Z]{2}_\d{6}_\d{8}_\d{8}_\d{2}_(T1|T2|RT)$`
      over the id without a final newline: 40 characters.  The digit runs
      are checked capture by capture. */
  predicate LandsatGuard(b: Str) {
    |b| == 40 && b[0] == 'L' && b[1] in "COTEM" && b[2] == '0' && IsDigit(b[3])
    && b[4] == '_' && b[5] == 'L' && IsDigit(b[6]) && AllUpper(b[7..9]) && b[9] == '_'
    && AllDigits(b[10..13]) && AllDigits(b[13..16]) && b[16] == '_'
    && AllDigits(b[17..21]) && AllDigits(b[21..23]) && AllDigits(b[23..25]) && b[25] == '_'
    && AllDigits(b[26..30]) && AllDigits(b[30..32]) && AllDigits(b[32..34]) && b[34] == '_'
    && AllDigits(b[35..37]) && b[37] == '_' && b[38..40] in Categories
  }

  /** The capture pattern under IGNORECASE: `\w` groups, `[0-9]` digit runs. */
  predicate LandsatDetailed(b: Str) {
    |b| == 40 && UpperChar(b[0]) == 'L' && AllWord(b[1..4]) && b[4] == '_'
    && AllWord(b[5..9]) && b[9] == '_'
    && AllDigits(b[10..13]) && AllDigits(b[13..16]) && b[16] == '_'
    && AllDigits(b[17..21]) && AllDigits(b[21..23]) && AllDigits(b[23..25]) && b[25] == '_'
    && AllDigits(b[26..30]) && AllDigits(b[30..32]) && AllDigits(b[32..34]) && b[34] == '_'
    && AllWord(b[35..37]) && b[37] == '_' && AllWord(b[38..40])
  }

  function LandsatCaptures(b: Str): LandsatId
    requires |b| == 40
  {
    LandsatId(b[1..2], b[2..4], b[5..9], b[10..13], b[13..16],
              b[17..21], b[21..23], b[23..25], b[26..30], b[30..32], b[32..34],
              b[35..37], b[38..40])
  }

  /** The id the captures were read from. */
  function LandsatText(c: LandsatId): Str {
    "L" + c.sensor + c.satellite + "_" + c.processingCorrectionLevel + "_"
    + c.path + c.row + "_"
    + c.acquisitionYear + c.acquisitionMonth + c.acquisitionDay + "_"
    + c.processingYear + c.processingMonth + c.processingDay + "_"
    + c.collectionNumber + "_" + c.collectionCategory
  }

  /** Captures of an id the guard accepts. */
  predicate ValidLandsatId(c: LandsatId) {
    && |c.sensor| == 1 && c.sensor[0] in "COTEM"
    && |c.satellite| == 2 && c.satellite[0] == '0' && IsDigit(c.satellite[1])
    && |c.processingCorrectionLevel| == 4 && c.processingCorrectionLevel[0] == 'L'
    && IsDigit(c.processingCorrectionLevel[1]) && AllUpper(c.processingCorrectionLevel[2..])
    && |c.path| == 3 && AllDigits(c.path) && |c.row| == 3 && AllDigits(c.row)
    && |c.acquisitionYear| == 4 && AllDigits(c.acquisitionYear)
    && |c.acquisitionMonth| == 2 && AllDigits(c.acquisitionMonth)
    && |c.acquisitionDay| == 2 && AllDigits(c.acquisitionDay)
    && |c.processingYear| == 4 && AllDigits(c.processingYear)
    && |c.processingMonth| == 2 && AllDigits(c.processingMonth)
    && |c.processingDay| == 2 && AllDigits(c.processingDay)
    && |c.collectionNumber| == 2 && AllDigits(c.collectionNumber)
    && c.collectionCategory in Categories
  }

  function DeriveLandsat(c: LandsatId, sceneid: Str): LandsatParams {
    LandsatParams(
      c.sensor, c.satellite, c.processingCorrectionLevel, c.path, c.row,
      c.acquisitionYear, c.acquisitionMonth, c.acquisitionDay,
      c.processingYear, c.processingMonth, c.processingDay,
      c.collectionNumber, c.collectionCategory,
      sceneid, DateText(c.acquisitionYear, c.acquisitionMonth, c.acquisitionDay))
  }

  function LandsatIdOf(p: LandsatParams): LandsatId {
    LandsatId(p.sensor, p.satellite, p.processingCorrectionLevel, p.path, p.row,
              p.acquisitionYear, p.acquisitionMonth, p.acquisitionDay,
              p.processingYear, p.processingMonth, p.processingDay,
              p.collectionNumber, p.collectionCategory)
  }

  /** What a successful parse returns: valid captures that spell the id,
      `scene` the input and `date` derived from the captures. */
  predicate LandsatParsedFrom(p: LandsatParams, sceneid: Str) {
    && ValidLandsatId(LandsatIdOf(p))
    && LandsatText(LandsatIdOf(p)) == Body(sceneid)
    && p == DeriveLandsat(LandsatIdOf(p), sceneid)
  }

  /** `sceneid_parser`.  An id failing the guard raises
      InvalidLandsatSceneId; every id the guard accepts also matches the
      capture pattern, so the `.groupdict()` on None never happens. */
  function LandsatParse(sceneid: Str): (r: Result<LandsatParams>)
    ensures r.Ok? <==> LandsatGuard(Body(sceneid))
    ensures r.Err? ==> r.error == InvalidLandsatSceneId(sceneid)
    ensures r.Ok? ==> LandsatParsedFrom(r.value, sceneid)
  {
    var b := Body(sceneid);
    if !LandsatGuard(b) then Err(InvalidLandsatSceneId(sceneid))
    else if !LandsatDetailed(b) then
      GuardImpliesDetailed(b);
      assert false;
      Err(NoMatch(sceneid))
    else
      LandsatParseOk(b, sceneid);
      Ok(DeriveLandsat(LandsatCaptures(b), sceneid))
  }

  /** The guard is stricter than the capture pattern. */
  lemma GuardImpliesDetailed(b: Str)
    requires LandsatGuard(b)
    ensures LandsatDetailed(b)
  {
    assert IsWordChar(b[1]) && IsWordChar(b[2]) && IsWordChar(b[3]);
    assert AllWord(b[1..4]);
    assert IsDigit(b[6]) && IsUpper(b[7]) && IsUpper(b[8]);
    assert AllWord(b[5..9]);
    assert AllWord(b[35..37]) by {
      assert AllDigits(b[35..37]);
    }
    assert AllWord(b[38..40]);
  }

  lemma LandsatParseOk(b: Str, sceneid: Str)
    requires LandsatGuard(b) && b == Body(sceneid)
    ensures LandsatParsedFrom(DeriveLandsat(LandsatCaptures(b), sceneid), sceneid)
  {
    var c := LandsatCaptures(b);
    CapturesText(b);
    CapturesValid(b);
    assert LandsatIdOf(DeriveLandsat(c, sceneid)) == c;
  }

  lemma CapturesValid(b: Str)
    requires LandsatGuard(b)
    ensures ValidLandsatId(LandsatCaptures(b))
  {
    var c := LandsatCaptures(b);
    assert c.processingCorrectionLevel[2..] == b[7..9];
  }

  lemma CapturesText(b: Str)
    requires |b| == 40 && b[0] == 'L' && b[4] == '_' && b[9] == '_' && b[16] == '_'
    requires b[25] == '_' && b[34] == '_' && b[37] == '_'
    ensures LandsatText(LandsatCaptures(b)) == b
  {
    assert "L" == b[..1];
    PrefixStep(b, 1, 2);
    PrefixStep(b, 2, 4);
    SingleChar(b, 4);
    PrefixStep(b, 4, 5);
    PrefixStep(b, 5, 9);
    SingleChar(b, 9);
    PrefixStep(b, 9, 10);
    PrefixStep(b, 10, 13);
    PrefixStep(b, 13, 16);
    SingleChar(b, 16);
    PrefixStep(b, 16, 17);
    PrefixStep(b, 17, 21);
    PrefixStep(b, 21, 23);
    PrefixStep(b, 23, 25);
    SingleChar(b, 25);
    PrefixStep(b, 25, 26);
    PrefixStep(b, 26, 30);
    PrefixStep(b, 30, 32);
    PrefixStep(b, 32, 34);
    SingleChar(b, 34);
    PrefixStep(b, 34, 35);
    PrefixStep(b, 35, 37);
    SingleChar(b, 37);
    PrefixStep(b, 37, 38);
    PrefixStep(b, 38, 40);
    assert b[..40] == b;
  }

  /** Where each capture sits in the written id. */
  lemma {:induction false} TextSlices(c: LandsatId)
    requires ValidLandsatId(c)
    ensures var t := LandsatText(c);
      && |t| == 40 && LandsatCaptures(t) == c
      && t[..1] == "L" && t[4..5] == "_" && t[9..10] == "_" && t[16..17] == "_"
      && t[25..26] == "_" && t[34..35] == "_" && t[37..38] == "_"
  {
    var p1 := "L" + c.sensor;
    var p2 := p1 + c.satellite;
    var p3 := p2 + "_";
    var p4 := p3 + c.processingCorrectionLevel;
    var p5 := p4 + "_";
    var p6 := p5 + c.path;
    var p7 := p6 + c.row;
    var p8 := p7 + "_";
    var p9 := p8 + c.acquisitionYear;
    var p10 := p9 + c.acquisitionMonth;
    var p11 := p10 + c.acquisitionDay;
    var p12 := p11 + "_";
    var p13 := p12 + c.processingYear;
    var p14 := p13 + c.processingMonth;
    var p15 := p14 + c.processingDay;
    var p16 := p15 + "_";
    var p17 := p16 + c.collectionNumber;
    var p18 := p17 + "_";
    var t := p18 + c.collectionCategory;
    assert t == LandsatText(c);
    assert t[..40] == t;
    Peel(t, 40, p18, c.collectionCategory);
    Peel(t, 38, p17, "_");
    Peel(t, 37, p16, c.collectionNumber);
    Peel(t, 35, p15, "_");
    Peel(t, 34, p14, c.processingDay);
    Peel(t, 32, p13, c.processingMonth);
    Peel(t, 30, p12, c.processingYear);
    Peel(t, 26, p11, "_");
    Peel(t, 25, p10, c.acquisitionDay);
    Peel(t, 23, p9, c.acquisitionMonth);
    Peel(t, 21, p8, c.acquisitionYear);
    Peel(t, 17, p7, "_");
    Peel(t, 16, p6, c.row);
    Peel(t, 13, p5, c.path);
    Peel(t, 10, p4, "_");
    Peel(t, 9, p3, c.processingCorrectionLevel);
    Peel(t, 5, p2, "_");
    Peel(t, 4, p1, c.satellite);
    Peel(t, 2, "L", c.sensor);
  }

  /** The written id of valid captures passes the guard. */
  lemma TextGuarded(c: LandsatId)
    requires ValidLandsatId(c)
    ensures LandsatGuard(LandsatText(c)) && Body(LandsatText(c)) == LandsatText(c)
  {
    var t := LandsatText(c);
    TextSlices(c);
    SingleChar(t, 0);
    SingleChar(t, 4);
    SingleChar(t, 9);
    SingleChar(t, 16);
    SingleChar(t, 25);
    SingleChar(t, 34);
    SingleChar(t, 37);
    assert t[1] == c.sensor[0];
    assert t[2] == c.satellite[0] && t[3] == c.satellite[1];
    assert t[5] == c.processingCorrectionLevel[0] && t[6] == c.processingCorrectionLevel[1];
    assert t[7..9] == c.processingCorrectionLevel[2..];
    assert t[39] == c.collectionCategory[1];
  }

  /** Every id written from valid captures is accepted and reads back those
      captures; `scene` is the id and `date` is `Y-M-D`. */
  lemma LandsatRoundTrip(c: LandsatId)
    requires ValidLandsatId(c)
    ensures LandsatParse(LandsatText(c)) == Ok(DeriveLandsat(c, LandsatText(c)))
  {
    TextGuarded(c);
    TextSlices(c);
  }

  /** Distinct captures are written as distinct ids. */
  lemma LandsatTextInjective(c: LandsatId, d: LandsatId)
    requires ValidLandsatId(c) && ValidLandsatId(d) && LandsatText(c) == LandsatText(d)
    ensures c == d
  {
    TextSlices(c);
    TextSlices(d);
  }

  /** `date` splits back into the acquisition captures; path and row are
      the id's three-digit runs, leading zeros kept. */
  lemma LandsatFields(sceneid: Str)
    requires LandsatParse(sceneid).Ok?
    ensures var p := LandsatParse(sceneid).value;
      && Split(p.date, '-') == [p.acquisitionYear, p.acquisitionMonth, p.acquisitionDay]
      && p.scene == sceneid
      && p.path == Body(sceneid)[10..13] && p.row == Body(sceneid)[13..16]
      && |p.path| == 3 && |p.row| == 3
  {
    var p := LandsatParse(sceneid).value;
    var c := LandsatIdOf(p);
    DateSplits(c.acquisitionYear, c.acquisitionMonth, c.acquisitionDay);
    TextSlices(c);
  }

  /** `LC08_L1TP_005004_20170410_20170414_01_T1`, written field by field. */
  const ExampleScene: Str :=
    "L" + "C" + "08" + "_" + "L1TP" + "_" + "005" + "004" + "_" + "2017" + "04" + "10" + "_"
    + "2017" + "04" + "14" + "_" + "01" + "_" + "T1"

  /** `LC08_L1TP_005004_20170410_20170414_01_T1` parses with path "005",
      row "004" and date "2017-04-10". */
  lemma LandsatExample()
    ensures var r := LandsatParse(ExampleScene);
      && r.Ok? && r.value.sensor == "C" && r.value.satellite == "08"
      && r.value.processingCorrectionLevel == "L1TP"
      && r.value.path == "005" && r.value.row == "004"
      && r.value.collectionCategory == "T1" && r.value.date == "2017-04-10"
  {
    var c := ExampleId();
    ExampleIdValid();
    assert LandsatText(c) == ExampleScene;
    LandsatRoundTrip(c);
    assert DateText("2017", "04", "10") == "2017-04-10";
  }

  function ExampleId(): LandsatId {
    LandsatId("C", "08", "L1TP", "005", "004", "2017", "04", "10", "2017", "04", "14", "01", "T1")
  }

  lemma ExampleIdValid()
    ensures ValidLandsatId(ExampleId())
  {
    var c := ExampleId();
    assert AllUpper(c.processingCorrectionLevel[2..]) by {
      assert c.processingCorrectionLevel[2..] == "TP";
    }
  }
}
