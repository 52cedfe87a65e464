/** The CBERS-4 scene-id parser of rio_tiler_pds/cbers/utils.py
    (`sceneid_parser`) and its instrument table.

    An id is `CBERS_4_<word>_<YYYYMMDD>_<path>_<row>_L<d>`: a variable-length
    middle followed by a fixed 20-character tail.  The capture pattern reads
    the middle as `satellite_mission_instrument` with a greedy `\w+` for the
    satellite, so the satellite ends at the LAST "_<digit>_" of the middle
    that leaves a non-empty instrument.  The instrument then selects the
    reference band, the bands and the RGB triple from a fixed table with no
    default. */
module CbersIds {
  import opened Text
  import opened Errors

  /** The named groups of the capture pattern. */
  datatype CbersId = CbersId(
    satellite: Str, mission: Str, instrument: Str,
    acquisitionYear: Str, acquisitionMonth: Str, acquisitionDay: Str,
    path: Str, row: Str, processingCorrectionLevel: Str)

  /** The groups with the added `scene` and `date` keys. */
  datatype CbersParams = CbersParams(id: CbersId, scene: Str, date: Str)

  /** One row of `instrument_params`. */
  datatype InstrumentParams = InstrumentParams(referenceBand: Str, bands: seq<Str>, rgb: seq<Str>)

  /** The parser's full result: the groups and the instrument's row. */
  datatype SceneMeta = SceneMeta(params: CbersParams, instrument: InstrumentParams)

  const Instruments: map<Str, InstrumentParams> := map[
    "MUX" := InstrumentParams("B6", ["B5", "B6", "B7", "B8"], ["B7", "B6", "B5"]),
    "AWFI" := InstrumentParams("B14", ["B13", "B14", "B15", "B16"], ["B15", "B14", "B13"]),
    "PAN10M" := InstrumentParams("B4", ["B2", "B3", "B4"], ["B3", "B4", "B2"]),
    "PAN5M" := InstrumentParams("B1", ["B1"], ["B1", "B1", "B1"])]

  /** `_<YYYYMMDD>_<ddd>_<ddd>_L<d>`, the fixed tail of the guard. */
  predicate TailGuard(t: Str) {
    |t| == 20 && t[0] == '_' && AllDigits(t[1..9]) && t[9] == '_' && AllDigits(t[10..13])
    && t[13] == '_' && AllDigits(t[14..17]) && t[17] == '_' && t[18] == 'L' && IsDigit(t[19])
  }

  /** The same tail in the capture pattern, under IGNORECASE. */
  predicate TailDetailed(t: Str) {
    |t| == 20 && t[0] == '_' && AllDigits(t[1..9]) && t[9] == '_' && AllDigits(t[10..13])
    && t[13] == '_' && AllDigits(t[14..17]) && t[17] == '_' && UpperChar(t[18]) == 'L' && IsDigit(t[19])
  }

  /** `^CBERS_4_\w+_[0-9]{8}_[0-9]{3}_[0-9]{3}_L[0-9]$` over the id without
      a final newline. */
  predicate CbersGuard(b: Str) {
    |b| >= 29 && b[..8] == "CBERS_4_" && AllWord(b[8..|b| - 20]) && TailGuard(b[|b| - 20..])
  }

  /** `satellite_mission_` may end at k: "_<digit>_" at k with a non-empty
      instrument after it. */
  predicate IsSplit(m: Str, k: int) {
    1 <= k && k + 3 < |m| && m[k] == '_' && IsDigit(m[k + 1]) && m[k + 2] == '_'
  }

  /** The greedy satellite group: the largest split point at or below k. */
  function LastSplit(m: Str, k: int): (r: Option<nat>)
    decreases k
    ensures r.Some? ==> r.value <= k && IsSplit(m, r.value)
    ensures r.Some? ==> forall j :: r.value < j <= k ==> !IsSplit(m, j)
    ensures r.None? ==> forall j :: j <= k ==> !IsSplit(m, j)
  {
    if k < 1 then None
    else if IsSplit(m, k) then Some(k)
    else LastSplit(m, k - 1)
  }

  /** The capture pattern under IGNORECASE: word characters up to the
      tail, a split point, and the tail. */
  predicate CbersDetailed(b: Str) {
    && |b| >= 20
    && AllWord(b[..|b| - 20])
    && LastSplit(b[..|b| - 20], |b| - 24).Some?
    && TailDetailed(b[|b| - 20..])
  }

  function CbersCaptures(b: Str, k: nat): CbersId
    requires |b| >= 20 && k + 3 <= |b| - 20
  {
    var m := b[..|b| - 20];
    var t := b[|b| - 20..];
    CbersId(m[..k], m[k + 1..k + 2], m[k + 3..],
            t[1..5], t[5..7], t[7..9], t[10..13], t[14..17], t[18..20])
  }

  function MiddleText(c: CbersId): Str {
    c.satellite + "_" + c.mission + "_" + c.instrument
  }

  function TailText(c: CbersId): Str {
    "_" + c.acquisitionYear + c.acquisitionMonth + c.acquisitionDay + "_" + c.path + "_" + c.row
    + "_" + c.processingCorrectionLevel
  }

  /** The id written from its groups. */
  function CbersText(c: CbersId): Str {
    MiddleText(c) + TailText(c)
  }

  /** Groups of an id the guard accepts. */
  predicate ValidCaptures(c: CbersId) {
    && |c.satellite| >= 1 && AllWord(c.satellite)
    && |c.mission| == 1 && AllDigits(c.mission)
    && |c.instrument| >= 1 && AllWord(c.instrument)
    && |c.acquisitionYear| == 4 && AllDigits(c.acquisitionYear)
    && |c.acquisitionMonth| == 2 && AllDigits(c.acquisitionMonth)
    && |c.acquisitionDay| == 2 && AllDigits(c.acquisitionDay)
    && |c.path| == 3 && AllDigits(c.path)
    && |c.row| == 3 && AllDigits(c.row)
    && |c.processingCorrectionLevel| == 2 && c.processingCorrectionLevel[0] == 'L'
    && IsDigit(c.processingCorrectionLevel[1])
  }

  /** The satellite group is as long as the greedy match makes it. */
  predicate Greedy(c: CbersId) {
    forall j :: |c.satellite| < j < |MiddleText(c)| ==> !IsSplit(MiddleText(c), j)
  }

  /** What a successful parse returns. */
  predicate ParsedFrom(p: CbersParams, sceneid: Str) {
    && ValidCaptures(p.id) && Greedy(p.id)
    && CbersText(p.id) == Body(sceneid)
    && StartsWith(Body(sceneid), "CBERS_4_")
    && p.scene == sceneid
    && p.date == DateText(p.id.acquisitionYear, p.id.acquisitionMonth, p.id.acquisitionDay)
  }

  /** The groups, `scene` and `date` of `sceneid_parser` (shared with the
      legacy parser).  An id failing the guard raises InvalidCBERSSceneId;
      every id the guard accepts matches the capture pattern. */
  function CbersFields(sceneid: Str): (r: Result<CbersParams>)
    ensures r.Ok? <==> CbersGuard(Body(sceneid))
    ensures r.Err? ==> r.error == InvalidCBERSSceneId(sceneid)
    ensures r.Ok? ==> ParsedFrom(r.value, sceneid)
  {
    var b := Body(sceneid);
    if !CbersGuard(b) then Err(InvalidCBERSSceneId(sceneid))
    else if !CbersDetailed(b) then
      GuardImpliesDetailed(b);
      assert false;
      Err(NoMatch(sceneid))
    else
      var k := LastSplit(b[..|b| - 20], |b| - 24).value;
      var c := CbersCaptures(b, k);
      FieldsOk(b, k, sceneid);
      Ok(CbersParams(c, sceneid, DateText(c.acquisitionYear, c.acquisitionMonth, c.acquisitionDay)))
  }

  /** `sceneid_parser`: the fields, then the instrument's row; an
      instrument outside the table is a KeyError. */
  function CbersParse(sceneid: Str): (r: Result<SceneMeta>)
    ensures var f := CbersFields(sceneid);
      && (r.Ok? <==> f.Ok? && f.value.id.instrument in Instruments)
      && (f.Err? ==> r == Err(InvalidCBERSSceneId(sceneid)))
      && (f.Ok? && !r.Ok? ==> r == Err(KeyError(f.value.id.instrument)))
      && (r.Ok? ==> r.value.params == f.value && r.value.instrument == Instruments[f.value.id.instrument])
  {
    var f := CbersFields(sceneid);
    if f.Err? then Err(f.error)
    else if f.value.id.instrument !in Instruments then Err(KeyError(f.value.id.instrument))
    else Ok(SceneMeta(f.value, Instruments[f.value.id.instrument]))
  }

  /** The middle of an accepted id always has the split after "CBERS_4"
      available, so the greedy split exists. */
  lemma GuardImpliesDetailed(b: Str)
    requires CbersGuard(b)
    ensures CbersDetailed(b)
  {
    var m := b[..|b| - 20];
    assert m[..8] == "CBERS_4_";
    assert m[5] == '_' && m[6] == '4' && m[7] == '_';
    assert IsSplit(m, 5);
    assert AllWord(m) by {
      forall i | 0 <= i < |m|
        ensures IsWordChar(m[i])
      {
        if i < 8 {
          assert m[i] == "CBERS_4_"[i];
        } else {
          assert m[i] == b[8..|b| - 20][i - 8];
        }
      }
    }
  }

  lemma FieldsOk(b: Str, k: nat, sceneid: Str)
    requires CbersGuard(b) && b == Body(sceneid)
    requires LastSplit(b[..|b| - 20], |b| - 24) == Some(k)
    ensures k + 3 <= |b| - 20
    ensures var c := CbersCaptures(b, k);
      ValidCaptures(c) && Greedy(c) && CbersText(c) == b && StartsWith(b, "CBERS_4_")
  {
    GuardImpliesDetailed(b);
    CapturesText(b, k);
    CapturesValid(b, k);
    CapturesGreedy(b, k);
  }

  lemma CapturesText(b: Str, k: nat)
    requires |b| >= 20 && IsSplit(b[..|b| - 20], k)
    requires var t := b[|b| - 20..]; t[0] == '_' && t[9] == '_' && t[13] == '_' && t[17] == '_'
    ensures MiddleText(CbersCaptures(b, k)) == b[..|b| - 20]
    ensures CbersText(CbersCaptures(b, k)) == b
  {
    var m := b[..|b| - 20];
    var t := b[|b| - 20..];
    MiddleCaptures(m, k);
    TailCaptures(t);
    assert b == m + t;
  }

  lemma CapturesValid(b: Str, k: nat)
    requires CbersGuard(b) && IsSplit(b[..|b| - 20], k)
    requires AllWord(b[..|b| - 20])
    ensures ValidCaptures(CbersCaptures(b, k))
  {
    var m := b[..|b| - 20];
    var t := b[|b| - 20..];
    var c := CbersCaptures(b, k);
    assert AllWord(c.satellite) by {
      assert forall i :: 0 <= i < k ==> c.satellite[i] == m[i];
    }
    assert AllWord(c.instrument) by {
      assert forall i :: 0 <= i < |c.instrument| ==> c.instrument[i] == m[k + 3 + i];
    }
    assert c.mission == [m[k + 1]];
    assert AllDigits(c.acquisitionYear) by {
      assert forall i :: 0 <= i < 4 ==> c.acquisitionYear[i] == t[1..9][i];
    }
    assert AllDigits(c.acquisitionMonth) by {
      assert forall i :: 0 <= i < 2 ==> c.acquisitionMonth[i] == t[1..9][4 + i];
    }
    assert AllDigits(c.acquisitionDay) by {
      assert forall i :: 0 <= i < 2 ==> c.acquisitionDay[i] == t[1..9][6 + i];
    }
    assert c.path == t[10..13] && c.row == t[14..17];
    assert c.processingCorrectionLevel == [t[18], t[19]];
  }

  lemma CapturesGreedy(b: Str, k: nat)
    requires |b| >= 20 && LastSplit(b[..|b| - 20], |b| - 24) == Some(k)
    requires var t := b[|b| - 20..]; t[0] == '_' && t[9] == '_' && t[13] == '_' && t[17] == '_'
    ensures k + 3 <= |b| - 20 && Greedy(CbersCaptures(b, k))
  {
    CapturesText(b, k);
  }

  lemma MiddleCaptures(m: Str, k: nat)
    requires IsSplit(m, k)
    ensures m[..k] + "_" + m[k + 1..k + 2] + "_" + m[k + 3..] == m
  {
    assert m[k..k + 1] == "_" && m[k + 2..k + 3] == "_";
    PrefixStep(m, k, k + 1);
    PrefixStep(m, k + 1, k + 2);
    PrefixStep(m, k + 2, k + 3);
    assert m[..k + 3] + m[k + 3..] == m;
  }

  lemma TailCaptures(t: Str)
    requires |t| == 20 && t[0] == '_' && t[9] == '_' && t[13] == '_' && t[17] == '_'
    ensures "_" + t[1..5] + t[5..7] + t[7..9] + "_" + t[10..13] + "_" + t[14..17] + "_" + t[18..20] == t
  {
    assert t[..1] == "_";
    PrefixStep(t, 1, 5);
    PrefixStep(t, 5, 7);
    PrefixStep(t, 7, 9);
    assert t[9..10] == "_";
    PrefixStep(t, 9, 10);
    PrefixStep(t, 10, 13);
    assert t[13..14] == "_";
    PrefixStep(t, 13, 14);
    PrefixStep(t, 14, 17);
    assert t[17..18] == "_";
    PrefixStep(t, 17, 18);
    PrefixStep(t, 18, 20);
    assert t[..20] == t;
  }

  /** Where each tail group sits in the written tail. */
  lemma {:induction false} TailSlices(c: CbersId)
    requires ValidCaptures(c)
    ensures var t := TailText(c);
      && |t| == 20 && TailGuard(t)
      && t[1..5] == c.acquisitionYear && t[5..7] == c.acquisitionMonth && t[7..9] == c.acquisitionDay
      && t[10..13] == c.path && t[14..17] == c.row && t[18..20] == c.processingCorrectionLevel
  {
    var p1 := "_" + c.acquisitionYear;
    var p2 := p1 + c.acquisitionMonth;
    var p3 := p2 + c.acquisitionDay;
    var p4 := p3 + "_";
    var p5 := p4 + c.path;
    var p6 := p5 + "_";
    var p7 := p6 + c.row;
    var p8 := p7 + "_";
    var t := p8 + c.processingCorrectionLevel;
    assert t == TailText(c);
    assert t[..20] == t;
    Peel(t, 20, p8, c.processingCorrectionLevel);
    Peel(t, 18, p7, "_");
    Peel(t, 17, p6, c.row);
    Peel(t, 14, p5, "_");
    Peel(t, 13, p4, c.path);
    Peel(t, 10, p3, "_");
    Peel(t, 9, p2, c.acquisitionDay);
    Peel(t, 7, p1, c.acquisitionMonth);
    Peel(t, 5, "_", c.acquisitionYear);
    var date := t[1..9];
    forall i | 0 <= i < 8
      ensures IsDigit(date[i])
    {
      if i < 4 {
        assert date[i] == t[1..5][i] == c.acquisitionYear[i];
      } else if i < 6 {
        assert date[i] == t[5..7][i - 4] == c.acquisitionMonth[i - 4];
      } else {
        assert date[i] == t[7..9][i - 6] == c.acquisitionDay[i - 6];
      }
    }
    assert t[0] == t[..1][0] && t[9] == t[9..10][0] && t[13] == t[13..14][0] && t[17] == t[17..18][0];
    assert t[18] == c.processingCorrectionLevel[0] && t[19] == c.processingCorrectionLevel[1];
  }

  /** Where the middle groups sit in the written middle. */
  lemma MiddleSlices(c: CbersId)
    requires ValidCaptures(c)
    ensures var m := MiddleText(c); var s := |c.satellite|;
      && |m| == s + 3 + |c.instrument|
      && m[..s] == c.satellite && m[s + 1..s + 2] == c.mission && m[s + 3..] == c.instrument
      && IsSplit(m, s) && AllWord(m)
  {
    var m := MiddleText(c);
    var s := |c.satellite|;
    var p1 := c.satellite + "_";
    var p2 := p1 + c.mission;
    var p3 := p2 + "_";
    assert m == p3 + c.instrument;
    assert m[..s] == c.satellite && m[s] == '_' by { assert m[..s + 1] == p1; }
    assert m[s + 1..s + 2] == c.mission by { assert m[..s + 2] == p2; }
    assert m[s + 2] == '_' by { assert m[..s + 3] == p3; }
    assert m[s + 3..] == c.instrument;
    assert m[s + 1] == c.mission[0];
    forall j | 0 <= j < |m|
      ensures IsWordChar(m[j])
    {
      if j < s {
        assert m[j] == m[..s][j];
      } else if s + 3 <= j {
        assert m[j] == m[s + 3..][j - s - 3];
      }
    }
  }

  /** A greedy split is the last one: given the groups of an id with a
      satellite that is as long as possible, the parser finds exactly that
      satellite. */
  lemma SplitFound(c: CbersId)
    requires ValidCaptures(c) && Greedy(c)
    ensures var m := MiddleText(c); LastSplit(m, |m| - 4) == Some(|c.satellite|)
  {
    MiddleSlices(c);
  }

  /** The written id of valid groups that starts "CBERS_4_" passes the
      guard. */
  lemma TextGuarded(c: CbersId)
    requires ValidCaptures(c) && StartsWith(CbersText(c), "CBERS_4_")
    ensures var id := CbersText(c);
      && CbersGuard(id) && Body(id) == id
      && id[..|id| - 20] == MiddleText(c) && id[|id| - 20..] == TailText(c)
  {
    var id := CbersText(c);
    var m := MiddleText(c);
    var t := TailText(c);
    TailSlices(c);
    MiddleSlices(c);
    assert id[..|id| - 20] == m && id[|id| - 20..] == t;
    assert Body(id) == id by { assert id[|id| - 1] == t[19]; }
    assert |m| >= 9 by {
      assert id[5] == '_' && id[6] == '4' && id[7] == '_';
    }
    assert AllWord(id[8..|id| - 20]) by {
      assert id[8..|id| - 20] == m[8..];
    }
  }

  /** The groups of a written id are the groups it was written from. */
  lemma TextCaptures(c: CbersId)
    requires ValidCaptures(c) && Greedy(c) && StartsWith(CbersText(c), "CBERS_4_")
    ensures var id := CbersText(c);
      && |id| >= 20 && |c.satellite| + 3 <= |id| - 20
      && LastSplit(id[..|id| - 20], |id| - 24) == Some(|c.satellite|)
      && CbersCaptures(id, |c.satellite|) == c
  {
    TextGuarded(c);
    TailSlices(c);
    MiddleSlices(c);
    SplitFound(c);
  }

  /** Every written id of valid, greedy groups that starts "CBERS_4_" is
      accepted and reads back those groups. */
  lemma CbersRoundTrip(c: CbersId)
    requires ValidCaptures(c) && Greedy(c) && StartsWith(CbersText(c), "CBERS_4_")
    ensures var id := CbersText(c);
      CbersFields(id) == Ok(CbersParams(c, id, DateText(c.acquisitionYear, c.acquisitionMonth, c.acquisitionDay)))
  {
    TextGuarded(c);
    TextCaptures(c);
  }

  /** A successful parse is determined by the id. */
  lemma ParsedFromUnique(p: CbersParams, sceneid: Str)
    requires ParsedFrom(p, sceneid)
    ensures CbersFields(sceneid) == Ok(p)
  {
    TextGuarded(p.id);
    TextCaptures(p.id);
    FieldsFromCaptures(p, sceneid, |p.id.satellite|);
  }

  lemma FieldsFromCaptures(p: CbersParams, sceneid: Str, k: nat)
    requires var b := Body(sceneid);
      && CbersGuard(b) && k + 3 <= |b| - 20
      && LastSplit(b[..|b| - 20], |b| - 24) == Some(k) && CbersCaptures(b, k) == p.id
    requires p.scene == sceneid
    requires p.date == DateText(p.id.acquisitionYear, p.id.acquisitionMonth, p.id.acquisitionDay)
    ensures CbersFields(sceneid) == Ok(p)
  {
    GuardImpliesDetailed(Body(sceneid));
  }

  /** With no underscore in what follows "CBERS_4_", the satellite is
      "CBERS", the mission "4" and the instrument all of it. */
  lemma PlainInstrument(w: Str, tail: Str)
    requires |w| >= 1 && AllWord(w) && '_' !in w && TailGuard(tail)
    ensures var id := "CBERS_4_" + w + tail;
      && CbersFields(id).Ok?
      && CbersFields(id).value.id.satellite == "CBERS"
      && CbersFields(id).value.id.mission == "4"
      && CbersFields(id).value.id.instrument == w
  {
    var id := "CBERS_4_" + w + tail;
    var c := CbersCaptures(id, 5);
    assert id[..|id| - 20] == "CBERS_4_" + w && id[|id| - 20..] == tail;
    var m := "CBERS_4_" + w;
    assert id[..8] == "CBERS_4_";
    assert AllWord(id[8..|id| - 20]) by { assert id[8..|id| - 20] == w; }
    assert Body(id) == id by { assert id[|id| - 1] == tail[19]; }
    assert CbersGuard(id);
    assert IsSplit(m, 5);
    forall j | 5 < j
      ensures !IsSplit(m, j)
    {
      if 8 <= j < |m| {
        assert m[j] == w[j - 8];
      } else if j == 7 && j + 3 < |m| {
        assert m[9] == w[1];
      }
    }
    assert LastSplit(m, |m| - 4) == Some(5);
    assert c.satellite == m[..5] == "CBERS";
    assert c.mission == m[6..7] == "4";
    assert c.instrument == m[8..] == w;
  }

  /** Every row of the instrument table lists its reference band and its
      RGB triple among its bands; PAN5M has the single band "B1". */
  lemma InstrumentTable(name: Str)
    requires name in Instruments
    ensures var row := Instruments[name];
      && row.referenceBand in row.bands
      && |row.rgb| == 3 && forall i :: 0 <= i < 3 ==> row.rgb[i] in row.bands
    ensures Instruments["PAN5M"].bands == ["B1"] && Instruments["MUX"].bands == ["B5", "B6", "B7", "B8"]
  {
  }

  /** Every band name in the table is "B" followed by digits. */
  lemma BandNameShape(name: Str, band: Str)
    requires name in Instruments && band in Instruments[name].bands
    ensures |band| >= 2 && band[0] == 'B' && AllDigits(band[1..])
  {
    if name == "MUX" {
      assert band in ["B5", "B6", "B7", "B8"];
    } else if name == "AWFI" {
      assert band in ["B13", "B14", "B15", "B16"];
    } else if name == "PAN10M" {
      assert band in ["B2", "B3", "B4"];
    } else {
      assert band == "B1";
    }
  }

  /** A parsed scene's reference band is one of its bands. */
  lemma ReferenceBandListed(sceneid: Str)
    requires CbersParse(sceneid).Ok?
    ensures CbersParse(sceneid).value.instrument.referenceBand in CbersParse(sceneid).value.instrument.bands
  {
    InstrumentTable(CbersParse(sceneid).value.params.id.instrument);
  }

  function MuxExample(): CbersId {
    CbersId("CBERS", "4", "MUX", "2017", "11", "21", "057", "094", "L2")
  }

  /** `CBERS_4_MUX_20171121_057_094_L2`, written group by group. */
  const MuxScene: Str :=
    ("CBERS" + "_" + "4" + "_" + "MUX")
    + ("_" + "2017" + "11" + "21" + "_" + "057" + "_" + "094" + "_" + "L2")

  lemma MuxExampleText()
    ensures ValidCaptures(MuxExample()) && Greedy(MuxExample())
    ensures CbersText(MuxExample()) == MuxScene
  {
    var c := MuxExample();
    assert MiddleText(c) == "CBERS_4_MUX";
    assert c.processingCorrectionLevel[0] == 'L' && c.processingCorrectionLevel[1] == '2';
  }

  /** `CBERS_4_MUX_20171121_057_094_L2`: a MUX scene on path 057, row 094,
      dated 2017-11-21, with bands B5 to B8 and reference band B6. */
  lemma MuxSceneParsed()
    ensures CbersParse(MuxScene).Ok?
    ensures CbersParse(MuxScene).value.params == CbersParams(MuxExample(), MuxScene, "2017-11-21")
    ensures CbersParse(MuxScene).value.instrument == Instruments["MUX"]
  {
    MuxFields();
    assert MuxExample().instrument == "MUX";
  }

  lemma MuxFields()
    ensures CbersFields(MuxScene) == Ok(CbersParams(MuxExample(), MuxScene, "2017-11-21"))
  {
    var c := MuxExample();
    MuxExampleText();
    MuxPrefixText();
    CbersRoundTrip(c);
  }

  lemma MuxPrefixText()
    ensures StartsWith(MuxScene, "CBERS_4_")
    ensures var c := MuxExample(); DateText(c.acquisitionYear, c.acquisitionMonth, c.acquisitionDay) == "2017-11-21"
  {
    assert MuxScene[..8] == "CBERS_4_";
  }

  /** An id without the processing level is refused. */
  lemma MissingLevelRefused()
    ensures CbersFields("CBERS_4_MUX_20171121_057_094") == Err(InvalidCBERSSceneId("CBERS_4_MUX_20171121_057_094"))
  {
    var s := "CBERS_4_MUX_20171121_057_094";
    assert Body(s) == s by { assert s[|s| - 1] == '4'; }
  }
}
