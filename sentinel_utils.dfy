/** Sentinel-2 and Sentinel-1 scene-id parsers (rio_tiler_pds/sentinel/utils.py).

    Each parser first tests a guard pattern and then extracts fixed-width
    captures.  A pattern ending in `$` is matched against `Body(sceneid)`,
    the id without one final newline. */
module SentinelIds {
  import opened Text
  import opened Errors

  // ---------------------------------------------------------------------
  // Sentinel-2
  // ---------------------------------------------------------------------

  /** The named captures of either Sentinel-2 layout. */
  datatype S2Id = S2Id(
    sensor: Str, satellite: Str, processingLevel: Str,
    acquisitionYear: Str, acquisitionMonth: Str, acquisitionDay: Str,
    utm: Str, lat: Str, sq: Str, num: Str)

  /** The dictionary `s2_sceneid_parser` returns: the captures plus the
      derived `scene`, `date`, `_utm`, `_month`, `_day` and `_levelLow`. */
  datatype S2Params = S2Params(
    sensor: Str, satellite: Str, processingLevel: Str,
    acquisitionYear: Str, acquisitionMonth: Str, acquisitionDay: Str,
    utm: Str, lat: Str, sq: Str, num: Str,
    scene: Str, date: Str,
    utmShort: Str, monthShort: Str, dayShort: Str, levelLow: Str)

  predicate IsSatelliteLetter(c: char) { c == 'A' || c == 'B' }

  /** `L[0-2][A-C]`. */
  predicate IsLevel(s: Str) {
    |s| == 3 && s[0] == 'L' && '0' <= s[1] <= '2' && 'A' <= s[2] <= 'C'
  }

  /** `^S2[AB]_L[0-2][A-C]_[0-9]{8}_[0-9]{2}[A-Z]{3}_[0-9]$` (legacy layout);
      the 8 date digits and the 3 grid letters are checked in the pieces
      the detailed pattern captures them in. */
  predicate LegacyS2Guard(b: Str) {
    |b| == 24 && b[0] == 'S' && b[1] == '2' && IsSatelliteLetter(b[2]) && b[3] == '_'
    && IsLevel(b[4..7]) && b[7] == '_'
    && AllDigits(b[8..12]) && AllDigits(b[12..14]) && AllDigits(b[14..16]) && b[16] == '_'
    && AllDigits(b[17..19]) && AllUpper(b[19..20]) && AllUpper(b[20..22]) && b[22] == '_'
    && IsDigit(b[23])
  }

  /** `^S2[AB]_[0-9]{2}[A-Z]{3}_[0-9]{8}_[0-9]_L[0-2][A-C]$` (new layout). */
  predicate NewS2Guard(b: Str) {
    |b| == 24 && b[0] == 'S' && b[1] == '2' && IsSatelliteLetter(b[2]) && b[3] == '_'
    && AllDigits(b[4..6]) && AllUpper(b[6..7]) && AllUpper(b[7..9]) && b[9] == '_'
    && AllDigits(b[10..14]) && AllDigits(b[14..16]) && AllDigits(b[16..18])
    && b[18] == '_' && IsDigit(b[19]) && b[20] == '_' && IsLevel(b[21..24])
  }

  /** Captures that some Sentinel-2 id of either layout carries. */
  predicate ValidS2Id(c: S2Id) {
    && c.sensor == "2"
    && |c.satellite| == 1 && IsSatelliteLetter(c.satellite[0])
    && IsLevel(c.processingLevel)
    && |c.acquisitionYear| == 4 && AllDigits(c.acquisitionYear)
    && |c.acquisitionMonth| == 2 && AllDigits(c.acquisitionMonth)
    && |c.acquisitionDay| == 2 && AllDigits(c.acquisitionDay)
    && |c.utm| == 2 && AllDigits(c.utm)
    && |c.lat| == 1 && AllUpper(c.lat)
    && |c.sq| == 2 && AllUpper(c.sq)
    && |c.num| == 1 && AllDigits(c.num)
  }

  function LegacyS2Text(c: S2Id): Str {
    "S" + c.sensor + c.satellite + "_" + c.processingLevel + "_"
    + c.acquisitionYear + c.acquisitionMonth + c.acquisitionDay + "_"
    + c.utm + c.lat + c.sq + "_" + c.num
  }

  /** The new layout; `scene` is always written this way. */
  function NewS2Text(c: S2Id): Str {
    "S" + c.sensor + c.satellite + "_" + c.utm + c.lat + c.sq + "_"
    + c.acquisitionYear + c.acquisitionMonth + c.acquisitionDay + "_"
    + c.num + "_" + c.processingLevel
  }

  function LegacyS2Captures(b: Str): S2Id
    requires |b| == 24
  {
    S2Id(b[1..2], b[2..3], b[4..7], b[8..12], b[12..14], b[14..16],
         b[17..19], b[19..20], b[20..22], b[23..24])
  }

  function NewS2Captures(b: Str): S2Id
    requires |b| == 24
  {
    S2Id(b[1..2], b[2..3], b[21..24], b[10..14], b[14..16], b[16..18],
         b[4..6], b[6..7], b[7..9], b[19..20])
  }

  /** The derived keys, computed once from the captures. */
  function DeriveS2(c: S2Id): S2Params {
    S2Params(
      c.sensor, c.satellite, c.processingLevel,
      c.acquisitionYear, c.acquisitionMonth, c.acquisitionDay,
      c.utm, c.lat, c.sq, c.num,
      NewS2Text(c),
      DateText(c.acquisitionYear, c.acquisitionMonth, c.acquisitionDay),
      LStrip(c.utm, '0'), LStrip(c.acquisitionMonth, '0'), LStrip(c.acquisitionDay, '0'),
      Lower(c.processingLevel))
  }

  function S2IdOf(p: S2Params): S2Id {
    S2Id(p.sensor, p.satellite, p.processingLevel,
         p.acquisitionYear, p.acquisitionMonth, p.acquisitionDay,
         p.utm, p.lat, p.sq, p.num)
  }

  /** `s2_sceneid_parser`: the legacy layout is tried first, then the new
      one; anything else raises InvalidSentinelSceneId. */
  function S2Parse(sceneid: Str): (r: Result<S2Params>)
    ensures r.Ok? <==> LegacyS2Guard(Body(sceneid)) || NewS2Guard(Body(sceneid))
    ensures r.Err? ==> r.error == InvalidSentinelSceneId(sceneid)
    ensures r.Ok? ==> ValidS2Id(S2IdOf(r.value)) && r.value == DeriveS2(S2IdOf(r.value))
    ensures r.Ok? && NewS2Guard(Body(sceneid)) ==> r.value.scene == Body(sceneid)
    ensures r.Ok? && LegacyS2Guard(Body(sceneid)) ==> LegacyS2Text(S2IdOf(r.value)) == Body(sceneid)
  {
    var b := Body(sceneid);
    if LegacyS2Guard(b) then
      LegacyCapturesValid(b);
      Ok(DeriveS2(LegacyS2Captures(b)))
    else if NewS2Guard(b) then
      NewCapturesValid(b);
      Ok(DeriveS2(NewS2Captures(b)))
    else
      Err(InvalidSentinelSceneId(sceneid))
  }

  lemma LegacyCapturesValid(b: Str)
    requires LegacyS2Guard(b)
    ensures ValidS2Id(LegacyS2Captures(b))
    ensures LegacyS2Text(LegacyS2Captures(b)) == b
  {
    var c := LegacyS2Captures(b);
    assert c.acquisitionYear + c.acquisitionMonth + c.acquisitionDay == b[8..16];
    assert c.utm == b[17..19];
    assert c.lat + c.sq == b[19..22];
    assert LegacyS2Text(c) == b;
  }

  lemma NewCapturesValid(b: Str)
    requires NewS2Guard(b)
    ensures ValidS2Id(NewS2Captures(b))
    ensures NewS2Text(NewS2Captures(b)) == b
  {
    var c := NewS2Captures(b);
    assert c.acquisitionYear + c.acquisitionMonth + c.acquisitionDay == b[10..18];
    assert c.lat + c.sq == b[6..9];
    assert NewS2Text(c) == b;
  }

  lemma LegacyTextGuarded(c: S2Id)
    requires ValidS2Id(c)
    ensures LegacyS2Guard(LegacyS2Text(c)) && LegacyS2Captures(LegacyS2Text(c)) == c
  {
    var t := LegacyS2Text(c);
    LegacyTextSlices(c);
    assert t[0] == t[..1][0] && t[1] == t[1..2][0] && t[2] == t[2..3][0] && t[3] == t[3..4][0];
    assert t[7] == t[7..8][0] && t[16] == t[16..17][0] && t[22] == t[22..23][0] && t[23] == t[23..24][0];
  }

  /** Where each capture sits in the legacy text. */
  lemma LegacyTextSlices(c: S2Id)
    requires ValidS2Id(c)
    ensures var t := LegacyS2Text(c);
      && |t| == 24 && t[..1] == "S" && t[1..2] == c.sensor && t[2..3] == c.satellite && t[3..4] == "_"
      && t[4..7] == c.processingLevel && t[7..8] == "_"
      && t[8..12] == c.acquisitionYear && t[12..14] == c.acquisitionMonth && t[14..16] == c.acquisitionDay
      && t[16..17] == "_" && t[17..19] == c.utm && t[19..20] == c.lat && t[20..22] == c.sq
      && t[22..23] == "_" && t[23..24] == c.num
  {
    var p1 := "S" + c.sensor;
    var p2 := p1 + c.satellite;
    var p3 := p2 + "_";
    var p4 := p3 + c.processingLevel;
    var p5 := p4 + "_";
    var p6 := p5 + c.acquisitionYear;
    var p7 := p6 + c.acquisitionMonth;
    var p8 := p7 + c.acquisitionDay;
    var p9 := p8 + "_";
    var p10 := p9 + c.utm;
    var p11 := p10 + c.lat;
    var p12 := p11 + c.sq;
    var p13 := p12 + "_";
    var t := p13 + c.num;
    assert t == LegacyS2Text(c);
    assert t[..24] == t;
    Peel(t, 24, p13, c.num);
    Peel(t, 23, p12, "_");
    Peel(t, 22, p11, c.sq);
    Peel(t, 20, p10, c.lat);
    Peel(t, 19, p9, c.utm);
    Peel(t, 17, p8, "_");
    Peel(t, 16, p7, c.acquisitionDay);
    Peel(t, 14, p6, c.acquisitionMonth);
    Peel(t, 12, p5, c.acquisitionYear);
    Peel(t, 8, p4, "_");
    Peel(t, 7, p3, c.processingLevel);
    Peel(t, 4, p2, "_");
    Peel(t, 3, p1, c.satellite);
    Peel(t, 2, "S", c.sensor);
  }

  lemma NewTextGuarded(c: S2Id)
    requires ValidS2Id(c)
    ensures NewS2Guard(NewS2Text(c)) && NewS2Captures(NewS2Text(c)) == c
  {
    var t := NewS2Text(c);
    NewTextSlices(c);
    assert t[0] == t[..1][0] && t[1] == t[1..2][0] && t[2] == t[2..3][0] && t[3] == t[3..4][0];
    assert t[9] == t[9..10][0] && t[18] == t[18..19][0] && t[19] == t[19..20][0] && t[20] == t[20..21][0];
  }

  /** Where each capture sits in the new-layout text. */
  lemma NewTextSlices(c: S2Id)
    requires ValidS2Id(c)
    ensures var t := NewS2Text(c);
      && |t| == 24 && t[..1] == "S" && t[1..2] == c.sensor && t[2..3] == c.satellite && t[3..4] == "_"
      && t[4..6] == c.utm && t[6..7] == c.lat && t[7..9] == c.sq && t[9..10] == "_"
      && t[10..14] == c.acquisitionYear && t[14..16] == c.acquisitionMonth && t[16..18] == c.acquisitionDay
      && t[18..19] == "_" && t[19..20] == c.num && t[20..21] == "_" && t[21..24] == c.processingLevel
  {
    var p1 := "S" + c.sensor;
    var p2 := p1 + c.satellite;
    var p3 := p2 + "_";
    var p4 := p3 + c.utm;
    var p5 := p4 + c.lat;
    var p6 := p5 + c.sq;
    var p7 := p6 + "_";
    var p8 := p7 + c.acquisitionYear;
    var p9 := p8 + c.acquisitionMonth;
    var p10 := p9 + c.acquisitionDay;
    var p11 := p10 + "_";
    var p12 := p11 + c.num;
    var p13 := p12 + "_";
    var t := p13 + c.processingLevel;
    assert t == NewS2Text(c);
    assert t[..24] == t;
    Peel(t, 24, p13, c.processingLevel);
    Peel(t, 21, p12, "_");
    Peel(t, 20, p11, c.num);
    Peel(t, 19, p10, "_");
    Peel(t, 18, p9, c.acquisitionDay);
    Peel(t, 16, p8, c.acquisitionMonth);
    Peel(t, 14, p7, c.acquisitionYear);
    Peel(t, 10, p6, "_");
    Peel(t, 9, p5, c.sq);
    Peel(t, 7, p4, c.lat);
    Peel(t, 6, p3, c.utm);
    Peel(t, 4, p2, "_");
    Peel(t, 3, p1, c.satellite);
    Peel(t, 2, "S", c.sensor);
  }

  /** The same scene written in either layout parses to the same record,
      whose captures are exactly the ones written. */
  lemma S2LayoutsAgree(c: S2Id)
    requires ValidS2Id(c)
    ensures S2Parse(LegacyS2Text(c)) == Ok(DeriveS2(c))
    ensures S2Parse(NewS2Text(c)) == Ok(DeriveS2(c))
  {
    LegacyTextGuarded(c);
    NewTextGuarded(c);
    var l := LegacyS2Text(c);
    var n := NewS2Text(c);
    assert Body(l) == l by { assert IsDigit(l[23]); }
    assert Body(n) == n by { assert 'A' <= n[23] <= 'C'; }
    assert !LegacyS2Guard(n) by { assert IsDigit(n[4]); }
  }

  /** `scene` is the new-layout id, and parsing it again reproduces the
      record: the parser is idempotent on its own output. */
  lemma S2SceneReparses(sceneid: Str)
    requires S2Parse(sceneid).Ok?
    ensures var p := S2Parse(sceneid).value;
      p.scene == NewS2Text(S2IdOf(p)) && S2Parse(p.scene) == Ok(p)
  {
    var p := S2Parse(sceneid).value;
    S2LayoutsAgree(S2IdOf(p));
  }

  /** `date` splits on '-' back into the year, month and day captures. */
  lemma S2DateSplits(sceneid: Str)
    requires S2Parse(sceneid).Ok?
    ensures var p := S2Parse(sceneid).value;
      Split(p.date, '-') == [p.acquisitionYear, p.acquisitionMonth, p.acquisitionDay]
  {
    var p := S2Parse(sceneid).value;
    DateSplits(p.acquisitionYear, p.acquisitionMonth, p.acquisitionDay);
  }

  /** A digit string without a leading zero is the decimal rendering of
      its value. */
  lemma {:induction false} CanonicalDigits(t: Str)
    requires AllDigits(t) && t != [] && t[0] != '0'
    ensures DigitsValue(t) > 0 && t == NatToStr(DigitsValue(t))
    decreases |t|
  {
    var p := t[..|t| - 1];
    if |t| > 1 {
      CanonicalDigits(p);
      assert t == p + [t[|t| - 1]];
      CanonicalAppend(p, t[|t| - 1]);
    } else {
      assert DigitsValue(p) == 0;
    }
  }

  /** Appending a digit to a canonical rendering gives the rendering of
      ten times its value plus that digit. */
  lemma CanonicalAppend(p: Str, c: char)
    requires AllDigits(p) && IsDigit(c) && DigitsValue(p) > 0 && p == NatToStr(DigitsValue(p))
    ensures AllDigits(p + [c]) && DigitsValue(p + [c]) > 0 && p + [c] == NatToStr(DigitsValue(p + [c]))
  {
    var d := c as int - '0' as int;
    assert (p + [c])[..|p|] == p;
    assert DigitsValue(p + [c]) == DigitsValue(p) * 10 + d;
    AppendDigit(DigitsValue(p), d);
    assert DigitChar(d) == c;
  }

  lemma AppendDigit(q: nat, d: int)
    requires q > 0 && 0 <= d < 10
    ensures NatToStr(q * 10 + d) == NatToStr(q) + [DigitChar(d)]
  {
    var v := q * 10 + d;
    assert v / 10 == q && v % 10 == d;
  }

  /** A digit string written without its leading zeros: `str(int(s))`,
      except that an all-zero string becomes "". */
  function Unpadded(s: Str): Str
    requires AllDigits(s)
  {
    if DigitsValue(s) == 0 then [] else NatToStr(DigitsValue(s))
  }

  /** `s.lstrip("0")` of a digit string is the same number without its
      leading zeros. */
  lemma ShortForm(s: Str)
    requires AllDigits(s)
    ensures LStrip(s, '0') == Unpadded(s)
  {
    var r := LStrip(s, '0');
    var k := |s| - |r|;
    assert s == Zeros(k) + r by {
      assert s[..k] == Zeros(k) && s[k..] == r;
      assert s == s[..k] + s[k..];
    }
    assert AllDigits(r) by {
      forall i | 0 <= i < |r| ensures IsDigit(r[i]) { assert r[i] == s[k + i]; }
    }
    ZerosPrefixValue(k, r);
    if r != [] {
      CanonicalDigits(r);
    }
  }

  /** The `_utm`, `_month` and `_day` keys are the zone, month and day
      numbers written without leading zeros. */
  lemma S2ShortFields(c: S2Id)
    requires ValidS2Id(c)
    ensures DeriveS2(c).utmShort == Unpadded(c.utm)
    ensures DeriveS2(c).monthShort == Unpadded(c.acquisitionMonth)
    ensures DeriveS2(c).dayShort == Unpadded(c.acquisitionDay)
  {
    ShortForm(c.utm);
    ShortForm(c.acquisitionMonth);
    ShortForm(c.acquisitionDay);
  }

  /** `_levelLow` is the processing level in lower case: "l1c" or "l2a". */
  lemma S2LevelLow(c: S2Id)
    requires ValidS2Id(c)
    ensures DeriveS2(c).levelLow == ['l', c.processingLevel[1], LowerChar(c.processingLevel[2])]
    ensures c.processingLevel == "L2A" ==> DeriveS2(c).levelLow == "l2a"
    ensures c.processingLevel == "L1C" ==> DeriveS2(c).levelLow == "l1c"
  {
    var l := c.processingLevel;
    assert LowerChar(l[0]) == 'l';
    assert Lower(l) == [LowerChar(l[0]), LowerChar(l[1]), LowerChar(l[2])];
  }

  // ---------------------------------------------------------------------
  // Sentinel-1
  // ---------------------------------------------------------------------

  /** The named captures of `s1_sceneid_parser`'s detailed pattern. */
  datatype S1Id = S1Id(
    sensor: Str, satellite: Str, beam: Str, product: Str, resolution: Str,
    processingLevel: Str, productClass: Str, polarisation: Str,
    startDateTime: Str, stopDateTime: Str,
    absoluteOrbit: Str, missionTask: Str, productId: Str)

  /** The returned dictionary: the captures plus the acquisition date
      fields sliced out of `startDateTime`, `scene`, `date`, `_month` and
      `_day`. */
  datatype S1Params = S1Params(
    sensor: Str, satellite: Str, beam: Str, product: Str, resolution: Str,
    processingLevel: Str, productClass: Str, polarisation: Str,
    startDateTime: Str, stopDateTime: Str,
    absoluteOrbit: Str, missionTask: Str, productId: Str,
    acquisitionYear: Str, acquisitionMonth: Str, acquisitionDay: Str,
    scene: Str, date: Str, monthShort: Str, dayShort: Str)

  const Polarisations: seq<Str> := ["SH", "SV", "DH", "DV", "HH", "HV", "VV", "VH"]

  /** `[0-9]{8}T[0-9]{6}` as the case-sensitive guard reads it. */
  predicate IsDateTime(t: Str) {
    |t| == 15 && AllDigits(t[..8]) && t[8] == 'T' && AllDigits(t[9..])
  }

  /** `[0-9]{8}T[0-9]{6}` under IGNORECASE: the `T` may be `t`. */
  predicate IsDateTimeCI(t: Str) {
    |t| == 15 && AllDigits(t[..8]) && UpperChar(t[8]) == 'T' && AllDigits(t[9..])
  }

  /** The guard's common tail after the beam, 60 characters from offset `o`:
      `[A-Z]{3}[FHM]_[0-9][SA][A-Z]{2}_<datetime>_<datetime>_[0-9A-Z]{6}_[0-9A-Z]{6}_[0-9A-Z]{4}`. */
  predicate S1GuardTail(b: Str, o: nat) {
    |b| == o + 60 && AllUpper(b[o..o + 3]) && b[o + 3] in "FHM" && b[o + 4] == '_'
    && IsDigit(b[o + 5]) && b[o + 6] in "SA" && AllUpper(b[o + 7..o + 9]) && b[o + 9] == '_'
    && IsDateTime(b[o + 10..o + 25]) && b[o + 25] == '_'
    && IsDateTime(b[o + 26..o + 41]) && b[o + 41] == '_'
    && AllUpperOrDigit(b[o + 42..o + 48]) && b[o + 48] == '_'
    && AllUpperOrDigit(b[o + 49..o + 55]) && b[o + 55] == '_'
    && AllUpperOrDigit(b[o + 56..])
  }

  /** First alternative of the guard, `^S1[AB]_(IW)`: a prefix test on the
      raw id, with nothing required after the beam. */
  predicate S1GuardIW(s: Str) {
    |s| >= 6 && s[0] == 'S' && s[1] == '1' && s[2] in "AB" && s[3] == '_'
    && s[4] == 'I' && s[5] == 'W'
  }

  /** Second alternative of the guard, `(EW)_...$`: the whole id (up to a
      final newline) must start with `EW_`, without any `S1[AB]_` before it. */
  predicate S1GuardEW(b: Str) {
    |b| == 63 && b[0] == 'E' && b[1] == 'W' && b[2] == '_' && S1GuardTail(b, 3)
  }

  /** The guard as written: the alternation splits the pattern into
      `^S1[AB]_(IW)` and `(EW)_...$`. */
  predicate S1Guard(sceneid: Str) {
    S1GuardIW(sceneid) || S1GuardEW(Body(sceneid))
  }

  /** The detailed pattern under IGNORECASE, over the id without a final
      newline: 67 characters, positions fixed. */
  predicate S1Detailed(b: Str) {
    |b| == 67 && UpperChar(b[0]) == 'S' && IsWordChar(b[1]) && UpperChar(b[2]) in "AB"
    && b[3] == '_' && AllLetters(b[4..6]) && b[6] == '_'
    && AllLetters(b[7..10]) && UpperChar(b[10]) in "FHM" && b[11] == '_'
    && IsDigit(b[12]) && UpperChar(b[13]) in "SA"
    && [UpperChar(b[14]), UpperChar(b[15])] in Polarisations && b[16] == '_'
    && IsDateTimeCI(b[17..32]) && b[32] == '_' && IsDateTimeCI(b[33..48]) && b[48] == '_'
    && AllDigits(b[49..55]) && b[55] == '_' && AllAlnum(b[56..62]) && b[62] == '_'
    && AllAlnum(b[63..])
  }

  function S1Captures(b: Str): S1Id
    requires |b| == 67
  {
    S1Id(b[1..2], b[2..3], b[4..6], b[7..10], b[10..11], b[12..13], b[13..14], b[14..16],
         b[17..32], b[33..48], b[49..55], b[56..62], b[63..])
  }

  /** The id the captures were read from. */
  function S1Text(c: S1Id): Str {
    "S" + c.sensor + c.satellite + "_" + c.beam + "_" + c.product + c.resolution + "_"
    + c.processingLevel + c.productClass + c.polarisation + "_"
    + c.startDateTime + "_" + c.stopDateTime + "_"
    + c.absoluteOrbit + "_" + c.missionTask + "_" + c.productId
  }

  /** Captures of an upper-case Sentinel-1 id with the given beam. */
  predicate ValidS1Id(c: S1Id) {
    && c.sensor == "1" && (c.satellite == "A" || c.satellite == "B")
    && |c.beam| == 2 && AllUpper(c.beam)
    && |c.product| == 3 && AllUpper(c.product)
    && |c.resolution| == 1 && c.resolution[0] in "FHM"
    && |c.processingLevel| == 1 && IsDigit(c.processingLevel[0])
    && |c.productClass| == 1 && c.productClass[0] in "SA"
    && c.polarisation in Polarisations
    && IsDateTime(c.startDateTime) && IsDateTime(c.stopDateTime)
    && |c.absoluteOrbit| == 6 && AllDigits(c.absoluteOrbit)
    && |c.missionTask| == 6 && AllUpperOrDigit(c.missionTask)
    && |c.productId| == 4 && AllUpperOrDigit(c.productId)
  }

  function DeriveS1(c: S1Id, sceneid: Str): S1Params
    requires |c.startDateTime| >= 8
  {
    var y := c.startDateTime[..4];
    var m := c.startDateTime[4..6];
    var d := c.startDateTime[6..8];
    S1Params(
      c.sensor, c.satellite, c.beam, c.product, c.resolution,
      c.processingLevel, c.productClass, c.polarisation,
      c.startDateTime, c.stopDateTime, c.absoluteOrbit, c.missionTask, c.productId,
      y, m, d, sceneid, DateText(y, m, d), LStrip(m, '0'), LStrip(d, '0'))
  }

  function S1IdOf(p: S1Params): S1Id {
    S1Id(p.sensor, p.satellite, p.beam, p.product, p.resolution,
         p.processingLevel, p.productClass, p.polarisation,
         p.startDateTime, p.stopDateTime, p.absoluteOrbit, p.missionTask, p.productId)
  }

  /** `s1_sceneid_parser`, as written: an id failing the guard raises
      InvalidSentinelSceneId; one that passes it but not the detailed
      pattern makes `.groupdict()` fail on None (NoMatch). */
  function S1Parse(sceneid: Str): (r: Result<S1Params>)
    ensures r == Err(InvalidSentinelSceneId(sceneid)) <==> !S1Guard(sceneid)
    ensures r.Ok? <==> S1GuardIW(sceneid) && S1Detailed(Body(sceneid))
    ensures r.Ok? ==> S1ParsedFrom(r.value, sceneid)
  {
    var b := Body(sceneid);
    if !S1Guard(sceneid) then Err(InvalidSentinelSceneId(sceneid))
    else if !S1Detailed(b) then Err(NoMatch(sceneid))
    else if S1GuardEW(b) then
      // 63 characters against 67
      assert false;
      Err(NoMatch(sceneid))
    else
      S1ParseOk(sceneid);
      Ok(DeriveS1(S1Captures(b), sceneid))
  }

  /** What a successful parse returns: the captures of the id read back
      in order, beam "IW", a listed polarisation (in either case), `scene`
      the input itself, and the derived keys. */
  predicate S1ParsedFrom(p: S1Params, sceneid: Str) {
    && p.beam == "IW"
    && S1ReadBack(p, sceneid)
    && |p.polarisation| == 2
    && [UpperChar(p.polarisation[0]), UpperChar(p.polarisation[1])] in Polarisations
  }

  /** The captures are the id's text in order, `scene` is the input and
      the derived keys come from the captures. */
  predicate S1ReadBack(p: S1Params, sceneid: Str) {
    && S1Text(S1IdOf(p)) == Body(sceneid)
    && p.scene == sceneid
    && IsDateTimeCI(p.startDateTime)
    && p == DeriveS1(S1IdOf(p), sceneid)
  }

  lemma S1ParseOk(sceneid: Str)
    requires S1GuardIW(sceneid) && S1Detailed(Body(sceneid))
    ensures S1ParsedFrom(DeriveS1(S1Captures(Body(sceneid)), sceneid), sceneid)
  {
    var b := Body(sceneid);
    S1DetailedCaptures(b);
    var c := S1Captures(b);
    var p := DeriveS1(c, sceneid);
    assert b[4] == sceneid[4] == 'I' && b[5] == sceneid[5] == 'W';
    assert p.beam == "IW";
    assert S1IdOf(p) == c;
    assert S1Text(S1IdOf(p)) == Body(sceneid);
    assert p.scene == sceneid;
    assert IsDateTimeCI(p.startDateTime);
    assert p == DeriveS1(S1IdOf(p), sceneid);
    assert S1ReadBack(p, sceneid);
  }

  /** What the detailed pattern's captures carry. */
  lemma S1DetailedCaptures(b: Str)
    requires S1Detailed(b) && b[0] == 'S'
    ensures var c := S1Captures(b);
      && S1Text(c) == b && c.beam == [b[4], b[5]] && IsDateTimeCI(c.startDateTime)
      && |c.polarisation| == 2
      && [UpperChar(c.polarisation[0]), UpperChar(c.polarisation[1])] in Polarisations
      && S1IdOf(DeriveS1(c, b)) == c
  {
    S1CapturesText(b);
  }

  lemma S1CapturesText(b: Str)
    requires S1Detailed(b) && b[0] == 'S'
    ensures S1Text(S1Captures(b)) == b
    ensures |S1Captures(b).startDateTime| == 15 && |S1Captures(b).polarisation| == 2
  {
    S1SlicesText(b);
  }

  /** Reading the captures back needs only the length and the separators. */
  lemma S1SlicesText(b: Str)
    requires |b| == 67 && b[0] == 'S' && b[3] == '_' && b[6] == '_' && b[11] == '_'
    requires b[16] == '_' && b[32] == '_' && b[48] == '_' && b[55] == '_' && b[62] == '_'
    ensures S1Text(S1Captures(b)) == b
  {
    assert "S" == b[..1];
    PrefixStep(b, 1, 2);
    PrefixStep(b, 2, 3);
    SingleChar(b, 3);
    PrefixStep(b, 3, 4);
    PrefixStep(b, 4, 6);
    SingleChar(b, 6);
    PrefixStep(b, 6, 7);
    PrefixStep(b, 7, 10);
    PrefixStep(b, 10, 11);
    SingleChar(b, 11);
    PrefixStep(b, 11, 12);
    PrefixStep(b, 12, 13);
    PrefixStep(b, 13, 14);
    PrefixStep(b, 14, 16);
    SingleChar(b, 16);
    PrefixStep(b, 16, 17);
    PrefixStep(b, 17, 32);
    SingleChar(b, 32);
    PrefixStep(b, 32, 33);
    PrefixStep(b, 33, 48);
    SingleChar(b, 48);
    PrefixStep(b, 48, 49);
    PrefixStep(b, 49, 55);
    SingleChar(b, 55);
    PrefixStep(b, 55, 56);
    PrefixStep(b, 56, 62);
    SingleChar(b, 62);
    PrefixStep(b, 62, 63);
    PrefixStep(b, 63, 67);
    assert b[..67] == b;
  }

  lemma PolarisationUpper(p: Str)
    requires p in Polarisations
    ensures |p| == 2 && IsUpper(p[0]) && IsUpper(p[1])
  {
  }

  /** An upper-case id written from valid captures has the detailed
      pattern's shape and reads back the same captures. */
  lemma S1TextShape(c: S1Id)
    requires ValidS1Id(c)
    ensures var t := S1Text(c);
      && |t| == 67 && t[0] == 'S' && t[1] == '1' && t[2] in "AB" && t[3] == '_'
      && t[4..6] == c.beam && t[6] == '_' && S1GuardTail(t, 7)
      && S1Detailed(t) && S1Captures(t) == c && Body(t) == t
  {
    var t := S1Text(c);
    S1TextSlices(c);
    PolarisationUpper(c.polarisation);
    S1TextChars(c);
    assert S1GuardTail(t, 7);
    assert S1Detailed(t);
  }

  lemma S1TextChars(c: S1Id)
    requires ValidS1Id(c)
    ensures var t := S1Text(c);
      && |t| == 67 && t[0] == 'S' && t[1] == '1' && t[2] in "AB" && t[3] == '_'
      && t[6] == '_' && t[10] in "FHM" && t[11] == '_' && IsDigit(t[12]) && t[13] in "SA"
      && [t[14], t[15]] == c.polarisation && t[16] == '_' && t[32] == '_' && t[48] == '_'
      && t[55] == '_' && t[62] == '_' && IsUpperOrDigit(t[66])
  {
    var t := S1Text(c);
    S1TextSlices(c);
    SingleChar(t, 0);
    SingleChar(t, 1);
    SingleChar(t, 2);
    SingleChar(t, 3);
    SingleChar(t, 6);
    SingleChar(t, 10);
    SingleChar(t, 11);
    SingleChar(t, 12);
    SingleChar(t, 13);
    SingleChar(t, 16);
    SingleChar(t, 32);
    SingleChar(t, 48);
    SingleChar(t, 55);
    SingleChar(t, 62);
    assert t[14] == t[14..16][0] && t[15] == t[14..16][1];
    assert t[66] == t[63..67][3];
  }

  /** Where each capture sits in the written id. */
  lemma {:induction false} S1TextSlices(c: S1Id)
    requires ValidS1Id(c)
    ensures var t := S1Text(c);
      && |t| == 67 && S1Captures(t) == c
      && t[..1] == "S" && t[3..4] == "_" && t[6..7] == "_" && t[11..12] == "_"
      && t[16..17] == "_" && t[32..33] == "_" && t[48..49] == "_" && t[55..56] == "_"
      && t[62..63] == "_"
  {
    var p1 := "S" + c.sensor;
    var p2 := p1 + c.satellite;
    var p3 := p2 + "_";
    var p4 := p3 + c.beam;
    var p5 := p4 + "_";
    var p6 := p5 + c.product;
    var p7 := p6 + c.resolution;
    var p8 := p7 + "_";
    var p9 := p8 + c.processingLevel;
    var p10 := p9 + c.productClass;
    var p11 := p10 + c.polarisation;
    var p12 := p11 + "_";
    var p13 := p12 + c.startDateTime;
    var p14 := p13 + "_";
    var p15 := p14 + c.stopDateTime;
    var p16 := p15 + "_";
    var p17 := p16 + c.absoluteOrbit;
    var p18 := p17 + "_";
    var p19 := p18 + c.missionTask;
    var p20 := p19 + "_";
    var t := p20 + c.productId;
    assert t == S1Text(c);
    assert t[..67] == t;
    Peel(t, 67, p20, c.productId);
    Peel(t, 63, p19, "_");
    Peel(t, 62, p18, c.missionTask);
    Peel(t, 56, p17, "_");
    Peel(t, 55, p16, c.absoluteOrbit);
    Peel(t, 49, p15, "_");
    Peel(t, 48, p14, c.stopDateTime);
    Peel(t, 33, p13, "_");
    Peel(t, 32, p12, c.startDateTime);
    Peel(t, 17, p11, "_");
    Peel(t, 16, p10, c.polarisation);
    Peel(t, 14, p9, c.productClass);
    Peel(t, 13, p8, c.processingLevel);
    Peel(t, 12, p7, "_");
    Peel(t, 11, p6, c.resolution);
    Peel(t, 10, p5, c.product);
    Peel(t, 7, p4, "_");
    Peel(t, 6, p3, c.beam);
    Peel(t, 4, p2, "_");
    Peel(t, 3, p1, c.satellite);
    Peel(t, 2, "S", c.sensor);
  }

  /** Every upper-case IW id is accepted and reads back its own captures;
      `scene` is the id itself. */
  lemma S1RoundTrip(c: S1Id)
    requires ValidS1Id(c) && c.beam == "IW"
    ensures S1Parse(S1Text(c)) == Ok(DeriveS1(c, S1Text(c)))
  {
    S1TextShape(c);
    var t := S1Text(c);
    assert S1GuardIW(t) by { assert t[4] == t[4..6][0] && t[5] == t[4..6][1]; }
    S1AcceptedOnShape(t);
  }

  /** An id of the IW guard's shape that also fits the detailed pattern
      reaches the `groupdict` branch. */
  lemma S1AcceptedOnShape(t: Str)
    requires S1GuardIW(t) && Body(t) == t && S1Detailed(t)
    ensures S1Parse(t) == Ok(DeriveS1(S1Captures(t), t))
  {
  }

  /** `acquisitionYear`, `acquisitionMonth` and `acquisitionDay` are the
      first eight characters of `startDateTime`, all digits; `date` splits
      back into them and `_month` / `_day` drop their leading zeros.  (A
      successful parse returns `DeriveS1` of captures whose `startDateTime`
      satisfies `IsDateTimeCI`.) */
  lemma S1DateFields(c: S1Id, sceneid: Str)
    requires IsDateTimeCI(c.startDateTime)
    ensures var p := DeriveS1(c, sceneid);
      && p.acquisitionYear + p.acquisitionMonth + p.acquisitionDay == c.startDateTime[..8]
      && AllDigits(p.acquisitionYear) && AllDigits(p.acquisitionMonth) && AllDigits(p.acquisitionDay)
      && Split(p.date, '-') == [p.acquisitionYear, p.acquisitionMonth, p.acquisitionDay]
      && p.monthShort == Unpadded(p.acquisitionMonth)
      && p.dayShort == Unpadded(p.acquisitionDay)
  {
    var st := c.startDateTime;
    var y, m, d := st[..4], st[4..6], st[6..8];
    assert AllDigits(st[..8]);
    assert y == st[..8][..4] && m == st[..8][4..6] && d == st[..8][6..8];
    assert y + m + d == st[..8];
    DateSplits(y, m, d);
    ShortForm(m);
    ShortForm(d);
  }

  // ---------------------------------------------------------------------
  // Sentinel-1 guard: as written and as intended
  // ---------------------------------------------------------------------

  /** The guard with the beam alternation parenthesised,
      `^S1[AB]_(IW|EW)_...$`, over the id without a final newline. */
  predicate S1GuardIntended(b: Str) {
    |b| == 67 && b[0] == 'S' && b[1] == '1' && b[2] in "AB" && b[3] == '_'
    && (b[4..6] == "IW" || b[4..6] == "EW") && b[6] == '_' && S1GuardTail(b, 7)
  }

  /** The parser with the intended guard; the detailed pattern is unchanged. */
  function S1ParseIntended(sceneid: Str): (r: Result<S1Params>)
    ensures r == Err(InvalidSentinelSceneId(sceneid)) <==> !S1GuardIntended(Body(sceneid))
    ensures r.Ok? <==> S1GuardIntended(Body(sceneid)) && S1Detailed(Body(sceneid))
    ensures r.Ok? ==> (r.value.beam == "IW" || r.value.beam == "EW") && S1ReadBack(r.value, sceneid)
  {
    var b := Body(sceneid);
    if !S1GuardIntended(b) then Err(InvalidSentinelSceneId(sceneid))
    else if !S1Detailed(b) then Err(NoMatch(sceneid))
    else
      S1IntendedOk(b, sceneid);
      Ok(DeriveS1(S1Captures(b), sceneid))
  }

  lemma S1IntendedOk(b: Str, sceneid: Str)
    requires S1GuardIntended(b) && S1Detailed(b) && b == Body(sceneid)
    ensures var p := DeriveS1(S1Captures(b), sceneid);
      (p.beam == "IW" || p.beam == "EW") && S1ReadBack(p, sceneid)
  {
    S1CapturesText(b);
    var c := S1Captures(b);
    assert S1IdOf(DeriveS1(c, sceneid)) == c;
    assert IsDateTimeCI(c.startDateTime);
  }

  /** With the intended guard every upper-case IW or EW id reads back its
      own captures, while the guard as written turns away every EW id
      before the detailed pattern is tried. */
  lemma S1EWRejected(c: S1Id)
    requires ValidS1Id(c) && c.beam == "EW"
    ensures S1Parse(S1Text(c)) == Err(InvalidSentinelSceneId(S1Text(c)))
    ensures S1ParseIntended(S1Text(c)) == Ok(DeriveS1(c, S1Text(c)))
  {
    S1TextShape(c);
    var t := S1Text(c);
    assert t[4] == 'E' by { assert t[4] == t[4..6][0]; }
  }

  /** The two parsers agree on every IW id. */
  lemma S1IntendedAgreesOnIW(c: S1Id)
    requires ValidS1Id(c) && c.beam == "IW"
    ensures S1ParseIntended(S1Text(c)) == S1Parse(S1Text(c))
  {
    S1RoundTrip(c);
    S1TextShape(c);
    var t := S1Text(c);
    assert S1GuardIntended(t);
  }

  /** As written, the first alternative only looks at a prefix: an id that
      stops after the beam passes the guard and then fails the detailed
      pattern (NoMatch) instead of raising InvalidSentinelSceneId. */
  lemma S1PrefixPassesGuard()
    ensures S1Parse("S1A_IW") == Err(NoMatch("S1A_IW"))
    ensures S1ParseIntended("S1A_IW") == Err(InvalidSentinelSceneId("S1A_IW"))
  {
    assert S1GuardIW("S1A_IW");
  }
}
