/** GRACE in-hospital score for acute coronary syndrome: eight banded point
    tables summed into a score, a mortality read off a nomogram by linear
    interpolation, and a three-level risk label. */
module Grace {
  import opened Wrappers
  import opened Units

  datatype Killip = I | II | III | IV
  datatype YesNo = Yes | No
  datatype CreatUnit = MgPerDl | UmolPerL
  datatype RiskLabel = Low | Intermediate | High

  /** The form as filled in: the four vitals may be blank; Killip class and
      the yes/no items always hold a value (defaults I, no, no, yes). */
  datatype GraceInput = GraceInput(
    age: Option<real>, hr: Option<real>, sbp: Option<real>,
    creat: Option<real>, creatUnit: CreatUnit,
    killip: Killip, arrest: YesNo, stDeviation: YesNo, enzymes: YesNo)

  datatype GraceResult = GraceResult(score: int, mortality: real, risk: RiskLabel, creatMgdl: real)

  // ---- Point tables: lower bound inclusive, first matching band wins ----

  function PtsAge(age: real): (p: int)
    ensures p in {0, 8, 25, 41, 58, 75, 91, 100}
  {
    if age < 30.0 then 0
    else if age < 40.0 then 8
    else if age < 50.0 then 25
    else if age < 60.0 then 41
    else if age < 70.0 then 58
    else if age < 80.0 then 75
    else if age < 90.0 then 91
    else 100
  }

  function PtsHR(hr: real): (p: int)
    ensures p in {0, 3, 9, 15, 24, 38, 46}
  {
    if hr < 50.0 then 0
    else if hr < 70.0 then 3
    else if hr < 90.0 then 9
    else if hr < 110.0 then 15
    else if hr < 150.0 then 24
    else if hr < 200.0 then 38
    else 46
  }

  function PtsSBP(sbp: real): (p: int)
    ensures p in {58, 53, 43, 34, 24, 10, 0}
  {
    if sbp < 80.0 then 58
    else if sbp < 100.0 then 53
    else if sbp < 120.0 then 43
    else if sbp < 140.0 then 34
    else if sbp < 160.0 then 24
    else if sbp < 200.0 then 10
    else 0
  }

  /** Creatinine points, on mg/dL. */
  function PtsCreatinine(cr: real): (p: int)
    ensures p in {1, 4, 7, 10, 13, 21, 28}
  {
    if cr < 0.4 then 1
    else if cr < 0.8 then 4
    else if cr < 1.2 then 7
    else if cr < 1.6 then 10
    else if cr < 2.0 then 13
    else if cr < 4.0 then 21
    else 28
  }

  /** Severity order of the Killip classes. */
  function KillipRank(k: Killip): nat {
    match k
    case I => 0
    case II => 1
    case III => 2
    case IV => 3
  }

  function PtsKillip(k: Killip): (p: int)
    ensures p in {0, 20, 39, 59}
  {
    match k
    case I => 0
    case II => 20
    case III => 39
    case IV => 59
  }

  function PtsYesNo(yn: YesNo, yesPoints: int): (p: int)
    ensures yn == No ==> p == 0
    ensures yn == Yes ==> p == yesPoints
  {
    if yn == Yes then yesPoints else 0
  }

  /** A more severe Killip class never scores less. */
  lemma KillipMonotone(k: Killip, k': Killip)
    requires KillipRank(k) <= KillipRank(k')
    ensures PtsKillip(k) <= PtsKillip(k')
  {
  }

  /** The tables are monotone: older age, faster heart rate and higher
      creatinine never score less; higher SBP never scores more. */
  lemma PointTablesMonotone(x: real, y: real)
    requires x <= y
    ensures PtsAge(x) <= PtsAge(y)
    ensures PtsHR(x) <= PtsHR(y)
    ensures PtsCreatinine(x) <= PtsCreatinine(y)
    ensures PtsSBP(x) >= PtsSBP(y)
  {
  }

  /** A value on a threshold falls in the band above it. */
  lemma ThresholdsGoUp()
    ensures PtsAge(70.0) == 75 && PtsAge(69.5) == 58
    ensures PtsSBP(120.0) == 34 && PtsSBP(119.5) == 43
    ensures PtsHR(50.0) == 3 && PtsCreatinine(1.2) == 10
  {
  }

  // ---- Score assembly ----

  /** All four vitals given and none negative; otherwise there is no result. */
  predicate AllValid(g: GraceInput) {
    && g.age.Some? && g.hr.Some? && g.sbp.Some? && g.creat.Some?
    && g.age.value >= 0.0 && g.hr.value >= 0.0 && g.sbp.value >= 0.0 && g.creat.value >= 0.0
  }

  /** Creatinine in mg/dL, converted when entered in µmol/L. */
  function CreatMgdl(g: GraceInput): (cr: real)
    requires g.creat.Some?
    ensures g.creatUnit == MgPerDl ==> cr == g.creat.value
    ensures g.creatUnit == UmolPerL ==> cr * CreatinineUmolPerMgdl == g.creat.value
  {
    if g.creatUnit == MgPerDl then g.creat.value else CreatinineToMgdl(g.creat.value)
  }

  /** The unclamped sum of the eight contributions. */
  function RawScore(g: GraceInput): (s: int)
    requires AllValid(g)
    ensures 1 <= s <= 372
  {
    PtsAge(g.age.value) + PtsHR(g.hr.value) + PtsSBP(g.sbp.value) + PtsCreatinine(CreatMgdl(g))
    + PtsKillip(g.killip) + PtsYesNo(g.arrest, 39) + PtsYesNo(g.stDeviation, 28) + PtsYesNo(g.enzymes, 14)
  }

  /** The calculator: no result unless the vitals are valid; otherwise the
      score clamped to [0, 363] (only the upper bound can bite, since the raw
      sum is at least 1), rounded (an integer already), the mortality read at
      that score and the risk label of that score. */
  function GraceScore(g: GraceInput): (r: Option<GraceResult>)
    ensures r.None? <==> !AllValid(g)
    ensures r.Some? ==> 1 <= r.value.score <= 363
    ensures r.Some? ==> r.value.score == if RawScore(g) > 363 then 363 else RawScore(g)
    ensures r.Some? ==> r.value.mortality == Mortality(r.value.score as real)
    ensures r.Some? ==> r.value.risk == LabelRisk(r.value.score as real)
    ensures r.Some? ==> r.value.creatMgdl == CreatMgdl(g)
  {
    if !AllValid(g) then None
    else
      var clamped := Clamp(RawScore(g) as real, 0.0, 363.0);
      RoundIntegral(if RawScore(g) > 363 then 363 else RawScore(g));
      Some(GraceResult(Round(clamped), Mortality(clamped), LabelRisk(clamped), CreatMgdl(g)))
  }

  /** Each input moved in its worsening direction never lowers the reported
      score: older, faster, lower SBP, higher creatinine (in mg/dL), a higher
      Killip class, and any yes/no item switched to "yes". */
  lemma {:induction false} ScoreMonotone(g: GraceInput, h: GraceInput)
    requires AllValid(g) && AllValid(h)
    requires g.age.value <= h.age.value && g.hr.value <= h.hr.value
    requires g.sbp.value >= h.sbp.value && CreatMgdl(g) <= CreatMgdl(h)
    requires KillipRank(g.killip) <= KillipRank(h.killip)
    requires g.arrest == Yes ==> h.arrest == Yes
    requires g.stDeviation == Yes ==> h.stDeviation == Yes
    requires g.enzymes == Yes ==> h.enzymes == Yes
    ensures GraceScore(g).value.score <= GraceScore(h).value.score
  {
    PointTablesMonotone(g.age.value, h.age.value);
    PointTablesMonotone(g.hr.value, h.hr.value);
    PointTablesMonotone(h.sbp.value, g.sbp.value);
    PointTablesMonotone(CreatMgdl(g), CreatMgdl(h));
    KillipMonotone(g.killip, h.killip);
    var vitalsG := PtsAge(g.age.value) + PtsHR(g.hr.value) + PtsSBP(g.sbp.value) + PtsCreatinine(CreatMgdl(g));
    var vitalsH := PtsAge(h.age.value) + PtsHR(h.hr.value) + PtsSBP(h.sbp.value) + PtsCreatinine(CreatMgdl(h));
    var restG := PtsKillip(g.killip) + PtsYesNo(g.arrest, 39) + PtsYesNo(g.stDeviation, 28) + PtsYesNo(g.enzymes, 14);
    var restH := PtsKillip(h.killip) + PtsYesNo(h.arrest, 39) + PtsYesNo(h.stDeviation, 28) + PtsYesNo(h.enzymes, 14);
    assert vitalsG <= vitalsH;
    assert restG <= restH;
    assert RawScore(g) == vitalsG + restG && RawScore(h) == vitalsH + restH;
  }

  /** Raising the Killip class or switching a yes/no item to "yes", all else
      equal, never lowers the score. */
  lemma {:induction false} KillipAndFlagsNeverLower(g: GraceInput, k: Killip, arrest: YesNo, st: YesNo, enz: YesNo)
    requires AllValid(g)
    requires KillipRank(g.killip) <= KillipRank(k)
    requires g.arrest == Yes ==> arrest == Yes
    requires g.stDeviation == Yes ==> st == Yes
    requires g.enzymes == Yes ==> enz == Yes
    ensures GraceScore(g).value.score <= GraceScore(g.(killip := k, arrest := arrest, stDeviation := st, enzymes := enz)).value.score
  {
    ScoreMonotone(g, g.(killip := k, arrest := arrest, stDeviation := st, enzymes := enz));
  }

  // ---- Risk label ----

  function LabelRisk(score: real): (l: RiskLabel)
    ensures l == Low <==> score <= 108.0
    ensures l == Intermediate <==> 108.0 < score <= 140.0
    ensures l == High <==> score > 140.0
  {
    if score <= 108.0 then Low
    else if score <= 140.0 then Intermediate
    else High
  }

  /** The label shown for each level. */
  function LabelText(l: RiskLabel): string {
    match l
    case Low => "Bajo"
    case Intermediate => "Intermedio"
    case High => "Alto"
  }

  function RiskRank(l: RiskLabel): nat {
    match l
    case Low => 0
    case Intermediate => 1
    case High => 2
  }

  /** A higher score never gets a lower risk label. */
  lemma LabelMonotone(x: real, y: real)
    requires x <= y
    ensures RiskRank(LabelRisk(x)) <= RiskRank(LabelRisk(y))
  {
  }

  // ---- Mortality nomogram ----

  datatype NomogramRow = NomogramRow(score: real, mort: real)

  /** In-hospital mortality (%) at scores 60, 70, ..., 250. */
  const Nomogram: seq<NomogramRow> := [
    NomogramRow(60.0, 0.2), NomogramRow(70.0, 0.3), NomogramRow(80.0, 0.4),
    NomogramRow(90.0, 0.6), NomogramRow(100.0, 0.8), NomogramRow(110.0, 1.1),
    NomogramRow(120.0, 1.6), NomogramRow(130.0, 2.1), NomogramRow(140.0, 2.9),
    NomogramRow(150.0, 3.9), NomogramRow(160.0, 5.4), NomogramRow(170.0, 7.3),
    NomogramRow(180.0, 9.8), NomogramRow(190.0, 13.0), NomogramRow(200.0, 18.0),
    NomogramRow(210.0, 23.0), NomogramRow(220.0, 29.0), NomogramRow(230.0, 36.0),
    NomogramRow(240.0, 44.0), NomogramRow(250.0, 52.0)]

  const Last: nat := |Nomogram| - 1

  /** The table's shape: twenty rows ten points apart from 60, mortality
      strictly increasing row to row. */
  lemma NomogramShape()
    ensures |Nomogram| == 20 && Last == 19
    ensures forall i :: 0 <= i < |Nomogram| ==> Nomogram[i].score == 60.0 + 10.0 * (i as real)
    ensures forall i :: 0 <= i < Last ==> Nomogram[i].mort < Nomogram[i + 1].mort
  {
  }

  /** Mortality is nondecreasing down the whole table. */
  lemma {:induction false} MortOrdered(i: nat, j: nat)
    requires i <= j < |Nomogram|
    ensures Nomogram[i].mort <= Nomogram[j].mort
  {
    NomogramShape();
    if i < j {
      MortOrdered(i, j - 1);
    }
  }

  /** Linear interpolation between rows `a` and `b` at `score`. */
  function Lerp(a: NomogramRow, b: NomogramRow, score: real): (m: real)
    requires a.score < b.score
    ensures score == a.score ==> m == a.mort
    ensures score == b.score ==> m == b.mort
  {
    var t := (score - a.score) / (b.score - a.score);
    a.mort + t * (b.mort - a.mort)
  }

  lemma LerpBounds(a: NomogramRow, b: NomogramRow, score: real)
    requires a.score < score <= b.score && a.mort <= b.mort
    ensures a.mort <= Lerp(a, b, score) <= b.mort
    ensures score == b.score ==> Lerp(a, b, score) == b.mort
  {
    var t := (score - a.score) / (b.score - a.score);
    FractionInUnit(score - a.score, b.score - a.score);
    assert t * (b.mort - a.mort) <= 1.0 * (b.mort - a.mort);
  }

  /** A part over a whole it does not exceed lies in [0, 1]. */
  lemma FractionInUnit(part: real, whole: real)
    requires 0.0 <= part <= whole && whole > 0.0
    ensures 0.0 <= part / whole <= 1.0
  {
    assert part / whole * whole == part;
  }

  lemma LerpMonotone(a: NomogramRow, b: NomogramRow, x: real, y: real)
    requires a.score < b.score && a.mort <= b.mort && x <= y
    ensures Lerp(a, b, x) <= Lerp(a, b, y)
  {
    var tx := (x - a.score) / (b.score - a.score);
    var ty := (y - a.score) / (b.score - a.score);
    assert tx <= ty;
    assert tx * (b.mort - a.mort) <= ty * (b.mort - a.mort);
  }

  /** The segment holding a score strictly inside the table: the row `i`
      with row i's score < score <= row (i+1)'s score, computed directly from
      the 10-point spacing as ceiling((score - 60) / 10) - 1. */
  function Segment(score: real): (i: nat)
    requires Nomogram[0].score < score < Nomogram[Last].score
    ensures i < Last
    ensures Nomogram[i].score < score <= Nomogram[i + 1].score
  {
    NomogramShape();
    var q := (score - Nomogram[0].score) / 10.0;
    var ceiling := -((-q).Floor);
    ceiling - 1
  }

  /** A score has only one segment. */
  lemma SegmentUnique(score: real, j: nat)
    requires Nomogram[0].score < score < Nomogram[Last].score
    requires j < Last && Nomogram[j].score < score <= Nomogram[j + 1].score
    ensures Segment(score) == j
  {
    NomogramShape();
  }

  /** Reference definition of the nomogram reading: the end mortalities
      outside [60, 250], linear interpolation in the segment inside. */
  function Mortality(score: real): real {
    NomogramShape();
    if score <= Nomogram[0].score then Nomogram[0].mort
    else if score >= Nomogram[Last].score then Nomogram[Last].mort
    else
      var i := Segment(score);
      Lerp(Nomogram[i], Nomogram[i + 1], score)
  }

  /** The calculator's lookup: a scan over the table's segments that returns at
      the first one containing the score. `None` stands for the `NaN` after
      the loop, which is never returned. */
  method InterpolateMortality(score: real) returns (m: Option<real>)
    ensures m == Some(Mortality(score))
  {
    if score <= Nomogram[0].score {
      return Some(Nomogram[0].mort);
    }
    if score >= Nomogram[|Nomogram| - 1].score {
      return Some(Nomogram[|Nomogram| - 1].mort);
    }
    NomogramShape();
    for i := 0 to |Nomogram| - 1
      invariant Nomogram[i].score < score
    {
      var a, b := Nomogram[i], Nomogram[i + 1];
      if score >= a.score && score <= b.score {
        var t := (score - a.score) / (b.score - a.score);
        SegmentUnique(score, i);
        assert Mortality(score) == Lerp(a, b, score) == a.mort + t * (b.mort - a.mort);
        return Some(a.mort + t * (b.mort - a.mort));
      }
    }
    assert false;
    return None;
  }

  /** At both ends the mortality is the end row's. */
  lemma MortalityEnds(score: real)
    ensures score <= 60.0 ==> Mortality(score) == 0.2
    ensures score >= 250.0 ==> Mortality(score) == 52.0
  {
  }

  /** At every table score the reading is exactly the table mortality. */
  lemma MortalityAtTableScores(i: nat)
    requires i < |Nomogram|
    ensures Mortality(Nomogram[i].score) == Nomogram[i].mort
  {
    NomogramShape();
    if 0 < i < Last {
      SegmentUnique(Nomogram[i].score, i - 1);
      LerpBounds(Nomogram[i - 1], Nomogram[i], Nomogram[i].score);
    }
  }

  /** Strictly inside the table the reading lies between the mortalities of
      the segment's two rows. */
  lemma MortalityBracketed(score: real)
    requires Nomogram[0].score < score < Nomogram[Last].score
    ensures Nomogram[Segment(score)].mort <= Mortality(score) <= Nomogram[Segment(score) + 1].mort
  {
    NomogramShape();
    var i := Segment(score);
    LerpBounds(Nomogram[i], Nomogram[i + 1], score);
  }

  /** The reading never leaves [0.2, 52]. */
  lemma MortalityRange(score: real)
    ensures 0.2 <= Mortality(score) <= 52.0
  {
    NomogramShape();
    if Nomogram[0].score < score < Nomogram[Last].score {
      var i := Segment(score);
      MortalityBracketed(score);
      MortOrdered(0, i);
      MortOrdered(i + 1, Last);
    }
  }

  /** A higher score never reads a lower mortality. */
  lemma MortalityMonotone(x: real, y: real)
    requires x <= y
    ensures Mortality(x) <= Mortality(y)
  {
    NomogramShape();
    MortalityRange(x);
    MortalityRange(y);
    if Nomogram[0].score < x && y < Nomogram[Last].score {
      var i, j := Segment(x), Segment(y);
      if i == j {
        LerpMonotone(Nomogram[i], Nomogram[i + 1], x, y);
      } else {
        MortalityBracketed(x);
        MortalityBracketed(y);
        MortOrdered(i + 1, j);
      }
    }
  }

  /** Age 70, HR 80, SBP 120, creatinine 1.0 mg/dL, Killip I, no arrest, no
      ST deviation, raised enzymes: 75 + 9 + 34 + 7 + 0 + 0 + 0 + 14 = 139,
      intermediate risk, mortality 2.1 + 0.9 * (2.9 - 2.1) = 2.82 %. */
  lemma WorkedCase()
    ensures GraceScore(GraceInput(Some(70.0), Some(80.0), Some(120.0), Some(1.0), MgPerDl, I, No, No, Yes))
         == Some(GraceResult(139, 2.82, Intermediate, 1.0))
  {
    var g := GraceInput(Some(70.0), Some(80.0), Some(120.0), Some(1.0), MgPerDl, I, No, No, Yes);
    assert RawScore(g) == 139;
    NomogramShape();
    SegmentUnique(139.0, 7);
    assert Mortality(139.0) == Lerp(Nomogram[7], Nomogram[8], 139.0) == 2.82;
    RoundIntegral(139);
  }
}
