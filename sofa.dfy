/** SOFA (Sequential Organ Failure Assessment): six organ subscores, each
    0..4, and their sum. A blank field scores 0 in its domain. */
module Sofa {
  import opened Wrappers
  import opened Units

  datatype YesNo = Yes | No
  datatype Unit = MgPerDl | UmolPerL
  datatype Pressor = NoPressor | Dobutamine | Dopamine | Epinephrine | Norepinephrine

  /** The form: blank numeric fields are `None`. PaO2 in mmHg, FiO2 in %,
      platelets in 10^3/µL, MAP in mmHg, vasopressor dose in mcg/kg/min,
      urine output in mL/24 h. */
  datatype SofaInput = SofaInput(
    pao2: Option<real>, fio2: Option<real>, respSupport: YesNo,
    platelets: Option<real>,
    bili: Option<real>, biliUnit: Unit,
    meanArterial: Option<real>, pressor: Pressor, dose: Option<real>,
    gcs: Option<real>,
    creat: Option<real>, creatUnit: Unit, urine: Option<real>)

  datatype SofaResult = SofaResult(resp: int, coag: int, liver: int, cv: int, cns: int, renal: int, total: int)

  // ---- Respiratory ----

  /** PaO2/FiO2 banding in the calculator's branch order: >= 400 first, then
      the two ventilated bands, then < 300, else 1. */
  function RespBand(ratio: real, support: YesNo): (s: int)
    ensures 0 <= s <= 4
    ensures s >= 3 ==> support == Yes
  {
    if ratio >= 400.0 then 0
    else if ratio < 100.0 && support == Yes then 4
    else if ratio < 200.0 && support == Yes then 3
    else if ratio < 300.0 then 2
    else 1
  }

  /** With ventilatory support fixed, a better oxygenation ratio never
      scores more. */
  lemma RespBandMonotone(x: real, y: real, support: YesNo)
    requires x <= y
    ensures RespBand(x, support) >= RespBand(y, support)
  {
  }

  /** FiO2 is entered in percent, so the ratio is PaO2 / (FiO2 / 100).
      A FiO2 of 0 takes the outcome IEEE-754 division gives it: PaO2 / 0
      is +Infinity (scores 0), NaN for PaO2 = 0 (every comparison fails:
      scores 1) or -Infinity (below every bound). */
  function ScoreResp(pao2: Option<real>, fio2: Option<real>, support: YesNo): (s: int)
    ensures 0 <= s <= 4
    ensures pao2.None? || fio2.None? ==> s == 0
    ensures s >= 3 ==> support == Yes
  {
    if pao2.None? || fio2.None? then 0
    else if fio2.value == 0.0 then
      if pao2.value > 0.0 then 0
      else if pao2.value == 0.0 then 1
      else RespBand(-400.0, support)
    else RespBand(pao2.value / (fio2.value / 100.0), support)
  }

  /** The bands as read from the ratio 100 * PaO2 / FiO2: >= 400 gives 0,
      [300, 400) gives 1, below 300 without support gives 2 (also below
      100: never 3 or 4), and with support < 100 gives 4, [100, 200) 3 and
      [200, 300) 2. */
  lemma RespBands(pao2: real, fio2: real, support: YesNo)
    requires fio2 != 0.0
    ensures var ratio := 100.0 * pao2 / fio2;
      var s := ScoreResp(Some(pao2), Some(fio2), support);
      && (ratio >= 400.0 ==> s == 0)
      && (300.0 <= ratio < 400.0 ==> s == 1)
      && (ratio < 300.0 && support == No ==> s == 2)
      && (ratio < 100.0 && support == Yes ==> s == 4)
      && (100.0 <= ratio < 200.0 && support == Yes ==> s == 3)
      && (200.0 <= ratio < 300.0 ==> s == 2)
  {
    assert pao2 / (fio2 / 100.0) == 100.0 * pao2 / fio2;
  }

  // ---- Coagulation ----

  function ScoreCoag(platelets: Option<real>): (s: int)
    ensures 0 <= s <= 4
    ensures platelets.None? ==> s == 0
  {
    if platelets.None? then 0
    else
      var pl := platelets.value;
      if pl < 20.0 then 4
      else if pl < 50.0 then 3
      else if pl < 100.0 then 2
      else if pl < 150.0 then 1
      else 0
  }

  /** More platelets never score more; the thresholds are 20, 50, 100, 150. */
  lemma CoagMonotone(x: real, y: real)
    requires x <= y
    ensures ScoreCoag(Some(x)) >= ScoreCoag(Some(y))
    ensures ScoreCoag(Some(150.0)) == 0 && ScoreCoag(Some(149.5)) == 1
    ensures ScoreCoag(Some(20.0)) == 3 && ScoreCoag(Some(19.5)) == 4
  {
  }

  // ---- Liver ----

  /** Bilirubin band on mg/dL. */
  function LiverBand(mgdl: real): (s: int)
    ensures 0 <= s <= 4
  {
    if mgdl >= 12.0 then 4
    else if mgdl >= 6.0 then 3
    else if mgdl >= 2.0 then 2
    else if mgdl >= 1.2 then 1
    else 0
  }

  function ScoreLiver(bili: Option<real>, unit: Unit): (s: int)
    ensures 0 <= s <= 4
    ensures bili.None? ==> s == 0
    ensures bili.Some? && unit == MgPerDl ==> s == LiverBand(bili.value)
    ensures bili.Some? && unit == UmolPerL ==> s == LiverBand(bili.value / 17.1)
  {
    if bili.None? then 0
    else
      var mgdl := if unit == MgPerDl then bili.value else BilirubinToMgdl(bili.value);
      LiverBand(mgdl)
  }

  /** A bilirubin in µmol/L scores as its mg/dL value v / 17.1 does, and
      more bilirubin never scores less. */
  lemma LiverUnitsAgreeAndMonotone(v: real, x: real, y: real)
    requires x <= y
    ensures ScoreLiver(Some(v), UmolPerL) == ScoreLiver(Some(v / 17.1), MgPerDl)
    ensures ScoreLiver(Some(x), MgPerDl) <= ScoreLiver(Some(y), MgPerDl)
    ensures ScoreLiver(Some(x), UmolPerL) <= ScoreLiver(Some(y), UmolPerL)
  {
    ConversionsMonotone(x, y);
  }

  // ---- Cardiovascular ----

  /** MAP and vasopressor. Dobutamine scores 2 at any dose; a blank dose
      counts as 0; without a pressor only MAP < 70 scores (1). */
  function ScoreCV(meanArterial: Option<real>, pressor: Pressor, dose: Option<real>): (s: int)
    ensures 0 <= s <= 4
    ensures pressor == NoPressor ==> (s == 1 <==> meanArterial.Some? && meanArterial.value < 70.0) && s <= 1
    ensures pressor == Dobutamine ==> s == 2
    ensures pressor == Dopamine ==> 2 <= s
    ensures pressor == Epinephrine || pressor == Norepinephrine ==> 3 <= s
  {
    if pressor == NoPressor then
      if meanArterial.Some? then (if meanArterial.value < 70.0 then 1 else 0) else 0
    else if pressor == Dobutamine then 2
    else
      var d := if dose.None? then 0.0 else dose.value;
      if pressor == Dopamine then
        if d <= 5.0 then 2
        else if d > 5.0 && d <= 15.0 then 3
        else if d > 15.0 then 4
        else 2
      else if pressor == Epinephrine || pressor == Norepinephrine then
        if d <= 0.1 then 3 else 4
      else 0
  }

  /** Dopamine's three bands cover every dose, so its trailing fallback
      `2` is never reached; a blank dose reads as 0 (2 for dopamine, 3 for
      epinephrine and norepinephrine). */
  lemma PressorBands(meanArterial: Option<real>, d: real)
    ensures ScoreCV(meanArterial, Dopamine, Some(d)) == if d <= 5.0 then 2 else if d <= 15.0 then 3 else 4
    ensures ScoreCV(meanArterial, Epinephrine, Some(d)) == ScoreCV(meanArterial, Norepinephrine, Some(d)) == if d <= 0.1 then 3 else 4
    ensures ScoreCV(meanArterial, Dopamine, None) == 2
    ensures ScoreCV(meanArterial, Epinephrine, None) == ScoreCV(meanArterial, Norepinephrine, None) == 3
    ensures ScoreCV(meanArterial, Dobutamine, Some(d)) == 2
  {
  }

  // ---- Central nervous system ----

  /** GCS is clamped to [3, 15] before banding. */
  function ScoreCNS(gcs: Option<real>): (s: int)
    ensures 0 <= s <= 4
    ensures gcs.None? ==> s == 0
    ensures gcs.Some? && gcs.value >= 15.0 ==> s == 0
    ensures gcs.Some? && gcs.value <= 5.0 ==> s == 4
  {
    if gcs.None? then 0
    else
      var v := Clamp(gcs.value, 3.0, 15.0);
      if v < 6.0 then 4
      else if v < 9.0 then 3
      else if v < 12.0 then 2
      else if v < 15.0 then 1
      else 0
  }

  /** A higher GCS never scores more. */
  lemma CNSMonotone(x: real, y: real)
    requires x <= y
    ensures ScoreCNS(Some(x)) >= ScoreCNS(Some(y))
  {
    ClampMonotone(x, y, 3.0, 15.0);
  }

  // ---- Renal ----

  /** Creatinine branch, on mg/dL; a blank creatinine contributes 0. */
  function RenalByCreat(cr: Option<real>): (s: int)
    ensures 0 <= s <= 4
    ensures cr.None? ==> s == 0
  {
    if cr.None? then 0
    else if cr.value >= 5.0 then 4
    else if cr.value >= 3.5 then 3
    else if cr.value >= 2.0 then 2
    else if cr.value >= 1.2 then 1
    else 0
  }

  /** Urine output branch, on mL/24 h; blank or >= 500 contributes 0. */
  function RenalByUrine(uo: Option<real>): (s: int)
    ensures s == 0 || s == 3 || s == 4
    ensures uo.None? || uo.value >= 500.0 ==> s == 0
  {
    if uo.None? then 0
    else if uo.value < 200.0 then 4
    else if uo.value < 500.0 then 3
    else 0
  }

  /** Renal takes the worse of the two branches. */
  function ScoreRenal(creat: Option<real>, unit: Unit, urine: Option<real>): (s: int)
    ensures 0 <= s <= 4
    ensures var byCreat := RenalByCreat(if creat.None? then None
                                        else if unit == MgPerDl then creat else Some(creat.value / 88.4));
      && s >= byCreat && s >= RenalByUrine(urine)
      && (s == byCreat || s == RenalByUrine(urine))
  {
    var cr := if creat.None? then None
              else if unit == MgPerDl then creat else Some(CreatinineToMgdl(creat.value));
    var byCreat := RenalByCreat(cr);
    var byUrine := RenalByUrine(urine);
    if byCreat >= byUrine then byCreat else byUrine
  }

  /** Either branch can decide the renal score on its own. */
  lemma RenalEitherBranchDominates()
    ensures ScoreRenal(Some(5.0), MgPerDl, Some(300.0)) == 4 == RenalByCreat(Some(5.0))
    ensures ScoreRenal(Some(1.3), MgPerDl, Some(100.0)) == 4 == RenalByUrine(Some(100.0))
  {
  }

  // ---- Total ----

  /** The six subscores and their sum. */
  function Sofa(x: SofaInput): (r: SofaResult)
    ensures 0 <= r.resp <= 4 && 0 <= r.coag <= 4 && 0 <= r.liver <= 4
    ensures 0 <= r.cv <= 4 && 0 <= r.cns <= 4 && 0 <= r.renal <= 4
    ensures r.total == r.resp + r.coag + r.liver + r.cv + r.cns + r.renal
    ensures 0 <= r.total <= 24
    ensures r.resp == ScoreResp(x.pao2, x.fio2, x.respSupport)
    ensures r.coag == ScoreCoag(x.platelets)
    ensures r.liver == ScoreLiver(x.bili, x.biliUnit)
    ensures r.cv == ScoreCV(x.meanArterial, x.pressor, x.dose)
    ensures r.cns == ScoreCNS(x.gcs)
    ensures r.renal == ScoreRenal(x.creat, x.creatUnit, x.urine)
  {
    var resp := ScoreResp(x.pao2, x.fio2, x.respSupport);
    var coag := ScoreCoag(x.platelets);
    var liver := ScoreLiver(x.bili, x.biliUnit);
    var cv := ScoreCV(x.meanArterial, x.pressor, x.dose);
    var cns := ScoreCNS(x.gcs);
    var renal := ScoreRenal(x.creat, x.creatUnit, x.urine);
    SofaResult(resp, coag, liver, cv, cns, renal, resp + coag + liver + cv + cns + renal)
  }

  /** An empty form scores 0 in every domain. */
  lemma EmptyFormScoresZero()
    ensures Sofa(SofaInput(None, None, No, None, None, MgPerDl, None, NoPressor, None, None, None, MgPerDl, None)).total == 0
  {
  }
}
