/** Pulmonary-artery-catheter (Swan-Ganz) derived parameters. Each output
    is present or absent according to which inputs are present or
    non-zero. Pressures in mmHg, CO in L/min, weight in kg, height in cm,
    BSA in m², Hb in g/dL, saturations in %. */
module Hemodynamics {
  import opened Wrappers
  import opened Units

  /** The form. A blank RAP reads as 0 and a blank weight or height as 0;
      BSA is supplied by the caller (see README). */
  datatype PacInput = PacInput(
    weight: Option<real>, height: Option<real>, bsa: Option<real>,
    sbp: Option<real>, dbp: Option<real>, hr: Option<real>, rap: Option<real>,
    spap: Option<real>, dpap: Option<real>, mpap: Option<real>, pcwp: Option<real>,
    sao2: Option<real>, svo2: Option<real>, hb: Option<real>, co: Option<real>)

  datatype HemoResult = HemoResult(
    bmi: Option<real>, meanArterial: Option<real>, tpg: Option<real>, dpg: Option<real>,
    ci: Option<real>, sv: Option<real>, svi: Option<real>,
    svr: Option<real>, svrWu: Option<real>, pvr: Option<real>, pvrWu: Option<real>,
    papi: Option<real>, rapOverPcwp: Option<real>, cpo: Option<real>, coFick: Option<real>)

  /** Body-mass index, weight / (height in m)^2, when both are non-zero. */
  function Bmi(weight: Option<real>, height: Option<real>): (r: Option<real>)
    ensures r.Some? <==> Truthy(weight) && Truthy(height)
    ensures r.Some? ==> r.value * (height.value / 100.0) * (height.value / 100.0) == weight.value
    ensures r.Some? && weight.value > 0.0 ==> r.value > 0.0
  {
    var w, h := OrZero(weight), OrZero(height);
    if w != 0.0 && h != 0.0 then
      var m := h / 100.0;
      assert m * m > 0.0;
      Some(w / (m * m))
    else None
  }

  /** Mean arterial pressure (SBP + 2 DBP) / 3: a weighted mean, so it lies
      between DBP and SBP. */
  function MeanArterial(sbp: Option<real>, dbp: Option<real>): (r: Option<real>)
    ensures r.Some? <==> sbp.Some? && dbp.Some?
    ensures r.Some? ==> 3.0 * r.value == sbp.value + 2.0 * dbp.value
    ensures r.Some? && dbp.value <= sbp.value ==> dbp.value <= r.value <= sbp.value
  {
    if sbp.Some? && dbp.Some? then Some((sbp.value + 2.0 * dbp.value) / 3.0) else None
  }

  /** A pressure gradient across the lungs (TPG from mPAP, DPG from dPAP),
      the pulmonary pressure minus PCWP. */
  function Gradient(pa: Option<real>, pcwp: Option<real>): (r: Option<real>)
    ensures r.Some? <==> pa.Some? && pcwp.Some?
    ensures r.Some? ==> r.value + pcwp.value == pa.value
  {
    if pa.Some? && pcwp.Some? then Some(pa.value - pcwp.value) else None
  }

  /** A quantity indexed to body surface area (CI from CO, SVI from SV). */
  function Indexed(q: Option<real>, bsa: Option<real>): (r: Option<real>)
    ensures r.Some? <==> q.Some? && Truthy(bsa)
    ensures r.Some? ==> r.value * bsa.value == q.value
  {
    if q.Some? && Truthy(bsa) then Some(q.value / bsa.value) else None
  }

  /** Stroke volume in mL, 1000 CO / HR; absent when HR is blank or 0. */
  function StrokeVolume(co: Option<real>, hr: Option<real>): (r: Option<real>)
    ensures r.Some? <==> co.Some? && Truthy(hr)
    ensures r.Some? ==> r.value * hr.value == 1000.0 * co.value
  {
    if co.Some? && Truthy(hr) then Some((1000.0 * co.value) / hr.value) else None
  }

  /** Systemic resistance in Wood units, (MAP - RAP) / CO. A CO of 0 gives
      no value. */
  function SvrWoodUnits(meanArterial: Option<real>, rap: real, co: Option<real>): (r: Option<real>)
    ensures r.Some? <==> meanArterial.Some? && Truthy(co)
    ensures r.Some? ==> r.value * co.value == meanArterial.value - rap
  {
    if meanArterial.Some? && Truthy(co) then Some((meanArterial.value - rap) / co.value) else None
  }

  /** Systemic resistance in dyn·s·cm⁻⁵, 80 (MAP - RAP) / CO. */
  function Svr(meanArterial: Option<real>, rap: real, co: Option<real>): (r: Option<real>)
    ensures r.Some? <==> meanArterial.Some? && Truthy(co)
    ensures r.Some? ==> r.value * co.value == 80.0 * (meanArterial.value - rap)
  {
    if meanArterial.Some? && Truthy(co) then Some(80.0 * ((meanArterial.value - rap) / co.value)) else None
  }

  /** Pulmonary resistance in Wood units, (mPAP - PCWP) / CO. */
  function PvrWoodUnits(mpap: Option<real>, pcwp: Option<real>, co: Option<real>): (r: Option<real>)
    ensures r.Some? <==> mpap.Some? && pcwp.Some? && Truthy(co)
    ensures r.Some? ==> r.value * co.value == mpap.value - pcwp.value
  {
    if mpap.Some? && pcwp.Some? && Truthy(co) then Some((mpap.value - pcwp.value) / co.value) else None
  }

  /** Pulmonary resistance in dyn·s·cm⁻⁵, 80 (mPAP - PCWP) / CO. */
  function Pvr(mpap: Option<real>, pcwp: Option<real>, co: Option<real>): (r: Option<real>)
    ensures r.Some? <==> mpap.Some? && pcwp.Some? && Truthy(co)
    ensures r.Some? ==> r.value * co.value == 80.0 * (mpap.value - pcwp.value)
  {
    if mpap.Some? && pcwp.Some? && Truthy(co) then Some(80.0 * ((mpap.value - pcwp.value) / co.value)) else None
  }

  /** Both resistances are 80 times their Wood-unit values, present together. */
  lemma ResistanceUnits(meanArterial: Option<real>, rap: real, mpap: Option<real>, pcwp: Option<real>, co: Option<real>)
    ensures Svr(meanArterial, rap, co).Some? == SvrWoodUnits(meanArterial, rap, co).Some?
    ensures Svr(meanArterial, rap, co).Some? ==>
      Svr(meanArterial, rap, co).value == 80.0 * SvrWoodUnits(meanArterial, rap, co).value
    ensures Pvr(mpap, pcwp, co).Some? == PvrWoodUnits(mpap, pcwp, co).Some?
    ensures Pvr(mpap, pcwp, co).Some? ==>
      Pvr(mpap, pcwp, co).value == 80.0 * PvrWoodUnits(mpap, pcwp, co).value
  {
  }

  /** Pulmonary artery pulsatility index (sPAP - dPAP) / RAP, where a RAP
      of 0 (or blank) is replaced by 1, so it never divides by zero. */
  function Papi(spap: Option<real>, dpap: Option<real>, rap: real): (r: Option<real>)
    ensures r.Some? <==> spap.Some? && dpap.Some?
    ensures r.Some? && rap != 0.0 ==> r.value * rap == spap.value - dpap.value
    ensures r.Some? && rap == 0.0 ==> r.value == spap.value - dpap.value
  {
    if spap.Some? && dpap.Some? then Some((spap.value - dpap.value) / OrOne(rap)) else None
  }

  /** RAP / PCWP, absent when RAP is 0 or blank; a PCWP of 0 is replaced by 1. */
  function RapOverPcwp(rap: real, pcwp: Option<real>): (r: Option<real>)
    ensures r.Some? <==> rap != 0.0 && pcwp.Some?
    ensures r.Some? && pcwp.value != 0.0 ==> r.value * pcwp.value == rap
    ensures r.Some? && pcwp.value == 0.0 ==> r.value == rap
  {
    if rap != 0.0 && pcwp.Some? then Some(rap / OrOne(pcwp.value)) else None
  }

  /** Cardiac power output in W, MAP · CO / 451. */
  function Cpo(meanArterial: Option<real>, co: Option<real>): (r: Option<real>)
    ensures r.Some? <==> meanArterial.Some? && co.Some?
    ensures r.Some? ==> 451.0 * r.value == meanArterial.value * co.value
  {
    if meanArterial.Some? && co.Some? then Some(meanArterial.value * co.value / 451.0) else None
  }

  /** Arterial minus mixed-venous O2 content, 1.34 Hb (SaO2 - SvO2) / 100. */
  function AvO2Difference(hb: real, sao2: real, svo2: real): (d: real)
    ensures hb > 0.0 ==> (d > 0.0 <==> sao2 > svo2)
  {
    var caO2 := 1.34 * hb * (sao2 / 100.0);
    var cvO2 := 1.34 * hb * (svo2 / 100.0);
    assert caO2 - cvO2 == 1.34 * hb * ((sao2 - svo2) / 100.0);
    caO2 - cvO2
  }

  /** Fick cardiac output with an assumed VO2 of 125 mL/min/m²:
      VO2 / (a-v O2 difference) / 1000, only when the difference exceeds 0.1. */
  function FickCardiacOutput(bsa: Option<real>, hb: Option<real>, sao2: Option<real>, svo2: Option<real>): (r: Option<real>)
    ensures r.Some? <==> Truthy(bsa) && Truthy(hb) && sao2.Some? && svo2.Some?
                         && AvO2Difference(hb.value, sao2.value, svo2.value) > 0.1
    ensures r.Some? ==> r.value * AvO2Difference(hb.value, sao2.value, svo2.value) * 1000.0 == 125.0 * bsa.value
    ensures r.Some? && bsa.value > 0.0 ==> r.value > 0.0
  {
    if Truthy(bsa) && Truthy(hb) && sao2.Some? && svo2.Some? then
      var vo2 := 125.0 * bsa.value;
      var d := AvO2Difference(hb.value, sao2.value, svo2.value);
      if d > 0.1 then Some(vo2 / d / 1000.0) else None
    else None
  }

  /** Every derived parameter from one form, each present exactly when its
      own inputs allow it. */
  function Derive(x: PacInput): (r: HemoResult)
    ensures r.meanArterial == MeanArterial(x.sbp, x.dbp)
    ensures r.meanArterial.Some? <==> x.sbp.Some? && x.dbp.Some?
    ensures r.tpg.Some? <==> x.mpap.Some? && x.pcwp.Some?
    ensures r.dpg.Some? <==> x.dpap.Some? && x.pcwp.Some?
    ensures r.sv.Some? <==> x.co.Some? && Truthy(x.hr)
    ensures r.svr.Some? <==> x.sbp.Some? && x.dbp.Some? && Truthy(x.co)
    ensures r.pvr.Some? <==> x.mpap.Some? && x.pcwp.Some? && Truthy(x.co)
    ensures r.papi.Some? <==> x.spap.Some? && x.dpap.Some?
    ensures r.rapOverPcwp.Some? <==> Truthy(x.rap) && x.pcwp.Some?
    ensures r.ci == Indexed(x.co, x.bsa) && r.svi == Indexed(r.sv, x.bsa)
    ensures r.sv == StrokeVolume(x.co, x.hr)
    ensures r.svr == Svr(r.meanArterial, OrZero(x.rap), x.co)
    ensures r.svrWu == SvrWoodUnits(r.meanArterial, OrZero(x.rap), x.co)
    ensures r.pvr == Pvr(x.mpap, x.pcwp, x.co) && r.pvrWu == PvrWoodUnits(x.mpap, x.pcwp, x.co)
    ensures r.coFick == FickCardiacOutput(x.bsa, x.hb, x.sao2, x.svo2)
    ensures r.bmi == Bmi(x.weight, x.height)
    ensures r.tpg == Gradient(x.mpap, x.pcwp) && r.dpg == Gradient(x.dpap, x.pcwp)
    ensures r.papi == Papi(x.spap, x.dpap, OrZero(x.rap))
    ensures r.rapOverPcwp == RapOverPcwp(OrZero(x.rap), x.pcwp)
    ensures r.cpo == Cpo(r.meanArterial, x.co)
  {
    var rap := OrZero(x.rap);
    var mean := MeanArterial(x.sbp, x.dbp);
    var sv := StrokeVolume(x.co, x.hr);
    ResistanceUnits(mean, rap, x.mpap, x.pcwp, x.co);
    HemoResult(
      bmi := Bmi(x.weight, x.height),
      meanArterial := mean,
      tpg := Gradient(x.mpap, x.pcwp),
      dpg := Gradient(x.dpap, x.pcwp),
      ci := Indexed(x.co, x.bsa),
      sv := sv,
      svi := Indexed(sv, x.bsa),
      svr := Svr(mean, rap, x.co),
      svrWu := SvrWoodUnits(mean, rap, x.co),
      pvr := Pvr(x.mpap, x.pcwp, x.co),
      pvrWu := PvrWoodUnits(x.mpap, x.pcwp, x.co),
      papi := Papi(x.spap, x.dpap, rap),
      rapOverPcwp := RapOverPcwp(rap, x.pcwp),
      cpo := Cpo(mean, x.co),
      coFick := FickCardiacOutput(x.bsa, x.hb, x.sao2, x.svo2))
  }

  /** In one form, SVR and PVR are 80 times their Wood-unit values. */
  lemma DerivedResistances(x: PacInput)
    ensures var r := Derive(x);
      && (r.svr.Some? ==> r.svrWu.Some? && r.svr.value == 80.0 * r.svrWu.value)
      && (r.pvr.Some? ==> r.pvrWu.Some? && r.pvr.value == 80.0 * r.pvrWu.value)
  {
    var r := Derive(x);
    ResistanceUnits(r.meanArterial, OrZero(x.rap), x.mpap, x.pcwp, x.co);
  }

  /** MAP 80 (SBP 120, DBP 60), RAP 8, CO 4.5: SVR = 80 · 72 / 4.5 = 1280
      dyn·s·cm⁻⁵, i.e. 16 Wood units. */
  lemma SvrWorkedCase()
    ensures var r := Derive(PacInput(None, None, None, Some(120.0), Some(60.0), Some(80.0), Some(8.0),
                                     None, None, None, None, None, None, None, Some(4.5)));
      r.meanArterial == Some(80.0) && r.svr == Some(1280.0) && r.svrWu == Some(16.0)
  {
  }
}
