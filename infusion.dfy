/** Continuous-infusion doser: a table of drug presets, the concentration
    of the prepared syringe or bag, the pump rate in mL/h for a dose in one
    of six units, and a flag for a dose outside the preset's usual range. */
module Infusion {
  import opened Wrappers
  import opened Units

  datatype Drug = Norepi | Epi | Dobut | Milri10 | Milri20 | Vaso | Dopa | Dopa200
                | Ntg | Cisat | Isop | Levo | Morph | Nipr | Remi

  datatype AmountUnit = Mg | Mcg | UI

  datatype DoseUnit = McgPerKgPerMin | McgPerMin | UIPerKgPerH | MgPerH | McgPerKgPerH | McgPerH

  /** A preset dilution: `amount` (in `amountUnit`) in `volume` mL, its
      default dose unit, and the usual dose range in that unit. */
  datatype DrugPreset = DrugPreset(name: string, amount: real, amountUnit: AmountUnit, volume: real,
                                   unit: DoseUnit, min: real, max: real)

  /** Mass concentration in mcg/mL, or activity concentration in UI/mL. */
  datatype Concentration = McgPerMl(mcg: real) | UIPerMl(ui: real)

  /** Every preset has a positive dilution, a positive range with min <= max,
      and a default dose unit of the same kind (mass or activity) as its
      amount. */
  function Preset(d: Drug): (p: DrugPreset)
    ensures 0.0 < p.min <= p.max
    ensures p.amount > 0.0 && p.volume > 0.0
    ensures p.amountUnit == UI <==> p.unit == UIPerKgPerH
  {
    match d
    case Norepi => DrugPreset("Noradrenalina 25 mg/250 mL", 25.0, Mg, 250.0, McgPerKgPerMin, 0.02, 1.0)
    case Epi => DrugPreset("Adrenalina 1.6 mg/100 mL", 1.6, Mg, 100.0, McgPerKgPerMin, 0.02, 1.0)
    case Dobut => DrugPreset("Dobutamina 500 mg/250 mL", 500.0, Mg, 250.0, McgPerKgPerMin, 2.0, 20.0)
    case Milri10 => DrugPreset("Milrinona 10 mg/250 mL", 10.0, Mg, 250.0, McgPerKgPerMin, 0.125, 0.75)
    case Milri20 => DrugPreset("Milrinona 20 mg/250 mL", 20.0, Mg, 250.0, McgPerKgPerMin, 0.125, 0.75)
    case Vaso => DrugPreset("Vasopresina 40 UI/100 mL", 40.0, UI, 100.0, UIPerKgPerH, 0.0001, 0.003)
    case Dopa => DrugPreset("Dopamina 400 mg/250 mL", 400.0, Mg, 250.0, McgPerKgPerMin, 2.0, 20.0)
    case Dopa200 => DrugPreset("Dopamina 200 mg/100 mL", 200.0, Mg, 100.0, McgPerKgPerMin, 2.0, 20.0)
    case Ntg => DrugPreset("Nitroglicerina 50 mg/250 mL", 50.0, Mg, 250.0, McgPerMin, 5.0, 200.0)
    case Cisat => DrugPreset("Cisatracurio 200 mg/100 mL", 200.0, Mg, 100.0, McgPerKgPerMin, 0.5, 5.0)
    case Isop => DrugPreset("Isoproterenol 200 mcg/100 mL", 200.0, Mcg, 100.0, McgPerMin, 1.0, 10.0)
    case Levo => DrugPreset("Levosimendan 22.5 mg/250 mL", 22.5, Mg, 250.0, McgPerKgPerMin, 0.05, 0.2)
    case Morph => DrugPreset("Morfina 50 mg/50 mL", 50.0, Mg, 50.0, MgPerH, 1.0, 10.0)
    case Nipr => DrugPreset("Nitroprusiato 50 mg/250 mL", 50.0, Mg, 250.0, McgPerKgPerMin, 0.3, 10.0)
    case Remi => DrugPreset("Remifentanilo 5 mg/100 mL", 5.0, Mg, 100.0, McgPerKgPerMin, 0.025, 0.3)
  }

  /** The number a concentration carries, whatever its kind. */
  function ConcValue(c: Concentration): real {
    match c
    case McgPerMl(v) => v
    case UIPerMl(v) => v
  }

  /** Concentration from the amount and the volume: mg are turned into mcg
      (x 1000), mcg and UI are taken as they are. A volume of 0 gives no
      concentration. */
  function Concentrate(unit: AmountUnit, amount: real, volume: real): (c: Option<Concentration>)
    ensures c.Some? <==> volume != 0.0
    ensures c.Some? ==> (c.value.UIPerMl? <==> unit == UI)
    ensures c.Some? ==> ConcValue(c.value) * volume == if unit == Mg then amount * 1000.0 else amount
  {
    if volume == 0.0 then None
    else match unit
      case Mg => Some(McgPerMl((amount * 1000.0) / volume))
      case Mcg => Some(McgPerMl(amount / volume))
      case UI => Some(UIPerMl(amount / volume))
  }

  /** Units that are per kilogram of body weight. */
  predicate PerKg(u: DoseUnit) {
    u == McgPerKgPerMin || u == UIPerKgPerH || u == McgPerKgPerH
  }

  /** A dose unit can be served by a concentration of the same kind: UI/kg/h
      by UI/mL, every other unit by mcg/mL. */
  predicate Compatible(u: DoseUnit, c: Concentration) {
    u == UIPerKgPerH <==> c.UIPerMl?
  }

  /** The six conversions of a dose to mL/h at concentration `c` (mcg/mL
      or UI/mL): per-minute doses are multiplied by 60, per-kg doses by the
      weight, mg by 1000. */
  function RateFormula(d: real, u: DoseUnit, c: real, weight: real): real
    requires c != 0.0
  {
    match u
    case McgPerKgPerMin => (d * weight / c) * 60.0
    case McgPerMin => (d / c) * 60.0
    case UIPerKgPerH => (d * weight) / c
    case MgPerH => (d * 1000.0) / c
    case McgPerKgPerH => (d * weight) / c
    case McgPerH => d / c
  }

  /** Pump rate in mL/h. Absent unless the dose is given and non-zero, the
      volume is non-zero and the concentration is non-zero; absent also when
      the dose unit needs the other kind of concentration (the app
      computes NaN there). */
  function Rate(dose: Option<real>, volume: real, conc: Option<Concentration>, u: DoseUnit, weight: real): (r: Option<real>)
    ensures r.Some? <==> Truthy(dose) && volume != 0.0 && conc.Some? && ConcValue(conc.value) != 0.0
                         && Compatible(u, conc.value)
  {
    if Truthy(dose) && volume != 0.0 && conc.Some? && ConcValue(conc.value) != 0.0 then
      if Compatible(u, conc.value) then Some(RateFormula(dose.value, u, ConcValue(conc.value), weight))
      else None
    else None
  }

  /** The inverse conversion: the dose that a rate in mL/h delivers at
      concentration `c` and the given weight. */
  function DoseFromRate(rate: real, u: DoseUnit, c: real, weight: real): real
    requires PerKg(u) ==> weight != 0.0
  {
    match u
    case McgPerKgPerMin => rate / 60.0 * c / weight
    case McgPerMin => rate / 60.0 * c
    case UIPerKgPerH => rate * c / weight
    case MgPerH => rate * c / 1000.0
    case McgPerKgPerH => rate * c / weight
    case McgPerH => rate * c
  }

  /** Scaling by k, dividing by c, and undoing both, gives x back. */
  lemma ScaledRoundTrip(x: real, k: real, c: real)
    requires c != 0.0 && k != 0.0
    ensures (x * k / c) * c / k == x
  {
    assert (x * k / c) * c == x * k;
  }

  /** The same with a per-minute dose turned into a per-hour rate (x 60). */
  lemma PerMinuteRoundTrip(x: real, k: real, c: real)
    requires c != 0.0 && k != 0.0
    ensures ((x * k / c) * 60.0) / 60.0 * c / k == x
  {
    assert ((x * k / c) * 60.0) / 60.0 == x * k / c;
    ScaledRoundTrip(x, k, c);
  }

  /** The inverse conversion undoes the formula of each dose unit. */
  lemma RoundTripMcgPerKgPerMin(d: real, c: real, weight: real)
    requires c != 0.0 && weight != 0.0
    ensures DoseFromRate(RateFormula(d, McgPerKgPerMin, c, weight), McgPerKgPerMin, c, weight) == d
  {
    PerMinuteRoundTrip(d, weight, c);
  }

  lemma RoundTripMcgPerMin(d: real, c: real, weight: real)
    requires c != 0.0
    ensures DoseFromRate(RateFormula(d, McgPerMin, c, weight), McgPerMin, c, weight) == d
  {
    PerMinuteRoundTrip(d, 1.0, c);
  }

  lemma RoundTripUIPerKgPerH(d: real, c: real, weight: real)
    requires c != 0.0 && weight != 0.0
    ensures DoseFromRate(RateFormula(d, UIPerKgPerH, c, weight), UIPerKgPerH, c, weight) == d
  {
    ScaledRoundTrip(d, weight, c);
  }

  lemma RoundTripMgPerH(d: real, c: real, weight: real)
    requires c != 0.0
    ensures DoseFromRate(RateFormula(d, MgPerH, c, weight), MgPerH, c, weight) == d
  {
    ScaledRoundTrip(d, 1000.0, c);
  }

  lemma RoundTripMcgPerKgPerH(d: real, c: real, weight: real)
    requires c != 0.0 && weight != 0.0
    ensures DoseFromRate(RateFormula(d, McgPerKgPerH, c, weight), McgPerKgPerH, c, weight) == d
  {
    ScaledRoundTrip(d, weight, c);
  }

  lemma RoundTripMcgPerH(d: real, c: real, weight: real)
    requires c != 0.0
    ensures DoseFromRate(RateFormula(d, McgPerH, c, weight), McgPerH, c, weight) == d
  {
    ScaledRoundTrip(d, 1.0, c);
  }

  /** Converting a computed rate back gives the dose it came from, for every
      dose unit (for the per-kg units, when the weight is non-zero). */
  lemma RateRoundTrip(dose: Option<real>, volume: real, conc: Option<Concentration>, u: DoseUnit, weight: real)
    requires Rate(dose, volume, conc, u, weight).Some?
    requires PerKg(u) ==> weight != 0.0
    ensures DoseFromRate(Rate(dose, volume, conc, u, weight).value, u, ConcValue(conc.value), weight) == dose.value
  {
    var d, c := dose.value, ConcValue(conc.value);
    match u
    case McgPerKgPerMin => RoundTripMcgPerKgPerMin(d, c, weight);
    case McgPerMin => RoundTripMcgPerMin(d, c, weight);
    case UIPerKgPerH => RoundTripUIPerKgPerH(d, c, weight);
    case MgPerH => RoundTripMgPerH(d, c, weight);
    case McgPerKgPerH => RoundTripMcgPerKgPerH(d, c, weight);
    case McgPerH => RoundTripMcgPerH(d, c, weight);
  }

  /** With a positive dose, weight and concentration the rate is positive. */
  lemma RatePositive(dose: Option<real>, volume: real, conc: Option<Concentration>, u: DoseUnit, weight: real)
    requires Rate(dose, volume, conc, u, weight).Some?
    requires dose.value > 0.0 && weight > 0.0 && ConcValue(conc.value) > 0.0
    ensures Rate(dose, volume, conc, u, weight).value > 0.0
  {
  }

  /** A dose below the preset's minimum or above its maximum. The raw number
      is compared whatever dose unit is selected. */
  predicate OutOfRange(dose: Option<real>, p: DrugPreset) {
    dose.Some? && (dose.value < p.min || dose.value > p.max)
  }

  /** The dose set when a drug is chosen: 0.0005 for a UI/kg/h preset, the
      preset's minimum for mcg/min and mg/h presets, 0.1 otherwise. */
  function ResetDose(p: DrugPreset): (d: real)
    ensures p.unit == UIPerKgPerH ==> d == 0.0005
    ensures p.unit == McgPerMin || p.unit == MgPerH ==> d == p.min
    ensures !(p.unit in {UIPerKgPerH, McgPerMin, MgPerH}) ==> d == 0.1
  {
    if p.unit == UIPerKgPerH then 0.0005
    else if p.unit == McgPerMin || p.unit == MgPerH then p.min
    else 0.1
  }

  /** For UI/kg/h, mcg/min and mg/h presets the reset dose is within range. */
  lemma ResetDoseInRange(d: Drug)
    requires Preset(d).unit in {UIPerKgPerH, McgPerMin, MgPerH}
    ensures !OutOfRange(Some(ResetDose(Preset(d))), Preset(d))
  {
  }

  /** For the mcg/kg/min presets the fixed reset dose 0.1 is flagged exactly
      for dobutamine, both milrinones, both dopamines, cisatracurium and
      nitroprusside. */
  lemma ResetDoseFlagged(d: Drug)
    requires Preset(d).unit == McgPerKgPerMin
    ensures OutOfRange(Some(ResetDose(Preset(d))), Preset(d))
        <==> d in {Dobut, Milri10, Milri20, Dopa, Dopa200, Cisat, Nipr}
  {
  }

  /** Norepinephrine 25 mg in 250 mL is 100 mcg/mL; 0.1 mcg/kg/min for
      70 kg runs at (0.1 * 70 / 100) * 60 = 4.2 mL/h, within range. */
  lemma NorepinephrineWorkedCase()
    ensures Concentrate(Mg, 25.0, 250.0) == Some(McgPerMl(100.0))
    ensures Rate(Some(0.1), 250.0, Some(McgPerMl(100.0)), McgPerKgPerMin, 70.0) == Some(4.2)
    ensures !OutOfRange(Some(0.1), Preset(Norepi))
  {
  }

  /** The doser's form state: weight, chosen drug, dose, dilution and unit.
      A blank field reads as 0 (`Some(0.0)`); `None` is a
      number that could not be read (NaN). */
  class Doser {
    var weight: Option<real>
    var drug: Drug
    var dose: Option<real>
    var amount: Option<real>
    var volume: Option<real>
    var units: DoseUnit

    /** The initial form, then the drug-change effect for the initial drug. */
    constructor ()
      ensures weight == Some(70.0) && drug == Norepi && dose == Some(0.1)
      ensures amount == Some(25.0) && volume == Some(250.0) && units == McgPerKgPerMin
    {
      weight, drug, dose := Some(70.0), Norepi, Some(0.1);
      amount, volume, units := Some(25.0), Some(250.0), McgPerKgPerMin;
      new;
      SelectDrug(Norepi);
    }

    /** Choosing a drug resets amount, volume, unit and dose from its preset;
      the weight is kept. */
    method SelectDrug(d: Drug)
      modifies this
      ensures drug == d && weight == old(weight)
      ensures amount == Some(Preset(d).amount) && volume == Some(Preset(d).volume)
      ensures units == Preset(d).unit && dose == Some(ResetDose(Preset(d)))
      ensures units in {UIPerKgPerH, McgPerMin, MgPerH} ==> !OutOfRangeNow()
      ensures CurrentConcentration().Some? && Compatible(units, CurrentConcentration().value)
    {
      drug := d;
      var p := Preset(d);
      amount := Some(p.amount);
      volume := Some(p.volume);
      units := p.unit;
      if p.unit == UIPerKgPerH {
        dose := Some(0.0005);
      } else if p.unit == McgPerMin || p.unit == MgPerH {
        dose := Some(p.min);
      } else {
        dose := Some(0.1);
      }
      if p.unit in {UIPerKgPerH, McgPerMin, MgPerH} {
        ResetDoseInRange(d);
      }
    }

    /** The concentration shown for the current form. */
    function CurrentConcentration(): Option<Concentration>
      reads this
    {
      Concentrate(Preset(drug).amountUnit, OrZero(amount), OrZero(volume))
    }

    /** The rate shown for the current form; a blank weight reads as 0. */
    function CurrentRate(): Option<real>
      reads this
    {
      Rate(dose, OrZero(volume), CurrentConcentration(), units, OrZero(weight))
    }

    /** The out-of-range flag for the current form. */
    predicate OutOfRangeNow()
      reads this
    {
      OutOfRange(dose, Preset(drug))
    }
  }
}
