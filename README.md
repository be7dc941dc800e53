# Cardiac critical-care calculators in Dafny

This project models the computing core of a Spanish-language cardiac
critical-care web app. The app has six bedside calculators:

- **GRACE** — the in-hospital score for acute coronary syndrome. It adds
  table points for age, heart rate, systolic pressure, creatinine, Killip
  class and three yes/no findings. The sum is clamped to 0..363. In-hospital
  mortality comes from a 20-point nomogram by linear interpolation. The risk
  label is Bajo, Intermedio or Alto.
- **SOFA** — six organ subscores (respiration, coagulation, liver,
  cardiovascular, CNS, renal), each 0..4, and their total.
- **Pulmonary-artery-catheter hemodynamics** — MAP, gradients, indexed
  flows, systemic and pulmonary resistances in dyn·s·cm⁻⁵ and in Wood units,
  PAPi, RAP/PCWP, cardiac power and Fick cardiac output.
- **Infusion doser** — 15 drug presets. It computes the concentration of
  the dilution, the pump rate in mL/h for a dose in one of six units, and
  flags a dose outside the preset's usual range. It is modelled as a `Doser`
  class whose drug selection updates the form in place.
- **Acute pericarditis risk** — high risk when any major criterion holds, or
  when at least two minor criteria hold.
- **Clinical Frailty Scale** — nine levels and the advice shown for the
  selected level.

## How inputs are modelled

- GRACE and SOFA keep a blank field as an empty string; the model reads it
  as `None` (module `Wrappers`).
- The hemodynamics, doser and pericarditis tools read every field with
  `parseFloat(value || '0')` or `parseInt(value || '0')`, so a blank field
  is the number 0: `Some(0.0)` in the model. There `None` stands for a value
  that is not a number (NaN), which the app turns into `undefined`. A blank
  SBP therefore gives MAP = 2·DBP/3, and a blank doser dose is 0, which every
  preset flags as out of range.
- JavaScript truthiness of a number ("present and non-zero") is
  `Units.Truthy`.
- Every quantity is a mathematical `real`. `Math.round` is `Units.Round`.

Two consequences of the tables are worth spelling out:

- GRACE, worked case (age 70, HR 80, SBP 120, creatinine 1.0 mg/dL,
  Killip I, enzymes raised): at age 70 the age table gives 75 and at SBP 120
  it gives 34, so the case totals 139 (`Grace.WorkedCase`).
- SOFA respiration: a ratio below 100 without respiratory support falls
  through to `ratio < 300` and scores 2 (`Sofa.RespBands`).

## Model

| member | source | states |
|---|---|---|
| Units.CreatinineToMgdl | src/components/ui/scores/GraceCalculator.tsx:11-14 | the mg/dL value times 88.4 gives back the µmol/L value; sign and zero are preserved |
| Units.BilirubinToMgdl | src/components/ui/scores/SOFACalculator.tsx:9 | the mg/dL value times 17.1 gives back the µmol/L value; sign and zero are preserved |
| Units.ConversionsMonotone | src/components/ui/scores/SOFACalculator.tsx:8-9 | both unit conversions preserve order |
| Units.Clamp | src/components/ui/scores/GraceCalculator.tsx:7-9 | the result lies in [lo, hi]; it equals x inside the range, lo below it and hi above it |
| Units.ClampMonotone | src/components/ui/scores/SOFACalculator.tsx:11 | clamping preserves order |
| Units.Round | src/components/ui/scores/GraceCalculator.tsx:152 | the rounded integer is within half a unit of x, with halves rounded up |
| Units.RoundIntegral | src/components/ui/scores/GraceCalculator.tsx:152 | rounding an integral score leaves it unchanged |
| Units.OrZero | src/App.tsx:155 | `x \|\| 0` on a form number: a present value is kept, a blank one becomes 0 |
| Units.OrOne | src/App.tsx:155 | `x \|\| 1`: 0 becomes 1, a non-zero x is kept, so the result is never 0 |
| Units.Truthy | src/App.tsx:155 | a number used as a condition: true iff present and non-zero |
| Grace.PtsAge | src/components/ui/scores/GraceCalculator.tsx:17-26 | age points are one of the eight table values |
| Grace.PtsHR | src/components/ui/scores/GraceCalculator.tsx:28-36 | heart-rate points are one of the seven table values |
| Grace.PtsSBP | src/components/ui/scores/GraceCalculator.tsx:38-46 | systolic-pressure points are one of the seven table values |
| Grace.PtsCreatinine | src/components/ui/scores/GraceCalculator.tsx:49-57 | creatinine points are one of the seven table values |
| Grace.PtsKillip | src/components/ui/scores/GraceCalculator.tsx:59-66 | Killip points are 0, 20, 39 or 59 |
| Grace.PtsYesNo | src/components/ui/scores/GraceCalculator.tsx:68-70 | a "yes" earns exactly its points, a "no" earns 0 |
| Grace.KillipMonotone | src/components/ui/scores/GraceCalculator.tsx:59-66 | a worse Killip class never earns fewer points |
| Grace.PointTablesMonotone | src/components/ui/scores/GraceCalculator.tsx:17-57 | age, heart-rate and creatinine points never fall as the value rises; systolic-pressure points never rise |
| Grace.ThresholdsGoUp | src/components/ui/scores/GraceCalculator.tsx:17-57 | each band's lower bound belongs to the higher band (age 70 earns 75, SBP 120 earns 34, HR 50 earns 3, creatinine 1.2 earns 10) |
| Grace.AllValid | src/components/ui/scores/GraceCalculator.tsx:129-130 | the form is valid iff age, HR, SBP and creatinine are all filled in and non-negative |
| Grace.CreatMgdl | src/components/ui/scores/GraceCalculator.tsx:135 | creatinine in mg/dL is taken as entered; in µmol/L it is divided by 88.4 |
| Grace.RawScore | src/components/ui/scores/GraceCalculator.tsx:137-145 | the unclamped sum of the eight point items lies in 1..372 |
| Grace.GraceScore | src/components/ui/scores/GraceCalculator.tsx:129-158 | there is no result exactly when a field is blank or negative; otherwise the score is min(raw, 363) in 1..363, with the mortality and the label of that score and the creatinine shown in mg/dL |
| Grace.ScoreMonotone | src/components/ui/scores/GraceCalculator.tsx:129-158 | a patient worse in every item (older, faster, lower SBP, higher creatinine, worse Killip, more "yes") never gets a lower score |
| Grace.KillipAndFlagsNeverLower | src/components/ui/scores/GraceCalculator.tsx:137-147 | raising the Killip class or turning any finding to "yes" never lowers the score |
| Grace.LabelRisk | src/components/ui/scores/GraceCalculator.tsx:112-116 | Low iff score <= 108; Intermediate iff 108 < score <= 140; High iff score > 140 |
| Grace.LabelText | src/components/ui/scores/GraceCalculator.tsx:113-115 | the label shown: "Bajo", "Intermedio", "Alto" |
| Grace.LabelMonotone | src/components/ui/scores/GraceCalculator.tsx:112-116 | a higher score never gets a milder label |
| Grace.NomogramShape | src/components/ui/scores/GraceCalculator.tsx:73-94 | 20 rows at scores 60, 70, …, 250, with strictly rising mortality |
| Grace.MortOrdered | src/components/ui/scores/GraceCalculator.tsx:73-94 | mortality in the nomogram is ordered like the rows |
| Grace.Lerp | src/components/ui/scores/GraceCalculator.tsx:105-106 | linear interpolation between two rows: the lower row's mortality at its score, the upper row's at its score |
| Grace.Mortality | src/components/ui/scores/GraceCalculator.tsx:96-110 | reference definition of the lookup: the first row's mortality at or below 60, the last row's at or above 250, otherwise interpolation in the segment `Grace.Segment` gives; its properties are the Mortality lemmas below |
| Grace.LerpBounds | src/components/ui/scores/GraceCalculator.tsx:105-106 | an interpolated value lies between the two rows' mortalities, and equals the upper one at the upper score |
| Grace.LerpMonotone | src/components/ui/scores/GraceCalculator.tsx:105-106 | interpolation within a segment preserves order |
| Grace.Segment | src/components/ui/scores/GraceCalculator.tsx:101-104 | for a score strictly inside the table: the index of the row pair with N[i].score < score <= N[i+1].score |
| Grace.SegmentUnique | src/components/ui/scores/GraceCalculator.tsx:101-104 | that row pair is the only one bracketing the score |
| Grace.InterpolateMortality | src/components/ui/scores/GraceCalculator.tsx:96-110 | the loop always returns a value (never the NaN fallback), and it equals the reference `Mortality` of the score |
| Grace.MortalityEnds | src/components/ui/scores/GraceCalculator.tsx:97-99 | at or below 60 mortality is 0.2 %; at or above 250 it is 52 % |
| Grace.MortalityAtTableScores | src/components/ui/scores/GraceCalculator.tsx:73-110 | at every nomogram score, mortality is that row's value |
| Grace.MortalityBracketed | src/components/ui/scores/GraceCalculator.tsx:101-107 | inside the table, mortality lies between the mortalities of the bracketing rows |
| Grace.MortalityRange | src/components/ui/scores/GraceCalculator.tsx:96-110 | mortality is always within 0.2 %..52 % |
| Grace.MortalityMonotone | src/components/ui/scores/GraceCalculator.tsx:96-110 | a higher score never gives lower mortality |
| Grace.WorkedCase | src/components/ui/scores/GraceCalculator.tsx:129-158 | age 70, HR 80, SBP 120, creatinine 1.0 mg/dL, Killip I, enzymes raised: score 139, mortality 2.82 %, Intermediate |
| Sofa.RespBand | src/components/ui/scores/SOFACalculator.tsx:45-49 | the respiratory band is 0..4, and 3 or 4 only with respiratory support |
| Sofa.RespBandMonotone | src/components/ui/scores/SOFACalculator.tsx:45-49 | a lower PaO2/FiO2 ratio never gets a lower band |
| Sofa.ScoreResp | src/components/ui/scores/SOFACalculator.tsx:40-50 | 0..4; 0 when PaO2 or FiO2 is blank; 3 or 4 only with support |
| Sofa.RespBands | src/components/ui/scores/SOFACalculator.tsx:42-49 | for non-zero FiO2, the subscore is the band of 100·PaO2/FiO2: >= 400 gives 0; < 100 with support 4; < 200 with support 3; < 300 gives 2 (even below 100 without support); else 1 |
| Sofa.ScoreCoag | src/components/ui/scores/SOFACalculator.tsx:52-60 | 0..4, and 0 for a blank count |
| Sofa.CoagMonotone | src/components/ui/scores/SOFACalculator.tsx:52-60 | fewer platelets never score lower; the 150 and 20 boundaries fall in the milder band |
| Sofa.LiverBand | src/components/ui/scores/SOFACalculator.tsx:65-69 | the bilirubin band is 0..4 |
| Sofa.ScoreLiver | src/components/ui/scores/SOFACalculator.tsx:62-70 | 0 when blank; otherwise the band of the value in mg/dL, with µmol/L divided by 17.1 |
| Sofa.LiverUnitsAgreeAndMonotone | src/components/ui/scores/SOFACalculator.tsx:62-70 | v µmol/L scores as v/17.1 mg/dL; in either unit, more bilirubin never scores lower |
| Sofa.ScoreCV | src/components/ui/scores/SOFACalculator.tsx:72-97 | 0..4; without a pressor, 1 exactly when MAP is given and below 70, else 0; dobutamine gives 2; dopamine at least 2; epinephrine or norepinephrine at least 3 |
| Sofa.PressorBands | src/components/ui/scores/SOFACalculator.tsx:84-95 | dopamine <= 5 gives 2, <= 15 gives 3, above that 4; epinephrine and norepinephrine <= 0.1 give 3, above that 4; a blank dose reads as 0 |
| Sofa.ScoreCNS | src/components/ui/scores/SOFACalculator.tsx:99-107 | 0..4; 0 when blank or GCS >= 15; 4 when GCS <= 5 (values clamped to 3..15) |
| Sofa.CNSMonotone | src/components/ui/scores/SOFACalculator.tsx:99-107 | a lower GCS never scores lower |
| Sofa.RenalByCreat | src/components/ui/scores/SOFACalculator.tsx:115-120 | the creatinine band is 0..4, and 0 when blank |
| Sofa.RenalByUrine | src/components/ui/scores/SOFACalculator.tsx:122-125 | the urine band is 0, 3 or 4, and 0 when blank or >= 500 mL/day |
| Sofa.ScoreRenal | src/components/ui/scores/SOFACalculator.tsx:109-128 | the renal subscore is the worse of the creatinine band (µmol/L divided by 88.4) and the urine band |
| Sofa.RenalEitherBranchDominates | src/components/ui/scores/SOFACalculator.tsx:127 | either branch can decide the renal subscore |
| Sofa.Sofa | src/components/ui/scores/SOFACalculator.tsx:130-138 | each subscore is its organ's score in 0..4, and the total is their sum, 0..24 |
| Sofa.EmptyFormScoresZero | src/components/ui/scores/SOFACalculator.tsx:130-138 | a blank form scores 0 |
| Hemodynamics.Bmi | src/App.tsx:155 | present iff weight and height are truthy; BMI·(height/100)² equals the weight |
| Hemodynamics.MeanArterial | src/App.tsx:155 | present iff SBP and DBP are given; 3·MAP = SBP + 2·DBP, and MAP lies between DBP and SBP |
| Hemodynamics.Gradient | src/App.tsx:155 | TPG/DPG present iff both pressures are given; gradient + PCWP equals the arterial pressure |
| Hemodynamics.Indexed | src/App.tsx:155 | an indexed value is present iff the value is given and BSA is truthy; index·BSA gives back the value |
| Hemodynamics.StrokeVolume | src/App.tsx:155 | present iff CO is given and HR is truthy; SV·HR = 1000·CO |
| Hemodynamics.SvrWoodUnits | src/App.tsx:155 | present iff MAP is given and CO is non-zero; SVR_WU·CO = MAP − RAP |
| Hemodynamics.Svr | src/App.tsx:155 | present iff MAP is given and CO is non-zero; SVR·CO = 80·(MAP − RAP) |
| Hemodynamics.PvrWoodUnits | src/App.tsx:155 | present iff mPAP, PCWP are given and CO is non-zero; PVR_WU·CO = mPAP − PCWP |
| Hemodynamics.Pvr | src/App.tsx:155 | present iff mPAP, PCWP are given and CO is non-zero; PVR·CO = 80·(mPAP − PCWP) |
| Hemodynamics.ResistanceUnits | src/App.tsx:155 | a resistance in dyn·s·cm⁻⁵ is present iff it is present in Wood units, and equals 80 times it |
| Hemodynamics.Papi | src/App.tsx:155 | present iff sPAP and dPAP are given; PAPi·RAP = sPAP − dPAP, with a zero RAP replaced by 1 |
| Hemodynamics.RapOverPcwp | src/App.tsx:155 | present iff RAP is non-zero and PCWP is given; ratio·PCWP = RAP, with a zero PCWP replaced by 1 |
| Hemodynamics.Cpo | src/App.tsx:155 | present iff MAP and CO are given; 451·CPO = MAP·CO |
| Hemodynamics.AvO2Difference | src/App.tsx:155 | for positive hemoglobin the arteriovenous O2 difference is positive iff SaO2 > SvO2 |
| Hemodynamics.FickCardiacOutput | src/App.tsx:155 | present iff BSA and Hb are truthy, saturations are given and the O2 difference exceeds 0.1; CO·diff·1000 = 125·BSA, positive for positive BSA |
| Hemodynamics.Derive | src/App.tsx:155 | which outputs are present for which inputs, and every one of the 15 outputs (BMI, MAP, TPG, DPG, CI, SV, SVI, SVR, SVR_WU, PVR, PVR_WU, PAPi, RAP/PCWP, CPO, Fick CO) is the matching derivation above; an unreadable RAP reads as 0 |
| Hemodynamics.DerivedResistances | src/App.tsx:155 | in the derived panel, SVR = 80·SVR_WU and PVR = 80·PVR_WU whenever present |
| Hemodynamics.SvrWorkedCase | src/App.tsx:155 | SBP 120, DBP 60, RAP 8, CO 4.5: MAP 80, SVR_WU 16, SVR 1280 |
| Infusion.Preset | src/App.tsx:157 | every preset has a positive dilution and range (min <= max), and is in UI exactly when its dose unit is UI/kg/h |
| Infusion.Concentrate | src/App.tsx:157 | present iff volume is non-zero; UI/mL exactly for UI amounts; concentration·volume = amount (×1000 for mg) |
| Infusion.Compatible | src/App.tsx:157 | UI/kg/h needs a UI/mL concentration, every other unit a mcg/mL one (the other pairing computes NaN in the app) |
| Infusion.RateFormula | src/App.tsx:157 | the six-way unit switch: per-minute doses times 60, per-kg doses times the weight, mg/h times 1000, each divided by the concentration; `Infusion.RateRoundTrip` proves each case inverted by `DoseFromRate` |
| Infusion.Rate | src/App.tsx:157 | a rate exists iff the dose is truthy, the volume and concentration are non-zero and the unit matches the concentration's kind |
| Infusion.RateRoundTrip | src/App.tsx:157 | converting the rate back into a dose in the same unit gives the entered dose, for all six units |
| Infusion.RatePositive | src/App.tsx:157 | positive dose, weight and concentration give a positive rate |
| Infusion.OutOfRange | src/App.tsx:157 | a given dose is flagged iff it is below the preset's minimum or above its maximum, whatever unit is selected |
| Infusion.ResetDose | src/App.tsx:157 | choosing a drug sets 0.0005 for UI/kg/h, the preset's minimum for mcg/min and mg/h, and 0.1 otherwise |
| Infusion.ResetDoseInRange | src/App.tsx:157 | for UI/kg/h, mcg/min and mg/h presets the reset dose is never flagged |
| Infusion.ResetDoseFlagged | src/App.tsx:157 | for mcg/kg/min presets, the reset dose 0.1 is flagged exactly for dobutamine, both milrinones, both dopamines, cisatracurium and nitroprusside |
| Infusion.NorepinephrineWorkedCase | src/App.tsx:157 | 25 mg in 250 mL is 100 mcg/mL; 0.1 mcg/kg/min at 70 kg runs at 4.2 mL/h and is not flagged |
| Infusion.Doser.constructor | src/App.tsx:157 | the initial form: 70 kg, norepinephrine 25 mg/250 mL, 0.1 mcg/kg/min |
| Infusion.Doser.CurrentConcentration | src/App.tsx:157 | the concentration shown: the preset's amount unit applied to the current amount and volume, unreadable ones reading as 0 |
| Infusion.Doser.CurrentRate | src/App.tsx:157 | the rate shown: `Infusion.Rate` of the current dose, volume, concentration, unit and weight |
| Infusion.Doser.OutOfRangeNow | src/App.tsx:157 | the out-of-range flag for the current dose against the chosen drug's preset |
| Infusion.Doser.SelectDrug | src/App.tsx:157 | drug change resets amount, volume, unit and dose from the preset and keeps the weight; the new concentration exists and matches the unit; UI/kg/h, mcg/min and mg/h doses are in range |
| Pericarditis.CountTrue | src/App.tsx:153 | the count is the number of true flags (their multiplicity in the multiset of flags), at most their number, and 0 exactly when none holds |
| Pericarditis.MajorCriteria | src/App.tsx:153 | the major criteria: tamponade or instability, large effusion, subacute course |
| Pericarditis.MinorCriteria | src/App.tsx:153 | the minor criteria: fever, age strictly over 65, raised troponin, immunosuppression, anticoagulation |
| Pericarditis.CountAtLeastTwo | src/App.tsx:153 | at least two flags hold iff two different positions hold |
| Pericarditis.Assess | src/App.tsx:153 | the displayed counts are the numbers of true major and minor criteria, at most 3 major and 5 minor criteria; no major criterion iff none of tamponade, large effusion, subacute course; high risk iff a major criterion or at least two minor ones |
| Pericarditis.HighRiskRule | src/App.tsx:153 | high risk iff a major criterion holds or two different minor criteria hold |
| Pericarditis.AgeThreshold | src/App.tsx:153 | age counts only above 65: fever at 65 is not high risk, fever at 66 is |
| Frailty.CfsItemsIndexed | src/components/ui/Forms/ClinicalFrailtyForm.tsx:10-20 | nine levels, the one at position i having value i + 1 |
| Frailty.Advise | src/components/ui/Forms/ClinicalFrailtyForm.tsx:22-28 | each advice band exactly covers its range: <= 3, 4-5, 6, 7-8, >= 9 |
| Frailty.Tag | src/components/ui/Forms/ClinicalFrailtyForm.tsx:23-27 | the tag shown for each advice band |
| Frailty.Note | src/components/ui/Forms/ClinicalFrailtyForm.tsx:23-27 | the clinical note shown for each advice band |
| Frailty.AdviseMonotone | src/components/ui/Forms/ClinicalFrailtyForm.tsx:22-28 | a higher level never gets milder advice |
| Frailty.AdviceFor | src/components/ui/Forms/ClinicalFrailtyForm.tsx:31-32 | no advice before a level is selected; otherwise the advice of the selected level |

## Left out

- Body surface area (DuBois, `0.007184·W^0.425·H^0.725`): real powers cannot
  be computed in Dafny, so BSA is an input of `Hemodynamics.PacInput`.
- Floating point: IEEE NaN and Infinity are not modelled. One exception: a
  FiO2 of 0 in `Sofa.ScoreResp` follows the IEEE outcome of the division.
- Hemodynamics.Svr, Hemodynamics.SvrWoodUnits, Hemodynamics.Pvr,
  Hemodynamics.PvrWoodUnits: with CO = 0 the app shows Infinity or NaN; the
  model gives no value.
- Infusion.Concentrate: with volume = 0 the app yields a non-finite
  concentration; the model gives none.
- Infusion.Doser: weight, dose, amount, volume and unit setters are plain
  field assignments and are not modelled as methods.
- Saving and loading cases or presets in local storage, alerts, patient
  identifiers and printing are left out: they are I/O.
- Routing between tools, the catalog search and the home screen are left
  out: they are navigation only.
- Number formatting, colours, emojis, level descriptions, recommendation
  texts and the reference ranges panel are left out: they are display text.
  A rate or concentration of 0 is shown as "—", which is display logic.
- Parsing of form text (`parseInt`, `parseFloat`, `Number`) is left out.
  A field is modelled as already read, as described above.
