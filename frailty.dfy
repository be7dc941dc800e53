/** Clinical Frailty Scale: a nine-level table and the advice given for a
    selected level. */
module Frailty {
  import opened Wrappers

  /** A level of the scale. */
  type CfsValue = v: int | 1 <= v <= 9 witness 1

  datatype CfsItem = CfsItem(value: CfsValue, title: string)

  const CfsItems: seq<CfsItem> := [
    CfsItem(1, "Muy en forma"), CfsItem(2, "En forma"), CfsItem(3, "Bien"),
    CfsItem(4, "Vulnerable"), CfsItem(5, "Fragilidad leve"), CfsItem(6, "Fragilidad moderada"),
    CfsItem(7, "Fragilidad grave"), CfsItem(8, "Muy frágil"), CfsItem(9, "Terminal")]

  /** Nine items, the one at position i having value i + 1. */
  lemma CfsItemsIndexed()
    ensures |CfsItems| == 9
    ensures forall i :: 0 <= i < |CfsItems| ==> CfsItems[i].value == i + 1
  {
  }

  datatype Advice = NotFrail | MildFrailty | ModerateFrailty | SevereFrailty | Terminal

  /** Advice bands: <= 3, 4-5, 6, 7-8, 9 and above. */
  function Advise(score: int): (a: Advice)
    ensures a == NotFrail <==> score <= 3
    ensures a == MildFrailty <==> 4 <= score <= 5
    ensures a == ModerateFrailty <==> score == 6
    ensures a == SevereFrailty <==> 7 <= score <= 8
    ensures a == Terminal <==> score >= 9
  {
    if score <= 3 then NotFrail
    else if score <= 5 then MildFrailty
    else if score <= 6 then ModerateFrailty
    else if score <= 8 then SevereFrailty
    else Terminal
  }

  /** The tag shown for the advice. */
  function Tag(a: Advice): string {
    match a
    case NotFrail => "No frágil"
    case MildFrailty => "Fragilidad leve"
    case ModerateFrailty => "Fragilidad moderada"
    case SevereFrailty => "Fragilidad grave"
    case Terminal => "Terminal"
  }

  /** The clinical note shown with the advice. */
  function Note(a: Advice): string {
    match a
    case NotFrail => "Candidato a intervenciones agresivas si hay indicación."
    case MildFrailty => "Valorar riesgos/proveedores, escalado selectivo."
    case ModerateFrailty => "Priorizar soporte, objetivos de cuidado, decisiones compartidas."
    case SevereFrailty => "Enfoque conservador/limitación de invasividad; plan paliativo."
    case Terminal => "Enfoque paliativo; adecuación de esfuerzo terapéutico."
  }

  function Severity(a: Advice): nat {
    match a
    case NotFrail => 0
    case MildFrailty => 1
    case ModerateFrailty => 2
    case SevereFrailty => 3
    case Terminal => 4
  }

  /** A higher level never gets milder advice. */
  lemma AdviseMonotone(x: int, y: int)
    requires x <= y
    ensures Severity(Advise(x)) <= Severity(Advise(y))
  {
  }

  /** The result panel: advice for the selected level, none before a
      selection. */
  function AdviceFor(selected: Option<CfsValue>): (a: Option<Advice>)
    ensures a.None? <==> selected.None?
    ensures a.Some? ==> a.value == Advise(selected.value)
  {
    if selected.Some? then Some(Advise(selected.value)) else None
  }
}
