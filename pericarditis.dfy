/** Acute pericarditis risk rule: any major criterion, or at least two
    minor ones, makes the case high risk. */
module Pericarditis {

  /** The form. Age is an integer (the field is read with parseInt). */
  datatype PericarditisInput = PericarditisInput(
    age: int, fever: bool, tamponade: bool, subacute: bool, largeEffusion: bool,
    troponin: bool, immunosuppressed: bool, anticoagulated: bool)

  datatype Assessment = Assessment(major: nat, minor: nat, high: bool)

  /** How many flags hold. */
  function CountTrue(flags: seq<bool>): (n: nat)
    ensures n <= |flags|
    ensures n == multiset(flags)[true]
    ensures n == 0 <==> forall i :: 0 <= i < |flags| ==> !flags[i]
  {
    if |flags| == 0 then 0
    else
      assert flags == [flags[0]] + flags[1..];
      (if flags[0] then 1 else 0) + CountTrue(flags[1..])
  }

  /** At least two flags hold exactly when two different positions hold. */
  lemma {:induction false} CountAtLeastTwo(flags: seq<bool>)
    ensures CountTrue(flags) >= 2 <==> exists i, j :: 0 <= i < j < |flags| && flags[i] && flags[j]
  {
    if |flags| > 0 {
      var rest := flags[1..];
      CountAtLeastTwo(rest);
      if CountTrue(flags) >= 2 {
        if flags[0] {
          var j :| 0 <= j < |rest| && rest[j];
          assert flags[0] && flags[j + 1];
        } else {
          var i, j :| 0 <= i < j < |rest| && rest[i] && rest[j];
          assert flags[i + 1] && flags[j + 1];
        }
      }
      if exists i, j :: 0 <= i < j < |flags| && flags[i] && flags[j] {
        var i, j :| 0 <= i < j < |flags| && flags[i] && flags[j];
        if i == 0 {
          assert rest[j - 1];
        } else {
          assert rest[i - 1] && rest[j - 1];
        }
      }
    }
  }

  /** Major criteria: tamponade or instability, large effusion, subacute course. */
  function MajorCriteria(x: PericarditisInput): seq<bool> {
    [x.tamponade, x.largeEffusion, x.subacute]
  }

  /** Minor criteria: fever, age over 65, raised troponin, immunosuppression,
      anticoagulation. */
  function MinorCriteria(x: PericarditisInput): seq<bool> {
    [x.fever, x.age > 65, x.troponin, x.immunosuppressed, x.anticoagulated]
  }

  function Assess(x: PericarditisInput): (r: Assessment)
    ensures r.major == multiset(MajorCriteria(x))[true] && r.minor == multiset(MinorCriteria(x))[true]
    ensures r.major <= 3 && r.minor <= 5
    ensures r.major == 0 <==> !x.tamponade && !x.largeEffusion && !x.subacute
    ensures r.high <==> x.tamponade || x.largeEffusion || x.subacute || r.minor >= 2
  {
    var major := CountTrue(MajorCriteria(x));
    var minor := CountTrue(MinorCriteria(x));
    assert MajorCriteria(x)[0] == x.tamponade && MajorCriteria(x)[1] == x.largeEffusion && MajorCriteria(x)[2] == x.subacute;
    Assessment(major, minor, major > 0 || minor >= 2)
  }

  /** High risk exactly when a major criterion holds or two different minor
      criteria hold. */
  lemma HighRiskRule(x: PericarditisInput)
    ensures Assess(x).high <==>
      x.tamponade || x.largeEffusion || x.subacute
      || exists i, j :: 0 <= i < j < 5 && MinorCriteria(x)[i] && MinorCriteria(x)[j]
  {
    CountAtLeastTwo(MinorCriteria(x));
  }

  /** Age counts as a minor criterion only above 65: fever at 65 is low
      risk, fever at 66 high. */
  lemma AgeThreshold()
    ensures !Assess(PericarditisInput(65, true, false, false, false, false, false, false)).high
    ensures Assess(PericarditisInput(66, true, false, false, false, false, false, false)).high
  {
    var a := PericarditisInput(65, true, false, false, false, false, false, false);
    var b := PericarditisInput(66, true, false, false, false, false, false, false);
    CountAtLeastTwo(MinorCriteria(a));
    assert MinorCriteria(b)[0] && MinorCriteria(b)[1];
    CountAtLeastTwo(MinorCriteria(b));
  }
}
