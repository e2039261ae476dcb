/**
 * The triage assessment: the five vital readings are parsed from the text the
 * operator typed, an additive severity score is built from fixed vital
 * thresholds and per-symptom weights, the score picks one of three statuses,
 * each status has a fixed recommendation, and the simple status gets a
 * medicine list from a fixed lookup table.
 */
module Triage {
  import opened Wrappers
  import Numbers
  import opened Symptoms
  import VitalsForm

  datatype Status = Simple | Moderate | High

  datatype Assessment = Assessment(
    status: Status,
    severityScore: int,
    recommendation: string,
    medicines: seq<Medicine>)

  /** The entries the simple status can prescribe. */
  datatype Medicine = Paracetamol | CoughSyrup | Aspirin | Ibuprofen | Antacid | RestAndFluids

  /** The text of each entry in the assessment's medicine list. */
  function Label(m: Medicine): string
  {
    match m
    case Paracetamol => "Paracetamol 500mg"
    case CoughSyrup => "Cough Syrup"
    case Aspirin => "Aspirin 300mg"
    case Ibuprofen => "Ibuprofen 400mg"
    case Antacid => "Antacid Tablet"
    case RestAndFluids => "Rest and adequate fluid intake"
  }

  /** Symptoms worth 3 points each. */
  const SevereSymptoms: set<Symptom> := {ChestPain, BreathingProblem, SevereHeadache}
  /** Symptoms worth 1 point each (when not severe). */
  const ModerateSymptoms: set<Symptom> := {Fever, Cough, BodyPain, Diarrhea}

  /** The simple-status medicine rules, in the order they are applied. */
  const MedicineRules: seq<(Symptom, Medicine)> := [
    (Fever, Paracetamol),
    (Cough, CoughSyrup),
    (Headache, Aspirin),
    (BodyPain, Ibuprofen),
    (Acidity, Antacid)]

  /** The entry given when no medicine rule applies. */
  const DefaultMedicine := RestAndFluids

  const HighRecommendation := "Immediate medical attention required. High-risk condition detected."
  const ModerateRecommendation := "Requires video consultation with doctor for proper assessment."
  const SimpleRecommendation := "Condition appears to be mild. General medication can be prescribed."

  /** 100.4 degrees Fahrenheit, in tenths of a degree. */
  const FeverThresholdTenths := 1004

  /** The parsed readings; `None` is `NaN`. */
  datatype Readings = Readings(
    systolic: Option<int>,
    diastolic: Option<int>,
    bloodSugar: Option<int>,
    temperature: Option<Numbers.Decimal>,
    oxygen: Option<int>)

  /** `parseInt` on the four integer readings, `parseFloat` on the temperature. */
  function Parse(v: VitalsForm.Vitals): Readings
  {
    Readings(
      Numbers.ParseInt(v.bloodPressureSystolic),
      Numbers.ParseInt(v.bloodPressureDiastolic),
      Numbers.ParseInt(v.bloodSugar),
      Numbers.ParseFloat(v.temperature),
      Numbers.ParseInt(v.oxygen))
  }

  /** `x > bound`; false when `x` is `NaN`. */
  predicate Above(x: Option<int>, bound: int)
  {
    x.Some? && x.value > bound
  }

  /** `x < bound`; false when `x` is `NaN`. */
  predicate Below(x: Option<int>, bound: int)
  {
    x.Some? && x.value < bound
  }

  /** `temperature > 100.4`, compared exactly: m / 10^k > 1004 / 10. */
  predicate Feverish(t: Option<Numbers.Decimal>)
  {
    t.Some? && t.value.mantissa * 10 > FeverThresholdTenths * Numbers.Pow10(t.value.scale)
  }

  predicate HighBloodPressure(r: Readings) { Above(r.systolic, 140) || Above(r.diastolic, 90) }
  predicate HighBloodSugar(r: Readings) { Above(r.bloodSugar, 140) }
  predicate LowOxygen(r: Readings) { Below(r.oxygen, 95) }

  /** Points from the vital readings. */
  function VitalsScore(r: Readings): (points: nat)
    ensures points <= 8
  {
    (if HighBloodPressure(r) then 2 else 0) +
    (if HighBloodSugar(r) then 2 else 0) +
    (if Feverish(r.temperature) then 1 else 0) +
    (if LowOxygen(r) then 3 else 0)
  }

  /** Points for one listed symptom. */
  function SymptomPoints(symptom: Symptom): (p: nat)
    ensures p <= 3
  {
    if symptom in SevereSymptoms then 3
    else if symptom in ModerateSymptoms then 1
    else 0
  }

  /** Points for the listed symptoms, each occurrence counted. */
  function SymptomsScore(symptoms: seq<Symptom>): (points: nat)
    ensures points <= 3 * |symptoms|
  {
    if symptoms == [] then 0
    else SymptomsScore(symptoms[..|symptoms| - 1]) + SymptomPoints(symptoms[|symptoms| - 1])
  }

  /** The status thresholds: 7 and above is high, 4 to 6 moderate, below 4 simple. */
  function StatusOf(score: int): (s: Status)
    ensures s == High <==> score >= 7
    ensures s == Moderate <==> 4 <= score <= 6
    ensures s == Simple <==> score < 4
  {
    if score >= 7 then High else if score >= 4 then Moderate else Simple
  }

  /** Statuses ordered by urgency. */
  function Rank(s: Status): nat
  {
    match s
    case Simple => 0
    case Moderate => 1
    case High => 2
  }

  function Recommendation(s: Status): string
  {
    match s
    case High => HighRecommendation
    case Moderate => ModerateRecommendation
    case Simple => SimpleRecommendation
  }

  /** The medicines of the rules whose symptom is listed, in rule order. */
  function Matched(rules: seq<(Symptom, Medicine)>, symptoms: seq<Symptom>): (meds: seq<Medicine>)
    ensures |meds| <= |rules|
  {
    if rules == [] then []
    else (if rules[0].0 in symptoms then [rules[0].1] else []) + Matched(rules[1..], symptoms)
  }

  /** The medicines prescribed for the simple status. */
  function SimpleMedicines(symptoms: seq<Symptom>): (meds: seq<Medicine>)
    ensures 1 <= |meds| <= |MedicineRules|
  {
    var m := Matched(MedicineRules, symptoms);
    if m == [] then [DefaultMedicine] else m
  }

  /** The assessment of parsed readings and a symptom list. */
  function AssessReadings(r: Readings, symptoms: seq<Symptom>): (a: Assessment)
    ensures a.severityScore >= 0
    ensures a.status == StatusOf(a.severityScore)
    ensures a.recommendation == Recommendation(a.status)
    ensures a.status != Simple <==> a.medicines == []
    ensures a.status == Simple ==> 1 <= |a.medicines| <= 5
  {
    var score := VitalsScore(r) + SymptomsScore(symptoms);
    var status := StatusOf(score);
    Assessment(status, score, Recommendation(status),
               if status == Simple then SimpleMedicines(symptoms) else [])
  }

  /** The whole assessment, as a function of the form's readings and symptom list. */
  function Assess(v: VitalsForm.Vitals, symptoms: seq<Symptom>): Assessment
  {
    AssessReadings(Parse(v), symptoms)
  }

  /** The body of the assessment: score, pick the status and recommendation,
      and for the simple status push the medicines. */
  method Evaluate(vitals: VitalsForm.Vitals, symptoms: seq<Symptom>) returns (a: Assessment)
    ensures a == Assess(vitals, symptoms)
  {
    var severity := ScoreSeverity(vitals, symptoms);
    var status: Status;
    var recommendation: string;
    var medicines: seq<Medicine> := [];
    if severity >= 7 {
      status := High;
      recommendation := HighRecommendation;
    } else if severity >= 4 {
      status := Moderate;
      recommendation := ModerateRecommendation;
    } else {
      status := Simple;
      recommendation := SimpleRecommendation;
      medicines := PrescribeSimple(symptoms);
    }
    a := Assessment(status, severity, recommendation, medicines);
  }

  /** The vital-sign checks: each threshold crossed adds its points. */
  method ScoreVitals(r: Readings) returns (points: int)
    ensures points == VitalsScore(r)
  {
    points := 0;
    if Above(r.systolic, 140) || Above(r.diastolic, 90) { points := points + 2; }
    if Above(r.bloodSugar, 140) { points := points + 2; }
    if Feverish(r.temperature) { points := points + 1; }
    if Below(r.oxygen, 95) { points := points + 3; }
  }

  /** The score accumulation: parse the readings, add the vital points, then
      add each listed symptom's points in turn. */
  method ScoreSeverity(vitals: VitalsForm.Vitals, symptoms: seq<Symptom>) returns (severity: int)
    ensures severity == VitalsScore(Parse(vitals)) + SymptomsScore(symptoms)
  {
    severity := ScoreVitals(Parse(vitals));
    ghost var vitalPoints := severity;

    var i := 0;
    while i < |symptoms|
      invariant 0 <= i <= |symptoms|
      invariant severity == vitalPoints + SymptomsScore(symptoms[..i])
    {
      var symptom := symptoms[i];
      ghost var before := severity;
      if symptom in SevereSymptoms {
        severity := severity + 3;
      } else if symptom in ModerateSymptoms {
        severity := severity + 1;
      }
      assert severity == before + SymptomPoints(symptom);
      SymptomsScoreStep(symptoms, i);
      i := i + 1;
    }
    assert symptoms[..i] == symptoms;
  }

  /** One more symptom adds its own points. */
  lemma SymptomsScoreStep(symptoms: seq<Symptom>, i: nat)
    requires i < |symptoms|
    ensures SymptomsScore(symptoms[..i + 1]) == SymptomsScore(symptoms[..i]) + SymptomPoints(symptoms[i])
  {
    assert symptoms[..i + 1][..i] == symptoms[..i];
  }

  /** The simple-status medicines: one check per rule in table order, then
      the default entry if nothing was pushed. */
  method PrescribeSimple(symptoms: seq<Symptom>) returns (medicines: seq<Medicine>)
    ensures medicines == SimpleMedicines(symptoms)
  {
    ghost var total := Matched(MedicineRules, symptoms);
    ghost var rest := MedicineRules;
    medicines := [];
    if Fever in symptoms { medicines := medicines + [Paracetamol]; }
    MatchedStep(symptoms, rest, total, medicines, [], Fever);
    rest := rest[1..];
    ghost var done := medicines;
    if Cough in symptoms { medicines := medicines + [CoughSyrup]; }
    MatchedStep(symptoms, rest, total, medicines, done, Cough);
    rest := rest[1..];
    done := medicines;
    if Headache in symptoms { medicines := medicines + [Aspirin]; }
    MatchedStep(symptoms, rest, total, medicines, done, Headache);
    rest := rest[1..];
    done := medicines;
    if BodyPain in symptoms { medicines := medicines + [Ibuprofen]; }
    MatchedStep(symptoms, rest, total, medicines, done, BodyPain);
    rest := rest[1..];
    done := medicines;
    if Acidity in symptoms { medicines := medicines + [Antacid]; }
    MatchedStep(symptoms, rest, total, medicines, done, Acidity);
    rest := rest[1..];
    assert medicines == total;
    if |medicines| == 0 {
      medicines := medicines + [DefaultMedicine];
    }
  }

  /** One rule of the table applied: `after` is `before` with the rule's
      medicine appended exactly when its symptom is listed. */
  lemma MatchedStep(symptoms: seq<Symptom>, rules: seq<(Symptom, Medicine)>, total: seq<Medicine>, after: seq<Medicine>, before: seq<Medicine>, s: Symptom)
    requires rules != [] && rules[0].0 == s
    requires before + Matched(rules, symptoms) == total
    requires after == before + (if s in symptoms then [rules[0].1] else [])
    ensures after + Matched(rules[1..], symptoms) == total
  {
    var piece := if s in symptoms then [rules[0].1] else [];
    MoveRule(before, piece, Matched(rules[1..], symptoms), total, after);
  }

  /** `before + (piece + later)` regrouped as `(before + piece) + later`. */
  lemma MoveRule(before: seq<Medicine>, piece: seq<Medicine>, later: seq<Medicine>, total: seq<Medicine>, after: seq<Medicine>)
    requires before + (piece + later) == total
    requires after == before + piece
    ensures after + later == total
  {
    assert before + (piece + later) == (before + piece) + later;
  }

  /** The rule table applied to a symptom list is the five checks in a row. */
  lemma MatchedCons(rule: (Symptom, Medicine), rest: seq<(Symptom, Medicine)>, symptoms: seq<Symptom>)
    ensures Matched([rule] + rest, symptoms) == (if rule.0 in symptoms then [rule.1] else []) + Matched(rest, symptoms)
  {
    assert ([rule] + rest)[1..] == rest;
  }

  lemma MatchedRulesUnfolded(symptoms: seq<Symptom>)
    ensures Matched(MedicineRules, symptoms) ==
      (if Fever in symptoms then [Paracetamol] else []) +
      ((if Cough in symptoms then [CoughSyrup] else []) +
      ((if Headache in symptoms then [Aspirin] else []) +
      ((if BodyPain in symptoms then [Ibuprofen] else []) +
       (if Acidity in symptoms then [Antacid] else []))))
  {
    var r4 := [(Acidity, Antacid)];
    var r3 := [(BodyPain, Ibuprofen)] + r4;
    var r2 := [(Headache, Aspirin)] + r3;
    var r1 := [(Cough, CoughSyrup)] + r2;
    assert MedicineRules == [(Fever, Paracetamol)] + r1;
    var e0, e1, e2, e3, e4 := (if Fever in symptoms then [Paracetamol] else []), (if Cough in symptoms then [CoughSyrup] else []),
      (if Headache in symptoms then [Aspirin] else []), (if BodyPain in symptoms then [Ibuprofen] else []), (if Acidity in symptoms then [Antacid] else []);
    MatchedCons((Acidity, Antacid), [], symptoms);
    assert Matched(r4, symptoms) == e4;
    MatchedCons((BodyPain, Ibuprofen), r4, symptoms);
    MatchedCons((Headache, Aspirin), r3, symptoms);
    MatchedCons((Cough, CoughSyrup), r2, symptoms);
    MatchedCons((Fever, Paracetamol), r1, symptoms);
    assert Matched(MedicineRules, symptoms) == e0 + (e1 + (e2 + (e3 + e4)));
  }

  /** Whether the assessment is in progress (`isAssessing`). */
  class Assessor {
    var isAssessing: bool

    constructor ()
      ensures !isAssessing
    {
      isAssessing := false;
    }

    /** The start of `assessPatient`: the flag is raised before the wait. */
    method BeginAssessment()
      modifies this
      ensures isAssessing
    {
      isAssessing := true;
    }

    /** The rest of `assessPatient`: compute the assessment and lower the flag. */
    method FinishAssessment(vitals: VitalsForm.Vitals, symptoms: seq<Symptom>) returns (a: Assessment)
      modifies this
      ensures !isAssessing
      ensures a == Assess(vitals, symptoms)
    {
      a := Evaluate(vitals, symptoms);
      isAssessing := false;
    }

    /** `assessPatient`: the flag is up while the assessment runs and down on return. */
    method AssessPatient(vitals: VitalsForm.Vitals, symptoms: seq<Symptom>) returns (a: Assessment)
      modifies this
      ensures !isAssessing
      ensures a == Assess(vitals, symptoms)
    {
      BeginAssessment();
      a := FinishAssessment(vitals, symptoms);
    }
  }

  // ---------------------------------------------------------------- properties

  /** The vital points are 0 exactly when no threshold is crossed and 8
      exactly when all four are. */
  lemma VitalsScoreExtremes(r: Readings)
    ensures VitalsScore(r) == 0 <==> !HighBloodPressure(r) && !HighBloodSugar(r) && !Feverish(r.temperature) && !LowOxygen(r)
    ensures VitalsScore(r) == 8 <==> HighBloodPressure(r) && HighBloodSugar(r) && Feverish(r.temperature) && LowOxygen(r)
  {
  }

  /** The form's input limits straddle every vital threshold: at the lower
      limit of a field its rule does not fire and at the upper limit it does,
      except oxygen, whose rule fires at the lower limit only. */
  lemma ThresholdsInsideInputRanges()
    ensures var b := VitalsForm.InputRange(VitalsForm.Systolic);
            !Above(Some(b.0), 140) && Above(Some(b.1), 140)
    ensures var b := VitalsForm.InputRange(VitalsForm.Diastolic);
            !Above(Some(b.0), 90) && Above(Some(b.1), 90)
    ensures var b := VitalsForm.InputRange(VitalsForm.BloodSugar);
            !Above(Some(b.0), 140) && Above(Some(b.1), 140)
    ensures var b := VitalsForm.InputRange(VitalsForm.Temperature);
            !Feverish(Some(Numbers.Decimal(b.0, 0))) && Feverish(Some(Numbers.Decimal(b.1, 0)))
    ensures var b := VitalsForm.InputRange(VitalsForm.Oxygen);
            Below(Some(b.0), 95) && !Below(Some(b.1), 95)
  {
  }

  /** Each listed symptom is worth 3 if severe, otherwise 1 if moderate,
      otherwise nothing. */
  lemma SymptomPointsTable(symptom: Symptom)
    ensures SymptomPoints(symptom) == 3 <==> symptom in SevereSymptoms
    ensures SymptomPoints(symptom) == 1 <==> symptom !in SevereSymptoms && symptom in ModerateSymptoms
    ensures SymptomPoints(symptom) == 0 <==> symptom !in SevereSymptoms && symptom !in ModerateSymptoms
  {
  }

  /** The symptom score is additive over concatenation: each occurrence counts. */
  lemma {:induction false} SymptomsScoreAppend(a: seq<Symptom>, b: seq<Symptom>)
    ensures SymptomsScore(a + b) == SymptomsScore(a) + SymptomsScore(b)
    decreases |b|
  {
    if b == [] {
      assert a + b == a;
    } else {
      var ab := a + b;
      assert ab[..|ab| - 1] == a + b[..|b| - 1];
      assert ab[|ab| - 1] == b[|b| - 1];
      SymptomsScoreAppend(a, b[..|b| - 1]);
    }
  }

  /** The score does not depend on the order in which symptoms were ticked. */
  lemma {:induction false} SymptomsScoreOrderFree(a: seq<Symptom>, b: seq<Symptom>)
    requires multiset(a) == multiset(b)
    ensures SymptomsScore(a) == SymptomsScore(b)
    decreases |a|
  {
    if a != [] {
      var x := a[|a| - 1];
      var a' := a[..|a| - 1];
      assert a == a' + [x];
      assert x in multiset(b);
      var j :| 0 <= j < |b| && b[j] == x;
      var b' := b[..j] + b[j + 1..];
      RemoveAtMultiset(b, j);
      assert multiset(a') == multiset(a) - multiset{x};
      SymptomsScoreOrderFree(a', b');
      RemoveAtScore(b, j);
      SymptomsScoreAppend(a', [x]);
      SingleScore(x);
    } else {
      assert |b| == |multiset(b)| == 0;
    }
  }

  /** Removing the element at `j` removes one copy of it from the multiset. */
  lemma RemoveAtMultiset(b: seq<Symptom>, j: nat)
    requires j < |b|
    ensures multiset(b[..j] + b[j + 1..]) == multiset(b) - multiset{b[j]}
  {
    SplitAt(b, j);
    assert multiset(b) == multiset(b[..j]) + multiset{b[j]} + multiset(b[j + 1..]);
  }

  /** Taking `x` out from between `p` and `q` takes its points off the score. */
  lemma ScoreWithout(p: seq<Symptom>, x: Symptom, q: seq<Symptom>)
    ensures SymptomsScore(p + [x] + q) == SymptomsScore(p + q) + SymptomPoints(x)
  {
    SymptomsScoreAppend(p + [x], q);
    SymptomsScoreAppend(p, [x]);
    SymptomsScoreAppend(p, q);
    SingleScore(x);
  }

  /** Removing the element at `j` takes its points off the score. */
  lemma RemoveAtScore(b: seq<Symptom>, j: nat)
    requires j < |b|
    ensures SymptomsScore(b) == SymptomsScore(b[..j] + b[j + 1..]) + SymptomPoints(b[j])
  {
    SplitAt(b, j);
    ScoreWithout(b[..j], b[j], b[j + 1..]);
  }

  lemma SplitAt(b: seq<Symptom>, j: nat)
    requires j < |b|
    ensures b == b[..j] + [b[j]] + b[j + 1..]
  {
  }

  lemma SingleScore(x: Symptom)
    ensures SymptomsScore([x]) == SymptomPoints(x)
  {
    assert [x][..0] == [];
  }

  /** A higher score never gives a less urgent status. */
  lemma StatusMonotone(s1: int, s2: int)
    requires s1 <= s2
    ensures Rank(StatusOf(s1)) <= Rank(StatusOf(s2))
  {
  }

  /** Ticking more symptoms never lowers the score or the status. */
  lemma MoreSymptomsNeverLess(v: VitalsForm.Vitals, symptoms: seq<Symptom>, extra: seq<Symptom>)
    ensures Assess(v, symptoms).severityScore <= Assess(v, symptoms + extra).severityScore
    ensures Rank(Assess(v, symptoms).status) <= Rank(Assess(v, symptoms + extra).status)
  {
    SymptomsScoreAppend(symptoms, extra);
    StatusMonotone(Assess(v, symptoms).severityScore, Assess(v, symptoms + extra).severityScore);
  }

  /** `a` is `b` with some elements left out, order kept. */
  predicate IsSubsequence(a: seq<Medicine>, b: seq<Medicine>)
    decreases |b|
  {
    a == [] ||
    (b != [] && ((a[0] == b[0] && IsSubsequence(a[1..], b[1..])) || IsSubsequence(a, b[1..])))
  }

  /** The medicine column of a rule table. */
  function Medicines(rules: seq<(Symptom, Medicine)>): (meds: seq<Medicine>)
    ensures |meds| == |rules|
    ensures forall k :: 0 <= k < |rules| ==> meds[k] == rules[k].1
  {
    if rules == [] then [] else [rules[0].1] + Medicines(rules[1..])
  }

  /** The matched medicines keep the order of the rule table. */
  lemma {:induction false} MatchedInRuleOrder(rules: seq<(Symptom, Medicine)>, symptoms: seq<Symptom>)
    ensures IsSubsequence(Matched(rules, symptoms), Medicines(rules))
    decreases |rules|
  {
    if rules != [] {
      MatchedInRuleOrder(rules[1..], symptoms);
      var rest, meds := Matched(rules[1..], symptoms), Medicines(rules);
      assert meds != [] && meds[1..] == Medicines(rules[1..]);
      if rules[0].0 in symptoms {
        var m := [rules[0].1] + rest;
        assert m[0] == meds[0] && m[1..] == rest;
        assert IsSubsequence(m[1..], meds[1..]);
      } else {
        assert Matched(rules, symptoms) == rest;
        assert IsSubsequence(rest, meds[1..]);
      }
    }
  }

  /** A medicine is prescribed by the rules exactly when one of its rules' symptoms is listed. */
  lemma {:induction false} MatchedMembership(rules: seq<(Symptom, Medicine)>, symptoms: seq<Symptom>, m: Medicine)
    ensures m in Matched(rules, symptoms) <==> exists k :: 0 <= k < |rules| && rules[k].1 == m && rules[k].0 in symptoms
    decreases |rules|
  {
    if rules != [] {
      MatchedMembership(rules[1..], symptoms, m);
      if exists k :: 0 <= k < |rules| && rules[k].1 == m && rules[k].0 in symptoms {
        var k :| 0 <= k < |rules| && rules[k].1 == m && rules[k].0 in symptoms;
        if k > 0 { assert rules[1..][k - 1] == rules[k]; }
      }
      if exists k :: 0 <= k < |rules[1..]| && rules[1..][k].1 == m && rules[1..][k].0 in symptoms {
        var k :| 0 <= k < |rules[1..]| && rules[1..][k].1 == m && rules[1..][k].0 in symptoms;
        assert rules[k + 1] == rules[1..][k];
      }
    }
  }

  /** The rule-matched medicines depend only on which symptoms are listed,
      not on their order or repetition. */
  lemma {:induction false} MatchedOrderFree(rules: seq<(Symptom, Medicine)>, a: seq<Symptom>, b: seq<Symptom>)
    requires forall x :: x in a <==> x in b
    ensures Matched(rules, a) == Matched(rules, b)
    decreases |rules|
  {
    if rules != [] {
      MatchedOrderFree(rules[1..], a, b);
    }
  }

  /** The simple-status list: the default entry alone exactly when no rule
      applies, otherwise the table's medicines in table order. */
  lemma SimpleMedicinesShape(symptoms: seq<Symptom>)
    ensures var meds := SimpleMedicines(symptoms);
            (meds == [DefaultMedicine] <==> forall k :: 0 <= k < |MedicineRules| ==> MedicineRules[k].0 !in symptoms) &&
            (meds != [DefaultMedicine] ==> IsSubsequence(meds, Medicines(MedicineRules)))
  {
    MatchedRulesUnfolded(symptoms);
    MatchedInRuleOrder(MedicineRules, symptoms);
    var m := Matched(MedicineRules, symptoms);
    assert m != [] ==> m[0] != DefaultMedicine;
  }

  /** No medicine appears twice in the simple-status list. */
  lemma SimpleMedicinesDistinct(symptoms: seq<Symptom>)
    ensures Distinct(SimpleMedicines(symptoms))
  {
    var rules := MedicineRules;
    assert forall i, j :: 0 <= i < j < |rules| ==> rules[i].1 != rules[j].1;
    MatchedDistinct(rules, symptoms);
  }

  /** No medicine listed twice. */
  predicate Distinct(meds: seq<Medicine>)
  {
    forall i, j :: 0 <= i < j < |meds| ==> meds[i] != meds[j]
  }

  /** A table whose medicines are all different prescribes each at most once. */
  lemma {:induction false} MatchedDistinct(rules: seq<(Symptom, Medicine)>, symptoms: seq<Symptom>)
    requires forall i, j :: 0 <= i < j < |rules| ==> rules[i].1 != rules[j].1
    ensures Distinct(Matched(rules, symptoms))
    decreases |rules|
  {
    if rules != [] {
      var tail := rules[1..];
      MatchedDistinct(tail, symptoms);
      var rest := Matched(tail, symptoms);
      if rules[0].0 in symptoms {
        MatchedMembership(tail, symptoms, rules[0].1);
        assert rules[0].1 !in rest by {
          forall k | 0 <= k < |tail| ensures tail[k].1 != rules[0].1 {
            assert tail[k] == rules[k + 1];
          }
        }
        var m := [rules[0].1] + rest;
        assert Matched(rules, symptoms) == m;
        forall i, j | 0 <= i < j < |m| ensures m[i] != m[j] {
          assert m[j] == rest[j - 1];
          if i > 0 { assert m[i] == rest[i - 1]; }
        }
      }
    }
  }

  /** A NaN reading behaves like a normal one: it adds no points. */
  lemma UnparseableReadingAddsNothing(r: Readings)
    ensures VitalsScore(r.(oxygen := None)) == VitalsScore(r.(oxygen := Some(95)))
    ensures VitalsScore(r.(temperature := None)) == VitalsScore(r.(temperature := Some(Numbers.Decimal(986, 1))))
    ensures VitalsScore(r.(bloodSugar := None)) == VitalsScore(r.(bloodSugar := Some(100)))
    ensures VitalsScore(Readings(None, None, None, None, None)) == 0
  {
  }

  /** Of the form's vocabulary, weakness, headache and vomiting score
      nothing. */
  lemma UnscoredFormSymptoms()
    ensures Offered(Weakness) && Offered(Headache) && Offered(Vomiting)
    ensures SymptomPoints(Weakness) == 0 && SymptomPoints(Headache) == 0 && SymptomPoints(Vomiting) == 0
  {
  }

  /** Headache scores nothing but still earns a medicine. */
  lemma HeadacheGetsAspirin()
    ensures SimpleMedicines([Headache]) == [Aspirin]
  {
    MatchedRulesUnfolded([Headache]);
  }

  /** Severe headache, body pain, diarrhea and acidity are known to the
      scorer or the planner but are not offered by the form. */
  lemma UnofferedKnownSymptoms()
    ensures SymptomPoints(SevereHeadache) == 3 && SymptomPoints(BodyPain) == 1 && SymptomPoints(Diarrhea) == 1
    ensures (Acidity, Antacid) in MedicineRules && (BodyPain, Ibuprofen) in MedicineRules
    ensures !Offered(SevereHeadache) && !Offered(BodyPain) && !Offered(Diarrhea) && !Offered(Acidity)
  {
  }

  // ------------------------------------------------------ worked examples

  /** Readings typed as runs of digits, and a temperature with one decimal,
      parse to exactly the values those digits denote. */
  lemma ParseTyped(sys: string, dia: string, sugar: string, whole: string, tenth: char, oxy: string, temperature: string)
    requires sys != [] && Numbers.AllDigits(sys) && dia != [] && Numbers.AllDigits(dia)
    requires sugar != [] && Numbers.AllDigits(sugar) && oxy != [] && Numbers.AllDigits(oxy)
    requires whole != [] && Numbers.AllDigits(whole) && Numbers.IsDigit(tenth) && temperature == whole + "." + [tenth]
    ensures Parse(VitalsForm.Vitals(sys, dia, sugar, temperature, oxy))
            == Readings(Some(Numbers.DigitsValue(sys)), Some(Numbers.DigitsValue(dia)), Some(Numbers.DigitsValue(sugar)),
                        Some(Numbers.Decimal(10 * Numbers.DigitsValue(whole) + Numbers.DigitValue(tenth), 1)),
                        Some(Numbers.DigitsValue(oxy)))
  {
    Numbers.ParseIntOfDigits(sys);
    Numbers.ParseIntOfDigits(dia);
    Numbers.ParseIntOfDigits(sugar);
    Numbers.ParseIntOfDigits(oxy);
    Numbers.ParseFloatTenths(whole, tenth, temperature);
  }

  /** Readings 120/80, sugar 100, 98.6 F, oxygen `oxy`. */
  function NormalReadings(oxy: int): Readings
  {
    Readings(Some(120), Some(80), Some(100), Some(Numbers.Decimal(986, 1)), Some(oxy))
  }

  /** Normal vitals and no symptoms: score 0, simple, rest and fluids. */
  lemma NormalVitalsNoSymptoms()
    ensures AssessReadings(NormalReadings(98), []) == Assessment(Simple, 0, SimpleRecommendation, [DefaultMedicine])
  {
    MatchedRulesUnfolded([]);
  }

  /** High blood pressure (2) and fever (1): score 3, still simple, paracetamol. */
  lemma HighPressureWithFever()
    ensures AssessReadings(NormalReadings(98).(systolic := Some(150), diastolic := Some(95)), [Fever])
            == Assessment(Simple, 3, SimpleRecommendation, [Paracetamol])
  {
    MatchedRulesUnfolded([Fever]);
    assert SymptomsScore([Fever]) == 1 by { assert [Fever][..0] == []; }
  }

  /** Low oxygen (3) and cough (1): score 4, the lowest moderate score. */
  lemma LowOxygenWithCough()
    ensures AssessReadings(NormalReadings(92), [Cough]) == Assessment(Moderate, 4, ModerateRecommendation, [])
  {
    assert SymptomsScore([Cough]) == 1 by { assert [Cough][..0] == []; }
  }

  /** Two severe symptoms make 6, which is still moderate; adding fever makes
      7, which is high. */
  lemma HighBoundary()
    ensures AssessReadings(NormalReadings(98), [ChestPain, BreathingProblem]).status == Moderate
    ensures AssessReadings(NormalReadings(98), [ChestPain, BreathingProblem, Fever])
            == Assessment(High, 7, HighRecommendation, [])
  {
    assert [ChestPain, BreathingProblem][..1] == [ChestPain];
    assert [ChestPain][..0] == [];
    assert [ChestPain, BreathingProblem, Fever][..2] == [ChestPain, BreathingProblem];
  }

  /** A reading whose text does not start with a digit, sign or space is
      not rejected: it parses to NaN and so crosses no threshold. */
  lemma NonNumericReadingNotRejected(v: VitalsForm.Vitals, text: string, symptoms: seq<Symptom>)
    requires text != [] && 'a' <= text[0] <= 'z'
    ensures Parse(v.(bloodPressureSystolic := text)).systolic == None
    ensures Assess(v.(bloodPressureSystolic := text), symptoms) == AssessReadings(Parse(v).(systolic := None), symptoms)
  {
    Numbers.ParseIntNoDigits(text);
  }
}
