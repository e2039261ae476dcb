/**
 * The symptoms checklist: the offered vocabulary, the check/uncheck update of
 * the selected list, and the checkbox state shown for each symptom.
 */
module Symptoms {

  /** Every symptom identifier the application knows: the seven the form
      offers, plus those only the scorer ("severeHeadache", "bodyPain",
      "diarrhea") or the medicine table ("bodyPain", "acidity") mention. */
  datatype Symptom =
    | Cough | Fever | Weakness | ChestPain | BreathingProblem | Headache | Vomiting
    | SevereHeadache | BodyPain | Diarrhea | Acidity

  /** The identifier stored in the symptom list. */
  function Name(s: Symptom): string
  {
    match s
    case Cough => "cough"
    case Fever => "fever"
    case Weakness => "weakness"
    case ChestPain => "chestPain"
    case BreathingProblem => "breathingProblem"
    case Headache => "headache"
    case Vomiting => "vomiting"
    case SevereHeadache => "severeHeadache"
    case BodyPain => "bodyPain"
    case Diarrhea => "diarrhea"
    case Acidity => "acidity"
  }

  /** The symptoms the form offers, in display order. */
  const FormSymptoms: seq<Symptom> :=
    [Cough, Fever, Weakness, ChestPain, BreathingProblem, Headache, Vomiting]

  /** Only these can reach the symptom list through the form. */
  predicate Offered(s: Symptom)
  {
    s in FormSymptoms
  }

  /** A checkbox is shown ticked exactly when its symptom is in the list. */
  predicate IsChecked(data: seq<Symptom>, symptom: Symptom)
  {
    symptom in data
  }

  /** Ticking a box: the symptom goes at the end, everything before stays as it was. */
  function Check(data: seq<Symptom>, symptom: Symptom): (r: seq<Symptom>)
    ensures |r| == |data| + 1 && r[..|data|] == data && r[|data|] == symptom
    ensures multiset(r) == multiset(data)[symptom := multiset(data)[symptom] + 1]
  {
    data + [symptom]
  }

  /** Unticking a box: every occurrence of the symptom is dropped, all other
      elements are kept with their multiplicities. */
  function Uncheck(data: seq<Symptom>, symptom: Symptom): (r: seq<Symptom>)
    ensures symptom !in r
    ensures forall x :: x != symptom ==> (x in r <==> x in data)
    ensures multiset(r) == multiset(data)[symptom := 0]
  {
    if data == [] then []
    else
      assert data == [data[0]] + data[1..];
      (if data[0] == symptom then [] else [data[0]]) + Uncheck(data[1..], symptom)
  }

  /** `handleSymptomChange`: the ticked box changes state and no other box does. */
  function HandleSymptomChange(data: seq<Symptom>, symptom: Symptom, checked: bool): (r: seq<Symptom>)
    ensures IsChecked(r, symptom) == checked
    ensures forall other :: other != symptom ==> (IsChecked(r, other) <==> IsChecked(data, other))
  {
    if checked then Check(data, symptom) else Uncheck(data, symptom)
  }

  /** Unticking keeps the order of the remaining symptoms: it works piecewise. */
  lemma {:induction false} UncheckConcat(a: seq<Symptom>, b: seq<Symptom>, symptom: Symptom)
    ensures Uncheck(a + b, symptom) == Uncheck(a, symptom) + Uncheck(b, symptom)
    decreases |a|
  {
    if a == [] {
      assert a + b == b;
    } else {
      assert (a + b)[1..] == a[1..] + b;
      UncheckConcat(a[1..], b, symptom);
    }
  }

  /** Unticking a symptom that is not in the list leaves the list unchanged. */
  lemma {:induction false} UncheckAbsent(data: seq<Symptom>, symptom: Symptom)
    requires symptom !in data
    ensures Uncheck(data, symptom) == data
    decreases |data|
  {
    if data != [] {
      UncheckAbsent(data[1..], symptom);
      assert [data[0]] + data[1..] == data;
    }
  }

  /** Ticking and then unticking a symptom that was absent restores the list. */
  lemma CheckThenUncheck(data: seq<Symptom>, symptom: Symptom)
    requires symptom !in data
    ensures HandleSymptomChange(HandleSymptomChange(data, symptom, true), symptom, false) == data
  {
    UncheckConcat(data, [symptom], symptom);
    UncheckAbsent(data, symptom);
    assert Uncheck([symptom], symptom) == [] by {
      assert [symptom][1..] == [];
    }
  }

  /** Unticking twice is the same as unticking once. */
  lemma UncheckIdempotent(data: seq<Symptom>, symptom: Symptom)
    ensures Uncheck(Uncheck(data, symptom), symptom) == Uncheck(data, symptom)
  {
    UncheckAbsent(Uncheck(data, symptom), symptom);
  }
}
