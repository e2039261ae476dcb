/**
 * The vitals entry form: five readings kept as the text the operator typed,
 * a single-field update, and the presence check that enables "Next".
 */
module VitalsForm {
  import Wrappers
  import Numbers

  datatype Vitals = Vitals(
    bloodPressureSystolic: string,
    bloodPressureDiastolic: string,
    bloodSugar: string,
    temperature: string,
    oxygen: string)

  datatype Field = Systolic | Diastolic | BloodSugar | Temperature | Oxygen

  const EmptyVitals := Vitals("", "", "", "", "")

  function Get(v: Vitals, f: Field): string
  {
    match f
    case Systolic => v.bloodPressureSystolic
    case Diastolic => v.bloodPressureDiastolic
    case BloodSugar => v.bloodSugar
    case Temperature => v.temperature
    case Oxygen => v.oxygen
  }

  /** `handleChange(field, value)`: the named field takes the value, the other four are kept. */
  function HandleChange(v: Vitals, f: Field, value: string): (r: Vitals)
    ensures Get(r, f) == value
    ensures forall g :: g != f ==> Get(r, g) == Get(v, g)
  {
    match f
    case Systolic => v.(bloodPressureSystolic := value)
    case Diastolic => v.(bloodPressureDiastolic := value)
    case BloodSugar => v.(bloodSugar := value)
    case Temperature => v.(temperature := value)
    case Oxygen => v.(oxygen := value)
  }

  /** `isValid`: every one of the five readings has been typed in. */
  predicate IsValid(v: Vitals)
  {
    v.bloodPressureSystolic != "" && v.bloodPressureDiastolic != "" &&
    v.bloodSugar != "" && v.temperature != "" && v.oxygen != ""
  }

  /** The "Next" button is disabled exactly when some reading is empty. */
  function NextDisabled(v: Vitals): (disabled: bool)
    ensures disabled <==> exists f :: Get(v, f) == ""
  {
    assert !IsValid(v) ==> exists f :: Get(v, f) == "" by {
      if !IsValid(v) {
      if v.bloodPressureSystolic == "" { assert Get(v, Systolic) == ""; }
      else if v.bloodPressureDiastolic == "" { assert Get(v, Diastolic) == ""; }
      else if v.bloodSugar == "" { assert Get(v, BloodSugar) == ""; }
      else if v.temperature == "" { assert Get(v, Temperature) == ""; }
      else { assert Get(v, Oxygen) == ""; }
      }
    }
    !IsValid(v)
  }

  /** The limits shown on each input (`min`/`max` attributes). */
  function InputRange(f: Field): (bounds: (int, int))
    ensures bounds.0 < bounds.1
  {
    match f
    case Systolic => (60, 250)
    case Diastolic => (40, 150)
    case BloodSugar => (50, 500)
    case Temperature => (95, 110)
    case Oxygen => (70, 100)
  }

  /** After a change, the form is valid iff the new value is non-empty and the
      other four readings already were. */
  lemma ValidAfterChange(v: Vitals, f: Field, value: string)
    ensures IsValid(HandleChange(v, f, value)) <==>
            value != "" && forall g :: g != f ==> Get(v, g) != ""
  {
    var r := HandleChange(v, f, value);
    assert IsValid(r) <==> forall g :: Get(r, g) != "" by {
      assert Get(r, Systolic) == r.bloodPressureSystolic;
      assert Get(r, Diastolic) == r.bloodPressureDiastolic;
      assert Get(r, BloodSugar) == r.bloodSugar;
      assert Get(r, Temperature) == r.temperature;
      assert Get(r, Oxygen) == r.oxygen;
    }
  }

  /** `isValid` checks presence only: readings that are not numbers, or lie
      outside the input limits, still enable "Next". */
  lemma PresenceOnly(text: string, n: nat)
    requires text != [] && 'a' <= text[0] <= 'z'
    ensures var v := Vitals(text, Numbers.NatToString(n), text, text, text);
            IsValid(v) &&
            Numbers.ParseInt(Get(v, Systolic)).None? &&
            Numbers.ParseInt(Get(v, Diastolic)) == Wrappers.Some(n)
  {
    Numbers.ParseIntNoDigits(text);
    Numbers.ParseIntOfNatToString(n);
  }
}
