/**
 * The patient registration form: five text fields, a single-field update,
 * the gender choice and the presence check that enables "Next".
 */
module RegistrationForm {

  datatype PatientInfo = PatientInfo(name: string, age: string, gender: string, address: string, phone: string)

  datatype Field = Name | Age | Gender | Address | Phone

  /** The three radio buttons for gender. */
  datatype GenderChoice = Male | Female | Other

  const EmptyPatientInfo := PatientInfo("", "", "", "", "")

  const GenderValues: seq<string> := ["male", "female", "other"]

  function Get(p: PatientInfo, f: Field): string
  {
    match f
    case Name => p.name
    case Age => p.age
    case Gender => p.gender
    case Address => p.address
    case Phone => p.phone
  }

  /** `handleChange(field, value)`: the named field takes the value, the other four are kept. */
  function HandleChange(p: PatientInfo, f: Field, value: string): (r: PatientInfo)
    ensures Get(r, f) == value
    ensures forall g :: g != f ==> Get(r, g) == Get(p, g)
  {
    match f
    case Name => p.(name := value)
    case Age => p.(age := value)
    case Gender => p.(gender := value)
    case Address => p.(address := value)
    case Phone => p.(phone := value)
  }

  /** The value a radio button writes into the gender field. */
  function GenderValue(g: GenderChoice): (s: string)
    ensures s in GenderValues
  {
    match g
    case Male => "male"
    case Female => "female"
    case Other => "other"
  }

  /** Choosing a radio button sets a non-empty gender from the fixed choices. */
  function SelectGender(p: PatientInfo, g: GenderChoice): (r: PatientInfo)
    ensures r.gender in GenderValues && r.gender != ""
    ensures r == p.(gender := r.gender)
  {
    HandleChange(p, Gender, GenderValue(g))
  }

  /** `isValid`: all five fields are non-empty. */
  predicate IsValid(p: PatientInfo)
  {
    p.name != "" && p.age != "" && p.gender != "" && p.address != "" && p.phone != ""
  }

  /** The "Next" button is disabled exactly when some field is empty. */
  function NextDisabled(p: PatientInfo): (disabled: bool)
    ensures disabled <==> exists f :: Get(p, f) == ""
  {
    assert !IsValid(p) ==> exists f :: Get(p, f) == "" by {
      if !IsValid(p) {
      if p.name == "" { assert Get(p, Name) == ""; }
      else if p.age == "" { assert Get(p, Age) == ""; }
      else if p.gender == "" { assert Get(p, Gender) == ""; }
      else if p.address == "" { assert Get(p, Address) == ""; }
      else { assert Get(p, Phone) == ""; }
      }
    }
    !IsValid(p)
  }

  /** The limits shown on the age input. */
  const AgeMin := 0
  const AgeMax := 120

  /** The age limits are hints only: an age of "200", or one that is not a
      number at all, passes `isValid`. */
  lemma AgeNotChecked(p: PatientInfo)
    requires IsValid(p)
    ensures IsValid(HandleChange(p, Age, "200")) && IsValid(HandleChange(p, Age, "old"))
  {
  }
}
