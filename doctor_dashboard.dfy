/**
 * The doctor's dashboard: the list of cases needing attention, the status
 * badge, selecting a case into the prescription form, the comma-separated
 * medicine field, and the guarded prescribe action.
 *
 * The case query, the case update and the SMS call are database and network
 * calls; the model receives their outcome as parameters.
 */
module DoctorDashboard {
  import opened Wrappers
  import Strings

  /** The `case_status` enumeration of the database. */
  datatype CaseStatus = Pending | Simple | Moderate | High | Prescribed | Completed

  /** The enumeration's stored text. */
  function StatusText(s: CaseStatus): string
  {
    match s
    case Pending => "pending"
    case Simple => "simple"
    case Moderate => "moderate"
    case High => "high"
    case Prescribed => "prescribed"
    case Completed => "completed"
  }

  /** The columns of a medical case the dashboard acts on. `createdAt`
      stands for the creation timestamp, larger meaning later. */
  datatype MedicalCase = MedicalCase(
    id: string,
    createdAt: int,
    assessmentStatus: CaseStatus,
    status: CaseStatus,
    prescription: Option<string>,
    prescribedMedicines: Option<seq<string>>,
    doctorNotes: Option<string>)

  // ------------------------------------------------------------ badge

  datatype Tone = Yellow | Red | Green | Gray

  datatype Badge = Badge(caption: string, tone: Tone)

  /** `getStatusBadge`. */
  function StatusBadge(s: CaseStatus): (b: Badge)
    ensures s == Moderate <==> b.tone == Yellow
    ensures s == High <==> b.tone == Red
    ensures s == Prescribed <==> b.tone == Green
    ensures s == Moderate ==> b == Badge("Moderate", Yellow)
    ensures s == High ==> b == Badge("High Risk", Red)
    ensures s == Prescribed ==> b == Badge("Prescribed", Green)
    ensures b.tone == Gray ==> b.caption == StatusText(s)
  {
    match s
    case Moderate => Badge("Moderate", Yellow)
    case High => Badge("High Risk", Red)
    case Prescribed => Badge("Prescribed", Green)
    case _ => Badge(StatusText(s), Gray)
  }

  /** No two statuses share a badge. */
  lemma StatusBadgeInjective(s: CaseStatus, t: CaseStatus)
    requires StatusBadge(s) == StatusBadge(t)
    ensures s == t
  {
  }

  // ------------------------------------------------------------ case list

  /** Whether the query keeps a case: assessment status moderate or high. */
  predicate NeedsAttention(c: MedicalCase)
  {
    c.assessmentStatus == Moderate || c.assessmentStatus == High
  }

  /** The cases the query keeps, in stored order. */
  function Attention(all: seq<MedicalCase>): (r: seq<MedicalCase>)
    ensures forall c :: c in r <==> c in all && NeedsAttention(c)
    ensures |r| <= |all|
  {
    if all == [] then []
    else (if NeedsAttention(all[0]) then [all[0]] else []) + Attention(all[1..])
  }

  /** Newest first. */
  predicate NewestFirst(cases: seq<MedicalCase>)
  {
    forall i, j :: 0 <= i < j < |cases| ==> cases[i].createdAt >= cases[j].createdAt
  }

  /** What the query may return: exactly the attention cases, each as often
      as stored, newest first; cases created at the same time may come in
      either order. */
  predicate IsCaseList(all: seq<MedicalCase>, shown: seq<MedicalCase>)
  {
    multiset(shown) == multiset(Attention(all)) && NewestFirst(shown)
  }

  /** Places `c` before the first case not newer than it. */
  function InsertNewestFirst(c: MedicalCase, sorted: seq<MedicalCase>): (r: seq<MedicalCase>)
    requires NewestFirst(sorted)
    ensures NewestFirst(r)
    ensures multiset(r) == multiset(sorted) + multiset{c}
    ensures r != [] && (r[0] == c || (sorted != [] && r[0] == sorted[0]))
  {
    if sorted == [] || sorted[0].createdAt <= c.createdAt then
      PrependNewest(c, sorted);
      [c] + sorted
    else
      var rest := InsertNewestFirst(c, sorted[1..]);
      assert sorted == [sorted[0]] + sorted[1..];
      PrependNewest(sorted[0], rest);
      [sorted[0]] + rest
  }

  /** A case no older than the head of a newest-first list can go in front. */
  lemma PrependNewest(c: MedicalCase, sorted: seq<MedicalCase>)
    requires NewestFirst(sorted)
    requires sorted != [] ==> c.createdAt >= sorted[0].createdAt
    ensures NewestFirst([c] + sorted)
  {
  }

  /** A reference ordering: insertion, newest first. */
  function SortNewestFirst(cases: seq<MedicalCase>): (r: seq<MedicalCase>)
    ensures NewestFirst(r)
    ensures multiset(r) == multiset(cases)
  {
    if cases == [] then []
    else
      assert cases == [cases[0]] + cases[1..];
      InsertNewestFirst(cases[0], SortNewestFirst(cases[1..]))
  }

  /** Some answer to the query always exists. */
  lemma CaseListExists(all: seq<MedicalCase>)
    ensures IsCaseList(all, SortNewestFirst(Attention(all)))
  {
  }

  /** Every listed case needs attention and every stored case that needs
      attention is listed, so every listed badge is "Moderate" or
      "High Risk". */
  lemma CaseListContents(all: seq<MedicalCase>, shown: seq<MedicalCase>)
    requires IsCaseList(all, shown)
    ensures forall c :: c in shown <==> c in all && NeedsAttention(c)
    ensures forall c :: c in shown ==> StatusBadge(c.assessmentStatus).caption in {"Moderate", "High Risk"}
  {
    forall c
      ensures c in shown <==> c in all && NeedsAttention(c)
    {
      assert c in shown <==> c in multiset(shown);
      assert c in Attention(all) <==> c in multiset(Attention(all));
    }
  }

  // ------------------------------------------------------------ medicines

  /** Each part trimmed (`map(m => m.trim())`). */
  function TrimAll(parts: seq<string>): (r: seq<string>)
    ensures |r| == |parts|
    ensures forall i :: 0 <= i < |r| ==> r[i] == Strings.Trim(parts[i])
  {
    if parts == [] then [] else [Strings.Trim(parts[0])] + TrimAll(parts[1..])
  }

  /** The non-empty parts, in order (`filter(m => m)`). */
  function NonEmpty(parts: seq<string>): (r: seq<string>)
    ensures forall i :: 0 <= i < |r| ==> r[i] != []
    ensures |r| <= |parts|
  {
    if parts == [] then []
    else (if parts[0] != [] then [parts[0]] else []) + NonEmpty(parts[1..])
  }

  /** A name the medicine field can carry unchanged. */
  predicate CleanName(m: string)
  {
    m != [] && ',' !in m && Strings.IsTrimmed(m)
  }

  /** Parts that are comma-free stay so when trimmed, and become trimmed. */
  lemma TrimAllCommaFree(parts: seq<string>)
    requires forall i :: 0 <= i < |parts| ==> ',' !in parts[i]
    ensures forall i :: 0 <= i < |parts| ==> ',' !in TrimAll(parts)[i] && Strings.IsTrimmed(TrimAll(parts)[i])
  {
  }

  /** Filtering trimmed, comma-free parts leaves clean names only. */
  lemma {:induction false} NonEmptyClean(parts: seq<string>)
    requires forall i :: 0 <= i < |parts| ==> ',' !in parts[i] && Strings.IsTrimmed(parts[i])
    ensures forall i :: 0 <= i < |NonEmpty(parts)| ==> CleanName(NonEmpty(parts)[i])
    decreases |parts|
  {
    if parts != [] {
      NonEmptyClean(parts[1..]);
    }
  }

  /** The medicine field read into a list: split at commas, trim, and drop
      the empty parts. */
  function ParseMedicines(text: string): (r: seq<string>)
    ensures forall i :: 0 <= i < |r| ==> CleanName(r[i])
  {
    var parts := Strings.Split(text, ',');
    TrimAllCommaFree(parts);
    NonEmptyClean(TrimAll(parts));
    NonEmpty(TrimAll(parts))
  }

  /** The list shown in the medicine field: joined with ", ". */
  function FormatMedicines(list: seq<string>): string
  {
    Strings.Join(list, ", ")
  }

  /** Each name with a space in front. */
  function Spaced(list: seq<string>): (r: seq<string>)
    ensures |r| == |list|
    ensures forall i :: 0 <= i < |r| ==> r[i] == " " + list[i]
  {
    if list == [] then [] else [" " + list[0]] + Spaced(list[1..])
  }

  /** Splitting `prefix` followed by a ", "-joined list at commas: the
      first part is `prefix` and the first name, then each further name
      with its space. */
  lemma {:induction false} SplitJoined(prefix: string, list: seq<string>)
    requires list != []
    requires ',' !in prefix
    requires forall i :: 0 <= i < |list| ==> ',' !in list[i]
    ensures Strings.Split(prefix + FormatMedicines(list), ',') == [prefix + list[0]] + Spaced(list[1..])
    decreases |list|
  {
    if |list| == 1 {
      Strings.SplitWhole(prefix + list[0], ',');
    } else {
      var rest := FormatMedicines(list[1..]);
      assert prefix + FormatMedicines(list) == (prefix + list[0]) + [','] + (" " + rest);
      Strings.SplitAfter(prefix + list[0], ',', " " + rest);
      SplitJoined(" ", list[1..]);
      assert " " + rest == " " + FormatMedicines(list[1..]);
      assert Spaced(list[1..]) == [" " + list[1]] + Spaced(list[2..]);
    }
  }

  /** Trimming the spaced names gives the names back. */
  lemma {:induction false} TrimSpaced(list: seq<string>)
    requires forall i :: 0 <= i < |list| ==> Strings.IsTrimmed(list[i])
    ensures TrimAll(Spaced(list)) == list
  {
    var r := TrimAll(Spaced(list));
    forall i | 0 <= i < |list|
      ensures r[i] == list[i]
    {
      TrimOneSpace(list[i]);
    }
  }

  /** One space in front of a trimmed name is all that trimming removes. */
  lemma TrimOneSpace(x: string)
    requires Strings.IsTrimmed(x)
    ensures Strings.Trim(" " + x) == x
  {
    Strings.TrimPadded(" ", x);
  }

  /** Dropping empty parts from a list without any is the identity. */
  lemma {:induction false} NonEmptyKeepsAll(parts: seq<string>)
    requires forall i :: 0 <= i < |parts| ==> parts[i] != []
    ensures NonEmpty(parts) == parts
    decreases |parts|
  {
    if parts != [] {
      NonEmptyKeepsAll(parts[1..]);
      assert parts == [parts[0]] + parts[1..];
    }
  }

  /** Round trip: a list of clean names shown in the medicine field reads
      back as the same list. */
  lemma ParseFormatMedicines(list: seq<string>)
    requires forall i :: 0 <= i < |list| ==> CleanName(list[i])
    ensures ParseMedicines(FormatMedicines(list)) == list
  {
    if list == [] {
      assert Strings.Split("", ',') == [""];
      assert TrimAll([""]) == [""];
      assert NonEmpty([""]) == [] + NonEmpty([]);
    } else {
      SplitJoined("", list);
      assert "" + list[0] == list[0] && "" + FormatMedicines(list) == FormatMedicines(list);
      var parts := [list[0]] + Spaced(list[1..]);
      TrimSpaced(list[1..]);
      Strings.TrimPadded("", list[0]);
      assert TrimAll(parts) == [Strings.Trim(list[0])] + TrimAll(parts[1..]);
      assert parts[1..] == Spaced(list[1..]);
      assert TrimAll(parts) == list;
      NonEmptyKeepsAll(list);
    }
  }

  /** Reading the field, showing the list and reading it again changes
      nothing. */
  lemma ParseMedicinesStable(text: string)
    ensures ParseMedicines(FormatMedicines(ParseMedicines(text))) == ParseMedicines(text)
  {
    ParseFormatMedicines(ParseMedicines(text));
  }

  // ------------------------------------------------------------ case form

  /** The three form fields filled in from a case. */
  datatype CaseForm = CaseForm(prescription: string, medicines: string, doctorNotes: string)

  /** `handleCaseSelect`'s field values: missing values become ''. */
  function FormFromCase(c: MedicalCase): (f: CaseForm)
    ensures c.prescription.Some? ==> f.prescription == c.prescription.value
    ensures c.prescription.None? ==> f.prescription == ""
    ensures c.doctorNotes.None? ==> f.doctorNotes == ""
    ensures c.prescribedMedicines.None? ==> f.medicines == ""
    ensures c.doctorNotes.Some? ==> f.doctorNotes == c.doctorNotes.value
    ensures c.prescribedMedicines.Some? ==> f.medicines == FormatMedicines(c.prescribedMedicines.value)
  {
    CaseForm(
      c.prescription.GetOr(""),
      match c.prescribedMedicines
      case None => ""
      case Some(list) => FormatMedicines(list),
      c.doctorNotes.GetOr(""))
  }

  /** Selecting a case whose stored medicines are clean names and reading
      the medicine field back gives the stored list (none for a missing
      list). */
  lemma SelectedMedicinesReadBack(c: MedicalCase)
    requires c.prescribedMedicines.Some? ==>
               forall i :: 0 <= i < |c.prescribedMedicines.value| ==> CleanName(c.prescribedMedicines.value[i])
    ensures ParseMedicines(FormFromCase(c).medicines) == c.prescribedMedicines.GetOr([])
  {
    if c.prescribedMedicines.Some? {
      ParseFormatMedicines(c.prescribedMedicines.value);
    } else {
      ParseFormatMedicines([]);
    }
  }

  // ------------------------------------------------------------ prescribe

  /** The update `handlePrescribe` sends for the selected case. */
  datatype Update = Update(
    caseId: string,
    doctorId: Option<string>,
    prescription: string,
    prescribedMedicines: seq<string>,
    doctorNotes: string,
    status: CaseStatus)

  /** The prescribe guard and the update it leads to: refused when no case
      is selected or the prescription is blank after trimming. The
      prescription is sent as typed, untrimmed. */
  function PrescribeRequest(selected: Option<MedicalCase>, form: CaseForm, doctorId: Option<string>): Option<Update>
  {
    if selected.None? || Strings.Trim(form.prescription) == [] then None
    else Some(Update(selected.value.id, doctorId, form.prescription, ParseMedicines(form.medicines),
                     form.doctorNotes, Prescribed))
  }

  /** An update is sent exactly when a case is selected and the trimmed
      prescription is not empty; it targets the selected case, marks it
      prescribed, and carries the parsed medicine list. */
  lemma PrescribeGuard(selected: Option<MedicalCase>, form: CaseForm, doctorId: Option<string>)
    ensures var r := PrescribeRequest(selected, form, doctorId);
            (r.None? <==> selected.None? || Strings.Trim(form.prescription) == []) &&
            (r.Some? ==> r.value.caseId == selected.value.id && r.value.status == Prescribed &&
                         r.value.prescription == form.prescription && r.value.doctorNotes == form.doctorNotes &&
                         r.value.doctorId == doctorId &&
                         r.value.prescribedMedicines == ParseMedicines(form.medicines))
  {
  }

  /** A whitespace-only prescription is refused even with a case selected. */
  lemma BlankPrescriptionRefused(c: MedicalCase, form: CaseForm, doctorId: Option<string>)
    requires forall i :: 0 <= i < |form.prescription| ==> Strings.IsSpace(form.prescription[i])
    ensures PrescribeRequest(Some(c), form, doctorId).None?
  {
    Strings.TrimPadded(form.prescription, []);
    assert form.prescription + [] == form.prescription;
  }

  /** The dashboard's state. */
  class Dashboard {
    var cases: seq<MedicalCase>
    var selectedCase: Option<MedicalCase>
    var prescription: string
    var medicines: string
    var doctorNotes: string
    var loading: bool
    var prescribing: bool

    /** The three form fields. */
    function Form(): CaseForm
      reads this
    {
      CaseForm(prescription, medicines, doctorNotes)
    }

    constructor ()
      ensures cases == [] && selectedCase == None && Form() == CaseForm("", "", "") && loading && !prescribing
    {
      cases := [];
      selectedCase := None;
      prescription := "";
      medicines := "";
      doctorNotes := "";
      loading := true;
      prescribing := false;
    }

    /** `fetchCases`, run once on mount and again after a prescription.
        `db` is what is stored; `fetched` is the query's answer over it, or
        `None` when the query failed, which keeps the old list. Loading ends
        either way. */
    method FetchCases(db: seq<MedicalCase>, fetched: Option<seq<MedicalCase>>)
      requires fetched.Some? ==> IsCaseList(db, fetched.value)
      modifies this
      ensures cases == fetched.GetOr(old(cases)) && !loading
      ensures fetched.Some? ==> forall c :: c in cases <==> c in db && NeedsAttention(c)
      ensures selectedCase == old(selectedCase) && Form() == old(Form()) && prescribing == old(prescribing)
    {
      if fetched.Some? {
        CaseListContents(db, fetched.value);
        cases := fetched.value;
      }
      loading := false;
    }

    /** `handleCaseSelect`. */
    method HandleCaseSelect(c: MedicalCase)
      modifies this
      ensures selectedCase == Some(c) && Form() == FormFromCase(c)
      ensures cases == old(cases) && loading == old(loading) && prescribing == old(prescribing)
    {
      selectedCase := Some(c);
      var form := FormFromCase(c);
      prescription := form.prescription;
      medicines := form.medicines;
      doctorNotes := form.doctorNotes;
    }

    /** `handlePrescribe`. `updateOk` says whether the case update
        succeeded; `db` and `fetched` are the stored cases and the answer of
        the refetch that follows a successful update. Returns the update
        that was sent, if any. */
    method HandlePrescribe(doctorId: Option<string>, updateOk: bool, db: seq<MedicalCase>, fetched: Option<seq<MedicalCase>>)
      returns (sent: Option<Update>)
      requires fetched.Some? ==> IsCaseList(db, fetched.value)
      modifies this
      ensures sent == PrescribeRequest(old(selectedCase), old(Form()), doctorId)
      ensures sent.None? ==> selectedCase == old(selectedCase) && Form() == old(Form()) &&
                             cases == old(cases) && loading == old(loading) && prescribing == old(prescribing)
      ensures sent.Some? ==> !prescribing
      ensures sent.Some? && updateOk ==> selectedCase == None && Form() == CaseForm("", "", "") &&
                                         cases == fetched.GetOr(old(cases)) && !loading
      ensures sent.Some? && !updateOk ==> selectedCase == old(selectedCase) && Form() == old(Form()) &&
                                          cases == old(cases) && loading == old(loading)
    {
      sent := PrescribeRequest(selectedCase, Form(), doctorId);
      Send(sent, updateOk, db, fetched);
    }

    /** Sending `sent`, if there is one: `prescribing` is raised around the
        update; on success the list is fetched again and the form emptied
        with no case selected; on failure, or with nothing to send, nothing
        else changes. */
    method Send(sent: Option<Update>, updateOk: bool, db: seq<MedicalCase>, fetched: Option<seq<MedicalCase>>)
      requires fetched.Some? ==> IsCaseList(db, fetched.value)
      modifies this
      ensures sent.None? ==> selectedCase == old(selectedCase) && Form() == old(Form()) &&
                             cases == old(cases) && loading == old(loading) && prescribing == old(prescribing)
      ensures sent.Some? ==> !prescribing
      ensures sent.Some? && updateOk ==> selectedCase == None && Form() == CaseForm("", "", "") &&
                                         cases == fetched.GetOr(old(cases)) && !loading
      ensures sent.Some? && !updateOk ==> selectedCase == old(selectedCase) && Form() == old(Form()) &&
                                          cases == old(cases) && loading == old(loading)
    {
      if sent.None? {
        return;
      }
      prescribing := true;
      if updateOk {
        FetchCases(db, fetched);
        selectedCase := None;
        prescription := "";
        medicines := "";
        doctorNotes := "";
      }
      prescribing := false;
    }
  }
}
