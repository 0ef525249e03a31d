/**
 * Medical examinations (src/pages/Examinations.tsx): exams are planned for
 * a registered patient and doctor, edited, moved between statuses, given
 * results (which completes them) and deleted; the page lists them through
 * a search and two filters, with laboratory and imaging tabs.
 */
module Examinations {
  import opened Wrappers
  import opened Text
  import opened Directory
  import opened Clock
  import Seqs

  datatype ExamType = Laboratory | Imaging | Biopsy | Other

  datatype ExamStatus = Pending | InProgress | Completed | Cancelled

  datatype Exam = Exam(
    id: string,
    patientId: string,
    patientName: string,
    doctorId: string,
    doctorName: string,
    kind: ExamType,
    category: string,
    name: string,
    date: string,
    status: ExamStatus,
    results: Option<string>,
    files: Option<seq<string>>,
    notes: Option<string>,
    createdAt: string)

  /** The planning dialog's fields. */
  datatype ExamForm = ExamForm(
    patientId: string,
    doctorId: string,
    kind: ExamType,
    category: string,
    name: string,
    date: string,
    notes: string,
    results: string)

  function TypeName(t: ExamType): string {
    match t
    case Laboratory => "laboratory"
    case Imaging => "imaging"
    case Biopsy => "biopsy"
    case Other => "other"
  }

  function StatusName(s: ExamStatus): string {
    match s
    case Pending => "pending"
    case InProgress => "in_progress"
    case Completed => "completed"
    case Cancelled => "cancelled"
  }

  // ---------------------------------------------------------------------
  // The dialog
  // ---------------------------------------------------------------------

  /** `resetForm`: the empty dialog. */
  const EmptyForm := ExamForm("", "", Laboratory, "", "", "", "", "")

  /** Choosing another type clears the category, whose choices depend on the type. */
  function ChooseType(form: ExamForm, t: ExamType): (r: ExamForm)
    ensures r.kind == t && r.category == ""
    ensures r.(kind := form.kind, category := form.category) == form
  {
    form.(kind := t, category := "")
  }

  /** `handleEdit`: the dialog filled from an exam, with absent notes and results shown empty. */
  function EditForm(e: Exam): (r: ExamForm)
    ensures r.patientId == e.patientId && r.doctorId == e.doctorId && r.kind == e.kind
    ensures r.category == e.category && r.name == e.name && r.date == e.date
    ensures r.notes == (if e.notes.Some? then e.notes.value else "")
    ensures r.results == (if e.results.Some? then e.results.value else "")
  {
    ExamForm(e.patientId, e.doctorId, e.kind, e.category, e.name, e.date,
             if e.notes.Some? then e.notes.value else "",
             if e.results.Some? then e.results.value else "")
  }

  // ---------------------------------------------------------------------
  // Submission
  // ---------------------------------------------------------------------

  /** An exam overwritten by the dialog's fields and the names looked up for them. */
  function Overwritten(e: Exam, form: ExamForm, p: Patient, d: Doctor): (r: Exam)
    ensures r.id == e.id && r.status == e.status && r.files == e.files && r.createdAt == e.createdAt
    ensures r.patientId == form.patientId && r.doctorId == form.doctorId && r.kind == form.kind
    ensures r.category == form.category && r.name == form.name && r.date == form.date
    ensures r.notes == Some(form.notes) && r.results == Some(form.results)
    ensures r.patientName == PatientName(p) && r.doctorName == DoctorName(d)
  {
    e.(patientId := form.patientId, doctorId := form.doctorId, kind := form.kind,
       category := form.category, name := form.name, date := form.date,
       notes := Some(form.notes), results := Some(form.results),
       patientName := PatientName(p), doctorName := DoctorName(d))
  }

  /** A freshly planned exam. */
  function Planned(form: ExamForm, p: Patient, d: Doctor, clock: Instant): (r: Exam)
    ensures r.id == Stamp("exam-", clock) && r.status == Pending && r.createdAt == Today(clock)
    ensures r.patientId == form.patientId && r.doctorId == form.doctorId && r.kind == form.kind
    ensures r.category == form.category && r.name == form.name && r.date == form.date
    ensures r.notes == Some(form.notes) && r.results == None && r.files == None
    ensures r.patientName == PatientName(p) && r.doctorName == DoctorName(d)
  {
    Exam(Stamp("exam-", clock), form.patientId, PatientName(p), form.doctorId, DoctorName(d),
         form.kind, form.category, form.name, form.date, Pending, None, None,
         Some(form.notes), Today(clock))
  }

  predicate PatientKnown(patients: seq<Patient>, id: string) {
    exists k :: 0 <= k < |patients| && patients[k].id == id
  }

  predicate DoctorKnown(doctors: seq<Doctor>, id: string) {
    exists k :: 0 <= k < |doctors| && doctors[k].id == id
  }

  /**
   * `handleSubmit`: nothing changes unless both the patient and the
   * doctor are registered; then the exam being edited (`editing` holds its
   * id) is overwritten, or a new pending exam is put in front.
   */
  function Submit(exams: seq<Exam>, editing: Option<string>, form: ExamForm,
                  patients: seq<Patient>, doctors: seq<Doctor>, clock: Instant): (r: seq<Exam>)
    ensures !PatientKnown(patients, form.patientId) || !DoctorKnown(doctors, form.doctorId) ==> r == exams
    ensures forall pk, dk :: FirstPatientAt(patients, form.patientId, pk) && FirstDoctorAt(doctors, form.doctorId, dk) ==>
      if editing.Some? then
        && |r| == |exams|
        && forall i :: 0 <= i < |exams| ==>
             r[i] == if exams[i].id == editing.value then Overwritten(exams[i], form, patients[pk], doctors[dk]) else exams[i]
      else
        r == [Planned(form, patients[pk], doctors[dk], clock)] + exams
  {
    var patient := FindPatient(patients, form.patientId);
    var doctor := FindDoctor(doctors, form.doctorId);
    if patient.None? || doctor.None? then exams
    else if editing.Some? then
      seq(|exams|, i requires 0 <= i < |exams| =>
        if exams[i].id == editing.value then Overwritten(exams[i], form, patient.value, doctor.value) else exams[i])
    else
      [Planned(form, patient.value, doctor.value, clock)] + exams
  }

  /**
   * Opening an exam for editing and saving the dialog untouched changes
   * nothing, provided its notes and results are present, its names are
   * those of the registered patient and doctor, and no other exam shares
   * its id.
   */
  lemma EditingUnchangedKeepsExams(exams: seq<Exam>, k: nat, patients: seq<Patient>, doctors: seq<Doctor>,
                                   pk: nat, dk: nat, clock: Instant)
    requires k < |exams|
    requires forall i :: 0 <= i < |exams| && i != k ==> exams[i].id != exams[k].id
    requires exams[k].notes.Some? && exams[k].results.Some?
    requires FirstPatientAt(patients, exams[k].patientId, pk) && PatientName(patients[pk]) == exams[k].patientName
    requires FirstDoctorAt(doctors, exams[k].doctorId, dk) && DoctorName(doctors[dk]) == exams[k].doctorName
    ensures Submit(exams, Some(exams[k].id), EditForm(exams[k]), patients, doctors, clock) == exams
  {
    var e := exams[k];
    var r := Submit(exams, Some(e.id), EditForm(e), patients, doctors, clock);
    assert Overwritten(e, EditForm(e), patients[pk], doctors[dk]) == e;
    assert forall i :: 0 <= i < |exams| ==> r[i] == exams[i];
  }

  // ---------------------------------------------------------------------
  // Status, results and deletion
  // ---------------------------------------------------------------------

  /** `handleStatusChange`: the exams with that id take the status; nothing else changes. */
  function WithStatus(exams: seq<Exam>, id: string, status: ExamStatus): (r: seq<Exam>)
    ensures |r| == |exams|
    ensures forall i :: 0 <= i < |exams| ==>
      r[i] == if exams[i].id == id then exams[i].(status := status) else exams[i]
  {
    seq(|exams|, i requires 0 <= i < |exams| =>
      if exams[i].id == id then exams[i].(status := status) else exams[i])
  }

  /** `handleAddResults`: the exams with that id get the results and are completed. */
  function WithResults(exams: seq<Exam>, id: string, results: string): (r: seq<Exam>)
    ensures |r| == |exams|
    ensures forall i :: 0 <= i < |exams| ==>
      r[i] == if exams[i].id == id then exams[i].(results := Some(results), status := Completed) else exams[i]
  {
    seq(|exams|, i requires 0 <= i < |exams| =>
      if exams[i].id == id then exams[i].(results := Some(results), status := Completed) else exams[i])
  }

  /** The results dialog saves only a non-empty text. */
  predicate ResultsAccepted(input: string) {
    input != ""
  }

  /** `handleDelete`: the exams without that id. */
  function Delete(exams: seq<Exam>, id: string): (r: seq<Exam>)
    ensures |r| <= |exams|
    ensures forall e: Exam :: e in r <==> e in exams && e.id != id
    ensures forall e: Exam :: multiset(r)[e] == if e.id != id then multiset(exams)[e] else 0
  {
    Seqs.FilterMultiset(exams, (e: Exam) => e.id != id);
    Seqs.Filter(exams, (e: Exam) => e.id != id)
  }

  // ---------------------------------------------------------------------
  // What the card offers
  // ---------------------------------------------------------------------

  /** The status selector: an exam without (non-empty) results that is not cancelled. */
  predicate StatusSelectable(e: Exam) {
    (e.results.None? || e.results == Some("")) && e.status != Cancelled
  }

  /** The edit button: an exam that is not completed. */
  predicate Editable(e: Exam) {
    e.status != Completed
  }

  /**
   * Once results are saved through the dialog the exam offers neither the
   * status selector nor editing; the other exams offer what they did.
   */
  lemma ResultsLockExam(exams: seq<Exam>, id: string, input: string)
    requires ResultsAccepted(input)
    ensures var r := WithResults(exams, id, input);
      forall i :: 0 <= i < |r| ==>
        if exams[i].id == id then !StatusSelectable(r[i]) && !Editable(r[i])
        else StatusSelectable(r[i]) == StatusSelectable(exams[i]) && Editable(r[i]) == Editable(exams[i])
  {
  }

  // ---------------------------------------------------------------------
  // The list
  // ---------------------------------------------------------------------

  predicate ExamMatches(e: Exam, search: string, typeFilter: string, statusFilter: string) {
    (Matches(e.patientName, search) || Matches(e.name, search) || Matches(e.category, search)) &&
    (typeFilter == "all" || TypeName(e.kind) == typeFilter) &&
    (statusFilter == "all" || StatusName(e.status) == statusFilter)
  }

  /** `filteredExams`. */
  function FilteredExams(exams: seq<Exam>, search: string, typeFilter: string, statusFilter: string): (r: seq<Exam>)
    ensures |r| <= |exams|
    ensures forall e :: e in r <==> e in exams && ExamMatches(e, search, typeFilter, statusFilter)
    ensures forall e :: multiset(r)[e] == if ExamMatches(e, search, typeFilter, statusFilter) then multiset(exams)[e] else 0
  {
    Seqs.FilterMultiset(exams, (e: Exam) => ExamMatches(e, search, typeFilter, statusFilter));
    Seqs.Filter(exams, (e: Exam) => ExamMatches(e, search, typeFilter, statusFilter))
  }

  /** The tab of one exam type: the filtered exams of that type. */
  function TypeTab(exams: seq<Exam>, search: string, typeFilter: string, statusFilter: string, t: ExamType): (r: seq<Exam>)
    ensures forall e :: e in r <==> e in exams && ExamMatches(e, search, typeFilter, statusFilter) && e.kind == t
    ensures forall e ::
      multiset(r)[e] == if ExamMatches(e, search, typeFilter, statusFilter) && e.kind == t then multiset(exams)[e] else 0
  {
    Seqs.FilterMultiset(FilteredExams(exams, search, typeFilter, statusFilter), (e: Exam) => e.kind == t);
    Seqs.Filter(FilteredExams(exams, search, typeFilter, statusFilter), (e: Exam) => e.kind == t)
  }

  /** `laboratoryExams`. */
  function LaboratoryExams(exams: seq<Exam>, search: string, typeFilter: string, statusFilter: string): seq<Exam> {
    TypeTab(exams, search, typeFilter, statusFilter, Laboratory)
  }

  /** `imagingExams`. */
  function ImagingExams(exams: seq<Exam>, search: string, typeFilter: string, statusFilter: string): seq<Exam> {
    TypeTab(exams, search, typeFilter, statusFilter, Imaging)
  }

  /** A tab is the single filter over the whole list by the search, the filters and the type. */
  lemma TypeTabIsOneFilter(exams: seq<Exam>, search: string, typeFilter: string, statusFilter: string, t: ExamType)
    ensures TypeTab(exams, search, typeFilter, statusFilter, t) ==
      Seqs.Filter(exams, (e: Exam) => ExamMatches(e, search, typeFilter, statusFilter) && e.kind == t)
  {
    Seqs.FilterTwice(exams, (e: Exam) => ExamMatches(e, search, typeFilter, statusFilter), (e: Exam) => e.kind == t,
                     (e: Exam) => ExamMatches(e, search, typeFilter, statusFilter) && e.kind == t);
  }

  /** With the type filter on "laboratory" the laboratory tab shows the whole filtered list. */
  lemma LaboratoryFilterFillsTab(exams: seq<Exam>, search: string, statusFilter: string)
    ensures LaboratoryExams(exams, search, "laboratory", statusFilter) == FilteredExams(exams, search, "laboratory", statusFilter)
  {
    var f := FilteredExams(exams, search, "laboratory", statusFilter);
    forall i | 0 <= i < |f| ensures f[i].kind == Laboratory {
      assert f[i] in f;
    }
    Seqs.FilterKeepsAll(f, (e: Exam) => e.kind == Laboratory);
  }

  // ---------------------------------------------------------------------
  // The page's state
  // ---------------------------------------------------------------------

  /** The `exams` state of the page. */
  class Lab {
    var exams: seq<Exam>

    constructor (initial: seq<Exam>)
      ensures exams == initial
    {
      exams := initial;
    }

    method SubmitForm(editing: Option<string>, form: ExamForm, patients: seq<Patient>, doctors: seq<Doctor>, clock: Instant)
      modifies this
      ensures exams == Submit(old(exams), editing, form, patients, doctors, clock)
    {
      exams := Submit(exams, editing, form, patients, doctors, clock);
    }

    method ChangeStatus(id: string, status: ExamStatus)
      modifies this
      ensures exams == WithStatus(old(exams), id, status)
    {
      exams := WithStatus(exams, id, status);
    }

    /** The "save results" button: an empty text saves nothing. */
    method AddResults(id: string, input: string)
      modifies this
      ensures ResultsAccepted(input) ==> exams == WithResults(old(exams), id, input)
      ensures !ResultsAccepted(input) ==> exams == old(exams)
    {
      if ResultsAccepted(input) {
        exams := WithResults(exams, id, input);
      }
    }

    method Remove(id: string)
      modifies this
      ensures exams == Delete(old(exams), id)
    {
      exams := Delete(exams, id);
    }
  }
}
