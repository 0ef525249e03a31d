/**
 * Consultations (src/pages/Consultations.tsx): a consultation is saved
 * for a registered patient and doctor with its symptoms typed as a
 * comma-separated list, and later completed.
 */
module Consultations {
  import opened Wrappers
  import opened Text
  import opened Directory
  import opened Clock
  import Seqs

  datatype ConsultationStatus = InProgress | Completed

  datatype Consultation = Consultation(
    id: string,
    patientId: string,
    patientName: string,
    doctorId: string,
    doctorName: string,
    appointmentId: Option<string>,
    date: string,
    diagnosis: string,
    symptoms: seq<string>,
    treatment: string,
    prescription: Option<string>,
    notes: Option<string>,
    followUpDate: Option<string>,
    status: ConsultationStatus)

  /** The dialog's fields. */
  datatype ConsultationForm = ConsultationForm(
    patientId: string,
    doctorId: string,
    diagnosis: string,
    symptoms: string,
    treatment: string,
    prescription: string,
    notes: string,
    followUpDate: string)

  const EmptyForm := ConsultationForm("", "", "", "", "", "", "", "")

  /** `symptoms.split(',').map(s => s.trim())`. */
  function Symptoms(text: string): (r: seq<string>)
    ensures |r| == Occurrences(text, ',') + 1
    ensures forall k :: 0 <= k < |r| ==> ',' !in r[k]
    ensures forall k :: 0 <= k < |r| ==> r[k] == Trim(Split(text, ',')[k])
  {
    var pieces := Split(text, ',');
    seq(|pieces|, k requires 0 <= k < |pieces| => Trim(pieces[k]))
  }

  /** Every symptom is a trimmed piece: trimming it again changes nothing. */
  lemma SymptomsTrimmed(text: string)
    ensures forall k :: 0 <= k < |Symptoms(text)| ==> Trim(Symptoms(text)[k]) == Symptoms(text)[k]
  {
    var r := Symptoms(text);
    forall k | 0 <= k < |r| ensures Trim(r[k]) == r[k] {
      TrimIdempotent(Split(text, ',')[k]);
    }
  }

  /** An example of `Symptoms`: an empty field gives one empty symptom, not an empty list. */
  lemma EmptySymptoms()
    ensures Symptoms("") == [""]
  {
    assert Split("", ',') == [""];
    assert Trim("") == "";
  }

  /** `followUpDate || undefined`: an empty date is absent. */
  function FollowUp(date: string): (r: Option<string>)
    ensures r.None? <==> date == ""
    ensures r.Some? ==> r.value == date
  {
    if date == "" then None else Some(date)
  }

  /** The consultation `handleSubmit` opens, or `None` when the patient or doctor is not registered. */
  function NewConsultation(form: ConsultationForm, patients: seq<Patient>, doctors: seq<Doctor>,
                           clock: Instant): (r: Option<Consultation>)
    ensures r.None? <==>
      (forall k :: 0 <= k < |patients| ==> patients[k].id != form.patientId) ||
      (forall k :: 0 <= k < |doctors| ==> doctors[k].id != form.doctorId)
    ensures forall pk, dk :: FirstPatientAt(patients, form.patientId, pk) && FirstDoctorAt(doctors, form.doctorId, dk) ==>
      && r.Some?
      && r.value.patientName == PatientName(patients[pk])
      && r.value.doctorName == DoctorName(doctors[dk])
    ensures r.Some? ==>
      && r.value.id == Stamp("cons-", clock)
      && r.value.patientId == form.patientId && r.value.doctorId == form.doctorId
      && r.value.appointmentId == None
      && r.value.date == Today(clock)
      && r.value.diagnosis == form.diagnosis
      && r.value.symptoms == Symptoms(form.symptoms)
      && r.value.treatment == form.treatment
      && r.value.prescription == Some(form.prescription)
      && r.value.notes == Some(form.notes)
      && r.value.followUpDate == FollowUp(form.followUpDate)
      && r.value.status == InProgress
  {
    var patient := FindPatient(patients, form.patientId);
    var doctor := FindDoctor(doctors, form.doctorId);
    if patient.None? || doctor.None? then None
    else
      Some(Consultation(Stamp("cons-", clock), form.patientId, PatientName(patient.value),
                        form.doctorId, DoctorName(doctor.value), None, Today(clock),
                        form.diagnosis, Symptoms(form.symptoms), form.treatment,
                        Some(form.prescription), Some(form.notes), FollowUp(form.followUpDate),
                        InProgress))
  }

  /** `handleComplete`: the consultations with that id are completed; nothing else changes. */
  function Complete(list: seq<Consultation>, id: string): (r: seq<Consultation>)
    ensures |r| == |list|
    ensures forall i :: 0 <= i < |list| ==>
      r[i] == if list[i].id == id then list[i].(status := Completed) else list[i]
  {
    seq(|list|, i requires 0 <= i < |list| =>
      if list[i].id == id then list[i].(status := Completed) else list[i])
  }

  /** The "complete" menu entry is offered only while the consultation is in progress. */
  predicate CompleteOffered(c: Consultation) {
    c.status == InProgress
  }

  /** A completed consultation no longer offers completion; the others offer what they did. */
  lemma CompletedNotOffered(list: seq<Consultation>, id: string)
    ensures var r := Complete(list, id);
      forall i :: 0 <= i < |r| ==>
        if list[i].id == id then !CompleteOffered(r[i]) else CompleteOffered(r[i]) == CompleteOffered(list[i])
  {
  }

  function InProgressCount(list: seq<Consultation>): nat {
    Seqs.Count(list, (c: Consultation) => c.status == InProgress)
  }

  function CompletedCount(list: seq<Consultation>): nat {
    Seqs.Count(list, (c: Consultation) => c.status == Completed)
  }

  /** The two counters of the page partition the list. */
  lemma {:induction false} CountersPartition(list: seq<Consultation>)
    ensures InProgressCount(list) + CompletedCount(list) == |list|
  {
    if list != [] {
      CountersPartition(list[1..]);
    }
  }

  /**
   * Completing a consultation that is in progress, whose id no other
   * consultation shares, moves exactly one from the in-progress counter to
   * the completed counter.
   */
  lemma {:induction false} CompletingMovesOne(list: seq<Consultation>, k: nat)
    requires k < |list| && CompleteOffered(list[k])
    requires forall i :: 0 <= i < |list| && i != k ==> list[i].id != list[k].id
    ensures InProgressCount(Complete(list, list[k].id)) == InProgressCount(list) - 1
    ensures CompletedCount(Complete(list, list[k].id)) == CompletedCount(list) + 1
  {
    var r := Complete(list, list[k].id);
    assert r[1..] == Complete(list[1..], list[k].id);
    if k == 0 {
      assert Complete(list[1..], list[k].id) == list[1..];
    } else {
      CompletingMovesOne(list[1..], k - 1);
    }
  }

  predicate ConsultationMatches(c: Consultation, query: string) {
    Matches(c.patientName, query) || Matches(c.doctorName, query) || Matches(c.diagnosis, query)
  }

  /** `filteredConsultations`. */
  function Filtered(list: seq<Consultation>, query: string): (r: seq<Consultation>)
    ensures |r| <= |list|
    ensures forall c :: c in r <==> c in list && ConsultationMatches(c, query)
    ensures forall c :: multiset(r)[c] == if ConsultationMatches(c, query) then multiset(list)[c] else 0
  {
    Seqs.FilterMultiset(list, (c: Consultation) => ConsultationMatches(c, query));
    Seqs.Filter(list, (c: Consultation) => ConsultationMatches(c, query))
  }

  /** The empty search shows every consultation. */
  lemma EmptySearchShowsAll(list: seq<Consultation>)
    ensures Filtered(list, "") == list
  {
    forall i | 0 <= i < |list| ensures ConsultationMatches(list[i], "") {
      EmptyQueryMatches(list[i].patientName);
    }
    Seqs.FilterKeepsAll(list, (c: Consultation) => ConsultationMatches(c, ""));
  }

  /** The `consultations` state of the page with its dialog. */
  class Journal {
    var consultations: seq<Consultation>
    var form: ConsultationForm

    constructor (initial: seq<Consultation>)
      ensures consultations == initial && form == EmptyForm
    {
      consultations := initial;
      form := EmptyForm;
    }

    /** `handleSubmit`: on success the new consultation goes in front and the dialog is cleared. */
    method Submit(patients: seq<Patient>, doctors: seq<Doctor>, clock: Instant) returns (saved: bool)
      modifies this
      ensures saved <==> NewConsultation(old(form), patients, doctors, clock).Some?
      ensures saved ==> consultations == [NewConsultation(old(form), patients, doctors, clock).value] + old(consultations)
      ensures saved ==> form == EmptyForm
      ensures !saved ==> consultations == old(consultations) && form == old(form)
    {
      var c := NewConsultation(form, patients, doctors, clock);
      saved := c.Some?;
      if saved {
        consultations := [c.value] + consultations;
        form := EmptyForm;
      }
    }

    method CompleteById(id: string)
      modifies this
      ensures consultations == Complete(old(consultations), id) && form == old(form)
    {
      consultations := Complete(consultations, id);
    }
  }
}
