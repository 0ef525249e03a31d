/**
 * The reception desk's intake queue (src/pages/Reception.tsx): arrivals are
 * registered at the front of the list, staff rewrite an entry's status and
 * assigned doctor, and the queue is displayed filtered by a search query and
 * sorted by the page's comparator (waiting entries first, then triage
 * priority) with JavaScript's stable `Array.prototype.sort`.
 */
module Reception {
  import opened Wrappers
  import opened Text
  import opened Directory
  import opened Clock
  import Seqs

  datatype Priority = Low | Medium | High | Urgent

  datatype Status = Waiting | InConsultation | Completed | Cancelled

  datatype Entry = Entry(
    id: string,
    patientId: string,
    patientName: string,
    arrivalTime: string,
    reason: string,
    priority: Priority,
    status: Status,
    assignedDoctor: Option<string>,
    notes: Option<string>,
    createdAt: string)

  /** The registration dialog's fields. */
  datatype ArrivalForm = ArrivalForm(
    patientId: string,
    patientName: string,
    reason: string,
    priority: Priority,
    notes: string,
    isNewPatient: bool)

  // ---------------------------------------------------------------------
  // Registration
  // ---------------------------------------------------------------------

  /**
   * The name put on the entry: for an existing patient whose id is in the
   * registry, the registered first and last name; otherwise the typed name.
   */
  function ResolvedName(form: ArrivalForm, patients: seq<Patient>): (name: string)
    ensures !form.isNewPatient && form.patientId != "" ==>
      forall k :: FirstPatientAt(patients, form.patientId, k) ==> name == PatientName(patients[k])
    ensures (form.isNewPatient || form.patientId == "" ||
             forall k :: 0 <= k < |patients| ==> patients[k].id != form.patientId) ==>
      name == form.patientName
  {
    if !form.isNewPatient && form.patientId != "" then
      match FindPatient(patients, form.patientId)
      case Some(p) => PatientName(p)
      case None => form.patientName
    else form.patientName
  }

  /** The entry `handleSubmit` builds, or `None` when a required field is empty. */
  function NewEntry(form: ArrivalForm, patients: seq<Patient>, clock: Instant): (r: Option<Entry>)
    ensures r.None? <==> ResolvedName(form, patients) == "" || form.reason == ""
    ensures r.Some? ==>
      && r.value.id == Stamp("rec-", clock)
      && r.value.patientId == form.patientId
      && r.value.patientName == ResolvedName(form, patients)
      && r.value.arrivalTime == clock.timeOfDay
      && r.value.reason == form.reason
      && r.value.priority == form.priority
      && r.value.status == Waiting
      && r.value.assignedDoctor == None
      && r.value.notes == Some(form.notes)
      && r.value.createdAt == Today(clock)
  {
    var name := ResolvedName(form, patients);
    if name == "" || form.reason == "" then None
    else Some(Entry(Stamp("rec-", clock), form.patientId, name, clock.timeOfDay, form.reason,
                    form.priority, Waiting, None, Some(form.notes), Today(clock)))
  }

  /** The queue after `handleSubmit`: the new entry in front, or the queue unchanged. */
  function Registered(list: seq<Entry>, form: ArrivalForm, patients: seq<Patient>, clock: Instant): (r: seq<Entry>)
    ensures NewEntry(form, patients, clock).None? ==> r == list
    ensures NewEntry(form, patients, clock).Some? ==>
      |r| == |list| + 1 && r[0] == NewEntry(form, patients, clock).value && r[1..] == list
  {
    match NewEntry(form, patients, clock)
    case None => list
    case Some(e) => [e] + list
  }

  // ---------------------------------------------------------------------
  // Status changes
  // ---------------------------------------------------------------------

  /** The queue after `handleStatusChange(id, status, doctor)`. */
  function WithStatus(list: seq<Entry>, id: string, status: Status, doctor: Option<string>): (r: seq<Entry>)
    ensures |r| == |list|
    ensures forall i :: 0 <= i < |list| && list[i].id != id ==> r[i] == list[i]
    ensures forall i :: 0 <= i < |list| && list[i].id == id ==>
      r[i] == list[i].(status := status, assignedDoctor := doctor)
  {
    seq(|list|, i requires 0 <= i < |list| =>
      if list[i].id == id then list[i].(status := status, assignedDoctor := doctor) else list[i])
  }

  /**
   * The doctor label the "take charge" selector passes: the doctor's name,
   * or, when the chosen id is not among the available doctors, the text the
   * template literal produces from two `undefined` fields.
   */
  function AssignmentLabel(doctors: seq<Doctor>, doctorId: string): (text: string)
    ensures forall k :: FirstDoctorAt(doctors, doctorId, k) ==> text == DoctorName(doctors[k])
    ensures (forall k :: 0 <= k < |doctors| ==> doctors[k].id != doctorId) ==>
      text == "Dr. undefined undefined"
  {
    match FindDoctor(doctors, doctorId)
    case Some(d) => DoctorName(d)
    case None => "Dr. undefined undefined"
  }

  /** Completion passes no doctor, so every completed entry with that id loses its doctor. */
  lemma {:induction false} CompletingClearsDoctor(list: seq<Entry>, id: string)
    ensures var r := WithStatus(list, id, Completed, None);
      forall i :: 0 <= i < |r| && r[i].id == id ==> r[i].status == Completed && r[i].assignedDoctor.None?
  {
    var r := WithStatus(list, id, Completed, None);
    forall i | 0 <= i < |r| && r[i].id == id
      ensures r[i].status == Completed && r[i].assignedDoctor.None?
    {
      assert list[i].id == id;
    }
  }

  // ---------------------------------------------------------------------
  // Derived views: search, counters, display order
  // ---------------------------------------------------------------------

  predicate SearchMatches(e: Entry, query: string) {
    Matches(e.patientName, query) || Matches(e.reason, query)
  }

  /** `filteredList`: the entries whose name or reason contains the query, in queue order. */
  function Search(list: seq<Entry>, query: string): (r: seq<Entry>)
    ensures forall e :: e in r <==> e in list && SearchMatches(e, query)
    ensures forall e :: multiset(r)[e] == if SearchMatches(e, query) then multiset(list)[e] else 0
  {
    Seqs.FilterMultiset(list, (e: Entry) => SearchMatches(e, query));
    Seqs.Filter(list, (e: Entry) => SearchMatches(e, query))
  }

  function WaitingCount(list: seq<Entry>): nat {
    Seqs.Count(list, (e: Entry) => e.status == Waiting)
  }

  function InConsultationCount(list: seq<Entry>): nat {
    Seqs.Count(list, (e: Entry) => e.status == InConsultation)
  }

  /** The "Urgents" counter: urgent entries still waiting. */
  function UrgentWaitingCount(list: seq<Entry>): nat {
    Seqs.Count(list, (e: Entry) => e.priority == Urgent && e.status == Waiting)
  }

  /** The counters never exceed the queue length and urgent-waiting is part of waiting. */
  lemma {:induction false} CountersBounded(list: seq<Entry>)
    ensures WaitingCount(list) + InConsultationCount(list) <= |list|
    ensures UrgentWaitingCount(list) <= WaitingCount(list)
  {
    if list != [] {
      CountersBounded(list[1..]);
    }
  }

  /** A successful registration adds exactly one waiting entry. */
  lemma RegistrationCounts(list: seq<Entry>, form: ArrivalForm, patients: seq<Patient>, clock: Instant)
    requires NewEntry(form, patients, clock).Some?
    ensures WaitingCount(Registered(list, form, patients, clock)) == WaitingCount(list) + 1
    ensures InConsultationCount(Registered(list, form, patients, clock)) == InConsultationCount(list)
  {
    var r := Registered(list, form, patients, clock);
    assert r[1..] == list;
  }

  /** Triage rank: urgent 0, high 1, medium 2, low 3. */
  function Rank(p: Priority): nat {
    match p
    case Urgent => 0
    case High => 1
    case Medium => 2
    case Low => 3
  }

  /** The sort key the comparator induces: waiting entries occupy 0..3, the others 4..7. */
  function Key(e: Entry): nat {
    (if e.status == Waiting then 0 else 4) + Rank(e.priority)
  }

  /** The comparator given to `sort`; its sign is that of the difference of the keys. */
  function Compare(a: Entry, b: Entry): (c: int)
    ensures c < 0 <==> Key(a) < Key(b)
    ensures c == 0 <==> Key(a) == Key(b)
  {
    if a.status == Waiting && b.status != Waiting then -1
    else if a.status != Waiting && b.status == Waiting then 1
    else Rank(a.priority) - Rank(b.priority)
  }

  predicate Sorted(s: seq<Entry>) {
    forall i, j :: 0 <= i < j < |s| ==> Key(s[i]) <= Key(s[j])
  }

  /** Insert `x` before the first element it does not compare greater than. */
  function Insert(x: Entry, t: seq<Entry>): (r: seq<Entry>)
    ensures multiset(r) == multiset(t) + multiset{x}
  {
    if t == [] then [x]
    else if Compare(x, t[0]) <= 0 then
      assert t == [t[0]] + t[1..];
      [x] + t
    else
      assert t == [t[0]] + t[1..];
      [t[0]] + Insert(x, t[1..])
  }

  lemma {:induction false} InsertSorted(x: Entry, t: seq<Entry>)
    requires Sorted(t)
    ensures Sorted(Insert(x, t))
  {
    if t != [] && Compare(x, t[0]) > 0 {
      var rest := Insert(x, t[1..]);
      InsertSorted(x, t[1..]);
      forall j | 0 <= j < |rest| ensures Key(t[0]) <= Key(rest[j]) {
        assert rest[j] in multiset(rest);
        assert rest[j] == x || rest[j] in t[1..];
      }
    }
  }

  /** Insertion sort: each element is inserted ahead of the equal-key elements after it. */
  function Sort(s: seq<Entry>): (r: seq<Entry>)
    ensures Sorted(r)
    ensures multiset(r) == multiset(s)
  {
    if s == [] then []
    else
      assert s == [s[0]] + s[1..];
      InsertSorted(s[0], Sort(s[1..]));
      Insert(s[0], Sort(s[1..]))
  }

  /** The entries of `s` with key `k`, in order. */
  function WithKey(s: seq<Entry>, k: nat): seq<Entry> {
    if s == [] then [] else (if Key(s[0]) == k then [s[0]] else []) + WithKey(s[1..], k)
  }

  lemma {:induction false} InsertWithKey(x: Entry, t: seq<Entry>, k: nat)
    ensures WithKey(Insert(x, t), k) == if Key(x) == k then [x] + WithKey(t, k) else WithKey(t, k)
  {
    if t != [] && Compare(x, t[0]) > 0 {
      var rest := Insert(x, t[1..]);
      InsertWithKey(x, t[1..], k);
      assert ([t[0]] + rest)[1..] == rest;
    }
  }

  /** Stability: the elements of each key class come out in their input order. */
  lemma {:induction false} SortStable(s: seq<Entry>, k: nat)
    ensures WithKey(Sort(s), k) == WithKey(s, k)
  {
    if s != [] {
      SortStable(s[1..], k);
      InsertWithKey(s[0], Sort(s[1..]), k);
    }
  }

  /**
   * The queue as rendered: the search result sorted by the comparator.
   * Every waiting entry precedes every other entry, and within each of the
   * two groups priority ranks do not decrease; it is a permutation of the
   * search result (and, by SortStable, keeps equal-key entries in order).
   */
  function Displayed(list: seq<Entry>, query: string): (r: seq<Entry>)
    ensures multiset(r) == multiset(Search(list, query))
    ensures forall i, j :: 0 <= i < j < |r| && r[j].status == Waiting ==> r[i].status == Waiting
    ensures forall i, j :: 0 <= i < j < |r| && (r[i].status == Waiting <==> r[j].status == Waiting) ==>
      Rank(r[i].priority) <= Rank(r[j].priority)
  {
    var r := Sort(Search(list, query));
    assert forall i, j :: 0 <= i < j < |r| ==> Key(r[i]) <= Key(r[j]);
    r
  }

  lemma DisplayedStable(list: seq<Entry>, query: string, k: nat)
    ensures WithKey(Displayed(list, query), k) == WithKey(Search(list, query), k)
  {
    SortStable(Search(list, query), k);
  }

  /**
   * An example of the order `Displayed` shows: three waiting arrivals of
   * priority urgent, low, medium are sorted urgent, medium, low.
   */
  lemma TriageExample(u: Entry, l: Entry, m: Entry)
    requires u.status == Waiting && l.status == Waiting && m.status == Waiting
    requires u.priority == Urgent && l.priority == Low && m.priority == Medium
    ensures Sort([u, l, m]) == [u, m, l]
  {
    assert Sort([m]) == [m];
    assert [l, m][1..] == [m];
    assert Insert(l, [m]) == [m, l];
    assert Sort([l, m]) == [m, l];
    assert [u, l, m][1..] == [l, m];
  }

  // ---------------------------------------------------------------------
  // The page's state
  // ---------------------------------------------------------------------

  /** The "take charge" selector is shown on waiting entries. */
  predicate TakeChargeOffered(e: Entry) {
    e.status == Waiting
  }

  /** The "finish" button is shown on entries in consultation. */
  predicate FinishOffered(e: Entry) {
    e.status == InConsultation
  }

  /**
   * Through the buttons an entry moves waiting, then in consultation with
   * its doctor's label, then completed without a doctor, after which
   * neither button is shown.
   */
  lemma ButtonsPath(list: seq<Entry>, i: nat, doctors: seq<Doctor>, doctorId: string)
    requires i < |list| && TakeChargeOffered(list[i])
    ensures var taken := WithStatus(list, list[i].id, InConsultation, Some(AssignmentLabel(doctors, doctorId)));
      && FinishOffered(taken[i]) && !TakeChargeOffered(taken[i])
      && taken[i].assignedDoctor == Some(AssignmentLabel(doctors, doctorId))
      && var done := WithStatus(taken, list[i].id, Completed, None);
         && !FinishOffered(done[i]) && !TakeChargeOffered(done[i]) && done[i].assignedDoctor.None?
  {
  }

  /** The `receptionList` state of the page. */
  class Desk {
    var entries: seq<Entry>

    constructor (initial: seq<Entry>)
      ensures entries == initial
    {
      entries := initial;
    }

    /** `handleSubmit`. */
    method Register(form: ArrivalForm, patients: seq<Patient>, clock: Instant) returns (accepted: bool)
      modifies this
      ensures accepted <==> NewEntry(form, patients, clock).Some?
      ensures entries == Registered(old(entries), form, patients, clock)
    {
      var e := NewEntry(form, patients, clock);
      accepted := e.Some?;
      if accepted {
        entries := [e.value] + entries;
      }
    }

    /** `handleStatusChange`. */
    method ChangeStatus(id: string, status: Status, doctor: Option<string>)
      modifies this
      ensures entries == WithStatus(old(entries), id, status, doctor)
    {
      entries := WithStatus(entries, id, status, doctor);
    }

    /** The "take charge" selector, offered on waiting entries. */
    method TakeCharge(id: string, doctors: seq<Doctor>, doctorId: string)
      modifies this
      ensures entries == WithStatus(old(entries), id, InConsultation, Some(AssignmentLabel(doctors, doctorId)))
    {
      ChangeStatus(id, InConsultation, Some(AssignmentLabel(doctors, doctorId)));
    }

    /** The "finish" button, offered on entries in consultation: no doctor is passed. */
    method Finish(id: string)
      modifies this
      ensures entries == WithStatus(old(entries), id, Completed, None)
    {
      ChangeStatus(id, Completed, None);
    }
  }
}
