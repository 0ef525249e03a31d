/**
 * The two read-only registries the pages look people up in: the patient
 * list and the list of doctors who can be assigned (active personnel with
 * the doctor role). Both are module-level constants in the application;
 * here they are passed to every handler that consults them.
 */
module Directory {
  import opened Wrappers
  import Seqs

  datatype Patient = Patient(id: string, firstName: string, lastName: string, phone: string, address: string)

  datatype Doctor = Doctor(id: string, firstName: string, lastName: string, department: string)

  /** `k` is the position of the first patient whose id is `id`. */
  predicate FirstPatientAt(patients: seq<Patient>, id: string, k: int) {
    0 <= k < |patients| && patients[k].id == id &&
    forall j :: 0 <= j < k ==> patients[j].id != id
  }

  predicate FirstDoctorAt(doctors: seq<Doctor>, id: string, k: int) {
    0 <= k < |doctors| && doctors[k].id == id &&
    forall j :: 0 <= j < k ==> doctors[j].id != id
  }

  /** `mockPatients.find(p => p.id === id)`. */
  function FindPatient(patients: seq<Patient>, id: string): (r: Option<Patient>)
    ensures r.None? <==> forall k :: 0 <= k < |patients| ==> patients[k].id != id
    ensures forall k :: FirstPatientAt(patients, id, k) ==> r == Some(patients[k])
  {
    match Seqs.FindFirst(patients, (p: Patient) => p.id == id)
    case None => None
    case Some(k) =>
      assert FirstPatientAt(patients, id, k);
      Some(patients[k])
  }

  /** `availableDoctors.find(d => d.id === id)`. */
  function FindDoctor(doctors: seq<Doctor>, id: string): (r: Option<Doctor>)
    ensures r.None? <==> forall k :: 0 <= k < |doctors| ==> doctors[k].id != id
    ensures forall k :: FirstDoctorAt(doctors, id, k) ==> r == Some(doctors[k])
  {
    match Seqs.FindFirst(doctors, (d: Doctor) => d.id == id)
    case None => None
    case Some(k) =>
      assert FirstDoctorAt(doctors, id, k);
      Some(doctors[k])
  }

  /** `${patient.firstName} ${patient.lastName}`. */
  function PatientName(p: Patient): string {
    p.firstName + " " + p.lastName
  }

  /** `Dr. ${doctor.firstName} ${doctor.lastName}`. */
  function DoctorName(d: Doctor): string {
    "Dr. " + d.firstName + " " + d.lastName
  }
}

/** The readings of the browser clock a handler uses, passed in as values. */
module Clock {
  import Text

  /** `Date.now()`, `new Date().toISOString()` and the local time of day. */
  datatype Instant = Instant(now: nat, iso: string, timeOfDay: string)

  /** `new Date().toISOString().split('T')[0]`: the calendar date. */
  function Today(t: Instant): string {
    Text.Split(t.iso, 'T')[0]
  }

  /** `${prefix}${Date.now()}`: the identifiers given to new records. */
  function Stamp(prefix: string, t: Instant): string {
    prefix + Text.Decimal(t.now)
  }
}
