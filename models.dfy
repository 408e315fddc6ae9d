/** The persistent records of the clinic: doctor profiles, patients and drug interactions,
    the password helpers of a doctor profile, and the deletion rules between the tables. */
module Models {
  import opened Common

  type DoctorId = string
  type PatientId = string

  /** An instant, as `timezone.now()` would give it; the caller supplies it. */
  type Time = int

  /** Dates and decimal measures are kept as the text that was submitted. The views convert
      measures with `float()` and `int()`, and dates are parsed when the row is saved; neither
      conversion is modelled. */
  type DateText = string
  type Measure = string

  // ---------------------------------------------------------------------------
  // Doctor status

  datatype Status = InSession | OffDuty | OnLeave

  /** The stored text of each status: '진료중' (seeing patients), '진료외' (not seeing
      patients) and '휴무' (day off). */
  function StatusText(s: Status): string
  {
    match s
    case InSession => "진료중"
    case OffDuty => "진료외"
    case OnLeave => "휴무"
  }

  /** The three texts a status may take, in the order the choices list them. */
  const StatusChoices: seq<string> := ["진료중", "진료외", "휴무"]

  /** A new profile starts in this status. */
  const DefaultStatus: Status := OffDuty

  /** Reads a submitted status text; only the three choices are accepted. */
  function ParseStatus(text: string): (r: Option<Status>)
    ensures r.Some? <==> text in StatusChoices
    ensures r.Some? ==> StatusText(r.value) == text
  {
    if text == "진료중" then Some(InSession)
    else if text == "진료외" then Some(OffDuty)
    else if text == "휴무" then Some(OnLeave)
    else None
  }

  /** Every status survives being written out and read back. */
  lemma StatusRoundTrip(s: Status)
    ensures ParseStatus(StatusText(s)) == Some(s)
    ensures StatusText(s) in StatusChoices
  {
  }

  // ---------------------------------------------------------------------------
  // Password hashing

  /** A stored password. `Unset` is the empty text a profile holds before a password
      is set, which no password matches. `Hashed` stands for the salted one-way digest:
      the hashing algorithm is not modelled, only that the digest is determined by the salt
      and the raw password, and that different raw passwords give different digests. */
  datatype PasswordHash = Unset | Hashed(salt: nat, secret: string)

  /** Hashes a raw password with the given salt (the salt is random in the running system,
      so it is a parameter here). */
  function MakePassword(raw: string, salt: nat): (h: PasswordHash)
    ensures h.Hashed? && h.salt == salt
  {
    Hashed(salt, raw)
  }

  /** Re-hashes `raw` with the salt stored in `h` and compares the digests. */
  function CheckPassword(raw: string, h: PasswordHash): (ok: bool)
    ensures ok ==> h.Hashed?
  {
    h.Hashed? && MakePassword(raw, h.salt) == h
  }

  /** A password checks against its own hash, whatever the salt, and no other does. */
  lemma CheckMakeRoundTrip(raw: string, other: string, salt: nat)
    ensures CheckPassword(raw, MakePassword(raw, salt))
    ensures CheckPassword(other, MakePassword(raw, salt)) <==> other == raw
  {
  }

  // ---------------------------------------------------------------------------
  // Records

  /** A doctor profile. `doctorId` is the primary key. The profile image is not modelled. */
  datatype Doctor = Doctor(
    doctorId: DoctorId,
    password: PasswordHash,
    name: string,
    sex: string,
    phone: Option<string>,
    email: Option<string>,
    status: Status,
    createdAt: Time,
    lastLogin: Option<Time>)

  /** A patient. `patientId` is unique among patients; `doctor` is the owning doctor,
      or `None` once that doctor's profile is deleted. */
  datatype Patient = Patient(
    patientId: PatientId,
    name: string,
    birthDate: DateText,
    gender: string,
    phone: string,
    diagnosisDate: Option<DateText>,
    bclcStage: Option<string>,
    tumorSize: Option<Measure>,
    tumorCount: Option<Measure>,
    vascularInvasion: bool,
    childPugh: Option<string>,
    afpInitial: Option<Measure>,
    afpCurrent: Option<Measure>,
    treatmentType: Option<string>,
    treatmentStartDate: Option<DateText>,
    survival1Year: Option<Measure>,
    survival3Year: Option<Measure>,
    survival5Year: Option<Measure>,
    recurrenceRisk: Option<string>,
    nextCtDate: Option<DateText>,
    nextBloodTestDate: Option<DateText>,
    doctor: Option<DoctorId>,
    ctImage: Option<string>,
    createdAt: Time,
    updatedAt: Time)

  /** A drug interaction recorded against one patient. */
  datatype DrugInteraction = DrugInteraction(
    patient: PatientId,
    drugName: string,
    riskLevel: string,
    sideEffect: string,
    probability: int)

  /** A fresh profile as the model's defaults make it: status '진료외', never logged in. */
  function NewDoctor(id: DoctorId, name: string, sex: string, phone: Option<string>,
                     email: Option<string>, now: Time): (d: Doctor)
    ensures d.doctorId == id && d.status == DefaultStatus && d.lastLogin == None
    ensures d.createdAt == now
    ensures forall raw :: !CheckPassword(raw, d.password)
  {
    Doctor(id, Unset, name, sex, phone, email, DefaultStatus, now, None)
  }

  /** `set_password`: stores the hash of `raw`; nothing else in the profile changes. */
  function SetPassword(d: Doctor, raw: string, salt: nat): (r: Doctor)
    ensures r == d.(password := r.password)
    ensures CheckPassword(raw, r.password)
    ensures forall other :: CheckPassword(other, r.password) ==> other == raw
  {
    d.(password := MakePassword(raw, salt))
  }

  // ---------------------------------------------------------------------------
  // Deletion rules

  /** SET_NULL: the patients of a deleted doctor lose their owner and nothing else. */
  function Orphan(patients: map<PatientId, Patient>, id: DoctorId): (r: map<PatientId, Patient>)
    ensures r.Keys == patients.Keys
    ensures forall k :: k in r ==> r[k].doctor != Some(id)
    ensures forall k :: k in r ==> r[k] == patients[k].(doctor := r[k].doctor)
    ensures forall k :: k in r && patients[k].doctor != Some(id) ==> r[k] == patients[k]
    ensures forall k :: k in r && patients[k].doctor == Some(id) ==> r[k].doctor == None
  {
    map k | k in patients :: if patients[k].doctor == Some(id) then patients[k].(doctor := None) else patients[k]
  }

  /** CASCADE: the interactions of a deleted patient go with it; the others stay as they are. */
  function Cascade(interactions: map<nat, DrugInteraction>, pid: PatientId): (r: map<nat, DrugInteraction>)
    ensures forall i :: i in r ==> i in interactions && r[i] == interactions[i] && r[i].patient != pid
    ensures forall i :: i in interactions && interactions[i].patient != pid ==> i in r
  {
    map i | i in interactions && interactions[i].patient != pid :: interactions[i]
  }

  // ---------------------------------------------------------------------------
  // The database

  /** The three tables. Primary and unique keys are the map keys; a foreign key always
      names an existing row. */
  class Database {
    var doctors: map<DoctorId, Doctor>
    var patients: map<PatientId, Patient>
    var interactions: map<nat, DrugInteraction>

    ghost predicate Valid()
      reads this
    {
      && (forall id :: id in doctors ==> doctors[id].doctorId == id)
      && (forall pid :: pid in patients ==> patients[pid].patientId == pid)
      && (forall pid :: pid in patients && patients[pid].doctor.Some? ==> patients[pid].doctor.value in doctors)
      && (forall i :: i in interactions ==> interactions[i].patient in patients)
    }

    constructor ()
      ensures Valid()
      ensures doctors == map[] && patients == map[] && interactions == map[]
    {
      doctors, patients, interactions := map[], map[], map[];
    }

    /** `Model.save()` of a doctor profile: inserts the row, or replaces the row with the same
        primary key. */
    method SaveDoctor(d: Doctor)
      requires Valid()
      modifies this
      ensures Valid()
      ensures doctors == old(doctors)[d.doctorId := d]
      ensures patients == old(patients) && interactions == old(interactions)
    {
      doctors := doctors[d.doctorId := d];
    }

    /** Records a drug interaction against a patient; the foreign key must name an existing
        patient. `key` is the fresh primary key the database assigns. */
    method AddInteraction(key: nat, x: DrugInteraction) returns (ok: bool)
      requires Valid()
      requires key !in interactions
      modifies this
      ensures Valid()
      ensures ok <==> x.patient in patients
      ensures interactions == if ok then old(interactions)[key := x] else old(interactions)
      ensures doctors == old(doctors) && patients == old(patients)
    {
      ok := x.patient in patients;
      if ok {
        interactions := interactions[key := x];
      }
    }

    /** Deleting a doctor profile keeps its patients, each with its owner set to null. */
    method DeleteDoctor(id: DoctorId)
      requires Valid()
      modifies this
      ensures Valid()
      ensures doctors == old(doctors) - {id}
      ensures patients == Orphan(old(patients), id)
      ensures interactions == old(interactions)
    {
      patients := Orphan(patients, id);
      doctors := doctors - {id};
    }

    /** Deleting a patient deletes every drug interaction that refers to it. */
    method DeletePatient(pid: PatientId)
      requires Valid()
      modifies this
      ensures Valid()
      ensures doctors == old(doctors)
      ensures patients == old(patients) - {pid}
      ensures interactions == Cascade(old(interactions), pid)
    {
      interactions := Cascade(interactions, pid);
      patients := patients - {pid};
    }
  }

  /** Deleting a doctor leaves every other doctor's patients exactly as they were, and
      leaves the deleted doctor with none. */
  lemma OrphanKeepsOtherOwners(patients: map<PatientId, Patient>, id: DoctorId, other: DoctorId, k: PatientId)
    requires k in patients && other != id
    ensures Orphan(patients, id)[k].doctor == Some(other) <==> patients[k].doctor == Some(other)
    ensures Orphan(patients, id)[k].doctor == None <==> patients[k].doctor in {None, Some(id)}
  {
  }
}
