/** The doctor-facing views: sign-in and sign-out, the home list with its search, and the
    patient detail, edit, add and delete screens, plus the doctor's status change. Each view
    returns an `Outcome` (which page it renders or where it redirects) and changes the
    database and the session as the request handler does. */
module Views {
  import opened Common
  import opened Models
  import Backends

  // ---------------------------------------------------------------------------
  // Session

  /** The keys this application keeps in the request session. */
  class Session {
    var doctorId: Option<string>
    var doctorName: Option<string>

    constructor ()
      ensures IsEmpty()
    {
      doctorId, doctorName := None, None;
    }

    predicate IsEmpty()
      reads this
    {
      doctorId == None && doctorName == None
    }

    /** `session.flush()`: forgets every key. */
    method Flush()
      modifies this
      ensures IsEmpty()
    {
      doctorId, doctorName := None, None;
    }
  }

  /** What the session says about the caller. */
  datatype Access =
    | Anonymous          // no doctor id in the session, or an empty one
    | Stale              // a doctor id whose profile no longer exists
    | SignedIn(id: DoctorId)

  /** Classifies the session's doctor id against the doctor table. */
  function Resolve(sessionId: Option<string>, doctors: map<DoctorId, Doctor>): (a: Access)
    ensures a.Anonymous? <==> !Given(sessionId)
    ensures a.Stale? <==> Given(sessionId) && sessionId.value !in doctors
    ensures a.SignedIn? ==> sessionId == Some(a.id) && a.id in doctors
  {
    if !Given(sessionId) then Anonymous
    else if sessionId.value in doctors then SignedIn(sessionId.value)
    else Stale
  }

  /** The guard every protected view starts with: an anonymous caller is sent to the sign-in
      page with nothing changed; a stale session is flushed first; a signed-in caller gets
      the profile and the session stays as it is. */
  method RequireDoctor(db: Database, session: Session) returns (doctor: Option<Doctor>)
    modifies session
    ensures var a := old(Resolve(session.doctorId, db.doctors));
      && (doctor.Some? <==> a.SignedIn?)
      && (a.SignedIn? ==> doctor.value == db.doctors[a.id] && unchanged(session))
      && (a.Anonymous? ==> unchanged(session))
      && (a.Stale? ==> session.IsEmpty())
  {
    var a := Resolve(session.doctorId, db.doctors);
    match a
    case Anonymous =>
      doctor := None;
    case Stale =>
      session.Flush();
      doctor := None;
    case SignedIn(id) =>
      doctor := Some(db.doctors[id]);
  }

  // ---------------------------------------------------------------------------
  // Outcomes and posted forms

  datatype Outcome =
    | RedirectLogin
    | RedirectHome
    | RedirectDetail(patientId: PatientId)
    | ShowLogin(invalidCredentials: bool)
    | ShowHome(doctor: Doctor, patients: seq<Patient>, search: string)
    | ShowDetail(doctor: Doctor, patient: Patient)
    | ShowForm(doctor: Doctor, editing: Option<Patient>, failed: bool)
    | ServerError

  /** What every protected view promises about the guard: a caller who is not signed in is
      redirected to the sign-in page and no record changes; a signed-in caller's session is
      left as it is. */
  twostate predicate Guarded(db: Database, session: Session, o: Outcome)
    reads db, session
  {
    var a := old(Resolve(session.doctorId, db.doctors));
    && (a.Anonymous? ==> o == RedirectLogin && unchanged(db) && unchanged(session))
    && (a.Stale? ==> o == RedirectLogin && unchanged(db) && session.IsEmpty())
    && (a.SignedIn? ==> unchanged(session))
  }

  /** The fields of the patient form, as `request.POST.get` returns them: `None` when the
      field was not posted. Fields read with a default of '' are plain strings. */
  datatype PatientForm = PatientForm(
    patientId: Option<string>,
    name: Option<string>,
    birthDate: Option<string>,
    gender: Option<string>,
    phone: string,
    diagnosisDate: Option<string>,
    bclcStage: string,
    tumorSize: Option<string>,
    tumorCount: Option<string>,
    childPugh: string,
    vascularInvasion: Option<string>,
    afpInitial: Option<string>,
    afpCurrent: Option<string>,
    treatmentType: string,
    treatmentStartDate: Option<string>,
    recurrenceRisk: string,
    nextCtDate: Option<string>,
    nextBloodTestDate: Option<string>)

  /** The columns that may not be null and that the views fill without a default. A save
      with one of them missing fails in the database. */
  predicate Complete(f: PatientForm)
  {
    f.name.Some? && f.birthDate.Some? && f.gender.Some?
  }

  /** The rule for an optional field: overwritten when a non-empty value was posted,
      kept otherwise. */
  predicate OverwrittenIfGiven(before: Option<string>, after: Option<string>, posted: Option<string>)
  {
    (Given(posted) ==> after == posted) && (!Given(posted) ==> after == before)
  }

  function KeepUnlessGiven(current: Option<string>, posted: Option<string>): (r: Option<string>)
    ensures OverwrittenIfGiven(current, r, posted)
  {
    if Given(posted) then posted else current
  }

  /** The assignments the edit and add views make from the posted form, followed by the
      `updated_at` stamp of the save. The patient id, the owner, the CT image, the creation
      time and the survival estimates are never taken from the form. */
  function AssignPosted(p: Patient, f: PatientForm, now: Time): (r: Patient)
    requires Complete(f)
    ensures r.patientId == p.patientId && r.doctor == p.doctor
    ensures r.ctImage == p.ctImage && r.createdAt == p.createdAt && r.updatedAt == now
    ensures r.survival1Year == p.survival1Year && r.survival3Year == p.survival3Year
    ensures r.survival5Year == p.survival5Year
    ensures r.name == f.name.value && r.birthDate == f.birthDate.value
    ensures r.gender == f.gender.value && r.phone == f.phone
    ensures r.bclcStage == Some(f.bclcStage) && r.childPugh == Some(f.childPugh)
    ensures r.treatmentType == Some(f.treatmentType) && r.recurrenceRisk == Some(f.recurrenceRisk)
    ensures r.vascularInvasion <==> f.vascularInvasion == Some("on")
    ensures OverwrittenIfGiven(p.diagnosisDate, r.diagnosisDate, f.diagnosisDate)
    ensures OverwrittenIfGiven(p.tumorSize, r.tumorSize, f.tumorSize)
    ensures OverwrittenIfGiven(p.tumorCount, r.tumorCount, f.tumorCount)
    ensures OverwrittenIfGiven(p.afpInitial, r.afpInitial, f.afpInitial)
    ensures OverwrittenIfGiven(p.afpCurrent, r.afpCurrent, f.afpCurrent)
    ensures OverwrittenIfGiven(p.treatmentStartDate, r.treatmentStartDate, f.treatmentStartDate)
    ensures OverwrittenIfGiven(p.nextCtDate, r.nextCtDate, f.nextCtDate)
    ensures OverwrittenIfGiven(p.nextBloodTestDate, r.nextBloodTestDate, f.nextBloodTestDate)
  {
    p.(
      name := f.name.value,
      birthDate := f.birthDate.value,
      gender := f.gender.value,
      phone := f.phone,
      diagnosisDate := KeepUnlessGiven(p.diagnosisDate, f.diagnosisDate),
      bclcStage := Some(f.bclcStage),
      tumorSize := KeepUnlessGiven(p.tumorSize, f.tumorSize),
      tumorCount := KeepUnlessGiven(p.tumorCount, f.tumorCount),
      childPugh := Some(f.childPugh),
      vascularInvasion := f.vascularInvasion == Some("on"),
      afpInitial := KeepUnlessGiven(p.afpInitial, f.afpInitial),
      afpCurrent := KeepUnlessGiven(p.afpCurrent, f.afpCurrent),
      treatmentType := Some(f.treatmentType),
      treatmentStartDate := KeepUnlessGiven(p.treatmentStartDate, f.treatmentStartDate),
      recurrenceRisk := Some(f.recurrenceRisk),
      nextCtDate := KeepUnlessGiven(p.nextCtDate, f.nextCtDate),
      nextBloodTestDate := KeepUnlessGiven(p.nextBloodTestDate, f.nextBloodTestDate),
      updatedAt := now)
  }

  /** A new patient row as `Patient()` makes it, with its id and owner set and created now. */
  function Blank(pid: PatientId, owner: DoctorId, now: Time): Patient
  {
    Patient(pid, "", "", "", "", None, None, None, None, false, None, None, None, None, None,
            None, None, None, None, None, None, Some(owner), None, now, now)
  }

  /** The row the add view saves: owned by the signed-in doctor, created and updated now.
      An optional field that was not posted stays null, as `Patient()` leaves it. */
  function NewPatient(pid: PatientId, f: PatientForm, owner: DoctorId, now: Time): (r: Patient)
    requires Complete(f)
    ensures r.patientId == pid && r.doctor == Some(owner)
    ensures r.createdAt == now && r.updatedAt == now
    ensures r.ctImage == None && r.survival1Year == None && r.survival3Year == None && r.survival5Year == None
    ensures OverwrittenIfGiven(None, r.diagnosisDate, f.diagnosisDate)
    ensures OverwrittenIfGiven(None, r.tumorSize, f.tumorSize)
    ensures OverwrittenIfGiven(None, r.tumorCount, f.tumorCount)
    ensures OverwrittenIfGiven(None, r.afpInitial, f.afpInitial)
    ensures OverwrittenIfGiven(None, r.afpCurrent, f.afpCurrent)
    ensures OverwrittenIfGiven(None, r.treatmentStartDate, f.treatmentStartDate)
    ensures OverwrittenIfGiven(None, r.nextCtDate, f.nextCtDate)
    ensures OverwrittenIfGiven(None, r.nextBloodTestDate, f.nextBloodTestDate)
    ensures r == AssignPosted(r, f, now)
  {
    AssignPosted(Blank(pid, owner, now), f, now)
  }

  // ---------------------------------------------------------------------------
  // Ownership-scoped lookup

  /** `Patient.objects.get(patient_id=pid, doctor=owner)`. */
  function FindOwned(patients: map<PatientId, Patient>, pid: PatientId, owner: DoctorId): (r: Option<Patient>)
    ensures r.Some? <==> pid in patients && patients[pid].doctor == Some(owner)
    ensures r.Some? ==> r.value == patients[pid]
  {
    if pid in patients && patients[pid].doctor == Some(owner) then Some(patients[pid]) else None
  }

  /** A patient owned by someone else (or by nobody) cannot be told apart from a missing one:
      the lookup answers exactly as it would if that patient did not exist. */
  lemma ForeignLooksMissing(patients: map<PatientId, Patient>, pid: PatientId, owner: DoctorId)
    requires pid in patients && patients[pid].doctor != Some(owner)
    ensures FindOwned(patients, pid, owner) == FindOwned(patients - {pid}, pid, owner) == None
  {
  }

  // ---------------------------------------------------------------------------
  // Home list and search

  /** ASCII case folding, as SQLite's case-insensitive LIKE applies it (the model assumes the
      project's default SQLite database). */
  function LowerChar(c: char): char
  {
    if 'A' <= c <= 'Z' then (c as int + 32) as char else c
  }

  function Lower(s: string): (r: string)
    ensures |r| == |s|
    ensures forall i :: 0 <= i < |s| ==> r[i] == LowerChar(s[i])
  {
    if s == [] then [] else [LowerChar(s[0])] + Lower(s[1..])
  }

  /** `q` occurs in `s` as a contiguous piece. */
  predicate Contains(s: string, q: string)
  {
    q <= s || (s != [] && Contains(s[1..], q))
  }

  /** `q` occurs in `s` starting at position `i`. */
  predicate OccursAt(s: string, q: string, i: int)
  {
    0 <= i <= |s| - |q| && s[i..i + |q|] == q
  }

  /** An occurrence in the tail of `s` is an occurrence in `s`, one position further on. */
  lemma OccursInTail(s: string, q: string, i: int)
    requires s != [] && 0 <= i
    ensures OccursAt(s[1..], q, i) <==> OccursAt(s, q, i + 1)
  {
    if 0 <= i <= |s| - 1 - |q| {
      assert s[1..][i..i + |q|] == s[i + 1..i + 1 + |q|];
    }
  }

  /** Where `Contains` holds, the position at which `q` occurs. */
  lemma {:induction false} ContainsWitness(s: string, q: string) returns (i: int)
    requires Contains(s, q)
    ensures OccursAt(s, q, i)
  {
    if q <= s {
      i := 0;
    } else {
      var j := ContainsWitness(s[1..], q);
      OccursInTail(s, q, j);
      i := j + 1;
    }
  }

  /** An occurrence at any position makes `Contains` hold. */
  lemma {:induction false} ContainsFromOccurrence(s: string, q: string, i: int)
    requires OccursAt(s, q, i)
    ensures Contains(s, q)
  {
    if i == 0 {
      assert q == s[..|q|];
    } else {
      OccursInTail(s, q, i - 1);
      ContainsFromOccurrence(s[1..], q, i - 1);
    }
  }

  /** `Contains` holds exactly when `q` occurs somewhere in `s`. */
  lemma ContainsAt(s: string, q: string)
    ensures Contains(s, q) <==> exists i :: OccursAt(s, q, i)
  {
    if Contains(s, q) {
      var i := ContainsWitness(s, q);
    }
    forall i | OccursAt(s, q, i)
      ensures Contains(s, q)
    {
      ContainsFromOccurrence(s, q, i);
    }
  }

  /** `icontains`. */
  predicate IContains(s: string, q: string)
  {
    Contains(Lower(s), Lower(q))
  }

  /** The search keeps a patient whose id or name contains the query, ignoring case. */
  predicate Matches(p: Patient, query: string)
  {
    IContains(p.patientId, query) || IContains(p.name, query)
  }

  /** A patient appears on the owner's home list: it is theirs, and the search is empty or
      matches its id or name. */
  predicate Listed(p: Patient, owner: DoctorId, search: string)
  {
    p.doctor == Some(owner) && (search == "" || Matches(p, search))
  }

  /** The empty query is contained in every id and name, so it matches every patient. */
  lemma EmptySearchMatchesAll(p: Patient)
    ensures Matches(p, "")
  {
  }

  predicate NewestFirst(r: seq<Patient>)
  {
    forall i, j :: 0 <= i < j < |r| ==> r[i].updatedAt >= r[j].updatedAt
  }

  /** The rows of `patients` under the keys `keys` that the home list shows. */
  ghost function ListedRows(patients: map<PatientId, Patient>, keys: set<PatientId>, owner: DoctorId, search: string): set<Patient>
  {
    set k | k in keys && k in patients && Listed(patients[k], owner, search) :: patients[k]
  }

  /** The home list: the owner's patients that the search keeps, each exactly once,
      most recently updated first. */
  ghost predicate IsHomeList(r: seq<Patient>, patients: map<PatientId, Patient>, owner: DoctorId, search: string)
  {
    NewestFirst(r) && multiset(r) == multiset(ListedRows(patients, patients.Keys, owner, search))
  }

  /** Putting the head of a newest-first list in front of a newest-first list made of its
      tail and one patient no newer than that head keeps the order. */
  lemma HeadBeforeInsert(r: seq<Patient>, rest: seq<Patient>, p: Patient)
    requires r != [] && NewestFirst(r) && NewestFirst(rest)
    requires multiset(rest) == multiset(r[1..]) + multiset{p}
    requires p.updatedAt <= r[0].updatedAt
    ensures NewestFirst([r[0]] + rest)
  {
    forall x | x in rest
      ensures x.updatedAt <= r[0].updatedAt
    {
      assert x in multiset(rest);
      if x != p {
        assert x in multiset(r[1..]);
        var j :| 0 <= j < |r[1..]| && r[1..][j] == x;
        assert r[j + 1] == x;
      }
    }
    var s := [r[0]] + rest;
    forall i, j | 0 <= i < j < |s|
      ensures s[i].updatedAt >= s[j].updatedAt
    {
      assert s[j] == rest[j - 1];
      if i > 0 {
        assert s[i] == rest[i - 1];
      }
    }
  }

  /** Places `p` in a list ordered most recently updated first. */
  function InsertNewestFirst(r: seq<Patient>, p: Patient): (s: seq<Patient>)
    requires NewestFirst(r)
    ensures NewestFirst(s)
    ensures multiset(s) == multiset(r) + multiset{p}
  {
    if r == [] then [p]
    else if p.updatedAt >= r[0].updatedAt then [p] + r
    else
      var rest := InsertNewestFirst(r[1..], p);
      assert r == [r[0]] + r[1..];
      HeadBeforeInsert(r, rest, p);
      [r[0]] + rest
  }

  /** One more key moves into the done part of the home-list query. */
  lemma ListedRowsStep(patients: map<PatientId, Patient>, done: set<PatientId>, k: PatientId, owner: DoctorId, search: string)
    requires forall pid :: pid in patients ==> patients[pid].patientId == pid
    requires k in patients && k !in done
    ensures Listed(patients[k], owner, search) ==>
      ListedRows(patients, done + {k}, owner, search) == ListedRows(patients, done, owner, search) + {patients[k]}
      && patients[k] !in ListedRows(patients, done, owner, search)
    ensures !Listed(patients[k], owner, search) ==>
      ListedRows(patients, done + {k}, owner, search) == ListedRows(patients, done, owner, search)
  {
  }

  /** Deleting a doctor (which orphans that doctor's patients) leaves every other doctor's
      home list as it was, and leaves nothing listed under the deleted doctor. */
  lemma OrphanKeepsOtherLists(patients: map<PatientId, Patient>, id: DoctorId, other: DoctorId, search: string)
    requires other != id
    ensures ListedRows(Orphan(patients, id), patients.Keys, other, search) == ListedRows(patients, patients.Keys, other, search)
    ensures ListedRows(Orphan(patients, id), patients.Keys, id, search) == {}
  {
    var after := Orphan(patients, id);
    forall p | p in ListedRows(patients, patients.Keys, other, search)
      ensures p in ListedRows(after, patients.Keys, other, search)
    {
      var k :| k in patients && Listed(patients[k], other, search) && patients[k] == p;
      assert after[k] == p;
    }
  }

  /** The home query: `Patient.objects.filter(doctor=owner).order_by('-updated_at')`, narrowed
      by the search when one was given. The order among equal `updated_at` values is left open,
      as the database leaves it. */
  method OwnedPatients(patients: map<PatientId, Patient>, owner: DoctorId, search: string) returns (r: seq<Patient>)
    requires forall pid :: pid in patients ==> patients[pid].patientId == pid
    ensures IsHomeList(r, patients, owner, search)
    ensures forall i :: 0 <= i < |r| ==> r[i].doctor == Some(owner)
  {
    r := [];
    var todo := patients.Keys;
    while todo != {}
      invariant todo <= patients.Keys
      invariant NewestFirst(r)
      invariant multiset(r) == multiset(ListedRows(patients, patients.Keys - todo, owner, search))
      decreases todo
    {
      var k :| k in todo;
      var done := patients.Keys - todo;
      ListedRowsStep(patients, done, k, owner, search);
      assert patients.Keys - (todo - {k}) == done + {k};
      if Listed(patients[k], owner, search) {
        r := InsertNewestFirst(r, patients[k]);
      }
      todo := todo - {k};
    }
    assert patients.Keys - todo == patients.Keys;
    forall i | 0 <= i < |r| ensures r[i].doctor == Some(owner) {
      assert r[i] in multiset(r);
    }
  }

  // ---------------------------------------------------------------------------
  // The views

  /** The sign-in view. A signed-in caller is sent home; a stale session is flushed. A posted
      id and password that the backend accepts put that doctor's id and name in the session;
      any refusal shows the sign-in page with one generic error, whatever the reason. */
  method Login(db: Database, session: Session, isPost: bool,
               postedId: Option<string>, postedPassword: Option<string>, now: Time)
    returns (o: Outcome)
    requires db.Valid()
    modifies db, session
    ensures db.Valid()
    ensures db.patients == old(db.patients) && db.interactions == old(db.interactions)
    ensures var a := old(Resolve(session.doctorId, db.doctors));
      a.SignedIn? ==> o == RedirectHome && unchanged(db) && unchanged(session)
    ensures var a := old(Resolve(session.doctorId, db.doctors));
      !a.SignedIn? && !(isPost && Backends.Accepts(old(db.doctors), postedId, postedPassword)) ==>
        && o == ShowLogin(isPost)
        && db.doctors == old(db.doctors)
        && (a.Anonymous? ==> unchanged(session))
        && (a.Stale? ==> session.IsEmpty())
    ensures var a := old(Resolve(session.doctorId, db.doctors));
      !a.SignedIn? && isPost && Backends.Accepts(old(db.doctors), postedId, postedPassword) ==>
        var d := old(db.doctors)[postedId.value];
        && o == RedirectHome
        && session.doctorId == Some(d.doctorId) && session.doctorName == Some(d.name)
        && db.doctors == old(db.doctors)[d.doctorId := d.(lastLogin := Some(now))]
  {
    var a := Resolve(session.doctorId, db.doctors);
    if a.SignedIn? {
      return RedirectHome;
    } else if a.Stale? {
      session.Flush();
    }
    if isPost {
      var doctor := Backends.Authenticate(db, postedId, postedPassword, now);
      if doctor.Some? {
        session.doctorId := Some(doctor.value.doctorId);
        session.doctorName := Some(doctor.value.name);
        return RedirectHome;
      }
      return ShowLogin(true);
    }
    return ShowLogin(false);
  }

  /** The sign-out view empties the session. */
  method Logout(session: Session) returns (o: Outcome)
    modifies session
    ensures session.IsEmpty() && o == RedirectLogin
  {
    session.Flush();
    o := RedirectLogin;
  }

  /** The home view lists the signed-in doctor's patients, narrowed by the search. */
  method Home(db: Database, session: Session, search: string) returns (o: Outcome)
    requires db.Valid()
    modifies session
    ensures Guarded(db, session, o)
    ensures var a := old(Resolve(session.doctorId, db.doctors));
      a.SignedIn? ==>
        && o.ShowHome? && o.doctor == db.doctors[a.id] && o.search == search
        && IsHomeList(o.patients, db.patients, a.id, search)
  {
    var doctor := RequireDoctor(db, session);
    if doctor.None? {
      return RedirectLogin;
    }
    var list := OwnedPatients(db.patients, doctor.value.doctorId, search);
    o := ShowHome(doctor.value, list, search);
  }

  /** The detail view shows one of the signed-in doctor's own patients; any other patient
      id, owned by someone else or by nobody, or missing, sends the caller home. */
  method Detail(db: Database, session: Session, pid: PatientId) returns (o: Outcome)
    requires db.Valid()
    modifies session
    ensures Guarded(db, session, o)
    ensures var a := old(Resolve(session.doctorId, db.doctors));
      a.SignedIn? ==>
        var found := FindOwned(db.patients, pid, a.id);
        && (found.None? ==> o == RedirectHome)
        && (found.Some? ==> o == ShowDetail(db.doctors[a.id], found.value))
  {
    var doctor := RequireDoctor(db, session);
    if doctor.None? {
      return RedirectLogin;
    }
    var found := FindOwned(db.patients, pid, doctor.value.doctorId);
    if found.None? {
      return RedirectHome;
    }
    o := ShowDetail(doctor.value, found.value);
  }

  /** The edit view. Only the signed-in doctor's own patient can be edited. A post overwrites
      the form's fields and saves; it never changes the patient id or the owner. A post without
      a name, birth date or gender fails in the database, uncaught. */
  method Edit(db: Database, session: Session, pid: PatientId, isPost: bool, f: PatientForm, now: Time)
    returns (o: Outcome)
    requires db.Valid()
    modifies db, session
    ensures db.Valid()
    ensures Guarded(db, session, o)
    ensures var a := old(Resolve(session.doctorId, db.doctors));
      a.SignedIn? ==>
        var found := FindOwned(old(db.patients), pid, a.id);
        && (found.None? ==> o == RedirectHome && unchanged(db))
        && (found.Some? && !isPost ==> o == ShowForm(old(db.doctors)[a.id], found, false) && unchanged(db))
        && (found.Some? && isPost && !Complete(f) ==> o == ServerError && unchanged(db))
        && (found.Some? && isPost && Complete(f) ==>
              && o == RedirectDetail(pid)
              && db.patients == old(db.patients)[pid := AssignPosted(found.value, f, now)]
              && db.doctors == old(db.doctors) && db.interactions == old(db.interactions))
  {
    var doctor := RequireDoctor(db, session);
    if doctor.None? {
      return RedirectLogin;
    }
    var found := FindOwned(db.patients, pid, doctor.value.doctorId);
    if found.None? {
      return RedirectHome;
    }
    if !isPost {
      return ShowForm(doctor.value, found, false);
    }
    if !Complete(f) {
      return ServerError;
    }
    var p := AssignPosted(found.value, f, now);
    db.patients := db.patients[pid := p];
    o := RedirectDetail(p.patientId);
  }

  /** The address of a patient's detail page, `patient/<patient_id>/`. */
  function DetailPath(pid: PatientId): string
  {
    "patient/" + pid + "/"
  }

  /** Resolves an address against the route `patient/<str:patient_id>/`. The `str` converter
      takes one non-empty path segment, so the id may not be empty or hold a '/'. */
  function MatchDetailPath(path: string): (r: Option<PatientId>)
    ensures r.Some? ==> DetailPath(r.value) == path
  {
    if |path| >= 9 && path[..8] == "patient/" && path[|path| - 1] == '/' then
      var segment := path[8..|path| - 1];
      assert path == "patient/" + segment + "/";
      if segment != "" && '/' !in segment then Some(segment) else None
    else None
  }

  /** Whether the detail page's address can be formed for `pid`: reversing the route succeeds
      exactly when the address it builds resolves back to the same id. */
  function Routable(pid: PatientId): (ok: bool)
    ensures ok <==> MatchDetailPath(DetailPath(pid)) == Some(pid)
    ensures ok <==> pid != "" && '/' !in pid
  {
    var path := DetailPath(pid);
    assert path[..8] == "patient/" && path[8..|path| - 1] == pid && path[|path| - 1] == '/';
    pid != "" && '/' !in pid
  }

  /** Why the add view's save fails: a null in a non-null column, or a patient id in use. */
  predicate AddRejected(patients: map<PatientId, Patient>, f: PatientForm)
  {
    f.patientId.None? || !Complete(f) || f.patientId.value in patients
  }

  /** The add view. A post creates a patient owned by the signed-in doctor. When the save
      fails (a duplicate patient id, a missing required value) nothing is stored and the
      form is shown again with an error. After a save the caller is sent to the new patient's
      detail page; when that address cannot be formed, the error is caught in the same way
      and the form is shown again, although the patient was stored. */
  method Add(db: Database, session: Session, isPost: bool, f: PatientForm, now: Time)
    returns (o: Outcome)
    requires db.Valid()
    modifies db, session
    ensures db.Valid()
    ensures Guarded(db, session, o)
    ensures var a := old(Resolve(session.doctorId, db.doctors));
      a.SignedIn? ==>
        var doctor := old(db.doctors)[a.id];
        && (!isPost ==> o == ShowForm(doctor, None, false) && unchanged(db))
        && (isPost && AddRejected(old(db.patients), f) ==> o == ShowForm(doctor, None, true) && unchanged(db))
        && (isPost && !AddRejected(old(db.patients), f) ==>
              var pid := f.patientId.value;
              && db.patients == old(db.patients)[pid := NewPatient(pid, f, a.id, now)]
              && db.doctors == old(db.doctors) && db.interactions == old(db.interactions)
              && o == (if Routable(pid) then RedirectDetail(pid) else ShowForm(doctor, None, true)))
  {
    var doctor := RequireDoctor(db, session);
    if doctor.None? {
      return RedirectLogin;
    }
    if !isPost {
      return ShowForm(doctor.value, None, false);
    }
    if AddRejected(db.patients, f) {
      return ShowForm(doctor.value, None, true);
    }
    var pid := f.patientId.value;
    db.patients := db.patients[pid := NewPatient(pid, f, doctor.value.doctorId, now)];
    if Routable(pid) {
      o := RedirectDetail(pid);
    } else {
      o := ShowForm(doctor.value, None, true);
    }
  }

  /** The delete view. Only a post deletes, and only the signed-in doctor's own patient;
      the caller is sent home in every case. */
  method Delete(db: Database, session: Session, pid: PatientId, isPost: bool) returns (o: Outcome)
    requires db.Valid()
    modifies db, session
    ensures db.Valid()
    ensures Guarded(db, session, o)
    ensures var a := old(Resolve(session.doctorId, db.doctors));
      a.SignedIn? ==>
        && o == RedirectHome
        && (isPost && FindOwned(old(db.patients), pid, a.id).Some? ==>
              && db.patients == old(db.patients) - {pid}
              && db.interactions == Cascade(old(db.interactions), pid)
              && db.doctors == old(db.doctors))
        && (!(isPost && FindOwned(old(db.patients), pid, a.id).Some?) ==> unchanged(db))
  {
    var doctor := RequireDoctor(db, session);
    if doctor.None? {
      return RedirectLogin;
    }
    if isPost {
      var found := FindOwned(db.patients, pid, doctor.value.doctorId);
      if found.Some? {
        db.DeletePatient(pid);
      }
    }
    o := RedirectHome;
  }

  /** The status change view. A posted status is applied only when it is one of the three
      choices, and then only the doctor's status changes. */
  method ChangeStatus(db: Database, session: Session, isPost: bool, posted: Option<string>) returns (o: Outcome)
    requires db.Valid()
    modifies db, session
    ensures db.Valid()
    ensures Guarded(db, session, o)
    ensures var a := old(Resolve(session.doctorId, db.doctors));
      a.SignedIn? ==>
        && o == RedirectHome
        && db.patients == old(db.patients) && db.interactions == old(db.interactions)
        && (isPost && posted.Some? && posted.value in StatusChoices ==>
              db.doctors == old(db.doctors)[a.id := old(db.doctors)[a.id].(status := ParseStatus(posted.value).value)])
        && (!(isPost && posted.Some? && posted.value in StatusChoices) ==> db.doctors == old(db.doctors))
  {
    var doctor := RequireDoctor(db, session);
    if doctor.None? {
      return RedirectLogin;
    }
    if isPost && posted.Some? {
      var status := ParseStatus(posted.value);
      if status.Some? {
        db.SaveDoctor(doctor.value.(status := status.value));
      }
    }
    o := RedirectHome;
  }

  /** Signing out locks the protected views: an edit posted right after it is sent to the
      sign-in page and changes no record. */
  method SignOutThenEdit(db: Database, session: Session, pid: PatientId, f: PatientForm, now: Time)
    returns (o: Outcome)
    requires db.Valid()
    modifies db, session
    ensures o == RedirectLogin && unchanged(db) && session.IsEmpty()
  {
    var signedOut := Logout(session);
    o := Edit(db, session, pid, true, f, now);
  }
}
