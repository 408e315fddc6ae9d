/** The administration site's policy for patients and doctor profiles: which fields each
    change page shows, which of them are read-only, and the two changes it performs through
    them (reassigning a patient's doctor, creating or changing a doctor profile). */
module Admin {
  import opened Common
  import opened Models
  import Forms

  // ---------------------------------------------------------------------------
  // Patient pages

  datatype PatientField =
    | PatientIdField | Name | BirthDate | Gender | Phone
    | DiagnosisDate | BclcStage | TumorSize | TumorCount | VascularInvasion | ChildPugh
    | AfpInitial | AfpCurrent | TreatmentType | TreatmentStartDate
    | Survival1Year | Survival3Year | Survival5Year | RecurrenceRisk
    | NextCtDate | NextBloodTestDate
    | Owner | CtImage | CreatedAt | UpdatedAt

  /** The 21 demographic and clinical fields of a patient. */
  const ClinicalFields: seq<PatientField> := [
    PatientIdField, Name, BirthDate, Gender, Phone,
    DiagnosisDate, BclcStage, TumorSize, TumorCount,
    VascularInvasion, ChildPugh, AfpInitial, AfpCurrent,
    TreatmentType, TreatmentStartDate, Survival1Year,
    Survival3Year, Survival5Year, RecurrenceRisk,
    NextCtDate, NextBloodTestDate]

  /** The read-only fields every patient page has. */
  const PatientTimestamps: seq<PatientField> := [CreatedAt, UpdatedAt]

  /** `get_fieldsets`: the groups of fields the page shows, for an existing patient or for
      a new one. No field is listed twice, across all the groups. */
  function PatientFieldsets(existing: bool): (r: seq<seq<PatientField>>)
    ensures forall i, j, k, l ::
      0 <= i < |r| && 0 <= j < |r[i]| && 0 <= k < |r| && 0 <= l < |r[k]| && (i != k || j != l)
      ==> r[i][j] != r[k][l]
  {
    if existing then
      [ [Owner],
        [CtImage],
        [PatientIdField, Name, BirthDate, Gender, Phone],
        [DiagnosisDate, BclcStage, TumorSize, TumorCount, VascularInvasion, ChildPugh],
        [CreatedAt, UpdatedAt] ]
    else
      [ [PatientIdField, Name, BirthDate, Gender, Phone, Owner],
        [DiagnosisDate, BclcStage, TumorSize, TumorCount, VascularInvasion],
        [ChildPugh],
        [AfpInitial, AfpCurrent],
        [TreatmentType, TreatmentStartDate],
        [Survival1Year, Survival3Year, Survival5Year, RecurrenceRisk],
        [NextCtDate, NextBloodTestDate],
        [CtImage] ]
  }

  /** `get_readonly_fields`: the timestamps are always read-only, and on an existing patient
      so is every demographic and clinical field. */
  function PatientReadonly(existing: bool): (r: seq<PatientField>)
    ensures CreatedAt in r && UpdatedAt in r && Owner !in r && CtImage !in r
    ensures existing ==> forall f :: f in ClinicalFields ==> f in r
    ensures !existing ==> |r| == 2
  {
    if existing then PatientTimestamps + ClinicalFields else PatientTimestamps
  }

  /** Every field that appears in some group. */
  function Shown(fieldsets: seq<seq<PatientField>>): set<PatientField>
  {
    set i, f | 0 <= i < |fieldsets| && f in fieldsets[i] :: f
  }

  /** The fields a page lets the administrator change: shown and not read-only. */
  function PatientEditable(existing: bool): set<PatientField>
  {
    Shown(PatientFieldsets(existing)) - (set f | f in PatientReadonly(existing))
  }

  /** On an existing patient the doctor and the CT image are the only fields that can be
      changed, so this page is the one place where a patient's doctor is reassigned. */
  lemma ExistingPatientEditsOwnerAndImage()
    ensures PatientEditable(true) == {Owner, CtImage}
  {
    var fs := PatientFieldsets(true);
    var readonly := set f | f in PatientReadonly(true);
    assert Owner in fs[0] && CtImage in fs[1];
    assert Owner !in readonly && CtImage !in readonly;
    forall i, f | 0 <= i < |fs| && f in fs[i]
      ensures f in readonly || f == Owner || f == CtImage
    {
      assert i == 0 || i == 1 || i == 2 || i == 3 || i == 4;
    }
  }

  /** On an existing patient the read-only list has 23 fields with none listed twice; on a
      new patient it is the two timestamps only. */
  lemma ReadonlySets()
    ensures |PatientReadonly(true)| == 23
    ensures forall i, j :: 0 <= i < j < |PatientReadonly(true)| ==> PatientReadonly(true)[i] != PatientReadonly(true)[j]
    ensures (set f | f in PatientReadonly(false)) == {CreatedAt, UpdatedAt}
  {
  }

  /** On an existing patient every field but the doctor and the CT image is read-only. */
  lemma ExistingReadonlyAllButOwnerAndImage()
    ensures forall f :: f in PatientReadonly(true) <==> f != Owner && f != CtImage
  {
    forall f | f != Owner && f != CtImage
      ensures f in PatientReadonly(true)
    {
      assert f in PatientTimestamps || f in ClinicalFields by {
        assert f.PatientIdField? || f.Name? || f.BirthDate? || f.Gender? || f.Phone?
          || f.DiagnosisDate? || f.BclcStage? || f.TumorSize? || f.TumorCount? || f.VascularInvasion?
          || f.ChildPugh? || f.AfpInitial? || f.AfpCurrent? || f.TreatmentType? || f.TreatmentStartDate?
          || f.Survival1Year? || f.Survival3Year? || f.Survival5Year? || f.RecurrenceRisk?
          || f.NextCtDate? || f.NextBloodTestDate? || f.Owner? || f.CtImage? || f.CreatedAt? || f.UpdatedAt?;
      }
    }
  }

  /** A new patient is entered with its doctor chosen on the same page: the page shows every
      field but the two timestamps, and everything shown there can be filled in. */
  lemma NewPatientChoosesOwner()
    ensures Owner in PatientEditable(false)
    ensures PatientEditable(false) == Shown(PatientFieldsets(false))
    ensures forall f :: f in Shown(PatientFieldsets(false)) <==> f != CreatedAt && f != UpdatedAt
  {
    var fs := PatientFieldsets(false);
    assert Owner in fs[0];
    forall f | f != CreatedAt && f != UpdatedAt
      ensures f in Shown(fs)
    {
      assert f in fs[0] || f in fs[1] || f in fs[2] || f in fs[3] || f in fs[4] || f in fs[5]
        || f in fs[6] || f in fs[7] by {
        assert f.PatientIdField? || f.Name? || f.BirthDate? || f.Gender? || f.Phone?
          || f.DiagnosisDate? || f.BclcStage? || f.TumorSize? || f.TumorCount? || f.VascularInvasion?
          || f.ChildPugh? || f.AfpInitial? || f.AfpCurrent? || f.TreatmentType? || f.TreatmentStartDate?
          || f.Survival1Year? || f.Survival3Year? || f.Survival5Year? || f.RecurrenceRisk?
          || f.NextCtDate? || f.NextBloodTestDate? || f.Owner? || f.CtImage? || f.CreatedAt? || f.UpdatedAt?;
      }
    }
    forall f | f in Shown(fs)
      ensures f != CreatedAt && f != UpdatedAt
    {
      var i :| 0 <= i < |fs| && f in fs[i];
      assert i == 0 || i == 1 || i == 2 || i == 3 || i == 4 || i == 5 || i == 6 || i == 7;
    }
  }

  /** Saving the change page of an existing patient. Of the two editable fields only the
      doctor is modelled (the CT image is an upload). The doctor field is required and must
      name an existing profile; otherwise the form is refused and nothing changes. */
  method ChangePatient(db: Database, pid: PatientId, postedOwner: Option<DoctorId>, now: Time)
    returns (ok: bool)
    requires db.Valid()
    modifies db
    ensures db.Valid()
    ensures ok <==> pid in old(db.patients) && postedOwner.Some? && postedOwner.value in old(db.doctors)
    ensures ok ==> db.patients == old(db.patients)[pid := old(db.patients)[pid].(doctor := postedOwner, updatedAt := now)]
    ensures ok ==> db.doctors == old(db.doctors) && db.interactions == old(db.interactions)
    ensures !ok ==> unchanged(db)
  {
    ok := pid in db.patients && postedOwner.Some? && postedOwner.value in db.doctors;
    if ok {
      db.patients := db.patients[pid := db.patients[pid].(doctor := postedOwner, updatedAt := now)];
    }
  }

  // ---------------------------------------------------------------------------
  // Doctor profile pages

  datatype DoctorField =
    | DoctorIdField | Password | PasswordConfirm | DoctorName | DoctorSex | DoctorPhone
    | DoctorEmail | DoctorStatus | ProfileImage | LastLogin | ProfileCreatedAt

  /** `readonly_fields` of the doctor profile pages. */
  const DoctorReadonly: seq<DoctorField> := [LastLogin, ProfileCreatedAt]

  /** The fields the doctor profile page shows, for an existing profile or a new one. */
  function DoctorShown(existing: bool): (r: set<DoctorField>)
    ensures LastLogin in r <==> existing
    ensures ProfileCreatedAt in r <==> existing
    ensures DoctorIdField in r && Password in r && PasswordConfirm in r && DoctorStatus in r
  {
    if existing then
      {DoctorIdField, LastLogin, ProfileCreatedAt, Password, PasswordConfirm,
       DoctorName, DoctorSex, DoctorPhone, DoctorEmail, DoctorStatus, ProfileImage}
    else
      {DoctorIdField, Password, PasswordConfirm,
       DoctorName, DoctorSex, DoctorPhone, DoctorEmail, DoctorStatus, ProfileImage}
  }

  /** The last login and the creation time can never be entered through the profile page. */
  lemma LoginTimesNeverEditable(existing: bool)
    ensures LastLogin !in DoctorShown(existing) - (set f | f in DoctorReadonly)
    ensures ProfileCreatedAt !in DoctorShown(existing) - (set f | f in DoctorReadonly)
  {
  }

  /** The change page of a profile shows every field; the add page shows all but the two
      read-only times, so both pages let the administrator enter everything else. */
  lemma DoctorPagesShow(existing: bool)
    ensures forall f :: f in DoctorShown(existing) <==> existing || f !in DoctorReadonly
  {
    forall f | existing || f !in DoctorReadonly
      ensures f in DoctorShown(existing)
    {
      assert f.DoctorIdField? || f.Password? || f.PasswordConfirm? || f.DoctorName? || f.DoctorSex?
        || f.DoctorPhone? || f.DoctorEmail? || f.DoctorStatus? || f.ProfileImage? || f.LastLogin?
        || f.ProfileCreatedAt?;
    }
  }

  /** The values the doctor profile page posts for its editable fields. */
  datatype DoctorPosted = DoctorPosted(
    doctorId: DoctorId,
    name: string,
    sex: string,
    phone: Option<string>,
    email: Option<string>,
    status: Status)

  /** The instance the profile form saves: the stored profile with the posted fields, or a
      new profile. The password is not one of the model fields of this form, and the
      read-only last login and creation time come from the stored profile. */
  function ProfileInstance(stored: Option<Doctor>, posted: DoctorPosted, now: Time): (d: Doctor)
    ensures d.doctorId == posted.doctorId && d.name == posted.name && d.status == posted.status
    ensures d.sex == posted.sex && d.phone == posted.phone && d.email == posted.email
    ensures stored.Some? ==>
      d == stored.value.(doctorId := d.doctorId, name := d.name, sex := d.sex,
                         phone := d.phone, email := d.email, status := d.status)
    ensures stored.Some? ==>
      d.password == stored.value.password && d.lastLogin == stored.value.lastLogin
      && d.createdAt == stored.value.createdAt
    ensures stored.None? ==> d.password == Unset && d.lastLogin == None && d.createdAt == now
  {
    match stored
    case Some(s) =>
      s.(doctorId := posted.doctorId, name := posted.name, sex := posted.sex,
         phone := posted.phone, email := posted.email, status := posted.status)
    case None =>
      NewDoctor(posted.doctorId, posted.name, posted.sex, posted.phone, posted.email, now)
        .(status := posted.status)
  }

  datatype SubmitError =
    | Rejected(reason: Forms.FormError)   // refused by the form's `clean`
    | DuplicateId                          // a new profile reuses an existing doctor id

  /** Submitting the doctor profile page, for the profile stored under `storedId` or, when
      it is `None`, for a new profile. A valid form is saved with `commit`, hashing the
      password only when one was entered. The save updates the row under the posted doctor id
      when there is one, and inserts a row otherwise; an insert stamps the creation time, so a
      stored profile renamed to an unused id becomes a new row created now, next to the old. */
  method SubmitDoctorProfile(db: Database, storedId: Option<DoctorId>, posted: DoctorPosted,
                             password: string, confirm: string, salt: nat, now: Time)
    returns (r: Option<SubmitError>)
    requires db.Valid()
    requires storedId.Some? ==> storedId.value in db.doctors
    modifies db
    ensures db.Valid()
    ensures db.patients == old(db.patients) && db.interactions == old(db.interactions)
    ensures var pk := if storedId.Some? then storedId.value else "";
      Forms.Clean(pk, password, confirm).Some? ==> r == Some(Rejected(Forms.Clean(pk, password, confirm).value))
    ensures r.Some? ==> unchanged(db)
    ensures r.None? <==>
      (var pk := if storedId.Some? then storedId.value else "";
       Forms.Clean(pk, password, confirm).None? && !(storedId.None? && posted.doctorId in old(db.doctors)))
    ensures r == Some(DuplicateId) <==>
      (var pk := if storedId.Some? then storedId.value else "";
       Forms.Clean(pk, password, confirm).None? && storedId.None? && posted.doctorId in old(db.doctors))
    ensures r.None? ==>
      var stored := if storedId.Some? then Some(old(db.doctors)[storedId.value]) else None;
      var instance := ProfileInstance(stored, posted, now);
      var row := if posted.doctorId in old(db.doctors) then instance else instance.(createdAt := now);
      db.doctors == old(db.doctors)[posted.doctorId := Forms.WithPassword(row, password, salt)]
    ensures r.None? && posted.doctorId !in old(db.doctors) ==> db.doctors[posted.doctorId].createdAt == now
    ensures r.None? && storedId.Some? ==> storedId.value in db.doctors
  {
    var pk := if storedId.Some? then storedId.value else "";
    var invalid := Forms.Clean(pk, password, confirm);
    if invalid.Some? {
      return Some(Rejected(invalid.value));
    }
    if storedId.None? && posted.doctorId in db.doctors {
      return Some(DuplicateId);
    }
    var stored := if storedId.Some? then Some(db.doctors[storedId.value]) else None;
    var instance := ProfileInstance(stored, posted, now);
    if posted.doctorId !in db.doctors {
      instance := instance.(createdAt := now);
    }
    var saved := Forms.Save(db, instance, password, salt, true);
    r := None;
  }
}
