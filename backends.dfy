/** The doctor authentication backend: a doctor signs in with a doctor id and a password. */
module Backends {
  import opened Common
  import opened Models

  /** The credential check: both values were supplied, a profile with that id exists,
      and the password matches its stored hash. */
  predicate Accepts(doctors: map<DoctorId, Doctor>, doctorId: Option<string>, password: Option<string>)
  {
    && doctorId.Some? && password.Some?
    && doctorId.value in doctors
    && CheckPassword(password.value, doctors[doctorId.value].password)
  }

  /** `authenticate`: on acceptance, records `now` as the profile's last login and returns the
      updated profile; otherwise returns `None` and leaves the database as it was. */
  method Authenticate(db: Database, doctorId: Option<string>, password: Option<string>, now: Time)
    returns (r: Option<Doctor>)
    requires db.Valid()
    modifies db
    ensures db.Valid()
    ensures r.Some? <==> Accepts(old(db.doctors), doctorId, password)
    ensures r.Some? ==> r.value == old(db.doctors)[doctorId.value].(lastLogin := Some(now))
    ensures r.Some? ==> db.doctors == old(db.doctors)[doctorId.value := r.value]
    ensures r.None? ==> db.doctors == old(db.doctors)
    ensures db.patients == old(db.patients) && db.interactions == old(db.interactions)
  {
    if doctorId.None? || password.None? {
      return None;
    }
    if doctorId.value !in db.doctors {
      return None;
    }
    var doctor := db.doctors[doctorId.value];
    if CheckPassword(password.value, doctor.password) {
      doctor := doctor.(lastLogin := Some(now));
      db.SaveDoctor(doctor);
      return Some(doctor);
    }
    return None;
  }

  /** `get_user`: the profile with that primary key, if there is one. */
  function GetUser(doctors: map<DoctorId, Doctor>, doctorId: DoctorId): (r: Option<Doctor>)
    ensures r.Some? <==> doctorId in doctors
    ensures r.Some? ==> r.value == doctors[doctorId]
  {
    if doctorId in doctors then Some(doctors[doctorId]) else None
  }

  /** An unknown id and a wrong password are refused alike, and a missing value is refused
      whatever the store holds. */
  lemma RefusalsAlike(doctors: map<DoctorId, Doctor>, id: DoctorId, raw: string)
    ensures id !in doctors ==> !Accepts(doctors, Some(id), Some(raw))
    ensures id in doctors && !CheckPassword(raw, doctors[id].password) ==> !Accepts(doctors, Some(id), Some(raw))
    ensures !Accepts(doctors, None, Some(raw)) && !Accepts(doctors, Some(id), None)
  {
  }

  /** After `set_password(raw)` is saved, `raw` is accepted for that id and no other password is. */
  lemma AcceptsAfterSetPassword(doctors: map<DoctorId, Doctor>, d: Doctor, raw: string, other: string, salt: nat)
    ensures Accepts(doctors[d.doctorId := SetPassword(d, raw, salt)], Some(d.doctorId), Some(raw))
    ensures Accepts(doctors[d.doctorId := SetPassword(d, raw, salt)], Some(d.doctorId), Some(other)) <==> other == raw
  {
  }
}
