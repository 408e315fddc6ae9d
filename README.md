# Doctor sessions, sign-in and patient ownership of the CDSS clinic application

This project models the core of the Django application `django_1pj` of the liver-cancer
clinical decision support system:

- the records it keeps: doctor profiles, patients and drug interactions, with the deletion
  rules between them (a deleted doctor's patients are kept and lose their doctor; a deleted
  patient takes its drug interactions along);
- the doctor's password: hashing, checking, and the custom authentication backend, which
  signs a doctor in by doctor id and password and records the time of the last login;
- the doctor-facing views: sign-in and sign-out, the session guard every protected view
  starts with, the home list of the doctor's own patients with its search, and the
  patient detail, edit, add and delete screens, plus the doctor's status change;
- the administration site's policy: which patient and profile fields its change pages show
  and which are read-only, the reassignment of a patient's doctor, and the doctor profile
  form with its password and confirmation fields.

Each source file is one module: `Models` (`models.py`), `Backends` (`backends.py`), `Views`
(`views.py`), `Forms` (`forms.py`) and `Admin` (`admin.py`); `Common` holds `Option`. The
database is a class `Models.Database` whose three tables are maps keyed by primary key, and
the request session is a class `Views.Session`. Every view is a method that changes them as
the request handler does and returns an `Outcome` (the page it renders, or where it
redirects). The guard's promise is stated once, as the two-state predicate `Views.Guarded`:
a caller without a doctor id in the session is redirected to the sign-in page and nothing
changes; a caller whose doctor id names no profile has the session flushed as well.

The central properties are:

- ownership: a doctor can see, edit and delete only their own patients, and a patient
  owned by someone else is reported exactly as a missing one;
- the doctor views never change a patient's id or doctor; only the administration site's
  change page can reassign a doctor;
- the home list holds each of the doctor's patients that the search keeps exactly once,
  most recently updated first;
- sign-in succeeds exactly when the id exists and the password checks against the stored
  hash, and changes nothing but the last-login time;
- a profile form that passes validation with a password stores a hash that accepts that
  password, its confirmation, and no other password.

Four behaviours of the code are worth stating plainly, because a reader might expect otherwise:

- there is no superuser who bypasses the ownership checks in the doctor views;
- deleting a doctor neither blocks nor reassigns: the patients are orphaned (`SET_NULL`);
- sign-in does not tell an unknown id from a wrong password; both give one generic error;
- a doctor profile is the signed-in identity itself; no separate framework user is linked
  to it.

In the add view, the redirect to the new patient's detail page is inside the same `try` as
the save. When the posted patient id cannot be placed in that page's address (it is empty
or contains `/`), the error is caught: the patient stays stored, and the form is shown again
with an error. `Views.Add` models this as written.

## Model

| member | source | states |
|---|---|---|
| Models.ParseStatus | cdss_project/django_1pj/models.py:16-25 | a status text is accepted exactly when it is one of the three choices, and it reads back as the status whose stored text it is |
| Models.StatusRoundTrip | cdss_project/django_1pj/models.py:16-25 | every status is written as one of the three choices and read back as itself |
| Models.MakePassword | cdss_project/django_1pj/models.py:37-39 | hashing produces a digest tagged with the salt it used |
| Models.CheckPassword | cdss_project/django_1pj/models.py:41-43 | only a real digest can accept a password; the empty stored password accepts none |
| Models.CheckMakeRoundTrip | cdss_project/django_1pj/models.py:37-43 | a password checks against its own hash under any salt, and no other password does |
| Models.NewDoctor | cdss_project/django_1pj/models.py:4-28 | a fresh profile is off duty ('진료외'), has never logged in, is created now, and accepts no password |
| Models.SetPassword | cdss_project/django_1pj/models.py:37-39 | only the stored password changes; it accepts the new password and no other |
| Models.Orphan | cdss_project/django_1pj/models.py:142 | SET_NULL: every patient is kept, the deleted doctor's patients are left with no doctor, only the doctor field changes, and other doctors' patients are untouched |
| Models.Cascade | cdss_project/django_1pj/models.py:207 | CASCADE: exactly the interactions that do not refer to the deleted patient remain, unchanged |
| Models.Database.constructor | cdss_project/django_1pj/models.py:4-231 | an empty database satisfies the key and foreign-key invariant |
| Models.Database.SaveDoctor | cdss_project/django_1pj/models.py:6 | saving a profile inserts it or replaces the row with the same primary key, and keeps the invariant |
| Models.Database.AddInteraction | cdss_project/django_1pj/models.py:205-207 | an interaction is stored exactly when its patient exists; the other tables are unchanged |
| Models.Database.DeleteDoctor | cdss_project/django_1pj/models.py:142 | the profile goes, its patients stay without a doctor, and the invariant holds afterwards |
| Models.Database.DeletePatient | cdss_project/django_1pj/models.py:207 | the patient goes with its interactions, and the invariant holds afterwards |
| Models.OrphanKeepsOtherOwners | cdss_project/django_1pj/models.py:142 | after a doctor is deleted, a patient belongs to another doctor exactly when it did before, and has no doctor exactly when it had none or had the deleted one |
| Backends.Authenticate | cdss_project/django_1pj/backends.py:12-29 | accepts exactly when both values were supplied, the id exists and the password checks; on acceptance only that profile's last login changes, to now; otherwise nothing changes |
| Backends.GetUser | cdss_project/django_1pj/backends.py:31-38 | returns the profile stored under the key, or nothing exactly when there is none |
| Backends.RefusalsAlike | cdss_project/django_1pj/backends.py:16-29 | a missing value, an unknown id and a wrong password are all refused |
| Backends.AcceptsAfterSetPassword | cdss_project/django_1pj/backends.py:19-25 | after a new password is saved, the backend accepts it for that id and accepts no other |
| Views.Session.constructor | cdss_project/django_1pj/views.py:15 | a new session holds no doctor |
| Views.Session.Flush | cdss_project/django_1pj/views.py:46 | flushing forgets the doctor id and name |
| Views.Resolve | cdss_project/django_1pj/views.py:58-68 | the caller is anonymous exactly when the session's doctor id is missing or empty, stale exactly when it names no profile, and otherwise signed in as that existing profile |
| Views.RequireDoctor | cdss_project/django_1pj/views.py:58-68 | yields the profile exactly when the caller is signed in; a stale session is flushed; otherwise the session is left alone |
| Views.KeepUnlessGiven | cdss_project/django_1pj/views.py:148-150 | an optional field is overwritten exactly when a non-empty value was posted, and kept otherwise |
| Views.AssignPosted | cdss_project/django_1pj/views.py:140-190 | the edit never changes the patient id, the doctor, the CT image, the creation time or the survival estimates; it stores the required and defaulted fields as posted, sets vascular invasion exactly when 'on' was posted, overwrites the other optional fields only when given, and stamps the update time |
| Views.NewPatient | cdss_project/django_1pj/views.py:219-268 | a new patient is owned by the signed-in doctor, created and updated now, has no CT image and no survival estimates; each of the eight optional fields holds the posted value when one was given and stays null otherwise; applying the same form again leaves it as it is |
| Views.FindOwned | cdss_project/django_1pj/views.py:105-109 | finds the patient exactly when it exists and belongs to the signed-in doctor |
| Views.ForeignLooksMissing | cdss_project/django_1pj/views.py:105-109 | another doctor's (or nobody's) patient is answered exactly as if it did not exist |
| Views.Lower | cdss_project/django_1pj/views.py:76-79 | case folding keeps the length and folds every character on its own |
| Views.ContainsAt | cdss_project/django_1pj/views.py:76-79 | the containment test holds exactly when the query occurs at some position of the text |
| Views.EmptySearchMatchesAll | cdss_project/django_1pj/views.py:74-79 | the empty query matches every patient |
| Views.InsertNewestFirst | cdss_project/django_1pj/views.py:71 | inserting a patient keeps the list newest first and adds exactly that patient |
| Views.ListedRowsStep | cdss_project/django_1pj/views.py:71-79 | scanning one more patient adds it to the listed rows exactly when it is listed, and it was not there before |
| Views.OrphanKeepsOtherLists | cdss_project/django_1pj/views.py:71-79 | deleting a doctor leaves every other doctor's home list as it was and lists nothing under the deleted doctor |
| Views.OwnedPatients | cdss_project/django_1pj/views.py:71-79 | the home query returns each of the doctor's patients that the search keeps, exactly once, most recently updated first, and nothing that is not the doctor's |
| Views.Login | cdss_project/django_1pj/views.py:12-41 | a signed-in caller is sent home untouched; a stale session is flushed; accepted credentials put that doctor's id and name in the session and record the login; any refusal shows the sign-in page with the error and changes no record |
| Views.Logout | cdss_project/django_1pj/views.py:44-48 | the session is emptied and the caller sent to the sign-in page |
| Views.Home | cdss_project/django_1pj/views.py:55-87 | guarded; a signed-in doctor sees exactly their own patients that the search keeps, newest first |
| Views.Detail | cdss_project/django_1pj/views.py:90-116 | guarded; shows the patient exactly when it is the doctor's own, otherwise sends the caller home |
| Views.Edit | cdss_project/django_1pj/views.py:119-199 | guarded; only the doctor's own patient is shown or updated; a post without name, birth date or gender fails and saves nothing; a complete post replaces that one patient and nothing else |
| Views.MatchDetailPath | cdss_project/django_1pj/urls.py:13 | an address the route `patient/<str:patient_id>/` accepts is exactly the detail address built for the id it yields |
| Views.Routable | cdss_project/django_1pj/urls.py:13 | the detail address can be formed for an id exactly when the address built for it resolves back to that same id, which is exactly when the id is non-empty and holds no '/' |
| Views.Add | cdss_project/django_1pj/views.py:202-282 | guarded; a post with a missing required value or a patient id in use stores nothing and shows the form with an error; otherwise the new patient, owned by the doctor, is stored and the caller sent to its page, or the form shown with an error when that page's address cannot be formed |
| Views.Delete | cdss_project/django_1pj/views.py:285-308 | guarded; only a post deletes, and only the doctor's own patient (with its interactions); the caller is always sent home |
| Views.ChangeStatus | cdss_project/django_1pj/views.py:311-335 | guarded; the doctor's status changes exactly when a post names one of the three choices, and nothing else changes |
| Views.SignOutThenEdit | cdss_project/django_1pj/views.py:44-48 | after sign-out an edit post is sent to the sign-in page and changes no record |
| Forms.Clean | cdss_project/django_1pj/forms.py:28-45 | a new profile needs a password; an entered password that differs from its confirmation is refused as a mismatch, for a new profile and an edit alike; a matching one passes; an edit with the password left blank passes |
| Forms.WithPassword | cdss_project/django_1pj/forms.py:47-53 | an entered password replaces the stored hash with one that accepts it and no other; a blank one leaves the profile as it is |
| Forms.Save | cdss_project/django_1pj/forms.py:47-57 | the profile is hashed as above and written only when committing |
| Forms.BlankPasswordKeepsHash | cdss_project/django_1pj/forms.py:40-53 | editing with a blank password is valid and the old password keeps working |
| Forms.AcceptedPasswordIsConfirmed | cdss_project/django_1pj/forms.py:28-53 | after a valid form with a password, the confirmation is accepted as the password |
| Admin.PatientFieldsets | cdss_project/django_1pj/admin.py:88-139 | no field appears twice across the groups of either page |
| Admin.PatientReadonly | cdss_project/django_1pj/admin.py:141-152 | the timestamps are always read-only and the doctor and CT image never are; on an existing patient every demographic and clinical field is read-only, on a new one only the two timestamps |
| Admin.ExistingPatientEditsOwnerAndImage | cdss_project/django_1pj/admin.py:88-152 | on an existing patient only the doctor and the CT image can be changed |
| Admin.ReadonlySets | cdss_project/django_1pj/admin.py:141-152 | an existing patient has 23 distinct read-only fields; a new one only the two timestamps |
| Admin.ExistingReadonlyAllButOwnerAndImage | cdss_project/django_1pj/admin.py:141-152 | on an existing patient a field is read-only exactly when it is neither the doctor nor the CT image |
| Admin.NewPatientChoosesOwner | cdss_project/django_1pj/admin.py:113-139 | a new patient's doctor is chosen on the same page; that page shows exactly the fields other than the two timestamps, and everything it shows can be filled in |
| Admin.ChangePatient | cdss_project/django_1pj/admin.py:90-99 | the reassignment is applied exactly when the patient exists and the new doctor exists; only that patient's doctor and update time change |
| Admin.DoctorShown | cdss_project/django_1pj/admin.py:168-198 | both profile pages show the id, the two password fields and the status; the last login and creation time are shown exactly on the change page |
| Admin.DoctorPagesShow | cdss_project/django_1pj/admin.py:168-198 | the change page shows every profile field, and the add page every field but the two read-only times |
| Admin.LoginTimesNeverEditable | cdss_project/django_1pj/admin.py:165-198 | the last login and the creation time are never editable on the profile page |
| Admin.ProfileInstance | cdss_project/django_1pj/admin.py:165-198 | the posted id, name, sex, phone, e-mail and status are applied; a stored profile changes in those fields only, keeping its hash, last login and creation time; a new profile starts with no password, no last login, and is created now |
| Admin.SubmitDoctorProfile | cdss_project/django_1pj/forms.py:28-57 | the submission is saved exactly when the password pair passes `clean` and it is not a new profile reusing an existing id; an invalid pair is refused with its reason; a refusal changes nothing; a saved profile, hashed as the form does, replaces the row under the posted id or is inserted as a new row created now (a renamed profile leaves its old row in place), and patients and interactions are untouched |

## Left out

- HTTP, templates and flash messages: the request method is a boolean, the posted fields
  are values, and each view's result is the page it renders or the address it redirects to.
  The texts of the messages are not modelled.
- The hashing algorithm: a digest is the pair of salt and password, so different passwords
  give different digests. The random salt and `timezone.now()` are parameters.
- Dates and decimal numbers are kept as the submitted text. A value that does not parse
  (`float()`, `int()`, or a date the database refuses) raises an error in the source, and
  this model does not capture that error.
- Views.Lower: folds ASCII letters only. This assumes the project's default SQLite
  database, whose case-insensitive `LIKE` folds only ASCII; the database settings are not
  part of this model. Folding of other scripts is not modelled.
- Views.OwnedPatients: the order among patients with the same update time is left open, as
  the database leaves it.
- Images (`ct_image`, `profile_image`) and their uploads are not modelled. On the admin change
  page the CT image is the one editable field besides the doctor.
- The admin list pages (columns, filters, searches, ordering) and the `Announcement`, `Drug`
  and `DrugInteraction` admin pages are not modelled, because they change no data.
- Who may enter the administration site (staff or superuser login) belongs to the framework
  and is not modelled.
- The full-form save of a new patient through the administration site is not modelled.
  It is a generic form save.
- Admin.SubmitDoctorProfile: the framework's own field validation (lengths, the e-mail
  format, the choices for sex) and the stripping of whitespace by form fields are not
  modelled. Only the password rules of `clean` and the primary-key clash of a new profile are.
- Choices on the clinical fields (BCLC stage, Child-Pugh class, treatment type, recurrence
  risk, gender) are not enforced, because neither the views nor the database check them.
- Field length limits (`max_length`) are not modelled. Assuming the default SQLite
  database, the database does not enforce them either.
- `set_password` changes a profile object in place in the source. Here it is modelled on
  the profile's value, and the save that follows writes that value into the table.
