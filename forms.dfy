/** The doctor profile form of the administration site: its password and confirmation
    fields, the validation between them, and the save that hashes a newly entered password. */
module Forms {
  import opened Common
  import opened Models

  datatype FormError =
    | PasswordRequired   // a new profile needs a password
    | PasswordMismatch   // the password and its confirmation differ

  /** `clean`. `instancePk` is the primary key of the profile the form edits; it is empty
      while a new profile is being created. The password fields are optional form fields,
      so an untouched field arrives as the empty string. */
  function Clean(instancePk: string, password: string, confirm: string): (r: Option<FormError>)
    ensures instancePk == "" && password == "" ==> r == Some(PasswordRequired)
    ensures instancePk != "" && password == "" ==> r == None
    ensures password != "" && password == confirm ==> r == None
    ensures password != "" && password != confirm ==> r == Some(PasswordMismatch)
    ensures r == Some(PasswordMismatch) ==> password != "" && password != confirm
    ensures r == None ==> password == confirm || (instancePk != "" && password == "")
  {
    if instancePk == "" then
      if password == "" then Some(PasswordRequired)
      else if password != confirm then Some(PasswordMismatch)
      else None
    else if password != "" && password != confirm then Some(PasswordMismatch)
    else None
  }

  /** The instance the form saves: with the hash of the entered password, or with its
      stored hash untouched when none was entered. */
  function WithPassword(instance: Doctor, password: string, salt: nat): (r: Doctor)
    ensures r == instance.(password := r.password)
    ensures password != "" ==> CheckPassword(password, r.password)
    ensures password != "" ==> forall other :: CheckPassword(other, r.password) ==> other == password
    ensures password == "" ==> r == instance
  {
    if password != "" then SetPassword(instance, password, salt) else instance
  }

  /** `save`: sets the password when one was entered, and writes the profile only when
      `commit` is true. */
  method Save(db: Database, instance: Doctor, password: string, salt: nat, commit: bool)
    returns (saved: Doctor)
    requires db.Valid()
    modifies db
    ensures db.Valid()
    ensures saved == WithPassword(instance, password, salt)
    ensures commit ==> db.doctors == old(db.doctors)[saved.doctorId := saved]
    ensures !commit ==> unchanged(db)
    ensures db.patients == old(db.patients) && db.interactions == old(db.interactions)
  {
    saved := instance;
    if password != "" {
      saved := SetPassword(saved, password, salt);
    }
    if commit {
      db.SaveDoctor(saved);
    }
  }

  /** Editing a profile with the password left blank passes validation whatever the
      confirmation holds, and keeps the stored hash, so the old password still works. */
  lemma BlankPasswordKeepsHash(instance: Doctor, instancePk: string, confirm: string, salt: nat, raw: string)
    requires instancePk != ""
    ensures Clean(instancePk, "", confirm) == None
    ensures WithPassword(instance, "", salt).password == instance.password
    ensures CheckPassword(raw, WithPassword(instance, "", salt).password) == CheckPassword(raw, instance.password)
  {
  }

  /** A form that passes validation and enters a password leaves a profile that accepts
      exactly that password and its confirmation. */
  lemma AcceptedPasswordIsConfirmed(instance: Doctor, instancePk: string, password: string, confirm: string, salt: nat)
    requires Clean(instancePk, password, confirm) == None && password != ""
    ensures CheckPassword(confirm, WithPassword(instance, password, salt).password)
  {
  }
}
