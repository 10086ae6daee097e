/** accounts/forms.py: the client registration form and the trainer
    create/update form — their field validation and what their save writes. */
module AccountsForms {
  import opened Common
  import opened AccountsModels
  import opened Store

  /** A validation error attached to a form field. */
  datatype FieldError =
    | InvalidPhone        // "Phone number must start with +380 and contain exactly 9 digits"
    | UsernameRequired
    | Password1Required
    | Password2Required
    | PasswordMismatch    // "The two password fields didn't match."

  // ---------------------------------------------------------------------------
  // ClientRegistrationForm

  const PhonePrefix: string := "+380"
  const PhoneDigitCount: nat := 9

  predicate IsAsciiDigit(c: char)
  {
    '0' <= c <= '9'
  }

  /** `\d{n}` at the head of s: what is left after exactly n digits, or None. */
  function MatchDigits(s: string, n: nat): (rest: Option<string>)
    ensures rest.Some? <==> n <= |s| && forall i :: 0 <= i < n ==> IsAsciiDigit(s[i])
    ensures rest.Some? ==> rest.value == s[n..]
  {
    if n == 0 then Some(s)
    else if s == [] || !IsAsciiDigit(s[0]) then None
    else MatchDigits(s[1..], n - 1)
  }

  /** The pattern `^\+380\d{9}$` matched against an already-stripped value:
      the prefix, exactly nine digits, then the end of the text. */
  function MatchesPhonePattern(phone: string): (ok: bool)
    ensures ok <==> |phone| == 13 && phone[..4] == "+380" &&
                    forall i :: 4 <= i < 13 ==> IsAsciiDigit(phone[i])
  {
    && |phone| >= |PhonePrefix|
    && phone[..|PhonePrefix|] == PhonePrefix
    && match MatchDigits(phone[|PhonePrefix|..], PhoneDigitCount)
       case Some(rest) => rest == []
       case None => false
  }

  /** clean_phone_number: the value passes through unchanged or the field errs. */
  function CleanPhoneNumber(phone: string): (r: Result<string, FieldError>)
    ensures r.Ok? <==> |phone| == 13 && phone[..4] == "+380" &&
                       forall i :: 4 <= i < 13 ==> IsAsciiDigit(phone[i])
    ensures r.Ok? ==> r.value == phone
    ensures r.Err? ==> r.error == InvalidPhone
  {
    if MatchesPhonePattern(phone) then Ok(phone) else Err(InvalidPhone)
  }

  /** The three phone numbers the registration tests try: a full Ukrainian
      number passes, one without the prefix and one digit short fail. */
  lemma PhoneExamples()
    ensures CleanPhoneNumber("+380501234567").Ok?
    ensures CleanPhoneNumber("0501234567").Err?
    ensures CleanPhoneNumber("+38050123456").Err?
  {
    var good := "+380501234567";
    assert good[..4] == "+380";
    assert forall i :: 4 <= i < 13 ==> IsAsciiDigit(good[i]);
  }

  /** The fields of the registration form. */
  datatype RegistrationInput = RegistrationInput(username: string, email: string, firstName: string,
                                                 lastName: string, password1: string, phoneNumber: string)

  /** ClientRegistrationForm.save on a valid form: the user is made a client
      whatever else was submitted, and with commit the user and one client
      profile carrying the cleaned phone number are written. */
  method SaveClientRegistration(db: Db, input: RegistrationInput, commit: bool) returns (user: User, id: Option<UserId>)
    requires db.Valid()
    requires CleanPhoneNumber(input.phoneNumber).Ok?
    requires !db.UsernameTaken(input.username, None)
    modifies db
    ensures db.Valid()
    ensures user == User(input.username, input.email, input.firstName, input.lastName, input.password1, Client)
    ensures !commit ==> id.None? && unchanged(db)
    ensures commit ==>
              && id == Some(old(db.nextKeys.user)) && id.value !in old(db.users)
              && db.users == old(db.users)[id.value := user]
              && (exists pid: ProfileId ::
                    && pid !in old(db.clientProfiles)
                    && db.clientProfiles == old(db.clientProfiles)[pid := ClientProfile(id.value, input.phoneNumber)]
                    && ClientProfilesOf(db.clientProfiles, id.value) == {pid})
              && db.nextKeys == old(db.nextKeys).(user := old(db.nextKeys.user) + 1,
                                                  clientProfile := old(db.nextKeys.clientProfile) + 1)
              && db.trainerProfiles == old(db.trainerProfiles) && db.specializations == old(db.specializations)
              && db.workouts == old(db.workouts) && db.schedules == old(db.schedules)
              && db.bookings == old(db.bookings)
  {
    user := User(input.username, input.email, input.firstName, input.lastName, input.password1, DefaultRole);
    user := user.(role := Client);
    id := None;
    if commit {
      var uid := db.InsertUser(user);
      assert ClientProfilesOf(db.clientProfiles, uid) == {};
      var pid := db.CreateClientProfile(uid, CleanPhoneNumber(input.phoneNumber).value);
      assert ClientProfilesOf(db.clientProfiles, uid) == {pid};
      id := Some(uid);
    }
  }

  // ---------------------------------------------------------------------------
  // TrainerCreationForm

  /** Which of the fields the update mode relaxes are required. */
  datatype FieldRequirements = FieldRequirements(username: bool, password1: bool, password2: bool)

  /** The requirements the base user-creation form gives its fields. */
  const CreationRequirements: FieldRequirements := FieldRequirements(true, true, true)

  /** What __init__ leaves the form with: required flags and, on update of a
      user with a trainer profile, the profile's bio and specialization as
      initial values. */
  datatype FormSetup = FormSetup(required: FieldRequirements, initial: Option<(string, Option<SpecializationId>)>)

  /** TrainerCreationForm.__init__; `isUpdate` is "an instance was passed",
      `profile` the instance's trainer profile if it has one. */
  function SetupFields(isUpdate: bool, profile: Option<TrainerProfile>): (f: FormSetup)
    ensures isUpdate ==> !f.required.username && !f.required.password1 && !f.required.password2
    ensures !isUpdate ==> f.required == CreationRequirements && f.initial.None?
    ensures f.initial.Some? <==> isUpdate && profile.Some?
    ensures f.initial.Some? ==> f.initial.value == (profile.value.bio, profile.value.specialization)
  {
    if isUpdate then
      FormSetup(FieldRequirements(false, false, false),
                if profile.Some? then Some((profile.value.bio, profile.value.specialization)) else None)
    else
      FormSetup(CreationRequirements, None)
  }

  /** clean_username: on update (an instance with a primary key) the stored
      username wins over whatever was submitted; on creation the submitted
      one stands. */
  function CleanUsername(instance: Option<User>, submitted: string): (r: string)
    ensures instance.Some? ==> r == instance.value.username
    ensures instance.None? ==> r == submitted
  {
    if instance.Some? then instance.value.username else submitted
  }

  /** On update, no submitted value can change the username. */
  lemma UsernameFrozenOnUpdate(stored: User, submitted: string, other: string)
    ensures CleanUsername(Some(stored), submitted) == CleanUsername(Some(stored), other) == stored.username
  {
  }

  /** clean_password2; an empty text stands for a blank or absent field. */
  function CleanPassword2(hasPk: bool, password1: string, password2: string): (r: Result<string, FieldError>)
    ensures r.Err? <==> password1 != "" && password2 != "" && password1 != password2
    ensures r.Err? ==> r.error == PasswordMismatch
    ensures r.Ok? ==> r.value == password2
  {
    if hasPk && password1 == "" && password2 == "" then Ok(password2)
    else if password1 != "" && password2 != "" && password1 != password2 then Err(PasswordMismatch)
    else Ok(password2)
  }

  /** The update-mode shortcut in clean_password2 decides nothing the general
      rule would not: the outcome is the same with or without a primary key. */
  lemma CleanPassword2IgnoresMode(password1: string, password2: string)
    ensures CleanPassword2(true, password1, password2) == CleanPassword2(false, password1, password2)
  {
  }

  /** The fields of the trainer form. */
  datatype TrainerInput = TrainerInput(username: string, email: string, firstName: string, lastName: string,
                                       password1: string, password2: string, bio: string,
                                       specialization: Option<SpecializationId>)

  /** The field errors of a bound trainer form: a required field left blank,
      or (for a confirmation that passed its own field check) a mismatch. */
  function TrainerFormErrors(req: FieldRequirements, instance: Option<User>, input: TrainerInput): (errs: set<FieldError>)
    ensures errs == {} <==>
              && !(req.username && input.username == "")
              && !(req.password1 && input.password1 == "")
              && !(req.password2 && input.password2 == "")
              && !(input.password1 != "" && input.password2 != "" && input.password1 != input.password2)
  {
    (if req.username && input.username == "" then {UsernameRequired} else {}) +
    (if req.password1 && input.password1 == "" then {Password1Required} else {}) +
    (if req.password2 && input.password2 == "" then {Password2Required}
     else if CleanPassword2(instance.Some?, input.password1, input.password2).Err? then {PasswordMismatch}
     else {})
  }

  /** The cleaned data of a valid trainer form. */
  function CleanTrainerForm(req: FieldRequirements, instance: Option<User>, input: TrainerInput): (r: Result<TrainerInput, set<FieldError>>)
    ensures r.Ok? <==> TrainerFormErrors(req, instance, input) == {}
    ensures r.Err? ==> r.error == TrainerFormErrors(req, instance, input) && r.error != {}
    ensures r.Ok? ==> r.value == input.(username := if instance.Some? then instance.value.username else input.username)
  {
    var errs := TrainerFormErrors(req, instance, input);
    if errs != {} then Err(errs)
    else Ok(input.(username := CleanUsername(instance, input.username)))
  }

  /** Update mode accepts a form with the username and both passwords left
      blank, while creation rejects a blank password; on update a new
      password with a blank confirmation is also accepted. */
  lemma TrainerFormModes(stored: User, input: TrainerInput, profile: Option<TrainerProfile>)
    ensures input.username == "" && input.password1 == "" && input.password2 == "" ==>
              CleanTrainerForm(SetupFields(true, profile).required, Some(stored), input).Ok?
    ensures input.password1 == "" ==>
              CleanTrainerForm(SetupFields(false, None).required, None, input).Err?
    ensures input.password1 != "" && input.password2 == "" ==>
              CleanTrainerForm(SetupFields(true, profile).required, Some(stored), input).Ok?
  {
  }

  /** The user value TrainerCreationForm.save builds from valid cleaned data
      and the stored instance (None when creating). */
  function TrainerUser(instance: Option<User>, cleaned: TrainerInput): (u: User)
    ensures instance.Some? && cleaned.password1 == "" ==>
              u == instance.value.(email := cleaned.email, firstName := cleaned.firstName, lastName := cleaned.lastName)
    ensures cleaned.password1 != "" ==> u.password == cleaned.password1
    ensures instance.Some? ==> u.role == instance.value.role
    ensures instance.None? ==> u.role == Trainer
    ensures u.email == cleaned.email && u.firstName == cleaned.firstName && u.lastName == cleaned.lastName
    ensures instance.None? ==> u.username == cleaned.username
  {
    if instance.Some? && cleaned.password1 == "" then
      instance.value.(email := cleaned.email, firstName := cleaned.firstName, lastName := cleaned.lastName)
    else
      var base := if instance.Some? then instance.value else User("", "", "", "", "", DefaultRole);
      var built := base.(username := cleaned.username, email := cleaned.email, firstName := cleaned.firstName,
                         lastName := cleaned.lastName, password := cleaned.password1);
      if instance.None? then built.(role := Trainer) else built
  }

  /** The profile half of TrainerCreationForm.save: get_or_create the user's
      trainer profile with the cleaned bio and specialization as defaults,
      and when it already existed overwrite both. Either way the user ends
      with exactly one profile, carrying the given values, under its old key
      or under the next key of the table. */
  method SaveProfileOf(db: Db, user: UserId, bio: string, specialization: Option<SpecializationId>)
    returns (pid: ProfileId)
    requires db.Valid()
    requires user in db.users
    requires specialization.Some? ==> specialization.value in db.specializations
    modifies db`trainerProfiles, db`nextKeys
    ensures db.Valid()
    ensures db.trainerProfiles == old(db.trainerProfiles)[pid := TrainerProfile(user, bio, specialization)]
    ensures TrainerProfilesOf(old(db.trainerProfiles), user) <= {pid}
    ensures TrainerProfilesOf(db.trainerProfiles, user) == {pid}
    ensures pid in old(db.trainerProfiles) <==> TrainerProfilesOf(old(db.trainerProfiles), user) != {}
    ensures pid !in old(db.trainerProfiles) ==> pid == old(db.nextKeys.trainerProfile)
    ensures db.nextKeys == old(db.nextKeys).(trainerProfile := old(db.nextKeys.trainerProfile) +
                                                              (if pid in old(db.trainerProfiles) then 0 else 1))
  {
    var created;
    pid, created := db.GetOrCreateTrainerProfile(user, bio, specialization);
    if !created {
      db.SaveTrainerProfile(pid, bio, specialization);
    }
    assert TrainerProfilesOf(db.trainerProfiles, user) == {pid};
  }

  /** TrainerCreationForm.save on a valid form. With commit the user row is
      inserted or overwritten and the user ends with exactly one trainer
      profile whose bio and specialization are the cleaned ones; nothing
      else in the database changes. The profile keeps its key when the user
      had one, and otherwise takes the next key of its table. */
  method SaveTrainer(db: Db, instance: Option<UserId>, req: FieldRequirements, input: TrainerInput, commit: bool)
    returns (user: User, id: Option<UserId>)
    requires db.Valid()
    requires instance.Some? ==> instance.value in db.users
    requires CleanTrainerForm(req, if instance.Some? then Some(db.users[instance.value]) else None, input).Ok?
    requires input.specialization.Some? ==> input.specialization.value in db.specializations
    requires instance.None? ==> !db.UsernameTaken(input.username, None)
    modifies db
    ensures db.Valid()
    ensures var stored := if instance.Some? then Some(old(db.users)[instance.value]) else None;
            user == TrainerUser(stored, CleanTrainerForm(req, stored, input).value)
    ensures instance.Some? ==> user.username == old(db.users)[instance.value].username
    ensures !commit ==> id.None? && unchanged(db)
    ensures commit ==>
              && id.Some?
              && (instance.Some? ==> id == instance)
              && (instance.None? ==> id.value == old(db.nextKeys.user) && id.value !in old(db.users))
              && db.users == old(db.users)[id.value := user]
              && (exists pid: ProfileId ::
                    && db.trainerProfiles == old(db.trainerProfiles)[pid := TrainerProfile(id.value, input.bio, input.specialization)]
                    && TrainerProfilesOf(old(db.trainerProfiles), id.value) <= {pid}
                    && TrainerProfilesOf(db.trainerProfiles, id.value) == {pid}
                    && (pid in old(db.trainerProfiles) <==> TrainerProfilesOf(old(db.trainerProfiles), id.value) != {})
                    && (instance.None? ==> pid !in old(db.trainerProfiles))
                    && (pid !in old(db.trainerProfiles) ==> pid == old(db.nextKeys.trainerProfile))
                    && db.nextKeys == old(db.nextKeys).(user := old(db.nextKeys.user) + (if instance.None? then 1 else 0),
                                                        trainerProfile := old(db.nextKeys.trainerProfile) +
                                                                          (if pid in old(db.trainerProfiles) then 0 else 1)))
              && db.clientProfiles == old(db.clientProfiles) && db.specializations == old(db.specializations)
              && db.workouts == old(db.workouts) && db.schedules == old(db.schedules)
              && db.bookings == old(db.bookings)
  {
    var stored := if instance.Some? then Some(db.users[instance.value]) else None;
    var cleaned := CleanTrainerForm(req, stored, input).value;
    user := TrainerUser(stored, cleaned);
    id := None;
    if commit {
      assert cleaned.bio == input.bio && cleaned.specialization == input.specialization;
      var uid: UserId;
      if instance.Some? {
        uid := instance.value;
        db.UpdateUser(uid, user);
      } else {
        uid := db.InsertUser(user);
        assert TrainerProfilesOf(db.trainerProfiles, uid) == {};
      }
      var pid := SaveProfileOf(db, uid, cleaned.bio, cleaned.specialization);
      id := Some(uid);
    }
  }
}
