/** accounts/views.py: who may open the trainer create and update pages,
    which user the update page edits, and what a request to either page does
    to the database. */
module AccountsViews {
  import opened Common
  import opened AccountsModels
  import opened Store
  import opened AccountsForms

  /** TrainerCreateView.test_func: the role column must read "admin". */
  function CanCreateTrainer(requester: User): (ok: bool)
    ensures ok <==> requester.role == Admin
  {
    RoleValueRoundTrip(requester.role, Admin);
    RoleValue(requester.role) == "admin"
  }

  /** The answer of TrainerUpdateView.test_func: the profile lookup it makes
      for a trainer can itself answer 404. */
  datatype Permission = Granted | Denied | ProfileNotFound

  /** TrainerUpdateView.test_func: an admin may edit any profile, a trainer
      only the profile whose user they are, anyone else none. */
  function CanUpdateTrainer(requesterId: UserId, requester: User,
                            profiles: map<ProfileId, TrainerProfile>, pk: ProfileId): (r: Permission)
    ensures r == Granted <==>
              requester.role == Admin ||
              (requester.role == Trainer && pk in profiles && profiles[pk].user == requesterId)
    ensures r == ProfileNotFound <==> requester.role == Trainer && pk !in profiles
    ensures requester.role == Client ==> r == Denied
  {
    RoleValueRoundTrip(requester.role, Admin);
    RoleValueRoundTrip(requester.role, Trainer);
    if RoleValue(requester.role) == "admin" then Granted
    else if RoleValue(requester.role) == "trainer" then
      (if pk !in profiles then ProfileNotFound
       else if profiles[pk].user == requesterId then Granted
       else Denied)
    else Denied
  }

  /** TrainerUpdateView.get_object: the page edits the profile's user, not the
      profile; None is the 404 of the lookup. */
  function UpdateTarget(profiles: map<ProfileId, TrainerProfile>, pk: ProfileId): (r: Option<UserId>)
    ensures r.Some? <==> pk in profiles
    ensures r.Some? ==> r.value == profiles[pk].user
  {
    if pk in profiles then Some(profiles[pk].user) else None
  }

  /** A trainer granted the update page always edits their own user row. */
  lemma TrainerEditsOnlySelf(requesterId: UserId, requester: User,
                             profiles: map<ProfileId, TrainerProfile>, pk: ProfileId)
    requires requester.role == Trainer
    requires CanUpdateTrainer(requesterId, requester, profiles, pk) == Granted
    ensures UpdateTarget(profiles, pk) == Some(requesterId)
  {
  }

  /** How a POST to the create or update page ends. */
  datatype Response =
    | RedirectToTrainerList          // handle_no_permission
    | NotFound                       // a profile lookup answered 404
    | FormInvalid(errors: set<FieldError>)
    | UsernameInUse                  // the unique username check of the model form
    | Saved(user: UserId)

  /** POST to TrainerCreateView by a logged-in user: a non-admin is sent to
      the trainer list, an invalid form or a taken username is reported, and
      otherwise the form's save inserts a trainer user and its profile. */
  method PostTrainerCreate(db: Db, requesterId: UserId, input: TrainerInput) returns (resp: Response)
    requires db.Valid()
    requires requesterId in db.users
    requires input.specialization.Some? ==> input.specialization.value in db.specializations
    modifies db
    ensures db.Valid()
    ensures !CanCreateTrainer(old(db.users)[requesterId]) ==> resp == RedirectToTrainerList
    ensures CanCreateTrainer(old(db.users)[requesterId]) && TrainerFormErrors(CreationRequirements, None, input) != {} ==>
              resp == FormInvalid(TrainerFormErrors(CreationRequirements, None, input))
    ensures && CanCreateTrainer(old(db.users)[requesterId])
            && TrainerFormErrors(CreationRequirements, None, input) == {}
            && old(db.UsernameTaken(input.username, None))
            ==> resp == UsernameInUse
    ensures resp.Saved? <==>
              && CanCreateTrainer(old(db.users)[requesterId])
              && TrainerFormErrors(CreationRequirements, None, input) == {}
              && !old(db.UsernameTaken(input.username, None))
    ensures resp.Saved? ==>
              && resp.user == old(db.nextKeys.user) && resp.user !in old(db.users)
              && db.users == old(db.users)[resp.user := TrainerUser(None, input)]
              && db.users[resp.user].role == Trainer && db.users[resp.user].username == input.username
              && (exists pid: ProfileId ::
                    && pid == old(db.nextKeys.trainerProfile) && pid !in old(db.trainerProfiles)
                    && db.trainerProfiles == old(db.trainerProfiles)[pid := TrainerProfile(resp.user, input.bio, input.specialization)]
                    && db.nextKeys == old(db.nextKeys).(user := resp.user + 1, trainerProfile := pid + 1))
              && db.clientProfiles == old(db.clientProfiles) && db.specializations == old(db.specializations)
              && db.workouts == old(db.workouts) && db.schedules == old(db.schedules)
              && db.bookings == old(db.bookings)
    ensures !resp.Saved? ==> unchanged(db)
  {
    if !CanCreateTrainer(db.users[requesterId]) {
      return RedirectToTrainerList;
    }
    var setup := SetupFields(false, None);
    var errors := TrainerFormErrors(setup.required, None, input);
    if errors != {} {
      return FormInvalid(errors);
    }
    if db.UsernameTaken(input.username, None) {
      return UsernameInUse;
    }
    var user, id := SaveTrainer(db, None, setup.required, input, true);
    return Saved(id.value);
  }

  /** The field errors of the update form for profile pk: the form is bound
      to the profile's user and set up in update mode. */
  function UpdateFormErrors(users: map<UserId, User>, profiles: map<ProfileId, TrainerProfile>,
                            pk: ProfileId, input: TrainerInput): set<FieldError>
    requires pk in profiles && profiles[pk].user in users
  {
    TrainerFormErrors(SetupFields(true, Some(profiles[pk])).required, Some(users[profiles[pk].user]), input)
  }

  /** POST to TrainerUpdateView for trainer profile pk by a logged-in user:
      test_func answers first (404, or a redirect to the trainer list), then
      get_object (404), then the bound form; a valid form saves the profile's
      user and the profile itself, under the same key. */
  method PostTrainerUpdate(db: Db, requesterId: UserId, pk: ProfileId, input: TrainerInput) returns (resp: Response)
    requires db.Valid()
    requires requesterId in db.users
    requires input.specialization.Some? ==> input.specialization.value in db.specializations
    modifies db
    ensures db.Valid()
    ensures CanUpdateTrainer(requesterId, old(db.users)[requesterId], old(db.trainerProfiles), pk) == ProfileNotFound ==>
              resp == NotFound
    ensures CanUpdateTrainer(requesterId, old(db.users)[requesterId], old(db.trainerProfiles), pk) == Denied ==>
              resp == RedirectToTrainerList
    ensures pk !in old(db.trainerProfiles) ==> resp == NotFound || resp == RedirectToTrainerList
    ensures && CanUpdateTrainer(requesterId, old(db.users)[requesterId], old(db.trainerProfiles), pk) == Granted
            && pk !in old(db.trainerProfiles)
            ==> resp == NotFound
    ensures CanUpdateTrainer(requesterId, old(db.users)[requesterId], old(db.trainerProfiles), pk) == Granted &&
            pk in old(db.trainerProfiles) && UpdateFormErrors(old(db.users), old(db.trainerProfiles), pk, input) != {} ==>
              resp == FormInvalid(UpdateFormErrors(old(db.users), old(db.trainerProfiles), pk, input))
    ensures resp.Saved? <==>
              && CanUpdateTrainer(requesterId, old(db.users)[requesterId], old(db.trainerProfiles), pk) == Granted
              && pk in old(db.trainerProfiles)
              && UpdateFormErrors(old(db.users), old(db.trainerProfiles), pk, input) == {}
    ensures resp.Saved? ==>
              && pk in old(db.trainerProfiles) && resp.user == old(db.trainerProfiles)[pk].user
              && resp.user in old(db.users)
              && db.users == old(db.users)[resp.user := TrainerUser(Some(old(db.users)[resp.user]),
                                                                    input.(username := old(db.users)[resp.user].username))]
              && db.users[resp.user].username == old(db.users)[resp.user].username
              && db.users[resp.user].role == old(db.users)[resp.user].role
              && (input.password1 == "" ==> db.users[resp.user].password == old(db.users)[resp.user].password)
              && db.trainerProfiles == old(db.trainerProfiles)[pk := TrainerProfile(resp.user, input.bio, input.specialization)]
              && db.nextKeys == old(db.nextKeys)
              && db.clientProfiles == old(db.clientProfiles) && db.specializations == old(db.specializations)
              && db.workouts == old(db.workouts) && db.schedules == old(db.schedules)
              && db.bookings == old(db.bookings)
    ensures !resp.Saved? ==> unchanged(db)
  {
    var permission := CanUpdateTrainer(requesterId, db.users[requesterId], db.trainerProfiles, pk);
    if permission == ProfileNotFound {
      return NotFound;
    }
    if permission == Denied {
      return RedirectToTrainerList;
    }
    var target := UpdateTarget(db.trainerProfiles, pk);
    if target.None? {
      return NotFound;
    }
    var uid := target.value;
    var setup := SetupFields(true, Some(db.trainerProfiles[pk]));
    var errors := TrainerFormErrors(setup.required, Some(db.users[uid]), input);
    if errors != {} {
      return FormInvalid(errors);
    }
    assert pk in TrainerProfilesOf(db.trainerProfiles, uid);
    var user, id := SaveTrainer(db, Some(uid), setup.required, input, true);
    return Saved(uid);
  }
}
