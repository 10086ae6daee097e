/** The database the views and forms share: every table of accounts/models.py
    and gym/models.py, the constraints the schema declares (foreign keys,
    one-to-one links, unique columns, unique_together) as the object
    invariant, the on_delete rules as delete methods, and the row writes the
    ORM performs for the views and forms. */
module Store {
  import opened Common
  import opened AccountsModels
  import opened GymModels

  class Db {
    var users: map<UserId, User>
    var specializations: map<SpecializationId, Specialization>
    var trainerProfiles: map<ProfileId, TrainerProfile>
    var clientProfiles: map<ProfileId, ClientProfile>
    var workouts: map<WorkoutId, Workout>
    var schedules: map<ScheduleId, Schedule>
    var bookings: seq<Booking>
    /** The next primary key of each account table's sequence. */
    var nextKeys: NextKeys

    /** The schema's constraints. */
    ghost predicate Valid()
      reads this
    {
      && AccountsConsistent(users, specializations, trainerProfiles, clientProfiles, nextKeys)
      && WorkoutsLinked(trainerProfiles, workouts)
      && SchedulesLinked(workouts, schedules)
      && BookingsConsistent(users, schedules, bookings)
    }

    /** The booking rules the views keep but the schema does not. */
    ghost predicate LedgerInvariants()
      reads this
    {
      WithinCapacity(schedules, bookings) && NoTimeConflicts(schedules, bookings)
    }

    constructor ()
      ensures Valid() && LedgerInvariants()
      ensures users == map[] && specializations == map[] && trainerProfiles == map[]
      ensures clientProfiles == map[] && workouts == map[] && schedules == map[] && bookings == []
    {
      users, specializations, trainerProfiles, clientProfiles := map[], map[], map[], map[];
      workouts, schedules, bookings, nextKeys := map[], map[], [], NextKeys(0, 0, 0, 0);
    }

    /** Some user other than `except` already has this username. */
    predicate UsernameTaken(username: string, except: Option<UserId>)
      reads this
    {
      exists u :: u in users && users[u].username == username && Some(u) != except
    }

    /** Booking.objects.create: the insert fails (an integrity error) on a
        dangling foreign key or on a second row for the same pair. */
    method CreateBooking(client: UserId, schedule: ScheduleId, now: int) returns (created: bool)
      requires Valid()
      modifies this`bookings
      ensures Valid()
      ensures created <==> client in users && schedule in schedules && !HasPair(old(bookings), client, schedule)
      ensures bookings == if created then old(bookings) + [Booking(client, schedule, now)] else old(bookings)
    {
      created := client in users && schedule in schedules && !HasPair(bookings, client, schedule);
      if created {
        UniquePairsAppend(bookings, Booking(client, schedule, now));
        bookings := bookings + [Booking(client, schedule, now)];
      }
    }

    /** A queryset delete on the Booking table: only the rows `keep` accepts remain. */
    method DeleteBookingsWhere(keep: Booking -> bool)
      requires Valid()
      modifies this`bookings
      ensures Valid()
      ensures bookings == Filter(old(bookings), keep)
      ensures old(LedgerInvariants()) ==> LedgerInvariants()
    {
      PairwiseFilter(bookings, keep, SamePair);
      if LedgerInvariants() {
        WithinCapacityFilter(schedules, schedules, bookings, keep);
        NoTimeConflictsFilter(schedules, schedules, bookings, keep);
      }
      bookings := Filter(bookings, keep);
    }

    /** Deleting the schedules ss removes them and every booking on them (CASCADE). */
    method DeleteSchedules(ss: set<ScheduleId>)
      requires Valid()
      modifies this`schedules, this`bookings
      ensures Valid()
      ensures schedules == old(schedules) - ss
      ensures bookings == Filter(old(bookings), OffSchedules(ss))
      ensures old(LedgerInvariants()) ==> LedgerInvariants()
    {
      var keep := OffSchedules(ss);
      BookingsConsistentWithoutSchedules(users, schedules, bookings, ss);
      if LedgerInvariants() {
        WithinCapacityFilter(schedules, schedules - ss, bookings, keep);
        NoTimeConflictsFilter(schedules, schedules - ss, bookings, keep);
      }
      bookings, schedules := Filter(bookings, keep), schedules - ss;
    }

    /** Schedule.delete(): the schedule and exactly its bookings go. */
    method DeleteSchedule(s: ScheduleId)
      requires Valid()
      modifies this`schedules, this`bookings
      ensures Valid()
      ensures schedules == old(schedules) - {s}
      ensures forall b :: b in bookings <==> b in old(bookings) && b.schedule != s
      ensures CountFor(bookings, s) == 0
      ensures forall t :: t != s ==> CountFor(bookings, t) == CountFor(old(bookings), t)
      ensures old(LedgerInvariants()) ==> LedgerInvariants()
    {
      ghost var rows := bookings;
      DeleteSchedules({s});
      CountForFilterOut(rows, OffSchedules({s}), s);
      forall t | t != s ensures CountFor(bookings, t) == CountFor(rows, t) {
        CountForUnchangedOutside(rows, OffSchedules({s}), t);
      }
    }

    /** Deleting the workouts ws removes them, their schedules and those schedules' bookings. */
    method DeleteWorkouts(ws: set<WorkoutId>)
      requires Valid()
      modifies this`workouts, this`schedules, this`bookings
      ensures Valid()
      ensures workouts == old(workouts) - ws
      ensures schedules == old(schedules) - SchedulesOf(old(schedules), ws)
      ensures bookings == Filter(old(bookings), OffSchedules(SchedulesOf(old(schedules), ws)))
      ensures old(LedgerInvariants()) ==> LedgerInvariants()
    {
      DeleteSchedules(SchedulesOf(schedules, ws));
      workouts := workouts - ws;
    }

    /** Workout.delete() */
    method DeleteWorkout(w: WorkoutId)
      requires Valid()
      modifies this`workouts, this`schedules, this`bookings
      ensures Valid()
      ensures workouts == old(workouts) - {w}
      ensures schedules == old(schedules) - SchedulesOf(old(schedules), {w})
      ensures bookings == Filter(old(bookings), OffSchedules(SchedulesOf(old(schedules), {w})))
      ensures forall s :: s in schedules <==> s in old(schedules) && old(schedules)[s].workout != w
      ensures forall b :: b in bookings <==>
                b in old(bookings) && b.schedule in old(schedules) && old(schedules)[b.schedule].workout != w
      ensures old(LedgerInvariants()) ==> LedgerInvariants()
    {
      DeleteWorkouts({w});
    }

    /** Deleting the trainer profiles ps removes them and, through their workouts, everything below. */
    method DeleteTrainerProfiles(ps: set<ProfileId>)
      requires Valid()
      modifies this`trainerProfiles, this`workouts, this`schedules, this`bookings
      ensures Valid()
      ensures trainerProfiles == old(trainerProfiles) - ps
      ensures workouts == old(workouts) - WorkoutsOf(old(workouts), ps)
      ensures schedules == old(schedules) - SchedulesOf(old(schedules), WorkoutsOf(old(workouts), ps))
      ensures bookings == Filter(old(bookings), OffSchedules(SchedulesOf(old(schedules), WorkoutsOf(old(workouts), ps))))
      ensures old(LedgerInvariants()) ==> LedgerInvariants()
    {
      DeleteWorkouts(WorkoutsOf(workouts, ps));
      trainerProfiles := trainerProfiles - ps;
    }

    /** TrainerProfile.delete(): its workouts go with it. */
    method DeleteTrainerProfile(p: ProfileId)
      requires Valid()
      modifies this`trainerProfiles, this`workouts, this`schedules, this`bookings
      ensures Valid()
      ensures trainerProfiles == old(trainerProfiles) - {p}
      ensures workouts == old(workouts) - WorkoutsOf(old(workouts), {p})
      ensures schedules == old(schedules) - SchedulesOf(old(schedules), WorkoutsOf(old(workouts), {p}))
      ensures bookings == Filter(old(bookings), OffSchedules(SchedulesOf(old(schedules), WorkoutsOf(old(workouts), {p}))))
      ensures forall w :: w in workouts <==> w in old(workouts) && old(workouts)[w].trainer != p
      ensures old(LedgerInvariants()) ==> LedgerInvariants()
    {
      DeleteTrainerProfiles({p});
    }

    /** User.delete(): the user's bookings, both profiles and, through the
        trainer profile, its workouts, schedules and their bookings go. */
    method DeleteUser(u: UserId)
      requires Valid()
      modifies this
      ensures Valid()
      ensures users == old(users) - {u}
      ensures trainerProfiles == old(trainerProfiles) - TrainerProfilesOf(old(trainerProfiles), u)
      ensures clientProfiles == old(clientProfiles) - ClientProfilesOf(old(clientProfiles), u)
      ensures specializations == old(specializations) && nextKeys == old(nextKeys)
      ensures workouts == old(workouts) - WorkoutsOf(old(workouts), TrainerProfilesOf(old(trainerProfiles), u))
      ensures var ss := SchedulesOf(old(schedules), WorkoutsOf(old(workouts), TrainerProfilesOf(old(trainerProfiles), u)));
              && schedules == old(schedules) - ss
              && bookings == Filter(Filter(old(bookings), OffSchedules(ss)), OffClient(u))
      ensures forall b :: b in bookings ==> b.client != u
      ensures forall b :: b in old(bookings) && b.client != u && b.schedule in schedules ==> b in bookings
      ensures old(LedgerInvariants()) ==> LedgerInvariants()
    {
      ghost var rows := bookings;
      DeleteTrainerProfiles(TrainerProfilesOf(trainerProfiles, u));
      ghost var between := bookings;
      DeleteBookingsWhere(OffClient(u));
      forall b | b in rows && b.client != u && b.schedule in schedules
        ensures b in bookings
      {
        assert b in between;
      }
      RemoveUserKeepsAccounts(users, specializations, trainerProfiles, clientProfiles, nextKeys, u);
      BookingsConsistentWithoutUser(users, schedules, bookings, u);
      clientProfiles := clientProfiles - ClientProfilesOf(clientProfiles, u);
      users := users - {u};
    }

    /** user.save() for a user without a primary key: the row gets the next id. */
    method InsertUser(u: User) returns (id: UserId)
      requires Valid()
      requires !UsernameTaken(u.username, None)
      modifies this`users, this`nextKeys
      ensures Valid()
      ensures id == old(nextKeys.user) && id !in old(users)
      ensures users == old(users)[id := u] && nextKeys == old(nextKeys).(user := id + 1)
    {
      id := nextKeys.user;
      users := users[id := u];
      nextKeys := nextKeys.(user := id + 1);
    }

    /** user.save() for a stored user: its row is overwritten. */
    method UpdateUser(id: UserId, u: User)
      requires Valid()
      requires id in users && !UsernameTaken(u.username, Some(id))
      modifies this`users
      ensures Valid()
      ensures users == old(users)[id := u]
    {
      users := users[id := u];
    }

    /** ClientProfile.objects.create for a user that has no client profile yet. */
    method CreateClientProfile(user: UserId, phoneNumber: string) returns (pid: ProfileId)
      requires Valid()
      requires user in users && ClientProfilesOf(clientProfiles, user) == {}
      modifies this`clientProfiles, this`nextKeys
      ensures Valid()
      ensures pid == old(nextKeys.clientProfile) && pid !in old(clientProfiles)
      ensures clientProfiles == old(clientProfiles)[pid := ClientProfile(user, phoneNumber)]
      ensures nextKeys == old(nextKeys).(clientProfile := pid + 1)
    {
      pid := nextKeys.clientProfile;
      clientProfiles := clientProfiles[pid := ClientProfile(user, phoneNumber)];
      nextKeys := nextKeys.(clientProfile := pid + 1);
    }

    /** TrainerProfile.objects.get_or_create(user=..., defaults=...): the
        existing profile of the user is returned untouched, or a new one is
        made from the defaults. */
    method GetOrCreateTrainerProfile(user: UserId, bio: string, specialization: Option<SpecializationId>)
      returns (pid: ProfileId, created: bool)
      requires Valid()
      requires user in users
      requires specialization.Some? ==> specialization.value in specializations
      modifies this`trainerProfiles, this`nextKeys
      ensures Valid()
      ensures created <==> TrainerProfilesOf(old(trainerProfiles), user) == {}
      ensures pid in trainerProfiles && trainerProfiles[pid].user == user
      ensures !created ==> trainerProfiles == old(trainerProfiles) && nextKeys == old(nextKeys)
      ensures created ==> pid == old(nextKeys.trainerProfile) && pid !in old(trainerProfiles) &&
                          trainerProfiles == old(trainerProfiles)[pid := TrainerProfile(user, bio, specialization)] &&
                          nextKeys == old(nextKeys).(trainerProfile := pid + 1)
    {
      if p :| p in trainerProfiles && trainerProfiles[p].user == user {
        pid, created := p, false;
      } else {
        pid, created := nextKeys.trainerProfile, true;
        trainerProfiles := trainerProfiles[pid := TrainerProfile(user, bio, specialization)];
        nextKeys := nextKeys.(trainerProfile := pid + 1);
      }
    }

    /** trainer_profile.save() after its bio and specialization were reassigned. */
    method SaveTrainerProfile(pid: ProfileId, bio: string, specialization: Option<SpecializationId>)
      requires Valid()
      requires pid in trainerProfiles
      requires specialization.Some? ==> specialization.value in specializations
      modifies this`trainerProfiles
      ensures Valid()
      ensures trainerProfiles == old(trainerProfiles)[pid := old(trainerProfiles)[pid].(bio := bio, specialization := specialization)]
    {
      trainerProfiles := trainerProfiles[pid := trainerProfiles[pid].(bio := bio, specialization := specialization)];
    }

    /** Specialization.objects.create: the insert fails on a name already in use. */
    method CreateSpecialization(name: string) returns (id: Option<SpecializationId>)
      requires Valid()
      modifies this`specializations, this`nextKeys
      ensures Valid()
      ensures id.Some? <==> forall s :: s in old(specializations) ==> old(specializations)[s].name != name
      ensures id.Some? ==> id.value == old(nextKeys.specialization) && id.value !in old(specializations) &&
                           specializations == old(specializations)[id.value := Specialization(name)] &&
                           nextKeys == old(nextKeys).(specialization := id.value + 1)
      ensures id.None? ==> specializations == old(specializations) && nextKeys == old(nextKeys)
    {
      if exists s :: s in specializations && specializations[s].name == name {
        return None;
      }
      var key := nextKeys.specialization;
      id := Some(key);
      specializations := specializations[key := Specialization(name)];
      nextKeys := nextKeys.(specialization := key + 1);
    }

    /** Specialization.delete(): trainer profiles that pointed at it keep
        existing with no specialization (SET_NULL). */
    method DeleteSpecialization(sp: SpecializationId)
      requires Valid()
      modifies this`specializations, this`trainerProfiles
      ensures Valid()
      ensures specializations == old(specializations) - {sp}
      ensures trainerProfiles.Keys == old(trainerProfiles).Keys
      ensures forall p :: p in trainerProfiles ==> trainerProfiles[p] == ClearSpecialization(old(trainerProfiles)[p], sp)
    {
      trainerProfiles := map p | p in trainerProfiles :: ClearSpecialization(trainerProfiles[p], sp);
      specializations := specializations - {sp};
    }
  }
}
