/** The booking views of gym/views.py: the availability figures the schedule
    page shows, the admission decision of the booking view and the delete of
    the cancel view, run against the shared database. The clock is the
    integer `now` the caller passes in. */
module GymViews {
  import opened Common
  import opened AccountsModels
  import opened GymModels
  import opened Store

  /** What a booking request ends in; every outcome except Booked leaves the table as it was. */
  datatype ReserveOutcome =
    | ScheduleNotFound   // the schedule lookup answers 404
    | OnlyClients        // "Only clients can book workouts."
    | AlreadyStarted     // "This workout has already started."
    | NoAvailableSpots   // "No available spots."
    | AlreadyBooked      // "You are already booked."
    | TimeConflict       // "You already have a workout at this time."
    | Booked             // "Successfully booked!"

  datatype ReleaseOutcome =
    | ReleaseNotFound    // the schedule lookup answers 404
    | Cancelled          // "Booking canceled."

  /** The guards of the booking view in the order it runs them; the first one
      that fails decides the outcome. */
  function Admission(schedules: map<ScheduleId, Schedule>, rows: seq<Booking>,
                     actor: UserId, role: Role, pk: ScheduleId, now: int): (o: ReserveOutcome)
    ensures o == ScheduleNotFound <==> pk !in schedules
    ensures o == OnlyClients <==> pk in schedules && role != Client
    ensures o == AlreadyStarted <==>
              pk in schedules && role == Client && schedules[pk].startTime <= now
    ensures o == NoAvailableSpots <==>
              pk in schedules && role == Client && now < schedules[pk].startTime &&
              schedules[pk].capacity <= CountFor(rows, pk)
    ensures o == AlreadyBooked <==>
              pk in schedules && role == Client && now < schedules[pk].startTime &&
              CountFor(rows, pk) < schedules[pk].capacity && HasPair(rows, actor, pk)
    ensures o == TimeConflict <==>
              pk in schedules && role == Client && now < schedules[pk].startTime &&
              CountFor(rows, pk) < schedules[pk].capacity && !HasPair(rows, actor, pk) &&
              HasBookingAt(schedules, rows, actor, schedules[pk].startTime)
    ensures o == Booked <==>
              pk in schedules && role == Client && now < schedules[pk].startTime &&
              CountFor(rows, pk) < schedules[pk].capacity && !HasPair(rows, actor, pk) &&
              !HasBookingAt(schedules, rows, actor, schedules[pk].startTime)
  {
    RoleValueRoundTrip(role, Client);
    if pk !in schedules then ScheduleNotFound
    else if RoleValue(role) != "client" then OnlyClients
    else if schedules[pk].startTime <= now then AlreadyStarted
    else if CountFor(rows, pk) >= schedules[pk].capacity then NoAvailableSpots
    else if HasPair(rows, actor, pk) then AlreadyBooked
    else if HasBookingAt(schedules, rows, actor, schedules[pk].startTime) then TimeConflict
    else Booked
  }

  /** The figures the schedule page shows a logged-in viewer. */
  datatype DetailContext = DetailContext(isBooked: bool, availableSpots: int, isFull: bool,
                                         canBook: bool, participants: Option<seq<Booking>>)

  /** ScheduleDetailView.get_context_data; None is the 404 of the detail lookup. */
  function ScheduleDetail(schedules: map<ScheduleId, Schedule>, rows: seq<Booking>,
                          viewer: UserId, role: Role, pk: ScheduleId, now: int): (ctx: Option<DetailContext>)
    ensures ctx.None? <==> pk !in schedules
    ensures ctx.Some? ==>
              && (ctx.value.isBooked <==> HasPair(rows, viewer, pk))
              && ctx.value.availableSpots + CountFor(rows, pk) == schedules[pk].capacity
              && (ctx.value.isFull <==> schedules[pk].capacity <= CountFor(rows, pk))
              && (ctx.value.canBook <==> now < schedules[pk].startTime)
              && (ctx.value.participants.Some? <==> role == Admin || role == Trainer)
              && (ctx.value.participants.Some? ==>
                    forall b :: b in ctx.value.participants.value <==> b in rows && b.schedule == pk)
    ensures ctx.Some? && WithinCapacity(schedules, rows) ==> ctx.value.availableSpots >= 0
  {
    RoleValueRoundTrip(role, Admin);
    RoleValueRoundTrip(role, Trainer);
    if pk !in schedules then None
    else
      var schedule := schedules[pk];
      var available := schedule.capacity - CountFor(rows, pk);
      Some(DetailContext(
        isBooked := HasPair(rows, viewer, pk),
        availableSpots := available,
        isFull := available <= 0,
        canBook := schedule.startTime > now,
        participants := if RoleValue(role) in ["admin", "trainer"]
                        then Some(Filter(rows, (b: Booking) => b.schedule == pk))
                        else None))
  }

  /** What the page shows and what the booking view decides agree: a client
      with no booking on the slot and none at the same instant gets a seat
      exactly when the page shows the slot as bookable and not full, and no
      viewer is ever admitted to a slot the page shows as started or full. */
  lemma DetailAgreesWithAdmission(schedules: map<ScheduleId, Schedule>, rows: seq<Booking>,
                                  actor: UserId, role: Role, pk: ScheduleId, now: int)
    requires pk in schedules
    ensures var ctx := ScheduleDetail(schedules, rows, actor, role, pk, now).value;
            && (Admission(schedules, rows, actor, role, pk, now) == Booked ==>
                  ctx.canBook && !ctx.isFull && !ctx.isBooked)
            && (role == Client && !ctx.isBooked &&
                !HasBookingAt(schedules, rows, actor, schedules[pk].startTime) ==>
                  (Admission(schedules, rows, actor, role, pk, now) == Booked <==> ctx.canBook && !ctx.isFull))
  {
  }

  /** An admitted booking keeps the uniqueness constraint, the capacity of
      every schedule and the absence of time conflicts. */
  lemma AdmissionKeepsInvariants(schedules: map<ScheduleId, Schedule>, rows: seq<Booking>,
                                 actor: UserId, role: Role, pk: ScheduleId, now: int)
    requires Admission(schedules, rows, actor, role, pk, now) == Booked
    ensures UniquePairs(rows) ==> UniquePairs(rows + [Booking(actor, pk, now)])
    ensures WithinCapacity(schedules, rows) ==> WithinCapacity(schedules, rows + [Booking(actor, pk, now)])
    ensures NoTimeConflicts(schedules, rows) ==> NoTimeConflicts(schedules, rows + [Booking(actor, pk, now)])
  {
    var b := Booking(actor, pk, now);
    if UniquePairs(rows) {
      UniquePairsAppend(rows, b);
    }
    forall s | s in schedules ensures CountFor(rows + [b], s) == CountFor(rows, s) + (if s == pk then 1 else 0) {
      CountForAppend(rows, b, s);
    }
    if NoTimeConflicts(schedules, rows) {
      forall a | a in rows ensures !SameSlot(schedules)(a, b) {
        if SameSlot(schedules)(a, b) {
          assert HasBookingAt(schedules, rows, actor, schedules[pk].startTime);
        }
      }
      PairwiseAppend(rows, b, SameSlot(schedules));
    }
  }

  /** A second request by the same client for the same slot never adds a row:
      it reports a full schedule when the first booking took the last seat and
      "already booked" otherwise, and the pair keeps exactly one row. */
  lemma ReserveTwice(schedules: map<ScheduleId, Schedule>, rows: seq<Booking>,
                     actor: UserId, role: Role, pk: ScheduleId, now: int)
    requires UniquePairs(rows)
    requires Admission(schedules, rows, actor, role, pk, now) == Booked
    ensures var rows' := rows + [Booking(actor, pk, now)];
            && Admission(schedules, rows', actor, role, pk, now) ==
                 (if CountFor(rows, pk) + 1 >= schedules[pk].capacity then NoAvailableSpots else AlreadyBooked)
            && CountPair(rows', actor, pk) == 1
  {
    var b := Booking(actor, pk, now);
    CountForAppend(rows, b, pk);
    CountPairAppend(rows, b, actor, pk);
    assert b in rows + [b];
  }

  /** The cancel delete removes the client's row for the slot and touches no
      other row; it can run any number of times. */
  lemma ReleaseEffect(rows: seq<Booking>, actor: UserId, pk: ScheduleId)
    ensures var rows' := Filter(rows, OtherPairs(actor, pk));
            && !HasPair(rows', actor, pk)
            && (forall b :: b in rows' <==> b in rows && !(b.client == actor && b.schedule == pk))
            && Filter(rows', OtherPairs(actor, pk)) == rows'
            && |rows'| == |rows| - CountPair(rows, actor, pk)
            && (forall t :: t != pk ==> CountFor(rows', t) == CountFor(rows, t))
            && (UniquePairs(rows) && HasPair(rows, actor, pk) ==> |rows'| == |rows| - 1)
  {
    FilterIdempotent(rows, OtherPairs(actor, pk));
    OtherPairsLength(rows, actor, pk);
    forall t | t != pk ensures CountFor(Filter(rows, OtherPairs(actor, pk)), t) == CountFor(rows, t) {
      CountForUnchangedOutside(rows, OtherPairs(actor, pk), t);
    }
    if UniquePairs(rows) {
      UniquePairsCount(rows, actor, pk);
    }
  }

  /** BookingCreateView.post for a logged-in user. */
  method Reserve(db: Db, actor: UserId, pk: ScheduleId, now: int) returns (outcome: ReserveOutcome)
    requires db.Valid()
    requires actor in db.users
    modifies db`bookings
    ensures db.Valid()
    ensures outcome == Admission(old(db.schedules), old(db.bookings), actor, old(db.users[actor].role), pk, now)
    ensures db.bookings == if outcome == Booked then old(db.bookings) + [Booking(actor, pk, now)]
                           else old(db.bookings)
    ensures old(db.LedgerInvariants()) ==> db.LedgerInvariants()
  {
    if pk !in db.schedules {
      return ScheduleNotFound;
    }
    var schedule := db.schedules[pk];
    var user := db.users[actor];
    if RoleValue(user.role) != "client" {
      return OnlyClients;
    }
    if schedule.startTime <= now {
      return AlreadyStarted;
    }
    if CountFor(db.bookings, pk) >= schedule.capacity {
      return NoAvailableSpots;
    }
    if HasPair(db.bookings, actor, pk) {
      return AlreadyBooked;
    }
    var overlapping := HasBookingAt(db.schedules, db.bookings, actor, schedule.startTime);
    if overlapping {
      return TimeConflict;
    }
    AdmissionKeepsInvariants(db.schedules, db.bookings, actor, user.role, pk, now);
    var created := db.CreateBooking(actor, pk, now);
    assert created;
    return Booked;
  }

  /** BookingCancelView.post: no role or time check; the delete runs whether or not a row exists. */
  method Release(db: Db, actor: UserId, pk: ScheduleId) returns (outcome: ReleaseOutcome)
    requires db.Valid()
    modifies db`bookings
    ensures db.Valid()
    ensures outcome == if pk in old(db.schedules) then Cancelled else ReleaseNotFound
    ensures db.bookings == if pk in old(db.schedules) then Filter(old(db.bookings), OtherPairs(actor, pk))
                           else old(db.bookings)
    ensures old(db.LedgerInvariants()) ==> db.LedgerInvariants()
  {
    if pk !in db.schedules {
      return ReleaseNotFound;
    }
    db.DeleteBookingsWhere(OtherPairs(actor, pk));
    return Cancelled;
  }
}
