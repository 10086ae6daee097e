/** The gym tables of gym/models.py (Workout, Schedule, Booking) and the
    queries the views run over the Booking table, with the facts about them
    that the invariants of the store rest on. */
module GymModels {
  import opened Common
  import opened AccountsModels

  type WorkoutId = nat
  type ScheduleId = nat

  /** A workout offered by a trainer profile; the duration is a non-negative count of minutes. */
  datatype Workout = Workout(name: string, description: string, durationTime: nat, trainer: ProfileId)

  /** A bookable slot: start instant as an integer clock value, non-negative capacity. */
  datatype Schedule = Schedule(workout: WorkoutId, startTime: int, capacity: nat)

  /** A booking row; `createdAt` is stamped once when the row is inserted. */
  datatype Booking = Booking(client: UserId, schedule: ScheduleId, createdAt: int)

  /** Rows of the Booking table kept by `keep`, in table order (a queryset filter). */
  function Filter(rows: seq<Booking>, keep: Booking -> bool): (r: seq<Booking>)
    ensures |r| <= |rows|
    ensures forall b :: b in r <==> b in rows && keep(b)
  {
    if rows == [] then []
    else if keep(rows[0]) then [rows[0]] + Filter(rows[1..], keep)
    else Filter(rows[1..], keep)
  }

  /** schedule.bookings.count(): the number of rows on schedule s. */
  function CountFor(rows: seq<Booking>, s: ScheduleId): (n: nat)
    ensures n <= |rows|
    ensures n == 0 <==> forall b :: b in rows ==> b.schedule != s
  {
    if rows == [] then 0
    else (if rows[0].schedule == s then 1 else 0) + CountFor(rows[1..], s)
  }

  /** schedule.bookings.filter(client=c).exists(): the client holds a row on
      the schedule, exactly when deleting the pair's rows would change the table. */
  predicate HasPair(rows: seq<Booking>, c: UserId, s: ScheduleId)
    ensures HasPair(rows, c, s) <==> Filter(rows, OtherPairs(c, s)) != rows
  {
    FilterKeepsAll(rows, OtherPairs(c, s));
    exists b :: b in rows && b.client == c && b.schedule == s
  }

  /** Schedule.objects.filter(start_time=t, bookings__client=c).exists(),
      evaluated over the Booking rows; it agrees with the query's own reading,
      "some schedule starting at t holds a row of c". */
  predicate HasBookingAt(schedules: map<ScheduleId, Schedule>, rows: seq<Booking>, c: UserId, t: int)
    ensures HasBookingAt(schedules, rows, c, t) <==>
              exists s :: s in schedules && schedules[s].startTime == t && HasPair(rows, c, s)
  {
    exists b :: b in rows && b.client == c && b.schedule in schedules && schedules[b.schedule].startTime == t
  }

  /** Two rows for the same (client, schedule) pair. */
  predicate SamePair(a: Booking, b: Booking)
  {
    a.client == b.client && a.schedule == b.schedule
  }

  /** Two rows of one client at schedules starting at the same instant. */
  function SameSlot(schedules: map<ScheduleId, Schedule>): (Booking, Booking) -> bool
  {
    (a: Booking, b: Booking) =>
      a.client == b.client && a.schedule in schedules && b.schedule in schedules &&
      schedules[a.schedule].startTime == schedules[b.schedule].startTime
  }

  /** No row clashes with a later row. */
  predicate Pairwise(rows: seq<Booking>, clash: (Booking, Booking) -> bool)
  {
    rows == [] ||
    ((forall b :: b in rows[1..] ==> !clash(rows[0], b)) && Pairwise(rows[1..], clash))
  }

  /** unique_together = ("client", "schedule") */
  predicate UniquePairs(rows: seq<Booking>)
  {
    Pairwise(rows, SamePair)
  }

  /** A client never holds two bookings at schedules with the same start time. */
  predicate NoTimeConflicts(schedules: map<ScheduleId, Schedule>, rows: seq<Booking>)
  {
    Pairwise(rows, SameSlot(schedules))
  }

  /** No schedule holds more bookings than its capacity. */
  predicate WithinCapacity(schedules: map<ScheduleId, Schedule>, rows: seq<Booking>)
  {
    forall s :: s in schedules ==> CountFor(rows, s) <= schedules[s].capacity
  }

  /** Workout.trainer points at a stored trainer profile. */
  ghost predicate WorkoutsLinked(tps: map<ProfileId, TrainerProfile>, workouts: map<WorkoutId, Workout>)
  {
    forall w :: w in workouts ==> workouts[w].trainer in tps
  }

  /** Schedule.workout points at a stored workout. */
  ghost predicate SchedulesLinked(workouts: map<WorkoutId, Workout>, schedules: map<ScheduleId, Schedule>)
  {
    forall s :: s in schedules ==> schedules[s].workout in workouts
  }

  /** Booking's two foreign keys and its unique_together constraint. */
  ghost predicate BookingsConsistent(users: map<UserId, User>, schedules: map<ScheduleId, Schedule>,
                                     rows: seq<Booking>)
  {
    && (forall b :: b in rows ==> b.client in users && b.schedule in schedules)
    && UniquePairs(rows)
  }

  /** Removing a user that no booking refers to keeps the Booking table consistent. */
  lemma BookingsConsistentWithoutUser(users: map<UserId, User>, schedules: map<ScheduleId, Schedule>,
                                      rows: seq<Booking>, u: UserId)
    requires BookingsConsistent(users, schedules, rows)
    requires forall b :: b in rows ==> b.client != u
    ensures BookingsConsistent(users - {u}, schedules, rows)
  {
  }

  /** Deleting some schedules together with every booking on them keeps the
      Booking table consistent. */
  lemma BookingsConsistentWithoutSchedules(users: map<UserId, User>, schedules: map<ScheduleId, Schedule>,
                                           rows: seq<Booking>, ss: set<ScheduleId>)
    requires BookingsConsistent(users, schedules, rows)
    ensures BookingsConsistent(users, schedules - ss, Filter(rows, OffSchedules(ss)))
  {
    PairwiseFilter(rows, OffSchedules(ss), SamePair);
  }

  /** Number of rows for one (client, schedule) pair. */
  function CountPair(rows: seq<Booking>, c: UserId, s: ScheduleId): (n: nat)
    ensures n == 0 <==> !HasPair(rows, c, s)
  {
    if rows == [] then 0
    else (if rows[0].client == c && rows[0].schedule == s then 1 else 0) + CountPair(rows[1..], c, s)
  }

  // ---------------------------------------------------------------------------
  // Counting

  lemma {:induction false} CountForAppend(rows: seq<Booking>, b: Booking, s: ScheduleId)
    ensures CountFor(rows + [b], s) == CountFor(rows, s) + (if b.schedule == s then 1 else 0)
  {
    if rows != [] {
      assert (rows + [b])[1..] == rows[1..] + [b];
      CountForAppend(rows[1..], b, s);
    }
  }

  /** Filtering rows out of the table never raises a schedule's count. */
  lemma {:induction false} CountForFilter(rows: seq<Booking>, keep: Booking -> bool, s: ScheduleId)
    ensures CountFor(Filter(rows, keep), s) <= CountFor(rows, s)
  {
    if rows != [] {
      CountForFilter(rows[1..], keep, s);
    }
  }

  /** Filtering out every row of schedule s leaves it with no bookings. */
  lemma {:induction false} CountForFilterOut(rows: seq<Booking>, keep: Booking -> bool, s: ScheduleId)
    requires forall b: Booking :: keep(b) ==> b.schedule != s
    ensures CountFor(Filter(rows, keep), s) == 0
  {
    if rows != [] {
      CountForFilterOut(rows[1..], keep, s);
    }
  }

  lemma {:induction false} CountPairAppend(rows: seq<Booking>, b: Booking, c: UserId, s: ScheduleId)
    ensures CountPair(rows + [b], c, s) == CountPair(rows, c, s) + (if b.client == c && b.schedule == s then 1 else 0)
  {
    if rows != [] {
      assert (rows + [b])[1..] == rows[1..] + [b];
      CountPairAppend(rows[1..], b, c, s);
    }
  }

  /** Under the uniqueness constraint a pair has at most one row. */
  lemma {:induction false} UniquePairsCount(rows: seq<Booking>, c: UserId, s: ScheduleId)
    requires UniquePairs(rows)
    ensures CountPair(rows, c, s) <= 1
  {
    if rows != [] {
      UniquePairsCount(rows[1..], c, s);
      if rows[0].client == c && rows[0].schedule == s {
        assert forall b :: b in rows[1..] ==> !SamePair(rows[0], b);
        assert !HasPair(rows[1..], c, s);
      }
    }
  }

  /** Deleting the rows of one pair shortens the table by exactly their number. */
  lemma {:induction false} OtherPairsLength(rows: seq<Booking>, c: UserId, s: ScheduleId)
    ensures |Filter(rows, OtherPairs(c, s))| + CountPair(rows, c, s) == |rows|
  {
    if rows != [] {
      OtherPairsLength(rows[1..], c, s);
    }
  }

  /** A delete whose predicate keeps every row leaves the table as it was. */
  lemma {:induction false} FilterKeepsAll(rows: seq<Booking>, keep: Booking -> bool)
    ensures (forall b :: b in rows ==> keep(b)) ==> Filter(rows, keep) == rows
  {
    if rows != [] && forall b :: b in rows ==> keep(b) {
      assert forall b :: b in rows[1..] ==> b in rows;
      FilterKeepsAll(rows[1..], keep);
      assert rows == [rows[0]] + rows[1..];
    }
  }

  /** Running the same delete twice deletes nothing more. */
  lemma {:induction false} FilterIdempotent(rows: seq<Booking>, keep: Booking -> bool)
    ensures Filter(Filter(rows, keep), keep) == Filter(rows, keep)
  {
    if rows != [] {
      FilterIdempotent(rows[1..], keep);
      if keep(rows[0]) {
        var r := [rows[0]] + Filter(rows[1..], keep);
        assert r[0] == rows[0] && r[1..] == Filter(rows[1..], keep);
      }
    }
  }

  // ---------------------------------------------------------------------------
  // Pairwise constraints under insert and delete

  /** Deleting rows keeps every pairwise constraint. */
  lemma {:induction false} PairwiseFilter(rows: seq<Booking>, keep: Booking -> bool, clash: (Booking, Booking) -> bool)
    requires Pairwise(rows, clash)
    ensures Pairwise(Filter(rows, keep), clash)
  {
    if rows != [] {
      PairwiseFilter(rows[1..], keep, clash);
      var rest := Filter(rows[1..], keep);
      if keep(rows[0]) {
        var r := [rows[0]] + rest;
        assert r[1..] == rest;
        forall b | b in r[1..] ensures !clash(r[0], b) {
          assert b in rows[1..];
        }
      }
    }
  }

  /** Appending a row keeps a pairwise constraint when no earlier row clashes with it. */
  lemma {:induction false} PairwiseAppend(rows: seq<Booking>, b: Booking, clash: (Booking, Booking) -> bool)
    requires Pairwise(rows, clash)
    requires forall a :: a in rows ==> !clash(a, b)
    ensures Pairwise(rows + [b], clash)
  {
    if rows == [] {
      assert [] + [b] == [b];
      assert [b][1..] == [];
    } else {
      var r := rows + [b];
      assert r[1..] == rows[1..] + [b];
      PairwiseAppend(rows[1..], b, clash);
      forall x | x in r[1..] ensures !clash(r[0], x) {
        if x != b { assert x in rows[1..]; }
      }
    }
  }

  /** Rows clashing under a weaker relation are a subset: a pairwise constraint
      survives when the relation is narrowed. */
  lemma {:induction false} PairwiseWeaken(rows: seq<Booking>, strong: (Booking, Booking) -> bool, weak: (Booking, Booking) -> bool)
    requires Pairwise(rows, strong)
    requires forall a, b :: weak(a, b) ==> strong(a, b)
    ensures Pairwise(rows, weak)
  {
    if rows != [] {
      PairwiseWeaken(rows[1..], strong, weak);
    }
  }

  /** Inserting a row whose pair is absent keeps the table unique, and inserting
      one whose pair is present breaks it. */
  lemma UniquePairsAppend(rows: seq<Booking>, b: Booking)
    requires UniquePairs(rows)
    ensures UniquePairs(rows + [b]) <==> !HasPair(rows, b.client, b.schedule)
  {
    if !HasPair(rows, b.client, b.schedule) {
      PairwiseAppend(rows, b, SamePair);
    } else {
      CountPairAppend(rows, b, b.client, b.schedule);
      if UniquePairs(rows + [b]) {
        UniquePairsCount(rows + [b], b.client, b.schedule);
        assert false;
      }
    }
  }

  /** A filter that keeps every row of schedule s leaves its count alone. */
  lemma {:induction false} CountForUnchangedOutside(rows: seq<Booking>, keep: Booking -> bool, s: ScheduleId)
    requires forall b: Booking :: b.schedule == s ==> keep(b)
    ensures CountFor(Filter(rows, keep), s) == CountFor(rows, s)
  {
    if rows != [] {
      CountForUnchangedOutside(rows[1..], keep, s);
    }
  }
  // ---------------------------------------------------------------------------
  // Cascades

  /** Keeps every row except those of the pair (c, s). */
  function OtherPairs(c: UserId, s: ScheduleId): Booking -> bool
  {
    (b: Booking) => !(b.client == c && b.schedule == s)
  }

  /** Keeps the rows on schedules outside ss. */
  function OffSchedules(ss: set<ScheduleId>): Booking -> bool
  {
    (b: Booking) => b.schedule !in ss
  }

  /** Keeps the rows of clients other than u. */
  function OffClient(u: UserId): Booking -> bool
  {
    (b: Booking) => b.client != u
  }

  /** The workouts owned by any of the trainer profiles ps (Workout.trainer, CASCADE). */
  function WorkoutsOf(workouts: map<WorkoutId, Workout>, ps: set<ProfileId>): (ws: set<WorkoutId>)
    ensures forall w :: w in ws <==> w in workouts && workouts[w].trainer in ps
  {
    set w | w in workouts && workouts[w].trainer in ps
  }

  /** The schedules of any of the workouts ws (Schedule.workout, CASCADE). */
  function SchedulesOf(schedules: map<ScheduleId, Schedule>, ws: set<WorkoutId>): (ss: set<ScheduleId>)
    ensures forall s :: s in ss <==> s in schedules && schedules[s].workout in ws
  {
    set s | s in schedules && schedules[s].workout in ws
  }

  /** Deleting schedules and bookings keeps every remaining schedule within its capacity. */
  lemma WithinCapacityFilter(schedules: map<ScheduleId, Schedule>, sub: map<ScheduleId, Schedule>,
                             rows: seq<Booking>, keep: Booking -> bool)
    requires WithinCapacity(schedules, rows)
    requires forall s :: s in sub ==> s in schedules && sub[s] == schedules[s]
    ensures WithinCapacity(sub, Filter(rows, keep))
  {
    forall s | s in sub ensures CountFor(Filter(rows, keep), s) <= sub[s].capacity {
      CountForFilter(rows, keep, s);
    }
  }

  /** Deleting schedules and bookings never creates a time conflict. */
  lemma NoTimeConflictsFilter(schedules: map<ScheduleId, Schedule>, sub: map<ScheduleId, Schedule>,
                              rows: seq<Booking>, keep: Booking -> bool)
    requires NoTimeConflicts(schedules, rows)
    requires forall s :: s in sub ==> s in schedules && sub[s] == schedules[s]
    ensures NoTimeConflicts(sub, Filter(rows, keep))
  {
    PairwiseFilter(rows, keep, SameSlot(schedules));
    PairwiseWeaken(Filter(rows, keep), SameSlot(schedules), SameSlot(sub));
  }
}
