# Gym manager: booking admission control and account rules, in Dafny

This project models the core of a Django gym-management application:

- the **booking ledger**: who may reserve a seat in a scheduled workout, and what reserving and cancelling do to the Booking table (gym/views.py);
- the **schema rules** the ledger lives under: foreign keys, one-to-one profiles, unique columns, `unique_together` and the `on_delete` cascades (gym/models.py, accounts/models.py);
- the **account forms and views**: the phone-number check, client registration, the trainer create/update form, and who may open the trainer pages (accounts/forms.py, accounts/views.py).

The database is one class, `Store.Db`. It has a map per table, the Booking table as a sequence of rows, and the next primary key of each account table's own sequence. Its `Valid()` predicate is the schema's constraints. `LedgerInvariants()` holds the two booking rules the schema does not enforce: no schedule over capacity, and no client booked twice at the same start time. The views and forms are methods that change a `Db` in place. Each is proved against a pure function: `GymViews.Admission` for the booking view, `GymModels.Filter` for every delete, and `AccountsForms.TrainerUser` for the trainer save. The lemmas beside them state what the source promises. The clock is an integer `now` passed to each call.

Modules, one per source file: `AccountsModels` (accounts_models.dfy), `GymModels` (gym_models.dfy), `Store` (store.dfy: the ORM's tables and writes), `GymViews` (gym_views.dfy), `AccountsForms` (accounts_forms.dfy), `AccountsViews` (accounts_views.dfy). `Common` holds Option and Result.

Behaviour of the code worth knowing, each stated by a member below:

- The booking view looks the schedule up (404) before it checks the role, so a non-client asking for an unknown schedule gets a 404, not the "only clients" answer.
- Capacity is checked before the existing booking, so a second reservation by the same client is reported as "No available spots" when the first one took the last seat (`GymViews.ReserveTwice`).
- The cancel view answers 404 for an unknown schedule and otherwise always reports success, whether or not a booking was removed.
- The booking view counts and then inserts with no transaction or lock; the model is sequential (see Left out).

## Model

| member | source | states |
|---|---|---|
| AccountsModels.RoleValue | accounts/models.py:8-13 | each role is stored as one of the three lower-case choice values, and the default role is the one stored as "client" |
| AccountsModels.ParseRole | accounts/models.py:8-11 | reading a role text back: exactly "client", "trainer" and "admin" name a role, each the role stored as that text; any other text names none |
| AccountsModels.RoleValueRoundTrip | accounts/models.py:8-11 | each role's stored text reads back as that role, and two roles share stored text only when they are equal, so comparing the column with "client"/"admin" is comparing roles |
| AccountsModels.NewUser | accounts/models.py:13 | a user created without a role gets the default role, client |
| AccountsModels.UserStr | accounts/models.py:15-16 | a user's string form is its username |
| AccountsModels.UserStrIdentifies | accounts/models.py:15-16 | under the unique username column two stored users have the same string form exactly when they are the same user |
| AccountsModels.TrainerProfileStr | accounts/models.py:30-31 | a trainer profile's string form is its user's string form |
| AccountsModels.ClearSpecialization | accounts/models.py:26-28 | SET_NULL: a profile that pointed at the deleted specialization loses it and keeps its user and bio; other profiles are unchanged |
| AccountsModels.RemoveUserKeepsAccounts | accounts/models.py:35-39 | removing a user with its client profiles keeps the account constraints once no trainer profile refers to the user |
| GymModels.Filter | gym/views.py:139-142 | a queryset delete keeps exactly the rows its predicate accepts and never adds rows |
| GymModels.CountFor | gym/views.py:85 | `schedule.bookings.count()`: never more than the table's rows, and zero exactly when no row is on the schedule |
| GymModels.HasPair | gym/views.py:112 | `schedule.bookings.filter(client=user).exists()`: true exactly when deleting the pair's rows (the cancel view's delete) would change the table |
| GymModels.HasBookingAt | gym/views.py:116-119 | the overlap query, evaluated over Booking rows, holds exactly when some schedule starting at that instant holds a booking of the client |
| GymModels.CountPair | gym/models.py:45-46 | a (client, schedule) pair has no rows exactly when no booking of that client on that schedule exists |
| GymModels.CountForAppend | gym/views.py:125-128 | inserting a booking raises its own schedule's count by one and leaves every other count alone |
| GymModels.CountForFilter | gym/models.py:39-41 | deleting booking rows never raises any schedule's count |
| GymModels.CountForFilterOut | gym/models.py:39-41 | after deleting every row of a schedule its count is zero |
| GymModels.CountForUnchangedOutside | gym/views.py:139-142 | a delete that spares a schedule's rows leaves that schedule's count unchanged |
| GymModels.CountPairAppend | gym/models.py:45-46 | inserting a row adds one to its own pair's row count only |
| GymModels.UniquePairsCount | gym/models.py:45-46 | under unique_together a (client, schedule) pair has at most one row |
| GymModels.UniquePairsAppend | gym/models.py:45-46 | inserting a row keeps unique_together exactly when its pair is not already present |
| GymModels.PairwiseFilter | gym/models.py:45-46 | deleting rows keeps uniqueness and the no-time-conflict rule |
| GymModels.PairwiseAppend | gym/views.py:116-128 | appending a row that clashes with no existing row keeps a pairwise rule |
| GymModels.PairwiseWeaken | gym/views.py:116-119 | a pairwise rule that holds for a clash relation still holds for any narrower relation |
| GymModels.OtherPairsLength | gym/views.py:139-142 | the cancel delete shortens the table by exactly the number of rows of that pair |
| GymModels.FilterIdempotent | gym/views.py:139-142 | running the same delete twice removes nothing more |
| GymModels.WithinCapacityFilter | gym/models.py:39-41 | deleting schedules and bookings keeps every remaining schedule within its capacity |
| GymModels.NoTimeConflictsFilter | gym/models.py:39-41 | deleting schedules and bookings creates no time conflict |
| GymModels.BookingsConsistentWithoutUser | gym/models.py:33-36 | once no booking refers to a user, the user row can go without breaking the Booking foreign keys |
| GymModels.BookingsConsistentWithoutSchedules | gym/models.py:39-41 | deleting schedules together with every booking on them keeps the Booking foreign keys and unique_together |
| Store.Db.CreateBooking | gym/models.py:43-46 | the insert succeeds exactly when both foreign keys exist and the pair has no row; it appends one row stamped with the insert time; a duplicate fails and leaves the table unchanged |
| Store.Db.DeleteBookingsWhere | gym/views.py:139-142 | a queryset delete keeps the schema valid and the capacity and conflict rules |
| Store.Db.DeleteSchedules | gym/models.py:39-41 | deleting schedules removes exactly the bookings on them |
| Store.Db.DeleteSchedule | gym/models.py:39-41 | deleting a schedule removes all its bookings and no others; its count drops to zero and every other count is unchanged |
| Store.Db.DeleteWorkouts | gym/models.py:21-23 | deleting workouts removes their schedules and those schedules' bookings |
| Store.Db.DeleteWorkout | gym/models.py:21-23 | deleting a workout removes exactly its schedules, which are otherwise unchanged, and exactly the bookings on them; the rest of the Booking table keeps its order |
| Store.Db.DeleteTrainerProfiles | gym/models.py:10-14 | deleting trainer profiles removes their workouts and everything below them |
| Store.Db.DeleteTrainerProfile | gym/models.py:10-14 | deleting a trainer profile removes exactly its workouts, their schedules and the bookings on those schedules; every surviving row keeps its values |
| Store.Db.DeleteUser | gym/models.py:33-36 | deleting a user removes the user, its profiles, every booking it holds, and (through its trainer profile) its workouts, their schedules and their bookings; every other workout, schedule and booking stays as it was, and no key sequence moves |
| Store.Db.InsertUser | accounts/forms.py:169-170 | a new user row gets the next key of the user sequence, which no stored user has; only that sequence advances |
| Store.Db.UpdateUser | accounts/forms.py:169-170 | saving a stored user overwrites only its own row |
| Store.Db.CreateClientProfile | accounts/forms.py:71-73 | one client profile is added, under the next key of its own sequence, for a user that had none |
| Store.Db.GetOrCreateTrainerProfile | accounts/forms.py:172-178 | a user's existing profile is returned untouched, otherwise one profile is made from the defaults |
| Store.Db.SaveTrainerProfile | accounts/forms.py:180-183 | only the profile's bio and specialization change |
| Store.Db.CreateSpecialization | accounts/models.py:47 | a specialization insert fails exactly when the name is already in use |
| Store.Db.DeleteSpecialization | accounts/models.py:26-28 | deleting a specialization keeps every trainer profile and nulls the references to it |
| GymViews.Admission | gym/views.py:96-128 | the guards run in order (lookup, role, started, full, already booked, same start time) and the first failing one decides; a booking is admitted exactly when the role is client, start_time > now, count < capacity, the pair is absent and the client holds no booking at an equal start_time |
| GymViews.ScheduleDetail | gym/views.py:76-93 | available_spots = capacity - count, is_full iff available_spots <= 0, can_book iff start_time > now, is_booked iff the viewer holds the pair, participants shown exactly to admins and trainers and exactly the schedule's rows; spots are never negative while the capacity rule holds |
| GymViews.DetailAgreesWithAdmission | gym/views.py:85-87 | the page's can_book / is_full agree with the booking view: no one is admitted to a started or full slot, and an unbooked client without a same-time booking is admitted exactly when the page shows the slot bookable and not full |
| GymViews.AdmissionKeepsInvariants | gym/views.py:108-128 | an admitted booking keeps unique_together, every schedule's capacity bound and the no-time-conflict rule |
| GymViews.ReserveTwice | gym/views.py:108-114 | a second request by the same client for the same slot adds no row (it reports full if the first took the last seat, already booked otherwise), and the pair keeps exactly one row |
| GymViews.ReleaseEffect | gym/views.py:139-142 | cancelling removes the pair's row, leaves every other row and every other schedule's count unchanged, shortens a unique table by one when the row existed, and is idempotent |
| GymViews.Reserve | gym/views.py:96-131 | the booking view's outcome is Admission on the state before the call; only an admission appends the one row (client, schedule, now), every rejection leaves the table unchanged, and the schema and ledger rules are preserved |
| GymViews.Release | gym/views.py:135-145 | the cancel view answers 404 for an unknown schedule and otherwise deletes the pair's rows and reports success, with no role or time check, preserving the schema and ledger rules |
| AccountsForms.MatchDigits | accounts/forms.py:51-52 | `\d{n}` consumes exactly n leading ASCII digits and leaves the rest of the text |
| AccountsForms.MatchesPhonePattern | accounts/forms.py:51-52 | the pattern matches exactly "+380" followed by nine digits, 13 characters in all |
| AccountsForms.CleanPhoneNumber | accounts/forms.py:48-57 | a phone number passes unchanged exactly when it is +380 and nine digits; otherwise the field errs |
| AccountsForms.PhoneExamples | accounts/tests/test_forms.py:13-54 | the valid number is accepted; the one without the prefix and the one a digit short are rejected |
| AccountsForms.SaveClientRegistration | accounts/forms.py:64-75 | the saved user's role is client whatever was submitted; with commit the user and exactly one client profile with the cleaned phone number, under a key no profile had, are written, the user and client-profile sequences advance by one, and nothing else changes; without commit nothing is written |
| AccountsForms.SetupFields | accounts/forms.py:111-129 | in update mode username, password1 and password2 become optional and the trainer profile's bio and specialization become initial values; in create mode the base requirements stand |
| AccountsForms.CleanUsername | accounts/forms.py:131-137 | on update the cleaned username is the stored one; on creation it is the submitted one |
| AccountsForms.UsernameFrozenOnUpdate | accounts/forms.py:131-137 | on update the cleaned username is the stored one, whatever was submitted |
| AccountsForms.CleanPassword2 | accounts/forms.py:139-149 | the confirmation errs exactly when both passwords are non-empty and differ; otherwise it returns password2 |
| AccountsForms.CleanPassword2IgnoresMode | accounts/forms.py:143-144 | the update-mode shortcut gives the same answer as the general rule |
| AccountsForms.TrainerFormErrors | accounts/forms.py:118-149 | the form is valid exactly when no required field is blank and the passwords do not mismatch |
| AccountsForms.CleanTrainerForm | accounts/forms.py:131-149 | a valid form's cleaned data is its input with the username frozen on update; an invalid one reports its field errors |
| AccountsForms.TrainerFormModes | accounts/forms.py:118-149 | an update with blank username and passwords is valid, a creation with a blank password is not, and an update with a new password and a blank confirmation is valid |
| AccountsForms.TrainerUser | accounts/forms.py:158-167 | an update without password1 keeps the stored password and changes only email, first and last name; a given password replaces the stored one; a new user gets role trainer and an existing user keeps its role |
| AccountsForms.SaveProfileOf | accounts/forms.py:172-183 | get_or_create then overwrite: the trainer-profile table gains or changes exactly one entry, the user's profile with the given bio and specialization, under the user's old profile key or, when the user had none, under the next key of the sequence, which then advances |
| AccountsForms.SaveTrainer | accounts/forms.py:151-185 | with commit the user row is inserted under the next user key or overwritten (username frozen on update), and the trainer-profile table changes in exactly one entry, the user's only profile carrying the cleaned bio and specialization, which keeps its key when the user had one; no other table changes, and only the sequences that handed out a key advance; without commit nothing is written |
| AccountsViews.CanCreateTrainer | accounts/views.py:46-48 | creating a trainer is permitted exactly to admins |
| AccountsViews.CanUpdateTrainer | accounts/views.py:68-76 | an admin may update any profile, a trainer exactly the profile whose user they are (404 for a missing profile), a client never |
| AccountsViews.UpdateTarget | accounts/views.py:78-80 | the update page edits the profile's user, and 404s for a missing profile |
| AccountsViews.TrainerEditsOnlySelf | accounts/views.py:73-80 | a trainer who is granted the update page edits their own user row |
| AccountsViews.PostTrainerCreate | accounts/views.py:38-58 | a non-admin is redirected; an admin's invalid form reports its field errors and a taken username is refused; the request saves exactly when an admin submits a valid form with a free username, and then the users table gains the trainer built from the form under a fresh key, the trainer-profile table gains its one profile with the submitted bio and specialization, and no other table changes; every unsaved outcome leaves the database unchanged |
| AccountsViews.PostTrainerUpdate | accounts/views.py:61-96 | a trainer asking for a missing profile gets 404 and a denied request is redirected; a granted request for a missing profile gets 404; an invalid form reports its errors; the request saves exactly when it is granted, the profile exists and the update form is valid, and then only the profile's user row (username and role kept, password kept when none is given) and that profile, under the same key, with the submitted bio and specialization, change; every unsaved outcome leaves the database unchanged |

## Left out

- Concurrency: the count-then-insert of the booking view runs with no transaction or lock. The model is sequential, so the capacity rule is proved to be kept by each call. A race between two requests cannot be expressed.
- Clock and datetimes: `timezone.now()` and DateTimeField values are integers passed in. A booking's `created_at` is the `now` of the inserting call.
- Django plumbing: messages, redirects beyond the outcome values, list and detail querysets, `select_related`/`prefetch_related`, pagination, and the home page's session visit counter (gym/views.py:13-74). The gym/views.py `ClientRegistrationView` (gym/views.py:149-157) depends on the stale gym/forms.py and is not modelled. The accounts `ClientRegistrationView` only adds a success message.
- Login: every view method takes a logged-in user (`requires` the user's row exists). An anonymous viewer of the schedule page would make the source raise; that case is not modelled.
- Password hashing, password-strength validators and other user-creation-form internals: a stored password is the raw text.
- AccountsForms.CreationRequirements: the base form's requirement of username, password1 and password2 on creation is taken as given, not derived from the framework.
- AccountsViews.PostTrainerCreate: the model form's unique-username check is one exact-match outcome. The framework's own error texts and other field validation (email format, name lengths, and the specialization choice field's rejection of an id that is not a stored specialization) are not modelled; the view methods require a submitted specialization to be a stored one.
- AccountsForms.SaveClientRegistration: requires a valid form with a free username. The base form's case-insensitive username check and its password confirmation are framework internals.
- AccountsForms.MatchesPhonePattern: accepts only ASCII digits on an already-stripped value. Python's `\d` also accepts other Unicode decimal digits. The form field strips surrounding whitespace before the check.
- AccountsForms.TrainerFormErrors: reports the field errors as one set. The framework collects them per field.
- String forms of Workout, Schedule, Booking, ClientProfile and Specialization: name and datetime formatting and `get_full_name` are not modelled. User and TrainerProfile string forms are.
- Role texts outside the three choices: the choices are checked only by form and model validation, not by the column or by `create_user(role=...)`, so such a row can exist in the database. `Role` cannot hold one. The views would treat it as neither client, trainer nor admin: the booking view refuses it as not a client and both trainer pages deny it.
- `limit_choices_to` on Booking.client only restricts form choices and is not a database constraint. The booking view's role check covers the same ground.
- Creating and editing workouts and schedules (admin screens and the absent schedule forms), the schedule time guard, and the future-only schedule list are not in the source's views.
- gym/management/commands/load_demo_data.py (demo seeding), gym/forms.py (a stale duplicate of the registration form), urls.py, admin.py and gym/templatetags/gym_extras.py (thin wrappers over `int()` and query-string encoding).
