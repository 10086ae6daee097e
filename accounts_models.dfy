/** The account tables of accounts/models.py: the user with its role, the two
    one-to-one profiles and the specialization catalogue. */
module AccountsModels {
  import opened Common

  type UserId = nat
  type ProfileId = nat
  type SpecializationId = nat

  /** User.Role: a closed enumeration stored as a text choice. */
  datatype Role = Client | Trainer | Admin

  /** The value a fresh user's role column takes when none is given. */
  const DefaultRole: Role := Client

  /** The text stored in the role column for each choice: one of the three
      lower-case choice values, and client exactly for the default role. */
  function RoleValue(r: Role): (s: string)
    ensures s == "client" || s == "trainer" || s == "admin"
    ensures s == "client" <==> r == DefaultRole
  {
    match r
    case Client => "client"
    case Trainer => "trainer"
    case Admin => "admin"
  }

  /** Reading a role column back: only the three choice values are accepted. */
  function ParseRole(s: string): (r: Option<Role>)
    ensures r.Some? ==> RoleValue(r.value) == s
    ensures r.None? ==> s != "client" && s != "trainer" && s != "admin"
  {
    if s == "client" then Some(Client)
    else if s == "trainer" then Some(Trainer)
    else if s == "admin" then Some(Admin)
    else None
  }

  /** Stored role values round-trip, and distinct roles are stored differently,
      so comparing the column with a literal is the same as comparing roles. */
  lemma RoleValueRoundTrip(r: Role, q: Role)
    ensures ParseRole(RoleValue(r)) == Some(r)
    ensures RoleValue(r) == RoleValue(q) <==> r == q
  {
    match r
    case Client =>
      assert RoleValue(r) == "client";
      assert RoleValue(r)[0] == 'c';
    case Trainer =>
      assert RoleValue(r) == "trainer";
      assert RoleValue(r)[0] == 't';
    case Admin =>
      assert RoleValue(r) == "admin";
      assert RoleValue(r)[0] == 'a';
  }

  /** A user row; `password` stands for the stored credential (hashing is not modelled). */
  datatype User = User(username: string, email: string, firstName: string,
                       lastName: string, password: string, role: Role)

  /** create_user without an explicit role. */
  function NewUser(username: string, password: string): (u: User)
    ensures u.role == Client
    ensures u.username == username && u.password == password
  {
    User(username, "", "", "", password, DefaultRole)
  }

  /** User.__str__: the username. */
  function UserStr(u: User): (s: string)
    ensures s == u.username
  {
    u.username
  }

  /** Under the unique username column a stored user's string form names
      that user and no other. */
  lemma UserStrIdentifies(users: map<UserId, User>, a: UserId, b: UserId)
    requires UniqueUsernames(users)
    requires a in users && b in users
    ensures UserStr(users[a]) == UserStr(users[b]) <==> a == b
  {
  }

  /** A trainer profile: one per user, with an optional specialization. */
  datatype TrainerProfile = TrainerProfile(user: UserId, bio: string,
                                           specialization: Option<SpecializationId>)

  /** A client profile: one per user, carrying the phone number. */
  datatype ClientProfile = ClientProfile(user: UserId, phoneNumber: string)

  datatype Specialization = Specialization(name: string)

  /** TrainerProfile.__str__: the string form of the profile's user. */
  function TrainerProfileStr(users: map<UserId, User>, p: TrainerProfile): (s: string)
    requires p.user in users
    ensures s == UserStr(users[p.user])
  {
    users[p.user].username
  }

  /** The username column is unique. */
  ghost predicate UniqueUsernames(users: map<UserId, User>)
  {
    forall a, b :: a in users && b in users && users[a].username == users[b].username ==> a == b
  }

  /** Specialization.name is unique. */
  ghost predicate UniqueSpecializationNames(specs: map<SpecializationId, Specialization>)
  {
    forall a, b :: a in specs && b in specs && specs[a].name == specs[b].name ==> a == b
  }

  /** The OneToOneField user on TrainerProfile. */
  ghost predicate OneTrainerProfilePerUser(profiles: map<ProfileId, TrainerProfile>)
  {
    forall p, q :: p in profiles && q in profiles && profiles[p].user == profiles[q].user ==> p == q
  }

  /** The OneToOneField user on ClientProfile. */
  ghost predicate OneClientProfilePerUser(profiles: map<ProfileId, ClientProfile>)
  {
    forall p, q :: p in profiles && q in profiles && profiles[p].user == profiles[q].user ==> p == q
  }

  /** The next primary key each account table's own sequence hands out. */
  datatype NextKeys = NextKeys(user: nat, specialization: nat, trainerProfile: nat, clientProfile: nat)

  /** Every key of an account table lies below the next key of that table's sequence. */
  ghost predicate IdsBelow(users: map<UserId, User>, specs: map<SpecializationId, Specialization>,
                           tps: map<ProfileId, TrainerProfile>, cps: map<ProfileId, ClientProfile>, next: NextKeys)
  {
    && (forall u :: u in users ==> u < next.user)
    && (forall s :: s in specs ==> s < next.specialization)
    && (forall p :: p in tps ==> p < next.trainerProfile)
    && (forall p :: p in cps ==> p < next.clientProfile)
  }

  /** The profiles' foreign keys: a profile belongs to a stored user, and a
      trainer's specialization, when set, is a stored one. */
  ghost predicate ProfilesLinked(users: map<UserId, User>, specs: map<SpecializationId, Specialization>,
                                 tps: map<ProfileId, TrainerProfile>, cps: map<ProfileId, ClientProfile>)
  {
    && (forall p :: p in tps ==>
          && tps[p].user in users
          && (tps[p].specialization.Some? ==> tps[p].specialization.value in specs))
    && (forall p :: p in cps ==> cps[p].user in users)
  }

  /** The constraints accounts/models.py declares. */
  ghost predicate AccountsConsistent(users: map<UserId, User>, specs: map<SpecializationId, Specialization>,
                                     tps: map<ProfileId, TrainerProfile>, cps: map<ProfileId, ClientProfile>,
                                     next: NextKeys)
  {
    && IdsBelow(users, specs, tps, cps, next)
    && UniqueUsernames(users)
    && UniqueSpecializationNames(specs)
    && OneTrainerProfilePerUser(tps)
    && OneClientProfilePerUser(cps)
    && ProfilesLinked(users, specs, tps, cps)
  }

  /** Removing a user together with its client profiles keeps the account
      constraints, once no trainer profile refers to the user any more. */
  lemma RemoveUserKeepsAccounts(users: map<UserId, User>, specs: map<SpecializationId, Specialization>,
                                tps: map<ProfileId, TrainerProfile>, cps: map<ProfileId, ClientProfile>,
                                next: NextKeys, u: UserId)
    requires AccountsConsistent(users, specs, tps, cps, next)
    requires forall p :: p in tps ==> tps[p].user != u
    ensures AccountsConsistent(users - {u}, specs, tps, cps - ClientProfilesOf(cps, u), next)
  {
    var cps' := cps - ClientProfilesOf(cps, u);
    assert forall p :: p in cps' ==> cps'[p].user != u;
  }

  /** The trainer profiles of a user (at most one while the one-to-one constraint holds). */
  function TrainerProfilesOf(profiles: map<ProfileId, TrainerProfile>, u: UserId): (ps: set<ProfileId>)
    ensures forall p :: p in ps <==> p in profiles && profiles[p].user == u
  {
    set p | p in profiles && profiles[p].user == u
  }

  /** The client profiles of a user. The two profile tables hold different
      row types, so each has its own lookup; this one mirrors TrainerProfilesOf. */
  function ClientProfilesOf(profiles: map<ProfileId, ClientProfile>, u: UserId): (ps: set<ProfileId>)
    ensures forall p :: p in ps <==> p in profiles && profiles[p].user == u
  {
    set p | p in profiles && profiles[p].user == u
  }

  /** The SET_NULL rule: a profile that pointed at the deleted specialization loses it. */
  function ClearSpecialization(p: TrainerProfile, sp: SpecializationId): (q: TrainerProfile)
    ensures q.user == p.user && q.bio == p.bio
    ensures q.specialization == if p.specialization == Some(sp) then None else p.specialization
  {
    if p.specialization == Some(sp) then p.(specialization := None) else p
  }
}
