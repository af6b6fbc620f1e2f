/**
  Accounts, roles, household profiles and invites (server/src/app.ts). Tables are maps. A handler
  runs without interruption between awaits, so each is one step, and the ones that hash a password
  are two: the part before the await leaves a Pending record holding what the handler remembers,
  and Commit is the write transaction that follows.
 */
module Accounts {
  import opened FiniteSets
  import opened Wrappers

  const MAX_LIVE_PROFILES: nat := 12

  datatype Role = Owner | Admin | Member | Restricted

  /** How an account came to be; the source keeps no such column. */
  datatype Origin = BySetup | ByInvite(invite: nat) | ByAdministrator

  datatype User = User(username: string, role: Role, disabled: bool, origin: Origin)
  datatype Profile = Profile(owner: nat, isDefault: bool, disabled: bool, isKid: bool)
  datatype Invite = Invite(role: Role, maxUses: nat, used: nat, expires: int, revoked: bool)

  /** A handler waiting for its password hash. */
  datatype Pending =
    | SettingUp(username: string)
    | Accepting(invite: nat, role: Role, username: string)
    | Creating(actorProfile: nat, newRole: Role, username: string)
    | Adding(actorProfile: nat, user: nat)

  datatype State = State(users: map<nat, User>, profiles: map<nat, Profile>,
                         invites: map<nat, Invite>, pending: multiset<Pending>)

  datatype Reply = Done | Awaiting | Refused(status: nat)

  datatype Outcome = Outcome(state: State, reply: Reply)

  /** What a session row points at; both may be stale. */
  datatype Session = Session(user: nat, active: Option<nat>)

  datatype Auth = Auth(user: nat, role: Role, profile: nat, isKid: bool)

  datatype Request =
    | BeginSetup(username: string)
    | BeginAccept(invite: nat, username: string, now: int)
    | BeginCreate(session: Session, role: Role, username: string)
    | BeginAdd(session: Session)
    | Commit(work: Pending, userId: nat, profileId: nat, now: int)
    | SetDisabled(session: Session, profile: nat, disabled: bool)
    | ChangeRole(session: Session, profile: nat, role: Role)
    | Disable(session: Session, profile: nat)
    | Remove(session: Session, profile: nat)
    | SetKid(session: Session, profile: nat, isKid: bool)
    | Mint(session: Session, role: Role, maxUses: nat, expires: int, inviteId: nat)
    | Revoke(session: Session, invite: nat)

  // ---------------------------------------------------------------------------
  // Reading

  function Fold(c: char): char {
    if 'A' <= c <= 'Z' then c - 'A' + 'a' else c
  }

  /** Equality under SQLite's NOCASE collation. */
  predicate SameName(a: string, b: string) {
    |a| == |b| && forall i :: 0 <= i < |a| ==> Fold(a[i]) == Fold(b[i])
  }

  predicate IsDefaultOf(profiles: map<nat, Profile>, p: nat, user: nat) {
    p in profiles && profiles[p].owner == user && profiles[p].isDefault
  }

  predicate IsLiveDefaultOf(profiles: map<nat, Profile>, p: nat, user: nat) {
    IsDefaultOf(profiles, p, user) && !profiles[p].disabled
  }

  predicate OwnedLive(profiles: map<nat, Profile>, p: nat, user: nat) {
    p in profiles && profiles[p].owner == user && !profiles[p].disabled
  }

  ghost predicate HasLiveDefault(profiles: map<nat, Profile>, user: nat) {
    exists p :: IsLiveDefaultOf(profiles, p, user)
  }

  ghost function ReadAuth(s: State, session: Session): Option<Auth> {
    var u := session.user;
    if u in s.users && !s.users[u].disabled && HasLiveDefault(s.profiles, u) then
      var def :| IsLiveDefaultOf(s.profiles, def, u);
      var active := if session.active.Some? && OwnedLive(s.profiles, session.active.value, u)
                    then session.active.value else def;
      Some(Auth(u, s.users[u].role, active, s.profiles[active].isKid))
    else None
  }

  predicate IsAdmin(role: Role) { role.Owner? || role.Admin? }

  /** The status requireAuth and requireAdmin refuse with, if they do. */
  function AdminBar(auth: Option<Auth>): Option<nat> {
    if auth.None? then Some(401)
    else if auth.value.isKid || !IsAdmin(auth.value.role) then Some(403) else None
  }

  function RestrictedBar(auth: Option<Auth>): Option<nat> {
    if auth.None? then Some(401)
    else if auth.value.isKid || auth.value.role.Restricted? then Some(403) else None
  }

  // ---------------------------------------------------------------------------
  // Writing

  predicate NameTaken(users: map<nat, User>, username: string) {
    exists u :: u in users && SameName(users[u].username, username)
  }

  /** createUserAndProfile inside its transaction; a taken id breaks the primary key. */
  function CreateUserAndProfile(s: State, userId: nat, profileId: nat, username: string, role: Role,
                                origin: Origin): Outcome
  {
    if NameTaken(s.users, username) then Outcome(s, Refused(409))
    else if userId in s.users || profileId in s.profiles then Outcome(s, Refused(500))
    else Outcome(s.(users := s.users[userId := User(username, role, false, origin)],
                    profiles := s.profiles[profileId := Profile(userId, true, false, false)]), Done)
  }

  function Wait(s: State, p: Pending): Outcome {
    Outcome(s.(pending := s.pending + multiset{p}), Awaiting)
  }

  predicate Usable(i: Invite, now: int) {
    !i.revoked && i.used < i.maxUses && now < i.expires
  }

  function AcceptInvite(s: State, invite: nat, role: Role, username: string, userId: nat, profileId: nat,
                        now: int): Outcome
  {
    if invite !in s.invites || !Usable(s.invites[invite], now) then Outcome(s, Refused(410))
    else
      var made := CreateUserAndProfile(s, userId, profileId, username, role, ByInvite(invite));
      if made.reply != Done then made
      else
        var i := s.invites[invite];
        Outcome(made.state.(invites := s.invites[invite := i.(used := i.used + 1)]), Done)
  }

  function LiveProfiles(profiles: map<nat, Profile>, user: nat): set<nat> {
    set p | p in profiles && OwnedLive(profiles, p, user)
  }

  function AddProfile(s: State, actorProfile: nat, user: nat, profileId: nat): Outcome {
    if |LiveProfiles(s.profiles, user)| >= MAX_LIVE_PROFILES then Outcome(s, Refused(409))
    else if profileId in s.profiles || actorProfile !in s.profiles then Outcome(s, Refused(500))
    else Outcome(s.(profiles := s.profiles[profileId := Profile(user, false, false, false)]), Done)
  }

  /** The write transaction of a handler that waited; a refused one rolls back. */
  function CommitWork(s: State, work: Pending, userId: nat, profileId: nat, now: int): Outcome {
    match work
    case SettingUp(username) =>
      if s.users != map[] then Outcome(s, Refused(409))
      else CreateUserAndProfile(s, userId, profileId, username, Owner, BySetup)
    case Accepting(invite, role, username) =>
      AcceptInvite(s, invite, role, username, userId, profileId, now)
    case Creating(actorProfile, role, username) =>
      // The audit row refers to the actor's profile, which may be gone by now.
      if actorProfile !in s.profiles then
        Outcome(s, Refused(if NameTaken(s.users, username) then 409 else 500))
      else CreateUserAndProfile(s, userId, profileId, username, role, ByAdministrator)
    case Adding(actorProfile, user) => AddProfile(s, actorProfile, user, profileId)
  }

  function SetUserDisabled(s: State, p: nat, disabled: bool): State
    requires p in s.profiles
  {
    var u := s.profiles[p].owner;
    var profiles := s.profiles[p := s.profiles[p].(disabled := disabled)];
    if u in s.users then
      s.(profiles := profiles, users := s.users[u := s.users[u].(disabled := disabled)])
    else s.(profiles := profiles)
  }

  /** The row the management routes look up: a profile joined with its user. */
  predicate Joined(s: State, p: nat) {
    p in s.profiles && s.profiles[p].owner in s.users
  }

  function RoleOf(s: State, p: nat): Role
    requires Joined(s, p)
  {
    s.users[s.profiles[p].owner].role
  }

  ghost function SetDisabledStep(s: State, session: Session, p: nat, disabled: bool): Outcome {
    var auth := ReadAuth(s, session);
    if RestrictedBar(auth).Some? then Outcome(s, Refused(RestrictedBar(auth).value))
    else if auth.value.profile != p && !IsAdmin(auth.value.role) then Outcome(s, Refused(403))
    else if !Joined(s, p) then Outcome(s, Refused(404))
    else if AdminBar(auth).Some? then Outcome(s, Refused(AdminBar(auth).value))
    else if RoleOf(s, p).Owner? then Outcome(s, Refused(400))
    else Outcome(SetUserDisabled(s, p, disabled), Done)
  }

  ghost function DisableStep(s: State, session: Session, p: nat): Outcome {
    var auth := ReadAuth(s, session);
    if AdminBar(auth).Some? then Outcome(s, Refused(AdminBar(auth).value))
    else if !Joined(s, p) then Outcome(s, Refused(404))
    else if RoleOf(s, p).Owner? then Outcome(s, Refused(400))
    else Outcome(SetUserDisabled(s, p, true), Done)
  }

  function EnabledOwners(users: map<nat, User>): set<nat> {
    set u | u in users && users[u].role.Owner? && !users[u].disabled
  }

  ghost function ChangeRoleStep(s: State, session: Session, p: nat, role: Role): Outcome {
    var auth := ReadAuth(s, session);
    if AdminBar(auth).Some? then Outcome(s, Refused(AdminBar(auth).value))
    else if !Joined(s, p) then Outcome(s, Refused(404))
    else if !auth.value.role.Owner? && (IsAdmin(RoleOf(s, p)) || IsAdmin(role)) then Outcome(s, Refused(403))
    else if s.profiles[p].owner == auth.value.user then Outcome(s, Refused(400))
    else if RoleOf(s, p).Owner? && !role.Owner? && |EnabledOwners(s.users)| <= 1 then Outcome(s, Refused(400))
    else
      var u := s.profiles[p].owner;
      Outcome(s.(users := s.users[u := s.users[u].(role := role)]), Done)
  }

  ghost function RemoveStep(s: State, session: Session, p: nat): Outcome {
    var auth := ReadAuth(s, session);
    if RestrictedBar(auth).Some? then Outcome(s, Refused(RestrictedBar(auth).value))
    else if !OwnedLive(s.profiles, p, auth.value.user) then Outcome(s, Refused(404))
    else if s.profiles[p].isDefault then Outcome(s, Refused(400))
    else if |LiveProfiles(s.profiles, auth.value.user)| <= 1 then Outcome(s, Refused(400))
    else Outcome(s.(profiles := s.profiles - {p}), Done)
  }

  ghost function SetKidStep(s: State, session: Session, p: nat, isKid: bool): Outcome {
    var auth := ReadAuth(s, session);
    if AdminBar(auth).Some? then Outcome(s, Refused(AdminBar(auth).value))
    else if !OwnedLive(s.profiles, p, auth.value.user) then Outcome(s, Refused(404))
    else Outcome(s.(profiles := s.profiles[p := s.profiles[p].(isKid := isKid)]), Done)
  }

  ghost function MintStep(s: State, session: Session, role: Role, maxUses: nat, expires: int, id: nat): Outcome {
    var auth := ReadAuth(s, session);
    if AdminBar(auth).Some? then Outcome(s, Refused(AdminBar(auth).value))
    else if role.Owner? || !(1 <= maxUses <= 100) then Outcome(s, Refused(400))
    else if !auth.value.role.Owner? && role.Admin? then Outcome(s, Refused(403))
    else if id in s.invites then Outcome(s, Refused(500))
    else Outcome(s.(invites := s.invites[id := Invite(role, maxUses, 0, expires, false)]), Done)
  }

  ghost function RevokeStep(s: State, session: Session, id: nat): Outcome {
    var auth := ReadAuth(s, session);
    if AdminBar(auth).Some? then Outcome(s, Refused(AdminBar(auth).value))
    else if id !in s.invites then Outcome(s, Done)
    else Outcome(s.(invites := s.invites[id := s.invites[id].(revoked := true)]), Done)
  }

  function BeginAcceptStep(s: State, id: nat, username: string, now: int): Outcome {
    if s.users == map[] then Outcome(s, Refused(409))
    else if id !in s.invites then Outcome(s, Refused(404))
    else if !Usable(s.invites[id], now) then Outcome(s, Refused(410))
    else Wait(s, Accepting(id, s.invites[id].role, username))
  }

  ghost function BeginCreateStep(s: State, session: Session, role: Role, username: string): Outcome {
    var auth := ReadAuth(s, session);
    if AdminBar(auth).Some? then Outcome(s, Refused(AdminBar(auth).value))
    else if role.Owner? then Outcome(s, Refused(400))
    else if !auth.value.role.Owner? && role.Admin? then Outcome(s, Refused(403))
    else Wait(s, Creating(auth.value.profile, role, username))
  }

  ghost function BeginAddStep(s: State, session: Session): Outcome {
    var auth := ReadAuth(s, session);
    if RestrictedBar(auth).Some? then Outcome(s, Refused(RestrictedBar(auth).value))
    else Wait(s, Adding(auth.value.profile, auth.value.user))
  }

  ghost function Serve(s: State, r: Request): Outcome {
    match r
    case BeginSetup(username) =>
      if s.users != map[] then Outcome(s, Refused(409)) else Wait(s, SettingUp(username))
    case BeginAccept(invite, username, now) => BeginAcceptStep(s, invite, username, now)
    case BeginCreate(session, role, username) => BeginCreateStep(s, session, role, username)
    case BeginAdd(session) => BeginAddStep(s, session)
    case Commit(work, userId, profileId, now) =>
      if work !in s.pending then Outcome(s, Refused(500))
      else CommitWork(s.(pending := s.pending - multiset{work}), work, userId, profileId, now)
    case SetDisabled(session, profile, disabled) => SetDisabledStep(s, session, profile, disabled)
    case ChangeRole(session, profile, role) => ChangeRoleStep(s, session, profile, role)
    case Disable(session, profile) => DisableStep(s, session, profile)
    case Remove(session, profile) => RemoveStep(s, session, profile)
    case SetKid(session, profile, isKid) => SetKidStep(s, session, profile, isKid)
    case Mint(session, role, maxUses, expires, id) => MintStep(s, session, role, maxUses, expires, id)
    case Revoke(session, invite) => RevokeStep(s, session, invite)
  }

  const INITIAL: State := State(map[], map[], map[], multiset{})

  ghost function Run(s: State, trace: seq<Request>): State
    decreases |trace|
  {
    if trace == [] then s else Run(Serve(s, trace[0]).state, trace[1..])
  }

  // ---------------------------------------------------------------------------
  // What every run keeps

  ghost predicate HasDefault(profiles: map<nat, Profile>, user: nat) {
    exists p :: IsDefaultOf(profiles, p, user)
  }

  /** Every profile belongs to an account; every account has a default profile, and only one. */
  ghost predicate ProfilesOk(users: map<nat, User>, profiles: map<nat, Profile>) {
    && (forall p :: p in profiles ==> profiles[p].owner in users)
    && (forall u :: u in users ==> HasDefault(profiles, u))
    && (forall p, q :: p in profiles && q in profiles && profiles[p].isDefault && profiles[q].isDefault ==>
          profiles[p].owner == profiles[q].owner ==> p == q)
  }

  ghost predicate IsLiveOwner(users: map<nat, User>, profiles: map<nat, Profile>, u: nat) {
    u in users && users[u].role.Owner? && !users[u].disabled && HasLiveDefault(profiles, u)
  }

  ghost predicate OwnerOk(users: map<nat, User>, profiles: map<nat, Profile>) {
    users != map[] ==> exists u :: IsLiveOwner(users, profiles, u)
  }

  function Through(users: map<nat, User>, origin: Origin): set<nat> {
    set u | u in users && users[u].origin == origin
  }

  ghost predicate InvitesOk(users: map<nat, User>, invites: map<nat, Invite>) {
    && (forall i :: i in invites ==>
          |Through(users, ByInvite(i))| == invites[i].used <= invites[i].maxUses && !invites[i].role.Owner?)
    && (forall u :: u in users && users[u].origin.ByInvite? ==> users[u].origin.invite in invites)
  }

  ghost predicate SetupOk(users: map<nat, User>) {
    |Through(users, BySetup)| == if users == map[] then 0 else 1
  }

  ghost predicate NamesOk(users: map<nat, User>) {
    forall u, v :: u in users && v in users && SameName(users[u].username, users[v].username) ==> u == v
  }

  /** What a waiting handler may rely on. */
  predicate PendingFits(users: map<nat, User>, invites: map<nat, Invite>, p: Pending) {
    match p
    case SettingUp(_) => true
    case Accepting(invite, role, _) => users != map[] && invite in invites && role == invites[invite].role
    case Creating(_, role, _) => users != map[] && !role.Owner?
    case Adding(_, user) => user in users
  }

  ghost predicate PendingOk(users: map<nat, User>, invites: map<nat, Invite>, pending: multiset<Pending>) {
    forall p :: p in pending ==> PendingFits(users, invites, p)
  }

  ghost predicate Inv(s: State) {
    && ProfilesOk(s.users, s.profiles)
    && OwnerOk(s.users, s.profiles)
    && InvitesOk(s.users, s.invites)
    && SetupOk(s.users)
    && NamesOk(s.users)
    && PendingOk(s.users, s.invites, s.pending)
  }

  // --- one lemma per kind of write ---

  lemma ThroughInsert(users: map<nat, User>, id: nat, user: User, origin: Origin)
    requires id !in users
    ensures |Through(users[id := user], origin)|
         == |Through(users, origin)| + if user.origin == origin then 1 else 0
  {
    var after := Through(users[id := user], origin);
    if user.origin == origin {
      assert after == Through(users, origin) + {id};
    } else {
      assert after == Through(users, origin);
    }
  }

  /** Rewriting a row without its origin or name. */
  lemma ThroughUpdate(users: map<nat, User>, id: nat, user: User, origin: Origin)
    requires id in users && user.origin == users[id].origin
    ensures Through(users[id := user], origin) == Through(users, origin)
  {
  }

  lemma InsertKeepsProfiles(users: map<nat, User>, profiles: map<nat, Profile>, id: nat, p: nat, user: User)
    requires ProfilesOk(users, profiles) && id !in users && p !in profiles
    ensures ProfilesOk(users[id := user], profiles[p := Profile(id, true, false, false)])
  {
    var after := profiles[p := Profile(id, true, false, false)];
    assert IsDefaultOf(after, p, id);
    forall u | u in users ensures HasDefault(after, u) {
      var q :| IsDefaultOf(profiles, q, u);
      assert IsDefaultOf(after, q, u);
    }
  }

  lemma InsertKeepsOwner(users: map<nat, User>, profiles: map<nat, Profile>, id: nat, p: nat, user: User)
    requires OwnerOk(users, profiles) && id !in users && p !in profiles && !user.disabled
    requires users == map[] ==> user.role.Owner?
    ensures OwnerOk(users[id := user], profiles[p := Profile(id, true, false, false)])
  {
    var after := profiles[p := Profile(id, true, false, false)];
    assert IsLiveDefaultOf(after, p, id);
    if users == map[] {
      assert IsLiveOwner(users[id := user], after, id);
    } else {
      var u :| IsLiveOwner(users, profiles, u);
      var q :| IsLiveDefaultOf(profiles, q, u);
      assert IsLiveDefaultOf(after, q, u);
      assert IsLiveOwner(users[id := user], after, u);
    }
  }

  lemma SameNameSymmetric(a: string, b: string)
    ensures SameName(a, b) == SameName(b, a)
  {
  }

  lemma InsertKeepsNames(users: map<nat, User>, id: nat, user: User)
    requires NamesOk(users) && id !in users
    requires !NameTaken(users, user.username)
    ensures NamesOk(users[id := user])
  {
    var after := users[id := user];
    forall u, v | u in after && v in after && u != v
      ensures !SameName(after[u].username, after[v].username)
    {
      SameNameSymmetric(after[u].username, after[v].username);
    }
  }

  lemma InsertKeepsPending(users: map<nat, User>, id: nat, user: User, invites: map<nat, Invite>,
                           pending: multiset<Pending>)
    requires PendingOk(users, invites, pending)
    ensures PendingOk(users[id := user], invites, pending)
  {
    assert id in users[id := user];
    forall p | p in pending ensures PendingFits(users[id := user], invites, p) {
      assert PendingFits(users, invites, p);
    }
  }

  lemma InsertKeepsInvites(users: map<nat, User>, id: nat, user: User, invites: map<nat, Invite>)
    requires InvitesOk(users, invites) && id !in users && !user.origin.ByInvite?
    ensures InvitesOk(users[id := user], invites)
  {
    forall i | i in invites
      ensures |Through(users[id := user], ByInvite(i))| == invites[i].used
    {
      ThroughInsert(users, id, user, ByInvite(i));
    }
  }

  /** The account and the count go up together. */
  lemma AcceptKeepsInvites(users: map<nat, User>, id: nat, user: User, invites: map<nat, Invite>, j: nat,
                           bumped: Invite)
    requires InvitesOk(users, invites) && id !in users && user.origin == ByInvite(j) && j in invites
    requires invites[j].used < invites[j].maxUses && bumped == invites[j].(used := invites[j].used + 1)
    ensures InvitesOk(users[id := user], invites[j := bumped])
  {
    forall i | i in invites
      ensures |Through(users[id := user], ByInvite(i))| == invites[j := bumped][i].used
    {
      ThroughInsert(users, id, user, ByInvite(i));
    }
  }

  predicate Fresh(users: map<nat, User>, profiles: map<nat, Profile>, userId: nat, profileId: nat, username: string) {
    userId !in users && profileId !in profiles && !NameTaken(users, username)
  }

  lemma InsertKeepsTables(users: map<nat, User>, profiles: map<nat, Profile>, userId: nat, profileId: nat, user: User)
    requires ProfilesOk(users, profiles) && OwnerOk(users, profiles) && SetupOk(users) && NamesOk(users)
    requires Fresh(users, profiles, userId, profileId, user.username) && !user.disabled
    requires users == map[] ==> user.role.Owner?
    requires user.origin.BySetup? <==> users == map[]
    ensures ProfilesOk(users[userId := user], profiles[profileId := Profile(userId, true, false, false)])
    ensures OwnerOk(users[userId := user], profiles[profileId := Profile(userId, true, false, false)])
    ensures SetupOk(users[userId := user]) && NamesOk(users[userId := user])
  {
    InsertKeepsProfiles(users, profiles, userId, profileId, user);
    InsertKeepsOwner(users, profiles, userId, profileId, user);
    InsertKeepsNames(users, userId, user);
    ThroughInsert(users, userId, user, BySetup);
    assert userId in users[userId := user];
  }

  lemma CreateKeepsInv(s: State, userId: nat, profileId: nat, username: string, role: Role, origin: Origin)
    requires Inv(s) && !origin.ByInvite?
    requires s.users == map[] ==> role.Owner?
    requires origin.BySetup? <==> s.users == map[]
    ensures Inv(CreateUserAndProfile(s, userId, profileId, username, role, origin).state)
  {
    if Fresh(s.users, s.profiles, userId, profileId, username) {
      var user := User(username, role, false, origin);
      InsertKeepsTables(s.users, s.profiles, userId, profileId, user);
      InsertKeepsInvites(s.users, userId, user, s.invites);
      InsertKeepsPending(s.users, userId, user, s.invites, s.pending);
    }
  }

  lemma PendingKeepsOnBump(users: map<nat, User>, invites: map<nat, Invite>, pending: multiset<Pending>, j: nat,
                           i: Invite)
    requires PendingOk(users, invites, pending)
    requires j in invites ==> i.role == invites[j].role
    ensures PendingOk(users, invites[j := i], pending)
  {
    forall p | p in pending ensures PendingFits(users, invites[j := i], p) {
      assert PendingFits(users, invites, p);
    }
  }

  lemma AcceptedKeepsInv(s: State, invite: nat, bumped: Invite, userId: nat, profileId: nat, user: User)
    requires Inv(s) && s.users != map[] && invite in s.invites && s.invites[invite].used < s.invites[invite].maxUses
    requires bumped == s.invites[invite].(used := s.invites[invite].used + 1)
    requires Fresh(s.users, s.profiles, userId, profileId, user.username)
    requires !user.disabled && user.origin == ByInvite(invite)
    ensures Inv(State(s.users[userId := user], s.profiles[profileId := Profile(userId, true, false, false)],
                      s.invites[invite := bumped], s.pending))
  {
    InsertKeepsTables(s.users, s.profiles, userId, profileId, user);
    AcceptKeepsInvites(s.users, userId, user, s.invites, invite, bumped);
    InsertKeepsPending(s.users, userId, user, s.invites, s.pending);
    PendingKeepsOnBump(s.users[userId := user], s.invites, s.pending, invite, bumped);
  }

  predicate Acceptable(s: State, invite: nat, userId: nat, profileId: nat, username: string, now: int) {
    && invite in s.invites && Usable(s.invites[invite], now)
    && Fresh(s.users, s.profiles, userId, profileId, username)
  }

  lemma AcceptShape(s: State, invite: nat, role: Role, username: string, userId: nat, profileId: nat, now: int)
    ensures var t := AcceptInvite(s, invite, role, username, userId, profileId, now).state;
            if Acceptable(s, invite, userId, profileId, username, now) then
              t == State(s.users[userId := User(username, role, false, ByInvite(invite))],
                         s.profiles[profileId := Profile(userId, true, false, false)],
                         s.invites[invite := s.invites[invite].(used := s.invites[invite].used + 1)], s.pending)
            else t == s
  {
  }

  lemma AcceptKeepsInv(s: State, invite: nat, role: Role, username: string, userId: nat, profileId: nat, now: int)
    requires Inv(s) && s.users != map[]
    ensures Inv(AcceptInvite(s, invite, role, username, userId, profileId, now).state)
  {
    AcceptShape(s, invite, role, username, userId, profileId, now);
    if Acceptable(s, invite, userId, profileId, username, now) {
      var i := s.invites[invite];
      AcceptedKeepsInv(s, invite, i.(used := i.used + 1), userId, profileId,
                       User(username, role, false, ByInvite(invite)));
    }
  }

  /** Default rows stay as they are, and no other row becomes one. */
  predicate DefaultsKept(users: map<nat, User>, before: map<nat, Profile>, after: map<nat, Profile>) {
    && (forall p :: p in before && before[p].isDefault ==>
          p in after && after[p].isDefault && after[p].owner == before[p].owner
          && after[p].disabled == before[p].disabled)
    && (forall p :: p in after ==>
          after[p].owner in users && (after[p].isDefault ==> p in before && before[p].isDefault))
  }

  lemma DefaultsKeptProfiles(users: map<nat, User>, before: map<nat, Profile>, after: map<nat, Profile>)
    requires ProfilesOk(users, before) && DefaultsKept(users, before, after)
    ensures ProfilesOk(users, after)
  {
    forall u | u in users ensures HasDefault(after, u) {
      var q :| IsDefaultOf(before, q, u);
      assert IsDefaultOf(after, q, u);
    }
  }

  lemma DefaultsKeptOwner(users: map<nat, User>, before: map<nat, Profile>, after: map<nat, Profile>)
    requires OwnerOk(users, before) && DefaultsKept(users, before, after)
    ensures OwnerOk(users, after)
  {
    if users != map[] {
      var u :| IsLiveOwner(users, before, u);
      var q :| IsLiveDefaultOf(before, q, u);
      assert IsLiveDefaultOf(after, q, u);
      assert IsLiveOwner(users, after, u);
    }
  }

  lemma ProfileTableKeepsInv(s: State, after: map<nat, Profile>)
    requires Inv(s) && DefaultsKept(s.users, s.profiles, after)
    ensures Inv(s.(profiles := after))
  {
    DefaultsKeptProfiles(s.users, s.profiles, after);
    DefaultsKeptOwner(s.users, s.profiles, after);
  }

  lemma RewriteKeepsDefaults(users: map<nat, User>, profiles: map<nat, Profile>, p: nat, row: Profile)
    requires ProfilesOk(users, profiles)
    requires if p in profiles then row.(isKid := profiles[p].isKid) == profiles[p]
             else row.owner in users && !row.isDefault
    ensures DefaultsKept(users, profiles, profiles[p := row])
  {
  }

  lemma RemoveKeepsDefaults(users: map<nat, User>, profiles: map<nat, Profile>, p: nat)
    requires ProfilesOk(users, profiles) && p in profiles && !profiles[p].isDefault
    ensures DefaultsKept(users, profiles, profiles - {p})
  {
  }

  lemma AddKeepsInv(s: State, actorProfile: nat, user: nat, profileId: nat)
    requires Inv(s) && user in s.users
    ensures Inv(AddProfile(s, actorProfile, user, profileId).state)
  {
    hide OwnerOk, InvitesOk, SetupOk, NamesOk, PendingOk;
    if AddProfile(s, actorProfile, user, profileId).reply == Done {
      var row := Profile(user, false, false, false);
      RewriteKeepsDefaults(s.users, s.profiles, profileId, row);
      ProfileTableKeepsInv(s, s.profiles[profileId := row]);
    }
  }

  lemma RemoveKeepsInv(s: State, session: Session, p: nat)
    requires Inv(s)
    ensures Inv(RemoveStep(s, session, p).state)
  {
    if RemoveStep(s, session, p).reply == Done {
      RemoveKeepsDefaults(s.users, s.profiles, p);
      ProfileTableKeepsInv(s, s.profiles - {p});
    }
  }

  lemma SetKidKeepsInv(s: State, session: Session, p: nat, isKid: bool)
    requires Inv(s)
    ensures Inv(SetKidStep(s, session, p, isKid).state)
  {
    if SetKidStep(s, session, p, isKid).reply == Done {
      var row := s.profiles[p].(isKid := isKid);
      RewriteKeepsDefaults(s.users, s.profiles, p, row);
      ProfileTableKeepsInv(s, s.profiles[p := row]);
    }
  }

  /** One account row is rewritten, keeping its name and origin. */
  lemma UpdateKeepsTables(s: State, id: nat, user: User)
    requires Inv(s) && id in s.users && user.origin == s.users[id].origin && user.username == s.users[id].username
    ensures InvitesOk(s.users[id := user], s.invites) && SetupOk(s.users[id := user]) && NamesOk(s.users[id := user])
    ensures PendingOk(s.users[id := user], s.invites, s.pending)
  {
    hide InvitesOk, NamesOk, PendingOk, Through;
    UpdateKeepsInvites(s.users, id, user, s.invites);
    ThroughUpdate(s.users, id, user, BySetup);
    InsertKeepsPending(s.users, id, user, s.invites, s.pending);
    UpdateKeepsNames(s.users, id, user);
  }

  lemma UpdateKeepsInvites(users: map<nat, User>, id: nat, user: User, invites: map<nat, Invite>)
    requires InvitesOk(users, invites) && id in users && user.origin == users[id].origin
    ensures InvitesOk(users[id := user], invites)
  {
    hide Through;
    forall i | i in invites
      ensures Through(users[id := user], ByInvite(i)) == Through(users, ByInvite(i))
    {
      ThroughUpdate(users, id, user, ByInvite(i));
    }
  }

  lemma UpdateKeepsNames(users: map<nat, User>, id: nat, user: User)
    requires NamesOk(users) && id in users && user.username == users[id].username
    ensures NamesOk(users[id := user])
  {
    var after := users[id := user];
    assert forall u :: u in after ==> u in users && after[u].username == users[u].username;
  }

  lemma DisableKeepsProfiles(users: map<nat, User>, profiles: map<nat, Profile>, p: nat, disabled: bool,
                             id: nat, user: User)
    requires ProfilesOk(users, profiles) && p in profiles && id in users
    ensures ProfilesOk(users[id := user], profiles[p := profiles[p].(disabled := disabled)])
  {
    var after := profiles[p := profiles[p].(disabled := disabled)];
    forall u | u in users ensures HasDefault(after, u) {
      var q :| IsDefaultOf(profiles, q, u);
      assert IsDefaultOf(after, q, u);
    }
    assert users[id := user].Keys == users.Keys;
  }

  /** Disabling or enabling an account that is not an owner leaves the live owner alone. */
  lemma DisableKeepsOwner(users: map<nat, User>, profiles: map<nat, Profile>, p: nat, disabled: bool, user: User)
    requires OwnerOk(users, profiles) && p in profiles && profiles[p].owner in users
    requires !users[profiles[p].owner].role.Owner?
    ensures OwnerOk(users[profiles[p].owner := user], profiles[p := profiles[p].(disabled := disabled)])
  {
    var after := profiles[p := profiles[p].(disabled := disabled)];
    var u :| IsLiveOwner(users, profiles, u);
    var q :| IsLiveDefaultOf(profiles, q, u);
    assert IsLiveDefaultOf(after, q, u);
    assert IsLiveOwner(users[profiles[p].owner := user], after, u);
  }

  lemma SetUserDisabledKeepsInv(s: State, p: nat, disabled: bool)
    requires Inv(s) && Joined(s, p) && !RoleOf(s, p).Owner?
    ensures Inv(SetUserDisabled(s, p, disabled))
  {
    var target := s.profiles[p].owner;
    var user := s.users[target].(disabled := disabled);
    UpdateKeepsTables(s, target, user);
    DisableKeepsProfiles(s.users, s.profiles, p, disabled, target, user);
    DisableKeepsOwner(s.users, s.profiles, p, disabled, user);
  }

  lemma RoleKeepsProfiles(users: map<nat, User>, profiles: map<nat, Profile>, id: nat, user: User)
    requires ProfilesOk(users, profiles) && id in users
    ensures ProfilesOk(users[id := user], profiles)
  {
    assert users[id := user].Keys == users.Keys;
  }

  /** Whoever may change an owner's role is another live owner. */
  lemma RoleKeepsOwner(s: State, session: Session, target: nat, user: User)
    requires OwnerOk(s.users, s.profiles) && ReadAuth(s, session).Some?
    requires target in s.users && target != session.user
    requires s.users[session.user].role.Owner? || !s.users[target].role.Owner?
    ensures OwnerOk(s.users[target := user], s.profiles)
  {
    if s.users[session.user].role.Owner? {
      assert IsLiveOwner(s.users[target := user], s.profiles, session.user);
    } else {
      var u :| IsLiveOwner(s.users, s.profiles, u);
      assert IsLiveOwner(s.users[target := user], s.profiles, u);
    }
  }

  lemma SignedInUser(s: State, session: Session)
    ensures var auth := ReadAuth(s, session);
            auth.Some? ==> session.user in s.users && auth.value.user == session.user
                           && auth.value.role == s.users[session.user].role
  {
  }

  lemma ChangeRoleKeepsInv(s: State, session: Session, p: nat, role: Role)
    requires Inv(s)
    ensures Inv(ChangeRoleStep(s, session, p, role).state)
  {
    hide ProfilesOk, OwnerOk, InvitesOk, SetupOk, NamesOk, PendingOk, ReadAuth;
    if ChangeRoleStep(s, session, p, role).reply == Done {
      var target := s.profiles[p].owner;
      var user := s.users[target].(role := role);
      SignedInUser(s, session);
      UpdateKeepsTables(s, target, user);
      RoleKeepsProfiles(s.users, s.profiles, target, user);
      RoleKeepsOwner(s, session, target, user);
    }
  }

  lemma InviteTableKeepsInv(s: State, id: nat, i: Invite)
    requires Inv(s) && !i.role.Owner?
    requires if id in s.invites then i.used == s.invites[id].used && i.maxUses == s.invites[id].maxUses
                                     && i.role == s.invites[id].role
             else i.used == 0
    ensures Inv(s.(invites := s.invites[id := i]))
  {
    hide ProfilesOk, OwnerOk, SetupOk, NamesOk, PendingOk;
    if id !in s.invites {
      assert Through(s.users, ByInvite(id)) == {};
    }
    PendingKeepsOnBump(s.users, s.invites, s.pending, id, i);
  }

  lemma WaitKeepsInv(s: State, p: Pending)
    requires Inv(s) && PendingFits(s.users, s.invites, p)
    ensures Inv(Wait(s, p).state)
  {
  }

  lemma CommitKeepsInv(s: State, work: Pending, userId: nat, profileId: nat, now: int)
    requires Inv(s) && PendingFits(s.users, s.invites, work)
    ensures Inv(CommitWork(s, work, userId, profileId, now).state)
  {
    match work
    case SettingUp(username) =>
      if s.users == map[] { CreateKeepsInv(s, userId, profileId, username, Owner, BySetup); }
    case Accepting(invite, role, username) =>
      AcceptKeepsInv(s, invite, role, username, userId, profileId, now);
    case Creating(_, role, username) =>
      CreateKeepsInv(s, userId, profileId, username, role, ByAdministrator);
    case Adding(actorProfile, user) =>
      AddKeepsInv(s, actorProfile, user, profileId);
  }

  lemma BeginCreateKeepsInv(s: State, session: Session, role: Role, username: string)
    requires Inv(s)
    ensures Inv(BeginCreateStep(s, session, role, username).state)
  {
    hide Inv, ReadAuth, Wait;
    var auth := ReadAuth(s, session);
    SignedInUser(s, session);
    if auth.Some? && !role.Owner? { WaitKeepsInv(s, Creating(auth.value.profile, role, username)); }
  }

  lemma BeginAddKeepsInv(s: State, session: Session)
    requires Inv(s)
    ensures Inv(BeginAddStep(s, session).state)
  {
    hide Inv, ReadAuth, Wait;
    var auth := ReadAuth(s, session);
    SignedInUser(s, session);
    if auth.Some? { WaitKeepsInv(s, Adding(auth.value.profile, session.user)); }
  }

  lemma MintKeepsInv(s: State, session: Session, role: Role, maxUses: nat, expires: int, id: nat)
    requires Inv(s)
    ensures Inv(MintStep(s, session, role, maxUses, expires, id).state)
    ensures Inv(RevokeStep(s, session, id).state)
  {
    hide ProfilesOk, OwnerOk, SetupOk, NamesOk, PendingOk, ReadAuth;
    if id in s.invites {
      InviteTableKeepsInv(s, id, s.invites[id].(revoked := true));
    } else if !role.Owner? {
      InviteTableKeepsInv(s, id, Invite(role, maxUses, 0, expires, false));
    }
  }

  lemma DisabledKeepsInv(s: State, session: Session, p: nat, disabled: bool)
    requires Inv(s)
    ensures Inv(SetDisabledStep(s, session, p, disabled).state)
    ensures Inv(DisableStep(s, session, p).state)
  {
    hide Inv, ReadAuth, SetUserDisabled;
    if Joined(s, p) && !RoleOf(s, p).Owner? {
      SetUserDisabledKeepsInv(s, p, disabled);
      SetUserDisabledKeepsInv(s, p, true);
    }
  }

  lemma UnwaitKeepsInv(s: State, work: Pending)
    requires Inv(s) && work in s.pending
    ensures Inv(s.(pending := s.pending - multiset{work})) && PendingFits(s.users, s.invites, work)
  {
  }

  lemma BeginAcceptKeepsInv(s: State, id: nat, username: string, now: int)
    requires Inv(s)
    ensures Inv(BeginAcceptStep(s, id, username, now).state)
  {
    hide Inv, Wait;
    if s.users != map[] && id in s.invites { WaitKeepsInv(s, Accepting(id, s.invites[id].role, username)); }
  }

  lemma ServeKeepsInv(s: State, r: Request)
    requires Inv(s)
    ensures Inv(Serve(s, r).state)
  {
    hide Inv, BeginAcceptStep, BeginCreateStep, BeginAddStep, CommitWork, SetDisabledStep, ChangeRoleStep,
         DisableStep, RemoveStep, SetKidStep, MintStep, RevokeStep, Wait;
    match r
    case BeginSetup(username) => WaitKeepsInv(s, SettingUp(username));
    case BeginAccept(invite, username, now) => BeginAcceptKeepsInv(s, invite, username, now);
    case BeginCreate(session, role, username) => BeginCreateKeepsInv(s, session, role, username);
    case BeginAdd(session) => BeginAddKeepsInv(s, session);
    case Commit(work, userId, profileId, now) =>
      if work in s.pending {
        UnwaitKeepsInv(s, work);
        CommitKeepsInv(s.(pending := s.pending - multiset{work}), work, userId, profileId, now);
      }
    case SetDisabled(session, profile, disabled) => DisabledKeepsInv(s, session, profile, disabled);
    case ChangeRole(session, profile, role) => ChangeRoleKeepsInv(s, session, profile, role);
    case Disable(session, profile) => DisabledKeepsInv(s, session, profile, true);
    case Remove(session, profile) => RemoveKeepsInv(s, session, profile);
    case SetKid(session, profile, isKid) => SetKidKeepsInv(s, session, profile, isKid);
    case Mint(session, role, maxUses, expires, id) => MintKeepsInv(s, session, role, maxUses, expires, id);
    case Revoke(session, invite) => MintKeepsInv(s, session, Member, 1, 0, invite);
  }

  lemma {:induction false} RunKeepsInv(s: State, trace: seq<Request>)
    requires Inv(s)
    ensures Inv(Run(s, trace))
    decreases |trace|
  {
    if trace != [] {
      ServeKeepsInv(s, trace[0]);
      RunKeepsInv(Serve(s, trace[0]).state, trace[1..]);
    }
  }

  lemma FreshInv()
    ensures Inv(INITIAL)
  {
    assert Through(map[], BySetup) == {};
  }

  // ---------------------------------------------------------------------------
  // Main results

  /** Once there is an account, some owner can always sign in, whatever was interleaved. */
  lemma AlwaysALiveOwner(trace: seq<Request>)
    ensures var s := Run(INITIAL, trace);
            s.users != map[] ==> exists u :: IsLiveOwner(s.users, s.profiles, u)
                                             && ReadAuth(s, Session(u, None)).Some?
  {
    FreshInv();
    RunKeepsInv(INITIAL, trace);
    var s := Run(INITIAL, trace);
    if s.users != map[] {
      var u :| IsLiveOwner(s.users, s.profiles, u);
      assert ReadAuth(s, Session(u, None)).Some?;
    }
  }

  /** Each account has exactly one default profile, and names are distinct up to case. */
  lemma OneDefaultProfile(trace: seq<Request>, u: nat)
    requires u in Run(INITIAL, trace).users
    ensures var s := Run(INITIAL, trace);
            && (exists p :: IsDefaultOf(s.profiles, p, u)
                            && forall q :: IsDefaultOf(s.profiles, q, u) ==> q == p)
            && (forall v :: v in s.users && SameName(s.users[u].username, s.users[v].username) ==> u == v)
  {
    FreshInv();
    RunKeepsInv(INITIAL, trace);
    var s := Run(INITIAL, trace);
    var p :| IsDefaultOf(s.profiles, p, u);
    assert forall q :: IsDefaultOf(s.profiles, q, u) ==> q == p;
  }

  /** used_count is the number of accounts made through the invite, and never passes max_uses. */
  lemma InviteAccounting(trace: seq<Request>, i: nat)
    requires i in Run(INITIAL, trace).invites
    ensures var s := Run(INITIAL, trace);
            |Through(s.users, ByInvite(i))| == s.invites[i].used <= s.invites[i].maxUses
  {
    FreshInv();
    RunKeepsInv(INITIAL, trace);
  }

  /** However many first-run calls race, one account came from owner setup. */
  lemma OneSetup(trace: seq<Request>)
    ensures var s := Run(INITIAL, trace);
            |Through(s.users, BySetup)| == if s.users == map[] then 0 else 1
  {
    FreshInv();
    RunKeepsInv(INITIAL, trace);
  }

  // --- who may change what ---

  /** The session is signed in as an owner, or unless `owner` as an administrator, on a profile that is no kid's. */
  ghost predicate ActsAs(s: State, session: Session, owner: bool) {
    var auth := ReadAuth(s, session);
    && auth.Some? && !auth.value.isKid
    && (auth.value.role == Owner || (!owner && auth.value.role == Admin))
  }

  /**
    An existing account's role is changed only by an administrator acting on another account, and
    by an owner when the administrator or owner tier is on either side of the change.
   */
  lemma RoleChangesGuarded(s: State, r: Request, u: nat)
    requires u in s.users && u in Serve(s, r).state.users
    requires Serve(s, r).state.users[u].role != s.users[u].role
    ensures r.ChangeRole? && u != r.session.user
    ensures ActsAs(s, r.session, IsAdmin(s.users[u].role) || IsAdmin(Serve(s, r).state.users[u].role))
  {
  }

  /** An account is disabled or enabled only by an administrator, and never an owner's. */
  lemma DisablingGuarded(s: State, r: Request, u: nat)
    requires u in s.users && u in Serve(s, r).state.users
    requires Serve(s, r).state.users[u].disabled != s.users[u].disabled
    ensures !s.users[u].role.Owner?
    ensures (r.SetDisabled? || r.Disable?) && ActsAs(s, r.session, false)
  {
  }

  lemma OthersMintNothing(s: State, r: Request)
    requires !r.Mint?
    ensures forall i :: i in Serve(s, r).state.invites ==> i in s.invites
  {
    hide ReadAuth;
  }

  lemma OthersPromiseNothing(s: State, r: Request)
    requires !r.BeginCreate?
    ensures forall p :: p in Serve(s, r).state.pending && p !in s.pending ==> !p.Creating?
  {
    hide ReadAuth;
  }

  /** An administrator invite, or a waiting request to create an administrator, was an owner's. */
  lemma AdminGrantsGuarded(s: State, r: Request)
    ensures forall i :: i in Serve(s, r).state.invites && i !in s.invites ==>
              r.Mint? && ActsAs(s, r.session, Serve(s, r).state.invites[i].role.Admin?)
    ensures forall p :: p in Serve(s, r).state.pending && p !in s.pending && p.Creating? ==>
              r.BeginCreate? && ActsAs(s, r.session, p.newRole.Admin?)
  {
    hide ReadAuth;
    if !r.BeginCreate? { OthersPromiseNothing(s, r); }
    if !r.Mint? { OthersMintNothing(s, r); }
    if !r.BeginCreate? && !r.Mint? { hide Serve; }
  }

  lemma OnlyCommitsAdd(s: State, r: Request, u: nat)
    requires u in Serve(s, r).state.users && u !in s.users
    ensures r.Commit? && r.work in s.pending
  {
  }

  lemma CommitAdds(s: State, work: Pending, userId: nat, profileId: nat, now: int, u: nat)
    requires u in CommitWork(s, work, userId, profileId, now).state.users && u !in s.users
    ensures !work.Adding?
    ensures CommitWork(s, work, userId, profileId, now).state.users[u].role
         == if work.Accepting? then work.role else if work.Creating? then work.newRole else Owner
    ensures work.SettingUp? ==> s.users == map[]
  {
  }

  /** A new account has the role of what it was made through, and is an owner's only by setup. */
  lemma NewAccountRole(s: State, r: Request, u: nat)
    requires PendingOk(s.users, s.invites, s.pending)
    requires u in Serve(s, r).state.users && u !in s.users
    ensures r.Commit? && r.work in s.pending && !r.work.Adding?
    ensures r.work.SettingUp? ==> Serve(s, r).state.users[u].role.Owner? && s.users == map[]
    ensures r.work.Accepting? ==>
              r.work.invite in s.invites && Serve(s, r).state.users[u].role == s.invites[r.work.invite].role
    ensures r.work.Creating? ==> Serve(s, r).state.users[u].role == r.work.newRole && !r.work.newRole.Owner?
  {
    OnlyCommitsAdd(s, r, u);
    assert PendingFits(s.users, s.invites, r.work);
    CommitAdds(s.(pending := s.pending - multiset{r.work}), r.work, r.userId, r.profileId, r.now, u);
  }

  /** An account never disappears, changes its name or its origin. */
  lemma {:induction false} AccountsStay(s: State, trace: seq<Request>, u: nat)
    requires u in s.users
    ensures u in Run(s, trace).users
    ensures Run(s, trace).users[u].username == s.users[u].username
    ensures Run(s, trace).users[u].origin == s.users[u].origin
    decreases |trace|
  {
    if trace != [] {
      ServeKeepsAccount(s, trace[0], u);
      AccountsStay(Serve(s, trace[0]).state, trace[1..], u);
    }
  }

  lemma CommitKeepsAccount(s: State, work: Pending, userId: nat, profileId: nat, now: int, u: nat)
    requires u in s.users
    ensures var t := CommitWork(s, work, userId, profileId, now).state;
            u in t.users && t.users[u] == s.users[u]
  {
  }

  lemma ServeKeepsAccount(s: State, r: Request, u: nat)
    requires u in s.users
    ensures var t := Serve(s, r).state;
            u in t.users && t.users[u].username == s.users[u].username && t.users[u].origin == s.users[u].origin
  {
    hide ReadAuth, CommitWork;
    if r.Commit? && r.work in s.pending {
      CommitKeepsAccount(s.(pending := s.pending - multiset{r.work}), r.work, r.userId, r.profileId, r.now, u);
    }
  }

  /**
    The last-owner check only ever refuses the demotion of an owner who is disabled already, by
    the one owner who is not.
   */
  lemma LastOwnerGuard(s: State, session: Session, p: nat, role: Role)
    requires AdminBar(ReadAuth(s, session)).None? && Joined(s, p)
    requires s.users[session.user].role.Owner? && s.profiles[p].owner != session.user
    requires RoleOf(s, p).Owner? && !role.Owner?
    ensures ChangeRoleStep(s, session, p, role).reply == Refused(400)
       <==> s.users[s.profiles[p].owner].disabled && EnabledOwners(s.users) == {session.user}
  {
    var owners, actor, target := EnabledOwners(s.users), session.user, s.profiles[p].owner;
    assert actor in owners;
    if !s.users[target].disabled {
      assert {actor, target} <= owners;
      SubsetSize({actor, target}, owners);
    } else if owners != {actor} {
      var other :| other in owners && other != actor;
      SubsetSize({actor, other}, owners);
    }
  }

  /** Removing a profile needs no more than that it is a live, owned, non-default one. */
  lemma RemoveExact(s: State, session: Session, p: nat)
    requires Inv(s)
    ensures RemoveStep(s, session, p).reply == Done
       <==> RestrictedBar(ReadAuth(s, session)).None? && OwnedLive(s.profiles, p, session.user)
            && !s.profiles[p].isDefault
  {
    if RestrictedBar(ReadAuth(s, session)).None? && OwnedLive(s.profiles, p, session.user)
      && !s.profiles[p].isDefault
    {
      var d :| IsLiveDefaultOf(s.profiles, d, session.user);
      assert {d, p} <= LiveProfiles(s.profiles, session.user);
      SubsetSize({d, p}, LiveProfiles(s.profiles, session.user));
    }
  }

  /**
    Enabling an account through one of its profiles lets it sign in exactly when that profile is
    the default one or the default one is live already.
   */
  lemma EnablingSuffices(s: State, session: Session, p: nat, d: nat)
    requires ProfilesOk(s.users, s.profiles) && SetDisabledStep(s, session, p, false).reply == Done
    requires IsDefaultOf(s.profiles, d, s.profiles[p].owner)
    ensures ReadAuth(SetDisabledStep(s, session, p, false).state, Session(s.profiles[p].owner, None)).Some?
       <==> p == d || !s.profiles[d].disabled
  {
    EnabledSignsIn(s, p, d);
  }

  lemma EnabledSignsIn(s: State, p: nat, d: nat)
    requires ProfilesOk(s.users, s.profiles) && Joined(s, p) && IsDefaultOf(s.profiles, d, s.profiles[p].owner)
    ensures ReadAuth(SetUserDisabled(s, p, false), Session(s.profiles[p].owner, None)).Some?
       <==> p == d || !s.profiles[d].disabled
  {
    var u, t := s.profiles[p].owner, SetUserDisabled(s, p, false);
    assert forall q :: IsDefaultOf(t.profiles, q, u) <==> IsDefaultOf(s.profiles, q, u);
    if p == d || !s.profiles[d].disabled {
      assert IsLiveDefaultOf(t.profiles, d, u);
    }
  }

  lemma OthersStillSignIn(s: State, session: Session, p: nat, disabled: bool)
    requires ProfilesOk(s.users, s.profiles) && Joined(s, p) && s.profiles[p].owner != session.user
    ensures ReadAuth(SetUserDisabled(s, p, disabled), session) == ReadAuth(s, session)
  {
    var t, u := SetUserDisabled(s, p, disabled), session.user;
    SameDefault(s.profiles, t.profiles, u);
    assert forall q :: OwnedLive(t.profiles, q, u) <==> OwnedLive(s.profiles, q, u);
  }

  lemma SameDefault(before: map<nat, Profile>, after: map<nat, Profile>, u: nat)
    requires forall q :: q in before <==> q in after
    requires forall q :: q in before && (before[q].owner == u || after[q].owner == u) ==> before[q] == after[q]
    ensures forall q :: IsLiveDefaultOf(after, q, u) <==> IsLiveDefaultOf(before, q, u)
  {
  }

  lemma DisableThenEnable(s: State, session: Session, d: nat, p: nat)
    requires ProfilesOk(s.users, s.profiles) && AdminBar(ReadAuth(s, session)).None?
    requires Joined(s, d) && !RoleOf(s, d).Owner? && s.profiles[d].owner != session.user
    requires p in s.profiles && s.profiles[p].owner == s.profiles[d].owner
    ensures DisableStep(s, session, d) == Outcome(SetUserDisabled(s, d, true), Done)
    ensures SetDisabledStep(SetUserDisabled(s, d, true), session, p, false)
         == Outcome(SetUserDisabled(SetUserDisabled(s, d, true), p, false), Done)
  {
    OthersStillSignIn(s, session, d, true);
  }

  /** So disabling an account and enabling it through another of its profiles locks it out. */
  lemma EnabledButLockedOut(s: State, session: Session, d: nat, p: nat)
    requires ProfilesOk(s.users, s.profiles) && AdminBar(ReadAuth(s, session)).None?
    requires Joined(s, d) && !RoleOf(s, d).Owner? && s.profiles[d].isDefault && s.profiles[d].owner != session.user
    requires p in s.profiles && s.profiles[p].owner == s.profiles[d].owner && !s.profiles[p].isDefault
    ensures var u := s.profiles[d].owner;
            var t := SetDisabledStep(DisableStep(s, session, d).state, session, p, false);
            && t.reply == Done && u in t.state.users && !t.state.users[u].disabled
            && ReadAuth(t.state, Session(u, None)).None?
  {
    var mid, u := SetUserDisabled(s, d, true), s.profiles[d].owner;
    DisableThenEnable(s, session, d, p);
    DisableKeepsProfiles(s.users, s.profiles, d, true, u, s.users[u].(disabled := true));
    EnabledSignsIn(mid, p, d);
  }

  // --- what the requests achieve ---

  /** A live default profile is the only one, so it is what a session without a choice acts as. */
  lemma SignsInAs(s: State, u: nat, d: nat)
    requires ProfilesOk(s.users, s.profiles)
    requires u in s.users && !s.users[u].disabled && IsLiveDefaultOf(s.profiles, d, u)
    ensures ReadAuth(s, Session(u, None)) == Some(Auth(u, s.users[u].role, d, s.profiles[d].isKid))
  {
    assert forall q :: IsLiveDefaultOf(s.profiles, q, u) ==> q == d;
  }

  /** Otherwise a session acts as the profile it chose, as long as that is the account's and not disabled. */
  lemma ChosenProfile(s: State, session: Session, d: nat)
    requires ProfilesOk(s.users, s.profiles) && session.user in s.users
    ensures var u, chosen := session.user, session.active;
            var p := if chosen.Some? && chosen.value in s.profiles && s.profiles[chosen.value].owner == u
                        && !s.profiles[chosen.value].disabled then chosen.value else d;
            if s.users[u].disabled then ReadAuth(s, session) == None
            else IsDefaultOf(s.profiles, d, u) ==>
                   ReadAuth(s, session) == if s.profiles[d].disabled then None
                                           else Some(Auth(u, s.users[u].role, p, s.profiles[p].isKid))
  {
    if IsDefaultOf(s.profiles, d, session.user) {
      assert forall q :: IsDefaultOf(s.profiles, q, session.user) ==> q == d;
      assert !s.profiles[d].disabled ==> IsLiveDefaultOf(s.profiles, d, session.user);
    }
  }

  /** When a role change is made: by whom, of whom and to what. */
  ghost predicate MayChangeRole(s: State, session: Session, p: nat, role: Role) {
    && ActsAs(s, session, false) && Joined(s, p) && s.profiles[p].owner != session.user
    && (IsAdmin(RoleOf(s, p)) || IsAdmin(role) ==> s.users[session.user].role.Owner?)
    && (RoleOf(s, p).Owner? && !role.Owner? ==>
          !(s.users[s.profiles[p].owner].disabled && EnabledOwners(s.users) == {session.user}))
  }

  /**
    A role change succeeds exactly when it may be made. Then the account has the role asked for,
    nothing else changes, and every session of the account acts under that role from then on.
   */
  lemma RoleChangeExact(s: State, session: Session, p: nat, role: Role, other: Session)
    requires ProfilesOk(s.users, s.profiles)
    ensures var t := ChangeRoleStep(s, session, p, role);
            && (t.reply == Done <==> MayChangeRole(s, session, p, role))
            && (t.reply == Done ==>
                  var u := s.profiles[p].owner;
                  && t.state == s.(users := s.users[u := s.users[u].(role := role)])
                  && (other.user == u && ReadAuth(s, other).Some? ==>
                        ReadAuth(t.state, other) == Some(ReadAuth(s, other).value.(role := role))))
  {
    SignedInUser(s, session);
    if AdminBar(ReadAuth(s, session)).None? && Joined(s, p) && s.users[session.user].role.Owner?
       && s.profiles[p].owner != session.user && RoleOf(s, p).Owner? && !role.Owner? {
      LastOwnerGuard(s, session, p, role);
    }
  }

  /** Disabling locks the account's every session out at once, and nobody else's. */
  lemma DisablingLocksOut(s: State, session: Session, p: nat, other: Session)
    requires ProfilesOk(s.users, s.profiles)
    ensures var t := DisableStep(s, session, p);
            && (t.reply == Done <==> ActsAs(s, session, false) && Joined(s, p) && !RoleOf(s, p).Owner?)
            && (t.reply == Done ==>
                  ReadAuth(t.state, other) == if other.user == s.profiles[p].owner then None else ReadAuth(s, other))
    ensures SetDisabledStep(s, session, p, true).reply == Done <==> DisableStep(s, session, p).reply == Done
    ensures DisableStep(s, session, p).reply == Done ==>
              SetDisabledStep(s, session, p, true) == DisableStep(s, session, p)
  {
    if Joined(s, p) && other.user != s.profiles[p].owner { OthersStillSignIn(s, other, p, true); }
  }

  /** What the handler waiting with `work` still needs when its hash is ready. */
  ghost predicate MayCommit(s: State, work: Pending, userId: nat, profileId: nat, now: int) {
    && profileId !in s.profiles
    && (match work
        case SettingUp(_) => s.users == map[]
        case Accepting(invite, _, username) =>
          && invite in s.invites && !s.invites[invite].revoked
          && s.invites[invite].used < s.invites[invite].maxUses && now < s.invites[invite].expires
          && userId !in s.users && !NameTaken(s.users, username)
        case Creating(actorProfile, _, username) =>
          actorProfile in s.profiles && userId !in s.users && !NameTaken(s.users, username)
        case Adding(actorProfile, user) =>
          actorProfile in s.profiles && |LiveProfiles(s.profiles, user)| < MAX_LIVE_PROFILES)
  }

  function NameIn(work: Pending): string {
    match work
    case SettingUp(username) => username
    case Accepting(_, _, username) => username
    case Creating(_, _, username) => username
    case Adding(_, _) => ""
  }

  lemma CommitExactly(s: State, work: Pending, userId: nat, profileId: nat, now: int)
    ensures CommitWork(s, work, userId, profileId, now).reply == Done <==> MayCommit(s, work, userId, profileId, now)
  {
  }

  lemma CommitMakes(s: State, work: Pending, userId: nat, profileId: nat, now: int)
    requires CommitWork(s, work, userId, profileId, now).reply == Done
    ensures var t := CommitWork(s, work, userId, profileId, now).state;
            if work.Adding?
            then t.users == s.users && t.profiles == s.profiles[profileId := Profile(work.user, false, false, false)]
            else && userId !in s.users && userId in t.users && !t.users[userId].disabled
                 && t.users[userId].username == NameIn(work)
                 && t.profiles == s.profiles[profileId := Profile(userId, true, false, false)]
  {
  }

  lemma ReachableProfiles(before: seq<Request>)
    ensures var s := Run(INITIAL, before);
            ProfilesOk(s.users, s.profiles)
  {
    hide Run, ProfilesOk;
    FreshInv();
    RunKeepsInv(INITIAL, before);
  }

  lemma CommittedProfiles(before: seq<Request>, r: Request)
    ensures var t := Serve(Run(INITIAL, before), r).state;
            ProfilesOk(t.users, t.profiles)
  {
    hide Run, Serve, ProfilesOk;
    FreshInv();
    RunKeepsInv(INITIAL, before);
    ServeKeepsInv(Run(INITIAL, before), r);
  }

  /**
    A waiting handler commits exactly when what it needs still holds. Then the profile it adds is
    live, and the account it makes has the name asked for and can sign in to its default profile.
   */
  lemma CommittedExactly(before: seq<Request>, work: Pending, userId: nat, profileId: nat, now: int)
    requires work in Run(INITIAL, before).pending
    ensures var s := Run(INITIAL, before);
            var t := Serve(s, Commit(work, userId, profileId, now));
            && (t.reply == Done <==> MayCommit(s, work, userId, profileId, now))
            && (t.reply == Done && work.Adding? ==> OwnedLive(t.state.profiles, profileId, work.user))
            && (t.reply == Done && !work.Adding? ==>
                  && userId in t.state.users && t.state.users[userId].username == NameIn(work)
                  && ReadAuth(t.state, Session(userId, None))
                     == Some(Auth(userId, t.state.users[userId].role, profileId, false)))
  {
    hide Run, CommitWork, ReadAuth, ProfilesOk;
    var s := Run(INITIAL, before);
    var u := s.(pending := s.pending - multiset{work});
    var r := Commit(work, userId, profileId, now);
    ReachableProfiles(before);
    CommittedProfiles(before, r);
    CommitExactly(u, work, userId, profileId, now);
    assert MayCommit(u, work, userId, profileId, now) <==> MayCommit(s, work, userId, profileId, now);
    if Serve(s, r).reply == Done {
      CommitMakes(u, work, userId, profileId, now);
      if !work.Adding? { SignsInAs(Serve(s, r).state, userId, profileId); }
    }
  }

  /** The statuses that tell a taken name from a lost race, and a foreign profile from a missing one. */
  lemma RefusalStatuses(s: State, session: Session, p: nat, disabled: bool, work: Pending, userId: nat, profileId: nat,
                        now: int)
    ensures work.Creating? && NameTaken(s.users, work.username) ==>
              CommitWork(s, work, userId, profileId, now) == Outcome(s, Refused(409))
    ensures work.Creating? && !NameTaken(s.users, work.username)
            && !MayCommit(s, work, userId, profileId, now) ==>
              CommitWork(s, work, userId, profileId, now) == Outcome(s, Refused(500))
    ensures var auth := ReadAuth(s, session);
            auth.Some? && !auth.value.isKid && auth.value.role.Member? && auth.value.profile != p ==>
              SetDisabledStep(s, session, p, disabled) == Outcome(s, Refused(403))
  {
  }

  /** Only what may be asked for is remembered, and then exactly that. */
  lemma BegunExactly(s: State, session: Session, role: Role, username: string, invite: nat, now: int)
    ensures var t := Serve(s, BeginCreate(session, role, username));
            && (t.reply == Awaiting <==> !role.Owner? && ActsAs(s, session, role.Admin?))
            && (t.reply == Awaiting ==>
                  t.state == s.(pending := s.pending
                                           + multiset{Creating(ReadAuth(s, session).value.profile, role, username)}))
    ensures var t := Serve(s, BeginAccept(invite, username, now));
            && (t.reply == Awaiting <==>
                s.users != map[] && invite in s.invites && !s.invites[invite].revoked
                && s.invites[invite].used < s.invites[invite].maxUses && now < s.invites[invite].expires)
            && (t.reply == Awaiting ==>
                  t.state == s.(pending := s.pending + multiset{Accepting(invite, s.invites[invite].role, username)}))
    ensures var t := Serve(s, BeginSetup(username));
            && (t.reply == Awaiting <==> s.users == map[])
            && (t.reply == Awaiting ==> t.state == s.(pending := s.pending + multiset{SettingUp(username)}))
    ensures var t, auth := Serve(s, BeginAdd(session)), ReadAuth(s, session);
            && (t.reply == Awaiting <==> auth.Some? && !auth.value.isKid && !auth.value.role.Restricted?)
            && (t.reply == Awaiting ==>
                  t.state == s.(pending := s.pending + multiset{Adding(auth.value.profile, session.user)}))
  {
    hide CommitWork;
    SignedInUser(s, session);
  }

  // --- invites from end to end ---

  /** Accepting the invite, with the hash ready at once. */
  function AcceptNow(s: State, invite: nat, username: string, userId: nat, profileId: nat, now: int): seq<Request>
    requires invite in s.invites
  {
    [BeginAccept(invite, username, now)]
    + [Commit(Accepting(invite, s.invites[invite].role, username), userId, profileId, now)]
  }

  lemma RunTwo(s: State, a: Request, b: Request)
    ensures Run(s, [a] + [b]) == Serve(Serve(s, a).state, b).state
  {
    hide Serve;
    assert ([a] + [b])[1..] == [b] && [b][1..] == [];
    assert Run(Serve(s, a).state, [b]) == Run(Serve(Serve(s, a).state, b).state, []);
  }

  lemma AcceptMakes(s: State, invite: nat, username: string, userId: nat, profileId: nat, now: int)
    requires s.users != map[] && invite in s.invites && Usable(s.invites[invite], now)
    requires userId !in s.users && profileId !in s.profiles && !NameTaken(s.users, username)
    ensures var i := s.invites[invite];
            var t := Serve(Serve(s, BeginAccept(invite, username, now)).state,
                           Commit(Accepting(invite, i.role, username), userId, profileId, now)).state;
            && t.users == s.users[userId := User(username, i.role, false, ByInvite(invite))]
            && t.profiles == s.profiles[profileId := Profile(userId, true, false, false)]
            && t.invites == s.invites[invite := i.(used := i.used + 1)]
  {
    hide NameTaken;
  }

  lemma AcceptKeepsProfiles(before: seq<Request>, a: Request, b: Request)
    ensures var t := Serve(Serve(Run(INITIAL, before), a).state, b).state;
            ProfilesOk(t.users, t.profiles)
  {
    hide Run, Serve, ProfilesOk;
    FreshInv();
    RunKeepsInv(INITIAL, before);
    ServeKeepsInv(Run(INITIAL, before), a);
    ServeKeepsInv(Serve(Run(INITIAL, before), a).state, b);
  }

  /** A usable invite makes an account under a free name, of the invite's role, which can sign in, and counts it. */
  lemma InviteServes(before: seq<Request>, invite: nat, username: string, userId: nat, profileId: nat, now: int)
    requires var s := Run(INITIAL, before);
             && s.users != map[] && invite in s.invites && Usable(s.invites[invite], now)
             && userId !in s.users && profileId !in s.profiles && !NameTaken(s.users, username)
    ensures var s := Run(INITIAL, before);
            var t := Run(s, AcceptNow(s, invite, username, userId, profileId, now));
            && t.users == s.users[userId := User(username, s.invites[invite].role, false, ByInvite(invite))]
            && t.invites == s.invites[invite := s.invites[invite].(used := s.invites[invite].used + 1)]
            && ReadAuth(t, Session(userId, None))
               == Some(Auth(userId, s.invites[invite].role, profileId, false))
  {
    hide Run, ReadAuth, NameTaken, Serve, ProfilesOk;
    var s := Run(INITIAL, before);
    var work := Accepting(invite, s.invites[invite].role, username);
    var a, b := BeginAccept(invite, username, now), Commit(work, userId, profileId, now);
    ReachableProfiles(before);
    AcceptKeepsProfiles(before, a, b);
    RunTwo(s, a, b);
    AcceptMakes(s, invite, username, userId, profileId, now);
    SignsInAs(Serve(Serve(s, a).state, b).state, userId, profileId);
  }

  lemma StaysRevoked(s: State, r: Request, invite: nat)
    requires invite in s.invites && s.invites[invite].revoked
    ensures var t := Serve(s, r).state;
            invite in t.invites && t.invites[invite].revoked && t.invites[invite].used == s.invites[invite].used
  {
    hide ReadAuth;
  }

  /** Once revoked, an invite never makes another account, even for a handler that was already waiting. */
  lemma {:induction false} RevokedForGood(s: State, trace: seq<Request>, invite: nat)
    requires invite in s.invites && s.invites[invite].revoked
    ensures var t := Run(s, trace);
            invite in t.invites && t.invites[invite].revoked && t.invites[invite].used == s.invites[invite].used
    decreases |trace|
  {
    hide Serve;
    if trace != [] {
      StaysRevoked(s, trace[0], invite);
      RevokedForGood(Serve(s, trace[0]).state, trace[1..], invite);
    }
  }

  /** Minting gives an unused invite of what was asked for, and revoking revokes it; each only for administrators. */
  lemma MintedExactly(s: State, session: Session, role: Role, maxUses: nat, expires: int, id: nat)
    ensures var t := Serve(s, Mint(session, role, maxUses, expires, id));
            && (t.reply == Done <==> ActsAs(s, session, role.Admin?) && !role.Owner? && 1 <= maxUses <= 100
                                     && id !in s.invites)
            && (t.reply == Done ==> t.state == s.(invites := s.invites[id := Invite(role, maxUses, 0, expires, false)]))
    ensures var t := Serve(s, Revoke(session, id));
            && (t.reply == Done <==> ActsAs(s, session, false))
            && (t.reply == Done && id in s.invites ==> id in t.state.invites && t.state.invites[id].revoked)
            && t.state == s.(invites := t.state.invites) && t.state.invites.Keys == s.invites.Keys
  {
    hide ReadAuth, CommitWork;
  }

  /** A removed profile is gone and no other is, and a profile made a kid's can manage nothing. */
  lemma ProfileEdits(s: State, session: Session, p: nat)
    ensures var t := Serve(s, Remove(session, p));
            t.reply == Done ==> t.state == s.(profiles := s.profiles - {p}) && p in s.profiles
    ensures var t := Serve(s, SetKid(session, p, true));
            && (t.reply == Done <==> ActsAs(s, session, false) && OwnedLive(s.profiles, p, session.user))
            && (t.reply == Done ==>
                  && ReadAuth(t.state, Session(session.user, Some(p))).Some?
                  && AdminBar(ReadAuth(t.state, Session(session.user, Some(p)))) == Some(403)
                  && RestrictedBar(ReadAuth(t.state, Session(session.user, Some(p)))) == Some(403))
  {
    SignedInUser(s, session);
    var t := Serve(s, SetKid(session, p, true));
    if t.reply == Done {
      var d :| IsLiveDefaultOf(s.profiles, d, session.user);
      assert IsLiveDefaultOf(t.state.profiles, d, session.user);
    }
  }

  // ---------------------------------------------------------------------------
  // The handlers over the tables they update

  class AccountStore {
    var users: map<nat, User>
    var profiles: map<nat, Profile>
    var invites: map<nat, Invite>
    var pending: multiset<Pending>

    ghost function Contents(): State
      reads this
    {
      State(users, profiles, invites, pending)
    }

    constructor ()
      ensures Contents() == INITIAL
    {
      users, profiles, invites, pending := map[], map[], map[], multiset{};
    }

    /** The session query: the account's live default row joined with the active one, if still owned. */
    method Authenticate(session: Session) returns (auth: Option<Auth>)
      requires ProfilesOk(users, profiles)
      ensures auth == ReadAuth(Contents(), session)
    {
      var u := session.user;
      auth := None;
      if u in users && !users[u].disabled && exists p :: p in profiles && IsLiveDefaultOf(profiles, p, u) {
        var def :| def in profiles && IsLiveDefaultOf(profiles, def, u);
        var active := def;
        if session.active.Some? && OwnedLive(profiles, session.active.value, u) {
          active := session.active.value;
        }
        auth := Some(Auth(u, users[u].role, active, profiles[active].isKid));
      }
    }

    method Create(userId: nat, profileId: nat, username: string, role: Role, origin: Origin) returns (reply: Reply)
      modifies this
      ensures Outcome(Contents(), reply)
           == CreateUserAndProfile(old(Contents()), userId, profileId, username, role, origin)
    {
      if exists u :: u in users && SameName(users[u].username, username) { return Refused(409); }
      if userId in users || profileId in profiles { return Refused(500); }
      users := users[userId := User(username, role, false, origin)];
      profiles := profiles[profileId := Profile(userId, true, false, false)];
      reply := Done;
    }

    /** The transaction of an accepted invite, which looks at the invite again. */
    method Accept(invite: nat, role: Role, username: string, userId: nat, profileId: nat, now: int)
      returns (reply: Reply)
      modifies this
      ensures Outcome(Contents(), reply)
           == AcceptInvite(old(Contents()), invite, role, username, userId, profileId, now)
    {
      if invite !in invites { return Refused(410); }
      var again := invites[invite];
      if again.revoked || again.used >= again.maxUses || again.expires <= now { return Refused(410); }
      reply := Create(userId, profileId, username, role, ByInvite(invite));
      if reply == Done {
        invites := invites[invite := invites[invite].(used := invites[invite].used + 1)];
      }
    }

    method SetDisabled(session: Session, p: nat, disabled: bool) returns (reply: Reply)
      requires ProfilesOk(users, profiles)
      modifies this
      ensures Outcome(Contents(), reply) == SetDisabledStep(old(Contents()), session, p, disabled)
    {
      var auth := Authenticate(session);
      if auth.None? { return Refused(401); }
      if auth.value.isKid || auth.value.role.Restricted? { return Refused(403); }
      if auth.value.profile != p && !IsAdmin(auth.value.role) { return Refused(403); }
      if p !in profiles || profiles[p].owner !in users { return Refused(404); }
      if !IsAdmin(auth.value.role) { return Refused(403); }
      var id := profiles[p].owner;
      if users[id].role.Owner? { return Refused(400); }
      profiles := profiles[p := profiles[p].(disabled := disabled)];
      users := users[id := users[id].(disabled := disabled)];
      reply := Done;
    }

    method ChangeRole(session: Session, p: nat, role: Role) returns (reply: Reply)
      requires ProfilesOk(users, profiles)
      modifies this
      ensures Outcome(Contents(), reply) == ChangeRoleStep(old(Contents()), session, p, role)
    {
      hide ReadAuth, ProfilesOk;
      var auth := Authenticate(session);
      if auth.None? { return Refused(401); }
      if auth.value.isKid || !IsAdmin(auth.value.role) { return Refused(403); }
      if p !in profiles || profiles[p].owner !in users { return Refused(404); }
      var id := profiles[p].owner;
      if !auth.value.role.Owner? && (IsAdmin(users[id].role) || IsAdmin(role)) { return Refused(403); }
      if id == auth.value.user { return Refused(400); }
      if users[id].role.Owner? && !role.Owner? {
        if |EnabledOwners(users)| <= 1 { return Refused(400); }
      }
      if users[id].role == role { return Done; }
      users := users[id := users[id].(role := role)];
      reply := Done;
    }

    method Remove(session: Session, p: nat) returns (reply: Reply)
      requires ProfilesOk(users, profiles)
      modifies this
      ensures Outcome(Contents(), reply) == RemoveStep(old(Contents()), session, p)
    {
      var auth := Authenticate(session);
      if auth.None? { return Refused(401); }
      if auth.value.isKid || auth.value.role.Restricted? { return Refused(403); }
      if p !in profiles || profiles[p].owner != auth.value.user || profiles[p].disabled { return Refused(404); }
      if profiles[p].isDefault { return Refused(400); }
      if |LiveProfiles(profiles, auth.value.user)| <= 1 { return Refused(400); }
      profiles := profiles - {p};
      reply := Done;
    }
  }
}
