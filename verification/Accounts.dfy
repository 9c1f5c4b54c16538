/** Users and sessions: first-admin setup, login, logout, user administration, and what every run
    of them keeps. A session is named by its token. */
module Accounts {
  import opened Text

  type UserId = string
  type Token = string

  datatype User = User(organization: string, email: string, password: string, isAdmin: bool, isActive: bool)

  datatype Session = Session(user: UserId, expiresAt: int, revokedAt: Option<int>)

  datatype State = State(users: map<UserId, User>, sessions: map<Token, Session>)

  /** The default organization, the session lifetime, and the password hash. */
  datatype Env = Env(home: string, lifetime: int, hash: string -> string, verify: (string, string) -> bool)

  /** Identifiers and tokens come from the random source; one that is already taken violates a key. */
  datatype Request =
    | Setup(email: string, password: string, newId: UserId, token: Token)
    | Login(email: string, password: string, token: Token)
    | Logout(session: Token)
    | CreateUser(session: Token, email: string, password: string, isAdmin: bool, isActive: bool, newId: UserId)
    | UpdateUser(session: Token, target: UserId, newEmail: Option<string>, setAdmin: Option<bool>,
        setActive: Option<bool>)
    | ChangePassword(session: Token, target: UserId, password: string)

  // ----- who may do what -----

  predicate Accepted(st: State, token: Token, now: int) {
    token in st.sessions && st.sessions[token].revokedAt.None? && now < st.sessions[token].expiresAt
  }

  predicate IsActive(st: State, id: UserId) {
    id in st.users && st.users[id].isActive
  }

  predicate IsActiveAdmin(st: State, id: UserId) {
    IsActive(st, id) && st.users[id].isAdmin
  }

  /** The administrator behind a session. */
  function Admin(st: State, token: Token, now: int): Option<UserId> {
    if Accepted(st, token, now) && IsActiveAdmin(st, st.sessions[token].user)
    then Some(st.sessions[token].user)
    else None
  }

  function NormalizeEmail(email: string): Option<string> {
    var value := Lower(Trim(email));
    if '@' in value then Some(value) else None
  }

  predicate AdminExists(users: map<UserId, User>, organization: string) {
    exists id :: id in users && users[id].organization == organization && users[id].isAdmin
  }

  predicate EmailTaken(users: map<UserId, User>, organization: string, email: string, byOther: Option<UserId>) {
    exists id ::
      id in users && users[id].organization == organization && users[id].email == email && Some(id) != byOther
  }

  function ActiveAdmins(users: map<UserId, User>, organization: string): set<UserId> {
    set id | id in users && users[id].organization == organization && users[id].isAdmin && users[id].isActive
  }

  function IssueSession(env: Env, st: State, user: UserId, token: Token, now: int): Option<State> {
    if token in st.sessions then None
    else Some(st.(sessions := st.sessions[token := Session(user, now + env.lifetime, None)]))
  }

  /** Revokes every live session of a user except possibly one. */
  function RevokeSessions(sessions: map<Token, Session>, user: UserId, except: Option<Token>,
      now: int): map<Token, Session>
  {
    map t | t in sessions ::
      if sessions[t].user == user && sessions[t].revokedAt.None? && Some(t) != except
      then sessions[t].(revokedAt := Some(now))
      else sessions[t]
  }

  /** Nobody removes their own admin right or deactivates themselves, and the last active admin stays. */
  predicate UpdateAllowed(st: State, actor: UserId, target: UserId, nextAdmin: bool, nextActive: bool)
    requires actor in st.users && target in st.users
  {
    && (target == actor ==> nextAdmin && nextActive)
    && !LastAdminLost(st, actor, target, nextAdmin, nextActive)
  }

  predicate LastAdminLost(st: State, actor: UserId, target: UserId, nextAdmin: bool, nextActive: bool)
    requires actor in st.users && target in st.users
  {
    && IsActiveAdmin(st, target) && (!nextAdmin || !nextActive)
    && |ActiveAdmins(st.users, st.users[actor].organization)| <= 1
  }

  predicate Matches(u: User, email: string) {
    u.email == email && u.isActive
  }

  // ----- requests -----

  function HandleSetup(env: Env, st: State, email: string, password: string, newId: UserId, token: Token,
      now: int): Option<State>
  {
    var normalized := NormalizeEmail(email);
    if AdminExists(st.users, env.home) || normalized.None?
       || EmailTaken(st.users, env.home, normalized.value, None) || newId in st.users then None
    else
      var user := User(env.home, normalized.value, env.hash(password), true, true);
      IssueSession(env, st.(users := st.users[newId := user]), newId, token, now)
  }

  ghost predicate FindsUser(users: map<UserId, User>, email: string) {
    exists id :: id in users && Matches(users[id], email)
  }

  ghost function UserWith(users: map<UserId, User>, email: string): UserId
    requires FindsUser(users, email)
  {
    var id :| id in users && Matches(users[id], email);
    id
  }

  /** A login with the normalized email. */
  ghost function LoginAs(env: Env, st: State, wanted: string, password: string, token: Token, now: int): Option<State> {
    if !FindsUser(st.users, wanted) then None
    else
      var id := UserWith(st.users, wanted);
      if !env.verify(password, st.users[id].password) then None
      else IssueSession(env, st, id, token, now)
  }

  ghost function HandleLogin(env: Env, st: State, email: string, password: string, token: Token,
      now: int): Option<State>
  {
    LoginAs(env, st, Lower(Trim(email)), password, token, now)
  }

  function HandleLogout(st: State, token: Token, now: int): Option<State> {
    if !Accepted(st, token, now) then None
    else Some(st.(sessions := st.sessions[token := st.sessions[token].(revokedAt := Some(now))]))
  }

  function HandleCreate(env: Env, st: State, actor: UserId, email: string, password: string,
                        isAdmin: bool, isActive: bool, newId: UserId): Option<State>
    requires actor in st.users
  {
    var organization, normalized := st.users[actor].organization, NormalizeEmail(email);
    if normalized.None? || EmailTaken(st.users, organization, normalized.value, None) || newId in st.users then None
    else
      Some(st.(users := st.users[newId := User(organization, normalized.value, env.hash(password), isAdmin, isActive)]))
  }

  /** The user row an update writes, or nothing when it is refused. */
  function NextUser(st: State, actor: UserId, target: UserId, newEmail: Option<string>,
                    setAdmin: Option<bool>, setActive: Option<bool>): Option<User>
    requires actor in st.users
  {
    var organization := st.users[actor].organization;
    if target !in st.users || st.users[target].organization != organization then None
    else
      var user := st.users[target];
      var email := if newEmail.Some? then NormalizeEmail(newEmail.value) else Some(user.email);
      var nextAdmin := if setAdmin.Some? then setAdmin.value else user.isAdmin;
      var nextActive := if setActive.Some? then setActive.value else user.isActive;
      if email.None? || (email.value != user.email && EmailTaken(st.users, organization, email.value, Some(target)))
         || !UpdateAllowed(st, actor, target, nextAdmin, nextActive) then None
      else Some(user.(email := email.value, isAdmin := nextAdmin, isActive := nextActive))
  }

  function HandleUpdate(st: State, actor: UserId, target: UserId, newEmail: Option<string>,
                        setAdmin: Option<bool>, setActive: Option<bool>, now: int): Option<State>
    requires actor in st.users
  {
    match NextUser(st, actor, target, newEmail, setAdmin, setActive)
    case None => None
    case Some(user) =>
      Some(State(st.users[target := user],
                 if user.isActive then st.sessions else RevokeSessions(st.sessions, target, None, now)))
  }

  function HandlePassword(env: Env, st: State, token: Token, actor: UserId, target: UserId, password: string,
      now: int): Option<State>
    requires actor in st.users
  {
    if target !in st.users || st.users[target].organization != st.users[actor].organization then None
    else
      var users := st.users[target := st.users[target].(password := env.hash(password))];
      Some(State(users, RevokeSessions(st.sessions, target, if target == actor then Some(token) else None, now)))
  }

  /** One request: the new state, or nothing when it is rejected and rolled back. */
  ghost function Handle(env: Env, st: State, req: Request, now: int): Option<State> {
    match req
    case Setup(email, password, newId, token) => HandleSetup(env, st, email, password, newId, token, now)
    case Login(email, password, token) => HandleLogin(env, st, email, password, token, now)
    case Logout(session) => HandleLogout(st, session, now)
    case CreateUser(session, email, password, isAdmin, isActive, newId) =>
      var actor := Admin(st, session, now);
      if actor.None? then None else HandleCreate(env, st, actor.value, email, password, isAdmin, isActive, newId)
    case UpdateUser(session, target, newEmail, setAdmin, setActive) =>
      var actor := Admin(st, session, now);
      if actor.None? then None else HandleUpdate(st, actor.value, target, newEmail, setAdmin, setActive, now)
    case ChangePassword(session, target, password) =>
      var actor := Admin(st, session, now);
      if actor.None? then None else HandlePassword(env, st, session, actor.value, target, password, now)
  }

  ghost function After(env: Env, st: State, req: Request, now: int): State {
    var r := Handle(env, st, req, now);
    if r.Some? then r.value else st
  }

  datatype Event = Event(req: Request, now: int)

  ghost function Run(env: Env, st: State, events: seq<Event>): State {
    if events == [] then st
    else
      var last := events[|events| - 1];
      After(env, Run(env, st, events[..|events| - 1]), last.req, last.now)
  }

  // ----- what every request keeps -----

  ghost predicate AllHome(env: Env, users: map<UserId, User>) {
    forall id :: id in users ==> users[id].organization == env.home
  }

  ghost predicate EmailsUnique(users: map<UserId, User>) {
    forall i, j :: i in users && j in users && users[i].email == users[j].email ==> i == j
  }

  /** Every live session belongs to an active user. */
  ghost predicate OwnersActive(st: State) {
    forall t :: t in st.sessions && st.sessions[t].revokedAt.None? ==> IsActive(st, st.sessions[t].user)
  }

  /** Where there is an administrator, there is an active one. */
  ghost predicate AdminKept(env: Env, st: State) {
    AdminExists(st.users, env.home) ==> exists id :: IsActiveAdmin(st, id)
  }

  ghost predicate Sound(env: Env, st: State) {
    && AllHome(env, st.users) && EmailsUnique(st.users) && OwnersActive(st) && AdminKept(env, st)
  }

  lemma SetupKeeps(env: Env, st: State, email: string, password: string, newId: UserId, token: Token, now: int)
    requires Sound(env, st) && HandleSetup(env, st, email, password, newId, token, now).Some?
    ensures Sound(env, HandleSetup(env, st, email, password, newId, token, now).value)
    ensures IsActiveAdmin(HandleSetup(env, st, email, password, newId, token, now).value, newId)
  {
    hide Trim, Lower, NormalizeEmail;
    var later := HandleSetup(env, st, email, password, newId, token, now).value;
    UniqueAfterInsert(env, st.users, newId, later.users[newId]);
    assert IsActiveAdmin(later, newId);
  }

  lemma UniqueAfterInsert(env: Env, users: map<UserId, User>, id: UserId, user: User)
    requires AllHome(env, users) && EmailsUnique(users) && user.organization == env.home
    requires !EmailTaken(users, env.home, user.email, Some(id))
    ensures AllHome(env, users[id := user]) && EmailsUnique(users[id := user])
  {
  }

  lemma IssueKeeps(env: Env, st: State, user: UserId, token: Token, now: int)
    requires Sound(env, st) && IsActive(st, user) && IssueSession(env, st, user, token, now).Some?
    ensures Sound(env, IssueSession(env, st, user, token, now).value)
  {
    AdminsStay(env, st, IssueSession(env, st, user, token, now).value);
  }

  lemma LoginKeeps(env: Env, st: State, email: string, password: string, token: Token, now: int)
    requires Sound(env, st) && HandleLogin(env, st, email, password, token, now).Some?
    ensures Sound(env, HandleLogin(env, st, email, password, token, now).value)
  {
    hide Trim, Lower, Sound, IssueSession;
    IssueKeeps(env, st, UserWith(st.users, Lower(Trim(email))), token, now);
  }

  lemma AdminsStay(env: Env, st: State, later: State)
    requires AdminKept(env, st)
    requires forall id :: IsActiveAdmin(st, id) ==> IsActiveAdmin(later, id)
    requires AdminExists(later.users, env.home) ==> AdminExists(st.users, env.home)
    ensures AdminKept(env, later)
  {
    if AdminExists(later.users, env.home) {
      var id :| IsActiveAdmin(st, id);
      assert IsActiveAdmin(later, id);
    }
  }

  lemma LogoutKeeps(env: Env, st: State, token: Token, now: int)
    requires Sound(env, st) && HandleLogout(st, token, now).Some?
    ensures Sound(env, HandleLogout(st, token, now).value)
  {
    AdminsStay(env, st, HandleLogout(st, token, now).value);
  }

  lemma CreateKeeps(env: Env, st: State, actor: UserId, email: string, password: string, isAdmin: bool,
      isActive: bool, newId: UserId)
    requires Sound(env, st) && IsActiveAdmin(st, actor)
    requires HandleCreate(env, st, actor, email, password, isAdmin, isActive, newId).Some?
    ensures Sound(env, HandleCreate(env, st, actor, email, password, isAdmin, isActive, newId).value)
    ensures IsActiveAdmin(HandleCreate(env, st, actor, email, password, isAdmin, isActive, newId).value, actor)
  {
    hide Trim, Lower, NormalizeEmail;
    var later := HandleCreate(env, st, actor, email, password, isAdmin, isActive, newId).value;
    UniqueAfterInsert(env, st.users, newId, later.users[newId]);
    assert IsActiveAdmin(later, actor);
  }

  lemma NextUserAllowed(st: State, actor: UserId, target: UserId, newEmail: Option<string>, setAdmin: Option<bool>,
      setActive: Option<bool>)
    requires actor in st.users && NextUser(st, actor, target, newEmail, setAdmin, setActive).Some?
    ensures var user := NextUser(st, actor, target, newEmail, setAdmin, setActive).value;
      && target in st.users && st.users[target].organization == st.users[actor].organization == user.organization
      && (user.email != st.users[target].email ==> !EmailTaken(st.users, user.organization, user.email, Some(target)))
      && UpdateAllowed(st, actor, target, user.isAdmin, user.isActive)
  {
  }

  lemma OwnEmailFree(env: Env, users: map<UserId, User>, id: UserId)
    requires AllHome(env, users) && EmailsUnique(users) && id in users
    ensures !EmailTaken(users, env.home, users[id].email, Some(id))
  {
  }

  lemma OwnersAfterUpdate(st: State, target: UserId, user: User, now: int)
    requires OwnersActive(st) && target in st.users
    ensures OwnersActive(State(st.users[target := user],
                               if user.isActive then st.sessions else RevokeSessions(st.sessions, target, None, now)))
  {
  }

  /** The acting administrator is still an active administrator after any update it makes. */
  lemma UpdateKeeps(env: Env, st: State, actor: UserId, target: UserId, newEmail: Option<string>,
                    setAdmin: Option<bool>, setActive: Option<bool>, now: int)
    requires Sound(env, st) && IsActiveAdmin(st, actor)
    requires HandleUpdate(st, actor, target, newEmail, setAdmin, setActive, now).Some?
    ensures Sound(env, HandleUpdate(st, actor, target, newEmail, setAdmin, setActive, now).value)
    ensures IsActiveAdmin(HandleUpdate(st, actor, target, newEmail, setAdmin, setActive, now).value, actor)
  {
    hide RevokeSessions, NextUser, EmailTaken, EmailsUnique, OwnersActive;
    var user := NextUser(st, actor, target, newEmail, setAdmin, setActive).value;
    var later := HandleUpdate(st, actor, target, newEmail, setAdmin, setActive, now).value;
    NextUserAllowed(st, actor, target, newEmail, setAdmin, setActive);
    OwnEmailFree(env, st.users, target);
    UniqueAfterInsert(env, st.users, target, user);
    OwnersAfterUpdate(st, target, user, now);
    assert IsActiveAdmin(later, actor);
  }

  lemma PasswordKeeps(env: Env, st: State, token: Token, actor: UserId, target: UserId, password: string, now: int)
    requires Sound(env, st) && IsActiveAdmin(st, actor)
    requires HandlePassword(env, st, token, actor, target, password, now).Some?
    ensures Sound(env, HandlePassword(env, st, token, actor, target, password, now).value)
    ensures IsActiveAdmin(HandlePassword(env, st, token, actor, target, password, now).value, actor)
  {
    var later := HandlePassword(env, st, token, actor, target, password, now).value;
    UniqueAfterInsert(env, st.users, target, later.users[target]);
    assert IsActiveAdmin(later, actor);
  }

  lemma HandleKeeps(env: Env, st: State, req: Request, now: int)
    requires Sound(env, st)
    ensures Sound(env, After(env, st, req, now))
    ensures AdminExists(st.users, env.home) ==> AdminExists(After(env, st, req, now).users, env.home)
  {
    hide HandleSetup, HandleUpdate, HandlePassword;
    if Handle(env, st, req, now).Some? {
      match req
      case Setup(email, password, newId, token) => SetupKeeps(env, st, email, password, newId, token, now);
      case Login(email, password, token) => LoginKeeps(env, st, email, password, token, now);
      case Logout(session) => LogoutKeeps(env, st, session, now);
      case CreateUser(session, email, password, isAdmin, isActive, newId) =>
        CreateKeeps(env, st, st.sessions[session].user, email, password, isAdmin, isActive, newId);
      case UpdateUser(session, target, newEmail, setAdmin, setActive) =>
        UpdateKeeps(env, st, st.sessions[session].user, target, newEmail, setAdmin, setActive, now);
      case ChangePassword(session, target, password) =>
        PasswordKeeps(env, st, session, st.sessions[session].user, target, password, now);
    }
  }

  // ----- runs -----

  /** Over every run, rejected requests included: unique emails, live sessions only of active users,
      and once there was an administrator there is an active one. */
  lemma {:induction false} RunKeeps(env: Env, st: State, events: seq<Event>)
    requires Sound(env, st)
    ensures Sound(env, Run(env, st, events))
    ensures AdminExists(st.users, env.home) ==> exists id :: IsActiveAdmin(Run(env, st, events), id)
    ensures AdminExists(st.users, env.home) ==> AdminExists(Run(env, st, events).users, env.home)
  {
    if events != [] {
      var init, last := events[..|events| - 1], events[|events| - 1];
      RunKeeps(env, st, init);
      HandleKeeps(env, Run(env, st, init), last.req, last.now);
    }
  }

  const EMPTY := State(map[], map[])

  lemma EmptySound(env: Env)
    ensures Sound(env, EMPTY)
  {
  }

  /** How many first-admin setups of a run succeed. */
  ghost function Setups(env: Env, st: State, events: seq<Event>): nat {
    if events == [] then 0
    else
      var init, last := events[..|events| - 1], events[|events| - 1];
      Setups(env, st, init)
        + (if last.req.Setup? && Handle(env, Run(env, st, init), last.req, last.now).Some? then 1 else 0)
  }

  /** Setup succeeds at most once, and after it there is always an active administrator. */
  lemma {:induction false} SetupAtMostOnce(env: Env, events: seq<Event>)
    ensures Setups(env, EMPTY, events) <= 1
    ensures Setups(env, EMPTY, events) == 1 <==> AdminExists(Run(env, EMPTY, events).users, env.home)
    ensures Setups(env, EMPTY, events) == 1 ==> exists id :: IsActiveAdmin(Run(env, EMPTY, events), id)
  {
    EmptySound(env);
    RunKeeps(env, EMPTY, events);
    if events != [] {
      var init, last := events[..|events| - 1], events[|events| - 1];
      SetupAtMostOnce(env, init);
      RunKeeps(env, EMPTY, init);
      AdminsOnlyFromAdmins(env, Run(env, EMPTY, init), last.req, last.now);
    }
  }

  /** Only setup makes an administrator where there is none. */
  lemma AdminsOnlyFromAdmins(env: Env, st: State, req: Request, now: int)
    requires Sound(env, st)
    ensures var later := After(env, st, req, now);
      && (AdminExists(later.users, env.home)
          <==> AdminExists(st.users, env.home) || (req.Setup? && Handle(env, st, req, now).Some?))
    ensures AdminExists(st.users, env.home) && req.Setup? ==> Handle(env, st, req, now).None?
  {
    HandleKeeps(env, st, req, now);
    if req.Setup? && Handle(env, st, req, now).Some? {
      SetupKeeps(env, st, req.email, req.password, req.newId, req.token, now);
      assert After(env, st, req, now).users[req.newId].isAdmin;
    } else if !AdminExists(st.users, env.home) {
      NoAdminNoChange(env, st, req, now);
    }
  }

  lemma NoAdminNobodyActs(env: Env, st: State)
    requires AllHome(env, st.users) && !AdminExists(st.users, env.home)
    ensures forall token, now :: Admin(st, token, now).None?
  {
    forall token, now ensures Admin(st, token, now).None? {
      if Accepted(st, token, now) && st.sessions[token].user in st.users {
        assert st.users[st.sessions[token].user].organization == env.home;
      }
    }
  }

  lemma NoAdminNoChange(env: Env, st: State, req: Request, now: int)
    requires AllHome(env, st.users) && !AdminExists(st.users, env.home)
    requires req.Setup? ==> Handle(env, st, req, now).None?
    ensures After(env, st, req, now).users == st.users
  {
    NoAdminNobodyActs(env, st);
    match req
    case Setup(email, password, newId, token) =>
    case Login(email, password, token) =>
      if HandleLogin(env, st, email, password, token, now).Some? {
        LoginKeepsUsers(env, st, Lower(Trim(email)), password, token, now);
      }
    case Logout(session) =>
    case CreateUser(session, email, password, isAdmin, isActive, newId) => assert Admin(st, session, now).None?;
    case UpdateUser(session, target, newEmail, setAdmin, setActive) => assert Admin(st, session, now).None?;
    case ChangePassword(session, target, password) => assert Admin(st, session, now).None?;
  }

  lemma LoginKeepsUsers(env: Env, st: State, wanted: string, password: string, token: Token, now: int)
    requires LoginAs(env, st, wanted, password, token, now).Some?
    ensures LoginAs(env, st, wanted, password, token, now).value.users == st.users
  {
  }

  /** The rejection of losing the last active administrator never fires: whoever may ask for the
      update is an active administrator, and is not its target. */
  lemma LastAdminCheckIdle(env: Env, st: State, actor: UserId, target: UserId, nextAdmin: bool, nextActive: bool)
    requires Sound(env, st) && IsActiveAdmin(st, actor) && target in st.users
    ensures UpdateAllowed(st, actor, target, nextAdmin, nextActive) <==> (target == actor ==> nextAdmin && nextActive)
  {
    var admins := ActiveAdmins(st.users, st.users[actor].organization);
    if target != actor && IsActiveAdmin(st, target) {
      assert {actor, target} <= admins;
      SubsetSize({actor, target}, admins);
    }
  }

  lemma SubsetSize<T>(a: set<T>, b: set<T>)
    requires a <= b
    ensures |a| <= |b|
  {
    assert b == a + (b - a);
  }

  // ----- sessions over a run -----

  /** A session keeps its user and its expiry, and a revoked one stays revoked. */
  ghost predicate SessionsKept(a: map<Token, Session>, b: map<Token, Session>) {
    forall t :: t in a ==>
      && t in b && b[t].user == a[t].user && b[t].expiresAt == a[t].expiresAt
      && (a[t].revokedAt.Some? ==> b[t].revokedAt == a[t].revokedAt)
  }

  lemma RevokeKeepsSessions(sessions: map<Token, Session>, user: UserId, except: Option<Token>, now: int)
    ensures SessionsKept(sessions, RevokeSessions(sessions, user, except, now))
  {
  }

  lemma LoginKeepsSessions(env: Env, st: State, wanted: string, password: string, token: Token, now: int)
    requires LoginAs(env, st, wanted, password, token, now).Some?
    ensures SessionsKept(st.sessions, LoginAs(env, st, wanted, password, token, now).value.sessions)
  {
  }

  lemma UpdateKeepsSessions(st: State, actor: UserId, target: UserId, newEmail: Option<string>,
                            setAdmin: Option<bool>, setActive: Option<bool>, now: int)
    requires actor in st.users && HandleUpdate(st, actor, target, newEmail, setAdmin, setActive, now).Some?
    ensures var after := HandleUpdate(st, actor, target, newEmail, setAdmin, setActive, now).value;
      SessionsKept(st.sessions, after.sessions)
  {
    RevokeKeepsSessions(st.sessions, target, None, now);
  }

  lemma PasswordKeepsSessions(env: Env, st: State, token: Token, actor: UserId, target: UserId, password: string,
      now: int)
    requires actor in st.users && HandlePassword(env, st, token, actor, target, password, now).Some?
    ensures SessionsKept(st.sessions, HandlePassword(env, st, token, actor, target, password, now).value.sessions)
  {
    RevokeKeepsSessions(st.sessions, target, if target == actor then Some(token) else None, now);
  }

  lemma HandleKeepsSessions(env: Env, st: State, req: Request, now: int)
    ensures SessionsKept(st.sessions, After(env, st, req, now).sessions)
  {
    hide HandleUpdate, HandlePassword, LoginAs, Trim, Lower, EmailTaken;
    if Handle(env, st, req, now).Some? {
      match req
      case Setup(email, password, newId, token) =>
      case Login(email, password, token) => LoginKeepsSessions(env, st, Lower(Trim(email)), password, token, now);
      case Logout(session) =>
      case CreateUser(session, email, password, isAdmin, isActive, newId) =>
      case UpdateUser(session, target, newEmail, setAdmin, setActive) =>
        UpdateKeepsSessions(st, Admin(st, session, now).value, target, newEmail, setAdmin, setActive, now);
      case ChangePassword(session, target, password) =>
        PasswordKeepsSessions(env, st, session, Admin(st, session, now).value, target, password, now);
    }
  }

  lemma {:induction false} RunKeepsSessions(env: Env, st: State, events: seq<Event>)
    ensures SessionsKept(st.sessions, Run(env, st, events).sessions)
  {
    if events != [] {
      var init, last := events[..|events| - 1], events[|events| - 1];
      RunKeepsSessions(env, st, init);
      HandleKeepsSessions(env, Run(env, st, init), last.req, last.now);
    }
  }

  /** After a password change, however long the run that follows: a session of that user is accepted
      only if it is the changer's own current one or was issued after the change. */
  lemma PasswordChangeEndsSessions(env: Env, st: State, req: Request, now: int, events: seq<Event>, token: Token,
      later: int)
    requires req.ChangePassword? && Handle(env, st, req, now).Some?
    requires var end := Run(env, After(env, st, req, now), events);
      Accepted(end, token, later) && end.sessions[token].user == req.target
    ensures token !in st.sessions || (token == req.session && Admin(st, req.session, now) == Some(req.target))
  {
    var changed := After(env, st, req, now);
    RunKeepsSessions(env, changed, events);
    if token in st.sessions {
      assert changed.sessions[token].revokedAt.None?;
    }
  }

  /** Deactivating a user ends every session it has for good: even if it is activated again, only
      sessions issued later are accepted. */
  lemma DeactivationEndsSessions(env: Env, st: State, req: Request, now: int, events: seq<Event>, token: Token,
      later: int)
    requires Sound(env, st) && req.UpdateUser? && Handle(env, st, req, now).Some?
    requires !IsActive(After(env, st, req, now), req.target)
    requires var end := Run(env, After(env, st, req, now), events);
      Accepted(end, token, later) && end.sessions[token].user == req.target
    ensures token !in st.sessions
  {
    var changed := After(env, st, req, now);
    HandleKeeps(env, st, req, now);
    HandleKeepsSessions(env, st, req, now);
    RunKeepsSessions(env, changed, events);
  }

  /** A logged-out session is never accepted again. */
  lemma LogoutEndsSession(env: Env, st: State, token: Token, now: int, events: seq<Event>, later: int)
    requires Handle(env, st, Logout(token), now).Some?
    ensures !Accepted(Run(env, After(env, st, Logout(token), now), events), token, later)
  {
    RunKeepsSessions(env, After(env, st, Logout(token), now), events);
  }

  /** An accepted session is a live session of an active user: the check of the user that follows
      the check of the session never fails. */
  lemma {:induction false} AcceptedMeansActive(env: Env, events: seq<Event>, token: Token, now: int)
    requires Accepted(Run(env, EMPTY, events), token, now)
    ensures var end := Run(env, EMPTY, events);
      IsActive(end, end.sessions[token].user)
  {
    EmptySound(env);
    RunKeeps(env, EMPTY, events);
  }

  // ----- the program -----

  class AccountTables {
    const env: Env
    var users: map<UserId, User>
    var sessions: map<Token, Session>

    constructor (env: Env)
      ensures this.env == env && View() == EMPTY
    {
      this.env := env;
      users, sessions := map[], map[];
    }

    function View(): State
      reads this
    {
      State(users, sessions)
    }

    method CreateFirstAdmin(email: string, password: string, newId: UserId, token: Token, now: int) returns (ok: bool)
      modifies this
      ensures var r := HandleSetup(env, old(View()), email, password, newId, token, now);
        ok == r.Some? && View() == if ok then r.value else old(View())
    {
      var before := users;
      if AdminExists(users, env.home) {
        return false;
      }
      var normalized := NormalizeEmail(email);
      if normalized.None? || EmailTaken(users, env.home, normalized.value, None) || newId in users {
        return false;
      }
      users := users[newId := User(env.home, normalized.value, env.hash(password), true, true)];
      ok := OpenSession(newId, token, now);
      if !ok {
        users := before;
      }
    }

    /** `_issue_session`. */
    method OpenSession(user: UserId, token: Token, now: int) returns (ok: bool)
      modifies this`sessions
      ensures ok == IssueSession(env, old(View()), user, token, now).Some?
      ensures View() == if ok then IssueSession(env, old(View()), user, token, now).value else old(View())
    {
      ok := token !in sessions;
      if ok {
        sessions := sessions[token := Session(user, now + env.lifetime, None)];
      }
    }

    method Login(email: string, password: string, token: Token, now: int) returns (ok: bool)
      requires EmailsUnique(users)
      modifies this`sessions
      ensures var r := HandleLogin(env, old(View()), email, password, token, now);
        ok == r.Some? && View() == if ok then r.value else old(View())
    {
      ok := LoginWith(Lower(Trim(email)), password, token, now);
    }

    method LoginWith(wanted: string, password: string, token: Token, now: int) returns (ok: bool)
      requires EmailsUnique(users)
      modifies this`sessions
      ensures var r := LoginAs(env, old(View()), wanted, password, token, now);
        ok == r.Some? && View() == if ok then r.value else old(View())
    {
      var found := FindActive(wanted);
      if found.None? || !env.verify(password, users[found.value].password) {
        return false;
      }
      ok := OpenSession(found.value, token, now);
    }

    method FindActive(wanted: string) returns (r: Option<UserId>)
      requires EmailsUnique(users)
      ensures r.Some? <==> FindsUser(users, wanted)
      ensures r.Some? ==> r.value == UserWith(users, wanted)
    {
      var found := set id | id in users && Matches(users[id], wanted);
      if found == {} {
        forall id | id in users ensures !Matches(users[id], wanted) {
          assert id !in found;
        }
        return None;
      }
      var id :| id in found;
      r := Some(id);
    }

    method Logout(token: Token, now: int) returns (ok: bool)
      modifies this`sessions
      ensures var r := HandleLogout(old(View()), token, now);
        ok == r.Some? && View() == if ok then r.value else old(View())
    {
      ok := Accepted(View(), token, now);
      if ok {
        sessions := sessions[token := sessions[token].(revokedAt := Some(now))];
      }
    }

    /** `_revoke_user_sessions`. */
    method RevokeUserSessions(user: UserId, except: Option<Token>, now: int) returns (count: nat)
      modifies this`sessions
      ensures sessions == RevokeSessions(old(sessions), user, except, now)
      ensures var was := old(sessions);
        count == |set t | t in was && was[t].user == user && was[t].revokedAt.None? && Some(t) != except|
    {
      var live := set t | t in sessions && sessions[t].user == user && sessions[t].revokedAt.None? && Some(t) != except;
      var todo := live;
      while todo != {}
        invariant todo <= live && sessions.Keys == old(sessions).Keys
        invariant forall t :: t in live && t !in todo ==> sessions[t] == old(sessions)[t].(revokedAt := Some(now))
        invariant forall t :: t in sessions && !(t in live && t !in todo) ==> sessions[t] == old(sessions)[t]
        decreases |todo|
      {
        var t :| t in todo;
        todo := todo - {t};
        sessions := sessions[t := sessions[t].(revokedAt := Some(now))];
      }
      assert sessions == RevokeSessions(old(sessions), user, except, now);
      count := |live|;
    }

    method UpdateUser(actor: UserId, target: UserId, newEmail: Option<string>,
                      setAdmin: Option<bool>, setActive: Option<bool>, now: int) returns (ok: bool)
      requires actor in users
      modifies this
      ensures var r := HandleUpdate(old(View()), actor, target, newEmail, setAdmin, setActive, now);
        ok == r.Some? && View() == if ok then r.value else old(View())
    {
      var next := CheckedUser(actor, target, newEmail, setAdmin, setActive);
      if next.None? {
        return false;
      }
      users := users[target := next.value];
      if !next.value.isActive {
        var revoked := RevokeUserSessions(target, None, now);
      }
      ok := true;
    }

    method CheckedUser(actor: UserId, target: UserId, newEmail: Option<string>,
                       setAdmin: Option<bool>, setActive: Option<bool>) returns (next: Option<User>)
      requires actor in users
      ensures next == NextUser(View(), actor, target, newEmail, setAdmin, setActive)
    {
      hide UpdateAllowed, NormalizeEmail, EmailTaken;
      var organization := users[actor].organization;
      if target !in users || users[target].organization != organization {
        return None;
      }
      var user := users[target];
      var email := if newEmail.Some? then NormalizeEmail(newEmail.value) else Some(user.email);
      if email.None? {
        return None;
      }
      var nextAdmin := if setAdmin.Some? then setAdmin.value else user.isAdmin;
      var nextActive := if setActive.Some? then setActive.value else user.isActive;
      if email.value != user.email && EmailTaken(users, organization, email.value, Some(target)) {
        return None;
      }
      if !UpdateAllowed(View(), actor, target, nextAdmin, nextActive) {
        return None;
      }
      next := Some(user.(email := email.value, isAdmin := nextAdmin, isActive := nextActive));
    }

    method UpdateUserPassword(token: Token, actor: UserId, target: UserId, password: string,
        now: int) returns (ok: bool)
      requires actor in users
      modifies this
      ensures var r := HandlePassword(env, old(View()), token, actor, target, password, now);
        ok == r.Some? && View() == if ok then r.value else old(View())
    {
      if target !in users || users[target].organization != users[actor].organization {
        return false;
      }
      users := users[target := users[target].(password := env.hash(password))];
      var revoked := RevokeUserSessions(target, if target == actor then Some(token) else None, now);
      ok := true;
    }
  }
}
