/** When an account request is accepted and what it does, and what a password and a session are good for
    over any run that follows. */
module AccountEffects {
  import opened Text
  import opened Accounts

  // ----- when a request is accepted -----

  /** The session is a live one of this active administrator. */
  predicate ActsAs(st: State, session: Token, now: int, actor: UserId) {
    && session in st.sessions && st.sessions[session].revokedAt == None && now < st.sessions[session].expiresAt
    && st.sessions[session].user == actor
    && actor in st.users && st.users[actor].isActive && st.users[actor].isAdmin
  }

  ghost predicate ByAdmin(st: State, session: Token, now: int) {
    exists actor :: ActsAs(st, session, now, actor)
  }

  /** The active user with this email, whose stored hash the password fits. */
  predicate LogsIn(env: Env, st: State, email: string, password: string, id: UserId) {
    && id in st.users && st.users[id].isActive && st.users[id].email == Lower(Trim(email))
    && env.verify(password, st.users[id].password)
  }

  /** An address nobody else has. */
  predicate EmailFree(users: map<UserId, User>, email: string, own: Option<UserId>) {
    '@' in Lower(Trim(email)) && forall id :: id in users && Some(id) != own ==> users[id].email != Lower(Trim(email))
  }

  ghost predicate Acceptable(env: Env, st: State, req: Request, now: int) {
    match req
    case Setup(email, password, newId, token) =>
      && (forall id :: id in st.users ==> !st.users[id].isAdmin)
      && EmailFree(st.users, email, None) && newId !in st.users && token !in st.sessions
    case Login(email, password, token) =>
      token !in st.sessions && exists id :: LogsIn(env, st, email, password, id)
    case Logout(session) =>
      session in st.sessions && st.sessions[session].revokedAt == None && now < st.sessions[session].expiresAt
    case CreateUser(session, email, password, isAdmin, isActive, newId) =>
      ByAdmin(st, session, now) && EmailFree(st.users, email, None) && newId !in st.users
    case UpdateUser(session, target, newEmail, setAdmin, setActive) =>
      && ByAdmin(st, session, now) && target in st.users
      && (newEmail.Some? ==> EmailFree(st.users, newEmail.value, Some(target)))
      && (ActsAs(st, session, now, target) ==> setAdmin != Some(false) && setActive != Some(false))
    case ChangePassword(session, target, password) => ByAdmin(st, session, now) && target in st.users
  }

  lemma AdminIs(st: State, session: Token, now: int)
    ensures Admin(st, session, now).Some? <==> ByAdmin(st, session, now)
    ensures forall actor :: ActsAs(st, session, now, actor) <==> Admin(st, session, now) == Some(actor)
  {
    if Admin(st, session, now).Some? {
      assert ActsAs(st, session, now, Admin(st, session, now).value);
    }
  }

  /** One session more, of this user, for the session lifetime. */
  function Opened(env: Env, st: State, id: UserId, token: Token, now: int): State {
    st.(sessions := st.sessions[token := Session(id, now + env.lifetime, None)])
  }

  /** With unique emails, a login succeeds exactly when the token is free and the password fits the
      stored hash of the active user with that email; it opens one session of that user. */
  lemma LoginAccepted(env: Env, st: State, email: string, password: string, token: Token, now: int)
    requires EmailsUnique(st.users)
    ensures var r := Handle(env, st, Login(email, password, token), now);
      && (r.Some? <==> token !in st.sessions && exists id :: LogsIn(env, st, email, password, id))
      && (forall id :: r.Some? && LogsIn(env, st, email, password, id) ==> r.value == Opened(env, st, id, token, now))
  {
    hide Trim, Lower;
    var wanted := Lower(Trim(email));
    if id :| LogsIn(env, st, email, password, id) {
      assert Matches(st.users[id], wanted);
    }
    if FindsUser(st.users, wanted) {
      var id := UserWith(st.users, wanted);
      forall j | LogsIn(env, st, email, password, j) ensures j == id { }
      if env.verify(password, st.users[id].password) {
        assert LogsIn(env, st, email, password, id);
      }
    }
  }

  lemma EmailFreeIff(env: Env, users: map<UserId, User>, email: string, own: Option<UserId>)
    requires AllHome(env, users)
    ensures EmailFree(users, email, own)
       <==> NormalizeEmail(email).Some? && !EmailTaken(users, env.home, NormalizeEmail(email).value, own)
  {
    hide Trim, Lower;
  }

  lemma SetupAccepted(env: Env, st: State, email: string, password: string, newId: UserId, token: Token, now: int)
    requires Sound(env, st)
    ensures Handle(env, st, Setup(email, password, newId, token), now).Some?
       <==> Acceptable(env, st, Setup(email, password, newId, token), now)
  {
    hide NormalizeEmail, EmailTaken, EmailFree, EmailsUnique, OwnersActive, AdminKept;
    EmailFreeIff(env, st.users, email, None);
    assert AdminExists(st.users, env.home) <==> exists id :: id in st.users && st.users[id].isAdmin;
  }

  lemma UpdateAccepted(env: Env, st: State, actor: UserId, target: UserId, newEmail: Option<string>,
                       setAdmin: Option<bool>, setActive: Option<bool>)
    requires Sound(env, st) && IsActiveAdmin(st, actor)
    ensures NextUser(st, actor, target, newEmail, setAdmin, setActive).Some? <==>
      && target in st.users && (newEmail.Some? ==> EmailFree(st.users, newEmail.value, Some(target)))
      && (target == actor ==> setAdmin != Some(false) && setActive != Some(false))
  {
    hide NormalizeEmail, EmailTaken, EmailFree, UpdateAllowed, OwnersActive, AdminKept, EmailsUnique;
    if target in st.users {
      var user := st.users[target];
      var nextAdmin := if setAdmin.Some? then setAdmin.value else user.isAdmin;
      var nextActive := if setActive.Some? then setActive.value else user.isActive;
      LastAdminCheckIdle(env, st, actor, target, nextAdmin, nextActive);
      OwnEmailFree(env, st.users, target);
      if newEmail.Some? {
        EmailFreeIff(env, st.users, newEmail.value, Some(target));
      }
    }
  }

  /** Every request is accepted exactly when it may be: in particular the rejection of losing the last
      active administrator never decides. */
  lemma RequestIff(env: Env, st: State, req: Request, now: int)
    requires Sound(env, st)
    ensures Handle(env, st, req, now).Some? <==> Acceptable(env, st, req, now)
  {
    hide NextUser, EmailFree, EmailTaken, NormalizeEmail, EmailsUnique, OwnersActive, AdminKept, LoginAs, LogsIn;
    match req
    case Setup(email, password, newId, token) => SetupAccepted(env, st, email, password, newId, token, now);
    case Login(email, password, token) => LoginAccepted(env, st, email, password, token, now);
    case Logout(session) =>
    case CreateUser(session, email, password, isAdmin, isActive, newId) =>
      AdminIs(st, session, now);
      EmailFreeIff(env, st.users, email, None);
    case UpdateUser(session, target, newEmail, setAdmin, setActive) =>
      AdminIs(st, session, now);
      if Admin(st, session, now).Some? {
        UpdateAccepted(env, st, Admin(st, session, now).value, target, newEmail, setAdmin, setActive);
      }
    case ChangePassword(session, target, password) => AdminIs(st, session, now);
  }

  // ----- what an accepted request does -----

  /** These sessions of the user are revoked now; every other session is as it was. */
  predicate Revoked(before: map<Token, Session>, after: map<Token, Session>, user: UserId, except: Option<Token>,
    now: int)
  {
    && after.Keys == before.Keys
    && forall t :: t in before && t in after ==>
         after[t] == if before[t].user == user && before[t].revokedAt == None && Some(t) != except
                     then before[t].(revokedAt := Some(now)) else before[t]
  }

  /** The tables after an accepted request: the row it makes or changes, with the normalized email and
      the hash of the password, and the sessions it opens or ends. */
  ghost predicate Does(env: Env, st: State, req: Request, now: int, st': State) {
    match req
    case Setup(email, password, newId, token) =>
      st' == Opened(env, st.(users := st.users[newId := User(env.home, Lower(Trim(email)), env.hash(password), true,
                                                              true)]), newId, token, now)
    case Login(email, password, token) =>
      forall id :: LogsIn(env, st, email, password, id) ==> st' == Opened(env, st, id, token, now)
    case Logout(session) =>
      && st'.users == st.users && session in st.sessions
      && st'.sessions == st.sessions[session := st.sessions[session].(revokedAt := Some(now))]
    case CreateUser(session, email, password, isAdmin, isActive, newId) =>
      && st'.sessions == st.sessions
      && st'.users == st.users[newId := User(env.home, Lower(Trim(email)), env.hash(password), isAdmin, isActive)]
    case UpdateUser(session, target, newEmail, setAdmin, setActive) =>
      && target in st.users && target in st'.users
      && st'.users == st.users[target := st.users[target].(
             email := if newEmail.Some? then Lower(Trim(newEmail.value)) else st.users[target].email,
             isAdmin := if setAdmin.Some? then setAdmin.value else st.users[target].isAdmin,
             isActive := if setActive.Some? then setActive.value else st.users[target].isActive)]
      && (if st'.users[target].isActive then st'.sessions == st.sessions
          else Revoked(st.sessions, st'.sessions, target, None, now))
    case ChangePassword(session, target, password) =>
      && target in st.users && st'.users == st.users[target := st.users[target].(password := env.hash(password))]
      && var own := if ActsAs(st, session, now, target) then Some(session) else None;
         Revoked(st.sessions, st'.sessions, target, own, now)
  }

  lemma RequestDoes(env: Env, st: State, req: Request, now: int)
    requires Sound(env, st) && Handle(env, st, req, now).Some?
    ensures Does(env, st, req, now, Handle(env, st, req, now).value)
  {
    hide EmailTaken, UpdateAllowed, LoginAs, LogsIn, OwnersActive, AdminKept, EmailsUnique, Trim, Lower;
    match req
    case Setup(email, password, newId, token) =>
    case Login(email, password, token) => LoginAccepted(env, st, email, password, token, now);
    case Logout(session) =>
    case CreateUser(session, email, password, isAdmin, isActive, newId) =>
    case UpdateUser(session, target, newEmail, setAdmin, setActive) =>
    case ChangePassword(session, target, password) => AdminIs(st, session, now);
  }

  // ----- what a password is good for -----

  /** The request gives this user this password. */
  predicate SetsPassword(req: Request, id: UserId, password: string) {
    match req
    case Setup(_, q, newId, _) => newId == id && q == password
    case CreateUser(_, _, q, _, _, newId) => newId == id && q == password
    case ChangePassword(_, target, q) => target == id && q == password
    case _ => false
  }

  /** Some accepted request of the run changes the user's password. */
  ghost predicate PasswordChanged(env: Env, st: State, events: seq<Event>, id: UserId) {
    exists i :: 0 <= i < |events| && ChangesPassword(env, Run(env, st, events[..i]), events[i], id)
  }

  ghost predicate ChangesPassword(env: Env, st: State, e: Event, id: UserId) {
    e.req.ChangePassword? && e.req.target == id && Handle(env, st, e.req, e.now).Some?
  }

  lemma StepKeepsPassword(env: Env, st: State, e: Event, id: UserId)
    requires Sound(env, st) && id in st.users && !ChangesPassword(env, st, e, id)
    ensures var st' := After(env, st, e.req, e.now);
      id in st'.users && st'.users[id].password == st.users[id].password
  {
    hide Handle, Sound, LogsIn, EmailFree, Trim, Lower;
    if Handle(env, st, e.req, e.now).Some? {
      RequestIff(env, st, e.req, e.now);
      RequestDoes(env, st, e.req, e.now);
      if e.req.Login? {
        var who :| LogsIn(env, st, e.req.email, e.req.password, who);
      }
    }
  }

  lemma {:induction false} RunKeepsPassword(env: Env, st: State, events: seq<Event>, id: UserId)
    requires Sound(env, st) && id in st.users && !PasswordChanged(env, st, events, id)
    ensures var end := Run(env, st, events);
      id in end.users && end.users[id].password == st.users[id].password
  {
    if events != [] {
      hide Sound, After, ChangesPassword;
      var init, last := events[..|events| - 1], events[|events| - 1];
      assert !PasswordChanged(env, st, init, id) by {
        forall i | 0 <= i < |init| ensures !ChangesPassword(env, Run(env, st, init[..i]), init[i], id) {
          assert init[..i] == events[..i] && init[i] == events[i];
        }
      }
      RunKeepsPassword(env, st, init, id);
      RunKeeps(env, st, init);
      assert !ChangesPassword(env, Run(env, st, init), events[|events| - 1], id);
      StepKeepsPassword(env, Run(env, st, init), last, id);
    }
  }

  /** The password given last decides: after a setup, a creation or a password change, and any run in
      which no further change of that user's password is accepted, a login as that user, when active and
      with its email, succeeds exactly with a password that fits the hash of the one given. */
  lemma LastPasswordDecides(env: Env, st: State, req: Request, now: int, events: seq<Event>, id: UserId,
    given: string, email: string, attempt: string, token: Token, later: int)
    requires Sound(env, st) && SetsPassword(req, id, given) && Handle(env, st, req, now).Some?
    requires !PasswordChanged(env, After(env, st, req, now), events, id)
    ensures var end := Run(env, After(env, st, req, now), events);
      && id in end.users
      && (end.users[id].isActive && end.users[id].email == Lower(Trim(email)) && token !in end.sessions ==>
            (Handle(env, end, Login(email, attempt, token), later).Some? <==> env.verify(attempt, env.hash(given))))
  {
    hide Handle, Sound, PasswordChanged, EmailFree, Trim, Lower;
    var st' := After(env, st, req, now);
    RequestIff(env, st, req, now);
    RequestDoes(env, st, req, now);
    HandleKeeps(env, st, req, now);
    assert id in st'.users && st'.users[id].password == env.hash(given);
    RunKeepsPassword(env, st', events, id);
    RunKeeps(env, st', events);
    var end := Run(env, st', events);
    if end.users[id].isActive && end.users[id].email == Lower(Trim(email)) {
      OneLogsIn(env, end, email, attempt, id);
    }
    RequestIff(env, end, Login(email, attempt, token), later);
  }

  lemma OneLogsIn(env: Env, st: State, email: string, password: string, id: UserId)
    requires Sound(env, st) && id in st.users && st.users[id].email == Lower(Trim(email)) && st.users[id].isActive
    ensures (exists j :: LogsIn(env, st, email, password, j)) <==> env.verify(password, st.users[id].password)
  {
    hide Trim, Lower;
    if env.verify(password, st.users[id].password) {
      assert LogsIn(env, st, email, password, id);
    }
  }

  // ----- how long a session is good -----

  /** An accepted request ends the session: its logout, an update that leaves its user inactive, or a
      change of its user's password by anyone but the session itself. */
  ghost predicate Ends(env: Env, st: State, e: Event, token: Token)
    requires token in st.sessions
  {
    && Handle(env, st, e.req, e.now).Some?
    && var user := st.sessions[token].user;
       match e.req
       case Logout(session) => session == token
       case UpdateUser(_, target, _, _, _) => target == user && !IsActive(After(env, st, e.req, e.now), user)
       case ChangePassword(session, target, _) => target == user && session != token
       case _ => false
  }

  ghost predicate EndsIn(env: Env, st: State, events: seq<Event>, token: Token) {
    exists i :: 0 <= i < |events| && EndsAt(env, Run(env, st, events[..i]), events[i], token)
  }

  ghost predicate EndsAt(env: Env, st: State, e: Event, token: Token) {
    token in st.sessions && Ends(env, st, e, token)
  }

  lemma StepSession(env: Env, st: State, e: Event, token: Token)
    requires Sound(env, st) && token in st.sessions && st.sessions[token].revokedAt == None
    ensures var st' := After(env, st, e.req, e.now);
      && token in st'.sessions
      && (EndsAt(env, st, e, token) ==> st'.sessions[token].revokedAt.Some?)
      && (!EndsAt(env, st, e, token) ==> st'.sessions[token] == st.sessions[token])
  {
    hide Handle, LogsIn, EmailFree, EmailsUnique, AdminKept, Trim, Lower;
    if Handle(env, st, e.req, e.now).Some? {
      RequestIff(env, st, e.req, e.now);
      RequestDoes(env, st, e.req, e.now);
      if e.req.Login? {
        var who :| LogsIn(env, st, e.req.email, e.req.password, who);
      }
    }
  }

  lemma {:induction false} RunSession(env: Env, st: State, events: seq<Event>, token: Token)
    requires Sound(env, st) && token in st.sessions && st.sessions[token].revokedAt == None
    ensures var end := Run(env, st, events);
      && token in end.sessions
      && (if EndsIn(env, st, events, token) then end.sessions[token].revokedAt.Some?
          else end.sessions[token] == st.sessions[token])
  {
    if events != [] {
      hide Sound, After, EndsAt;
      var init, last := events[..|events| - 1], events[|events| - 1];
      var mid := Run(env, st, init);
      RunSession(env, st, init, token);
      RunKeeps(env, st, init);
      HandleKeepsSessions(env, mid, last.req, last.now);
      EndsSnoc(env, st, events, token);
      if !EndsIn(env, st, init, token) {
        StepSession(env, mid, last, token);
      }
    }
  }

  lemma EndsSnoc(env: Env, st: State, events: seq<Event>, token: Token)
    requires events != []
    ensures var init, last := events[..|events| - 1], events[|events| - 1];
      EndsIn(env, st, events, token) <==> EndsIn(env, st, init, token) || EndsAt(env, Run(env, st, init), last, token)
  {
    hide EndsAt, Run;
    var init, n := events[..|events| - 1], |events| - 1;
    forall i | 0 <= i < |init| ensures init[..i] == events[..i] && init[i] == events[i] { }
    if i :| 0 <= i < |events| && EndsAt(env, Run(env, st, events[..i]), events[i], token) {
      if i < n {
        assert EndsAt(env, Run(env, st, init[..i]), init[i], token);
      }
    }
    if i :| 0 <= i < |init| && EndsAt(env, Run(env, st, init[..i]), init[i], token) {
      assert EndsAt(env, Run(env, st, events[..i]), events[i], token);
    }
    if EndsAt(env, Run(env, st, init), events[n], token) {
      assert events[..n] == init;
    }
  }

  /** A session opened by a login is accepted until its lifetime is over, and no longer, unless a request
      of the run ends it. */
  lemma SessionAcceptedIff(env: Env, st: State, email: string, password: string, token: Token, now: int,
    events: seq<Event>, later: int)
    requires Sound(env, st) && Handle(env, st, Login(email, password, token), now).Some?
    ensures var st' := After(env, st, Login(email, password, token), now);
      Accepted(Run(env, st', events), token, later)
      <==> later < now + env.lifetime && !EndsIn(env, st', events, token)
  {
    hide Handle, Sound, EndsIn, LogsIn, Trim, Lower;
    var req := Login(email, password, token);
    var st' := After(env, st, req, now);
    RequestIff(env, st, req, now);
    RequestDoes(env, st, req, now);
    HandleKeeps(env, st, req, now);
    var id :| LogsIn(env, st, email, password, id);
    RunSession(env, st', events, token);
  }
}
