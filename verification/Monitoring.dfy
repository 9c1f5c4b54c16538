/** The monitoring status and the reasons given for it. */
module Monitoring {
  import opened Text

  datatype Backend = BotFramework | Graph

  datatype Route = Route(name: string, backend: Backend, isActive: bool, lastStatus: Option<string>)

  datatype Event = Event(status: string, createdAt: int, route: Option<nat>)

  /** The rows as the queries see them: routes in the order of the problem list, most recently
      updated first, and delivery events naming a route by its place. */
  datatype Database = Database(routes: seq<Route>, events: seq<Event>)

  datatype Settings = Settings(botEnabled: bool, lookupEnabled: bool, deliveryEnabled: bool, isReal: bool)

  datatype Readiness = Readiness(bot: bool, lookup: bool, delivery: bool)

  datatype RouteCounts = RouteCounts(total: nat, active: nat, inactive: nat, failed: nat, rejected: nat, untested: nat)

  datatype Window = Window(delivered: nat, failed: nat, rejected: nat)

  datatype Status = Fine | Warn | Crit

  datatype Problem = Inactive | LastFailed | LastRejected | Untested

  datatype Detail =
    | DatabaseFailed
    | BotNotReady
    | LookupNotReady
    | DeliveryNotReady
    | Routes(problem: Problem, count: nat, shown: seq<string>, more: nat)
    | RecentFailures

  const NO_COUNTS := RouteCounts(0, 0, 0, 0, 0, 0)
  const NO_WINDOW := Window(0, 0, 0)
  const PROBLEM_ROUTE_LIMIT := 25
  const MINUTE := 60

  // ----- counting -----

  function Count<T>(s: seq<T>, p: T -> bool): nat {
    if s == [] then 0 else (if p(s[0]) then 1 else 0) + Count(s[1..], p)
  }

  function Matching<T>(s: seq<T>, p: T -> bool): (r: seq<T>)
    ensures forall x :: x in r ==> x in s && p(x)
  {
    if s == [] then [] else (if p(s[0]) then [s[0]] else []) + Matching(s[1..], p)
  }

  lemma {:induction false} CountMono<T>(s: seq<T>, p: T -> bool, q: T -> bool)
    requires forall x :: x in s && p(x) ==> q(x)
    ensures Count(s, p) <= Count(s, q)
  {
    if s != [] {
      CountMono(s[1..], p, q);
    }
  }

  lemma {:induction false} CountPositive<T>(s: seq<T>, p: T -> bool)
    ensures Count(s, p) > 0 <==> exists x :: x in s && p(x)
  {
    if s != [] {
      CountPositive(s[1..], p);
      assert s == [s[0]] + s[1..];
    }
  }

  /** What is found in the first selected rows is at most what there is. */
  lemma {:induction false} MatchingTakeMatching<T>(s: seq<T>, p: T -> bool, limit: nat, q: T -> bool)
    ensures var some := Matching(s, p);
      |Matching(some[..if |some| <= limit then |some| else limit], q)| <= Count(s, q)
    decreases s, limit
  {
    if s != [] {
      var rest := Matching(s[1..], p);
      var next := if p(s[0]) && limit > 0 then limit - 1 else limit;
      MatchingTakeMatching(s[1..], p, next, q);
      var all := Matching(s, p);
      var cut := all[..if |all| <= limit then |all| else limit];
      var tail := rest[..if |rest| <= next then |rest| else next];
      if !p(s[0]) {
        assert all == rest;
      } else if limit == 0 {
        assert cut == [];
      } else {
        assert all == [s[0]] + rest;
        assert cut == [s[0]] + tail;
        assert cut[1..] == tail;
      }
    }
  }

  // ----- queries -----

  predicate HasProblem(r: Route, problem: Problem) {
    match problem
    case Inactive => !r.isActive
    case LastFailed => r.lastStatus == Some("failed")
    case LastRejected => r.lastStatus == Some("rejected")
    case Untested => r.isActive && r.lastStatus.None?
  }

  /** The row filter: no filter, or only some backends. */
  predicate Wanted(backends: Option<set<Backend>>, backend: Backend) {
    backends.None? || backend in backends.value
  }

  function CountProblem(db: Database, backends: Option<set<Backend>>, problem: Problem): nat {
    Count(db.routes, (r: Route) => Wanted(backends, r.backend) && HasProblem(r, problem))
  }

  /** `_route_counts`. */
  function CountRoutes(db: Database, backends: Option<set<Backend>>): RouteCounts {
    RouteCounts(
      Count(db.routes, (r: Route) => Wanted(backends, r.backend)),
      Count(db.routes, (r: Route) => Wanted(backends, r.backend) && r.isActive),
      CountProblem(db, backends, Inactive),
      CountProblem(db, backends, LastFailed),
      CountProblem(db, backends, LastRejected),
      CountProblem(db, backends, Untested))
  }

  /** An event counts when it is recent enough and, under a filter, has no route or a route on one of
      the backends; the route of an event may be gone only without a filter. */
  predicate InWindow(db: Database, e: Event, since: int, backends: Option<set<Backend>>) {
    && since <= e.createdAt
    && (backends.None? || e.route.None?
        || (e.route.value < |db.routes| && db.routes[e.route.value].backend in backends.value))
  }

  function CountEvents(db: Database, since: int, backends: Option<set<Backend>>, status: string): nat {
    Count(db.events, (e: Event) => InWindow(db, e, since, backends) && e.status == status)
  }

  /** `_rolling_window`. */
  function RollingWindow(db: Database, since: int, backends: Option<set<Backend>>): Window {
    Window(
      CountEvents(db, since, backends, "delivered"),
      CountEvents(db, since, backends, "failed"),
      CountEvents(db, since, backends, "rejected"))
  }

  predicate IsProblem(r: Route) {
    HasProblem(r, Inactive) || HasProblem(r, LastFailed) || HasProblem(r, LastRejected) || HasProblem(r, Untested)
  }

  /** `_problem_routes`. */
  function ProblemRoutes(db: Database): seq<Route> {
    var all := Matching(db.routes, IsProblem);
    all[..if |all| <= PROBLEM_ROUTE_LIMIT then |all| else PROBLEM_ROUTE_LIMIT]
  }

  function EnabledBackends(s: Settings): set<Backend> {
    (if s.botEnabled then {BotFramework} else {}) + (if GraphDeliveryOn(s) then {Graph} else {})
  }

  predicate GraphDeliveryOn(s: Settings) {
    s.deliveryEnabled && s.lookupEnabled
  }

  // ----- the status -----

  function Rollup(databaseOk: bool, s: Settings, ready: Readiness, routes: RouteCounts, recent: Window): Status {
    if !databaseOk || (s.botEnabled && s.isReal && !ready.bot) then Crit
    else if
      || (s.lookupEnabled && !ready.lookup)
      || (GraphDeliveryOn(s) && !ready.delivery)
      || routes.inactive != 0 || routes.failed != 0 || routes.rejected != 0 || routes.untested != 0
      || recent.failed != 0 || recent.rejected != 0
    then Warn
    else Fine
  }

  /** What the status report carries: the status comes from the rows of enabled backends, the counts
      and names it shows from all rows. */
  datatype Report = Report(
    status: Status, databaseOk: bool, settings: Settings, ready: Readiness,
    routes: RouteCounts, short: Window, problems: seq<Route>)

  /** `_build_monitoring_status`; without a database every query counts nothing. */
  function Build(database: Option<Database>, s: Settings, ready: Readiness, now: int): Report {
    match database
    case None =>
      Report(Rollup(false, s, ready, NO_COUNTS, NO_WINDOW), false, s, ready, NO_COUNTS, NO_WINDOW, [])
    case Some(db) =>
      var enabled := Some(EnabledBackends(s));
      Report(
        Rollup(true, s, ready, CountRoutes(db, enabled), RollingWindow(db, now - 5 * MINUTE, enabled)),
        true, s, ready, CountRoutes(db, None), RollingWindow(db, now - 5 * MINUTE, None), ProblemRoutes(db))
  }

  function RouteNames(routes: seq<Route>): seq<string> {
    seq(|routes|, i requires 0 <= i < |routes| => routes[i].name)
  }

  /** `_format_problem_route_names`: up to three names and how many more there are. */
  function RouteDetail(problem: Problem, count: nat, names: seq<string>): Detail {
    var visible := names[..if |names| <= 3 then |names| else 3];
    Routes(problem, count, visible,
           if names == [] then 0 else if |visible| <= count then count - |visible| else 0)
  }

  function ProblemCount(routes: RouteCounts, problem: Problem): nat {
    match problem
    case Inactive => routes.inactive
    case LastFailed => routes.failed
    case LastRejected => routes.rejected
    case Untested => routes.untested
  }

  function NamesWith(problems: seq<Route>, problem: Problem): seq<string> {
    RouteNames(Matching(problems, r => HasProblem(r, problem)))
  }

  function ProblemDetail(routes: RouteCounts, problems: seq<Route>, problem: Problem): seq<Detail> {
    if ProblemCount(routes, problem) == 0 then []
    else [RouteDetail(problem, ProblemCount(routes, problem), NamesWith(problems, problem))]
  }

  function RouteDetails(routes: RouteCounts, problems: seq<Route>): seq<Detail> {
    ProblemDetail(routes, problems, Inactive) + ProblemDetail(routes, problems, LastFailed)
      + ProblemDetail(routes, problems, LastRejected) + ProblemDetail(routes, problems, Untested)
  }

  function CriticalDetails(r: Report): seq<Detail> {
    (if !r.databaseOk then [DatabaseFailed] else [])
      + (if r.settings.botEnabled && !r.ready.bot then [BotNotReady] else [])
  }

  function OtherDetails(r: Report): seq<Detail> {
    (if r.settings.lookupEnabled && !r.ready.lookup then [LookupNotReady] else [])
      + (if GraphDeliveryOn(r.settings) && !r.ready.delivery then [DeliveryNotReady] else [])
      + RouteDetails(r.routes, r.problems)
      + (if r.short.failed != 0 || r.short.rejected != 0 then [RecentFailures] else [])
  }

  /** `_prtg_status_details`. */
  function Details(r: Report): seq<Detail> {
    var critical := CriticalDetails(r);
    if r.status == Crit && critical != [] then critical else critical + OtherDetails(r)
  }

  method StatusDetails(r: Report) returns (details: seq<Detail>)
    ensures details == Details(r)
  {
    var critical: seq<Detail> := [];
    if !r.databaseOk {
      critical := critical + [DatabaseFailed];
    }
    if r.settings.botEnabled && !r.ready.bot {
      critical := critical + [BotNotReady];
    }
    assert critical == CriticalDetails(r);
    if r.status == Crit && critical != [] {
      return critical;
    }
    var others := CollectOthers(r);
    details := critical + others;
  }

  method CollectOthers(r: Report) returns (details: seq<Detail>)
    ensures details == OtherDetails(r)
  {
    hide RouteDetails;
    details := [];
    if r.settings.lookupEnabled && !r.ready.lookup {
      details := details + [LookupNotReady];
    }
    if GraphDeliveryOn(r.settings) && !r.ready.delivery {
      details := details + [DeliveryNotReady];
    }
    var routes := RouteProblemDetails(r.routes, r.problems);
    details := details + routes;
    if r.short.failed != 0 || r.short.rejected != 0 {
      details := details + [RecentFailures];
    }
  }

  /** `_prtg_route_problem_details`. */
  method RouteProblemDetails(routes: RouteCounts, problems: seq<Route>) returns (details: seq<Detail>)
    ensures details == RouteDetails(routes, problems)
  {
    details := [];
    if routes.inactive != 0 {
      details := details + [RouteDetail(Inactive, routes.inactive, NamesWith(problems, Inactive))];
    }
    if routes.failed != 0 {
      details := details + [RouteDetail(LastFailed, routes.failed, NamesWith(problems, LastFailed))];
    }
    if routes.rejected != 0 {
      details := details + [RouteDetail(LastRejected, routes.rejected, NamesWith(problems, LastRejected))];
    }
    if routes.untested != 0 {
      details := details + [RouteDetail(Untested, routes.untested, NamesWith(problems, Untested))];
    }
  }

  // ----- a status is always explained -----

  lemma FilteredProblems(db: Database, backends: set<Backend>, problem: Problem)
    ensures CountProblem(db, Some(backends), problem) <= CountProblem(db, None, problem)
  {
    CountMono(db.routes,
              (r: Route) => Wanted(Some(backends), r.backend) && HasProblem(r, problem),
              (r: Route) => Wanted(None, r.backend) && HasProblem(r, problem));
  }

  lemma FilteredEvents(db: Database, since: int, backends: set<Backend>, status: string)
    ensures CountEvents(db, since, Some(backends), status) <= CountEvents(db, since, None, status)
  {
    CountMono(db.events,
              (e: Event) => InWindow(db, e, since, Some(backends)) && e.status == status,
              (e: Event) => InWindow(db, e, since, None) && e.status == status);
  }

  /** Every status but the good one comes with a reason, although it is computed from the rows of the
      enabled backends and the reasons from all rows. */
  lemma NotFineIsExplained(database: Option<Database>, s: Settings, ready: Readiness, now: int)
    ensures var r := Build(database, s, ready, now);
      r.status != Fine ==> Details(r) != []
  {
    if database.Some? {
      var db, enabled := database.value, EnabledBackends(s);
      FilteredProblems(db, enabled, Inactive);
      FilteredProblems(db, enabled, LastFailed);
      FilteredProblems(db, enabled, LastRejected);
      FilteredProblems(db, enabled, Untested);
      FilteredEvents(db, now - 5 * MINUTE, enabled, "failed");
      FilteredEvents(db, now - 5 * MINUTE, enabled, "rejected");
    }
  }

  /** A critical status names exactly its causes: a failed database check, and an enabled bot that is
      not ready. */
  lemma CriticalCauses(database: Option<Database>, s: Settings, ready: Readiness, now: int)
    ensures var r := Build(database, s, ready, now);
      && (r.status == Crit <==> database.None? || (s.botEnabled && s.isReal && !ready.bot))
      && (r.status == Crit ==>
            && (DatabaseFailed in Details(r) <==> database.None?)
            && (BotNotReady in Details(r) <==> s.botEnabled && !ready.bot)
            && (forall d :: d in Details(r) ==> d == DatabaseFailed || d == BotNotReady))
  {
  }

  /** Unless the status is critical, each reason is given exactly when it holds, on all rows. */
  lemma ReasonsIff(db: Database, s: Settings, ready: Readiness, now: int, problem: Problem)
    requires Build(Some(db), s, ready, now).status != Crit
    ensures var details := Details(Build(Some(db), s, ready, now));
      && (DatabaseFailed !in details)
      && (BotNotReady in details <==> s.botEnabled && !ready.bot)
      && (LookupNotReady in details <==> s.lookupEnabled && !ready.lookup)
      && (DeliveryNotReady in details <==> s.lookupEnabled && s.deliveryEnabled && !ready.delivery)
      && ((exists d :: d in details && d.Routes? && d.problem == problem)
          <==> exists r :: r in db.routes && HasProblem(r, problem))
      && (RecentFailures in details
          <==> exists e ::
                 e in db.events && now - 300 <= e.createdAt && (e.status == "failed" || e.status == "rejected"))
  {
    hide Count, HasProblem, ProblemRoutes, Rollup, RouteDetail, EnabledBackends;
    var r := Build(Some(db), s, ready, now);
    RecentIff(db, now);
    CountPositive(db.routes, (x: Route) => Wanted(None, x.backend) && HasProblem(x, problem));
    RouteReasons(r.routes, r.problems, problem);
    ReasonSplit(r);
  }

  lemma RecentIff(db: Database, now: int)
    ensures var w := RollingWindow(db, now - 5 * MINUTE, None);
      (w.failed != 0 || w.rejected != 0)
      <==> exists e :: e in db.events && now - 300 <= e.createdAt && (e.status == "failed" || e.status == "rejected")
  {
    hide Count;
    CountPositive(db.events, (e: Event) => InWindow(db, e, now - 5 * MINUTE, None) && e.status == "failed");
    CountPositive(db.events, (e: Event) => InWindow(db, e, now - 5 * MINUTE, None) && e.status == "rejected");
  }

  lemma RouteReasons(routes: RouteCounts, problems: seq<Route>, problem: Problem)
    ensures forall d :: d in RouteDetails(routes, problems) ==> d.Routes?
    ensures (exists d :: d in RouteDetails(routes, problems) && d.Routes? && d.problem == problem)
       <==> ProblemCount(routes, problem) != 0
  {
    hide NamesWith;
    if ProblemCount(routes, problem) != 0 {
      assert ProblemDetail(routes, problems, problem)[0] in RouteDetails(routes, problems);
    }
  }

  lemma ReasonSplit(r: Report)
    requires r.status != Crit && r.databaseOk
    ensures forall d :: d in Details(r) <==>
      || (d == BotNotReady && r.settings.botEnabled && !r.ready.bot)
      || (d == LookupNotReady && r.settings.lookupEnabled && !r.ready.lookup)
      || (d == DeliveryNotReady && GraphDeliveryOn(r.settings) && !r.ready.delivery)
      || d in RouteDetails(r.routes, r.problems)
      || (d == RecentFailures && (r.short.failed != 0 || r.short.rejected != 0))
  {
    hide RouteDetails;
  }

  /** A good status may still leave something unsaid: exactly what concerns only disabled backends,
      and a bot that is not ready while deliveries are mocked. */
  lemma FineLeavesUnsaid(db: Database, s: Settings, ready: Readiness, now: int)
    requires Build(Some(db), s, ready, now).status == Fine
    ensures var r := Build(Some(db), s, ready, now);
      Details(r) != [] <==>
        || (s.botEnabled && !ready.bot && !s.isReal)
        || (exists x :: x in db.routes && x.backend !in EnabledBackends(s) && IsProblem(x))
        || (exists e :: e in db.events && InWindow(db, e, now - 5 * MINUTE, None)
              && !InWindow(db, e, now - 5 * MINUTE, Some(EnabledBackends(s)))
              && (e.status == "failed" || e.status == "rejected"))
  {
    var enabled := EnabledBackends(s);
    var since := now - 5 * MINUTE;
    ProblemElsewhere(db, enabled, Inactive);
    ProblemElsewhere(db, enabled, LastFailed);
    ProblemElsewhere(db, enabled, LastRejected);
    ProblemElsewhere(db, enabled, Untested);
    EventElsewhere(db, since, enabled, "failed");
    EventElsewhere(db, since, enabled, "rejected");
  }

  lemma ProblemElsewhere(db: Database, enabled: set<Backend>, problem: Problem)
    requires CountProblem(db, Some(enabled), problem) == 0
    ensures CountProblem(db, None, problem) > 0
       <==> exists x :: x in db.routes && x.backend !in enabled && HasProblem(x, problem)
  {
    CountPositive(db.routes, (r: Route) => Wanted(Some(enabled), r.backend) && HasProblem(r, problem));
    CountPositive(db.routes, (r: Route) => Wanted(None, r.backend) && HasProblem(r, problem));
  }

  lemma EventElsewhere(db: Database, since: int, enabled: set<Backend>, status: string)
    requires CountEvents(db, since, Some(enabled), status) == 0
    ensures CountEvents(db, since, None, status) > 0
       <==> exists e :: e in db.events && InWindow(db, e, since, None)
                        && !InWindow(db, e, since, Some(enabled)) && e.status == status
  {
    CountPositive(db.events, (e: Event) => InWindow(db, e, since, Some(enabled)) && e.status == status);
    CountPositive(db.events, (e: Event) => InWindow(db, e, since, None) && e.status == status);
  }

  // ----- what a good status means -----

  /** The backend is switched on. */
  predicate IsOn(s: Settings, b: Backend) {
    match b
    case BotFramework => s.botEnabled
    case Graph => s.lookupEnabled && s.deliveryEnabled
  }

  /** Active, delivered to, and not failing. */
  predicate IsHealthy(r: Route) {
    r.isActive && r.lastStatus.Some? && r.lastStatus.value != "failed" && r.lastStatus.value != "rejected"
  }

  /** An event of the last five minutes, without a route or on a backend that is on. */
  predicate Counts(db: Database, s: Settings, now: int, e: Event) {
    now - 300 <= e.createdAt
    && (e.route.None? || (e.route.value < |db.routes| && IsOn(s, db.routes[e.route.value].backend)))
  }

  lemma EnabledIs(s: Settings)
    ensures forall b :: b in EnabledBackends(s) <==> IsOn(s, b)
  {
    forall b ensures b in EnabledBackends(s) <==> IsOn(s, b) {
      match b
      case BotFramework =>
      case Graph =>
    }
  }

  lemma NoProblems(db: Database, s: Settings)
    ensures var c := CountRoutes(db, Some(EnabledBackends(s)));
      (c.inactive == 0 && c.failed == 0 && c.rejected == 0 && c.untested == 0)
      <==> forall r :: r in db.routes && IsOn(s, r.backend) ==> IsHealthy(r)
  {
    hide Count, EnabledBackends, IsOn, HasProblem;
    var on := EnabledBackends(s);
    EnabledIs(s);
    CountPositive(db.routes, (r: Route) => Wanted(Some(on), r.backend) && HasProblem(r, Inactive));
    CountPositive(db.routes, (r: Route) => Wanted(Some(on), r.backend) && HasProblem(r, LastFailed));
    CountPositive(db.routes, (r: Route) => Wanted(Some(on), r.backend) && HasProblem(r, LastRejected));
    CountPositive(db.routes, (r: Route) => Wanted(Some(on), r.backend) && HasProblem(r, Untested));
    forall r ensures IsHealthy(r) <==> !IsProblem(r) {
      HealthyIff(r);
    }
  }

  lemma HealthyIff(r: Route)
    ensures IsHealthy(r) <==> !IsProblem(r)
  {
  }

  lemma NoFailures(db: Database, s: Settings, now: int, status: string)
    ensures CountEvents(db, now - 5 * MINUTE, Some(EnabledBackends(s)), status) == 0
       <==> forall e :: e in db.events && Counts(db, s, now, e) ==> e.status != status
  {
    hide Count, EnabledBackends, IsOn;
    var on := EnabledBackends(s);
    EnabledIs(s);
    CountPositive(db.events, (e: Event) => InWindow(db, e, now - 5 * MINUTE, Some(on)) && e.status == status);
    assert forall e :: InWindow(db, e, now - 5 * MINUTE, Some(on)) <==> Counts(db, s, now, e);
  }

  /** The status is good exactly when the bot, the lookup and the delivery are ready where they are on,
      every route on a backend that is on is healthy, and none of its deliveries of the last five minutes
      failed or was rejected. */
  lemma FineIff(db: Database, s: Settings, ready: Readiness, now: int)
    ensures Build(Some(db), s, ready, now).status == Fine <==>
      && (s.botEnabled && s.isReal ==> ready.bot)
      && (s.lookupEnabled ==> ready.lookup)
      && (s.lookupEnabled && s.deliveryEnabled ==> ready.delivery)
      && (forall r :: r in db.routes && IsOn(s, r.backend) ==> IsHealthy(r))
      && (forall e :: e in db.events && Counts(db, s, now, e) ==> e.status != "failed" && e.status != "rejected")
  {
    hide CountRoutes, CountEvents, EnabledBackends, ProblemRoutes, IsHealthy, IsOn, Counts;
    NoProblems(db, s);
    NoFailures(db, s, now, "failed");
    NoFailures(db, s, now, "rejected");
  }

  // ----- counts that fit together -----

  lemma {:induction false} CountSplits<T>(s: seq<T>, p: T -> bool, q: T -> bool, r: T -> bool)
    requires forall x :: p(x) <==> q(x) || r(x)
    requires forall x :: !(q(x) && r(x))
    ensures Count(s, q) + Count(s, r) == Count(s, p)
  {
    if s != [] {
      CountSplits(s[1..], p, q, r);
    }
  }

  /** Active and inactive routes are all routes; a route counts as untested only while it is active. */
  lemma RoutesAddUp(db: Database, backends: Option<set<Backend>>)
    ensures var c := CountRoutes(db, backends);
      c.active + c.inactive == c.total && c.untested <= c.active
  {
    hide Count, Wanted;
    var wanted := (r: Route) => Wanted(backends, r.backend);
    var active := (r: Route) => Wanted(backends, r.backend) && r.isActive;
    CountSplits(db.routes, wanted, active, (r: Route) => Wanted(backends, r.backend) && HasProblem(r, Inactive));
    CountMono(db.routes, (r: Route) => Wanted(backends, r.backend) && HasProblem(r, Untested), active);
  }

  /** Longer windows count at least what shorter ones do. */
  lemma WindowsNested(db: Database, now: int, backends: Option<set<Backend>>)
    ensures var (five, fifteen, hour) :=
        (RollingWindow(db, now - 5 * MINUTE, backends), RollingWindow(db, now - 15 * MINUTE, backends),
            RollingWindow(db, now - 60 * MINUTE, backends));
      && five.delivered <= fifteen.delivered <= hour.delivered
      && five.failed <= fifteen.failed <= hour.failed
      && five.rejected <= fifteen.rejected <= hour.rejected
  {
    LongerWindow(db, now - 5 * MINUTE, now - 15 * MINUTE, backends, "delivered");
    LongerWindow(db, now - 5 * MINUTE, now - 15 * MINUTE, backends, "failed");
    LongerWindow(db, now - 5 * MINUTE, now - 15 * MINUTE, backends, "rejected");
    LongerWindow(db, now - 15 * MINUTE, now - 60 * MINUTE, backends, "delivered");
    LongerWindow(db, now - 15 * MINUTE, now - 60 * MINUTE, backends, "failed");
    LongerWindow(db, now - 15 * MINUTE, now - 60 * MINUTE, backends, "rejected");
  }

  lemma LongerWindow(db: Database, since: int, earlier: int, backends: Option<set<Backend>>, status: string)
    requires earlier <= since
    ensures CountEvents(db, since, backends, status) <= CountEvents(db, earlier, backends, status)
  {
    CountMono(db.events,
              (e: Event) => InWindow(db, e, since, backends) && e.status == status,
              (e: Event) => InWindow(db, e, earlier, backends) && e.status == status);
  }

  /** The names shown and the number of others add up to the count, unless the limit on the problem
      list left no name to show at all. */
  lemma NamesAddUp(db: Database, problem: Problem)
    ensures var count := ProblemCount(CountRoutes(db, None), problem);
      var d := RouteDetail(problem, count, RouteNames(Matching(ProblemRoutes(db), r => HasProblem(r, problem))));
      && |d.shown| <= 3 && (d.shown != [] ==> |d.shown| + d.more == count)
      && (d.shown == [] <==> forall r :: r in ProblemRoutes(db) ==> !HasProblem(r, problem))
      && (forall name :: name in d.shown ==> exists r :: r in db.routes && HasProblem(r, problem) && r.name == name)
  {
    hide Count, Matching;
    var p := (r: Route) => HasProblem(r, problem);
    var found := Matching(ProblemRoutes(db), p);
    MatchingTakeMatching(db.routes, IsProblem, PROBLEM_ROUTE_LIMIT, p);
    SameCount(db.routes, p, (r: Route) => Wanted(None, r.backend) && HasProblem(r, problem));
    MatchingEmpty(ProblemRoutes(db), p);
    var shown := RouteDetail(problem, ProblemCount(CountRoutes(db, None), problem), RouteNames(found)).shown;
    forall name | name in shown ensures exists r :: r in db.routes && HasProblem(r, problem) && r.name == name {
      var i :| 0 <= i < |shown| && shown[i] == name;
      assert found[i] in found && found[i] in ProblemRoutes(db) && found[i] in db.routes;
    }
  }

  lemma SameCount<T>(s: seq<T>, p: T -> bool, q: T -> bool)
    requires forall x :: x in s ==> p(x) == q(x)
    ensures Count(s, p) == Count(s, q)
  {
    CountMono(s, p, q);
    CountMono(s, q, p);
  }

  lemma {:induction false} MatchingEmpty<T>(s: seq<T>, p: T -> bool)
    ensures Matching(s, p) == [] <==> forall x :: x in s ==> !p(x)
  {
    if s != [] {
      MatchingEmpty(s[1..], p);
      assert s == [s[0]] + s[1..];
    }
  }
}
