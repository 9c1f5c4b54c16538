/** Delivery-auth refresh jobs: a job table behind a lock, requests that start jobs, one worker
    thread per job, and an event bus, interleaved in any way. Publishing an event is assumed not
    to raise. */
module RefreshJobs {
  import opened Text

  datatype Status = Queued | Running | Completed | Failed

  /** What one refresh reports; `failed` is the component status "failed". */
  datatype Component = Component(failed: bool, detail: string)

  datatype Entry = Entry(name: string, component: Component)

  datatype Job = Job(org: string, status: Status, ok: Option<bool>, components: seq<Entry>)

  const STEPS := ["bot_delivery", "graph_lookup", "graph_delivery", "bot_inbound_auth"]

  datatype Event =
    | QueuedEvent(job: nat)
    | StartedEvent(job: nat)
    | ComponentEvent(job: nat, entry: Entry)
    | CompleteEvent(job: nat, ok: bool, components: seq<Entry>)
    | ErrorEvent(job: nat)

  /** A request that created a job still has to announce it and to start its worker. */
  datatype Starter = ToAnnounce | ToSpawn

  /** Where a worker is; `done` is its local dictionary of components, in insertion order. */
  datatype Worker =
    | Begin
    | AnnounceStart
    | Open
    | Refresh(done: seq<Entry>)
    | Save(done: seq<Entry>)
    | AnnounceComponent(done: seq<Entry>)
    | Finish(done: seq<Entry>)
    | Complete(done: seq<Entry>)
    | AnnounceComplete(done: seq<Entry>)
    | Abort(done: seq<Entry>)
    | AnnounceError(done: seq<Entry>)
    | Ended(done: seq<Entry>, completed: bool)

  datatype State = State(
    jobs: map<nat, Job>,
    starters: map<nat, Starter>,
    workers: map<nat, Worker>,
    events: seq<Event>)

  /** What the code outside the table does next: a refresh returns, or something raises. */
  datatype Outcome = Returns(component: Component) | Raises

  datatype Action =
    | Request(org: string, id: nat)
    | Announce(id: nat)
    | Spawn(id: nat)
    | Work(id: nat, outcome: Outcome)

  // ----- the sections under the lock -----

  predicate Active(j: Job) {
    j.status in {Queued, Running}
  }

  predicate HasActive(jobs: map<nat, Job>, org: string) {
    exists i :: i in jobs && jobs[i].org == org && Active(jobs[i])
  }

  /** The section of `_start_delivery_auth_refresh_job`: an organization with an active job gets no
      second one. */
  function Started(jobs: map<nat, Job>, org: string, id: nat): map<nat, Job> {
    if HasActive(jobs, org) || id in jobs then jobs else jobs[id := Job(org, Queued, None, [])]
  }

  /** `_update_delivery_auth_job`; a missing job is left missing. */
  function Updated(jobs: map<nat, Job>, id: nat, status: Status, ok: Option<bool>,
      components: seq<Entry>): map<nat, Job>
  {
    if id !in jobs then jobs
    else jobs[id := jobs[id].(status := status, ok := ok, components := components)]
  }

  function AnyFailed(entries: seq<Entry>): bool {
    exists k :: 0 <= k < |entries| && entries[k].component.failed
  }

  // ----- steps -----

  function Moved(s: State, id: nat, w: Worker): State {
    s.(workers := s.workers[id := w])
  }

  function Published(s: State, e: Event): State {
    s.(events := s.events + [e])
  }

  /** One step of `_run_delivery_auth_refresh_job`. */
  function WorkStep(s: State, id: nat, outcome: Outcome): State
    requires id in s.workers
  {
    match s.workers[id]
    case Begin =>
      if id !in s.jobs then Moved(s, id, Ended([], false))
      else Moved(s.(jobs := Updated(s.jobs, id, Running, s.jobs[id].ok, s.jobs[id].components)), id, AnnounceStart)
    case AnnounceStart => Moved(Published(s, StartedEvent(id)), id, Open)
    case Open => Moved(s, id, if outcome.Raises? then Abort([]) else Refresh([]))
    case Refresh(done) =>
      if outcome.Raises? || |done| >= |STEPS| then Moved(s, id, Abort(done))
      else Moved(s, id, Save(done + [Entry(STEPS[|done|], outcome.component)]))
    case Save(done) =>
      Moved(s.(jobs := if id in s.jobs then Updated(s.jobs, id, s.jobs[id].status, s.jobs[id].ok, done) else s.jobs),
            id, AnnounceComponent(done))
    case AnnounceComponent(done) =>
      if done == [] then Moved(s, id, Abort(done))
      else
        Moved(Published(s, ComponentEvent(id, done[|done| - 1])), id,
              if |done| == |STEPS| then Finish(done) else Refresh(done))
    case Finish(done) => Moved(s, id, if outcome.Raises? then Abort(done) else Complete(done))
    case Complete(done) =>
      Moved(s.(jobs := Updated(s.jobs, id, Completed, Some(!AnyFailed(done)), done)), id, AnnounceComplete(done))
    case AnnounceComplete(done) =>
      Moved(Published(s, CompleteEvent(id, !AnyFailed(done), done)), id, Ended(done, true))
    case Abort(done) =>
      Moved(s.(jobs := Updated(s.jobs, id, Failed, Some(false), done)), id, AnnounceError(done))
    case AnnounceError(done) => Moved(Published(s, ErrorEvent(id)), id, Ended(done, false))
    case Ended(_, _) => s
  }

  function Next(s: State, a: Action): State {
    match a
    case Request(org, id) =>
      if HasActive(s.jobs, org) || id in s.jobs then s
      else s.(jobs := Started(s.jobs, org, id), starters := s.starters[id := ToAnnounce])
    case Announce(id) =>
      if id in s.starters && s.starters[id] == ToAnnounce
      then Published(s, QueuedEvent(id)).(starters := s.starters[id := ToSpawn]) else s
    case Spawn(id) =>
      if id in s.starters && s.starters[id] == ToSpawn
      then s.(starters := s.starters - {id}, workers := s.workers[id := Begin]) else s
    case Work(id, outcome) => if id in s.workers then WorkStep(s, id, outcome) else s
  }

  function Run(s: State, actions: seq<Action>): State {
    if actions == [] then s else Next(Run(s, actions[..|actions| - 1]), actions[|actions| - 1])
  }

  function Start(): State {
    State(map[], map[], map[], [])
  }

  // ----- what a job and its events look like, by where its worker is -----

  /** The names are the first of the four steps, in order. */
  predicate InOrder(done: seq<Entry>) {
    |done| <= |STEPS| && forall k :: 0 <= k < |done| ==> done[k].name == STEPS[k]
  }

  predicate WorkerOk(w: Worker) {
    match w
    case Refresh(done) => InOrder(done) && |done| < |STEPS|
    case Save(done) => InOrder(done) && done != []
    case AnnounceComponent(done) => InOrder(done) && done != []
    case Finish(done) => InOrder(done) && |done| == |STEPS|
    case Complete(done) => InOrder(done) && |done| == |STEPS|
    case AnnounceComplete(done) => InOrder(done) && |done| == |STEPS|
    case Abort(done) => InOrder(done)
    case AnnounceError(done) => InOrder(done)
    case Ended(done, completed) => InOrder(done) && (completed ==> |done| == |STEPS|)
    case _ => true
  }

  function JobAt(org: string, w: Worker): Job
    requires WorkerOk(w)
  {
    match w
    case Begin => Job(org, Queued, None, [])
    case AnnounceStart => Job(org, Running, None, [])
    case Open => Job(org, Running, None, [])
    case Refresh(done) => Job(org, Running, None, done)
    case Save(done) => Job(org, Running, None, done[..|done| - 1])
    case AnnounceComponent(done) => Job(org, Running, None, done)
    case Finish(done) => Job(org, Running, None, done)
    case Complete(done) => Job(org, Running, None, done)
    case AnnounceComplete(done) => Job(org, Completed, Some(!AnyFailed(done)), done)
    case Abort(done) => Job(org, Running, None, done)
    case AnnounceError(done) => Job(org, Failed, Some(false), done)
    case Ended(done, completed) =>
      if completed then Job(org, Completed, Some(!AnyFailed(done)), done) else Job(org, Failed, Some(false), done)
  }

  function ComponentEvents(id: nat, done: seq<Entry>): seq<Event> {
    if done == [] then []
    else ComponentEvents(id, done[..|done| - 1]) + [ComponentEvent(id, done[|done| - 1])]
  }

  /** The events of a job after `done` components were announced. */
  function Announced(id: nat, done: seq<Entry>): seq<Event> {
    [QueuedEvent(id), StartedEvent(id)] + ComponentEvents(id, done)
  }

  function EventsAt(id: nat, w: Worker): seq<Event>
    requires WorkerOk(w)
  {
    match w
    case Begin => [QueuedEvent(id)]
    case AnnounceStart => [QueuedEvent(id)]
    case Open => Announced(id, [])
    case Refresh(done) => Announced(id, done)
    case Save(done) => Announced(id, done[..|done| - 1])
    case AnnounceComponent(done) => Announced(id, done[..|done| - 1])
    case Finish(done) => Announced(id, done)
    case Complete(done) => Announced(id, done)
    case AnnounceComplete(done) => Announced(id, done)
    case Abort(done) => Announced(id, done)
    case AnnounceError(done) => Announced(id, done)
    case Ended(done, completed) =>
      Announced(id, done) + [if completed then CompleteEvent(id, !AnyFailed(done), done) else ErrorEvent(id)]
  }

  function EventsOf(events: seq<Event>, id: nat): (r: seq<Event>)
    ensures forall e :: e in r <==> e in events && e.job == id
  {
    if events == [] then []
    else
      EventsOf(events[..|events| - 1], id)
      + (if events[|events| - 1].job == id then [events[|events| - 1]] else [])
  }

  /** Everything there is to know about one job id. */
  predicate JobOk(s: State, id: nat) {
    if id in s.workers then
      && id in s.jobs && id !in s.starters && WorkerOk(s.workers[id])
      && s.jobs[id] == JobAt(s.jobs[id].org, s.workers[id])
      && EventsOf(s.events, id) == EventsAt(id, s.workers[id])
    else if id in s.starters then
      && id in s.jobs && s.jobs[id] == Job(s.jobs[id].org, Queued, None, [])
      && EventsOf(s.events, id) == if s.starters[id] == ToSpawn then [QueuedEvent(id)] else []
    else id !in s.jobs && EventsOf(s.events, id) == []
  }

  /** At most one active job per organization. */
  predicate OneActive(jobs: map<nat, Job>) {
    forall i, j :: i in jobs && j in jobs && Active(jobs[i]) && Active(jobs[j]) && jobs[i].org == jobs[j].org ==> i == j
  }

  ghost predicate Inv(s: State) {
    OneActive(s.jobs) && forall id: nat :: JobOk(s, id)
  }

  lemma EventsOfAppend(events: seq<Event>, e: Event, id: nat)
    ensures EventsOf(events + [e], id) == EventsOf(events, id) + (if e.job == id then [e] else [])
  {
    assert (events + [e])[..|events|] == events;
  }

  lemma ComponentEventsSnoc(id: nat, done: seq<Entry>)
    requires done != []
    ensures Announced(id, done) == Announced(id, done[..|done| - 1]) + [ComponentEvent(id, done[|done| - 1])]
  {
  }

  /** The worker's new local state, as a function of its old one. */
  function NextWorker(w: Worker, outcome: Outcome): Worker {
    match w
    case Begin => AnnounceStart
    case AnnounceStart => Open
    case Open => if outcome.Raises? then Abort([]) else Refresh([])
    case Refresh(done) =>
      if outcome.Raises? || |done| >= |STEPS| then Abort(done)
      else Save(done + [Entry(STEPS[|done|], outcome.component)])
    case Save(done) => AnnounceComponent(done)
    case AnnounceComponent(done) =>
      if done == [] then Abort(done) else if |done| == |STEPS| then Finish(done) else Refresh(done)
    case Finish(done) => if outcome.Raises? then Abort(done) else Complete(done)
    case Complete(done) => AnnounceComplete(done)
    case AnnounceComplete(done) => Ended(done, true)
    case Abort(done) => AnnounceError(done)
    case AnnounceError(done) => Ended(done, false)
    case Ended(done, completed) => w
  }

  lemma NextWorkerOk(w: Worker, outcome: Outcome)
    requires WorkerOk(w)
    ensures WorkerOk(NextWorker(w, outcome))
  {
  }

  /** What a worker publishes in its next step. */
  function NewEvents(id: nat, w: Worker): seq<Event> {
    match w
    case AnnounceStart => [StartedEvent(id)]
    case AnnounceComponent(done) => if done == [] then [] else [ComponentEvent(id, done[|done| - 1])]
    case AnnounceComplete(done) => [CompleteEvent(id, !AnyFailed(done), done)]
    case AnnounceError(done) => [ErrorEvent(id)]
    case _ => []
  }

  lemma WorkMoves(s: State, id: nat, outcome: Outcome)
    requires id in s.workers && id in s.jobs
    ensures var s' := WorkStep(s, id, outcome);
      && s'.workers == s.workers[id := NextWorker(s.workers[id], outcome)]
      && s'.starters == s.starters
      && s'.events == s.events + NewEvents(id, s.workers[id])
      && (forall j :: j in s.jobs && j != id ==> j in s'.jobs && s'.jobs[j] == s.jobs[j])
      && s'.jobs.Keys == s.jobs.Keys
  {
    hide JobAt, WorkerOk, AnyFailed;
    assert s.events + [] == s.events;
    if s.workers[id].Ended? {
      assert s.workers[id := s.workers[id]] == s.workers;
    }
  }

  lemma NewEventsOwn(events: seq<Event>, id: nat, w: Worker, other: nat)
    ensures EventsOf(events + NewEvents(id, w), other)
         == EventsOf(events, other) + (if other == id then NewEvents(id, w) else [])
  {
    if NewEvents(id, w) == [] {
      assert events + [] == events;
    } else {
      EventsOfAppend(events, NewEvents(id, w)[0], other);
      assert NewEvents(id, w) == [NewEvents(id, w)[0]];
    }
  }

  lemma WorkOthers(s: State, id: nat, outcome: Outcome, other: nat)
    requires id in s.workers && id in s.jobs && JobOk(s, other) && other != id
    ensures JobOk(WorkStep(s, id, outcome), other)
  {
    WorkMoves(s, id, outcome);
    NewEventsOwn(s.events, id, s.workers[id], other);
  }

  lemma WorkJob(s: State, id: nat, outcome: Outcome)
    requires id in s.workers && JobOk(s, id)
    ensures WorkerOk(NextWorker(s.workers[id], outcome))
    ensures WorkStep(s, id, outcome).jobs
         == s.jobs[id := JobAt(s.jobs[id].org, NextWorker(s.workers[id], outcome))]
  {
    hide AnyFailed, ComponentEvents, EventsAt, EventsOf, InOrder;
    var w := s.workers[id];
    NextWorkerOk(w, outcome);
    var j := JobAt(s.jobs[id].org, NextWorker(w, outcome));
    if w.Refresh? && !outcome.Raises? {
      assert (w.done + [Entry(STEPS[|w.done|], outcome.component)])[..|w.done|] == w.done;
    }
    if s.jobs[id] == j {
      assert s.jobs[id := j] == s.jobs;
    }
  }

  lemma NextTrace(id: nat, w: Worker, outcome: Outcome)
    requires WorkerOk(w) && WorkerOk(NextWorker(w, outcome))
    ensures EventsAt(id, NextWorker(w, outcome)) == EventsAt(id, w) + NewEvents(id, w)
  {
    match w
    case AnnounceComponent(done) => ComponentEventsSnoc(id, done);
    case Refresh(done) =>
      if !outcome.Raises? {
        assert (done + [Entry(STEPS[|done|], outcome.component)])[..|done|] == done;
      }
    case _ =>
  }

  lemma WorkOk(s: State, id: nat, outcome: Outcome)
    requires id in s.workers && JobOk(s, id)
    ensures JobOk(WorkStep(s, id, outcome), id)
  {
    WorkMoves(s, id, outcome);
    WorkJob(s, id, outcome);
    NextTrace(id, s.workers[id], outcome);
    NewEventsOwn(s.events, id, s.workers[id], id);
  }

  lemma WorkInv(s: State, id: nat, outcome: Outcome)
    requires Inv(s) && id in s.workers
    ensures Inv(WorkStep(s, id, outcome))
  {
    var s' := WorkStep(s, id, outcome);
    assert JobOk(s, id);
    forall other: nat ensures JobOk(s', other) {
      assert JobOk(s, other);
      if other == id { WorkOk(s, id, outcome); } else { WorkOthers(s, id, outcome, other); }
    }
    WorkJob(s, id, outcome);
  }

  lemma RequestInv(s: State, org: string, id: nat)
    requires Inv(s)
    ensures Inv(Next(s, Request(org, id)))
  {
    var s' := Next(s, Request(org, id));
    forall other: nat ensures JobOk(s', other) {
      assert JobOk(s, other);
    }
  }

  lemma AnnounceInv(s: State, id: nat)
    requires Inv(s)
    ensures Inv(Next(s, Announce(id)))
  {
    var s' := Next(s, Announce(id));
    forall other: nat ensures JobOk(s', other) {
      assert JobOk(s, other);
      EventsOfAppend(s.events, QueuedEvent(id), other);
    }
  }

  lemma SpawnInv(s: State, id: nat)
    requires Inv(s)
    ensures Inv(Next(s, Spawn(id)))
  {
    var s' := Next(s, Spawn(id));
    forall other: nat ensures JobOk(s', other) {
      assert JobOk(s, other);
    }
  }

  lemma NextInv(s: State, a: Action)
    requires Inv(s)
    ensures Inv(Next(s, a))
  {
    match a
    case Request(org, id) => RequestInv(s, org, id);
    case Announce(id) => AnnounceInv(s, id);
    case Spawn(id) => SpawnInv(s, id);
    case Work(id, outcome) => if id in s.workers { WorkInv(s, id, outcome); }
  }

  lemma {:induction false} RunInv(actions: seq<Action>)
    ensures Inv(Run(Start(), actions))
  {
    if actions != [] {
      RunInv(actions[..|actions| - 1]);
      NextInv(Run(Start(), actions[..|actions| - 1]), actions[|actions| - 1]);
    }
  }

  // ----- what every interleaving guarantees -----

  /** In every interleaving of requests and workers, an organization has at most one queued or
      running job. */
  lemma OneActiveJobPerOrganization(actions: seq<Action>, i: nat, j: nat)
    requires var jobs := Run(Start(), actions).jobs;
             i in jobs && j in jobs && Active(jobs[i]) && Active(jobs[j]) && jobs[i].org == jobs[j].org
    ensures i == j
  {
    RunInv(actions);
  }

  predicate StatusMoves(before: Status, after: Status) {
    || before == after
    || (before.Queued? && after.Running?)
    || (before.Running? && (after.Completed? || after.Failed?))
  }

  /** One step of anyone: jobs stay, a status only moves forward, and the components of a job only
      grow. */
  lemma StepsMoveForward(s: State, a: Action, id: nat)
    requires Inv(s) && id in s.jobs
    ensures var s' := Next(s, a);
      && id in s'.jobs && s'.jobs[id].org == s.jobs[id].org
      && StatusMoves(s.jobs[id].status, s'.jobs[id].status)
      && s.jobs[id].components <= s'.jobs[id].components
  {
    hide JobAt, NextWorker, ComponentEvents, EventsOf;
    assert JobOk(s, id);
    if a.Work? && a.id in s.workers {
      assert JobOk(s, a.id);
      WorkJob(s, a.id, a.outcome);
      if a.id == id {
        WorkerForward(s.workers[id], a.outcome, s.jobs[id].org);
      }
    }
  }

  lemma WorkerForward(w: Worker, outcome: Outcome, org: string)
    requires WorkerOk(w) && WorkerOk(NextWorker(w, outcome))
    ensures var j, j' := JobAt(org, w), JobAt(org, NextWorker(w, outcome));
      StatusMoves(j.status, j'.status) && j.components <= j'.components
  {
  }

  /** In every interleaving, the components are a prefix of the four steps; a completed job has all
      four and is ok exactly when none failed; a failed job is not ok; an active one is undecided. */
  lemma JobsAreConsistent(actions: seq<Action>, id: nat)
    requires id in Run(Start(), actions).jobs
    ensures var j := Run(Start(), actions).jobs[id];
      && InOrder(j.components)
      && (j.status.Completed? ==> |j.components| == |STEPS| && j.ok == Some(!AnyFailed(j.components)))
      && (j.status.Failed? ==> j.ok == Some(false))
      && (Active(j) ==> j.ok == None)
  {
    RunInv(actions);
    var s := Run(Start(), actions);
    assert JobOk(s, id);
    if id in s.workers {
      ShapeOfJob(s.workers[id], s.jobs[id].org);
    }
  }

  lemma ShapeOfJob(w: Worker, org: string)
    requires WorkerOk(w)
    ensures var j := JobAt(org, w);
      && InOrder(j.components)
      && (j.status.Completed? ==> |j.components| == |STEPS| && j.ok == Some(!AnyFailed(j.components)))
      && (j.status.Failed? ==> j.ok == Some(false))
      && (Active(j) ==> j.ok == None)
  {
  }

  /** In every interleaving, a terminal event is only on the bus once the table shows the terminal
      status, and it carries what the table shows. */
  lemma TerminalStatusBeforeEvent(actions: seq<Action>, e: Event)
    requires e in Run(Start(), actions).events && (e.CompleteEvent? || e.ErrorEvent?)
    ensures var s := Run(Start(), actions);
      && e.job in s.jobs
      && (e.CompleteEvent? ==> s.jobs[e.job] == Job(s.jobs[e.job].org, Completed, Some(e.ok), e.components))
      && (e.ErrorEvent? ==> s.jobs[e.job].status == Failed && s.jobs[e.job].ok == Some(false))
  {
    RunInv(actions);
    var s := Run(Start(), actions);
    assert JobOk(s, e.job);
    assert e in EventsOf(s.events, e.job);
    if e.job in s.workers {
      TerminalEvent(e.job, s.workers[e.job], e);
    }
  }

  lemma {:induction false} ComponentEventsOnly(id: nat, done: seq<Entry>)
    ensures forall e :: e in ComponentEvents(id, done) ==> e.ComponentEvent? && e.job == id
  {
    if done != [] {
      ComponentEventsOnly(id, done[..|done| - 1]);
    }
  }

  lemma TerminalEvent(id: nat, w: Worker, e: Event)
    requires WorkerOk(w) && e in EventsAt(id, w) && (e.CompleteEvent? || e.ErrorEvent?)
    ensures w.Ended? && e == if w.completed then CompleteEvent(id, !AnyFailed(w.done), w.done) else ErrorEvent(id)
  {
    match w
    case Begin => assert false;
    case AnnounceStart => assert false;
    case Open => ComponentEventsOnly(id, []);
    case Refresh(done) => ComponentEventsOnly(id, done);
    case Save(done) => ComponentEventsOnly(id, done[..|done| - 1]);
    case AnnounceComponent(done) => ComponentEventsOnly(id, done[..|done| - 1]);
    case Finish(done) => ComponentEventsOnly(id, done);
    case Complete(done) => ComponentEventsOnly(id, done);
    case AnnounceComplete(done) => ComponentEventsOnly(id, done);
    case Abort(done) => ComponentEventsOnly(id, done);
    case AnnounceError(done) => ComponentEventsOnly(id, done);
    case Ended(done, completed) => ComponentEventsOnly(id, done);
  }

  /** In every interleaving, the events of one job are exactly queued, started, its components in
      order, and one terminal event, as far as its worker has come. */
  lemma EventsFollowTheScript(actions: seq<Action>, id: nat)
    requires id in Run(Start(), actions).workers
    ensures var s := Run(Start(), actions);
      WorkerOk(s.workers[id]) && EventsOf(s.events, id) == EventsAt(id, s.workers[id])
  {
    RunInv(actions);
    assert JobOk(Run(Start(), actions), id);
  }

  // ----- termination -----

  const MAX_TURNS := 18

  /** How many turns the worker still needs at most. */
  function TurnsLeft(w: Worker): (n: nat)
    requires WorkerOk(w)
    ensures n <= MAX_TURNS
    ensures n == 0 <==> w.Ended?
  {
    match w
    case Begin => MAX_TURNS
    case AnnounceStart => 17
    case Open => 16
    case Refresh(done) => 15 - 3 * |done|
    case Save(done) => 17 - 3 * |done|
    case AnnounceComponent(done) => 16 - 3 * |done|
    case Finish(done) => 3
    case Complete(done) => 2
    case AnnounceComplete(done) => 1
    case Abort(done) => 2
    case AnnounceError(done) => 1
    case Ended(_, _) => 0
  }

  lemma TurnCounts(w: Worker, outcome: Outcome)
    requires WorkerOk(w) && WorkerOk(NextWorker(w, outcome)) && !w.Ended?
    ensures TurnsLeft(NextWorker(w, outcome)) < TurnsLeft(w)
  {
  }

  /** How many of the actions give this worker a turn. */
  function Turns(actions: seq<Action>, id: nat): nat {
    if actions == [] then 0
    else Turns(actions[..|actions| - 1], id)
         + (if actions[|actions| - 1].Work? && actions[|actions| - 1].id == id then 1 else 0)
  }

  lemma NextKeepsWorker(s: State, a: Action, id: nat)
    requires Inv(s) && id in s.workers
    ensures id in Next(s, a).workers
    ensures Next(s, a).workers[id]
         == if a.Work? && a.id == id then NextWorker(s.workers[id], a.outcome) else s.workers[id]
  {
    assert JobOk(s, id);
    if a.Work? && a.id in s.workers {
      assert JobOk(s, a.id);
      WorkMoves(s, a.id, a.outcome);
    }
  }

  /** However the others are interleaved, a started worker has ended after at most 18 turns. */
  lemma {:induction false} WorkersEnd(s: State, actions: seq<Action>, id: nat)
    requires Inv(s) && id in s.workers
    ensures var s' := Run(s, actions);
      && Inv(s') && id in s'.workers && WorkerOk(s.workers[id]) && WorkerOk(s'.workers[id])
      && (s'.workers[id].Ended? || TurnsLeft(s'.workers[id]) + Turns(actions, id) <= TurnsLeft(s.workers[id]))
      && (Turns(actions, id) >= MAX_TURNS ==> s'.workers[id].Ended?)
  {
    assert JobOk(s, id);
    if actions != [] {
      var init, a := actions[..|actions| - 1], actions[|actions| - 1];
      WorkersEnd(s, init, id);
      var t := Run(s, init);
      NextInv(t, a);
      NextKeepsWorker(t, a, id);
      if a.Work? && a.id == id {
        NextWorkerOk(t.workers[id], a.outcome);
        if !t.workers[id].Ended? {
          TurnCounts(t.workers[id], a.outcome);
        }
      }
    }
  }

  // ----- the table itself -----

  class JobTable {
    var jobs: map<nat, Job>

    constructor ()
      ensures jobs == map[]
    {
      jobs := map[];
    }

    /** The locked section of `_start_delivery_auth_refresh_job`: the active job of the
        organization if there is one, else a new queued job. */
    method StartRefreshJob(org: string, id: nat) returns (current: nat, created: bool)
      requires id !in jobs
      modifies this
      ensures jobs == Started(old(jobs), org, id)
      ensures created <==> !HasActive(old(jobs), org)
      ensures current in jobs && jobs[current].org == org && Active(jobs[current])
      ensures created ==> current == id
    {
      var todo := jobs.Keys;
      while todo != {}
        invariant todo <= jobs.Keys && jobs == old(jobs)
        invariant forall i :: i in jobs && i !in todo ==> !(jobs[i].org == org && Active(jobs[i]))
        decreases |todo|
      {
        var i :| i in todo;
        if jobs[i].org == org && Active(jobs[i]) {
          return i, false;
        }
        todo := todo - {i};
      }
      jobs := jobs[id := Job(org, Queued, None, [])];
      current, created := id, true;
    }

    method UpdateJob(id: nat, status: Status, ok: Option<bool>, components: seq<Entry>) returns (found: bool)
      modifies this
      ensures found <==> id in old(jobs)
      ensures jobs == Updated(old(jobs), id, status, ok, components)
    {
      if id !in jobs {
        return false;
      }
      var job := jobs[id];
      job := job.(status := status);
      job := job.(ok := ok);
      job := job.(components := components);
      jobs := jobs[id := job];
      found := true;
    }
  }
}
