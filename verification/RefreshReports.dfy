/** What a refresh job records is what its refreshes reported: the turns of a worker, read off the
    actions, decide the components, the verdict and the end of its job. */
module RefreshReports {
  import opened Text
  import opened RefreshJobs

  /** What happened in the turns a worker had, one after the other. */
  function OwnTurns(actions: seq<Action>, id: nat): seq<Outcome> {
    if actions == [] then []
    else
      var init, last := actions[..|actions| - 1], actions[|actions| - 1];
      OwnTurns(init, id)
      + (if last.Work? && last.id == id && id in Run(Start(), init).workers then [last.outcome] else [])
  }

  /** The turn in which the session is opened, those of the four refreshes, and the last commit: where
      something outside the table may raise. */
  predicate MayRaise(turn: nat) {
    turn == 2 || (3 <= turn <= 15 && turn % 3 == 0)
  }

  /** The turn in which component `k` is refreshed. */
  function RefreshTurn(k: nat): nat {
    3 + 3 * k
  }

  predicate NoneRaised(turns: seq<Outcome>) {
    forall r :: 0 <= r < |turns| && MayRaise(r) ==> turns[r].Returns?
  }

  predicate RaisedFirst(turns: seq<Outcome>, r: nat) {
    r < |turns| && MayRaise(r) && turns[r].Raises? && NoneRaised(turns[..r])
  }

  /** Each component is what its refresh returned. */
  predicate Reported(components: seq<Entry>, turns: seq<Outcome>) {
    |components| <= |STEPS| && forall k :: 0 <= k < |components| ==>
      && RefreshTurn(k) < |turns| && turns[RefreshTurn(k)].Returns?
      && components[k] == Entry(STEPS[k], turns[RefreshTurn(k)].component)
  }

  /** None of the four refreshes reported a failure. */
  predicate NoneFailed(turns: seq<Outcome>) {
    forall k :: 0 <= k < |STEPS| && RefreshTurn(k) < |turns| && turns[RefreshTurn(k)].Returns? ==>
      !turns[RefreshTurn(k)].component.failed
  }

  /** How many components were refreshed before turn `r`. */
  function Before(r: nat): nat {
    if r <= 3 then 0 else (r - 3) / 3
  }

  // ----- where a worker is after its turns -----

  predicate Undisturbed(done: seq<Entry>, turns: seq<Outcome>) {
    NoneRaised(turns) && Reported(done, turns)
  }

  predicate Disturbed(done: seq<Entry>, turns: seq<Outcome>, r: nat) {
    RaisedFirst(turns, r) && |done| == Before(r) && Reported(done, turns)
  }

  ghost predicate Placed(w: Worker, turns: seq<Outcome>) {
    match w
    case Begin => |turns| == 0
    case AnnounceStart => |turns| == 1
    case Open => |turns| == 2
    case Refresh(done) => |turns| == 3 + 3 * |done| && Undisturbed(done, turns)
    case Save(done) => |turns| == 1 + 3 * |done| && Undisturbed(done, turns)
    case AnnounceComponent(done) => |turns| == 2 + 3 * |done| && Undisturbed(done, turns)
    case Finish(done) => |turns| == 15 && Undisturbed(done, turns)
    case Complete(done) => |turns| == 16 && Undisturbed(done, turns)
    case AnnounceComplete(done) => |turns| == 17 && Undisturbed(done, turns)
    case Abort(done) => |turns| > 0 && Disturbed(done, turns, |turns| - 1)
    case AnnounceError(done) => |turns| > 1 && Disturbed(done, turns, |turns| - 2)
    case Ended(done, completed) =>
      if completed then |turns| >= 18 && Undisturbed(done, turns)
      else exists r: nat :: Disturbed(done, turns, r) && |turns| >= r + 3
  }

  lemma OneMoreTurn(done: seq<Entry>, turns: seq<Outcome>, o: Outcome)
    requires Reported(done, turns)
    ensures Reported(done, turns + [o])
    ensures NoneRaised(turns) && (MayRaise(|turns|) ==> o.Returns?) ==> NoneRaised(turns + [o])
    ensures NoneRaised(turns) && MayRaise(|turns|) && o.Raises? ==> RaisedFirst(turns + [o], |turns|)
    ensures forall r: nat :: RaisedFirst(turns, r) ==> RaisedFirst(turns + [o], r)
  {
    var more := turns + [o];
    assert more[..|turns|] == turns;
    forall r: nat | RaisedFirst(turns, r) ensures RaisedFirst(more, r) {
      assert more[..r] == turns[..r];
    }
  }

  lemma NextPlaced(w: Worker, turns: seq<Outcome>, o: Outcome)
    requires WorkerOk(w) && Placed(w, turns)
    ensures Placed(NextWorker(w, o), turns + [o])
  {
    hide InOrder, NoneRaised, Reported, RaisedFirst;
    match w
    case Begin =>
    case AnnounceStart =>
    case Open =>
      EarlyTurns(turns);
      OneMoreTurn([], turns, o);
    case Refresh(done) =>
      OneMoreTurn(done, turns, o);
      if o.Returns? {
        ReportedMore(done, turns, o);
      }
    case Save(done) => OneMoreTurn(done, turns, o);
    case AnnounceComponent(done) => OneMoreTurn(done, turns, o);
    case Finish(done) => OneMoreTurn(done, turns, o);
    case Complete(done) => OneMoreTurn(done, turns, o);
    case AnnounceComplete(done) => OneMoreTurn(done, turns, o);
    case Abort(done) => OneMoreTurn(done, turns, o);
    case AnnounceError(done) =>
      OneMoreTurn(done, turns, o);
      assert Disturbed(done, turns + [o], |turns| - 2);
    case Ended(done, completed) =>
      OneMoreTurn(done, turns, o);
      if !completed {
        var r: nat :| Disturbed(done, turns, r) && |turns| >= r + 3;
        assert Disturbed(done, turns + [o], r);
      }
  }

  lemma EarlyTurns(turns: seq<Outcome>)
    requires |turns| <= 2
    ensures NoneRaised(turns) && Reported([], turns)
  {
  }

  lemma ReportedMore(done: seq<Entry>, turns: seq<Outcome>, o: Outcome)
    requires Reported(done, turns) && |turns| == RefreshTurn(|done|) && |done| < |STEPS| && o.Returns?
    ensures Reported(done + [Entry(STEPS[|done|], o.component)], turns + [o])
  {
  }

  lemma {:induction false} TurnsPlaced(actions: seq<Action>, id: nat)
    ensures var s, turns := Run(Start(), actions), OwnTurns(actions, id);
      if id in s.workers then WorkerOk(s.workers[id]) && Placed(s.workers[id], turns) else turns == []
  {
    if actions != [] {
      hide WorkerOk, Placed, NextWorker, JobAt, EventsAt, WorkStep;
      var init, a := actions[..|actions| - 1], actions[|actions| - 1];
      var s := Run(Start(), init);
      TurnsPlaced(init, id);
      RunInv(init);
      RunInv(actions);
      assert JobOk(Run(Start(), actions), id);
      if id in s.workers {
        NextKeepsWorker(s, a, id);
        if a.Work? && a.id == id {
          NextPlaced(s.workers[id], OwnTurns(init, id), a.outcome);
        }
        assert OwnTurns(init, id) + [] == OwnTurns(init, id);
      } else if id in Next(s, a).workers {
        SpawnedNow(s, a, id);
        PlacedFirst();
      }
    }
  }

  lemma PlacedFirst()
    ensures Placed(Begin, [])
  {
  }

  lemma SpawnedNow(s: State, a: Action, id: nat)
    requires Inv(s) && id !in s.workers && id in Next(s, a).workers
    ensures Next(s, a).workers[id] == Begin && !a.Work?
  {
    if a.Work? && a.id in s.workers {
      assert JobOk(s, a.id);
      WorkMoves(s, a.id, a.outcome);
    }
  }

  // ----- what a job says -----

  /** Component `k` is recorded once the turn after its refresh is over, unless something raised by
      then. */
  predicate RecordedBy(k: nat, turns: seq<Outcome>) {
    RefreshTurn(k) + 2 <= |turns| && NoneRaised(turns[..RefreshTurn(k) + 1])
  }

  ghost predicate EndedEarly(turns: seq<Outcome>) {
    exists r: nat :: RaisedFirst(turns, r) && r + 2 <= |turns|
  }

  /** What a job shows after its worker's turns. */
  ghost predicate Tells(j: Job, turns: seq<Outcome>) {
    && Reported(j.components, turns)
    && (forall k :: 0 <= k < |STEPS| ==> (k < |j.components| <==> RecordedBy(k, turns)))
    && (j.status.Queued? <==> turns == [])
    && (j.status.Completed? <==> |turns| >= 17 && NoneRaised(turns))
    && (j.status.Failed? <==> EndedEarly(turns))
    && (j.status.Completed? ==> j.ok == Some(NoneFailed(turns)))
  }

  lemma PrefixRaised(turns: seq<Outcome>, k: nat)
    requires RefreshTurn(k) + 2 <= |turns|
    ensures NoneRaised(turns) ==> NoneRaised(turns[..RefreshTurn(k) + 1])
    ensures forall r: nat :: RaisedFirst(turns, r) ==> (NoneRaised(turns[..RefreshTurn(k) + 1]) <==> RefreshTurn(k) < r)
  {
    var part := turns[..RefreshTurn(k) + 1];
    forall r: nat | RaisedFirst(turns, r) ensures NoneRaised(part) <==> RefreshTurn(k) < r {
      if r <= RefreshTurn(k) {
        assert part[r] == turns[r];
      } else {
        assert forall q :: 0 <= q < |part| ==> part[q] == turns[..r][q];
      }
    }
  }

  lemma OneFirst(turns: seq<Outcome>, r: nat, q: nat)
    requires RaisedFirst(turns, r) && RaisedFirst(turns, q)
    ensures r == q
  {
    QuietBefore(turns, q);
    QuietBefore(turns, r);
  }

  lemma QuietBefore(turns: seq<Outcome>, n: nat)
    ensures n <= |turns| && NoneRaised(turns[..n]) ==>
      forall r :: 0 <= r < n && MayRaise(r) ==> turns[r].Returns?
  {
    if n <= |turns| && NoneRaised(turns[..n]) {
      forall r | 0 <= r < n && MayRaise(r) ensures turns[r].Returns? {
        assert turns[..n][r] == turns[r];
      }
    }
  }

  lemma Recorded(done: seq<Entry>, turns: seq<Outcome>, shown: nat)
    requires Undisturbed(done, turns) && shown <= |done| && 3 * shown + 2 <= |turns|
    requires shown < |STEPS| ==> |turns| < 3 * shown + 5
    ensures forall k :: 0 <= k < |STEPS| ==> (k < shown <==> RecordedBy(k, turns))
  {
    hide NoneRaised, Reported;
    forall k | 0 <= k < |STEPS| && RefreshTurn(k) + 2 <= |turns| ensures NoneRaised(turns[..RefreshTurn(k) + 1]) {
      PrefixRaised(turns, k);
    }
  }

  lemma NotEndedEarly(turns: seq<Outcome>)
    requires NoneRaised(turns)
    ensures !EndedEarly(turns)
  {
  }

  lemma AllReported(done: seq<Entry>, turns: seq<Outcome>)
    requires Reported(done, turns) && |done| == |STEPS|
    ensures NoneFailed(turns) <==> !AnyFailed(done)
  {
    if AnyFailed(done) {
      var k: nat :| 0 <= k < |done| && done[k].component.failed;
      assert turns[RefreshTurn(k)].component.failed;
    }
    if !NoneFailed(turns) {
      var k: nat :| 0 <= k < |STEPS| && RefreshTurn(k) < |turns| && turns[RefreshTurn(k)].Returns?
        && turns[RefreshTurn(k)].component.failed;
      assert done[k].component.failed;
    }
  }

  lemma RecordedBefore(done: seq<Entry>, turns: seq<Outcome>, r: nat)
    requires Disturbed(done, turns, r)
    ensures forall k :: 0 <= k < |STEPS| ==> (k < |done| <==> RecordedBy(k, turns))
    ensures !NoneRaised(turns) && (EndedEarly(turns) <==> r + 2 <= |turns|)
  {
    forall k | 0 <= k < |STEPS| ensures k < |done| <==> RecordedBy(k, turns) {
      if RefreshTurn(k) + 2 <= |turns| {
        PrefixRaised(turns, k);
      }
    }
    if EndedEarly(turns) {
      var q: nat :| RaisedFirst(turns, q) && q + 2 <= |turns|;
      OneFirst(turns, r, q);
    }
  }

  lemma PlacedTells(org: string, w: Worker, turns: seq<Outcome>)
    requires WorkerOk(w) && Placed(w, turns)
    ensures Tells(JobAt(org, w), turns)
  {
    hide InOrder, NoneRaised, Reported, RaisedFirst, EndedEarly, RecordedBy, NoneFailed, AnyFailed, RefreshTurn, Before;
    match w
    case Begin => EarlyTells(turns);
    case AnnounceStart => EarlyTells(turns);
    case Open => EarlyTells(turns);
    case Refresh(done) => UndisturbedTells(done, turns, |done|);
    case Save(done) => UndisturbedTells(done, turns, |done| - 1);
    case AnnounceComponent(done) => UndisturbedTells(done, turns, |done|);
    case Finish(done) => UndisturbedTells(done, turns, |done|);
    case Complete(done) => UndisturbedTells(done, turns, |done|);
    case AnnounceComplete(done) => UndisturbedTells(done, turns, |done|);
    case Abort(done) => RecordedBefore(done, turns, |turns| - 1);
    case AnnounceError(done) => RecordedBefore(done, turns, |turns| - 2);
    case Ended(done, completed) =>
      if completed {
        UndisturbedTells(done, turns, |done|);
      } else {
        var r: nat :| Disturbed(done, turns, r) && |turns| >= r + 3;
        RecordedBefore(done, turns, r);
      }
  }

  lemma EarlyTells(turns: seq<Outcome>)
    requires |turns| <= 2
    ensures Reported([], turns) && forall k :: 0 <= k < |STEPS| ==> !RecordedBy(k, turns)
    ensures NoneRaised(turns) && !EndedEarly(turns)
  {
  }

  lemma UndisturbedTells(done: seq<Entry>, turns: seq<Outcome>, shown: nat)
    requires Undisturbed(done, turns) && shown <= |done| && 3 * shown + 2 <= |turns|
    requires shown < |STEPS| ==> |turns| < 3 * shown + 5
    ensures Reported(done[..shown], turns) && !EndedEarly(turns)
    ensures forall k :: 0 <= k < |STEPS| ==> (k < shown <==> RecordedBy(k, turns))
    ensures |done| == |STEPS| ==> (NoneFailed(turns) <==> !AnyFailed(done))
  {
    Recorded(done, turns, shown);
    NotEndedEarly(turns);
    if |done| == |STEPS| {
      AllReported(done, turns);
    }
  }

  /** In every interleaving the job is what its worker's turns say: the components are, in order, what
      the refreshes returned, up to the first turn that raised; the job is completed exactly when its 17
      turns to that point raised nothing, and then ok exactly when none of the four refreshes reported a
      failure; and it has failed exactly when some turn raised and the next one is over. */
  lemma JobTells(actions: seq<Action>, id: nat)
    requires id in Run(Start(), actions).jobs
    ensures Tells(Run(Start(), actions).jobs[id], OwnTurns(actions, id))
  {
    hide Tells, Placed, WorkerOk, JobAt, EventsAt;
    var s := Run(Start(), actions);
    RunInv(actions);
    assert JobOk(s, id);
    TurnsPlaced(actions, id);
    if id in s.workers {
      PlacedTells(s.jobs[id].org, s.workers[id], OwnTurns(actions, id));
    } else {
      NotStarted(s.jobs[id].org);
    }
  }

  lemma NotStarted(org: string)
    ensures Tells(Job(org, Queued, None, []), [])
  {
    EarlyTells([]);
  }

  /** A worker that got its 18 turns, none of which raised, has ended, and its job is completed. */
  lemma QuietRunCompletes(actions: seq<Action>, id: nat)
    requires id in Run(Start(), actions).jobs
    requires |OwnTurns(actions, id)| >= MAX_TURNS && NoneRaised(OwnTurns(actions, id))
    ensures var s := Run(Start(), actions);
      && s.jobs[id].status == Completed && |s.jobs[id].components| == |STEPS|
      && id in s.workers && s.workers[id].Ended? && s.workers[id].completed
  {
    var s, turns := Run(Start(), actions), OwnTurns(actions, id);
    JobTells(actions, id);
    JobsAreConsistent(actions, id);
    TurnsPlaced(actions, id);
    QuietPlace(s.workers[id], turns);
  }

  lemma QuietPlace(w: Worker, turns: seq<Outcome>)
    requires WorkerOk(w) && Placed(w, turns) && |turns| >= MAX_TURNS && NoneRaised(turns)
    ensures w.Ended? && w.completed
  {
  }

  /** A request for an organization without an active job makes a queued job, which once announced and
      spawned has a worker; where there is an active job a request makes none. */
  lemma RequestServed(s: State, org: string, id: nat)
    requires id !in s.jobs
    ensures var next := Run(s, [Request(org, id), Announce(id), Spawn(id)]);
      if exists i :: i in s.jobs && s.jobs[i].org == org && Active(s.jobs[i]) then next.jobs == s.jobs
      else
        && next.jobs == s.jobs[id := Job(org, Queued, None, [])] && next.workers == s.workers[id := Begin]
        && next.events == s.events + [QueuedEvent(id)]
  {
    var first, second, third := Request(org, id), Announce(id), Spawn(id);
    RunSnoc(s, [], first);
    RunSnoc(s, [first], second);
    RunSnoc(s, [first, second], third);
    assert [] + [first] == [first] && [first] + [second] == [first, second];
    assert [first, second] + [third] == [first, second, third];
  }

  lemma RunSnoc(s: State, actions: seq<Action>, a: Action)
    ensures Run(s, actions + [a]) == Next(Run(s, actions), a)
  {
    hide Next;
    assert (actions + [a])[..|actions|] == actions;
  }
}
