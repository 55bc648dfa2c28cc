/** The paths of a step, from what its own functions return to what is committed and acknowledged. */
module Paths {
  import opened Message
  import opened Errors
  import opened Journal
  import opened ExecutorSpec
  import opened ExecutorOutcome
  import opened StepTheorems
  import opened Schedule
  import opened Progress
  import opened Duplicates
  import opened Attempts
  import opened Contents
  import opened LostAck

  /** Tries 0..k of the job meet infrastructure faults, and in try k its code is called and returns o. */
  ghost predicate Returns(env: Env, job: Job, retry: Option<Retrier>, w: World, k: nat, o: Outcome) {
    var t := TryAt(env, retry, w.clock, k);
    && k < AllTries(env, retry) && Quiet(env) && Alive(env, w.clock, t)
    && (forall i | 0 <= i < k :: Passing(env, job, w.db, TryAt(env, retry, w.clock, i)))
    && Enters(env, job.plan, t, w.db) && Says(job.body, t, w.db.business, job.plan.msg, o)
  }

  /** What it returned is an error for good. */
  ghost predicate GivesUp(env: Env, job: Job, retry: Option<Retrier>, w: World, k: nat, o: Outcome) {
    Returns(env, job, retry, w, k, o) && o.Failed? && !HasRetryable(o.err)
  }

  /** What it returned can be written and is committed. */
  ghost predicate Works(env: Env, job: Job, retry: Option<Retrier>, w: World, k: nat, o: Outcome) {
    var t := TryAt(env, retry, w.clock, k);
    && Returns(env, job, retry, w, k, o) && o.Done?
    && Writable(env, job.plan, Addressed(job.plan, o.msg), t, 0, w.db.outbox) && env.oracle.commit(t).Acknowledged?
  }

  /** The world when try k is over and has left no trace. */
  function Later(env: Env, retry: Option<Retrier>, w: World, k: nat): World {
    w.(clock := TryAt(env, retry, w.clock, k) + 1)
  }

  lemma PassesTo(env: Env, job: Job, retry: Option<Retrier>, w: World, k: nat, o: Outcome) returns (v: World)
    requires Returns(env, job, retry, w, k, o)
    requires Stops(env, job, Unchanged(w), TryAt(env, retry, w.clock, k))
    ensures v.db == w.db && v.own == w.own && v.clock == TryAt(env, retry, w.clock, k)
    ensures var (d, e) := Attempt(env, job, Cell(v, EMPTY, EMPTY));
            var u, r := Unwrapped(d, e), UserRun(env, job, retry, w);
            r.w == u.w && r.out == u.out && r.err == u.err
  {
    forall i | 0 <= i < k ensures Misses(env, job, Unchanged(w), TryAt(env, retry, w.clock, i)) {
      PassingMisses(env, job, w, TryAt(env, retry, w.clock, i));
    }
    v := UserStops(env, job, Unchanged(w), retry, w, k);
  }

  /** A run whose code gives up ends with exactly that error, and has done nothing. */
  lemma RunGivesUp(env: Env, job: Job, retry: Option<Retrier>, w: World, k: nat, o: Outcome)
    requires GivesUp(env, job, retry, w, k, o)
    ensures var r := UserRun(env, job, retry, w);
            && r.err == Some(o.err) && r.w.db == w.db && r.w.own == w.own
            && r.w.clock == TryAt(env, retry, w.clock, k) + 1
  {
    var t := TryAt(env, retry, w.clock, k);
    forall c: Cell | c.w.clock == t && Unchanged(w)(MemoOf(c.w))
      ensures Attempt(env, job, c).1.Some? && !HasRetryable(Attempt(env, job, c).1.value)
    {
      assert Begun(env.oracle, c.w).db == w.db;
      AttemptEnds(env, job, c, o);
    }
    var v := PassesTo(env, job, retry, w, k, o);
    assert Begun(env.oracle, v).db == w.db;
    AttemptEnds(env, job, Cell(v, EMPTY, EMPTY), o);
    AttemptTicks(env, job, Cell(v, EMPTY, EMPTY));
  }

  lemma RunWorks(env: Env, job: Job, retry: Option<Retrier>, w: World, k: nat, o: Outcome)
    requires Works(env, job, retry, w, k, o)
    ensures var r, t := UserRun(env, job, retry, w), TryAt(env, retry, w.clock, k);
            && r.err == None && r.w.clock == t + 1 && OneCommit(w, r.w)
            && var b := r.w.own[|w.own|];
               Made(job, b) && Serial(w.db, b) && b.at == t && r.out == b.msg
  {
    var t := TryAt(env, retry, w.clock, k);
    ReadyIff(env, job, t, w.db);
    forall c: Cell | c.w.clock == t && Unchanged(w)(MemoOf(c.w)) ensures Attempt(env, job, c).1.None? {
      assert Begun(env.oracle, c.w).db == w.db;
    }
    var v := PassesTo(env, job, retry, w, k, o);
    assert Begun(env.oracle, v).db == w.db;
    ReadyIsMade(env, job, t, w.db);
    AttemptTicks(env, job, Cell(v, EMPTY, EMPTY));
  }

  /** The delivery is acknowledged with just bundle b committed: what o stands for, run at time t. */
  ghost predicate Commits(env: Env, stp: Step, msg: Message, w: World, b: Bundle, t: nat, o: Outcome, kind: string,
                          topics: seq<string>, phase: Phase)
  {
    var r := Deliver(env, stp, msg, w);
    && r.err == None && r.w.own == w.own + [b] && TablesAfter(w.db, b, r.w.db)
    && b.at == t && Stands(o, b, msg.saga, kind, stp.route.name, topics, phase) && ClaimsFor(env.dedup, msg, b)
  }

  lemma RunStands(env: Env, job: Job, retry: Option<Retrier>, w: World, k: nat, o: Outcome)
    requires Works(env, job, retry, w, k, o)
    ensures var r := UserRun(env, job, retry, w);
            && r.err == None && |r.w.own| == |w.own| + 1
            && var b, p := r.w.own[|w.own|], job.plan;
               && r.w.own == w.own + [b] && TablesAfter(w.db, b, r.w.db) && b.at == TryAt(env, retry, w.clock, k)
               && Stands(o, b, p.msg.saga, p.kind, p.step, p.topics, p.phase)
               && b.claim == KeyFor(p) && (p.claims ==> b.claim.Some?)
  {
    RunWorks(env, job, retry, w, k, o);
    MadeStands(job, UserRun(env, job, retry, w).w.own[|w.own|], o);
  }

  /** The action succeeds: its result, and nothing else, is committed for the next topics. */
  lemma GoesForward(env: Env, stp: Step, msg: Message, w: World, k: nat, o: Outcome)
    requires msg.kind == "execute"
    requires Works(env, Job(ExecutePlan(env, stp, msg), Act(stp.execute)), stp.retry, w, k, o)
    ensures |Deliver(env, stp, msg, w).w.own| == |w.own| + 1
    ensures Commits(env, stp, msg, w, Deliver(env, stp, msg, w).w.own[|w.own|], TryAt(env, stp.retry, w.clock, k), o,
                    "execute", stp.route.next, Execute)
  {
    RunStands(env, Job(ExecutePlan(env, stp, msg), Act(stp.execute)), stp.retry, w, k, o);
  }

  /** The action fails for good, and its error handler, given just that error, succeeds: the
      handler's result is committed for the next topics. */
  lemma HandledForward(env: Env, stp: Step, msg: Message, w: World, k: nat, o: Outcome, j: nat, x: Outcome)
    requires msg.kind == "execute" && stp.onError.Some?
    requires var p := ExecutePlan(env, stp, msg);
             && GivesUp(env, Job(p, Act(stp.execute)), stp.retry, w, k, o)
             && Works(env, Job(p, Handle(stp.onError.value, o.err)), None, Later(env, stp.retry, w, k), j, x)
    ensures |Deliver(env, stp, msg, w).w.own| == |w.own| + 1
    ensures Commits(env, stp, msg, w, Deliver(env, stp, msg, w).w.own[|w.own|],
                    TryAt(env, None, Later(env, stp.retry, w, k).clock, j), x, "execute", stp.route.next, Execute)
  {
    var p := ExecutePlan(env, stp, msg);
    var r := UserRun(env, Job(p, Act(stp.execute)), stp.retry, w);
    var handling := Job(p, Handle(stp.onError.value, o.err));
    RunGivesUp(env, Job(p, Act(stp.execute)), stp.retry, w, k, o);
    assert Works(env, handling, None, r.w, j, x);
    RunStands(env, handling, None, r.w, j, x);
  }

  /** From v to r just the failure event m was committed, if it is wanted and fits; refused iff it is
      wanted and does not fit. */
  ghost predicate Tells(stp: Step, m: Message, v: World, r: Result) {
    if EventFits(stp, m, v.db) then
      && r.err == None && |r.w.own| == |v.own| + 1
      && var b := r.w.own[|v.own|];
         && r.w.own == v.own + [b] && TablesAfter(v.db, b, r.w.db) && b.business == b.before && b.claim == None
         && b.msg == m.(kind := "failed", from := stp.route.name)
         && RowsTo(b, stp.route.errors, Compensate, stp.route.name)
    else r.w.own == v.own && r.w.db == v.db && (r.err == None <==> stp.route.errors == [])
  }

  lemma EventTold(env: Env, stp: Step, m: Message, v: World)
    requires CalmAt(env, v.clock)
    ensures Tells(stp, m, v, PublishEvent(env, stp.route, m, v))
  {
    var event := Job(EventPlan(stp.route, m), Relay);
    var r := PublishEvent(env, stp.route, m, v);
    if EventFits(stp, m, v.db) {
      var o := Done(m.(kind := "failed", from := stp.route.name), v.db.business);
      assert TryAt(env, None, v.clock, 0) == InfraAt(env, v.clock, 0);
      assert Works(env, event, None, v, 0, o);
      RunStands(env, event, None, v, 0, o);
    } else {
      InfraEffect(env, event, v);
      if News(v, r.w) != [] { EventOnlyIfFits(env, stp, m, v); }
      assert News(v, r.w) == [] && r.w.own == v.own;
    }
  }

  /** The failure event is written in spite of j infrastructure faults, like any other transaction. */
  lemma EventOutlastsFaults(env: Env, stp: Step, m: Message, v: World, j: nat, o: Outcome)
    requires EventFits(stp, m, v.db) && Works(env, Job(EventPlan(stp.route, m), Relay), None, v, j, o)
    ensures Tells(stp, m, v, PublishEvent(env, stp.route, m, v))
  {
    RunStands(env, Job(EventPlan(stp.route, m), Relay), None, v, j, o);
  }

  /** The action fails for good and nothing handles it: the incoming message goes to the error topics
      as a failure, or the delivery is refused because it cannot be written. */
  lemma TurnsBack(env: Env, stp: Step, msg: Message, w: World, k: nat, o: Outcome)
    requires msg.kind == "execute" && stp.onError.None?
    requires GivesUp(env, Job(ExecutePlan(env, stp, msg), Act(stp.execute)), stp.retry, w, k, o)
    requires CalmAt(env, Later(env, stp.retry, w, k).clock)
    ensures Tells(stp, msg, w, Deliver(env, stp, msg, w))
  {
    var job := Job(ExecutePlan(env, stp, msg), Act(stp.execute));
    var r := UserRun(env, job, stp.retry, w);
    RunGivesUp(env, job, stp.retry, w, k, o);
    ForeignIsClean(o.err);
    EventTold(env, stp, msg, r.w);
    ExecuteEffect(env, stp, msg, w);
  }

  /** What the failure event carries if the error handler left x beside its error. */
  function Reported(msg: Message, x: Message): Message {
    if x.saga == "" && x.payload == map[] then msg
    else if x.saga == "" then x.(saga := msg.saga)
    else x
  }

  /** Its error handler, given just that error, fails for good too: what the handler left goes to the error topics. */
  lemma HandlerTurnsBack(env: Env, stp: Step, msg: Message, w: World, k: nat, o: Outcome, j: nat, x: Outcome)
    requires msg.kind == "execute" && stp.onError.Some?
    requires var p := ExecutePlan(env, stp, msg);
             var v := Later(env, stp.retry, w, k);
             && GivesUp(env, Job(p, Act(stp.execute)), stp.retry, w, k, o)
             && GivesUp(env, Job(p, Handle(stp.onError.value, o.err)), None, v, j, x)
             && CalmAt(env, Later(env, None, v, j).clock)
    ensures Tells(stp, Reported(msg, x.msg), w, Deliver(env, stp, msg, w))
  {
    var p := ExecutePlan(env, stp, msg);
    var r := UserRun(env, Job(p, Act(stp.execute)), stp.retry, w);
    var handling := Job(p, Handle(stp.onError.value, o.err));
    RunGivesUp(env, Job(p, Act(stp.execute)), stp.retry, w, k, o);
    assert GivesUp(env, handling, None, r.w, j, x);
    RunGivesUp(env, handling, None, r.w, j, x);
    HandlerKept(env, handling, r.w, j, x);
    var h := InfraRun(env, handling, r.w);
    EventTold(env, stp, Reported(msg, x.msg), h.w);
    ExecuteEffect(env, stp, msg, w);
  }

  lemma HandlerKept(env: Env, job: Job, w: World, j: nat, x: Outcome)
    requires GivesUp(env, job, None, w, j, x)
    ensures InfraRun(env, job, w).left == x.msg
  {
    forall i | 0 <= i < j ensures Passing(env, job, w.db, InfraAt(env, w.clock, i)) {
      assert TryAt(env, None, w.clock, i) == InfraAt(env, w.clock, i);
    }
    var t := InfraAt(env, w.clock, j);
    assert TryAt(env, None, w.clock, j) == t;
    assert RunBody(job.body, t, w.db.business, job.plan.msg) == x;
    FailureLeaves(env, job, w, j, x.msg, x.err);
  }

  /** The compensation succeeds: its result, and nothing else, is committed for the error topics. */
  lemma GoesBack(env: Env, stp: Step, msg: Message, w: World, k: nat, o: Outcome)
    requires msg.kind == "failed"
    requires Works(env, Job(CompensatePlan(env, stp, msg), Act(stp.compensate)), stp.retry, w, k, o)
    ensures |Deliver(env, stp, msg, w).w.own| == |w.own| + 1
    ensures Commits(env, stp, msg, w, Deliver(env, stp, msg, w).w.own[|w.own|], TryAt(env, stp.retry, w.clock, k), o,
                    "failed", stp.route.errors, Compensate)
  {
    RunStands(env, Job(CompensatePlan(env, stp, msg), Act(stp.compensate)), stp.retry, w, k, o);
  }

  /** The compensation fails for good, and its error handler, given just that error, succeeds. */
  lemma HandledBack(env: Env, stp: Step, msg: Message, w: World, k: nat, o: Outcome, j: nat, x: Outcome)
    requires msg.kind == "failed" && stp.onCompensateError.Some?
    requires var p := CompensatePlan(env, stp, msg);
             && GivesUp(env, Job(p, Act(stp.compensate)), stp.retry, w, k, o)
             && Works(env, Job(p, Handle(stp.onCompensateError.value, o.err)), None, Later(env, stp.retry, w, k), j, x)
    ensures |Deliver(env, stp, msg, w).w.own| == |w.own| + 1
    ensures Commits(env, stp, msg, w, Deliver(env, stp, msg, w).w.own[|w.own|],
                    TryAt(env, None, Later(env, stp.retry, w, k).clock, j), x, "failed", stp.route.errors, Compensate)
  {
    var p := CompensatePlan(env, stp, msg);
    var r := UserRun(env, Job(p, Act(stp.compensate)), stp.retry, w);
    var handling := Job(p, Handle(stp.onCompensateError.value, o.err));
    RunGivesUp(env, Job(p, Act(stp.compensate)), stp.retry, w, k, o);
    assert Works(env, handling, None, r.w, j, x);
    RunStands(env, handling, None, r.w, j, x);
  }

  /** The error returned holds everything that errors.Is and errors.As find in e. */
  ghost predicate Holds(returned: Option<Err>, e: Err) {
    && returned.Some?
    && (forall target | Is(e, target) :: Is(returned.value, target))
    && (HasRetryable(returned.value) <==> HasRetryable(e)) && FindAction(returned.value) == FindAction(e)
  }

  lemma WrapHolds(e: Err)
    ensures Holds(Some(Wrap(e)), e)
  {
    assert forall target :: Is(Wrap(e), target) <==> Wrap(e) == target || Is(e, target);
  }

  /** Whatever made a compensation fail, the error returned holds the error of its last phase. */
  lemma CompensationErrorKept(env: Env, stp: Step, msg: Message, w: World)
    requires CompensateStep(env, stp, msg, w).err.Some?
    ensures var r := UserRun(env, Job(CompensatePlan(env, stp, msg), Act(stp.compensate)), stp.retry, w);
            && r.err.Some?
            && var last := LastPhase(env, stp, CompensatePlan(env, stp, msg), r);
               last.err.Some? && Holds(CompensateStep(env, stp, msg, w).err, last.err.value)
  {
    var r := UserRun(env, Job(CompensatePlan(env, stp, msg), Act(stp.compensate)), stp.retry, w);
    WrapHolds(LastPhase(env, stp, CompensatePlan(env, stp, msg), r).err.value);
  }

  /** A compensation that fails for good is refused with the error of its code, and nothing is changed. */
  lemma RefusedBack(env: Env, stp: Step, msg: Message, w: World, k: nat, o: Outcome)
    requires msg.kind == "failed" && stp.onCompensateError.None?
    requires GivesUp(env, Job(CompensatePlan(env, stp, msg), Act(stp.compensate)), stp.retry, w, k, o)
    ensures var r := Deliver(env, stp, msg, w); r.w.db == w.db && r.w.own == w.own && Holds(r.err, o.err)
  {
    RunGivesUp(env, Job(CompensatePlan(env, stp, msg), Act(stp.compensate)), stp.retry, w, k, o);
    ForeignIsClean(o.err);
    WrapHolds(o.err);
  }

  /** With an error handler that fails for good too, the handler's error is the one returned. */
  lemma HandlerRefusedBack(env: Env, stp: Step, msg: Message, w: World, k: nat, o: Outcome, j: nat, x: Outcome)
    requires msg.kind == "failed" && stp.onCompensateError.Some?
    requires var p := CompensatePlan(env, stp, msg);
             var v := Later(env, stp.retry, w, k);
             && GivesUp(env, Job(p, Act(stp.compensate)), stp.retry, w, k, o)
             && GivesUp(env, Job(p, Handle(stp.onCompensateError.value, o.err)), None, v, j, x)
    ensures var r := Deliver(env, stp, msg, w); r.w.db == w.db && r.w.own == w.own && Holds(r.err, x.err)
  {
    var p := CompensatePlan(env, stp, msg);
    var r := UserRun(env, Job(p, Act(stp.compensate)), stp.retry, w);
    var handling := Job(p, Handle(stp.onCompensateError.value, o.err));
    RunGivesUp(env, Job(p, Act(stp.compensate)), stp.retry, w, k, o);
    assert GivesUp(env, handling, None, r.w, j, x);
    RunGivesUp(env, handling, None, r.w, j, x);
    ForeignIsClean(x.err);
    WrapHolds(x.err);
  }
}
