/** Where the guarantees end: commits without a key, outages, cancellation, executions after a failure event. */
module Limits {
  import opened Message
  import opened Errors
  import opened Journal
  import opened ExecutorSpec
  import opened ExecutorOutcome
  import opened StepTheorems
  import opened Budget
  import opened Schedule
  import opened Progress
  import opened Duplicates

  /** Nothing fails, except that no commit is ever acknowledged. */
  const LOSSY: Oracle :=
    Oracle(_ => false, _ => None, _ => None, (_, _) => None, _ => AckLost(Plain(0)), _ => [], _ => 0.0)

  ghost predicate AlwaysDone(job: Job) {
    job.body.Act? && forall t, tables, m :: job.body.action(t, tables, m).Done?
  }

  /** With the context gone from the start an execution does nothing, yet ends without an error if
      it has no error topics. */
  lemma CancelledDoesNothing(env: Env, stp: Step, msg: Message, w: World)
    requires env.infra.Some? && forall t | w.clock <= t :: env.oracle.done(t)
    ensures var r := ExecuteStep(env, stp, msg, w);
            && r.w.db == w.db && r.w.own == w.own &&
               r.w.begins == w.begins && r.w.calls == w.calls && r.w.asked == w.asked
            && (r.err.None? <==> stp.route.errors == [])
  {
    var p := ExecutePlan(env, stp, msg);
    var job := Job(p, Act(stp.execute));
    assert FindAction(Cancelled) == None;
    InfraCancelled(env, job, w);
    var r := UserRun(env, job, stp.retry, w);
    if stp.retry.Some? {
      assert OnePass(env, stp.retry.value, Infra(job), Cell(w, EMPTY, EMPTY), 0, None).Return?;
    }
    assert r.err == Some(Cancelled) && Idled(w, r.w);
    if stp.onError.None? {
      InfraCancelled(env, Job(EventPlan(stp.route, msg), Relay), r.w);
    } else {
      var handling := Job(p, Handle(stp.onError.value, Cancelled));
      InfraCancelled(env, handling, r.w);
      var h := InfraRun(env, handling, r.w);
      InfraCancelled(env, Job(EventPlan(stp.route, EventMessage(msg, h.left)), Relay), h.w);
    }
  }

  ghost predicate Idled(v: World, w: World) {
    w == Tick(v)
  }

  lemma InfraCancelled(env: Env, job: Job, w: World)
    requires env.infra.Some? && env.oracle.done(w.clock)
    ensures var r := InfraRun(env, job, w); r.err == Some(Cancelled) && Idled(w, r.w)
  {
    assert FindAction(Cancelled) == None;
    assert OnePass(env, env.infra.value, One(job), Cell(w, EMPTY, EMPTY), 0, None).Return?;
  }

  // ---- a context that is cancelled during a run ----

  /** From time t on the context is done. */
  ghost predicate DoneFrom(env: Env, t: nat) {
    forall u | t <= u :: env.oracle.done(u)
  }

  lemma {:induction false} LoopEndsSoon(env: Env, r: Retrier, work: Work, c: Cell, n: nat, last: Option<Err>, t: nat)
    requires DoneFrom(env, t) && c.w.clock <= t + 1
    ensures var (d, e) := RetryLoop(env, r, work, c, n, last);
            d.w.clock <= t + 2 && (e.Some? && HasRetryable(e.value) ==> d.w.clock <= t)
    decreases Rank(work), 2, r.maxRetries - n
  {
    if !env.oracle.done(c.w.clock) { WorkEndsSoon(env, work, c.(w := Tick(c.w)), t); }
    match OnePass(env, r, work, c, n, last)
    case Return(_, _) =>
    case Again(d, e) => LoopEndsSoon(env, r, work, d, n + 1, Some(e), t);
  }

  lemma {:induction false} WorkEndsSoon(env: Env, work: Work, c: Cell, t: nat)
    requires DoneFrom(env, t) && c.w.clock <= t
    ensures var (d, e) := Perform(env, work, c);
            d.w.clock <= t + 2 && (e.Some? && HasRetryable(e.value) ==> d.w.clock <= t + 1)
    decreases Rank(work), 0, 0
  {
    match work
    case One(job) => AttemptTicks(env, job, c);
    case Infra(job) => InfraEndsSoon(env, job, c.w, t);
  }

  lemma {:induction false} InfraEndsSoon(env: Env, job: Job, w: World, t: nat)
    requires DoneFrom(env, t) && w.clock <= t
    ensures var r := InfraRun(env, job, w);
            r.w.clock <= t + 2 && (r.err.Some? && HasRetryable(r.err.value) ==> r.w.clock <= t + 1)
    decreases 0, 3, 0
  {
    var c := Cell(w, EMPTY, EMPTY);
    if env.infra.None? {
      WorkEndsSoon(env, One(job), c, t);
    } else {
      LoopEndsSoon(env, env.infra.value, One(job), c, 0, None, t);
      var e := RetryLoop(env, env.infra.value, One(job), c, 0, None).1;
      if e.Some? && FindAction(e.value).Some? { FoundActionIsInside(e.value, Duplicate); }
    }
  }

  /** Both loops end within two ticks of the cancellation, whatever user code and the database do. */
  lemma CancellationIsPrompt(env: Env, job: Job, retry: Option<Retrier>, w: World, t: nat)
    requires DoneFrom(env, t) && w.clock <= t
    ensures UserRun(env, job, retry, w).w.clock <= t + 2
  {
    if retry.None? {
      InfraEndsSoon(env, job, w, t);
    } else {
      LoopEndsSoon(env, retry.value, Infra(job), Cell(w, EMPTY, EMPTY), 0, None, t);
    }
  }

  /** Whenever it is made, a try of the job meets an infrastructure fault and keeps P. */
  ghost predicate NeverThrough(env: Env, job: Job, P: Memo -> bool) {
    forall t :: Misses(env, job, P, t)
  }

  /** Only the context's own error ends a run without asking for a retry. */
  ghost predicate CancelledOrLost(env: Env, w: World, e: Option<Err>) {
    Lost(e) || (e == Some(Cancelled) && w.clock > 0 && env.oracle.done(w.clock - 1))
  }

  lemma {:induction false} LoopNeverThrough(env: Env, r: Retrier, work: Work, P: Memo -> bool, c: Cell, n: nat,
                                            last: Option<Err>)
    requires NeverThrough(env, work.job, P) && P(MemoOf(c.w)) && Lasting(env) && Tries(env.infra) > 0
    requires n <= r.maxRetries && (n == r.maxRetries ==> Lost(last))
    ensures var (d, e) := RetryLoop(env, r, work, c, n, last);
            && P(MemoOf(d.w)) && d.w.clock > 0
            && if env.oracle.done(d.w.clock - 1) then e == Some(Cancelled) else Lost(e)
    decreases Rank(work), 2, r.maxRetries - n
  {
    var c1 := c.(w := Tick(c.w));
    assert MemoOf(c1.w) == MemoOf(c.w);
    if env.oracle.done(c.w.clock) {
    } else if n == r.maxRetries {
      ExhaustedKeepsLast(last.value);
    } else {
      WorkNeverThrough(env, work, P, c1);
      var d := Perform(env, work, c1).0;
      assert MemoOf(Slept(env, r, n, d.w)) == MemoOf(d.w);
      match OnePass(env, r, work, c, n, last)
      case Return(_, _) =>
      case Again(x, e) => LoopNeverThrough(env, r, work, P, x, n + 1, Some(e));
    }
  }

  lemma {:induction false} WorkNeverThrough(env: Env, work: Work, P: Memo -> bool, c: Cell)
    requires NeverThrough(env, work.job, P) && P(MemoOf(c.w)) && Lasting(env) && Tries(env.infra) > 0
    ensures var (d, e) := Perform(env, work, c); P(MemoOf(d.w)) && CancelledOrLost(env, d.w, e)
    decreases Rank(work), 0, 0
  {
    match work
    case One(job) =>
      assert Misses(env, job, P, c.w.clock);
    case Infra(job) =>
      InfraNeverThrough(env, job, P, c.w);
  }

  lemma {:induction false} InfraNeverThrough(env: Env, job: Job, P: Memo -> bool, w: World)
    requires NeverThrough(env, job, P) && P(MemoOf(w)) && Lasting(env) && Tries(env.infra) > 0
    ensures var r := InfraRun(env, job, w);
            && P(MemoOf(r.w)) && CancelledOrLost(env, r.w, r.err)
            && (env.infra.Some? && r.w.clock > 0 && env.oracle.done(r.w.clock - 1) ==> r.err == Some(Cancelled))
    decreases 0, 3, 0
  {
    var c := Cell(w, EMPTY, EMPTY);
    assert FindAction(Cancelled) == None;
    if env.infra.None? {
      WorkNeverThrough(env, One(job), P, c);
    } else {
      LoopNeverThrough(env, env.infra.value, One(job), P, c, 0, None);
    }
  }

  /** A run that never gets through ends with the context's own error iff the context was done when
      it ended, and otherwise with a used-up budget that still asks for a retry. */
  lemma CancelledIff(env: Env, job: Job, P: Memo -> bool, retry: Option<Retrier>, w: World)
    requires NeverThrough(env, job, P) && P(MemoOf(w)) && Lasting(env) && AllTries(env, retry) > 0
    requires retry.Some? || env.infra.Some?
    ensures var r := UserRun(env, job, retry, w);
            && P(MemoOf(r.w)) && r.w.clock > 0
            && if env.oracle.done(r.w.clock - 1) then r.err == Some(Cancelled) else Lost(r.err)
  {
    UserCost(env, job, retry, w);
    if retry.None? {
      InfraNeverThrough(env, job, P, w);
    } else {
      if retry.value.maxRetries == 0 || Tries(env.infra) == 0 { assert false; }
      LoopNeverThrough(env, retry.value, Infra(job), P, Cell(w, EMPTY, EMPTY), 0, None);
    }
  }

  /** In a database outage every infrastructure run uses up one unit of the user's budget, though
      the action is never called. */
  lemma OutageSpendsUserBudget(env: Env, job: Job, retry: Option<Retrier>, w: World)
    requires (forall t :: !env.oracle.done(t) && env.oracle.begin(t).Some?) && AllTries(env, retry) > 0
    ensures var r := UserRun(env, job, retry, w);
            && r.w.begins == w.begins + AllTries(env, retry)
            && r.w.calls == w.calls && r.w.own == w.own && r.err.Some?
  {
    var P := (m: Memo) => m.calls == w.calls && m.own == w.own;
    forall i | 0 <= i < AllTries(env, retry) ensures Misses(env, job, P, TryAt(env, retry, w.clock, i)) {
      var t := TryAt(env, retry, w.clock, i);
      InfraErrorIsClean(env.oracle.begin(t).value);
    }
    UserMisses(env, job, P, retry, w);
  }

  /** Without a key, every try commits and none of them is told so. */
  lemma LossyRun(infra: Option<Retrier>, dedup: bool, job: Job, retry: Option<Retrier>, w: World)
    requires AlwaysDone(job) && !Keyed(job.plan) && AllTries(Env(LOSSY, infra, dedup), retry) > 0
    ensures var env := Env(LOSSY, infra, dedup);
            |News(w, UserRun(env, job, retry, w).w)| == AllTries(env, retry)
  {
    var env := Env(LOSSY, infra, dedup);
    var P := (m: Memo) => |m.own| - m.begins == |w.own| - w.begins;
    forall i | 0 <= i < AllTries(env, retry) ensures Misses(env, job, P, TryAt(env, retry, w.clock, i)) {
      InfraErrorIsClean(Plain(0));
    }
    UserMisses(env, job, P, retry, w);
  }

  ghost predicate AtMostOneCommit(infra: Option<Retrier>, dedup: bool, job: Job, retry: Option<Retrier>, w: World) {
    forall o: Oracle :: |News(w, UserRun(Env(o, infra, dedup), job, retry, w).w)| <= 1
  }

  /** A successful action commits at most once in every run exactly when the plan has a key or there is only one try. */
  lemma AtMostOneCommitIff(infra: Option<Retrier>, dedup: bool, job: Job, retry: Option<Retrier>, w: World)
    requires AlwaysDone(job)
    ensures AtMostOneCommit(infra, dedup, job, retry, w) <==> Keyed(job.plan) || Tries(retry) * Tries(infra) <= 1
  {
    if Keyed(job.plan) || Tries(retry) * Tries(infra) <= 1 {
      forall o: Oracle ensures |News(w, UserRun(Env(o, infra, dedup), job, retry, w).w)| <= 1 {
        var env := Env(o, infra, dedup);
        UserEffect(env, job, retry, w);
        UserCost(env, job, retry, w);
      }
    } else {
      LossyRun(infra, dedup, job, retry, w);
    }
  }

  /** A failure event takes nothing from the execution: a redelivery can still commit exactly when it could before. */
  lemma FailureIsNotFinal(env: Env, stp: Step, msg: Message, w: World, later: Env, t: nat)
    requires Definite(env) && Quiet(env)
    requires var news := News(w, ExecuteStep(env, stp, msg, w).w); |news| == 1 && FailureBundle(stp, msg, news[0])
    ensures var job := Job(ExecutePlan(later, stp, msg), Act(stp.execute));
            CanCommit(later, job, t, ExecuteStep(env, stp, msg, w).w.db) <==> CanCommit(later, job, t, w.db)
  {
    ExecuteEffect(env, stp, msg, w);
    var db := ExecuteStep(env, stp, msg, w).w.db;
    var news := News(w, ExecuteStep(env, stp, msg, w).w);
    ApplyOne(w.db, news);
    var b := news[0];
    assert db.inbox == w.db.inbox && db.business == w.db.business;
    assert forall k: OutboxKey | k.phase == Execute :: k in db.outbox <==> k in w.db.outbox;
    var p := ExecutePlan(later, stp, msg);
    SameFit(later, p, Addressed(p, RunBody(Act(stp.execute), t, db.business, msg).msg), t, db.outbox, w.db.outbox);
  }

  lemma SameFit(env: Env, p: Plan, m: Message, t: nat, a: map<OutboxKey, Row>, b: map<OutboxKey, Row>)
    requires forall k: OutboxKey | k.phase == p.phase :: k in a <==> k in b
    ensures Writable(env, p, m, t, 0, a) <==> Writable(env, p, m, t, 0, b)
  {
    forall j | 0 <= j < |p.topics| ensures RowFits(env, p, m, t, j, a) <==> RowFits(env, p, m, t, j, b) {}
  }
}
