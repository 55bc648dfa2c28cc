/** How often the two nested retry loops call the action, how many transactions they open, how long they sleep. */
module Budget {
  import opened Message
  import opened Errors
  import opened Backoff
  import opened Journal
  import opened ExecutorSpec
  import opened ExecutorOutcome

  function Tries(r: Option<Retrier>): nat {
    if r.None? then 1 else r.value.maxRetries
  }

  predicate Bounded(r: Option<Retrier>) {
    r.Some? ==> 0 < r.value.min <= r.value.max
  }

  function SleepCap(r: Option<Retrier>): nat
    requires Bounded(r)
  {
    if r.None? then 0 else r.value.maxRetries * r.value.max
  }

  function Inner(env: Env, work: Work): nat {
    if work.One? then 1 else Tries(env.infra)
  }

  function InnerSleep(env: Env, work: Work): nat
    requires Bounded(env.infra)
  {
    if work.One? then 0 else SleepCap(env.infra)
  }

  ghost predicate Costs(job: Job, v: World, w: World, transactions: nat) {
    && v.clock < w.clock && v.begins <= w.begins <= v.begins + transactions
    && |v.own| <= |w.own| <= |v.own| + (w.begins - v.begins)
    && v.calls <= w.calls <= v.calls + if job.body.Act? then transactions else 0
  }

  lemma Peel(m: nat, k: int)
    requires m > 0
    ensures m * k == (m - 1) * k + k && (k >= 0 ==> m * k >= k)
  {
  }

  lemma {:induction false} PassCost(env: Env, r: Retrier, work: Work, c: Cell, n: nat, last: Option<Err>)
    requires n <= r.maxRetries
    ensures Costs(work.job, c.w, OnePass(env, r, work, c, n, last).c.w,
                  if n < r.maxRetries then Inner(env, work) else 0)
    decreases Rank(work), 1, 0
  {
    PerformCost(env, work, c.(w := Tick(c.w)));
  }

  lemma {:induction false} LoopCost(env: Env, r: Retrier, work: Work, c: Cell, n: nat, last: Option<Err>)
    requires n <= r.maxRetries
    ensures Costs(work.job, c.w, RetryLoop(env, r, work, c, n, last).0.w, (r.maxRetries - n) * Inner(env, work))
    decreases Rank(work), 2, r.maxRetries - n
  {
    PassCost(env, r, work, c, n, last);
    if n < r.maxRetries { Peel(r.maxRetries - n, Inner(env, work)); }
    match OnePass(env, r, work, c, n, last)
    case Return(_, _) =>
    case Again(d, e) => LoopCost(env, r, work, d, n + 1, Some(e));
  }

  lemma {:induction false} PerformCost(env: Env, work: Work, c: Cell)
    ensures Costs(work.job, c.w, Perform(env, work, c).0.w, Inner(env, work))
    decreases Rank(work), 0, 0
  {
    if work.Infra? { InfraCost(env, work.job, c.w); }
  }

  lemma {:induction false} InfraCost(env: Env, job: Job, w: World)
    ensures Costs(job, w, InfraRun(env, job, w).w, Tries(env.infra))
    decreases 0, 3, 0
  {
    var c := Cell(w, EMPTY, EMPTY);
    if env.infra.None? { PerformCost(env, One(job), c); } else { LoopCost(env, env.infra.value, One(job), c, 0, None); }
  }

  lemma UserCost(env: Env, job: Job, retry: Option<Retrier>, w: World)
    ensures Costs(job, w, UserRun(env, job, retry, w).w, Tries(retry) * Tries(env.infra))
  {
    if retry.None? {
      InfraCost(env, job, w);
    } else {
      LoopCost(env, retry.value, Infra(job), Cell(w, EMPTY, EMPTY), 0, None);
    }
  }

  /** Attempts multiply: at most U * I action calls, and U * I + 2 * I transactions with handler and failure event. */
  lemma ExecuteBudget(env: Env, stp: Step, msg: Message, w: World)
    ensures var u, i := Tries(stp.retry), Tries(env.infra);
            var v := ExecuteStep(env, stp, msg, w).w;
            && w.calls <= v.calls <= w.calls + u * i
            && w.begins <= v.begins <= w.begins + u * i + 2 * i
  {
    var p := ExecutePlan(env, stp, msg);
    var r := UserRun(env, Job(p, Act(stp.execute)), stp.retry, w);
    UserCost(env, Job(p, Act(stp.execute)), stp.retry, w);
    InfraCost(env, Job(EventPlan(stp.route, msg), Relay), r.w);
    if r.err.Some? && stp.onError.Some? {
      var job := Job(p, Handle(stp.onError.value, r.err.value));
      InfraCost(env, job, r.w);
      var h := InfraRun(env, job, r.w);
      InfraCost(env, Job(EventPlan(stp.route, EventMessage(msg, h.left)), Relay), h.w);
    }
  }

  /** A compensation has no failure event: at most U * I action calls, and U * I + I transactions
      with the error handler. */
  lemma CompensateBudget(env: Env, stp: Step, msg: Message, w: World)
    ensures var u, i := Tries(stp.retry), Tries(env.infra);
            var v := CompensateStep(env, stp, msg, w).w;
            && w.calls <= v.calls <= w.calls + u * i
            && w.begins <= v.begins <= w.begins + u * i + i
  {
    var p := CompensatePlan(env, stp, msg);
    var r := UserRun(env, Job(p, Act(stp.compensate)), stp.retry, w);
    UserCost(env, Job(p, Act(stp.compensate)), stp.retry, w);
    if r.err.Some? && stp.onCompensateError.Some? {
      InfraCost(env, Job(p, Handle(stp.onCompensateError.value, r.err.value)), r.w);
    }
  }

  /** A policy asks for wait d before retry n + 1, if the draw is u. */
  predicate AsksFor(r: Retrier, n: nat, u: Unit, d: int) {
    match r.policy
    case Exponential(f) => PlainWait(f, n, r.min, r.max, d)
    case Jittered(f) => DrawnWait(f, n, r.min, r.max, u, d)
  }

  /** After its n-th failed try, counted from zero, a loop of either level asks for exactly the wait
      of retry n under its own policy. */
  lemma PauseAfterTry(env: Env, r: Retrier, work: Work, c: Cell, n: nat, last: Option<Err>)
    requires n < r.maxRetries && !env.oracle.done(c.w.clock) && 0 < r.min
    requires var e := Perform(env, work, c.(w := Tick(c.w))).1; e.Some? && HasRetryable(e.value)
    ensures var tried := Perform(env, work, c.(w := Tick(c.w))).0.w;
            AsksFor(r, n, env.oracle.draw(tried.clock), OnePass(env, r, work, c, n, last).c.w.asked - tried.asked)
  {
    var tried := Perform(env, work, c.(w := Tick(c.w))).0.w;
    var u := env.oracle.draw(tried.clock);
    match r.policy
    case Exponential(f) => WaitsPlain(f, n, r.min, r.max, u, Wait(env, r, n, tried));
    case Jittered(f) => WaitsDrawn(f, n, r.min, r.max, u, Wait(env, r, n, tried));
  }

  lemma WaitBound(env: Env, r: Retrier, n: nat, w: World)
    requires 0 < r.min <= r.max
    ensures w.asked < Slept(env, r, n, w).asked <= w.asked + r.max
  {
    CapBound(r.policy, n, r.min, r.max, env.oracle.draw(w.clock));
  }

  lemma {:induction false} PassSleep(env: Env, r: Retrier, work: Work, c: Cell, n: nat, last: Option<Err>)
    requires n <= r.maxRetries && 0 < r.min <= r.max && Bounded(env.infra)
    ensures var d := OnePass(env, r, work, c, n, last).c;
            c.w.asked <= d.w.asked <= c.w.asked + if n < r.maxRetries then InnerSleep(env, work) + r.max else 0
    decreases Rank(work), 1, 0
  {
    var c1 := c.(w := Tick(c.w));
    PerformSleep(env, work, c1);
    WaitBound(env, r, n, Perform(env, work, c1).0.w);
  }

  lemma {:induction false} LoopSleep(env: Env, r: Retrier, work: Work, c: Cell, n: nat, last: Option<Err>)
    requires n <= r.maxRetries && 0 < r.min <= r.max && Bounded(env.infra)
    ensures var d := RetryLoop(env, r, work, c, n, last).0;
            c.w.asked <= d.w.asked <= c.w.asked + (r.maxRetries - n) * (InnerSleep(env, work) + r.max)
    decreases Rank(work), 2, r.maxRetries - n
  {
    PassSleep(env, r, work, c, n, last);
    if n < r.maxRetries { Peel(r.maxRetries - n, InnerSleep(env, work) + r.max); }
    match OnePass(env, r, work, c, n, last)
    case Return(_, _) =>
    case Again(d, e) => LoopSleep(env, r, work, d, n + 1, Some(e));
  }

  lemma {:induction false} PerformSleep(env: Env, work: Work, c: Cell)
    requires Bounded(env.infra)
    ensures var d := Perform(env, work, c).0; c.w.asked <= d.w.asked <= c.w.asked + InnerSleep(env, work)
    decreases Rank(work), 0, 0
  {
    if work.Infra? { InfraSleep(env, work.job, c.w); }
  }

  lemma {:induction false} InfraSleep(env: Env, job: Job, w: World)
    requires Bounded(env.infra)
    ensures var v := InfraRun(env, job, w).w; w.asked <= v.asked <= w.asked + SleepCap(env.infra)
    decreases 0, 3, 0
  {
    var c := Cell(w, EMPTY, EMPTY);
    if env.infra.None? {
      PerformSleep(env, One(job), c);
    } else {
      LoopSleep(env, env.infra.value, One(job), c, 0, None);
    }
  }

  lemma UserSleep(env: Env, job: Job, retry: Option<Retrier>, w: World)
    requires Bounded(env.infra) && Bounded(retry)
    ensures var v := UserRun(env, job, retry, w).w;
            w.asked <= v.asked <= w.asked + Tries(retry) * SleepCap(env.infra) + SleepCap(retry)
  {
    if retry.None? {
      InfraSleep(env, job, w);
    } else {
      LoopSleep(env, retry.value, Infra(job), Cell(w, EMPTY, EMPTY), 0, None);
      var u, cap, m := retry.value.maxRetries, SleepCap(env.infra), retry.value.max;
      assert u * (cap + m) == u * cap + u * m;
    }
  }

  lemma PublishSleep(env: Env, route: Route, msg: Message, w: World)
    requires Bounded(env.infra)
    ensures var v := PublishEvent(env, route, msg, w).w; w.asked <= v.asked <= w.asked + SleepCap(env.infra)
  {
    InfraSleep(env, Job(EventPlan(route, msg), Relay), w);
  }

  /** Total sleep of an execution: U tries of the infrastructure loop and their pauses, then two more loops. */
  lemma ExecuteSleep(env: Env, stp: Step, msg: Message, w: World)
    requires Bounded(env.infra) && Bounded(stp.retry)
    ensures var cap := SleepCap(env.infra);
            var v := ExecuteStep(env, stp, msg, w).w;
            w.asked <= v.asked <= w.asked + Tries(stp.retry) * cap + SleepCap(stp.retry) + 2 * cap
  {
    var p := ExecutePlan(env, stp, msg);
    var job := Job(p, Act(stp.execute));
    var r := UserRun(env, job, stp.retry, w);
    UserSleep(env, job, stp.retry, w);
    if r.err.Some? {
      if stp.onError.None? {
        PublishSleep(env, stp.route, msg, r.w);
      } else {
        var handling := Job(p, Handle(stp.onError.value, r.err.value));
        var h := InfraRun(env, handling, r.w);
        InfraSleep(env, handling, r.w);
        PublishSleep(env, stp.route, EventMessage(msg, h.left), h.w);
      }
    }
  }

  lemma CompensateSleep(env: Env, stp: Step, msg: Message, w: World)
    requires Bounded(env.infra) && Bounded(stp.retry)
    ensures var cap := SleepCap(env.infra);
            var v := CompensateStep(env, stp, msg, w).w;
            w.asked <= v.asked <= w.asked + Tries(stp.retry) * cap + SleepCap(stp.retry) + cap
  {
    var p := CompensatePlan(env, stp, msg);
    var job := Job(p, Act(stp.compensate));
    var r := UserRun(env, job, stp.retry, w);
    UserSleep(env, job, stp.retry, w);
    if r.err.Some? && stp.onCompensateError.Some? {
      InfraSleep(env, Job(p, Handle(stp.onCompensateError.value, r.err.value)), r.w);
    }
  }

  /** Nothing fails around the action, and its key is free. */
  ghost predicate Smooth(env: Env, job: Job, db: Db) {
    && (forall t :: !env.oracle.done(t) && env.oracle.begin(t).None? && env.oracle.claim(t).None?)
    && Quiet(env) && (job.plan.claims ==> KeyFor(job.plan).Some? && KeyFor(job.plan).value !in db.inbox)
  }

  lemma SmoothFailure(env: Env, job: Job, c: Cell)
    requires Smooth(env, job, c.w.db) && RunBody(job.body, c.w.clock, c.w.db.business, job.plan.msg).Failed?
    ensures var e := RunBody(job.body, c.w.clock, c.w.db.business, job.plan.msg).err;
            var (d, x) := Attempt(env, job, c);
            && x == Some(Errors.Action(e)) && d.w.db == c.w.db
            && d.w.calls == c.w.calls + (if job.body.Act? then 1 else 0)
            && d.w.begins == c.w.begins + 1 && d.w.asked == c.w.asked
  {
  }

  /** Nothing fails but the action, which always asks to be retried. */
  ghost predicate Stubborn(env: Env, job: Job, db: Db) {
    && Smooth(env, job, db) && job.body.Act?
    && forall t, tables, m :: var o := job.body.action(t, tables, m); o.Failed? && HasRetryable(o.err)
  }

  ghost predicate Plainly(r: Option<Retrier>) {
    r.Some? ==> r.value.policy.Exponential?
  }

  function Pauses(r: Option<Retrier>, n: nat): int
    requires n <= Tries(r)
  {
    if r.None? then 0 else SleepTotal(r.value.policy, n, r.value.maxRetries, r.value.min, r.value.max, _ => 0.0)
  }

  function InnerPauses(env: Env, work: Work): int {
    if work.One? then 0 else Pauses(env.infra, 0)
  }

  ghost predicate Exactly(v: World, w: World, calls: int) {
    w.db == v.db && w.calls == v.calls + calls && w.begins == v.begins + calls
  }

  ghost predicate StillRetryable(work: Work, e: Option<Err>) {
    && e.Some? && HasRetryable(e.value)
    && (work.One? ==> FindAction(e.value).Some? && HasRetryable(FindAction(e.value).value))
  }

  lemma StubbornAttempt(env: Env, job: Job, c: Cell)
    requires Stubborn(env, job, c.w.db)
    ensures var (d, e) := Perform(env, One(job), c);
            Exactly(c.w, d.w, 1) && d.w.asked == c.w.asked && StillRetryable(One(job), e)
  {
    SmoothFailure(env, job, c);
    assert Perform(env, One(job), c) == Attempt(env, job, c);
  }

  lemma {:induction false} StubbornInfra(env: Env, job: Job, w: World)
    requires Stubborn(env, job, w.db) && Tries(env.infra) > 0
    ensures var r := InfraRun(env, job, w);
            && Exactly(w, r.w, Tries(env.infra)) && r.err.Some? && HasRetryable(r.err.value)
            && (Plainly(env.infra) ==> r.w.asked == w.asked + Pauses(env.infra, 0))
    decreases 0, 3, 0
  {
    var c := Cell(w, EMPTY, EMPTY);
    if env.infra.None? {
      StubbornAttempt(env, job, c);
      var (d, e) := Perform(env, One(job), c);
      assert InfraRun(env, job, w) == Unwrapped(d, e);
    } else {
      var r := env.infra.value;
      StubbornLoop(env, r, One(job), c, 0, None);
      var (d, e) := RetryLoop(env, r, One(job), c, 0, None);
      assert InfraRun(env, job, w) == Unwrapped(d, e);
      assert (r.maxRetries - 0) * Inner(env, One(job)) == r.maxRetries;
    }
  }

  lemma {:induction false} StubbornPerform(env: Env, work: Work, c: Cell)
    requires Stubborn(env, work.job, c.w.db) && Tries(env.infra) > 0
    ensures var (d, e) := Perform(env, work, c);
            && Exactly(c.w, d.w, Inner(env, work)) && StillRetryable(work, e)
            && (Plainly(env.infra) ==> d.w.asked == c.w.asked + InnerPauses(env, work))
    decreases Rank(work), 0, 0
  {
    match work
    case One(job) => StubbornAttempt(env, job, c);
    case Infra(job) =>
      StubbornInfra(env, job, c.w);
      var r := InfraRun(env, job, c.w);
      assert Perform(env, work, c).0.w == r.w && Perform(env, work, c).1 == r.err;
  }

  lemma {:induction false} StubbornLoop(env: Env, r: Retrier, work: Work, c: Cell, n: nat, last: Option<Err>)
    requires Stubborn(env, work.job, c.w.db) && Tries(env.infra) > 0 && n <= r.maxRetries
    requires n == r.maxRetries ==> StillRetryable(work, last)
    ensures var (d, e) := RetryLoop(env, r, work, c, n, last);
            && Exactly(c.w, d.w, (r.maxRetries - n) * Inner(env, work)) && StillRetryable(work, e)
            && (Plainly(env.infra) && r.policy.Exponential? ==>
                  d.w.asked == c.w.asked + (r.maxRetries - n) * InnerPauses(env, work) + Pauses(Some(r), n))
    decreases Rank(work), 2, r.maxRetries - n
  {
    if n == r.maxRetries {
      ExhaustedKeepsLast(last.value);
    } else {
      StubbornPass(env, r, work, c, n, last);
      var d := OnePass(env, r, work, c, n, last);
      StubbornLoop(env, r, work, d.c, n + 1, Some(d.last));
      Peel(r.maxRetries - n, Inner(env, work));
      Peel(r.maxRetries - n, InnerPauses(env, work));
    }
  }

  lemma {:induction false} StubbornPass(env: Env, r: Retrier, work: Work, c: Cell, n: nat, last: Option<Err>)
    requires Stubborn(env, work.job, c.w.db) && Tries(env.infra) > 0 && n < r.maxRetries
    ensures var d := OnePass(env, r, work, c, n, last);
            && d.Again? && StillRetryable(work, Some(d.last)) && Exactly(c.w, d.c.w, Inner(env, work))
            && (Plainly(env.infra) && r.policy.Exponential? ==>
                  d.c.w.asked == c.w.asked + InnerPauses(env, work) + CalcBackoff(r.policy, n, r.min, r.max, 0.0))
    decreases Rank(work), 1, 0
  {
    StubbornPerform(env, work, c.(w := Tick(c.w)));
  }

  /** The infrastructure retrier repeats an action's retryable error too, so the bound U * I is reached exactly. */
  lemma AttemptsMultiply(env: Env, job: Job, retry: Retrier, w: World)
    requires Stubborn(env, job, w.db) && Tries(env.infra) > 0 && retry.maxRetries > 0
    ensures var u, i := retry.maxRetries, Tries(env.infra);
            var r := UserRun(env, job, Some(retry), w);
            && r.w.calls == w.calls + u * i && r.w.begins == w.begins + u * i
            && r.err.Some? && r.w.db == w.db
            && (Plainly(env.infra) && retry.policy.Exponential? ==>
                  r.w.asked == w.asked + u * Pauses(env.infra, 0) + Pauses(Some(retry), 0))
  {
    StubbornLoop(env, retry, Infra(job), Cell(w, EMPTY, EMPTY), 0, None);
  }

  /** With a second try at hand, an infrastructure run stops at a failed action iff the error is not retryable. */
  lemma CalledOnceIff(env: Env, job: Job, w: World)
    requires env.infra.Some? && env.infra.value.maxRetries >= 2 && job.body.Act? && Smooth(env, job, w.db)
    requires RunBody(job.body, w.clock + 1, w.db.business, job.plan.msg).Failed?
    ensures InfraRun(env, job, w).w.calls == w.calls + 1 <==>
            !HasRetryable(RunBody(job.body, w.clock + 1, w.db.business, job.plan.msg).err)
  {
    var r := env.infra.value;
    var c := Cell(w, EMPTY, EMPTY);
    var c1 := c.(w := Tick(w));
    SmoothFailure(env, job, c1);
    assert Perform(env, One(job), c1) == Attempt(env, job, c1);
    match OnePass(env, r, One(job), c, 0, None)
    case Return(_, _) =>
    case Again(d, e) =>
      SecondCall(env, r, job, d, Some(e));
  }

  lemma SecondCall(env: Env, r: Retrier, job: Job, c: Cell, last: Option<Err>)
    requires r.maxRetries >= 2 && job.body.Act? && Smooth(env, job, c.w.db)
    ensures RetryLoop(env, r, One(job), c, 1, last).0.w.calls > c.w.calls
  {
    var c1 := c.(w := Tick(c.w));
    assert Perform(env, One(job), c1) == Attempt(env, job, c1);
    assert Attempt(env, job, c1).0.w.calls == c1.w.calls + 1;
    match OnePass(env, r, One(job), c, 1, last)
    case Return(_, _) =>
    case Again(d, e) => LoopCost(env, r, One(job), d, 2, Some(e));
  }

  /** The infrastructure runs of a user-level loop, in order. */
  function InfraRuns(env: Env, r: Retrier, job: Job, c: Cell, n: nat, last: Option<Err>): seq<Run>
    decreases r.maxRetries - n
  {
    if env.oracle.done(c.w.clock) || n >= r.maxRetries then []
    else
      match OnePass(env, r, Infra(job), c, n, last)
      case Return(_, _) => [InfraRun(env, job, Tick(c.w))]
      case Again(d, e) => [InfraRun(env, job, Tick(c.w))] + InfraRuns(env, r, job, d, n + 1, Some(e))
  }

  predicate Retried(x: Run) {
    x.err.Some? && HasRetryable(x.err.value)
  }

  /** A unit of the user's budget is one infrastructure run; the next one starts only after a
      retryable error, and then always. */
  lemma {:induction false} UnitsSpent(env: Env, r: Retrier, job: Job, c: Cell, n: nat, last: Option<Err>)
    requires n <= r.maxRetries
    ensures var runs := InfraRuns(env, r, job, c, n, last);
            var e := RetryLoop(env, r, Infra(job), c, n, last).1;
            && |runs| <= r.maxRetries - n
            && (forall j | 0 <= j < |runs| - 1 :: Retried(runs[j]))
            && (e.None? ==> runs != [] && runs[|runs| - 1].err.None?)
            && ((forall t | c.w.clock <= t :: !env.oracle.done(t)) ==>
                  || (runs != [] && !Retried(runs[|runs| - 1]) && e == runs[|runs| - 1].err)
                  || (|runs| == r.maxRetries - n &&
                      e == Some(Exhausted(if runs == [] then last else runs[|runs| - 1].err))))
    decreases r.maxRetries - n
  {
    var x := InfraRun(env, job, Tick(c.w));
    assert Perform(env, Infra(job), c.(w := Tick(c.w))).1 == x.err;
    InfraCost(env, job, Tick(c.w));
    match OnePass(env, r, Infra(job), c, n, last)
    case Return(_, _) =>
    case Again(d, e) =>
      PassCost(env, r, Infra(job), c, n, last);
      UnitsSpent(env, r, job, d, n + 1, Some(e));
      var rest := InfraRuns(env, r, job, d, n + 1, Some(e));
      assert x.err == Some(e) && Retried(x);
      assert forall j | 0 < j < |rest| + 1 :: ([x] + rest)[j] == rest[j - 1];
  }

  /** With doubling and no cap the nested loops sleep U * minI * 2^(I-1) + minU * 2^(U-1) in all. */
  lemma NestedDoubling(env: Env, job: Job, retry: Retrier, w: World)
    requires Stubborn(env, job, w.db) && env.infra.Some?
    requires retry.policy == Exponential(2.0) == env.infra.value.policy
    requires retry.maxRetries > 0 && env.infra.value.maxRetries > 0
    requires 0 < retry.min && retry.max <= 0 && 0 < env.infra.value.min && env.infra.value.max <= 0
    ensures var u, i := retry.maxRetries, env.infra.value.maxRetries;
            UserRun(env, job, Some(retry), w).w.asked ==
            w.asked + u * (env.infra.value.min * Doubling(i - 1)) + retry.min * Doubling(u - 1)
  {
    AttemptsMultiply(env, job, retry, w);
    DoublingTotal(0, retry.maxRetries, retry.min, retry.max, _ => 0.0);
    DoublingTotal(0, env.infra.value.maxRetries, env.infra.value.min, env.infra.value.max, _ => 0.0);
  }
}
