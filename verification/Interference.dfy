/** How the database changes while other replicas commit: by whole bundles that fit, whoever committed them. */
module Interference {
  import opened Message
  import opened Errors
  import opened Journal
  import opened ExecutorSpec
  import opened ExecutorOutcome
  import opened StepTheorems

  ghost predicate Fitting(db: Db, bs: seq<Bundle>) {
    bs == [] || (Fitting(db, bs[..|bs| - 1]) && Fits(ApplyAll(db, bs[..|bs| - 1]), bs[|bs| - 1]))
  }

  lemma {:induction false} FittingConcat(db: Db, x: seq<Bundle>, y: seq<Bundle>)
    requires Fitting(db, x) && Fitting(ApplyAll(db, x), y)
    ensures Fitting(db, x + y)
  {
    if y == [] {
      assert x + y == x;
    } else {
      var n := |y| - 1;
      assert (x + y)[..|x + y| - 1] == x + y[..n];
      FittingConcat(db, x, y[..n]);
      ApplyAllConcat(db, x, y[..n]);
    }
  }

  ghost predicate Follows(a: Db, bs: seq<Bundle>, b: Db, G: Bundle -> bool) {
    b == ApplyAll(a, bs) && Fitting(a, bs) && forall x | x in bs :: G(x)
  }

  /** Bundles with property G, one after another, are all that happened on the way from a to b. */
  ghost predicate Trail(a: Db, b: Db, G: Bundle -> bool) {
    exists bs: seq<Bundle> :: Follows(a, bs, b, G)
  }

  lemma TrailThen(a: Db, b: Db, c: Db, G: Bundle -> bool)
    requires Trail(a, b, G) && Trail(b, c, G)
    ensures Trail(a, c, G)
  {
    var x :| Follows(a, x, b, G);
    var y :| Follows(b, y, c, G);
    FittingConcat(a, x, y);
    ApplyAllConcat(a, x, y);
    assert Follows(a, x + y, c, G);
  }

  lemma TrailStep(a: Db, b: Bundle, G: Bundle -> bool)
    requires Fits(a, b) && G(b)
    ensures Trail(a, Apply(a, b), G)
  {
    assert [b][..0] == [];
    assert Follows(a, [b], Apply(a, b), G);
  }

  lemma TrailNone(a: Db, G: Bundle -> bool)
    ensures Trail(a, a, G)
  {
    assert Follows(a, [], a, G);
  }

  lemma {:induction false} AbsorbTrail(db: Db, bs: seq<Bundle>, G: Bundle -> bool)
    requires forall b | b in bs :: G(b)
    ensures Trail(db, Absorb(db, bs), G)
    decreases |bs|
  {
    if bs == [] {
      TrailNone(db, G);
    } else {
      var next := if Fits(db, bs[0]) then Apply(db, bs[0]) else db;
      if Fits(db, bs[0]) { TrailStep(db, bs[0], G); } else { TrailNone(db, G); }
      AbsorbTrail(next, bs[1..], G);
      TrailThen(db, next, Absorb(db, bs), G);
    }
  }

  /** G holds of everything other replicas commit. */
  ghost predicate OthersAre(env: Env, G: Bundle -> bool) {
    forall t, b | b in env.oracle.others(t) :: G(b)
  }

  ghost predicate MadeAre(job: Job, G: Bundle -> bool) {
    forall b | Made(job, b) :: G(b)
  }

  lemma AttemptTrail(env: Env, job: Job, c: Cell, G: Bundle -> bool)
    requires OthersAre(env, G) && MadeAre(job, G)
    ensures Trail(c.w.db, Attempt(env, job, c).0.w.db, G)
  {
    var t, begun := c.w.clock, Begun(env.oracle, c.w).db;
    AbsorbTrail(c.w.db, env.oracle.others(t), G);
    if Prepare(env, job, t, begun).Ready? {
      ReadyIsMade(env, job, t, begun);
      TrailStep(begun, Prepare(env, job, t, begun).bundle, G);
      TrailThen(c.w.db, begun, Apply(begun, Prepare(env, job, t, begun).bundle), G);
    }
  }

  lemma {:induction false} PassTrail(env: Env, r: Retrier, work: Work, c: Cell, n: nat, last: Option<Err>,
                                     G: Bundle -> bool)
    requires OthersAre(env, G) && MadeAre(work.job, G)
    ensures Trail(c.w.db, OnePass(env, r, work, c, n, last).c.w.db, G)
    decreases Rank(work), 1, 0
  {
    TrailNone(c.w.db, G);
    PerformTrail(env, work, c.(w := Tick(c.w)), G);
  }

  lemma {:induction false} LoopTrail(env: Env, r: Retrier, work: Work, c: Cell, n: nat, last: Option<Err>,
                                     G: Bundle -> bool)
    requires OthersAre(env, G) && MadeAre(work.job, G)
    ensures Trail(c.w.db, RetryLoop(env, r, work, c, n, last).0.w.db, G)
    decreases Rank(work), 2, r.maxRetries - n
  {
    PassTrail(env, r, work, c, n, last, G);
    match OnePass(env, r, work, c, n, last)
    case Return(_, _) =>
    case Again(d, e) =>
      LoopTrail(env, r, work, d, n + 1, Some(e), G);
      TrailThen(c.w.db, d.w.db, RetryLoop(env, r, work, d, n + 1, Some(e)).0.w.db, G);
  }

  lemma {:induction false} PerformTrail(env: Env, work: Work, c: Cell, G: Bundle -> bool)
    requires OthersAre(env, G) && MadeAre(work.job, G)
    ensures Trail(c.w.db, Perform(env, work, c).0.w.db, G)
    decreases Rank(work), 0, 0
  {
    match work
    case One(job) => AttemptTrail(env, job, c, G);
    case Infra(job) => InfraTrail(env, job, c.w, G);
  }

  lemma {:induction false} InfraTrail(env: Env, job: Job, w: World, G: Bundle -> bool)
    requires OthersAre(env, G) && MadeAre(job, G)
    ensures Trail(w.db, InfraRun(env, job, w).w.db, G)
    decreases 0, 3, 0
  {
    var c := Cell(w, EMPTY, EMPTY);
    if env.infra.None? {
      PerformTrail(env, One(job), c, G);
    } else {
      LoopTrail(env, env.infra.value, One(job), c, 0, None, G);
    }
  }

  lemma UserTrail(env: Env, job: Job, retry: Option<Retrier>, w: World, G: Bundle -> bool)
    requires OthersAre(env, G) && MadeAre(job, G)
    ensures Trail(w.db, UserRun(env, job, retry, w).w.db, G)
  {
    if retry.None? {
      InfraTrail(env, job, w, G);
    } else {
      LoopTrail(env, retry.value, Infra(job), Cell(w, EMPTY, EMPTY), 0, None, G);
    }
  }

  lemma PublishTrail(env: Env, stp: Step, msg: Message, left: Message, w: World, G: Bundle -> bool)
    requires OthersAre(env, G) && LeftBehind(stp, msg, left) && forall b | FailureBundle(stp, msg, b) :: G(b)
    ensures Trail(w.db, PublishEvent(env, stp.route, EventMessage(msg, left), w).w.db, G)
  {
    var job := Job(EventPlan(stp.route, EventMessage(msg, left)), Relay);
    TrailNone(w.db, G);
    if stp.route.errors != [] {
      forall b | Made(job, b) ensures G(b) { assert FailureBundle(stp, msg, b); }
      InfraTrail(env, job, w, G);
    }
  }

  /** While an execution runs, nothing happens to the database but its own bundles and those of others. */
  lemma ExecuteTrail(env: Env, stp: Step, msg: Message, w: World, G: Bundle -> bool)
    requires OthersAre(env, G) && forall b | MainBundle(env, stp, msg, b) || FailureBundle(stp, msg, b) :: G(b)
    ensures Trail(w.db, ExecuteStep(env, stp, msg, w).w.db, G)
  {
    var p := ExecutePlan(env, stp, msg);
    var job := Job(p, Act(stp.execute));
    var r := UserRun(env, job, stp.retry, w);
    forall b | Made(job, b) ensures G(b) { assert MainBundle(env, stp, msg, b); }
    UserTrail(env, job, stp.retry, w, G);
    if r.err.Some? {
      if stp.onError.None? {
        assert EventMessage(msg, EMPTY) == msg;
        PublishTrail(env, stp, msg, EMPTY, r.w, G);
        TrailThen(w.db, r.w.db, PublishEvent(env, stp.route, msg, r.w).w.db, G);
      } else {
        var handling := Job(p, Handle(stp.onError.value, r.err.value));
        var h := InfraRun(env, handling, r.w);
        forall b | Made(handling, b) ensures G(b) { assert MainBundle(env, stp, msg, b); }
        InfraTrail(env, handling, r.w, G);
        TrailThen(w.db, r.w.db, h.w.db, G);
        LeftByHandler(env, stp, msg, r.err.value, r.w);
        PublishTrail(env, stp, msg, h.left, h.w, G);
        TrailThen(w.db, h.w.db, PublishEvent(env, stp.route, EventMessage(msg, h.left), h.w).w.db, G);
      }
    }
  }

  lemma CompensateTrail(env: Env, stp: Step, msg: Message, w: World, G: Bundle -> bool)
    requires OthersAre(env, G) && forall b | CompensateBundle(env, stp, msg, b) :: G(b)
    ensures Trail(w.db, CompensateStep(env, stp, msg, w).w.db, G)
  {
    var p := CompensatePlan(env, stp, msg);
    var job := Job(p, Act(stp.compensate));
    var r := UserRun(env, job, stp.retry, w);
    forall b | Made(job, b) ensures G(b) { assert CompensateBundle(env, stp, msg, b); }
    UserTrail(env, job, stp.retry, w, G);
    if r.err.Some? && stp.onCompensateError.Some? {
      var handling := Job(p, Handle(stp.onCompensateError.value, r.err.value));
      forall b | Made(handling, b) ensures G(b) { assert CompensateBundle(env, stp, msg, b); }
      InfraTrail(env, handling, r.w, G);
      TrailThen(w.db, r.w.db, InfraRun(env, handling, r.w).w.db, G);
    }
  }
}
