/** One lost commit acknowledgement: exactly when a committed step also publishes its failure event,
    and when a committed compensation is refused. */
module LostAck {
  import opened Message
  import opened Uuid
  import opened Errors
  import opened Journal
  import opened ExecutorSpec
  import opened ExecutorOutcome
  import opened Blame
  import opened StepTheorems
  import opened Budget
  import opened Schedule
  import opened Progress
  import opened Duplicates
  import opened Trace

  /** No fault of any kind after time t. */
  ghost predicate FairAfter(env: Env, t: nat) {
    forall u | u > t ::
      Free(env, u) && env.oracle.commit(u).Acknowledged? && forall j :: env.oracle.insert(u, j).None?
  }

  /** At time t the job commits on these tables, and is not told so. */
  predicate Unheard(env: Env, job: Job, db: Db, t: nat) {
    Prepare(env, job, t, db).Ready? && env.oracle.commit(t).AckLost?
  }

  /** Tries 0..k fail in the infrastructure, try k commits unheard, and nothing fails afterwards. */
  ghost predicate LosesAck(env: Env, job: Job, retry: Option<Retrier>, w: World, k: nat) {
    var t := TryAt(env, retry, w.clock, k);
    && k < AllTries(env, retry) && Quiet(env) && (forall u | w.clock <= u :: !env.oracle.done(u))
    && (forall i | 0 <= i < k :: Passing(env, job, w.db, TryAt(env, retry, w.clock, i)))
    && Unheard(env, job, w.db, t) && FairAfter(env, t)
  }

  /** Since v just b was committed and the run failed; with a claim, as a duplicate if there was a further try. */
  ghost predicate Heard(job: Job, own: seq<Bundle>, db: Db, b: Bundle, w: World, e: Option<Err>, further: bool) {
    && w.own == own + [b] && w.db == Apply(db, b) && e.Some?
    && Spent(job.plan, w.db) && (job.plan.claims ==> Blocked(job.plan, w.db))
    && (job.plan.claims ==> if further then e == Some(Duplicate) else Lost(e))
  }

  lemma UnheardAttempt(env: Env, job: Job, c: Cell)
    requires Quiet(env) && Unheard(env, job, c.w.db, c.w.clock)
    ensures var b := Prepare(env, job, c.w.clock, c.w.db).bundle;
            var (d, e) := Attempt(env, job, c);
            && Lost(e) && !Is(e.value, Duplicate) && d.w.own == c.w.own + [b] && d.w.db == Apply(c.w.db, b)
            && (Keyed(job.plan) ==> Spent(job.plan, d.w.db)) && (job.plan.claims ==> Blocked(job.plan, d.w.db))
  {
    assert Begun(env.oracle, c.w).db == c.w.db;
    ReadyIsMade(env, job, c.w.clock, c.w.db);
    InfraErrorIsClean(env.oracle.commit(c.w.clock).err);
  }

  ghost predicate QuietFrom(env: Env, clock: nat) {
    Quiet(env) && forall u | clock <= u :: !env.oracle.done(u) && Free(env, u)
  }

  /** What is left of a loop after the key is used up: an error and no commit; with a claim, the
      next try finds the duplicate. */
  lemma RestOfLoop(env: Env, r: Retrier, job: Job, c: Cell, n: nat, last: Option<Err>)
    requires QuietFrom(env, c.w.clock) && n <= r.maxRetries && Spent(job.plan, c.w.db)
    requires Lost(last) && !Is(last.value, Duplicate)
    ensures var (d, e) := RetryLoop(env, r, One(job), c, n, last);
            && d.w.own == c.w.own && d.w.db == c.w.db && e.Some?
            && (Blocked(job.plan, c.w.db) ==> if n < r.maxRetries then e == Some(Duplicate) else Lost(e))
  {
    LoopEffect(env, r, One(job), c, n, last);
    var c1 := c.(w := Tick(c.w));
    if n == r.maxRetries {
      ExhaustedKeepsLast(last.value);
    } else if Blocked(job.plan, c.w.db) {
      FreeAttempt(env, job, c1);
      assert Perform(env, One(job), c1) == Attempt(env, job, c1);
    }
  }

  /** Tries 0..k of an infrastructure run fail in the infrastructure, try k commits unheard. */
  ghost predicate InfraLosesAck(env: Env, job: Job, w: World, k: nat) {
    var t := InfraAt(env, w.clock, k);
    && Quiet(env) && (forall u | w.clock <= u :: !env.oracle.done(u))
    && (forall i | 0 <= i < k :: Passing(env, job, w.db, InfraAt(env, w.clock, i)))
    && Unheard(env, job, w.db, t) && FairAfter(env, t)
  }

  lemma LoopUnheardNow(env: Env, r: Retrier, job: Job, c: Cell, n: nat, last: Option<Err>)
    requires env.infra == Some(r) && n < r.maxRetries && Keyed(job.plan) && InfraLosesAck(env, job, c.w, 0)
    ensures var b := Prepare(env, job, InfraAt(env, c.w.clock, 0), c.w.db).bundle;
            var (d, e) := RetryLoop(env, r, One(job), c, n, last);
            Heard(job, c.w.own, c.w.db, b, d.w, e, n + 1 < r.maxRetries) && d.w.clock > InfraAt(env, c.w.clock, 0)
  {
    var c1 := c.(w := Tick(c.w));
    UnheardAttempt(env, job, c1);
    AttemptTicks(env, job, c1);
    assert Perform(env, One(job), c1) == Attempt(env, job, c1);
    var p := OnePass(env, r, One(job), c, n, last);
    assert p.Again?;
    RestOfLoop(env, r, job, p.c, n + 1, Some(p.last));
    LoopCost(env, r, One(job), p.c, n + 1, Some(p.last));
  }

  lemma {:induction false} LoopUnheard(env: Env, r: Retrier, job: Job, c: Cell, n: nat, last: Option<Err>, k: nat)
    requires env.infra == Some(r) && n + k < r.maxRetries && Keyed(job.plan) && InfraLosesAck(env, job, c.w, k)
    ensures var b := Prepare(env, job, InfraAt(env, c.w.clock, k), c.w.db).bundle;
            var (d, e) := RetryLoop(env, r, One(job), c, n, last);
            Heard(job, c.w.own, c.w.db, b, d.w, e, n + k + 1 < r.maxRetries) && d.w.clock > InfraAt(env, c.w.clock, k)
    decreases k
  {
    if k == 0 {
      LoopUnheardNow(env, r, job, c, n, last);
    } else {
      LoopUnheardLater(env, r, job, c, n, last, k);
      var p := OnePass(env, r, One(job), c, n, last);
      LoopUnheard(env, r, job, p.c, n + 1, Some(p.last), k - 1);
    }
  }

  lemma LoopUnheardLater(env: Env, r: Retrier, job: Job, c: Cell, n: nat, last: Option<Err>, k: nat)
    requires env.infra == Some(r) && n < r.maxRetries && k > 0 && InfraLosesAck(env, job, c.w, k)
    ensures var p := OnePass(env, r, One(job), c, n, last);
            && p.Again? && p.c.w.db == c.w.db && p.c.w.own == c.w.own
            && InfraLosesAck(env, job, p.c.w, k - 1)
            && InfraAt(env, p.c.w.clock, k - 1) == InfraAt(env, c.w.clock, k)
  {
    assert Passing(env, job, c.w.db, InfraAt(env, c.w.clock, 0));
    PassingMisses(env, job, c.w, InfraAt(env, c.w.clock, 0));
    PassMisses(env, r, job, Unchanged(c.w), c, n, last);
    var p := OnePass(env, r, One(job), c, n, last);
    assert forall i: nat :: InfraAt(env, p.c.w.clock, i) == InfraAt(env, c.w.clock, i + 1);
  }

  lemma InfraUnheard(env: Env, job: Job, w: World, k: nat)
    requires k < Tries(env.infra) && Keyed(job.plan) && InfraLosesAck(env, job, w, k)
    ensures var b := Prepare(env, job, InfraAt(env, w.clock, k), w.db).bundle;
            var r := InfraRun(env, job, w);
            && Heard(job, w.own, w.db, b, r.w, r.err, k + 1 < Tries(env.infra)) && r.w.clock > InfraAt(env, w.clock, k)
            && (job.plan.claims ==> r.left == EMPTY)
  {
    var c := Cell(w, EMPTY, EMPTY);
    assert FindAction(Duplicate) == None;
    if env.infra.None? {
      UnheardAttempt(env, job, c);
      AttemptTicks(env, job, c);
      assert Perform(env, One(job), c) == Attempt(env, job, c);
    } else {
      LoopUnheard(env, env.infra.value, job, c, 0, None, k);
    }
  }

  lemma BlockedNow(env: Env, job: Job, w: World)
    requires Blocked(job.plan, w.db) && QuietFrom(env, w.clock) && Tries(env.infra) > 0
    ensures InfraRun(env, job, w).err == Some(Duplicate)
  {
    assert TryAt(env, None, w.clock, 0) == InfraAt(env, w.clock, 0) && FirstFree(env, None, w.clock, 0);
    FindsDuplicate(env, job, None, w, 0);
  }

  lemma RestOfUserLoop(env: Env, r: Retrier, job: Job, c: Cell, n: nat, last: Option<Err>)
    requires QuietFrom(env, c.w.clock) && n <= r.maxRetries && Tries(env.infra) > 0 && Spent(job.plan, c.w.db)
    requires last.Some? && HasRetryable(last.value) && !Is(last.value, Duplicate)
    ensures var (d, e) := RetryLoop(env, r, Infra(job), c, n, last);
            && d.w.own == c.w.own && d.w.db == c.w.db && e.Some?
            && (Blocked(job.plan, c.w.db) && Lost(last) ==> if n < r.maxRetries then e == Some(Duplicate) else Lost(e))
  {
    LoopEffect(env, r, Infra(job), c, n, last);
    var c1 := c.(w := Tick(c.w));
    if n == r.maxRetries {
      ExhaustedKeepsLast(last.value);
    } else if Blocked(job.plan, c.w.db) {
      BlockedNow(env, job, c1.w);
      assert Perform(env, Infra(job), c1).1 == Some(Duplicate);
    }
  }

  /** Tries 0..k of the loop of the step's own policy, counted over both loops, fail in the
      infrastructure, try k commits unheard. */
  ghost predicate UserLosesAck(env: Env, r: Retrier, job: Job, w: World, k: nat) {
    var t := TryAt(env, Some(r), w.clock, k);
    && Quiet(env) && (forall u | w.clock <= u :: !env.oracle.done(u))
    && (forall i | 0 <= i < k :: Passing(env, job, w.db, TryAt(env, Some(r), w.clock, i)))
    && Unheard(env, job, w.db, t) && FairAfter(env, t)
  }

  lemma UserUnheardNow(env: Env, r: Retrier, job: Job, c: Cell, n: nat, last: Option<Err>, k: nat)
    requires n < r.maxRetries && k < Tries(env.infra) && Keyed(job.plan) && UserLosesAck(env, r, job, c.w, k)
    ensures var b := Prepare(env, job, TryAt(env, Some(r), c.w.clock, k), c.w.db).bundle;
            var (d, e) := RetryLoop(env, r, Infra(job), c, n, last);
            && Heard(job, c.w.own, c.w.db, b, d.w, e, k + 1 < Tries(env.infra) || n + 1 < r.maxRetries)
            && d.w.clock > TryAt(env, Some(r), c.w.clock, k)
  {
    var c1 := c.(w := Tick(c.w));
    forall i | 0 <= i < k ensures Passing(env, job, c1.w.db, InfraAt(env, c1.w.clock, i)) {
      assert TryAt(env, Some(r), c.w.clock, i) == InfraAt(env, c1.w.clock, i);
    }
    InfraUnheard(env, job, c1.w, k);
    var x := InfraRun(env, job, c1.w);
    assert Perform(env, Infra(job), c1) == (Cell(x.w, x.out, c.left), x.err);
    match OnePass(env, r, Infra(job), c, n, last)
    case Return(_, _) =>
    case Again(d, e) =>
      UserUnheardRest(env, r, job, c1.w, d, n, e, k);
      LoopCost(env, r, Infra(job), d, n + 1, Some(e));
  }

  lemma UserUnheardRest(env: Env, r: Retrier, job: Job, w: World, d: Cell, n: nat, e: Err, k: nat)
    requires n < r.maxRetries && k < Tries(env.infra) && Keyed(job.plan) && InfraLosesAck(env, job, w, k)
    requires var x := InfraRun(env, job, w);
             x.err == Some(e) && HasRetryable(e) && d.w.db == x.w.db && x.w.clock <= d.w.clock
    ensures var (y, f) := RetryLoop(env, r, Infra(job), d, n + 1, Some(e));
            && y.w.own == d.w.own && y.w.db == d.w.db && f.Some?
            && (job.plan.claims && Lost(Some(e)) ==> if n + 1 < r.maxRetries then f == Some(Duplicate) else Lost(f))
  {
    InfraUnheard(env, job, w, k);
    UserErrors(env, job, None, w);
    ForeignIsClean(e);
    RestOfUserLoop(env, r, job, d, n + 1, Some(e));
  }

  lemma {:induction false} UserLoopUnheard(env: Env, r: Retrier, job: Job, c: Cell, n: nat, last: Option<Err>,
                                           k: nat, count: int)
    requires n < r.maxRetries && k < count == (r.maxRetries - n) * Tries(env.infra)
    requires Keyed(job.plan) && UserLosesAck(env, r, job, c.w, k)
    ensures var b := Prepare(env, job, TryAt(env, Some(r), c.w.clock, k), c.w.db).bundle;
            var (d, e) := RetryLoop(env, r, Infra(job), c, n, last);
            Heard(job, c.w.own, c.w.db, b, d.w, e, k + 1 < count) && d.w.clock > TryAt(env, Some(r), c.w.clock, k)
    decreases k
  {
    if k < Tries(env.infra) {
      UserUnheardNow(env, r, job, c, n, last, k);
      FurtherTry(r.maxRetries - n, Tries(env.infra), k);
    } else {
      Peel(r.maxRetries - n, Tries(env.infra));
      UserUnheardLater(env, r, job, c, n, last, k);
      var p := OnePass(env, r, Infra(job), c, n, last);
      UserLoopUnheard(env, r, job, p.c, n + 1, Some(p.last), k - Tries(env.infra), count - Tries(env.infra));
    }
  }

  lemma FurtherTry(units: nat, tries: nat, k: nat)
    requires units > 0 && k < tries
    ensures k + 1 < units * tries <==> k + 1 < tries || units > 1
  {
    Peel(units, tries);
    if units > 1 { Peel(units - 1, tries); }
  }

  lemma UserUnheardLater(env: Env, r: Retrier, job: Job, c: Cell, n: nat, last: Option<Err>, k: nat)
    requires n < r.maxRetries && k >= Tries(env.infra) > 0 && UserLosesAck(env, r, job, c.w, k)
    ensures var p := OnePass(env, r, Infra(job), c, n, last);
            && p.Again? && p.c.w.db == c.w.db && p.c.w.own == c.w.own
            && UserLosesAck(env, r, job, p.c.w, k - Tries(env.infra))
            && TryAt(env, Some(r), p.c.w.clock, k - Tries(env.infra)) == TryAt(env, Some(r), c.w.clock, k)
  {
    forall i | 0 <= i < Tries(env.infra) ensures Misses(env, job, Unchanged(c.w), TryAt(env, Some(r), c.w.clock, i)) {
      PassingMisses(env, job, c.w, TryAt(env, Some(r), c.w.clock, i));
    }
    UserPassMisses(env, r, job, Unchanged(c.w), c, n, last);
    var later := c.w.clock + InfraSpan(env) + 2;
    Shift(env, r, c.w.clock, k - Tries(env.infra));
    forall i | 0 <= i < k - Tries(env.infra) ensures Passing(env, job, c.w.db, TryAt(env, Some(r), later, i)) {
      Shift(env, r, c.w.clock, i);
    }
  }

  /** A run that commits unheard fails; with a claim it reports a duplicate iff a further try was left. */
  lemma RunUnheard(env: Env, job: Job, retry: Option<Retrier>, w: World, k: nat)
    requires Keyed(job.plan) && LosesAck(env, job, retry, w, k)
    ensures var b := Prepare(env, job, TryAt(env, retry, w.clock, k), w.db).bundle;
            var r := UserRun(env, job, retry, w);
            && Heard(job, w.own, w.db, b, r.w, r.err, k + 1 < AllTries(env, retry))
            && r.w.clock > TryAt(env, retry, w.clock, k)
  {
    if retry.None? {
      forall i | 0 <= i < k ensures Passing(env, job, w.db, InfraAt(env, w.clock, i)) {
        assert TryAt(env, retry, w.clock, i) == InfraAt(env, w.clock, i);
      }
      InfraUnheard(env, job, w, k);
    } else {
      UserLoopUnheard(env, retry.value, job, Cell(w, EMPTY, EMPTY), 0, None, k, AllTries(env, retry));
    }
  }

  // ---- the execution around it ----

  /** The committed step goes on to its failure event: it has an error handler, no claim, or no try
      left to find its duplicate. */
  predicate GoesOn(env: Env, stp: Step, msg: Message, k: nat) {
    stp.onError.Some? || !ExecutePlan(env, stp, msg).claims || k + 1 == AllTries(env, stp.retry)
  }

  lemma FairIsCalm(env: Env, t: nat, clock: nat)
    requires FairAfter(env, t) && t < clock && Quiet(env) && Tries(env.infra) > 0
    requires forall u | clock <= u :: !env.oracle.done(u)
    ensures CalmAt(env, clock)
  {
    assert Free(env, InfraAt(env, clock, 0));
  }

  lemma EventStep(env: Env, stp: Step, msg: Message, left: Message, v: World)
    requires CalmAt(env, v.clock) && LeftBehind(stp, msg, left)
    ensures var m := EventMessage(msg, left);
            var r := PublishEvent(env, stp.route, m, v);
            && v.own <= r.w.own && r.out == EMPTY
            && (if EventFits(stp, m, v.db) then |News(v, r.w)| == 1 && FailureBundle(stp, msg, News(v, r.w)[0])
                else News(v, r.w) == [])
            && (r.err.Some? <==> stp.route.errors != [] && !EventFits(stp, m, v.db))
  {
    var m := EventMessage(msg, left);
    var r := PublishEvent(env, stp.route, m, v);
    PublishEffect(env, stp, msg, left, v);
    if EventFits(stp, m, v.db) {
      EventIfFits(env, stp, m, v);
      assert News(v, r.w)[0] in News(v, r.w);
    } else if News(v, r.w) != [] {
      EventOnlyIfFits(env, stp, m, v);
    }
  }

  /** What an execution commits whose try k commits unheard: its own bundle, and the failure event
      iff it goes on and that fits. */
  ghost predicate Split(env: Env, stp: Step, msg: Message, w: World, k: nat, b: Bundle) {
    var m := EventMessage(msg, HandlerLeft(env, stp, msg, w));
    var both := GoesOn(env, stp, msg, k) && EventFits(stp, m, Apply(w.db, b));
    var r := ExecuteStep(env, stp, msg, w);
    var news := News(w, r.w);
    && MainBundle(env, stp, msg, b) && news != [] && news[0] == b && r.out == EMPTY
    && (if both then |news| == 2 && FailureBundle(stp, msg, news[1]) else |news| == 1)
    && (r.err.Some? <==> GoesOn(env, stp, msg, k) && stp.route.errors != [] && !both)
    && (ExecutePlan(env, stp, msg).claims ==> m == msg)
  }

  lemma SplitAfter(env: Env, stp: Step, msg: Message, w: World, k: nat, b: Bundle, left: Message, v: World)
    requires v.own == w.own + [b] && v.db == Apply(w.db, b) && CalmAt(env, v.clock) && LeftBehind(stp, msg, left)
    requires MainBundle(env, stp, msg, b) && GoesOn(env, stp, msg, k) && left == HandlerLeft(env, stp, msg, w)
    requires ExecutePlan(env, stp, msg).claims ==> left == EMPTY
    requires ExecuteStep(env, stp, msg, w) == PublishEvent(env, stp.route, EventMessage(msg, left), v)
    ensures Split(env, stp, msg, w, k, b)
  {
    EventStep(env, stp, msg, left, v);
    var r := ExecuteStep(env, stp, msg, w);
    assert News(w, r.w) == [b] + News(v, r.w);
  }

  /** The action's phase of such an execution: b is committed and reported as an error that only a
      duplicate keeps silent. */
  ghost predicate Phase(env: Env, stp: Step, msg: Message, w: World, k: nat, b: Bundle) {
    var p := ExecutePlan(env, stp, msg);
    var r := UserRun(env, Job(p, Act(stp.execute)), stp.retry, w);
    && MainBundle(env, stp, msg, b) && r.w.own == w.own + [b] && r.w.db == Apply(w.db, b) && r.err.Some?
    && Spent(p, r.w.db) && (p.claims ==> Blocked(p, r.w.db))
    && (Is(r.err.value, Duplicate) <==> p.claims && k + 1 < AllTries(env, stp.retry))
    && CalmAfter(env, r.w.clock)
  }

  ghost predicate CalmAfter(env: Env, clock: nat) {
    forall c: nat | clock <= c :: CalmAt(env, c)
  }

  lemma ActionUnheard(env: Env, stp: Step, msg: Message, w: World, k: nat)
    requires Keyed(ExecutePlan(env, stp, msg))
    requires LosesAck(env, Job(ExecutePlan(env, stp, msg), Act(stp.execute)), stp.retry, w, k)
    ensures var job := Job(ExecutePlan(env, stp, msg), Act(stp.execute));
            Phase(env, stp, msg, w, k, Prepare(env, job, TryAt(env, stp.retry, w.clock, k), w.db).bundle)
  {
    var job := Job(ExecutePlan(env, stp, msg), Act(stp.execute));
    var t := TryAt(env, stp.retry, w.clock, k);
    var r := UserRun(env, job, stp.retry, w);
    RunUnheard(env, job, stp.retry, w, k);
    ReadyIsMade(env, job, t, w.db);
    TryLater(env, stp.retry, w.clock, k);
    UserErrors(env, job, stp.retry, w);
    UserEffect(env, job, stp.retry, w);
    if r.err != Some(Duplicate) { ForeignIsClean(r.err.value); }
    forall c: nat | r.w.clock <= c ensures CalmAt(env, c) { FairIsCalm(env, t, c); }
  }

  lemma HandlerUnheard(env: Env, stp: Step, msg: Message, w: World, k: nat, b: Bundle)
    requires Keyed(ExecutePlan(env, stp, msg)) && Phase(env, stp, msg, w, k, b) && stp.onError.Some?
    ensures Split(env, stp, msg, w, k, b)
  {
    var p := ExecutePlan(env, stp, msg);
    var r := UserRun(env, Job(p, Act(stp.execute)), stp.retry, w);
    var handling := Job(p, Handle(stp.onError.value, r.err.value));
    var h := InfraRun(env, handling, r.w);
    assert CalmAt(env, r.w.clock);
    InfraEffect(env, handling, r.w);
    InfraCost(env, handling, r.w);
    LeftByHandler(env, stp, msg, r.err.value, r.w);
    if p.claims { BarredInfra(env, handling, r.w); }
    SplitAfter(env, stp, msg, w, k, b, h.left, h.w);
  }

  /** After one lost acknowledgement a keyed step is both committed and compensated iff it goes on
      and its event fits. */
  lemma SplitIff(env: Env, stp: Step, msg: Message, w: World, k: nat)
    requires Keyed(ExecutePlan(env, stp, msg))
    requires LosesAck(env, Job(ExecutePlan(env, stp, msg), Act(stp.execute)), stp.retry, w, k)
    ensures var job := Job(ExecutePlan(env, stp, msg), Act(stp.execute));
            Split(env, stp, msg, w, k, Prepare(env, job, TryAt(env, stp.retry, w.clock, k), w.db).bundle)
  {
    var job := Job(ExecutePlan(env, stp, msg), Act(stp.execute));
    var b := Prepare(env, job, TryAt(env, stp.retry, w.clock, k), w.db).bundle;
    var r := UserRun(env, job, stp.retry, w);
    ActionUnheard(env, stp, msg, w, k);
    if stp.onError.Some? {
      HandlerUnheard(env, stp, msg, w, k, b);
    } else if Is(r.err.value, Duplicate) {
      assert News(w, r.w) == [b];
    } else {
      SplitAfter(env, stp, msg, w, k, b, EMPTY, r.w);
    }
  }

  /** The action's phase fails; of the error handler's tries 0..k fail in the infrastructure, and
      try k commits unheard. */
  ghost predicate HandlerLosesAck(env: Env, plan: Plan, r: Run, handler: HandlerFn, k: nat) {
    r.err.Some? && k < Tries(env.infra) && InfraLosesAck(env, Job(plan, Handle(handler, r.err.value)), r.w, k)
  }

  /** If it is the error handler's commit that goes unheard, the failure event joins it iff it fits:
      even its own duplicate counts as a failure of the handler. */
  lemma HandlerSplitIff(env: Env, stp: Step, msg: Message, w: World, k: nat)
    requires Keyed(ExecutePlan(env, stp, msg)) && stp.onError.Some?
    requires var p := ExecutePlan(env, stp, msg);
             HandlerLosesAck(env, p, UserRun(env, Job(p, Act(stp.execute)), stp.retry, w), stp.onError.value, k)
    ensures var p := ExecutePlan(env, stp, msg);
            var r := UserRun(env, Job(p, Act(stp.execute)), stp.retry, w);
            var handling := Job(p, Handle(stp.onError.value, r.err.value));
            var b := Prepare(env, handling, InfraAt(env, r.w.clock, k), r.w.db).bundle;
            Made(handling, b) && Split(env, stp, msg, w, k, b)
  {
    var p := ExecutePlan(env, stp, msg);
    var r := UserRun(env, Job(p, Act(stp.execute)), stp.retry, w);
    var handling := Job(p, Handle(stp.onError.value, r.err.value));
    var t := InfraAt(env, r.w.clock, k);
    var b := Prepare(env, handling, t, r.w.db).bundle;
    var h := InfraRun(env, handling, r.w);
    ActionPhase(env, stp, msg, w);
    HandlerPhase(env, stp, msg, w, r.w, r.out, r.err.value);
    InfraUnheard(env, handling, r.w, k);
    NothingBefore(w, r.w, h.w, b);
    ReadyIsMade(env, handling, t, r.w.db);
    FairIsCalm(env, t, h.w.clock);
    LeftByHandler(env, stp, msg, r.err.value, r.w);
    SplitAfter(env, stp, msg, w, k, b, h.left, h.w);
  }

  /** If b is the only bundle since v, then nothing was committed before it. */
  lemma NothingBefore(v: World, w: World, x: World, b: Bundle)
    requires Grows(v, w) && Accounts(v.db, News(v, w), w.db)
    requires x.own == w.own + [b] && |News(v, x)| <= 1
    ensures w.own == v.own && w.db == v.db
  {
    assert |w.own| == |v.own|;
  }

  // ---- compensations ----

  /** The error and the world of a compensation whose action failed: those of its error handler, if it has one. */
  function LastPhase(env: Env, stp: Step, p: Plan, r: Run): Run
    requires r.err.Some?
  {
    if stp.onCompensateError.None? then r
    else InfraRun(env, Job(p, Handle(stp.onCompensateError.value, r.err.value)), r.w)
  }

  lemma CleanOrDuplicate(env: Env, job: Job, retry: Option<Retrier>, w: World)
    ensures var e := UserRun(env, job, retry, w).err; e.Some? ==> (Is(e.value, Duplicate) <==> e.value == Duplicate)
  {
    UserErrors(env, job, retry, w);
    var e := UserRun(env, job, retry, w).err;
    if e.Some? && e.value != Duplicate { ForeignIsClean(e.value); }
  }

  lemma CompensationEnds(env: Env, stp: Step, msg: Message, w: World)
    requires msg.kind == FAILED
    requires UserRun(env, Job(CompensatePlan(env, stp, msg), Act(stp.compensate)), stp.retry, w).err.Some?
    ensures var p := CompensatePlan(env, stp, msg);
            var x := LastPhase(env, stp, p, UserRun(env, Job(p, Act(stp.compensate)), stp.retry, w));
            && Deliver(env, stp, msg, w).w == x.w
            && (Deliver(env, stp, msg, w).err.None? <==> x.err.None? || x.err == Some(Duplicate))
  {
    var p := CompensatePlan(env, stp, msg);
    var job := Job(p, Act(stp.compensate));
    var r := UserRun(env, job, stp.retry, w);
    CleanOrDuplicate(env, job, stp.retry, w);
    assert forall e: Err :: Is(Wrap(e), Duplicate) <==> Is(e, Duplicate);
    if stp.onCompensateError.Some? {
      var handling := Job(p, Handle(stp.onCompensateError.value, r.err.value));
      assert UserRun(env, handling, None, r.w) == InfraRun(env, handling, r.w);
      CleanOrDuplicate(env, handling, None, r.w);
    }
  }

  /** The error handler of a compensation that is committed already: nothing more is committed, and
      with a claim it finds the duplicate. */
  lemma HandlerAfterCommit(env: Env, p: Plan, handler: HandlerFn, cause: Err, w: World)
    requires QuietFrom(env, w.clock) && Tries(env.infra) > 0 && Spent(p, w.db) && (p.claims ==> Blocked(p, w.db))
    ensures var h := InfraRun(env, Job(p, Handle(handler, cause)), w);
            h.w.own == w.own && h.err.Some? && (h.err == Some(Duplicate) <==> p.claims)
  {
    var job := Job(p, Handle(handler, cause));
    InfraEffect(env, job, w);
    if p.claims { BlockedNow(env, job, w); }
  }

  /** A delivered compensation commits just b; it is acknowledged iff `found`. */
  ghost predicate CompensatedOnce(env: Env, stp: Step, msg: Message, w: World, b: Bundle, found: bool) {
    var r := Deliver(env, stp, msg, w);
    CompensateBundle(env, stp, msg, b) && News(w, r.w) == [b] && (r.err.None? <==> found)
  }

  lemma CompensationRan(env: Env, stp: Step, msg: Message, w: World, k: nat)
    requires Keyed(CompensatePlan(env, stp, msg))
    requires LosesAck(env, Job(CompensatePlan(env, stp, msg), Act(stp.compensate)), stp.retry, w, k)
    ensures var p := CompensatePlan(env, stp, msg);
            var job := Job(p, Act(stp.compensate));
            var b := Prepare(env, job, TryAt(env, stp.retry, w.clock, k), w.db).bundle;
            var r := UserRun(env, job, stp.retry, w);
            && Made(job, b) && r.w.own == w.own + [b] && r.err.Some?
            && (r.err == Some(Duplicate) <==> p.claims && k + 1 < AllTries(env, stp.retry))
            && Spent(p, r.w.db) && (p.claims ==> Blocked(p, r.w.db)) && QuietFrom(env, r.w.clock)
  {
    var job := Job(CompensatePlan(env, stp, msg), Act(stp.compensate));
    RunUnheard(env, job, stp.retry, w, k);
    ReadyIsMade(env, job, TryAt(env, stp.retry, w.clock, k), w.db);
    UserEffect(env, job, stp.retry, w);
    TryLater(env, stp.retry, w.clock, k);
  }

  /** A compensation whose commit goes unheard is acknowledged iff it has a claim, and an error
      handler or another try to find its own duplicate; otherwise it is refused although it is committed. */
  lemma CompensationUnheardIff(env: Env, stp: Step, msg: Message, w: World, k: nat)
    requires msg.kind == FAILED && Keyed(CompensatePlan(env, stp, msg))
    requires LosesAck(env, Job(CompensatePlan(env, stp, msg), Act(stp.compensate)), stp.retry, w, k)
    ensures var p := CompensatePlan(env, stp, msg);
            var b := Prepare(env, Job(p, Act(stp.compensate)), TryAt(env, stp.retry, w.clock, k), w.db).bundle;
            CompensatedOnce(env, stp, msg, w, b,
                            p.claims && (stp.onCompensateError.Some? || k + 1 < AllTries(env, stp.retry)))
  {
    var p := CompensatePlan(env, stp, msg);
    var r := UserRun(env, Job(p, Act(stp.compensate)), stp.retry, w);
    CompensationRan(env, stp, msg, w, k);
    CompensationEnds(env, stp, msg, w);
    if stp.onCompensateError.Some? {
      HandlerAfterCommit(env, p, stp.onCompensateError.value, r.err.value, r.w);
    }
  }

  /** If it is the error handler's commit, there must be a claim and another try of the handler. */
  lemma CompensationHandlerUnheardIff(env: Env, stp: Step, msg: Message, w: World, k: nat)
    requires msg.kind == FAILED && Keyed(CompensatePlan(env, stp, msg)) && stp.onCompensateError.Some?
    requires var p := CompensatePlan(env, stp, msg);
             var r := UserRun(env, Job(p, Act(stp.compensate)), stp.retry, w);
             HandlerLosesAck(env, p, r, stp.onCompensateError.value, k)
    ensures var p := CompensatePlan(env, stp, msg);
            var r := UserRun(env, Job(p, Act(stp.compensate)), stp.retry, w);
            var handling := Job(p, Handle(stp.onCompensateError.value, r.err.value));
            var b := Prepare(env, handling, InfraAt(env, r.w.clock, k), r.w.db).bundle;
            CompensatedOnce(env, stp, msg, w, b, p.claims && k + 1 < Tries(env.infra))
  {
    var p := CompensatePlan(env, stp, msg);
    var job := Job(p, Act(stp.compensate));
    var r := UserRun(env, job, stp.retry, w);
    var handling := Job(p, Handle(stp.onCompensateError.value, r.err.value));
    var b := Prepare(env, handling, InfraAt(env, r.w.clock, k), r.w.db).bundle;
    CompensationHandlerRan(env, stp, msg, w, r, k);
    ReadyIsMade(env, handling, InfraAt(env, r.w.clock, k), r.w.db);
    CompensationEnds(env, stp, msg, w);
  }

  lemma CompensationHandlerRan(env: Env, stp: Step, msg: Message, w: World, r: Run, k: nat)
    requires Keyed(CompensatePlan(env, stp, msg)) && stp.onCompensateError.Some?
    requires r == UserRun(env, Job(CompensatePlan(env, stp, msg), Act(stp.compensate)), stp.retry, w)
    requires HandlerLosesAck(env, CompensatePlan(env, stp, msg), r, stp.onCompensateError.value, k)
    ensures var p := CompensatePlan(env, stp, msg);
            var handling := Job(p, Handle(stp.onCompensateError.value, r.err.value));
            var b := Prepare(env, handling, InfraAt(env, r.w.clock, k), r.w.db).bundle;
            var h := InfraRun(env, handling, r.w);
            && h.w.own == w.own + [b] && h.err.Some?
            && (h.err == Some(Duplicate) <==> p.claims && k + 1 < Tries(env.infra))
  {
    var p := CompensatePlan(env, stp, msg);
    var job := Job(p, Act(stp.compensate));
    var handling := Job(p, Handle(stp.onCompensateError.value, r.err.value));
    var b := Prepare(env, handling, InfraAt(env, r.w.clock, k), r.w.db).bundle;
    UserEffect(env, job, stp.retry, w);
    CompensateHandlerPhase(env, stp, msg, w, r.w, r.err.value);
    InfraUnheard(env, handling, r.w, k);
    NothingBefore(w, r.w, InfraRun(env, handling, r.w).w, b);
  }

  // ---- concrete inputs ----

  /** Its action succeeds; it sends to "paid", or to "undo" after a failure. */
  const CHARGING: Step :=
    Step(Route("pay", ["paid"], ["undo"]), (_, b, m) => Done(m, b), (_, b, m) => Done(m, b), None, None, None)

  /** The acknowledgement of the first commit is lost, and nothing else fails. */
  const UNHEARD: Env := Env(CALM.(commit := t => if t == 0 then AckLost(Plain(0)) else Acknowledged), None, true)

  /** The order is charged and its compensation requested, and the message is acknowledged. */
  lemma ChargedAndUndone(id: Uuid)
    ensures var w := World(Db({}, map[], map[], []), [], 0, 0, 0, 0, None);
            var r := Deliver(UNHEARD, CHARGING, Order(COMPLETE, id), w);
            && r.err.None? && |News(w, r.w)| == 2
            && MainBundle(UNHEARD, CHARGING, Order(COMPLETE, id), News(w, r.w)[0])
            && FailureBundle(CHARGING, Order(COMPLETE, id), News(w, r.w)[1])
  {
    PrintParse(id);
    var w, msg := World(Db({}, map[], map[], []), [], 0, 0, 0, 0, None), Order(COMPLETE, id);
    var job := Job(ExecutePlan(UNHEARD, CHARGING, msg), Act(CHARGING.execute));
    ReadyIff(UNHEARD, job, 0, w.db);
    assert TryAt(UNHEARD, None, 0, 0) == 0 && LosesAck(UNHEARD, job, None, w, 0);
    SplitIff(UNHEARD, CHARGING, msg, w, 0);
    var b := Prepare(UNHEARD, job, 0, w.db).bundle;
    ReadyIsMade(UNHEARD, job, 0, w.db);
    assert EventFits(CHARGING, msg, Apply(w.db, b));
  }

  /** The order is compensated, and its message refused. */
  lemma UndoneAndRefused(id: Uuid)
    ensures var w := World(Db({}, map[], map[], []), [], 0, 0, 0, 0, None);
            var r := Deliver(UNHEARD, CHARGING, Order(FAILED, id), w);
            && r.err.Some? && |News(w, r.w)| == 1
            && CompensateBundle(UNHEARD, CHARGING, Order(FAILED, id), News(w, r.w)[0])
  {
    PrintParse(id);
    var w, msg := World(Db({}, map[], map[], []), [], 0, 0, 0, 0, None), Order(FAILED, id);
    var job := Job(CompensatePlan(UNHEARD, CHARGING, msg), Act(CHARGING.compensate));
    ReadyIff(UNHEARD, job, 0, w.db);
    assert TryAt(UNHEARD, None, 0, 0) == 0 && LosesAck(UNHEARD, job, None, w, 0);
    CompensationUnheardIff(UNHEARD, CHARGING, msg, w, 0);
  }
}
