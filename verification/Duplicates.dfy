/** Redelivery of a message whose key is already in the inbox: what it changes, and exactly when it is acknowledged. */
module Duplicates {
  import opened Message
  import opened Uuid
  import opened Errors
  import opened Journal
  import opened ExecutorSpec
  import opened ExecutorOutcome
  import opened Blame
  import opened StepTheorems
  import opened Budget
  import opened Schedule
  import opened Progress

  /** No commit, no user code called, tables only grown by others. */
  ghost predicate Inert(v: World, w: World) {
    DbGrows(v.db, w.db) && w.own == v.own && w.calls == v.calls && w.seen == v.seen
  }

  ghost predicate Blocked(p: Plan, db: Db) {
    p.claims && Claimed(p, db)
  }

  /** The claim cannot succeed: the key is taken, or the saga has no identifier. */
  ghost predicate Barred(p: Plan, db: Db) {
    p.claims && (KeyFor(p).None? || KeyFor(p).value in db.inbox)
  }

  lemma BarredAttempt(env: Env, job: Job, c: Cell)
    requires Barred(job.plan, c.w.db)
    ensures var (d, e) := Attempt(env, job, c); Inert(c.w, d.w) && d.left == c.left && e.Some?
  {
    AbsorbGrows(c.w.db, env.oracle.others(c.w.clock));
  }

  lemma {:induction false} BarredPass(env: Env, r: Retrier, work: Work, c: Cell, n: nat, last: Option<Err>)
    requires Barred(work.job.plan, c.w.db)
    ensures var d := OnePass(env, r, work, c, n, last).c; Inert(c.w, d.w) && d.left == c.left
    decreases Rank(work), 1, 0
  {
    BarredPerform(env, work, c.(w := Tick(c.w)));
  }

  lemma {:induction false} BarredLoop(env: Env, r: Retrier, work: Work, c: Cell, n: nat, last: Option<Err>)
    requires Barred(work.job.plan, c.w.db)
    ensures var d := RetryLoop(env, r, work, c, n, last).0; Inert(c.w, d.w) && d.left == c.left
    decreases Rank(work), 2, r.maxRetries - n
  {
    BarredPass(env, r, work, c, n, last);
    match OnePass(env, r, work, c, n, last)
    case Return(_, _) =>
    case Again(d, e) => BarredLoop(env, r, work, d, n + 1, Some(e));
  }

  lemma {:induction false} BarredPerform(env: Env, work: Work, c: Cell)
    requires Barred(work.job.plan, c.w.db)
    ensures var d := Perform(env, work, c).0; Inert(c.w, d.w) && d.left == c.left
    decreases Rank(work), 0, 0
  {
    match work
    case One(job) => BarredAttempt(env, job, c);
    case Infra(job) => BarredInfra(env, job, c.w);
  }

  lemma {:induction false} BarredInfra(env: Env, job: Job, w: World)
    requires Barred(job.plan, w.db)
    ensures Inert(w, InfraRun(env, job, w).w) && InfraRun(env, job, w).left == EMPTY
    decreases 0, 3, 0
  {
    var c := Cell(w, EMPTY, EMPTY);
    if env.infra.None? {
      BarredPerform(env, One(job), c);
    } else {
      BarredLoop(env, env.infra.value, One(job), c, 0, None);
    }
  }

  /** Under any faults a barred run calls no user code, commits nothing, and fails. */
  lemma BarredUser(env: Env, job: Job, retry: Option<Retrier>, w: World)
    requires Barred(job.plan, w.db)
    ensures var r := UserRun(env, job, retry, w); Inert(w, r.w) && r.err.Some? && (Quiet(env) ==> r.w.db == w.db)
  {
    UserEffect(env, job, retry, w);
    if retry.None? {
      BarredInfra(env, job, w);
    } else {
      BarredLoop(env, retry.value, Infra(job), Cell(w, EMPTY, EMPTY), 0, None);
    }
  }

  // ---- when the duplicate is found ----

  /** A try at time t gets past begin and claim. */
  predicate Free(env: Env, t: nat) {
    env.oracle.begin(t).None? && env.oracle.claim(t).None?
  }

  /** A context that is done stays done. */
  ghost predicate Lasting(env: Env) {
    forall t, u | 0 <= t <= u :: env.oracle.done(t) ==> env.oracle.done(u)
  }

  /** Counted from `clock`, try k is within the budget and the first that reaches its claim, and
      the context lives until then. */
  ghost predicate FirstFree(env: Env, retry: Option<Retrier>, clock: nat, k: nat) {
    && k < AllTries(env, retry)
    && (forall i | 0 <= i < k :: !Free(env, TryAt(env, retry, clock, i)))
    && Free(env, TryAt(env, retry, clock, k)) && Alive(env, clock, TryAt(env, retry, clock, k))
  }

  ghost predicate Finds(env: Env, retry: Option<Retrier>, clock: nat) {
    exists k: nat :: FirstFree(env, retry, clock, k)
  }

  ghost function InertSince(p: Plan, w: World): Memo -> bool {
    (m: Memo) => Blocked(p, m.db) && DbGrows(w.db, m.db) && m.own == w.own && m.calls == w.calls && m.seen == w.seen
  }

  lemma FreeAttempt(env: Env, job: Job, c: Cell)
    requires Blocked(job.plan, c.w.db)
    ensures var (d, e) := Attempt(env, job, c);
            && DbGrows(c.w.db, d.w.db) && Blocked(job.plan, d.w.db)
            && d == Cell(d.w, c.out, c.left) && MemoOf(d.w) == MemoOf(c.w).(db := d.w.db, begins := c.w.begins + 1)
            && (Free(env, c.w.clock) ==> e == Some(Duplicate))
            && (!Free(env, c.w.clock) ==> Lost(e))
  {
    var t := c.w.clock;
    AbsorbGrows(c.w.db, env.oracle.others(t));
    if env.oracle.begin(t).Some? {
      InfraErrorIsClean(env.oracle.begin(t).value);
    } else if env.oracle.claim(t).Some? {
      InfraErrorIsClean(env.oracle.claim(t).value);
    }
  }

  lemma DbGrowsThen(a: Db, b: Db, c: Db)
    requires DbGrows(a, b) && DbGrows(b, c)
    ensures DbGrows(a, c)
  {
  }

  lemma NotFreeMisses(env: Env, job: Job, w: World, t: nat)
    requires !Free(env, t)
    ensures Misses(env, job, InertSince(job.plan, w), t)
  {
    var P := InertSince(job.plan, w);
    forall c: Cell | c.w.clock == t && P(MemoOf(c.w))
      ensures Missed(P, c, Attempt(env, job, c).0, Attempt(env, job, c).1)
    {
      FreeAttempt(env, job, c);
      DbGrowsThen(w.db, c.w.db, Attempt(env, job, c).0.w.db);
    }
  }

  lemma FindsDuplicate(env: Env, job: Job, retry: Option<Retrier>, w: World, k: nat)
    requires Blocked(job.plan, w.db) && FirstFree(env, retry, w.clock, k)
    ensures var r := UserRun(env, job, retry, w);
            r.err == Some(Duplicate) && r.w.clock == TryAt(env, retry, w.clock, k) + 1
  {
    var P := InertSince(job.plan, w);
    forall i | 0 <= i < k ensures Misses(env, job, P, TryAt(env, retry, w.clock, i)) {
      NotFreeMisses(env, job, w, TryAt(env, retry, w.clock, i));
    }
    forall c: Cell | c.w.clock == TryAt(env, retry, w.clock, k) && P(MemoOf(c.w))
      ensures Attempt(env, job, c).1 == Some(Duplicate)
    {
      FreeAttempt(env, job, c);
    }
    var v := UserStops(env, job, P, retry, w, k);
    AttemptTicks(env, job, Cell(v, EMPTY, EMPTY));
    assert FindAction(Duplicate) == None;
  }

  /** Tries 0..k of an infrastructure run do not reach the claim. */
  ghost predicate NoneFree(env: Env, clock: nat, k: nat) {
    forall i | 0 <= i < k :: !Free(env, InfraAt(env, clock, i))
  }

  lemma {:induction false} LoopTrace(env: Env, r: Retrier, job: Job, c: Cell, n: nat, last: Option<Err>)
    returns (k: nat)
    requires env.infra == Some(r) && n <= r.maxRetries && Blocked(job.plan, c.w.db) && Lasting(env)
    ensures var (d, e) := RetryLoop(env, r, One(job), c, n, last);
            && (e == Some(Duplicate) ==>
                  && k < r.maxRetries - n && NoneFree(env, c.w.clock, k) && Free(env, InfraAt(env, c.w.clock, k))
                  && Alive(env, c.w.clock, InfraAt(env, c.w.clock, k)))
            && (e.Some? && HasRetryable(e.value) ==>
                  NoneFree(env, c.w.clock, r.maxRetries - n) && d.w.clock == InfraAt(env, c.w.clock, r.maxRetries - n))
    decreases r.maxRetries - n
  {
    var c1 := c.(w := Tick(c.w));
    FreeAttempt(env, job, c1);
    AttemptTicks(env, job, c1);
    assert Perform(env, One(job), c1) == Attempt(env, job, c1);
    k := 0;
    match OnePass(env, r, One(job), c, n, last)
    case Return(_, _) =>
    case Again(d, e) =>
      assert d.w.clock == c.w.clock + 3 && !env.oracle.done(c.w.clock + 2) && !Free(env, InfraAt(env, c.w.clock, 0));
      var j := LoopTrace(env, r, job, d, n + 1, Some(e));
      forall i: nat ensures InfraAt(env, d.w.clock, i) == InfraAt(env, c.w.clock, i + 1) {}
      ShiftNoneFree(env, c.w.clock, j);
      ShiftNoneFree(env, c.w.clock, r.maxRetries - n - 1);
      k := j + 1;
  }

  lemma ShiftNoneFree(env: Env, clock: nat, k: nat)
    requires env.infra.Some? && !Free(env, InfraAt(env, clock, 0))
    ensures NoneFree(env, clock + 3, k) ==> NoneFree(env, clock, k + 1)
  {
    if NoneFree(env, clock + 3, k) {
      forall i | 0 <= i < k + 1 ensures !Free(env, InfraAt(env, clock, i)) {
        if i > 0 { assert InfraAt(env, clock + 3, i - 1) == InfraAt(env, clock, i); }
      }
    }
  }

  lemma InfraTrace(env: Env, job: Job, w: World) returns (k: nat)
    requires Blocked(job.plan, w.db) && Lasting(env)
    ensures var r := InfraRun(env, job, w);
            && (r.err == Some(Duplicate) ==>
                  && k < Tries(env.infra) && NoneFree(env, w.clock, k) && Free(env, InfraAt(env, w.clock, k))
                  && Alive(env, w.clock, InfraAt(env, w.clock, k)))
            && (r.err.Some? && HasRetryable(r.err.value) ==>
                  NoneFree(env, w.clock, Tries(env.infra)) && r.w.clock == w.clock + InfraSpan(env))
  {
    var c := Cell(w, EMPTY, EMPTY);
    var e: Option<Err>;
    if env.infra.None? {
      FreeAttempt(env, job, c);
      AttemptTicks(env, job, c);
      assert Perform(env, One(job), c) == Attempt(env, job, c);
      e := Attempt(env, job, c).1;
      k := 0;
    } else {
      k := LoopTrace(env, env.infra.value, job, c, 0, None);
      e := RetryLoop(env, env.infra.value, One(job), c, 0, None).1;
    }
    NoActionWhenBlocked(env, job, w);
  }

  /** The chain of a blocked run holds no user error. */
  lemma NoActionWhenBlocked(env: Env, job: Job, w: World)
    requires Blocked(job.plan, w.db)
    ensures var c := Cell(w, EMPTY, EMPTY);
            var e := if env.infra.None? then Perform(env, One(job), c).1
                     else RetryLoop(env, env.infra.value, One(job), c, 0, None).1;
            e.Some? ==> FindAction(e.value) == None
  {
    var c := Cell(w, EMPTY, EMPTY);
    if env.infra.None? {
      FreeAttempt(env, job, c);
      assert Perform(env, One(job), c) == Attempt(env, job, c);
      assert FindAction(Duplicate) == None;
    } else {
      BlockedLoopErrors(env, env.infra.value, job, c, 0, None);
    }
  }

  lemma {:induction false} BlockedLoopErrors(env: Env, r: Retrier, job: Job, c: Cell, n: nat, last: Option<Err>)
    requires Blocked(job.plan, c.w.db) && (last.Some? ==> FindAction(last.value) == None)
    ensures var e := RetryLoop(env, r, One(job), c, n, last).1; e.Some? ==> FindAction(e.value) == None
    decreases r.maxRetries - n
  {
    var c1 := c.(w := Tick(c.w));
    FreeAttempt(env, job, c1);
    assert Perform(env, One(job), c1) == Attempt(env, job, c1);
    assert FindAction(Duplicate) == None && FindAction(Cancelled) == None && FindAction(MaxRetriesExceeded) == None;
    if last.Some? { ExhaustedKeepsLast(last.value); }
    match OnePass(env, r, One(job), c, n, last)
    case Return(_, _) =>
    case Again(d, e) => BlockedLoopErrors(env, r, job, d, n + 1, Some(e));
  }

  lemma FirstFreeNow(env: Env, r: Retrier, clock: nat, k: nat)
    requires k < Tries(env.infra) && !env.oracle.done(clock)
    requires NoneFree(env, clock + 1, k) && Free(env, InfraAt(env, clock + 1, k))
    requires Alive(env, clock + 1, InfraAt(env, clock + 1, k))
    ensures forall i | 0 <= i < k :: !Free(env, TryAt(env, Some(r), clock, i))
    ensures Free(env, TryAt(env, Some(r), clock, k)) && Alive(env, clock, TryAt(env, Some(r), clock, k))
  {
    forall i | 0 <= i < k ensures !Free(env, TryAt(env, Some(r), clock, i)) {
      assert TryAt(env, Some(r), clock, i) == InfraAt(env, clock + 1, i);
    }
  }

  lemma FirstFreeLater(env: Env, r: Retrier, clock: nat, later: nat, k: nat)
    requires Tries(env.infra) > 0 && NoneFree(env, clock + 1, Tries(env.infra)) && Lasting(env)
    requires later == clock + InfraSpan(env) + 2 && !env.oracle.done(later - 1)
    requires forall i | 0 <= i < k :: !Free(env, TryAt(env, Some(r), later, i))
    requires Free(env, TryAt(env, Some(r), later, k)) && Alive(env, later, TryAt(env, Some(r), later, k))
    ensures var n := k + Tries(env.infra);
            && (forall i | 0 <= i < n :: !Free(env, TryAt(env, Some(r), clock, i)))
            && Free(env, TryAt(env, Some(r), clock, n)) && Alive(env, clock, TryAt(env, Some(r), clock, n))
  {
    var n := k + Tries(env.infra);
    Shift(env, r, clock, k);
    forall i | 0 <= i < n ensures !Free(env, TryAt(env, Some(r), clock, i)) {
      if i < Tries(env.infra) {
        assert TryAt(env, Some(r), clock, i) == InfraAt(env, clock + 1, i);
      } else {
        Shift(env, r, clock, i - Tries(env.infra));
      }
    }
  }

  lemma {:induction false} UserLoopTrace(env: Env, r: Retrier, job: Job, c: Cell, n: nat, last: Option<Err>)
    returns (k: nat)
    requires n <= r.maxRetries && Blocked(job.plan, c.w.db) && Lasting(env)
    requires RetryLoop(env, r, Infra(job), c, n, last).1 == Some(Duplicate)
    ensures n < r.maxRetries && k < (r.maxRetries - n) * Tries(env.infra)
    ensures forall i | 0 <= i < k :: !Free(env, TryAt(env, Some(r), c.w.clock, i))
    ensures Free(env, TryAt(env, Some(r), c.w.clock, k)) && Alive(env, c.w.clock, TryAt(env, Some(r), c.w.clock, k))
    decreases r.maxRetries - n
  {
    var c1 := c.(w := Tick(c.w));
    var x := InfraRun(env, job, c1.w);
    assert Perform(env, Infra(job), c1) == (Cell(x.w, x.out, c.left), x.err);
    k := InfraTrace(env, job, c1.w);
    Peel(r.maxRetries - n, Tries(env.infra));
    match OnePass(env, r, Infra(job), c, n, last)
    case Return(_, _) =>
      FirstFreeNow(env, r, c.w.clock, k);
    case Again(d, e) =>
      BarredInfra(env, job, c1.w);
      if Tries(env.infra) == 0 { NoTries(env, job, None, c1.w); }
      k := UserLoopTrace(env, r, job, d, n + 1, Some(e));
      FirstFreeLater(env, r, c.w.clock, d.w.clock, k);
      k := k + Tries(env.infra);
  }

  /** A blocked run reports the duplicate iff one of its tries reaches the claim in time; its error
      is foreign otherwise. */
  lemma DuplicateIff(env: Env, job: Job, retry: Option<Retrier>, w: World)
    requires Blocked(job.plan, w.db) && Lasting(env)
    ensures var r := UserRun(env, job, retry, w);
            && r.err.Some? && (r.err == Some(Duplicate) || !Is(r.err.value, Duplicate))
            && (r.err == Some(Duplicate) <==> Finds(env, retry, w.clock))
  {
    var r := UserRun(env, job, retry, w);
    BarredUser(env, job, retry, w);
    UserErrors(env, job, retry, w);
    if r.err != Some(Duplicate) { ForeignIsClean(r.err.value); }
    if k: nat :| FirstFree(env, retry, w.clock, k) { FindsDuplicate(env, job, retry, w, k); }
    if r.err == Some(Duplicate) {
      var k: nat;
      if retry.None? {
        k := InfraTrace(env, job, w);
        forall i | 0 <= i < k ensures !Free(env, TryAt(env, retry, w.clock, i)) {
          assert TryAt(env, retry, w.clock, i) == InfraAt(env, w.clock, i);
        }
      } else {
        k := UserLoopTrace(env, retry.value, job, Cell(w, EMPTY, EMPTY), 0, None);
      }
      assert FirstFree(env, retry, w.clock, k);
    }
  }

  // ---- executions ----

  /** A blocked execution, under any faults: without OnError it ends once the duplicate is found;
      else it is a failure event. */
  lemma BlockedExecution(env: Env, stp: Step, msg: Message, w: World) returns (v: World)
    requires msg.kind == COMPLETE && Blocked(ExecutePlan(env, stp, msg), w.db) && Lasting(env)
    ensures Inert(w, v) && (Quiet(env) ==> v.db == w.db)
    ensures Deliver(env, stp, msg, w) ==
            if stp.onError.None? && Finds(env, stp.retry, w.clock) then Result(v, EMPTY, None)
            else PublishEvent(env, stp.route, msg, v)
  {
    var p := ExecutePlan(env, stp, msg);
    var job := Job(p, Act(stp.execute));
    var r := UserRun(env, job, stp.retry, w);
    DuplicateIff(env, job, stp.retry, w);
    BarredUser(env, job, stp.retry, w);
    v := r.w;
    if stp.onError.Some? {
      var handling := Job(p, Handle(stp.onError.value, r.err.value));
      var h := InfraRun(env, handling, r.w);
      BarredInfra(env, handling, r.w);
      BarredUser(env, handling, None, r.w);
      DbGrowsThen(w.db, r.w.db, h.w.db);
      v := h.w;
    }
    assert EventMessage(msg, EMPTY) == msg;
    PublishEffect(env, stp, msg, EMPTY, v);
  }

  ghost predicate Silent(env: Env, stp: Step, msg: Message, w: World) {
    News(w, Deliver(env, stp, msg, w).w) == [] && Deliver(env, stp, msg, w).err.None?
  }

  /** A repeated execution is acknowledged without repeating work iff it has no error topics, or no
      OnError and finds its duplicate. */
  lemma DuplicateSilentIff(env: Env, stp: Step, msg: Message, w: World)
    requires msg.kind == COMPLETE && Blocked(ExecutePlan(env, stp, msg), w.db) && Lasting(env)
    ensures Silent(env, stp, msg, w) <==>
            stp.route.errors == [] || (stp.onError.None? && Finds(env, stp.retry, w.clock))
    ensures Silent(env, stp, msg, w) ==> Inert(w, Deliver(env, stp, msg, w).w)
  {
    var v := BlockedExecution(env, stp, msg, w);
    PublishEffect(env, stp, msg, EMPTY, v);
    assert EventMessage(msg, EMPTY) == msg;
    assert News(w, Deliver(env, stp, msg, w).w) == News(v, Deliver(env, stp, msg, w).w);
  }

  ghost predicate FaultFree(env: Env) {
    forall t :: !env.oracle.done(t) && Free(env, t)
  }

  /** If neither context, begin nor claim ever fails, the route and the handler alone decide. */
  lemma DuplicateSilentByStep(env: Env, stp: Step, msg: Message, w: World)
    requires msg.kind == COMPLETE && Blocked(ExecutePlan(env, stp, msg), w.db)
    requires FaultFree(env) && AllTries(env, stp.retry) > 0
    ensures Silent(env, stp, msg, w) <==> stp.onError.None? || stp.route.errors == []
  {
    assert FirstFree(env, stp.retry, w.clock, 0);
    DuplicateSilentIff(env, stp, msg, w);
  }

  // ---- the failure event of a duplicate: committed once, then refused for ever ----

  ghost predicate EventFits(stp: Step, msg: Message, db: Db) {
    && stp.route.errors != [] && NoRepeat(stp.route.errors) && Storable(msg)
    && forall t | t in stp.route.errors :: OutboxKey(Parse(msg.saga).value, t, Compensate) !in db.outbox
  }

  lemma EventOnlyIfFits(env: Env, stp: Step, msg: Message, w: World)
    requires Quiet(env) && News(w, PublishEvent(env, stp.route, msg, w).w) != []
    ensures EventFits(stp, msg, w.db)
  {
    var job := Job(EventPlan(stp.route, msg), Relay);
    InfraEffect(env, job, w);
    var news := News(w, InfraRun(env, job, w).w);
    ApplyOne(w.db, news);
    var b := news[0];
    assert b in news && Sound(b);
    forall t | t in stp.route.errors ensures OutboxKey(Parse(msg.saga).value, t, Compensate) !in w.db.outbox {
      assert OutboxKey(Parse(msg.saga).value, t, Compensate) in KeysFor(b.plan, b.msg, b.plan.topics);
    }
  }

  /** The next infrastructure run meets no fault at its first try, and nobody else commits. */
  ghost predicate CalmAt(env: Env, clock: nat) {
    var t := InfraAt(env, clock, 0);
    && Quiet(env) && Tries(env.infra) > 0 && (forall u | clock <= u :: !env.oracle.done(u))
    && env.oracle.begin(t).None? && (forall j :: env.oracle.insert(t, j).None?) && env.oracle.commit(t).Acknowledged?
  }

  lemma EventIfFits(env: Env, stp: Step, msg: Message, w: World)
    requires EventFits(stp, msg, w.db) && CalmAt(env, w.clock)
    ensures var r := PublishEvent(env, stp.route, msg, w);
            r.err.None? && r.out == EMPTY && OneCommit(w, r.w) && News(w, r.w) == [r.w.own[|r.w.own| - 1]]
  {
    var job := Job(EventPlan(stp.route, msg), Relay);
    assert TryAt(env, None, w.clock, 0) == InfraAt(env, w.clock, 0);
    assert Succeeding(env, job, w.db, InfraAt(env, w.clock, 0));
    RecoversIff(env, job, None, w, 0);
    var v := InfraRun(env, job, w).w;
    assert News(w, v) == [v.own[|v.own| - 1]];
  }

  ghost predicate SomeRunCommits(stp: Step, msg: Message, w: World) {
    exists env: Env :: env.dedup && Quiet(env) && Lasting(env) && News(w, Deliver(env, stp, msg, w).w) != []
  }

  /** With OnError set, a repeated execution can commit something iff its failure rows fit. */
  lemma DuplicateCommitsIff(stp: Step, msg: Message, w: World)
    requires msg.kind == COMPLETE && msg.from != "" && stp.onError.Some?
    requires Parse(msg.saga).Some? && InboxKey(Parse(msg.saga).value, msg.from) in w.db.inbox
    ensures SomeRunCommits(stp, msg, w) <==> EventFits(stp, msg, w.db)
  {
    if env: Env :| env.dedup && Quiet(env) && Lasting(env) && News(w, Deliver(env, stp, msg, w).w) != [] {
      var v := BlockedExecution(env, stp, msg, w);
      EventOnlyIfFits(env, stp, msg, v);
    }
    if EventFits(stp, msg, w.db) {
      var env := Env(CALM, None, true);
      var v := BlockedExecution(env, stp, msg, w);
      EventIfFits(env, stp, msg, v);
    }
  }

  function Redelivered(env: Env, stp: Step, msg: Message, w: World, n: nat): World {
    if n == 0 then w else Deliver(env, stp, msg, Redelivered(env, stp, msg, w, n - 1)).w
  }

  /** If they do not fit, it is refused at every redelivery: never acknowledged, and the database never changes. */
  lemma {:induction false} RefusedForEver(env: Env, stp: Step, msg: Message, w: World, n: nat)
    requires Quiet(env) && Lasting(env) && env.dedup
    requires msg.kind == COMPLETE && msg.from != "" && stp.onError.Some? && stp.route.errors != []
    requires Parse(msg.saga).Some? && InboxKey(Parse(msg.saga).value, msg.from) in w.db.inbox
    requires !EventFits(stp, msg, w.db)
    ensures var v := Redelivered(env, stp, msg, w, n); v.db == w.db && Deliver(env, stp, msg, v).err.Some?
  {
    if n > 0 {
      RefusedForEver(env, stp, msg, w, n - 1);
      RefusedOnce(env, stp, msg, Redelivered(env, stp, msg, w, n - 1));
    }
    RefusedOnce(env, stp, msg, Redelivered(env, stp, msg, w, n));
  }

  lemma RefusedOnce(env: Env, stp: Step, msg: Message, w: World)
    requires Quiet(env) && Lasting(env) && env.dedup
    requires msg.kind == COMPLETE && msg.from != "" && stp.onError.Some? && stp.route.errors != []
    requires Parse(msg.saga).Some? && InboxKey(Parse(msg.saga).value, msg.from) in w.db.inbox
    requires !EventFits(stp, msg, w.db)
    ensures Deliver(env, stp, msg, w).err.Some? && Deliver(env, stp, msg, w).w.db == w.db
  {
    var v := BlockedExecution(env, stp, msg, w);
    var r := PublishEvent(env, stp.route, msg, v);
    assert EventMessage(msg, EMPTY) == msg;
    PublishEffect(env, stp, msg, EMPTY, v);
    if News(v, r.w) != [] { EventOnlyIfFits(env, stp, msg, v); }
    ApplyOne(v.db, News(v, r.w));
  }

  // ---- compensations ----

  /** A repeated compensation is inert under any faults, and acknowledged iff its last phase finds the duplicate. */
  lemma DuplicateCompensationIff(env: Env, stp: Step, msg: Message, w: World)
    requires msg.kind == FAILED && Blocked(CompensatePlan(env, stp, msg), w.db) && Lasting(env)
    ensures var job := Job(CompensatePlan(env, stp, msg), Act(stp.compensate));
            var r := Deliver(env, stp, msg, w);
            && Inert(w, r.w)
            && (r.err.None? <==>
                  if stp.onCompensateError.None? then Finds(env, stp.retry, w.clock)
                  else Finds(env, None, UserRun(env, job, stp.retry, w).w.clock))
  {
    var p := CompensatePlan(env, stp, msg);
    var job := Job(p, Act(stp.compensate));
    var r := UserRun(env, job, stp.retry, w);
    DuplicateIff(env, job, stp.retry, w);
    BarredUser(env, job, stp.retry, w);
    assert forall e: Err :: Is(Wrap(e), Duplicate) <==> Is(e, Duplicate);
    if stp.onCompensateError.Some? {
      var handling := Job(p, Handle(stp.onCompensateError.value, r.err.value));
      DuplicateIff(env, handling, None, r.w);
      BarredUser(env, handling, None, r.w);
      DbGrowsThen(w.db, r.w.db, InfraRun(env, handling, r.w).w.db);
    }
  }

  /** If neither context, begin nor claim ever fails, every repeated compensation is acknowledged. */
  lemma DuplicateCompensationByStep(env: Env, stp: Step, msg: Message, w: World)
    requires msg.kind == FAILED && Blocked(CompensatePlan(env, stp, msg), w.db)
    requires FaultFree(env) && AllTries(env, stp.retry) > 0
    ensures var r := Deliver(env, stp, msg, w); r.err.None? && Inert(w, r.w)
  {
    var job := Job(CompensatePlan(env, stp, msg), Act(stp.compensate));
    var clock := UserRun(env, job, stp.retry, w).w.clock;
    assert FirstFree(env, stp.retry, w.clock, 0) && FirstFree(env, None, clock, 0);
    DuplicateCompensationIff(env, stp, msg, w);
  }

  // ---- concrete inputs ----

  /** Its action fails, and its error handler returns the error it was given. */
  const PAYING: Step :=
    Step(Route("pay", [], ["undo"]), (_, _, m) => Failed(m, Plain(9)), (_, b, m) => Done(m, b), None,
         Some((_: nat, _: Business, m: Message, cause: ForeignErr) => Failed(m, cause)),
         Some((_: nat, _: Business, m: Message, cause: ForeignErr) => Failed(m, cause)))

  function Order(kind: string, id: Uuid): Message {
    Message(kind, "order", Print(id), "", "", map[])
  }

  /** A database that has processed the order, with the given outbox. */
  function Processed(id: Uuid, outbox: map<OutboxKey, Row>): World {
    World(Db({InboxKey(id, "order")}, outbox, map[], []), [], 0, 0, 0, 0, None)
  }

  /** With OnError set and nothing failing, the first redelivery commits a failure event. */
  lemma FirstRedelivery(id: Uuid)
    ensures var r := Deliver(Env(CALM, None, true), PAYING, Order(COMPLETE, id), Processed(id, map[]));
            r.err.None? && News(Processed(id, map[]), r.w) != []
  {
    PrintParse(id);
    var env := Env(CALM, None, true);
    var v := BlockedExecution(env, PAYING, Order(COMPLETE, id), Processed(id, map[]));
    EventIfFits(env, PAYING, Order(COMPLETE, id), v);
  }

  /** Once that row is there, every further redelivery is refused, although nothing fails. */
  lemma FurtherRedelivery(id: Uuid, row: Row, n: nat)
    ensures var env, w := Env(CALM, None, true), Processed(id, map[OutboxKey(id, "undo", Compensate) := row]);
            Deliver(env, PAYING, Order(COMPLETE, id), Redelivered(env, PAYING, Order(COMPLETE, id), w, n)).err.Some?
  {
    PrintParse(id);
    var env, w := Env(CALM, None, true), Processed(id, map[OutboxKey(id, "undo", Compensate) := row]);
    assert "undo" in PAYING.route.errors;
    RefusedForEver(env, PAYING, Order(COMPLETE, id), w, n);
  }

  /** Begin fails at one time only. */
  function Hiccup(at: nat): Env {
    Env(CALM.(begin := t => if t == at then Some(Plain(0)) else None), None, true)
  }

  /** Without OnError and without retriers, one failed begin makes a processed message publish a failure event. */
  lemma HiccupPublishes(id: Uuid)
    ensures var stp := PAYING.(onError := None);
            var r := Deliver(Hiccup(0), stp, Order(COMPLETE, id), Processed(id, map[]));
            r.err.None? && News(Processed(id, map[]), r.w) != []
  {
    PrintParse(id);
    var stp, w := PAYING.(onError := None), Processed(id, map[]);
    assert !Finds(Hiccup(0), None, 0) by {
      forall k: nat ensures !FirstFree(Hiccup(0), None, 0, k) {
        if k == 0 { assert TryAt(Hiccup(0), None, 0, 0) == 0; }
      }
    }
    var v := BlockedExecution(Hiccup(0), stp, Order(COMPLETE, id), w);
    var job := Job(ExecutePlan(Hiccup(0), stp, Order(COMPLETE, id)), Act(stp.execute));
    assert Perform(Hiccup(0), One(job), Cell(w, EMPTY, EMPTY)) == Attempt(Hiccup(0), job, Cell(w, EMPTY, EMPTY));
    EventIfFits(Hiccup(0), stp, Order(COMPLETE, id), UserRun(Hiccup(0), job, None, w).w);
  }

  /** A compensation that finds its duplicate is refused if begin then fails for its error handler. */
  lemma HiccupRefuses(id: Uuid)
    ensures Finds(Hiccup(1), None, 0)
    ensures Deliver(Hiccup(1), PAYING, Order(FAILED, id), Processed(id, map[])).err.Some?
  {
    PrintParse(id);
    var w := Processed(id, map[]);
    var job := Job(CompensatePlan(Hiccup(1), PAYING, Order(FAILED, id)), Act(PAYING.compensate));
    assert FirstFree(Hiccup(1), None, 0, 0);
    FindsDuplicate(Hiccup(1), job, None, w, 0);
    assert !Finds(Hiccup(1), None, 1) by {
      forall k: nat ensures !FirstFree(Hiccup(1), None, 1, k) {
        if k == 0 { assert TryAt(Hiccup(1), None, 1, 0) == 1; }
      }
    }
    DuplicateCompensationIff(Hiccup(1), PAYING, Order(FAILED, id), w);
  }
}
