/** The message a failing error handler leaves behind always belongs to the error that is reported with it. */
module Blame {
  import opened Message
  import opened Errors
  import opened Journal
  import opened ExecutorSpec
  import opened ExecutorOutcome

  predicate IsFailure(o: Outcome, left: Message, e: Err) {
    o.Failed? && o.msg == left && o.err == e
  }

  /** The body of the job returns just this at some time from `since` on. */
  ghost predicate FailsWith(job: Job, since: nat, left: Message, e: Err) {
    exists t, tables :: since <= t && IsFailure(RunBody(job.body, t, tables, job.plan.msg), left, e)
  }

  /** If a user error is in the chain, it and the kept message are the last thing user code returned. */
  ghost predicate Blames(job: Job, since: nat, w: World, left: Message, e: Option<Err>) {
    e.Some? && FindAction(e.value).Some? ==>
      && w.seen.Some? && IsFailure(w.seen.value, left, FindAction(e.value).value)
      && FailsWith(job, since, left, FindAction(e.value).value)
  }

  lemma PreparedWithoutBlame(env: Env, job: Job, t: nat, db: Db)
    requires Prepare(env, job, t, db).Stopped?
    requires Reached(env, job, t, db).None? || Reached(env, job, t, db).value.Done?
    ensures FindAction(Prepare(env, job, t, db).err) == None
  {
    var p := job.plan;
    if env.oracle.begin(t).Some? {
      InfraErrorIsClean(env.oracle.begin(t).value);
    } else if ClaimError(env, p, t, db).Some? {
      if env.oracle.claim(t).Some? { InfraErrorIsClean(env.oracle.claim(t).value); }
      assert FindAction(Plain(1)) == None;
    } else {
      var m := Addressed(p, RunBody(job.body, t, db.business, p.msg).msg);
      WriteErrorIsForeign(env, p, m, t, 0, db.outbox, map[]);
      InfraErrorIsClean(WriteFrom(env, p, m, t, 0, db.outbox, map[]).err);
    }
  }

  lemma AttemptBlame(env: Env, job: Job, since: nat, c: Cell)
    requires since <= c.w.clock
    ensures var (d, e) := Attempt(env, job, c); Blames(job, since, d.w, d.left, e) && d.w.clock == c.w.clock + 1
  {
    var t, db := c.w.clock, Begun(env.oracle, c.w).db;
    match Prepare(env, job, t, db)
    case Stopped(e) =>
      var o := Reached(env, job, t, db);
      if o.None? || o.value.Done? {
        PreparedWithoutBlame(env, job, t, db);
      } else {
        assert IsFailure(RunBody(job.body, t, db.business, job.plan.msg), o.value.msg, o.value.err);
      }
    case Ready(b) =>
      match env.oracle.commit(t)
      case Acknowledged =>
      case NotCommitted(x) => InfraErrorIsClean(x);
      case AckLost(x) => InfraErrorIsClean(x);
  }

  lemma {:induction false} LoopBlame(env: Env, r: Retrier, job: Job, since: nat, c: Cell, n: nat, last: Option<Err>)
    requires since <= c.w.clock && Blames(job, since, c.w, c.left, last)
    ensures var (d, e) := RetryLoop(env, r, One(job), c, n, last); Blames(job, since, d.w, d.left, e)
    decreases r.maxRetries - n
  {
    var c1 := c.(w := Tick(c.w));
    AttemptBlame(env, job, since, c1);
    assert Perform(env, One(job), c1) == Attempt(env, job, c1);
    if last.Some? { ExhaustedKeepsLast(last.value); }
    assert FindAction(Cancelled) == None && FindAction(MaxRetriesExceeded) == None;
    match OnePass(env, r, One(job), c, n, last)
    case Return(_, _) =>
    case Again(d, e) => LoopBlame(env, r, job, since, d, n + 1, Some(e));
  }

  /** runErrorHandler never mixes attempts: the message beside a handler's error is from that same,
      last handler call. */
  lemma NeverMixes(env: Env, job: Job, w: World)
    ensures var r := InfraRun(env, job, w);
            || r.left == EMPTY
            || (r.err.Some? && r.w.seen.Some? &&
                IsFailure(r.w.seen.value, r.left, r.err.value) && FailsWith(job, w.clock, r.left, r.err.value))
  {
    var c := Cell(w, EMPTY, EMPTY);
    if env.infra.None? {
      AttemptBlame(env, job, w.clock, c);
      assert Perform(env, One(job), c) == Attempt(env, job, c);
    } else {
      LoopBlame(env, env.infra.value, job, w.clock, c, 0, None);
      var (d, e) := RetryLoop(env, env.infra.value, One(job), c, 0, None);
      assert InfraRun(env, job, w) == Unwrapped(d, e);
    }
  }

  // ---- which errors reach an error handler ----

  /** Foreign, apart from actionErrors that hold a foreign error. */
  predicate Tame(e: Err) {
    match e
    case Action(x) => Foreign(x)
    case Retryable(x) => Tame(x)
    case Wrap(x) => Tame(x)
    case Join(x, y) => Tame(x) && Tame(y)
    case _ => e != Duplicate
  }

  lemma {:induction false} TameFound(e: Err)
    requires Tame(e)
    ensures if FindAction(e).Some? then Foreign(FindAction(e).value) else Foreign(e)
  {
    match e
    case Retryable(x) => TameFound(x);
    case Wrap(x) => TameFound(x);
    case Join(x, y) => TameFound(x); TameFound(y);
    case _ =>
  }

  lemma {:induction false} ForeignIsTame(e: Err)
    requires Foreign(e)
    ensures Tame(e)
  {
    match e
    case Retryable(x) => ForeignIsTame(x);
    case Wrap(x) => ForeignIsTame(x);
    case Join(x, y) => ForeignIsTame(x); ForeignIsTame(y);
    case _ =>
  }

  lemma AttemptErrors(env: Env, job: Job, c: Cell)
    ensures var e := Attempt(env, job, c).1; e.Some? ==> Tame(e.value) || e.value == Duplicate
  {
    var t, db := c.w.clock, Begun(env.oracle, c.w).db;
    var p := job.plan;
    match Prepare(env, job, t, db)
    case Stopped(e) =>
      var o := RunBody(job.body, t, db.business, p.msg);
      if o.Done? { WriteErrorIsForeign(env, p, Addressed(p, o.msg), t, 0, db.outbox, map[]); }
      assert Foreign(e) || e == Duplicate || e.Action?;
      if Foreign(e) { ForeignIsTame(e); }
    case Ready(b) =>
      if !env.oracle.commit(t).Acknowledged? { ForeignIsTame(InfraError(env.oracle.commit(t).err)); }
  }

  /** Errors of a retrier are those of its closure, alone or inside an exhausted one. */
  lemma {:induction false} LoopErrors(env: Env, r: Retrier, work: Work, c: Cell, n: nat, last: Option<Err>,
                                      G: Err -> bool)
    requires G(Cancelled) && G(MaxRetriesExceeded) &&
             forall e | G(e) && HasRetryable(e) :: G(Join(MaxRetriesExceeded, e))
    requires last.Some? ==> G(last.value) && HasRetryable(last.value)
    requires forall d: Cell :: Perform(env, work, d).1.Some? ==> G(Perform(env, work, d).1.value)
    ensures RetryLoop(env, r, work, c, n, last).1.Some? ==> G(RetryLoop(env, r, work, c, n, last).1.value)
    decreases r.maxRetries - n
  {
    var c1 := c.(w := Tick(c.w));
    assert Perform(env, work, c1).1.Some? ==> G(Perform(env, work, c1).1.value);
    match OnePass(env, r, work, c, n, last)
    case Return(_, _) =>
    case Again(d, e) => LoopErrors(env, r, work, d, n + 1, Some(e), G);
  }

  ghost predicate ForeignOrDuplicate(e: Option<Err>) {
    e.Some? ==> Foreign(e.value) || e.value == Duplicate
  }

  lemma InfraErrors(env: Env, job: Job, w: World)
    ensures ForeignOrDuplicate(InfraRun(env, job, w).err)
  {
    var c := Cell(w, EMPTY, EMPTY);
    var G := (e: Err) => Tame(e) || e == Duplicate;
    forall d: Cell ensures Perform(env, One(job), d).1.Some? ==> G(Perform(env, One(job), d).1.value) {
      AttemptErrors(env, job, d);
      assert Perform(env, One(job), d) == Attempt(env, job, d);
    }
    var e: Option<Err>;
    if env.infra.None? {
      e := Perform(env, One(job), c).1;
    } else {
      LoopErrors(env, env.infra.value, One(job), c, 0, None, G);
      e := RetryLoop(env, env.infra.value, One(job), c, 0, None).1;
    }
    assert e.Some? ==> G(e.value);
    if e.Some? && Tame(e.value) { TameFound(e.value); }
  }

  lemma UserErrors(env: Env, job: Job, retry: Option<Retrier>, w: World)
    ensures ForeignOrDuplicate(UserRun(env, job, retry, w).err)
  {
    if retry.None? {
      InfraErrors(env, job, w);
    } else {
      var G := (e: Err) => Foreign(e) || e == Duplicate;
      forall d: Cell ensures Perform(env, Infra(job), d).1.Some? ==> G(Perform(env, Infra(job), d).1.value) {
        InfraErrors(env, job, d.w);
      }
      LoopErrors(env, retry.value, Infra(job), Cell(w, EMPTY, EMPTY), 0, None, G);
    }
  }

  /** An error handler only ever runs on a foreign error: given a duplicate, its own claim fails
      first, at every later time. */
  lemma HandlerSeesForeign(env: Env, job: Job, retry: Option<Retrier>, w: World, handler: HandlerFn, t: nat, db: Db)
    requires var r := UserRun(env, job, retry, w); r.err.Some? && DbGrows(r.w.db, db)
    ensures var cause := UserRun(env, job, retry, w).err.value;
            Foreign(cause) || Reached(env, Job(job.plan, Handle(handler, cause)), t, db).None?
  {
    UserErrors(env, job, retry, w);
    UserEffect(env, job, retry, w);
  }
}
