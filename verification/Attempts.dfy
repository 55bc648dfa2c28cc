/** How one transaction ends: what surroundings, tables and user code decide about its error, and what it commits. */
module Attempts {
  import opened Message
  import opened Uuid
  import opened Errors
  import opened Journal
  import opened ExecutorSpec
  import opened ExecutorOutcome
  import opened Schedule
  import opened Progress

  /** The code of the job, called at time t on these tables with this message, returns o. */
  ghost predicate Says(body: Body, t: nat, tables: Business, msg: Message, o: Outcome) {
    match body
    case Act(action) => action(t, tables, msg) == o
    case Handle(handler, cause) => Foreign(cause) && handler(t, tables, msg, cause) == o
    case Relay => o == Done(msg, tables)
  }

  /** Nothing was committed, and the code of the job was called or not. */
  ghost predicate Dropped(job: Job, db: Db, v: World, w: World, called: bool) {
    && w.db == db && w.own == v.own
    && w.calls == v.calls + if called && job.body.Act? then 1 else 0
  }

  /** Just one bundle was committed, and the code of the job was called. */
  ghost predicate CommittedOne(job: Job, db: Db, v: World, w: World) {
    && |w.own| == |v.own| + 1 && w.own[..|v.own|] == v.own && w.db == Apply(db, w.own[|v.own|])
    && w.calls == v.calls + if job.body.Act? then 1 else 0
  }

  /** An error that no retrier repeats, and that neither user code nor the inbox made. */
  predicate Malformed(e: Option<Err>) {
    e.Some? && !HasRetryable(e.value) && FindAction(e.value).None? && !Is(e.value, Duplicate)
  }

  /** The nine ends of a transaction, in the order in which they are met. */
  ghost predicate Ends(env: Env, job: Job, c: Cell, db: Db, o: Outcome, d: Cell, e: Option<Err>) {
    var t, p, saga := c.w.clock, job.plan, Parse(job.plan.msg.saga);
    if env.oracle.begin(t).Some? then Lost(e) && Dropped(job, db, c.w, d.w, false)
    else if p.claims && saga.None? then Malformed(e) && Dropped(job, db, c.w, d.w, false)
    else if p.claims && env.oracle.claim(t).Some? then Lost(e) && Dropped(job, db, c.w, d.w, false)
    else if p.claims && InboxKey(saga.value, p.msg.from) in db.inbox then
      e == Some(Duplicate) && Dropped(job, db, c.w, d.w, false)
    else if o.Failed? then
      && e.Some? && FindAction(e.value) == Some(o.err) && (HasRetryable(e.value) <==> HasRetryable(o.err))
      && d.left == o.msg && Dropped(job, db, c.w, d.w, true)
    else if !Writable(env, p, Addressed(p, o.msg), t, 0, db.outbox) then
      Lost(e) && Dropped(job, db, c.w, d.w, true)
    else
      match env.oracle.commit(t)
      case NotCommitted(_) => Lost(e) && Dropped(job, db, c.w, d.w, true)
      case AckLost(_) => Lost(e) && CommittedOne(job, db, c.w, d.w)
      case Acknowledged => e == None && CommittedOne(job, db, c.w, d.w)
  }

  /** Which of its ends a transaction meets depends on surroundings, tables and the job's own code alone. */
  lemma AttemptEnds(env: Env, job: Job, c: Cell, o: Outcome)
    requires Says(job.body, c.w.clock, Begun(env.oracle, c.w).db.business, job.plan.msg, o)
    ensures var (d, e) := Attempt(env, job, c); Ends(env, job, c, Begun(env.oracle, c.w).db, o, d, e)
  {
    var t, db := c.w.clock, Begun(env.oracle, c.w).db;
    ReadyIff(env, job, t, db);
    if env.oracle.begin(t).Some? {
      InfraErrorIsClean(env.oracle.begin(t).value);
    } else if !Enters(env, job.plan, t, db) {
      if env.oracle.claim(t).Some? { InfraErrorIsClean(env.oracle.claim(t).value); }
      ForeignIsClean(Wrap(Plain(1)));
    } else if o.Done? {
      if !CanCommit(env, job, t, db) {
        UnwritableIsLost(env, job, t, db);
      } else if !env.oracle.commit(t).Acknowledged? {
        InfraErrorIsClean(env.oracle.commit(t).err);
      }
    }
  }

  /** A failed insert is repeated like any other infrastructure fault, and leaves nothing behind. */
  lemma FailedInsertIsRetried(env: Env, p: Plan, action: ActionFn, c: Cell, i: nat)
    requires Quiet(env) && Enters(env, p, c.w.clock, c.w.db) && i < |p.topics| && env.oracle.insert(c.w.clock, i).Some?
    requires action(c.w.clock, c.w.db.business, p.msg).Done?
    ensures var (d, e) := Attempt(env, Job(p, Act(action)), c);
            && e.Some? && HasRetryable(e.value) && FindAction(e.value) == None && !Is(e.value, Duplicate)
            && d.w.db == c.w.db && d.w.own == c.w.own && d.w.calls == c.w.calls + 1
  {
    var job := Job(p, Act(action));
    var o := action(c.w.clock, c.w.db.business, p.msg);
    AttemptEnds(env, job, c, o);
    AttemptEffect(env, job, c);
    assert !RowFits(env, p, Addressed(p, o.msg), c.w.clock, i, c.w.db.outbox);
  }

  // ---- commits of other replicas ----

  /** The bundles fit the tables one after another. */
  predicate FitInTurn(db: Db, bs: seq<Bundle>)
    decreases |bs|
  {
    bs == [] || (Fits(db, bs[0]) && FitInTurn(Apply(db, bs[0]), bs[1..]))
  }

  lemma {:induction false} OthersAreSeen(db: Db, bs: seq<Bundle>)
    requires FitInTurn(db, bs)
    ensures Absorb(db, bs).journal == db.journal + bs
    ensures forall b | b in bs && b.claim.Some? :: b.claim.value in Absorb(db, bs).inbox
    ensures forall b, k | b in bs && k in b.rows :: k in Absorb(db, bs).outbox
    decreases |bs|
  {
    if bs != [] {
      OthersAreSeen(Apply(db, bs[0]), bs[1..]);
      AbsorbGrows(Apply(db, bs[0]), bs[1..]);
      forall b | b in bs ensures b == bs[0] || b in bs[1..] {}
    }
  }

  /** Another replica committed this message first: the transaction finds the duplicate, calls no code
      and commits nothing. */
  lemma RaceIsLost(env: Env, job: Job, c: Cell, b: Bundle)
    requires FitInTurn(c.w.db, env.oracle.others(c.w.clock)) && b in env.oracle.others(c.w.clock)
    requires job.plan.claims && Parse(job.plan.msg.saga).Some?
    requires b.claim == Some(InboxKey(Parse(job.plan.msg.saga).value, job.plan.msg.from))
    requires env.oracle.begin(c.w.clock).None? && env.oracle.claim(c.w.clock).None?
    ensures var (d, e) := Attempt(env, job, c);
            && e == Some(Duplicate) && d.w.own == c.w.own && d.w.calls == c.w.calls && d.w.seen == c.w.seen
            && d.w.db.journal == c.w.db.journal + env.oracle.others(c.w.clock)
  {
    OthersAreSeen(c.w.db, env.oracle.others(c.w.clock));
  }
}
