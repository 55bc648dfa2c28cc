/** When an attempt does commit, and that the retry and fallback machinery then delivers its result. */
module Progress {
  import opened Message
  import opened Uuid
  import opened Errors
  import opened Journal
  import opened ExecutorSpec
  import opened ExecutorOutcome
  import opened Budget
  import opened Schedule

  /** Topic j has no row yet, neither committed nor earlier in this transaction, and its insert does not fail. */
  predicate RowFits(env: Env, p: Plan, m: Message, t: nat, j: nat, outbox: map<OutboxKey, Row>)
    requires j < |p.topics|
  {
    && env.oracle.insert(t, j).None?
    && p.topics[j] !in p.topics[..j]
    && (Parse(m.saga).Some? ==> OutboxKey(Parse(m.saga).value, p.topics[j], p.phase) !in outbox)
  }

  ghost predicate Writable(env: Env, p: Plan, m: Message, t: nat, i: nat, outbox: map<OutboxKey, Row>) {
    i < |p.topics| ==> Storable(m) && forall j | i <= j < |p.topics| :: RowFits(env, p, m, t, j, outbox)
  }

  lemma RepeatedKey(p: Plan, m: Message, i: nat)
    requires i < |p.topics| && Parse(m.saga).Some?
    ensures OutboxKey(Parse(m.saga).value, p.topics[i], p.phase) in RowsFor(p, m, p.topics[..i]) <==>
            p.topics[i] in p.topics[..i]
  {
  }

  lemma NoRepeatSoFar(topics: seq<string>, i: nat)
    requires i < |topics| && NoRepeat(topics[..i]) && topics[i] !in topics[..i]
    ensures NoRepeat(topics[..i + 1])
  {
    assert topics[..i + 1] == topics[..i] + [topics[i]];
  }

  lemma {:induction false} WritesIff(env: Env, p: Plan, m: Message, t: nat, i: nat, outbox: map<OutboxKey, Row>,
                                     staged: map<OutboxKey, Row>)
    requires i <= |p.topics| && staged == RowsFor(p, m, p.topics[..i]) && NoRepeat(p.topics[..i])
    ensures WriteFrom(env, p, m, t, i, outbox, staged).Rows? <==> Writable(env, p, m, t, i, outbox)
    decreases |p.topics| - i
  {
    if i < |p.topics| && Storable(m) {
      RepeatedKey(p, m, i);
      if RowFits(env, p, m, t, i, outbox) {
        var k := OutboxKey(Parse(m.saga).value, p.topics[i], p.phase);
        NextRow(p, m, i);
        NoRepeatSoFar(p.topics, i);
        WritesIff(env, p, m, t, i + 1, outbox, staged[k := Row(p.step, m)]);
      }
    }
  }

  /** The transaction gets as far as its body: begin works, and so does the claim, if there is one. */
  predicate Enters(env: Env, p: Plan, t: nat, db: Db) {
    && env.oracle.begin(t).None?
    && (p.claims ==> KeyFor(p).Some? && env.oracle.claim(t).None? && KeyFor(p).value !in db.inbox)
  }

  /** The exact condition under which a transaction is ready to commit. */
  ghost predicate CanCommit(env: Env, job: Job, t: nat, db: Db) {
    var p := job.plan;
    var o := RunBody(job.body, t, db.business, p.msg);
    Enters(env, p, t, db) && o.Done? && Writable(env, p, Addressed(p, o.msg), t, 0, db.outbox)
  }

  lemma ReadyIff(env: Env, job: Job, t: nat, db: Db)
    ensures Prepare(env, job, t, db).Ready? <==> CanCommit(env, job, t, db)
  {
    var p := job.plan;
    var o := RunBody(job.body, t, db.business, p.msg);
    if o.Done? {
      assert p.topics[..0] == [];
      WritesIff(env, p, Addressed(p, o.msg), t, 0, db.outbox, map[]);
    }
  }

  /** An attempt commits and says so exactly when it can commit and the commit is acknowledged. */
  lemma AttemptSucceedsIff(env: Env, job: Job, c: Cell)
    ensures var (d, e) := Attempt(env, job, c);
            e.None? <==>
            CanCommit(env, job, c.w.clock, Begun(env.oracle, c.w).db) && env.oracle.commit(c.w.clock).Acknowledged?
  {
    ReadyIff(env, job, c.w.clock, Begun(env.oracle, c.w).db);
  }

  /** A try at time t fails in the infrastructure, as tables and surroundings decide: in its begin, its
      claim, one of its rows or its commit. */
  ghost predicate Passing(env: Env, job: Job, db: Db, t: nat) {
    var p := job.plan;
    var o := RunBody(job.body, t, db.business, p.msg);
    || env.oracle.begin(t).Some?
    || (p.claims && KeyFor(p).Some? && env.oracle.claim(t).Some?)
    || (Enters(env, p, t, db) && o.Done? && !Writable(env, p, Addressed(p, o.msg), t, 0, db.outbox))
    || (CanCommit(env, job, t, db) && env.oracle.commit(t).NotCommitted?)
  }

  /** A row that cannot be written stops the transaction with an error that asks for a retry and is not the user's. */
  lemma UnwritableIsLost(env: Env, job: Job, t: nat, db: Db)
    requires Enters(env, job.plan, t, db) && RunBody(job.body, t, db.business, job.plan.msg).Done?
    requires !CanCommit(env, job, t, db)
    ensures Prepare(env, job, t, db).Stopped? && Lost(Some(Prepare(env, job, t, db).err))
  {
    ReadyIff(env, job, t, db);
    var m := Addressed(job.plan, RunBody(job.body, t, db.business, job.plan.msg).msg);
    WriteErrorIsForeign(env, job.plan, m, t, 0, db.outbox, map[]);
    InfraErrorIsClean(WriteFrom(env, job.plan, m, t, 0, db.outbox, map[]).err);
  }

  /** The infrastructure faults are exactly the errors without a commit that ask for a retry and are not the user's. */
  lemma PassingIff(env: Env, job: Job, db: Db, t: nat)
    ensures Passing(env, job, db, t) <==>
            match Prepare(env, job, t, db)
            case Stopped(e) => Lost(Some(e))
            case Ready(_) => env.oracle.commit(t).NotCommitted?
  {
    ReadyIff(env, job, t, db);
    if env.oracle.begin(t).Some? {
      InfraErrorIsClean(env.oracle.begin(t).value);
    } else if !Enters(env, job.plan, t, db) {
      if env.oracle.claim(t).Some? { InfraErrorIsClean(env.oracle.claim(t).value); }
    } else if RunBody(job.body, t, db.business, job.plan.msg).Done? && !CanCommit(env, job, t, db) {
      UnwritableIsLost(env, job, t, db);
    }
  }

  ghost predicate Succeeding(env: Env, job: Job, db: Db, t: nat) {
    CanCommit(env, job, t, db) && env.oracle.commit(t).Acknowledged?
  }

  /** The first m tries meet passing faults and the next one succeeds; the context lives, and nobody else commits. */
  ghost predicate Clears(env: Env, job: Job, retry: Option<Retrier>, w: World, m: nat) {
    && Quiet(env) && (forall t | w.clock <= t :: !env.oracle.done(t))
    && (forall i | 0 <= i < m && i < AllTries(env, retry) :: Passing(env, job, w.db, TryAt(env, retry, w.clock, i)))
    && (m < AllTries(env, retry) ==> Succeeding(env, job, w.db, TryAt(env, retry, w.clock, m)))
  }

  /** Nothing fails at all. */
  const CALM: Oracle :=
    Oracle(_ => false, _ => None, _ => None, (_, _) => None, _ => Acknowledged, _ => [], _ => 0.0)

  ghost predicate OneCommit(v: World, w: World) {
    w.own != [] && var b := w.own[|w.own| - 1]; w.own == v.own + [b] && w.db == Apply(v.db, b)
  }

  ghost function Unchanged(w: World): Memo -> bool {
    (m: Memo) => m.db == w.db && m.own == w.own
  }

  lemma PassingMisses(env: Env, job: Job, w: World, t: nat)
    requires Quiet(env) && Passing(env, job, w.db, t)
    ensures Misses(env, job, Unchanged(w), t)
  {
    forall c: Cell | c.w.clock == t && Unchanged(w)(MemoOf(c.w))
      ensures Missed(Unchanged(w), c, Attempt(env, job, c).0, Attempt(env, job, c).1)
    {
      assert Begun(env.oracle, c.w).db == c.w.db;
      PassingIff(env, job, c.w.db, t);
      if Prepare(env, job, t, c.w.db).Ready? { InfraErrorIsClean(env.oracle.commit(t).err); }
    }
  }

  lemma SucceedingStops(env: Env, job: Job, w: World, t: nat)
    requires Quiet(env) && Succeeding(env, job, w.db, t)
    ensures Stops(env, job, Unchanged(w), t)
    ensures forall c: Cell | c.w.clock == t && Unchanged(w)(MemoOf(c.w)) :: Attempt(env, job, c).1.None?
  {
    forall c: Cell | c.w.clock == t && Unchanged(w)(MemoOf(c.w)) ensures Attempt(env, job, c).1.None? {
      assert Begun(env.oracle, c.w).db == c.w.db;
      AttemptSucceedsIff(env, job, c);
    }
  }

  lemma NoTries(env: Env, job: Job, retry: Option<Retrier>, w: World)
    requires AllTries(env, retry) == 0
    ensures var r := UserRun(env, job, retry, w); r.err.Some? && r.w.db == w.db && r.w.own == w.own
  {
    if retry.Some? && retry.value.maxRetries == 0 {
      assert OnePass(env, retry.value, Infra(job), Cell(w, EMPTY, EMPTY), 0, None).Return?;
    } else {
      var inner := if retry.None? then w else Tick(w);
      NoInfraTries(env, job, inner);
      if retry.Some? { assert OnePass(env, retry.value, Infra(job), Cell(w, EMPTY, EMPTY), 0, None).Return?; }
    }
  }

  lemma NoInfraTries(env: Env, job: Job, w: World)
    requires Tries(env.infra) == 0
    ensures var r := InfraRun(env, job, w); r.err.Some? && !HasRetryable(r.err.value) && r.w == Tick(w)
  {
    assert OnePass(env, env.infra.value, One(job), Cell(w, EMPTY, EMPTY), 0, None).Return?;
    assert FindAction(Cancelled) == None && FindAction(MaxRetriesExceeded) == None;
  }

  /** A run rides out m infrastructure faults, wherever they fall in the two loops, iff m is below U * I. */
  lemma RecoversIff(env: Env, job: Job, retry: Option<Retrier>, w: World, m: nat)
    requires Clears(env, job, retry, w, m)
    ensures var r := UserRun(env, job, retry, w);
            && (r.err.None? <==> m < AllTries(env, retry))
            && (m < AllTries(env, retry) ==>
                  OneCommit(w, r.w) && Made(job, r.w.own[|r.w.own| - 1]) && r.out == r.w.own[|r.w.own| - 1].msg)
            && (m >= AllTries(env, retry) ==> r.w.db == w.db && r.w.own == w.own)
  {
    var P := Unchanged(w);
    forall i | 0 <= i < m && i < AllTries(env, retry) ensures Misses(env, job, P, TryAt(env, retry, w.clock, i)) {
      PassingMisses(env, job, w, TryAt(env, retry, w.clock, i));
    }
    if m < AllTries(env, retry) {
      SucceedingStops(env, job, w, TryAt(env, retry, w.clock, m));
      var v := UserStops(env, job, P, retry, w, m);
      var c := Cell(v, EMPTY, EMPTY);
      assert Begun(env.oracle, v).db == w.db && Attempt(env, job, c).1.None?;
      ReadyIsMade(env, job, v.clock, w.db);
    } else if AllTries(env, retry) == 0 {
      NoTries(env, job, retry, w);
    } else {
      UserMisses(env, job, P, retry, w);
    }
  }

  /** An execution that recovers within its budget returns the message of its committed action, and no fallback runs. */
  lemma ExecutionRecovers(env: Env, stp: Step, msg: Message, w: World, m: nat)
    requires m < AllTries(env, stp.retry)
    requires Clears(env, Job(ExecutePlan(env, stp, msg), Act(stp.execute)), stp.retry, w, m)
    ensures var r := ExecuteStep(env, stp, msg, w);
            && r.err.None? && OneCommit(w, r.w)
            && var b := r.w.own[|r.w.own| - 1];
               Made(Job(ExecutePlan(env, stp, msg), Act(stp.execute)), b) && r.out == b.msg
  {
    RecoversIff(env, Job(ExecutePlan(env, stp, msg), Act(stp.execute)), stp.retry, w, m);
  }

  /** After k tries that meet passing faults, the body of the job is reached and fails for good with e, leaving m. */
  ghost predicate FailsAt(env: Env, job: Job, w: World, k: nat, m: Message, e: Err) {
    var t := InfraAt(env, w.clock, k);
    && k < Tries(env.infra) && Quiet(env) && Alive(env, w.clock, t)
    && (forall i | 0 <= i < k :: Passing(env, job, w.db, InfraAt(env, w.clock, i)))
    && env.oracle.begin(t).None? && ClaimError(env, job.plan, t, w.db).None?
    && var o := RunBody(job.body, t, w.db.business, job.plan.msg);
       o.Failed? && o.msg == m && o.err == e && !HasRetryable(e)
  }

  lemma FailureLeaves(env: Env, job: Job, w: World, k: nat, m: Message, e: Err)
    requires FailsAt(env, job, w, k, m, e)
    ensures var r := InfraRun(env, job, w); r.err == Some(e) && r.left == m && r.w.db == w.db && r.w.own == w.own
  {
    var P, t := Unchanged(w), InfraAt(env, w.clock, k);
    forall i | 0 <= i < k ensures Misses(env, job, P, InfraAt(env, w.clock, i)) {
      PassingMisses(env, job, w, InfraAt(env, w.clock, i));
    }
    forall c: Cell | c.w.clock == t && P(MemoOf(c.w)) ensures Attempt(env, job, c).1 == Some(Errors.Action(e)) {
      assert Begun(env.oracle, c.w).db == w.db;
    }
    assert !HasRetryable(Errors.Action(e)) && FindAction(Errors.Action(e)) == Some(e);
    var v := InfraStops(env, job, P, w, k);
    assert Begun(env.oracle, v).db == w.db;
  }

  /** Whatever made the action fail, the failure event carries what the failing OnError left, or
      else the incoming message. */
  lemma FailureEventCarriesLeft(env: Env, stp: Step, msg: Message, w: World, k: nat, m: Message, e: Err)
    requires stp.onError.Some?
    requires var p := ExecutePlan(env, stp, msg);
             var r := UserRun(env, Job(p, Act(stp.execute)), stp.retry, w);
             r.err.Some? && FailsAt(env, Job(p, Handle(stp.onError.value, r.err.value)), r.w, k, m, e)
    ensures var p := ExecutePlan(env, stp, msg);
            var r := UserRun(env, Job(p, Act(stp.execute)), stp.retry, w);
            var h := InfraRun(env, Job(p, Handle(stp.onError.value, r.err.value)), r.w);
            && ExecuteStep(env, stp, msg, w) == PublishEvent(env, stp.route, EventMessage(msg, m), h.w)
            && forall b | b in News(h.w, ExecuteStep(env, stp, msg, w).w) ::
                 && b.claim.None? &&
                    b.msg.payload == (if m.saga != "" || m.payload != map[] then m.payload else msg.payload)
                 && b.msg.kind == FAILED && b.msg.from == stp.route.name
                 && b.msg.saga == (if m.saga != "" then m.saga else msg.saga)
  {
    var p := ExecutePlan(env, stp, msg);
    var r := UserRun(env, Job(p, Act(stp.execute)), stp.retry, w);
    var handling := Job(p, Handle(stp.onError.value, r.err.value));
    FailureLeaves(env, handling, r.w, k, m, e);
    if stp.route.errors != [] {
      InfraEffect(env, Job(EventPlan(stp.route, EventMessage(msg, m)), Relay), InfraRun(env, handling, r.w).w);
    }
  }
}
