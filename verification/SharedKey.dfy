/** The inbox key names the saga and the sender, not the receiving step: what that means for steps of one service. */
module SharedKey {
  import opened Message
  import opened Uuid
  import opened Errors
  import opened Journal
  import opened ExecutorSpec
  import opened ExecutorOutcome
  import opened StepTheorems
  import opened Budget
  import opened Schedule
  import opened Progress
  import opened Duplicates

  function PlanFor(env: Env, stp: Step, msg: Message): Plan {
    if msg.kind == FAILED then CompensatePlan(env, stp, msg) else ExecutePlan(env, stp, msg)
  }

  /** The two messages have one inbox key. */
  predicate SameKey(m: Message, n: Message) {
    m.from == n.from && m.from != "" && Parse(m.saga) == Parse(n.saga)
  }

  /** Once step a has claimed its message, no message of the same saga and sender runs step b, forward or backward.
      Without faults it is acknowledged all the same iff it is a compensation or b has no failure event to publish. */
  lemma SharedKeyIff(first: Env, a: Step, m: Message, w: World, env: Env, b: Step, n: Message)
    requires Claimed(PlanFor(first, a, m), Deliver(first, a, m, w).w.db)
    requires env.dedup && SameKey(m, n) && FaultFree(env) && AllTries(env, b.retry) > 0
    requires n.kind == COMPLETE || n.kind == FAILED
    ensures var v := Deliver(first, a, m, w).w;
            var r := Deliver(env, b, n, v);
            && Claimed(PlanFor(env, b, n), v.db)
            && r.w.calls == v.calls && r.w.seen == v.seen
            && (Silent(env, b, n, v) <==> n.kind == FAILED || b.onError.None? || b.route.errors == [])
            && (Silent(env, b, n, v) ==> Inert(v, r.w))
  {
    var v := Deliver(first, a, m, w).w;
    if n.kind == FAILED {
      DuplicateCompensationByStep(env, b, n, v);
      assert News(v, Deliver(env, b, n, v).w) == [];
    } else {
      DuplicateSilentByStep(env, b, n, v);
      DuplicateSilentIff(env, b, n, v);
      BlockedNotCalled(env, b, n, v);
    }
  }

  lemma BlockedNotCalled(env: Env, stp: Step, msg: Message, w: World)
    requires msg.kind == COMPLETE && Blocked(ExecutePlan(env, stp, msg), w.db) && Lasting(env)
    ensures var v := Deliver(env, stp, msg, w).w; v.calls == w.calls && v.seen == w.seen
  {
    var v := BlockedExecution(env, stp, msg, w);
    RelayNotSeen(env, Job(EventPlan(stp.route, msg), Relay), v);
  }

  lemma {:induction false} RelayLoop(env: Env, r: Retrier, job: Job, c: Cell, n: nat, last: Option<Err>)
    requires job.body.Relay?
    ensures var d := RetryLoop(env, r, One(job), c, n, last).0; d.w.calls == c.w.calls && d.w.seen == c.w.seen
    decreases r.maxRetries - n
  {
    var c1 := c.(w := Tick(c.w));
    assert Perform(env, One(job), c1) == Attempt(env, job, c1);
    match OnePass(env, r, One(job), c, n, last)
    case Return(_, _) =>
    case Again(d, e) => RelayLoop(env, r, job, d, n + 1, Some(e));
  }

  lemma RelayNotSeen(env: Env, job: Job, w: World)
    requires job.body.Relay?
    ensures var v := InfraRun(env, job, w).w; v.calls == w.calls && v.seen == w.seen
  {
    var c := Cell(w, EMPTY, EMPTY);
    if env.infra.None? {
      assert Perform(env, One(job), c) == Attempt(env, job, c);
    } else {
      RelayLoop(env, env.infra.value, job, c, 0, None);
    }
  }

  // ---- when a step's code is called at all ----

  lemma InfraCalls(env: Env, job: Job, w: World)
    requires job.body.Act? && Smooth(env, job, w.db) && Tries(env.infra) > 0
    ensures InfraRun(env, job, w).w.calls > w.calls
  {
    var c := Cell(w, EMPTY, EMPTY);
    if env.infra.None? {
      assert Perform(env, One(job), c) == Attempt(env, job, c);
    } else {
      var c1 := c.(w := Tick(w));
      assert Perform(env, One(job), c1) == Attempt(env, job, c1);
      assert Attempt(env, job, c1).0.w.calls == w.calls + 1;
      match OnePass(env, env.infra.value, One(job), c, 0, None)
      case Return(_, _) =>
      case Again(d, e) => LoopCost(env, env.infra.value, One(job), d, 1, Some(e));
    }
  }

  lemma UserCalls(env: Env, job: Job, retry: Option<Retrier>, w: World)
    requires job.body.Act? && Smooth(env, job, w.db) && AllTries(env, retry) > 0
    ensures UserRun(env, job, retry, w).w.calls > w.calls
  {
    if retry.None? {
      InfraCalls(env, job, w);
    } else {
      var c := Cell(w, EMPTY, EMPTY);
      if Tries(env.infra) == 0 || retry.value.maxRetries == 0 { assert false; }
      InfraCalls(env, job, Tick(w));
      assert Perform(env, Infra(job), c.(w := Tick(w))).0.w == InfraRun(env, job, Tick(w)).w;
      match OnePass(env, retry.value, Infra(job), c, 0, None)
      case Return(_, _) =>
      case Again(d, e) => LoopCost(env, retry.value, Infra(job), d, 1, Some(e));
    }
  }

  /** Without faults and other replicas, the action of a step is called for a message iff the
      message's key is not in the inbox. */
  lemma CalledIff(env: Env, stp: Step, msg: Message, w: World)
    requires env.dedup && msg.kind == COMPLETE && msg.from != "" && Parse(msg.saga).Some?
    requires Quiet(env) && FaultFree(env) && AllTries(env, stp.retry) > 0
    ensures Deliver(env, stp, msg, w).w.calls > w.calls <==> InboxKey(Parse(msg.saga).value, msg.from) !in w.db.inbox
  {
    var p := ExecutePlan(env, stp, msg);
    if InboxKey(Parse(msg.saga).value, msg.from) in w.db.inbox {
      BlockedNotCalled(env, stp, msg, w);
    } else {
      var job := Job(p, Act(stp.execute));
      assert forall t :: Free(env, t) ==> env.oracle.begin(t).None? && env.oracle.claim(t).None?;
      UserCalls(env, job, stp.retry, w);
      var r := UserRun(env, job, stp.retry, w);
      if r.err.Some? && stp.onError.Some? { InfraCost(env, Job(p, Handle(stp.onError.value, r.err.value)), r.w); }
      RestCalls(env, stp, msg, w);
    }
  }

  lemma RestCalls(env: Env, stp: Step, msg: Message, w: World)
    ensures var job := Job(ExecutePlan(env, stp, msg), Act(stp.execute));
            ExecuteStep(env, stp, msg, w).w.calls >= UserRun(env, job, stp.retry, w).w.calls
  {
    var p := ExecutePlan(env, stp, msg);
    var r := UserRun(env, Job(p, Act(stp.execute)), stp.retry, w);
    if r.err.Some? {
      InfraCost(env, Job(EventPlan(stp.route, msg), Relay), r.w);
      if stp.onError.Some? {
        var handling := Job(p, Handle(stp.onError.value, r.err.value));
        var h := InfraRun(env, handling, r.w);
        InfraCost(env, handling, r.w);
        InfraCost(env, Job(EventPlan(stp.route, EventMessage(msg, h.left)), Relay), h.w);
      }
    }
  }

  // ---- concrete inputs, without any fault ----

  function Setting(thing: string): Step {
    Step(Route(thing, [], ["undo"]), (_, b: Business, m) => Done(m, b[thing := "set"]),
         (_, b: Business, m) => Done(m, b[thing := "unset"]), None, None, None)
  }

  const FRESH: World := World(Db({}, map[], map[], []), [], 0, 0, 0, 0, None)

  lemma SeatIsSet(id: Uuid)
    ensures var env, stp := Env(CALM, None, true), Setting("seat");
            var r := Deliver(env, stp, Order(COMPLETE, id), FRESH);
            && r.err.None? && Claimed(ExecutePlan(env, stp, Order(COMPLETE, id)), r.w.db)
            && r.w.db.business == map["seat" := "set"]
  {
    PrintParse(id);
    var env, stp, msg := Env(CALM, None, true), Setting("seat"), Order(COMPLETE, id);
    var job := Job(ExecutePlan(env, stp, msg), Act(stp.execute));
    assert TryAt(env, None, 0, 0) == 0 && Clears(env, job, None, FRESH, 0);
    ExecutionRecovers(env, stp, msg, FRESH, 0);
    var v := ExecuteStep(env, stp, msg, FRESH).w;
    UserEffect(env, job, None, FRESH);
    assert News(FRESH, v) == [v.own[0]];
    ApplyOne(FRESH.db, [v.own[0]]);
  }

  /** Two steps of one service receive the order: both messages are acknowledged, and only the first step happens. */
  lemma FanOut(id: Uuid)
    ensures var env := Env(CALM, None, true);
            var v := Deliver(env, Setting("seat"), Order(COMPLETE, id), FRESH).w;
            var r := Deliver(env, Setting("meal"), Order(COMPLETE, id), v);
            r.err.None? && r.w.db.business == map["seat" := "set"] && r.w.calls == v.calls
  {
    PrintParse(id);
    var env, msg := Env(CALM, None, true), Order(COMPLETE, id);
    SeatIsSet(id);
    SharedKeyIff(env, Setting("seat"), msg, FRESH, env, Setting("meal"), msg);
    var v := Deliver(env, Setting("seat"), msg, FRESH).w;
    var u := BlockedExecution(env, Setting("meal"), msg, v);
    assert FirstFree(env, None, v.clock, 0);
  }

  /** One service runs a step fed by another of its steps: the compensation that comes back from
      there is acknowledged and lost. */
  lemma CompensationLost(id: Uuid)
    ensures var env := Env(CALM, None, true);
            var v := Deliver(env, Setting("seat"), Order(COMPLETE, id), FRESH).w;
            var r := Deliver(env, Setting("meal"), Order(FAILED, id), v);
            r.err.None? && r.w.calls == v.calls && News(v, r.w) == []
  {
    PrintParse(id);
    var env := Env(CALM, None, true);
    SeatIsSet(id);
    SharedKeyIff(env, Setting("seat"), Order(COMPLETE, id), FRESH, env, Setting("meal"), Order(FAILED, id));
  }
}
