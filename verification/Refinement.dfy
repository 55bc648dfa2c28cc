/** Every run of the step executor is a run of the transition system, so the system's guarantees are the executor's. */
module Refinement {
  import opened Message
  import opened Uuid
  import opened Errors
  import opened Journal
  import opened ExecutorSpec
  import opened ExecutorOutcome
  import opened StepTheorems
  import opened Interference
  import opened System
  import opened SystemTheorems

  lemma {:induction false} ExecAppend(cfg: Config, s: State, x: seq<Move>, y: seq<Move>)
    requires Exec(cfg, s, x).Some?
    ensures Exec(cfg, s, x + y) == Exec(cfg, Exec(cfg, s, x).value, y)
    decreases |x|
  {
    if x == [] {
      assert x + y == y;
    } else {
      assert (x + y)[0] == x[0] && (x + y)[1..] == x[1..] + y;
      ExecAppend(cfg, Do(cfg, s, x[0]).value, x[1..], y);
    }
  }

  lemma ExecOne(cfg: Config, s: State, m: Move)
    ensures Exec(cfg, s, [m]) == Do(cfg, s, m)
  {
    assert [m][1..] == [];
  }

  /** No other consumer holds a pending key that the bundle needs; otherwise its inserts would have to wait. */
  ghost predicate Unblocked(s: State, i: nat, b: Bundle) {
    i < |s.txs| && forall d | 0 <= d < |s.txs| && d != i :: s.txs[d].Open? ==>
      && (b.claim.Some? ==> s.txs[d].claim != b.claim)
      && s.txs[d].rows.Keys !! b.rows.Keys
  }

  /** The transaction of bundle b after j of its rows. */
  function Staged(b: Bundle, cause: Option<Message>, j: nat): Session
    requires j <= |b.plan.topics|
  {
    Open(b.plan, cause, b.claim, Some(b.msg), RowsFor(b.plan, b.msg, b.plan.topics[..j]), j)
  }

  /** Row j of the bundle is new: not staged yet, not committed, and not pending elsewhere. */
  lemma RowIsNew(s: State, i: nat, b: Bundle, j: nat)
    requires Unblocked(s, i, b) && Sound(b) && Fits(s.db, b) && j < |b.plan.topics|
    ensures var k := OutboxKey(Parse(b.msg.saga).value, b.plan.topics[j], b.plan.phase);
            && Storable(b.msg) && k !in s.db.outbox && !RowHeld(s, i, k)
            && k !in RowsFor(b.plan, b.msg, b.plan.topics[..j]) && NoRepeat(b.plan.topics[..j])
  {
    var p := b.plan;
    var k := OutboxKey(Parse(b.msg.saga).value, p.topics[j], p.phase);
    assert k in KeysFor(p, b.msg, p.topics);
    assert k !in KeysFor(p, b.msg, p.topics[..j]) by {
      assert forall n | 0 <= n < j :: p.topics[..j][n] == p.topics[n];
    }
    assert k in b.rows;
  }

  lemma StageRow(cfg: Config, s: State, i: nat, b: Bundle, cause: Option<Message>, j: nat)
    requires Unblocked(s, i, b) && Sound(b) && Fits(s.db, b) && j < |b.plan.topics|
    requires s.txs[i] == Staged(b, cause, j)
    ensures TxStep(cfg, s, i, Insert) == Some(Put(s, i, Staged(b, cause, j + 1)))
  {
    RowIsNew(s, i, b, j);
    NextRow(b.plan, b.msg, j);
  }

  lemma {:induction false} StageAll(cfg: Config, s: State, i: nat, b: Bundle, cause: Option<Message>, j: nat)
    returns (ms: seq<Move>)
    requires Unblocked(s, i, b) && Sound(b) && Fits(s.db, b) && j <= |b.plan.topics|
    requires s.txs[i] == Staged(b, cause, j)
    ensures Exec(cfg, s, ms) == Some(Put(s, i, Staged(b, cause, |b.plan.topics|)))
    decreases |b.plan.topics| - j
  {
    if j == |b.plan.topics| {
      ms := [];
      assert s.txs[i := s.txs[i]] == s.txs;
    } else {
      StageRow(cfg, s, i, b, cause, j);
      var n := Put(s, i, Staged(b, cause, j + 1));
      var rest := StageAll(cfg, n, i, b, cause, j + 1);
      ms := [OnTx(i, Insert)] + rest;
      assert ms[1..] == rest;
      assert Put(n, i, Staged(b, cause, |b.plan.topics|)) == Put(s, i, Staged(b, cause, |b.plan.topics|));
    }
  }

  /** From a claimless, just opened transaction to the point where its rows can be staged. */
  lemma ReachBody(cfg: Config, s: State, i: nat, b: Bundle, cause: Option<Message>) returns (ms: seq<Move>)
    requires Unblocked(s, i, b) && Sound(b) && Fits(s.db, b) && s.txs[i] == Opened(b.plan, cause)
    ensures Exec(cfg, s, ms) == Some(Put(s, i, Staged(b, cause, 0)))
  {
    var t := Opened(b.plan, cause).(claim := b.claim);
    var n := Put(s, i, t);
    assert b.plan.topics[..0] == [];
    assert RowsFor(b.plan, b.msg, []) == map[];
    assert Put(n, i, Staged(b, cause, 0)) == Put(s, i, Staged(b, cause, 0));
    assert TxStep(cfg, n, i, Produce(b.msg)) == Some(Put(n, i, Staged(b, cause, 0)));
    ExecOne(cfg, n, OnTx(i, Produce(b.msg)));
    if b.plan.claims {
      assert TxStep(cfg, s, i, Claim) == Some(n);
      ms := [OnTx(i, Claim), OnTx(i, Produce(b.msg))];
      assert ms[1..] == [OnTx(i, Produce(b.msg))];
    } else {
      assert n == s by { assert s.txs[i := s.txs[i]] == s.txs; }
      ms := [OnTx(i, Produce(b.msg))];
    }
  }

  /** One committed bundle is a run: open, claim, body, rows, commit. */
  lemma ReplayBundle(cfg: Config, s: State, i: nat, b: Bundle, open: TxOp, cause: Option<Message>)
    returns (ms: seq<Move>)
    requires Unblocked(s, i, b) && s.txs[i].Idle? && Sound(b) && Fits(s.db, b)
    requires TxStep(cfg, s, i, open) == Some(Put(s, i, Opened(b.plan, cause)))
    ensures Exec(cfg, s, ms) == Some(s.(db := Apply(s.db, b), causes := s.causes + [cause]))
  {
    var full := |b.plan.topics|;
    var s1 := Put(s, i, Opened(b.plan, cause));
    var s2 := Put(s1, i, Staged(b, cause, 0));
    var s3 := Put(s2, i, Staged(b, cause, full));
    var commit := OnTx(i, Commit(b.at, b.before, b.business));
    ExecOne(cfg, s, OnTx(i, open));
    var x := ReachBody(cfg, s1, i, b, cause);
    var y := StageAll(cfg, s2, i, b, cause, 0);
    ms := [OnTx(i, open)] + x + y + [commit];
    ExecAppend(cfg, s, [OnTx(i, open)], x);
    ExecAppend(cfg, s, [OnTx(i, open)] + x, y);
    ExecAppend(cfg, s, [OnTx(i, open)] + x + y, [commit]);
    ExecOne(cfg, s3, commit);
    assert b.plan.topics[..full] == b.plan.topics;
    assert BundleOf(s3.txs[i], b.at, b.before, b.business) == b;
    assert s3.txs[i := Idle] == s.txs;
  }

  /** A bundle that the source can lead to: its own plan, or the failure event of an execution. */
  ghost predicate CalledFor(cfg: Config, src: Source, b: Bundle)
    requires src.Broker? ==> src.d.topic in cfg.routes
  {
    && PlanOf(cfg, src).Some?
    && (|| b.plan == PlanOf(cfg, src).value
        || (PlanOf(cfg, src).value.phase == Execute && RouteOf(cfg, src).errors != [] &&
            exists m :: b.plan == EventPlan(RouteOf(cfg, src), m)))
  }

  /** Someone connected to this state can commit the bundle: it is sound, and an available source calls for it. */
  ghost predicate Answered(cfg: Config, s: State, b: Bundle) {
    Sound(b) && exists src :: Available(cfg, s, src) && CalledFor(cfg, src, b)
  }

  lemma ReplayAnswered(cfg: Config, s: State, i: nat, b: Bundle) returns (ms: seq<Move>, n: State)
    requires Unblocked(s, i, b) && s.txs[i].Idle? && Fits(s.db, b) && Answered(cfg, s, b)
    ensures Exec(cfg, s, ms) == Some(n) && n == s.(db := Apply(s.db, b), causes := n.causes)
  {
    var src :| Available(cfg, s, src) && CalledFor(cfg, src, b);
    var open := Begin(src);
    if b.plan != PlanOf(cfg, src).value {
      var m :| b.plan == EventPlan(RouteOf(cfg, src), m);
      open := BeginEvent(src, m);
    }
    ms := ReplayBundle(cfg, s, i, b, open, CauseOf(src));
    n := Exec(cfg, s, ms).value;
  }

  /** Consumer i can replay the bundle from this state. */
  ghost predicate Replayable(cfg: Config, s: State, i: nat, b: Bundle) {
    Answered(cfg, s, b) && Unblocked(s, i, b)
  }

  lemma ReplayableStays(cfg: Config, s: State, n: State, i: nat, b: Bundle)
    requires Replayable(cfg, s, i, b) && n == s.(db := n.db, causes := n.causes)
    ensures Replayable(cfg, n, i, b)
  {
    var src :| Available(cfg, s, src) && CalledFor(cfg, src, b);
    assert Available(cfg, n, src);
  }

  lemma {:induction false} ReplayAll(cfg: Config, s: State, i: nat, bs: seq<Bundle>) returns (ms: seq<Move>, n: State)
    requires i < |s.txs| && s.txs[i].Idle? && Fitting(s.db, bs) && forall b | b in bs :: Replayable(cfg, s, i, b)
    ensures Exec(cfg, s, ms) == Some(n) && n == s.(db := ApplyAll(s.db, bs), causes := n.causes)
  {
    if bs == [] {
      ms, n := [], s;
    } else {
      var last := |bs| - 1;
      var x, mid := ReplayAll(cfg, s, i, bs[..last]);
      assert bs[last] in bs;
      ReplayableStays(cfg, s, mid, i, bs[last]);
      var y;
      y, n := ReplayAnswered(cfg, mid, i, bs[last]);
      ms := x + y;
      ExecAppend(cfg, s, x, y);
    }
  }

  ghost function ReplayableIn(cfg: Config, s: State, i: nat): Bundle -> bool {
    (b: Bundle) => Replayable(cfg, s, i, b)
  }

  lemma ReplayTrail(cfg: Config, s: State, i: nat, db: Db) returns (ms: seq<Move>, n: State)
    requires i < |s.txs| && s.txs[i].Idle? && Trail(s.db, db, ReplayableIn(cfg, s, i))
    ensures Exec(cfg, s, ms) == Some(n) && n == s.(db := db, causes := n.causes)
  {
    var bs :| Follows(s.db, bs, db, ReplayableIn(cfg, s, i));
    forall b | b in bs ensures Replayable(cfg, s, i, b) { assert ReplayableIn(cfg, s, i)(b); }
    ms, n := ReplayAll(cfg, s, i, bs);
  }

  /** A bundle that the step can commit for the message. */
  ghost predicate Wanted(env: Env, stp: Step, msg: Message, b: Bundle) {
    || MainBundle(env, stp, msg, b)
    || FailureBundle(stp, msg, b)
    || CompensateBundle(env, stp, msg, b)
  }

  /** Consumer i is idle, what others commit can be replayed, and no pending key of others is wanted here. */
  ghost predicate Ready(env: Env, stp: Step, msg: Message, cfg: Config, s: State, i: nat) {
    && i < |s.txs| && s.txs[i].Idle?
    && OthersAre(env, ReplayableIn(cfg, s, i))
    && forall b | Wanted(env, stp, msg, b) :: Unblocked(s, i, b)
  }

  /** An execution is a run of the system ending in the same database, commits of other replicas included. */
  lemma ExecuteIsRun(env: Env, stp: Step, msg: Message, w: World, cfg: Config, s: State, i: nat, src: Source)
    returns (ms: seq<Move>, n: State)
    requires Ready(env, stp, msg, cfg, s, i) && s.db == w.db && Available(cfg, s, src)
    requires RouteOf(cfg, src) == stp.route && PlanOf(cfg, src) == Some(ExecutePlan(env, stp, msg))
    ensures Exec(cfg, s, ms) == Some(n) && n == s.(db := ExecuteStep(env, stp, msg, w).w.db, causes := n.causes)
  {
    var G := ReplayableIn(cfg, s, i);
    forall b | MainBundle(env, stp, msg, b) || FailureBundle(stp, msg, b) ensures G(b) {
      assert Sound(b) && CalledFor(cfg, src, b) && Wanted(env, stp, msg, b);
    }
    ExecuteTrail(env, stp, msg, w, G);
    ms, n := ReplayTrail(cfg, s, i, ExecuteStep(env, stp, msg, w).w.db);
  }

  lemma CompensateIsRun(env: Env, stp: Step, msg: Message, w: World, cfg: Config, s: State, i: nat, src: Source)
    returns (ms: seq<Move>, n: State)
    requires Ready(env, stp, msg, cfg, s, i) && s.db == w.db && Available(cfg, s, src)
    requires PlanOf(cfg, src) == Some(CompensatePlan(env, stp, msg))
    ensures Exec(cfg, s, ms) == Some(n) && n == s.(db := CompensateStep(env, stp, msg, w).w.db, causes := n.causes)
  {
    var G := ReplayableIn(cfg, s, i);
    forall b | CompensateBundle(env, stp, msg, b) ensures G(b) {
      assert Sound(b) && CalledFor(cfg, src, b) && Wanted(env, stp, msg, b);
    }
    CompensateTrail(env, stp, msg, w, G);
    ms, n := ReplayTrail(cfg, s, i, CompensateStep(env, stp, msg, w).w.db);
  }

  /** The database a delivery leaves is one the system can reach, with retries, fallbacks and other replicas at work. */
  lemma DeliveryStaysReachable(env: Env, stp: Step, d: Delivery, w: World, cfg: Config, s: State, i: nat)
    returns (n: State)
    requires Ready(env, stp, d.msg, cfg, s, i) && env.dedup && s.db == w.db
    requires d in s.broker && d.topic in cfg.routes && cfg.routes[d.topic] == stp.route
    requires Reachable(cfg, s)
    ensures Reachable(cfg, n) && n == s.(db := Deliver(env, stp, d.msg, w).w.db, causes := n.causes)
  {
    var ms: seq<Move> := [];
    n := s;
    if d.msg.kind == COMPLETE {
      ms, n := ExecuteIsRun(env, stp, d.msg, w, cfg, s, i, Source.Broker(d));
    } else if d.msg.kind == FAILED {
      ms, n := CompensateIsRun(env, stp, d.msg, w, cfg, s, i, Source.Broker(d));
    }
    ReachableThen(cfg, s, ms, n);
  }

  // ---- sagas started in this process ----

  /** Where a step has no next topics, its user code chooses the sender of the result: it must be
      empty or a known name. */
  ghost predicate SendsAsKnown(cfg: Config, stp: Step) {
    stp.route.next == [] ==>
      && (forall t, tables, m :: var o := stp.execute(t, tables, m); o.Done? ==> SenderOk(cfg, o.msg))
      && (stp.onError.Some? ==> forall t, tables, m, cause: ForeignErr ::
            var o := stp.onError.value(t, tables, m, cause); o.Done? ==> SenderOk(cfg, o.msg))
  }

  lemma MainSender(env: Env, stp: Step, msg: Message, cfg: Config, b: Bundle)
    requires RouteOk(cfg, stp.route) && SendsAsKnown(cfg, stp) && MainBundle(env, stp, msg, b)
    ensures SenderOk(cfg, b.msg) && b.msg.saga == msg.saga
  {
    var p := ExecutePlan(env, stp, msg);
    if Made(Job(p, Act(stp.execute)), b) {
      assert b.msg == Addressed(p, stp.execute(b.at, b.before, msg).msg);
    } else {
      var cause :| Made(Job(p, Handle(stp.onError.value, cause)), b);
      assert Foreign(cause) && b.msg == Addressed(p, stp.onError.value(b.at, b.before, msg, cause).msg);
    }
  }

  lemma PhaseSender(env: Env, stp: Step, msg: Message, v: World, w: World, out: Message, cfg: Config)
    requires RouteOk(cfg, stp.route) && SendsAsKnown(cfg, stp) && MainPhase(env, stp, msg, v, w, out, None)
    ensures SenderOk(cfg, out) && out.saga == msg.saga
  {
    var news := News(v, w);
    assert news[|news| - 1] in news;
    MainSender(env, stp, msg, cfg, news[|news| - 1]);
  }

  lemma OutSender(env: Env, stp: Step, msg: Message, w: World, cfg: Config)
    requires RouteOk(cfg, stp.route) && SendsAsKnown(cfg, stp)
    ensures var out := ExecuteStep(env, stp, msg, w).out; SenderOk(cfg, out) && (out.saga == msg.saga || out.saga == "")
  {
    var p := ExecutePlan(env, stp, msg);
    var r := UserRun(env, Job(p, Act(stp.execute)), stp.retry, w);
    ActionPhase(env, stp, msg, w);
    if r.err.None? {
      PhaseSender(env, stp, msg, w, r.w, r.out, cfg);
    } else if stp.onError.Some? {
      HandlerPhase(env, stp, msg, w, r.w, r.out, r.err.value);
      var h := InfraRun(env, Job(p, Handle(stp.onError.value, r.err.value)), r.w);
      if h.err.None? { PhaseSender(env, stp, msg, w, h.w, h.out, cfg); }
    }
  }

  /** Consumer i can run every step of the chain on the messages of its saga, and on the empty message. */
  ghost predicate ChainReady(env: Env, steps: seq<Step>, saga: string, cfg: Config, s: State, i: nat) {
    && i < |s.txs| && s.txs[i].Idle?
    && (forall j | 0 <= j < |steps| ::
          steps[j].route in cfg.local && RouteOk(cfg, steps[j].route) && SendsAsKnown(cfg, steps[j]))
    && (forall j, m: Message | 0 <= j < |steps| && (m.saga == saga || m.saga == "") ::
          Ready(env, steps[j], m, cfg, s, i))
  }

  lemma ReadyStays(env: Env, stp: Step, m: Message, cfg: Config, s: State, n: State, i: nat)
    requires Ready(env, stp, m, cfg, s, i) && n == s.(db := n.db, causes := n.causes)
    ensures Ready(env, stp, m, cfg, n, i)
  {
    forall t, b | b in env.oracle.others(t) ensures ReplayableIn(cfg, n, i)(b) {
      assert ReplayableIn(cfg, s, i)(b);
      ReplayableStays(cfg, s, n, i, b);
    }
    forall b | Wanted(env, stp, m, b) ensures Unblocked(n, i, b) { assert Unblocked(s, i, b); }
  }

  lemma ChainReadyStays(env: Env, steps: seq<Step>, saga: string, cfg: Config, s: State, n: State, i: nat)
    requires steps != [] && ChainReady(env, steps, saga, cfg, s, i) && n == s.(db := n.db, causes := n.causes)
    ensures ChainReady(env, steps[1..], saga, cfg, n, i)
  {
    forall j, m: Message | 0 <= j < |steps[1..]| && (m.saga == saga || m.saga == "")
      ensures Ready(env, steps[1..][j], m, cfg, n, i)
    {
      assert Ready(env, steps[j + 1], m, cfg, s, i);
      ReadyStays(env, steps[j + 1], m, cfg, s, n, i);
    }
    forall j | 0 <= j < |steps[1..]|
      ensures var stp := steps[1..][j]; stp.route in cfg.local && RouteOk(cfg, stp.route) && SendsAsKnown(cfg, stp)
    {
      assert steps[1..][j] == steps[j + 1];
    }
  }

  /** A chain is a run of the system: every step is a local source with the message that the step before returned. */
  lemma {:induction false} ChainIsRun(env: Env, steps: seq<Step>, msg: Message, w: World, cfg: Config, s: State, i: nat,
                                      saga: string) returns (ms: seq<Move>, n: State)
    requires env.dedup && s.db == w.db && ChainReady(env, steps, saga, cfg, s, i)
    requires SenderOk(cfg, msg) && (msg.saga == saga || msg.saga == "")
    ensures Exec(cfg, s, ms) == Some(n) && n == s.(db := Chain(env, steps, msg, w).w.db, causes := n.causes)
    decreases |steps|
  {
    if steps == [] {
      ms, n := [], s;
    } else {
      var stp := steps[0];
      assert Ready(env, stp, msg, cfg, s, i);
      var r := ExecuteStep(env, stp, msg, w);
      ms, n := ExecuteIsRun(env, stp, msg, w, cfg, s, i, Local(stp.route, msg));
      if r.err.None? {
        OutSender(env, stp, msg, w, cfg);
        ChainReadyStays(env, steps, saga, cfg, s, n, i);
        var y, x := ChainIsRun(env, steps[1..], r.out, r.w, cfg, n, i, saga);
        ExecAppend(cfg, s, ms, y);
        ms, n := ms + y, x;
      }
    }
  }

  /** What a saga started in this process leaves is a reachable database too. */
  lemma StartStaysReachable(env: Env, steps: seq<Step>, id: Uuid, msg: Message, w: World, cfg: Config, s: State, i: nat)
    returns (n: State)
    requires env.dedup && s.db == w.db && ChainReady(env, steps, Print(id), cfg, s, i) && SenderOk(cfg, msg)
    requires Reachable(cfg, s)
    ensures Reachable(cfg, n) && n == s.(db := StartSaga(env, steps, id, msg, w).w.db, causes := n.causes)
  {
    n := s;
    if steps != [] {
      var ms;
      ms, n := ChainIsRun(env, steps, msg.(saga := Print(id)), w, cfg, s, i, Print(id));
      ReachableThen(cfg, s, ms, n);
    }
  }

  ghost predicate Reaches(cfg: Config, s: State, n: State) {
    exists ms :: Exec(cfg, s, ms) == Some(n)
  }

  lemma ReachesNone(cfg: Config, s: State)
    ensures Reaches(cfg, s, s)
  {
    assert Exec(cfg, s, []) == Some(s);
  }

  lemma ReachesThen(cfg: Config, s: State, n: State, ms: seq<Move>, x: State)
    requires Reaches(cfg, s, n) && Exec(cfg, n, ms) == Some(x)
    ensures Reaches(cfg, s, x)
  {
    var before :| Exec(cfg, s, before) == Some(n);
    ExecAppend(cfg, s, before, ms);
  }

  lemma ReachableThen(cfg: Config, s: State, ms: seq<Move>, n: State)
    requires Reachable(cfg, s) && Exec(cfg, s, ms) == Some(n)
    ensures Reachable(cfg, n)
  {
    var consumers, readers, business, before :| Exec(cfg, Start(consumers, readers, business), before) == Some(s);
    ExecAppend(cfg, Start(consumers, readers, business), before, ms);
  }
}
