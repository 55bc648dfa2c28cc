/** The publishing bound is exact: a run in which R readers race for one row reaches it. */
module ReaderRace {
  import opened Message
  import opened Uuid
  import opened Journal
  import opened System
  import opened SystemSafety
  import opened SystemTheorems
  import opened Refinement

  ghost predicate AllIdle(s: State) {
    forall r | 0 <= r < |s.readers| :: s.readers[r] == Poller([], None)
  }

  /** The state differs from s at most in what the broker holds, the readers and the counters. */
  ghost predicate Beside(s: State, n: State) {
    n.db == s.db && n.txs == s.txs && |n.readers| == |s.readers|
  }

  lemma Then(cfg: Config, s: State, ms: seq<Move>, n: State, m: Move) returns (more: seq<Move>)
    requires Exec(cfg, s, ms) == Some(n) && Do(cfg, n, m).Some?
    ensures Exec(cfg, s, more) == Do(cfg, n, m)
  {
    ExecAppend(cfg, s, ms, [m]);
    ExecOne(cfg, n, m);
    more := ms + [m];
  }

  /** One reader scans the row, fails to publish it, and counts the attempt. */
  lemma FailOnce(cfg: Config, s: State, k: OutboxKey) returns (ms: seq<Move>, n: State)
    requires |s.readers| > 0 && AllIdle(s) && Eligible(cfg, s, k)
    ensures Exec(cfg, s, ms) == Some(n) && Beside(s, n) && AllIdle(n)
    ensures var m := MeterOf(s, k); MeterOf(n, k) == m.(attempts := m.attempts + 1, publishes := m.publishes + 1)
  {
    var a := Do(cfg, s, OnReader(0, Scan([k]))).value;
    assert [k][1..] == [];
    var b := Do(cfg, a, OnReader(0, Publish(false, false))).value;
    n := Do(cfg, b, OnReader(0, Settle(true))).value;
    ms := Then(cfg, s, [], s, OnReader(0, Scan([k])));
    ms := Then(cfg, s, ms, a, OnReader(0, Publish(false, false)));
    ms := Then(cfg, s, ms, b, OnReader(0, Settle(true)));
  }

  lemma {:induction false} FailUntilLast(cfg: Config, s: State, k: OutboxKey) returns (ms: seq<Move>, n: State)
    requires |s.readers| > 0 && AllIdle(s) && Eligible(cfg, s, k)
    ensures Exec(cfg, s, ms) == Some(n) && Beside(s, n) && AllIdle(n)
    ensures var m := MeterOf(s, k);
            var left := cfg.maxAttempts - 1 - m.attempts;
            MeterOf(n, k) == m.(attempts := cfg.maxAttempts - 1, publishes := m.publishes + left)
    decreases cfg.maxAttempts - MeterOf(s, k).attempts
  {
    if MeterOf(s, k).attempts == cfg.maxAttempts - 1 {
      ms, n := [], s;
    } else {
      var x, mid := FailOnce(cfg, s, k);
      var y;
      y, n := FailUntilLast(cfg, mid, k);
      ms := x + y;
      ExecAppend(cfg, s, x, y);
    }
  }

  /** Readers 0..j have scanned the row, none has published it. */
  ghost predicate Loaded(s: State, k: OutboxKey, j: nat) {
    && j <= |s.readers|
    && forall r | 0 <= r < |s.readers| :: s.readers[r] == Poller(if r < j then [k] else [], None)
  }

  lemma {:induction false} ScanAll(cfg: Config, s: State, k: OutboxKey, j: nat) returns (ms: seq<Move>, n: State)
    requires Loaded(s, k, j) && Eligible(cfg, s, k)
    ensures Exec(cfg, s, ms) == Some(n) && Beside(s, n) && Loaded(n, k, |n.readers|) && MeterOf(n, k) == MeterOf(s, k)
    decreases |s.readers| - j
  {
    if j == |s.readers| {
      ms, n := [], s;
    } else {
      var m := OnReader(j, Scan([k]));
      var mid := Do(cfg, s, m).value;
      var x := Then(cfg, s, [], s, m);
      var y;
      y, n := ScanAll(cfg, mid, k, j + 1);
      ms := x + y;
      ExecAppend(cfg, s, x, y);
    }
  }

  /** Readers 0..j have published, the others still hold the row. */
  ghost predicate Published(s: State, k: OutboxKey, j: nat) {
    && j <= |s.readers| && k in s.db.outbox
    && forall r | j <= r < |s.readers| :: s.readers[r] == Poller([k], None)
  }

  lemma {:induction false} PublishAll(cfg: Config, s: State, k: OutboxKey, j: nat) returns (ms: seq<Move>, n: State)
    requires Published(s, k, j)
    ensures Exec(cfg, s, ms) == Some(n) && Beside(s, n)
    ensures var m := MeterOf(s, k);
            var left := |s.readers| - j;
            MeterOf(n, k) == m.(publishes := m.publishes + left, oks := m.oks + left)
    decreases |s.readers| - j
  {
    if j == |s.readers| {
      ms, n := [], s;
    } else {
      var m := OnReader(j, Publish(true, true));
      var mid := Do(cfg, s, m).value;
      var x := Then(cfg, s, [], s, m);
      var y;
      y, n := PublishAll(cfg, mid, k, j + 1);
      ms := x + y;
      ExecAppend(cfg, s, x, y);
    }
  }

  /** maxAttempts - 1 + R publishes of one row do happen, with no update lost. */
  lemma BoundIsReached(cfg: Config, s: State, k: OutboxKey) returns (ms: seq<Move>, n: State)
    requires cfg.maxAttempts > 0 && |s.readers| > 0 && AllIdle(s)
    requires k in s.db.outbox && MeterOf(s, k) == Meter(0, 0, 0, 0, 0)
    ensures Exec(cfg, s, ms) == Some(n)
    ensures MeterOf(n, k).publishes == cfg.maxAttempts - 1 + |n.readers| && MeterOf(n, k).lost == 0
  {
    var x, a := FailUntilLast(cfg, s, k);
    var y, b := ScanAll(cfg, a, k, 0);
    var z;
    z, n := PublishAll(cfg, b, k, 0);
    ms := x + y + z;
    ExecAppend(cfg, s, x, y);
    ExecAppend(cfg, s, x + y, z);
  }

  /** A saga is started here with one row to send, and then the readers race: the bound is attained
      in a reachable state. */
  lemma BoundIsAttained(id: Uuid, maxAttempts: nat, readers: nat) returns (cfg: Config, n: State, k: OutboxKey)
    requires maxAttempts > 0 && readers > 0
    ensures ConfigOk(cfg) && cfg.maxAttempts == maxAttempts && Reachable(cfg, n) && |n.readers| == readers
    ensures MeterOf(n, k).publishes == maxAttempts - 1 + readers && MeterOf(n, k).lost == 0
  {
    var route, msg := Route("pay", ["paid"], []), EMPTY.(saga := Print(id));
    cfg := Config(map[], {route}, {"pay"}, {"paid"}, maxAttempts);
    PrintParse(id);
    var s0 := Start(1, readers, map[]);
    var plan := StepPlan(true, route, msg, Execute);
    var sent := Addressed(plan, msg);
    k := OutboxKey(id, "paid", Execute);
    var b := Bundle(plan, None, 0, map[], sent, RowsFor(plan, sent, plan.topics), map[]);
    var ms := ReplayBundle(cfg, s0, 0, b, Begin(Local(route, msg)), None);
    var s := Exec(cfg, s0, ms).value;
    assert k in KeysFor(plan, sent, plan.topics);
    assert Reachable(cfg, s);
    var race;
    race, n := BoundIsReached(cfg, s, k);
    ReachableThen(cfg, s, race, n);
    ReadersStay(cfg, s, race);
  }

  lemma {:induction false} ReadersStay(cfg: Config, s: State, ms: seq<Move>)
    requires Exec(cfg, s, ms).Some?
    ensures |Exec(cfg, s, ms).value.readers| == |s.readers|
    decreases |ms|
  {
    if ms != [] {
      if ms[0].OnTx? { TxFrame(cfg, s, ms[0].c, ms[0].op); }
      if ms[0].OnReader? { ReaderFrame(cfg, s, ms[0].r, ms[0].rop); }
      ReadersStay(cfg, Do(cfg, s, ms[0]).value, ms[1..]);
    }
  }
}
