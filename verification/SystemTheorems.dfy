/** The guarantees of the whole system, for every run from an empty database. */
module SystemTheorems {
  import opened Message
  import opened Uuid
  import opened Journal
  import opened Outbox
  import opened System
  import opened SystemSafety

  ghost predicate Inv(cfg: Config, s: State) {
    TxInv(cfg, s) && BrokerInv(cfg, s) && ReaderInv(cfg, s)
  }

  lemma {:induction false} NoneInFlight(readers: nat, k: OutboxKey)
    ensures InFlight(seq(readers, _ => Poller([], None)), k) == 0
    ensures Awaiting(seq(readers, _ => Poller([], None)), k) == 0
    ensures Confirming(seq(readers, _ => Poller([], None)), k) == 0
  {
    if readers > 0 {
      var all := seq(readers, _ => Poller([], None));
      assert all[..readers - 1] == seq(readers - 1, _ => Poller([], None));
      NoneInFlight(readers - 1, k);
    }
  }

  lemma StartInv(cfg: Config, consumers: nat, readers: nat, business: Business)
    requires ConfigOk(cfg)
    ensures Inv(cfg, Start(consumers, readers, business))
  {
    var s := Start(consumers, readers, business);
    forall k ensures MeterOk(cfg, s, k) && MarkOk(s, k) { NoneInFlight(readers, k); }
  }

  lemma MoveInv(cfg: Config, s: State, m: Move)
    requires ConfigOk(cfg) && Inv(cfg, s) && Do(cfg, s, m).Some?
    ensures Inv(cfg, Do(cfg, s, m).value)
  {
    BrokerKeeps(cfg, s, m);
    ReaderKeeps(cfg, s, m);
    match m
    case OnTx(c, op) => TxKeeps(cfg, s, c, op);
    case OnReader(r, op) => ReaderFrame(cfg, s, r, op);
    case _ =>
  }

  /** What every move keeps, every run keeps. */
  lemma {:induction false} RunKeeps(cfg: Config, P: State -> bool, s: State, ms: seq<Move>)
    requires forall x, m | P(x) && Do(cfg, x, m).Some? :: P(Do(cfg, x, m).value)
    requires P(s) && Exec(cfg, s, ms).Some?
    ensures P(Exec(cfg, s, ms).value)
    decreases |ms|
  {
    if ms != [] { RunKeeps(cfg, P, Do(cfg, s, ms[0]).value, ms[1..]); }
  }

  lemma ExecInv(cfg: Config, s: State, ms: seq<Move>)
    requires ConfigOk(cfg) && Inv(cfg, s) && Exec(cfg, s, ms).Some?
    ensures Inv(cfg, Exec(cfg, s, ms).value)
  {
    var P := (x: State) => Inv(cfg, x);
    forall x, m | P(x) && Do(cfg, x, m).Some? ensures P(Do(cfg, x, m).value) { MoveInv(cfg, x, m); }
    RunKeeps(cfg, P, s, ms);
  }

  /** A state some run from an empty database ends in. */
  ghost predicate Reachable(cfg: Config, s: State) {
    exists consumers, readers, business, ms :: Exec(cfg, Start(consumers, readers, business), ms) == Some(s)
  }

  lemma ReachableInv(cfg: Config, s: State)
    requires ConfigOk(cfg) && Reachable(cfg, s)
    ensures Inv(cfg, s)
  {
    var consumers, readers, business, ms :| Exec(cfg, Start(consumers, readers, business), ms) == Some(s);
    StartInv(cfg, consumers, readers, business);
    ExecInv(cfg, Start(consumers, readers, business), ms);
  }

  /** In every interleaving at most one transaction claims (saga, step), and the key is in the inbox iff one did. */
  lemma AtMostOneEffect(cfg: Config, s: State, k: InboxKey)
    requires ConfigOk(cfg) && Reachable(cfg, s)
    ensures k in s.db.inbox <==> exists i | 0 <= i < |s.db.journal| :: s.db.journal[i].claim == Some(k)
    ensures forall i, j | 0 <= i < j < |s.db.journal| ::
              !(s.db.journal[i].claim == Some(k) && s.db.journal[j].claim == Some(k))
    ensures forall i | 0 <= i < |s.db.journal| && s.db.journal[i].plan.claims ::
              s.db.journal[i].claim.Some? && s.db.journal[i].claim == KeyFor(s.db.journal[i].plan)
  {
    ReachableInv(cfg, s);
    AtMostOnce(s.db, k);
    forall i | 0 <= i < |s.db.journal| && s.db.journal[i].plan.claims
      ensures s.db.journal[i].claim.Some? && s.db.journal[i].claim == KeyFor(s.db.journal[i].plan)
    {
      assert BundleOk(cfg, s.db.journal[i], s.causes[i]);
    }
  }

  /** Whatever is delivered came from another service, or decodes from a row committed with all its sibling rows. */
  lemma NoOrphanDelivery(cfg: Config, s: State, d: Delivery)
    requires ConfigOk(cfg) && Reachable(cfg, s) && d in s.broker && d !in s.foreign
    ensures exists k, i | k in s.db.outbox && 0 <= i < |s.db.journal| ::
              && d == Delivery(k.topic, Decoded(k, s.db.outbox[k]))
              && k in s.db.journal[i].rows
              && (forall t | t in s.db.journal[i].plan.topics ::
                    OutboxKey(k.saga, t, s.db.journal[i].plan.phase) in s.db.outbox)
  {
    ReachableInv(cfg, s);
    assert Origin(cfg, s, d);
    var k :| k in s.db.outbox && d == Outgoing(s, k);
    NoOrphanRow(s.db, k);
    var i :| 0 <= i < |s.db.journal| && k in s.db.journal[i].rows
             && forall x | x in s.db.journal[i].rows :: x in s.db.outbox;
    var b := s.db.journal[i];
    assert BundleOk(cfg, b, s.causes[i]);
    forall t | t in b.plan.topics ensures OutboxKey(k.saga, t, b.plan.phase) in s.db.outbox {
      assert OutboxKey(k.saga, t, b.plan.phase) in KeysFor(b.plan, b.msg, b.plan.topics);
    }
  }

  /** Without locks R readers publish a row at most maxAttempts - 1 + R times, plus lost updates;
      each mark has its own success. */
  lemma BoundedPublishing(cfg: Config, s: State, k: OutboxKey)
    requires ConfigOk(cfg) && Reachable(cfg, s)
    ensures var m := MeterOf(s, k);
            && m.attempts + m.marks + InFlight(s.readers, k) <= cfg.maxAttempts - 1 + |s.readers|
            && m.publishes <= cfg.maxAttempts - 1 + |s.readers| + m.lost
            && m.marks <= m.oks <= m.publishes
            && (m.marks > 0 ==> k in s.db.outbox && Outgoing(s, k) in s.sent)
  {
    ReachableInv(cfg, s);
    assert MeterOk(cfg, s, k) && MarkOk(s, k);
    forall r | 0 <= r < |s.readers| ensures Holds(s.readers[r], k) <= 1 {
      assert ReaderOk(s, s.readers[r]);
      HoldsOne(s, s.readers[r], k);
    }
    AtMostOneEach(s.readers, k);
  }

  /** Only committed rows have counters. */
  ghost predicate Metered(cfg: Config, s: State) {
    Inv(cfg, s) && forall k | k !in s.db.outbox :: MeterOf(s, k) == Meter(0, 0, 0, 0, 0)
  }

  /** A move changes counters of committed rows only. */
  lemma MoveMeters(cfg: Config, s: State, m: Move, k: OutboxKey)
    requires Inv(cfg, s) && Do(cfg, s, m).Some?
    ensures var n := Do(cfg, s, m).value;
            && MeterOf(s, k).attempts <= MeterOf(n, k).attempts && MeterOf(s, k).marks <= MeterOf(n, k).marks
            && (k !in s.db.outbox ==> MeterOf(n, k) == MeterOf(s, k))
  {
    match m
    case OnTx(c, op) => TxFrame(cfg, s, c, op);
    case OnReader(r, op) => ReaderMeters(cfg, s, r, op, k);
    case _ =>
  }

  lemma ReaderMeters(cfg: Config, s: State, r: nat, op: ReaderOp, k: OutboxKey)
    requires r < |s.readers| && ReaderOk(s, s.readers[r]) && ReaderStep(cfg, s, r, op).Some?
    ensures var n := ReaderStep(cfg, s, r, op).value;
            && MeterOf(s, k).attempts <= MeterOf(n, k).attempts && MeterOf(s, k).marks <= MeterOf(n, k).marks
            && (k !in s.db.outbox ==> MeterOf(n, k) == MeterOf(s, k))
  {
  }

  lemma MoveMetered(cfg: Config, s: State, m: Move)
    requires ConfigOk(cfg) && Metered(cfg, s) && Do(cfg, s, m).Some?
    ensures Metered(cfg, Do(cfg, s, m).value)
  {
    MoveInv(cfg, s, m);
    MoveIsLater(cfg, s, m);
    var n := Do(cfg, s, m).value;
    forall k | k !in n.db.outbox ensures MeterOf(n, k) == Meter(0, 0, 0, 0, 0) { MoveMeters(cfg, s, m, k); }
  }

  /** A row that is not committed yet was never published, and has no attempts and no marks. */
  lemma FreshRow(cfg: Config, s: State, k: OutboxKey)
    requires ConfigOk(cfg) && Reachable(cfg, s) && k !in s.db.outbox
    ensures MeterOf(s, k) == Meter(0, 0, 0, 0, 0)
  {
    var consumers, readers, business, ms :| Exec(cfg, Start(consumers, readers, business), ms) == Some(s);
    StartInv(cfg, consumers, readers, business);
    var P := (x: State) => Metered(cfg, x);
    forall x, m | P(x) && Do(cfg, x, m).Some? ensures P(Do(cfg, x, m).value) { MoveMetered(cfg, x, m); }
    RunKeeps(cfg, P, Start(consumers, readers, business), ms);
  }

  ghost predicate MetersGrow(s: State, n: State) {
    forall k :: MeterOf(s, k).attempts <= MeterOf(n, k).attempts && MeterOf(s, k).marks <= MeterOf(n, k).marks
  }

  ghost predicate Onward(cfg: Config, s: State, n: State) {
    Inv(cfg, n) && Later(s, n) && MetersGrow(s, n)
  }

  lemma MoveOnward(cfg: Config, s: State, x: State, m: Move)
    requires ConfigOk(cfg) && Onward(cfg, s, x) && Do(cfg, x, m).Some?
    ensures Onward(cfg, s, Do(cfg, x, m).value)
  {
    var n := Do(cfg, x, m).value;
    MoveIsLater(cfg, x, m);
    forall k ensures MeterOf(x, k).attempts <= MeterOf(n, k).attempts && MeterOf(x, k).marks <= MeterOf(n, k).marks {
      MoveMeters(cfg, x, m, k);
    }
    MoveInv(cfg, x, m);
    LaterThen(s, x, Do(cfg, x, m).value);
  }

  lemma LaterThen(s: State, n: State, x: State)
    requires Later(s, n) && Later(n, x) && MetersGrow(s, n) && MetersGrow(n, x)
    ensures Later(s, x) && MetersGrow(s, x)
  {
  }

  /** From any reachable state on, no row is deleted or changed, and no attempt or mark is taken back. */
  lemma NothingUndone(cfg: Config, s: State, ms: seq<Move>)
    requires ConfigOk(cfg) && Reachable(cfg, s) && Exec(cfg, s, ms).Some?
    ensures Later(s, Exec(cfg, s, ms).value) && MetersGrow(s, Exec(cfg, s, ms).value)
  {
    ReachableInv(cfg, s);
    var P := (x: State) => Onward(cfg, s, x);
    forall x, m | P(x) && Do(cfg, x, m).Some? ensures P(Do(cfg, x, m).value) { MoveOnward(cfg, s, x, m); }
    RunKeeps(cfg, P, s, ms);
  }

  // ---- phases ----

  /** Every row is execute exactly when its message is, and names the step that wrote it. */
  lemma RowPhase(cfg: Config, s: State, k: OutboxKey)
    requires ConfigOk(cfg) && Reachable(cfg, s) && k in s.db.outbox
    ensures var row := s.db.outbox[k];
            && (k.phase == Execute <==> row.msg.kind == COMPLETE)
            && (k.phase == Compensate <==> row.msg.kind == FAILED)
            && row.msg.from == row.step && row.step != ""
            && Parse(row.msg.saga) == Some(k.saga)
  {
    ReachableInv(cfg, s);
    RowIsOk(cfg, s, k);
  }

  /** Transaction j was caused by a message that transaction i put into the outbox. */
  ghost predicate Causes(s: State, i: nat, j: nat)
    requires |s.causes| == |s.db.journal|
  {
    && i < |s.causes| && j < |s.causes|
    && exists k :: k in s.db.journal[i].rows && s.causes[j] == Some(Decoded(k, s.db.journal[i].rows[k]))
  }

  ghost predicate Descends(s: State, path: seq<nat>)
    requires |s.causes| == |s.db.journal|
  {
    && path != [] && path[0] < |s.causes|
    && forall n | 0 <= n < |path| - 1 :: Causes(s, path[n], path[n + 1])
  }

  lemma CausedByFailure(cfg: Config, s: State, i: nat, j: nat)
    requires Inv(cfg, s) && Causes(s, i, j) && s.db.journal[i].plan.phase == Compensate
    ensures s.db.journal[j].plan.phase == Compensate
  {
    var k :| k in s.db.journal[i].rows && s.causes[j] == Some(Decoded(k, s.db.journal[i].rows[k]));
    assert BundleOk(cfg, s.db.journal[i], s.causes[i]) && BundleOk(cfg, s.db.journal[j], s.causes[j]);
  }

  lemma CompensateRows(cfg: Config, s: State, i: nat)
    requires Inv(cfg, s) && i < |s.db.journal| && s.db.journal[i].plan.phase == Compensate
    ensures forall k | k in s.db.journal[i].rows ::
              k.phase == Compensate && s.db.journal[i].rows[k].msg.kind == FAILED
  {
    assert BundleOk(cfg, s.db.journal[i], s.causes[i]);
  }

  lemma {:induction false} PathCompensates(cfg: Config, s: State, path: seq<nat>)
    requires Inv(cfg, s) && Descends(s, path)
    requires s.causes[path[0]].Some? && s.causes[path[0]].value.kind == FAILED
    ensures path[|path| - 1] < |s.db.journal| && s.db.journal[path[|path| - 1]].plan.phase == Compensate
    decreases |path|
  {
    var last := |path| - 1;
    if last == 0 {
      assert BundleOk(cfg, s.db.journal[path[0]], s.causes[path[0]]);
    } else {
      PathCompensates(cfg, s, path[..last]);
      assert Causes(s, path[last - 1], path[last - 1 + 1]);
      CausedByFailure(cfg, s, path[last - 1], path[last]);
    }
  }

  /** A saga never turns back: whatever descends from a failed message only ever sends failed messages. */
  lemma NeverTurnsBack(cfg: Config, s: State, path: seq<nat>)
    requires ConfigOk(cfg) && Reachable(cfg, s) && |s.causes| == |s.db.journal| && Descends(s, path)
    requires s.causes[path[0]].Some? && s.causes[path[0]].value.kind == FAILED
    ensures var last := path[|path| - 1];
            && last < |s.db.journal| && s.db.journal[last].plan.phase == Compensate
            && forall k | k in s.db.journal[last].rows ::
                 k.phase == Compensate && s.db.journal[last].rows[k].msg.kind == FAILED
  {
    ReachableInv(cfg, s);
    PathCompensates(cfg, s, path);
    CompensateRows(cfg, s, path[|path| - 1]);
  }

  // ---- termination of sagas ----

  ghost predicate Room(cfg: Config, db: Db, saga: Uuid) {
    Moves(db.journal, saga) + Remaining(db, saga, cfg.senders, cfg.topics) <= |cfg.senders| + 2 * |cfg.topics|
  }

  lemma CommitRoom(cfg: Config, s: State, c: nat, op: TxOp, saga: Uuid)
    requires Inv(cfg, s) && Room(cfg, s.db, saga) && c < |s.txs| && op.Commit? && TxStep(cfg, s, c, op).Some?
    ensures Room(cfg, TxStep(cfg, s, c, op).value.db, saga)
  {
    CommitKeeps(cfg, s, c, op);
    var n := TxStep(cfg, s, c, op).value;
    var b := BundleOf(s.txs[c], op.at, op.before, op.business);
    assert n.db == Apply(s.db, b) && n.db.journal == s.db.journal + [b];
    assert n.db.journal[..|n.db.journal| - 1] == s.db.journal;
    BundleWithin(cfg, n, |s.db.journal|);
    ApplyLowersRemaining(s.db, b, saga, cfg.senders, cfg.topics);
  }

  lemma OnlyCommitWrites(cfg: Config, s: State, m: Move)
    requires Do(cfg, s, m).Some? && !(m.OnTx? && m.op.Commit?)
    ensures Do(cfg, s, m).value.db == s.db
  {
    match m
    case OnTx(c, op) => TxFrame(cfg, s, c, op);
    case OnReader(r, op) => ReaderFrame(cfg, s, r, op);
    case _ =>
  }

  lemma BundleWithin(cfg: Config, s: State, i: nat)
    requires TxInv(cfg, s) && i < |s.db.journal|
    ensures Within(s.db.journal[i], cfg.senders, cfg.topics)
  {
    assert BundleOk(cfg, s.db.journal[i], s.causes[i]);
  }

  ghost predicate Roomy(cfg: Config, s: State, saga: Uuid) {
    Inv(cfg, s) && Room(cfg, s.db, saga)
  }

  lemma MoveRoomy(cfg: Config, s: State, m: Move, saga: Uuid)
    requires ConfigOk(cfg) && Roomy(cfg, s, saga) && Do(cfg, s, m).Some?
    ensures Roomy(cfg, Do(cfg, s, m).value, saga)
  {
    MoveInv(cfg, s, m);
    if m.OnTx? && m.op.Commit? { CommitRoom(cfg, s, m.c, m.op, saga); } else { OnlyCommitWrites(cfg, s, m); }
  }

  lemma ExecRoomy(cfg: Config, s: State, ms: seq<Move>, saga: Uuid)
    requires ConfigOk(cfg) && Roomy(cfg, s, saga) && Exec(cfg, s, ms).Some?
    ensures Roomy(cfg, Exec(cfg, s, ms).value, saga)
  {
    var P := (x: State) => Roomy(cfg, x, saga);
    forall x, m | P(x) && Do(cfg, x, m).Some? ensures P(Do(cfg, x, m).value) { MoveRoomy(cfg, x, m, saga); }
    RunKeeps(cfg, P, s, ms);
  }

  lemma StartRoom(cfg: Config, consumers: nat, readers: nat, business: Business, saga: Uuid)
    ensures Room(cfg, Start(consumers, readers, business).db, saga)
  {
    var db := Start(consumers, readers, business).db;
    assert InboxNames(db, saga) == {} &&
           OutboxTopics(db, saga, Execute) == {} && OutboxTopics(db, saga, Compensate) == {};
    assert cfg.senders - {} == cfg.senders && cfg.topics - {} == cfg.topics;
  }

  /** However topics are routed, cycles included, one saga commits at most |steps| + 2 * |topics| transactions here. */
  lemma FiniteSagas(cfg: Config, s: State, saga: Uuid)
    requires ConfigOk(cfg) && Reachable(cfg, s)
    ensures Moves(s.db.journal, saga) <= |cfg.senders| + 2 * |cfg.topics|
  {
    var consumers, readers, business, ms :| Exec(cfg, Start(consumers, readers, business), ms) == Some(s);
    StartInv(cfg, consumers, readers, business);
    StartRoom(cfg, consumers, readers, business, saga);
    ExecRoomy(cfg, Start(consumers, readers, business), ms, saga);
  }

  /** Every transaction with a claim or a topic is among those counted for its saga. */
  lemma KeyedBundleCounts(cfg: Config, s: State, i: nat)
    requires ConfigOk(cfg) && Reachable(cfg, s) && i < |s.db.journal| && Keyed(s.db.journal[i].plan)
    ensures Parse(s.db.journal[i].msg.saga).Some? && Touches(s.db.journal[i], Parse(s.db.journal[i].msg.saga).value)
  {
    ReachableInv(cfg, s);
    var b := s.db.journal[i];
    assert BundleOk(cfg, b, s.causes[i]);
    assert b.msg.saga == b.plan.msg.saga;
    if !b.plan.claims {
      var saga := Parse(b.msg.saga).value;
      assert OutboxKey(saga, b.plan.topics[0], b.plan.phase) in KeysFor(b.plan, b.msg, b.plan.topics);
    }
  }

  /** What can go wrong can go wrong at any time: the broker loses a message or brings it once more,
      another service sends one, a transaction is rolled back, a reader crashes with its batch or skips a row. */
  lemma FaultsArePossible(cfg: Config, s: State, d: Delivery, c: nat, r: nat)
    ensures Do(cfg, s, Drop(d)).Some? && Do(cfg, s, Drop(d)).value == s.(broker := s.broker - {d})
    ensures SenderOk(cfg, d.msg) ==>
              && Do(cfg, s, FromElsewhere(d)).Some?
              && Do(cfg, s, FromElsewhere(d)).value ==
                 s.(broker := s.broker + {d}, sent := s.sent + {d}, foreign := s.foreign + {d})
    ensures c < |s.txs| && s.txs[c].Idle? && Available(cfg, s, Broker(d)) && d.msg.kind in {"execute", "failed"} ==>
              && Do(cfg, s, OnTx(c, Begin(Broker(d)))).Some?
              && d in Do(cfg, s, OnTx(c, Begin(Broker(d)))).value.broker
    ensures c < |s.txs| && s.txs[c].Open? ==>
              Do(cfg, s, OnTx(c, Abort)).Some? && Do(cfg, s, OnTx(c, Abort)).value == s.(txs := s.txs[c := Idle])
    ensures r < |s.readers| ==>
              && Do(cfg, s, OnReader(r, CrashReader)).Some?
              && var n := Do(cfg, s, OnReader(r, CrashReader)).value;
                 && n.readers == s.readers[r := Poller([], None)] && n.db == s.db && n.sent == s.sent
                 && (s.readers[r].waiting.Some? ==>
                       var k := s.readers[r].waiting.value.0;
                       MeterOf(n, k) == MeterOf(s, k).(lost := MeterOf(s, k).lost + 1))
    ensures r < |s.readers| && s.readers[r].waiting.None? && s.readers[r].batch != [] ==>
              && Do(cfg, s, OnReader(r, Skip)).Some?
              && Do(cfg, s, OnReader(r, Skip)).value ==
                 s.(readers := s.readers[r := Poller(s.readers[r].batch[1..], None)])
  {
  }
}
