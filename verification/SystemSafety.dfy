/** What holds in every reachable state of the system. */
module SystemSafety {
  import opened Message
  import opened Uuid
  import opened Journal
  import opened System

  // ---- transactions: pending index entries are exclusive, so every commit fits ----

  ghost predicate PlanOk(cfg: Config, p: Plan, cause: Option<Message>) {
    && p.step != "" && p.step in cfg.senders
    && (forall t | t in p.topics :: t in cfg.topics)
    && p.kind == (if p.phase.Execute? then COMPLETE else FAILED)
    && (p.claims ==> p.msg.from in cfg.senders)
    && (cause.Some? && cause.value.kind == FAILED ==> p.phase.Compensate?)
  }

  ghost predicate TxOk(cfg: Config, db: Db, t: Session) {
    t.Open? ==>
      && PlanOk(cfg, t.plan, t.cause)
      && (t.claim.Some? ==> t.claim == KeyFor(t.plan) && t.claim.value !in db.inbox)
      && (!t.plan.claims ==> t.claim.None?)
      && t.rows.Keys !! db.outbox.Keys
      && t.written <= |t.plan.topics|
      && (t.result.None? ==> t.written == 0 && t.rows == map[])
      && (t.result.Some? ==>
            && (t.plan.claims ==> t.claim.Some?)
            && t.result.value == Addressed(t.plan, t.result.value)
            && (t.written > 0 ==> Storable(t.result.value))
            && NoRepeat(t.plan.topics[..t.written])
            && t.rows == RowsFor(t.plan, t.result.value, t.plan.topics[..t.written]))
  }

  ghost predicate Apart(t: Session, u: Session) {
    t.Open? && u.Open? ==>
      (t.claim.Some? ==> t.claim != u.claim) && t.rows.Keys !! u.rows.Keys
  }

  ghost predicate BundleOk(cfg: Config, b: Bundle, cause: Option<Message>) {
    Sound(b) && PlanOk(cfg, b.plan, cause)
  }

  ghost predicate TxInv(cfg: Config, s: State) {
    && Valid(s.db)
    && (forall c | 0 <= c < |s.txs| :: TxOk(cfg, s.db, s.txs[c]))
    && (forall c, d | 0 <= c < d < |s.txs| :: Apart(s.txs[c], s.txs[d]))
    && |s.causes| == |s.db.journal|
    && (forall i | 0 <= i < |s.causes| :: BundleOk(cfg, s.db.journal[i], s.causes[i]))
  }

  ghost predicate Origin(cfg: Config, s: State, d: Delivery) {
    && SenderOk(cfg, d.msg)
    && (d in s.foreign || exists k :: k in s.db.outbox && d == Outgoing(s, k))
  }

  ghost predicate BrokerInv(cfg: Config, s: State) {
    s.broker <= s.sent && forall d | d in s.sent :: Origin(cfg, s, d)
  }

  lemma PlanIsOk(cfg: Config, s: State, src: Source)
    requires ConfigOk(cfg) && BrokerInv(cfg, s) && Available(cfg, s, src) && PlanOf(cfg, src).Some?
    ensures PlanOk(cfg, PlanOf(cfg, src).value, CauseOf(src))
    ensures forall m :: PlanOf(cfg, src).value.phase.Execute? ==>
            PlanOk(cfg, EventPlan(RouteOf(cfg, src), m), CauseOf(src))
  {
    if src.Broker? { assert Origin(cfg, s, src.d); }
  }

  lemma ApartBoth(cfg: Config, s: State, c: nat, d: nat)
    requires TxInv(cfg, s) && c < |s.txs| && d < |s.txs| && c != d
    ensures Apart(s.txs[c], s.txs[d]) && Apart(s.txs[d], s.txs[c])
  {
    if c > d { assert Apart(s.txs[d], s.txs[c]); }
  }

  lemma PutKeeps(cfg: Config, s: State, c: nat, t: Session)
    requires TxInv(cfg, s) && c < |s.txs| && TxOk(cfg, s.db, t)
    requires forall d | 0 <= d < |s.txs| && d != c :: Apart(t, s.txs[d]) && Apart(s.txs[d], t)
    ensures TxInv(cfg, Put(s, c, t))
  {
  }

  /** Transaction t with its next row, under key k. */
  function WithRow(t: Session, k: OutboxKey): Session
    requires t.Open? && t.result.Some?
  {
    t.(rows := t.rows[k := Row(t.plan.step, t.result.value)], written := t.written + 1)
  }

  ghost predicate NextKey(t: Session, db: Db, k: OutboxKey) {
    && t.Open? && t.result.Some? && t.written < |t.plan.topics| && Storable(t.result.value)
    && k == OutboxKey(Parse(t.result.value.saga).value, t.plan.topics[t.written], t.plan.phase)
    && k !in db.outbox && k !in t.rows
  }

  lemma RowTxOk(cfg: Config, db: Db, t: Session, k: OutboxKey)
    requires TxOk(cfg, db, t) && NextKey(t, db, k)
    ensures TxOk(cfg, db, WithRow(t, k))
  {
    NextRow(t.plan, t.result.value, t.written);
  }

  lemma RowKeeps(cfg: Config, s: State, c: nat, k: OutboxKey)
    requires TxInv(cfg, s) && c < |s.txs| && NextKey(s.txs[c], s.db, k) && !RowHeld(s, c, k)
    ensures TxInv(cfg, Put(s, c, WithRow(s.txs[c], k)))
  {
    var u := WithRow(s.txs[c], k);
    RowTxOk(cfg, s.db, s.txs[c], k);
    forall d | 0 <= d < |s.txs| && d != c ensures Apart(u, s.txs[d]) && Apart(s.txs[d], u) {
      ApartBoth(cfg, s, c, d);
    }
    PutKeeps(cfg, s, c, u);
  }

  lemma InsertKeeps(cfg: Config, s: State, c: nat)
    requires TxInv(cfg, s) && c < |s.txs| && TxStep(cfg, s, c, Insert).Some?
    ensures TxInv(cfg, TxStep(cfg, s, c, Insert).value)
  {
    var t := s.txs[c];
    if Storable(t.result.value) {
      var k := OutboxKey(Parse(t.result.value.saga).value, t.plan.topics[t.written], t.plan.phase);
      if k !in s.db.outbox && k !in t.rows {
        RowKeeps(cfg, s, c, k);
        return;
      }
    }
    PutKeeps(cfg, s, c, Idle);
  }

  lemma CommitKeeps(cfg: Config, s: State, c: nat, op: TxOp)
    requires TxInv(cfg, s) && c < |s.txs| && op.Commit? && TxStep(cfg, s, c, op).Some?
    ensures Fits(s.db, BundleOf(s.txs[c], op.at, op.before, op.business))
    ensures TxInv(cfg, TxStep(cfg, s, c, op).value)
  {
    var t := s.txs[c];
    var b := BundleOf(t, op.at, op.before, op.business);
    assert t.plan.topics[..t.written] == t.plan.topics;
    assert BundleOk(cfg, b, t.cause);
    ApplyKeepsValid(s.db, b);
    var s' := TxStep(cfg, s, c, op).value;
    forall d | 0 <= d < |s.txs| ensures TxOk(cfg, s'.db, s'.txs[d]) {
      if d != c { ApartBoth(cfg, s, c, d); }
    }
  }

  lemma TxKeeps(cfg: Config, s: State, c: nat, op: TxOp)
    requires ConfigOk(cfg) && TxInv(cfg, s) && BrokerInv(cfg, s) && c < |s.txs| && TxStep(cfg, s, c, op).Some?
    ensures TxInv(cfg, TxStep(cfg, s, c, op).value)
  {
    var t := s.txs[c];
    match op
    case Begin(src) =>
      PlanIsOk(cfg, s, src);
      PutKeeps(cfg, s, c, Opened(PlanOf(cfg, src).value, CauseOf(src)));
    case BeginEvent(src, msg) =>
      PlanIsOk(cfg, s, src);
      PutKeeps(cfg, s, c, Opened(EventPlan(RouteOf(cfg, src), msg), CauseOf(src)));
    case Claim =>
      var k := KeyFor(t.plan);
      if k.None? || k.value in s.db.inbox { PutKeeps(cfg, s, c, Idle); } else { ClaimKeeps(cfg, s, c); }
    case Produce(msg) =>
      assert t.plan.topics[..0] == [];
      ProduceKeeps(cfg, s, c, msg);
    case Insert => InsertKeeps(cfg, s, c);
    case Commit(_, _, _) => CommitKeeps(cfg, s, c, op);
    case Abort => PutKeeps(cfg, s, c, Idle);
  }

  lemma ClaimKeeps(cfg: Config, s: State, c: nat)
    requires TxInv(cfg, s) && c < |s.txs| && s.txs[c].Open? && s.txs[c].plan.claims
    requires s.txs[c].claim.None? && s.txs[c].result.None?
    requires KeyFor(s.txs[c].plan).Some? && KeyFor(s.txs[c].plan).value !in s.db.inbox
    requires !ClaimHeld(s, c, KeyFor(s.txs[c].plan).value)
    ensures TxInv(cfg, Put(s, c, s.txs[c].(claim := KeyFor(s.txs[c].plan))))
  {
    var t := s.txs[c];
    var u := t.(claim := KeyFor(t.plan));
    forall d | 0 <= d < |s.txs| && d != c ensures Apart(u, s.txs[d]) && Apart(s.txs[d], u) {
      ApartBoth(cfg, s, c, d);
    }
    PutKeeps(cfg, s, c, u);
  }

  lemma ProduceKeeps(cfg: Config, s: State, c: nat, msg: Message)
    requires TxInv(cfg, s) && c < |s.txs| && TxStep(cfg, s, c, Produce(msg)).Some?
    ensures TxInv(cfg, TxStep(cfg, s, c, Produce(msg)).value)
  {
    var t := s.txs[c];
    var m := Addressed(t.plan, msg);
    var u := t.(result := Some(m));
    assert t.plan.topics[..0] == [];
    assert RowsFor(t.plan, m, []) == map[];
    forall d | 0 <= d < |s.txs| && d != c ensures Apart(u, s.txs[d]) && Apart(s.txs[d], u) {
      ApartBoth(cfg, s, c, d);
    }
    PutKeeps(cfg, s, c, u);
  }

  // ---- the broker: nothing is delivered that was not committed here or sent by another service ----

  lemma RowIsOk(cfg: Config, s: State, k: OutboxKey)
    requires TxInv(cfg, s) && k in s.db.outbox
    ensures var row := s.db.outbox[k];
            && row.step != "" && row.step in cfg.senders && k.topic in cfg.topics
            && row.msg.from == row.step && Parse(row.msg.saga) == Some(k.saga)
            && row.msg.kind == (if k.phase.Execute? then COMPLETE else FAILED)
  {
    var i := InsertFound(s.db.journal, k);
    assert s.db.journal[i] in s.db.journal && BundleOk(cfg, s.db.journal[i], s.causes[i]);
  }

  ghost predicate Later(s: State, n: State) {
    && s.sent <= n.sent && s.foreign <= n.foreign
    && s.db.inbox <= n.db.inbox && s.db.journal <= n.db.journal && s.causes <= n.causes
    && forall k | k in s.db.outbox :: k in n.db.outbox && n.db.outbox[k] == s.db.outbox[k]
  }

  ghost predicate SameTables(s: State, n: State) {
    n.db == s.db && n.causes == s.causes
  }

  lemma TxFrame(cfg: Config, s: State, c: nat, op: TxOp)
    requires c < |s.txs| && TxStep(cfg, s, c, op).Some?
    ensures var n := TxStep(cfg, s, c, op).value;
            && n.readers == s.readers && n.meters == s.meters
            && n.broker == s.broker && n.sent == s.sent && n.foreign == s.foreign
            && |n.txs| == |s.txs|
            && (!op.Commit? ==> SameTables(s, n))
  {
  }

  lemma ReaderFrame(cfg: Config, s: State, r: nat, op: ReaderOp)
    requires r < |s.readers| && ReaderStep(cfg, s, r, op).Some?
    ensures var n := ReaderStep(cfg, s, r, op).value;
            SameTables(s, n) && n.txs == s.txs &&
            s.sent <= n.sent && n.foreign == s.foreign && |n.readers| == |s.readers|
  {
  }

  /** No row is ever deleted or changed by any move, and no committed transaction disappears. */
  lemma MoveIsLater(cfg: Config, s: State, m: Move)
    requires TxInv(cfg, s) && Do(cfg, s, m).Some?
    ensures Later(s, Do(cfg, s, m).value)
  {
    match m
    case OnTx(c, op) =>
      TxFrame(cfg, s, c, op);
      if op.Commit? { CommitKeeps(cfg, s, c, op); }
    case OnReader(r, op) => ReaderFrame(cfg, s, r, op);
    case _ =>
  }

  lemma BrokerKeeps(cfg: Config, s: State, m: Move)
    requires TxInv(cfg, s) && BrokerInv(cfg, s) && Do(cfg, s, m).Some?
    ensures BrokerInv(cfg, Do(cfg, s, m).value)
  {
    var n := Do(cfg, s, m).value;
    MoveIsLater(cfg, s, m);
    if m.OnTx? { TxFrame(cfg, s, m.c, m.op); }
    forall d | d in n.sent ensures Origin(cfg, n, d) {
      if d in s.sent {
        assert Origin(cfg, s, d);
        if k :| k in s.db.outbox && d == Outgoing(s, k) { assert k in n.db.outbox && d == Outgoing(n, k); }
      } else if m.OnReader? {
        var k := s.readers[m.r].batch[0];
        RowIsOk(cfg, s, k);
        assert d == Outgoing(n, k);
      }
    }
  }

  // ---- readers: attempts, marks and copies in flight stay bounded although nothing is locked ----

  function Holds(b: Poller, k: OutboxKey): nat {
    (if k in b.batch then 1 else 0) + (if b.waiting.Some? && b.waiting.value.0 == k then 1 else 0)
  }

  function InFlight(readers: seq<Poller>, k: OutboxKey): nat {
    if readers == [] then 0 else InFlight(readers[..|readers| - 1], k) + Holds(readers[|readers| - 1], k)
  }

  function Awaiting(readers: seq<Poller>, k: OutboxKey): nat {
    if readers == [] then 0
    else Awaiting(readers[..|readers| - 1], k)
         + var b := readers[|readers| - 1]; if b.waiting.Some? && b.waiting.value.0 == k then 1 else 0
  }

  predicate Confirms(b: Poller, k: OutboxKey) {
    b.waiting.Some? && b.waiting.value.0 == k && b.waiting.value.1
  }

  /** Readers that published row k without an error and have not updated it yet. */
  function Confirming(readers: seq<Poller>, k: OutboxKey): nat {
    if readers == [] then 0
    else Confirming(readers[..|readers| - 1], k) + if Confirms(readers[|readers| - 1], k) then 1 else 0
  }

  /** Every mark has its own publish call that returned no error. */
  ghost predicate MarkOk(s: State, k: OutboxKey) {
    var m := MeterOf(s, k);
    m.marks + Confirming(s.readers, k) <= m.oks <= m.publishes
  }

  ghost predicate ReaderOk(s: State, b: Poller) {
    && Distinct(b.batch)
    && (forall k | k in b.batch :: k in s.db.outbox)
    && (b.waiting.Some? ==>
          && b.waiting.value.0 in s.db.outbox && b.waiting.value.0 !in b.batch
          && (b.waiting.value.1 ==> Outgoing(s, b.waiting.value.0) in s.sent))
  }

  ghost predicate MeterOk(cfg: Config, s: State, k: OutboxKey) {
    var m := MeterOf(s, k);
    && m.attempts + m.marks + InFlight(s.readers, k) <= cfg.maxAttempts - 1 + |s.readers|
    && m.publishes == m.attempts + m.marks + m.lost + Awaiting(s.readers, k)
    && (m.marks > 0 ==> k in s.db.outbox && Outgoing(s, k) in s.sent)
  }

  ghost predicate ReaderInv(cfg: Config, s: State) {
    && (forall r | 0 <= r < |s.readers| :: ReaderOk(s, s.readers[r]))
    && (forall k :: MeterOk(cfg, s, k) && MarkOk(s, k))
  }

  lemma {:induction false} SwapReader(readers: seq<Poller>, r: nat, b: Poller, k: OutboxKey)
    requires r < |readers|
    ensures InFlight(readers[r := b], k) == InFlight(readers, k) - Holds(readers[r], k) + Holds(b, k)
    ensures Awaiting(readers[r := b], k) == Awaiting(readers, k) - Awaiting([readers[r]], k) + Awaiting([b], k)
  {
    var n := |readers| - 1;
    var swapped := readers[r := b];
    assert [b][..0] == [] && [readers[r]][..0] == [];
    if r == n {
      assert swapped[..n] == readers[..n];
    } else {
      assert swapped[..n] == readers[..n][r := b];
      SwapReader(readers[..n], r, b, k);
    }
  }

  lemma {:induction false} AtMostOneEach(readers: seq<Poller>, k: OutboxKey)
    requires forall r | 0 <= r < |readers| :: Holds(readers[r], k) <= 1
    ensures InFlight(readers, k) <= |readers|
    ensures Awaiting(readers, k) <= InFlight(readers, k)
  {
    if readers != [] { AtMostOneEach(readers[..|readers| - 1], k); }
  }

  lemma ReaderStaysOk(s: State, n: State, b: Poller)
    requires ReaderOk(s, b) && Later(s, n)
    ensures ReaderOk(n, b)
  {
  }

  lemma {:induction false} SwapConfirming(readers: seq<Poller>, r: nat, b: Poller, k: OutboxKey)
    requires r < |readers|
    ensures Confirming(readers[r := b], k) ==
            Confirming(readers, k) - Confirming([readers[r]], k) + Confirming([b], k)
  {
    var n := |readers| - 1;
    assert [b][..0] == [] && [readers[r]][..0] == [];
    if r == n {
      assert readers[r := b][..n] == readers[..n];
    } else {
      assert readers[r := b][..n] == readers[..n][r := b];
      SwapConfirming(readers[..n], r, b, k);
    }
  }

  lemma ConfirmingOne(b: Poller, k: OutboxKey)
    ensures Confirming([b], k) == if Confirms(b, k) then 1 else 0
  {
    assert [b][..0] == [];
  }

  lemma MarkKeeps(cfg: Config, s: State, r: nat, op: ReaderOp, k: OutboxKey)
    requires MarkOk(s, k) && r < |s.readers| && ReaderStep(cfg, s, r, op).Some?
    ensures MarkOk(ReaderStep(cfg, s, r, op).value, k)
  {
    var n := ReaderStep(cfg, s, r, op).value;
    var b, b' := s.readers[r], n.readers[r];
    assert n.readers == s.readers[r := b'];
    ConfirmingOne(b, k);
    ConfirmingOne(b', k);
    SwapConfirming(s.readers, r, b', k);
  }

  lemma MetersStayOk(cfg: Config, s: State, n: State, k: OutboxKey)
    requires MeterOk(cfg, s, k) && Later(s, n) && n.readers == s.readers && n.meters == s.meters
    ensures MeterOk(cfg, n, k)
  {
  }

  lemma HoldsOne(s: State, b: Poller, k: OutboxKey)
    requires ReaderOk(s, b)
    ensures Holds(b, k) <= 1
  {
  }

  /** A scanned row is below its attempts limit, and no reader holds it twice. */
  lemma ScanRoom(cfg: Config, s: State, r: nat, keys: seq<OutboxKey>, k: OutboxKey)
    requires ReaderInv(cfg, s) && r < |s.readers| && ReaderStep(cfg, s, r, Scan(keys)).Some?
    requires ReaderOk(ReaderStep(cfg, s, r, Scan(keys)).value, Poller(keys, None))
    ensures InFlight(ReaderStep(cfg, s, r, Scan(keys)).value.readers, k) <= |s.readers|
  {
    var n := ReaderStep(cfg, s, r, Scan(keys)).value;
    forall i | 0 <= i < |n.readers| ensures Holds(n.readers[i], k) <= 1 {
      if i == r {
        HoldsOne(n, n.readers[i], k);
      } else {
        assert ReaderOk(s, s.readers[i]);
        HoldsOne(s, s.readers[i], k);
      }
    }
    AtMostOneEach(n.readers, k);
  }

  /** What reader b owes for row k: copies it holds against counters, and a publish not yet accounted for. */
  ghost predicate Balanced(m: Meter, b: Poller, m': Meter, b': Poller, k: OutboxKey) {
    && m'.attempts + m'.marks + Holds(b', k) <= m.attempts + m.marks + Holds(b, k)
    && m'.publishes - m'.attempts - m'.marks - m'.lost - Awaiting([b'], k)
       == m.publishes - m.attempts - m.marks - m.lost - Awaiting([b], k)
  }

  lemma StepBalances(cfg: Config, s: State, r: nat, op: ReaderOp, k: OutboxKey)
    requires r < |s.readers| && ReaderOk(s, s.readers[r]) && ReaderStep(cfg, s, r, op).Some?
    requires !(op.Scan? && k in op.keys)
    ensures var n := ReaderStep(cfg, s, r, op).value;
            Balanced(MeterOf(s, k), s.readers[r], MeterOf(n, k), n.readers[r], k)
  {
    var b, b' := s.readers[r], ReaderStep(cfg, s, r, op).value.readers[r];
    assert [b][..0] == [] && [b'][..0] == [];
  }

  lemma MarkedWasSent(cfg: Config, s: State, r: nat, op: ReaderOp, k: OutboxKey)
    requires ReaderInv(cfg, s) && r < |s.readers| && ReaderStep(cfg, s, r, op).Some?
    ensures var n := ReaderStep(cfg, s, r, op).value;
            MeterOf(n, k).marks > 0 ==> k in n.db.outbox && Outgoing(n, k) in n.sent
  {
    assert ReaderOk(s, s.readers[r]) && MeterOk(cfg, s, k);
  }

  /** The counters of row k after a reader's step. */
  lemma MeterKeeps(cfg: Config, s: State, r: nat, op: ReaderOp, k: OutboxKey)
    requires ReaderInv(cfg, s) && r < |s.readers| && ReaderStep(cfg, s, r, op).Some? && cfg.maxAttempts > 0
    requires ReaderOk(ReaderStep(cfg, s, r, op).value, ReaderStep(cfg, s, r, op).value.readers[r])
    ensures MeterOk(cfg, ReaderStep(cfg, s, r, op).value, k)
  {
    var n := ReaderStep(cfg, s, r, op).value;
    var b, b' := s.readers[r], n.readers[r];
    assert n.readers == s.readers[r := b'];
    assert MeterOk(cfg, s, k) && ReaderOk(s, b);
    SwapReader(s.readers, r, b', k);
    MarkedWasSent(cfg, s, r, op, k);
    if op.Scan? && k in op.keys {
      ScanRoom(cfg, s, r, op.keys, k);
      assert [b][..0] == [] && [b'][..0] == [];
    } else {
      StepBalances(cfg, s, r, op, k);
    }
  }

  lemma OneReaderKeeps(cfg: Config, s: State, r: nat, op: ReaderOp)
    requires ReaderInv(cfg, s) && r < |s.readers| && ReaderStep(cfg, s, r, op).Some?
    ensures var n := ReaderStep(cfg, s, r, op).value; ReaderOk(n, n.readers[r])
  {
    assert ReaderOk(s, s.readers[r]);
  }

  lemma ReaderMoveKeeps(cfg: Config, s: State, r: nat, op: ReaderOp)
    requires TxInv(cfg, s) && ReaderInv(cfg, s) && r < |s.readers| && ReaderStep(cfg, s, r, op).Some?
    requires cfg.maxAttempts > 0
    ensures ReaderInv(cfg, ReaderStep(cfg, s, r, op).value)
  {
    var n := ReaderStep(cfg, s, r, op).value;
    ReaderFrame(cfg, s, r, op);
    OneReaderKeeps(cfg, s, r, op);
    forall i | 0 <= i < |n.readers| ensures ReaderOk(n, n.readers[i]) {
      if i != r { ReaderStaysOk(s, n, s.readers[i]); }
    }
    forall k ensures MeterOk(cfg, n, k) && MarkOk(n, k) {
      assert MarkOk(s, k);
      MeterKeeps(cfg, s, r, op, k);
      MarkKeeps(cfg, s, r, op, k);
    }
  }

  lemma ReaderKeeps(cfg: Config, s: State, m: Move)
    requires TxInv(cfg, s) && ReaderInv(cfg, s) && Do(cfg, s, m).Some? && cfg.maxAttempts > 0
    ensures ReaderInv(cfg, Do(cfg, s, m).value)
  {
    if m.OnReader? {
      ReaderMoveKeeps(cfg, s, m.r, m.rop);
    } else {
      var n := Do(cfg, s, m).value;
      MoveIsLater(cfg, s, m);
      if m.OnTx? { TxFrame(cfg, s, m.c, m.op); }
      forall i | 0 <= i < |n.readers| ensures ReaderOk(n, n.readers[i]) { ReaderStaysOk(s, n, s.readers[i]); }
      forall k ensures MeterOk(cfg, n, k) && MarkOk(n, k) {
        assert MeterOk(cfg, s, k) && MarkOk(s, k);
        MetersStayOk(cfg, s, n, k);
      }
    }
  }
}
