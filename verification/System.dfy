/** The whole service as a transition system: consumers, readers, an unreliable broker, crashes, any interleaving. */
module System {
  import opened Message
  import opened Uuid
  import opened Journal
  import opened Outbox

  datatype Delivery = Delivery(topic: string, msg: Message)

  /** What a transaction reacts to: a delivered message, or a call of StartSagaWithSteps in this process. */
  datatype Source = Broker(d: Delivery) | Local(route: Route, msg: Message)

  /** A consumer's transaction. Claim and rows are pending index entries until commit or rollback. */
  datatype Session =
    | Idle
    | Open(plan: Plan, cause: Option<Message>, claim: Option<InboxKey>, result: Option<Message>,
           rows: map<OutboxKey, Row>, written: nat)

  /** A reader: rows of its last scan still to be handled, and a published row whose update is outstanding. */
  datatype Poller = Poller(batch: seq<OutboxKey>, waiting: Option<(OutboxKey, bool)>)

  /** Counters of a row: the table's attempts and marks; lost updates, publish calls, and those
      that returned no error. */
  datatype Meter = Meter(attempts: nat, marks: nat, lost: nat, publishes: nat, oks: nat)

  datatype Config = Config(
    routes: map<string, Route>, local: set<Route>, senders: set<string>, topics: set<string>, maxAttempts: nat)

  /** `sent` is everything the broker was ever given, `foreign` the part that came from other services. */
  datatype State = State(
    db: Db, causes: seq<Option<Message>>, txs: seq<Session>, readers: seq<Poller>, meters: map<OutboxKey, Meter>,
    broker: set<Delivery>, sent: set<Delivery>, foreign: set<Delivery>)

  datatype TxOp =
    | Begin(src: Source)
    | BeginEvent(src: Source, msg: Message)
    | Claim
    | Produce(msg: Message)
    | Insert
    | Commit(at: nat, before: Business, business: Business)
    | Abort                                    // rollback, crash, failed begin, insert or commit

  datatype ReaderOp =
    | Scan(keys: seq<OutboxKey>)
    | Publish(ok: bool, arrived: bool)         // a publish may fail although the message arrived
    | Settle(applied: bool)                    // the update after a publish, or its loss
    | Skip                                     // a row given up without publishing
    | CrashReader

  datatype Move =
    | OnTx(c: nat, op: TxOp)
    | OnReader(r: nat, rop: ReaderOp)
    | FromElsewhere(d: Delivery)
    | Drop(d: Delivery)

  predicate RouteOk(cfg: Config, route: Route) {
    && route.name != "" && route.name in cfg.senders
    && (forall t | t in route.next + route.errors :: t in cfg.topics)
  }

  predicate ConfigOk(cfg: Config) {
    && (forall t | t in cfg.routes :: RouteOk(cfg, cfg.routes[t]))
    && (forall route | route in cfg.local :: RouteOk(cfg, route))
    && cfg.maxAttempts > 0
  }

  predicate SenderOk(cfg: Config, msg: Message) {
    msg.from == "" || msg.from in cfg.senders
  }

  function CauseOf(src: Source): Option<Message> {
    if src.Broker? then Some(src.d.msg) else None
  }

  predicate Available(cfg: Config, s: State, src: Source) {
    match src
    case Broker(d) => d in s.broker && d.topic in cfg.routes
    case Local(route, msg) => route in cfg.local && SenderOk(cfg, msg)
  }

  function RouteOf(cfg: Config, src: Source): Route
    requires src.Broker? ==> src.d.topic in cfg.routes
  {
    if src.Broker? then cfg.routes[src.d.topic] else src.route
  }

  /** The plan a source calls for; only execute and failed messages have one. */
  function PlanOf(cfg: Config, src: Source): Option<Plan>
    requires src.Broker? ==> src.d.topic in cfg.routes
  {
    match src
    case Local(route, msg) => Some(StepPlan(true, route, msg, Execute))
    case Broker(d) =>
      if d.msg.kind == COMPLETE then Some(StepPlan(true, cfg.routes[d.topic], d.msg, Execute))
      else if d.msg.kind == FAILED then Some(StepPlan(true, cfg.routes[d.topic], d.msg, Compensate))
      else None
  }

  predicate ClaimHeld(s: State, c: nat, k: InboxKey) {
    exists d | 0 <= d < |s.txs| && d != c :: s.txs[d].Open? && s.txs[d].claim == Some(k)
  }

  predicate RowHeld(s: State, c: nat, k: OutboxKey) {
    exists d | 0 <= d < |s.txs| && d != c :: s.txs[d].Open? && k in s.txs[d].rows
  }

  function Put(s: State, c: nat, t: Session): State
    requires c < |s.txs|
  {
    s.(txs := s.txs[c := t])
  }

  function Opened(p: Plan, cause: Option<Message>): Session {
    Open(p, cause, None, None, map[], 0)
  }

  function BundleOf(t: Session, at: nat, before: Business, business: Business): Bundle
    requires t.Open? && t.result.Some?
  {
    Bundle(t.plan, t.claim, at, before, t.result.value, t.rows, business)
  }

  /** A step of consumer c. None means the step is not possible now; an insert on a pending key waits. */
  function TxStep(cfg: Config, s: State, c: nat, op: TxOp): Option<State>
    requires c < |s.txs|
  {
    var t := s.txs[c];
    match op
    case Begin(src) =>
      if t.Idle? && Available(cfg, s, src) && PlanOf(cfg, src).Some? then
        Some(Put(s, c, Opened(PlanOf(cfg, src).value, CauseOf(src))))
      else None
    case BeginEvent(src, msg) =>
      if t.Idle? && Available(cfg, s, src) && PlanOf(cfg, src).Some? && PlanOf(cfg, src).value.phase.Execute?
         && RouteOf(cfg, src).errors != [] then
        Some(Put(s, c, Opened(EventPlan(RouteOf(cfg, src), msg), CauseOf(src))))
      else None
    case Claim =>
      if t.Open? && t.plan.claims && t.claim.None? && t.result.None? then
        var k := KeyFor(t.plan);
        if k.None? || k.value in s.db.inbox then Some(Put(s, c, Idle))
        else if ClaimHeld(s, c, k.value) then None
        else Some(Put(s, c, t.(claim := k)))
      else None
    case Produce(msg) =>
      if t.Open? && t.result.None? && (t.plan.claims ==> t.claim.Some?) then
        Some(Put(s, c, t.(result := Some(Addressed(t.plan, msg)))))
      else None
    case Insert =>
      if t.Open? && t.result.Some? && t.written < |t.plan.topics| then
        if !Storable(t.result.value) then Some(Put(s, c, Idle))
        else
          var k := OutboxKey(Parse(t.result.value.saga).value, t.plan.topics[t.written], t.plan.phase);
          if k in s.db.outbox || k in t.rows then Some(Put(s, c, Idle))
          else if RowHeld(s, c, k) then None
          else
            Some(Put(s, c, t.(rows := t.rows[k := Row(t.plan.step, t.result.value)], written := t.written + 1)))
      else None
    case Commit(at, before, business) =>
      if t.Open? && t.result.Some? && t.written == |t.plan.topics| then
        Some(Put(s, c, Idle).(db := Apply(s.db, BundleOf(t, at, before, business)), causes := s.causes + [t.cause]))
      else None
    case Abort => if t.Open? then Some(Put(s, c, Idle)) else None
  }

  function MeterOf(s: State, k: OutboxKey): Meter {
    if k in s.meters then s.meters[k] else Meter(0, 0, 0, 0, 0)
  }

  predicate Distinct(keys: seq<OutboxKey>) {
    forall i, j | 0 <= i < j < |keys| :: keys[i] != keys[j]
  }

  predicate Eligible(cfg: Config, s: State, k: OutboxKey) {
    k in s.db.outbox && MeterOf(s, k).marks == 0 && MeterOf(s, k).attempts < cfg.maxAttempts
  }

  function Outgoing(s: State, k: OutboxKey): Delivery
    requires k in s.db.outbox
  {
    Delivery(k.topic, Decoded(k, s.db.outbox[k]))
  }

  function Published(m: Meter, ok: bool): Meter {
    m.(publishes := m.publishes + 1, oks := m.oks + if ok then 1 else 0)
  }

  function Settled(m: Meter, ok: bool, applied: bool): Meter {
    if !applied then m.(lost := m.lost + 1)
    else if ok then m.(marks := m.marks + 1)
    else m.(attempts := m.attempts + 1)
  }

  function ReaderStep(cfg: Config, s: State, r: nat, op: ReaderOp): Option<State>
    requires r < |s.readers|
  {
    var b := s.readers[r];
    match op
    case Scan(keys) =>
      if b == Poller([], None) && Distinct(keys) && (forall k | k in keys :: Eligible(cfg, s, k)) then
        Some(s.(readers := s.readers[r := Poller(keys, None)]))
      else None
    case Publish(ok, arrived) =>
      if b.waiting.None? && b.batch != [] && b.batch[0] in s.db.outbox && (ok ==> arrived) then
        var k := b.batch[0];
        var m := MeterOf(s, k);
        var news := if arrived then {Outgoing(s, k)} else {};
        Some(s.(readers := s.readers[r := Poller(b.batch[1..], Some((k, ok)))],
                meters := s.meters[k := Published(m, ok)],
                broker := s.broker + news, sent := s.sent + news))
      else None
    case Settle(applied) =>
      if b.waiting.Some? then
        var (k, ok) := b.waiting.value;
        Some(s.(readers := s.readers[r := Poller(b.batch, None)],
                meters := s.meters[k := Settled(MeterOf(s, k), ok, applied)]))
      else None
    case Skip =>
      if b.waiting.None? && b.batch != [] then
        Some(s.(readers := s.readers[r := Poller(b.batch[1..], None)]))
      else None
    case CrashReader =>
      var gone := s.(readers := s.readers[r := Poller([], None)]);
      if b.waiting.Some? then
        var (k, ok) := b.waiting.value;
        Some(gone.(meters := s.meters[k := Settled(MeterOf(s, k), ok, false)]))
      else Some(gone)
  }

  function Do(cfg: Config, s: State, m: Move): Option<State> {
    match m
    case OnTx(c, op) => if c < |s.txs| then TxStep(cfg, s, c, op) else None
    case OnReader(r, op) => if r < |s.readers| then ReaderStep(cfg, s, r, op) else None
    case FromElsewhere(d) =>
      if SenderOk(cfg, d.msg) then
        Some(s.(broker := s.broker + {d}, sent := s.sent + {d}, foreign := s.foreign + {d}))
      else None
    case Drop(d) => Some(s.(broker := s.broker - {d}))
  }

  function Exec(cfg: Config, s: State, ms: seq<Move>): Option<State>
    decreases |ms|
  {
    if ms == [] then Some(s)
    else
      var next := Do(cfg, s, ms[0]);
      if next.None? then None else Exec(cfg, next.value, ms[1..])
  }

  function Start(consumers: nat, readers: nat, business: Business): State {
    State(Db({}, map[], business, []), [], seq(consumers, _ => Idle), seq(readers, _ => Poller([], None)),
          map[], {}, {}, {})
  }
}
