/** The step executor as functions from one world to the next. Everything the executor cannot control is an oracle. */
module ExecutorSpec {
  import opened Message
  import opened Uuid
  import opened Errors
  import opened Backoff
  import opened Journal

  datatype Retrier = Retrier(policy: Policy, min: int, max: int, maxRetries: nat)

  /** What user code returns: a message and new business tables, or a message beside an error. */
  datatype Outcome = Done(msg: Message, business: Business) | Failed(msg: Message, err: ForeignErr)

  type ActionFn = (nat, Business, Message) -> Outcome

  /** A handler may return the error it was given. It is never given another one: see Blame.HandlerSeesForeign. */
  type HandlerFn = (nat, Business, Message, ForeignErr) -> Outcome

  datatype Step = Step(
    route: Route, execute: ActionFn, compensate: ActionFn, retry: Option<Retrier>,
    onError: Option<HandlerFn>, onCompensateError: Option<HandlerFn>)

  /** A commit may succeed, fail, or succeed while its acknowledgement is lost. */
  datatype CommitResult = Acknowledged | NotCommitted(err: ForeignErr) | AckLost(err: ForeignErr)

  /** The surroundings, indexed by a clock that no two calls share. `others` are commits by other replicas. */
  datatype Oracle = Oracle(
    done: nat -> bool, begin: nat -> Option<ForeignErr>, claim: nat -> Option<ForeignErr>,
    insert: (nat, nat) -> Option<ForeignErr>, commit: nat -> CommitResult,
    others: nat -> seq<Bundle>, draw: nat -> Unit)

  datatype Env = Env(oracle: Oracle, infra: Option<Retrier>, dedup: bool)

  datatype Body = Act(action: ActionFn) | Handle(handler: HandlerFn, cause: Err) | Relay

  datatype Job = Job(plan: Plan, body: Body)

  /** The database and the history of this executor: own commits, transactions begun, actions
      called, sleep asked for. */
  datatype World = World(
    db: Db, own: seq<Bundle>, clock: nat, begins: nat, calls: nat, asked: int, seen: Option<Outcome>)

  /** A world and the two variables the retried closures assign: the result, and what a failing handler left. */
  datatype Cell = Cell(w: World, out: Message, left: Message)

  datatype Work = One(job: Job) | Infra(job: Job)

  datatype Run = Run(w: World, out: Message, left: Message, err: Option<Err>)

  function Tick(w: World): World {
    w.(clock := w.clock + 1)
  }

  function Absorb(db: Db, bs: seq<Bundle>): Db
    decreases |bs|
  {
    if bs == [] then db else Absorb(if Fits(db, bs[0]) then Apply(db, bs[0]) else db, bs[1..])
  }

  function Begun(o: Oracle, w: World): World {
    w.(db := Absorb(w.db, o.others(w.clock)), clock := w.clock + 1, begins := w.begins + 1)
  }

  /** The claim at time t: the error it returns, if any. */
  function ClaimError(env: Env, p: Plan, t: nat, db: Db): Option<Err> {
    if !p.claims then None
    else if KeyFor(p).None? then Some(Wrap(Plain(1)))
    else if env.oracle.claim(t).Some? then Some(InfraError(env.oracle.claim(t).value))
    else if KeyFor(p).value in db.inbox then Some(Duplicate)
    else None
  }

  function RunBody(body: Body, t: nat, business: Business, msg: Message): Outcome {
    match body
    case Act(f) => f(t, business, msg)
    case Handle(f, cause) => if Foreign(cause) then f(t, business, msg, cause) else Failed(EMPTY, Plain(6))
    case Relay => Done(msg, business)
  }

  function Called(body: Body, o: Option<Outcome>, w: World): World {
    if o.None? then w
    else match body
      case Act(_) => w.(calls := w.calls + 1, seen := o)
      case Handle(_, _) => w.(seen := o)
      case Relay => w
  }

  datatype Written = Rows(rows: map<OutboxKey, Row>) | WriteError(err: Err)

  /** Inserts topics[i..] one by one; a key that is committed or staged violates the primary key. */
  function WriteFrom(env: Env, p: Plan, m: Message, t: nat, i: nat, outbox: map<OutboxKey, Row>,
                     staged: map<OutboxKey, Row>): Written
    requires i <= |p.topics|
    decreases |p.topics| - i
  {
    if i == |p.topics| then Rows(staged)
    else if !Storable(m) then WriteError(Wrap(Plain(2)))
    else
      var k := OutboxKey(Parse(m.saga).value, p.topics[i], p.phase);
      if env.oracle.insert(t, i).Some? then WriteError(Wrap(env.oracle.insert(t, i).value))
      else if k in outbox || k in staged then WriteError(Wrap(Plain(3)))
      else WriteFrom(env, p, m, t, i + 1, outbox, staged[k := Row(p.step, m)])
  }

  function Committed(w: World, b: Bundle): World {
    w.(db := Apply(w.db, b), own := w.own + [b])
  }

  /** What the body returned, if the transaction got as far as running it. */
  function Reached(env: Env, job: Job, t: nat, db: Db): Option<Outcome> {
    if env.oracle.begin(t).Some? || ClaimError(env, job.plan, t, db).Some? then None
    else Some(RunBody(job.body, t, db.business, job.plan.msg))
  }

  datatype Prepared = Ready(bundle: Bundle) | Stopped(err: Err)

  /** Begin, claim, body and one row per topic: a transaction ready to commit, or the error that stopped it. */
  function Prepare(env: Env, job: Job, t: nat, db: Db): Prepared {
    var p := job.plan;
    if env.oracle.begin(t).Some? then Stopped(InfraError(env.oracle.begin(t).value))
    else if ClaimError(env, p, t, db).Some? then Stopped(ClaimError(env, p, t, db).value)
    else
      match RunBody(job.body, t, db.business, p.msg)
      case Failed(m, e) => Stopped(Action(e))
      case Done(m, business) =>
        var result := Addressed(p, m);
        match WriteFrom(env, p, result, t, 0, db.outbox, map[])
        case WriteError(e) => Stopped(InfraError(e))
        case Rows(rows) => Ready(Bundle(p, KeyFor(p), t, db.business, result, rows, business))
  }

  /** One transaction attempt. */
  function Attempt(env: Env, job: Job, c: Cell): (Cell, Option<Err>) {
    var t, begun := c.w.clock, Begun(env.oracle, c.w);
    var o := Reached(env, job, t, begun.db);
    var w := Called(job.body, o, begun);
    match Prepare(env, job, t, begun.db)
    case Stopped(e) =>
      (Cell(w, c.out, if o.Some? && o.value.Failed? then o.value.msg else c.left), Some(e))
    case Ready(b) =>
      match env.oracle.commit(t)
      case Acknowledged => (Cell(Committed(w, b), b.msg, c.left), None)
      case NotCommitted(e) => (c.(w := w), Some(InfraError(e)))
      case AckLost(e) => (c.(w := Committed(w, b)), Some(InfraError(e)))
  }

  function Wait(env: Env, r: Retrier, n: nat, w: World): int {
    CalcBackoff(r.policy, n, r.min, r.max, env.oracle.draw(w.clock))
  }

  function Slept(env: Env, r: Retrier, n: nat, w: World): World {
    Tick(w.(asked := w.asked + Wait(env, r, n, w)))
  }

  function Rank(work: Work): nat {
    if work.One? then 0 else 1
  }

  datatype Pass = Return(c: Cell, e: Option<Err>) | Again(c: Cell, last: Err)

  /** One pass through the loop of Retrier.retry, at retry number n and after the retryable error `last`. */
  function OnePass(env: Env, r: Retrier, work: Work, c: Cell, n: nat, last: Option<Err>): (p: Pass)
    ensures p.Again? ==> n < r.maxRetries
    decreases Rank(work), 1, 0
  {
    var c1 := c.(w := Tick(c.w));
    if env.oracle.done(c.w.clock) then Return(c1, Some(Cancelled))
    else if n >= r.maxRetries then Return(c1, Some(Exhausted(last)))
    else
      var (c2, e) := Perform(env, work, c1);
      if e.None? || !HasRetryable(e.value) then Return(c2, e)
      else
        var c3 := c2.(w := Slept(env, r, n, c2.w));
        if env.oracle.done(c2.w.clock) then Return(c3, Some(Cancelled)) else Again(c3, e.value)
  }

  function RetryLoop(env: Env, r: Retrier, work: Work, c: Cell, n: nat, last: Option<Err>): (Cell, Option<Err>)
    decreases Rank(work), 2, r.maxRetries - n
  {
    match OnePass(env, r, work, c, n, last)
    case Return(d, e) => (d, e)
    case Again(d, e) => RetryLoop(env, r, work, d, n + 1, Some(e))
  }

  /** One call of the retried closure. */
  function Perform(env: Env, work: Work, c: Cell): (Cell, Option<Err>)
    decreases Rank(work), 0, 0
  {
    match work
    case One(job) => Attempt(env, job, c)
    case Infra(job) =>
      var r := InfraRun(env, job, c.w);
      (Cell(r.w, r.out, c.left), r.err)
  }

  /** The job under the infrastructure retrier, if there is one; an actionError is unwrapped. */
  function InfraRun(env: Env, job: Job, w: World): Run
    decreases 0, 3, 0
  {
    var c := Cell(w, EMPTY, EMPTY);
    var (d, e) := if env.infra.None? then Perform(env, One(job), c)
                  else RetryLoop(env, env.infra.value, One(job), c, 0, None);
    Unwrapped(d, e)
  }

  function Unwrapped(d: Cell, e: Option<Err>): Run {
    if e.None? then Run(d.w, d.out, EMPTY, None)
    else if FindAction(e.value).Some? then Run(d.w, EMPTY, d.left, FindAction(e.value))
    else Run(d.w, EMPTY, EMPTY, e)
  }

  /** The job under the step's own retry policy, each try under the infrastructure retrier. */
  function UserRun(env: Env, job: Job, retry: Option<Retrier>, w: World): Run {
    if retry.None? then InfraRun(env, job, w)
    else
      var (d, e) := RetryLoop(env, retry.value, Infra(job), Cell(w, EMPTY, EMPTY), 0, None);
      Run(d.w, if e.None? then d.out else EMPTY, EMPTY, e)
  }

  datatype Result = Result(w: World, out: Message, err: Option<Err>)

  function PublishEvent(env: Env, route: Route, msg: Message, w: World): Result {
    if route.errors == [] then Result(w, EMPTY, None)
    else
      var r := InfraRun(env, Job(EventPlan(route, msg), Relay), w);
      Result(r.w, EMPTY, r.err)
  }

  /** The message of the failure event: what the failing handler left, or else the incoming one. */
  function EventMessage(msg: Message, left: Message): Message {
    if left.saga != "" || left.payload != map[] then
      if left.saga == "" then left.(saga := msg.saga) else left
    else msg
  }

  function ExecutePlan(env: Env, stp: Step, msg: Message): Plan {
    StepPlan(env.dedup, stp.route, msg, Execute)
  }

  function CompensatePlan(env: Env, stp: Step, msg: Message): Plan {
    StepPlan(env.dedup, stp.route, msg, Compensate)
  }

  function ExecuteStep(env: Env, stp: Step, msg: Message, w: World): Result {
    var p := ExecutePlan(env, stp, msg);
    var r := UserRun(env, Job(p, Act(stp.execute)), stp.retry, w);
    if r.err.None? then Result(r.w, r.out, None)
    else if stp.onError.None? then
      if Is(r.err.value, Duplicate) then Result(r.w, EMPTY, None)
      else PublishEvent(env, stp.route, msg, r.w)
    else
      var h := InfraRun(env, Job(p, Handle(stp.onError.value, r.err.value)), r.w);
      if h.err.None? then Result(h.w, h.out, None)
      else PublishEvent(env, stp.route, EventMessage(msg, h.left), h.w)
  }

  function CompensateStep(env: Env, stp: Step, msg: Message, w: World): Result {
    var p := CompensatePlan(env, stp, msg);
    var r := UserRun(env, Job(p, Act(stp.compensate)), stp.retry, w);
    if r.err.None? then Result(r.w, EMPTY, None)
    else if stp.onCompensateError.None? then Result(r.w, EMPTY, Some(Wrap(r.err.value)))
    else
      var h := InfraRun(env, Job(p, Handle(stp.onCompensateError.value, r.err.value)), r.w);
      Result(h.w, EMPTY, if h.err.None? then None else Some(Wrap(h.err.value)))
  }

  /** The subscription handler of a step: no error means the broker gets an acknowledgement. */
  function Deliver(env: Env, stp: Step, msg: Message, w: World): Result {
    if msg.kind != COMPLETE && msg.kind != FAILED then Result(w, EMPTY, Some(Plain(4)))
    else
      var r := if msg.kind == COMPLETE then ExecuteStep(env, stp, msg, w) else CompensateStep(env, stp, msg, w);
      if r.err.Some? && Is(r.err.value, Duplicate) then Result(r.w, EMPTY, None)
      else Result(r.w, EMPTY, r.err)
  }

  /** Steps run one after another in this process, the result of each being the input of the next. */
  function Chain(env: Env, steps: seq<Step>, msg: Message, w: World): Result {
    if steps == [] then Result(w, msg, None)
    else
      var r := ExecuteStep(env, steps[0], msg, w);
      if r.err.Some? then Result(r.w, EMPTY, r.err) else Chain(env, steps[1..], r.out, r.w)
  }

  function StartSaga(env: Env, steps: seq<Step>, id: Uuid, msg: Message, w: World): Result {
    if steps == [] then Result(w, EMPTY, Some(Plain(5))) else Chain(env, steps, msg.(saga := Print(id)), w)
  }
}
