/** The executor as it runs: transactions that stage their writes, closures retried in a loop, fallbacks in sequence. */
module Executor {
  import opened Message
  import opened Uuid
  import opened Errors
  import opened Journal
  import opened ExecutorSpec
  import opened ExecutorOutcome
  import opened Contents

  /** The database server. The last seven fields are history, kept for the specification. */
  class Database {
    const oracle: Oracle
    var inbox: set<InboxKey>
    var outbox: map<OutboxKey, Row>
    var business: Business
    var journal: seq<Bundle>
    var own: seq<Bundle>
    var clock: nat
    var begins: nat
    var calls: nat
    var asked: int
    var seen: Option<Outcome>

    function Tables(): Db
      reads this
    {
      Db(inbox, outbox, business, journal)
    }

    function World(): World
      reads this
    {
      ExecutorSpec.World(Tables(), own, clock, begins, calls, asked, seen)
    }

    constructor (oracle: Oracle, business: Business)
      ensures this.oracle == oracle
      ensures World() == ExecutorSpec.World(Db({}, map[], business, []), [], 0, 0, 0, 0, None)
    {
      this.oracle := oracle;
      inbox, outbox, this.business, journal := {}, map[], business, [];
      own, clock, begins, calls, asked, seen := [], 0, 0, 0, 0, None;
    }

    /** Other replicas may have committed since the last transaction of this one. */
    method BeginTx() returns (tx: Tx?, err: Option<ForeignErr>)
      modifies this
      ensures World() == Begun(oracle, old(World()))
      ensures err == oracle.begin(old(clock))
      ensures err.None? ==> tx != null && fresh(tx) && tx.Fresh(this, old(clock))
    {
      err := oracle.begin(clock);
      tx := null;
      var d := Absorb(Tables(), oracle.others(clock));
      inbox, outbox, business, journal := d.inbox, d.outbox, d.business, d.journal;
      if err.None? { tx := new Tx(this, clock); }
      clock, begins := clock + 1, begins + 1;
    }

    method Sleep(env: Env, r: Retrier, n: nat) returns (interrupted: bool)
      requires env.oracle == oracle
      modifies this
      ensures World() == Slept(env, r, n, old(World()))
      ensures interrupted == oracle.done(old(clock))
    {
      asked := asked + Wait(env, r, n, World());
      interrupted := oracle.done(clock);
      clock := clock + 1;
    }

    /** Observes the context at this instant. */
    method Done() returns (done: bool)
      modifies this
      ensures World() == Tick(old(World())) && done == oracle.done(old(clock))
    {
      done := oracle.done(clock);
      clock := clock + 1;
    }
  }

  /** A transaction: nothing it stages reaches the tables before Commit; dropping it is the rollback. */
  class Tx {
    const db: Database
    const at: nat
    var claim: Option<InboxKey>
    var rows: map<OutboxKey, Row>
    var tables: Business

    ghost predicate Fresh(db: Database, at: nat)
      reads this, db
    {
      this.db == db && this.at == at && claim == None && rows == map[] && tables == db.business
    }

    constructor (db: Database, at: nat)
      ensures Fresh(db, at)
    {
      this.db, this.at := db, at;
      claim, rows, tables := None, map[], db.business;
    }

    /** Inserts (saga_id, from_step); a row that is already there is a duplicate. */
    method Claim(env: Env, p: Plan) returns (err: Option<Err>)
      requires env.oracle == db.oracle && p.claims
      modifies this
      ensures err == ClaimError(env, p, at, db.Tables())
      ensures rows == old(rows) && tables == old(tables)
      ensures claim == if err.None? then KeyFor(p) else old(claim)
    {
      var saga := Parse(p.msg.saga);
      if saga.None? { return Some(Wrap(Plain(1))); }
      var failure := db.oracle.claim(at);
      if failure.Some? { return Some(InfraError(failure.value)); }
      var key := InboxKey(saga.value, p.msg.from);
      if key in db.inbox { return Some(Duplicate); }
      claim := Some(key);
      err := None;
    }

    /** One row per topic; the first failure ends the writing and leaves the transaction to be rolled back. */
    method WriteMessages(env: Env, p: Plan, m: Message) returns (err: Option<Err>)
      requires env.oracle == db.oracle && rows == map[]
      modifies this
      ensures claim == old(claim) && tables == old(tables)
      ensures match WriteFrom(env, p, m, at, 0, db.outbox, map[])
              case Rows(r) => err == None && rows == r
              case WriteError(e) => err == Some(e)
    {
      for i := 0 to |p.topics|
        invariant claim == old(claim) && tables == old(tables)
        invariant WriteFrom(env, p, m, at, i, db.outbox, rows) == WriteFrom(env, p, m, at, 0, db.outbox, map[])
      {
        if !Storable(m) { return Some(Wrap(Plain(2))); }
        var key := OutboxKey(Parse(m.saga).value, p.topics[i], p.phase);
        var failure := db.oracle.insert(at, i);
        if failure.Some? { return Some(Wrap(failure.value)); }
        if key in db.outbox || key in rows { return Some(Wrap(Plain(3))); }
        rows := rows[key := Row(p.step, m)];
      }
      err := None;
    }

    /** Makes the staged writes visible together, unless the commit fails. */
    method Commit(p: Plan, before: Business, m: Message) returns (err: Option<ForeignErr>)
      modifies db
      ensures var b := Bundle(p, claim, at, before, m, rows, tables);
              match db.oracle.commit(at)
              case Acknowledged => err == None && db.World() == Committed(old(db.World()), b)
              case NotCommitted(e) => err == Some(e) && db.World() == old(db.World())
              case AckLost(e) => err == Some(e) && db.World() == Committed(old(db.World()), b)
    {
      var result := db.oracle.commit(at);
      if !result.NotCommitted? {
        var b := Bundle(p, claim, at, before, m, rows, tables);
        db.inbox := if claim.Some? then db.inbox + {claim.value} else db.inbox;
        db.outbox, db.business := db.outbox + rows, tables;
        db.journal, db.own := db.journal + [b], db.own + [b];
      }
      err := if result.Acknowledged? then None else Some(result.err);
    }
  }

  class StepExecutor {
    const db: Database
    const env: Env

    constructor (db: Database, infra: Option<Retrier>, dedup: bool)
      ensures this.db == db && env == Env(db.oracle, infra, dedup)
    {
      this.db, env := db, Env(db.oracle, infra, dedup);
    }

    ghost predicate Wired() {
      env.oracle == db.oracle
    }

    method RunUserCode(body: Body, msg: Message, at: nat, tables: Business) returns (o: Outcome)
      modifies db
      ensures o == RunBody(body, at, tables, msg)
      ensures db.World() == Called(body, Some(o), old(db.World()))
    {
      o := RunBody(body, at, tables, msg);
      match body
      case Act(_) => db.calls, db.seen := db.calls + 1, Some(o);
      case Handle(_, _) => db.seen := Some(o);
      case Relay =>
    }

    /** atomicRun, the closure of runErrorHandler, and the transaction of WriteTx: the body makes the difference. */
    method Attempt(job: Job, out0: Message, left0: Message) returns (out: Message, left: Message, err: Option<Err>)
      requires Wired()
      modifies db
      ensures (Cell(db.World(), out, left), err) == ExecutorSpec.Attempt(env, job, Cell(old(db.World()), out0, left0))
    {
      out, left := out0, left0;
      var p := job.plan;
      var tx, beginErr := db.BeginTx();
      if beginErr.Some? { return out, left, Some(InfraError(beginErr.value)); }
      if p.claims {
        err := tx.Claim(env, p);
        if err.Some? { return; }
      }
      var before := tx.tables;
      var o := RunUserCode(job.body, p.msg, tx.at, before);
      if o.Failed? { return out, o.msg, Some(Errors.Action(o.err)); }
      tx.tables := o.business;
      var result := o.msg.(saga := p.msg.saga);
      if |p.topics| > 0 { result := result.(kind := p.kind, from := p.step); }
      var writeErr := tx.WriteMessages(env, p, result);
      if writeErr.Some? { return out, left, Some(InfraError(writeErr.value)); }
      var commitErr := tx.Commit(p, before, result);
      if commitErr.Some? { return out, left, Some(InfraError(commitErr.value)); }
      return result, left, None;
    }

    /** Retrier.retry around the closure named by `work`. */
    method Retry(r: Retrier, work: Work) returns (out: Message, left: Message, err: Option<Err>)
      requires Wired()
      modifies db
      ensures (Cell(db.World(), out, left), err) ==
              RetryLoop(env, r, work, Cell(old(db.World()), EMPTY, EMPTY), 0, None)
      decreases Rank(work), 2
    {
      out, left := EMPTY, EMPTY;
      var retries: nat, lastErr: Option<Err> := 0, None;
      while true
        invariant retries <= r.maxRetries
        invariant RetryLoop(env, r, work, Cell(db.World(), out, left), retries, lastErr)
               == RetryLoop(env, r, work, Cell(old(db.World()), EMPTY, EMPTY), 0, None)
        decreases r.maxRetries - retries
      {
        var done := db.Done();
        if done { return out, left, Some(Cancelled); }
        if retries >= r.maxRetries { return out, left, Some(Exhausted(lastErr)); }
        out, left, err := Perform(work, out, left);
        if err.None? || !HasRetryable(err.value) { return; }
        lastErr := err;
        var interrupted := db.Sleep(env, r, retries);
        if interrupted { return out, left, Some(Cancelled); }
        retries := retries + 1;
      }
    }

    method Perform(work: Work, out0: Message, left0: Message) returns (out: Message, left: Message, err: Option<Err>)
      requires Wired()
      modifies db
      ensures (Cell(db.World(), out, left), err) == ExecutorSpec.Perform(env, work, Cell(old(db.World()), out0, left0))
      decreases Rank(work), 0
    {
      match work
      case One(job) => out, left, err := Attempt(job, out0, left0);
      case Infra(job) =>
        left := left0;
        var ignored;
        out, ignored, err := RunWithInfraRetry(job);
    }

    /** runWithInfraRetry and the retried part of runErrorHandler: retryInfra, then the user's error is unwrapped. */
    method RunWithInfraRetry(job: Job) returns (out: Message, left: Message, err: Option<Err>)
      requires Wired()
      modifies db
      ensures Run(db.World(), out, left, err) == InfraRun(env, job, old(db.World()))
      decreases 0, 3
    {
      if env.infra.None? {
        out, left, err := Perform(One(job), EMPTY, EMPTY);
      } else {
        out, left, err := Retry(env.infra.value, One(job));
      }
      if err.None? { return out, EMPTY, None; }
      var found := FindAction(err.value);
      if found.Some? { return EMPTY, left, found; }
      return EMPTY, EMPTY, err;
    }

    method RunWithUserRetry(job: Job, retry: Option<Retrier>) returns (out: Message, err: Option<Err>)
      requires Wired()
      modifies db
      ensures var r := UserRun(env, job, retry, old(db.World())); db.World() == r.w && out == r.out && err == r.err
    {
      var ignored;
      if retry.None? {
        out, ignored, err := RunWithInfraRetry(job);
      } else {
        out, ignored, err := Retry(retry.value, Infra(job));
        if err.Some? { out := EMPTY; }
      }
    }

    method PublishEvent(route: Route, msg: Message) returns (err: Option<Err>)
      requires Wired()
      modifies db
      ensures Result(db.World(), EMPTY, err) == ExecutorSpec.PublishEvent(env, route, msg, old(db.World()))
    {
      if |route.errors| == 0 { return None; }
      var out, left;
      out, left, err := RunWithInfraRetry(Job(EventPlan(route, msg), Relay));
    }

    method ExecuteStep(stp: Step, msg: Message) returns (out: Message, err: Option<Err>)
      requires Wired()
      modifies db
      ensures Result(db.World(), out, err) == ExecutorSpec.ExecuteStep(env, stp, msg, old(db.World()))
    {
      var p := ExecutePlan(env, stp, msg);
      out, err := RunWithUserRetry(Job(p, Act(stp.execute)), stp.retry);
      if err.None? { return; }
      if stp.onError.None? {
        if Is(err.value, Duplicate) { return EMPTY, None; }
        err := PublishEvent(stp.route, msg);
        return EMPTY, err;
      }
      var left, handlerErr;
      out, left, handlerErr := RunWithInfraRetry(Job(p, Handle(stp.onError.value, err.value)));
      if handlerErr.None? { return out, None; }
      var msgForError := msg;
      if left.saga != "" || |left.payload| > 0 {
        msgForError := left;
        if msgForError.saga == "" { msgForError := msgForError.(saga := msg.saga); }
      }
      err := PublishEvent(stp.route, msgForError);
      return EMPTY, err;
    }

    method CompensateStep(stp: Step, msg: Message) returns (err: Option<Err>)
      requires Wired()
      modifies db
      ensures Result(db.World(), EMPTY, err) == ExecutorSpec.CompensateStep(env, stp, msg, old(db.World()))
    {
      var p := CompensatePlan(env, stp, msg);
      var out, left;
      out, err := RunWithUserRetry(Job(p, Act(stp.compensate)), stp.retry);
      if err.None? { return; }
      if stp.onCompensateError.None? { return Some(Wrap(err.value)); }
      out, left, err := RunWithInfraRetry(Job(p, Handle(stp.onCompensateError.value, err.value)));
      if err.Some? { err := Some(Wrap(err.value)); }
    }
  }

  /** The part of the controller that decides on acknowledgement and runs local chains. */
  class Controller {
    const executor: StepExecutor

    constructor (executor: StepExecutor)
      ensures this.executor == executor
    {
      this.executor := executor;
    }

    /** The handler that Register subscribes; no error acknowledges the message. */
    method Deliver(stp: Step, msg: Message) returns (err: Option<Err>)
      requires executor.Wired()
      modifies executor.db
      ensures Result(executor.db.World(), EMPTY, err) ==
              ExecutorSpec.Deliver(executor.env, stp, msg, old(executor.db.World()))
      ensures forall b | b in News(old(executor.db.World()), executor.db.World()) ::
                if msg.kind == "execute" then WentForward(executor.env.dedup, stp, msg, b) || ToldFailure(stp, msg, b)
                else msg.kind == "failed" && WentBack(executor.env.dedup, stp, msg, b)
    {
      ghost var before := executor.db.World();
      if msg.kind == "execute" { ExecutionSends(executor.env, stp, msg, before); }
      if msg.kind == "failed" { CompensationSends(executor.env, stp, msg, before); }
      if msg.kind != COMPLETE && msg.kind != FAILED { return Some(Plain(4)); }
      var out;
      if msg.kind == COMPLETE {
        out, err := executor.ExecuteStep(stp, msg);
      } else {
        err := executor.CompensateStep(stp, msg);
      }
      if err.Some? && Is(err.value, Duplicate) { err := None; }
    }

    method StartSagaWithSteps(steps: seq<Step>, id: Uuid, msg0: Message) returns (out: Message, err: Option<Err>)
      requires executor.Wired()
      modifies executor.db
      ensures Result(executor.db.World(), out, err) ==
              StartSaga(executor.env, steps, id, msg0, old(executor.db.World()))
    {
      if |steps| == 0 { return EMPTY, Some(Plain(5)); }
      var msg := msg0.(saga := Print(id));
      for i := 0 to |steps|
        invariant Chain(executor.env, steps[i..], msg, executor.db.World()) ==
                  Chain(executor.env, steps, msg0.(saga := Print(id)), old(executor.db.World()))
      {
        assert steps[i..][1..] == steps[i + 1..];
        msg, err := executor.ExecuteStep(steps[i], msg);
        if err.Some? { return EMPTY, err; }
      }
      return msg, None;
    }
  }
}
