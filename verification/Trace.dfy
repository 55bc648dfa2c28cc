/** Whether an acknowledged execution leaves a trace in its own saga. */
module Trace {
  import opened Message
  import opened Uuid
  import opened Errors
  import opened Journal
  import opened ExecutorSpec
  import opened ExecutorOutcome
  import opened StepTheorems
  import opened Budget
  import opened Progress
  import opened Duplicates
  import opened Blame

  function Straying(other: Uuid): Step {
    Step(Route("pay", [], ["undo"]), (_, _, m) => Failed(m, Plain(9)), (_, b, m) => Done(m, b), None,
         Some((_: nat, _: Business, m: Message, _: ForeignErr) => Failed(m.(saga := Print(other)), Plain(9))), None)
  }

  /** If a failing OnError leaves a message of another saga, the message is acknowledged without a
      trace in its own saga. */
  lemma AckWithoutTrace(id: Uuid, other: Uuid, w: World)
    requires id != other && w.db == Db({}, map[], map[], [])
    ensures var env := Env(CALM, None, true);
            var msg := Message(COMPLETE, "order", Print(id), "", "", map[]);
            var r := Deliver(env, Straying(other), msg, w);
            r.err.None? && r.w.db.inbox == {} && r.w.db.outbox.Keys == {OutboxKey(other, "undo", Compensate)}
  {
    var env := Env(CALM, None, true);
    var stp := Straying(other);
    var msg := Message(COMPLETE, "order", Print(id), "", "", map[]);
    PrintParse(id);
    PrintParse(other);
    var p := ExecutePlan(env, stp, msg);
    var job := Job(p, Act(stp.execute));
    var r := UserRun(env, job, None, w);
    assert Perform(env, One(job), Cell(w, EMPTY, EMPTY)).1 == Some(Action(Plain(9)));
    assert FindAction(Action(Plain(9))) == Some(Plain(9));
    assert r.err == Some(Plain(9)) && r.w.db == w.db;
    var handling := Job(p, Handle(stp.onError.value, Plain(9)));
    var h := InfraRun(env, handling, r.w);
    assert Perform(env, One(handling), Cell(r.w, EMPTY, EMPTY)).1 == Some(Action(Plain(9)));
    assert h.err == Some(Plain(9)) && h.w.db == w.db && h.left == msg.(saga := Print(other));
    var m := EventMessage(msg, h.left);
    assert m == msg.(saga := Print(other));
    var event := Job(EventPlan(stp.route, m), Relay);
    var t := h.w.clock;
    var staged := map[OutboxKey(other, "undo", Compensate) := Row("pay", event.plan.msg)];
    assert WriteFrom(env, event.plan, Addressed(event.plan, event.plan.msg), t, 1, map[], staged).Rows?;
    assert Perform(env, One(event), Cell(h.w, EMPTY, EMPTY)).1 == None;
  }

  /** What OnError leaves behind in this execution: the guard of executor.go:134 reads it. */
  function HandlerLeft(env: Env, stp: Step, msg: Message, w: World): Message {
    var p := ExecutePlan(env, stp, msg);
    var r := UserRun(env, Job(p, Act(stp.execute)), stp.retry, w);
    if r.err.None? || stp.onError.None? then EMPTY
    else InfraRun(env, Job(p, Handle(stp.onError.value, r.err.value)), r.w).left
  }

  ghost predicate Traced(env: Env, stp: Step, msg: Message, db: Db) {
    || Claimed(ExecutePlan(env, stp, msg), db)
    || stp.route.errors == []
    || (Parse(msg.saga).Some? && FailureRows(stp, Parse(msg.saga).value, db))
  }

  lemma EventRows(env: Env, stp: Step, m: Message, w: World)
    requires Quiet(env) && stp.route.errors != [] && PublishEvent(env, stp.route, m, w).err.None?
    ensures var db := PublishEvent(env, stp.route, m, w).w.db;
            && Storable(m) && NoRepeat(stp.route.errors)
            && FailureRows(stp, Parse(m.saga).value, db) && db.inbox == w.db.inbox
            && forall k: OutboxKey | k.saga != Parse(m.saga).value :: k in db.outbox <==> k in w.db.outbox
  {
    var job := Job(EventPlan(stp.route, m), Relay);
    var r := InfraRun(env, job, w);
    InfraEffect(env, job, w);
    var news := News(w, r.w);
    assert |news| == 1;
    ApplyOne(w.db, news);
    var b := news[0];
    assert b in news && Sound(b);
    forall t | t in stp.route.errors ensures OutboxKey(Parse(m.saga).value, t, Compensate) in r.w.db.outbox {
      assert OutboxKey(Parse(m.saga).value, t, Compensate) in KeysFor(b.plan, b.msg, b.plan.topics);
    }
  }

  lemma EventTraceIff(env: Env, stp: Step, msg: Message, m: Message, w: World, out: Message, e: Err, v: World)
    requires Quiet(env) && env.dedup && msg.from != "" && Kept(w)
    requires MainPhase(env, stp, msg, w, v, out, Some(e))
    requires PublishEvent(env, stp.route, m, v).err.None? && stp.route.errors != []
    requires !Traced(env, stp, msg, w.db)
    ensures var db := PublishEvent(env, stp.route, m, v).w.db;
            Traced(env, stp, msg, db) <==> Claimed(ExecutePlan(env, stp, msg), db) || Parse(m.saga) == Parse(msg.saga)
  {
    EventRows(env, stp, m, v);
    var db := PublishEvent(env, stp.route, m, v).w.db;
    var news := News(w, v);
    if news != [] {
      assert news[0] in news && news[0] in v.own && StoredIn(news[0], v.db);
    } else if Parse(msg.saga).Some? && Parse(m.saga) != Parse(msg.saga) {
      assert v.db == w.db;
      var saga := Parse(msg.saga).value;
      var t :| t in stp.route.errors && OutboxKey(saga, t, Compensate) !in w.db.outbox;
      assert OutboxKey(saga, t, Compensate) !in db.outbox;
    }
  }

  /** An acknowledged execution leaves a trace in its saga iff it was claimed or OnError left no
      identifier of another saga. */
  lemma TraceIff(env: Env, stp: Step, msg: Message, w: World)
    requires Quiet(env) && env.dedup && msg.from != "" && Kept(w) && msg.kind == COMPLETE
    requires Deliver(env, stp, msg, w).err.None? && !Traced(env, stp, msg, w.db)
    ensures var db := Deliver(env, stp, msg, w).w.db;
            var left := HandlerLeft(env, stp, msg, w);
            Traced(env, stp, msg, db) <==>
            Claimed(ExecutePlan(env, stp, msg), db) || left.saga == "" || Parse(left.saga) == Parse(msg.saga)
  {
    var p := ExecutePlan(env, stp, msg);
    var r := UserRun(env, Job(p, Act(stp.execute)), stp.retry, w);
    ActionPhase(env, stp, msg, w);
    ExecuteEffect(env, stp, msg, w);
    if r.err.None? {
      MainTraced(env, stp, msg, w, r.w, r.out);
    } else if stp.onError.None? {
      if !Is(r.err.value, Duplicate) { EventTraceIff(env, stp, msg, msg, w, r.out, r.err.value, r.w); }
    } else {
      HandlerPhase(env, stp, msg, w, r.w, r.out, r.err.value);
      var h := InfraRun(env, Job(p, Handle(stp.onError.value, r.err.value)), r.w);
      if h.err.None? {
        MainTraced(env, stp, msg, w, h.w, h.out);
      } else {
        EventTraceIff(env, stp, msg, EventMessage(msg, h.left), w, h.out, h.err.value, h.w);
      }
    }
  }

  lemma MainTraced(env: Env, stp: Step, msg: Message, w: World, v: World, out: Message)
    requires env.dedup && msg.from != "" && Kept(w) && MainPhase(env, stp, msg, w, v, out, None)
    ensures Claimed(ExecutePlan(env, stp, msg), v.db)
  {
    var news := News(w, v);
    assert news[0] in news && news[0] in v.own && StoredIn(news[0], v.db);
  }

  // ---- which error handlers lose the trace ----

  /** A failing handler leaves a message of another saga that can be stored. */
  predicate Strays(o: Outcome, msg: Message) {
    && o.Failed? && Storable(EventMessage(msg, o.msg))
    && Parse(EventMessage(msg, o.msg).saga) != Parse(msg.saga)
  }

  ghost predicate CanStray(handler: HandlerFn, msg: Message) {
    exists t: nat, tables: Business, cause: ForeignErr :: t > 0 && Strays(handler(t, tables, msg, cause), msg)
  }

  /** Some execution of the message with this handler and route is acknowledged without a trace in its saga. */
  ghost predicate LosesTrace(handler: HandlerFn, route: Route, msg: Message) {
    exists env: Env, stp: Step, w: World ::
      stp.onError == Some(handler) && stp.route == route && Untraced(env, stp, msg, w)
  }

  ghost predicate Untraced(env: Env, stp: Step, msg: Message, w: World) {
    && env.dedup && Quiet(env) && Kept(w) && !Traced(env, stp, msg, w.db)
    && Deliver(env, stp, msg, w).err.None? && !Traced(env, stp, msg, Deliver(env, stp, msg, w).w.db)
  }

  /** Such a run ends with the event of another saga. */
  lemma UntracedPublishes(env: Env, stp: Step, msg: Message, w: World)
    requires msg.kind == COMPLETE && msg.from != "" && stp.onError.Some? && Untraced(env, stp, msg, w)
    ensures var p := ExecutePlan(env, stp, msg);
            var r := UserRun(env, Job(p, Act(stp.execute)), stp.retry, w);
            && stp.route.errors != [] && r.err.Some?
            && var h := InfraRun(env, Job(p, Handle(stp.onError.value, r.err.value)), r.w);
               && h.left.saga != "" && Parse(h.left.saga) != Parse(msg.saga)
               && PublishEvent(env, stp.route, EventMessage(msg, h.left), h.w).err.None?
  {
    TraceIff(env, stp, msg, w);
    var p := ExecutePlan(env, stp, msg);
    var r := UserRun(env, Job(p, Act(stp.execute)), stp.retry, w);
    var h := InfraRun(env, Job(p, Handle(stp.onError.value, r.err.value)), r.w);
    ActionPhase(env, stp, msg, w);
    ExecuteEffect(env, stp, msg, w);
    HandlerPhase(env, stp, msg, w, r.w, r.out, r.err.value);
    if h.err.None? { MainTraced(env, stp, msg, w, h.w, h.out); }
  }

  lemma UntracedStrays(env: Env, stp: Step, msg: Message, w: World)
    requires msg.kind == COMPLETE && msg.from != "" && stp.onError.Some? && Untraced(env, stp, msg, w)
    ensures stp.route.errors != [] && NoRepeat(stp.route.errors) && Parse(msg.saga).Some?
    ensures CanStray(stp.onError.value, msg)
  {
    UntracedPublishes(env, stp, msg, w);
    var p := ExecutePlan(env, stp, msg);
    var job := Job(p, Act(stp.execute));
    var r := UserRun(env, job, stp.retry, w);
    var handling := Job(p, Handle(stp.onError.value, r.err.value));
    var h := InfraRun(env, handling, r.w);
    EventRows(env, stp, EventMessage(msg, h.left), h.w);
    NeverMixes(env, handling, r.w);
    UserCost(env, job, stp.retry, w);
    if Parse(msg.saga).None? { UntracedHasSaga(env, stp, msg, w); }
    var t, tables :| r.w.clock <= t && IsFailure(RunBody(handling.body, t, tables, msg), h.left, h.err.value);
    assert Foreign(r.err.value) && Strays(stp.onError.value(t, tables, msg, r.err.value), msg);
  }

  lemma UntracedHasSaga(env: Env, stp: Step, msg: Message, w: World)
    requires msg.kind == COMPLETE && msg.from != "" && stp.onError.Some? && Untraced(env, stp, msg, w)
    ensures Parse(msg.saga).Some?
  {
    UntracedPublishes(env, stp, msg, w);
    var p := ExecutePlan(env, stp, msg);
    var r := UserRun(env, Job(p, Act(stp.execute)), stp.retry, w);
    if Parse(msg.saga).None? { BarredInfra(env, Job(p, Handle(stp.onError.value, r.err.value)), r.w); }
  }

  /** The action fails with the given error. */
  function FailingWith(cause: ForeignErr, route: Route, handler: HandlerFn): Step {
    Step(route, (_, _, m) => Failed(m, cause), (_, b, m) => Done(m, b), None, Some(handler), None)
  }

  /** No fault, empty tables, and a clock that makes the action run at t - 1 and the handler at t. */
  function FreshAt(tables: Business, t: nat): World
    requires t > 0
  {
    World(Db({}, map[], tables, []), [], t - 1, 0, 0, 0, None)
  }

  lemma StrayRuns(handler: HandlerFn, route: Route, msg: Message, t: nat, tables: Business, cause: ForeignErr)
    requires t > 0 && Parse(msg.saga).Some? && handler(t, tables, msg, cause).Failed?
    ensures var env, stp := Env(CALM, None, true), FailingWith(cause, route, handler);
            var p := ExecutePlan(env, stp, msg);
            var r := UserRun(env, Job(p, Act(stp.execute)), None, FreshAt(tables, t));
            var h := InfraRun(env, Job(p, Handle(handler, cause)), r.w);
            && r.err == Some(cause) && h.err == Some(handler(t, tables, msg, cause).err)
            && h.left == handler(t, tables, msg, cause).msg && h.w.db == FreshAt(tables, t).db
  {
    var env, stp, w := Env(CALM, None, true), FailingWith(cause, route, handler), FreshAt(tables, t);
    var p := ExecutePlan(env, stp, msg);
    var job, handling := Job(p, Act(stp.execute)), Job(p, Handle(handler, cause));
    assert Perform(env, One(job), Cell(w, EMPTY, EMPTY)).1 == Some(Errors.Action(cause));
    assert FindAction(Errors.Action(cause)) == Some(cause);
    var r := UserRun(env, job, None, w);
    assert r.w.db == w.db && r.w.clock == t;
    var o := handler(t, tables, msg, cause);
    assert Perform(env, One(handling), Cell(r.w, EMPTY, EMPTY)).1 == Some(Errors.Action(o.err));
    assert FindAction(Errors.Action(o.err)) == Some(o.err);
  }

  lemma StrayIsUntraced(handler: HandlerFn, route: Route, msg: Message, t: nat, tables: Business, cause: ForeignErr)
    requires msg.kind == COMPLETE && msg.from != "" && t > 0 && Strays(handler(t, tables, msg, cause), msg)
    requires route.errors != [] && NoRepeat(route.errors) && Parse(msg.saga).Some?
    ensures Untraced(Env(CALM, None, true), FailingWith(cause, route, handler), msg, FreshAt(tables, t))
  {
    var env, stp, w := Env(CALM, None, true), FailingWith(cause, route, handler), FreshAt(tables, t);
    var p := ExecutePlan(env, stp, msg);
    var left := handler(t, tables, msg, cause).msg;
    StrayRuns(handler, route, msg, t, tables, cause);
    var h := InfraRun(env, Job(p, Handle(handler, cause)), UserRun(env, Job(p, Act(stp.execute)), None, w).w);
    EventIfFits(env, stp, EventMessage(msg, left), h.w);
    EventRows(env, stp, EventMessage(msg, left), h.w);
    assert route.errors[0] in stp.route.errors && !Traced(env, stp, msg, w.db);
    TraceIff(env, stp, msg, w);
  }

  /** An error handler can lose the trace of a message iff it can fail and leave a storable message of another saga. */
  lemma StrayIff(handler: HandlerFn, route: Route, msg: Message)
    requires msg.kind == COMPLETE && msg.from != ""
    ensures LosesTrace(handler, route, msg) <==>
            route.errors != [] && NoRepeat(route.errors) && Parse(msg.saga).Some? && CanStray(handler, msg)
  {
    if env: Env, stp: Step, w: World :|
       stp.onError == Some(handler) && stp.route == route && Untraced(env, stp, msg, w) {
      UntracedStrays(env, stp, msg, w);
    }
    if route.errors != [] && NoRepeat(route.errors) && Parse(msg.saga).Some? && CanStray(handler, msg) {
      var t: nat, tables: Business, cause: ForeignErr :| t > 0 && Strays(handler(t, tables, msg, cause), msg);
      StrayIsUntraced(handler, route, msg, t, tables, cause);
    }
  }
}
