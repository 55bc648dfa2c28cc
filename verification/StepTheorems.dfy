/** What ExecuteStep, CompensateStep and the subscription handler guarantee over whole runs. */
module StepTheorems {
  import opened Message
  import opened Uuid
  import opened Errors
  import opened Journal
  import opened ExecutorSpec
  import opened ExecutorOutcome
  import opened Blame

  ghost predicate ByHandler(p: Plan, handler: Option<HandlerFn>, b: Bundle) {
    handler.Some? && exists cause :: Made(Job(p, Handle(handler.value, cause)), b)
  }

  /** The bundle of a successful action or of a successful error handler of this execution. */
  ghost predicate MainBundle(env: Env, stp: Step, msg: Message, b: Bundle) {
    var p := ExecutePlan(env, stp, msg);
    Made(Job(p, Act(stp.execute)), b) || ByHandler(p, stp.onError, b)
  }

  /** `left` is what a failing OnError returned beside its error, or no OnError failed. */
  ghost predicate LeftBehind(stp: Step, msg: Message, left: Message) {
    || left == EMPTY
    || (stp.onError.Some? && exists t, tables, cause: ForeignErr, e ::
          IsFailure(stp.onError.value(t, tables, msg, cause), left, e))
  }

  /** All failure rows, and nothing else; their message is the handler's own if it left one. */
  ghost predicate FailureBundle(stp: Step, msg: Message, b: Bundle) {
    && stp.route.errors != []
    && exists left | LeftBehind(stp, msg, left) :: Made(Job(EventPlan(stp.route, EventMessage(msg, left)), Relay), b)
  }

  ghost predicate CompensateBundle(env: Env, stp: Step, msg: Message, b: Bundle) {
    var p := CompensatePlan(env, stp, msg);
    Made(Job(p, Act(stp.compensate)), b) || ByHandler(p, stp.onCompensateError, b)
  }

  ghost predicate Claimed(p: Plan, db: Db) {
    KeyFor(p).Some? && KeyFor(p).value in db.inbox
  }

  ghost predicate Extends(env: Env, v: World, w: World) {
    Grows(v, w) && (Quiet(env) ==> Accounts(v.db, News(v, w), w.db))
  }

  lemma ExtendsThen(env: Env, v: World, w: World, x: World)
    requires Extends(env, v, w) && Extends(env, w, x)
    ensures Extends(env, v, x) && News(v, x) == News(v, w) + News(w, x)
  {
    assert News(v, x) == News(v, w) + News(w, x);
    ApplyAllConcat(v.db, News(v, w), News(w, x));
  }

  lemma PublishEffect(env: Env, stp: Step, msg: Message, left: Message, w: World)
    requires LeftBehind(stp, msg, left)
    ensures var r := PublishEvent(env, stp.route, EventMessage(msg, left), w);
            && Extends(env, w, r.w)
            && |News(w, r.w)| <= 1
            && (forall b | b in News(w, r.w) :: FailureBundle(stp, msg, b))
            && (r.err.None? && stp.route.errors != [] ==> News(w, r.w) != [])
            && (r.err.Some? && Definite(env) ==> News(w, r.w) == [])
            && r.out == EMPTY
            && (r.err.Some? ==> !Is(r.err.value, Duplicate))
  {
    var job := Job(EventPlan(stp.route, EventMessage(msg, left)), Relay);
    if stp.route.errors != [] { InfraEffect(env, job, w); }
  }

  /** The part of ExecuteStep before the failure event. */
  ghost predicate MainPhase(env: Env, stp: Step, msg: Message, v: World, w: World, out: Message, e: Option<Err>) {
    var p := ExecutePlan(env, stp, msg);
    var news := News(v, w);
    && Extends(env, v, w)
    && (forall b | b in news :: MainBundle(env, stp, msg, b))
    && (e.None? ==> news != [] && out == news[|news| - 1].msg)
    && (Spent(p, v.db) ==> e.Some? && news == [])
    && (Keyed(p) || Definite(env) ==>
          && |news| <= 1
          && (news != [] && Keyed(p) ==> Spent(p, w.db))
          && (news != [] && Definite(env) ==> e.None?))
    && SeenDuplicate(p, w.db, e)
  }

  lemma ActionPhase(env: Env, stp: Step, msg: Message, w: World)
    ensures var p := ExecutePlan(env, stp, msg);
            var r := UserRun(env, Job(p, Act(stp.execute)), stp.retry, w);
            MainPhase(env, stp, msg, w, r.w, r.out, r.err)
  {
    UserEffect(env, Job(ExecutePlan(env, stp, msg), Act(stp.execute)), stp.retry, w);
  }

  lemma HandlerPhase(env: Env, stp: Step, msg: Message, v: World, w: World, out: Message, cause: Err)
    requires stp.onError.Some? && MainPhase(env, stp, msg, v, w, out, Some(cause))
    ensures var job := Job(ExecutePlan(env, stp, msg), Handle(stp.onError.value, cause));
            var h := InfraRun(env, job, w);
            MainPhase(env, stp, msg, v, h.w, h.out, h.err)
  {
    var p := ExecutePlan(env, stp, msg);
    var job := Job(p, Handle(stp.onError.value, cause));
    var h := InfraRun(env, job, w);
    InfraEffect(env, job, w);
    ExtendsThen(env, v, w, h.w);
    var m, n := News(v, w), News(w, h.w);
    if Spent(p, v.db) { SpentStays(p, v.db, w.db); }
    if m != [] && Spent(p, w.db) { SpentStays(p, w.db, h.w.db); }
    forall b | b in m + n ensures MainBundle(env, stp, msg, b) {
      if b !in m { assert ByHandler(p, stp.onError, b); }
    }
  }

  /** Committed by an execution, in order: nothing, the main bundle, the failure rows, or both
      after a lost acknowledgement. */
  ghost predicate ExecuteOutcome(env: Env, stp: Step, msg: Message, news: seq<Bundle>, out: Message) {
    || (news == [] && out == EMPTY)
    || (|news| == 1 && MainBundle(env, stp, msg, news[0]) && (out == news[0].msg || (out == EMPTY && !Definite(env))))
    || (|news| == 1 && FailureBundle(stp, msg, news[0]) && out == EMPTY)
    || (|news| == 2 && MainBundle(env, stp, msg, news[0]) && FailureBundle(stp, msg, news[1]) && out == EMPTY
        && !Definite(env))
  }

  /** How an execution ends: only complete bundles, and no error only for a reason that is visible in the tables. */
  ghost predicate Finished(env: Env, stp: Step, msg: Message, v: World, r: Result) {
    var p := ExecutePlan(env, stp, msg);
    var news := News(v, r.w);
    && Extends(env, v, r.w)
    && (forall b | b in news :: MainBundle(env, stp, msg, b) || FailureBundle(stp, msg, b))
    && (Keyed(p) || Definite(env) ==> ExecuteOutcome(env, stp, msg, news, r.out))
    && (Definite(env) && r.err.Some? ==> news == [])
    && (r.err.None? ==>
          || (exists b :: b in news && MainBundle(env, stp, msg, b))
          || (exists b :: b in news && FailureBundle(stp, msg, b))
          || (stp.onError.None? && Claimed(p, r.w.db))
          || stp.route.errors == [])
    && (r.err.Some? ==> !Is(r.err.value, Duplicate))
  }

  lemma MainFinishes(env: Env, stp: Step, msg: Message, v: World, w: World, out: Message)
    requires MainPhase(env, stp, msg, v, w, out, None)
    ensures Finished(env, stp, msg, v, Result(w, out, None))
  {
    var news := News(v, w);
    assert news[|news| - 1] in news;
  }

  lemma DuplicateFinishes(env: Env, stp: Step, msg: Message, v: World, w: World, out: Message, e: Err)
    requires MainPhase(env, stp, msg, v, w, out, Some(e)) && stp.onError.None? && Is(e, Duplicate)
    ensures Finished(env, stp, msg, v, Result(w, EMPTY, None))
  {
    var news := News(v, w);
    if news != [] { assert news[0] in news; }
  }

  lemma ExecuteEffect(env: Env, stp: Step, msg: Message, w: World)
    ensures Finished(env, stp, msg, w, ExecuteStep(env, stp, msg, w))
  {
    var p := ExecutePlan(env, stp, msg);
    var r := UserRun(env, Job(p, Act(stp.execute)), stp.retry, w);
    ActionPhase(env, stp, msg, w);
    if r.err.None? {
      MainFinishes(env, stp, msg, w, r.w, r.out);
    } else if stp.onError.None? {
      if Is(r.err.value, Duplicate) {
        DuplicateFinishes(env, stp, msg, w, r.w, r.out, r.err.value);
      } else {
        assert EventMessage(msg, EMPTY) == msg;
        FailureFinishes(env, stp, msg, w, r.w, r.out, r.err.value, EMPTY);
      }
    } else {
      HandlerPhase(env, stp, msg, w, r.w, r.out, r.err.value);
      var h := InfraRun(env, Job(p, Handle(stp.onError.value, r.err.value)), r.w);
      if h.err.None? {
        MainFinishes(env, stp, msg, w, h.w, h.out);
      } else {
        LeftByHandler(env, stp, msg, r.err.value, r.w);
        FailureFinishes(env, stp, msg, w, h.w, h.out, h.err.value, h.left);
      }
    }
  }

  lemma LeftByHandler(env: Env, stp: Step, msg: Message, cause: Err, w: World)
    requires stp.onError.Some?
    ensures LeftBehind(stp, msg,
                       InfraRun(env, Job(ExecutePlan(env, stp, msg), Handle(stp.onError.value, cause)), w).left)
  {
    var job := Job(ExecutePlan(env, stp, msg), Handle(stp.onError.value, cause));
    var r := InfraRun(env, job, w);
    NeverMixes(env, job, w);
    if r.left != EMPTY {
      var t, tables :| w.clock <= t && IsFailure(RunBody(job.body, t, tables, msg), r.left, r.err.value);
      assert Foreign(cause) && IsFailure(stp.onError.value(t, tables, msg, cause), r.left, r.err.value);
    }
  }

  lemma FailureFinishes(env: Env, stp: Step, msg: Message, v: World, w: World, out: Message, e: Err, left: Message)
    requires MainPhase(env, stp, msg, v, w, out, Some(e)) && LeftBehind(stp, msg, left)
    ensures Finished(env, stp, msg, v, PublishEvent(env, stp.route, EventMessage(msg, left), w))
  {
    var r := PublishEvent(env, stp.route, EventMessage(msg, left), w);
    PublishEffect(env, stp, msg, left, w);
    ExtendsThen(env, v, w, r.w);
    var m, n := News(v, w), News(w, r.w);
    assert News(v, r.w) == m + n;
    if n != [] { assert n[0] in m + n && FailureBundle(stp, msg, n[0]); }
    if m != [] { assert m[0] in m; }
  }

  lemma ApplyOne(db: Db, bs: seq<Bundle>)
    requires |bs| <= 1
    ensures ApplyAll(db, bs) == if bs == [] then db else Apply(db, bs[0])
    ensures FitsAll(db, bs) && bs != [] ==> Serial(db, bs[0])
  {
    if bs != [] { assert bs[..|bs| - 1] == []; }
  }

  /** With truthful commits ExecuteStep has one outcome; an error means this executor changed nothing. */
  lemma SingleOutcome(env: Env, stp: Step, msg: Message, w: World)
    requires Definite(env)
    ensures var r := ExecuteStep(env, stp, msg, w);
            var news := News(w, r.w);
            && r.w.own == w.own + news
            && (r.err.Some? ==> news == [] && r.out == EMPTY)
            && (r.err.None? ==>
                  || (|news| == 1 && MainBundle(env, stp, msg, news[0]) && r.out == news[0].msg)
                  || (|news| == 1 && FailureBundle(stp, msg, news[0]) && r.out == EMPTY)
                  || (news == [] && r.out == EMPTY &&
                      ((stp.onError.None? && Claimed(ExecutePlan(env, stp, msg), r.w.db)) || stp.route.errors == [])))
  {
    ExecuteEffect(env, stp, msg, w);
    var news := News(w, ExecuteStep(env, stp, msg, w).w);
    if news != [] { assert news[0] in news; }
  }

  /** If nobody else commits, that outcome is all that happened to the database. */
  lemma SingleChange(env: Env, stp: Step, msg: Message, w: World)
    requires Definite(env) && Quiet(env)
    ensures var r := ExecuteStep(env, stp, msg, w);
            || r.w.db == w.db
            || (r.err.None? && exists b :: (MainBundle(env, stp, msg, b) || FailureBundle(stp, msg, b))
                                 && Serial(w.db, b) && r.w.db == Apply(w.db, b))
  {
    ExecuteEffect(env, stp, msg, w);
    var news := News(w, ExecuteStep(env, stp, msg, w).w);
    if news != [] { assert news[0] in news; }
    ApplyOne(w.db, news);
  }

  /** Whatever commits answer, a keyed execution commits its action or its handler at most once,
      failure rows at most once. */
  lemma OnceDespiteLostAcks(env: Env, stp: Step, msg: Message, w: World)
    requires Keyed(ExecutePlan(env, stp, msg))
    ensures ExecuteOutcome(env, stp, msg, News(w, ExecuteStep(env, stp, msg, w).w), ExecuteStep(env, stp, msg, w).out)
  {
    ExecuteEffect(env, stp, msg, w);
  }

  /** The start of a saga claims nothing, yet its first outbox row stops a second commit. */
  lemma StartCommitsOnce(env: Env, stp: Step, msg: Message, w: World)
    requires msg.from == "" && stp.route.next != []
    ensures var news := News(w, ExecuteStep(env, stp, msg, w).w);
            && |news| <= 2
            && (|news| == 2 ==> MainBundle(env, stp, msg, news[0]) && FailureBundle(stp, msg, news[1]))
            && (forall b | b in news :: b.claim.None?)
  {
    OnceDespiteLostAcks(env, stp, msg, w);
    assert !ExecutePlan(env, stp, msg).claims;
  }

  ghost predicate CompensatePhase(env: Env, stp: Step, msg: Message, v: World, w: World, e: Option<Err>) {
    var p := CompensatePlan(env, stp, msg);
    var news := News(v, w);
    && Extends(env, v, w)
    && (forall b | b in news :: CompensateBundle(env, stp, msg, b))
    && (e.None? ==> news != [])
    && (Spent(p, v.db) ==> e.Some? && news == [])
    && (Keyed(p) || Definite(env) ==>
          && |news| <= 1
          && (news != [] && Keyed(p) ==> Spent(p, w.db))
          && (news != [] && Definite(env) ==> e.None?))
    && SeenDuplicate(p, w.db, e)
  }

  lemma CompensateHandlerPhase(env: Env, stp: Step, msg: Message, v: World, w: World, cause: Err)
    requires stp.onCompensateError.Some? && CompensatePhase(env, stp, msg, v, w, Some(cause))
    ensures var job := Job(CompensatePlan(env, stp, msg), Handle(stp.onCompensateError.value, cause));
            var h := InfraRun(env, job, w);
            CompensatePhase(env, stp, msg, v, h.w, h.err)
  {
    var p := CompensatePlan(env, stp, msg);
    var job := Job(p, Handle(stp.onCompensateError.value, cause));
    var h := InfraRun(env, job, w);
    InfraEffect(env, job, w);
    ExtendsThen(env, v, w, h.w);
    var m, n := News(v, w), News(w, h.w);
    if Spent(p, v.db) { SpentStays(p, v.db, w.db); }
    if m != [] && Spent(p, w.db) { SpentStays(p, w.db, h.w.db); }
    forall b | b in m + n ensures CompensateBundle(env, stp, msg, b) {
      if b !in m { assert ByHandler(p, stp.onCompensateError, b); }
    }
  }

  lemma CompensateRuns(env: Env, stp: Step, msg: Message, w: World)
    ensures var r := CompensateStep(env, stp, msg, w); CompensatePhase(env, stp, msg, w, r.w, r.err)
  {
    var job := Job(CompensatePlan(env, stp, msg), Act(stp.compensate));
    var r := UserRun(env, job, stp.retry, w);
    UserEffect(env, job, stp.retry, w);
    if r.err.Some? && stp.onCompensateError.Some? {
      CompensateHandlerPhase(env, stp, msg, w, r.w, r.err.value);
    }
  }

  /** CompensateStep returns no error exactly when one compensation bundle was committed. */
  lemma CompensateOutcome(env: Env, stp: Step, msg: Message, w: World)
    ensures var r := CompensateStep(env, stp, msg, w);
            var news := News(w, r.w);
            && r.w.own == w.own + news
            && (forall b | b in news :: CompensateBundle(env, stp, msg, b))
            && (r.err.None? ==> news != [])
            && (Keyed(CompensatePlan(env, stp, msg)) || Definite(env) ==> |news| <= 1)
            && (Definite(env) ==> (r.err.None? <==> |news| == 1))
            && (Quiet(env) && Definite(env) && r.err.None? ==> Serial(w.db, news[0]) && r.w.db == Apply(w.db, news[0]))
            && (Quiet(env) && Definite(env) && r.err.Some? ==> r.w.db == w.db)
  {
    CompensateRuns(env, stp, msg, w);
    var news := News(w, CompensateStep(env, stp, msg, w).w);
    if |news| <= 1 { ApplyOne(w.db, news); }
  }

  /** A failing OnError may only leave a message of the same saga. */
  ghost predicate KeepsSaga(stp: Step, msg: Message) {
    stp.onError.Some? ==>
      forall t, tables, cause: ForeignErr ::
        var o := stp.onError.value(t, tables, msg, cause);
        o.Failed? ==> o.msg.saga == "" || o.msg.saga == msg.saga
  }

  ghost predicate FailureRows(stp: Step, saga: Uuid, db: Db) {
    forall t | t in stp.route.errors :: OutboxKey(saga, t, Compensate) in db.outbox
  }

  /** The saga the failure rows belong to. */
  lemma FailureBundleRows(stp: Step, msg: Message, b: Bundle, db: Db) returns (s: Uuid)
    requires FailureBundle(stp, msg, b) && StoredIn(b, db)
    ensures FailureRows(stp, s, db)
    ensures KeepsSaga(stp, msg) ==> Parse(msg.saga) == Some(s)
  {
    s := Parse(b.plan.msg.saga).value;
    forall t | t in stp.route.errors ensures OutboxKey(s, t, Compensate) in db.outbox {
      assert OutboxKey(s, t, Compensate) in KeysFor(b.plan, b.msg, b.plan.topics);
    }
  }

  /** An acknowledged message leaves a durable trace, lost commit acknowledgements and other replicas included. */
  lemma AckLeavesTrace(env: Env, stp: Step, msg: Message, w: World)
    requires env.dedup && msg.from != "" && Kept(w)
    requires Deliver(env, stp, msg, w).err.None?
    ensures var db := Deliver(env, stp, msg, w).w.db;
            && (msg.kind == FAILED || msg.kind == COMPLETE)
            && (msg.kind == FAILED ==> Claimed(CompensatePlan(env, stp, msg), db))
            && (msg.kind == COMPLETE ==>
                  || Claimed(ExecutePlan(env, stp, msg), db)
                  || stp.route.errors == []
                  || (exists s :: FailureRows(stp, s, db) && (KeepsSaga(stp, msg) ==> Parse(msg.saga) == Some(s))))
  {
    if msg.kind == COMPLETE {
      var r := ExecuteStep(env, stp, msg, w);
      ExecuteEffect(env, stp, msg, w);
      var news := News(w, r.w);
      if b :| b in news && MainBundle(env, stp, msg, b) {
        assert b in r.w.own && StoredIn(b, r.w.db);
      } else if b :| b in news && FailureBundle(stp, msg, b) {
        assert b in r.w.own;
        var s := FailureBundleRows(stp, msg, b, r.w.db);
      }
    } else if msg.kind == FAILED {
      var r := CompensateStep(env, stp, msg, w);
      CompensateRuns(env, stp, msg, w);
      if r.err.None? {
        var news := News(w, r.w);
        assert news[0] in news && news[0] in r.w.own && StoredIn(news[0], r.w.db);
      }
    }
  }
}
