/** What committed bundles hold, in terms of a step's own functions and topics. */
module Contents {
  import opened Message
  import opened Uuid
  import opened Errors
  import opened Journal
  import opened ExecutorSpec
  import opened ExecutorOutcome
  import opened StepTheorems

  /** The result m of user code as it is sent: under the saga of the incoming message, and, if there
      are topics, with the type of the phase and the step as its sender. */
  predicate SentAs(m: Message, sent: Message, saga: string, kind: string, name: string, topics: seq<string>) {
    sent == if topics == [] then m.(saga := saga) else m.(saga := saga, kind := kind, from := name)
  }

  /** One row per topic under the saga of the message, all with that message, and no other row. */
  ghost predicate RowsTo(b: Bundle, topics: seq<string>, phase: Phase, name: string) {
    && (forall i, j | 0 <= i < j < |topics| :: topics[i] != topics[j])
    && (topics == [] ==> b.rows == map[])
    && (topics != [] ==>
          && Parse(b.msg.saga).Some?
          && b.rows.Keys == (set t | t in topics :: OutboxKey(Parse(b.msg.saga).value, t, phase))
          && forall k | k in b.rows :: b.rows[k] == Row(name, b.msg))
  }

  /** User code returned o on the recorded tables, and the bundle is what that stands for. */
  ghost predicate Stands(o: Outcome, b: Bundle, saga: string, kind: string, name: string, topics: seq<string>,
                         phase: Phase)
  {
    && o.Done? && b.business == o.business
    && SentAs(o.msg, b.msg, saga, kind, name, topics) && RowsTo(b, topics, phase, name)
  }

  ghost predicate ClaimsFor(dedup: bool, msg: Message, b: Bundle) {
    if dedup && msg.from != "" then
      Parse(msg.saga).Some? && b.claim == Some(InboxKey(Parse(msg.saga).value, msg.from))
    else b.claim == None
  }

  ghost predicate ByAction(f: ActionFn, route: Route, msg: Message, b: Bundle, kind: string, topics: seq<string>,
                           phase: Phase)
  {
    Stands(f(b.at, b.before, msg), b, msg.saga, kind, route.name, topics, phase)
  }

  ghost predicate ByHandlerFn(h: Option<HandlerFn>, route: Route, msg: Message, b: Bundle, kind: string,
                              topics: seq<string>, phase: Phase)
  {
    h.Some? && exists cause: ForeignErr ::
      Stands(h.value(b.at, b.before, msg, cause), b, msg.saga, kind, route.name, topics, phase)
  }

  /** The step went forward: its action or its error handler ran on the incoming message, and the
      result goes to every next topic. */
  ghost predicate WentForward(dedup: bool, stp: Step, msg: Message, b: Bundle) {
    && ClaimsFor(dedup, msg, b)
    && (ByAction(stp.execute, stp.route, msg, b, "execute", stp.route.next, Execute)
        || ByHandlerFn(stp.onError, stp.route, msg, b, "execute", stp.route.next, Execute))
  }

  /** The step was compensated: its compensation or the error handler of that ran on the incoming
      message, and the result goes to every error topic. */
  ghost predicate WentBack(dedup: bool, stp: Step, msg: Message, b: Bundle) {
    && ClaimsFor(dedup, msg, b)
    && (ByAction(stp.compensate, stp.route, msg, b, "failed", stp.route.errors, Compensate)
        || ByHandlerFn(stp.onCompensateError, stp.route, msg, b, "failed", stp.route.errors, Compensate))
  }

  /** What a failing error handler left beside its error, under the incoming saga unless it names one;
      or else the incoming message. */
  ghost predicate EventOf(stp: Step, msg: Message, m: Message) {
    || m == msg
    || (stp.onError.Some? && exists t, tables, cause: ForeignErr ::
          var o := stp.onError.value(t, tables, msg, cause);
          && o.Failed? && (o.msg.saga != "" || o.msg.payload != map[])
          && m == o.msg.(saga := if o.msg.saga == "" then msg.saga else o.msg.saga))
  }

  /** A failure event: no claim, no change to the tables, and one message to every error topic. */
  ghost predicate ToldFailure(stp: Step, msg: Message, b: Bundle) {
    && b.claim == None && b.business == b.before && stp.route.errors != []
    && RowsTo(b, stp.route.errors, Compensate, stp.route.name)
    && exists m :: EventOf(stp, msg, m) && b.msg == m.(kind := "failed", from := stp.route.name)
  }

  lemma MadeStands(job: Job, b: Bundle, o: Outcome)
    requires Made(job, b) && o == RunBody(job.body, b.at, b.before, job.plan.msg)
    ensures Stands(o, b, job.plan.msg.saga, job.plan.kind, job.plan.step, job.plan.topics, job.plan.phase)
    ensures b.claim == KeyFor(job.plan) && (job.plan.claims ==> b.claim.Some?)
  {
    var p := job.plan;
    if p.topics != [] {
      var keys := set t | t in p.topics :: OutboxKey(Parse(b.msg.saga).value, t, p.phase);
      assert b.rows.Keys == keys;
    } else {
      assert b.rows == map[];
    }
  }

  lemma MainIs(env: Env, stp: Step, msg: Message, b: Bundle)
    requires MainBundle(env, stp, msg, b)
    ensures WentForward(env.dedup, stp, msg, b)
  {
    var p := ExecutePlan(env, stp, msg);
    if Made(Job(p, Act(stp.execute)), b) {
      MadeStands(Job(p, Act(stp.execute)), b, stp.execute(b.at, b.before, msg));
    } else {
      var cause :| Made(Job(p, Handle(stp.onError.value, cause)), b);
      assert Foreign(cause);
      MadeStands(Job(p, Handle(stp.onError.value, cause)), b, stp.onError.value(b.at, b.before, msg, cause));
    }
  }

  lemma CompensationIs(env: Env, stp: Step, msg: Message, b: Bundle)
    requires CompensateBundle(env, stp, msg, b)
    ensures WentBack(env.dedup, stp, msg, b)
  {
    var p := CompensatePlan(env, stp, msg);
    if Made(Job(p, Act(stp.compensate)), b) {
      MadeStands(Job(p, Act(stp.compensate)), b, stp.compensate(b.at, b.before, msg));
    } else {
      var cause :| Made(Job(p, Handle(stp.onCompensateError.value, cause)), b);
      assert Foreign(cause);
      MadeStands(Job(p, Handle(stp.onCompensateError.value, cause)), b,
                 stp.onCompensateError.value(b.at, b.before, msg, cause));
    }
  }

  lemma LeftIsEvent(stp: Step, msg: Message, left: Message)
    requires LeftBehind(stp, msg, left)
    ensures EventOf(stp, msg, EventMessage(msg, left))
  {
    if EventMessage(msg, left) != msg {
      var t, tables, cause: ForeignErr, e :|
        stp.onError.Some? && Blame.IsFailure(stp.onError.value(t, tables, msg, cause), left, e);
      var o := stp.onError.value(t, tables, msg, cause);
      assert EventMessage(msg, left) == o.msg.(saga := if o.msg.saga == "" then msg.saga else o.msg.saga);
    }
  }

  lemma FailureIs(stp: Step, msg: Message, b: Bundle)
    requires FailureBundle(stp, msg, b)
    ensures ToldFailure(stp, msg, b)
  {
    var left :| LeftBehind(stp, msg, left) && Made(Job(EventPlan(stp.route, EventMessage(msg, left)), Relay), b);
    var m := EventMessage(msg, left);
    var p := EventPlan(stp.route, m);
    MadeStands(Job(p, Relay), b, Done(p.msg, b.before));
    LeftIsEvent(stp, msg, left);
    assert b.msg == m.(kind := "failed", from := stp.route.name);
  }

  /** The tables after one bundle. */
  ghost predicate TablesAfter(a: Db, b: Bundle, c: Db) {
    && b.before == a.business && c.business == b.business
    && c.inbox == a.inbox + (if b.claim.Some? then {b.claim.value} else {})
    && c.outbox == a.outbox + b.rows && a.outbox.Keys !! b.rows.Keys
  }

  /** Every bundle of a delivered execution holds the result of the step's own code on that message,
      addressed to its own topics. */
  lemma ExecutionSends(env: Env, stp: Step, msg: Message, w: World)
    requires msg.kind == "execute"
    ensures var r := Deliver(env, stp, msg, w);
            var news := News(w, r.w);
            && r.w.own == w.own + news
            && (forall b | b in news :: WentForward(env.dedup, stp, msg, b) || ToldFailure(stp, msg, b))
            && (Definite(env) ==> |news| <= 1 && (r.err.Some? ==> news == []))
            && (Definite(env) && Quiet(env) ==>
                  if news == [] then r.w.db == w.db else TablesAfter(w.db, news[0], r.w.db))
  {
    var r := Deliver(env, stp, msg, w);
    var news := News(w, r.w);
    ExecuteEffect(env, stp, msg, w);
    forall b | b in news ensures WentForward(env.dedup, stp, msg, b) || ToldFailure(stp, msg, b) {
      if MainBundle(env, stp, msg, b) { MainIs(env, stp, msg, b); } else { FailureIs(stp, msg, b); }
    }
    if |news| <= 1 { ApplyOne(w.db, news); }
  }

  /** The same for a delivered compensation: no error means one such bundle, unless it is a duplicate. */
  lemma CompensationSends(env: Env, stp: Step, msg: Message, w: World)
    requires msg.kind == "failed"
    ensures var r := Deliver(env, stp, msg, w);
            var news := News(w, r.w);
            && r.w.own == w.own + news && (forall b | b in news :: WentBack(env.dedup, stp, msg, b))
            && (Definite(env) ==> |news| <= 1 && (r.err.Some? ==> news == []))
            && (Definite(env) && CompensateStep(env, stp, msg, w).err.None? ==> |news| == 1)
            && (Definite(env) && Quiet(env) ==>
                  if news == [] then r.w.db == w.db else TablesAfter(w.db, news[0], r.w.db))
  {
    var r := Deliver(env, stp, msg, w);
    var news := News(w, r.w);
    CompensateOutcome(env, stp, msg, w);
    forall b | b in news ensures WentBack(env.dedup, stp, msg, b) { CompensationIs(env, stp, msg, b); }
  }

  /** Any other message is refused and changes nothing. */
  lemma OtherTypesRefused(env: Env, stp: Step, msg: Message, w: World)
    requires msg.kind != "execute" && msg.kind != "failed"
    ensures Deliver(env, stp, msg, w).err.Some? && Deliver(env, stp, msg, w).w == w
  {
  }
}
