/** Sagas started in one process: steps run one after another without the broker. */
module Chains {
  import opened Message
  import opened Uuid
  import opened Journal
  import opened ExecutorSpec
  import opened ExecutorOutcome
  import opened StepTheorems
  import opened Errors
  import opened Budget
  import opened Schedule
  import opened Progress
  import opened Duplicates
  import opened Json
  import opened Blame

  /** How many bundles of saga text `saga` went forward. */
  function Forward(bs: seq<Bundle>, saga: string): nat {
    if bs == [] then 0
    else Forward(bs[..|bs| - 1], saga)
         + if bs[|bs| - 1].plan.phase.Execute? && bs[|bs| - 1].msg.saga == saga then 1 else 0
  }

  lemma {:induction false} ForwardConcat(x: seq<Bundle>, y: seq<Bundle>, saga: string)
    ensures Forward(x + y, saga) == Forward(x, saga) + Forward(y, saga)
  {
    if y == [] {
      assert x + y == x;
    } else {
      var n := |y| - 1;
      assert (x + y)[..|x + y| - 1] == x + y[..n];
      ForwardConcat(x, y[..n], saga);
    }
  }

  /** From a message of the saga, or an empty one, n steps led to r: the saga is kept iff all n went forward. */
  ghost predicate KeptIff(v: World, msg: Message, r: Result, saga: string, n: nat) {
    var forward := Forward(News(v, r.w), saga);
    && Grows(v, r.w)
    && forward <= n
    && (r.out.saga == saga || r.out.saga == "")
    && (msg.saga == saga ==> (r.out.saga == saga <==> forward == n))
    && (msg.saga == "" ==> r.out.saga == "" && forward == 0)
  }

  lemma ForwardOne(b: Bundle, saga: string)
    ensures Forward([b], saga) == if b.plan.phase.Execute? && b.msg.saga == saga then 1 else 0
  {
    assert [b][..0] == [];
  }

  /** The three outcomes of a step that returns no error. */
  lemma OutcomeForward(env: Env, stp: Step, msg: Message, news: seq<Bundle>, out: Message, saga: string)
    requires saga != "" && (msg.saga == saga || msg.saga == "")
    requires || (|news| == 1 && MainBundle(env, stp, msg, news[0]) && out == news[0].msg)
             || (|news| == 1 && FailureBundle(stp, msg, news[0]) && out == EMPTY)
             || (news == [] && out == EMPTY)
    ensures (out.saga == saga || out.saga == "") && Forward(news, saga) == if out.saga == saga then 1 else 0
    ensures msg.saga == "" ==> out.saga == ""
  {
    if |news| == 1 {
      assert news == [news[0]];
      ForwardOne(news[0], saga);
    }
  }

  lemma StepForward(env: Env, stp: Step, msg: Message, w: World, saga: string)
    requires Definite(env) && saga != "" && (msg.saga == saga || msg.saga == "")
    requires ExecuteStep(env, stp, msg, w).err.None?
    ensures KeptIff(w, msg, ExecuteStep(env, stp, msg, w), saga, 1)
  {
    SingleOutcome(env, stp, msg, w);
    ExecuteEffect(env, stp, msg, w);
    var r := ExecuteStep(env, stp, msg, w);
    OutcomeForward(env, stp, msg, News(w, r.w), r.out, saga);
  }

  lemma Tail<T>(a: seq<T>, b: seq<T>, c: seq<T>)
    requires a <= b <= c
    ensures c[|a|..] == b[|a|..] + c[|b|..]
  {
  }

  lemma KeptThen(v: World, msg: Message, r: Result, x: Result, saga: string, n: nat)
    requires saga != "" && (msg.saga == saga || msg.saga == "")
    requires KeptIff(v, msg, r, saga, 1) && KeptIff(r.w, r.out, x, saga, n)
    ensures KeptIff(v, msg, x, saga, n + 1)
  {
    Tail(v.own, r.w.own, x.w.own);
    ForwardConcat(News(v, r.w), News(r.w, x.w), saga);
  }

  /** A chain that returns no error kept its saga iff every one of its steps committed; else it
      went on with an empty message. */
  lemma {:induction false} ChainKeepsSagaIff(env: Env, steps: seq<Step>, msg: Message, w: World, saga: string)
    requires Definite(env) && saga != "" && (msg.saga == saga || msg.saga == "")
    requires Chain(env, steps, msg, w).err.None?
    ensures KeptIff(w, msg, Chain(env, steps, msg, w), saga, |steps|)
    decreases |steps|
  {
    if steps == [] {
      assert News(w, w) == [];
    } else {
      var r := ExecuteStep(env, steps[0], msg, w);
      StepForward(env, steps[0], msg, w, saga);
      ChainKeepsSagaIff(env, steps[1..], r.out, r.w, saga);
      KeptThen(w, msg, r, Chain(env, steps[1..], r.out, r.w), saga, |steps| - 1);
    }
  }

  type Relation = (Step, Message, Bundle) -> bool

  /** What relates a step, its input and the bundle it committed. */
  ghost function Main(env: Env): Relation {
    (stp: Step, m: Message, b: Bundle) => MainBundle(env, stp, m, b)
  }

  /** What step i of a chain receives. */
  function Input(msg: Message, news: seq<Bundle>, i: nat): Message
    requires i <= |news|
  {
    if i == 0 then msg else news[i - 1].msg
  }

  /** Bundle i belongs to step i, on the result of the step before it. */
  ghost predicate Linked(main: Relation, steps: seq<Step>, msg: Message, news: seq<Bundle>) {
    |news| == |steps| && forall i | 0 <= i < |steps| :: main(steps[i], Input(msg, news, i), news[i])
  }

  /** From v to r exactly one main bundle per step was committed, each linked to the next, and r
      returns the last result. */
  ghost predicate LinkedRun(main: Relation, steps: seq<Step>, msg: Message, v: World, r: Result, news: seq<Bundle>) {
    r.w.own == v.own + news && Linked(main, steps, msg, news) && r.out == Input(msg, news, |news|)
  }

  lemma LinkFirst(main: Relation, steps: seq<Step>, msg: Message, b: Bundle, rest: seq<Bundle>)
    requires steps != [] && main(steps[0], msg, b) && Linked(main, steps[1..], b.msg, rest)
    ensures Linked(main, steps, msg, [b] + rest)
  {
    var all := [b] + rest;
    forall i | 0 <= i < |steps| ensures main(steps[i], Input(msg, all, i), all[i]) {
      if i > 0 {
        assert steps[i] == steps[1..][i - 1] && all[i] == rest[i - 1];
        assert Input(msg, all, i) == Input(b.msg, rest, i - 1);
      }
    }
  }

  lemma LinkRun(main: Relation, steps: seq<Step>, msg: Message, v: World, w: World, b: Bundle, x: Result,
                rest: seq<Bundle>)
    requires steps != [] && main(steps[0], msg, b) && w.own == v.own + [b]
    requires LinkedRun(main, steps[1..], b.msg, w, x, rest)
    ensures LinkedRun(main, steps, msg, v, x, [b] + rest)
  {
    Associative(v.own, [b], rest);
    LinkFirst(main, steps, msg, b, rest);
    LastInput(msg, b, rest);
  }

  lemma Associative<T>(x: seq<T>, y: seq<T>, z: seq<T>)
    ensures (x + y) + z == x + (y + z)
  {
  }

  lemma LastInput(msg: Message, b: Bundle, rest: seq<Bundle>)
    ensures Input(msg, [b] + rest, |[b] + rest|) == Input(b.msg, rest, |rest|)
  {
  }

  ghost predicate KeptChain(env: Env, steps: seq<Step>, msg: Message, w: World, saga: string) {
    && Definite(env) && saga != "" && msg.saga == saga
    && Chain(env, steps, msg, w).err.None? && Chain(env, steps, msg, w).out.saga == saga
  }

  /** The first step of such a chain kept the saga, and the rest is such a chain too. */
  lemma KeptChainSplits(env: Env, steps: seq<Step>, msg: Message, w: World, saga: string)
    requires KeptChain(env, steps, msg, w, saga) && steps != []
    ensures var r := ExecuteStep(env, steps[0], msg, w); r.err.None? && KeptChain(env, steps[1..], r.out, r.w, saga)
  {
    var r := ExecuteStep(env, steps[0], msg, w);
    StepForward(env, steps[0], msg, w, saga);
    ChainKeepsSagaIff(env, steps[1..], r.out, r.w, saga);
  }

  lemma StepCommitted(env: Env, stp: Step, msg: Message, w: World) returns (b: Bundle)
    requires Definite(env) && ExecuteStep(env, stp, msg, w).err.None? && ExecuteStep(env, stp, msg, w).out.saga != ""
    ensures var r := ExecuteStep(env, stp, msg, w); r.w.own == w.own + [b] && Main(env)(stp, msg, b) && r.out == b.msg
  {
    SingleOutcome(env, stp, msg, w);
    b := News(w, ExecuteStep(env, stp, msg, w).w)[0];
  }

  /** A chain that keeps its saga hands the committed result of every step to the next one, and returns the last. */
  lemma {:induction false} ChainLinks(env: Env, steps: seq<Step>, msg: Message, w: World, saga: string)
    returns (news: seq<Bundle>)
    requires KeptChain(env, steps, msg, w, saga)
    ensures LinkedRun(Main(env), steps, msg, w, Chain(env, steps, msg, w), news)
    decreases |steps|
  {
    if steps == [] {
      news := [];
    } else {
      KeptChainSplits(env, steps, msg, w, saga);
      var r := ExecuteStep(env, steps[0], msg, w);
      var b := StepCommitted(env, steps[0], msg, w);
      var rest := ChainLinks(env, steps[1..], r.out, r.w, saga);
      LinkRun(Main(env), steps, msg, w, r.w, b, Chain(env, steps[1..], r.out, r.w), rest);
      news := [b] + rest;
    }
  }

  /** A started saga whose call returns its message has committed every step, under its freshly generated identifier. */
  lemma StartedSaga(env: Env, steps: seq<Step>, id: Uuid, msg: Message, w: World)
    requires Definite(env) && StartSaga(env, steps, id, msg, w).err.None?
    ensures var r := StartSaga(env, steps, id, msg, w);
            r.out.saga == Print(id) <==> Forward(News(w, r.w), Print(id)) == |steps|
  {
    ChainKeepsSagaIff(env, steps, msg.(saga := Print(id)), w, Print(id));
  }

  /** Some run of a one-step saga returns no error although the saga is not continued. */
  ghost predicate LosesSaga(stp: Step, id: Uuid, msg: Message) {
    exists env: Env, w: World :: LosesSagaIn(env, stp, id, msg, w)
  }

  ghost predicate LosesSagaIn(env: Env, stp: Step, id: Uuid, msg: Message, w: World) {
    var r := StartSaga(env, [stp], id, msg, w);
    Definite(env) && Lasting(env) && r.err.None? && r.out.saga != Print(id)
  }

  lemma OneStep(env: Env, stp: Step, id: Uuid, msg: Message, w: World)
    ensures var r := ExecuteStep(env, stp, msg.(saga := Print(id)), w);
            StartSaga(env, [stp], id, msg, w) ==
            if r.err.Some? then Result(r.w, EMPTY, r.err) else Result(r.w, r.out, None)
  {
    var r := ExecuteStep(env, stp, msg.(saga := Print(id)), w);
    assert [stp][1..] == [];
    assert Chain(env, [], r.out, r.w) == Result(r.w, r.out, None);
  }

  /** A failed step goes unnoticed by its chain iff its failure event can be written or is not wanted. */
  lemma SilentLossIff(stp: Step, id: Uuid, msg: Message)
    requires msg.from == "" && forall k | k in msg.payload :: Encodable(msg.payload[k])
    ensures LosesSaga(stp, id, msg) <==> stp.route.errors == [] || NoRepeat(stp.route.errors)
  {
    var m := msg.(saga := Print(id));
    if env: Env, w: World :| LosesSagaIn(env, stp, id, msg, w) {
      OneStep(env, stp, id, msg, w);
      SingleOutcome(env, stp, m, w);
    }
    if stp.route.errors == [] || NoRepeat(stp.route.errors) { OutageLoses(stp, id, msg); }
  }

  /** No retrier for infrastructure, and begin fails for all tries of the action and for the error
      handler, but not after. */
  function Outage(stp: Step): Env {
    var tries := if stp.retry.None? then 1 else 3 * stp.retry.value.maxRetries + 1;
    var end := tries + if stp.onError.None? then 0 else 1;
    Env(CALM.(begin := t => if t < end then Some(Plain(0)) else None), None, true)
  }

  lemma OutageRun(stp: Step, job: Job, w: World)
    requires w.clock == 0
    ensures var r := UserRun(Outage(stp), job, stp.retry, w);
            && r.err.Some? && r.w.db == w.db
            && r.w.clock == if stp.retry.None? then 1 else 3 * stp.retry.value.maxRetries + 1
  {
    var env := Outage(stp);
    if AllTries(env, stp.retry) == 0 {
      assert OnePass(env, stp.retry.value, Infra(job), Cell(w, EMPTY, EMPTY), 0, None).Return?;
    } else {
      var P := (m: Memo) => m.db == w.db;
      forall i | 0 <= i < AllTries(env, stp.retry) ensures Misses(env, job, P, TryAt(env, stp.retry, 0, i)) {
        OutageAt(env, stp.retry, 0, i);
        InfraErrorIsClean(Plain(0));
      }
      UserMisses(env, job, P, stp.retry, w);
    }
  }

  /** Without an infrastructure retrier try i of a user loop is made at 3 * i + 1. */
  lemma {:induction false} OutageAt(env: Env, retry: Option<Retrier>, clock: nat, i: nat)
    requires env.infra.None?
    ensures TryAt(env, retry, clock, i) == if retry.None? then clock else clock + 3 * i + 1
    decreases i
  {
    if retry.Some? && i > 0 { OutageAt(env, retry, clock + 3, i - 1); }
  }

  lemma OutageLoses(stp: Step, id: Uuid, msg: Message)
    requires msg.from == "" && forall k | k in msg.payload :: Encodable(msg.payload[k])
    requires stp.route.errors == [] || NoRepeat(stp.route.errors)
    ensures LosesSaga(stp, id, msg)
  {
    PrintParse(id);
    var env, m := Outage(stp), msg.(saga := Print(id));
    var w := World(Db({}, map[], map[], []), [], 0, 0, 0, 0, None);
    var p := ExecutePlan(env, stp, m);
    var r := UserRun(env, Job(p, Act(stp.execute)), stp.retry, w);
    OutageRun(stp, Job(p, Act(stp.execute)), w);
    var v := r.w;
    if stp.onError.Some? {
      var handling := Job(p, Handle(stp.onError.value, r.err.value));
      assert Perform(env, One(handling), Cell(v, EMPTY, EMPTY)).1 == Some(InfraError(Plain(0)));
      InfraErrorIsClean(Plain(0));
      v := InfraRun(env, handling, v).w;
    } else {
      UserErrors(env, Job(p, Act(stp.execute)), stp.retry, w);
      UserEffect(env, Job(p, Act(stp.execute)), stp.retry, w);
      if Foreign(r.err.value) { ForeignIsClean(r.err.value); }
    }
    assert v.db == w.db;
    if stp.route.errors != [] { EventIfFits(env, stp, m, v); }
    OneStep(env, stp, id, msg, w);
    assert LosesSagaIn(env, stp, id, msg, w);
  }

  // ---- where a chain stops ----

  /** After the first j steps, each on the result of the step before it, whatever they returned. */
  function After(env: Env, steps: seq<Step>, msg: Message, w: World, j: nat): Result
    requires j <= |steps|
    decreases j
  {
    if j == 0 then Result(w, msg, None)
    else
      var r := After(env, steps, msg, w, j - 1);
      ExecuteStep(env, steps[j - 1], r.out, r.w)
  }

  /** Steps before j return no error. */
  ghost predicate GoesOnTo(env: Env, steps: seq<Step>, msg: Message, w: World, j: nat) {
    j <= |steps| && forall i | 0 < i <= j :: After(env, steps, msg, w, i).err.None?
  }

  lemma {:induction false} AfterFirst(env: Env, steps: seq<Step>, msg: Message, w: World, j: nat)
    requires 0 < j <= |steps| && ExecuteStep(env, steps[0], msg, w).err.None?
    ensures var r := ExecuteStep(env, steps[0], msg, w);
            After(env, steps, msg, w, j) == After(env, steps[1..], r.out, r.w, j - 1)
    decreases j
  {
    assert After(env, steps, msg, w, 1) == ExecuteStep(env, steps[0], After(env, steps, msg, w, 0).out, w);
    if j > 1 { AfterFirst(env, steps, msg, w, j - 1); }
  }

  lemma {:induction false} ChainIsAfter(env: Env, steps: seq<Step>, msg: Message, w: World, j: nat)
    requires GoesOnTo(env, steps, msg, w, j) && (j < |steps| ==> After(env, steps, msg, w, j + 1).err.Some?)
    ensures Chain(env, steps, msg, w) ==
            if j == |steps| then After(env, steps, msg, w, j)
            else After(env, steps, msg, w, j + 1).(out := EMPTY)
    decreases |steps|
  {
    if steps != [] {
      var r := ExecuteStep(env, steps[0], msg, w);
      assert After(env, steps, msg, w, 1) == ExecuteStep(env, steps[0], After(env, steps, msg, w, 0).out, w);
      if j > 0 {
        assert r.err.None?;
        forall i | 0 < i <= |steps| ensures After(env, steps, msg, w, i) == After(env, steps[1..], r.out, r.w, i - 1) {
          AfterFirst(env, steps, msg, w, i);
        }
        forall i | 0 < i <= j - 1 ensures After(env, steps[1..], r.out, r.w, i).err.None? {
          assert After(env, steps, msg, w, i + 1).err.None?;
        }
        ChainIsAfter(env, steps[1..], r.out, r.w, j - 1);
      }
    }
  }

  /** If step j is the first to return an error, the call ends in just that step's world with just
      that error: no later step runs. */
  lemma ChainStops(env: Env, steps: seq<Step>, id: Uuid, msg: Message, w: World, j: nat)
    requires j < |steps| && GoesOnTo(env, steps, msg.(saga := Print(id)), w, j)
    requires After(env, steps, msg.(saga := Print(id)), w, j + 1).err.Some?
    ensures var before := After(env, steps, msg.(saga := Print(id)), w, j);
            var last := ExecuteStep(env, steps[j], before.out, before.w);
            StartSaga(env, steps, id, msg, w) == Result(last.w, EMPTY, last.err)
  {
    ChainIsAfter(env, steps, msg.(saga := Print(id)), w, j);
  }

  /** The call returns no error iff there is a step and every step returns none; it then returns the last result. */
  lemma ChainCompletesIff(env: Env, steps: seq<Step>, id: Uuid, msg: Message, w: World)
    ensures var m := msg.(saga := Print(id));
            && (StartSaga(env, steps, id, msg, w).err.None? <==>
                  steps != [] && GoesOnTo(env, steps, m, w, |steps|))
            && (StartSaga(env, steps, id, msg, w).err.None? ==>
                  StartSaga(env, steps, id, msg, w) == After(env, steps, m, w, |steps|))
            && (steps == [] ==> StartSaga(env, steps, id, msg, w).w == w)
  {
    var m := msg.(saga := Print(id));
    if steps != [] {
      var j := FirstError(env, steps, m, w, |steps|);
      ChainIsAfter(env, steps, m, w, j);
    }
  }

  lemma {:induction false} FirstError(env: Env, steps: seq<Step>, msg: Message, w: World, n: nat) returns (j: nat)
    requires n <= |steps|
    ensures j <= n && GoesOnTo(env, steps, msg, w, j) && (j < n ==> After(env, steps, msg, w, j + 1).err.Some?)
  {
    if n == 0 {
      j := 0;
    } else {
      j := FirstError(env, steps, msg, w, n - 1);
      if j == n - 1 && After(env, steps, msg, w, n).err.None? { j := n; }
    }
  }

  // ---- what a step does on the empty message that follows a published failure ----

  /** It can only commit its own bundle without next topics, and then under no key at all. */
  lemma EmptyIsKeyless(env: Env, stp: Step, w: World, b: Bundle)
    requires b in News(w, ExecuteStep(env, stp, EMPTY, w).w) && MainBundle(env, stp, EMPTY, b)
    ensures stp.route.next == [] && b.claim == None && b.rows == map[] && !Keyed(b.plan)
  {
    assert Sound(b) && b.plan == ExecutePlan(env, stp, EMPTY) && b.msg.saga == "";
    assert Parse("") == None;
  }

  ghost predicate CommitsOnEmpty(stp: Step) {
    exists env: Env, w: World, b: Bundle ::
      b in News(w, ExecuteStep(env, stp, EMPTY, w).w) && MainBundle(env, stp, EMPTY, b)
  }

  /** A step whose action can succeed on the empty message can commit it iff it has no next topics. */
  lemma EmptyStepIff(stp: Step, t: nat, tables: Business)
    requires t > 0 && Tries(stp.retry) > 0 && stp.execute(t, tables, EMPTY).Done?
    ensures CommitsOnEmpty(stp) <==> stp.route.next == []
  {
    if env: Env, w: World, b: Bundle :|
       b in News(w, ExecuteStep(env, stp, EMPTY, w).w) && MainBundle(env, stp, EMPTY, b) {
      EmptyIsKeyless(env, stp, w, b);
    }
    if stp.route.next == [] { EmptyCommits(stp, t, tables); }
  }

  lemma EmptyCommits(stp: Step, t: nat, tables: Business)
    requires t > 0 && Tries(stp.retry) > 0 && stp.execute(t, tables, EMPTY).Done? && stp.route.next == []
    ensures CommitsOnEmpty(stp)
  {
    var env := Env(CALM, None, true);
    var w := World(Db({}, map[], tables, []), [], if stp.retry.None? then t else t - 1, 0, 0, 0, None);
    var job := Job(ExecutePlan(env, stp, EMPTY), Act(stp.execute));
    assert TryAt(env, stp.retry, w.clock, 0) == t;
    assert Clears(env, job, stp.retry, w, 0);
    ExecutionRecovers(env, stp, EMPTY, w, 0);
    var v := ExecuteStep(env, stp, EMPTY, w).w;
    var b := v.own[|v.own| - 1];
    assert News(w, v) == [b];
    assert b in News(w, v) && MainBundle(env, stp, EMPTY, b);
  }

  /** After a published failure the next step runs on the empty message, and what it commits of its
      own is under no key. */
  lemma AfterFailure(env: Env, steps: seq<Step>, msg: Message, w: World)
    requires |steps| >= 2 && Definite(env)
    requires var r := ExecuteStep(env, steps[0], msg, w);
             && r.err.None?
             && exists b :: News(w, r.w) == [b] && FailureBundle(steps[0], msg, b) && !MainBundle(env, steps[0], msg, b)
    ensures var r := ExecuteStep(env, steps[0], msg, w);
            var x := ExecuteStep(env, steps[1], EMPTY, r.w);
            && Chain(env, steps, msg, w) == Chain(env, steps[1..], EMPTY, r.w)
            && (forall b | b in News(r.w, x.w) && MainBundle(env, steps[1], EMPTY, b) ::
                  steps[1].route.next == [] && b.claim == None && b.rows == map[])
  {
    SingleOutcome(env, steps[0], msg, w);
    var r := ExecuteStep(env, steps[0], msg, w);
    var x := ExecuteStep(env, steps[1], EMPTY, r.w);
    assert r.out == EMPTY;
    forall b | b in News(r.w, x.w) && MainBundle(env, steps[1], EMPTY, b)
      ensures steps[1].route.next == [] && b.claim == None && b.rows == map[]
    {
      EmptyIsKeyless(env, steps[1], r.w, b);
    }
  }

  /** Its action always succeeds, and it sends nothing on. */
  const BOOKING: Step :=
    Step(Route("book", [], []), (_, b: Business, m) => Done(m, b["seat" := "taken"]),
         (_, b, m) => Done(m, b), None, None, None)

  /** A saga whose first step fails still takes the seat, without an error and without a key; only
      its failure event is keyed. */
  lemma SeatTaken(id: Uuid)
    ensures var w := World(Db({}, map[], map[], []), [], 0, 0, 0, 0, None);
            var r := StartSaga(Env(CALM, None, true), [PAYING.(onError := None), BOOKING], id, EMPTY, w);
            && r.err.None? && r.out.saga == "" && |r.w.own| == 2
            && r.w.db.business == map["seat" := "taken"]
            && r.w.db.inbox == {} && r.w.db.outbox.Keys == {OutboxKey(id, "undo", Compensate)}
  {
    var env, w := Env(CALM, None, true), World(Db({}, map[], map[], []), [], 0, 0, 0, 0, None);
    var pay, msg := PAYING.(onError := None), EMPTY.(saga := Print(id));
    PaymentFails(env, id, w);
    var r := ExecuteStep(env, pay, msg, w);
    TakesSeat(env, r.w);
    assert [pay, BOOKING][1..] == [BOOKING];
    assert Chain(env, [BOOKING], EMPTY, r.w) == Chain(env, [], EMPTY, ExecuteStep(env, BOOKING, EMPTY, r.w).w);
  }

  /** If begin fails for the failure event of the first step, the call returns an error and the seat
      is not taken, although the second step could have taken it. */
  lemma SeatKept(id: Uuid)
    ensures var w := World(Db({}, map[], map[], []), [], 0, 0, 0, 0, None);
            var r := StartSaga(Hiccup(1), [PAYING.(onError := None), BOOKING], id, EMPTY, w);
            && r.err.Some? && r.w.db == w.db && r.w.own == [] && r.w.calls == 1
            && ExecuteStep(Hiccup(1), BOOKING, EMPTY, r.w).w.db.business == map["seat" := "taken"]
  {
    PrintParse(id);
    var env, w := Hiccup(1), World(Db({}, map[], map[], []), [], 0, 0, 0, 0, None);
    var pay, msg := PAYING.(onError := None), EMPTY.(saga := Print(id));
    var job := Job(ExecutePlan(env, pay, msg), Act(pay.execute));
    assert Perform(env, One(job), Cell(w, EMPTY, EMPTY)).1 == Some(Errors.Action(Plain(9)));
    assert FindAction(Errors.Action(Plain(9))) == Some(Plain(9));
    var r := UserRun(env, job, None, w);
    assert r.err == Some(Plain(9)) && r.w.db == w.db && r.w.own == w.own && r.w.clock == 1 && r.w.calls == 1;
    var event := Job(EventPlan(pay.route, msg), Relay);
    InfraErrorIsClean(Plain(0));
    assert Perform(env, One(event), Cell(r.w, EMPTY, EMPTY)).1 == Some(InfraError(Plain(0)));
    var x := ExecuteStep(env, pay, msg, w);
    assert x.err.Some? && x.w.db == w.db && x.w.own == [] && x.w.calls == 1 && x.w.clock == 2;
    assert After(env, [pay, BOOKING], msg, w, 0) == Result(w, msg, None);
    ChainStops(env, [pay, BOOKING], id, EMPTY, w, 0);
    TakesSeat(env, x.w);
  }

  lemma PaymentFails(env: Env, id: Uuid, w: World)
    requires env == Env(CALM, None, true) && w.db.outbox == map[]
    ensures var r := ExecuteStep(env, PAYING.(onError := None), EMPTY.(saga := Print(id)), w);
            && r.err.None? && r.out == EMPTY && |r.w.own| == |w.own| + 1
            && r.w.db.business == w.db.business && r.w.db.inbox == w.db.inbox
            && r.w.db.outbox.Keys == {OutboxKey(id, "undo", Compensate)}
  {
    PrintParse(id);
    var pay, msg := PAYING.(onError := None), EMPTY.(saga := Print(id));
    var job := Job(ExecutePlan(env, pay, msg), Act(pay.execute));
    assert Perform(env, One(job), Cell(w, EMPTY, EMPTY)).1 == Some(Errors.Action(Plain(9)));
    assert FindAction(Errors.Action(Plain(9))) == Some(Plain(9));
    var r := UserRun(env, job, None, w);
    assert r.err == Some(Plain(9)) && r.w.db == w.db && r.w.own == w.own;
    EventWrites(env, pay, msg, r.w);
    assert KeysFor(EventPlan(pay.route, msg), msg, ["undo"]) == {OutboxKey(id, "undo", Compensate)};
  }

  lemma EventWrites(env: Env, stp: Step, msg: Message, w: World)
    requires EventFits(stp, msg, w.db) && CalmAt(env, w.clock)
    ensures var r := PublishEvent(env, stp.route, msg, w);
            && r.err.None? && r.out == EMPTY && |r.w.own| == |w.own| + 1
            && r.w.db.business == w.db.business && r.w.db.inbox == w.db.inbox
            && r.w.db.outbox.Keys == w.db.outbox.Keys + KeysFor(EventPlan(stp.route, msg), msg, stp.route.errors)
  {
    var event := Job(EventPlan(stp.route, msg), Relay);
    var x := InfraRun(env, event, w);
    EventIfFits(env, stp, msg, w);
    InfraEffect(env, event, w);
    var news := News(w, x.w);
    ApplyOne(w.db, news);
    var b := news[0];
    assert b in news && Sound(b);
    assert b.rows.Keys == KeysFor(b.plan, b.msg, stp.route.errors);
  }

  lemma TakesSeat(env: Env, w: World)
    requires env == Env(CALM, None, true) || (env == Hiccup(1) && w.clock > 1)
    ensures var r := ExecuteStep(env, BOOKING, EMPTY, w);
            && r.err.None? && r.out == EMPTY && |r.w.own| == |w.own| + 1
            && r.w.db.business == w.db.business["seat" := "taken"]
            && r.w.db.inbox == w.db.inbox && r.w.db.outbox == w.db.outbox
  {
    var job := Job(ExecutePlan(env, BOOKING, EMPTY), Act(BOOKING.execute));
    assert TryAt(env, None, w.clock, 0) == w.clock;
    assert Clears(env, job, None, w, 0);
    ExecutionRecovers(env, BOOKING, EMPTY, w, 0);
    var r := ExecuteStep(env, BOOKING, EMPTY, w);
    var b := r.w.own[|r.w.own| - 1];
    UserEffect(env, job, None, w);
    assert News(w, r.w) == [b];
    ApplyOne(w.db, [b]);
  }
}
