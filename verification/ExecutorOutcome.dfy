/** What one run of the executor can commit, whatever the database, the context, user code and other replicas do. */
module ExecutorOutcome {
  import opened Message
  import opened Uuid
  import opened Errors
  import opened Journal
  import opened ExecutorSpec

  ghost predicate StoredIn(b: Bundle, db: Db) {
    && Sound(b)
    && (b.claim.Some? ==> b.claim.value in db.inbox)
    && (forall k | k in b.rows :: k in db.outbox && db.outbox[k] == b.rows[k])
  }

  /** Every transaction this executor committed is still there in full. */
  ghost predicate Kept(w: World) {
    forall b | b in w.own :: StoredIn(b, w.db)
  }

  ghost predicate DbGrows(a: Db, b: Db) {
    && a.inbox <= b.inbox
    && (forall k | k in a.outbox :: k in b.outbox && b.outbox[k] == a.outbox[k])
    && (Valid(a) ==> Valid(b))
  }

  ghost predicate Grows(v: World, w: World) {
    DbGrows(v.db, w.db) && v.own <= w.own && (Kept(v) ==> Kept(w))
  }

  /** The bundle is the complete effect of the job: claim, the body's tables and message, all rows. */
  ghost predicate Made(job: Job, b: Bundle) {
    && b.plan == job.plan
    && Sound(b)
    && var o := RunBody(job.body, b.at, b.before, job.plan.msg);
       o.Done? && b.business == o.business && b.msg == Addressed(job.plan, o.msg)
  }

  /** The plan can no longer commit: its claim fails, or its first row is already there. */
  ghost predicate Spent(p: Plan, db: Db) {
    || (p.claims && (KeyFor(p).None? || KeyFor(p).value in db.inbox))
    || (p.topics != [] && Parse(p.msg.saga).Some? &&
        OutboxKey(Parse(p.msg.saga).value, p.topics[0], p.phase) in db.outbox)
  }

  ghost predicate Definite(env: Env) {
    forall t :: !env.oracle.commit(t).AckLost?
  }

  ghost predicate SeenDuplicate(p: Plan, db: Db, e: Option<Err>) {
    e.Some? && Is(e.value, Duplicate) ==> KeyFor(p).Some? && KeyFor(p).value in db.inbox
  }

  lemma {:induction false} AbsorbGrows(db: Db, bs: seq<Bundle>)
    ensures DbGrows(db, Absorb(db, bs))
    decreases |bs|
  {
    if bs != [] {
      var next := if Fits(db, bs[0]) then Apply(db, bs[0]) else db;
      if Fits(db, bs[0]) && Valid(db) { ApplyKeepsValid(db, bs[0]); }
      AbsorbGrows(next, bs[1..]);
    }
  }

  /** The writer stages all rows or none of its work survives: success means one fresh row per topic. */
  lemma {:induction false} WriteAll(env: Env, p: Plan, m: Message, t: nat, i: nat, outbox: map<OutboxKey, Row>,
                                    staged: map<OutboxKey, Row>)
    requires i <= |p.topics| && staged == RowsFor(p, m, p.topics[..i]) && staged.Keys !! outbox.Keys
    requires NoRepeat(p.topics[..i])
    ensures var r := WriteFrom(env, p, m, t, i, outbox, staged);
            r.Rows? ==>
              && r.rows == RowsFor(p, m, p.topics)
              && r.rows.Keys !! outbox.Keys
              && NoRepeat(p.topics)
              && (i < |p.topics| ==> Storable(m) && OutboxKey(Parse(m.saga).value, p.topics[i], p.phase) in r.rows)
    decreases |p.topics| - i
  {
    if i == |p.topics| {
      assert p.topics[..i] == p.topics;
    } else if Storable(m) {
      var k := OutboxKey(Parse(m.saga).value, p.topics[i], p.phase);
      if env.oracle.insert(t, i).None? && k !in outbox && k !in staged {
        NextRow(p, m, i);
        WriteAll(env, p, m, t, i + 1, outbox, staged[k := Row(p.step, m)]);
        assert k in KeysFor(p, m, p.topics);
      }
    }
  }

  lemma {:induction false} WriteErrorIsForeign(env: Env, p: Plan, m: Message, t: nat, i: nat,
                                               outbox: map<OutboxKey, Row>, staged: map<OutboxKey, Row>)
    requires i <= |p.topics|
    ensures var r := WriteFrom(env, p, m, t, i, outbox, staged); r.WriteError? ==> Foreign(r.err)
    decreases |p.topics| - i
  {
    if i < |p.topics| && Storable(m) {
      var k := OutboxKey(Parse(m.saga).value, p.topics[i], p.phase);
      WriteErrorIsForeign(env, p, m, t, i + 1, outbox, staged[k := Row(p.step, m)]);
    }
  }

  lemma ReadyIsMade(env: Env, job: Job, t: nat, db: Db)
    requires Prepare(env, job, t, db).Ready?
    ensures var b := Prepare(env, job, t, db).bundle;
            && Made(job, b) && Serial(db, b)
            && !Spent(job.plan, db)
            && (Keyed(job.plan) ==> Spent(job.plan, Apply(db, b)))
  {
    var p := job.plan;
    var m := Addressed(p, RunBody(job.body, t, db.business, p.msg).msg);
    assert p.topics[..0] == [];
    WriteAll(env, p, m, t, 0, db.outbox, map[]);
  }

  lemma StoppedCleanly(env: Env, job: Job, t: nat, db: Db)
    requires Prepare(env, job, t, db).Stopped?
    ensures SeenDuplicate(job.plan, db, Some(Prepare(env, job, t, db).err))
  {
    var p := job.plan;
    if env.oracle.begin(t).Some? {
      InfraErrorIsClean(env.oracle.begin(t).value);
    } else if ClaimError(env, p, t, db).Some? {
      if env.oracle.claim(t).Some? { InfraErrorIsClean(env.oracle.claim(t).value); }
      assert Foreign(Plain(1));
      ForeignIsClean(Wrap(Plain(1)));
    } else {
      match RunBody(job.body, t, db.business, p.msg)
      case Failed(_, e) => ForeignIsClean(e);
      case Done(m, _) =>
        WriteErrorIsForeign(env, p, Addressed(p, m), t, 0, db.outbox, map[]);
        InfraErrorIsClean(WriteFrom(env, p, Addressed(p, m), t, 0, db.outbox, map[]).err);
    }
  }

  /** Committing twice is impossible: the first commit leaves a key, or commits answer truthfully. */
  ghost predicate Repeatable(env: Env, job: Job) {
    Keyed(job.plan) || Definite(env)
  }

  ghost predicate Quiet(env: Env) {
    forall t :: env.oracle.others(t) == []
  }

  function ApplyAll(db: Db, bs: seq<Bundle>): Db {
    if bs == [] then db else Apply(ApplyAll(db, bs[..|bs| - 1]), bs[|bs| - 1])
  }

  /** The bundle fits the tables, and its body ran on exactly those tables. */
  ghost predicate Serial(db: Db, b: Bundle) {
    Fits(db, b) && b.before == db.business
  }

  ghost predicate FitsAll(db: Db, bs: seq<Bundle>) {
    bs == [] || (FitsAll(db, bs[..|bs| - 1]) && Serial(ApplyAll(db, bs[..|bs| - 1]), bs[|bs| - 1]))
  }

  /** The bundles, one after another, are all that happened to the tables. */
  ghost predicate Accounts(a: Db, bs: seq<Bundle>, b: Db) {
    b == ApplyAll(a, bs) && FitsAll(a, bs)
  }

  /** What the executor itself committed on the way from v to w. */
  function News(v: World, w: World): seq<Bundle> {
    if |v.own| <= |w.own| then w.own[|v.own|..] else []
  }

  /** What a call of the retried closure may do: complete bundles only, at most one, and exactly
      one without an error. */
  ghost predicate Effect(env: Env, job: Job, v: World, w: World, out: Message, e: Option<Err>) {
    var news := News(v, w);
    && Grows(v, w)
    && (forall b | b in news :: Made(job, b))
    && (Quiet(env) ==> Accounts(v.db, news, w.db))
    && (e.None? ==> news != [] && out == news[|news| - 1].msg)
    && (Spent(job.plan, v.db) ==> e.Some? && news == [])
    && (Repeatable(env, job) ==>
          && |news| <= 1
          && (news != [] && Keyed(job.plan) ==> Spent(job.plan, w.db))
          && (news != [] && Definite(env) ==> e.None?))
    && SeenDuplicate(job.plan, w.db, e)
  }

  lemma SpentStays(p: Plan, a: Db, b: Db)
    requires Spent(p, a) && DbGrows(a, b)
    ensures Spent(p, b)
  {
  }

  lemma CommitEffect(job: Job, v: World, w: World, b: Bundle)
    requires DbGrows(v.db, w.db) && w.own == v.own
    requires Made(job, b) && Serial(w.db, b)
    ensures Grows(v, Committed(w, b)) && News(v, Committed(w, b)) == [b]
    ensures Accounts(w.db, [b], Apply(w.db, b))
  {
    if Valid(w.db) { ApplyKeepsValid(w.db, b); }
    assert [b][..0] == [];
  }

  lemma {:induction false} ApplyAllConcat(db: Db, x: seq<Bundle>, y: seq<Bundle>)
    ensures ApplyAll(db, x + y) == ApplyAll(ApplyAll(db, x), y)
    ensures FitsAll(db, x + y) <==> FitsAll(db, x) && FitsAll(ApplyAll(db, x), y)
  {
    if y == [] {
      assert x + y == x;
    } else {
      var n := |y| - 1;
      assert (x + y)[..|x + y| - 1] == x + y[..n];
      ApplyAllConcat(db, x, y[..n]);
    }
  }

  /** One attempt commits its whole bundle or nothing. */
  lemma AttemptEffect(env: Env, job: Job, c: Cell)
    ensures var (d, e) := Attempt(env, job, c); Effect(env, job, c.w, d.w, d.out, e)
  {
    var t := c.w.clock;
    var begun := Begun(env.oracle, c.w);
    AbsorbGrows(c.w.db, env.oracle.others(t));
    var w := Called(job.body, Reached(env, job, t, begun.db), begun);
    assert w.db == begun.db && w.own == c.w.own;
    assert Quiet(env) ==> w.db == c.w.db;
    if Spent(job.plan, c.w.db) { SpentStays(job.plan, c.w.db, w.db); }
    match Prepare(env, job, t, begun.db)
    case Stopped(e) =>
      StoppedCleanly(env, job, t, begun.db);
    case Ready(b) =>
      ReadyIsMade(env, job, t, begun.db);
      CommitEffect(job, c.w, w, b);
      match env.oracle.commit(t)
      case Acknowledged =>
      case NotCommitted(x) => InfraErrorIsClean(x);
      case AckLost(x) => InfraErrorIsClean(x);
  }

  /** A failed call followed by the rest of the loop has the same kind of effect. */
  lemma EffectThen(env: Env, job: Job, v: World, w: World, x: World, e0: Err, out0: Message, out: Message,
                   e: Option<Err>)
    requires Effect(env, job, v, w, out0, Some(e0)) && Effect(env, job, w, x, out, e)
    ensures Effect(env, job, v, x, out, e)
  {
    var m, n := News(v, w), News(w, x);
    assert News(v, x) == m + n;
    ApplyAllConcat(v.db, m, n);
    if Spent(job.plan, v.db) { SpentStays(job.plan, v.db, w.db); }
    if m != [] && Spent(job.plan, w.db) { SpentStays(job.plan, w.db, x.db); }
  }

  lemma StopEffect(env: Env, job: Job, v: World, w: World, x: World, out0: Message, e: Option<Err>, out: Message,
                   e1: Option<Err>)
    requires Effect(env, job, v, w, out0, e) && e.Some? && e1.Some?
    requires x.db == w.db && x.own == w.own && SeenDuplicate(job.plan, x.db, e1)
    ensures Effect(env, job, v, x, out, e1)
  {
  }

  lemma IdleEffect(env: Env, job: Job, v: World, w: World, out: Message, e: Option<Err>)
    requires w.db == v.db && w.own == v.own && e.Some? && SeenDuplicate(job.plan, w.db, e)
    ensures Effect(env, job, v, w, out, e)
  {
  }

  lemma {:induction false} PassEffect(env: Env, r: Retrier, work: Work, c: Cell, n: nat, last: Option<Err>)
    requires SeenDuplicate(work.job.plan, c.w.db, last)
    ensures var p := OnePass(env, r, work, c, n, last);
            && Effect(env, work.job, c.w, p.c.w, p.c.out, if p.Again? then Some(p.last) else p.e)
            && (p.Again? ==> SeenDuplicate(work.job.plan, p.c.w.db, Some(p.last)))
    decreases Rank(work), 1, 0
  {
    var job := work.job;
    var c1 := c.(w := Tick(c.w));
    if env.oracle.done(c.w.clock) {
      IdleEffect(env, job, c.w, c1.w, c1.out, Some(Cancelled));
    } else if n >= r.maxRetries {
      if last.Some? { ExhaustedKeepsLast(last.value); }
      IdleEffect(env, job, c.w, c1.w, c1.out, Some(Exhausted(last)));
    } else {
      PerformEffect(env, work, c1);
      var (c2, e) := Perform(env, work, c1);
      assert Effect(env, job, c.w, c2.w, c2.out, e);
      if e.Some? && HasRetryable(e.value) {
        var c3 := c2.(w := Slept(env, r, n, c2.w));
        StopEffect(env, job, c.w, c2.w, c3.w, c2.out, e, c3.out,
                   if env.oracle.done(c2.w.clock) then Some(Cancelled) else e);
      }
    }
  }

  /** The retry loop has, at either level, the effect of one call. */
  lemma {:induction false} LoopEffect(env: Env, r: Retrier, work: Work, c: Cell, n: nat, last: Option<Err>)
    requires SeenDuplicate(work.job.plan, c.w.db, last)
    ensures var (d, e) := RetryLoop(env, r, work, c, n, last); Effect(env, work.job, c.w, d.w, d.out, e)
    decreases Rank(work), 2, r.maxRetries - n
  {
    PassEffect(env, r, work, c, n, last);
    var p := OnePass(env, r, work, c, n, last);
    if p.Again? {
      LoopEffect(env, r, work, p.c, n + 1, Some(p.last));
      LoopThen(env, r, work, c, n, last);
    } else {
      assert RetryLoop(env, r, work, c, n, last) == (p.c, p.e);
    }
  }

  lemma LoopThen(env: Env, r: Retrier, work: Work, c: Cell, n: nat, last: Option<Err>)
    requires OnePass(env, r, work, c, n, last).Again?
    requires var p := OnePass(env, r, work, c, n, last);
             var (x, e) := RetryLoop(env, r, work, p.c, n + 1, Some(p.last));
             Effect(env, work.job, c.w, p.c.w, p.c.out, Some(p.last)) && Effect(env, work.job, p.c.w, x.w, x.out, e)
    ensures var (x, e) := RetryLoop(env, r, work, c, n, last); Effect(env, work.job, c.w, x.w, x.out, e)
  {
    var p := OnePass(env, r, work, c, n, last);
    var (x, e) := RetryLoop(env, r, work, p.c, n + 1, Some(p.last));
    EffectThen(env, work.job, c.w, p.c.w, x.w, p.last, p.c.out, x.out, e);
  }

  lemma {:induction false} PerformEffect(env: Env, work: Work, c: Cell)
    ensures var (d, e) := Perform(env, work, c); Effect(env, work.job, c.w, d.w, d.out, e)
    decreases Rank(work), 0, 0
  {
    match work
    case One(job) => AttemptEffect(env, job, c);
    case Infra(job) => InfraEffect(env, job, c.w);
  }

  lemma {:induction false} InfraEffect(env: Env, job: Job, w: World)
    ensures var r := InfraRun(env, job, w); Effect(env, job, w, r.w, r.out, r.err)
    decreases 0, 3, 0
  {
    var c := Cell(w, EMPTY, EMPTY);
    var e: Option<Err>;
    if env.infra.None? {
      PerformEffect(env, One(job), c);
      e := Perform(env, One(job), c).1;
    } else {
      LoopEffect(env, env.infra.value, One(job), c, 0, None);
      e := RetryLoop(env, env.infra.value, One(job), c, 0, None).1;
    }
    if e.Some? && FindAction(e.value).Some? { FoundActionIsInside(e.value, Duplicate); }
  }

  lemma UserEffect(env: Env, job: Job, retry: Option<Retrier>, w: World)
    ensures var r := UserRun(env, job, retry, w); Effect(env, job, w, r.w, r.out, r.err)
  {
    if retry.None? {
      InfraEffect(env, job, w);
    } else {
      LoopEffect(env, retry.value, Infra(job), Cell(w, EMPTY, EMPTY), 0, None);
    }
  }
}
