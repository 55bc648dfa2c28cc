/** When the nested retry loops make their k-th try, and what they return if that try is the first
    that is not missed. */
module Schedule {
  import opened Message
  import opened Errors
  import opened Journal
  import opened ExecutorSpec
  import opened Budget

  /** Time of the i-th try of an infrastructure run that starts at `clock`, if the tries before it were missed. */
  function InfraAt(env: Env, clock: nat, i: nat): nat {
    if env.infra.None? then clock else clock + 3 * i + 1
  }

  /** Length of an infrastructure run that misses all its tries. */
  function InfraSpan(env: Env): nat {
    if env.infra.None? then 1 else 3 * Tries(env.infra) + 1
  }

  /** Time of the k-th try of both loops, if the tries before it were missed. */
  function TryAt(env: Env, retry: Option<Retrier>, clock: nat, k: nat): nat
    decreases k
  {
    if retry.None? then InfraAt(env, clock, k)
    else if k < Tries(env.infra) || Tries(env.infra) == 0 then InfraAt(env, clock + 1, k)
    else TryAt(env, retry, clock + InfraSpan(env) + 2, k - Tries(env.infra))
  }

  /** Length of a run of both loops that misses all its tries. */
  function UserSpan(env: Env, retry: Option<Retrier>): nat {
    if retry.None? then InfraSpan(env) else retry.value.maxRetries * (InfraSpan(env) + 2) + 1
  }

  function AllTries(env: Env, retry: Option<Retrier>): nat {
    Tries(retry) * Tries(env.infra)
  }

  ghost predicate Alive(env: Env, from: nat, to: nat) {
    forall t | from <= t < to :: !env.oracle.done(t)
  }

  /** The world without clock and sleep: what a try can change for good. */
  datatype Memo = Memo(db: Db, own: seq<Bundle>, begins: nat, calls: nat, seen: Option<Outcome>)

  function MemoOf(w: World): Memo {
    Memo(w.db, w.own, w.begins, w.calls, w.seen)
  }

  /** A retryable error that user code did not return. */
  predicate Lost(e: Option<Err>) {
    e.Some? && HasRetryable(e.value) && FindAction(e.value).None?
  }

  ghost predicate Missed(P: Memo -> bool, c: Cell, d: Cell, e: Option<Err>) {
    && P(MemoOf(d.w)) && d.w.begins == c.w.begins + 1
    && d.out == c.out && d.left == c.left && Lost(e)
  }

  /** Every try at time t, from any world with P, is missed and keeps P. */
  ghost predicate Misses(env: Env, job: Job, P: Memo -> bool, t: nat) {
    forall c: Cell | c.w.clock == t && P(MemoOf(c.w)) :: Missed(P, c, Attempt(env, job, c).0, Attempt(env, job, c).1)
  }

  /** Every try at time t, from any world with P, ends the loops. */
  ghost predicate Stops(env: Env, job: Job, P: Memo -> bool, t: nat) {
    forall c: Cell | c.w.clock == t && P(MemoOf(c.w)) ::
      var e := Attempt(env, job, c).1; e.None? || !HasRetryable(e.value)
  }

  lemma AttemptTicks(env: Env, job: Job, c: Cell)
    ensures Attempt(env, job, c).0.w.clock == c.w.clock + 1
  {
  }

  lemma PassMisses(env: Env, r: Retrier, job: Job, P: Memo -> bool, c: Cell, n: nat, last: Option<Err>)
    requires n < r.maxRetries && P(MemoOf(c.w))
    requires Misses(env, job, P, c.w.clock + 1) && Alive(env, c.w.clock, c.w.clock + 3)
    ensures var p := OnePass(env, r, One(job), c, n, last);
            p.Again? && p.c.w.clock == c.w.clock + 3 && Missed(P, c, p.c, Some(p.last))
  {
    var c1 := c.(w := Tick(c.w));
    assert MemoOf(c1.w) == MemoOf(c.w);
    AttemptTicks(env, job, c1);
    var (d, e) := Attempt(env, job, c1);
    assert Missed(P, c1, d, e);
    assert Perform(env, One(job), c1) == (d, e);
    assert MemoOf(Slept(env, r, n, d.w)) == MemoOf(d.w);
  }

  /** If the first k tries are missed and the next one stops, the loop returns what that try returns. */
  lemma {:induction false} LoopStops(env: Env, r: Retrier, job: Job, P: Memo -> bool, c: Cell, n: nat,
                                     last: Option<Err>, k: nat)
    returns (v: World)
    requires n + k < r.maxRetries && P(MemoOf(c.w))
    requires forall i | 0 <= i < k :: Misses(env, job, P, InfraAt(env, c.w.clock, i))
    requires env.infra.Some? && Alive(env, c.w.clock, InfraAt(env, c.w.clock, k))
    requires Stops(env, job, P, InfraAt(env, c.w.clock, k))
    ensures P(MemoOf(v)) && v.clock == InfraAt(env, c.w.clock, k) && v.begins == c.w.begins + k
    ensures RetryLoop(env, r, One(job), c, n, last) == Attempt(env, job, Cell(v, c.out, c.left))
    decreases k
  {
    if k == 0 {
      v := Tick(c.w);
      assert MemoOf(v) == MemoOf(c.w);
      assert Perform(env, One(job), c.(w := v)) == Attempt(env, job, c.(w := v));
      assert OnePass(env, r, One(job), c, n, last).Return?;
    } else {
      assert Misses(env, job, P, InfraAt(env, c.w.clock, 0));
      PassMisses(env, r, job, P, c, n, last);
      var p := OnePass(env, r, One(job), c, n, last);
      assert forall i: nat :: InfraAt(env, p.c.w.clock, i) == InfraAt(env, c.w.clock, i + 1);
      v := LoopStops(env, r, job, P, p.c, n + 1, Some(p.last), k - 1);
    }
  }

  lemma {:induction false} LoopMisses(env: Env, r: Retrier, job: Job, P: Memo -> bool, c: Cell, n: nat,
                                      last: Option<Err>)
    requires n <= r.maxRetries && P(MemoOf(c.w)) && (n == r.maxRetries ==> Lost(last))
    requires forall i | 0 <= i < r.maxRetries - n :: Misses(env, job, P, InfraAt(env, c.w.clock, i))
    requires env.infra.Some? && Alive(env, c.w.clock, InfraAt(env, c.w.clock, r.maxRetries - n))
    ensures var (d, e) := RetryLoop(env, r, One(job), c, n, last);
            && P(MemoOf(d.w)) && d.w.clock == InfraAt(env, c.w.clock, r.maxRetries - n)
            && d.w.begins == c.w.begins + r.maxRetries - n && Lost(e)
    decreases r.maxRetries - n
  {
    if n == r.maxRetries {
      ExhaustedKeepsLast(last.value);
      assert MemoOf(Tick(c.w)) == MemoOf(c.w);
    } else {
      assert Misses(env, job, P, InfraAt(env, c.w.clock, 0));
      PassMisses(env, r, job, P, c, n, last);
      var p := OnePass(env, r, One(job), c, n, last);
      assert forall i: nat :: InfraAt(env, p.c.w.clock, i) == InfraAt(env, c.w.clock, i + 1);
      LoopMisses(env, r, job, P, p.c, n + 1, Some(p.last));
    }
  }

  lemma InfraStops(env: Env, job: Job, P: Memo -> bool, w: World, k: nat) returns (v: World)
    requires k < Tries(env.infra) && P(MemoOf(w))
    requires forall i | 0 <= i < k :: Misses(env, job, P, InfraAt(env, w.clock, i))
    requires Alive(env, w.clock, InfraAt(env, w.clock, k)) && Stops(env, job, P, InfraAt(env, w.clock, k))
    ensures P(MemoOf(v)) && v.clock == InfraAt(env, w.clock, k) && v.begins == w.begins + k
    ensures var (d, e) := Attempt(env, job, Cell(v, EMPTY, EMPTY)); InfraRun(env, job, w) == Unwrapped(d, e)
  {
    if env.infra.None? {
      v := w;
      assert Perform(env, One(job), Cell(w, EMPTY, EMPTY)) == Attempt(env, job, Cell(w, EMPTY, EMPTY));
    } else {
      v := LoopStops(env, env.infra.value, job, P, Cell(w, EMPTY, EMPTY), 0, None, k);
    }
  }

  lemma InfraMisses(env: Env, job: Job, P: Memo -> bool, w: World)
    requires Tries(env.infra) > 0 && P(MemoOf(w))
    requires forall i | 0 <= i < Tries(env.infra) :: Misses(env, job, P, InfraAt(env, w.clock, i))
    requires Alive(env, w.clock, w.clock + InfraSpan(env))
    ensures var r := InfraRun(env, job, w);
            && P(MemoOf(r.w)) && r.w.clock == w.clock + InfraSpan(env)
            && r.w.begins == w.begins + Tries(env.infra) && Lost(r.err)
  {
    var c := Cell(w, EMPTY, EMPTY);
    if env.infra.None? {
      assert Misses(env, job, P, InfraAt(env, w.clock, 0));
      AttemptTicks(env, job, c);
      assert Missed(P, c, Attempt(env, job, c).0, Attempt(env, job, c).1);
      assert Perform(env, One(job), c) == Attempt(env, job, c);
    } else {
      LoopMisses(env, env.infra.value, job, P, c, 0, None);
    }
  }

  /** A user-level try that misses all its infrastructure tries is repeated, and shifts the schedule. */
  lemma UserPassMisses(env: Env, r: Retrier, job: Job, P: Memo -> bool, c: Cell, n: nat, last: Option<Err>)
    requires n < r.maxRetries && Tries(env.infra) > 0 && P(MemoOf(c.w))
    requires forall i | 0 <= i < Tries(env.infra) :: Misses(env, job, P, TryAt(env, Some(r), c.w.clock, i))
    requires Alive(env, c.w.clock, c.w.clock + InfraSpan(env) + 2)
    ensures var p := OnePass(env, r, Infra(job), c, n, last);
            && p.Again? && p.c.w.clock == c.w.clock + InfraSpan(env) + 2
            && p.c.w.begins == c.w.begins + Tries(env.infra)
            && P(MemoOf(p.c.w)) && Lost(Some(p.last)) && p.c.left == c.left
  {
    var c1 := c.(w := Tick(c.w));
    assert MemoOf(c1.w) == MemoOf(c.w);
    forall i | 0 <= i < Tries(env.infra) ensures Misses(env, job, P, InfraAt(env, c1.w.clock, i)) {
      assert TryAt(env, Some(r), c.w.clock, i) == InfraAt(env, c1.w.clock, i);
    }
    InfraMisses(env, job, P, c1.w);
    var d := InfraRun(env, job, c1.w);
    assert MemoOf(Slept(env, r, n, d.w)) == MemoOf(d.w);
  }

  lemma Shift(env: Env, r: Retrier, clock: nat, i: nat)
    requires Tries(env.infra) > 0
    ensures TryAt(env, Some(r), clock + InfraSpan(env) + 2, i) == TryAt(env, Some(r), clock, i + Tries(env.infra))
  {
  }

  lemma {:induction false} TryLater(env: Env, retry: Option<Retrier>, clock: nat, k: nat)
    requires Tries(env.infra) > 0
    ensures clock <= TryAt(env, retry, clock, k)
    ensures retry.Some? && k >= Tries(env.infra) ==> clock + InfraSpan(env) + 2 <= TryAt(env, retry, clock, k)
    decreases k
  {
    if retry.Some? && k >= Tries(env.infra) {
      TryLater(env, retry, clock + InfraSpan(env) + 2, k - Tries(env.infra));
    }
  }

  /** Counted from `clock`, try k is the first one that is not missed, and the context lives until then. */
  ghost predicate StopsFirst(env: Env, job: Job, P: Memo -> bool, retry: Option<Retrier>, clock: nat, k: nat) {
    && (forall i | 0 <= i < k :: Misses(env, job, P, TryAt(env, retry, clock, i)))
    && Alive(env, clock, TryAt(env, retry, clock, k))
    && Stops(env, job, P, TryAt(env, retry, clock, k))
  }

  lemma StopsShifted(env: Env, job: Job, P: Memo -> bool, r: Retrier, clock: nat, k: nat)
    requires k >= Tries(env.infra) > 0 && StopsFirst(env, job, P, Some(r), clock, k)
    ensures StopsFirst(env, job, P, Some(r), clock + InfraSpan(env) + 2, k - Tries(env.infra))
    ensures TryAt(env, Some(r), clock + InfraSpan(env) + 2, k - Tries(env.infra)) == TryAt(env, Some(r), clock, k)
  {
    var later := clock + InfraSpan(env) + 2;
    forall i | 0 <= i < k - Tries(env.infra) ensures Misses(env, job, P, TryAt(env, Some(r), later, i)) {
      Shift(env, r, clock, i);
    }
    Shift(env, r, clock, k - Tries(env.infra));
  }

  lemma UserPassBefore(env: Env, r: Retrier, job: Job, P: Memo -> bool, c: Cell, n: nat, last: Option<Err>, k: nat)
    requires n < r.maxRetries && k >= Tries(env.infra) > 0 && P(MemoOf(c.w))
    requires StopsFirst(env, job, P, Some(r), c.w.clock, k)
    ensures var p := OnePass(env, r, Infra(job), c, n, last);
            && p.Again? && P(MemoOf(p.c.w)) && p.c.w.begins == c.w.begins + Tries(env.infra) && p.c.left == c.left
            && StopsFirst(env, job, P, Some(r), p.c.w.clock, k - Tries(env.infra))
            && TryAt(env, Some(r), p.c.w.clock, k - Tries(env.infra)) == TryAt(env, Some(r), c.w.clock, k)
  {
    TryLater(env, Some(r), c.w.clock, k);
    UserPassMisses(env, r, job, P, c, n, last);
    StopsShifted(env, job, P, r, c.w.clock, k);
  }

  lemma {:induction false} UserLoopStops(env: Env, r: Retrier, job: Job, P: Memo -> bool, c: Cell, n: nat,
                                         last: Option<Err>, k: nat, count: int)
    returns (v: World)
    requires n < r.maxRetries && k < count == (r.maxRetries - n) * Tries(env.infra) && P(MemoOf(c.w))
    requires StopsFirst(env, job, P, Some(r), c.w.clock, k)
    ensures P(MemoOf(v)) && v.clock == TryAt(env, Some(r), c.w.clock, k) && v.begins == c.w.begins + k
    ensures var (d, e) := Attempt(env, job, Cell(v, EMPTY, EMPTY));
            var u := Unwrapped(d, e);
            RetryLoop(env, r, Infra(job), c, n, last) == (Cell(u.w, u.out, c.left), u.err)
    decreases k
  {
    if k < Tries(env.infra) {
      v := UserStopsNow(env, r, job, P, c, n, last, k);
    } else {
      Peel(r.maxRetries - n, Tries(env.infra));
      UserPassBefore(env, r, job, P, c, n, last, k);
      var p := OnePass(env, r, Infra(job), c, n, last);
      assert RetryLoop(env, r, Infra(job), c, n, last) == RetryLoop(env, r, Infra(job), p.c, n + 1, Some(p.last));
      v := UserLoopStops(env, r, job, P, p.c, n + 1, Some(p.last), k - Tries(env.infra), count - Tries(env.infra));
    }
  }

  lemma UserStopsNow(env: Env, r: Retrier, job: Job, P: Memo -> bool, c: Cell, n: nat, last: Option<Err>, k: nat)
    returns (v: World)
    requires n < r.maxRetries && k < Tries(env.infra) && P(MemoOf(c.w))
    requires StopsFirst(env, job, P, Some(r), c.w.clock, k)
    ensures P(MemoOf(v)) && v.clock == TryAt(env, Some(r), c.w.clock, k) && v.begins == c.w.begins + k
    ensures var (d, e) := Attempt(env, job, Cell(v, EMPTY, EMPTY));
            var u := Unwrapped(d, e);
            RetryLoop(env, r, Infra(job), c, n, last) == (Cell(u.w, u.out, c.left), u.err)
  {
    var c1 := c.(w := Tick(c.w));
    assert MemoOf(c1.w) == MemoOf(c.w);
    forall i | 0 <= i < k ensures Misses(env, job, P, InfraAt(env, c1.w.clock, i)) {
      assert TryAt(env, Some(r), c.w.clock, i) == InfraAt(env, c1.w.clock, i);
    }
    v := InfraStops(env, job, P, c1.w, k);
    var (d, e) := Attempt(env, job, Cell(v, EMPTY, EMPTY));
    if e.Some? && FindAction(e.value).Some? { FoundActionIsInside(e.value, e.value); }
    assert Perform(env, Infra(job), c1).1 == Unwrapped(d, e).err;
    assert OnePass(env, r, Infra(job), c, n, last).Return?;
  }

  ghost predicate MissesAll(env: Env, job: Job, P: Memo -> bool, retry: Option<Retrier>, clock: nat, count: int) {
    forall i | 0 <= i < count :: Misses(env, job, P, TryAt(env, retry, clock, i))
  }

  lemma MissesShifted(env: Env, job: Job, P: Memo -> bool, r: Retrier, clock: nat, count: int)
    requires Tries(env.infra) > 0 && MissesAll(env, job, P, Some(r), clock, count)
    ensures MissesAll(env, job, P, Some(r), clock + InfraSpan(env) + 2, count - Tries(env.infra))
  {
    var later := clock + InfraSpan(env) + 2;
    forall i | 0 <= i < count - Tries(env.infra) ensures Misses(env, job, P, TryAt(env, Some(r), later, i)) {
      Shift(env, r, clock, i);
    }
  }

  lemma UserPassOfMany(env: Env, r: Retrier, job: Job, P: Memo -> bool, c: Cell, n: nat, last: Option<Err>, count: int)
    requires n < r.maxRetries && count >= Tries(env.infra) > 0 && P(MemoOf(c.w))
    requires MissesAll(env, job, P, Some(r), c.w.clock, count) && Alive(env, c.w.clock, c.w.clock + InfraSpan(env) + 2)
    ensures var p := OnePass(env, r, Infra(job), c, n, last);
            && p.Again? && P(MemoOf(p.c.w)) && Lost(Some(p.last)) && p.c.w.begins == c.w.begins + Tries(env.infra)
            && p.c.w.clock == c.w.clock + InfraSpan(env) + 2
            && MissesAll(env, job, P, Some(r), p.c.w.clock, count - Tries(env.infra))
  {
    MissesShifted(env, job, P, r, c.w.clock, count);
    UserPassMisses(env, r, job, P, c, n, last);
  }

  lemma {:induction false} UserLoopMisses(env: Env, r: Retrier, job: Job, P: Memo -> bool, c: Cell, n: nat,
                                          last: Option<Err>, count: int, span: int)
    requires span == (r.maxRetries - n) * (InfraSpan(env) + 2)
    requires n <= r.maxRetries && Tries(env.infra) > 0 && P(MemoOf(c.w)) && (n == r.maxRetries ==> Lost(last))
    requires count == (r.maxRetries - n) * Tries(env.infra) && MissesAll(env, job, P, Some(r), c.w.clock, count)
    requires forall t | c.w.clock <= t :: !env.oracle.done(t)
    ensures var (d, e) := RetryLoop(env, r, Infra(job), c, n, last);
            && P(MemoOf(d.w)) && d.w.clock == c.w.clock + span + 1
            && d.w.begins == c.w.begins + count && Lost(e)
    decreases r.maxRetries - n
  {
    if n == r.maxRetries {
      ExhaustedKeepsLast(last.value);
      assert MemoOf(Tick(c.w)) == MemoOf(c.w);
    } else {
      Peel(r.maxRetries - n, Tries(env.infra));
      Peel(r.maxRetries - n, InfraSpan(env) + 2);
      UserPassOfMany(env, r, job, P, c, n, last, count);
      var p := OnePass(env, r, Infra(job), c, n, last);
      UserLoopMisses(env, r, job, P, p.c, n + 1, Some(p.last), count - Tries(env.infra), span - InfraSpan(env) - 2);
    }
  }

  /** The first k tries of the nested loops are missed, and the next one stops: the run ends with
      what that try returns. */
  lemma UserStops(env: Env, job: Job, P: Memo -> bool, retry: Option<Retrier>, w: World, k: nat) returns (v: World)
    requires k < AllTries(env, retry) && P(MemoOf(w))
    requires StopsFirst(env, job, P, retry, w.clock, k)
    ensures P(MemoOf(v)) && v.clock == TryAt(env, retry, w.clock, k) && v.begins == w.begins + k
    ensures var (d, e) := Attempt(env, job, Cell(v, EMPTY, EMPTY));
            var u, r := Unwrapped(d, e), UserRun(env, job, retry, w);
            r.w == u.w && r.out == u.out && r.err == u.err
  {
    if retry.None? {
      forall i | 0 <= i < k ensures Misses(env, job, P, InfraAt(env, w.clock, i)) {
        assert TryAt(env, retry, w.clock, i) == InfraAt(env, w.clock, i);
      }
      v := InfraStops(env, job, P, w, k);
    } else {
      if retry.value.maxRetries == 0 { assert false; }
      v := UserLoopStops(env, retry.value, job, P, Cell(w, EMPTY, EMPTY), 0, None, k, AllTries(env, retry));
    }
  }

  /** All tries of the nested loops are missed: each was made, and the run ends with a retryable error. */
  lemma UserMisses(env: Env, job: Job, P: Memo -> bool, retry: Option<Retrier>, w: World)
    requires AllTries(env, retry) > 0 && P(MemoOf(w)) && MissesAll(env, job, P, retry, w.clock, AllTries(env, retry))
    requires forall t | w.clock <= t :: !env.oracle.done(t)
    ensures var r := UserRun(env, job, retry, w);
            && P(MemoOf(r.w)) && r.w.clock == w.clock + UserSpan(env, retry)
            && r.w.begins == w.begins + AllTries(env, retry) && Lost(r.err)
  {
    if retry.None? {
      forall i | 0 <= i < Tries(env.infra) ensures Misses(env, job, P, InfraAt(env, w.clock, i)) {
        assert TryAt(env, retry, w.clock, i) == InfraAt(env, w.clock, i);
      }
      InfraMisses(env, job, P, w);
    } else {
      if Tries(env.infra) == 0 || retry.value.maxRetries == 0 { assert false; }
      var span := retry.value.maxRetries * (InfraSpan(env) + 2);
      UserLoopMisses(env, retry.value, job, P, Cell(w, EMPTY, EMPTY), 0, None, AllTries(env, retry), span);
    }
  }
}
