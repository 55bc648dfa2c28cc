/** The outbox reader: a reused buffer filled by each scan, and the publish loop with its attempt counters. */
module Reader {
  import opened Message
  import opened Uuid
  import opened Backoff
  import opened Journal
  import opened Outbox

  const DEFAULT_BATCH_SIZE := 10
  const DEFAULT_MAX_ATTEMPTS := 5

  /** What a query returned: rows, perhaps one whose Scan failed half way, perhaps an error at the end. */
  datatype Query =
    | QueryFailed
    | Scanned(rows: seq<Stored>, half: Option<Stored>, failed: bool)

  /** The surroundings while one row is handled. */
  datatype Round = Round(now: int, publishOk: bool, successUpdateOk: bool, errorUpdateOk: bool, draw: Unit)

  datatype Settings = Settings(batchSize: int, maxAttempts: int, policy: Policy, min: int, max: int)

  datatype Call = Call(topic: string, msg: Message, ok: bool)

  type Table = map<OutboxKey, Stored>

  function Limit(s: Settings): (n: nat)
    ensures n > 0
  {
    if s.batchSize <= 0 then DEFAULT_BATCH_SIZE else s.batchSize
  }

  function Attempts(s: Settings): (n: nat)
    ensures n > 0
  {
    if s.maxAttempts <= 0 then DEFAULT_MAX_ATTEMPTS else s.maxAttempts
  }

  function KeyOf(o: Stored): OutboxKey {
    OutboxKey(o.saga, o.topic, o.phase)
  }

  predicate Due(s: Settings, o: Stored, now: int) {
    o.scheduledAt <= now && o.processedAt.None? && o.attempts < Attempts(s)
  }

  /** What the batch query promises of its rows, and of any prefix of them: due, distinct, oldest
      first, within the limit. */
  ghost predicate Picked(s: Settings, t: Table, now: int, rows: seq<Stored>) {
    && |rows| <= Limit(s)
    && (forall i | 0 <= i < |rows| :: KeyOf(rows[i]) in t && t[KeyOf(rows[i])] == rows[i] && Due(s, rows[i], now))
    && (forall i, j | 0 <= i < j < |rows| :: KeyOf(rows[i]) != KeyOf(rows[j]) && rows[i].createdAt <= rows[j].createdAt)
  }

  function NextAttempt(s: Settings, o: Stored, r: Round): int {
    r.now + CalcBackoff(s.policy, o.attempts, s.min, s.max, r.draw)
  }

  /** The error update: it counts on the stored counter, but schedules by the scanned one. */
  function CountError(s: Settings, t: Table, o: Stored, r: Round): Table {
    var k := KeyOf(o);
    if r.errorUpdateOk && k in t then
      t[k := t[k].(attempts := t[k].attempts + 1, lastAttempt := Some(r.now), scheduledAt := NextAttempt(s, o, r))]
    else t
  }

  /** The table after one scanned row was handled. */
  function Handled(s: Settings, t: Table, o: Stored, r: Round): Table {
    var k := KeyOf(o);
    if Decode(o).None? then t
    else if !r.publishOk then CountError(s, t, o, r)
    else if !r.successUpdateOk then t
    else if k in t then t[k := t[k].(processedAt := Some(r.now))]
    else CountError(s, t, o, r)
  }

  function Calls(o: Stored, r: Round): seq<Call> {
    if Decode(o).None? then [] else [Call(o.topic, Decode(o).value, r.publishOk)]
  }

  function AllHandled(s: Settings, t: Table, rows: seq<Stored>, rounds: nat -> Round): Table {
    if rows == [] then t
    else Handled(s, AllHandled(s, t, rows[..|rows| - 1], rounds), rows[|rows| - 1], rounds(|rows| - 1))
  }

  function AllCalls(rows: seq<Stored>, rounds: nat -> Round): seq<Call> {
    if rows == [] then []
    else AllCalls(rows[..|rows| - 1], rounds) + Calls(rows[|rows| - 1], rounds(|rows| - 1))
  }

  lemma OneMore(st: Settings, t: Table, rows: seq<Stored>, rounds: nat -> Round, i: nat)
    requires i < |rows|
    ensures AllHandled(st, t, rows[..i + 1], rounds) ==
            Handled(st, AllHandled(st, t, rows[..i], rounds), rows[i], rounds(i))
    ensures AllCalls(rows[..i + 1], rounds) ==
            AllCalls(rows[..i], rounds) + Calls(rows[i], rounds(i))
  {
    assert rows[..i + 1][..i] == rows[..i];
  }

  class OutboxReader {
    const settings: Settings
    const buffer: array<Stored>
    var table: Table
    var log: seq<Call>

    ghost predicate Valid()
      reads this
    {
      buffer.Length == Limit(settings)
    }

    constructor (settings: Settings, table: Table, blank: Stored)
      ensures Valid() && fresh(buffer)
      ensures buffer.Length == if settings.batchSize <= 0 then 10 else settings.batchSize
      ensures this.settings == settings && this.table == table && log == []
    {
      this.settings, this.table, log := settings, table, [];
      buffer := new Stored[Limit(settings)](_ => blank);
    }

    /** Overwrites the buffer from the front; a row whose Scan fails is not counted, though its slot is spoilt. */
    method ScanBatch(q: Query) returns (readed: nat, ok: bool)
      requires Valid()
      requires q.Scanned? ==> |q.rows| + (if q.half.Some? then 1 else 0) <= Limit(settings)
      modifies buffer
      ensures readed <= buffer.Length && buffer[..readed] == if q.Scanned? then q.rows else []
      ensures ok <==> q.Scanned? && q.half.None? && !q.failed
      ensures forall i | readed + 1 <= i < buffer.Length :: buffer[i] == old(buffer[i])
    {
      if q.QueryFailed? { return 0, false; }
      readed := 0;
      while readed < |q.rows|
        invariant readed <= |q.rows| && buffer[..readed] == q.rows[..readed]
        invariant forall i | readed <= i < buffer.Length :: buffer[i] == old(buffer[i])
      {
        buffer[readed] := q.rows[readed];
        readed := readed + 1;
      }
      if q.half.Some? {
        buffer[readed] := q.half.value;
        return readed, false;
      }
      ok := !q.failed;
    }

    method ProcessMessage(o: Stored, r: Round)
      modifies this`table, this`log
      ensures table == Handled(settings, old(table), o, r)
      ensures log == old(log) + Calls(o, r)
    {
      var msg := Decode(o);
      if msg.None? { return; }
      log := log + [Call(o.topic, msg.value, r.publishOk)];
      if !r.publishOk {
        HandlePublishError(o, r);
      } else {
        HandlePublishSuccess(o, r);
      }
    }

    method HandlePublishError(o: Stored, r: Round)
      modifies this`table
      ensures table == CountError(settings, old(table), o, r)
    {
      var next := NextAttempt(settings, o, r);
      var k := KeyOf(o);
      if r.errorUpdateOk && k in table {
        table := table[k := table[k].(attempts := table[k].attempts + 1, lastAttempt := Some(r.now),
                                     scheduledAt := next)];
      }
    }

    method HandlePublishSuccess(o: Stored, r: Round)
      modifies this`table
      ensures table == if !r.successUpdateOk then old(table)
                       else if KeyOf(o) in old(table) then
                         old(table)[KeyOf(o) := old(table)[KeyOf(o)].(processedAt := Some(r.now))]
                       else CountError(settings, old(table), o, r)
    {
      if !r.successUpdateOk { return; }
      var k := KeyOf(o);
      var affected := if k in table then 1 else 0;
      if affected == 0 {
        HandlePublishError(o, r);
      } else {
        table := table[k := table[k].(processedAt := Some(r.now))];
      }
    }

    /** One tick: exactly the rows read in full by this scan are published, in order, whatever the
        buffer held before. */
    method Poll(q: Query, rounds: nat -> Round)
      requires Valid()
      requires q.Scanned? ==> |q.rows| + (if q.half.Some? then 1 else 0) <= Limit(settings)
      modifies this`table, this`log, buffer
      ensures log == old(log) + if q.Scanned? then AllCalls(q.rows, rounds) else []
      ensures table == if q.Scanned? then AllHandled(settings, old(table), q.rows, rounds) else old(table)
    {
      var readed, ok := ScanBatch(q);
      var rows := if q.Scanned? then q.rows else [];
      for i := 0 to readed
        invariant buffer[..readed] == rows
        invariant log == old(log) + AllCalls(rows[..i], rounds)
        invariant table == AllHandled(settings, old(table), rows[..i], rounds)
      {
        ProcessMessage(buffer[i], rounds(i));
        OneMore(settings, old(table), rows, rounds, i);
      }
      assert rows[..readed] == rows;
    }
  }

  // ---- what a poll does to the table ----

  /** Rows are neither added nor removed, counters and marks never go back, and the message columns stay. */
  ghost predicate Forward(a: Table, b: Table) {
    && a.Keys == b.Keys
    && forall k | k in a ::
         && b[k].attempts >= a[k].attempts
         && (a[k].processedAt.Some? ==> b[k].processedAt.Some?)
         && b[k].(scheduledAt := a[k].scheduledAt, attempts := a[k].attempts, lastAttempt := a[k].lastAttempt,
                  processedAt := a[k].processedAt) == a[k]
  }

  lemma HandledForward(s: Settings, t: Table, o: Stored, r: Round)
    ensures Forward(t, Handled(s, t, o, r))
    ensures forall k | k in t && k != KeyOf(o) :: Handled(s, t, o, r)[k] == t[k]
  {
  }

  lemma HandledLocally(s: Settings, t: Table, u: Table, o: Stored, r: Round)
    requires KeyOf(o) in t && KeyOf(o) in u && t[KeyOf(o)] == u[KeyOf(o)]
    ensures KeyOf(o) in Handled(s, t, o, r) && KeyOf(o) in Handled(s, u, o, r)
    ensures Handled(s, t, o, r)[KeyOf(o)] == Handled(s, u, o, r)[KeyOf(o)]
  {
  }

  lemma {:induction false} AllForward(s: Settings, t: Table, rows: seq<Stored>, rounds: nat -> Round)
    ensures Forward(t, AllHandled(s, t, rows, rounds))
    ensures forall k | k in t && (forall i | 0 <= i < |rows| :: KeyOf(rows[i]) != k) ::
              AllHandled(s, t, rows, rounds)[k] == t[k]
  {
    if rows != [] {
      var n := |rows| - 1;
      AllForward(s, t, rows[..n], rounds);
      HandledForward(s, AllHandled(s, t, rows[..n], rounds), rows[n], rounds(n));
      forall k | k in t && (forall i | 0 <= i < |rows| :: KeyOf(rows[i]) != k)
        ensures AllHandled(s, t, rows, rounds)[k] == t[k]
      {
        assert forall i | 0 <= i < n :: KeyOf(rows[..n][i]) != k;
      }
    }
  }

  /** Every row of a batch is handled once, by its own round, on the state the scan saw. */
  lemma {:induction false} EachHandledOnce(s: Settings, t: Table, rows: seq<Stored>, rounds: nat -> Round, i: nat)
    requires i < |rows| && KeyOf(rows[i]) in t
    requires forall x, y | 0 <= x < y < |rows| :: KeyOf(rows[x]) != KeyOf(rows[y])
    ensures KeyOf(rows[i]) in AllHandled(s, t, rows, rounds)
    ensures AllHandled(s, t, rows, rounds)[KeyOf(rows[i])] == Handled(s, t, rows[i], rounds(i))[KeyOf(rows[i])]
  {
    var n := |rows| - 1;
    var before := AllHandled(s, t, rows[..n], rounds);
    if i < n {
      EachHandledOnce(s, t, rows[..n], rounds, i);
      HandledForward(s, before, rows[n], rounds(n));
    } else {
      NotYetHandled(s, t, rows[..n], rounds, rows[n]);
      HandledLocally(s, before, t, rows[n], rounds(n));
    }
  }

  lemma NotYetHandled(s: Settings, t: Table, rows: seq<Stored>, rounds: nat -> Round, o: Stored)
    requires KeyOf(o) in t && forall j | 0 <= j < |rows| :: KeyOf(rows[j]) != KeyOf(o)
    ensures KeyOf(o) in AllHandled(s, t, rows, rounds) && AllHandled(s, t, rows, rounds)[KeyOf(o)] == t[KeyOf(o)]
  {
    AllForward(s, t, rows, rounds);
  }

  /** A failed publish is counted once and postponed by at least min and at most max; a row never
      exceeds its attempts. */
  lemma PollCountsFailures(s: Settings, t: Table, now: int, rows: seq<Stored>, rounds: nat -> Round, i: nat)
    requires Picked(s, t, now, rows) && i < |rows| && Decode(rows[i]).Some? && 0 < s.min <= s.max
    ensures var k, r := KeyOf(rows[i]), rounds(i);
            var after := AllHandled(s, t, rows, rounds);
            && k in after
            && var o := after[k];
            && (!r.publishOk && r.errorUpdateOk ==>
                  && o.attempts == t[k].attempts + 1 <= Attempts(s)
                  && r.now + s.min <= o.scheduledAt <= r.now + s.max
                  && o.lastAttempt == Some(r.now) && o.processedAt.None?)
            && (r.publishOk && r.successUpdateOk ==> o.processedAt == Some(r.now) && o.attempts == t[k].attempts)
            && (r.publishOk && !r.successUpdateOk ==> o == t[k])
            && (!r.publishOk && !r.errorUpdateOk ==> o == t[k])
  {
    EachHandledOnce(s, t, rows, rounds, i);
    CapBound(s.policy, rows[i].attempts, s.min, s.max, rounds(i).draw);
    match s.policy
    case Exponential(f) => PlainRange(f, s.min, s.max);
    case Jittered(f) => JitterRange(f, rows[i].attempts, s.min, s.max, rounds(i).draw);
  }

  /** A row that cannot be decoded costs nothing and changes nothing, so every later query finds it due again. */
  lemma UndecodableStays(s: Settings, t: Table, now: int, rows: seq<Stored>, rounds: nat -> Round, i: nat)
    requires Picked(s, t, now, rows) && i < |rows| && Decode(rows[i]).None?
    ensures Calls(rows[i], rounds(i)) == []
    ensures var k, after := KeyOf(rows[i]), AllHandled(s, t, rows, rounds);
            k in after && after[k] == rows[i] && forall later | now <= later :: Due(s, after[k], later)
  {
    EachHandledOnce(s, t, rows, rounds, i);
  }

  /** The update after a failed publish of row i reaches the table. */
  predicate Failed(rows: seq<Stored>, rounds: nat -> Round, i: nat)
    requires i < |rows|
  {
    Decode(rows[i]).Some? && !rounds(i).publishOk && rounds(i).errorUpdateOk
  }

  lemma FailureCounted(s: Settings, t: Table, o: Stored, r: Round)
    requires KeyOf(o) in t && t[KeyOf(o)] == o && Decode(o).Some? && !r.publishOk && r.errorUpdateOk
    ensures Handled(s, t, o, r)[KeyOf(o)].attempts == o.attempts + 1
    ensures Handled(s, t, o, r)[KeyOf(o)].scheduledAt == r.now + CalcBackoff(s.policy, o.attempts, s.min, s.max, r.draw)
  {
  }

  lemma PollPostpones(s: Settings, t: Table, now: int, rows: seq<Stored>, rounds: nat -> Round, i: nat)
    requires Picked(s, t, now, rows) && i < |rows| && Failed(rows, rounds, i)
    ensures KeyOf(rows[i]) in AllHandled(s, t, rows, rounds)
    ensures var o := AllHandled(s, t, rows, rounds)[KeyOf(rows[i])];
            && o.attempts == rows[i].attempts + 1
            && o.scheduledAt == rounds(i).now + CalcBackoff(s.policy, rows[i].attempts, s.min, s.max, rounds(i).draw)
  {
    EachHandledOnce(s, t, rows, rounds, i);
    FailureCounted(s, t, rows[i], rounds(i));
  }

  /** The n-th failure of a row postpones it by min at first, then by min times the factor once more
      per failure, up to a positive cap. */
  lemma PauseGrows(s: Settings, t: Table, now: int, rows: seq<Stored>, rounds: nat -> Round, i: nat, f: real)
    requires Picked(s, t, now, rows) && i < |rows| && Failed(rows, rounds, i)
    requires s.policy == Exponential(f) && 0 < s.min
    ensures KeyOf(rows[i]) in AllHandled(s, t, rows, rounds)
    ensures var o, n := AllHandled(s, t, rows, rounds)[KeyOf(rows[i])], rows[i].attempts;
            o.attempts == n + 1 && PlainWait(f, n, s.min, s.max, o.scheduledAt - rounds(i).now)
  {
    PollPostpones(s, t, now, rows, rounds, i);
    var o := AllHandled(s, t, rows, rounds)[KeyOf(rows[i])];
    WaitsPlain(f, rows[i].attempts, s.min, s.max, rounds(i).draw, o.scheduledAt - rounds(i).now);
  }

  /** The rounds with another random draw in round i. */
  function Drawn(rounds: nat -> Round, i: nat, draw: Unit): nat -> Round {
    (j: nat) => if j == i then rounds(j).(draw := draw) else rounds(j)
  }

  /** When row i is scheduled if its failure draws u. */
  function ScheduledFor(s: Settings, t: Table, rows: seq<Stored>, rounds: nat -> Round, i: nat, u: Unit): Option<int>
    requires i < |rows|
  {
    var after := AllHandled(s, t, rows, Drawn(rounds, i, u));
    if KeyOf(rows[i]) in after then Some(after[KeyOf(rows[i])].scheduledAt) else None
  }

  /** With jitter the pauses that some draw gives reach from min up to that same value. */
  lemma JitteredPauseGrows(s: Settings, t: Table, now: int, rows: seq<Stored>, rounds: nat -> Round, i: nat, f: real,
                           v: int)
    requires Picked(s, t, now, rows) && i < |rows| && Failed(rows, rounds, i)
    requires s.policy == Jittered(f) && 0 < s.min && (s.max <= 0 || s.min <= s.max)
    ensures (exists u: Unit :: ScheduledFor(s, t, rows, rounds, i, u) == Some(rounds(i).now + v)) <==>
            JitteredWait(f, rows[i].attempts, s.min, s.max, v)
  {
    forall u: Unit ensures ScheduledFor(s, t, rows, rounds, i, u) ==
                           Some(rounds(i).now + CalcBackoff(Jittered(f), rows[i].attempts, s.min, s.max, u))
    {
      PollPostpones(s, t, now, rows, Drawn(rounds, i, u), i);
    }
    WaitsJittered(f, rows[i].attempts, s.min, s.max, v);
    if draw: Unit :| CalcBackoff(Jittered(f), rows[i].attempts, s.min, s.max, draw) == v {
      assert ScheduledFor(s, t, rows, rounds, i, draw) == Some(rounds(i).now + v);
    }
  }

  /** A row that is marked or has used up its attempts is read by no later query, whatever polls come between. */
  lemma DoneForGood(s: Settings, t: Table, u: Table, now: int, rows: seq<Stored>, k: OutboxKey)
    requires k in t && Forward(t, u) && Picked(s, u, now, rows)
    requires t[k].processedAt.Some? || t[k].attempts >= (if s.maxAttempts <= 0 then 5 else s.maxAttempts)
    ensures forall o | o in rows :: KeyOf(o) != k
  {
    forall o | o in rows ensures KeyOf(o) != k {
      var i :| 0 <= i < |rows| && rows[i] == o;
      assert Due(s, rows[i], now) && u[KeyOf(o)] == o;
    }
  }

  /** A postponed row is read by no query before its time. */
  lemma NotBeforeItsTime(s: Settings, t: Table, now: int, rows: seq<Stored>, k: OutboxKey)
    requires k in t && Picked(s, t, now, rows) && now < t[k].scheduledAt
    ensures forall o | o in rows :: KeyOf(o) != k
  {
  }

  /** A row the writer made is due from its creation on, with no attempts. */
  lemma FreshRowIsDue(s: Settings, m: Message, topic: string, step: string, phase: Phase, now: int, later: int)
    requires Encode(m, topic, step, phase, now).Some?
    ensures var o := Encode(m, topic, step, phase, now).value;
            && (Due(s, o, later) <==> now <= later)
            && o.createdAt == now && o.attempts == 0 && o.lastAttempt == None && o.processedAt == None
            && Parse(m.saga) == Some(o.saga) && KeyOf(o) == OutboxKey(o.saga, topic, phase) && o.step == step
  {
  }

  /** The message columns of the row are what the writer stored for some message. */
  ghost predicate Authored(o: Stored) {
    exists m, topic, step, phase, now :: WrittenAs(o, m, topic, step, phase, now)
  }

  ghost predicate WrittenAs(o: Stored, m: Message, topic: string, step: string, phase: Phase, now: int) {
    var w := Encode(m, topic, step, phase, now);
    w.Some? && o == w.value.(scheduledAt := o.scheduledAt, attempts := o.attempts, lastAttempt := o.lastAttempt,
                             processedAt := o.processedAt)
  }

  lemma AuthoredDecodes(o: Stored)
    requires Authored(o)
    ensures Decode(o).Some? && Decode(o).value.saga == Print(o.saga) && Decode(o).value.from == o.step
  {
    var m, topic, step, phase, now :| WrittenAs(o, m, topic, step, phase, now);
    OutboxRoundTrip(m, topic, step, phase, now);
    assert Decode(o) == Decode(Encode(m, topic, step, phase, now).value);
  }

  /** No row made by the writer takes the undecodable path: a poll of such rows makes one publish
      call per row, in order. */
  lemma {:induction false} EveryRowPublished(rows: seq<Stored>, rounds: nat -> Round, i: nat)
    requires i < |rows| && forall o | o in rows :: Authored(o)
    ensures |AllCalls(rows, rounds)| == |rows|
    ensures Decode(rows[i]).Some?
    ensures AllCalls(rows, rounds)[i] == Call(rows[i].topic, Decode(rows[i]).value, rounds(i).publishOk)
  {
    var n := |rows| - 1;
    assert rows[n] in rows;
    AuthoredDecodes(rows[n]);
    if n > 0 { EveryRowPublished(rows[..n], rounds, if i < n then i else 0); }
  }
}
