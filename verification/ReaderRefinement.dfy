/** Every poll of the outbox reader is a run of the transition system, so the publishing bound is the reader's. */
module ReaderRefinement {
  import opened Message
  import opened Uuid
  import opened Journal
  import opened Outbox
  import opened System
  import opened SystemSafety
  import opened SystemTheorems
  import opened Refinement
  import Reader

  /** The table and the system's counters agree, and every row decodes to the message it was committed with. */
  ghost predicate Mirrors(t: Reader.Table, s: State) {
    && t.Keys == s.db.outbox.Keys
    && forall k | k in t :: RowMirrors(k, t[k], s)
  }

  ghost predicate RowMirrors(k: OutboxKey, o: Stored, s: State)
    requires k in s.db.outbox
  {
    && Reader.KeyOf(o) == k
    && MeterOf(s, k).attempts == o.attempts
    && (MeterOf(s, k).marks > 0 <==> o.processedAt.Some?)
    && Decode(o) == Some(Decoded(k, s.db.outbox[k]))
  }

  function Keys(rows: seq<Stored>): seq<OutboxKey> {
    seq(|rows|, i requires 0 <= i < |rows| => Reader.KeyOf(rows[i]))
  }

  /** Reader r is between two rows of the batch, with rows[i..] still to come. */
  ghost predicate Before(s: State, r: nat, rows: seq<Stored>, i: nat) {
    r < |s.readers| && i <= |rows| && s.readers[r] == Poller(Keys(rows)[i..], None)
  }

  /** The published calls so far went to the broker. */
  ghost predicate Sent(calls: seq<Reader.Call>, s: State) {
    forall c | c in calls && c.ok :: Delivery(c.topic, c.msg) in s.sent
  }

  lemma ScanIsMove(cfg: Config, st: Reader.Settings, s: State, r: nat, t: Reader.Table, now: int, rows: seq<Stored>)
    requires Mirrors(t, s) && Before(s, r, [], 0) && Reader.Picked(st, t, now, rows)
    requires cfg.maxAttempts == Reader.Attempts(st)
    ensures ReaderStep(cfg, s, r, Scan(Keys(rows))) == Some(s.(readers := s.readers[r := Poller(Keys(rows), None)]))
  {
    assert Distinct(Keys(rows));
    forall k | k in Keys(rows) ensures Eligible(cfg, s, k) {
      var i :| 0 <= i < |rows| && Reader.KeyOf(rows[i]) == k;
      assert RowMirrors(k, t[k], s);
    }
  }

  /** The update that follows a publish reaches the table. */
  predicate Applied(round: Reader.Round) {
    if round.publishOk then round.successUpdateOk else round.errorUpdateOk
  }

  /** Publishing row k and the update that follows, or fails to. A publish that failed may have arrived all the same. */
  function RowMoves(r: nat, round: Reader.Round, arrived: bool): seq<Move> {
    [OnReader(r, Publish(round.publishOk, arrived))] + [OnReader(r, Settle(Applied(round)))]
  }

  function AfterRow(s: State, r: nat, rest: seq<OutboxKey>, k: OutboxKey, round: Reader.Round, arrived: bool): State
    requires r < |s.readers| && k in s.db.outbox
  {
    var m := MeterOf(s, k);
    var news := if arrived then {Outgoing(s, k)} else {};
    s.(readers := s.readers[r := Poller(rest, None)],
       meters := s.meters[k := Settled(Published(m, round.publishOk), round.publishOk, Applied(round))],
       broker := s.broker + news, sent := s.sent + news)
  }

  lemma RowExec(cfg: Config, s: State, r: nat, batch: seq<OutboxKey>, round: Reader.Round, arrived: bool)
    requires (round.publishOk ==> arrived) && r < |s.readers|
    requires s.readers[r] == Poller(batch, None) && batch != [] && batch[0] in s.db.outbox
    ensures Exec(cfg, s, RowMoves(r, round, arrived)) == Some(AfterRow(s, r, batch[1..], batch[0], round, arrived))
  {
    var publish := RowMoves(r, round, arrived)[0];
    var settle := RowMoves(r, round, arrived)[1];
    var mid := Do(cfg, s, publish).value;
    assert mid.readers[r := Poller(batch[1..], None)] == s.readers[r := Poller(batch[1..], None)];
    assert MeterOf(mid, batch[0]) == Published(MeterOf(s, batch[0]), round.publishOk);
    var k := batch[0];
    var n := AfterRow(s, r, batch[1..], k, round, arrived);
    var last := Settled(MeterOf(mid, k), round.publishOk, settle.rop.applied);
    assert mid.meters[k := last] == s.meters[k := last];
    assert Do(cfg, mid, settle) == Some(n);
    ExecOne(cfg, s, publish);
    ExecOne(cfg, mid, settle);
    ExecAppend(cfg, s, [publish], [settle]);
  }

  lemma HandledMirrors(st: Reader.Settings, s: State, r: nat, rest: seq<OutboxKey>, t: Reader.Table, o: Stored,
                       round: Reader.Round, arrived: bool)
    requires (round.publishOk ==> arrived) && r < |s.readers| && Reader.KeyOf(o) in t && Reader.KeyOf(o) in s.db.outbox
    requires RowMirrors(Reader.KeyOf(o), t[Reader.KeyOf(o)], s) && Decode(o) == Decode(t[Reader.KeyOf(o)])
    ensures var n := AfterRow(s, r, rest, Reader.KeyOf(o), round, arrived);
            && RowMirrors(Reader.KeyOf(o), Reader.Handled(st, t, o, round)[Reader.KeyOf(o)], n)
            && Sent(Reader.Calls(o, round), n)
  {
  }

  lemma RowAgrees(st: Reader.Settings, s: State, r: nat, rest: seq<OutboxKey>, t: Reader.Table, o: Stored,
                  round: Reader.Round, arrived: bool)
    requires (round.publishOk ==> arrived) && Mirrors(t, s) && r < |s.readers|
    requires Reader.KeyOf(o) in t && Decode(o) == Decode(t[Reader.KeyOf(o)])
    ensures var n := AfterRow(s, r, rest, Reader.KeyOf(o), round, arrived);
            Mirrors(Reader.Handled(st, t, o, round), n) && Sent(Reader.Calls(o, round), n)
  {
    var n := AfterRow(s, r, rest, Reader.KeyOf(o), round, arrived);
    var after := Reader.Handled(st, t, o, round);
    Reader.HandledForward(st, t, o, round);
    HandledMirrors(st, s, r, rest, t, o, round, arrived);
    forall k | k in after && k != Reader.KeyOf(o) ensures RowMirrors(k, after[k], n) {
      assert RowMirrors(k, t[k], s) && MeterOf(n, k) == MeterOf(s, k);
    }
  }

  /** From s to n just one row was counted: its publish, its success, its lost update. */
  ghost predicate Counted(s: State, n: State, k: OutboxKey, round: Reader.Round) {
    && MeterOf(n, k).publishes == MeterOf(s, k).publishes + 1
    && MeterOf(n, k).oks == MeterOf(s, k).oks + (if round.publishOk then 1 else 0)
    && MeterOf(n, k).lost == MeterOf(s, k).lost + (if Applied(round) then 0 else 1)
    && forall x | x != k :: MeterOf(n, x) == MeterOf(s, x)
  }

  lemma RowCounted(s: State, r: nat, rest: seq<OutboxKey>, k: OutboxKey, round: Reader.Round, arrived: bool)
    requires r < |s.readers| && k in s.db.outbox
    ensures Counted(s, AfterRow(s, r, rest, k, round, arrived), k, round)
  {
  }

  /** One row, whatever others did since the scan: from any reachable state, to a reachable state that agrees again. */
  lemma RowStaysReachable(cfg: Config, st: Reader.Settings, s: State, r: nat, t: Reader.Table, o: Stored,
                          round: Reader.Round, arrived: bool) returns (n: State)
    requires Reachable(cfg, s) && Mirrors(t, s) && (round.publishOk ==> arrived)
    requires r < |s.readers| && s.readers[r].waiting.None? && s.readers[r].batch != []
    requires s.readers[r].batch[0] == Reader.KeyOf(o) && Reader.KeyOf(o) in t && Decode(o) == Decode(t[Reader.KeyOf(o)])
    ensures Reachable(cfg, n) && n.db == s.db && n.readers == s.readers[r := Poller(s.readers[r].batch[1..], None)]
    ensures Mirrors(Reader.Handled(st, t, o, round), n) && Sent(Reader.Calls(o, round), n)
    ensures Counted(s, n, Reader.KeyOf(o), round)
  {
    var batch := s.readers[r].batch;
    RowExec(cfg, s, r, batch, round, arrived);
    RowCounted(s, r, batch[1..], batch[0], round, arrived);
    RowAgrees(st, s, r, batch[1..], t, o, round, arrived);
    n := AfterRow(s, r, batch[1..], batch[0], round, arrived);
    ReachableThen(cfg, s, RowMoves(r, round, arrived), n);
  }

  /** Where reader r stands after i rows of its poll. */
  ghost predicate Stands(st: Reader.Settings, s: State, n: State, r: nat, t: Reader.Table, rows: seq<Stored>,
                         rounds: nat -> Reader.Round, i: nat)
  {
    && i <= |rows| && n.db == s.db && |n.readers| == |s.readers| && s.sent <= n.sent
    && Before(n, r, rows, i)
    && Mirrors(Reader.AllHandled(st, t, rows[..i], rounds), n)
    && Sent(Reader.AllCalls(rows[..i], rounds), n)
  }

  /** How many of the rows have key k, for how many of those the publish returned no error, and for
      how many the update was lost. */
  function CountKey(rows: seq<Stored>, k: OutboxKey): nat {
    if rows == [] then 0
    else CountKey(rows[..|rows| - 1], k) + if Reader.KeyOf(rows[|rows| - 1]) == k then 1 else 0
  }

  function CountOks(rows: seq<Stored>, rounds: nat -> Reader.Round, k: OutboxKey): nat {
    if rows == [] then 0
    else
      CountOks(rows[..|rows| - 1], rounds, k)
      + if Reader.KeyOf(rows[|rows| - 1]) == k && rounds(|rows| - 1).publishOk then 1 else 0
  }

  function CountLost(rows: seq<Stored>, rounds: nat -> Reader.Round, k: OutboxKey): nat {
    if rows == [] then 0
    else
      CountLost(rows[..|rows| - 1], rounds, k)
      + if Reader.KeyOf(rows[|rows| - 1]) == k && !Applied(rounds(|rows| - 1)) then 1 else 0
  }

  /** From s to n exactly the first i rows were counted: their publishes, successes and lost updates. */
  ghost predicate Tallied(s: State, n: State, rows: seq<Stored>, rounds: nat -> Reader.Round, i: nat) {
    i <= |rows| && forall k ::
      && MeterOf(n, k).publishes == MeterOf(s, k).publishes + CountKey(rows[..i], k)
      && MeterOf(n, k).oks == MeterOf(s, k).oks + CountOks(rows[..i], rounds, k)
      && MeterOf(n, k).lost == MeterOf(s, k).lost + CountLost(rows[..i], rounds, k)
  }

  lemma TallyNext(s: State, n: State, r: nat, rest: seq<OutboxKey>, rows: seq<Stored>, rounds: nat -> Reader.Round,
                  i: nat, arrived: bool)
    requires i < |rows| && Tallied(s, n, rows, rounds, i) && r < |n.readers| && Reader.KeyOf(rows[i]) in n.db.outbox
    ensures Tallied(s, AfterRow(n, r, rest, Reader.KeyOf(rows[i]), rounds(i), arrived), rows, rounds, i + 1)
  {
    RowCounted(n, r, rest, Reader.KeyOf(rows[i]), rounds(i), arrived);
    assert rows[..i + 1][..i] == rows[..i];
  }

  lemma SameColumns(st: Reader.Settings, t: Reader.Table, rows: seq<Stored>, rounds: nat -> Reader.Round, o: Stored)
    requires Reader.KeyOf(o) in t && t[Reader.KeyOf(o)] == o
    ensures var so := Reader.AllHandled(st, t, rows, rounds);
            Reader.KeyOf(o) in so && Decode(so[Reader.KeyOf(o)]) == Decode(o)
  {
    Reader.AllForward(st, t, rows, rounds);
    var c := Reader.AllHandled(st, t, rows, rounds)[Reader.KeyOf(o)];
    assert c.metadata == o.metadata && c.payload == o.payload && c.step == o.step && c.saga == o.saga;
  }

  /** One row of a poll is two moves of the system. */
  lemma StandsNext(cfg: Config, st: Reader.Settings, s: State, n: State, r: nat, t: Reader.Table, rows: seq<Stored>,
                   rounds: nat -> Reader.Round, arrived: nat -> bool, i: nat) returns (x: State)
    requires Stands(st, s, n, r, t, rows, rounds, i) && i < |rows| && (rounds(i).publishOk ==> arrived(i))
    requires Tallied(s, n, rows, rounds, i)
    requires Reader.KeyOf(rows[i]) in t && t[Reader.KeyOf(rows[i])] == rows[i]
    ensures Exec(cfg, n, RowMoves(r, rounds(i), arrived(i))) == Some(x)
    ensures Stands(st, s, x, r, t, rows, rounds, i + 1) && Tallied(s, x, rows, rounds, i + 1)
  {
    var so := Reader.AllHandled(st, t, rows[..i], rounds);
    var batch := Keys(rows)[i..];
    var k := Reader.KeyOf(rows[i]);
    assert batch[0] == k && batch[1..] == Keys(rows)[i + 1..];
    SameColumns(st, t, rows[..i], rounds, rows[i]);
    RowExec(cfg, n, r, batch, rounds(i), arrived(i));
    RowAgrees(st, n, r, batch[1..], so, rows[i], rounds(i), arrived(i));
    x := AfterRow(n, r, batch[1..], k, rounds(i), arrived(i));
    TallyNext(s, n, r, batch[1..], rows, rounds, i, arrived(i));
    Reader.OneMore(st, t, rows, rounds, i);
    SentMore(Reader.AllCalls(rows[..i], rounds), Reader.Calls(rows[i], rounds(i)), n, x);
  }

  lemma SentMore(calls: seq<Reader.Call>, more: seq<Reader.Call>, s: State, n: State)
    requires Sent(calls, s) && Sent(more, n) && s.sent <= n.sent
    ensures Sent(calls + more, n)
  {
  }

  /** Stages that follow one another by given moves make up one run. */
  lemma {:induction false} StagesRun(cfg: Config, P: (State, nat) -> bool, moves: nat -> seq<Move>, s: State, i: nat)
    returns (n: State)
    requires P(s, 0)
    requires forall x, j: nat | j < i && P(x, j) ::
               Exec(cfg, x, moves(j)).Some? && P(Exec(cfg, x, moves(j)).value, j + 1)
    ensures Reaches(cfg, s, n) && P(n, i)
  {
    if i == 0 {
      n := s;
      ReachesNone(cfg, s);
    } else {
      var mid := StagesRun(cfg, P, moves, s, i - 1);
      n := Exec(cfg, mid, moves(i - 1)).value;
      ReachesThen(cfg, s, mid, moves(i - 1), n);
    }
  }

  lemma RowsAreRun(cfg: Config, st: Reader.Settings, s: State, r: nat, t: Reader.Table, rows: seq<Stored>,
                   rounds: nat -> Reader.Round, arrived: nat -> bool) returns (n: State)
    requires Stands(st, s, s, r, t, rows, rounds, 0) && Tallied(s, s, rows, rounds, 0)
    requires forall j: nat :: rounds(j).publishOk ==> arrived(j)
    requires forall j | 0 <= j < |rows| :: Reader.KeyOf(rows[j]) in t && t[Reader.KeyOf(rows[j])] == rows[j]
    ensures Reaches(cfg, s, n)
    ensures Stands(st, s, n, r, t, rows, rounds, |rows|) && Tallied(s, n, rows, rounds, |rows|)
  {
    var P := (x: State, j: nat) => Stands(st, s, x, r, t, rows, rounds, j) && Tallied(s, x, rows, rounds, j);
    var moves := (j: nat) => RowMoves(r, rounds(j), arrived(j));
    forall x, j: nat | j < |rows| && P(x, j)
      ensures Exec(cfg, x, moves(j)).Some? && P(Exec(cfg, x, moves(j)).value, j + 1)
    {
      var y := StandsNext(cfg, st, s, x, r, t, rows, rounds, arrived, j);
    }
    n := StagesRun(cfg, P, moves, s, |rows|);
  }

  lemma {:induction false} OneCallEach(rows: seq<Stored>, rounds: nat -> Reader.Round)
    requires forall o | o in rows :: Decode(o).Some?
    ensures |Reader.AllCalls(rows, rounds)| == |rows|
  {
    if rows != [] {
      assert rows[|rows| - 1] in rows;
      OneCallEach(rows[..|rows| - 1], rounds);
    }
  }

  /** A poll leads to a reachable state in which table, broker and counters account for exactly its
      publish calls, one a row. */
  lemma PollStaysReachable(cfg: Config, st: Reader.Settings, s: State, r: nat, t: Reader.Table, now: int,
                           rows: seq<Stored>, rounds: nat -> Reader.Round, arrived: nat -> bool) returns (n: State)
    requires forall j: nat :: rounds(j).publishOk ==> arrived(j)
    requires Reachable(cfg, s) && Mirrors(t, s) && Before(s, r, [], 0)
    requires Reader.Picked(st, t, now, rows) && cfg.maxAttempts == Reader.Attempts(st)
    ensures Reachable(cfg, n) && n.db == s.db && |n.readers| == |s.readers| && s.sent <= n.sent && Before(n, r, [], 0)
    ensures Mirrors(Reader.AllHandled(st, t, rows, rounds), n)
    ensures Sent(Reader.AllCalls(rows, rounds), n) && |Reader.AllCalls(rows, rounds)| == |rows|
    ensures Tallied(s, n, rows, rounds, |rows|)
  {
    var scanned := ScanStands(cfg, st, s, r, t, now, rows, rounds);
    n := AfterScan(cfg, st, scanned, r, t, rows, rounds, arrived);
    PickedCalls(st, s, t, now, rows, rounds);
    forall k ensures MeterOf(scanned, k) == MeterOf(s, k) {}
  }

  lemma AfterScan(cfg: Config, st: Reader.Settings, s: State, r: nat, t: Reader.Table, rows: seq<Stored>,
                  rounds: nat -> Reader.Round, arrived: nat -> bool) returns (n: State)
    requires forall j: nat :: rounds(j).publishOk ==> arrived(j)
    requires Reachable(cfg, s) && Stands(st, s, s, r, t, rows, rounds, 0) && Tallied(s, s, rows, rounds, 0)
    requires forall j | 0 <= j < |rows| :: Reader.KeyOf(rows[j]) in t && t[Reader.KeyOf(rows[j])] == rows[j]
    ensures Reachable(cfg, n) && n.db == s.db && |n.readers| == |s.readers| && s.sent <= n.sent && Before(n, r, [], 0)
    ensures Mirrors(Reader.AllHandled(st, t, rows, rounds), n)
    ensures Sent(Reader.AllCalls(rows, rounds), n) && Tallied(s, n, rows, rounds, |rows|)
  {
    n := RowsAreRun(cfg, st, s, r, t, rows, rounds, arrived);
    var ms :| Exec(cfg, s, ms) == Some(n);
    ReachableThen(cfg, s, ms, n);
    PollDone(st, s, n, r, t, rows, rounds);
  }

  lemma PickedCalls(st: Reader.Settings, s: State, t: Reader.Table, now: int, rows: seq<Stored>,
                    rounds: nat -> Reader.Round)
    requires Mirrors(t, s) && Reader.Picked(st, t, now, rows)
    ensures |Reader.AllCalls(rows, rounds)| == |rows|
  {
    forall o | o in rows ensures Decode(o).Some? { assert RowMirrors(Reader.KeyOf(o), o, s); }
    OneCallEach(rows, rounds);
  }

  /** The publishing bound for a poll: what was published before and now exceeds the limit by no more
      than the other readers and the updates that were lost, before and in this poll. */
  lemma PollIsBounded(cfg: Config, st: Reader.Settings, s: State, r: nat, t: Reader.Table, now: int,
                      rows: seq<Stored>, rounds: nat -> Reader.Round, arrived: nat -> bool, k: OutboxKey)
    returns (n: State)
    requires ConfigOk(cfg) && forall j: nat :: rounds(j).publishOk ==> arrived(j)
    requires Reachable(cfg, s) && Mirrors(t, s) && Before(s, r, [], 0)
    requires Reader.Picked(st, t, now, rows) && cfg.maxAttempts == Reader.Attempts(st)
    ensures Reachable(cfg, n) && Mirrors(Reader.AllHandled(st, t, rows, rounds), n)
    ensures Tallied(s, n, rows, rounds, |rows|)
    ensures MeterOf(s, k).publishes + CountKey(rows, k)
            <= cfg.maxAttempts - 1 + |s.readers| + MeterOf(s, k).lost + CountLost(rows, rounds, k)
  {
    n := PollStaysReachable(cfg, st, s, r, t, now, rows, rounds, arrived);
    BoundedPublishing(cfg, n, k);
    assert rows[..|rows|] == rows;
  }

  lemma PollDone(st: Reader.Settings, s: State, n: State, r: nat, t: Reader.Table, rows: seq<Stored>,
                 rounds: nat -> Reader.Round)
    requires Stands(st, s, n, r, t, rows, rounds, |rows|)
    ensures Before(n, r, [], 0)
    ensures Mirrors(Reader.AllHandled(st, t, rows, rounds), n) && Sent(Reader.AllCalls(rows, rounds), n)
  {
    assert rows[..|rows|] == rows && Keys(rows)[|rows|..] == [];
  }

  lemma ScanStands(cfg: Config, st: Reader.Settings, s: State, r: nat, t: Reader.Table, now: int, rows: seq<Stored>,
                   rounds: nat -> Reader.Round) returns (scanned: State)
    requires Reachable(cfg, s) && Mirrors(t, s) && Before(s, r, [], 0)
    requires Reader.Picked(st, t, now, rows) && cfg.maxAttempts == Reader.Attempts(st)
    ensures Reachable(cfg, scanned) && scanned == s.(readers := scanned.readers) && |scanned.readers| == |s.readers|
    ensures Stands(st, scanned, scanned, r, t, rows, rounds, 0) && Tallied(scanned, scanned, rows, rounds, 0)
  {
    ScanIsMove(cfg, st, s, r, t, now, rows);
    var scan := OnReader(r, Scan(Keys(rows)));
    scanned := s.(readers := s.readers[r := Poller(Keys(rows), None)]);
    ExecOne(cfg, s, scan);
    ReachableThen(cfg, s, [scan], scanned);
    assert rows[..0] == [] && Keys(rows)[0..] == Keys(rows);
    forall k | k in t ensures RowMirrors(k, t[k], scanned) { assert RowMirrors(k, t[k], s); }
  }

  // ---- the table that a state of the system stands for ----

  /** The stored form of a committed row with the counters of the state. */
  function StoredRow(s: State, k: OutboxKey): Stored
    requires k in s.db.outbox && Storable(s.db.outbox[k].msg)
  {
    var row, m := s.db.outbox[k], MeterOf(s, k);
    Encode(row.msg, k.topic, row.step, k.phase, 0).value.(
      attempts := m.attempts, processedAt := if m.marks > 0 then Some(0) else None)
  }

  lemma CommittedIsStorable(cfg: Config, s: State, k: OutboxKey)
    requires TxInv(cfg, s) && k in s.db.outbox
    ensures Storable(s.db.outbox[k].msg) && Parse(s.db.outbox[k].msg.saga) == Some(k.saga)
  {
    RowIsOk(cfg, s, k);
    var i := InsertFound(s.db.journal, k);
    assert s.db.journal[i] in s.db.journal && BundleOk(cfg, s.db.journal[i], s.causes[i]);
  }

  lemma StoredMirrors(s: State, k: OutboxKey)
    requires k in s.db.outbox && Storable(s.db.outbox[k].msg) && Parse(s.db.outbox[k].msg.saga) == Some(k.saga)
    ensures RowMirrors(k, StoredRow(s, k), s)
  {
    var row := s.db.outbox[k];
    OutboxRoundTrip(row.msg, k.topic, row.step, k.phase, 0);
    assert Decode(StoredRow(s, k)) == Decode(Encode(row.msg, k.topic, row.step, k.phase, 0).value);
  }

  lemma StoredAuthored(s: State, k: OutboxKey)
    requires k in s.db.outbox && Storable(s.db.outbox[k].msg)
    ensures Reader.Authored(StoredRow(s, k))
  {
    var row := s.db.outbox[k];
    assert Reader.WrittenAs(StoredRow(s, k), row.msg, k.topic, row.step, k.phase, 0);
  }

  ghost predicate AllStorable(s: State) {
    forall k | k in s.db.outbox :: Storable(s.db.outbox[k].msg) && Parse(s.db.outbox[k].msg.saga) == Some(k.saga)
  }

  function StoredTable(s: State): Reader.Table
    requires AllStorable(s)
  {
    map k | k in s.db.outbox :: StoredRow(s, k)
  }

  lemma TableMirrors(s: State)
    requires AllStorable(s)
    ensures Mirrors(StoredTable(s), s)
  {
    forall k | k in StoredTable(s) ensures RowMirrors(k, StoredTable(s)[k], s) { StoredMirrors(s, k); }
  }

  lemma TableAuthored(s: State)
    requires AllStorable(s)
    ensures forall k | k in StoredTable(s) :: Reader.Authored(StoredTable(s)[k])
  {
    forall k | k in StoredTable(s) ensures Reader.Authored(StoredTable(s)[k]) { StoredAuthored(s, k); }
  }

  /** Every reachable state stands for a table of rows that the writer made. */
  lemma ReachableMirrors(cfg: Config, s: State)
    requires ConfigOk(cfg) && Reachable(cfg, s)
    ensures AllStorable(s) && Mirrors(StoredTable(s), s)
    ensures forall k | k in StoredTable(s) :: Reader.Authored(StoredTable(s)[k])
  {
    ReachableInv(cfg, s);
    forall k | k in s.db.outbox ensures Storable(s.db.outbox[k].msg) && Parse(s.db.outbox[k].msg.saga) == Some(k.saga) {
      CommittedIsStorable(cfg, s, k);
    }
    TableMirrors(s);
    TableAuthored(s);
  }

  /** What the writer stores for a bundle. */
  function WrittenRows(b: Bundle, now: int): Reader.Table
    requires b.rows != map[] ==> Storable(b.msg)
  {
    map k | k in b.rows :: Encode(b.msg, k.topic, b.plan.step, k.phase, now).value
  }

  lemma CommitWrites(cfg: Config, s: State, c: nat, op: TxOp)
    requires TxInv(cfg, s) && c < |s.txs| && op.Commit? && TxStep(cfg, s, c, op).Some?
    ensures Writes(s, TxStep(cfg, s, c, op).value, BundleOf(s.txs[c], op.at, op.before, op.business))
  {
    CommitKeeps(cfg, s, c, op);
    var b := BundleOf(s.txs[c], op.at, op.before, op.business);
    assert b.plan.topics[..s.txs[c].written] == b.plan.topics && Sound(b);
    if b.plan.topics == [] && Parse(b.msg.saga).Some? { assert KeysFor(b.plan, b.msg, []) == {}; }
  }

  lemma NewRowMirrors(n: State, b: Bundle, k: OutboxKey, now: int)
    requires k in n.db.outbox && n.db.outbox[k] == Row(b.plan.step, b.msg) && Storable(b.msg)
    requires k == OutboxKey(Parse(b.msg.saga).value, k.topic, b.plan.phase) && MeterOf(n, k) == Meter(0, 0, 0, 0, 0)
    ensures RowMirrors(k, Encode(b.msg, k.topic, b.plan.step, k.phase, now).value, n)
  {
    OutboxRoundTrip(b.msg, k.topic, b.plan.step, k.phase, now);
  }

  /** Bundle b was committed on the way from s to n, and nothing else happened to rows and counters. */
  ghost predicate Writes(s: State, n: State, b: Bundle) {
    && n.db.outbox == s.db.outbox + b.rows && n.meters == s.meters && s.db.outbox.Keys !! b.rows.Keys
    && (b.rows != map[] ==> Storable(b.msg))
    && forall k | k in b.rows ::
         b.rows[k] == Row(b.plan.step, b.msg) && k == OutboxKey(Parse(b.msg.saga).value, k.topic, b.plan.phase)
  }

  lemma WrittenRowMirrors(s: State, n: State, b: Bundle, t: Reader.Table, now: int, k: OutboxKey)
    requires Mirrors(t, s) && Writes(s, n, b) && k in n.db.outbox
    requires k in b.rows ==> MeterOf(s, k) == Meter(0, 0, 0, 0, 0)
    ensures k in t + WrittenRows(b, now) && RowMirrors(k, (t + WrittenRows(b, now))[k], n)
  {
    if k in b.rows {
      NewRowMirrors(n, b, k, now);
    } else {
      assert RowMirrors(k, t[k], s);
      assert MeterOf(n, k) == MeterOf(s, k);
    }
  }

  lemma WrittenMirrors(s: State, n: State, b: Bundle, t: Reader.Table, now: int)
    requires Mirrors(t, s) && Writes(s, n, b) && forall k | k in b.rows :: MeterOf(s, k) == Meter(0, 0, 0, 0, 0)
    ensures Mirrors(t + WrittenRows(b, now), n)
  {
    var after := t + WrittenRows(b, now);
    assert after.Keys == n.db.outbox.Keys;
    forall k | k in after ensures RowMirrors(k, after[k], n) { WrittenRowMirrors(s, n, b, t, now, k); }
  }

  /** A commit of the system adds to the table exactly the rows that the writer encodes. */
  lemma CommitMirrors(cfg: Config, s: State, c: nat, op: TxOp, t: Reader.Table, now: int)
    requires ConfigOk(cfg) && Reachable(cfg, s) && Mirrors(t, s)
    requires c < |s.txs| && op.Commit? && TxStep(cfg, s, c, op).Some?
    ensures var b := BundleOf(s.txs[c], op.at, op.before, op.business);
            && Writes(s, TxStep(cfg, s, c, op).value, b)
            && Mirrors(t + WrittenRows(b, now), TxStep(cfg, s, c, op).value)
  {
    ReachableInv(cfg, s);
    CommitWrites(cfg, s, c, op);
    var b := BundleOf(s.txs[c], op.at, op.before, op.business);
    forall k | k in b.rows ensures MeterOf(s, k) == Meter(0, 0, 0, 0, 0) { FreshRow(cfg, s, k); }
    WrittenMirrors(s, TxStep(cfg, s, c, op).value, b, t, now);
  }
}
