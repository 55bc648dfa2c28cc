/** One service database: inbox keys, outbox rows, business tables, and the history of what was committed. */
module Journal {
  import opened Message
  import opened Uuid
  import opened Json

  datatype Phase = Execute | Compensate

  datatype InboxKey = InboxKey(saga: Uuid, from: string)

  datatype OutboxKey = OutboxKey(saga: Uuid, topic: string, phase: Phase)

  datatype Row = Row(step: string, msg: Message)

  type Business = map<string, string>

  /** What one transaction of a step is to do: claim for msg, then send the result to every topic. */
  datatype Plan = Plan(step: string, msg: Message, kind: string, topics: seq<string>, phase: Phase, claims: bool)

  /** One committed transaction. `at` and `before` record when its body ran and on which tables. */
  datatype Bundle = Bundle(
    plan: Plan, claim: Option<InboxKey>, at: nat, before: Business, msg: Message,
    rows: map<OutboxKey, Row>, business: Business)

  datatype Db = Db(inbox: set<InboxKey>, outbox: map<OutboxKey, Row>, business: Business, journal: seq<Bundle>)

  function StepPlan(dedup: bool, route: Route, msg: Message, phase: Phase): Plan {
    match phase
    case Execute => Plan(route.name, msg, COMPLETE, route.next, Execute, dedup && msg.from != "")
    case Compensate => Plan(route.name, msg, FAILED, route.errors, Compensate, dedup && msg.from != "")
  }

  function EventPlan(route: Route, msg: Message): Plan {
    Plan(route.name, msg.(kind := FAILED, from := route.name), FAILED, route.errors, Compensate, false)
  }

  function KeyFor(p: Plan): Option<InboxKey> {
    if p.claims && Parse(p.msg.saga).Some? then Some(InboxKey(Parse(p.msg.saga).value, p.msg.from)) else None
  }

  /** The result of a body as it is written and returned: saga, type and sender are overwritten. */
  function Addressed(p: Plan, m: Message): Message {
    var r := m.(saga := p.msg.saga);
    if p.topics == [] then r else r.(kind := p.kind, from := p.step)
  }

  /** One row per topic, all carrying the same message. */
  function RowsFor(p: Plan, m: Message, topics: seq<string>): map<OutboxKey, Row> {
    if Parse(m.saga).Some? then
      map k | k in KeysFor(p, m, topics) :: Row(p.step, m)
    else
      map[]
  }

  function KeysFor(p: Plan, m: Message, topics: seq<string>): set<OutboxKey>
    requires Parse(m.saga).Some?
  {
    set t | t in topics :: OutboxKey(Parse(m.saga).value, t, p.phase)
  }

  /** The outbox can hold the message: its saga is an identifier and JSON can hold its payload. */
  predicate Storable(m: Message) {
    Parse(m.saga).Some? && forall k | k in m.payload :: Encodable(m.payload[k])
  }

  predicate NoRepeat(topics: seq<string>) {
    forall i, j | 0 <= i < j < |topics| :: topics[i] != topics[j]
  }

  /** Adding the row of one more topic, whose key is not among the rows so far. */
  lemma NextRow(p: Plan, m: Message, i: nat)
    requires i < |p.topics| && Parse(m.saga).Some? && NoRepeat(p.topics[..i])
    requires OutboxKey(Parse(m.saga).value, p.topics[i], p.phase) !in RowsFor(p, m, p.topics[..i])
    ensures NoRepeat(p.topics[..i + 1])
    ensures RowsFor(p, m, p.topics[..i + 1]) ==
            RowsFor(p, m, p.topics[..i])[OutboxKey(Parse(m.saga).value, p.topics[i], p.phase) := Row(p.step, m)]
  {
    assert p.topics[..i + 1] == p.topics[..i] + [p.topics[i]];
    forall j | 0 <= j < i ensures p.topics[j] != p.topics[i] {
      assert p.topics[..i][j] == p.topics[j];
      assert OutboxKey(Parse(m.saga).value, p.topics[j], p.phase) in KeysFor(p, m, p.topics[..i]);
    }
  }

  ghost predicate Sound(b: Bundle) {
    && b.claim == KeyFor(b.plan)
    && (b.plan.claims ==> b.claim.Some?)
    && (b.plan.topics != [] ==> Storable(b.msg))
    && NoRepeat(b.plan.topics)
    && b.rows == RowsFor(b.plan, b.msg, b.plan.topics)
    && b.msg == Addressed(b.plan, b.msg)
  }

  /** The transaction leaves a mark in one of the two keyed tables, so it cannot be repeated. */
  predicate Keyed(p: Plan) {
    p.claims || p.topics != []
  }

  predicate Fits(db: Db, b: Bundle) {
    && (b.claim.Some? ==> b.claim.value !in db.inbox)
    && db.outbox.Keys !! b.rows.Keys
  }

  function Apply(db: Db, b: Bundle): Db {
    Db(if b.claim.Some? then db.inbox + {b.claim.value} else db.inbox,
       db.outbox + b.rows, b.business, db.journal + [b])
  }

  function Claims(journal: seq<Bundle>, k: InboxKey): nat {
    if journal == [] then 0
    else Claims(journal[..|journal| - 1], k) + if journal[|journal| - 1].claim == Some(k) then 1 else 0
  }

  function Inserts(journal: seq<Bundle>, k: OutboxKey): nat {
    if journal == [] then 0
    else Inserts(journal[..|journal| - 1], k) + if k in journal[|journal| - 1].rows then 1 else 0
  }

  /** The two tables are exactly what the committed transactions put there, each key once. */
  ghost predicate Valid(db: Db) {
    && (forall k :: Claims(db.journal, k) == if k in db.inbox then 1 else 0)
    && (forall k :: Inserts(db.journal, k) == if k in db.outbox then 1 else 0)
    && (forall b, k | b in db.journal && k in b.rows :: k in db.outbox && db.outbox[k] == b.rows[k])
  }

  lemma ApplyKeepsValid(db: Db, b: Bundle)
    requires Valid(db) && Fits(db, b)
    ensures Valid(Apply(db, b))
  {
    var j := Apply(db, b).journal;
    assert j[..|j| - 1] == db.journal;
    forall c, k | c in j && k in c.rows ensures k in Apply(db, b).outbox && Apply(db, b).outbox[k] == c.rows[k] {
      assert c in db.journal || c == b;
    }
  }

  lemma {:induction false} ClaimCounted(journal: seq<Bundle>, i: nat, k: InboxKey)
    requires i < |journal| && journal[i].claim == Some(k)
    ensures Claims(journal, k) >= 1
    ensures forall j | i < j < |journal| && journal[j].claim == Some(k) :: Claims(journal, k) >= 2
  {
    var n := |journal| - 1;
    if i < n { ClaimCounted(journal[..n], i, k); }
  }

  lemma {:induction false} InsertCounted(journal: seq<Bundle>, i: nat, k: OutboxKey)
    requires i < |journal| && k in journal[i].rows
    ensures Inserts(journal, k) >= 1
    ensures forall j | i < j < |journal| && k in journal[j].rows :: Inserts(journal, k) >= 2
  {
    var n := |journal| - 1;
    if i < n { InsertCounted(journal[..n], i, k); }
  }

  lemma {:induction false} ClaimFound(journal: seq<Bundle>, k: InboxKey) returns (i: nat)
    requires Claims(journal, k) > 0
    ensures i < |journal| && journal[i].claim == Some(k)
  {
    var n := |journal| - 1;
    if journal[n].claim == Some(k) { i := n; } else { i := ClaimFound(journal[..n], k); }
  }

  lemma {:induction false} InsertFound(journal: seq<Bundle>, k: OutboxKey) returns (i: nat)
    requires Inserts(journal, k) > 0
    ensures i < |journal| && k in journal[i].rows
  {
    var n := |journal| - 1;
    if k in journal[n].rows { i := n; } else { i := InsertFound(journal[..n], k); }
  }

  /** At most one committed transaction per (saga, from_step), and the key is in the inbox iff there is one. */
  lemma AtMostOnce(db: Db, k: InboxKey)
    requires Valid(db)
    ensures k in db.inbox <==> exists i | 0 <= i < |db.journal| :: db.journal[i].claim == Some(k)
    ensures forall i, j | 0 <= i < j < |db.journal| ::
              !(db.journal[i].claim == Some(k) && db.journal[j].claim == Some(k))
  {
    if k in db.inbox { var i := ClaimFound(db.journal, k); }
    forall i, j | 0 <= i < j < |db.journal| && db.journal[i].claim == Some(k)
      ensures db.journal[j].claim != Some(k)
    {
      ClaimCounted(db.journal, i, k);
    }
    forall i | 0 <= i < |db.journal| && db.journal[i].claim == Some(k) ensures k in db.inbox {
      ClaimCounted(db.journal, i, k);
    }
  }

  /** Every outbox row was committed by exactly one transaction, together with all the rows of that transaction. */
  lemma NoOrphanRow(db: Db, k: OutboxKey)
    requires Valid(db) && k in db.outbox
    ensures exists i | 0 <= i < |db.journal| ::
              && k in db.journal[i].rows
              && (forall s | s in db.journal[i].rows :: s in db.outbox && db.outbox[s] == db.journal[i].rows[s])
              && (forall j | 0 <= j < |db.journal| && k in db.journal[j].rows :: j == i)
  {
    var i := InsertFound(db.journal, k);
    var b := db.journal[i];
    assert b in db.journal;
    forall j | 0 <= j < |db.journal| && k in db.journal[j].rows ensures j == i {
      if i < j { InsertCounted(db.journal, i, k); }
      if j < i { InsertCounted(db.journal, j, k); }
    }
  }

  function InboxNames(db: Db, s: Uuid): set<string> {
    set k | k in db.inbox && k.saga == s :: k.from
  }

  function OutboxTopics(db: Db, s: Uuid, phase: Phase): set<string> {
    set k | k in db.outbox && k.saga == s && k.phase == phase :: k.topic
  }

  lemma NameUsed(db: Db, s: Uuid, name: string)
    ensures name in InboxNames(db, s) <==> InboxKey(s, name) in db.inbox
  {
    if InboxKey(s, name) in db.inbox { assert InboxKey(s, name).from in InboxNames(db, s); }
  }

  lemma TopicUsed(db: Db, s: Uuid, topic: string, phase: Phase)
    ensures topic in OutboxTopics(db, s, phase) <==> OutboxKey(s, topic, phase) in db.outbox
  {
    if OutboxKey(s, topic, phase) in db.outbox {
      assert OutboxKey(s, topic, phase).topic in OutboxTopics(db, s, phase);
    }
  }

  /** Keys that saga s can still use, out of a finite world of step names and topics. */
  function Remaining(db: Db, s: Uuid, names: set<string>, topics: set<string>): nat {
    |names - InboxNames(db, s)| + |topics - OutboxTopics(db, s, Execute)| + |topics - OutboxTopics(db, s, Compensate)|
  }

  predicate Touches(b: Bundle, s: Uuid) {
    (b.claim.Some? && b.claim.value.saga == s) || exists k | k in b.rows :: k.saga == s
  }

  ghost predicate Within(b: Bundle, names: set<string>, topics: set<string>) {
    && (b.claim.Some? ==> b.claim.value.from in names)
    && (forall k | k in b.rows :: k.topic in topics)
  }

  /** How many committed transactions used a key of saga s. */
  function Moves(journal: seq<Bundle>, s: Uuid): nat {
    if journal == [] then 0
    else Moves(journal[..|journal| - 1], s) + if Touches(journal[|journal| - 1], s) then 1 else 0
  }

  lemma Shrink(a: set<string>, b: set<string>)
    requires a <= b
    ensures |a| <= |b| && (a != b ==> |a| < |b|)
  {
    assert b == a + (b - a);
  }

  lemma KeysGrow(db: Db, b: Bundle, s: Uuid)
    ensures InboxNames(db, s) <= InboxNames(Apply(db, b), s)
    ensures forall phase :: OutboxTopics(db, s, phase) <= OutboxTopics(Apply(db, b), s, phase)
  {
    var e := Apply(db, b);
    forall n | n in InboxNames(db, s) ensures n in InboxNames(e, s) {
      NameUsed(db, s, n);
      NameUsed(e, s, n);
    }
    forall phase, t | t in OutboxTopics(db, s, phase) ensures t in OutboxTopics(e, s, phase) {
      TopicUsed(db, s, t, phase);
      TopicUsed(e, s, t, phase);
    }
  }

  lemma KeyIsNew(db: Db, b: Bundle, s: Uuid)
    requires Fits(db, b) && Touches(b, s)
    ensures (exists n :: b.claim == Some(InboxKey(s, n)) && n in InboxNames(Apply(db, b), s) - InboxNames(db, s))
         || (exists t, phase :: OutboxKey(s, t, phase) in b.rows
                && t in OutboxTopics(Apply(db, b), s, phase) - OutboxTopics(db, s, phase))
  {
    var e := Apply(db, b);
    if b.claim.Some? && b.claim.value.saga == s {
      var n := b.claim.value.from;
      NameUsed(db, s, n);
      NameUsed(e, s, n);
      assert b.claim == Some(InboxKey(s, n));
    } else {
      var k :| k in b.rows && k.saga == s;
      TopicUsed(db, s, k.topic, k.phase);
      TopicUsed(e, s, k.topic, k.phase);
      assert k == OutboxKey(s, k.topic, k.phase);
    }
  }

  /** Every transaction that uses a key of the saga strictly lowers what remains: sagas are finite, cycles included. */
  lemma ApplyLowersRemaining(db: Db, b: Bundle, s: Uuid, names: set<string>, topics: set<string>)
    requires Fits(db, b) && Within(b, names, topics)
    ensures Remaining(Apply(db, b), s, names, topics) <= Remaining(db, s, names, topics)
    ensures Touches(b, s) ==> Remaining(Apply(db, b), s, names, topics) < Remaining(db, s, names, topics)
  {
    var e := Apply(db, b);
    KeysGrow(db, b, s);
    var n0, n1 := InboxNames(db, s), InboxNames(e, s);
    var x0, x1 := OutboxTopics(db, s, Execute), OutboxTopics(e, s, Execute);
    var c0, c1 := OutboxTopics(db, s, Compensate), OutboxTopics(e, s, Compensate);
    Shrink(names - n1, names - n0);
    Shrink(topics - x1, topics - x0);
    Shrink(topics - c1, topics - c0);
    if Touches(b, s) {
      KeyIsNew(db, b, s);
      if n :| b.claim == Some(InboxKey(s, n)) && n in n1 - n0 {
        assert n in names - n0 && n !in names - n1;
      } else {
        var t, phase :| OutboxKey(s, t, phase) in b.rows && t in OutboxTopics(e, s, phase) - OutboxTopics(db, s, phase);
        assert t in topics;
        match phase
        case Execute => assert t in topics - x0 && t !in topics - x1;
        case Compensate => assert t in topics - c0 && t !in topics - c1;
      }
    }
  }
}
