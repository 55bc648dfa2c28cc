/** The stored form of an outbox row, and both directions of its encoding. */
module Outbox {
  import opened Message
  import opened Uuid
  import opened Json
  import opened Journal

  /** A row of the outbox table. Metadata and payload are JSON documents. */
  datatype Stored = Stored(
    saga: Uuid, step: string, topic: string, phase: Phase, createdAt: int, scheduledAt: int,
    metadata: Option<Json>, payload: Json, attempts: nat, lastAttempt: Option<int>, processedAt: Option<int>)

  function Meta(m: Message): Json {
    var always := map["type" := JString(m.kind), "from" := JString(m.from), "saga_id" := JString(m.saga)];
    var parent := if m.traceparent == "" then map[] else map["traceparent" := JString(m.traceparent)];
    var state := if m.tracestate == "" then map[] else map["tracestate" := JString(m.tracestate)];
    JObject(always + parent + state)
  }

  /** The writer's conversion; no row for a malformed saga identifier or a value JSON cannot hold. */
  function Encode(m: Message, topic: string, step: string, phase: Phase, now: int): Option<Stored> {
    if !Storable(m) then None
    else
      Some(Stored(Parse(m.saga).value, step, topic, phase, now, now, Some(Meta(m)), Body(m.payload), 0, None, None))
  }

  function Body(p: Payload): Json
    requires forall k | k in p :: Encodable(p[k])
  {
    JObject(map["payload" := JObject(map k | k in p :: Marshal(p[k]))])
  }

  function DecodeFields(fields: map<string, Json>): Payload {
    map k | k in fields :: Unmarshal(fields[k])
  }

  function NormalFields(p: Payload): Payload {
    map k | k in p :: Normal(p[k])
  }

  /** A string field of a decoded struct: absent means empty, another JSON type is an error. */
  function Field(fields: map<string, Json>, name: string): Option<string> {
    if name !in fields || fields[name].JNull? then Some("")
    else if fields[name].JString? then Some(fields[name].s)
    else None
  }

  function DecodePayload(j: Json): Option<Payload> {
    match j
    case JNull => Some(map[])
    case JObject(fields) =>
      if "payload" !in fields || fields["payload"].JNull? then Some(map[])
      else if fields["payload"].JObject? then
        Some(DecodeFields(fields["payload"].fields))
      else None
    case _ => None
  }

  function DecodeMeta(j: Json): Option<Message> {
    match j
    case JNull => Some(EMPTY)
    case JObject(f) =>
      if Field(f, "type").Some? && Field(f, "from").Some? && Field(f, "saga_id").Some? &&
         Field(f, "traceparent").Some? && Field(f, "tracestate").Some? then
        Some(Message(Field(f, "type").value, Field(f, "from").value, Field(f, "saga_id").value,
                     Field(f, "traceparent").value, Field(f, "tracestate").value, map[]))
      else None
    case _ => None
  }

  /** The reader's conversion: the columns decide who sent the message and for which saga. */
  function Decode(o: Stored): Option<Message> {
    var meta := if o.metadata.None? then Some(EMPTY) else DecodeMeta(o.metadata.value);
    var payload := DecodePayload(o.payload);
    if meta.None? || payload.None? then None
    else Some(meta.value.(from := o.step, saga := Print(o.saga), payload := payload.value))
  }

  /** The message consumers see for a committed row. */
  function Decoded(k: OutboxKey, row: Row): Message {
    row.msg.(from := row.step, saga := Print(k.saga), payload := NormalFields(row.msg.payload))
  }

  /** The metadata document of a stored row, field by field: empty trace fields are left out. */
  ghost predicate MetaDocument(m: Message, j: Json) {
    && j.JObject?
    && j.fields.Keys == {"type", "from", "saga_id"}
                        + (if m.traceparent != "" then {"traceparent"} else {})
                        + (if m.tracestate != "" then {"tracestate"} else {})
    && j.fields["type"] == JString(m.kind) && j.fields["from"] == JString(m.from)
    && j.fields["saga_id"] == JString(m.saga)
    && (m.traceparent != "" ==> j.fields["traceparent"] == JString(m.traceparent))
    && (m.tracestate != "" ==> j.fields["tracestate"] == JString(m.tracestate))
  }

  lemma MetaForm(m: Message)
    ensures MetaDocument(m, Meta(m))
  {
  }

  /** Its payload document: one field, an object with the keys of the payload. */
  ghost predicate PayloadDocument(m: Message, j: Json) {
    && j.JObject? && j.fields.Keys == {"payload"} && j.fields["payload"].JObject?
    && j.fields["payload"].fields.Keys == m.payload.Keys
  }

  lemma StoredForm(m: Message, topic: string, step: string, phase: Phase, now: int)
    requires Encode(m, topic, step, phase, now).Some?
    ensures var o := Encode(m, topic, step, phase, now).value;
            o.metadata.Some? && MetaDocument(m, o.metadata.value) && PayloadDocument(m, o.payload)
  {
    MetaForm(m);
  }

  /** Absent, null or a string: what a text field of a document may be. */
  predicate TextField(f: map<string, Json>, name: string) {
    name in f ==> f[name].JNull? || f[name].JString?
  }

  /** A row can be decoded iff its documents have the expected types; the columns, not the metadata, say
      who sent the message and for which saga. */
  lemma DecodableIff(o: Stored)
    ensures Decode(o).Some? <==>
            && (o.metadata.Some? && !o.metadata.value.JNull? ==>
                  && o.metadata.value.JObject?
                  && forall name | name in ["type", "from", "saga_id", "traceparent", "tracestate"] ::
                       TextField(o.metadata.value.fields, name))
            && (!o.payload.JNull? ==>
                  && o.payload.JObject?
                  && ("payload" in o.payload.fields ==>
                        o.payload.fields["payload"].JNull? || o.payload.fields["payload"].JObject?))
    ensures Decode(o).Some? ==> Decode(o).value.from == o.step && Decode(o).value.saga == Print(o.saga)
  {
    if o.metadata.Some? && o.metadata.value.JObject? {
      var f := o.metadata.value.fields;
      var names := ["type", "from", "saga_id", "traceparent", "tracestate"];
      assert forall name | name in names :: TextField(f, name) <==> Field(f, name).Some?;
      assert names[0] in names && names[1] in names && names[2] in names && names[3] in names && names[4] in names;
    }
  }

  lemma MetaRoundTrip(m: Message)
    ensures DecodeMeta(Meta(m)) == Some(m.(payload := map[]))
  {
  }

  lemma PayloadRoundTrip(p: Payload)
    requires forall k | k in p :: Encodable(p[k])
    ensures DecodePayload(Body(p)) == Some(NormalFields(p))
  {
    forall k | k in p ensures Unmarshal(Marshal(p[k])) == Normal(p[k]) { ValueRoundTrip(p[k]); }
    var fields := Body(p).fields["payload"].fields;
    assert DecodeFields(fields) == NormalFields(p);
  }

  /** Whatever the writer stores, the reader decodes: the written message, with the row's step and
      canonical saga text. */
  lemma OutboxRoundTrip(m: Message, topic: string, step: string, phase: Phase, now: int)
    requires Encode(m, topic, step, phase, now).Some?
    ensures var o := Encode(m, topic, step, phase, now).value;
            && Decode(o) == Some(Decoded(OutboxKey(o.saga, topic, phase), Row(step, m)))
            && Parse(Decode(o).value.saga) == Parse(m.saga)
  {
    MetaRoundTrip(m);
    PayloadRoundTrip(m.payload);
    PrintParse(Parse(m.saga).value);
  }

  /** Decoding is stable: what a consumer received, written again, reaches the next consumer unchanged. */
  lemma {:induction false} NormalIsStable(v: Value)
    ensures Normal(Normal(v)) == Normal(v)
  {
    match v
    case List(items) =>
      forall i | 0 <= i < |items| ensures Normal(Normal(items[i])) == Normal(items[i]) { NormalIsStable(items[i]); }
    case Object(fields) =>
      forall k | k in fields ensures Normal(Normal(fields[k])) == Normal(fields[k]) { NormalIsStable(fields[k]); }
    case _ =>
  }

  lemma {:induction false} NormalIsEncodable(v: Value)
    requires Encodable(v)
    ensures Encodable(Normal(v))
  {
    match v
    case List(items) =>
      forall i | 0 <= i < |items| ensures Encodable(Normal(items[i])) { NormalIsEncodable(items[i]); }
    case Object(fields) =>
      forall k | k in fields ensures Encodable(Normal(fields[k])) { NormalIsEncodable(fields[k]); }
    case _ =>
  }

  lemma NormalPayload(p: Payload)
    requires forall k | k in p :: Encodable(p[k])
    ensures NormalFields(NormalFields(p)) == NormalFields(p)
    ensures forall k | k in NormalFields(p) :: Encodable(NormalFields(p)[k])
  {
    forall k | k in p ensures Encodable(Normal(p[k])) && Normal(Normal(p[k])) == Normal(p[k]) {
      NormalIsEncodable(p[k]);
      NormalIsStable(p[k]);
    }
  }

  /** A step that sends on what it received writes a row that decodes to exactly the message it addressed. */
  lemma ForwardedUnchanged(m: Message, topic: string, step: string, phase: Phase, now: int,
                           dedup: bool, route: Route, onward: Phase, next: string, later: int)
    requires Encode(m, topic, step, phase, now).Some?
    requires StepPlan(dedup, route, m, onward).topics != []
    ensures var received := Decode(Encode(m, topic, step, phase, now).value).value;
            var sent := Addressed(StepPlan(dedup, route, received, onward), received);
            && sent.payload == received.payload && sent.saga == received.saga
            && Encode(sent, next, route.name, onward, later).Some?
            && Decode(Encode(sent, next, route.name, onward, later).value) == Some(sent)
  {
    OutboxRoundTrip(m, topic, step, phase, now);
    var received := Decode(Encode(m, topic, step, phase, now).value).value;
    var sent := Addressed(StepPlan(dedup, route, received, onward), received);
    NormalPayload(m.payload);
    PrintParse(Parse(m.saga).value);
    OutboxRoundTrip(sent, next, route.name, onward, later);
  }
}
