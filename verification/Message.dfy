/** The values that travel between services: messages, saga identifiers and step routing. */
module Message {

  datatype Option<+T> = None | Some(value: T)

  /** What a Go `any` may hold inside a payload. Channels and functions are Unsupported. */
  datatype Value =
    | Null
    | Bool(b: bool)
    | Integer(i: int)
    | Float(r: real)
    | Text(s: string)
    | List(items: seq<Value>)
    | Object(fields: map<string, Value>)
    | Unsupported

  type Payload = map<string, Value>

  const COMPLETE: string := "execute"
  const FAILED: string := "failed"

  datatype Message = Message(
    kind: string, from: string, saga: string, traceparent: string, tracestate: string, payload: Payload)

  const EMPTY: Message := Message("", "", "", "", "", map[])

  /** The part of a step that the rest of the system can see: its name and its topics. */
  datatype Route = Route(name: string, next: seq<string>, errors: seq<string>)
}

/** Saga identifiers as 32 hexadecimal digits, with the text form of section 4 of RFC 9562. */
module Uuid {
  import opened Message

  type Nibble = n: int | 0 <= n < 16
  type Uuid = u: seq<Nibble> | |u| == 32 witness seq(32, _ => 0)

  predicate Dash(i: int) {
    i == 8 || i == 13 || i == 18 || i == 23
  }

  /** Position in the text of digit j, skipping the dashes before it. */
  function Place(j: nat): (i: nat)
    requires j < 32
    ensures i < 36 && !Dash(i) && DigitAt(i) == j
  {
    if j < 8 then j else if j < 12 then j + 1 else if j < 16 then j + 2 else if j < 20 then j + 3 else j + 4
  }

  /** Number of the digit shown at position i of the text. */
  function DigitAt(i: nat): (j: nat)
    requires i < 36 && !Dash(i)
    ensures j < 32
  {
    if i < 8 then i else if i < 13 then i - 1 else if i < 18 then i - 2 else if i < 23 then i - 3 else i - 4
  }

  function HexChar(n: Nibble): (c: char)
    ensures HexValue(c) == Some(n)
  {
    if n < 10 then '0' + n as char else 'a' + (n - 10) as char
  }

  function HexValue(c: char): Option<Nibble> {
    if '0' <= c <= '9' then Some((c - '0') as int)
    else if 'a' <= c <= 'f' then Some((c - 'a') as int + 10)
    else if 'A' <= c <= 'F' then Some((c - 'A') as int + 10)
    else None
  }

  function Lower(c: char): char {
    if 'A' <= c <= 'F' then c - 'A' + 'a' else c
  }

  function Print(u: Uuid): (s: string)
    ensures |s| == 36
  {
    seq(36, i requires 0 <= i < 36 => if Dash(i) then '-' else HexChar(u[DigitAt(i)]))
  }

  predicate Canonical(s: string) {
    && |s| == 36
    && forall i | 0 <= i < 36 :: if Dash(i) then s[i] == '-' else HexValue(s[i]).Some?
  }

  function Parse(s: string): Option<Uuid> {
    if Canonical(s) then
      Some(seq(32, j requires 0 <= j < 32 && Canonical(s) => HexValue(s[Place(j)]).value))
    else
      None
  }

  predicate HexDigit(c: char) {
    '0' <= c <= '9' || 'a' <= c <= 'f' || 'A' <= c <= 'F'
  }

  /** Exactly these texts of the canonical form name an identifier. */
  lemma AcceptedIff(s: string)
    ensures Parse(s).Some? <==>
            && |s| == 36 && s[8] == '-' && s[13] == '-' && s[18] == '-' && s[23] == '-'
            && forall i | 0 <= i < 36 && i != 8 && i != 13 && i != 18 && i != 23 :: HexDigit(s[i])
  {
    if |s| == 36 { assert forall i | 0 <= i < 36 :: HexDigit(s[i]) <==> HexValue(s[i]).Some?; }
  }

  /** Printing and parsing are inverse, and two spellings of one identifier differ only in letter case. */
  lemma PrintParse(u: Uuid)
    ensures Parse(Print(u)) == Some(u)
  {
    var s := Print(u);
    assert Canonical(s);
    forall j | 0 <= j < 32 ensures Parse(s).value[j] == u[j] {
      assert s[Place(j)] == HexChar(u[j]);
    }
    assert Parse(s).value == u;
  }

  lemma ParsePrint(s: string)
    requires Parse(s).Some?
    ensures Print(Parse(s).value) == seq(36, i requires 0 <= i < 36 && |s| == 36 => Lower(s[i]))
  {
    var t := Print(Parse(s).value);
    forall i | 0 <= i < 36 ensures t[i] == Lower(s[i]) {
      if !Dash(i) {
        assert Place(DigitAt(i)) == i;
        assert HexValue(s[i]) == Some(Parse(s).value[DigitAt(i)]);
      }
    }
  }

  lemma SameSagaOtherCase(s: string, t: string)
    requires Parse(s).Some? && Parse(t).Some?
    ensures Parse(s) == Parse(t) <==> forall i | 0 <= i < 36 :: Lower(s[i]) == Lower(t[i])
  {
    ParsePrint(s);
    ParsePrint(t);
    var p, q := Print(Parse(s).value), Print(Parse(t).value);
    if forall i | 0 <= i < 36 :: Lower(s[i]) == Lower(t[i]) {
      assert p == q by {
        forall i | 0 <= i < 36 ensures p[i] == q[i] {
          assert p[i] == Lower(s[i]) && q[i] == Lower(t[i]);
        }
      }
      PrintParse(Parse(s).value);
      PrintParse(Parse(t).value);
    } else {
      var i :| 0 <= i < 36 && Lower(s[i]) != Lower(t[i]);
      assert p[i] == Lower(s[i]) && q[i] == Lower(t[i]);
    }
  }
}

/** JSON documents as trees, and how Go values become JSON and come back. */
module Json {
  import opened Message

  datatype Json =
    | JNull
    | JBool(b: bool)
    | JNumber(r: real)
    | JString(s: string)
    | JArray(items: seq<Json>)
    | JObject(fields: map<string, Json>)

  /** True of the values json.Marshal accepts. */
  predicate Encodable(v: Value) {
    match v
    case List(items) => forall i | 0 <= i < |items| :: Encodable(items[i])
    case Object(fields) => forall k | k in fields :: Encodable(fields[k])
    case _ => !v.Unsupported?
  }

  function Marshal(v: Value): Json
    requires Encodable(v)
  {
    match v
    case Null => JNull
    case Bool(b) => JBool(b)
    case Integer(i) => JNumber(i as real)
    case Float(r) => JNumber(r)
    case Text(s) => JString(s)
    case List(items) => JArray(seq(|items|, i requires 0 <= i < |items| => Marshal(items[i])))
    case Object(fields) => JObject(map k | k in fields :: Marshal(fields[k]))
  }

  /** Decoding into an `any`: every number comes back as a float. */
  function Unmarshal(j: Json): Value {
    match j
    case JNull => Null
    case JBool(b) => Bool(b)
    case JNumber(r) => Float(r)
    case JString(s) => Text(s)
    case JArray(items) => List(seq(|items|, i requires 0 <= i < |items| => Unmarshal(items[i])))
    case JObject(fields) => Object(map k | k in fields :: Unmarshal(fields[k]))
  }

  /** What survives a trip through JSON: integers become floats, all else is kept. */
  function Normal(v: Value): Value {
    match v
    case Integer(i) => Float(i as real)
    case List(items) => List(seq(|items|, i requires 0 <= i < |items| => Normal(items[i])))
    case Object(fields) => Object(map k | k in fields :: Normal(fields[k]))
    case _ => v
  }

  /** No integer anywhere inside. */
  predicate NoInteger(v: Value) {
    match v
    case Integer(_) => false
    case List(items) => forall i | 0 <= i < |items| :: NoInteger(items[i])
    case Object(fields) => forall k | k in fields :: NoInteger(fields[k])
    case _ => true
  }

  lemma {:induction false} NormalKeeps(v: Value)
    ensures Normal(v) == v <==> NoInteger(v)
  {
    match v
    case List(items) =>
      forall i | 0 <= i < |items| ensures Normal(items[i]) == items[i] <==> NoInteger(items[i]) {
        NormalKeeps(items[i]);
      }
      if forall i | 0 <= i < |items| :: Normal(items[i]) == items[i] {
        assert Normal(v).items == items;
      } else {
        var i :| 0 <= i < |items| && Normal(items[i]) != items[i];
        assert Normal(v).items[i] != items[i];
      }
    case Object(fields) =>
      forall k | k in fields ensures Normal(fields[k]) == fields[k] <==> NoInteger(fields[k]) {
        NormalKeeps(fields[k]);
      }
      if forall k | k in fields :: Normal(fields[k]) == fields[k] {
        assert Normal(v).fields == fields;
      } else {
        var k :| k in fields && Normal(fields[k]) != fields[k];
        assert Normal(v).fields[k] != fields[k];
      }
    case _ =>
  }

  lemma {:induction false} ValueRoundTrip(v: Value)
    requires Encodable(v)
    ensures Unmarshal(Marshal(v)) == Normal(v)
  {
    match v
    case List(items) =>
      forall i | 0 <= i < |items| ensures Unmarshal(Marshal(items[i])) == Normal(items[i]) {
        ValueRoundTrip(items[i]);
      }
    case Object(fields) =>
      forall k | k in fields ensures Unmarshal(Marshal(fields[k])) == Normal(fields[k]) {
        ValueRoundTrip(fields[k]);
      }
    case _ =>
  }
}
