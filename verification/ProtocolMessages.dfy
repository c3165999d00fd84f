/** What the handshakes accept, said of their entries alone: which fields they may hold, how long each
    may be, and what each has to say. */
module ProtocolMessages {
  import opened ProtocolWire
  import opened ProtocolHandshake
  import opened Wrappers

  // ---- entries ----

  ghost predicate Holds(es: seq<Entry>, f: nat, v: Value) {
    exists i :: 0 <= i < |es| && es[i] == Entry(f, v)
  }

  predicate Absent(es: seq<Entry>, f: nat) {
    forall i :: 0 <= i < |es| ==> es[i].field != f
  }

  /** A text field says `t`; left out, it says nothing. */
  ghost predicate Says(es: seq<Entry>, f: nat, t: seq<Byte>) {
    IsUtf8(t) && (Holds(es, f, Bytes(t)) || (t == [] && Absent(es, f)))
  }

  ghost predicate SaysNumber(es: seq<Entry>, f: nat, n: nat) {
    Holds(es, f, Number(n)) || (n == 0 && Absent(es, f))
  }

  ghost predicate SaysText(es: seq<Entry>, f: nat) {
    exists t :: Says(es, f, t)
  }

  predicate EachOnce(es: seq<Entry>) {
    forall i, j :: 0 <= i < j < |es| ==> es[i].field != es[j].field
  }

  predicate EntryFits(e: Entry, schema: Schema) {
    e.field in schema && 8 * e.field + 2 < TWO_TO_THE_32 && ValueFits(e.value, schema[e.field])
  }

  /** Conforming is: no field twice, and each as its schema says. */
  lemma {:induction false} ConformsExactly(es: seq<Entry>, schema: Schema, seen: set<nat>)
    ensures Conforms(es, schema, seen) <==>
      EachOnce(es) && forall i :: 0 <= i < |es| ==> EntryFits(es[i], schema) && es[i].field !in seen
    decreases |es|
  {
    hide ValueFits;
    if es != [] {
      ConformsExactly(es[1..], schema, seen + {es[0].field});
      assert forall i :: 0 <= i < |es[1..]| ==> es[1..][i] == es[i + 1];
      if EachOnce(es) && forall i :: 0 <= i < |es| ==> EntryFits(es[i], schema) && es[i].field !in seen {
        assert EachOnce(es[1..]);
      }
      if Conforms(es, schema, seen) {
        forall i | 0 < i < |es| ensures EntryFits(es[i], schema) && es[i].field !in seen && es[i].field != es[0].field {
          assert es[i] == es[1..][i - 1];
        }
        forall i, j | 0 < i < j < |es| ensures es[i].field != es[j].field {
          assert es[1..][i - 1].field != es[1..][j - 1].field;
        }
      }
    }
  }

  /** The map holds just the entries. */
  lemma {:induction false} MapHoldsEntries(es: seq<Entry>, f: nat)
    requires EachOnce(es)
    ensures Absent(es, f) <==> f !in MapOf(es)
    ensures forall v :: Holds(es, f, v) <==> f in MapOf(es) && MapOf(es)[f] == v
    decreases |es|
  {
    if es != [] {
      assert forall i :: 0 <= i < |es[1..]| ==> es[1..][i] == es[i + 1];
      MapHoldsEntries(es[1..], f);
      if es[0].field == f {
        assert Absent(es[1..], f);
        assert Holds(es, f, es[0].value);
      } else {
        forall v | Holds(es[1..], f, v) ensures Holds(es, f, v) {
          var i :| 0 <= i < |es[1..]| && es[1..][i] == Entry(f, v);
          assert es[i + 1] == Entry(f, v);
        }
        forall v | Holds(es, f, v) ensures Holds(es[1..], f, v) {
          var i :| 0 <= i < |es| && es[i] == Entry(f, v);
          assert es[1..][i - 1] == Entry(f, v);
        }
      }
    }
  }

  lemma TextIsSaid(es: seq<Entry>, f: nat)
    requires EachOnce(es)
    ensures forall t :: TextOf(MapOf(es), f) == Some(t) <==> Says(es, f, t)
    ensures TextOf(MapOf(es), f).Some? <==> SaysText(es, f)
  {
    hide Holds, Absent, IsUtf8, MapOf;
    MapHoldsEntries(es, f);
    assert IsUtf8([]) by {
      EmptyIsUtf8();
    }
    if f in MapOf(es) {
      assert Holds(es, f, MapOf(es)[f]);
    }
    forall t ensures TextOf(MapOf(es), f) == Some(t) <==> Says(es, f, t) {
    }
    if TextOf(MapOf(es), f).Some? {
      assert Says(es, f, TextOf(MapOf(es), f).value);
    }
  }

  lemma EmptyIsUtf8()
    ensures IsUtf8([])
  {
  }

  lemma NumberIsSaid(es: seq<Entry>, f: nat)
    requires EachOnce(es)
    ensures forall n: nat :: NumberOf(MapOf(es), f) == Some(n) <==> SaysNumber(es, f, n)
  {
    hide Holds, Absent, MapOf;
    MapHoldsEntries(es, f);
  }

  // ---- wrapping ----

  /** The bytes are one message under one tag. */
  predicate Wraps(b: seq<Byte>, outer: nat, body: seq<Byte>) {
    b == Encode([Entry(outer, Bytes(body))]) && |b| <= MAX_HANDSHAKE_BYTES
  }

  lemma EnvelopeExactly(b: seq<Byte>, allowed: set<nat>, outer: nat, body: seq<Byte>)
    requires forall f :: f in allowed ==> 8 * f + 2 < TWO_TO_THE_32
    ensures Envelope(b, allowed) == Some((outer, body)) <==> outer in allowed && Wraps(b, outer, body)
  {
    var e := Entry(outer, Bytes(body));
    FieldsAcceptExactlyEncodings(b, [e], EnvelopeSchema(allowed));
    EncodeOne(e);
    assert |body| <= |EncodeEntry(e)|;
    hide Encode, EncodeEntry;
    if Envelope(b, allowed) == Some((outer, body)) {
      assert Fields(b, EnvelopeSchema(allowed)).value == [e];
    }
    if outer in allowed && Wraps(b, outer, body) {
      assert Conforms([e], EnvelopeSchema(allowed), {});
    }
  }

  /** A message under tag `outer` with these entries, in any order. */
  predicate Carries(b: seq<Byte>, outer: nat, es: seq<Entry>) {
    Wraps(b, outer, Encode(es))
  }

  /** Of the allowed messages, exactly the one with these entries is read. */
  lemma MessageExactly(b: seq<Byte>, allowed: set<nat>, outer: nat, schema: Schema, es: seq<Entry>)
    requires (forall f :: f in allowed ==> 8 * f + 2 < TWO_TO_THE_32) && outer in allowed
    ensures
      (Envelope(b, allowed).Some? && Envelope(b, allowed).value.0 == outer &&
       Fields(Envelope(b, allowed).value.1, schema) == Some(es)) <==> Carries(b, outer, es) && Conforms(es, schema, {})
  {
    hide Envelope, Fields, Encode, Conforms;
    EnvelopeExactly(b, allowed, outer, Encode(es));
    FieldsAcceptExactlyEncodings(Encode(es), es, schema);
    if Envelope(b, allowed).Some? && Envelope(b, allowed).value.0 == outer {
      FieldsAcceptExactlyEncodings(Envelope(b, allowed).value.1, es, schema);
    }
    if Carries(b, outer, es) {
      BodyIsShorter(outer, Encode(es));
    }
  }

  lemma BodyIsShorter(outer: nat, body: seq<Byte>)
    ensures |body| <= |Encode([Entry(outer, Bytes(body))])|
  {
    EncodeOne(Entry(outer, Bytes(body)));
  }

  // ---- punch-hole requests ----

  predicate PunchHoleEntry(e: Entry) {
    match e.value
    case Bytes(b) => (e.field == 1 && |b| <= 256) || (e.field == 3 && |b| <= 128) || (e.field == 6 && |b| <= 64)
    case Number(n) => (e.field == 2 && n <= 2) || (e.field == 4 && n <= 1) || (e.field == 8 && n <= 1)
  }

  /** A request for the bound target under the bound key, forcing a relay; a file session says so. */
  ghost predicate IsPunchHole(es: seq<Entry>, binding: Binding) {
    && EachOnce(es) && (forall i :: 0 <= i < |es| ==> PunchHoleEntry(es[i]))
    && Says(es, 1, binding.targetId) && Says(es, 3, binding.serverPublicKey)
    && (binding.kind == File ==> Holds(es, 4, Number(1)))
    && (binding.kind == Desktop ==> Absent(es, 4) || Holds(es, 4, Number(0)))
    && Holds(es, 8, Number(1)) && SaysText(es, 6)
  }

  lemma PunchHoleRequestsExactly(b: seq<Byte>, binding: Binding)
    ensures ValidPunchHole(b, binding) <==> exists es :: Carries(b, 8, es) && IsPunchHole(es, binding)
  {
    hide ValidPunchHole, IsPunchHole, Carries, IsMessage, Conforms, AsksPunchHole;
    PunchHoleAcceptsExactly(b, binding);
    forall es ensures IsMessage(b, 8, PUNCH_HOLE, es) && AsksPunchHole(MapOf(es), binding)
      <==> Carries(b, 8, es) && IsPunchHole(es, binding) {
      PunchHoleSaid(b, es, binding);
    }
  }

  lemma PunchHoleConforms(es: seq<Entry>)
    ensures Conforms(es, PUNCH_HOLE, {}) <==> EachOnce(es) && forall i :: 0 <= i < |es| ==> PunchHoleEntry(es[i])
  {
    ConformsExactly(es, PUNCH_HOLE, {});
    hide Conforms;
    assert forall i :: 0 <= i < |es| ==> (EntryFits(es[i], PUNCH_HOLE) <==> PunchHoleEntry(es[i]));
  }

  lemma PunchHoleSaid(b: seq<Byte>, es: seq<Entry>, binding: Binding)
    ensures IsMessage(b, 8, PUNCH_HOLE, es) && AsksPunchHole(MapOf(es), binding)
      <==> Carries(b, 8, es) && IsPunchHole(es, binding)
  {
    hide Conforms, Encode, MapOf, TextOf, NumberOf, Says, SaysText, Absent, EachOnce, PunchHoleEntry;
    PunchHoleConforms(es);
    if Conforms(es, PUNCH_HOLE, {}) {
      TextIsSaid(es, 1);
      TextIsSaid(es, 3);
      TextIsSaid(es, 6);
      NumberIsSaid(es, 4);
      NumberIsSaid(es, 8);
    }
  }

  // ---- relay requests ----

  predicate RequestRelayEntry(e: Entry) {
    match e.value
    case Bytes(b) => (e.field == 1 && |b| <= 256) || (e.field == 2 && |b| <= 36) || (e.field == 6 && |b| <= 128)
    case Number(n) => e.field == 7 && n <= 1
  }

  /** A request for the bound target and relay under the bound key; a file session says so. */
  ghost predicate IsRequestRelay(es: seq<Entry>, binding: Binding) {
    && EachOnce(es) && (forall i :: 0 <= i < |es| ==> RequestRelayEntry(es[i]))
    && Says(es, 1, binding.targetId) && Says(es, 6, binding.serverPublicKey)
    && binding.relayUuid.Some? && binding.relayUuid.value != [] && Holds(es, 2, Bytes(binding.relayUuid.value))
    && (binding.kind == File ==> Holds(es, 7, Number(1)))
    && (binding.kind == Desktop ==> Absent(es, 7) || Holds(es, 7, Number(0)))
  }

  lemma RelayRequestsExactly(b: seq<Byte>, binding: Binding)
    ensures ValidRequestRelay(b, binding) <==> exists es :: Carries(b, 18, es) && IsRequestRelay(es, binding)
  {
    hide ValidRequestRelay, IsRequestRelay, Carries, IsMessage, Conforms, AsksRelay;
    RequestRelayAcceptsExactly(b, binding);
    forall es ensures IsMessage(b, 18, REQUEST_RELAY, es) && AsksRelay(MapOf(es), binding)
      <==> Carries(b, 18, es) && IsRequestRelay(es, binding) {
      RequestRelaySaid(b, es, binding);
    }
  }

  lemma RequestRelayConforms(es: seq<Entry>)
    ensures Conforms(es, REQUEST_RELAY, {}) <==> EachOnce(es) && forall i :: 0 <= i < |es| ==> RequestRelayEntry(es[i])
  {
    ConformsExactly(es, REQUEST_RELAY, {});
    hide Conforms;
    assert forall i :: 0 <= i < |es| ==> (EntryFits(es[i], REQUEST_RELAY) <==> RequestRelayEntry(es[i]));
  }

  lemma RequestRelaySaid(b: seq<Byte>, es: seq<Entry>, binding: Binding)
    ensures IsMessage(b, 18, REQUEST_RELAY, es) && AsksRelay(MapOf(es), binding)
      <==> Carries(b, 18, es) && IsRequestRelay(es, binding)
  {
    hide Conforms, Encode, MapOf, TextOf, NumberOf, SaysText, Absent, EachOnce, RequestRelayEntry, IsUtf8, Holds;
    RequestRelayConforms(es);
    if Conforms(es, REQUEST_RELAY, {}) {
      TextIsSaid(es, 1);
      TextIsSaid(es, 2);
      TextIsSaid(es, 6);
      NumberIsSaid(es, 7);
    }
  }

  // ---- replies ----

  predicate PunchHoleResponseEntry(e: Entry) {
    match e.value
    case Bytes(b) => (e.field == 4 && |b| <= 2048) || (e.field == 7 && |b| <= 256)
    case Number(n) => (e.field == 3 && n <= 4) || (e.field == 8 && n < 0x1_0000_0000)
  }

  predicate RelayResponseEntry(e: Entry) {
    match e.value
    case Bytes(b) =>
      || (e.field == 1 && |b| <= 128) || (e.field == 2 && |b| <= 36) || (e.field == 3 && |b| <= 2048)
      || (e.field == 4 && |b| <= 256) || (e.field == 5 && |b| <= 4096) || (e.field == 6 && |b| <= 256)
      || (e.field == 7 && |b| <= 64) || (e.field == 10 && |b| <= 128)
    case Number(n) => (e.field == 9 && n < 0x1_0000_0000) || (e.field == 11 && n <= 65535)
  }

  lemma PunchHoleResponseConforms(es: seq<Entry>)
    ensures Conforms(es, PUNCH_HOLE_RESPONSE, {}) <==>
      EachOnce(es) && forall i :: 0 <= i < |es| ==> PunchHoleResponseEntry(es[i])
  {
    ConformsExactly(es, PUNCH_HOLE_RESPONSE, {});
    hide Conforms;
    assert forall i :: 0 <= i < |es| ==> (EntryFits(es[i], PUNCH_HOLE_RESPONSE) <==> PunchHoleResponseEntry(es[i]));
  }

  lemma RelayResponseConforms(es: seq<Entry>)
    ensures Conforms(es, RELAY_RESPONSE, {}) <==> EachOnce(es) && forall i :: 0 <= i < |es| ==> RelayResponseEntry(es[i])
  {
    ConformsExactly(es, RELAY_RESPONSE, {});
    hide Conforms;
    assert forall i :: 0 <= i < |es| ==> (EntryFits(es[i], RELAY_RESPONSE) <==> RelayResponseEntry(es[i]));
  }

  /** A relay response whose texts can be read, with an address or a key but not both. */
  ghost predicate IsRelayResponse(es: seq<Entry>) {
    && EachOnce(es) && (forall i :: 0 <= i < |es| ==> RelayResponseEntry(es[i]))
    && (Absent(es, 4) || Absent(es, 5))
    && SaysText(es, 3) && SaysText(es, 4) && SaysText(es, 6) && SaysText(es, 7)
  }

  /** The response of the punch-hole service that it will not connect: offline, or another known failure. */
  ghost predicate IsRefusal(es: seq<Entry>) {
    && EachOnce(es) && (forall i :: 0 <= i < |es| ==> PunchHoleResponseEntry(es[i]))
    && (Absent(es, 3) || exists n :: n in {0, 2, 3, 4} && Holds(es, 3, Number(n)))
    && SaysText(es, 4) && SaysText(es, 7)
  }

  /** A relay is read in exactly the relay responses without a refusal that name one by its UUID. */
  lemma RelayIsReadExactly(b: seq<Byte>, uuid: seq<Byte>)
    ensures ReadReply(b) == Some(Relayed(uuid)) <==>
      exists es :: Carries(b, 19, es) && IsRelayResponse(es) && Says(es, 6, []) && Holds(es, 2, Bytes(uuid)) && IsUuid(uuid)
  {
    hide Conforms, Carries, Envelope, Fields, IsRelayResponse, Says, Holds, IsUuid, Encode, MapOf, RelayReply, Refuses;
    if ReadReply(b) == Some(Relayed(uuid)) {
      var (outer, body) := Envelope(b, {11, 19}).value;
      EnvelopeExactly(b, {11, 19}, outer, body);
      var es := Fields(body, RELAY_RESPONSE).value;
      MessageExactly(b, {11, 19}, 19, RELAY_RESPONSE, es);
      RelaySaid(es, uuid);
    }
    forall es | Carries(b, 19, es) && IsRelayResponse(es) && Says(es, 6, []) && Holds(es, 2, Bytes(uuid)) && IsUuid(uuid)
      ensures ReadReply(b) == Some(Relayed(uuid))
    {
      RelayResponseIsOne(es);
      MessageExactly(b, {11, 19}, 19, RELAY_RESPONSE, es);
      RelaySaid(es, uuid);
    }
  }

  /** A refusal is read in exactly the relay responses that give a reason, and the known failures. */
  lemma RefusalIsReadExactly(b: seq<Byte>)
    ensures ReadReply(b) == Some(Refused) <==>
      || (exists es :: Carries(b, 11, es) && IsRefusal(es))
      || (exists es :: Carries(b, 19, es) && IsRelayResponse(es) && !Says(es, 6, []))
  {
    hide Conforms, Carries, Envelope, Fields, IsRelayResponse, IsRefusal, Says, Encode, MapOf, RelayReply, Refuses;
    if ReadReply(b) == Some(Refused) {
      var (outer, body) := Envelope(b, {11, 19}).value;
      EnvelopeExactly(b, {11, 19}, outer, body);
      var es := Fields(body, if outer == 11 then PUNCH_HOLE_RESPONSE else RELAY_RESPONSE).value;
      MessageExactly(b, {11, 19}, outer, if outer == 11 then PUNCH_HOLE_RESPONSE else RELAY_RESPONSE, es);
      if outer == 11 {
        RefusalSaid(es);
      } else {
        ReasonSaid(es);
      }
    }
    forall es | Carries(b, 11, es) && IsRefusal(es) ensures ReadReply(b) == Some(Refused) {
      RefusalSaid(es);
      MessageExactly(b, {11, 19}, 11, PUNCH_HOLE_RESPONSE, es);
    }
    forall es | Carries(b, 19, es) && IsRelayResponse(es) && !Says(es, 6, []) ensures ReadReply(b) == Some(Refused) {
      RelayResponseIsOne(es);
      ReasonSaid(es);
      MessageExactly(b, {11, 19}, 19, RELAY_RESPONSE, es);
    }
  }

  lemma RelayResponseIsOne(es: seq<Entry>)
    requires IsRelayResponse(es)
    ensures Conforms(es, RELAY_RESPONSE, {})
  {
    RelayResponseConforms(es);
  }

  lemma RelayTextsSaid(es: seq<Entry>)
    requires Conforms(es, RELAY_RESPONSE, {})
    ensures EachOnce(es)
    ensures IsRelayResponse(es) <==>
      !((4 in MapOf(es) && 5 in MapOf(es)) || TextOf(MapOf(es), 3).None? || TextOf(MapOf(es), 4).None?
        || TextOf(MapOf(es), 6).None? || TextOf(MapOf(es), 7).None?)
  {
    RelayResponseConforms(es);
    hide Conforms, MapOf, TextOf, SaysText, Absent, EachOnce, RelayResponseEntry;
    TextIsSaid(es, 3);
    TextIsSaid(es, 4);
    TextIsSaid(es, 6);
    TextIsSaid(es, 7);
    MapHoldsEntries(es, 4);
    MapHoldsEntries(es, 5);
  }

  lemma RelaySaid(es: seq<Entry>, uuid: seq<Byte>)
    requires Conforms(es, RELAY_RESPONSE, {})
    ensures RelayReply(MapOf(es)) == Some(Relayed(uuid)) <==>
      IsRelayResponse(es) && Says(es, 6, []) && Holds(es, 2, Bytes(uuid)) && IsUuid(uuid)
  {
    hide Conforms, MapOf, TextOf, IsRelayResponse, EachOnce, IsUuid, IsUtf8, Holds;
    RelayTextsSaid(es);
    TextIsSaid(es, 2);
    TextIsSaid(es, 6);
    if IsUuid(uuid) {
      UuidIsText(uuid);
    }
    assert Says(es, 2, uuid) <==> TextOf(MapOf(es), 2) == Some(uuid);
    assert Says(es, 6, []) <==> TextOf(MapOf(es), 6) == Some([]);
    if RelayReply(MapOf(es)) == Some(Relayed(uuid)) {
      UuidIsText(uuid);
    }
  }

  lemma ReasonSaid(es: seq<Entry>)
    requires Conforms(es, RELAY_RESPONSE, {})
    ensures RelayReply(MapOf(es)) == Some(Refused) <==> IsRelayResponse(es) && !Says(es, 6, [])
  {
    hide Conforms, MapOf, TextOf, IsRelayResponse, Says, EachOnce, IsUuid;
    RelayTextsSaid(es);
    TextIsSaid(es, 6);
  }

  lemma RefusalSaid(es: seq<Entry>)
    ensures Conforms(es, PUNCH_HOLE_RESPONSE, {}) && Refuses(MapOf(es)) <==> IsRefusal(es)
  {
    PunchHoleResponseConforms(es);
    hide Conforms, MapOf, TextOf, NumberOf, SaysText, EachOnce, PunchHoleResponseEntry, Holds, Absent;
    if EachOnce(es) {
      TextIsSaid(es, 4);
      TextIsSaid(es, 7);
      NumberIsSaid(es, 3);
      FailureSaid(es);
    }
  }

  lemma FailureSaid(es: seq<Entry>)
    requires EachOnce(es)
    ensures NumberOf(MapOf(es), 3).Some? && NumberOf(MapOf(es), 3).value in {0, 2, 3, 4} <==>
      Absent(es, 3) || exists n :: n in {0, 2, 3, 4} && Holds(es, 3, Number(n))
  {
    hide MapOf, Holds, Absent;
    MapHoldsEntries(es, 3);
    if 3 in MapOf(es) {
      assert Holds(es, 3, MapOf(es)[3]);
    }
  }

  // ---- texts ----

  /** A Unicode scalar value. */
  type Scalar = c: int | 0 <= c < 0xD800 || 0xE000 <= c < 0x11_0000

  function EncodeScalar(c: Scalar): (b: seq<Byte>)
    ensures b != []
  {
    if c < 0x80 then [c]
    else if c < 0x800 then [0xC0 + c / 64, 0x80 + c % 64]
    else if c < 0x1_0000 then [0xE0 + c / 4096, 0x80 + c / 64 % 64, 0x80 + c % 64]
    else [0xF0 + c / 262144, 0x80 + c / 4096 % 64, 0x80 + c / 64 % 64, 0x80 + c % 64]
  }

  function EncodeText(cs: seq<Scalar>): seq<Byte> {
    if cs == [] then [] else EncodeScalar(cs[0]) + EncodeText(cs[1..])
  }

  lemma {:induction false} ScalarIsUtf8(c: Scalar, rest: seq<Byte>)
    requires IsUtf8(rest)
    ensures IsUtf8(EncodeScalar(c) + rest)
  {
    var b := EncodeScalar(c) + rest;
    assert b[|EncodeScalar(c)|..] == rest;
  }

  lemma {:induction false} EncodedIsUtf8(cs: seq<Scalar>)
    ensures IsUtf8(EncodeText(cs))
    decreases |cs|
  {
    if cs != [] {
      EncodedIsUtf8(cs[1..]);
      ScalarIsUtf8(cs[0], EncodeText(cs[1..]));
    }
  }

  lemma SixBits(high: nat, low: nat)
    requires low < 64
    ensures (64 * high + low) / 64 == high && (64 * high + low) % 64 == low
  {
  }

  lemma TwoBytes(x: int, y: int) returns (c: Scalar)
    requires 0xC2 <= x <= 0xDF && 0x80 <= y <= 0xBF
    ensures EncodeScalar(c) == [x, y]
  {
    SixBits(x - 0xC0, y - 0x80);
    c := 64 * (x - 0xC0) + (y - 0x80);
  }

  lemma ThreeBytes(x: int, y: int, z: int) returns (c: Scalar)
    requires 0xE0 <= x <= 0xEF && 0x80 <= y <= 0xBF && 0x80 <= z <= 0xBF
    requires (x == 0xE0 ==> 0xA0 <= y) && (x == 0xED ==> y <= 0x9F)
    ensures EncodeScalar(c) == [x, y, z]
  {
    var high := 64 * (x - 0xE0) + (y - 0x80);
    SixBits(x - 0xE0, y - 0x80);
    SixBits(high, z - 0x80);
    c := 64 * high + (z - 0x80);
    assert c / 4096 == c / 64 / 64;
  }

  lemma FourBytes(x: int, y: int, z: int, w: int) returns (c: Scalar)
    requires 0xF0 <= x <= 0xF4 && 0x80 <= y <= 0xBF && 0x80 <= z <= 0xBF && 0x80 <= w <= 0xBF
    requires (x == 0xF0 ==> 0x90 <= y) && (x == 0xF4 ==> y <= 0x8F)
    ensures EncodeScalar(c) == [x, y, z, w]
  {
    var top := 64 * (x - 0xF0) + (y - 0x80);
    var high := 64 * top + (z - 0x80);
    SixBits(x - 0xF0, y - 0x80);
    SixBits(top, z - 0x80);
    SixBits(high, w - 0x80);
    c := 64 * high + (w - 0x80);
    assert c / 4096 == c / 64 / 64 && c / 262144 == c / 64 / 64 / 64;
  }

  /** The first scalar value of a text, and the bytes after it. */
  lemma {:induction false} FirstScalar(b: seq<Byte>) returns (c: Scalar)
    requires IsUtf8(b) && b != []
    ensures EncodeScalar(c) <= b && IsUtf8(b[|EncodeScalar(c)|..])
  {
    if b[0] < 0x80 {
      c := b[0];
    } else {
      hide EncodeScalar;
      if b[0] <= 0xDF {
        c := TwoBytes(b[0], b[1]);
      } else if b[0] <= 0xEF {
        c := ThreeBytes(b[0], b[1], b[2]);
      } else {
        c := FourBytes(b[0], b[1], b[2], b[3]);
      }
    }
  }

  lemma {:induction false} Utf8IsEncoded(b: seq<Byte>) returns (cs: seq<Scalar>)
    requires IsUtf8(b)
    ensures EncodeText(cs) == b
    decreases |b|
  {
    hide EncodeScalar, IsUtf8;
    if b == [] {
      cs := [];
    } else {
      var c := FirstScalar(b);
      var n := |EncodeScalar(c)|;
      var rest := Utf8IsEncoded(b[n..]);
      cs := [c] + rest;
      assert cs[1..] == rest && b == b[..n] + b[n..];
    }
  }

  /** The texts that can be read are exactly the encodings of sequences of scalar values. */
  lemma TextsAreEncodings(b: seq<Byte>)
    ensures IsUtf8(b) <==> exists cs: seq<Scalar> :: EncodeText(cs) == b
  {
    if IsUtf8(b) {
      var cs := Utf8IsEncoded(b);
    }
    forall cs: seq<Scalar> | EncodeText(cs) == b ensures IsUtf8(b) {
      EncodedIsUtf8(cs);
    }
  }

  const HEX_DIGITS := "0123456789abcdefABCDEF"

  /** `n` hexadecimal digits, and nothing else. */
  predicate HexDigits(b: seq<Byte>, n: nat) {
    |b| == n && forall k :: 0 <= k < n ==> b[k] as char in HEX_DIGITS
  }

  lemma HexIsADigit(x: Byte)
    ensures IsHex(x) <==> x as char in HEX_DIGITS
  {
    if 0x30 <= x <= 0x39 {
      assert HEX_DIGITS[x - 0x30] == x as char;
    } else if 0x61 <= x <= 0x66 {
      assert HEX_DIGITS[x - 0x61 + 10] == x as char;
    } else if 0x41 <= x <= 0x46 {
      assert HEX_DIGITS[x - 0x41 + 16] == x as char;
    }
  }

  /** Five groups of digits with hyphens between them. */
  ghost predicate IsGroups(u: seq<Byte>, a: seq<Byte>, b: seq<Byte>, c: seq<Byte>, d: seq<Byte>, e: seq<Byte>) {
    && HexDigits(a, 8) && HexDigits(b, 4) && HexDigits(c, 4) && HexDigits(d, 4) && HexDigits(e, 12)
    && u == a + [0x2D] + b + [0x2D] + c + [0x2D] + d + [0x2D] + e
  }

  lemma UuidsAreGroups(u: seq<Byte>)
    ensures IsUuid(u) <==> exists a, b, c, d, e :: IsGroups(u, a, b, c, d, e)
  {
    if IsUuid(u) {
      UuidIsGroups(u);
    }
    forall a, b, c, d, e | IsGroups(u, a, b, c, d, e) ensures IsUuid(u) {
      GroupsAreUuid(u, a, b, c, d, e);
    }
  }

  lemma UuidIsGroups(u: seq<Byte>)
    requires IsUuid(u)
    ensures IsGroups(u, u[..8], u[9..13], u[14..18], u[19..23], u[24..])
  {
    forall x: Byte ensures IsHex(x) <==> x as char in HEX_DIGITS {
      HexIsADigit(x);
    }
    hide IsHex;
  }

  lemma GroupsAreUuid(u: seq<Byte>, a: seq<Byte>, b: seq<Byte>, c: seq<Byte>, d: seq<Byte>, e: seq<Byte>)
    requires IsGroups(u, a, b, c, d, e)
    ensures IsUuid(u)
  {
    forall x: Byte ensures IsHex(x) <==> x as char in HEX_DIGITS {
      HexIsADigit(x);
    }
    hide IsHex;
    assert u[..8] == a && u[9..13] == b && u[14..18] == c && u[19..23] == d && u[24..] == e;
  }

  lemma {:induction false} AsciiIsUtf8(b: seq<Byte>)
    requires forall k :: 0 <= k < |b| ==> b[k] < 0x80
    ensures IsUtf8(b)
    decreases |b|
  {
    if b != [] {
      AsciiIsUtf8(b[1..]);
    }
  }

  lemma UuidIsText(b: seq<Byte>)
    requires IsUuid(b)
    ensures IsUtf8(b) && b != []
  {
    AsciiIsUtf8(b);
  }
}
