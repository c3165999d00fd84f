/** The three handshakes the gateway reads, and what an ordinary decoder makes of the same bytes. */
module ProtocolHandshake {
  import opened ProtocolWire
  import opened ProtocolReader
  import opened Wrappers

  // ---- text ----

  predicate Within(b: seq<Byte>, k: nat, low: nat, high: nat) {
    k < |b| && low <= b[k] <= high
  }

  /** Well-formed UTF-8 (table 3-7 of the Unicode Standard). */
  predicate IsUtf8(b: seq<Byte>) {
    if b == [] then true
    else if b[0] < 0x80 then IsUtf8(b[1..])
    else if 0xC2 <= b[0] <= 0xDF then Within(b, 1, 0x80, 0xBF) && IsUtf8(b[2..])
    else if 0xE0 <= b[0] <= 0xEF then
      && Within(b, 1, if b[0] == 0xE0 then 0xA0 else 0x80, if b[0] == 0xED then 0x9F else 0xBF)
      && Within(b, 2, 0x80, 0xBF) && IsUtf8(b[3..])
    else
      && 0xF0 <= b[0] <= 0xF4
      && Within(b, 1, if b[0] == 0xF0 then 0x90 else 0x80, if b[0] == 0xF4 then 0x8F else 0xBF)
      && Within(b, 2, 0x80, 0xBF) && Within(b, 3, 0x80, 0xBF) && IsUtf8(b[4..])
  }

  /** A string, by its UTF-8 bytes. */
  type Text = b: seq<Byte> | IsUtf8(b) witness []

  /** A field read as text; absent is empty. */
  function TextOf(m: map<nat, Value>, f: nat): Option<seq<Byte>> {
    if f !in m then Some([])
    else match m[f]
      case Number(_) => None
      case Bytes(b) => if IsUtf8(b) then Some(b) else None
  }

  /** A field read as a number; absent is zero. */
  function NumberOf(m: map<nat, Value>, f: nat): Option<nat> {
    if f !in m then Some(0)
    else match m[f]
      case Number(n) => Some(n)
      case Bytes(_) => None
  }

  // ---- the messages ----

  datatype Kind = Desktop | File

  datatype Binding = Binding(targetId: Text, kind: Kind, serverPublicKey: Text, relayUuid: Option<Text>)

  function KindNumber(k: Kind): nat {
    if k == File then 1 else 0
  }

  function Bounded(max: nat): Field {
    Field(Delimited, Some(max))
  }

  function Small(max: nat): Field {
    Field(Varint, Some(max))
  }

  const PUNCH_HOLE: Schema := map[
    1 := Bounded(256), 2 := Small(2), 3 := Bounded(128), 4 := Small(1), 6 := Bounded(64), 8 := Small(1)]

  const REQUEST_RELAY: Schema := map[1 := Bounded(256), 2 := Bounded(36), 6 := Bounded(128), 7 := Small(1)]

  const PUNCH_HOLE_RESPONSE: Schema := map[
    3 := Small(4), 4 := Bounded(2048), 7 := Bounded(256), 8 := Field(Varint, None)]

  const RELAY_RESPONSE: Schema := map[
    1 := Bounded(128), 2 := Bounded(36), 3 := Bounded(2048), 4 := Bounded(256), 5 := Bounded(4096), 6 := Bounded(256),
    7 := Bounded(64), 9 := Field(Varint, None), 10 := Bounded(128), 11 := Small(65535)]

  function EnvelopeSchema(allowed: set<nat>): Schema {
    map f | f in allowed :: Field(Delimited, None)
  }

  /** The one message in an envelope. */
  function Envelope(b: seq<Byte>, allowed: set<nat>): Option<(nat, seq<Byte>)> {
    match Fields(b, EnvelopeSchema(allowed))
    case None => None
    case Some(es) => if |es| != 1 || es[0].value.Number? then None else Some((es[0].field, es[0].value.bytes))
  }

  function Body(b: seq<Byte>, outer: nat, schema: Schema): Option<map<nat, Value>> {
    match Envelope(b, {outer})
    case None => None
    case Some((_, body)) =>
      match Fields(body, schema)
      case None => None
      case Some(es) => Some(MapOf(es))
  }

  /** A punch-hole request for this target, kind and key, insisting on a relay; its token is any text. */
  predicate AsksPunchHole(m: map<nat, Value>, binding: Binding) {
    && TextOf(m, 1) == Some(binding.targetId) && TextOf(m, 3) == Some(binding.serverPublicKey)
    && NumberOf(m, 4) == Some(KindNumber(binding.kind)) && NumberOf(m, 8) == Some(1)
    && TextOf(m, 6).Some?
  }

  predicate AsksRelay(m: map<nat, Value>, binding: Binding) {
    && binding.relayUuid.Some? && binding.relayUuid.value != []
    && TextOf(m, 1) == Some(binding.targetId) && TextOf(m, 2) == Some(binding.relayUuid.value)
    && TextOf(m, 6) == Some(binding.serverPublicKey) && NumberOf(m, 7) == Some(KindNumber(binding.kind))
  }

  predicate ValidPunchHole(b: seq<Byte>, binding: Binding) {
    Body(b, 8, PUNCH_HOLE).Some? && AsksPunchHole(Body(b, 8, PUNCH_HOLE).value, binding)
  }

  predicate ValidRequestRelay(b: seq<Byte>, binding: Binding) {
    Body(b, 18, REQUEST_RELAY).Some? && AsksRelay(Body(b, 18, REQUEST_RELAY).value, binding)
  }

  // ---- replies ----

  datatype Reply = Refused | Relayed(uuid: seq<Byte>)

  predicate IsHex(x: Byte) {
    0x30 <= x <= 0x39 || 0x41 <= x <= 0x46 || 0x61 <= x <= 0x66
  }

  predicate IsUuid(b: seq<Byte>) {
    |b| == 36 && forall k :: 0 <= k < 36 ==> if k in {8, 13, 18, 23} then b[k] == 0x2D else IsHex(b[k])
  }

  /** A refusal by the punch-hole service: offline, or a known failure. */
  predicate Refuses(m: map<nat, Value>) {
    NumberOf(m, 3).Some? && NumberOf(m, 3).value in {0, 2, 3, 4} && TextOf(m, 4).Some? && TextOf(m, 7).Some?
  }

  function RelayReply(m: map<nat, Value>): Option<Reply> {
    if (4 in m && 5 in m) || TextOf(m, 3).None? || TextOf(m, 4).None? || TextOf(m, 6).None? || TextOf(m, 7).None? then None
    else if TextOf(m, 6).value != [] then Some(Refused)
    else if TextOf(m, 2).None? || !IsUuid(TextOf(m, 2).value) then None
    else Some(Relayed(TextOf(m, 2).value))
  }

  function ReadReply(b: seq<Byte>): Option<Reply> {
    match Envelope(b, {11, 19})
    case None => None
    case Some((field, body)) =>
      match Fields(body, if field == 11 then PUNCH_HOLE_RESPONSE else RELAY_RESPONSE)
      case None => None
      case Some(es) =>
        if field == 11 then (if Refuses(MapOf(es)) then Some(Refused) else None) else RelayReply(MapOf(es))
  }

  // ---- the checks as they run ----

  /** No field comes twice, so the map has one field per entry. */
  lemma {:induction false} MapHasEveryEntry(es: seq<Entry>, schema: Schema, seen: set<nat>)
    requires Conforms(es, schema, seen)
    ensures |MapOf(es)| == |es|
    decreases |es|
  {
    if es != [] {
      MapHasEveryEntry(es[1..], schema, seen + {es[0].field});
      SeenFieldsAreAbsent(es[1..], schema, seen + {es[0].field}, es[0].field);
      assert MapOf(es).Keys == MapOf(es[1..]).Keys + {es[0].field};
      assert |MapOf(es).Keys| == |MapOf(es[1..]).Keys| + 1;
    }
  }

  lemma OneEntry(es: seq<Entry>)
    requires |es| == 1
    ensures MapOf(es) == map[es[0].field := es[0].value]
  {
  }

  method ReadEnvelope(bytes: seq<Byte>, allowed: set<nat>) returns (message: Option<(nat, seq<Byte>)>)
    ensures message == Envelope(bytes, allowed)
  {
    var schema := EnvelopeSchema(allowed);
    var values := ReadFields(bytes, schema);
    if values.None? {
      return None;
    }
    ghost var es := Fields(bytes, schema).value;
    AcceptedIsEncoding(bytes, schema, {});
    MapHasEveryEntry(es, schema, {});
    if |values.value| != 1 {
      return None;
    }
    OneEntry(es);
    var field :| field in values.value;
    match values.value[field]
    case Number(_) => return None;
    case Bytes(body) => return Some((field, body));
  }

  method ValidatePunchHoleRequest(bytes: seq<Byte>, binding: Binding) returns (ok: bool)
    ensures ok == ValidPunchHole(bytes, binding)
  {
    var message := ReadEnvelope(bytes, {8});
    if message.None? {
      return false;
    }
    var values := ReadFields(message.value.1, PUNCH_HOLE);
    return values.Some? && AsksPunchHole(values.value, binding);
  }

  method ValidateRequestRelay(bytes: seq<Byte>, binding: Binding) returns (ok: bool)
    ensures ok == ValidRequestRelay(bytes, binding)
  {
    var message := ReadEnvelope(bytes, {18});
    if message.None? {
      return false;
    }
    var values := ReadFields(message.value.1, REQUEST_RELAY);
    return values.Some? && AsksRelay(values.value, binding);
  }

  method ReadRendezvousReply(bytes: seq<Byte>) returns (reply: Option<Reply>)
    ensures reply == ReadReply(bytes)
  {
    var message := ReadEnvelope(bytes, {11, 19});
    if message.None? {
      return None;
    }
    if message.value.0 == 11 {
      var values := ReadFields(message.value.1, PUNCH_HOLE_RESPONSE);
      return if values.Some? && Refuses(values.value) then Some(Refused) else None;
    }
    var values := ReadFields(message.value.1, RELAY_RESPONSE);
    return if values.Some? then RelayReply(values.value) else None;
  }

  // ---- what an ordinary decoder reads ----

  /** The body of field `outer`, when an ordinary decoder finds just that field in the envelope. */
  function Native(b: seq<Byte>, outer: nat, envelope: map<nat, Wire>, wires: map<nat, Wire>): Option<map<nat, Value>> {
    match Decode(b, envelope, map[])
    case None => None
    case Some(m) =>
      if m.Keys != {outer} || m[outer].Number? then None else Decode(m[outer].bytes, wires, map[])
  }

  lemma StrictFieldsAreOrdinary(b: seq<Byte>, schema: Schema, wires: map<nat, Wire>)
    requires Fields(b, schema).Some? && Knows(wires, schema)
    ensures Decode(b, wires, map[]) == Some(MapOf(Fields(b, schema).value))
  {
    StrictAgreesWithOrdinary(b, schema, {}, wires, map[]);
    var m := MapOf(Fields(b, schema).value);
    assert map[] + m == m;
  }

  lemma EnvelopeIsOrdinary(b: seq<Byte>, allowed: set<nat>, envelope: map<nat, Wire>)
    requires Envelope(b, allowed).Some? && Knows(envelope, EnvelopeSchema(allowed))
    ensures
      var (field, body) := Envelope(b, allowed).value;
      field in allowed && Decode(b, envelope, map[]) == Some(map[field := Bytes(body)])
  {
    StrictFieldsAreOrdinary(b, EnvelopeSchema(allowed), envelope);
    AcceptedIsEncoding(b, EnvelopeSchema(allowed), {});
    var es := Fields(b, EnvelopeSchema(allowed)).value;
    assert es[1..] == [] && MapOf(es[1..]) == map[];
    assert MapOf(es) == map[es[0].field := es[0].value];
  }

  lemma NativeBody(b: seq<Byte>, field: nat, body: seq<Byte>, envelope: map<nat, Wire>, wires: map<nat, Wire>)
    requires Decode(b, envelope, map[]) == Some(map[field := Bytes(body)])
    ensures Native(b, field, envelope, wires) == Decode(body, wires, map[])
  {
  }

  lemma BodyIsOrdinary(b: seq<Byte>, outer: nat, schema: Schema, envelope: map<nat, Wire>, wires: map<nat, Wire>)
    requires Body(b, outer, schema).Some? && Knows(envelope, EnvelopeSchema({outer})) && Knows(wires, schema)
    ensures Native(b, outer, envelope, wires) == Body(b, outer, schema)
  {
    EnvelopeIsOrdinary(b, {outer}, envelope);
    var (field, body) := Envelope(b, {outer}).value;
    StrictFieldsAreOrdinary(body, schema, wires);
  }

  /** Whatever else the native server's messages hold, of an accepted request it reads just what was bound. */
  lemma PunchHoleIsSound(b: seq<Byte>, binding: Binding, envelope: map<nat, Wire>, wires: map<nat, Wire>)
    requires ValidPunchHole(b, binding) && Knows(envelope, EnvelopeSchema({8})) && Knows(wires, PUNCH_HOLE)
    ensures Native(b, 8, envelope, wires).Some? && AsksPunchHole(Native(b, 8, envelope, wires).value, binding)
  {
    BodyIsOrdinary(b, 8, PUNCH_HOLE, envelope, wires);
  }

  lemma RequestRelayIsSound(b: seq<Byte>, binding: Binding, envelope: map<nat, Wire>, wires: map<nat, Wire>)
    requires ValidRequestRelay(b, binding) && Knows(envelope, EnvelopeSchema({18})) && Knows(wires, REQUEST_RELAY)
    ensures Native(b, 18, envelope, wires).Some? && AsksRelay(Native(b, 18, envelope, wires).value, binding)
  {
    BodyIsOrdinary(b, 18, REQUEST_RELAY, envelope, wires);
  }

  /** The browser and the gateway read the same relay in a reply, or the same refusal. */
  lemma ReplyIsSound(b: seq<Byte>, envelope: map<nat, Wire>, failure: map<nat, Wire>, wires: map<nat, Wire>)
    requires ReadReply(b).Some? && Knows(envelope, EnvelopeSchema({11, 19}))
    requires Knows(failure, PUNCH_HOLE_RESPONSE) && Knows(wires, RELAY_RESPONSE)
    ensures
      match ReadReply(b).value
      case Relayed(uuid) =>
        && Native(b, 19, envelope, wires).Some? && IsUuid(uuid)
        && TextOf(Native(b, 19, envelope, wires).value, 2) == Some(uuid)
        && TextOf(Native(b, 19, envelope, wires).value, 6) == Some([])
      case Refused =>
        || (Native(b, 11, envelope, failure).Some? && Refuses(Native(b, 11, envelope, failure).value))
        || (&& Native(b, 19, envelope, wires).Some? && TextOf(Native(b, 19, envelope, wires).value, 6).Some?
            && TextOf(Native(b, 19, envelope, wires).value, 6).value != [])
  {
    hide Decode, Fields, Envelope, Knows, Native;
    EnvelopeIsOrdinary(b, {11, 19}, envelope);
    var (field, body) := Envelope(b, {11, 19}).value;
    NativeBody(b, field, body, envelope, if field == 11 then failure else wires);
    if field == 11 {
      StrictFieldsAreOrdinary(body, PUNCH_HOLE_RESPONSE, failure);
    } else {
      StrictFieldsAreOrdinary(body, RELAY_RESPONSE, wires);
    }
  }

  // ---- what is accepted, exactly ----

  function Wrap(outer: nat, es: seq<Entry>): seq<Byte> {
    Encode([Entry(outer, Bytes(Encode(es)))])
  }

  lemma WrapIsEntry(outer: nat, es: seq<Entry>)
    ensures Wrap(outer, es) == EncodeEntry(Entry(outer, Bytes(Encode(es)))) && |Encode(es)| < |Wrap(outer, es)|
  {
    EncodeOne(Entry(outer, Bytes(Encode(es))));
    hide Encode, EncodeVarint;
  }

  lemma EncodeOne(e: Entry)
    ensures Encode([e]) == EncodeEntry(e)
  {
  }

  lemma WrappedIsRead(outer: nat, es: seq<Entry>, schema: Schema)
    requires Conforms(es, schema, {}) && |Wrap(outer, es)| <= MAX_HANDSHAKE_BYTES && 8 * outer + 2 < TWO_TO_THE_32
    ensures Body(Wrap(outer, es), outer, schema) == Some(MapOf(es))
  {
    hide Fields, MapOf, EncodeEntry, EncodeVarint;
    var e := Entry(outer, Bytes(Encode(es)));
    WrapIsEntry(outer, es);
    EncodeOne(e);
    FieldsAcceptExactlyEncodings(Wrap(outer, es), [e], EnvelopeSchema({outer}));
    FieldsAcceptExactlyEncodings(Encode(es), es, schema);
  }

  lemma ReadIsWrapped(b: seq<Byte>, outer: nat, schema: Schema) returns (es: seq<Entry>)
    requires Body(b, outer, schema).Some?
    ensures b == Wrap(outer, es) && |b| <= MAX_HANDSHAKE_BYTES && Conforms(es, schema, {})
    ensures Body(b, outer, schema) == Some(MapOf(es))
  {
    AcceptedIsEncoding(b, EnvelopeSchema({outer}), {});
    var (_, body) := Envelope(b, {outer}).value;
    var wrapper := Fields(b, EnvelopeSchema({outer})).value;
    assert wrapper == [Entry(outer, Bytes(body))];
    es := Fields(body, schema).value;
    AcceptedIsEncoding(body, schema, {});
  }

  /** The bytes are a wrapped message of entries in any order, each at most once and within its bounds. */
  ghost predicate IsMessage(b: seq<Byte>, outer: nat, schema: Schema, es: seq<Entry>) {
    b == Wrap(outer, es) && |b| <= MAX_HANDSHAKE_BYTES && Conforms(es, schema, {})
  }

  lemma PunchHoleAcceptsExactly(b: seq<Byte>, binding: Binding)
    ensures ValidPunchHole(b, binding) <==> exists es :: IsMessage(b, 8, PUNCH_HOLE, es) && AsksPunchHole(MapOf(es), binding)
  {
    if ValidPunchHole(b, binding) {
      var es := ReadIsWrapped(b, 8, PUNCH_HOLE);
      assert IsMessage(b, 8, PUNCH_HOLE, es);
    }
    forall es | IsMessage(b, 8, PUNCH_HOLE, es) && AsksPunchHole(MapOf(es), binding) ensures ValidPunchHole(b, binding) {
      WrappedIsRead(8, es, PUNCH_HOLE);
    }
  }

  lemma RequestRelayAcceptsExactly(b: seq<Byte>, binding: Binding)
    ensures ValidRequestRelay(b, binding) <==> exists es :: IsMessage(b, 18, REQUEST_RELAY, es) && AsksRelay(MapOf(es), binding)
  {
    if ValidRequestRelay(b, binding) {
      var es := ReadIsWrapped(b, 18, REQUEST_RELAY);
      assert IsMessage(b, 18, REQUEST_RELAY, es);
    }
    forall es | IsMessage(b, 18, REQUEST_RELAY, es) && AsksRelay(MapOf(es), binding) ensures ValidRequestRelay(b, binding) {
      WrappedIsRead(18, es, REQUEST_RELAY);
    }
  }

  // ---- the canonical encoding ----

  /** Fields with their default value are not written. */
  function Present(es: seq<Entry>): seq<Entry> {
    if es == [] then []
    else (if es[0].value == Number(0) || es[0].value == Bytes([]) then [] else [es[0]]) + Present(es[1..])
  }

  lemma {:induction false} PresentConforms(es: seq<Entry>, schema: Schema, seen: set<nat>, seen': set<nat>)
    requires Conforms(es, schema, seen) && seen' <= seen
    ensures Conforms(Present(es), schema, seen')
    decreases |es|
  {
    if es != [] {
      var f := es[0].field;
      if es[0].value == Number(0) || es[0].value == Bytes([]) {
        PresentConforms(es[1..], schema, seen + {f}, seen');
        assert Present(es) == Present(es[1..]);
      } else {
        PresentConforms(es[1..], schema, seen + {f}, seen' + {f});
        assert Present(es)[1..] == Present(es[1..]);
      }
    }
  }

  lemma {:induction false} SeenFieldsAreAbsent(es: seq<Entry>, schema: Schema, seen: set<nat>, f: nat)
    requires Conforms(es, schema, seen) && f in seen
    ensures f !in MapOf(es)
    decreases |es|
  {
    if es != [] {
      SeenFieldsAreAbsent(es[1..], schema, seen + {es[0].field}, f);
    }
  }

  /** Leaving out defaults changes nothing a reader sees. */
  lemma {:induction false} PresentReadsTheSame(es: seq<Entry>, schema: Schema, seen: set<nat>, f: nat)
    requires Conforms(es, schema, seen) && f in schema
    ensures schema[f].wire == Delimited ==> TextOf(MapOf(Present(es)), f) == TextOf(MapOf(es), f)
    ensures schema[f].wire == Varint ==> NumberOf(MapOf(Present(es)), f) == NumberOf(MapOf(es), f)
    decreases |es|
  {
    if es != [] {
      var seen' := seen + {es[0].field};
      PresentReadsTheSame(es[1..], schema, seen', f);
      if es[0].field == f {
        SeenFieldsAreAbsent(es[1..], schema, seen', f);
        PresentConforms(es[1..], schema, seen', seen');
        SeenFieldsAreAbsent(Present(es[1..]), schema, seen', f);
      }
      if es[0].value == Number(0) || es[0].value == Bytes([]) {
        assert Present(es) == Present(es[1..]);
      } else {
        assert Present(es)[1..] == Present(es[1..]) && Present(es)[0] == es[0];
      }
    }
  }

  function Payload(es: seq<Entry>): nat {
    if es == [] then 0 else (if es[0].value.Bytes? then |es[0].value.bytes| else 0) + Payload(es[1..])
  }

  lemma EncodedVarintIsShort(v: nat)
    requires v < TWO_TO_THE_32
    ensures |EncodeVarint(v)| <= 5
  {
    EncodedIsRead(v, 0, []);
    VarintsAreShort(EncodeVarint(v) + [], 0);
  }

  lemma {:induction false} EncodingIsShort(es: seq<Entry>, schema: Schema, seen: set<nat>)
    requires Conforms(es, schema, seen)
    ensures |Encode(es)| <= 10 * |es| + Payload(es)
    decreases |es|
  {
    if es != [] {
      EncodingIsShort(es[1..], schema, seen + {es[0].field});
      EncodedVarintIsShort(8 * es[0].field + WireNumber(WireOf(es[0].value)));
      match es[0].value
      case Number(n) => EncodedVarintIsShort(n);
      case Bytes(bytes) => EncodedVarintIsShort(|bytes|);
    }
  }

  lemma {:induction false} PresentIsNoLonger(es: seq<Entry>)
    ensures |Present(es)| <= |es| && Payload(Present(es)) == Payload(es)
    decreases |es|
  {
    if es != [] {
      PresentIsNoLonger(es[1..]);
      if es[0].value == Number(0) || es[0].value == Bytes([]) {
        assert Present(es) == Present(es[1..]);
      } else {
        assert Present(es)[1..] == Present(es[1..]);
      }
    }
  }

  function PunchHoleEntries(binding: Binding, natType: nat, token: Text): seq<Entry> {
    [Entry(1, Bytes(binding.targetId)), Entry(2, Number(natType)), Entry(3, Bytes(binding.serverPublicKey)),
     Entry(4, Number(KindNumber(binding.kind))), Entry(6, Bytes(token)), Entry(8, Number(1))]
  }

  function RequestRelayEntries(binding: Binding): seq<Entry>
    requires binding.relayUuid.Some?
  {
    [Entry(1, Bytes(binding.targetId)), Entry(2, Bytes(binding.relayUuid.value)),
     Entry(6, Bytes(binding.serverPublicKey)), Entry(7, Number(KindNumber(binding.kind)))]
  }

  /** Entries in ascending order of their fields, each within its bounds. */
  ghost predicate Ascending(es: seq<Entry>, schema: Schema) {
    && (forall i, j :: 0 <= i < j < |es| ==> es[i].field < es[j].field)
    && (forall i :: 0 <= i < |es| ==>
          es[i].field in schema && 8 * es[i].field + 2 < TWO_TO_THE_32 && ValueFits(es[i].value, schema[es[i].field]))
  }

  lemma {:induction false} AscendingConforms(es: seq<Entry>, schema: Schema, seen: set<nat>)
    requires Ascending(es, schema) && forall i :: 0 <= i < |es| ==> es[i].field !in seen
    ensures Conforms(es, schema, seen)
    decreases |es|
  {
    if es != [] {
      AscendingConforms(es[1..], schema, seen + {es[0].field});
    }
  }

  lemma {:induction false} EntryIsFound(es: seq<Entry>, schema: Schema, seen: set<nat>, k: nat)
    requires Conforms(es, schema, seen) && k < |es|
    ensures es[k].field in MapOf(es) && MapOf(es)[es[k].field] == es[k].value
    decreases |es|
  {
    if k == 0 {
      SeenFieldsAreAbsent(es[1..], schema, seen + {es[0].field}, es[0].field);
    } else {
      EntryIsFound(es[1..], schema, seen + {es[0].field}, k - 1);
    }
  }

  lemma CanonicalReadsField(es: seq<Entry>, schema: Schema, k: nat)
    requires Ascending(es, schema) && k < |es|
    ensures
      var f := es[k].field;
      if schema[f].wire == Delimited then TextOf(MapOf(Present(es)), f) == TextOf(map[f := es[k].value], f)
      else NumberOf(MapOf(Present(es)), f) == NumberOf(map[f := es[k].value], f)
  {
    AscendingConforms(es, schema, {});
    hide Conforms, IsUtf8, Present;
    EntryIsFound(es, schema, {}, k);
    PresentReadsTheSame(es, schema, {}, es[k].field);
  }

  /** A message short enough, with its defaults left out, is read as if they were there. */
  lemma CanonicalIsRead(outer: nat, es: seq<Entry>, schema: Schema)
    requires Ascending(es, schema) && 10 * |es| + Payload(es) + 10 <= MAX_HANDSHAKE_BYTES && 8 * outer + 2 < TWO_TO_THE_32
    ensures Body(Wrap(outer, Present(es)), outer, schema) == Some(MapOf(Present(es)))
  {
    AscendingConforms(es, schema, {});
    hide Conforms, Encode, EncodeVarint, Body, Present, Payload, Wrap, Ascending;
    PresentConforms(es, schema, {}, {});
    PresentIsNoLonger(es);
    EncodingIsShort(Present(es), schema, {});
    WrapIsEntry(outer, Present(es));
    EncodedVarintIsShort(8 * outer + 2);
    EncodedVarintIsShort(|Encode(Present(es))|);
    WrappedIsRead(outer, Present(es), schema);
  }

  /** Every binding within bounds has a request that is accepted for it: its canonical encoding. */
  lemma CanonicalPunchHoleIsAccepted(binding: Binding, natType: nat, token: Text)
    requires |binding.targetId| <= 256 && |binding.serverPublicKey| <= 128 && natType <= 2 && |token| <= 64
    ensures ValidPunchHole(Wrap(8, Present(PunchHoleEntries(binding, natType, token))), binding)
  {
    var es := PunchHoleEntries(binding, natType, token);
    hide IsUtf8;
    assert Payload(es) <= 448 by {
      PayloadNext(es[0], es[1..]);
      PayloadNext(es[1], es[2..]);
      PayloadNext(es[2], es[3..]);
      PayloadNext(es[3], es[4..]);
      PayloadNext(es[4], es[5..]);
      PayloadNext(es[5], []);
    }
    hide Payload, Present, Body;
    CanonicalIsRead(8, es, PUNCH_HOLE);
    CanonicalReadsField(es, PUNCH_HOLE, 0);
    CanonicalReadsField(es, PUNCH_HOLE, 2);
    CanonicalReadsField(es, PUNCH_HOLE, 3);
    CanonicalReadsField(es, PUNCH_HOLE, 4);
    CanonicalReadsField(es, PUNCH_HOLE, 5);
  }

  lemma CanonicalRequestRelayIsAccepted(binding: Binding)
    requires |binding.targetId| <= 256 && |binding.serverPublicKey| <= 128
    requires binding.relayUuid.Some? && 0 < |binding.relayUuid.value| <= 36
    ensures ValidRequestRelay(Wrap(18, Present(RequestRelayEntries(binding))), binding)
  {
    var es := RequestRelayEntries(binding);
    hide IsUtf8;
    assert Payload(es) <= 420 by {
      PayloadNext(es[0], es[1..]);
      PayloadNext(es[1], es[2..]);
      PayloadNext(es[2], es[3..]);
      PayloadNext(es[3], []);
    }
    hide Payload, Present, Body;
    CanonicalIsRead(18, es, REQUEST_RELAY);
    CanonicalReadsField(es, REQUEST_RELAY, 0);
    CanonicalReadsField(es, REQUEST_RELAY, 1);
    CanonicalReadsField(es, REQUEST_RELAY, 2);
    CanonicalReadsField(es, REQUEST_RELAY, 3);
  }

  lemma PayloadNext(e: Entry, es: seq<Entry>)
    ensures Payload([e] + es) == (if e.value.Bytes? then |e.value.bytes| else 0) + Payload(es)
  {
  }
}
