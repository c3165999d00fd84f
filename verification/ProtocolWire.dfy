/** The wire format of the web client's handshakes: one canonical form, read strictly. */
module ProtocolWire {
  import opened Wrappers

  type Byte = x: int | 0 <= x < 256

  const MAX_HANDSHAKE_BYTES := 16 * 1024
  const TWO_TO_THE_32 := 0x1_0000_0000
  const TWO_TO_THE_64 := 0x1_0000_0000_0000_0000

  /** A value and the number of bytes it took. */
  datatype Read = Read(value: nat, length: nat)

  // ---- varints ----

  /** Base-128 groups, least significant first, without a zero group at the end. */
  function EncodeVarint(v: nat): (bytes: seq<Byte>)
    ensures bytes != []
  {
    if v < 128 then [v] else [v % 128 + 128] + EncodeVarint(v / 128)
  }

  /** The rest of a varint whose first `i` bytes were read: five bytes at most, no zero group at the end. */
  function ReadVarint(b: seq<Byte>, i: nat := 0): (r: Option<Read>)
    requires i <= 4
    ensures r.Some? ==> 0 < r.value.length <= |b|
    decreases 4 - i
  {
    if b == [] || (i == 4 && b[0] > 15) then None
    else if b[0] < 128 then (if i > 0 && b[0] == 0 then None else Some(Read(b[0], 1)))
    else
      match ReadVarint(b[1..], i + 1)
      case None => None
      case Some(r) => Some(Read(b[0] - 128 + 128 * r.value, r.length + 1))
  }

  /** What may still be added to a value of which `i` groups were read. */
  function Limit(i: nat): nat
    requires i <= 4
  {
    match i
    case 0 => TWO_TO_THE_32
    case 1 => 0x200_0000
    case 2 => 0x4_0000
    case 3 => 0x800
    case _ => 0x10
  }

  /** What is read is the one encoding of a number below 2^32. */
  lemma {:induction false} ReadIsCanonical(b: seq<Byte>, i: nat)
    requires i <= 4 && ReadVarint(b, i).Some?
    ensures
      var r := ReadVarint(b, i).value;
      && r.value < Limit(i) && (i > 0 ==> r.value > 0)
      && b[..r.length] == EncodeVarint(r.value)
    decreases 4 - i
  {
    if b[0] >= 128 {
      ReadIsCanonical(b[1..], i + 1);
      var r := ReadVarint(b, i).value;
      assert b[..r.length] == [b[0]] + b[1..][..r.length - 1];
    }
  }

  lemma {:induction false} EncodedIsRead(v: nat, i: nat, tail: seq<Byte>)
    requires i <= 4 && v < Limit(i) && (i > 0 ==> v > 0)
    ensures ReadVarint(EncodeVarint(v) + tail, i) == Some(Read(v, |EncodeVarint(v)|))
    decreases 4 - i
  {
    if v >= 128 {
      EncodedIsRead(v / 128, i + 1, tail);
      assert (EncodeVarint(v) + tail)[1..] == EncodeVarint(v / 128) + tail;
    }
  }

  /** Numbers below 2^32 and accepted varints correspond one to one. */
  lemma VarintsAreABijection(b: seq<Byte>, v: nat)
    ensures ReadVarint(b) == Some(Read(v, |b|)) <==> v < TWO_TO_THE_32 && b == EncodeVarint(v)
  {
    if ReadVarint(b) == Some(Read(v, |b|)) {
      ReadIsCanonical(b, 0);
      assert b[..|b|] == b;
    }
    if v < TWO_TO_THE_32 && b == EncodeVarint(v) {
      EncodedIsRead(v, 0, []);
      assert b + [] == b;
    }
  }

  /** An accepted varint is at most five bytes long. */
  lemma {:induction false} VarintsAreShort(b: seq<Byte>, i: nat)
    requires i <= 4 && ReadVarint(b, i).Some?
    ensures ReadVarint(b, i).value.length <= 5 - i
    decreases 4 - i
  {
    if b[0] >= 128 {
      VarintsAreShort(b[1..], i + 1);
    }
  }

  // ---- fields ----

  datatype Wire = Varint | Delimited

  datatype Field = Field(wire: Wire, max: Option<nat>)

  type Schema = map<nat, Field>

  datatype Value = Number(n: nat) | Bytes(bytes: seq<Byte>)

  datatype Entry = Entry(field: nat, value: Value)

  /** An entry and the number of bytes it took. */
  datatype One = One(entry: Entry, length: nat)

  function WireNumber(w: Wire): nat {
    match w
    case Varint => 0
    case Delimited => 2
  }

  function WireOf(v: Value): Wire {
    match v
    case Number(_) => Varint
    case Bytes(_) => Delimited
  }

  function ReadValue(b: seq<Byte>, f: Field): (r: Option<(Value, nat)>)
    ensures r.Some? ==> 0 < r.value.1 <= |b|
  {
    match ReadVarint(b)
    case None => None
    case Some(r) =>
      if f.wire == Varint then
        if f.max.Some? && r.value > f.max.value then None else Some((Number(r.value), r.length))
      else
        var max := if f.max.Some? then f.max.value else MAX_HANDSHAKE_BYTES;
        if r.value > max || r.value > |b| - r.length then None
        else Some((Bytes(b[r.length..r.length + r.value]), r.length + r.value))
  }

  function ReadEntry(b: seq<Byte>, schema: Schema, seen: set<nat>): (r: Option<One>)
    ensures r.Some? ==> 0 < r.value.length <= |b|
  {
    match ReadVarint(b)
    case None => None
    case Some(tag) =>
      var field := tag.value / 8;
      if field !in schema || tag.value % 8 != WireNumber(schema[field].wire) || field in seen then None
      else
        match ReadValue(b[tag.length..], schema[field])
        case None => None
        case Some((value, length)) => Some(One(Entry(field, value), tag.length + length))
  }

  /** The entries of a message, in order; no field may come twice. */
  function ReadEntries(b: seq<Byte>, schema: Schema, seen: set<nat>): Option<seq<Entry>>
    decreases |b|
  {
    if b == [] then Some([])
    else
      match ReadEntry(b, schema, seen)
      case None => None
      case Some(one) =>
        match ReadEntries(b[one.length..], schema, seen + {one.entry.field})
        case None => None
        case Some(es) => Some([one.entry] + es)
  }

  function Fields(b: seq<Byte>, schema: Schema): Option<seq<Entry>> {
    if |b| > MAX_HANDSHAKE_BYTES then None else ReadEntries(b, schema, {})
  }

  function MapOf(es: seq<Entry>): map<nat, Value> {
    if es == [] then map[] else map[es[0].field := es[0].value] + MapOf(es[1..])
  }

  // ---- the encoding ----

  function EncodeValue(v: Value): seq<Byte> {
    match v
    case Number(n) => EncodeVarint(n)
    case Bytes(bytes) => EncodeVarint(|bytes|) + bytes
  }

  function EncodeEntry(e: Entry): seq<Byte> {
    EncodeVarint(8 * e.field + WireNumber(WireOf(e.value))) + EncodeValue(e.value)
  }

  function Encode(es: seq<Entry>): seq<Byte> {
    if es == [] then [] else EncodeEntry(es[0]) + Encode(es[1..])
  }

  predicate ValueFits(v: Value, f: Field) {
    && WireOf(v) == f.wire
    && match v
       case Number(n) => n < TWO_TO_THE_32 && (f.max.Some? ==> n <= f.max.value)
       case Bytes(bytes) =>
         |bytes| < TWO_TO_THE_32 && |bytes| <= if f.max.Some? then f.max.value else MAX_HANDSHAKE_BYTES
  }

  predicate Conforms(es: seq<Entry>, schema: Schema, seen: set<nat>) {
    es == []
    || (&& es[0].field in schema && es[0].field !in seen && 8 * es[0].field + 2 < TWO_TO_THE_32
        && ValueFits(es[0].value, schema[es[0].field])
        && Conforms(es[1..], schema, seen + {es[0].field}))
  }

  lemma ReadValueIsEncoding(b: seq<Byte>, f: Field)
    requires ReadValue(b, f).Some?
    ensures
      var (v, length) := ReadValue(b, f).value;
      && ValueFits(v, f) && b[..length] == EncodeValue(v)
  {
    ReadIsCanonical(b, 0);
    var r := ReadVarint(b).value;
    var (v, length) := ReadValue(b, f).value;
    if v.Bytes? {
      assert b[..length] == b[..r.length] + b[r.length..length];
    }
  }

  lemma ReadEntryIsEncoding(b: seq<Byte>, schema: Schema, seen: set<nat>)
    requires ReadEntry(b, schema, seen).Some?
    ensures
      var one := ReadEntry(b, schema, seen).value;
      && b[..one.length] == EncodeEntry(one.entry)
      && one.entry.field in schema && one.entry.field !in seen && 8 * one.entry.field + 2 < TWO_TO_THE_32
      && ValueFits(one.entry.value, schema[one.entry.field])
  {
    ReadIsCanonical(b, 0);
    var tag := ReadVarint(b).value;
    var one := ReadEntry(b, schema, seen).value;
    ReadValueIsEncoding(b[tag.length..], schema[tag.value / 8]);
    assert b[..one.length] == b[..tag.length] + b[tag.length..][..one.length - tag.length];
    assert tag.value == 8 * one.entry.field + WireNumber(WireOf(one.entry.value));
    TagFits(tag.value, one.entry.field);
  }

  lemma TagFits(tag: nat, field: nat)
    requires tag < TWO_TO_THE_32 && 8 * field <= tag
    ensures 8 * field + 2 < TWO_TO_THE_32
  {
  }

  /** Whenever a message is accepted, encoding its entries in order gives back its bytes. */
  lemma {:induction false} AcceptedIsEncoding(b: seq<Byte>, schema: Schema, seen: set<nat>)
    requires ReadEntries(b, schema, seen).Some?
    ensures
      var es := ReadEntries(b, schema, seen).value;
      Encode(es) == b && Conforms(es, schema, seen)
    decreases |b|
  {
    if b != [] {
      ReadEntryIsEncoding(b, schema, seen);
      var one := ReadEntry(b, schema, seen).value;
      AcceptedIsEncoding(b[one.length..], schema, seen + {one.entry.field});
      var es := ReadEntries(b, schema, seen).value;
      assert es[1..] == ReadEntries(b[one.length..], schema, seen + {one.entry.field}).value;
      assert b == b[..one.length] + b[one.length..];
    }
  }

  lemma EncodedValueIsRead(v: Value, f: Field, tail: seq<Byte>)
    requires ValueFits(v, f)
    ensures ReadValue(EncodeValue(v) + tail, f) == Some((v, |EncodeValue(v)|))
  {
    match v
    case Number(n) => EncodedIsRead(n, 0, tail);
    case Bytes(bytes) =>
      EncodedIsRead(|bytes|, 0, bytes + tail);
      var b := EncodeValue(v) + tail;
      assert b == EncodeVarint(|bytes|) + (bytes + tail);
      assert b[|EncodeVarint(|bytes|)|..|EncodeVarint(|bytes|)| + |bytes|] == bytes;
  }

  lemma EncodedEntryIsRead(e: Entry, schema: Schema, seen: set<nat>, tail: seq<Byte>)
    requires e.field in schema && e.field !in seen && 8 * e.field + 2 < TWO_TO_THE_32 && ValueFits(e.value, schema[e.field])
    ensures ReadEntry(EncodeEntry(e) + tail, schema, seen) == Some(One(e, |EncodeEntry(e)|))
  {
    hide EncodeVarint, ReadVarint, ReadValue, EncodeValue;
    var tag := 8 * e.field + WireNumber(WireOf(e.value));
    var rest := EncodeValue(e.value) + tail;
    EncodedIsRead(tag, 0, rest);
    assert EncodeEntry(e) + tail == EncodeVarint(tag) + rest;
    assert (EncodeVarint(tag) + rest)[|EncodeVarint(tag)|..] == rest;
    EncodedValueIsRead(e.value, schema[e.field], tail);
    assert tag / 8 == e.field && tag % 8 == WireNumber(WireOf(e.value));
  }

  /** Every encoding of a message that keeps to the schema is accepted, and read back as it was. */
  lemma {:induction false} EncodingIsAccepted(es: seq<Entry>, schema: Schema, seen: set<nat>)
    requires Conforms(es, schema, seen)
    ensures ReadEntries(Encode(es), schema, seen) == Some(es)
    decreases |es|
  {
    hide ReadEntry, EncodeEntry, ValueFits;
    if es != [] {
      var b := Encode(es);
      EncodedEntryIsRead(es[0], schema, seen, Encode(es[1..]));
      EncodingIsAccepted(es[1..], schema, seen + {es[0].field});
      assert b[|EncodeEntry(es[0])|..] == Encode(es[1..]);
      assert es == [es[0]] + es[1..];
    }
  }

  /** Exactly the encodings that keep to the schema and the limit are accepted, one per list of entries. */
  lemma FieldsAcceptExactlyEncodings(b: seq<Byte>, es: seq<Entry>, schema: Schema)
    ensures Fields(b, schema) == Some(es) <==> b == Encode(es) && |b| <= MAX_HANDSHAKE_BYTES && Conforms(es, schema, {})
  {
    if Fields(b, schema) == Some(es) {
      AcceptedIsEncoding(b, schema, {});
    }
    if b == Encode(es) && |b| <= MAX_HANDSHAKE_BYTES && Conforms(es, schema, {}) {
      EncodingIsAccepted(es, schema, {});
    }
  }

  // ---- an ordinary decoder ----

  /** A varint as Protocol Buffers allow it: up to ten bytes, zero groups at the end included. */
  function ReadAnyVarint(b: seq<Byte>, i: nat := 0): (r: Option<Read>)
    requires i <= 10
    ensures r.Some? ==> 0 < r.value.length <= |b|
    decreases 10 - i
  {
    if b == [] || i == 10 then None
    else if b[0] < 128 then Some(Read(b[0], 1))
    else
      match ReadAnyVarint(b[1..], i + 1)
      case None => None
      case Some(r) => Some(Read(b[0] - 128 + 128 * r.value, r.length + 1))
  }

  lemma {:induction false} StrictVarintIsAnyVarint(b: seq<Byte>, i: nat)
    requires i <= 4 && ReadVarint(b, i).Some?
    ensures ReadAnyVarint(b, i) == ReadVarint(b, i)
    decreases 4 - i
  {
    if b[0] >= 128 {
      StrictVarintIsAnyVarint(b[1..], i + 1);
    }
  }

  /** The length of a value, whatever field it is in; the value itself where it is a varint or bytes. */
  function ReadAnyValue(b: seq<Byte>, wire: nat): (r: Option<(Option<Value>, nat)>)
    ensures r.Some? ==> r.value.1 <= |b|
  {
    match wire
    case 0 =>
      (match ReadAnyVarint(b)
       case None => None
       case Some(r) => Some((Some(Number(r.value % TWO_TO_THE_64)), r.length)))
    case 1 => if |b| < 8 then None else Some((None, 8))
    case 2 =>
      (match ReadAnyVarint(b)
       case None => None
       case Some(r) =>
         var n := r.value % TWO_TO_THE_64;
         if n > |b| - r.length then None
         else Some((Some(Bytes(b[r.length..r.length + n])), r.length + n)))
    case 5 => if |b| < 4 then None else Some((None, 4))
    case _ => None
  }

  /** An ordinary decoder: unknown fields are skipped, and of a field that comes twice the last wins. */
  function Decode(b: seq<Byte>, wires: map<nat, Wire>, known: map<nat, Value>): Option<map<nat, Value>>
    decreases |b|
  {
    if b == [] then Some(known)
    else
      match ReadAnyVarint(b)
      case None => None
      case Some(tag) =>
        var field := tag.value / 8;
        if tag.value >= TWO_TO_THE_32 || field == 0 then None
        else
          match ReadAnyValue(b[tag.length..], tag.value % 8)
          case None => None
          case Some((value, length)) =>
            var wanted := field in wires && value.Some? && WireOf(value.value) == wires[field];
            Decode(b[tag.length + length..], wires, if wanted then known[field := value.value] else known)
  }

  /** A decoder that knows at least the fields of the schema, with the same wire types. */
  predicate Knows(wires: map<nat, Wire>, schema: Schema) {
    0 !in schema && forall f :: f in schema ==> f in wires && wires[f] == schema[f].wire
  }

  lemma StrictValueIsAnyValue(b: seq<Byte>, f: Field)
    requires ReadValue(b, f).Some?
    ensures
      var (v, length) := ReadValue(b, f).value;
      ReadAnyValue(b, WireNumber(f.wire)) == Some((Some(v), length))
  {
    ReadIsCanonical(b, 0);
    StrictVarintIsAnyVarint(b, 0);
    assert ReadVarint(b).value.value % TWO_TO_THE_64 == ReadVarint(b).value.value;
  }

  /** The strict reader and any ordinary decoder never read accepted bytes differently. */
  lemma {:induction false} StrictAgreesWithOrdinary(
      b: seq<Byte>, schema: Schema, seen: set<nat>, wires: map<nat, Wire>, known: map<nat, Value>)
    requires ReadEntries(b, schema, seen).Some? && Knows(wires, schema)
    ensures Decode(b, wires, known) == Some(known + MapOf(ReadEntries(b, schema, seen).value))
    decreases |b|
  {
    hide ReadEntry, Decode;
    if b == [] {
      DecodeNothing(wires, known);
    } else {
      OrdinaryTakesEntry(b, schema, seen, wires, known);
      var one := ReadEntry(b, schema, seen).value;
      var known' := known[one.entry.field := one.entry.value];
      StrictAgreesWithOrdinary(b[one.length..], schema, seen + {one.entry.field}, wires, known');
      var es := ReadEntries(b[one.length..], schema, seen + {one.entry.field}).value;
      MapOfNext(one.entry, es);
      MergeNext(known, one.entry, MapOf(es));
    }
  }

  lemma DecodeNothing(wires: map<nat, Wire>, known: map<nat, Value>)
    ensures Decode([], wires, known) == Some(known + MapOf([]))
  {
    assert known + MapOf([]) == known;
  }

  lemma MapOfNext(e: Entry, es: seq<Entry>)
    ensures MapOf([e] + es) == map[e.field := e.value] + MapOf(es)
  {
  }

  lemma MergeNext(known: map<nat, Value>, e: Entry, m: map<nat, Value>)
    ensures known[e.field := e.value] + m == known + (map[e.field := e.value] + m)
  {
  }

  lemma OrdinaryTakesEntry(b: seq<Byte>, schema: Schema, seen: set<nat>, wires: map<nat, Wire>, known: map<nat, Value>)
    requires b != [] && ReadEntry(b, schema, seen).Some? && Knows(wires, schema)
    ensures
      var one := ReadEntry(b, schema, seen).value;
      Decode(b, wires, known) == Decode(b[one.length..], wires, known[one.entry.field := one.entry.value])
  {
    hide ReadVarint, ReadAnyVarint, ReadValue, ReadAnyValue, EncodeVarint, EncodeValue;
    ReadIsCanonical(b, 0);
    StrictVarintIsAnyVarint(b, 0);
    var tag := ReadVarint(b).value;
    StrictValueIsAnyValue(b[tag.length..], schema[tag.value / 8]);
    ReadValueIsEncoding(b[tag.length..], schema[tag.value / 8]);
  }
}
