/** The reader as it runs: a cursor that advances over the bytes, and a map filled field by field. */
module ProtocolReader {
  import opened ProtocolWire
  import opened Wrappers

  class Cursor {
    var offset: nat

    constructor ()
      ensures offset == 0
    {
      offset := 0;
    }
  }

  function Power(i: nat): nat {
    if i == 0 then 1 else 128 * Power(i - 1)
  }

  /** The whole varint, from the value of the groups read so far and what follows them. */
  function Extended(value: nat, i: nat, rest: Option<Read>): Option<Read> {
    match rest
    case None => None
    case Some(r) => Some(Read(value + Power(i) * r.value, i + r.length))
  }

  lemma ExtendedNothing(rest: Option<Read>)
    ensures Extended(0, 0, rest) == rest
  {
  }

  /** What one more group says of the whole varint. */
  lemma GroupRead(whole: Option<Read>, sum: nat, i: nat, b: seq<Byte>)
    requires i <= 4 && whole == Extended(sum, i, ReadVarint(b, i))
    ensures b == [] || (i == 4 && b[0] > 15) || (i > 0 && b[0] == 0) ==> whole == None
    ensures b != [] && b[0] < 128 && whole.Some? ==> whole == Some(Read(sum + b[0] % 128 * Power(i), i + 1))
    ensures b != [] && b[0] < 128 && whole.None? ==> (i == 4 && b[0] > 15) || (i > 0 && b[0] == 0)
    ensures b != [] && b[0] >= 128 && i < 4 ==>
      whole == Extended(sum + b[0] % 128 * Power(i), i + 1, ReadVarint(b[1..], i + 1))
  {
    hide Power;
    if b != [] && b[0] >= 128 && i < 4 {
      ExtendedNext(sum, i, b[0] - 128, ReadVarint(b[1..], i + 1));
    } else if b != [] && b[0] < 128 {
      assert Power(i) * b[0] == b[0] % 128 * Power(i);
    }
  }

  lemma ExtendedNext(sum: nat, i: nat, group: nat, rest: Option<Read>)
    ensures
      Extended(sum, i, match rest case None => None case Some(r) => Some(Read(group + 128 * r.value, r.length + 1)))
      == Extended(sum + group * Power(i), i + 1, rest)
  {
  }

  method NextVarint(bytes: seq<Byte>, cursor: Cursor) returns (value: Option<nat>)
    requires cursor.offset <= |bytes|
    modifies cursor
    ensures
      match ReadVarint(old(bytes[cursor.offset..]))
      case None => value == None && old(cursor.offset) <= cursor.offset <= |bytes|
      case Some(r) => value == Some(r.value) && cursor.offset == old(cursor.offset) + r.length
  {
    hide ReadVarint, Extended, Power;
    ghost var start := cursor.offset;
    ghost var whole := ReadVarint(bytes[start..]);
    var sum: nat, i: nat := 0, 0;
    ExtendedNothing(whole);
    while i < 5
      invariant i <= 5 && cursor.offset == start + i && cursor.offset <= |bytes|
      invariant i < 5 ==> whole == Extended(sum, i, ReadVarint(bytes[start + i..], i))
      invariant i == 5 ==> whole == None
    {
      GroupRead(whole, sum, i, bytes[start + i..]);
      if cursor.offset >= |bytes| {
        return None;
      }
      var byte := bytes[cursor.offset];
      cursor.offset := cursor.offset + 1;
      if i == 4 && byte > 15 {
        return None;
      }
      assert bytes[start + i..][1..] == bytes[start + i + 1..];
      sum := sum + byte % 128 * Power(i);
      if byte < 128 {
        if i > 0 && byte == 0 {
          return None;
        }
        return Some(sum);
      }
      i := i + 1;
    }
    return None;
  }

  lemma MapOfAppend(es: seq<Entry>, e: Entry)
    ensures MapOf(es + [e]) == MapOf(es)[e.field := e.value]
  {
    if es == [] {
      assert MapOf([e]) == map[e.field := e.value];
      assert es + [e] == [e];
    } else {
      MapOfAppend(es[1..], e);
      assert (es + [e])[1..] == es[1..] + [e];
    }
  }

  /** What a message is read as, from the entries read so far and what follows them. */
  function Continued(done: seq<Entry>, rest: Option<seq<Entry>>): Option<seq<Entry>> {
    match rest
    case None => None
    case Some(es) => Some(done + es)
  }

  lemma ContinuedNext(done: seq<Entry>, e: Entry, rest: Option<seq<Entry>>)
    ensures Continued(done, Continued([e], rest)) == Continued(done + [e], rest)
  {
    if rest.Some? {
      assert done + ([e] + rest.value) == done + [e] + rest.value;
    }
  }

  lemma ContinuedNothing(rest: Option<seq<Entry>>)
    ensures Continued([], rest) == rest
  {
    if rest.Some? {
      assert [] + rest.value == rest.value;
    }
  }

  lemma EntriesNext(b: seq<Byte>, schema: Schema, seen: set<nat>)
    requires b != []
    ensures
      ReadEntries(b, schema, seen) == match ReadEntry(b, schema, seen)
        case None => None
        case Some(one) => Continued([one.entry], ReadEntries(b[one.length..], schema, seen + {one.entry.field}))
  {
  }

  /** One field after the other, each at most once, until the bytes are used up. */
  method ReadFields(bytes: seq<Byte>, schema: Schema) returns (values: Option<map<nat, Value>>)
    ensures values == match Fields(bytes, schema) case None => None case Some(es) => Some(MapOf(es))
  {
    hide ReadEntry, ReadEntries;
    if |bytes| > MAX_HANDSHAKE_BYTES {
      return None;
    }
    var found: map<nat, Value> := map[];
    var cursor := new Cursor();
    ghost var done: seq<Entry> := [];
    ghost var whole := ReadEntries(bytes, schema, {});
    assert bytes[0..] == bytes;
    ContinuedNothing(whole);
    assert found.Keys == {};
    while cursor.offset < |bytes|
      invariant cursor.offset <= |bytes| && found == MapOf(done)
      invariant whole == Continued(done, ReadEntries(bytes[cursor.offset..], schema, found.Keys))
      decreases |bytes| - cursor.offset
    {
      ghost var start := cursor.offset;
      EntriesNext(bytes[start..], schema, found.Keys);
      var entry := NextEntry(bytes, cursor, schema, found);
      if entry.None? {
        return None;
      }
      var Entry(field, value) := entry.value;
      assert bytes[start..][cursor.offset - start..] == bytes[cursor.offset..];
      assert found.Keys + {field} == found[field := value].Keys;
      MapOfAppend(done, entry.value);
      ContinuedNext(done, entry.value, ReadEntries(bytes[cursor.offset..], schema, found.Keys + {field}));
      found := found[field := value];
      done := done + [entry.value];
    }
    NoMoreEntries(bytes[cursor.offset..], schema, found.Keys);
    assert done + [] == done;
    return Some(found);
  }

  lemma NoMoreEntries(b: seq<Byte>, schema: Schema, seen: set<nat>)
    requires b == []
    ensures ReadEntries(b, schema, seen) == Some([])
  {
  }

  method NextEntry(bytes: seq<Byte>, cursor: Cursor, schema: Schema, found: map<nat, Value>) returns (entry: Option<Entry>)
    requires cursor.offset < |bytes|
    modifies cursor
    ensures
      match ReadEntry(old(bytes[cursor.offset..]), schema, found.Keys)
      case None => entry == None
      case Some(one) => entry == Some(one.entry) && cursor.offset == old(cursor.offset) + one.length
  {
    ghost var start := cursor.offset;
    var tag := NextVarint(bytes, cursor);
    if tag.None? {
      return None;
    }
    var field := tag.value / 8;
    if field !in schema || tag.value % 8 != WireNumber(schema[field].wire) || field in found {
      return None;
    }
    assert bytes[start..][cursor.offset - start..] == bytes[cursor.offset..];
    var value := NextValue(bytes, cursor, schema[field]);
    if value.None? {
      return None;
    }
    return Some(Entry(field, value.value));
  }

  method NextValue(bytes: seq<Byte>, cursor: Cursor, f: Field) returns (value: Option<Value>)
    requires cursor.offset <= |bytes|
    modifies cursor
    ensures
      match ReadValue(old(bytes[cursor.offset..]), f)
      case None => value == None && old(cursor.offset) <= cursor.offset <= |bytes|
      case Some((v, length)) => value == Some(v) && cursor.offset == old(cursor.offset) + length
  {
    ghost var start := cursor.offset;
    var n := NextVarint(bytes, cursor);
    if n.None? {
      return None;
    }
    if f.wire == Varint {
      if f.max.Some? && n.value > f.max.value {
        return None;
      }
      return Some(Number(n.value));
    }
    var max := if f.max.Some? then f.max.value else MAX_HANDSHAKE_BYTES;
    if n.value > max || n.value > |bytes| - cursor.offset {
      return None;
    }
    value := Some(Bytes(bytes[cursor.offset..cursor.offset + n.value]));
    assert bytes[start..][cursor.offset - start..cursor.offset - start + n.value] == bytes[cursor.offset..cursor.offset + n.value];
    cursor.offset := cursor.offset + n.value;
  }
}
