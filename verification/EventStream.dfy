/** Splitting a server-sent event stream into frames, however it is cut into chunks. */
module EventStream {
  import opened Wrappers

  /** As much of a JSON value as the reader looks at. */
  datatype Json = Object(members: map<string, Json>) | Text(text: string) | Other

  datatype Event = Event(kind: string, data: map<string, Json>)

  // ---- frames ----

  /** The length of a line end at `i`: LF, CRLF, or none. */
  function LineEnd(s: string, i: nat): (n: nat)
    ensures i + n <= |s| || n == 0
  {
    if i < |s| && s[i] == '\n' then 1
    else if i + 1 < |s| && s[i] == '\r' && s[i + 1] == '\n' then 2
    else 0
  }

  /** The length of a frame boundary at `i`: two line ends, or none. */
  function BoundaryAt(s: string, i: nat): (n: nat)
    ensures i + n <= |s| || n == 0
  {
    var first := LineEnd(s, i);
    if first == 0 || LineEnd(s, i + first) == 0 then 0 else first + LineEnd(s, i + first)
  }

  /** The leftmost boundary. */
  function Search(s: string, i: nat := 0): (r: Option<nat>)
    ensures r.Some? ==> i <= r.value && BoundaryAt(s, r.value) > 0 && forall j :: i <= j < r.value ==> BoundaryAt(s, j) == 0
    ensures r.None? ==> forall j :: i <= j ==> BoundaryAt(s, j) == 0
    decreases |s| - i
  {
    if i >= |s| then None
    else if BoundaryAt(s, i) > 0 then Some(i) else Search(s, i + 1)
  }

  datatype Extracted = Extracted(events: seq<Event>, remainder: string)

  function Extract(s: string, parse: string -> Option<Json>): Extracted
    decreases |s|
  {
    var p := Search(s);
    if p.None? then Extracted([], s)
    else
      var rest := Extract(s[p.value + BoundaryAt(s, p.value)..], parse);
      Extracted(Interpret(s[..p.value], parse) + rest.events, rest.remainder)
  }

  // ---- one frame ----

  /** The lines of a frame; a line end is LF or CRLF. */
  function Split(frame: string): (lines: seq<string>)
    ensures lines != []
    decreases |frame|
  {
    var k := FirstLineEnd(frame);
    if k >= |frame| then [frame] else [frame[..k]] + Split(frame[k + LineEnd(frame, k)..])
  }

  function FirstLineEnd(s: string): (k: nat)
    ensures k <= |s| && forall j :: 0 <= j < k ==> LineEnd(s, j) == 0
    ensures k < |s| ==> LineEnd(s, k) > 0
  {
    if s == [] then 0
    else if LineEnd(s, 0) > 0 then 0
    else
      var k := FirstLineEnd(s[1..]);
      assert forall j :: 0 < j <= |s| ==> LineEnd(s, j) == LineEnd(s[1..], j - 1);
      k + 1
  }

  function Colon(line: string): (k: nat)
    ensures k <= |line| && (k < |line| ==> line[k] == ':') && forall j :: 0 <= j < k ==> line[j] != ':'
  {
    if line == [] || line[0] == ':' then 0 else 1 + Colon(line[1..])
  }

  function FieldOf(line: string): string {
    line[..Colon(line)]
  }

  /** What follows the colon, without one leading space. */
  function ValueOf(line: string): string {
    var k := Colon(line);
    if k == |line| then ""
    else if k + 1 < |line| && line[k + 1] == ' ' then line[k + 2..] else line[k + 1..]
  }

  datatype Frame = Frame(event: Option<string>, data: seq<string>)

  const EMPTY := Frame(None, [])

  function TakeLine(f: Frame, line: string): Frame {
    if line != [] && line[0] == ':' then f
    else if FieldOf(line) == "event" then f.(event := Some(ValueOf(line)))
    else if FieldOf(line) == "data" then f.(data := f.data + [ValueOf(line)])
    else f
  }

  function TakeLines(f: Frame, lines: seq<string>): Frame
    decreases |lines|
  {
    if lines == [] then f else TakeLines(TakeLine(f, lines[0]), lines[1..])
  }

  function Join(lines: seq<string>): string {
    if lines == [] then "" else if |lines| == 1 then lines[0] else lines[0] + "\n" + Join(lines[1..])
  }

  /** The event of a frame, if it has data and its data is an object with a kind. */
  function Dispatch(f: Frame, parse: string -> Option<Json>): seq<Event> {
    if f.data == [] then []
    else
      var parsed := parse(Join(f.data));
      if parsed.None? || !parsed.value.Object? then []
      else
        var members := parsed.value.members;
        var kind :=
          if f.event.Some? then f.event.value
          else if "kind" in members && members["kind"].Text? then members["kind"].text else "";
        if kind == "" then []
        else [Event(kind, if "data" in members && members["data"].Object? then members["data"].members else map[])]
  }

  function Interpret(frame: string, parse: string -> Option<Json>): seq<Event> {
    Dispatch(TakeLines(EMPTY, Split(frame)), parse)
  }

  lemma InterpretIs(frame: string, parse: string -> Option<Json>)
    ensures Interpret(frame, parse) == Dispatch(TakeLines(EMPTY, Split(frame)), parse)
  {
  }

  // ---- chunks ----

  /** The leftmost boundary stays the leftmost, and as long, whatever follows. */
  lemma BoundaryIsStable(a: string, b: string)
    requires Search(a).Some?
    ensures Search(a + b) == Search(a)
    ensures BoundaryAt(a + b, Search(a).value) == BoundaryAt(a, Search(a).value)
  {
    var p := Search(a).value;
    forall j | 0 <= j < p ensures BoundaryAt(a + b, j) == 0 {
      assert BoundaryAt(a, j) == 0;
    }
    assert BoundaryAt(a, p) > 0 && BoundaryAt(a + b, p) == BoundaryAt(a, p);
    SearchIsLeftmost(a + b, p);
  }

  lemma SearchIsLeftmost(s: string, p: nat)
    requires BoundaryAt(s, p) > 0 && forall j :: 0 <= j < p ==> BoundaryAt(s, j) == 0
    ensures Search(s) == Some(p)
  {
  }

  /** One step of reading: the first frame, and what follows it. */
  lemma FirstFrame(s: string, parse: string -> Option<Json>)
    requires Search(s).Some?
    ensures
      var p := Search(s).value;
      var rest := Extract(s[p + BoundaryAt(s, p)..], parse);
      Extract(s, parse) == Extracted(Interpret(s[..p], parse) + rest.events, rest.remainder)
  {
  }

  /** Reading in two goes, with the remainder carried over, is reading at once. */
  lemma {:induction false} TwoGoes(a: string, b: string, parse: string -> Option<Json>)
    ensures
      var first := Extract(a, parse);
      var second := Extract(first.remainder + b, parse);
      Extract(a + b, parse) == Extracted(first.events + second.events, second.remainder)
    decreases |a|, 1
  {
    hide Interpret, Search, Extract, BoundaryAt;
    if Search(a).Some? {
      LaterGoes(a, b, parse);
    } else {
      NoFrame(a, parse);
      Regroup([], [], Extract(a + b, parse).events);
    }
  }

  /** After the first frame, which is read alike, come the goes of the rest. */
  lemma {:induction false} LaterGoes(a: string, b: string, parse: string -> Option<Json>)
    requires Search(a).Some?
    ensures
      var first := Extract(a, parse);
      var second := Extract(first.remainder + b, parse);
      Extract(a + b, parse) == Extracted(first.events + second.events, second.remainder)
    decreases |a|, 0
  {
    hide Interpret, Search, Extract, BoundaryAt;
    var p := Search(a).value;
    BoundaryIsStable(a, b);
    var n := p + BoundaryAt(a, p);
    CutSum(a, b, p);
    CutSum(a, b, n);
    TwoGoes(a[n..], b, parse);
    FirstFrame(a, parse);
    FirstFrame(a + b, parse);
    var rest := Extract(a[n..], parse);
    Regroup(Interpret(a[..p], parse), rest.events, Extract(rest.remainder + b, parse).events);
  }

  lemma CutSum(a: string, b: string, n: nat)
    requires n <= |a|
    ensures (a + b)[n..] == a[n..] + b && (a + b)[..n] == a[..n]
  {
  }

  lemma Regroup<T>(x: seq<T>, y: seq<T>, z: seq<T>)
    ensures (x + y) + z == x + (y + z) && [] + z == z
  {
  }

  lemma NoFrame(s: string, parse: string -> Option<Json>)
    requires Search(s).None?
    ensures Extract(s, parse) == Extracted([], s)
  {
  }

  function Flatten(chunks: seq<string>): string {
    if chunks == [] then "" else Flatten(chunks[..|chunks| - 1]) + chunks[|chunks| - 1]
  }

  /** Chunk after chunk, each appended to the remainder of those before. */
  function Feed(chunks: seq<string>, parse: string -> Option<Json>): Extracted {
    if chunks == [] then Extracted([], "")
    else
      var before := Feed(chunks[..|chunks| - 1], parse);
      var now := Extract(before.remainder + chunks[|chunks| - 1], parse);
      Extracted(before.events + now.events, now.remainder)
  }

  /** For every stream and every way of cutting it: the same events and the same remainder. */
  lemma {:induction false} ChunkingDoesNotMatter(chunks: seq<string>, parse: string -> Option<Json>)
    ensures Feed(chunks, parse) == Extract(Flatten(chunks), parse)
    decreases |chunks|
  {
    if chunks != [] {
      var before := chunks[..|chunks| - 1];
      ChunkingDoesNotMatter(before, parse);
      TwoGoes(Flatten(before), chunks[|chunks| - 1], parse);
    }
  }

  /** A remainder holds no boundary: reading it again gives nothing. */
  lemma {:induction false} RemainderIsQuiet(s: string, parse: string -> Option<Json>)
    ensures var r := Extract(s, parse).remainder; Extract(r, parse) == Extracted([], r) && |r| <= |s|
    decreases |s|
  {
    hide Interpret, Search, Extract, BoundaryAt;
    var p := Search(s);
    if p.Some? {
      FirstFrame(s, parse);
      RemainderIsQuiet(s[p.value + BoundaryAt(s, p.value)..], parse);
    } else {
      NoFrame(s, parse);
    }
  }
}
