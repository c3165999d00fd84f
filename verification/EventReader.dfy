/** The event reader as it runs, and the one thing that does depend on how the stream is cut. */
module EventReader {
  import opened EventStream
  import opened Wrappers

  const SSE_BUFFER_LIMIT := 1024 * 1024

  method ExtractServerEvents(chunk: string, pending: string, parse: string -> Option<Json>)
    returns (events: seq<Event>, remainder: string)
    ensures Extracted(events, remainder) == Extract(pending + chunk, parse)
  {
    hide Extract, Interpret, BoundaryAt, TakeLines, Dispatch, Split;
    var buffer := pending + chunk;
    events := [];
    ghost var whole := Extract(buffer, parse);
    while Search(buffer).Some?
      invariant whole == Extracted(events + Extract(buffer, parse).events, Extract(buffer, parse).remainder)
      decreases |buffer|
    {
      var boundary := Search(buffer).value;
      var frame := ReadFrame(buffer[..boundary]);
      FirstFrame(buffer, parse);
      InterpretIs(buffer[..boundary], parse);
      Regroup(events, Dispatch(frame, parse), Extract(buffer[boundary + BoundaryAt(buffer, boundary)..], parse).events);
      buffer := buffer[boundary + BoundaryAt(buffer, boundary)..];
      events := events + Dispatch(frame, parse);
    }
    NoFrame(buffer, parse);
    remainder := buffer;
  }

  /** The lines of a frame, one after the other. */
  method ReadFrame(text: string) returns (frame: Frame)
    ensures frame == TakeLines(EMPTY, Split(text))
  {
    var lines := Split(text);
    frame := EMPTY;
    for i := 0 to |lines|
      invariant TakeLines(EMPTY, lines) == TakeLines(frame, lines[i..])
    {
      var line := lines[i];
      if line == [] || line[0] != ':' {
        if FieldOf(line) == "event" {
          frame := frame.(event := Some(ValueOf(line)));
        } else if FieldOf(line) == "data" {
          frame := frame.(data := frame.data + [ValueOf(line)]);
        }
      }
      assert lines[i..][0] == line && lines[i..][1..] == lines[i + 1..];
    }
  }

  /** What is buffered when chunk `k` has arrived and was not yet read. */
  function Buffered(chunks: seq<string>, k: nat, parse: string -> Option<Json>): nat
    requires k < |chunks|
  {
    |Extract(Flatten(chunks[..k]), parse).remainder| + |chunks[k]|
  }

  /** The first chunk from `i` on that overflows the buffer, if any. */
  function FirstOverflow(chunks: seq<string>, i: nat, parse: string -> Option<Json>): (k: nat)
    requires i <= |chunks|
    ensures i <= k <= |chunks| && (k < |chunks| ==> Buffered(chunks, k, parse) > SSE_BUFFER_LIMIT)
    ensures forall j :: i <= j < k ==> Buffered(chunks, j, parse) <= SSE_BUFFER_LIMIT
    decreases |chunks| - i
  {
    if i == |chunks| || Buffered(chunks, i, parse) > SSE_BUFFER_LIMIT then i else FirstOverflow(chunks, i + 1, parse)
  }

  predicate Overflows(chunks: seq<string>, parse: string -> Option<Json>) {
    FirstOverflow(chunks, 0, parse) < |chunks|
  }

  /** What the follower applies: the events of all chunks before the first that overflows. */
  function Delivered(chunks: seq<string>, parse: string -> Option<Json>): seq<Event> {
    Extract(Flatten(chunks[..FirstOverflow(chunks, 0, parse)]), parse).events
  }

  /** Follow a stream: all its events in order, unless a chunk overflows the buffer. */
  method Follow(chunks: seq<string>, parse: string -> Option<Json>) returns (ok: bool, applied: seq<Event>)
    ensures ok == !Overflows(chunks, parse)
    ensures applied == Delivered(chunks, parse)
  {
    var pending := "";
    applied := [];
    NoFrame("", parse);
    for i := 0 to |chunks|
      invariant Extracted(applied, pending) == Extract(Flatten(chunks[..i]), parse)
      invariant FirstOverflow(chunks, 0, parse) == FirstOverflow(chunks, i, parse)
    {
      if |pending| + |chunks[i]| > SSE_BUFFER_LIMIT {
        assert Buffered(chunks, i, parse) > SSE_BUFFER_LIMIT;
        return false, applied;
      }
      pending := pending + chunks[i];
      FlattenNext(chunks, i);
      TwoGoes(Flatten(chunks[..i]), chunks[i], parse);
      var events, remainder := ExtractServerEvents(pending, "", parse);
      assert "" + pending == pending;
      pending := remainder;
      applied := applied + events;
    }
    return true, applied;
  }

  lemma FlattenNext(chunks: seq<string>, i: nat)
    requires i < |chunks|
    ensures Flatten(chunks[..i + 1]) == Flatten(chunks[..i]) + chunks[i]
  {
    assert chunks[..i + 1][..i] == chunks[..i];
  }

  lemma {:induction false} FlattenInTwo(chunks: seq<string>, i: nat)
    requires i <= |chunks|
    ensures Flatten(chunks) == Flatten(chunks[..i]) + Flatten(chunks[i..])
    decreases |chunks|
  {
    if i == |chunks| {
      assert chunks[..i] == chunks && chunks[i..] == [];
    } else {
      var last := |chunks| - 1;
      FlattenInTwo(chunks[..last], i);
      assert chunks[..last][..i] == chunks[..i] && chunks[i..][..last - i] == chunks[..last][i..];
      assert chunks[i..][last - i] == chunks[last];
    }
  }

  /** Of two cuttings of one stream, the one that overflows delivers the first of the other's events. */
  lemma OverflowCutsShort(chunks: seq<string>, others: seq<string>, parse: string -> Option<Json>)
    requires Flatten(chunks) == Flatten(others) && !Overflows(others, parse)
    ensures Delivered(chunks, parse) <= Delivered(others, parse)
  {
    hide Extract, Buffered, FirstOverflow, Flatten;
    var k := FirstOverflow(chunks, 0, parse);
    FlattenInTwo(chunks, k);
    TwoGoes(Flatten(chunks[..k]), Flatten(chunks[k..]), parse);
    assert others[..|others|] == others;
  }

  /** Two cuttings of one stream that both fit the buffer deliver the same events. */
  lemma FittingCutsAgree(chunks: seq<string>, others: seq<string>, parse: string -> Option<Json>)
    requires Flatten(chunks) == Flatten(others) && !Overflows(chunks, parse) && !Overflows(others, parse)
    ensures Delivered(chunks, parse) == Delivered(others, parse)
  {
    hide Delivered, Overflows;
    OverflowCutsShort(chunks, others, parse);
    OverflowCutsShort(others, chunks, parse);
  }

  // ---- overflow does depend on the cut ----

  function Newlines(n: nat): string {
    seq(n, _ => '\n')
  }

  function Singles(n: nat): seq<string> {
    seq(n, _ => "\n")
  }

  lemma {:induction false} SinglesAreNewlines(n: nat)
    ensures Flatten(Singles(n)) == Newlines(n)
  {
    if n > 0 {
      SinglesAreNewlines(n - 1);
      assert Singles(n)[..n - 1] == Singles(n - 1);
      assert Newlines(n - 1) + "\n" == Newlines(n);
    }
  }

  lemma {:induction false} NewlinesLeaveLittle(n: nat, parse: string -> Option<Json>)
    ensures |Extract(Newlines(n), parse).remainder| <= 1
  {
    var s := Newlines(n);
    if n >= 2 {
      assert BoundaryAt(s, 0) == 2;
      SearchIsLeftmost(s, 0);
      FirstFrame(s, parse);
      assert s[2..] == Newlines(n - 2);
      NewlinesLeaveLittle(n - 2, parse);
    } else {
      assert forall j: nat :: BoundaryAt(s, j) == 0;
      NoFrame(s, parse);
    }
  }

  /** A stream that is read when it comes in pieces overflows when it comes at once. */
  lemma OverflowDependsOnTheCut(parse: string -> Option<Json>)
    ensures
      var n := SSE_BUFFER_LIMIT + 1;
      && Flatten([Newlines(n)]) == Flatten(Singles(n))
      && Overflows([Newlines(n)], parse) && !Overflows(Singles(n), parse)
  {
    var n := SSE_BUFFER_LIMIT + 1;
    SinglesAreNewlines(n);
    assert [Newlines(n)][..0] == [] && Flatten([]) + Newlines(n) == Newlines(n);
    assert Buffered([Newlines(n)], 0, parse) > SSE_BUFFER_LIMIT;
    forall k | 0 <= k < n ensures Buffered(Singles(n), k, parse) <= SSE_BUFFER_LIMIT {
      assert Singles(n)[..k] == Singles(k);
      SinglesAreNewlines(k);
      NewlinesLeaveLittle(k, parse);
    }
  }
}
