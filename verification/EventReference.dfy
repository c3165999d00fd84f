/** Frames by boundary and lines by line are the same events: the reader against the standard's own way. */
module EventReference {
  import opened EventStream
  import opened Wrappers

  /** Line by line, as section 9.2 of the HTML Standard reads a stream: a blank line dispatches. */
  function Reference(s: string, f: Frame, parse: string -> Option<Json>): seq<Event>
    decreases |s|
  {
    var k := FirstLineEnd(s);
    if k >= |s| then []
    else
      var rest := s[k + LineEnd(s, k)..];
      if k == 0 then Dispatch(f, parse) + Reference(rest, EMPTY, parse) else Reference(rest, TakeLine(f, s[..k]), parse)
  }

  /** A line end further on, seen from the rest of the stream. */
  lemma ShiftedLineEnd(s: string, m: nat)
    requires m <= |s|
    ensures forall j: nat :: LineEnd(s[m..], j) == LineEnd(s, m + j)
    ensures forall j: nat :: BoundaryAt(s[m..], j) == BoundaryAt(s, m + j)
  {
  }

  lemma ShiftedSearch(s: string, m: nat)
    requires m <= |s| && forall j :: 0 <= j < m ==> BoundaryAt(s, j) == 0
    ensures Search(s[m..]) == match Search(s) case None => None case Some(p) => Some(p - m)
  {
    hide BoundaryAt, Search;
    ShiftedLineEnd(s, m);
    match Search(s)
    case None =>
    case Some(p) =>
      assert p >= m && BoundaryAt(s[m..], p - m) > 0;
      assert forall j: nat :: j < p - m ==> BoundaryAt(s[m..], j) == 0;
      SearchIsLeftmost(s[m..], p - m);
  }

  /** A line inside a frame is whole, and what follows it does not begin with a line end. */
  lemma LineInFrame(s: string, p: nat, k: nat)
    requires k < p <= |s| && LineEnd(s, k) > 0 && BoundaryAt(s, p) > 0
    requires forall j :: 0 <= j < p ==> BoundaryAt(s, j) == 0
    ensures k + LineEnd(s, k) <= p && LineEnd(s, k + LineEnd(s, k)) == 0
  {
    assert BoundaryAt(s, k) == 0;
  }

  lemma FirstLineEndIs(s: string, k: nat)
    requires k < |s| && LineEnd(s, k) > 0 && forall j :: 0 <= j < k ==> LineEnd(s, j) == 0
    ensures FirstLineEnd(s) == k
  {
  }

  lemma NoLineEnd(s: string)
    requires forall j :: 0 <= j < |s| ==> LineEnd(s, j) == 0
    ensures FirstLineEnd(s) == |s|
  {
  }

  lemma PrefixLineEnds(s: string, p: nat)
    requires p <= |s|
    ensures forall j: nat :: j + LineEnd(s, j) <= p ==> LineEnd(s[..p], j) == LineEnd(s, j)
    ensures forall j: nat :: LineEnd(s, j) == 0 ==> LineEnd(s[..p], j) == 0
  {
  }

  /** The first line of a frame, and its other lines. */
  lemma SplitFirst(s: string, p: nat, k: nat)
    requires k < p <= |s| && k == FirstLineEnd(s) && k + LineEnd(s, k) <= p
    ensures Split(s[..p]) == [s[..k]] + Split(s[k + LineEnd(s, k)..][..p - k - LineEnd(s, k)])
  {
    hide Split, FirstLineEnd, LineEnd;
    var l := LineEnd(s, k);
    PrefixLineEnds(s, p);
    FirstLineEndIs(s[..p], k);
    SplitStep(s[..p]);
    assert s[..p][..k] == s[..k];
    assert s[..p][k + l..] == s[k + l..][..p - k - l];
  }

  lemma {:induction false} SplitStep(x: string)
    requires FirstLineEnd(x) < |x|
    ensures var k := FirstLineEnd(x); Split(x) == [x[..k]] + Split(x[k + LineEnd(x, k)..])
  {
    hide LineEnd, FirstLineEnd;
  }

  lemma SplitOnly(s: string, p: nat)
    requires p <= |s| && forall j :: 0 <= j < p ==> LineEnd(s, j) == 0
    ensures Split(s[..p]) == [s[..p]]
  {
    PrefixLineEnds(s, p);
    NoLineEnd(s[..p]);
  }

  lemma TakeFirst(f: Frame, line: string, lines: seq<string>)
    ensures TakeLines(f, [line] + lines) == TakeLines(TakeLine(f, line), lines)
  {
  }

  /** Up to the first boundary both readers see the same frame. */
  lemma {:induction false} FirstFrameAgrees(s: string, f: Frame, parse: string -> Option<Json>)
    requires Search(s).Some? && (LineEnd(s, 0) == 0 || f == EMPTY)
    ensures
      var p := Search(s).value;
      Reference(s, f, parse) ==
        Dispatch(TakeLines(f, Split(s[..p])), parse) + Reference(s[p + BoundaryAt(s, p)..], EMPTY, parse)
    decreases |s|
  {
    hide Reference, Split, TakeLines, Dispatch, Search, BoundaryAt, LineEnd, FirstLineEnd;
    var p := Search(s).value;
    var k := FirstLineEnd(s);
    LineBeforeBoundary(s);
    if k == p {
      LastLineAgrees(s, f, parse);
    } else {
      var m := k + LineEnd(s, k);
      LineInFrame(s, p, k);
      InnerLineAgrees(s, f, parse);
      var rest := s[m..];
      ShiftedLineEnd(s, m);
      ShiftedSearch2(s, m, p);
      FirstFrameAgrees(rest, TakeLine(f, s[..k]), parse);
      SplitFirst(s, p, k);
      TakeFirst(f, s[..k], Split(rest[..p - m]));
      assert rest[p - m + BoundaryAt(rest, p - m)..] == s[p + BoundaryAt(s, p)..];
    }
  }

  /** The first line ends where the frame does or before; it is blank only when nothing was read before. */
  lemma LineBeforeBoundary(s: string)
    requires Search(s).Some?
    ensures
      var p, k := Search(s).value, FirstLineEnd(s);
      k <= p < |s| && LineEnd(s, k) > 0 && BoundaryAt(s, p) > 0 && (k == 0 ==> LineEnd(s, 0) > 0)
  {
  }

  /** Nothing before the end of a frame's line is a boundary. */
  lemma ShiftedSearch2(s: string, m: nat, p: nat)
    requires m <= p <= |s| && Search(s) == Some(p)
    ensures Search(s[m..]) == Some(p - m)
  {
    ShiftedSearch(s, m);
  }

  lemma InnerLineAgrees(s: string, f: Frame, parse: string -> Option<Json>)
    requires var k := FirstLineEnd(s); k < |s| && (k == 0 ==> f == EMPTY)
    ensures var k := FirstLineEnd(s); Reference(s, f, parse) == Reference(s[k + LineEnd(s, k)..], TakeLine(f, s[..k]), parse)
  {
    if FirstLineEnd(s) == 0 {
      BlankLineIsNothing(f);
      assert s[..0] == "";
      assert Dispatch(EMPTY, parse) == [];
    }
  }

  lemma BlankLineIsNothing(f: Frame)
    ensures TakeLine(f, "") == f
  {
  }

  lemma LastLineAgrees(s: string, f: Frame, parse: string -> Option<Json>)
    requires Search(s) == Some(FirstLineEnd(s)) && (FirstLineEnd(s) == 0 ==> f == EMPTY)
    ensures
      var p := Search(s).value;
      Reference(s, f, parse) ==
        Dispatch(TakeLines(f, Split(s[..p])), parse) + Reference(s[p + BoundaryAt(s, p)..], EMPTY, parse)
  {
    var p := Search(s).value;
    var l := LineEnd(s, p);
    var rest := s[p + l..];
    InnerLineAgrees(s, f, parse);
    SplitOnly(s, p);
    TakeFirst(f, s[..p], []);
    ShiftedLineEnd(s, p + l);
    FirstLineEndIs(rest, 0);
    assert rest[LineEnd(rest, 0)..] == s[p + BoundaryAt(s, p)..];
  }

  /** Without a boundary no event is complete. */
  lemma {:induction false} NoFrameAgrees(s: string, f: Frame, parse: string -> Option<Json>)
    requires Search(s).None? && (LineEnd(s, 0) == 0 || f == EMPTY)
    ensures Reference(s, f, parse) == []
    decreases |s|
  {
    var k := FirstLineEnd(s);
    if k < |s| {
      var m := k + LineEnd(s, k);
      InnerLineAgrees(s, f, parse);
      assert BoundaryAt(s, k) == 0;
      ShiftedLineEnd(s, m);
      ShiftedSearch(s, m);
      NoFrameAgrees(s[m..], TakeLine(f, s[..k]), parse);
    }
  }

  /** The boundary reader gives exactly the events a line-by-line reader dispatches. */
  lemma {:induction false} ReadersAgree(s: string, parse: string -> Option<Json>)
    ensures Extract(s, parse).events == Reference(s, EMPTY, parse)
    decreases |s|
  {
    hide Reference, Interpret, BoundaryAt, Dispatch;
    if Search(s).Some? {
      var p := Search(s).value;
      FirstFrameAgrees(s, EMPTY, parse);
      FirstFrame(s, parse);
      ReadersAgree(s[p + BoundaryAt(s, p)..], parse);
      InterpretIs(s[..p], parse);
    } else {
      NoFrameAgrees(s, EMPTY, parse);
      NoFrame(s, parse);
    }
  }
}
