/** Streams as a server writes them, and that they are read as they were meant. */
module EventWriter {
  import opened EventStream
  import opened EventReference
  import opened Wrappers

  // ---- writing ----

  /** One line of a frame: the event's name, a line of its data, or what readers pass over.  `spaced` puts
      a space after the colon. */
  datatype Line =
    | EventLine(name: string, spaced: bool)
    | DataLine(text: string, spaced: bool)
    | Comment(text: string)
    | OtherField(name: string, text: string)
    | BareField(name: string)

  /** A line and its line end: CRLF or LF. */
  datatype Ended = Ended(line: Line, crlf: bool)

  /** A frame ends with a blank line. */
  datatype Written = Written(lines: seq<Ended>, crlf: bool)

  predicate OneLine(s: string) {
    '\n' !in s && '\r' !in s
  }

  /** A value that begins with a space needs one before it. */
  predicate ValueOk(text: string, spaced: bool) {
    OneLine(text) && (!spaced && text != "" ==> text[0] != ' ')
  }

  predicate LineOk(l: Line) {
    match l
    case EventLine(name, spaced) => ValueOk(name, spaced)
    case DataLine(text, spaced) => ValueOk(text, spaced)
    case Comment(text) => OneLine(text)
    case OtherField(name, text) => name != "" && ':' !in name && name != "event" && name != "data" && OneLine(name + text)
    case BareField(name) => name != "" && ':' !in name && name != "event" && name != "data" && OneLine(name)
  }

  function Space(spaced: bool): string {
    if spaced then " " else ""
  }

  function LineText(l: Line): string {
    match l
    case EventLine(name, spaced) => "event:" + (Space(spaced) + name)
    case DataLine(text, spaced) => "data:" + (Space(spaced) + text)
    case Comment(text) => ":" + text
    case OtherField(name, text) => name + (":" + text)
    case BareField(name) => name
  }

  function EndText(crlf: bool): string {
    if crlf then "\r\n" else "\n"
  }

  function FrameText(lines: seq<Ended>, crlf: bool): string {
    if lines == [] then EndText(crlf)
    else LineText(lines[0].line) + (EndText(lines[0].crlf) + FrameText(lines[1..], crlf))
  }

  predicate FrameOk(w: Written) {
    forall i :: 0 <= i < |w.lines| ==> LineOk(w.lines[i].line)
  }

  function StreamText(ws: seq<Written>): string {
    if ws == [] then "" else FrameText(ws[0].lines, ws[0].crlf) + StreamText(ws[1..])
  }

  // ---- what was meant ----

  /** The last name given, if any. */
  function NameOf(lines: seq<Ended>, name: Option<string>): Option<string> {
    if lines == [] then name
    else NameOf(lines[1..], if lines[0].line.EventLine? then Some(lines[0].line.name) else name)
  }

  function DataIn(l: Line): seq<string> {
    if l.DataLine? then [l.text] else []
  }

  /** The lines of data, one after the other. */
  function DataOf(lines: seq<Ended>): seq<string> {
    if lines == [] then []
    else DataIn(lines[0].line) + DataOf(lines[1..])
  }

  /** Lines of text with line feeds between them. */
  function Text(lines: seq<string>): string {
    if lines == [] then ""
    else if |lines| == 1 then lines[0]
    else Text(lines[..|lines| - 1]) + "\n" + lines[|lines| - 1]
  }

  /** The events `es` are what a frame of this name and data stands for. */
  predicate Means(name: Option<string>, data: seq<string>, es: seq<Event>, parse: string -> Option<Json>) {
    && (data == [] ==> es == [])
    && (data != [] ==>
          match parse(Text(data))
          case Some(Object(members)) =>
            var kind :=
              match name
              case Some(n) => n
              case None => if "kind" in members && members["kind"].Text? then members["kind"].text else "";
            var body := if "data" in members && members["data"].Object? then members["data"].members else map[];
            es == if kind == "" then [] else [Event(kind, body)]
          case _ => es == [])
  }

  // ---- each line is read as it was meant ----

  lemma ColonIs(name: string, rest: string)
    requires ':' !in name
    ensures Colon(name + (":" + rest)) == |name|
  {
    var s := name + (":" + rest);
    assert s[|name|] == ':';
    forall j | 0 <= j < |name| ensures s[j] != ':' {
      assert s[j] == name[j];
    }
  }

  lemma FieldIs(name: string, rest: string)
    requires ':' !in name
    ensures FieldOf(name + (":" + rest)) == name
    ensures ValueOf(name + (":" + rest)) == if rest != "" && rest[0] == ' ' then rest[1..] else rest
  {
    ColonIs(name, rest);
    var s := name + (":" + rest);
    assert s[..|name|] == name && s[|name| + 1..] == rest;
    if rest != "" {
      assert s[|name| + 1] == rest[0] && s[|name| + 2..] == rest[1..];
    }
  }

  lemma ValueIs(name: string, text: string, spaced: bool)
    requires ':' !in name && ValueOk(text, spaced)
    ensures FieldOf(name + (":" + (Space(spaced) + text))) == name && ValueOf(name + (":" + (Space(spaced) + text))) == text
  {
    FieldIs(name, Space(spaced) + text);
    assert (" " + text)[1..] == text && "" + text == text;
  }

  lemma BareIs(name: string)
    requires ':' !in name
    ensures FieldOf(name) == name
  {
    assert Colon(name) == |name|;
  }

  /** What a line adds to a frame. */
  function Added(f: Frame, l: Line): Frame {
    match l
    case EventLine(name, _) => f.(event := Some(name))
    case DataLine(text, _) => f.(data := f.data + [text])
    case _ => f
  }

  lemma LineIsTaken(f: Frame, l: Line)
    requires LineOk(l)
    ensures TakeLine(f, LineText(l)) == Added(f, l)
  {
    hide FieldOf, ValueOf;
    match l
    case EventLine(name, spaced) =>
      ValueIs("event", name, spaced);
      assert LineText(l) == "event" + (":" + (Space(spaced) + name)) && LineText(l)[0] == 'e';
    case DataLine(text, spaced) =>
      ValueIs("data", text, spaced);
      assert LineText(l) == "data" + (":" + (Space(spaced) + text)) && LineText(l)[0] == 'd';
    case Comment(text) => assert LineText(l)[0] == ':';
    case OtherField(name, text) => FieldIs(name, text);
    case BareField(name) => BareIs(name);
  }

  lemma LineHasNoEnd(l: Line)
    requires LineOk(l)
    ensures OneLine(LineText(l)) && LineText(l) != ""
  {
  }

  // ---- frames ----

  /** The first line of a text that begins with a line, and what follows it. */
  lemma FirstLineIs(line: string, crlf: bool, rest: string)
    requires OneLine(line)
    ensures
      var s := line + (EndText(crlf) + rest);
      && FirstLineEnd(s) == |line| && LineEnd(s, |line|) == |EndText(crlf)|
      && s[..|line|] == line && s[|line| + |EndText(crlf)|..] == rest
  {
    var s := line + (EndText(crlf) + rest);
    assert s[|line|] == EndText(crlf)[0];
    if crlf {
      assert s[|line| + 1] == '\n';
    }
    forall j | 0 <= j < |line| ensures LineEnd(s, j) == 0 {
      assert s[j] == line[j] && s[j] in line;
    }
    FirstLineEndIs(s, |line|);
  }

  /** Line by line, a frame is read as the lines add up. */
  lemma {:induction false} FrameIsTaken(lines: seq<Ended>, crlf: bool, f: Frame, rest: string, parse: string -> Option<Json>)
    requires forall i :: 0 <= i < |lines| ==> LineOk(lines[i].line)
    ensures
      Reference(FrameText(lines, crlf) + rest, f, parse) ==
        Dispatch(Frame(NameOf(lines, f.event), f.data + DataOf(lines)), parse) + Reference(rest, EMPTY, parse)
    decreases |lines|
  {
    hide *;
    if lines == [] {
      ReadBlank(f, crlf, rest, parse);
      NothingMore(f, crlf);
    } else {
      var l := lines[0];
      var after := FrameText(lines[1..], crlf) + rest;
      ReadLine(f, l, after, parse);
      FrameIsTaken(lines[1..], crlf, Added(f, l.line), rest, parse);
      OneMore(f, lines, crlf, rest);
    }
  }

  lemma ReadBlank(f: Frame, crlf: bool, rest: string, parse: string -> Option<Json>)
    ensures Reference(EndText(crlf) + rest, f, parse) == Dispatch(f, parse) + Reference(rest, EMPTY, parse)
  {
    hide Dispatch;
    EmptyIsOneLine();
    FirstLineIs("", crlf, rest);
    assert "" + (EndText(crlf) + rest) == EndText(crlf) + rest;
  }

  lemma ReadLine(f: Frame, l: Ended, rest: string, parse: string -> Option<Json>)
    requires LineOk(l.line)
    ensures Reference(LineText(l.line) + (EndText(l.crlf) + rest), f, parse) == Reference(rest, Added(f, l.line), parse)
  {
    hide Dispatch, TakeLine, Added, LineText, LineOk, OneLine, FirstLineEnd, LineEnd;
    LineHasNoEnd(l.line);
    FirstLineIs(LineText(l.line), l.crlf, rest);
    LineIsTaken(f, l.line);
  }

  lemma NothingMore(f: Frame, crlf: bool)
    ensures FrameText([], crlf) == EndText(crlf) && Frame(NameOf([], f.event), f.data + DataOf([])) == f
  {
  }

  lemma Regroup(a: string, b: string, c: string, d: string)
    ensures (a + (b + c)) + d == a + (b + (c + d))
  {
  }

  lemma OneMore(f: Frame, lines: seq<Ended>, crlf: bool, rest: string)
    requires lines != []
    ensures
      FrameText(lines, crlf) + rest ==
        LineText(lines[0].line) + (EndText(lines[0].crlf) + (FrameText(lines[1..], crlf) + rest))
    ensures
      var g := Added(f, lines[0].line);
      NameOf(lines, f.event) == NameOf(lines[1..], g.event) && f.data + DataOf(lines) == g.data + DataOf(lines[1..])
  {
    hide LineText, EndText;
    Regroup(LineText(lines[0].line), EndText(lines[0].crlf), FrameText(lines[1..], crlf), rest);
    DataGrows(f, lines);
  }

  lemma DataGrows(f: Frame, lines: seq<Ended>)
    requires lines != []
    ensures f.data + DataOf(lines) == Added(f, lines[0].line).data + DataOf(lines[1..])
  {
    AddedData(f, lines[0].line);
    hide Added;
    LinesJoin(f.data, DataIn(lines[0].line), DataOf(lines[1..]));
  }

  lemma AddedData(f: Frame, l: Line)
    ensures Added(f, l).data == f.data + DataIn(l)
  {
  }

  lemma LinesJoin(a: seq<string>, b: seq<string>, c: seq<string>)
    ensures a + (b + c) == (a + b) + c
  {
  }

  lemma EmptyIsOneLine()
    ensures OneLine("")
  {
  }

  lemma {:induction false} TextAppends(first: string, lines: seq<string>)
    requires lines != []
    ensures Text([first] + lines) == first + "\n" + Text(lines)
    decreases |lines|
  {
    var all := [first] + lines;
    if |lines| == 1 {
      assert all[..1] == [first] && lines == [lines[0]];
    } else {
      TextAppends(first, lines[..|lines| - 1]);
      assert all[..|all| - 1] == [first] + lines[..|lines| - 1];
    }
  }

  lemma {:induction false} TextIsJoined(lines: seq<string>)
    ensures Join(lines) == Text(lines)
    decreases |lines|
  {
    if |lines| > 1 {
      TextIsJoined(lines[1..]);
      TextAppends(lines[0], lines[1..]);
      assert [lines[0]] + lines[1..] == lines;
    }
  }

  lemma DispatchMeans(name: Option<string>, data: seq<string>, parse: string -> Option<Json>)
    ensures Means(name, data, Dispatch(Frame(name, data), parse), parse)
  {
    TextIsJoined(data);
  }

  /** A written frame, whatever comments and other fields are among its lines and however they end, is
      read as the event it stands for, and what follows it as it would be alone. */
  lemma FrameIsRead(w: Written, rest: string, parse: string -> Option<Json>) returns (es: seq<Event>)
    requires FrameOk(w)
    ensures Means(NameOf(w.lines, None), DataOf(w.lines), es, parse)
    ensures Extract(FrameText(w.lines, w.crlf) + rest, parse).events == es + Extract(rest, parse).events
  {
    hide Reference, Extract, Dispatch, Means;
    ReadersAgree(FrameText(w.lines, w.crlf) + rest, parse);
    ReadersAgree(rest, parse);
    FrameIsTaken(w.lines, w.crlf, EMPTY, rest, parse);
    assert [] + DataOf(w.lines) == DataOf(w.lines);
    DispatchMeans(NameOf(w.lines, None), DataOf(w.lines), parse);
    es := Dispatch(Frame(NameOf(w.lines, None), DataOf(w.lines)), parse);
  }

  /** An event under its own name: any number of lines of data that parse as an object. */
  lemma NamedEventIsRead(
      w: Written, name: string, members: map<string, Json>, body: map<string, Json>, rest: string, parse: string -> Option<Json>)
    requires FrameOk(w) && NameOf(w.lines, None) == Some(name) && name != "" && DataOf(w.lines) != []
    requires parse(Text(DataOf(w.lines))) == Some(Object(members)) && "data" in members && members["data"] == Object(body)
    ensures Extract(FrameText(w.lines, w.crlf) + rest, parse).events == [Event(name, body)] + Extract(rest, parse).events
  {
    hide Extract;
    var es := FrameIsRead(w, rest, parse);
  }

  /** An event without a name goes by the kind in its data, and is none without one; a body that is no object is empty. */
  lemma UnnamedEventIsRead(w: Written, members: map<string, Json>, rest: string, parse: string -> Option<Json>)
    requires FrameOk(w) && NameOf(w.lines, None) == None && DataOf(w.lines) != []
    requires parse(Text(DataOf(w.lines))) == Some(Object(members))
    ensures
      var body := if "data" in members && members["data"].Object? then members["data"].members else map[];
      && (forall kind ::
            kind != "" && "kind" in members && members["kind"] == Json.Text(kind) ==>
              Extract(FrameText(w.lines, w.crlf) + rest, parse).events == [Event(kind, body)] + Extract(rest, parse).events)
      && ("kind" !in members || !members["kind"].Text? || members["kind"].text == "" ==>
            Extract(FrameText(w.lines, w.crlf) + rest, parse).events == Extract(rest, parse).events)
  {
    hide Extract;
    var es := FrameIsRead(w, rest, parse);
  }

  /** A whole stream of written frames is read as their events in order. */
  lemma {:induction false} StreamIsRead(ws: seq<Written>, parse: string -> Option<Json>) returns (meant: seq<seq<Event>>)
    requires forall i :: 0 <= i < |ws| ==> FrameOk(ws[i])
    ensures |meant| == |ws|
    ensures forall i :: 0 <= i < |ws| ==> Means(NameOf(ws[i].lines, None), DataOf(ws[i].lines), meant[i], parse)
    ensures Extract(StreamText(ws), parse).events == Concatenated(meant)
    decreases |ws|
  {
    hide Extract, Means, FrameText;
    if ws == [] {
      meant := [];
      NothingIsRead(parse);
    } else {
      var es := FrameIsRead(ws[0], StreamText(ws[1..]), parse);
      var others := StreamIsRead(ws[1..], parse);
      meant := [es] + others;
      assert meant[1..] == others;
    }
  }

  function Concatenated(meant: seq<seq<Event>>): seq<Event> {
    if meant == [] then [] else meant[0] + Concatenated(meant[1..])
  }

  lemma NothingIsRead(parse: string -> Option<Json>)
    ensures Extract("", parse).events == []
  {
    NoFrame("", parse);
  }
}
