/** What the extractor makes of every written archive, and what it refuses. */
module TarRefusal {
  import opened TarFormat
  import opened TarExtract
  import opened TarArchive
  import opened Utf8
  import opened Wrappers

  // ---- numbers ----

  function Spaces(n: nat): seq<Byte> {
    seq(n, _ => SPACE)
  }

  predicate OctalOrSpace(s: seq<Byte>) {
    forall i :: 0 <= i < |s| ==> '0' as int <= s[i] <= '7' as int || s[i] == ' ' as int
  }

  lemma {:induction false} SpacesAreSkipped(n: nat, s: seq<Byte>)
    requires s != [] && s[0] != SPACE
    ensures SkipSpaces(Spaces(n) + s) == s
    decreases n
  {
    if n == 0 {
      assert Spaces(0) + s == s;
    } else {
      assert (Spaces(n) + s)[1..] == Spaces(n - 1) + s;
      SpacesAreSkipped(n - 1, s);
    }
  }

  lemma {:induction false} DigitsEnd(digits: seq<Byte>, tail: seq<Byte>, sum: nat)
    requires (forall i :: 0 <= i < |digits| ==> 48 <= digits[i] <= 55) && (tail != [] ==> tail[0] == SPACE)
    ensures Digits(digits + tail, sum) == Digits(digits, sum)
    decreases |digits|
  {
    if digits == [] {
      assert digits + tail == tail;
    } else {
      assert (digits + tail)[1..] == digits[1..] + tail;
      DigitsEnd(digits[1..], tail, 8 * sum + digits[0] - 48);
    }
  }

  /** A number in octal digits, with any spaces before it and anything allowed after a space behind it. */
  lemma NumbersAreRead(spaces: nat, v: nat, k: nat, tail: seq<Byte>)
    requires k > 0 && v < PowerOf8(k) && OctalOrSpace(tail) && (tail != [] ==> tail[0] == SPACE)
    ensures Octal(Spaces(spaces) + (OctalText(v, k) + tail)) == Some(v)
  {
    DigitsOfText(v, k);
    DigitsEnd(OctalText(v, k), tail, 0);
    SpacesAreSkipped(spaces, OctalText(v, k) + tail);
  }

  /** Any other character makes a number field unreadable; none at all is zero. */
  lemma NumbersAreReadExactly(s: seq<Byte>)
    ensures Octal(s).Some? <==> OctalOrSpace(s)
    ensures (forall i :: 0 <= i < |s| ==> s[i] == SPACE) ==> Octal(s) == Some(0)
  {
    if forall i :: 0 <= i < |s| ==> s[i] == SPACE {
      SpacesAreNothing(s);
    }
  }

  lemma {:induction false} SpacesAreNothing(s: seq<Byte>)
    requires forall i :: 0 <= i < |s| ==> s[i] == SPACE
    ensures SkipSpaces(s) == []
    decreases |s|
  {
    if s != [] {
      SpacesAreNothing(s[1..]);
    }
  }

  /** The next header begins at the first multiple of 512 behind the content. */
  lemma BlocksAreLeast(size: nat)
    ensures Blocks(size) % 512 == 0 && size <= Blocks(size) < size + 512
  {
  }

  // ---- damage ----

  lemma {:induction false} SumOfChanged(s: seq<Byte>, i: nat, b: Byte)
    requires i < |s|
    ensures Sum(s[i := b]) == Sum(s) - s[i] + b
    decreases |s|
  {
    var n := |s| - 1;
    if i == n {
      assert s[i := b][..n] == s[..n];
    } else {
      SumOfChanged(s[..n], i, b);
      assert s[i := b][..n] == s[..n][i := b];
    }
  }

  /** Whatever byte of a header is changed, but for its checksum, the archive is refused there. */
  lemma DamagedHeaderIsRefused(m: Member, i: nat, b: Byte, rest: seq<Byte>, s: State)
    requires Fits(m) && i < 512 && !(148 <= i < 156) && b != Header(m)[i]
    ensures ReadFrom(Header(m)[i := b] + rest, 0, s) == None
  {
    var h, h' := Header(m), Header(m)[i := b];
    HeaderChecksum(m);
    HeaderKind(m);
    FieldUnchanged(h, i, b);
    ChecksumChanges(h, i, b);
    hide Header, Checksum, Octal, Field, TakeEntry;
    assert (h' + rest)[0..512] == h' && h'[148] == h[148];
  }

  lemma FieldUnchanged(h: seq<Byte>, i: nat, b: Byte)
    requires |h| == 512 && i < 512 && !(148 <= i < 156)
    ensures Field(h[i := b], 148, 8) == Field(h, 148, 8)
  {
    assert h[i := b][148..156] == h[148..156];
  }

  lemma ChecksumChanges(h: seq<Byte>, i: nat, b: Byte)
    requires |h| == 512 && i < 512 && !(148 <= i < 156) && b != h[i]
    ensures Checksum(h[i := b]) != Checksum(h)
  {
    if i < 148 {
      SumOfChanged(h[..148], i, b);
      assert h[i := b][..148] == h[..148][i := b] && h[i := b][156..] == h[156..];
    } else {
      SumOfChanged(h[156..], i - 156, b);
      assert h[i := b][..148] == h[..148] && h[i := b][156..] == h[156..][i - 156 := b];
    }
  }

  // ---- paths ----

  /** From `i` on there is `..` between separators or ends. */
  predicate ClimbsAt(path: seq<Byte>, i: nat) {
    && i + 2 <= |path| && path[i..i + 2] == [DOT, DOT]
    && (i == 0 || path[i - 1] == SLASH) && (i + 2 == |path| || path[i + 2] == SLASH)
  }

  /** Absolute, on a drive, climbing, or with a character no part of a path may have. */
  ghost predicate Unsafe(path: seq<Byte>) {
    || (path != [] && path[0] == '/' as int)
    || (exists i :: 0 <= i < |path| && (path[i] == '\\' as int || path[i] == 0))
    || (exists i: nat :: ClimbsAt(path, i))
    || (|path| >= 2 && path[1] == ':' as int
        && ('A' as int <= path[0] <= 'Z' as int || 'a' as int <= path[0] <= 'z' as int))
  }

  /** The first piece is what comes before the first separator. */
  lemma {:induction false} FirstPieceIs(path: seq<Byte>, q: seq<Byte>)
    requires SLASH !in q
    ensures Split(path, SLASH)[0] == q <==> |q| <= |path| && path[..|q|] == q && (|q| == |path| || path[|q|] == SLASH)
    decreases |path|
  {
    if path != [] && path[0] != SLASH {
      var first := Split(path[1..], SLASH)[0];
      if q != [] {
        FirstPieceIs(path[1..], q[1..]);
        assert [path[0]] + first == q <==> path[0] == q[0] && first == q[1..];
        assert |q| <= |path| ==> (path[..|q|] == q <==> path[0] == q[0] && path[1..][..|q| - 1] == q[1..]);
      }
    }
  }

  ghost predicate ClimbsFrom(path: seq<Byte>, k: nat) {
    exists i: nat :: i >= k && ClimbsAt(path, i)
  }

  lemma ClimbShifts(path: seq<Byte>, i: nat)
    requires path != []
    ensures ClimbsAt(path, i + 1) <==> ClimbsAt(path[1..], i) && (i == 0 ==> path[0] == SLASH)
  {
    assert i + 3 <= |path| ==> path[i + 1..i + 3] == path[1..][i..i + 2];
  }

  lemma ClimbsFromShifts(path: seq<Byte>)
    requires path != []
    ensures ClimbsFrom(path, 1) <==> ClimbsFrom(path[1..], if path[0] == SLASH then 0 else 1)
  {
    hide ClimbsAt;
    var k := if path[0] == SLASH then 0 else 1;
    if ClimbsFrom(path, 1) {
      var i: nat :| i >= 1 && ClimbsAt(path, i);
      var j: nat := i - 1;
      ClimbShifts(path, j);
      assert j >= k && ClimbsAt(path[1..], j);
    }
    if ClimbsFrom(path[1..], k) {
      var i: nat :| i >= k && ClimbsAt(path[1..], i);
      ClimbShifts(path, i);
      assert i + 1 >= 1 && ClimbsAt(path, i + 1);
    }
  }

  lemma LaterPieces(path: seq<Byte>)
    requires path != []
    ensures Split(path, SLASH)[1..] == if path[0] == SLASH then Split(path[1..], SLASH) else Split(path[1..], SLASH)[1..]
  {
  }

  lemma {:induction false} LaterPiecesClimb(path: seq<Byte>)
    ensures [DOT, DOT] in Split(path, SLASH)[1..] <==> ClimbsFrom(path, 1)
    decreases |path|
  {
    if path != [] {
      LaterPiecesClimb(path[1..]);
      LaterPieces(path);
      ClimbsFromShifts(path);
      AnyPieceClimbs(path[1..]);
    }
  }

  lemma AnyPieceClimbs(path: seq<Byte>)
    ensures ClimbsFrom(path, 0) <==> ClimbsAt(path, 0) || ClimbsFrom(path, 1)
    ensures ClimbsAt(path, 0) <==> Split(path, SLASH)[0] == [DOT, DOT]
    ensures [DOT, DOT] in Split(path, SLASH) <==> Split(path, SLASH)[0] == [DOT, DOT] || [DOT, DOT] in Split(path, SLASH)[1..]
  {
    FirstPieceIs(path, [DOT, DOT]);
    if ClimbsFrom(path, 0) {
      var i: nat :| ClimbsAt(path, i);
      assert i == 0 || ClimbsFrom(path, 1);
    }
  }

  /** The paths that are let through are just the others. */
  lemma SafeExactly(path: seq<Byte>)
    ensures IsSafe(path) <==> !Unsafe(path)
  {
    LaterPiecesClimb(path);
    AnyPieceClimbs(path);
    hide ClimbsAt, Split;
  }

  // ---- names ----

  /** Pieces with a separator between each two. */
  function Joined(pieces: seq<seq<Byte>>): seq<Byte> {
    if pieces == [] then [] else if |pieces| == 1 then pieces[0] else pieces[0] + ([SLASH] + Joined(pieces[1..]))
  }

  /** The pieces that name something. */
  function Naming(pieces: seq<seq<Byte>>): Path {
    if pieces == [] then []
    else
      var last := pieces[|pieces| - 1];
      Naming(pieces[..|pieces| - 1]) + if |last| == 0 || last == ['.' as int] then [] else [last]
  }

  lemma {:induction false} PieceEnds(piece: seq<Byte>, more: seq<Byte>)
    requires SLASH !in piece
    ensures Split(piece + ([SLASH] + more), SLASH) == [piece] + Split(more, SLASH)
    decreases |piece|
  {
    var path := piece + ([SLASH] + more);
    if piece == [] {
      assert path == [SLASH] + more && path[1..] == more;
    } else {
      assert path[1..] == piece[1..] + ([SLASH] + more) && [piece[0]] + piece[1..] == piece;
      PieceEnds(piece[1..], more);
    }
  }

  lemma {:induction false} LastPiece(piece: seq<Byte>)
    requires SLASH !in piece
    ensures Split(piece, SLASH) == [piece]
    decreases |piece|
  {
    if piece != [] {
      LastPiece(piece[1..]);
      assert [piece[0]] + piece[1..] == piece;
    }
  }

  lemma {:induction false} PiecesAreRead(pieces: seq<seq<Byte>>)
    requires pieces != [] && forall i :: 0 <= i < |pieces| ==> SLASH !in pieces[i]
    ensures Split(Joined(pieces), SLASH) == pieces
    decreases |pieces|
  {
    if |pieces| == 1 {
      LastPiece(pieces[0]);
    } else {
      PiecesAreRead(pieces[1..]);
      PieceEnds(pieces[0], Joined(pieces[1..]));
      assert [pieces[0]] + pieces[1..] == pieces;
    }
  }

  lemma {:induction false} NamedAppends(pieces: seq<seq<Byte>>, last: seq<Byte>)
    ensures Named(pieces + [last]) == Named(pieces) + if Counts(last) then [last] else []
    decreases |pieces|
  {
    if pieces == [] {
      assert pieces + [last] == [last] && [last][1..] == [];
    } else {
      assert (pieces + [last])[1..] == pieces[1..] + [last];
      NamedAppends(pieces[1..], last);
    }
  }

  lemma {:induction false} NamedIsNaming(pieces: seq<seq<Byte>>)
    ensures Named(pieces) == Naming(pieces)
    decreases |pieces|
  {
    if pieces != [] {
      var n := |pieces| - 1;
      NamedIsNaming(pieces[..n]);
      NamedAppends(pieces[..n], pieces[n]);
      assert pieces[..n] + [pieces[n]] == pieces;
    }
  }

  /** A path names what its pieces name: empty ones and single dots stand for nothing. */
  lemma PathsAreTheirParts(pieces: seq<seq<Byte>>)
    requires pieces != [] && forall i :: 0 <= i < |pieces| ==> SLASH !in pieces[i]
    ensures PartsOf(Joined(pieces)) == Naming(pieces)
  {
    PiecesAreRead(pieces);
    NamedIsNaming(pieces);
  }

  // ---- attributes ----

  datatype Attr = Attr(number: seq<Byte>, key: seq<Byte>, value: seq<Byte>)

  predicate Whole(a: Attr) {
    && a.number != [] && (forall i :: 0 <= i < |a.number| ==> '0' as int <= a.number[i] <= '9' as int)
    && a.key != [] && '=' as int !in a.key && '\n' as int !in a.key && '\n' as int !in a.value
  }

  function AttrLine(a: Attr): seq<Byte> {
    a.number + (Ascii(" ") + (a.key + (Ascii("=") + a.value)))
  }

  /** The records of pax attributes, each on a line. */
  function AttrText(attrs: seq<Attr>): seq<Byte> {
    if attrs == [] then [] else AttrLine(attrs[0]) + (Ascii("\n") + AttrText(attrs[1..]))
  }

  /** A path or a time, on one line. */
  predicate Supported(a: Attr) {
    a.key in {Ascii("path"), Ascii("mtime"), Ascii("atime"), Ascii("ctime")} && !HasLineEnd(a.value)
  }

  function LastPath(attrs: seq<Attr>, path: Option<seq<Byte>>): Option<seq<Byte>> {
    if attrs == [] then path
    else
      var last := attrs[|attrs| - 1];
      if last.key == Ascii("path") then Some(last.value) else LastPath(attrs[..|attrs| - 1], path)
  }

  lemma LineIsWhole(a: Attr)
    requires Whole(a)
    ensures NEWLINE !in AttrLine(a) && AttrLine(a) != []
    ensures Attribute(AttrLine(a)) == if HasLineEnd(a.value) then None else Some((a.key, a.value))
  {
    var value := Ascii("=") + a.value;
    var rest := a.key + value;
    LeadingNumber(a.number, Ascii(" ") + rest);
    assert AttrLine(a)[|a.number| + 1..] == rest;
    KeyEnds(a.key, value);
    assert rest[..|a.key|] == a.key && rest[|a.key| + 1..] == a.value;
  }

  lemma {:induction false} LineEnds(line: seq<Byte>, more: seq<Byte>)
    requires NEWLINE !in line
    ensures Split(line + (Ascii("\n") + more), NEWLINE) == [line] + Split(more, NEWLINE)
    decreases |line|
  {
    var text := line + (Ascii("\n") + more);
    if line == [] {
      assert text[1..] == more;
    } else {
      assert text[1..] == line[1..] + (Ascii("\n") + more) && [line[0]] + line[1..] == line;
      LineEnds(line[1..], more);
    }
  }

  lemma {:induction false} LastPathFirst(attrs: seq<Attr>, path: Option<seq<Byte>>)
    requires attrs != []
    ensures LastPath(attrs, path) == LastPath(attrs[1..], if attrs[0].key == Ascii("path") then Some(attrs[0].value) else path)
    decreases |attrs|
  {
    hide Ascii;
    var n := |attrs| - 1;
    if n > 0 {
      LastPathFirst(attrs[..n], path);
      assert attrs[..n][1..] == attrs[1..][..n - 1];
    }
  }

  lemma KeysAreAscii()
    ensures PATH_KEY == Ascii("path") && MTIME_KEY == Ascii("mtime") && ATIME_KEY == Ascii("atime") && CTIME_KEY == Ascii("ctime")
  {
  }

  /** Attributes are read if and only if each is a path or a time and on one line; the last path counts, and
      one given before counts when they have none. */
  lemma {:induction false} AttributesAreReadExactly(attrs: seq<Attr>, path: Option<seq<Byte>>)
    requires forall i :: 0 <= i < |attrs| ==> Whole(attrs[i])
    ensures
      Attributes(Split(AttrText(attrs), NEWLINE), path) ==
        if forall i :: 0 <= i < |attrs| ==> Supported(attrs[i]) then Some(LastPath(attrs, path)) else None
    decreases |attrs|
  {
    if attrs == [] {
      var last: seq<seq<Byte>> := [[]];
      assert last[1..] == [];
    } else {
      KeysAreAscii();
      AttributesStep(attrs, path);
      LastPathFirst(attrs, path);
      AttributesAreReadExactly(attrs[1..], if attrs[0].key == PATH_KEY then Some(attrs[0].value) else path);
      hide Ascii, HasLineEnd, Split, LastPath, AttrText, Whole, Attributes;
      assert (forall i :: 0 <= i < |attrs| ==> Supported(attrs[i]))
        <==> Supported(attrs[0]) && forall i :: 0 <= i < |attrs[1..]| ==> Supported(attrs[1..][i]) by {
        assert forall i :: 0 < i < |attrs| ==> attrs[i] == attrs[1..][i - 1];
      }
    }
  }

  lemma AttributesStep(attrs: seq<Attr>, path: Option<seq<Byte>>)
    requires attrs != [] && forall i :: 0 <= i < |attrs| ==> Whole(attrs[i])
    ensures
      var a, more := attrs[0], Split(AttrText(attrs[1..]), NEWLINE);
      Attributes(Split(AttrText(attrs), NEWLINE), path) ==
        if HasLineEnd(a.value) then None
        else if a.key == PATH_KEY then Attributes(more, Some(a.value))
        else if a.key in {MTIME_KEY, ATIME_KEY, CTIME_KEY} then Attributes(more, path) else None
  {
    hide Attributes, Attribute, HasLineEnd, Split, AttrLine;
    LineIsWhole(attrs[0]);
    LineEnds(AttrLine(attrs[0]), AttrText(attrs[1..]));
    AttributesNext(AttrLine(attrs[0]), Split(AttrText(attrs[1..]), NEWLINE), path);
  }

  lemma AttributesNext(line: seq<Byte>, more: seq<seq<Byte>>, path: Option<seq<Byte>>)
    requires line != []
    ensures
      Attributes([line] + more, path) == match Attribute(line)
        case None => None
        case Some((key, value)) =>
          if key == PATH_KEY then Attributes(more, Some(value))
          else if key in {MTIME_KEY, ATIME_KEY, CTIME_KEY} then Attributes(more, path) else None
  {
    hide Attribute;
    assert ([line] + more)[1..] == more;
  }

  /** Only such lines are read at all. */
  lemma AttributeIsWritten(line: seq<Byte>) returns (a: Attr)
    requires Attribute(line).Some?
    ensures line == AttrLine(a) && Attribute(line) == Some((a.key, a.value)) && !HasLineEnd(a.value)
    ensures a.number != [] && (forall i :: 0 <= i < |a.number| ==> '0' as int <= a.number[i] <= '9' as int)
    ensures a.key != [] && '=' as int !in a.key
  {
    hide HasLineEnd;
    var n := LeadingDigits(line);
    var rest := line[n + 1..];
    var k := IndexOf(rest, EQUALS);
    LeadingAreDigits(line);
    FirstIndex(rest, EQUALS);
    hide LeadingDigits, IndexOf;
    a := Attr(line[..n], rest[..k], rest[k + 1..]);
    InThree(rest, k);
    InThree(line, n);
    assert [EQUALS] == Ascii("=") && [SPACE] == Ascii(" ");
  }

  lemma InThree(s: seq<Byte>, i: nat)
    requires i < |s|
    ensures s == s[..i] + ([s[i]] + s[i + 1..])
  {
  }

  lemma {:induction false} LeadingAreDigits(s: seq<Byte>)
    ensures forall i :: 0 <= i < LeadingDigits(s) ==> 48 <= s[i] <= 57
    decreases |s|
  {
    if s != [] {
      LeadingAreDigits(s[1..]);
      assert forall i :: 0 < i < |s| ==> s[i] == s[1..][i - 1];
    }
  }

  lemma {:induction false} FirstIndex(s: seq<Byte>, b: Byte)
    ensures b !in s[..IndexOf(s, b)]
    decreases |s|
  {
    if s != [] && s[0] != b {
      FirstIndex(s[1..], b);
      assert s[..IndexOf(s, b)] == [s[0]] + s[1..][..IndexOf(s[1..], b)];
    }
  }

  // ---- text ----

  function Utf8Text(cs: seq<nat>): seq<Byte>
    requires forall i :: 0 <= i < |cs| ==> cs[i] < 0x11_0000
  {
    if cs == [] then [] else Encoded(cs[0]) + Utf8Text(cs[1..])
  }

  /** The length of a text in UTF-16: code points from U+10000 on count twice. */
  function Utf16Length(cs: seq<nat>): nat {
    if cs == [] then 0 else (if cs[0] < 0x1_0000 then 1 else 2) + Utf16Length(cs[1..])
  }

  lemma {:induction false} UnitsAreUtf16(cs: seq<nat>)
    requires forall i :: 0 <= i < |cs| ==> cs[i] < 0x11_0000
    ensures Units(Utf8Text(cs)) == Utf16Length(cs)
    decreases |cs|
  {
    if cs != [] {
      UnitsAreUtf16(cs[1..]);
      UnitsFirst(cs[0], Utf8Text(cs[1..]));
    }
  }

  lemma UnitsFirst(c: nat, more: seq<Byte>)
    requires c < 0x11_0000
    ensures Units(Encoded(c) + more) == (if c < 0x1_0000 then 1 else 2) + Units(more)
  {
    var s := Encoded(c) + more;
    assert s[1..] == Encoded(c)[1..] + more;
    if |Encoded(c)| > 1 {
      assert s[1..][1..] == Encoded(c)[2..] + more;
      UnitsContinue(s[1..], |Encoded(c)| - 1);
      assert s[1..][|Encoded(c)| - 1..] == more;
    } else {
      assert s[1..] == more;
    }
  }

  lemma {:induction false} UnitsContinue(s: seq<Byte>, n: nat)
    requires n <= |s| && forall i :: 0 <= i < n ==> 0x80 <= s[i] < 0xC0
    ensures Units(s) == Units(s[n..])
    decreases n
  {
    if n > 0 {
      UnitsContinue(s[1..], n - 1);
      assert s[1..][n - 1..] == s[n..];
    }
  }

  /** The code points that end a line for a pattern's dot, a line feed aside. */
  predicate EndsLine(c: nat) {
    c == 0x0D || c == 0x2028 || c == 0x2029
  }

  lemma ByteOfPoint(c: nat, i: nat)
    requires c < 0x11_0000 && i < |Encoded(c)|
    ensures Encoded(c)[i] == RETURN <==> c == 0x0D
    ensures Encoded(c)[i] == 226 ==> i == 0 && |Encoded(c)| == 3
  {
  }

  lemma SeparatorIsPoint(c: nat)
    requires c < 0x11_0000 && |Encoded(c)| == 3
    ensures SeparatorAt(Encoded(c), 0) <==> c == 0x2028 || c == 0x2029
  {
  }

  lemma SeparatorInPoint(c: nat, more: seq<Byte>, i: nat)
    requires c < 0x11_0000
    ensures i >= |Encoded(c)| ==> (SeparatorAt(Encoded(c) + more, i) <==> SeparatorAt(more, i - |Encoded(c)|))
    ensures i < |Encoded(c)| ==> (SeparatorAt(Encoded(c) + more, i) <==> i == 0 && (c == 0x2028 || c == 0x2029))
  {
    var s := Encoded(c) + more;
    if i < |Encoded(c)| {
      ByteOfPoint(c, i);
      if |Encoded(c)| == 3 && i == 0 {
        SeparatorIsPoint(c);
        assert s[0] == Encoded(c)[0] && s[1] == Encoded(c)[1] && s[2] == Encoded(c)[2];
      }
    }
  }

  lemma ReturnInPoint(c: nat, more: seq<Byte>)
    requires c < 0x11_0000
    ensures RETURN in Encoded(c) + more <==> c == 0x0D || RETURN in more
  {
    forall i | 0 <= i < |Encoded(c)| ensures Encoded(c)[i] == RETURN <==> c == 0x0D {
      ByteOfPoint(c, i);
    }
    assert Encoded(c)[0] in Encoded(c) && forall b :: b in Encoded(c) + more <==> b in Encoded(c) || b in more;
  }

  lemma LineEndInPoint(c: nat, more: seq<Byte>)
    requires c < 0x11_0000
    ensures HasLineEnd(Encoded(c) + more) <==> EndsLine(c) || HasLineEnd(more)
  {
    var s, n := Encoded(c) + more, |Encoded(c)|;
    ReturnInPoint(c, more);
    hide Encoded, SeparatorAt;
    forall i: nat
      ensures i >= n ==> (SeparatorAt(s, i) <==> SeparatorAt(more, i - n))
      ensures i < n ==> (SeparatorAt(s, i) <==> i == 0 && (c == 0x2028 || c == 0x2029))
    {
      SeparatorInPoint(c, more, i);
    }
    if exists i: nat :: i < |more| && SeparatorAt(more, i) {
      var i: nat :| i < |more| && SeparatorAt(more, i);
      assert i + n < |s| && SeparatorAt(s, i + n);
    }
    if c == 0x2028 || c == 0x2029 {
      PointHasBytes(c);
      assert SeparatorAt(s, 0);
    }
  }

  lemma PointHasBytes(c: nat)
    requires c < 0x11_0000
    ensures Encoded(c) != []
  {
  }

  /** A value goes past the end of a line if and only if its text has such a code point. */
  lemma {:induction false} LineEndsArePoints(cs: seq<nat>)
    requires forall i :: 0 <= i < |cs| ==> cs[i] < 0x11_0000
    ensures HasLineEnd(Utf8Text(cs)) <==> exists i :: 0 <= i < |cs| && EndsLine(cs[i])
    decreases |cs|
  {
    hide HasLineEnd, Encoded, EndsLine;
    if cs == [] {
      NothingEndsNoLine();
    } else {
      LineEndsArePoints(cs[1..]);
      LineEndInPoint(cs[0], Utf8Text(cs[1..]));
      assert forall i :: 0 < i < |cs| ==> cs[i] == cs[1..][i - 1];
      if exists i :: 0 <= i < |cs[1..]| && EndsLine(cs[1..][i]) {
        var i :| 0 <= i < |cs[1..]| && EndsLine(cs[1..][i]);
        assert EndsLine(cs[i + 1]);
      }
    }
  }

  lemma NothingEndsNoLine()
    ensures !HasLineEnd([])
  {
  }

  // ---- whole archives ----

  /** A member and what gives it its path, whatever that is. */
  predicate Given(item: Item) {
    && Fits(item.member) && item.member.kind in {FolderKind, FileKind, OldFileKind} && HeadingFits(item.heading, item.path, item.member)
  }

  ghost predicate AllGiven(items: seq<Item>) {
    forall i :: 0 <= i < |items| ==> Given(items[i])
  }

  /** Item `k` is safe, names something if it is a file, and names nothing that came before. */
  ghost predicate Takeable(items: seq<Item>, k: nat)
    requires k < |items|
  {
    && !Unsafe(items[k].path) && (PartsOfItem(items[k]) == [] ==> IsFolderItem(items[k]))
    && forall j :: 0 <= j < k && PartsOfItem(items[j]) != [] ==> PartsOfItem(items[j]) != PartsOfItem(items[k])
  }

  ghost predicate AllTakeable(items: seq<Item>, n: nat)
    requires n <= |items|
  {
    forall k :: 0 <= k < n ==> Takeable(items, k)
  }

  lemma TakeableIsWritable(items: seq<Item>, n: nat)
    requires AllGiven(items) && n <= |items| && AllTakeable(items, n)
    ensures AllWritable(items[..n]) && Distinct(items[..n])
  {
    hide PartsOf, IsSafe, Unsafe, Fits, HeadingFits;
    forall k | 0 <= k < n ensures Writable(items[..n][k]) {
      assert Takeable(items, k) && Given(items[k]);
      SafeExactly(items[k].path);
    }
    forall i, j | 0 <= i < j < n && PartsOfItem(items[i]) != [] ensures PartsOfItem(items[i]) != PartsOfItem(items[j]) {
      assert Takeable(items, j);
    }
  }

  lemma {:induction false} ItemsAreTaken(items: seq<Item>, n: nat, rest: seq<Member>)
    requires AllGiven(items) && n <= |items| && AllTakeable(items, n)
    ensures TakeAll(AllMembers(items[..n]) + rest, START) == TakeAll(rest, StateOf(items[..n]))
    decreases n
  {
    hide Given, Takeable, TakeAll, MembersOf, StateOf, AllWritable, Distinct;
    if n == 0 {
      EmptyStart();
      assert items[..0] == [] && [] + rest == rest;
    } else {
      var last := MembersOf(items[n - 1]);
      ItemsAreTaken(items, n - 1, last + rest);
      TakeableIsWritable(items, n);
      NextIsTaken(items[..n], n - 1, rest);
      MembersNext(items, n - 1);
      assert items[..n][..n - 1] == items[..n - 1] && items[..n][..n] == items[..n];
      assert AllMembers(items[..n]) + rest == AllMembers(items[..n - 1]) + (last + rest);
    }
  }

  /** An item that is not takeable ends the reading. */
  lemma BadItemIsRefused(items: seq<Item>, k: nat, rest: seq<Member>)
    requires AllGiven(items) && k < |items| && AllTakeable(items, k) && !Takeable(items, k)
    ensures TakeAll(MembersOf(items[k]) + rest, StateOf(items[..k])) == None
  {
    hide TakeMember, TakeAll, Takeable, StateOf, Fits, PathOf;
    var item, s := items[k], StateOf(items[..k]);
    StateHasNoHeading(items[..k]);
    assert Given(items[k]);
    var m := item.member;
    if item.heading.NoHeading? {
      BadMemberIsRefused(items, k, s.(count := s.count + 1));
      TakeNext(m, rest, s);
      OnlyMember(item);
    } else {
      var header := item.heading.header;
      var headed := s.(count := s.count + 1, extended := Some(item.path));
      HeadingLeads(item, header, s.(count := s.count + 1));
      BadMemberIsRefused(items, k, headed.(count := s.count + 2));
      assert MembersOf(item) + rest == [header] + ([m] + rest);
      TakeNext(header, [m] + rest, s);
      TakeNext(m, rest, headed);
    }
  }

  lemma OnlyMember(item: Item)
    requires item.heading.NoHeading?
    ensures MembersOf(item) == [item.member]
  {
  }

  lemma StateHasNoHeading(items: seq<Item>)
    ensures StateOf(items).extended == None && StateOf(items).seen == SeenOf(items)
  {
  }

  lemma HeadingLeads(item: Item, header: Member, s: State)
    requires Given(item) && s.extended == None && MembersOf(item) == [header, item.member]
    ensures TakeMember(header, s) == Some(s.(extended := Some(item.path)))
  {
    hide Attributes, Split, UpToNul, Fits, PartsOf, PathRecord, HasLineEnd;
    match item.heading
    case NoHeading =>
    case Pax(number, h) => AttributesAreRead(number, item.path, s.extended);
    case LongName(h) => UpToNulOfPlain(item.path, [0]);
  }

  lemma BadMemberIsRefused(items: seq<Item>, k: nat, s: State)
    requires k < |items| && Given(items[k]) && !Takeable(items, k) && s.seen == SeenOf(items[..k])
    requires s.extended == Some(items[k].path) || (s.extended == None && items[k].path == PathOf(items[k].member))
    ensures TakeMember(items[k].member, s) == None
  {
    hide PartsOf, IsSafe, Unsafe, Fits, HeadingFits, PathOf, Executable;
    SafeExactly(items[k].path);
    if !Unsafe(items[k].path) && !(PartsOfItem(items[k]) == [] ==> IsFolderItem(items[k])) {
    } else if !Unsafe(items[k].path) {
      var j :| 0 <= j < k && PartsOfItem(items[j]) != [] && PartsOfItem(items[j]) == PartsOfItem(items[k]);
      assert items[..k][j] == items[j];
    }
  }

  /** No file is where another item is, or hangs on it. */
  ghost predicate Apart(items: seq<Item>) {
    forall i, j :: 0 <= i < |items| && 0 <= j < |items| && i != j && !IsFolderItem(items[i]) ==>
      !(PartsOfItem(items[i]) <= PartsOfItem(items[j]))
  }

  lemma {:induction false} PrefixIsAncestor(p: Path, q: Path)
    ensures q in Ancestors(p) <==> q <= p
    decreases |p|
  {
    if p != [] {
      var above := p[..|p| - 1];
      PrefixIsAncestor(above, q);
      if |q| <= |above| {
        assert p[..|q|] == above[..|q|];
        assert q <= p <==> q == p[..|q|];
      } else {
        assert p[..|p|] == p && (q <= p <==> q == p);
      }
    }
  }

  lemma {:induction false} FolderComesFrom(items: seq<Item>, n: nat, p: Path)
    requires n <= |items| && p in FoldersOf(items[..n]) && p != []
    ensures exists k :: 0 <= k < n && p in Ancestors(HangsOn(items[k]))
    decreases n
  {
    hide HangsOn, Ancestors;
    if n > 0 {
      FoldersNext(items, n - 1);
      if p in FoldersOf(items[..n - 1]) {
        FolderComesFrom(items, n - 1, p);
      }
    }
  }

  lemma {:induction false} FileComesFrom(items: seq<Item>, n: nat, f: FileEntry)
    requires n <= |items| && f in FilesOf(items[..n])
    ensures exists k :: 0 <= k < n && !IsFolderItem(items[k]) && f == FileOf(items[k])
    decreases n
  {
    hide FileOf, IsFolderItem;
    if n > 0 {
      FilesNext(items, n - 1);
      if f in FilesOf(items[..n - 1]) {
        FileComesFrom(items, n - 1, f);
      }
    }
  }

  lemma {:induction false} FileIsListed(items: seq<Item>, n: nat, k: nat)
    requires k < n <= |items| && !IsFolderItem(items[k])
    ensures FileOf(items[k]) in FilesOf(items[..n])
    decreases n
  {
    hide FileOf;
    FilesNext(items, n - 1);
    if k < n - 1 {
      FileIsListed(items, n - 1, k);
    }
  }

  lemma FilesHangHigher(items: seq<Item>, i: nat)
    requires i < |items| && !IsFolderItem(items[i]) && Takeable(items, i)
    ensures PartsOfItem(items[i]) != [] && PartsOfItem(items[i]) !in Ancestors(HangsOn(items[i]))
  {
    hide Unsafe, PartsOf;
    PrefixIsAncestor(HangsOn(items[i]), PartsOfItem(items[i]));
  }

  /** Once everything is taken, the archive is whole if and only if its files are apart. */
  lemma WholeIfApart(items: seq<Item>)
    requires items != [] && AllTakeable(items, |items|)
    ensures Complete(StateOf(items)) <==> Apart(items)
  {
    hide FilesOf, FoldersOf, AllMembers, Takeable, Ancestors, HangsOn, IsFolderItem, PartsOfItem;
    SomeMember(items);
    assert items[..|items|] == items;
    if Apart(items) {
      forall n | 0 <= n < |FilesOf(items)| ensures FilesOf(items)[n].path !in FoldersOf(items) {
        FileComesFrom(items, |items|, FilesOf(items)[n]);
        var i :| 0 <= i < |items| && !IsFolderItem(items[i]) && FilesOf(items)[n] == FileOf(items[i]);
        FileIsNoFolder(items, i);
      }
    } else {
      var i, j :| 0 <= i < |items| && 0 <= j < |items| && i != j
        && !IsFolderItem(items[i]) && PartsOfItem(items[i]) <= PartsOfItem(items[j]);
      FileIsListed(items, |items|, i);
      FoldersAreThere(items, |items|, j);
      ConflictHangs(items, i, j);
      assert FileOf(items[i]).path in FoldersOf(items);
    }
  }

  lemma FileIsNoFolder(items: seq<Item>, i: nat)
    requires AllTakeable(items, |items|) && Apart(items) && i < |items| && !IsFolderItem(items[i])
    ensures PartsOfItem(items[i]) !in FoldersOf(items)
  {
    hide FoldersOf, Takeable, Ancestors, HangsOn, IsFolderItem, PartsOfItem;
    assert items[..|items|] == items;
    FilesHangHigher(items, i);
    forall k | 0 <= k < |items| ensures PartsOfItem(items[i]) !in Ancestors(HangsOn(items[k])) {
      if k != i && PartsOfItem(items[i]) in Ancestors(HangsOn(items[k])) {
        HangingIsBelow(items[k], PartsOfItem(items[i]));
      }
    }
    if PartsOfItem(items[i]) in FoldersOf(items) {
      FolderComesFrom(items, |items|, PartsOfItem(items[i]));
    }
  }

  lemma HangingIsBelow(item: Item, p: Path)
    requires p in Ancestors(HangsOn(item))
    ensures p <= PartsOfItem(item)
  {
    hide PartsOfItem;
    PrefixIsAncestor(HangsOn(item), p);
  }

  lemma ConflictHangs(items: seq<Item>, i: nat, j: nat)
    requires i < |items| && j < |items| && i != j && !IsFolderItem(items[i]) && AllTakeable(items, |items|)
    requires PartsOfItem(items[i]) <= PartsOfItem(items[j])
    ensures PartsOfItem(items[i]) in Ancestors(HangsOn(items[j]))
  {
    hide PartsOf, Unsafe;
    assert Takeable(items, i) && Takeable(items, j);
    PrefixIsAncestor(HangsOn(items[j]), PartsOfItem(items[i]));
  }

  lemma {:induction false} GivenMembersFit(items: seq<Item>)
    requires AllGiven(items)
    ensures forall k :: 0 <= k < |AllMembers(items)| ==> Fits(AllMembers(items)[k])
    decreases |items|
  {
    hide Fits;
    if items != [] {
      GivenMembersFit(items[..|items| - 1]);
      assert Given(items[|items| - 1]);
    }
  }

  /** One member more than the limit, and the archive is refused. */
  lemma {:induction false} TooManyAreRefused(ms: seq<Member>, before: seq<Byte>, s: State)
    requires (forall i :: 0 <= i < |ms| ==> Fits(ms[i])) && s.count <= MAX_ENTRIES < s.count + |ms|
    ensures ReadFrom(before + Archive(ms), |before|, s) == None
    decreases |ms|
  {
    hide Header, TakeMember, TakeEntry, Fits, ReadFrom, Checksum, Octal, Field, Archive;
    var m := ms[0];
    MemberAt(ms, before);
    HeaderChecksum(m);
    HeaderSize(m);
    HeaderKind(m);
    if s.count == MAX_ENTRIES {
      FullIsRefused(before + Archive(ms), |before|, s, m);
    } else {
      var s1 := s.(count := s.count + 1);
      MemberIsTaken(m, s1);
      HeaderIsRead(before + Archive(ms), |before|, s, m);
      var next := TakeMember(m, s1);
      if next.Some? {
        CountStays(m, s1);
        TooManyAreRefused(ms[1..], before + Block(m), next.value);
      }
    }
  }

  lemma FullIsRefused(bytes: seq<Byte>, o: nat, s: State, m: Member)
    requires Fits(m) && o + 512 <= |bytes| && s.count == MAX_ENTRIES && bytes[o..o + 512] == Header(m)
    requires Octal(Field(Header(m), 124, 12)) == Some(|m.content|) && Header(m)[148] != 0
    ensures ReadFrom(bytes, o, s) == None
  {
    hide Header, TakeEntry, Fits, Checksum, Octal, Field;
  }

  /** What an archive must be: not empty, not too long, each item safe and new, and its files apart. */
  ghost predicate Acceptable(items: seq<Item>) {
    items != [] && |AllMembers(items)| <= 50_000 && AllTakeable(items, |items|) && Apart(items)
  }

  /** A written archive is accepted if and only if it is that. */
  lemma ArchivesAreJudgedExactly(items: seq<Item>)
    requires AllGiven(items)
    ensures forall k :: 0 <= k < |AllMembers(items)| ==> Fits(AllMembers(items)[k])
    ensures Accept(Archive(AllMembers(items))).Some? <==> Acceptable(items)
  {
    hide ReadFrom, Archive, AllMembers, Fits, StateOf, TakeAll, Complete, AllGiven, AllTakeable, Apart, MembersOf;
    var ms := AllMembers(items);
    GivenMembersFit(items);
    assert [] + Archive(ms) == Archive(ms);
    if |ms| > MAX_ENTRIES {
      TooManyAreRefused(ms, [], START);
    } else {
      ArchiveIsRead(ms, [], START);
      if items == [] {
        NothingIsRefused();
      } else if AllTakeable(items, |items|) {
        ItemsAreTaken(items, |items|, []);
        assert items[..|items|] == items && ms + [] == ms;
        NoneLeft(StateOf(items));
        WholeIfApart(items);
      } else {
        FirstBadItem(items);
      }
    }
  }

  lemma NoneLeft(s: State)
    ensures TakeAll([], s) == Some(s)
  {
  }

  lemma NothingIsRefused()
    ensures TakeAll(AllMembers([]), START) == Some(START) && !Complete(START)
  {
  }

  lemma FirstBadItem(items: seq<Item>)
    requires AllGiven(items) && !AllTakeable(items, |items|)
    ensures TakeAll(AllMembers(items), START) == None
  {
    hide TakeAll, Takeable, Given, StateOf, MembersOf, AllMembers;
    var k := FirstBad(items, |items|);
    var rest := AllMembers(items[k + 1..]);
    ItemsAreTaken(items, k, MembersOf(items[k]) + rest);
    BadItemIsRefused(items, k, rest);
    MembersInTwo(items, k);
    MembersSplit(items, k);
  }

  lemma FirstBad(items: seq<Item>, n: nat) returns (k: nat)
    requires n <= |items| && !AllTakeable(items, n)
    ensures k < n && AllTakeable(items, k) && !Takeable(items, k)
  {
    hide Takeable;
    k := 0;
    while Takeable(items, k)
      invariant k < n && AllTakeable(items, k)
      decreases n - k
    {
      k := k + 1;
      assert k < n by {
        assert AllTakeable(items, k);
      }
    }
  }

  lemma {:induction false} MembersSplit(items: seq<Item>, k: nat)
    requires k <= |items|
    ensures AllMembers(items) == AllMembers(items[..k]) + AllMembers(items[k..])
    decreases k
  {
    hide MembersOf;
    if k == 0 {
      assert items[0..] == items && items[..0] == [];
    } else {
      hide AllMembers;
      MembersSplit(items, k - 1);
      MembersInTwo(items, k - 1);
      MembersNext(items, k - 1);
      MembersRegroup(AllMembers(items[..k - 1]), MembersOf(items[k - 1]), AllMembers(items[k..]));
    }
  }

  lemma MembersRegroup(a: seq<Member>, b: seq<Member>, c: seq<Member>)
    ensures a + (b + c) == (a + b) + c
  {
  }
}
