/** Release archives: what the extractor reads of a tar file, and what it accepts. */
module TarFormat {
  import Utf8
  import opened Wrappers

  type Byte = Utf8.Byte

  /** The parts of a path; the root has none. */
  type Path = seq<seq<Byte>>

  datatype FileEntry = FileEntry(path: Path, content: seq<Byte>, executable: bool)

  datatype State = State(
    count: nat, seen: set<Path>, directories: set<Path>, files: seq<FileEntry>, extended: Option<seq<Byte>>)

  const START := State(0, {}, {[]}, [], None)

  const MAX_ENTRIES := 50_000
  const MAX_ATTRIBUTES := 16_384

  const SPACE: Byte := 32
  const DOT: Byte := 46
  const SLASH: Byte := 47
  const COLON: Byte := 58
  const EQUALS: Byte := 61
  const BACKSLASH: Byte := 92
  const NEWLINE: Byte := 10
  const RETURN: Byte := 13

  // ---- fields of a header ----

  function UpToNul(s: seq<Byte>): seq<Byte> {
    if s == [] || s[0] == 0 then [] else [s[0]] + UpToNul(s[1..])
  }

  function Field(h: seq<Byte>, offset: nat, length: nat): seq<Byte>
    requires offset + length <= |h|
  {
    UpToNul(h[offset..offset + length])
  }

  function SkipSpaces(s: seq<Byte>): seq<Byte> {
    if s != [] && s[0] == SPACE then SkipSpaces(s[1..]) else s
  }

  /** Octal digits up to the first other character. */
  function Digits(s: seq<Byte>, sum: nat := 0): nat {
    if s == [] || !(48 <= s[0] <= 55) then sum else Digits(s[1..], 8 * sum + s[0] - 48)
  }

  function Octal(s: seq<Byte>): Option<nat> {
    if forall i :: 0 <= i < |s| ==> 48 <= s[i] <= 55 || s[i] == SPACE then Some(Digits(SkipSpaces(s))) else None
  }

  function Sum(s: seq<Byte>): nat {
    if s == [] then 0 else Sum(s[..|s| - 1]) + s[|s| - 1]
  }

  /** All bytes of the header, its own checksum counted as spaces. */
  function Checksum(h: seq<Byte>): nat
    requires |h| == 512
  {
    Sum(h[..148]) + 8 * SPACE + Sum(h[156..])
  }

  // ---- paths ----

  /** The pieces between separators; one more than there are separators. */
  function Split(s: seq<Byte>, separator: Byte): (pieces: seq<seq<Byte>>)
    ensures pieces != [] && forall i :: 0 <= i < |pieces| ==> separator !in pieces[i]
  {
    if s == [] then [[]]
    else
      var rest := Split(s[1..], separator);
      if s[0] == separator then [[]] + rest else [[s[0]] + rest[0]] + rest[1..]
  }

  predicate Counts(part: seq<Byte>) {
    part != [] && part != [DOT]
  }

  function Named(parts: Path): (r: Path)
    ensures forall i :: 0 <= i < |r| ==> r[i] in parts && Counts(r[i])
  {
    if parts == [] then []
    else (if Counts(parts[0]) then [parts[0]] else []) + Named(parts[1..])
  }

  function PartsOf(path: seq<Byte>): Path {
    Named(Split(path, SLASH))
  }

  predicate IsLetter(b: Byte) {
    65 <= b <= 90 || 97 <= b <= 122
  }

  predicate IsSafe(path: seq<Byte>) {
    && !(path != [] && path[0] == SLASH) && BACKSLASH !in path && 0 !in path
    && [DOT, DOT] !in Split(path, SLASH)
    && !(|path| >= 2 && IsLetter(path[0]) && path[1] == COLON)
  }

  // ---- extended attributes ----

  function LeadingDigits(s: seq<Byte>): (n: nat)
    ensures n <= |s|
  {
    if s == [] || !(48 <= s[0] <= 57) then 0 else 1 + LeadingDigits(s[1..])
  }

  function IndexOf(s: seq<Byte>, b: Byte): (k: nat)
    ensures k <= |s| && (k < |s| ==> s[k] == b)
  {
    if s == [] || s[0] == b then 0 else 1 + IndexOf(s[1..], b)
  }

  /** The length of the decoded text in UTF-16 units: two where UTF-8 takes four bytes. */
  function Units(s: seq<Byte>): nat {
    if s == [] then 0
    else (if s[0] < 0x80 || 0xC0 <= s[0] < 0xF0 then 1 else if s[0] < 0xC0 then 0 else 2) + Units(s[1..])
  }

  predicate SeparatorAt(s: seq<Byte>, i: nat) {
    i + 3 <= |s| && s[i] == 226 && s[i + 1] == 128 && (s[i + 2] == 168 || s[i + 2] == 169)
  }

  /** A carriage return, or one of the separators U+2028 and U+2029: no value goes past it. */
  predicate HasLineEnd(s: seq<Byte>) {
    RETURN in s || exists i: nat :: i < |s| && SeparatorAt(s, i)
  }

  /** A line `length key=value`. */
  function Attribute(line: seq<Byte>): Option<(seq<Byte>, seq<Byte>)> {
    var n := LeadingDigits(line);
    if n == 0 || n == |line| || line[n] != SPACE then None
    else
      var rest := line[n + 1..];
      var k := IndexOf(rest, EQUALS);
      if k == 0 || k == |rest| || HasLineEnd(rest[k + 1..]) then None else Some((rest[..k], rest[k + 1..]))
  }

  const PATH_KEY: seq<Byte> := [112, 97, 116, 104]
  const MTIME_KEY: seq<Byte> := [109, 116, 105, 109, 101]
  const ATIME_KEY: seq<Byte> := [97, 116, 105, 109, 101]
  const CTIME_KEY: seq<Byte> := [99, 116, 105, 109, 101]

  /** The path the attributes give, if any; the last one wins. */
  function Attributes(lines: seq<seq<Byte>>, path: Option<seq<Byte>>): Option<Option<seq<Byte>>>
    decreases |lines|
  {
    if lines == [] then Some(path)
    else if lines[0] == [] then Attributes(lines[1..], path)
    else
      match Attribute(lines[0])
      case None => None
      case Some((key, value)) =>
        if key == PATH_KEY then Attributes(lines[1..], Some(value))
        else if key == MTIME_KEY || key == ATIME_KEY || key == CTIME_KEY then Attributes(lines[1..], path)
        else None
  }

  // ---- entries ----

  /** A path and everything it hangs on. */
  function Ancestors(p: Path): (r: set<Path>)
    ensures p in r
  {
    if p == [] then {[]} else Ancestors(p[..|p| - 1]) + {p}
  }

  lemma {:induction false} AncestorsArePrefixes(p: Path, q: Path)
    requires q in Ancestors(p)
    ensures |q| <= |p| && q == p[..|q|] && (q != [] ==> q[..|q| - 1] in Ancestors(p))
    decreases |p|
  {
    if q != p {
      AncestorsArePrefixes(p[..|p| - 1], q);
    }
  }

  const X_TYPE: seq<Byte> := [120]
  const L_TYPE: seq<Byte> := [76]
  const DIRECTORY_TYPE: seq<Byte> := [53]
  const FILE_TYPE: seq<Byte> := [48]

  predicate Executable(mode: nat) {
    mode % 2 == 1 || mode / 8 % 2 == 1 || mode / 64 % 2 == 1
  }

  /** The last three octal digits of a mode are for its owner, its group and everyone else; a file is
      executable when one of them may execute it. */
  lemma ExecutableBits(high: nat, owner: nat, group: nat, others: nat)
    requires owner < 8 && group < 8 && others < 8
    ensures Executable(512 * high + 64 * owner + 8 * group + others) <==>
      owner in {1, 3, 5, 7} || group in {1, 3, 5, 7} || others in {1, 3, 5, 7}
  {
    var mode := 512 * high + 64 * owner + 8 * group + others;
    By8(64 * high + 8 * owner + group, others);
    By64(8 * high + owner, 8 * group + others);
    LastBit(256 * high + 32 * owner + 4 * group, others);
    LastBit(32 * high + 4 * owner, group);
    LastBit(4 * high, owner);
  }

  lemma By8(q: nat, r: nat)
    requires r < 8
    ensures (8 * q + r) / 8 == q
  {
  }

  lemma By64(q: nat, r: nat)
    requires r < 64
    ensures (64 * q + r) / 64 == q
  {
  }

  lemma LastBit(half: nat, d: nat)
    requires d < 8
    ensures (2 * half + d) % 2 == 1 <==> d in {1, 3, 5, 7}
  {
    OddDigit(d);
  }

  lemma OddDigit(d: nat)
    requires d < 8
    ensures d % 2 == 1 <==> d in {1, 3, 5, 7}
  {
  }

  function HeaderPath(h: seq<Byte>): seq<Byte>
    requires |h| == 512
  {
    var prefix := Field(h, 345, 155);
    (if prefix == [] then [] else prefix + [SLASH]) + Field(h, 0, 100)
  }

  function TakeEntry(h: seq<Byte>, content: seq<Byte>, s: State): Option<State>
    requires |h| == 512
  {
    var kind := Field(h, 156, 1);
    if kind == X_TYPE then
      if Units(content) >= MAX_ATTRIBUTES then None
      else
        match Attributes(Split(content, NEWLINE), s.extended)
        case None => None
        case Some(path) => Some(s.(extended := path))
    else if kind == L_TYPE then Some(s.(extended := Some(UpToNul(content))))
    else
      TakePath(if s.extended.Some? then s.extended.value else HeaderPath(h), kind, Octal(Field(h, 100, 8)), content, s.(extended := None))
  }

  function TakePath(path: seq<Byte>, kind: seq<Byte>, mode: Option<nat>, content: seq<Byte>, s: State): Option<State> {
    var p := PartsOf(path);
    if !IsSafe(path) then None
    else if p == [] then (if kind == DIRECTORY_TYPE then Some(s) else None)
    else if p in s.seen || (kind != FILE_TYPE && kind != [] && kind != DIRECTORY_TYPE) then None
    else
      var s' := s.(seen := s.seen + {p}, directories := s.directories + Ancestors(if kind == DIRECTORY_TYPE then p else p[..|p| - 1]));
      if kind == DIRECTORY_TYPE then Some(s')
      else if mode.None? then None
      else Some(s'.(files := s'.files + [FileEntry(p, content, Executable(mode.value))]))
  }

  function Blocks(size: nat): nat {
    (size + 511) / 512 * 512
  }

  /** Header after header, up to the first empty one or the end. */
  function ReadFrom(bytes: seq<Byte>, offset: nat, s: State): Option<State>
    decreases |bytes| - offset
  {
    if offset + 512 > |bytes| then Some(s)
    else
      var h := bytes[offset..offset + 512];
      if forall i :: 0 <= i < 512 ==> h[i] == 0 then Some(s)
      else
        var size := Octal(Field(h, 124, 12));
        if Octal(Field(h, 148, 8)) != Some(Checksum(h)) || size.None? then None
        else if offset + 512 + size.value > |bytes| || s.count + 1 > MAX_ENTRIES then None
        else
          match TakeEntry(h, bytes[offset + 512..offset + 512 + size.value], s.(count := s.count + 1))
          case None => None
          case Some(s') => ReadFrom(bytes, offset + 512 + Blocks(size.value), s')
  }

  predicate Complete(s: State) {
    && s.count > 0 && (s.extended == None || s.extended == Some([]))
    && forall i :: 0 <= i < |s.files| ==> s.files[i].path !in s.directories
  }

  /** What an archive is read as, if it is accepted. */
  function Accept(bytes: seq<Byte>): Option<State> {
    var s := ReadFrom(bytes, 0, START);
    if s.Some? && Complete(s.value) then s else None
  }

  // ---- every accepted archive is a tree ----

  ghost predicate Closed(directories: set<Path>) {
    [] in directories && forall d :: d in directories && d != [] ==> d[..|d| - 1] in directories
  }

  /** What every step of reading keeps. */
  ghost predicate Shaped(s: State) {
    && Closed(s.directories)
    && (forall i :: 0 <= i < |s.files| ==> FileShaped(s, s.files[i]))
    && (forall i, j :: 0 <= i < j < |s.files| ==> s.files[i].path != s.files[j].path)
    && (forall p :: p in s.seen || p in s.directories ==> AllPlain(p))
  }

  ghost predicate FileShaped(s: State, f: FileEntry) {
    f.path != [] && f.path[..|f.path| - 1] in s.directories && f.path in s.seen
  }

  /** No part leaves the destination or is anything but a name. */
  predicate PartIsPlain(part: seq<Byte>) {
    Counts(part) && part != [DOT, DOT] && SLASH !in part
  }

  lemma PartsArePlain(path: seq<Byte>)
    requires IsSafe(path)
    ensures forall i :: 0 <= i < |PartsOf(path)| ==> PartIsPlain(PartsOf(path)[i])
  {
  }

  lemma ClosedGrows(directories: set<Path>, p: Path)
    requires Closed(directories)
    ensures Closed(directories + Ancestors(p)) && p in directories + Ancestors(p)
  {
  }

  ghost predicate AllPlain(p: Path) {
    forall i :: 0 <= i < |p| ==> PartIsPlain(p[i])
  }

  lemma AncestorsArePlain(p: Path)
    requires AllPlain(p)
    ensures forall q :: q in Ancestors(p) ==> AllPlain(q)
  {
  }

  lemma TakePathKeepsShape(path: seq<Byte>, kind: seq<Byte>, mode: Option<nat>, content: seq<Byte>, s: State)
    requires Shaped(s) && TakePath(path, kind, mode, content, s).Some?
    ensures Shaped(TakePath(path, kind, mode, content, s).value)
  {
    PartsArePlain(path);
    hide Shaped, PartIsPlain, IsSafe, PartsOf, Ancestors;
    var p := PartsOf(path);
    if p != [] {
      NewNameKeepsShape(s, p, if kind == DIRECTORY_TYPE then p else p[..|p| - 1]);
      if kind != DIRECTORY_TYPE {
        NewFileKeepsShape(s, p, FileEntry(p, content, Executable(mode.value)));
      }
    }
  }

  function WithName(s: State, p: Path, d: Path): State {
    s.(seen := s.seen + {p}, directories := s.directories + Ancestors(d))
  }

  lemma NewNameKeepsShape(s: State, p: Path, d: Path)
    requires Shaped(s) && AllPlain(p) && (d == p || (p != [] && d == p[..|p| - 1]))
    ensures Shaped(WithName(s, p, d))
  {
    AncestorsArePlain(d);
    ClosedGrows(s.directories, d);
    hide Closed, AllPlain, Ancestors;
  }

  lemma NewFileKeepsShape(s: State, p: Path, f: FileEntry)
    requires p != [] && Shaped(s) && Shaped(WithName(s, p, p[..|p| - 1])) && p !in s.seen && f.path == p
    ensures var s' := WithName(s, p, p[..|p| - 1]); Shaped(s'.(files := s'.files + [f]))
  {
  }

  lemma TakeEntryKeepsShape(h: seq<Byte>, content: seq<Byte>, s: State)
    requires |h| == 512 && Shaped(s) && TakeEntry(h, content, s).Some?
    ensures Shaped(TakeEntry(h, content, s).value)
  {
    hide TakePath, PartIsPlain, Closed;
    var kind := Field(h, 156, 1);
    if kind != X_TYPE && kind != L_TYPE {
      var path := if s.extended.Some? then s.extended.value else HeaderPath(h);
      TakePathKeepsShape(path, kind, Octal(Field(h, 100, 8)), content, s.(extended := None));
    }
  }

  lemma {:induction false} ReadingKeepsShape(bytes: seq<Byte>, offset: nat, s: State)
    requires Shaped(s) && ReadFrom(bytes, offset, s).Some?
    ensures Shaped(ReadFrom(bytes, offset, s).value)
    decreases |bytes| - offset
  {
    hide TakeEntry, PartIsPlain, Closed, Octal, Checksum, Field;
    if offset + 512 <= |bytes| {
      var h := bytes[offset..offset + 512];
      if !(forall i :: 0 <= i < 512 ==> h[i] == 0) {
        var size := Octal(Field(h, 124, 12)).value;
        var content := bytes[offset + 512..offset + 512 + size];
        TakeEntryKeepsShape(h, content, s.(count := s.count + 1));
        ReadingKeepsShape(bytes, offset + 512 + Blocks(size), TakeEntry(h, content, s.(count := s.count + 1)).value);
      }
    }
  }

  /** No file is a directory, hangs on a file, or is another file. */
  ghost predicate NoConflict(s: State) {
    && (forall i, q :: 0 <= i < |s.files| && q in s.directories ==> !(s.files[i].path <= q))
    && (forall i, j :: 0 <= i < |s.files| && 0 <= j < |s.files| && i != j ==> !(s.files[i].path <= s.files[j].path))
  }

  /** Of every accepted archive: directories hang together, files are in them, and nothing conflicts. */
  lemma AcceptedIsATree(bytes: seq<Byte>)
    requires Accept(bytes).Some?
    ensures Shaped(Accept(bytes).value) && NoConflict(Accept(bytes).value)
  {
    assert Shaped(START);
    ReadingKeepsShape(bytes, 0, START);
    CompleteHasNoConflict(Accept(bytes).value);
  }

  lemma CompleteHasNoConflict(s: State)
    requires Shaped(s) && Complete(s)
    ensures NoConflict(s)
  {
    hide Closed, AllPlain;
    forall i, q | 0 <= i < |s.files| && q in s.directories ensures !(s.files[i].path <= q) {
      NoFileBefore(s, s.files[i].path, q);
    }
    forall i, j | 0 <= i < |s.files| && 0 <= j < |s.files| && i != j ensures !(s.files[i].path <= s.files[j].path) {
      assert FileShaped(s, s.files[j]);
      var f, g := s.files[i].path, s.files[j].path;
      NoFileBefore(s, f, g[..|g| - 1]);
      PrefixOfParent(f, g);
    }
  }

  lemma PrefixOfParent(f: Path, g: Path)
    requires g != []
    ensures f <= g ==> f == g || f <= g[..|g| - 1]
  {
  }

  lemma NoFileBefore(s: State, f: Path, q: Path)
    requires Closed(s.directories) && q in s.directories && f !in s.directories
    ensures !(f <= q)
  {
    if f <= q {
      assert q[..|f|] == f;
      PrefixInClosed(s.directories, q, |f|);
    }
  }

  lemma {:induction false} PrefixInClosed(directories: set<Path>, q: Path, k: nat)
    requires Closed(directories) && q in directories && k <= |q|
    ensures q[..k] in directories
    decreases |q|
  {
    if k < |q| {
      PrefixInClosed(directories, q[..|q| - 1], k);
      assert q[..|q| - 1][..k] == q[..k];
    } else {
      assert q[..k] == q;
    }
  }
}
