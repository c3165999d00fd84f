/** Archives written in ustar form are extracted back to the tree they were written from. */
module TarArchive {
  import opened TarFormat
  import opened TarExtract
  import opened Wrappers

  // ---- writing ----

  function Zeros(n: nat): seq<Byte> {
    seq(n, _ => 0)
  }

  function Padded(s: seq<Byte>, n: nat): (r: seq<Byte>)
    requires |s| <= n
    ensures |r| == n
  {
    s + Zeros(n - |s|)
  }

  /** `k` octal digits. */
  function OctalText(v: nat, k: nat): (r: seq<Byte>)
    ensures |r| == k && forall i :: 0 <= i < k ==> 48 <= r[i] <= 55
  {
    if k == 0 then [] else OctalText(v / 8, k - 1) + [48 + v % 8]
  }

  /** Directories and files, with the type of today or of old, and what names the member after it: pax attributes or a long name. */
  datatype Kind = FolderKind | FileKind | OldFileKind | AttributesKind | LongNameKind

  /** A member; `ids`, `time`, `links` and `rest` are the fields the extractor does not read. */
  datatype Member = Member(
    prefix: seq<Byte>, name: seq<Byte>, kind: Kind, mode: nat, content: seq<Byte>,
    ids: seq<Byte>, time: seq<Byte>, links: seq<Byte>, rest: seq<Byte>)

  function KindOf(m: Member): (kind: seq<Byte>)
    ensures |kind| <= 1 && 0 !in kind
  {
    match m.kind
    case FolderKind => DIRECTORY_TYPE
    case FileKind => FILE_TYPE
    case OldFileKind => []
    case AttributesKind => X_TYPE
    case LongNameKind => L_TYPE
  }

  function PowerOf8(k: nat): nat {
    if k == 0 then 1 else 8 * PowerOf8(k - 1)
  }

  /** What fits the fields of a ustar header (section "ustar Interchange Format" of POSIX.1-2017, pax). */
  predicate Fits(m: Member) {
    && 0 !in m.prefix && |m.prefix| <= 155 && 0 !in m.name && |m.name| <= 100
    && m.mode < PowerOf8(7) && |m.content| < PowerOf8(11)
    && |m.ids| == 16 && |m.time| == 12 && |m.links| == 188 && |m.rest| == 12
  }

  function Front(m: Member): (r: seq<Byte>)
    requires Fits(m)
    ensures |r| == 148
  {
    Padded(m.name, 100) + (OctalText(m.mode, 7) + [0]) + m.ids + (OctalText(|m.content|, 11) + [0]) + m.time
  }

  function Back(m: Member): (r: seq<Byte>)
    requires Fits(m)
    ensures |r| == 356
  {
    Padded(KindOf(m), 1) + m.links + Padded(m.prefix, 155) + m.rest
  }

  function ChecksumText(m: Member): (r: seq<Byte>)
    requires Fits(m)
    ensures |r| == 8
  {
    OctalText(Sum(Front(m)) + 8 * SPACE + Sum(Back(m)), 6) + [0, SPACE]
  }

  function Header(m: Member): (r: seq<Byte>)
    requires Fits(m)
    ensures |r| == 512
  {
    Front(m) + ChecksumText(m) + Back(m)
  }

  function Block(m: Member): seq<Byte>
    requires Fits(m)
  {
    Header(m) + Padded(m.content, Blocks(|m.content|))
  }

  /** The members one after the other, and two empty blocks. */
  function Archive(ms: seq<Member>): seq<Byte>
    requires forall i :: 0 <= i < |ms| ==> Fits(ms[i])
  {
    if ms == [] then Zeros(1024) else Block(ms[0]) + Archive(ms[1..])
  }

  // ---- the fields are read back ----

  lemma {:induction false} UpToNulOfPlain(s: seq<Byte>, tail: seq<Byte>)
    requires 0 !in s && (tail == [] || tail[0] == 0)
    ensures UpToNul(s + tail) == s
    decreases |s|
  {
    if s == [] {
      assert s + tail == tail;
    } else {
      assert (s + tail)[1..] == s[1..] + tail;
      UpToNulOfPlain(s[1..], tail);
    }
  }

  lemma {:induction false} DigitsAppend(a: seq<Byte>, d: nat, sum: nat)
    requires d < 8 && forall i :: 0 <= i < |a| ==> 48 <= a[i] <= 55
    ensures Digits(a + [48 + d], sum) == 8 * Digits(a, sum) + d
    decreases |a|
  {
    if a == [] {
      assert a + [48 + d] == [48 + d] && [48 + d][1..] == [];
    } else {
      assert (a + [48 + d])[1..] == a[1..] + [48 + d];
      DigitsAppend(a[1..], d, 8 * sum + a[0] - 48);
    }
  }

  lemma {:induction false} DigitsOfText(v: nat, k: nat)
    requires v < PowerOf8(k)
    ensures Digits(OctalText(v, k)) == v
  {
    if k > 0 {
      DigitsOfText(v / 8, k - 1);
      DigitsAppend(OctalText(v / 8, k - 1), v % 8, 0);
    }
  }

  lemma OctalOfText(v: nat, k: nat)
    requires v < PowerOf8(k)
    ensures Octal(OctalText(v, k)) == Some(v)
  {
    DigitsOfText(v, k);
    assert SkipSpaces(OctalText(v, k)) == OctalText(v, k);
  }

  lemma FieldAt(before: seq<Byte>, s: seq<Byte>, tail: seq<Byte>, after: seq<Byte>)
    requires 0 !in s && (tail == [] || tail[0] == 0)
    ensures Field(before + (s + tail) + after, |before|, |s + tail|) == s
  {
    UpToNulOfPlain(s, tail);
    assert (before + (s + tail) + after)[|before|..|before| + |s + tail|] == s + tail;
  }

  lemma {:induction false} SumIsSmall(s: seq<Byte>)
    ensures Sum(s) <= 255 * |s|
    decreases |s|
  {
    if s != [] {
      SumIsSmall(s[..|s| - 1]);
    }
  }

  lemma HeaderChecksum(m: Member)
    requires Fits(m)
    ensures Octal(Field(Header(m), 148, 8)) == Some(Checksum(Header(m)))
  {
    var sum := Sum(Front(m)) + 8 * SPACE + Sum(Back(m));
    SumIsSmall(Front(m));
    SumIsSmall(Back(m));
    assert PowerOf8(6) == 262144;
    OctalOfText(sum, 6);
    FieldAt(Front(m), OctalText(sum, 6), [0, SPACE], Back(m));
    assert Header(m)[..148] == Front(m) && Header(m)[156..] == Back(m);
  }

  lemma HeaderSize(m: Member)
    requires Fits(m)
    ensures Octal(Field(Header(m), 124, 12)) == Some(|m.content|)
  {
    OctalOfText(|m.content|, 11);
    hide OctalText, Padded, ChecksumText, Back, Field, Octal;
    var before := Padded(m.name, 100) + (OctalText(m.mode, 7) + [0]) + m.ids;
    var after := m.time + ChecksumText(m) + Back(m);
    FieldAt(before, OctalText(|m.content|, 11), [0], after);
    assert Header(m) == before + (OctalText(|m.content|, 11) + [0]) + after;
  }

  lemma HeaderMode(m: Member)
    requires Fits(m)
    ensures Octal(Field(Header(m), 100, 8)) == Some(m.mode)
  {
    OctalOfText(m.mode, 7);
    hide OctalText, Padded, ChecksumText, Back, Field, Octal;
    var before, mode := Padded(m.name, 100), OctalText(m.mode, 7) + [0];
    var others := m.ids + (OctalText(|m.content|, 11) + [0]) + m.time;
    FieldAt(before, OctalText(m.mode, 7), [0], others + (ChecksumText(m) + Back(m)));
    assert Front(m) == before + mode + others;
    FourPieces(before, mode, others, ChecksumText(m), Back(m));
  }

  lemma FourPieces(a: seq<Byte>, b: seq<Byte>, c: seq<Byte>, d: seq<Byte>, e: seq<Byte>)
    ensures (a + b + c) + d + e == a + b + (c + (d + e))
  {
  }

  function PathOf(m: Member): seq<Byte> {
    (if m.prefix == [] then [] else m.prefix + [SLASH]) + m.name
  }

  lemma HeaderKind(m: Member)
    requires Fits(m)
    ensures Field(Header(m), 156, 1) == KindOf(m) && Header(m)[148] != 0
  {
    assert ChecksumText(m)[0] >= 48 && Header(m)[148] == ChecksumText(m)[0];
    hide ChecksumText, Front, Field;
    var before := Front(m) + ChecksumText(m);
    var after := m.links + Padded(m.prefix, 155) + m.rest;
    FieldAt(before, KindOf(m), Zeros(1 - |KindOf(m)|), after);
    assert Header(m) == before + (KindOf(m) + Zeros(1 - |KindOf(m)|)) + after;
  }

  lemma HeaderName(m: Member)
    requires Fits(m)
    ensures Field(Header(m), 0, 100) == m.name
  {
    hide OctalText, ChecksumText, Back, Field;
    var after := (OctalText(m.mode, 7) + [0]) + m.ids + (OctalText(|m.content|, 11) + [0]) + m.time + ChecksumText(m) + Back(m);
    FieldAt([], m.name, Zeros(100 - |m.name|), after);
    assert Header(m) == [] + Padded(m.name, 100) + after;
  }

  lemma HeaderPrefix(m: Member)
    requires Fits(m)
    ensures Field(Header(m), 345, 155) == m.prefix
  {
    hide ChecksumText, Front, Field;
    var before := Front(m) + ChecksumText(m) + Padded(KindOf(m), 1) + m.links;
    FieldAt(before, m.prefix, Zeros(155 - |m.prefix|), m.rest);
    assert Header(m) == before + Padded(m.prefix, 155) + m.rest;
  }

  // ---- the archive is read back ----

  /** What reading one member comes to. */
  function TakeMember(m: Member, s: State): Option<State> {
    match m.kind
    case AttributesKind =>
      if Units(m.content) >= MAX_ATTRIBUTES then None
      else
        (match Attributes(Split(m.content, NEWLINE), s.extended)
         case None => None
         case Some(path) => Some(s.(extended := path)))
    case LongNameKind => Some(s.(extended := Some(UpToNul(m.content))))
    case _ =>
      var path := if s.extended.Some? then s.extended.value else PathOf(m);
      TakePath(path, KindOf(m), Some(m.mode), m.content, s.(extended := None))
  }

  /** What reading the members in turn comes to. */
  function TakeAll(ms: seq<Member>, s: State): Option<State> {
    if ms == [] then Some(s)
    else
      match TakeMember(ms[0], s.(count := s.count + 1))
      case None => None
      case Some(s') => TakeAll(ms[1..], s')
  }

  lemma MemberIsTaken(m: Member, s: State)
    requires Fits(m)
    ensures TakeEntry(Header(m), m.content, s) == TakeMember(m, s)
  {
    hide Header, TakePath, Attributes;
    HeaderKind(m);
    HeaderMode(m);
    HeaderName(m);
    HeaderPrefix(m);
  }

  lemma CountStays(m: Member, s: State)
    requires TakeMember(m, s).Some?
    ensures TakeMember(m, s).value.count == s.count
  {
  }

  lemma {:induction false} ArchiveIsRead(ms: seq<Member>, before: seq<Byte>, s: State)
    requires (forall i :: 0 <= i < |ms| ==> Fits(ms[i])) && s.count + |ms| <= MAX_ENTRIES
    ensures ReadFrom(before + Archive(ms), |before|, s) == TakeAll(ms, s)
    decreases |ms|
  {
    hide Header, TakeMember, TakeEntry, Fits, ReadFrom, Checksum, Octal, Field, Archive;
    if ms == [] {
      ArchiveEnds(before, s);
    } else {
      var m := ms[0];
      var s1 := s.(count := s.count + 1);
      MemberAt(ms, before);
      HeaderChecksum(m);
      HeaderSize(m);
      HeaderKind(m);
      MemberIsTaken(m, s1);
      HeaderIsRead(before + Archive(ms), |before|, s, m);
      var next := TakeMember(m, s1);
      if next.Some? {
        CountStays(m, s1);
        ArchiveIsRead(ms[1..], before + Block(m), next.value);
      }
    }
  }

  lemma ArchiveEnds(before: seq<Byte>, s: State)
    ensures ReadFrom(before + Archive([]), |before|, s) == Some(s)
  {
    assert (before + Archive([]))[|before|..|before| + 512] == Zeros(512);
  }

  /** One header and its content, where nothing is wrong with them. */
  lemma HeaderIsRead(bytes: seq<Byte>, o: nat, s: State, m: Member)
    requires Fits(m) && o + 512 + |m.content| <= |bytes| && s.count < MAX_ENTRIES
    requires bytes[o..o + 512] == Header(m) && bytes[o + 512..o + 512 + |m.content|] == m.content
    requires Octal(Field(Header(m), 148, 8)) == Some(Checksum(Header(m)))
    requires Octal(Field(Header(m), 124, 12)) == Some(|m.content|) && Header(m)[148] != 0
    ensures
      ReadFrom(bytes, o, s) == match TakeEntry(Header(m), m.content, s.(count := s.count + 1))
        case None => None
        case Some(s') => ReadFrom(bytes, o + 512 + Blocks(|m.content|), s')
  {
    hide Header, TakeEntry, Fits, Checksum, Octal, Field;
  }

  lemma MemberAt(ms: seq<Member>, before: seq<Byte>)
    requires ms != [] && forall i :: 0 <= i < |ms| ==> Fits(ms[i])
    ensures
      var bytes, o, m := before + Archive(ms), |before|, ms[0];
      && o + 512 + |m.content| <= |bytes| && bytes[o..o + 512] == Header(m)
      && bytes[o + 512..o + 512 + |m.content|] == m.content
      && bytes == before + Block(m) + Archive(ms[1..]) && |before + Block(m)| == o + 512 + Blocks(|m.content|)
  {
    hide Header, Archive;
    var m, tail := ms[0], Archive(ms[1..]);
    var padding := Zeros(Blocks(|m.content|) - |m.content|);
    ArchiveFirst(ms);
    BlockPieces(before, Header(m), m.content, padding, tail);
  }

  lemma ArchiveFirst(ms: seq<Member>)
    requires ms != [] && forall i :: 0 <= i < |ms| ==> Fits(ms[i])
    ensures Archive(ms) == Block(ms[0]) + Archive(ms[1..])
  {
  }

  lemma BlockPieces(before: seq<Byte>, header: seq<Byte>, content: seq<Byte>, padding: seq<Byte>, tail: seq<Byte>)
    ensures
      var bytes, o, h, n := before + ((header + (content + padding)) + tail), |before|, |header|, |content|;
      && bytes[o..o + h] == header && bytes[o + h..o + h + n] == content
      && bytes == before + (header + (content + padding)) + tail
  {
  }

  // ---- names that do not fit a header ----

  predicate IsNumber(s: seq<Byte>) {
    s != [] && forall i :: 0 <= i < |s| ==> 48 <= s[i] <= 57
  }

  /** The record of a path among pax attributes. */
  function PathRecord(number: seq<Byte>, path: seq<Byte>): seq<Byte> {
    number + ([SPACE] + (PATH_KEY + ([EQUALS] + path)))
  }

  lemma {:induction false} LeadingNumber(number: seq<Byte>, tail: seq<Byte>)
    requires (forall i :: 0 <= i < |number| ==> 48 <= number[i] <= 57) && tail != [] && tail[0] == SPACE
    ensures LeadingDigits(number + tail) == |number|
    decreases |number|
  {
    if number == [] {
      assert number + tail == tail;
    } else {
      assert (number + tail)[1..] == number[1..] + tail;
      LeadingNumber(number[1..], tail);
    }
  }

  lemma RecordIsRead(number: seq<Byte>, path: seq<Byte>)
    requires IsNumber(number) && !HasLineEnd(path)
    ensures Attribute(PathRecord(number, path)) == Some((PATH_KEY, path))
  {
    var value := [EQUALS] + path;
    var rest := PATH_KEY + value;
    LeadingNumber(number, [SPACE] + rest);
    assert PathRecord(number, path)[|number| + 1..] == rest;
    KeyEnds(PATH_KEY, value);
    assert rest[..4] == PATH_KEY && rest[5..] == path;
  }

  lemma {:induction false} KeyEnds(key: seq<Byte>, value: seq<Byte>)
    requires EQUALS !in key && value != [] && value[0] == EQUALS
    ensures IndexOf(key + value, EQUALS) == |key|
    decreases |key|
  {
    if key == [] {
      assert key + value == value;
    } else {
      assert (key + value)[1..] == key[1..] + value;
      KeyEnds(key[1..], value);
    }
  }

  lemma {:induction false} OneLine(line: seq<Byte>)
    requires NEWLINE !in line
    ensures Split(line + [NEWLINE], NEWLINE) == [line, []]
    decreases |line|
  {
    if line == [] {
      assert (line + [NEWLINE])[1..] == [];
    } else {
      assert (line + [NEWLINE])[1..] == line[1..] + [NEWLINE];
      OneLine(line[1..]);
      assert [line[0]] + line[1..] == line;
    }
  }

  lemma AttributesAreRead(number: seq<Byte>, path: seq<Byte>, extended: Option<seq<Byte>>)
    requires IsNumber(number) && NEWLINE !in path && !HasLineEnd(path)
    ensures Attributes(Split(PathRecord(number, path) + [NEWLINE], NEWLINE), extended) == Some(Some(path))
  {
    var line := PathRecord(number, path);
    OneLine(line);
    RecordIsRead(number, path);
    var last: seq<seq<Byte>> := [[]];
    assert [line, []][1..] == last && last[1..] == [];
  }

  // ---- a tree goes through an archive ----

  /** How the path of a member is given: by its own header, or by a member before it. */
  datatype Heading = NoHeading | Pax(number: seq<Byte>, header: Member) | LongName(header: Member)

  /** One node of the tree, as it is written. */
  datatype Item = Item(heading: Heading, path: seq<Byte>, member: Member)

  function MembersOf(item: Item): seq<Member> {
    match item.heading
    case NoHeading => [item.member]
    case Pax(_, header) => [header, item.member]
    case LongName(header) => [header, item.member]
  }

  function AllMembers(items: seq<Item>): seq<Member> {
    if items == [] then [] else AllMembers(items[..|items| - 1]) + MembersOf(items[|items| - 1])
  }

  predicate IsFolderItem(item: Item) {
    item.member.kind.FolderKind?
  }

  predicate HeadingFits(heading: Heading, path: seq<Byte>, m: Member) {
    match heading
    case NoHeading => path == PathOf(m)
    case Pax(number, header) =>
      && Fits(header) && header.kind.AttributesKind? && header.content == PathRecord(number, path) + [NEWLINE]
      && IsNumber(number) && NEWLINE !in path && !HasLineEnd(path) && Units(header.content) < MAX_ATTRIBUTES
    case LongName(header) => Fits(header) && header.kind.LongNameKind? && header.content == path + [0] && 0 !in path
  }

  predicate Writable(item: Item) {
    && Fits(item.member) && item.member.kind in {FolderKind, FileKind, OldFileKind}
    && HeadingFits(item.heading, item.path, item.member)
    && IsSafe(item.path) && (PartsOf(item.path) == [] ==> IsFolderItem(item))
  }

  function PartsOfItem(item: Item): Path {
    PartsOf(item.path)
  }

  function NodeOf(item: Item): Node {
    if IsFolderItem(item) then Folder else Plain(item.member.content, Executable(item.member.mode))
  }

  ghost predicate IsFolderTree(t: Tree) {
    forall p :: p in t ==> p != [] && IsFolder(t, p[..|p| - 1])
  }

  /** No node is written twice; the root may be. */
  ghost predicate Distinct(items: seq<Item>) {
    forall i, j :: 0 <= i < j < |items| && PartsOfItem(items[i]) != [] ==> PartsOfItem(items[i]) != PartsOfItem(items[j])
  }

  ghost predicate AllWritable(items: seq<Item>) {
    forall i :: 0 <= i < |items| ==> Writable(items[i])
  }

  /** Each item but the root is a node of the tree. */
  ghost predicate AreNodes(items: seq<Item>, t: Tree) {
    forall i :: 0 <= i < |items| && PartsOfItem(items[i]) != [] ==>
      PartsOfItem(items[i]) in t && t[PartsOfItem(items[i])] == NodeOf(items[i])
  }

  /** What an item says is there: its own node, and the directories it hangs on. */
  predicate Implies(item: Item, p: Path, n: Node) {
    (p == PartsOfItem(item) && n == NodeOf(item)) || (n == Folder && p in Ancestors(HangsOn(item)))
  }

  /** The items, in any order, say just what is in the tree; directories may be left to their files. */
  ghost predicate Describes(items: seq<Item>, t: Tree) {
    && items != [] && |AllMembers(items)| <= MAX_ENTRIES && AllWritable(items) && Distinct(items)
    && AreNodes(items, t)
    && (forall p :: p in t ==> exists i :: 0 <= i < |items| && Implies(items[i], p, t[p]))
  }

  function FileOf(item: Item): FileEntry {
    FileEntry(PartsOfItem(item), item.member.content, Executable(item.member.mode))
  }

  function FilesOf(items: seq<Item>): seq<FileEntry> {
    if items == [] then []
    else
      var item := items[|items| - 1];
      FilesOf(items[..|items| - 1]) + if IsFolderItem(item) then [] else [FileOf(item)]
  }

  function HangsOn(item: Item): Path {
    var p := PartsOfItem(item);
    if IsFolderItem(item) || p == [] then p else p[..|p| - 1]
  }

  function FoldersOf(items: seq<Item>): (folders: set<Path>)
    ensures [] in folders
  {
    if items == [] then {[]} else FoldersOf(items[..|items| - 1]) + Ancestors(HangsOn(items[|items| - 1]))
  }

  function SeenOf(items: seq<Item>): set<Path> {
    set i | 0 <= i < |items| && PartsOfItem(items[i]) != [] :: PartsOfItem(items[i])
  }

  /** What reading some of the items has come to. */
  function StateOf(items: seq<Item>): State {
    State(|AllMembers(items)|, SeenOf(items), FoldersOf(items), FilesOf(items), None)
  }

  function WithItem(s: State, item: Item): State {
    s.(count := s.count + |MembersOf(item)|,
       seen := s.seen + if PartsOfItem(item) == [] then {} else {PartsOfItem(item)},
       directories := s.directories + Ancestors(HangsOn(item)),
       files := s.files + if IsFolderItem(item) then [] else [FileOf(item)])
  }

  /** A safe new path is taken as it was meant; the root changes nothing. */
  lemma PathIsTaken(item: Item, s: State)
    requires Writable(item) && PartsOfItem(item) !in s.seen && [] in s.directories && s.extended == None
    ensures
      var s' := WithItem(s, item);
      TakePath(item.path, KindOf(item.member), Some(item.member.mode), item.member.content, s) == Some(s'.(count := s.count))
  {
    hide IsSafe, PartsOf, Executable, HeadingFits, Fits;
    assert s.files + [] == s.files && s.seen + {} == s.seen;
    if PartsOfItem(item) == [] {
      assert s.directories + {[]} == s.directories;
    }
  }

  lemma SameButCount(s: State, item: Item, n: nat)
    requires n == s.count + |MembersOf(item)|
    ensures WithItem(s.(count := n), item).(count := n) == WithItem(s, item)
  {
  }

  /** Read under its own path, whoever gives it, a member is taken as it was meant. */
  lemma MemberIsMeant(item: Item, s: State, s1: State)
    requires Writable(item) && PartsOfItem(item) !in s.seen && [] in s.directories && s.extended == None
    requires s1 == s.(count := s.count + |MembersOf(item)|, extended := s1.extended)
    requires s1.extended == Some(item.path) || (s1.extended == None && item.path == PathOf(item.member))
    ensures TakeMember(item.member, s1) == Some(WithItem(s, item))
  {
    hide TakePath, WithItem, IsSafe, PartsOfItem, Fits, HeadingFits, PartsOf;
    PathIsTaken(item, s1.(extended := None));
    SameButCount(s, item, s1.count);
    assert s1.(extended := None) == s.(count := s1.count);
  }

  /** A heading gives the member after it its path. */
  lemma HeadingIsTaken(item: Item, header: Member, s: State)
    requires Writable(item) && s.extended == None && MembersOf(item) == [header, item.member]
    ensures TakeMember(header, s) == Some(s.(extended := Some(item.path)))
  {
    hide Attributes, Split, UpToNul, Fits, IsSafe, PartsOf, PathRecord;
    match item.heading
    case NoHeading =>
    case Pax(number, h) => AttributesAreRead(number, item.path, s.extended);
    case LongName(h) => UpToNulOfPlain(item.path, [0]);
  }

  lemma TakeNext(m: Member, rest: seq<Member>, s: State)
    ensures
      TakeAll([m] + rest, s) == match TakeMember(m, s.(count := s.count + 1))
        case None => None
        case Some(s') => TakeAll(rest, s')
  {
    hide TakeMember;
    assert ([m] + rest)[1..] == rest;
  }

  /** After its heading, if it has one, an item is read under its own path. */
  lemma ItemIsTaken(item: Item, s: State, rest: seq<Member>)
    requires Writable(item) && PartsOfItem(item) !in s.seen && [] in s.directories && s.extended == None
    ensures TakeAll(MembersOf(item) + rest, s) == TakeAll(rest, WithItem(s, item))
  {
    hide TakeMember, TakeAll, WithItem, IsSafe, PartsOfItem, Fits, PartsOf, PathOf;
    var m := item.member;
    if item.heading.NoHeading? {
      MemberIsMeant(item, s, s.(count := s.count + 1));
      TakeNext(m, rest, s);
    } else {
      var header := item.heading.header;
      var headed := s.(count := s.count + 1, extended := Some(item.path));
      HeadingIsTaken(item, header, s.(count := s.count + 1));
      MemberIsMeant(item, s, headed.(count := s.count + 2));
      assert MembersOf(item) + rest == [header] + ([m] + rest);
      TakeNext(header, [m] + rest, s);
      TakeNext(m, rest, headed);
    }
  }

  // ---- all items in turn ----

  lemma MembersNext(items: seq<Item>, i: nat)
    requires i < |items|
    ensures AllMembers(items[..i + 1]) == AllMembers(items[..i]) + MembersOf(items[i])
  {
    hide MembersOf;
    assert items[..i + 1][..i] == items[..i];
  }

  lemma FilesNext(items: seq<Item>, i: nat)
    requires i < |items|
    ensures FilesOf(items[..i + 1]) == FilesOf(items[..i]) + if IsFolderItem(items[i]) then [] else [FileOf(items[i])]
  {
    hide FileOf;
    assert items[..i + 1][..i] == items[..i];
  }

  lemma FoldersNext(items: seq<Item>, i: nat)
    requires i < |items|
    ensures FoldersOf(items[..i + 1]) == FoldersOf(items[..i]) + Ancestors(HangsOn(items[i]))
  {
    hide HangsOn, Ancestors;
    assert items[..i + 1][..i] == items[..i];
  }

  lemma NotSeenBefore(items: seq<Item>, i: nat)
    requires Distinct(items) && i < |items|
    ensures PartsOfItem(items[i]) !in SeenOf(items[..i])
  {
  }

  lemma SeenNext(items: seq<Item>, i: nat)
    requires i < |items|
    ensures SeenOf(items[..i + 1]) == SeenOf(items[..i]) + if PartsOfItem(items[i]) == [] then {} else {PartsOfItem(items[i])}
  {
  }

  /** Each item in turn is taken as it was meant. */
  lemma NextIsTaken(items: seq<Item>, i: nat, rest: seq<Member>)
    requires AllWritable(items) && Distinct(items) && i < |items|
    ensures TakeAll(MembersOf(items[i]) + rest, StateOf(items[..i])) == TakeAll(rest, StateOf(items[..i + 1]))
  {
    hide Writable, PartsOfItem, TakeAll, FilesOf, FoldersOf, SeenOf, AllMembers, MembersOf, HangsOn, Ancestors, FileOf, Distinct;
    NotSeenBefore(items, i);
    SeenNext(items, i);
    FilesNext(items, i);
    FoldersNext(items, i);
    MembersNext(items, i);
    ItemIsTaken(items[i], StateOf(items[..i]), rest);
  }

  lemma {:induction false} MembersInTwo(items: seq<Item>, i: nat)
    requires i < |items|
    ensures AllMembers(items[i..]) == MembersOf(items[i]) + AllMembers(items[i + 1..])
    decreases |items|
  {
    hide MembersOf;
    var n := |items| - 1;
    if i == n {
      assert items[i..] == [items[i]] && items[i + 1..] == [] && [items[i]][..0] == [];
    } else {
      MembersInTwo(items[..n], i);
      assert items[i..][..n - i] == items[..n][i..] && items[i + 1..][..n - i - 1] == items[..n][i + 1..];
    }
  }

  lemma {:induction false} AllAreTaken(items: seq<Item>, i: nat)
    requires AllWritable(items) && Distinct(items) && i <= |items|
    ensures TakeAll(AllMembers(items[i..]), StateOf(items[..i])) == Some(StateOf(items))
    decreases |items| - i
  {
    hide AllWritable, Distinct, StateOf, MembersOf, TakeMember;
    if i == |items| {
      assert items[..i] == items && items[i..] == [];
    } else {
      MembersInTwo(items, i);
      NextIsTaken(items, i, AllMembers(items[i + 1..]));
      AllAreTaken(items, i + 1);
    }
  }

  // ---- what was read is the tree ----

  lemma {:induction false} FoldersAreFolders(items: seq<Item>, t: Tree, i: nat)
    requires IsFolderTree(t) && AreNodes(items, t) && i <= |items|
    ensures forall q :: q in FoldersOf(items[..i]) ==> IsFolder(t, q)
  {
    if i > 0 {
      FoldersAreFolders(items, t, i - 1);
      FoldersNext(items, i - 1);
      assert IsFolder(t, HangsOn(items[i - 1]));
      hide FoldersOf, HangsOn, PartsOfItem, Ancestors;
      AncestorsAreFolders(t, HangsOn(items[i - 1]));
    }
  }

  lemma {:induction false} FoldersAreThere(items: seq<Item>, i: nat, k: nat)
    requires k < i <= |items|
    ensures Ancestors(HangsOn(items[k])) <= FoldersOf(items[..i])
  {
    hide FoldersOf, HangsOn, PartsOfItem, Ancestors;
    FoldersNext(items, i - 1);
    if k < i - 1 {
      FoldersAreThere(items, i - 1, k);
    }
  }

  lemma FolderHangsOnItself(item: Item)
    requires IsFolderItem(item)
    ensures PartsOfItem(item) in Ancestors(HangsOn(item))
  {
  }

  lemma {:induction false} AncestorsAreFolders(t: Tree, p: Path)
    requires IsFolderTree(t) && IsFolder(t, p)
    ensures forall q :: q in Ancestors(p) ==> IsFolder(t, q)
    decreases |p|
  {
    if p != [] {
      AncestorsAreFolders(t, p[..|p| - 1]);
    }
  }

  lemma FilesAppend(files: seq<FileEntry>, f: FileEntry)
    ensures Files(files + [f]) == Files(files)[f.path := Plain(f.content, f.executable)]
  {
  }

  /** A file adds its node; a directory adds none. */
  lemma FileTreeNext(items: seq<Item>, i: nat)
    requires i < |items|
    ensures
      var before := Files(FilesOf(items[..i]));
      Files(FilesOf(items[..i + 1])) ==
        if IsFolderItem(items[i]) then before else before[PartsOfItem(items[i]) := NodeOf(items[i])]
  {
    hide Files, FilesOf, PartsOfItem, Executable;
    FilesNext(items, i);
    if IsFolderItem(items[i]) {
      assert FilesOf(items[..i]) + [] == FilesOf(items[..i]);
    } else {
      FilesAppend(FilesOf(items[..i]), FileOf(items[i]));
    }
  }

  lemma FileIsANode(items: seq<Item>, t: Tree, i: nat)
    requires AreNodes(items, t) && AllWritable(items) && i < |items| && !IsFolderItem(items[i])
    ensures var p := PartsOfItem(items[i]); p in t && t[p] == NodeOf(items[i]) && t[p].Plain?
  {
    assert Writable(items[i]);
  }

  lemma {:induction false} FilesAreFiles(items: seq<Item>, t: Tree, i: nat)
    requires AreNodes(items, t) && AllWritable(items) && i <= |items|
    ensures forall p :: p in Files(FilesOf(items[..i])) ==> p in t && t[p] == Files(FilesOf(items[..i]))[p] && t[p].Plain?
  {
    hide Files, FilesOf, PartsOfItem, NodeOf, AreNodes, AllWritable;
    if i == 0 {
      NoFilesAtFirst(items);
    } else {
      FilesAreFiles(items, t, i - 1);
      FileTreeNext(items, i - 1);
      if !IsFolderItem(items[i - 1]) {
        FileIsANode(items, t, i - 1);
      }
    }
  }

  lemma NoFilesAtFirst(items: seq<Item>)
    ensures Files(FilesOf(items[..0])) == map[]
  {
  }

  lemma {:induction false} FilesAreThere(items: seq<Item>, i: nat, k: nat)
    requires k < i <= |items| && !IsFolderItem(items[k])
    ensures PartsOfItem(items[k]) in Files(FilesOf(items[..i]))
  {
    hide Files, FilesOf, PartsOfItem, NodeOf;
    FileTreeNext(items, i - 1);
    if k < i - 1 {
      FilesAreThere(items, i - 1, k);
    }
  }

  /** Each path in a list of files is in its tree. */
  lemma {:induction false} ListedFilesAreThere(files: seq<FileEntry>, k: nat)
    requires k < |files|
    ensures files[k].path in Files(files)
    decreases |files|
  {
    if k < |files| - 1 {
      ListedFilesAreThere(files[..|files| - 1], k);
    }
  }

  lemma {:induction false} MembersFit(items: seq<Item>, k: nat)
    requires AllWritable(items) && k < |AllMembers(items)|
    ensures Fits(AllMembers(items)[k])
    decreases |items|
  {
    hide Fits;
    var before := AllMembers(items[..|items| - 1]);
    assert Writable(items[|items| - 1]);
    if k < |before| {
      MembersFit(items[..|items| - 1], k);
    }
  }

  function Written(items: seq<Item>): seq<Byte>
    requires AllWritable(items)
  {
    assert forall k :: 0 <= k < |AllMembers(items)| ==> Fits(AllMembers(items)[k]) by {
      forall k | 0 <= k < |AllMembers(items)| ensures Fits(AllMembers(items)[k]) {
        MembersFit(items, k);
      }
    }
    Archive(AllMembers(items))
  }

  /** Whatever order its items are written in, with whatever headings, an archive of a tree is accepted
      and is that tree. */
  lemma ExtractedIsWritten(items: seq<Item>, t: Tree)
    requires IsFolderTree(t) && Describes(items, t)
    ensures Accept(Written(items)).Some? && TreeOf(Accept(Written(items)).value) == t
  {
    hide ReadFrom, Archive, TakeAll, AllMembers, Fits, IsFolderTree, AreNodes, Writable, Distinct, StateOf, Complete, TreeOf;
    forall k | 0 <= k < |AllMembers(items)| ensures Fits(AllMembers(items)[k]) {
      MembersFit(items, k);
    }
    ArchiveIsRead(AllMembers(items), [], START);
    assert [] + Archive(AllMembers(items)) == Archive(AllMembers(items)) && items[0..] == items && items[..0] == [];
    AllAreTaken(items, 0);
    EmptyStart();
    WrittenIsWhole(items, t);
  }

  lemma EmptyStart()
    ensures StateOf([]) == START
  {
  }

  lemma SomeMember(items: seq<Item>)
    requires items != []
    ensures |AllMembers(items)| > 0
  {
  }

  lemma WrittenIsWhole(items: seq<Item>, t: Tree)
    requires IsFolderTree(t) && Describes(items, t)
    ensures Complete(StateOf(items)) && TreeOf(StateOf(items)) == t
  {
    hide FoldersOf, FilesOf, Files, AllWritable, Distinct, PartsOfItem, Executable, SeenOf, AllMembers;
    SomeMember(items);
    assert items[..|items|] == items;
    FoldersAreFolders(items, t, |items|);
    FilesAreFiles(items, t, |items|);
    forall p | p in t
      ensures t[p] == Folder ==> p in FoldersOf(items)
      ensures t[p].Plain? ==> p in Files(FilesOf(items))
    {
      NodeIsFound(items, t, p);
    }
    hide Describes, AreNodes;
    SameTree(t, FoldersOf(items), Files(FilesOf(items)));
    forall k | 0 <= k < |FilesOf(items)| ensures FilesOf(items)[k].path !in FoldersOf(items) {
      ListedFilesAreThere(FilesOf(items), k);
    }
  }

  lemma NodeIsFound(items: seq<Item>, t: Tree, p: Path)
    requires Describes(items, t) && p in t
    ensures t[p] == Folder ==> p in FoldersOf(items)
    ensures t[p].Plain? ==> p in Files(FilesOf(items))
  {
    hide FoldersOf, FilesOf, Files, AllWritable, Distinct, PartsOfItem, Executable, HangsOn, Ancestors;
    assert items[..|items|] == items;
    var i :| 0 <= i < |items| && Implies(items[i], p, t[p]);
    FoldersAreThere(items, |items|, i);
    if IsFolderItem(items[i]) {
      FolderHangsOnItself(items[i]);
    } else {
      FilesAreThere(items, |items|, i);
    }
  }

  lemma SameTree(t: Tree, folders: set<Path>, files: Tree)
    requires IsFolderTree(t) && forall q :: q in folders ==> IsFolder(t, q)
    requires forall p :: p in files ==> p in t && t[p] == files[p]
    requires forall p :: p in t ==> (t[p] == Folder ==> p in folders) && (t[p].Plain? ==> p in files)
    ensures Folders(folders) + files == t
  {
  }
}
