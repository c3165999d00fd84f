/** What a scan refuses, and how long a manifest is, in terms of names and text. */
module StorageLimits {
  import opened FiniteSets
  import opened StorageNames
  import opened StorageTree
  import opened StorageRestore
  import opened StorageManifest
  import opened Utf8
  import opened Wrappers

  // ---- what a scan refuses ----

  /** A name with a backslash or a control character in it. */
  predicate BadName(n: Name) {
    exists k :: 0 <= k < |n| && (n[k] == '\\' as int || n[k] < 32 || n[k] == 127)
  }

  lemma {:induction false} EntriesAreNodes(t: Tree, dir: Path, names: seq<Name>, e: Entry)
    requires e in VisitNames(t, dir, names)
    ensures e.path in t && e.node == t[e.path]
    decreases |Under(t, dir)|, |names|, 1
  {
    hide Under, Names, Sorted;
    var p := dir + [names[0]];
    if p !in t {
      EntriesAreNodes(t, dir, names[1..], e);
    } else {
      VisitFirst(t, dir, names);
      if e in BelowName(t, p) {
        SmallerBelow(t, dir, names[0]);
        EntriesAreNodes(t, p, Sorted(Names(t, p)), e);
      } else if e in VisitNames(t, dir, names[1..]) {
        EntriesAreNodes(t, dir, names[1..], e);
      }
    }
  }

  lemma UnionIsSum<T>(a: set<T>, b: set<T>)
    requires a !! b
    ensures |a + b| == |a| + |b|
  {
  }

  lemma SplitIsDisjoint(t: Tree, dir: Path, names: seq<Name>)
    requires names != [] && names[0] !in names[1..]
    ensures var p := dir + [names[0]]; {p} !! Under(t, p) && {p} + Under(t, p) !! Covered(t, dir, names[1..])
  {
    var p := dir + [names[0]];
    forall q | q in Under(t, p) ensures q !in Covered(t, dir, names[1..]) {
      BelowExtends(dir, names[0], q);
    }
    assert p[|dir|] == names[0];
  }

  /** A scan has an entry for each visible node. */
  lemma {:induction false} VisitsAreCounted(t: Tree, dir: Path, names: seq<Name>)
    requires IsTree(t) && (dir != [] ==> dir in t && t[dir].Directory?) && forall n :: n in names ==> dir + [n] in t
    requires forall i, j :: 0 <= i < j < |names| ==> names[i] != names[j]
    ensures |VisitNames(t, dir, names)| == |Covered(t, dir, names)|
    decreases |Under(t, dir)|, |names|
  {
    hide Visit, IsTree, Names, Under, Covered, Sorted;
    if names == [] {
      NothingCovered(t, dir);
    } else {
      var p := dir + [names[0]];
      VisitFirst(t, dir, names);
      CoveredSplits(t, dir, names);
      SplitIsDisjoint(t, dir, names);
      UnionIsSum({p}, Under(t, p));
      UnionIsSum({p} + Under(t, p), Covered(t, dir, names[1..]));
      VisitsAreCounted(t, dir, names[1..]);
      if t[p].Directory? {
        SmallerBelow(t, dir, names[0]);
        VisitIs(t, p);
        NamesAreThere(t, p);
        VisitsAreCounted(t, p, Sorted(Names(t, p)));
        CoveredByNames(t, p);
      } else {
        NothingUnderFiles(t, p);
      }
    }
  }

  lemma NothingCovered(t: Tree, dir: Path)
    ensures Covered(t, dir, []) == {}
  {
  }

  /** A tree can be scanned if and only if it has at most 100,000 visible nodes, each a file or a directory
      with a name without backslashes and control characters. */
  lemma ScansExactly(t: Tree, excluded: set<Name>)
    requires IsTree(t)
    ensures Scan(t, excluded).Some? <==>
      && |Visible(t, excluded)| <= 100_000
      && forall p :: p in Visible(t, excluded) ==> !t[p].Special? && !BadName(p[|p| - 1])
  {
    hide IsTree, Visible, VisitNames, Names, Sorted, Covered, Under;
    var names := Sorted(Names(t, []) - excluded);
    var es := VisitNames(t, [], names);
    VisibleIsCovered(t, excluded);
    NamesAreThere(t, []);
    VisitsAreCounted(t, [], names);
    ScanLists(t, [], names);
    forall i | 0 <= i < |es| ensures es[i].path in Visible(t, excluded) && es[i].path in t && es[i].node == t[es[i].path] {
      EntriesAreNodes(t, [], names, es[i]);
      ListedPaths(es, es[i].path);
      assert es[i].path in Part(t, Visible(t, excluded));
    }
    forall p | p in Visible(t, excluded) ensures exists i :: 0 <= i < |es| && es[i].path == p {
      VisibleIsBelowRoot(t, excluded, p);
      ListedPaths(es, p);
      assert p in Part(t, Visible(t, excluded));
    }
    RefusalIs(t, excluded, es);
  }

  predicate BadNode(p: Path, n: Node)
    requires p != []
  {
    n.Special? || BadName(p[|p| - 1])
  }

  lemma RefusedIsBad(e: Entry)
    requires e.path != []
    ensures Refused(e) <==> BadNode(e.path, e.node)
  {
  }

  lemma RefusalIs(t: Tree, excluded: set<Name>, es: seq<Entry>)
    requires forall i :: 0 <= i < |es| ==> es[i].path in Visible(t, excluded) && es[i].node == t[es[i].path]
    requires forall p :: p in Visible(t, excluded) ==> exists i :: 0 <= i < |es| && es[i].path == p
    ensures (exists i :: 0 <= i < |es| && Refused(es[i])) <==>
      exists p :: p in Visible(t, excluded) && BadNode(p, t[p])
  {
    hide Refused, BadNode;
    forall i | 0 <= i < |es| ensures Refused(es[i]) <==> BadNode(es[i].path, es[i].node) {
      RefusedIsBad(es[i]);
    }
    if exists p :: p in Visible(t, excluded) && BadNode(p, t[p]) {
      var p :| p in Visible(t, excluded) && BadNode(p, t[p]);
      var i :| 0 <= i < |es| && es[i].path == p;
      assert Refused(es[i]);
    }
  }

  // ---- what reading a snapshot refuses ----

  /** Whoever wrote the manifest: a snapshot is read only if its entries are few, of different paths, each a file
      of safe size or a directory, with no colon, backslash or control character in any name. */
  lemma ReadEntriesAreSound(s: Snapshot, i: nat)
    requires ReadSnapshot(s) && i < |s.manifest.files|
    ensures
      var e := s.manifest.files[i];
      && |s.manifest.files| <= 100_000 && ManifestBytes(s.manifest) <= 33_554_432
      && e.path != [] && !e.node.Special? && (e.node.File? ==> |e.node.content| <= 9_007_199_254_740_991)
      && (forall k :: 0 <= k < |e.path| ==> !BadName(e.path[k]) && ':' as int !in e.path[k])
      && (forall j :: 0 <= j < |s.manifest.files| && j != i ==> s.manifest.files[j].path != e.path)
  {
    assert ValidEntry(s.manifest.files[i]);
    hide Verifies, ManifestBytes;
  }

  /** And the files of the snapshot are the listed ones, with the listed contents. */
  lemma ReadFilesAreListed(s: Snapshot)
    requires ReadSnapshot(s) && IsTree(s.files)
    ensures s.files.Keys == Listed(s.manifest.files).Keys
    ensures forall p :: p in s.files ==>
      var listed := Listed(s.manifest.files)[p];
      && (s.files[p].Directory? <==> listed.Directory?)
      && (s.files[p].File? <==> listed.File?) && (listed.File? ==> s.files[p].content == listed.content)
  {
    hide Verifies, ValidEntry, ManifestBytes;
    VerifiedHolds(s.files, s.manifest.files);
  }

  // ---- the order of names ----

  /** Up to `k` the names are the same, and there the first ends or has the smaller unit. */
  predicate DiffersAt(a: seq<Unit>, b: seq<Unit>, k: nat) {
    k <= |a| && k < |b| && a[..k] == b[..k] && (k == |a| || a[k] < b[k])
  }

  lemma {:induction false} DifferenceIsFound(a: seq<Unit>, b: seq<Unit>) returns (k: nat)
    requires Before(a, b)
    ensures DiffersAt(a, b, k)
    decreases |a|
  {
    if a == [] || a[0] < b[0] {
      k := 0;
    } else {
      k := DifferenceIsFound(a[1..], b[1..]);
      assert a[..k + 1] == [a[0]] + a[1..][..k] && b[..k + 1] == [b[0]] + b[1..][..k];
      k := k + 1;
    }
  }

  lemma {:induction false} DifferenceDecides(a: seq<Unit>, b: seq<Unit>, k: nat)
    requires DiffersAt(a, b, k)
    ensures Before(a, b)
    decreases k
  {
    if k > 0 {
      assert a[..k][0] == a[0] && b[..k][0] == b[0];
      assert a[1..][..k - 1] == a[..k][1..] && b[1..][..k - 1] == b[..k][1..];
      DifferenceDecides(a[1..], b[1..], k - 1);
    }
  }

  /** One name comes before another where they first differ, by code unit, or where it ends. */
  lemma BeforeExactly(a: seq<Unit>, b: seq<Unit>)
    ensures Before(a, b) <==> exists k: nat :: DiffersAt(a, b, k)
  {
    if Before(a, b) {
      var k := DifferenceIsFound(a, b);
    }
    forall k: nat | DiffersAt(a, b, k) ensures Before(a, b) {
      DifferenceDecides(a, b, k);
    }
  }

  // ---- the length of a manifest ----

  function HexDigit(d: nat): (b: Byte)
    requires d < 16
  {
    if d < 10 then '0' as int + d else 'a' as int + d - 10
  }

  /** A code point in a JSON string: quotes, backslashes and control characters are escaped. */
  function JsonPoint(c: nat): seq<Byte>
    requires c < 0x11_0000
  {
    if c == '"' as int then Ascii("\\\"")
    else if c == '\\' as int then Ascii("\\\\")
    else if c == 8 then Ascii("\\b") else if c == 9 then Ascii("\\t") else if c == 10 then Ascii("\\n")
    else if c == 12 then Ascii("\\f") else if c == 13 then Ascii("\\r")
    else if c < 32 then Ascii("\\u00") + [HexDigit(c / 16), HexDigit(c % 16)]
    else Encoded(c)
  }

  /** The code point of a surrogate pair. */
  function PairPoint(high: int, low: int): (c: nat)
    requires 0xD800 <= high < 0xDC00 <= low < 0xE000
    ensures 0x1_0000 <= c < 0x11_0000
  {
    0x1_0000 + (high - 0xD800) * 0x400 + (low - 0xDC00)
  }

  /** The text of a name, its surrogate pairs put together. */
  function JsonName(s: seq<Unit>): seq<Byte>
    requires Paired(s)
  {
    if s == [] then []
    else if High(s[0]) then JsonPoint(PairPoint(s[0], s[1])) + JsonName(s[2..])
    else JsonPoint(s[0]) + JsonName(s[1..])
  }

  lemma {:induction false} NameBytesAreLength(s: seq<Unit>)
    requires Paired(s)
    ensures NameBytes(s) == |JsonName(s)|
    decreases |s|
  {
    if s != [] {
      if High(s[0]) {
        NameBytesAreLength(s[2..]);
        assert NameBytes(s) == UnitBytes(s[0]) + (UnitBytes(s[1]) + NameBytes(s[2..])) by {
          assert s[1..][1..] == s[2..];
        }
        PairIsLong(s[0], s[1]);
      } else {
        NameBytesAreLength(s[1..]);
        UnitIsLong(s[0]);
      }
    }
  }

  lemma PairIsLong(h: Unit, l: Unit)
    requires High(h) && Low(l)
    ensures
      |JsonPoint(PairPoint(h, l))| == 4 == UnitBytes(h) + UnitBytes(l)
  {
  }

  lemma UnitIsLong(u: Unit)
    requires !High(u) && !Low(u)
    ensures |JsonPoint(u)| == UnitBytes(u)
  {
  }

  /** A number in decimal digits. */
  function Decimal(n: nat): seq<Byte> {
    (if n < 10 then [] else Decimal(n / 10)) + ['0' as int + n % 10]
  }

  lemma {:induction false} DecimalBytesAreLength(n: nat)
    ensures DecimalBytes(n) == |Decimal(n)|
  {
    if n >= 10 {
      DecimalBytesAreLength(n / 10);
    }
  }

  function JsonPath(p: Path): seq<Byte> {
    if p == [] then [] else JsonName(p[0]) + ((if |p| > 1 then Ascii("/") else []) + JsonPath(p[1..]))
  }

  lemma {:induction false} PathBytesAreLength(p: Path)
    ensures PathBytes(p) == |JsonPath(p)|
  {
    if p != [] {
      NameBytesAreLength(p[0]);
      PathBytesAreLength(p[1..]);
    }
  }

  /** An entry as JSON; a file has its hash as 64 hexadecimal digits. */
  function JsonEntry(e: Entry, hash: seq<Byte>): seq<Byte> {
    Ascii("{\"path\":\"") + JsonPath(e.path)
    + Ascii("\",\"kind\":\"") + Ascii(if e.node.Directory? then "directory" else "file")
    + Ascii("\",\"size\":") + Decimal(Size(e.node)) + Ascii(",\"mode\":") + Decimal(MetaOf(e.node).mode)
    + Ascii(",\"uid\":") + Decimal(MetaOf(e.node).owner) + Ascii(",\"gid\":") + Decimal(MetaOf(e.node).group)
    + (if e.node.Directory? then [] else Ascii(",\"sha256\":\"") + hash + Ascii("\"")) + Ascii("}")
  }

  lemma EntryBytesAreLength(e: Entry, hash: seq<Byte>)
    requires |hash| == 64
    ensures EntryBytes(e) == |JsonEntry(e, hash)|
  {
    hide PathBytes, DecimalBytes, JsonPath, Decimal;
    PathBytesAreLength(e.path);
    DecimalBytesAreLength(Size(e.node));
    DecimalBytesAreLength(MetaOf(e.node).mode);
    DecimalBytesAreLength(MetaOf(e.node).owner);
    DecimalBytesAreLength(MetaOf(e.node).group);
  }

  /** The entries between commas. */
  function JsonEntries(es: seq<Entry>, hashes: seq<seq<Byte>>): seq<Byte>
    requires |hashes| == |es|
  {
    if es == [] then []
    else JsonEntry(es[0], hashes[0]) + ((if |es| > 1 then Ascii(",") else []) + JsonEntries(es[1..], hashes[1..]))
  }

  /** The length that is limited is the length of the entries' text, and of what is around it. */
  lemma {:induction false} FilesBytesAreLength(es: seq<Entry>, hashes: seq<seq<Byte>>)
    requires |hashes| == |es| && forall i :: 0 <= i < |es| ==> |hashes[i]| == 64
    ensures FilesBytes(es) == |JsonEntries(es, hashes)|
    decreases |es|
  {
    hide EntryBytes, JsonEntry;
    if es != [] {
      EntryBytesAreLength(es[0], hashes[0]);
      FilesBytesAreLength(es[1..], hashes[1..]);
    }
  }
}
