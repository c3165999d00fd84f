/** The manifest between backup and restore: what it takes for a published snapshot to be read again. */
module StorageManifest {
  import opened StorageNames
  import opened StorageTree
  import opened StorageRestore
  import opened StorageVolume
  import opened StorageBackup
  import opened Wrappers

  /** `others` is the length, in bytes, of all of the manifest's text but the entries of its files. */
  datatype Manifest = Manifest(files: seq<Entry>, others: nat)

  datatype Snapshot = Snapshot(manifest: Manifest, files: Tree)

  const MAX_MANIFEST := 32 * 1024 * 1024
  const MAX_SAFE_INTEGER := 0x1F_FFFF_FFFF_FFFF
  const HASH_LENGTH := 64

  // ---- the text of an entry ----

  /** A code unit in JSON and UTF-8; half a surrogate pair is half of four bytes. */
  function UnitBytes(u: Unit): nat {
    if u == QUOTE || u == BACKSLASH || u in {8, 9, 10, 12, 13} then 2
    else if u < 32 then 6
    else if u < 0x80 then 1
    else if u < 0x800 || High(u) || Low(u) then 2 else 3
  }

  function NameBytes(s: seq<Unit>): nat {
    if s == [] then 0 else UnitBytes(s[0]) + NameBytes(s[1..])
  }

  /** Names with slashes between them. */
  function PathBytes(p: Path): nat {
    if p == [] then 0 else NameBytes(p[0]) + (if |p| > 1 then 1 else 0) + PathBytes(p[1..])
  }

  function DecimalBytes(n: nat): nat {
    if n < 10 then 1 else 1 + DecimalBytes(n / 10)
  }

  function Size(n: Node): nat {
    if n.File? then |n.content| else 0
  }

  /** One entry of the manifest, as JSON. */
  function EntryBytes(e: Entry): nat {
    |"{'path':'','kind':'','size':,'mode':,'uid':,'gid':}"|
    + PathBytes(e.path) + DecimalBytes(Size(e.node)) + DecimalBytes(MetaOf(e.node).mode)
    + DecimalBytes(MetaOf(e.node).owner) + DecimalBytes(MetaOf(e.node).group)
    + if e.node.Directory? then |"directory"| else |"file"| + |",'sha256':''"| + HASH_LENGTH
  }

  /** The entries with commas between them. */
  function FilesBytes(es: seq<Entry>): nat {
    if es == [] then 0 else EntryBytes(es[0]) + (if |es| > 1 then 1 else 0) + FilesBytes(es[1..])
  }

  function ManifestBytes(m: Manifest): nat {
    m.others + FilesBytes(m.files)
  }

  // ---- reading a snapshot ----

  predicate NamesFit(p: Path) {
    forall i :: 0 <= i < |p| ==> COLON !in p[i] && Scannable(p[i])
  }

  predicate ValidEntry(e: Entry) {
    e.path != [] && NamesFit(e.path) && !e.node.Special? && Size(e.node) <= MAX_SAFE_INTEGER
  }

  /** The size and shape of the manifest, and the copied files against it. */
  predicate ReadSnapshot(s: Snapshot) {
    && ManifestBytes(s.manifest) <= MAX_MANIFEST
    && |s.manifest.files| <= MAX_FILES
    && (forall i :: 0 <= i < |s.manifest.files| ==> ValidEntry(s.manifest.files[i]))
    && (forall i, j :: 0 <= i < j < |s.manifest.files| ==> s.manifest.files[i].path != s.manifest.files[j].path)
    && Verifies(s.files, s.manifest.files)
  }

  // ---- which trees can come back ----

  /** No name with a colon, and no file whose size is not a safe integer. */
  predicate Restorable(t: Tree, excluded: set<Name>) {
    forall p :: p in t && p in Visible(t, excluded) ==> Fits(p, t[p])
  }

  predicate Fits(p: Path, n: Node) {
    Size(n) <= MAX_SAFE_INTEGER && forall i :: 0 <= i < |p| ==> COLON !in p[i]
  }

  /** The entries of a scan are the visible nodes, each under names that the scan accepted. */
  lemma ScannedEntries(t: Tree, excluded: set<Name>, es: seq<Entry>)
    requires IsTree(t) && Scan(t, excluded) == Some(es)
    ensures forall i :: 0 <= i < |es| ==> es[i].path in Visible(t, excluded) && t[es[i].path] == es[i].node
    ensures forall p :: p in Visible(t, excluded) ==> exists i :: 0 <= i < |es| && es[i].path == p
  {
    ScanIsFaithful(t, excluded);
    ScanIsUnique(t, excluded);
    forall i | 0 <= i < |es| ensures es[i].path in Visible(t, excluded) && t[es[i].path] == es[i].node {
      ListedAt(es, i);
      assert es[i].path in Part(t, Visible(t, excluded));
    }
    forall p | p in Visible(t, excluded) ensures exists i :: 0 <= i < |es| && es[i].path == p {
      ListedPaths(es, p);
      assert p in Part(t, Visible(t, excluded));
    }
  }

  /** Every name on the way to a visible node was scanned. */
  lemma NamesAreScannable(t: Tree, excluded: set<Name>, es: seq<Entry>, p: Path, k: nat)
    requires IsTree(t) && Scan(t, excluded) == Some(es) && p in Visible(t, excluded) && k < |p|
    ensures Scannable(p[k])
  {
    ScannedEntries(t, excluded, es);
    AncestorInTree(t, p, k + 1);
    var q := p[..k + 1];
    assert q[0] == p[0] && q in Visible(t, excluded);
    var i :| 0 <= i < |es| && es[i].path == q;
    assert !Refused(es[i]);
  }

  /** The entries are valid exactly if the tree can come back. */
  lemma EntriesAreValidExactly(t: Tree, excluded: set<Name>, es: seq<Entry>)
    requires IsTree(t) && Scan(t, excluded) == Some(es)
    ensures (forall i :: 0 <= i < |es| ==> ValidEntry(es[i])) <==> Restorable(t, excluded)
  {
    hide Scan, IsTree, Visible, Scannable;
    ScannedEntries(t, excluded, es);
    ScanIsBounded(t, excluded, es);
    if Restorable(t, excluded) {
      forall i | 0 <= i < |es| ensures ValidEntry(es[i]) {
        forall k | 0 <= k < |es[i].path| ensures Scannable(es[i].path[k]) {
          NamesAreScannable(t, excluded, es, es[i].path, k);
        }
        VisibleIsBelowRoot(t, excluded, es[i].path);
        assert Fits(es[i].path, t[es[i].path]);
      }
    } else {
      var p :| p in t && p in Visible(t, excluded) && !Fits(p, t[p]);
      var i :| 0 <= i < |es| && es[i].path == p;
      assert !ValidEntry(es[i]);
    }
  }

  /** Exactly these trees give a snapshot that is read again, all others one that never is. */
  lemma SnapshotIsReadExactly(t: Tree, excluded: set<Name>, es: seq<Entry>, others: nat)
    requires IsTree(t) && Scan(t, excluded) == Some(es)
    ensures Build(es, map[]).Some?
    ensures
      var m := Manifest(es, others);
      ReadSnapshot(Snapshot(m, Build(es, map[]).value)) <==> Restorable(t, excluded) && ManifestBytes(m) <= MAX_MANIFEST
  {
    hide Build, Verifies, IsTree, Scan, ManifestBytes, Restorable, ValidEntry;
    BackupVerifies(t, excluded, es);
    ScanIsUnique(t, excluded);
    ScanIsBounded(t, excluded, es);
    EntriesAreValidExactly(t, excluded, es);
  }

  lemma ScanIsBounded(t: Tree, excluded: set<Name>, es: seq<Entry>)
    requires Scan(t, excluded) == Some(es)
    ensures |es| <= MAX_FILES && forall i :: 0 <= i < |es| ==> !es[i].node.Special?
  {
  }

  lemma VisibleIsBelowRoot(t: Tree, excluded: set<Name>, p: Path)
    requires p in Visible(t, excluded)
    ensures p in t && p != []
  {
  }

  // ---- what is backed up and never comes back ----

  const COLON_NAME: Name := [97, 58, 98]

  /** A directory with one file named "a:b" is scanned, copied, verified and published; the snapshot
      is refused by every later reading. */
  lemma ColonIsBackedUpAndLost(content: seq<nat>, meta: Meta, others: nat)
    ensures
      var t: Tree := map[[COLON_NAME] := File(content, meta)];
      var es := [Entry([COLON_NAME], File(content, meta))];
      && IsTree(t) && Scan(t, {}) == Some(es)
      && Build(es, map[]).Some? && Verifies(Build(es, map[]).value, es)
      && !ReadSnapshot(Snapshot(Manifest(es, others), Build(es, map[]).value))
  {
    var t: Tree := map[[COLON_NAME] := File(content, meta)];
    var es := [Entry([COLON_NAME], File(content, meta))];
    OneFileIsScanned(COLON_NAME, File(content, meta));
    BackupVerifies(t, {}, es);
    assert !NamesFit(es[0].path);
    assert !ValidEntry(es[0]);
  }

  lemma SortedOne(n: Name)
    ensures Sorted({n}) == [n]
  {
  }

  lemma OneFileIsScanned(n: Name, file: Node)
    requires file.File? && Scannable(n)
    ensures
      var t: Tree := map[[n] := file];
      IsTree(t) && Scan(t, {}) == Some([Entry([n], file)])
  {
    var t: Tree := map[[n] := file];
    assert Below([], [n]) && [] + [n] == [n];
    assert Names(t, []) - {} == {n};
    SortedOne(n);
    OneFileIsVisited(t, n);
    hide VisitNames, Visit, Names, Sorted, IsName;
  }

  lemma OneFileIsVisited(t: Tree, n: Name)
    requires [n] in t && t[[n]].File?
    ensures VisitNames(t, [], [n]) == [Entry([n], t[[n]])]
  {
    assert [] + [n] == [n] && [n][1..] == [];
  }

  // ---- there and back ----

  /** Scan, copy, verify, publish. */
  method TakeSnapshot(t: Tree, excluded: set<Name>, others: nat) returns (s: Option<Snapshot>)
    requires IsTree(t)
    ensures s.Some? <==> Scan(t, excluded).Some?
    ensures s.Some? ==>
      && s.value.manifest == Manifest(Scan(t, excluded).value, others)
      && Build(s.value.manifest.files, map[]) == Some(s.value.files)
      && IsTree(s.value.files) && Verifies(s.value.files, s.value.manifest.files)
  {
    var scanned := Scan(t, excluded);
    if scanned.None? {
      return None;
    }
    BackupVerifies(t, excluded, scanned.value);
    var files := Build(scanned.value, map[]);
    return Some(Snapshot(Manifest(scanned.value, others), files.value));
  }

  /** Back up a tree, let anything happen to it, restore: without faults the tree comes back exactly when
      it can be scanned, its snapshot can be read, and what is there by then can be displaced. */
  method RoundTrip(t: Tree, u: Tree, excluded: set<Name>, others: nat) returns (restored: bool, data: Tree)
    requires IsTree(t) && IsTree(u)
    ensures restored <==>
      && Scan(t, excluded).Some? && Restorable(t, excluded)
      && ManifestBytes(Manifest(Scan(t, excluded).value, others)) <= MAX_MANIFEST
      && Scan(u, excluded).Some?
    ensures data == if restored then Aside(u, excluded) + Part(t, Visible(t, excluded)) else u
  {
    hide Scan, ManifestBytes, Restorable, Verifies, Build, Visible;
    var s := TakeSnapshot(t, excluded, others);
    if s.None? {
      return false, u;
    }
    SnapshotIsReadExactly(t, excluded, s.value.manifest.files, others);
    if !ReadSnapshot(s.value) || Scan(u, excluded).None? {
      return false, u;
    }
    var restoration := new Restoration(u, s.value.files, s.value.manifest.files, excluded, false);
    restored := restoration.Restore(t);
    data := restoration.data;
  }
}
