/** The restoration as it runs, one file system call after the other, any of which may fail. */
module StorageVolume {
  import opened StorageNames
  import opened StorageTree
  import opened StorageRestore
  import opened Wrappers

  class Restoration {
    /** The data directory, and the copies of what was displaced from it. */
    var data: Tree
    var kept: Tree
    const snapshot: Tree
    const manifest: seq<Entry>
    const excluded: set<Name>
    const faulty: bool
    /** Every state the disk was in. */
    ghost var trace: seq<Disk>

    constructor (data: Tree, snapshot: Tree, manifest: seq<Entry>, excluded: set<Name>, faulty: bool)
      ensures this.data == data && this.kept == map[] && this.snapshot == snapshot && this.manifest == manifest
      ensures this.excluded == excluded && this.faulty == faulty && trace == [Disk(data, map[])]
    {
      this.data, this.kept, this.snapshot, this.manifest := data, map[], snapshot, manifest;
      this.excluded, this.faulty, trace := excluded, faulty, [Disk(data, map[])];
    }

    ghost predicate AllSafe(u: Tree)
      reads this
    {
      Safe(u, excluded, Disk(data, kept)) && forall i :: 0 <= i < |trace| ==> Safe(u, excluded, trace[i])
    }

    method Fails() returns (fault: bool)
      ensures !faulty ==> !fault
    {
      var chance: bool := *;
      fault := faulty && chance;
    }

    // ---- single calls ----

    method CopyAway(p: Path, n: Node) returns (ok: bool)
      modifies this`kept, this`trace
      ensures trace == old(trace) + [Disk(data, kept)]
      ensures ok ==> CanCreate(old(kept), p) && kept == old(kept)[p := Bare(n)]
      ensures !ok && kept != old(kept) ==> p !in old(kept) && kept.Keys == old(kept).Keys + {p}
      ensures !ok && kept != old(kept) ==> forall q :: q in old(kept) ==> kept[q] == old(kept)[q]
      ensures CanCreate(old(kept), p) && !faulty ==> ok
    {
      ok := CanCreate(kept, p);
      var fault := Fails();
      if ok && fault {
        ok := false;
        var partial: bool := *;
        var some: seq<nat> := *;
        if partial {
          kept := kept[p := File(some, PRIVATE)];
        }
      } else if ok {
        kept := kept[p := Bare(n)];
      }
      trace := trace + [Disk(data, kept)];
    }

    method Remove(p: Path) returns (ok: bool)
      modifies this`data, this`trace
      ensures trace == old(trace) + [Disk(data, kept)]
      ensures data == if ok then old(data) - {p} else old(data)
      ensures !faulty ==> ok
    {
      var fault := Fails();
      ok := !fault;
      if ok {
        data := data - {p};
      }
      trace := trace + [Disk(data, kept)];
    }

    /** Create an entry of the manifest; the content comes from the snapshot. */
    method Create(e: Entry) returns (ok: bool)
      modifies this`data, this`trace
      ensures trace == old(trace) + [Disk(data, kept)]
      ensures ok ==> CanCreate(old(data), e.path) && e.path in data && data == old(data)[e.path := data[e.path]]
      ensures ok && e.path in snapshot && Bare(snapshot[e.path]) == Bare(e.node) && !e.node.Special? ==> data[e.path] == Bare(e.node)
      ensures !ok ==> forall q :: q in old(data) ==> q in data && data[q] == old(data)[q]
      ensures !ok ==> data.Keys <= old(data).Keys + {e.path}
      ensures
        (!faulty && CanCreate(old(data), e.path) && !e.node.Special? &&
         e.path in snapshot && Bare(snapshot[e.path]) == Bare(e.node)) ==> ok
    {
      ok := CanCreate(data, e.path);
      var fault := Fails();
      if ok && fault {
        ok := false;
        var partial: bool := *;
        var some: seq<nat> := *;
        if partial {
          data := data[e.path := File(some, PRIVATE)];
        }
      } else if ok && e.node.Directory? {
        data := data[e.path := Directory(PRIVATE)];
      } else if ok && e.path in snapshot && snapshot[e.path].File? {
        data := data[e.path := File(snapshot[e.path].content, PRIVATE)];
      } else {
        ok := false;
      }
      trace := trace + [Disk(data, kept)];
    }

    method SetMeta(p: Path, m: Meta) returns (ok: bool)
      modifies this`data, this`trace
      ensures trace == old(trace) + [Disk(data, kept)]
      ensures ok ==> p in old(data) && data == old(data)[p := WithMeta(old(data)[p], m)]
      ensures !ok ==> data == old(data)
      ensures !faulty && p in old(data) ==> ok
    {
      var fault := Fails();
      ok := !fault && p in data;
      if ok {
        data := data[p := WithMeta(data[p], m)];
      }
      trace := trace + [Disk(data, kept)];
    }

    // ---- displacing ----

    /** Copy a top-level entry to quarantine. */
    method CopyTop(n: Name, ghost u: Tree) returns (ok: bool)
      requires AllSafe(u) && IsTree(u) && IsTree(data) && [n] in u && Intact(u, data, n) && TopOf(kept, n) == {}
      requires forall p :: p in TopOf(u, n) ==> !u[p].Special?
      modifies this`kept, this`trace
      ensures AllSafe(u)
      ensures ok ==> kept == old(kept) + BarePart(u, TopOf(u, n))
      ensures !faulty ==> ok
    {
      hide Safe, IsTree, VisitNames, Intact, BarePart, CanCreate;
      var es := VisitNames(data, [], [n]);
      TopBuilds(data, u, n, kept);
      ghost var before := kept;
      assert es[..0] == [];
      for i := 0 to |es|
        invariant AllSafe(u) && Build(es, before).Some? && Build(es[..i], before) == Some(kept)
      {
        BuildNext(es, before, i);
        label Before:
        ok := CopyAway(es[i].path, es[i].node);
        SafeWhenKeptGrows(u, excluded, data, old@Before(kept), kept);
        if !ok {
          return false;
        }
      }
      assert es[..|es|] == es;
      return true;
    }

    /** Remove a top-level entry that is complete in quarantine, what is below first. */
    method RemoveTop(n: Name, ghost u: Tree) returns (ok: bool)
      requires AllSafe(u) && [n] in data && n !in excluded && Kept(u, kept, n) && IsTree(data)
      modifies this`data, this`trace
      ensures AllSafe(u)
      ensures ok ==> data == old(data) - TopOf(old(data), n)
      ensures Aside(data, excluded) == Aside(old(data), excluded)
      ensures !faulty ==> ok
    {
      hide Safe, Kept, Aside, IsTree, VisitNames;
      var es := VisitNames(data, [], [n]);
      ghost var before := data;
      TopIsListed(data, n);
      assert es[|es|..] == [] && data == before - PathsOf([]);
      for i := |es| downto 0
        invariant AllSafe(u) && data == before - PathsOf(es[i..])
      {
        PathsOfNext(es, i);
        assert es[i].path in PathsOf(es);
        label Before:
        ok := Remove(es[i].path);
        SafeWhenRemoved(u, excluded, kept, n, old@Before(data), data);
        if !ok {
          AsideKept(before, data, es[i + 1..], excluded, n);
          return false;
        }
      }
      assert es[0..] == es;
      AsideKept(before, data, es, excluded, n);
      return true;
    }

    method DisplaceTop(n: Name, ghost u: Tree) returns (ok: bool)
      requires AllSafe(u) && n !in excluded && Displaceable(u, data, kept, n)
      modifies this`data, this`kept, this`trace
      ensures AllSafe(u) && Aside(data, excluded) == Aside(old(data), excluded)
      ensures ok ==> data == old(data) - TopOf(old(data), n) && kept == old(kept) + BarePart(u, TopOf(u, n))
      ensures !faulty ==> ok
    {
      ok := CopyTop(n, u);
      if ok {
        CopiedIsKept(u, old(kept), n);
        ok := RemoveTop(n, u);
      }
    }

    /** Every top-level entry goes to quarantine, one after the other. */
    method Displace(ghost u: Tree) returns (ok: bool)
      requires AllSafe(u) && IsTree(u) && data == u && kept == map[] && Scan(u, excluded).Some?
      modifies this`data, this`kept, this`trace
      ensures AllSafe(u) && Aside(data, excluded) == Aside(u, excluded)
      ensures ok ==> data == Aside(u, excluded) && forall n :: n in Names(u, []) && n !in excluded ==> Kept(u, kept, n)
      ensures !faulty ==> ok
    {
      hide BarePart, Tops, TopOf, Kept, Aside, IsTree, Safe, Scan, Names, Displaceable;
      var names := Sorted(Names(data, []) - excluded);
      NoTops(u);
      for i := 0 to |names|
        invariant AllSafe(u) && Aside(data, excluded) == Aside(u, excluded)
        invariant data == u - Tops(u, names[..i]) && kept == BarePart(u, Tops(u, names[..i]))
      {
        NextTop(u, excluded, names, i, data, kept);
        ok := DisplaceTop(names[i], u);
        if !ok {
          return false;
        }
        NextGone(u, names, i);
        NextKept(u, names, i);
      }
      assert names[..|names|] == names;
      AllGone(u, excluded, names, kept);
      return true;
    }

    // ---- rebuilding ----

    /** Create every entry of the manifest over what was left in place. */
    method CreateAll(ghost u: Tree) returns (ok: bool)
      requires AllSafe(u) && AllKept(u, excluded, kept) && Verifies(snapshot, manifest) && IsTree(snapshot)
      requires Build(manifest, data) == Some(data + BarePart(snapshot, snapshot.Keys))
      requires forall p :: p in Listed(manifest) && p != [] ==> p[0] !in excluded
      modifies this`data, this`trace
      ensures AllSafe(u) && Aside(data, excluded) == Aside(old(data), excluded)
      ensures ok ==> data == old(data) + BarePart(snapshot, snapshot.Keys)
      ensures !faulty ==> ok
    {
      hide BarePart, Safe, Verifies, Listed, Kept, IsTree, Aside;
      ghost var before := data;
      assert manifest[..0] == [];
      for i := 0 to |manifest|
        invariant AllSafe(u) && Build(manifest[..i], before) == Some(data)
        invariant Aside(data, excluded) == Aside(before, excluded)
      {
        BuildNext(manifest, before, i);
        EntryIsInSnapshot(snapshot, manifest, excluded, i);
        label Before:
        ok := Create(manifest[i]);
        SafeWhenAllKept(u, excluded, kept, data);
        AsideUntouched(old@Before(data), data, manifest[i].path, excluded);
        if !ok {
          return false;
        }
      }
      assert manifest[..|manifest|] == manifest;
      return true;
    }

    /** Owners and modes, in reverse. */
    method SetAll(ghost u: Tree, ghost aside: Tree) returns (ok: bool)
      requires AllSafe(u) && AllKept(u, excluded, kept) && data == Progress(aside, manifest, |manifest|)
      requires Unique(manifest) && forall p :: p in Listed(manifest) && p != [] ==> p[0] !in excluded
      modifies this`data, this`trace
      ensures AllSafe(u) && Aside(data, excluded) == Aside(old(data), excluded)
      ensures ok ==> data == Progress(aside, manifest, 0)
      ensures !faulty ==> ok
    {
      hide Safe, Listed, Kept, Aside, Progress, Unique;
      for i := |manifest| downto 0
        invariant AllSafe(u) && data == Progress(aside, manifest, i) && Aside(data, excluded) == Aside(old(data), excluded)
      {
        var e := manifest[i];
        ProgressNext(aside, manifest, i);
        ListedPathAllowed(manifest, excluded, i);
        label Before:
        ok := SetMeta(e.path, MetaOf(e.node));
        SafeWhenAllKept(u, excluded, kept, data);
        AsideUntouched(old@Before(data), data, e.path, excluded);
        if !ok {
          return false;
        }
      }
      return true;
    }

    /** Restore the snapshot of `t`, whose list is the manifest, over whatever is there now. */
    method Restore(ghost t: Tree) returns (ok: bool)
      requires IsTree(data) && IsTree(snapshot) && IsTree(t) && Scan(t, excluded) == Some(manifest)
      requires kept == map[] && trace == [Disk(data, kept)]
      modifies this`data, this`kept, this`trace
      ensures AllSafe(old(data))
      ensures Aside(data, excluded) == Aside(old(data), excluded)
      ensures ok ==> data == Aside(old(data), excluded) + Part(t, Visible(t, excluded)) && Scan(data, excluded) == Some(manifest)
      ensures !faulty && Verifies(snapshot, manifest) && Scan(old(data), excluded).Some? ==> ok
    {
      ghost var u := data;
      StartIsSafe(u, excluded, kept);
      if !Verifies(snapshot, manifest) || Scan(data, excluded).None? {
        return false;
      }
      ok := Displace(u);
      if !ok {
        return false;
      }
      ghost var aside := data;
      ManifestIsReady(t, snapshot, manifest, u, excluded);
      ok := CreateAll(u);
      if !ok {
        return false;
      }
      CreatedIsProgress(snapshot, manifest, aside);
      ok := SetAll(u, aside);
      if !ok {
        return false;
      }
      RestoredIsWhole(t, manifest, u, excluded);
      return Scan(data, excluded) == Some(manifest);
    }
  }

  // ---- rebuilding, on values ----

  ghost predicate AllKept(u: Tree, excluded: set<Name>, kept: Tree) {
    forall n :: n in Names(u, []) && n !in excluded ==> Kept(u, kept, n)
  }

  ghost predicate Unique(es: seq<Entry>) {
    forall i, j :: 0 <= i < j < |es| ==> es[i].path != es[j].path
  }

  /** The tree when the entries from `i` on have their owners and modes. */
  function Progress(aside: Tree, es: seq<Entry>, i: nat): Tree
    requires i <= |es|
  {
    aside + Listed(Bared(es[..i])) + Listed(es[i..])
  }

  function Bared(es: seq<Entry>): seq<Entry> {
    seq(|es|, i requires 0 <= i < |es| => Entry(es[i].path, Bare(es[i].node)))
  }

  lemma SafeWhenAllKept(u: Tree, excluded: set<Name>, kept: Tree, data: Tree)
    requires AllKept(u, excluded, kept)
    ensures Safe(u, excluded, Disk(data, kept))
  {
  }

  lemma StartIsSafe(u: Tree, excluded: set<Name>, kept: Tree)
    ensures Safe(u, excluded, Disk(u, kept))
  {
  }

  /** What happens at a path that is not excluded leaves the excluded ones alone. */
  lemma AsideUntouched(data: Tree, data': Tree, p: Path, excluded: set<Name>)
    requires p != [] ==> p[0] !in excluded
    requires forall q :: q in data && q != p ==> q in data' && data'[q] == data[q]
    requires data'.Keys <= data.Keys + {p} && (p in data ==> p in data')
    ensures Aside(data', excluded) == Aside(data, excluded)
  {
  }

  lemma ListedPathAllowed(es: seq<Entry>, excluded: set<Name>, i: nat)
    requires i < |es| && forall p :: p in Listed(es) && p != [] ==> p[0] !in excluded
    ensures es[i].path != [] ==> es[i].path[0] !in excluded
  {
    ListedPaths(es, es[i].path);
  }

  lemma EntryIsInSnapshot(s: Tree, es: seq<Entry>, excluded: set<Name>, i: nat)
    requires IsTree(s) && Verifies(s, es) && i < |es|
    requires forall p :: p in Listed(es) && p != [] ==> p[0] !in excluded
    ensures es[i].path in s && Bare(s[es[i].path]) == Bare(es[i].node)
    ensures es[i].path != [] ==> es[i].path[0] !in excluded
  {
    ListedPathAllowed(es, excluded, i);
    var actual := Scan(s, {}).value;
    assert actual[i].path == es[i].path && Bare(actual[i].node) == Bare(es[i].node);
    ScanIsFaithful(s, {});
    ScanIsUnique(s, {});
    ListedAt(actual, i);
  }

  lemma {:induction false} ListedAt(es: seq<Entry>, i: nat)
    requires Unique(es) && i < |es|
    ensures es[i].path in Listed(es) && Listed(es)[es[i].path] == es[i].node
    decreases |es|
  {
    if i > 0 {
      ListedAt(es[1..], i - 1);
    } else {
      ListedPaths(es[1..], es[0].path);
      assert forall j :: 0 <= j < |es[1..]| ==> es[1..][j].path == es[j + 1].path;
    }
  }

  lemma {:induction false} BuiltIsUnique(es: seq<Entry>, t: Tree)
    requires Build(es, t).Some?
    ensures Unique(es) && forall i :: 0 <= i < |es| ==> es[i].path !in t
    decreases |es|
  {
    if es != [] {
      BuiltIsUnique(es[1..], t[es[0].path := Bare(es[0].node)]);
      forall i | 0 < i < |es| ensures es[i].path != es[0].path && es[i].path !in t {
        assert es[i] == es[1..][i - 1];
      }
    }
  }

  lemma ScanIsUnique(t: Tree, excluded: set<Name>)
    requires IsTree(t) && Scan(t, excluded).Some?
    ensures Unique(Scan(t, excluded).value)
  {
    var es := Scan(t, excluded).value;
    VisibleIsCovered(t, excluded);
    VisibleIsPlain(t, excluded);
    var names := Sorted(Names(t, []) - excluded);
    var v := Part(t, Visible(t, excluded));
    VisibleIsATree(t, excluded);
    VisitVisible(t, excluded, names);
    assert FreeFor(map[], [], names);
    ScanRebuilds(v, [], names, map[]);
    BuiltIsUnique(es, map[]);
  }

  lemma {:induction false} BaredLists(es: seq<Entry>)
    ensures Listed(Bared(es)).Keys == Listed(es).Keys
    ensures forall p :: p in Listed(es) ==> Listed(Bared(es))[p] == Bare(Listed(es)[p])
    decreases |es|
  {
    if es != [] {
      assert Bared(es)[1..] == Bared(es[1..]);
      BaredLists(es[1..]);
    }
  }

  /** Just created, the tree has everything but owners and modes. */
  lemma CreatedIsProgress(s: Tree, es: seq<Entry>, aside: Tree)
    requires IsTree(s) && Verifies(s, es)
    ensures aside + BarePart(s, s.Keys) == Progress(aside, es, |es|)
  {
    hide Verifies, IsTree;
    VerifiedHolds(s, es);
    BaredLists(es);
    AllBared(s, es);
    assert es[..|es|] == es && es[|es|..] == [] && Listed([]) == map[];
  }

  lemma AllBared(s: Tree, es: seq<Entry>)
    requires s.Keys == Listed(es).Keys == Listed(Bared(es)).Keys
    requires forall p :: p in s ==> Bare(s[p]) == Bare(Listed(es)[p])
    requires forall p :: p in Listed(es) ==> Listed(Bared(es))[p] == Bare(Listed(es)[p])
    ensures BarePart(s, s.Keys) == Listed(Bared(es))
  {
  }

  lemma ProgressNext(aside: Tree, es: seq<Entry>, i: nat)
    requires i < |es| && Unique(es)
    ensures
      var before, p := Progress(aside, es, i + 1), es[i].path;
      p in before && before[p := WithMeta(before[p], MetaOf(es[i].node))] == Progress(aside, es, i)
  {
    hide Listed, Bared, Unique, WithMeta, Bare;
    var e := es[i];
    var bare := Entry(e.path, Bare(e.node));
    BaredNext(es, i);
    ListedInTwo(Bared(es[..i]), [bare]);
    LaterPathsDiffer(es, i);
    FixedIsListed(Bare(e.node), e.node);
    OneListed(bare);
    ListedNext(es, i);
    ReplaceAt(aside, Listed(Bared(es[..i])), Listed(es[i + 1..]), e.path, Bare(e.node), e.node);
  }

  lemma BaredNext(es: seq<Entry>, i: nat)
    requires i < |es|
    ensures Bared(es[..i + 1]) == Bared(es[..i]) + [Entry(es[i].path, Bare(es[i].node))]
  {
  }

  lemma ListedNext(es: seq<Entry>, i: nat)
    requires i < |es|
    ensures Listed(es[i..]) == map[es[i].path := es[i].node] + Listed(es[i + 1..])
  {
  }

  lemma OneListed(e: Entry)
    ensures Listed([e]) == map[e.path := e.node]
  {
  }

  lemma LaterPathsDiffer(es: seq<Entry>, i: nat)
    requires i < |es| && Unique(es)
    ensures es[i].path !in Listed(es[i + 1..])
  {
    ListedPaths(es[i + 1..], es[i].path);
    assert forall k :: i < k < |es| ==> es[k].path != es[i].path;
  }

  lemma ReplaceAt(a: Tree, done: Tree, later: Tree, p: Path, bare: Node, n: Node)
    requires p !in later
    ensures var before := a + (done + map[p := bare]) + later;
      before[p] == bare && before[p := n] == a + done + (map[p := n] + later)
  {
  }

  /** The manifest of a backup is about what is not excluded, and can be built beside what is. */
  lemma ManifestIsReady(t: Tree, s: Tree, es: seq<Entry>, u: Tree, excluded: set<Name>)
    requires IsTree(t) && IsTree(s) && Scan(t, excluded) == Some(es) && Verifies(s, es)
    ensures Unique(es) && forall p :: p in Listed(es) && p != [] ==> p[0] !in excluded
    ensures Build(es, Aside(u, excluded)) == Some(Aside(u, excluded) + BarePart(s, s.Keys))
  {
    ScanIsFaithful(t, excluded);
    ScanIsUnique(t, excluded);
    ManifestBuilds(s, es, Aside(u, excluded), excluded);
  }

  /** With owners and modes put right, the tree is the backed-up one beside what was left in place. */
  lemma RestoredIsWhole(t: Tree, es: seq<Entry>, u: Tree, excluded: set<Name>)
    requires IsTree(t) && Scan(t, excluded) == Some(es)
    ensures
      var data := Progress(Aside(u, excluded), es, 0);
      data == Aside(u, excluded) + Part(t, Visible(t, excluded)) && Scan(data, excluded) == Some(es)
  {
    hide Scan, Aside, Progress;
    ScanIsFaithful(t, excluded);
    LastProgress(t, es, u, excluded);
    RestoredScansTheSame(t, excluded, es, Progress(Aside(u, excluded), es, 0));
  }

  lemma LastProgress(t: Tree, es: seq<Entry>, u: Tree, excluded: set<Name>)
    requires Listed(es) == Part(t, Visible(t, excluded))
    ensures
      var data := Progress(Aside(u, excluded), es, 0);
      && data == Aside(u, excluded) + Part(t, Visible(t, excluded))
      && Part(data, Visible(data, excluded)) == Listed(es)
  {
  }

  lemma VisibleIsATree(t: Tree, excluded: set<Name>)
    requires IsTree(t)
    ensures IsTree(Part(t, Visible(t, excluded)))
  {
  }

  lemma VisibleAgrees(t: Tree, excluded: set<Name>, names: seq<Name>)
    requires IsTree(t) && forall n :: n in names ==> n !in excluded
    ensures Agree(t, Part(t, Visible(t, excluded)), [], names)
  {
  }

  lemma VisitVisible(t: Tree, excluded: set<Name>, names: seq<Name>)
    requires IsTree(t) && names == Sorted(Names(t, []) - excluded)
    ensures var v := Part(t, Visible(t, excluded));
      VisitNames(v, [], names) == VisitNames(t, [], names) && forall n :: n in names ==> [] + [n] in v
  {
    hide VisitNames, Agree, IsTree;
    var v := Part(t, Visible(t, excluded));
    VisibleAgrees(t, excluded, names);
    ScansAgree(t, v, [], names);
    VisibleIsCovered(t, excluded);
    forall n | n in names ensures [] + [n] in v {
      assert [] + [n] == [n];
    }
  }

  /** The entry is still as it was, and can be copied and removed. */
  ghost predicate Displaceable(u: Tree, data: Tree, kept: Tree, n: Name) {
    && IsTree(u) && IsTree(data) && [n] in u && [n] in data && Intact(u, data, n) && TopOf(kept, n) == {}
    && forall p :: p in TopOf(u, n) ==> !u[p].Special?
  }

  function Tops(u: Tree, names: seq<Name>): set<Path> {
    set p | p in u && p != [] && p[0] in names
  }

  lemma NoTops(u: Tree)
    ensures forall names: seq<Name> :: names == [] ==> u - Tops(u, names) == u && BarePart(u, Tops(u, names)) == map[]
  {
  }

  lemma VisibleIsPlain(u: Tree, excluded: set<Name>)
    requires IsTree(u) && Scan(u, excluded).Some?
    ensures forall p :: p in Visible(u, excluded) ==> !u[p].Special?
  {
    ScanIsFaithful(u, excluded);
    var es := Scan(u, excluded).value;
    forall p | p in Visible(u, excluded) ensures !u[p].Special? {
      assert p in Listed(es) && Listed(es)[p] == u[p];
      NodesAreListed(es, p);
    }
  }

  lemma NextTop(u: Tree, excluded: set<Name>, names: seq<Name>, i: nat, data: Tree, kept: Tree)
    requires IsTree(u) && Scan(u, excluded).Some? && names == Sorted(Names(u, []) - excluded) && i < |names|
    requires data == u - Tops(u, names[..i]) && kept == BarePart(u, Tops(u, names[..i]))
    ensures names[i] !in excluded && Displaceable(u, data, kept, names[i])
  {
    VisibleIsCovered(u, excluded);
    VisibleIsPlain(u, excluded);
    hide Scan, Names;
    assert names[i] in names;
    WithoutTopsIsATree(u, names[..i]);
    OtherTopsStay(u, names, i);
  }

  lemma OtherTopsStay(u: Tree, names: seq<Name>, i: nat)
    requires i < |names| && forall j :: 0 <= j < i ==> names[j] != names[i]
    ensures Intact(u, u - Tops(u, names[..i]), names[i])
    ensures TopOf(BarePart(u, Tops(u, names[..i])), names[i]) == {}
    ensures [names[i]] in u ==> [names[i]] in u - Tops(u, names[..i])
  {
  }

  lemma WithoutTopsIsATree(u: Tree, names: seq<Name>)
    requires IsTree(u)
    ensures IsTree(u - Tops(u, names))
  {
  }

  lemma CopiedIsKept(u: Tree, kept: Tree, n: Name)
    ensures Kept(u, kept + BarePart(u, TopOf(u, n)), n)
  {
  }

  lemma NextKept(u: Tree, names: seq<Name>, i: nat)
    requires i < |names|
    ensures BarePart(u, Tops(u, names[..i])) + BarePart(u, TopOf(u, names[i])) == BarePart(u, Tops(u, names[..i + 1]))
  {
  }

  lemma NextGone(u: Tree, names: seq<Name>, i: nat)
    requires i < |names|
    ensures var data := u - Tops(u, names[..i]); data - TopOf(data, names[i]) == u - Tops(u, names[..i + 1])
  {
  }

  lemma AllGone(u: Tree, excluded: set<Name>, names: seq<Name>, kept: Tree)
    requires IsTree(u) && names == Sorted(Names(u, []) - excluded) && kept == BarePart(u, Tops(u, names))
    ensures u - Tops(u, names) == Aside(u, excluded)
    ensures forall n :: n in Names(u, []) && n !in excluded ==> Kept(u, kept, n)
  {
    forall p | p in u ensures p != [] && p[0] in Names(u, []) {
      AncestorInTree(u, p, 1);
      assert Below([], p[..1]);
    }
  }

  function PathsOf(es: seq<Entry>): set<Path> {
    set i | 0 <= i < |es| :: es[i].path
  }

  lemma PathsOfNext(es: seq<Entry>, i: nat)
    requires i < |es|
    ensures PathsOf(es[i..]) == PathsOf(es[i + 1..]) + {es[i].path}
  {
  }

  /** The list of one name is what is at the top under that name. */
  lemma TopIsListed(t: Tree, n: Name)
    requires IsTree(t) && [n] in t
    ensures PathsOf(VisitNames(t, [], [n])) == TopOf(t, n)
  {
    var es := VisitNames(t, [], [n]);
    assert [] + [n] == [n];
    ScanLists(t, [], [n]);
    forall p ensures p in PathsOf(es) <==> p in TopOf(t, n) {
      ListedPaths(es, p);
      assert p in Listed(es) <==> p in Covered(t, [], [n]);
    }
  }

  /** Quarantine gets a copy of all there is at the top under one name. */
  lemma TopBuilds(data: Tree, u: Tree, n: Name, kept: Tree)
    requires IsTree(u) && [n] in u && Intact(u, data, n) && TopOf(kept, n) == {}
    requires forall p :: p in TopOf(u, n) ==> !u[p].Special?
    ensures Build(VisitNames(data, [], [n]), kept) == Some(kept + BarePart(u, TopOf(u, n)))
  {
    hide Build, VisitNames, BarePart;
    var v := Part(u, TopOf(u, n));
    assert [] + [n] == [n];
    TopIsATree(u, n);
    AgreeOnTop(data, u, n);
    ScansAgree(data, v, [], [n]);
    assert FreeFor(kept, [], [n]) by {
      assert forall p :: p in kept && Below([], p) && p[0] == n ==> p in TopOf(kept, n);
    }
    ScanRebuilds(v, [], [n], kept);
    SamePart(u, n);
  }

  lemma SamePart(u: Tree, n: Name)
    ensures var v := Part(u, TopOf(u, n)); BarePart(v, Covered(v, [], [n])) == BarePart(u, TopOf(u, n))
  {
  }

  lemma TopIsATree(u: Tree, n: Name)
    requires IsTree(u)
    ensures IsTree(Part(u, TopOf(u, n)))
  {
  }

  lemma AgreeOnTop(data: Tree, u: Tree, n: Name)
    requires Intact(u, data, n)
    ensures Agree(data, Part(u, TopOf(u, n)), [], [n])
  {
  }

  /** A copy never unmakes a copy. */
  lemma SafeWhenKeptGrows(u: Tree, excluded: set<Name>, data: Tree, kept: Tree, kept': Tree)
    requires Safe(u, excluded, Disk(data, kept))
    requires forall q :: q in kept ==> q in kept' && kept'[q] == kept[q]
    ensures Safe(u, excluded, Disk(data, kept'))
  {
  }

  /** Removing what is complete in quarantine loses nothing. */
  lemma SafeWhenRemoved(u: Tree, excluded: set<Name>, kept: Tree, n: Name, data: Tree, data': Tree)
    requires Safe(u, excluded, Disk(data, kept)) && Kept(u, kept, n)
    requires forall q: Path :: (q == [] || q[0] != n) ==> (q in data <==> q in data') && (q in data ==> data'[q] == data[q])
    ensures Safe(u, excluded, Disk(data', kept))
  {
  }

  lemma AsideKept(before: Tree, data: Tree, es: seq<Entry>, excluded: set<Name>, n: Name)
    requires data == before - PathsOf(es) && PathsOf(es) <= TopOf(before, n) && n !in excluded
    ensures Aside(data, excluded) == Aside(before, excluded)
  {
  }
}
