/** A snapshot of a tree verifies against its list, so that what was backed up can be restored. */
module StorageBackup {
  import opened StorageNames
  import opened StorageTree
  import opened StorageRestore
  import opened StorageVolume
  import opened Wrappers

  function BareAll(t: Tree): Tree {
    map p | p in t :: Bare(t[p])
  }

  lemma BaredInTwo(a: seq<Entry>, b: seq<Entry>)
    ensures Bared(a + b) == Bared(a) + Bared(b)
  {
  }

  /** The list of a copy is the list of the original, but for owners and modes. */
  lemma {:induction false} CopiesScanAlike(t: Tree, dir: Path, names: seq<Name>)
    ensures VisitNames(BareAll(t), dir, names) == Bared(VisitNames(t, dir, names))
    decreases |Under(t, dir)|, |names|
  {
    var s := BareAll(t);
    if names != [] {
      var p := dir + [names[0]];
      CopiesScanAlike(t, dir, names[1..]);
      if p in t {
        SmallerBelow(t, dir, names[0]);
        SameNames(t, p);
        CopiesScanAlike(t, p, Sorted(Names(t, p)));
        VisitIs(t, p);
        VisitIs(s, p);
        VisitFirst(t, dir, names);
        VisitFirst(s, dir, names);
        hide VisitNames, Visit, Bared, Names;
        BelowAlike(t, p);
        var rest := VisitNames(t, dir, names[1..]);
        BaredInTwo([Entry(p, t[p])], BelowName(t, p) + rest);
        BaredInTwo(BelowName(t, p), rest);
        BaredOne(Entry(p, t[p]));
      }
    }
  }

  lemma BelowAlike(t: Tree, p: Path)
    requires p in t && Visit(BareAll(t), p) == Bared(Visit(t, p))
    ensures BelowName(BareAll(t), p) == Bared(BelowName(t, p))
  {
  }

  lemma BaredOne(e: Entry)
    ensures Bared([e]) == [Entry(e.path, Bare(e.node))]
  {
  }

  lemma SameNames(t: Tree, dir: Path)
    ensures Names(BareAll(t), dir) == Names(t, dir)
  {
  }

  /** Copying the files of a list into an empty directory makes a snapshot that verifies. */
  lemma BackupVerifies(t: Tree, excluded: set<Name>, es: seq<Entry>)
    requires IsTree(t) && Scan(t, excluded) == Some(es)
    ensures Build(es, map[]).Some? && IsTree(Build(es, map[]).value) && Verifies(Build(es, map[]).value, es)
  {
    hide Build, VisitNames, Names, Verifies, Scan, Visible, Part;
    var v := Part(t, Visible(t, excluded));
    VisibleIsScanned(t, excluded, es);
    SnapshotIs(v, es);
    CopyIsATree(v);
    SameNames(v, []);
    CopiesScanAlike(v, [], Sorted(Names(v, [])));
    BaredVerifies(BareAll(v), es, Sorted(Names(v, [])));
  }

  /** The visible part of a tree is itself a tree, and its list is the tree's. */
  lemma VisibleIsScanned(t: Tree, excluded: set<Name>, es: seq<Entry>)
    requires IsTree(t) && Scan(t, excluded) == Some(es)
    ensures
      var v := Part(t, Visible(t, excluded));
      && Plain(v) && es == VisitNames(v, [], Sorted(Names(v, [])))
      && |es| <= MAX_FILES && forall i :: 0 <= i < |es| ==> !Refused(es[i])
  {
    hide VisitNames;
    VisibleIsATree(t, excluded);
    VisitVisible(t, excluded, Sorted(Names(t, []) - excluded));
    VisibleIsPlain(t, excluded);
    VisibleNames(t, excluded);
  }

  /** What copying makes of a list is the tree, but for owners and modes. */
  lemma SnapshotIs(v: Tree, es: seq<Entry>)
    requires Plain(v) && es == VisitNames(v, [], Sorted(Names(v, [])))
    ensures Build(es, map[]) == Some(BareAll(v))
  {
    hide Build, VisitNames, Names, IsTree, FreeFor, BarePart, BareAll, Covered, Under;
    var names := Sorted(Names(v, []));
    NamesAreThere(v, []);
    NothingIsFree(names);
    ScanRebuilds(v, [], names, map[]);
    CoveredByNames(v, []);
    AllUnderRoot(v);
    AllBare(v);
  }

  lemma NothingIsFree(names: seq<Name>)
    ensures FreeFor(map[], [], names)
  {
  }

  lemma AllBare(v: Tree)
    ensures map[] + BarePart(v, v.Keys) == BareAll(v)
  {
  }

  lemma AllUnderRoot(v: Tree)
    requires IsTree(v)
    ensures Under(v, []) == v.Keys
  {
  }

  lemma BaredVerifies(s: Tree, es: seq<Entry>, names: seq<Name>)
    requires VisitNames(s, [], names) == Bared(es) && names == Sorted(Names(s, []))
    requires |es| <= MAX_FILES && forall i :: 0 <= i < |es| ==> !Refused(es[i])
    ensures Verifies(s, es)
  {
    hide Names, VisitNames, Bare, Sorted;
    assert Names(s, []) - {} == Names(s, []);
    BareIsPlain(es);
  }

  lemma BareIsPlain(es: seq<Entry>)
    requires forall i :: 0 <= i < |es| ==> !Refused(es[i])
    ensures forall i :: 0 <= i < |es| ==> !Refused(Bared(es)[i])
    ensures SameKeys(Bared(es), es)
  {
  }

  lemma CopyIsATree(v: Tree)
    requires IsTree(v)
    ensures IsTree(BareAll(v))
  {
  }

  lemma VisibleNames(t: Tree, excluded: set<Name>)
    requires IsTree(t)
    ensures Names(Part(t, Visible(t, excluded)), []) == Names(t, []) - excluded
  {
  }
}
