/** File trees, the list a scan makes of one, and the tree that is built from a list. */
module StorageTree {
  import opened FiniteSets
  import opened StorageNames
  import opened Wrappers

  type Path = seq<Name>

  /** The permission bits of a file, and a user or group. */
  type Mode = x: int | 0 <= x < 0x200
  type Id = x: int | 0 <= x < 0x1_0000_0000

  datatype Meta = Meta(mode: Mode, owner: Id, group: Id)

  /** `Special` stands for links, devices and the like. */
  datatype Node = File(content: seq<nat>, meta: Meta) | Directory(meta: Meta) | Special

  type Tree = map<Path, Node>

  /** An entry of a list; the content stands for size and hash. */
  datatype Entry = Entry(path: Path, node: Node)

  const MAX_FILES := 100_000

  /** What a node is created with. */
  const PRIVATE := Meta(0, 0, 0)

  predicate HasParent(t: Tree, p: Path) {
    p != [] && (|p| > 1 ==> p[..|p| - 1] in t && t[p[..|p| - 1]].Directory?)
  }

  /** Every path hangs on a directory; the root is not in the map. */
  ghost predicate IsTree(t: Tree) {
    forall p :: p in t ==> HasParent(t, p)
  }

  predicate Below(dir: Path, p: Path) {
    |dir| < |p| && p[..|dir|] == dir
  }

  function Under(t: Tree, dir: Path): set<Path> {
    set p | p in t && Below(dir, p)
  }

  function Names(t: Tree, dir: Path): set<Name> {
    set p | p in t && Below(dir, p) && |p| == |dir| + 1 :: p[|dir|]
  }

  // ---- scanning ----

  /** A directory's entries in the order of their names, each followed by what is below it. */
  function Visit(t: Tree, dir: Path): seq<Entry>
    decreases |Under(t, dir)|, 1, 0
  {
    VisitNames(t, dir, Sorted(Names(t, dir)))
  }

  function VisitNames(t: Tree, dir: Path, names: seq<Name>): seq<Entry>
    decreases |Under(t, dir)|, 0, |names|
  {
    if names == [] then []
    else
      var p := dir + [names[0]];
      if p !in t then VisitNames(t, dir, names[1..])
      else
        SmallerBelow(t, dir, names[0]);
        [Entry(p, t[p])] + (if t[p].Directory? then Visit(t, p) else []) + VisitNames(t, dir, names[1..])
  }

  lemma SmallerBelow(t: Tree, dir: Path, n: Name)
    requires dir + [n] in t
    ensures |Under(t, dir + [n])| < |Under(t, dir)|
  {
    var p := dir + [n];
    assert p in Under(t, dir) && p !in Under(t, p);
    forall q | q in Under(t, p) ensures q in Under(t, dir) {
      assert q[..|dir|] == q[..|p|][..|dir|] == dir;
    }
    ProperSubset(Under(t, p), Under(t, dir), p);
  }

  /** A scan accepts plain files and directories, and names without backslashes and controls. */
  predicate Refused(e: Entry) {
    e.node.Special? || (e.path != [] && !Scannable(e.path[|e.path| - 1]))
  }

  /** The list of a tree, but for some names at its top; none if the tree holds what a scan refuses. */
  function Scan(t: Tree, excluded: set<Name>): Option<seq<Entry>> {
    var es := VisitNames(t, [], Sorted(Names(t, []) - excluded));
    if |es| > MAX_FILES || exists i :: 0 <= i < |es| && Refused(es[i]) then None else Some(es)
  }

  // ---- building ----

  function Bare(n: Node): Node {
    match n
    case File(content, _) => File(content, PRIVATE)
    case Directory(_) => Directory(PRIVATE)
    case Special => Special
  }

  /** `mkdir` and exclusive copies need a free name in an existing directory. */
  predicate CanCreate(t: Tree, p: Path) {
    p !in t && HasParent(t, p)
  }

  /** Create the entries one after the other. */
  function Build(es: seq<Entry>, t: Tree): Option<Tree> {
    if es == [] then Some(t)
    else if !CanCreate(t, es[0].path) || es[0].node.Special? then None
    else Build(es[1..], t[es[0].path := Bare(es[0].node)])
  }

  lemma {:induction false} BuildInTwo(a: seq<Entry>, b: seq<Entry>, t: Tree)
    ensures Build(a + b, t) == match Build(a, t) case None => None case Some(t') => Build(b, t')
    decreases |a|
  {
    if a == [] {
      assert a + b == b;
    } else {
      assert (a + b)[1..] == a[1..] + b;
      BuildInTwo(a[1..], b, t[a[0].path := Bare(a[0].node)]);
    }
  }

  /** What hangs on some names of a directory. */
  function Covered(t: Tree, dir: Path, names: seq<Name>): set<Path> {
    set p | p in t && Below(dir, p) && p[|dir|] in names
  }

  function BarePart(t: Tree, ps: set<Path>): Tree {
    map p | p in t && p in ps :: Bare(t[p])
  }

  ghost predicate FreeFor(t: Tree, dir: Path, names: seq<Name>) {
    && (dir != [] ==> dir in t && t[dir].Directory?)
    && (forall p :: p in t && Below(dir, p) ==> p[|dir|] !in names)
  }

  ghost predicate Plain(t: Tree) {
    IsTree(t) && forall p :: p in t ==> !t[p].Special?
  }

  ghost predicate Distinct(names: seq<Name>) {
    forall i, j :: 0 <= i < j < |names| ==> names[i] != names[j]
  }

  // ---- a scan can be built, and gives back the tree ----

  lemma BelowExtends(dir: Path, n: Name, q: Path)
    requires Below(dir + [n], q)
    ensures Below(dir, q) && q[|dir|] == n
  {
  }

  lemma NamesAreThere(t: Tree, dir: Path)
    ensures forall n :: n in Names(t, dir) ==> dir + [n] in t
  {
    forall p | p in t && Below(dir, p) && |p| == |dir| + 1 ensures dir + [p[|dir|]] == p {
    }
  }

  lemma CoveredSplits(t: Tree, dir: Path, names: seq<Name>)
    requires names != [] && IsTree(t) && dir + [names[0]] in t && (dir != [] ==> dir in t && t[dir].Directory?)
    ensures Covered(t, dir, names) == {dir + [names[0]]} + Under(t, dir + [names[0]]) + Covered(t, dir, names[1..])
  {
    var p := dir + [names[0]];
    forall q | q in Covered(t, dir, names)
      ensures q == p || q in Under(t, p) || q in Covered(t, dir, names[1..])
    {
      if q[|dir|] == names[0] {
        assert q[..|p|] == q[..|dir|] + [q[|dir|]] == p;
        if |q| == |p| {
          assert q == q[..|p|];
        }
      } else {
        assert q[|dir|] in names[1..];
      }
    }
    forall q | q in Under(t, p) ensures q in Covered(t, dir, names) {
      BelowExtends(dir, names[0], q);
    }
    assert Below(dir, p) && p[|dir|] == names[0];
  }

  lemma CoveredByNames(t: Tree, dir: Path)
    requires IsTree(t)
    ensures Covered(t, dir, Sorted(Names(t, dir))) == Under(t, dir)
  {
    forall q | q in Under(t, dir) ensures q[|dir|] in Names(t, dir) {
      AncestorInTree(t, q, |dir| + 1);
      var p := q[..|dir| + 1];
      assert Below(dir, p) && p[|dir|] == q[|dir|];
    }
  }

  lemma {:induction false} AncestorInTree(t: Tree, q: Path, k: nat)
    requires IsTree(t) && q in t && 0 < k <= |q|
    ensures q[..k] in t
    decreases |q|
  {
    if k < |q| {
      AncestorInTree(t, q[..|q| - 1], k);
      assert q[..|q| - 1][..k] == q[..k];
    } else {
      assert q[..k] == q;
    }
  }

  /** Built from the list of its names, a directory gets just what it held. */
  lemma {:induction false} ScanRebuilds(t: Tree, dir: Path, names: seq<Name>, into: Tree)
    requires Plain(t) && FreeFor(into, dir, names) && Distinct(names) && (dir != [] ==> dir in t && t[dir].Directory?)
    requires forall n :: n in names ==> dir + [n] in t
    ensures Build(VisitNames(t, dir, names), into) == Some(into + BarePart(t, Covered(t, dir, names)))
    decreases |Under(t, dir)|, |names|, 1
  {
    hide VisitNames, Visit, Build, BarePart, Covered, Under, FreeFor, IsTree, Names, CanCreate;
    if names == [] {
      NothingToBuild(t, dir, into);
    } else {
      var p := dir + [names[0]];
      var below := BelowName(t, p);
      var rest := VisitNames(t, dir, names[1..]);
      var first := into[p := Bare(t[p])];
      FreeName(into, dir, names);
      DirectoryRebuilds(t, dir, names, into);
      var second := first + BarePart(t, Under(t, p));
      StillFree(into, dir, names, t);
      ScanRebuilds(t, dir, names[1..], second);
      CoveredSplits(t, dir, names);
      PartsAdd(t, into, p, Under(t, p), Covered(t, dir, names[1..]));
      VisitFirst(t, dir, names);
      BuildInTwo(below, rest, first);
      BuildFirst(Entry(p, t[p]), below + rest, into);
    }
  }

  function BelowName(t: Tree, p: Path): seq<Entry>
    requires p in t
  {
    if t[p].Directory? then Visit(t, p) else []
  }

  /** What is below the first name is built, whether that is a directory or a file. */
  lemma {:induction false} DirectoryRebuilds(t: Tree, dir: Path, names: seq<Name>, into: Tree)
    requires names != [] && dir + [names[0]] in t && Under(into, dir + [names[0]]) == {}
    requires Plain(t)
    ensures
      var p := dir + [names[0]];
      var first := into[p := Bare(t[p])];
      Build(BelowName(t, p), first) == Some(first + BarePart(t, Under(t, p)))
    decreases |Under(t, dir)|, |names|, 0
  {
    var p := dir + [names[0]];
    var first := into[p := Bare(t[p])];
    hide Build, BarePart, Covered, FreeFor, Names, VisitNames;
    SmallerBelow(t, dir, names[0]);
    if t[p].Directory? {
      CoveredByNames(t, p);
      NewDirectoryIsFree(into, p, Bare(t[p]), Sorted(Names(t, p)));
      NamesAreThere(t, p);
      ScanRebuilds(t, p, Sorted(Names(t, p)), first);
    } else {
      NothingUnderFiles(t, p);
      BuildNothing(t, first);
    }
  }

  lemma BuildNothing(t: Tree, into: Tree)
    ensures Build([], into) == Some(into + BarePart(t, {}))
  {
    assert into + BarePart(t, {}) == into;
  }

  lemma NothingToBuild(t: Tree, dir: Path, into: Tree)
    ensures Build(VisitNames(t, dir, []), into) == Some(into + BarePart(t, Covered(t, dir, [])))
  {
    assert Covered(t, dir, []) == {};
    BuildNothing(t, into);
  }

  lemma VisitFirst(t: Tree, dir: Path, names: seq<Name>)
    requires names != [] && dir + [names[0]] in t
    ensures
      var p := dir + [names[0]];
      VisitNames(t, dir, names) == [Entry(p, t[p])] + (BelowName(t, p) + VisitNames(t, dir, names[1..]))
  {
  }

  lemma BuildFirst(e: Entry, es: seq<Entry>, t: Tree)
    requires CanCreate(t, e.path) && !e.node.Special?
    ensures Build([e] + es, t) == Build(es, t[e.path := Bare(e.node)])
  {
  }

  lemma FreeName(into: Tree, dir: Path, names: seq<Name>)
    requires names != [] && FreeFor(into, dir, names)
    ensures CanCreate(into, dir + [names[0]]) && Under(into, dir + [names[0]]) == {}
  {
  }

  lemma NewDirectoryIsFree(into: Tree, p: Path, n: Node, below: seq<Name>)
    requires Under(into, p) == {} && n.Directory?
    ensures FreeFor(into[p := n], p, below)
  {
    forall q | q in into[p := n] ensures !Below(p, q) {
      assert Below(p, q) ==> q in Under(into, p);
    }
  }

  lemma NothingUnderFiles(t: Tree, p: Path)
    requires IsTree(t) && p in t && !t[p].Directory?
    ensures Under(t, p) == {}
  {
    forall q | q in t ensures !Below(p, q) {
      if Below(p, q) && |p| > 0 {
        ParentsAreDirectories(t, q, |p|);
      }
    }
  }

  lemma {:induction false} ParentsAreDirectories(t: Tree, q: Path, k: nat)
    requires IsTree(t) && q in t && 0 < k < |q|
    ensures q[..k] in t && t[q[..k]].Directory?
    decreases |q|
  {
    if k < |q| - 1 {
      ParentsAreDirectories(t, q[..|q| - 1], k);
      assert q[..|q| - 1][..k] == q[..k];
    }
  }

  lemma StillFree(into: Tree, dir: Path, names: seq<Name>, t: Tree)
    requires names != [] && FreeFor(into, dir, names) && Distinct(names) && dir + [names[0]] in t
    ensures
      var p := dir + [names[0]];
      FreeFor(into[p := Bare(t[p])] + BarePart(t, Under(t, p)), dir, names[1..])
  {
  }

  lemma PartsAdd(t: Tree, into: Tree, p: Path, under: set<Path>, others: set<Path>)
    requires p in t
    ensures (into[p := Bare(t[p])] + BarePart(t, under)) + BarePart(t, others) == into + BarePart(t, {p} + under + others)
  {
  }

  /** Building goes through each entry in turn. */
  lemma BuildNext(es: seq<Entry>, t: Tree, i: nat)
    requires i < |es| && Build(es, t).Some?
    ensures Build(es[..i], t).Some? && CanCreate(Build(es[..i], t).value, es[i].path) && !es[i].node.Special?
    ensures Build(es[..i + 1], t) == Some(Build(es[..i], t).value[es[i].path := Bare(es[i].node)])
  {
    assert es == es[..i] + ([es[i]] + es[i + 1..]) && es[..i + 1] == es[..i] + [es[i]];
    BuildInTwo(es[..i], [es[i]] + es[i + 1..], t);
    BuildInTwo(es[..i], [es[i]], t);
  }

  // ---- a list and its tree ----

  /** The tree a list describes. */
  function Listed(es: seq<Entry>): Tree {
    if es == [] then map[] else map[es[0].path := es[0].node] + Listed(es[1..])
  }

  function Part(t: Tree, ps: set<Path>): Tree {
    map p | p in t && p in ps :: t[p]
  }

  lemma ListedCons(e: Entry, es: seq<Entry>)
    ensures Listed([e] + es) == map[e.path := e.node] + Listed(es)
  {
    assert ([e] + es)[1..] == es;
  }

  lemma MergeAssociates(x: Tree, y: Tree, z: Tree)
    ensures x + (y + z) == (x + y) + z && map[] + z == z
  {
  }

  lemma {:induction false} ListedInTwo(a: seq<Entry>, b: seq<Entry>)
    ensures Listed(a + b) == Listed(a) + Listed(b)
    decreases |a|
  {
    if a == [] {
      assert a + b == b;
      MergeAssociates(map[], map[], Listed(b));
    } else {
      var first := map[a[0].path := a[0].node];
      ListedInTwo(a[1..], b);
      assert a == [a[0]] + a[1..] && a + b == [a[0]] + (a[1..] + b);
      ListedCons(a[0], a[1..]);
      ListedCons(a[0], a[1..] + b);
      MergeAssociates(first, Listed(a[1..]), Listed(b));
      hide Listed;
    }
  }

  /** A scan lists the tree, node for node. */
  lemma {:induction false} ScanLists(t: Tree, dir: Path, names: seq<Name>)
    requires IsTree(t) && (dir != [] ==> dir in t && t[dir].Directory?) && forall n :: n in names ==> dir + [n] in t
    ensures Listed(VisitNames(t, dir, names)) == Part(t, Covered(t, dir, names))
    decreases |Under(t, dir)|, |names|, 1
  {
    hide Visit, IsTree, Names, VisitNames, Listed, BelowName, Part, Covered, Under;
    if names == [] {
      NothingListed(t, dir);
    } else {
      var p := dir + [names[0]];
      DirectoryLists(t, dir, names);
      ScanLists(t, dir, names[1..]);
      CoveredSplits(t, dir, names);
      VisitFirst(t, dir, names);
      ListedFirst(Entry(p, t[p]), BelowName(t, p), VisitNames(t, dir, names[1..]));
      PartSplits(t, p, Under(t, p), Covered(t, dir, names[1..]));
    }
  }

  lemma NothingListed(t: Tree, dir: Path)
    ensures Listed(VisitNames(t, dir, [])) == Part(t, Covered(t, dir, []))
  {
  }

  lemma PartSplits(t: Tree, p: Path, under: set<Path>, others: set<Path>)
    requires p in t
    ensures Part(t, {p} + under + others) == map[p := t[p]] + (Part(t, under) + Part(t, others))
  {
  }

  lemma {:induction false} DirectoryLists(t: Tree, dir: Path, names: seq<Name>)
    requires IsTree(t) && names != [] && dir + [names[0]] in t
    ensures var p := dir + [names[0]]; Listed(BelowName(t, p)) == Part(t, Under(t, p))
    decreases |Under(t, dir)|, |names|, 0
  {
    hide Part, Covered, Names, VisitNames;
    var p := dir + [names[0]];
    SmallerBelow(t, dir, names[0]);
    if t[p].Directory? {
      CoveredByNames(t, p);
      NamesAreThere(t, p);
      ScanLists(t, p, Sorted(Names(t, p)));
    } else {
      NothingUnderFiles(t, p);
      EmptyPart(t);
    }
  }

  lemma EmptyPart(t: Tree)
    ensures Part(t, {}) == map[]
  {
  }

  lemma VisitIs(t: Tree, p: Path)
    ensures Visit(t, p) == VisitNames(t, p, Sorted(Names(t, p)))
  {
  }

  lemma ListedFirst(e: Entry, a: seq<Entry>, b: seq<Entry>)
    ensures Listed([e] + (a + b)) == map[e.path := e.node] + (Listed(a) + Listed(b))
  {
    hide Listed;
    ListedCons(e, a + b);
    ListedInTwo(a, b);
  }

  lemma {:induction false} ListedPaths(es: seq<Entry>, p: Path)
    ensures p in Listed(es) <==> exists i :: 0 <= i < |es| && es[i].path == p
    decreases |es|
  {
    if es != [] {
      ListedPaths(es[1..], p);
      forall i | 0 <= i < |es| && es[i].path == p ensures i == 0 || es[1..][i - 1].path == p {
      }
      if p in Listed(es[1..]) {
        var i :| 0 <= i < |es[1..]| && es[1..][i].path == p;
        assert es[i + 1].path == p;
      }
    }
  }

  /** What hangs on names that are not excluded. */
  function Visible(t: Tree, excluded: set<Name>): set<Path> {
    set p | p in t && p != [] && p[0] !in excluded
  }

  lemma VisibleIsCovered(t: Tree, excluded: set<Name>)
    requires IsTree(t)
    ensures Covered(t, [], Sorted(Names(t, []) - excluded)) == Visible(t, excluded)
    ensures forall n :: n in Names(t, []) ==> [n] in t
  {
    NamesAreThere(t, []);
    forall q | q in Visible(t, excluded) ensures q[0] in Names(t, []) {
      AncestorInTree(t, q, 1);
      assert Below([], q[..1]);
    }
    forall n | n in Names(t, []) ensures [n] in t {
      assert [] + [n] == [n];
    }
  }

  /** A scan that succeeds lists exactly what is visible. */
  lemma ScanIsFaithful(t: Tree, excluded: set<Name>)
    requires IsTree(t) && Scan(t, excluded).Some?
    ensures Listed(Scan(t, excluded).value) == Part(t, Visible(t, excluded))
  {
    VisibleIsCovered(t, excluded);
    NamesAreThere(t, []);
    ScanLists(t, [], Sorted(Names(t, []) - excluded));
  }

  /** The trees hold the same on some names of a directory. */
  ghost predicate Agree(t: Tree, t': Tree, dir: Path, names: seq<Name>) {
    forall p :: Below(dir, p) && p[|dir|] in names ==> (p in t <==> p in t') && (p in t ==> t[p] == t'[p])
  }

  /** Trees that agree below a directory are visited alike. */
  lemma {:induction false} ScansAgree(t: Tree, t': Tree, dir: Path, names: seq<Name>)
    requires Agree(t, t', dir, names)
    ensures VisitNames(t, dir, names) == VisitNames(t', dir, names)
    decreases |Under(t, dir)|, |names|
  {
    hide Agree, Names, Under;
    if names != [] {
      var p := dir + [names[0]];
      AgreeOnFirst(t, t', dir, names);
      if p in t {
        SmallerBelow(t, dir, names[0]);
        ScansAgree(t, t', p, Sorted(Names(t, p)));
        VisitIs(t, p);
        VisitIs(t', p);
      }
      ScansAgree(t, t', dir, names[1..]);
    }
  }

  lemma AgreeOnFirst(t: Tree, t': Tree, dir: Path, names: seq<Name>)
    requires names != [] && Agree(t, t', dir, names)
    ensures var p := dir + [names[0]]; (p in t <==> p in t') && (p in t ==> t[p] == t'[p])
    ensures Agree(t, t', dir, names[1..])
    ensures
      var p := dir + [names[0]];
      Names(t, p) == Names(t', p) && Agree(t, t', p, Sorted(Names(t, p)))
  {
    var p := dir + [names[0]];
    assert Below(dir, p) && p[|dir|] == names[0];
    forall q | Below(p, q) ensures (q in t <==> q in t') && (q in t ==> t[q] == t'[q]) {
      BelowExtends(dir, names[0], q);
    }
  }
}
