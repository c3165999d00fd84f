/** Restoring a snapshot over whatever the data directory holds by then. */
module StorageRestore {
  import opened StorageNames
  import opened StorageTree
  import opened Wrappers

  datatype Disk = Disk(data: Tree, kept: Tree)

  // ---- what a restoration must not lose ----

  function TopOf(t: Tree, n: Name): set<Path> {
    set p | p in t && p != [] && p[0] == n
  }

  /** The top-level entry is where it was, with all that is below it. */
  ghost predicate Intact(u: Tree, data: Tree, n: Name) {
    Part(data, TopOf(data, n)) == Part(u, TopOf(u, n))
  }

  /** The top-level entry is complete in quarantine. */
  ghost predicate Kept(u: Tree, kept: Tree, n: Name) {
    forall p :: p in TopOf(u, n) ==> p in kept && kept[p] == Bare(u[p])
  }

  ghost predicate Safe(u: Tree, excluded: set<Name>, d: Disk) {
    forall n :: n in Names(u, []) && n !in excluded ==> Intact(u, d.data, n) || Kept(u, d.kept, n)
  }

  /** What the restoration must not touch: the files of the database. */
  function Aside(t: Tree, excluded: set<Name>): Tree {
    map p | p in t && p != [] && p[0] in excluded :: t[p]
  }

  // ---- verification ----

  /** The lists agree but for owners and modes. */
  predicate SameKeys(a: seq<Entry>, b: seq<Entry>) {
    |a| == |b| && forall i :: 0 <= i < |a| ==> a[i].path == b[i].path && Bare(a[i].node) == Bare(b[i].node)
  }

  predicate Verifies(t: Tree, es: seq<Entry>) {
    Scan(t, {}).Some? && SameKeys(Scan(t, {}).value, es)
  }

  lemma {:induction false} SameKeysBuildAlike(a: seq<Entry>, b: seq<Entry>, t: Tree)
    requires SameKeys(a, b)
    ensures Build(a, t) == Build(b, t)
    decreases |a|
  {
    if a != [] {
      assert a[0].path == b[0].path && Bare(a[0].node) == Bare(b[0].node);
      SameKeysBuildAlike(a[1..], b[1..], t[a[0].path := Bare(a[0].node)]);
    }
  }

  lemma {:induction false} SameKeysListAlike(a: seq<Entry>, b: seq<Entry>)
    requires SameKeys(a, b)
    ensures Listed(a).Keys == Listed(b).Keys
    ensures forall p :: p in Listed(a) ==> Bare(Listed(a)[p]) == Bare(Listed(b)[p])
    decreases |a|
  {
    if a != [] {
      assert a[0].path == b[0].path && Bare(a[0].node) == Bare(b[0].node);
      SameKeysListAlike(a[1..], b[1..]);
    }
  }

  /** A snapshot that verifies holds what the list says, but for owners and modes. */
  lemma VerifiedHolds(s: Tree, es: seq<Entry>)
    requires IsTree(s) && Verifies(s, es)
    ensures s.Keys == Listed(es).Keys && forall p :: p in s ==> Bare(s[p]) == Bare(Listed(es)[p])
    ensures forall p :: p in s ==> !s[p].Special?
  {
    var actual := Scan(s, {}).value;
    ScanIsFaithful(s, {});
    SameKeysListAlike(actual, es);
    forall p | p in s ensures p in Visible(s, {}) {
    }
    assert Part(s, Visible(s, {})) == s;
    forall p | p in s ensures !s[p].Special? {
      ListedPaths(actual, p);
      NodesAreListed(actual, p);
    }
  }

  lemma {:induction false} NodesAreListed(es: seq<Entry>, p: Path)
    requires p in Listed(es)
    ensures exists i :: 0 <= i < |es| && es[i].path == p && es[i].node == Listed(es)[p]
    decreases |es|
  {
    if p in Listed(es[1..]) {
      NodesAreListed(es[1..], p);
      var i :| 0 <= i < |es[1..]| && es[1..][i].path == p && es[1..][i].node == Listed(es[1..])[p];
      assert es[i + 1].path == p && es[i + 1].node == Listed(es)[p];
    } else {
      assert es[0].path == p;
    }
  }

  // ---- the result ----

  /** Over what was set aside, the list can be built from a verified snapshot, whatever else there was. */
  lemma ManifestBuilds(s: Tree, es: seq<Entry>, aside: Tree, excluded: set<Name>)
    requires IsTree(s) && Verifies(s, es)
    requires forall p :: p in aside ==> p != [] && p[0] in excluded
    requires forall p :: p in Listed(es) && p != [] ==> p[0] !in excluded
    ensures Build(es, aside) == Some(aside + BarePart(s, s.Keys))
  {
    hide Build, BarePart, VisitNames, Listed, Names, IsTree, SameKeys, FreeFor;
    VerifiedHolds(s, es);
    ScanOfAll(s);
    var names := Sorted(Names(s, []));
    TopsAreFree(s, es, aside, excluded, names);
    ScanRebuilds(s, [], names, aside);
    SameKeysBuildAlike(Scan(s, {}).value, es, aside);
  }

  lemma ScanOfAll(s: Tree)
    requires IsTree(s) && Scan(s, {}).Some?
    ensures var names := Sorted(Names(s, []));
      Scan(s, {}).value == VisitNames(s, [], names) && Covered(s, [], names) == s.Keys && forall n :: n in names ==> [] + [n] in s
  {
    assert Names(s, []) - {} == Names(s, []);
    VisibleIsCovered(s, {});
    NamesAreThere(s, []);
    assert Visible(s, {}) == s.Keys by {
      assert forall p :: p in s ==> HasParent(s, p);
    }
  }

  lemma TopsAreFree(s: Tree, es: seq<Entry>, aside: Tree, excluded: set<Name>, names: seq<Name>)
    requires s.Keys == Listed(es).Keys && forall n :: n in names ==> [] + [n] in s
    requires forall p :: p in aside ==> p != [] && p[0] in excluded
    requires forall p :: p in Listed(es) && p != [] ==> p[0] !in excluded
    ensures FreeFor(aside, [], names)
  {
  }

  /** Owners and modes put right, the tree is what the list says. */
  function WithMeta(n: Node, m: Meta): Node {
    match n
    case File(content, _) => File(content, m)
    case Directory(_) => Directory(m)
    case Special => Special
  }

  function MetaOf(n: Node): Meta {
    match n
    case File(_, m) => m
    case Directory(m) => m
    case Special => PRIVATE
  }

  lemma FixedIsListed(n: Node, listed: Node)
    requires n == Bare(listed)
    ensures WithMeta(n, MetaOf(listed)) == listed
  {
  }

  /** The list is found again in a tree that holds what it lists beside what is set aside. */
  lemma RestoredScansTheSame(t: Tree, excluded: set<Name>, es: seq<Entry>, data: Tree)
    requires IsTree(t) && Scan(t, excluded) == Some(es)
    requires Part(data, Visible(data, excluded)) == Listed(es)
    ensures Scan(data, excluded) == Some(es)
  {
    ScanIsFaithful(t, excluded);
    assert Part(t, Visible(t, excluded)) == Part(data, Visible(data, excluded));
    forall p: Path | p != [] && p[0] !in excluded ensures (p in t <==> p in data) && (p in t ==> t[p] == data[p]) {
      assert p in t <==> p in Part(t, Visible(t, excluded));
      assert p in data <==> p in Part(data, Visible(data, excluded));
    }
    SameTopNames(t, data, excluded);
    var names := Sorted(Names(t, []) - excluded);
    assert Agree(t, data, [], names);
    ScansAgree(t, data, [], names);
  }

  lemma SameTopNames(t: Tree, data: Tree, excluded: set<Name>)
    requires forall p: Path :: p != [] && p[0] !in excluded ==> (p in t <==> p in data)
    ensures Names(t, []) - excluded == Names(data, []) - excluded
  {
  }
}
