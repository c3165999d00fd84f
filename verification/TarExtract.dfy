/** The extractor as it runs: read the whole archive first, then create what it lists. */
module TarExtract {
  import opened TarFormat
  import opened Wrappers

  // ---- reading ----

  /** The sum as it is taken: byte by byte, eight of them counted as spaces. */
  method ChecksumOf(h: seq<Byte>) returns (sum: nat)
    requires |h| == 512
    ensures sum == Checksum(h)
  {
    sum := 0;
    for i := 0 to 512
      invariant i <= 148 ==> sum == Sum(h[..i])
      invariant 148 <= i <= 156 ==> sum == Sum(h[..148]) + (i - 148) * SPACE
      invariant 156 <= i ==> sum == Sum(h[..148]) + 8 * SPACE + Sum(h[156..i])
    {
      if i < 148 {
        assert h[..i + 1][..i] == h[..i];
      } else if i >= 156 {
        assert h[156..i + 1][..i - 156] == h[156..i];
      }
      sum := sum + if 148 <= i < 156 then SPACE else h[i];
    }
    assert h[156..512] == h[156..];
  }

  method ReadArchive(bytes: seq<Byte>) returns (r: Option<State>)
    ensures r == Accept(bytes)
  {
    hide TakeEntry, Checksum, Octal, Field, Complete;
    var s := START;
    var offset := 0;
    while offset + 512 <= |bytes|
      invariant ReadFrom(bytes, 0, START) == ReadFrom(bytes, offset, s)
      decreases |bytes| - offset
    {
      var h := bytes[offset..offset + 512];
      if forall i :: 0 <= i < 512 ==> h[i] == 0 {
        break;
      }
      var checksum := ChecksumOf(h);
      var size := Octal(Field(h, 124, 12));
      if Octal(Field(h, 148, 8)) != Some(checksum) || size.None? {
        return None;
      }
      offset := offset + 512;
      if offset + size.value > |bytes| || s.count + 1 > MAX_ENTRIES {
        return None;
      }
      var content := bytes[offset..offset + size.value];
      offset := offset + Blocks(size.value);
      var next := TakeEntry(h, content, s.(count := s.count + 1));
      if next.None? {
        return None;
      }
      s := next.value;
    }
    return if Complete(s) then Some(s) else None;
  }

  // ---- creating ----

  datatype Node = Folder | Plain(content: seq<Byte>, executable: bool)

  type Tree = map<Path, Node>

  function Folders(ds: set<Path>): Tree {
    map d | d in ds && d != [] :: Folder
  }

  function Files(files: seq<FileEntry>): Tree {
    if files == [] then map[]
    else
      var last := files[|files| - 1];
      Files(files[..|files| - 1])[last.path := Plain(last.content, last.executable)]
  }

  /** The tree an accepted archive stands for. */
  function TreeOf(s: State): Tree {
    Folders(s.directories) + Files(s.files)
  }

  predicate IsFolder(t: Tree, p: Path) {
    p == [] || (p in t && t[p] == Folder)
  }

  class Destination {
    /** What is below the destination directory. */
    var tree: Tree

    constructor ()
      ensures tree == map[]
    {
      tree := map[];
    }

    /** A directory and whatever it hangs on; fails where a file is in the way. */
    method MakeDirectory(p: Path) returns (ok: bool)
      modifies this
      ensures ok <==> forall q :: q in Ancestors(p) && q in old(tree) ==> old(tree)[q] == Folder
      ensures tree == if ok then old(tree) + Folders(Ancestors(p)) else old(tree)
    {
      ok := forall q :: q in Ancestors(p) && q in tree ==> tree[q] == Folder;
      if ok {
        tree := tree + Folders(Ancestors(p));
      }
    }

    /** A new file in an existing directory. */
    method WriteFile(f: FileEntry) returns (ok: bool)
      modifies this
      ensures ok == (f.path != [] && f.path !in old(tree) && IsFolder(old(tree), f.path[..|f.path| - 1]))
      ensures tree == if ok then old(tree)[f.path := Plain(f.content, f.executable)] else old(tree)
    {
      ok := f.path != [] && f.path !in tree && IsFolder(tree, f.path[..|f.path| - 1]);
      if ok {
        tree := tree[f.path := Plain(f.content, f.executable)];
      }
    }

    /** Directories from the top down. */
    method MakeDirectories(directories: set<Path>)
      requires tree == map[] && Closed(directories)
      modifies this
      ensures tree == Folders(directories)
    {
      hide Closed, Folders;
      var left := directories;
      assert directories - left == {};
      NoFolders();
      while left != {}
        invariant left <= directories && tree == Folders(directories - left)
        decreases |left|
      {
        var d := Shallowest(left);
        AncestorsAreDone(directories, left, d);
        FoldersAdd(directories - left, Ancestors(d), d);
        var ok := MakeDirectory(d);
        assert directories - (left - {d}) == directories - left + {d};
        left := left - {d};
      }
      assert directories - left == directories;
    }

    method WriteFiles(s: State)
      requires Shaped(s) && NoConflict(s) && tree == Folders(s.directories)
      modifies this
      ensures tree == TreeOf(s)
    {
      hide Shaped, NoConflict, Folders;
      for i := 0 to |s.files|
        invariant tree == Folders(s.directories) + Files(s.files[..i])
      {
        NextFileFits(s, i);
        var ok := WriteFile(s.files[i]);
        assert s.files[..i + 1][..i] == s.files[..i];
      }
      assert s.files[..|s.files|] == s.files;
    }

    /** Into an empty directory every accepted archive is extracted whole; any other leaves it empty. */
    method Extract(bytes: seq<Byte>) returns (ok: bool)
      requires tree == map[]
      modifies this
      ensures ok == Accept(bytes).Some?
      ensures tree == if ok then TreeOf(Accept(bytes).value) else map[]
    {
      var accepted := ReadArchive(bytes);
      if accepted.None? {
        return false;
      }
      AcceptedIsATree(bytes);
      hide NoConflict;
      MakeDirectories(accepted.value.directories);
      WriteFiles(accepted.value);
      return true;
    }
  }

  lemma NoFolders()
    ensures Folders({}) == map[]
  {
  }

  lemma FoldersAdd(done: set<Path>, ancestors: set<Path>, d: Path)
    requires ancestors <= done + {d} && d in ancestors
    ensures Folders(done) + Folders(ancestors) == Folders(done + {d})
    ensures forall q :: q in Folders(done) ==> Folders(done)[q] == Folder
  {
  }

  method Shallowest(ds: set<Path>) returns (d: Path)
    requires ds != {}
    ensures d in ds && forall e :: e in ds ==> |d| <= |e|
  {
    d :| d in ds;
    var left := ds - {d};
    while left != {}
      invariant left < ds && d in ds && forall e :: e in ds && e !in left ==> |d| <= |e|
      decreases |left|
    {
      var e :| e in left;
      if |e| < |d| {
        d := e;
      }
      left := left - {e};
    }
  }

  /** When the shallowest directory left is made, all it hangs on is there. */
  lemma AncestorsAreDone(directories: set<Path>, left: set<Path>, d: Path)
    requires Closed(directories) && left <= directories && d in left && forall e :: e in left ==> |d| <= |e|
    ensures Ancestors(d) <= directories - left + {d}
  {
    forall q | q in Ancestors(d) ensures q in directories - left + {d} {
      AncestorsArePrefixes(d, q);
      PrefixInClosed(directories, d, |q|);
      assert |q| < |d| || q == d;
    }
  }

  lemma {:induction false} FilesArePaths(files: seq<FileEntry>)
    ensures forall p :: p in Files(files) ==> exists i :: 0 <= i < |files| && files[i].path == p
    decreases |files|
  {
    if files != [] {
      var before := files[..|files| - 1];
      FilesArePaths(before);
      forall p | p in Files(files) ensures exists i :: 0 <= i < |files| && files[i].path == p {
        if p in Files(before) {
          var i :| 0 <= i < |before| && before[i].path == p;
          assert files[i].path == p;
        } else {
          assert files[|files| - 1].path == p;
        }
      }
    }
  }

  /** The next file is new, and its directory is there. */
  lemma NextFileFits(s: State, i: nat)
    requires Shaped(s) && NoConflict(s) && i < |s.files|
    ensures
      var t, p := Folders(s.directories) + Files(s.files[..i]), s.files[i].path;
      p != [] && p !in t && IsFolder(t, p[..|p| - 1])
  {
    hide Shaped, NoConflict, Files;
    var p := s.files[i].path;
    FileHasFolder(s, i);
    var d := p[..|p| - 1];
    NotAmong(s.files, i, p);
    NotAmong(s.files, i, d);
  }

  /** The file is no directory and no other file, and its directory is no file. */
  lemma FileHasFolder(s: State, i: nat)
    requires Shaped(s) && NoConflict(s) && i < |s.files|
    ensures
      var p := s.files[i].path;
      && p != [] && p !in s.directories && p[..|p| - 1] in s.directories
      && forall j :: 0 <= j < i ==> s.files[j].path != p && s.files[j].path != p[..|p| - 1]
  {
  }

  lemma NotAmong(files: seq<FileEntry>, i: nat, p: Path)
    requires i <= |files| && forall j :: 0 <= j < i ==> files[j].path != p
    ensures p !in Files(files[..i])
  {
    FilesArePaths(files[..i]);
    assert forall j :: 0 <= j < i ==> files[..i][j] == files[j];
  }
}
