/** File names as the runtime reads, sorts and refuses them. */
module StorageNames {
  /** A UTF-16 code unit. */
  type Unit = x: int | 0 <= x < 0x1_0000

  const QUOTE: Unit := 34
  const DOT: Unit := 46
  const SLASH: Unit := 47
  const COLON: Unit := 58
  const BACKSLASH: Unit := 92

  predicate High(u: Unit) {
    0xD800 <= u < 0xDC00
  }

  predicate Low(u: Unit) {
    0xDC00 <= u < 0xE000
  }

  /** Every surrogate is half of a pair. */
  predicate Paired(s: seq<Unit>) {
    if s == [] then true
    else if High(s[0]) then |s| >= 2 && Low(s[1]) && Paired(s[2..])
    else !Low(s[0]) && Paired(s[1..])
  }

  /** What a directory can hold a node under. */
  predicate IsName(s: seq<Unit>) {
    s != [] && SLASH !in s && 0 !in s && s != [DOT] && s != [DOT, DOT] && Paired(s)
  }

  type Name = s: seq<Unit> | IsName(s) witness [97]

  /** No backslash and no control character: a name that a scan accepts. */
  predicate Scannable(n: Name) {
    BACKSLASH !in n && forall i :: 0 <= i < |n| ==> 32 <= n[i] != 127
  }

  // ---- the order of names ----

  /** Code unit by code unit. */
  predicate Before(a: seq<Unit>, b: seq<Unit>) {
    b != [] && (a == [] || a[0] < b[0] || (a[0] == b[0] && Before(a[1..], b[1..])))
  }

  lemma BeforeIsStrict(a: seq<Unit>)
    ensures !Before(a, a)
  {
  }

  lemma {:induction false} BeforeIsTransitive(a: seq<Unit>, b: seq<Unit>, c: seq<Unit>)
    requires Before(a, b) && Before(b, c)
    ensures Before(a, c)
    decreases |a|
  {
    if a != [] && a[0] == b[0] == c[0] {
      BeforeIsTransitive(a[1..], b[1..], c[1..]);
    }
  }

  lemma {:induction false} BeforeIsTotal(a: seq<Unit>, b: seq<Unit>)
    ensures a == b || Before(a, b) || Before(b, a)
    decreases |a|
  {
    if a != [] && b != [] && a[0] == b[0] {
      BeforeIsTotal(a[1..], b[1..]);
      assert a == [a[0]] + a[1..] && b == [b[0]] + b[1..];
    }
  }

  predicate IsLeast(s: set<Name>, m: Name) {
    m in s && forall x :: x in s && x != m ==> Before(m, x)
  }

  lemma {:induction false} FindLeast(s: set<Name>) returns (m: Name)
    requires s != {}
    ensures IsLeast(s, m)
    decreases s
  {
    m :| m in s;
    if s != {m} {
      var least := FindLeast(s - {m});
      BeforeIsTotal(m, least);
      forall x | x in s && x != m && x != least && Before(m, least) ensures Before(m, x) {
        assert x in s - {m};
        BeforeIsTransitive(m, least, x);
      }
      forall x | x in s && x != m && x != least ensures Before(least, x) {
        assert x in s - {m};
      }
      m := if Before(m, least) then m else least;
    } else {
      assert forall x :: x in s ==> x == m;
    }
  }

  lemma LeastExists(s: set<Name>)
    requires s != {}
    ensures exists m :: IsLeast(s, m)
  {
    var _ := FindLeast(s);
  }

  lemma LeastIsUnique(s: set<Name>)
    ensures forall m: Name, n: Name :: IsLeast(s, m) && IsLeast(s, n) ==> m == n
  {
    forall m: Name, n: Name | IsLeast(s, m) && IsLeast(s, n) ensures m == n {
      if m != n {
        BeforeIsTransitive(m, n, m);
        BeforeIsStrict(m);
      }
    }
  }

  function Least(s: set<Name>): (m: Name)
    requires s != {}
    ensures IsLeast(s, m)
  {
    LeastExists(s);
    LeastIsUnique(s);
    var m :| IsLeast(s, m);
    m
  }

  function Sorted(s: set<Name>): (names: seq<Name>)
    ensures forall n :: n in names <==> n in s
    ensures forall i, j :: 0 <= i < j < |names| ==> names[i] != names[j] && Before(names[i], names[j])
    decreases |s|
  {
    if s == {} then []
    else
      var rest := Sorted(s - {Least(s)});
      assert forall i :: 0 <= i < |rest| ==> rest[i] in rest;
      [Least(s)] + rest
  }
}
