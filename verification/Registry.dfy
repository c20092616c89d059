/**
 * The capture of a registry tree and its rebuilding (powershell/Publish-IscsiRelease.ps1). Names are
 * compared without case; keys and values are enumerated in no particular order.
 */
module Registry {
  import opened Results
  import opened Sums
  import opened Names

  /** The folded names from the root of the tree down to a key. */
  type Path = seq<string>

  datatype Value = Value(name: string, kind: nat, data: seq<int>)

  /** A key as spelt, and its values by folded name. */
  datatype Key = Key(name: string, values: map<string, Value>)

  type Tree = map<Path, Key>

  datatype KeySnapshot = KeySnapshot(path: string, values: seq<Value>)

  datatype TreeSnapshot = TreeSnapshot(root: string, keys: seq<KeySnapshot>, valueCount: nat, totalBytes: nat)

  const MAX_DEPTH: nat := 16
  const MAX_KEYS: nat := 256
  const MAX_VALUES: nat := 1024
  const MAX_BYTES: nat := 16777216
  const MAX_VALUE: nat := 4194304

  // ---- Names and their order ----

  function FoldChar(c: char): char {
    if 'a' <= c <= 'z' then c - 'a' + 'A' else c
  }

  function Fold(s: string): (r: string)
    ensures |r| == |s| && forall i :: 0 <= i < |s| ==> r[i] == FoldChar(s[i])
  {
    seq(|s|, i requires 0 <= i < |s| => FoldChar(s[i]))
  }

  /** The same letter, or one the capital of the other, by their codes. */
  predicate SameLetter(c: char, d: char) {
    || c == d
    || (65 <= c as int <= 90 && d as int == c as int + 32)
    || (65 <= d as int <= 90 && c as int == d as int + 32)
  }

  /** Two names are one key exactly if they differ in the case of letters only. */
  lemma FoldMeans(a: string, b: string)
    ensures Fold(a) == Fold(b) <==> |a| == |b| && forall i :: 0 <= i < |a| ==> SameLetter(a[i], b[i])
  {
    forall i | 0 <= i < |a| && i < |b|
      ensures Fold(a)[i] == Fold(b)[i] <==> SameLetter(a[i], b[i])
    {
    }
  }

  function FoldPath(p: seq<string>): (r: Path)
    ensures |r| == |p| && forall i :: 0 <= i < |p| ==> r[i] == Fold(p[i])
  {
    seq(|p|, i requires 0 <= i < |p| => Fold(p[i]))
  }

  predicate Less(a: string, b: string) {
    b != "" && (a == "" || a[0] < b[0] || (a[0] == b[0] && Less(a[1..], b[1..])))
  }

  lemma {:induction false} LessTotal(a: string, b: string)
    ensures Less(a, b) || Less(b, a) || a == b
    ensures !(Less(a, b) && Less(b, a)) && !Less(a, a)
  {
    if a != "" {
      LessTotal(a[1..], a[1..]);
      if b != "" {
        LessTotal(a[1..], b[1..]);
        if a[0] == b[0] && a[1..] == b[1..] {
          assert a == [a[0]] + a[1..] && b == [b[0]] + b[1..];
        }
      }
    }
  }

  lemma {:induction false} LessTransitive(a: string, b: string, c: string)
    requires Less(a, b) && Less(b, c)
    ensures Less(a, c)
  {
    if a != "" && a[0] == b[0] == c[0] {
      LessTransitive(a[1..], b[1..], c[1..]);
    }
  }

  // ---- Sorting by a folded name ----

  ghost predicate Ordered<T(!new)>(f: T -> string, s: seq<T>) {
    forall i, j :: 0 <= i < j < |s| ==> Less(f(s[i]), f(s[j]))
  }

  ghost predicate Different<T(!new)>(f: T -> string, s: seq<T>) {
    forall i, j :: 0 <= i < j < |s| ==> f(s[i]) != f(s[j])
  }

  function Insert<T>(f: T -> string, x: T, s: seq<T>): seq<T> {
    if s == [] || Less(f(x), f(s[0])) then [x] + s else [s[0]] + Insert(f, x, s[1..])
  }

  function Sort<T>(f: T -> string, s: seq<T>): seq<T> {
    if s == [] then [] else Insert(f, s[0], Sort(f, s[1..]))
  }

  lemma {:induction false} InsertOrders<T(!new)>(f: T -> string, x: T, s: seq<T>)
    requires Ordered(f, s) && forall y :: y in s ==> f(y) != f(x)
    ensures Ordered(f, Insert(f, x, s))
    ensures forall y :: y in Insert(f, x, s) <==> y == x || y in s
  {
    if s != [] {
      LessTotal(f(x), f(s[0]));
      if Less(f(x), f(s[0])) {
        forall i | 0 <= i < |s|
          ensures Less(f(x), f(s[i]))
        {
          if i > 0 { LessTransitive(f(x), f(s[0]), f(s[i])); }
        }
      } else {
        var rest := Insert(f, x, s[1..]);
        InsertOrders(f, x, s[1..]);
        assert s[0] in s;
        forall y | y in rest
          ensures Less(f(s[0]), f(y))
        {
        }
        assert s == [s[0]] + s[1..];
      }
    }
  }

  lemma {:induction false} SortOrders<T(!new)>(f: T -> string, s: seq<T>)
    requires Different(f, s)
    ensures Ordered(f, Sort(f, s))
    ensures forall y :: y in Sort(f, s) <==> y in s
  {
    if s != [] {
      var rest := s[1..];
      assert forall i, j :: 0 <= i < j < |rest| ==> rest[i] == s[i + 1] && rest[j] == s[j + 1];
      assert Different(f, rest);
      SortOrders(f, rest);
      forall y | y in Sort(f, rest)
        ensures f(y) != f(s[0])
      {
        var i :| 0 <= i < |rest| && rest[i] == y;
        assert s[i + 1] == y;
      }
      InsertOrders(f, s[0], Sort(f, rest));
      assert s == [s[0]] + rest;
    }
  }

  /** There is one way to put elements in order. */
  lemma {:induction false} OrderIsUnique<T(!new)>(f: T -> string, a: seq<T>, b: seq<T>)
    requires Ordered(f, a) && Ordered(f, b) && forall x :: x in a <==> x in b
    ensures a == b
  {
    if a == [] {
      if b != [] {
        HasMember(b);
        assert false;
      }
    } else {
      assert a[0] in a;
      var k :| 0 <= k < |b| && b[k] == a[0];
      assert b[0] in b;
      var l :| 0 <= l < |a| && a[l] == b[0];
      LessTotal(f(a[0]), f(b[0]));
      assert k == 0 && l == 0;
      forall x
        ensures x in a[1..] <==> x in b[1..]
      {
        TailIn(f, a, x);
        TailIn(f, b, x);
      }
      OrderIsUnique(f, a[1..], b[1..]);
      assert a == [a[0]] + a[1..] && b == [b[0]] + b[1..];
    }
  }

  lemma HasMember<T(!new)>(s: seq<T>)
    requires s != []
    ensures exists x :: x in s
  {
    assert s[0] in s;
  }

  lemma TailIn<T(!new)>(f: T -> string, s: seq<T>, x: T)
    requires Ordered(f, s) && s != []
    ensures x in s[1..] <==> x in s && x != s[0]
    ensures Ordered(f, s[1..])
  {
    assert s == [s[0]] + s[1..];
    if x in s[1..] {
      var i :| 0 <= i < |s[1..]| && s[1..][i] == x;
      assert Less(f(s[0]), f(s[i + 1]));
      LessTotal(f(x), f(x));
    }
  }

  // ---- Paths as text ----

  function Joined(p: seq<string>): string {
    if p == [] then ""
    else if |p| == 1 then p[0]
    else Joined(p[..|p| - 1]) + ['\\'] + p[|p| - 1]
  }

  function Split(s: string): seq<string> {
    if s == "" then []
    else
      var k := LastIndexOf(s, '\\');
      if k < 0 then [s] else Split(s[..k]) + [s[k + 1..]]
  }

  predicate KeyName(n: string) {
    n != "" && '\\' !in n
  }

  predicate KeyNames(p: seq<string>) {
    forall i :: 0 <= i < |p| ==> KeyName(p[i])
  }

  lemma {:induction false} SplitJoined(p: seq<string>)
    requires KeyNames(p)
    ensures Split(Joined(p)) == p && (p != [] ==> Joined(p) != "")
  {
    if |p| == 1 {
      NoIndex(p[0], '\\');
    } else if |p| > 1 {
      var front, last := p[..|p| - 1], p[|p| - 1];
      SplitJoined(front);
      LastIndexAfter(Joined(front), '\\', last);
      assert Joined(p)[..|Joined(front)|] == Joined(front);
      assert Joined(p)[|Joined(front)| + 1..] == last;
      assert p == front + [last];
    }
  }

  lemma NoIndex(s: string, c: char)
    requires c !in s
    ensures LastIndexOf(s, c) == -1
  {
  }

  lemma {:induction false} FoldJoined(p: seq<string>)
    ensures Fold(Joined(p)) == Joined(FoldPath(p))
  {
    if |p| == 1 {
      assert FoldPath(p) == [Fold(p[0])];
    } else if |p| > 1 {
      var front := p[..|p| - 1];
      FoldJoined(front);
      assert FoldPath(p)[..|p| - 1] == FoldPath(front);
      assert Fold(Joined(p)) == Fold(Joined(front)) + ['\\'] + Fold(p[|p| - 1]);
    }
  }

  // ---- Trees ----

  ghost predicate WellFormed(tree: Tree) {
    && [] in tree && tree[[]].name == ""
    && (forall p, i :: p in tree && 0 <= i <= |p| ==> p[..i] in tree)
    && (forall p :: p in tree && p != [] ==> KeyName(tree[p].name) && Fold(tree[p].name) == p[|p| - 1])
    && (forall p, n :: p in tree && n in tree[p].values ==> Fold(tree[p].values[n].name) == n)
  }

  /** The names of a path as its keys spell them. */
  ghost function Spelt(tree: Tree, p: Path): (r: seq<string>)
    requires WellFormed(tree) && p in tree
    ensures |r| == |p|
  {
    if p == [] then [] else Spelt(tree, p[..|p| - 1]) + [tree[p].name]
  }

  function ValueName(v: Value): string {
    Fold(v.name)
  }

  function KeyPath(k: KeySnapshot): string {
    Fold(k.path)
  }

  /** `s` is the snapshot of the key at `p`. */
  ghost predicate Shot(tree: Tree, p: Path, s: KeySnapshot)
    requires WellFormed(tree) && p in tree
  {
    && s.path == Joined(Spelt(tree, p))
    && Ordered(ValueName, s.values)
    && forall v :: v in s.values <==> exists n :: n in tree[p].values && tree[p].values[n] == v
  }

  /** The snapshots of all keys, in the order of their paths. */
  ghost predicate Listing(tree: Tree, keys: seq<KeySnapshot>)
    requires WellFormed(tree)
  {
    && Ordered(KeyPath, keys)
    && (forall s :: s in keys ==> Drawn(tree, s))
    && (forall p :: p in tree ==> Recorded(tree, p, keys))
  }

  ghost predicate Drawn(tree: Tree, s: KeySnapshot)
    requires WellFormed(tree)
  {
    exists p :: p in tree && Shot(tree, p, s)
  }

  ghost predicate Recorded(tree: Tree, p: Path, keys: seq<KeySnapshot>)
    requires WellFormed(tree) && p in tree
  {
    exists s :: s in keys && Shot(tree, p, s)
  }

  function Sizes(tree: Tree): map<(Path, string), nat> {
    map p, n | p in tree && n in tree[p].values :: (p, n) := |tree[p].values[n].data|
  }

  predicate Supported(kind: nat) {
    kind in {0, 1, 2, 3, 4, 5, 7, 11}
  }

  /** The limits of a capture. */
  ghost predicate Within(tree: Tree) {
    && (forall p :: p in tree ==> |p| <= MAX_DEPTH)
    && |tree| <= MAX_KEYS
    && |Sizes(tree)| <= MAX_VALUES
    && Sum(Sizes(tree)) <= MAX_BYTES
    && (forall p, n :: p in tree && n in tree[p].values ==>
          Supported(tree[p].values[n].kind) && |tree[p].values[n].data| <= MAX_VALUE)
  }

  /** The limits in numbers; the kinds are none, text, expandable text, bytes, the three integers and text lists. */
  lemma WithinMeans(tree: Tree)
    ensures Within(tree) <==>
              && (forall p :: p in tree ==> |p| <= 16)
              && |tree| <= 256
              && |Sizes(tree)| <= 1024
              && Sum(Sizes(tree)) <= 16 * 1024 * 1024
              && (forall p, n :: p in tree && n in tree[p].values ==>
                    var v := tree[p].values[n];
                    && |v.data| <= 4 * 1024 * 1024
                    && (v.kind <= 5 || v.kind == 7 || v.kind == 11))
  {
    hide Sizes, Sum;
  }

  lemma {:induction false} SpeltNames(tree: Tree, p: Path)
    requires WellFormed(tree) && p in tree
    ensures FoldPath(Spelt(tree, p)) == p && KeyNames(Spelt(tree, p))
  {
    hide KeyName, Fold;
    if p != [] {
      var front := p[..|p| - 1];
      SpeltNames(tree, front);
      assert Spelt(tree, p) == Spelt(tree, front) + [tree[p].name];
      assert p == front + [p[|p| - 1]];
    }
  }

  /** A key's snapshot is determined by the tree, whatever the enumeration order was. */
  lemma ShotIsUnique(tree: Tree, p: Path, a: KeySnapshot, b: KeySnapshot)
    requires WellFormed(tree) && p in tree && Shot(tree, p, a) && Shot(tree, p, b)
    ensures a == b
  {
    OrderIsUnique(ValueName, a.values, b.values);
  }

  lemma ShotPath(tree: Tree, p: Path, s: KeySnapshot)
    requires WellFormed(tree) && p in tree && Shot(tree, p, s)
    ensures KeyPath(s) == Joined(p) && Split(s.path) == Spelt(tree, p)
  {
    SpeltNames(tree, p);
    FoldJoined(Spelt(tree, p));
    SplitJoined(Spelt(tree, p));
  }

  lemma {:induction false} FoldedNames(names: seq<string>)
    requires KeyNames(names)
    ensures KeyNames(FoldPath(names))
  {
  }

  /** Two keys of a tree have different paths as text, without case. */
  lemma PathsDiffer(tree: Tree, p: Path, q: Path, s: KeySnapshot, t: KeySnapshot)
    requires WellFormed(tree) && p in tree && q in tree && Shot(tree, p, s) && Shot(tree, q, t)
    requires KeyPath(s) == KeyPath(t)
    ensures p == q
  {
    ShotPath(tree, p, s);
    ShotPath(tree, q, t);
    SpeltNames(tree, p);
    SpeltNames(tree, q);
    FoldedNames(Spelt(tree, p));
    FoldedNames(Spelt(tree, q));
    SplitJoined(p);
    SplitJoined(q);
  }

  /** A tree has one listing, so a capture does not depend on the order of enumeration. */
  lemma ListingIsUnique(tree: Tree, a: seq<KeySnapshot>, b: seq<KeySnapshot>)
    requires WellFormed(tree) && Listing(tree, a) && Listing(tree, b)
    ensures a == b
  {
    hide Shot, WellFormed, Drawn, Recorded;
    forall s
      ensures s in a <==> s in b
    {
      SameShot(tree, a, b, s);
      SameShot(tree, b, a, s);
    }
    OrderIsUnique(KeyPath, a, b);
  }

  lemma SameShot(tree: Tree, a: seq<KeySnapshot>, b: seq<KeySnapshot>, s: KeySnapshot)
    requires WellFormed(tree) && Listing(tree, a) && Listing(tree, b)
    ensures s in a ==> s in b
  {
    hide Shot, WellFormed, Drawn, Recorded;
    if s in a {
      var p := Origin(tree, s);
      var t := Snapshot(tree, p, b);
      ShotIsUnique(tree, p, s, t);
    }
  }

  lemma Origin(tree: Tree, s: KeySnapshot) returns (p: Path)
    requires WellFormed(tree) && Drawn(tree, s)
    ensures p in tree && Shot(tree, p, s)
  {
    hide Shot, WellFormed;
    p :| p in tree && Shot(tree, p, s);
  }

  lemma Snapshot(tree: Tree, p: Path, keys: seq<KeySnapshot>) returns (s: KeySnapshot)
    requires WellFormed(tree) && p in tree && Recorded(tree, p, keys)
    ensures s in keys && Shot(tree, p, s)
  {
    hide Shot, WellFormed;
    s :| s in keys && Shot(tree, p, s);
  }

  // ---- Capture ----

  ghost predicate NoRepeats(s: seq<Path>) {
    forall i, j :: 0 <= i < j < |s| ==> s[i] != s[j]
  }

  lemma {:induction false} RepeatFreeSize(s: seq<Path>, all: set<Path>)
    requires NoRepeats(s) && forall p :: p in s ==> p in all
    ensures |s| <= |all|
    ensures (forall p :: p in all ==> p in s) ==> |s| == |all|
  {
    if s == [] {
      assert (forall p :: p in all ==> p in s) ==> all == {};
    } else {
      var rest, last := s[..|s| - 1], s[|s| - 1];
      assert s == rest + [last];
      assert last in s;
      forall p | p in rest
        ensures p in all - {last}
      {
        var i :| 0 <= i < |rest| && rest[i] == p;
        assert s[i] == p && p in s;
      }
      RepeatFreeSize(rest, all - {last});
    }
  }

  /** The keys at and below `p`. */
  ghost predicate Below(tree: Tree, p: Path, q: Path) {
    q in tree && p <= q
  }

  function Children(tree: Tree, p: Path): (r: set<string>)
    ensures forall n :: n in r <==> p + [n] in tree
  {
    var r := set q | q in tree && |q| == |p| + 1 && p <= q :: q[|p|];
    assert forall q :: q in tree && |q| == |p| + 1 && p <= q ==> q == p + [q[|p|]];
    assert forall n :: p + [n] in tree ==> (p + [n])[|p|] in r;
    r
  }

  function ChildNames(tree: Tree, p: Path): map<string, string> {
    map n | n in Children(tree, p) :: tree[p + [n]].name
  }

  function ValueNames(key: Key): map<string, string> {
    map n | n in key.values :: key.values[n].name
  }

  /** GetSubKeyNames and GetValueNames: the entries come in any order and are sorted. */
  method Enumerate(entries: map<string, string>) returns (names: seq<string>)
    requires forall n :: n in entries ==> Fold(entries[n]) == n
    ensures Ordered(Fold, names)
    ensures forall x :: x in names <==> Fold(x) in entries && entries[Fold(x)] == x
  {
    var rest, found: seq<string> := entries.Keys, [];
    while rest != {}
      invariant rest <= entries.Keys
      invariant forall x :: x in found <==> Fold(x) in entries && Fold(x) !in rest && entries[Fold(x)] == x
      invariant Different(Fold, found)
      decreases rest
    {
      var n :| n in rest;
      assert forall x :: x in found ==> Fold(x) != n;
      found := found + [entries[n]];
      rest := rest - {n};
    }
    SortOrders(Fold, found);
    names := Sort(Fold, found);
  }

  lemma ValuesFold(tree: Tree, p: Path)
    requires WellFormed(tree) && p in tree
    ensures forall n :: n in tree[p].values ==> Fold(tree[p].values[n].name) == n
  {
  }

  lemma Apart(names: seq<string>, i: nat)
    requires Ordered(Fold, names) && i < |names|
    ensures forall j :: 0 <= j < |names| && j != i ==> Fold(names[j]) != Fold(names[i])
  {
    hide Less, Fold;
    forall j | 0 <= j < |names| && j != i
      ensures Fold(names[j]) != Fold(names[i])
    {
      LessTotal(Fold(names[j]), Fold(names[i]));
    }
  }

  /** The values of a key, read in the order of their names. */
  lemma FoundAll(key: Key, names: seq<string>, found: seq<Value>)
    requires Ordered(Fold, names) && |found| == |names|
    requires forall n :: n in key.values ==> Fold(key.values[n].name) == n
    requires forall x :: x in names <==> Fold(x) in key.values && key.values[Fold(x)].name == x
    requires forall j :: 0 <= j < |names| ==> found[j] == key.values[Fold(names[j])]
    ensures Ordered(ValueName, found)
    ensures forall v :: v in found <==> exists n :: n in key.values && key.values[n] == v
  {
  }

  class Capture {
    const tree: Tree
    var keys: nat
    var values: nat
    var bytes: nat
    var list: seq<KeySnapshot>
    ghost var order: seq<Path>
    ghost var read: map<(Path, string), nat>

    constructor (tree: Tree)
      ensures this.tree == tree
    {
      this.tree := tree;
    }

    ghost predicate Tallied()
      reads this`read, this`values, this`bytes
    {
      && read.Keys <= Sizes(tree).Keys
      && (forall k :: k in read ==> read[k] == Sizes(tree)[k])
      && values == |read| <= MAX_VALUES
      && bytes == Sum(read) <= MAX_BYTES
    }

    ghost predicate Legal(p: Path)
      requires p in tree
    {
      && |p| <= MAX_DEPTH
      && forall n :: n in tree[p].values ==>
           Supported(tree[p].values[n].kind) && |tree[p].values[n].data| <= MAX_VALUE
    }

    /** The list holds the snapshots of the keys in `order`, and the counters count their values. */
    ghost predicate Listed()
      reads this`list, this`order, this`keys, this`read
    {
      && WellFormed(tree)
      && |list| == |order| == keys <= MAX_KEYS
      && NoRepeats(order)
      && (forall i :: 0 <= i < |order| ==> order[i] in tree && Legal(order[i]) && Shot(tree, order[i], list[i]))
      && (forall p, n :: (p, n) in read <==> p in order && n in tree[p].values)
    }

    /** One value more; false when a limit on values is passed. */
    method ReadValue(p: Path, name: string) returns (ok: bool, value: Value)
      requires p in tree && Fold(name) in tree[p].values
      requires Tallied() && (p, Fold(name)) !in read
      modifies this`values, this`bytes, this`read
      ensures value == tree[p].values[Fold(name)]
      ensures ok ==> Tallied() && read == old(read)[(p, Fold(name)) := |value.data|]
      ensures ok ==> Supported(value.kind) && |value.data| <= MAX_VALUE
      ensures !ok ==> !Within(tree)
    {
      hide Within, Sizes, Sum, Supported;
      var n := Fold(name);
      value := tree[p].values[n];
      SizeOf(p, n);
      ghost var more := read[(p, n) := |value.data|];
      SumMore(read, (p, n), |value.data|);
      Limits(p, n, more);
      if !Supported(value.kind) || |value.data| > MAX_VALUE {
        return false, value;
      }
      values := values + 1;
      if values > MAX_VALUES {
        return false, value;
      }
      bytes := bytes + |value.data|;
      if bytes > MAX_BYTES {
        return false, value;
      }
      read := more;
      return true, value;
    }

    lemma SizeOf(p: Path, n: string)
      requires p in tree && n in tree[p].values
      ensures (p, n) in Sizes(tree) && Sizes(tree)[(p, n)] == |tree[p].values[n].data|
    {
    }

    /** What breaks a limit on values. */
    lemma Limits(p: Path, n: string, part: map<(Path, string), nat>)
      requires p in tree && n in tree[p].values
      requires part.Keys <= Sizes(tree).Keys && forall k :: k in part ==> part[k] == Sizes(tree)[k]
      ensures |part| > MAX_VALUES || Sum(part) > MAX_BYTES ==> !Within(tree)
      ensures !Supported(tree[p].values[n].kind) || |tree[p].values[n].data| > MAX_VALUE ==> !Within(tree)
    {
      hide Sum, Sizes, Supported;
      SumSubset(part, Sizes(tree));
    }

    method ReadValues(p: Path) returns (ok: bool, found: seq<Value>)
      requires WellFormed(tree) && p in tree && Tallied() && forall n :: (p, n) !in read
      modifies this`values, this`bytes, this`read
      ensures ok ==> Tallied()
      ensures ok ==> forall q, n :: (q, n) in read <==> (q, n) in old(read) || (q == p && n in tree[p].values)
      ensures ok ==> forall n :: n in tree[p].values ==>
                Supported(tree[p].values[n].kind) && |tree[p].values[n].data| <= MAX_VALUE
      ensures ok ==> Ordered(ValueName, found)
      ensures ok ==> forall v :: v in found <==> exists n :: n in tree[p].values && tree[p].values[n] == v
      ensures !ok ==> !Within(tree)
    {
      hide Within, Sum, Tallied, WellFormed, Sizes, Less, Fold;
      ValuesFold(tree, p);
      var names := Enumerate(ValueNames(tree[p]));
      found := [];
      ghost var got: set<string> := {};
      for i := 0 to |names|
        invariant Tallied()
        invariant |found| == i
        invariant forall j :: 0 <= j < i ==> found[j] == tree[p].values[Fold(names[j])] && Fold(names[j]) in got
        invariant forall j :: i <= j < |names| ==> Fold(names[j]) !in got
        invariant got <= tree[p].values.Keys
        invariant forall n :: n in got ==>
                    Supported(tree[p].values[n].kind) && |tree[p].values[n].data| <= MAX_VALUE
        invariant forall q, n :: (q, n) in read <==> (q, n) in old(read) || (q == p && n in got)
      {
        assert names[i] in names;
        Apart(names, i);
        var value;
        ok, value := ReadValue(p, names[i]);
        if !ok { return; }
        found := found + [value];
        got := got + {Fold(names[i])};
      }
      FoundAll(tree[p], names, found);
      forall n | n in tree[p].values
        ensures n in got
      {
        assert tree[p].values[n].name in names;
      }
      ok := true;
    }

    /** CaptureKey: the key, then its subkeys in the order of their names. */
    method CaptureKey(p: Path, relative: string, depth: nat) returns (ok: bool)
      requires Listed() && Tallied() && p in tree && relative == Joined(Spelt(tree, p))
      requires depth == |p| <= MAX_DEPTH + 1
      requires forall q :: q in order ==> !(p <= q)
      modifies this
      decreases MAX_DEPTH + 2 - depth
      ensures ok ==> Listed() && Tallied()
      ensures ok ==> forall q :: q in order <==> q in old(order) || Below(tree, p, q)
      ensures !ok ==> !Within(tree)
    {
      hide Within, Tallied, WellFormed, Shot, Less, Fold, Sizes, Joined, Spelt, Children, Below;
      if depth > MAX_DEPTH {
        TooDeep(p);
        return false;
      }
      keys := keys + 1;
      if keys > MAX_KEYS {
        TooMany(order, p);
        return false;
      }
      assert p <= p && p !in order;
      var found;
      ok, found := ReadValues(p);
      if !ok { return; }
      list := list + [KeySnapshot(relative, found)];
      order := order + [p];
      ShotNow(p, KeySnapshot(relative, found));
      ghost var before := order;
      ChildrenFold(p);
      var names := Enumerate(ChildNames(tree, p));
      for i := 0 to |names|
        invariant Listed() && Tallied()
        invariant forall q :: q in order <==> q in before || exists j :: 0 <= j < i && Below(tree, p + [Fold(names[j])], q)
      {
        assert names[i] in names;
        var child := p + [Fold(names[i])];
        var path := if relative == "" then names[i] else relative + "\\" + names[i];
        ChildPath(p, names[i]);
        ChildFresh(names, i, p, before, order);
        ghost var during := order;
        ok := CaptureKey(child, path, depth + 1);
        if !ok { return; }
        ChildDone(names, i, p, before, during, order);
      }
      AllBelow(p, names, old(order), before, order);
      ok := true;
    }

    lemma TooDeep(p: Path)
      requires p in tree && |p| > MAX_DEPTH
      ensures !Within(tree)
    {
    }

    lemma TooMany(order: seq<Path>, p: Path)
      requires NoRepeats(order) && p in tree && p !in order && |order| >= MAX_KEYS
      requires forall i :: 0 <= i < |order| ==> order[i] in tree
      ensures !Within(tree)
    {
      var more := order + [p];
      assert NoRepeats(more);
      forall q | q in more
        ensures q in tree.Keys
      {
        if q != p {
          var i :| 0 <= i < |order| && order[i] == q;
        }
      }
      RepeatFreeSize(more, tree.Keys);
      assert |tree.Keys| == |tree|;
    }

    lemma ShotNow(p: Path, s: KeySnapshot)
      requires WellFormed(tree) && p in tree && s.path == Joined(Spelt(tree, p))
      requires Ordered(ValueName, s.values)
      requires forall v :: v in s.values <==> exists n :: n in tree[p].values && tree[p].values[n] == v
      ensures Shot(tree, p, s)
    {
    }

    lemma ChildrenFold(p: Path)
      requires WellFormed(tree)
      ensures forall n :: n in ChildNames(tree, p) ==> Fold(ChildNames(tree, p)[n]) == n
    {
    }

    lemma ChildPath(p: Path, name: string)
      requires WellFormed(tree) && p in tree && p + [Fold(name)] in tree && tree[p + [Fold(name)]].name == name
      ensures Joined(Spelt(tree, p + [Fold(name)])) ==
                if Joined(Spelt(tree, p)) == "" then name else Joined(Spelt(tree, p)) + "\\" + name
    {
    }

    lemma Under(p: Path, m: string, q: Path)
      ensures p + [m] <= q <==> |q| > |p| && p <= q && q[|p|] == m
    {
    }

    lemma ChildFresh(names: seq<string>, i: nat, p: Path, before: seq<Path>, order: seq<Path>)
      requires Ordered(Fold, names) && i < |names|
      requires forall q :: q in before ==> q == p || !(p <= q)
      requires forall q :: q in order <==> q in before || exists j :: 0 <= j < i && Below(tree, p + [Fold(names[j])], q)
      ensures forall q :: q in order ==> !(p + [Fold(names[i])] <= q)
    {
      hide Less, Fold;
      Apart(names, i);
      forall q | q in order
        ensures !(p + [Fold(names[i])] <= q)
      {
        Under(p, Fold(names[i]), q);
        if q !in before {
          var j :| 0 <= j < i && Below(tree, p + [Fold(names[j])], q);
          Under(p, Fold(names[j]), q);
        }
      }
    }

    lemma ChildDone(names: seq<string>, i: nat, p: Path, before: seq<Path>, during: seq<Path>, order: seq<Path>)
      requires i < |names|
      requires forall q :: q in during <==> q in before || exists j :: 0 <= j < i && Below(tree, p + [Fold(names[j])], q)
      requires forall q :: q in order <==> q in during || Below(tree, p + [Fold(names[i])], q)
      ensures forall q :: q in order <==> q in before || exists j :: 0 <= j < i + 1 && Below(tree, p + [Fold(names[j])], q)
    {
    }

    lemma AllBelow(p: Path, names: seq<string>, was: seq<Path>, before: seq<Path>, order: seq<Path>)
      requires WellFormed(tree) && p in tree && before == was + [p]
      requires forall x :: x in names <==> Fold(x) in ChildNames(tree, p) && ChildNames(tree, p)[Fold(x)] == x
      requires forall q :: q in order <==>
                 q in before || exists j :: 0 <= j < |names| && Below(tree, p + [Fold(names[j])], q)
      ensures forall q :: q in order <==> q in was || Below(tree, p, q)
    {
      hide Fold, Less;
      ChildrenFold(p);
      forall q | Below(tree, p, q) && q != p
        ensures exists j :: 0 <= j < |names| && Below(tree, p + [Fold(names[j])], q)
      {
        var m := q[|p|];
        Under(p, m, q);
        assert q[..|p| + 1] == p + [m];
        assert p + [m] in tree;
        var x := ChildNames(tree, p)[m];
        assert x in names;
        var j :| 0 <= j < |names| && names[j] == x;
      }
      forall j, q | 0 <= j < |names| && Below(tree, p + [Fold(names[j])], q)
        ensures Below(tree, p, q)
      {
        Under(p, Fold(names[j]), q);
      }
    }

    /** CaptureOpenedTree. It succeeds exactly within the limits, and yields the tree's one listing. */
    method CaptureTree(root: string) returns (r: Option<TreeSnapshot>)
      requires WellFormed(tree)
      modifies this
      ensures r.Some? <==> Within(tree)
      ensures r.Some? ==> r.value.root == root && Listing(tree, r.value.keys)
      ensures r.Some? ==> r.value.valueCount == |Sizes(tree)| && r.value.totalBytes == Sum(Sizes(tree))
    {
      hide Within, WellFormed, Shot, Less, Fold;
      keys, values, bytes, list := 0, 0, 0, [];
      order, read := [], map[];
      RootIs();
      var ok := CaptureKey([], "", 0);
      if !ok { return None; }
      AllCaptured();
      PathsApart();
      SortOrders(KeyPath, list);
      SortedListing();
      return Some(TreeSnapshot(root, Sort(KeyPath, list), values, bytes));
    }

    lemma RootIs()
      requires WellFormed(tree)
      ensures [] in tree && Joined(Spelt(tree, [])) == ""
    {
    }

    lemma AllCaptured()
      requires Listed() && Tallied() && forall q :: q in order <==> Below(tree, [], q)
      ensures Within(tree) && read == Sizes(tree)
    {
      hide WellFormed, Shot, Fold, Supported, Sizes, Listed, Below;
      AllLegal();
      AllRead();
      assert forall p :: p in tree ==> Legal(p);
    }

    lemma AllLegal()
      requires Listed() && forall q :: q in order <==> Below(tree, [], q)
      ensures forall q :: q in tree ==> q in order && Legal(q)
      ensures |tree| <= MAX_KEYS
    {
      hide WellFormed, Shot, Fold, Legal;
      forall q | q in tree
        ensures q in order && Legal(q)
      {
        assert Below(tree, [], q);
        var i :| 0 <= i < |order| && order[i] == q;
      }
      RepeatFreeSize(order, tree.Keys);
      assert |tree.Keys| == |tree|;
    }

    lemma AllRead()
      requires Listed() && Tallied() && forall q :: q in tree ==> q in order
      ensures read == Sizes(tree)
    {
      hide WellFormed, Shot, Fold, Legal, Sum;
      forall k | k in Sizes(tree)
        ensures k in read
      {
        assert (k.0, k.1) in read;
      }
    }

    lemma PathsApart()
      requires Listed()
      ensures Different(KeyPath, list)
    {
      hide WellFormed, Shot, Fold, Legal;
      forall i, j | 0 <= i < j < |list|
        ensures KeyPath(list[i]) != KeyPath(list[j])
      {
        if KeyPath(list[i]) == KeyPath(list[j]) {
          PathsDiffer(tree, order[i], order[j], list[i], list[j]);
        }
      }
    }

    lemma SortedListing()
      requires Listed() && forall q :: q in order <==> Below(tree, [], q)
      requires Ordered(KeyPath, Sort(KeyPath, list)) && forall s :: s in Sort(KeyPath, list) <==> s in list
      ensures Listing(tree, Sort(KeyPath, list))
    {
      hide WellFormed, Shot, Fold, Legal, Less;
      var sorted := Sort(KeyPath, list);
      forall s | s in sorted
        ensures Drawn(tree, s)
      {
        var i :| 0 <= i < |list| && list[i] == s;
        assert Shot(tree, order[i], s);
      }
      forall p | p in tree
        ensures Recorded(tree, p, sorted)
      {
        assert Below(tree, [], p);
        var i :| 0 <= i < |order| && order[i] == p;
        assert list[i] in sorted && Shot(tree, p, list[i]);
      }
    }
  }

  // ---- Rebuilding ----

  class Hive {
    var tree: Tree

    constructor ()
      ensures tree == map[]
    {
      tree := map[];
    }

    /** RegCreateKeyTransacted, which creates the keys on the way. */
    method CreateKey(path: seq<string>)
      modifies this
      ensures tree == Created(old(tree), path, |path| + 1)
    {
      for i := 0 to |path| + 1
        invariant tree == Created(old(tree), path, i)
      {
        var q := FoldPath(path[..i]);
        if q !in tree {
          tree := tree[q := Key(if i == 0 then "" else path[i - 1], map[])];
        }
      }
    }

    /** RegSetValueEx: an existing value keeps its spelling. */
    method SetValue(p: Path, v: Value)
      requires p in tree
      modifies this
      ensures tree == old(tree)[p := Key(old(tree)[p].name, WithValue(old(tree)[p].values, v))]
    {
      tree := tree[p := Key(tree[p].name, WithValue(tree[p].values, v))];
    }

    /** What is written so far: keys of `source`, those in `done` with all their values, others with none. */
    static ghost predicate Partly(tree: Tree, source: Tree, done: set<Path>) {
      && tree.Keys <= source.Keys && done <= tree.Keys
      && forall q :: q in tree ==>
           tree[q].name == source[q].name && tree[q].values == if q in done then source[q].values else map[]
    }

    /** One key of the snapshot, which was taken at `p` of `source`. */
    method WriteKey(k: KeySnapshot, ghost source: Tree, ghost done: set<Path>, ghost p: Path)
      requires WellFormed(source) && p in source && Shot(source, p, k) && Partly(tree, source, done)
      modifies this
      ensures Partly(tree, source, done + {p})
    {
      hide WellFormed, Fold, Less, Split, Joined, Created, Shot, Partly, FoldPath, Spelt;
      ShotPath(source, p, k);
      SpeltNames(source, p);
      ShotValues(source, p, k);
      var path := Split(k.path);
      ghost var before := tree;
      CreatedIn(before, source, p, |p| + 1);
      CreateKey(path);
      ghost var created := tree;
      StillPartly(before, created, source, done, p);
      WriteValues(FoldPath(path), k.values, source[p].values);
      AllWritten(k.values, source[p].values, tree[p].values);
      NowPartly(created, tree, source, done, p);
    }

    static lemma StillPartly(before: Tree, after: Tree, source: Tree, done: set<Path>, p: Path)
      requires WellFormed(source) && p in source && Partly(before, source, done) && Extends(before, after, source)
      ensures Partly(after, source, done)
      ensures p in after ==> after[p].values.Keys <= source[p].values.Keys
      ensures p in after ==> forall n :: n in after[p].values ==> after[p].values[n] == source[p].values[n]
    {
      hide WellFormed;
    }

    static lemma NowPartly(before: Tree, after: Tree, source: Tree, done: set<Path>, p: Path)
      requires p in source && p in before && Partly(before, source, done) && after.Keys == before.Keys
      requires forall q :: q in after && q != p ==> after[q] == before[q]
      requires after[p].name == before[p].name && after[p].values == source[p].values
      ensures Partly(after, source, done + {p})
    {
    }

    lemma ShotValues(source: Tree, p: Path, k: KeySnapshot)
      requires WellFormed(source) && p in source && Shot(source, p, k)
      ensures forall v :: v in k.values ==> Fold(v.name) in source[p].values && source[p].values[Fold(v.name)] == v
      ensures forall n :: n in source[p].values ==> source[p].values[n] in k.values && Fold(source[p].values[n].name) == n
    {
    }

    lemma AllWritten(written: seq<Value>, whole: map<string, Value>, part: map<string, Value>)
      requires part.Keys <= whole.Keys && forall n :: n in part ==> part[n] == whole[n]
      requires forall n :: n in whole ==> whole[n] in written && Fold(whole[n].name) == n
      requires forall v :: v in written ==> Fold(v.name) in part
      ensures part == whole
    {
    }

    /** The values of one key, which may have been written before. */
    method WriteValues(at: Path, values: seq<Value>, ghost whole: map<string, Value>)
      requires at in tree && tree[at].values.Keys <= whole.Keys
      requires forall n :: n in tree[at].values ==> tree[at].values[n] == whole[n]
      requires forall v :: v in values ==> Fold(v.name) in whole && whole[Fold(v.name)] == v
      modifies this
      ensures tree.Keys == old(tree).Keys && tree[at].name == old(tree)[at].name
      ensures forall q :: q in tree && q != at ==> tree[q] == old(tree)[q]
      ensures tree[at].values.Keys <= whole.Keys
      ensures forall n :: n in tree[at].values ==> tree[at].values[n] == whole[n]
      ensures forall v :: v in values ==> Fold(v.name) in tree[at].values
    {
      hide Fold;
      for j := 0 to |values|
        invariant tree.Keys == old(tree).Keys && tree[at].name == old(tree)[at].name
        invariant forall q :: q in tree && q != at ==> tree[q] == old(tree)[q]
        invariant tree[at].values.Keys <= whole.Keys
        invariant forall n :: n in tree[at].values ==> tree[at].values[n] == whole[n]
        invariant forall i :: 0 <= i < j ==> Fold(values[i].name) in tree[at].values
      {
        assert values[j] in values;
        SetValue(at, values[j]);
      }
    }

    /** `after` has besides the keys of `tree` only fresh keys of `source`. */
    static ghost predicate Extends(tree: Tree, after: Tree, source: Tree) {
      && tree.Keys <= after.Keys
      && (forall q :: q in tree ==> after[q] == tree[q])
      && (forall q :: q in after && q !in tree ==> q in source && after[q] == Key(source[q].name, map[]))
    }

    /** On the way to a key of `source` there are keys of `source`. */
    static lemma {:induction false} CreatedIn(tree: Tree, source: Tree, p: Path, n: nat)
      requires WellFormed(source) && p in source && n <= |p| + 1
      ensures Extends(tree, Created(tree, Spelt(source, p), n), source)
      ensures n > |p| ==> p in Created(tree, Spelt(source, p), n)
    {
      if n == 0 {
      } else {
        hide Fold, FoldPath, WellFormed, Spelt, Extends, Created, KeyName;
        CreatedIn(tree, source, p, n - 1);
        SpeltAt(source, p, n - 1);
        var path, q := Spelt(source, p), p[..n - 1];
        CreatedStep(tree, path, n, q, source[q].name);
        ExtendsMore(tree, Created(tree, path, n - 1), source, q);
        assert p[..|p|] == p;
      }
    }

    static lemma CreatedStep(tree: Tree, path: seq<string>, n: nat, q: Path, name: string)
      requires 0 < n <= |path| + 1 && q == FoldPath(path[..n - 1]) && name == if n == 1 then "" else path[n - 2]
      ensures var rest := Created(tree, path, n - 1);
              Created(tree, path, n) == if q in rest then rest else rest[q := Key(name, map[])]
    {
    }

    static lemma ExtendsMore(tree: Tree, rest: Tree, source: Tree, q: Path)
      requires Extends(tree, rest, source) && q in source
      ensures Extends(tree, if q in rest then rest else rest[q := Key(source[q].name, map[])], source)
    {
    }

    static lemma {:induction false} SpeltAt(source: Tree, p: Path, k: nat)
      requires WellFormed(source) && p in source && k <= |p|
      ensures p[..k] in source
      ensures k > 0 ==> Spelt(source, p)[k - 1] == source[p[..k]].name
      ensures FoldPath(Spelt(source, p)[..k]) == p[..k]
      ensures k == 0 ==> source[p[..k]].name == ""
    {
      SpeltNames(source, p);
      hide Fold, KeyName;
      assert FoldPath(Spelt(source, p)[..k]) == p[..k];
      if k < |p| {
        SpeltAt(source, p[..|p| - 1], k);
        assert p[..|p| - 1][..k] == p[..k];
      } else {
        assert p[..k] == p;
      }
    }

    /** WriteTreeTransacted into an empty root, the keys in any order, rebuilds the tree they came from. */
    method WriteTree(snapshot: TreeSnapshot, ghost source: Tree)
      requires tree == map[] && WellFormed(source)
      requires forall k :: k in snapshot.keys ==> Drawn(source, k)
      requires forall p :: p in source ==> Recorded(source, p, snapshot.keys)
      modifies this
      ensures tree == source
    {
      hide WellFormed, Shot, Drawn, Recorded;
      ghost var done: set<Path> := {};
      for i := 0 to |snapshot.keys|
        invariant Partly(tree, source, done)
        invariant forall p, j :: p in source && 0 <= j < i && Shot(source, p, snapshot.keys[j]) ==> p in done
      {
        assert snapshot.keys[i] in snapshot.keys;
        ghost var p := Origin(source, snapshot.keys[i]);
        WriteKey(snapshot.keys[i], source, done, p);
        done := done + {p};
        forall q | q in source && Shot(source, q, snapshot.keys[i])
          ensures q == p
        {
          PathsDiffer(source, p, q, snapshot.keys[i], snapshot.keys[i]);
        }
      }
      forall p | p in source
        ensures p in done
      {
        var k := Snapshot(source, p, snapshot.keys);
        var j :| 0 <= j < |snapshot.keys| && snapshot.keys[j] == k;
      }
    }
  }

  /** The tree with the first `n` keys on the way to `path`. */
  function Created(tree: Tree, path: seq<string>, n: nat): Tree
    requires n <= |path| + 1
  {
    if n == 0 then tree
    else
      var rest, q := Created(tree, path, n - 1), FoldPath(path[..n - 1]);
      if q in rest then rest else rest[q := Key(if n == 1 then "" else path[n - 2], map[])]
  }

  function WithValue(values: map<string, Value>, v: Value): map<string, Value> {
    var n := Fold(v.name);
    values[n := if n in values then v.(name := values[n].name) else v]
  }

  /**
   * Round trip: a captured tree, written into an empty root, is the tree that was captured, and
   * capturing it again yields the same snapshot.
   */
  method CaptureWriteCapture(tree: Tree, root: string)
    returns (first: Option<TreeSnapshot>, rebuilt: Hive, second: Option<TreeSnapshot>)
    requires WellFormed(tree)
    ensures first.Some? <==> Within(tree)
    ensures first.Some? ==> rebuilt.tree == tree && second == first
  {
    hide WellFormed, Within, Shot, Drawn, Recorded;
    rebuilt := new Hive();
    var capture := new Capture(tree);
    first := capture.CaptureTree(root);
    if first.None? { return first, rebuilt, None; }
    rebuilt.WriteTree(first.value, tree);
    var again := new Capture(rebuilt.tree);
    second := again.CaptureTree(root);
    ListingIsUnique(tree, first.value.keys, second.value.keys);
  }
}
