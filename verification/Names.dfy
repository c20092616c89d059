/** The names config.py and release_manager.py build, and what can be read back from them. */
module Names {
  import opened Results
  import opened Topology

  /** The last position of `c`, -1 when it does not occur. */
  function LastIndexOf(s: string, c: char): (k: int)
    ensures -1 <= k < |s|
    ensures k >= 0 ==> s[k] == c
    ensures forall i :: k < i < |s| ==> s[i] != c
  {
    if s == "" then -1
    else if s[|s| - 1] == c then |s| - 1
    else LastIndexOf(s[..|s| - 1], c)
  }

  lemma {:induction false} LastIndexAfter(p: string, c: char, x: string)
    requires c !in x
    ensures LastIndexOf(p + [c] + x, c) == |p|
  {
    var s := p + [c] + x;
    if x == "" {
      assert s[|s| - 1] == c;
    } else {
      var front := x[..|x| - 1];
      LastIndexAfter(p, c, front);
      assert s[|s| - 1] == x[|x| - 1] && x[|x| - 1] in x;
      assert s[..|s| - 1] == p + [c] + front;
    }
  }

  /** The clone's parent, volume and release, read back from its path. */
  function DecodeClone(path: string): Option<(string, string, string)> {
    var slash := LastIndexOf(path, '/');
    if slash < 0 then None
    else
      var leaf := path[slash + 1..];
      var mark := LastIndexOf(leaf, '_');
      if mark < 1 then None else Some((path[..slash], leaf[..mark - 1], leaf[mark + 1..]))
  }

  /** The regular expressions forbid a slash in a volume name, and a slash or underscore in a release. */
  lemma CloneRoundTrip(client: Client, v: Volume, release: string)
    requires '/' !in v.name && '/' !in release && '_' !in release
    ensures DecodeClone(CloneDataset(client, v, release)) == Some((ParentFor(client, v), v.name, release))
    ensures forall p :: v.cloneParent == Some(p) && p != "" ==>
              DecodeClone(CloneDataset(client, v, release)) == Some((p, v.name, release))
    ensures forall p :: (v.cloneParent == None || v.cloneParent == Some("")) && client.cloneParent == Some(p) ==>
              DecodeClone(CloneDataset(client, v, release)) == Some((p, v.name, release))
  {
    var leaf := v.name + "__" + release;
    var path := CloneDataset(client, v, release);
    assert path == ParentFor(client, v) + ['/'] + leaf;
    LastIndexAfter(ParentFor(client, v), '/', leaf);
    assert leaf == (v.name + "_") + ['_'] + release;
    LastIndexAfter(v.name + "_", '_', release);
    assert path[|ParentFor(client, v)| + 1..] == leaf;
    assert path[..|ParentFor(client, v)|] == ParentFor(client, v);
    assert leaf[..|v.name|] == v.name;
    assert leaf[|v.name| + 2..] == release;
  }

  /** Clone paths of one client and release differ. */
  lemma ClonePathsDiffer(client: Client, v: Volume, w: Volume, release: string)
    requires '/' !in v.name && '/' !in w.name && '/' !in release && v.name != w.name
    ensures CloneDataset(client, v, release) != CloneDataset(client, w, release)
  {
    var a, b := v.name + "__" + release, w.name + "__" + release;
    assert CloneDataset(client, v, release) == ParentFor(client, v) + ['/'] + a;
    assert CloneDataset(client, w, release) == ParentFor(client, w) + ['/'] + b;
    LastIndexAfter(ParentFor(client, v), '/', a);
    LastIndexAfter(ParentFor(client, w), '/', b);
    assert CloneDataset(client, v, release)[|ParentFor(client, v)| + 1..] == a;
    assert CloneDataset(client, w, release)[|ParentFor(client, w)| + 1..] == b;
    assert a[..|a| - |release| - 2] == v.name;
    assert b[..|b| - |release| - 2] == w.name;
  }

  /** dataset@name, as the backend and the release store write it. */
  function SnapshotText(id: SnapshotId): string {
    id.dataset + "@" + id.name
  }

  lemma SnapshotTextInjective(a: SnapshotId, b: SnapshotId)
    requires '@' !in a.name && '@' !in b.name && SnapshotText(a) == SnapshotText(b)
    ensures a == b
  {
    LastIndexAfter(a.dataset, '@', a.name);
    LastIndexAfter(b.dataset, '@', b.name);
    assert SnapshotText(a) == a.dataset + ['@'] + a.name;
    assert SnapshotText(b) == b.dataset + ['@'] + b.name;
    assert SnapshotText(a)[|a.dataset| + 1..] == a.name;
    assert SnapshotText(b)[|b.dataset| + 1..] == b.name;
    assert SnapshotText(a)[..|a.dataset|] == a.dataset;
    assert SnapshotText(b)[..|b.dataset|] == b.dataset;
  }

  // ---- Release names: prefix-date.sequence ----

  function Digit(d: nat): char
    requires d < 10
  {
    "0123456789"[d]
  }

  function Decimal(n: nat): (s: string)
    ensures s != "" && forall c :: c in s ==> c in "0123456789"
  {
    if n < 10 then [Digit(n)] else Decimal(n / 10) + [Digit(n % 10)]
  }

  lemma {:induction false} DecimalInjective(a: nat, b: nat)
    requires Decimal(a) == Decimal(b)
    ensures a == b
  {
    var s, t := Decimal(a), Decimal(b);
    assert s[|s| - 1] == t[|t| - 1];
    assert s[|s| - 1] == Digit(a % 10) && t[|t| - 1] == Digit(b % 10);
    if a >= 10 && b >= 10 {
      assert s[..|s| - 1] == Decimal(a / 10) && t[..|t| - 1] == Decimal(b / 10);
      DecimalInjective(a / 10, b / 10);
    }
  }

  function ReleaseName(prefix: string, date: string, sequence: nat): string {
    prefix + "-" + date + "." + Decimal(sequence)
  }

  lemma ReleaseNameInjective(prefix: string, date: string, a: nat, b: nat)
    requires ReleaseName(prefix, date, a) == ReleaseName(prefix, date, b)
    ensures a == b
  {
    var stem := prefix + "-" + date + ".";
    assert ReleaseName(prefix, date, a)[|stem|..] == Decimal(a);
    assert ReleaseName(prefix, date, b)[|stem|..] == Decimal(b);
    DecimalInjective(a, b);
  }

  /** A prefix of letters, digits and dashes and a date of digits and dots keep the marks out. */
  lemma ReleaseNameSafe(prefix: string, date: string, sequence: nat, mark: char)
    requires mark in "/_@" && mark !in prefix && mark !in date
    ensures mark !in ReleaseName(prefix, date, sequence)
  {
  }
}
