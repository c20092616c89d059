/**
 * What an accepted configuration does not guarantee, with the exact condition in each case: the
 * backend strips clone paths under zvol/, publisher volumes may share a dataset, and clients a clone
 * path.
 */
module Gaps {
  import opened Results
  import opened Topology
  import opened Storage
  import opened Checker
  import opened Names
  import opened Protocol
  import opened Runs
  import Coordinator
  import Manager

  predicate InZvol(parent: string) {
    parent == "zvol" || (|parent| >= 5 && parent[..5] == "zvol/")
  }

  /** A clone path is stored as it is exactly when its parent is not under zvol. */
  lemma StoredAsIs(client: Client, v: Volume, release: string)
    ensures NormalizeZvol(CloneDataset(client, v, release)) == CloneDataset(client, v, release) <==>
              !InZvol(ParentFor(client, v))
  {
    var parent, path := ParentFor(client, v), CloneDataset(client, v, release);
    assert path == parent + "/" + v.name + "__" + release;
    if |parent| >= 5 {
      assert path[..5] == parent[..5];
    } else if |parent| == 4 {
      assert path[..5] == parent + "/" && path[..4] == parent;
      assert "zvol/"[..4] == "zvol";
    } else {
      assert path[|parent|] == '/' && "zvol/"[|parent|] != '/';
    }
  }

  lemma PathsReadBackIff(client: Client, release: string)
    ensures Coordinator.PathsReadBack(client, release) <==>
              forall v :: v in client.volumes ==> !InZvol(ParentFor(client, v))
  {
    hide NormalizeZvol, CloneDataset, ParentFor, InZvol;
    forall v | v in client.volumes
      ensures NormalizeZvol(CloneDataset(client, v, release)) == CloneDataset(client, v, release) <==>
                !InZvol(ParentFor(client, v))
    {
      StoredAsIs(client, v, release);
    }
  }

  // ---- Clone paths that two clients share ----

  /** Nothing keeps two clients from having one clone parent; their clones of a volume then have one path. */
  lemma SamePathIff(client: Client, v: Volume, other: Client, w: Volume, release: string)
    requires '/' !in v.name && '/' !in w.name && '/' !in release
    ensures CloneDataset(client, v, release) == CloneDataset(other, w, release) <==>
              ParentFor(client, v) == ParentFor(other, w) && v.name == w.name
  {
    var a, b := v.name + "__" + release, w.name + "__" + release;
    assert CloneDataset(client, v, release) == ParentFor(client, v) + ['/'] + a;
    assert CloneDataset(other, w, release) == ParentFor(other, w) + ['/'] + b;
    LastIndexAfter(ParentFor(client, v), '/', a);
    LastIndexAfter(ParentFor(other, w), '/', b);
    assert CloneDataset(client, v, release)[|ParentFor(client, v)| + 1..] == a;
    assert CloneDataset(other, w, release)[|ParentFor(other, w)| + 1..] == b;
    assert CloneDataset(client, v, release)[..|ParentFor(client, v)|] == ParentFor(client, v);
    assert CloneDataset(other, w, release)[..|ParentFor(other, w)|] == ParentFor(other, w);
    assert a[..|a| - |release| - 2] == v.name && b[..|b| - |release| - 2] == w.name;
  }

  /** The client that is ready first keeps the path: from then on the other one is never ready for the release. */
  lemma SharedPathBlocks(
    config: ServiceConfig, releases: set<string>, states: seq<State>, actors: seq<Actor>, client: Client, v: Volume,
    other: Client, w: Volume, release: string, i: nat, k: nat)
    requires WellFormed(config) && Run(config, releases, states, actors) && Inv(config, states[0]) && i <= k < |states|
    requires client in config.clients && other in config.clients && client != other
    requires v in client.volumes && w in other.volumes
    requires CloneDataset(client, v, release) == CloneDataset(other, w, release)
    requires Coordinator.Ready(config, other, release, states[i])
    ensures !Coordinator.Ready(config, client, release, states[k])
  {
    RunKeepsInv(config, releases, states, actors, i, k);
    NamesDiffer(config, client, other);
    hide WellFormed, Inv, Run, CloneDataset, MasterDataset;
    assert CloneReady(config, other, w, release, states[i]);
    CloneReadyKept(config, other, w, release, states[i], states[k]);
    CloneReadyOwned(config, other, w, release, states[k]);
    if CloneReady(config, client, v, release, states[k]) {
      CloneReadyOwned(config, client, v, release, states[k]);
      assert false;
    }
  }

  // ---- A configuration that is accepted nevertheless ----

  function Digest(digit: char): string {
    "hmac-sha256:" + seq(64, _ => digit)
  }

  const STEM := "iqn.2005-10.org.example"

  function Iqn(name: string): string {
    STEM + ":" + name
  }

  function Pc(pool: string, name: string, address: Address, extent: nat, digit: char): Client {
    Client(name, address, Iqn(name), Iqn(name + "-disks"), Digest(digit),
           Some(pool + "/clones"), [Volume("games", extent, 0, 'G', "Games", None, None)])
  }

  function SampleClient(pool: string): Client {
    Pc(pool, "pc", 169093221, 12, '0')
  }

  function SecondClient(pool: string): Client {
    Pc(pool, "tv", 169093222, 13, '1')
  }

  /**
   * The network 10.20.40.0/24 with two publisher volumes on one dataset of `pool` and two clients with
   * one clone parent.
   */
  function Sample(pool: string): ServiceConfig {
    ServiceConfig(
      Network(169093120, 169093375), 169093130, "games",
      Publisher(169093220, Iqn("studio"), Iqn("studio-disks"),
                [PublisherVolume("games", pool + "/master", 10, 0), PublisherVolume("more", pool + "/master", 11, 1)]),
      [SampleClient(pool), SecondClient(pool)])
  }

  lemma {:induction false} PoolOf(pool: string, rest: string)
    requires '/' !in pool
    ensures Pool(pool + "/" + rest) == pool
  {
    var path := pool + "/" + rest;
    if pool == "" {
      assert path[0] == '/';
    } else {
      assert path[0] == pool[0];
      assert path[1..] == pool[1..] + "/" + rest;
      PoolOf(pool[1..], rest);
    }
  }

  lemma PcFits(pool: string, name: string, address: Address, extent: nat, digit: char)
    requires '/' !in pool && extent > 11 && Iqn(name + "-disks") != Iqn("studio-disks")
    ensures ClientFits(Sample(pool), Pc(pool, name, address, extent, digit))
  {
    var config, client := Sample(pool), Pc(pool, name, address, extent, digit);
    var v := client.volumes[0];
    SamplePools(pool, client);
    hide Pool, MasterDataset, ParentFor, Iqn, Digest;
    assert config.publisher.volumes[0].name == v.name;
    assert config.publisher.volumes[0] in config.publisher.volumes;
    assert VolumeFits(config, client, v);
  }

  lemma SamplePools(pool: string, client: Client)
    requires '/' !in pool && client.cloneParent == Some(pool + "/clones")
    ensures Pool(MasterDataset(Sample(pool).publisher.volumes, "games")) == pool
    ensures forall v :: v in client.volumes && v.cloneParent.None? ==> Pool(ParentFor(client, v)) == pool
  {
    PoolOf(pool, "master");
    PoolOf(pool, "clones");
    assert pool + "/" + "master" == pool + "/master" && pool + "/" + "clones" == pool + "/clones";
    hide Pool;
  }

  lemma StemIs()
    ensures |STEM| == 23 && STEM[..4] == "iqn." && STEM[8] == '-' && STEM[11] == '.'
    ensures IsDigit(STEM[4]) && IsDigit(STEM[5]) && IsDigit(STEM[6]) && IsDigit(STEM[7])
    ensures IsDigit(STEM[9]) && IsDigit(STEM[10])
    ensures forall i :: 12 <= i < 23 ==> STEM[i] !in " \t\n\r:"
    ensures forall i :: 0 <= i < 23 ==> STEM[i] != '\n' && !('A' <= STEM[i] <= 'Z')
  {
  }

  lemma IqnIsOk(name: string)
    requires name != "" && '\n' !in name && NoCapital(name)
    ensures IqnOk(Iqn(name))
  {
    StemIs();
    hide STEM;
    var s := Iqn(name);
    assert s[..4] == STEM[..4];
    assert forall i :: 0 <= i < 23 ==> s[i] == STEM[i];
    assert s[23] == ':';
    assert forall i :: 24 <= i < |s| ==> s[i] == name[i - 24];
  }

  lemma SampleDatasets(pool: string)
    requires DatasetOk(pool)
    ensures DatasetOk(pool + "/master") && DatasetOk(pool + "/clones")
  {
  }

  lemma SampleNetwork()
    ensures Cidr(Network(169093120, 169093375))
  {
    assert Power(4) == 16;
    assert Power(8) == 256;
    assert Power(12) == 4096 && Power(16) == 65536 && Power(20) == 1048576 && Power(24) == 16777216;
    assert Power(28) == 268435456;
    assert Block(Network(169093120, 169093375), 8);
  }

  lemma SamplePublisher(pool: string)
    requires DatasetOk(pool)
    ensures PublisherLoaded(Sample(pool).publisher)
  {
    SampleDatasets(pool);
    IqnIsOk("studio");
    IqnIsOk("studio-disks");
    hide IqnOk, DatasetOk, Iqn;
    assert NameOk("games") && NameOk("more");
  }

  lemma PcLoaded(pool: string, name: string, address: Address, extent: nat, digit: char)
    requires DatasetOk(pool) && name != "" && '\n' !in name && NoCapital(name) && extent > 0 && IsDigit(digit)
    ensures ClientLoaded(Pc(pool, name, address, extent, digit))
  {
    SampleDatasets(pool);
    IqnIsOk(name);
    IqnIsOk(name + "-disks");
    hide IqnOk, DatasetOk, Iqn;
    assert NameOk("games");
    assert DigestOk(Digest(digit));
  }

  lemma IqnsDiffer(a: string, b: string)
    requires a != "" && b != "" && a[0] != b[0]
    ensures Iqn(a) != Iqn(b) && Iqn(a + "-disks") != Iqn(b + "-disks")
  {
    var stem := |STEM| + 1;
    assert Iqn(a)[stem] == a[0] && Iqn(b)[stem] == b[0];
    assert Iqn(a + "-disks")[stem] == a[0] && Iqn(b + "-disks")[stem] == b[0];
  }

  lemma SamplePrefix()
    ensures PrefixOk("games")
  {
  }

  lemma SampleLoaded(pool: string)
    requires DatasetOk(pool)
    ensures Loaded(Sample(pool))
  {
    SamplePublisher(pool);
    PcLoaded(pool, "pc", 169093221, 12, '0');
    PcLoaded(pool, "tv", 169093222, 13, '1');
    SampleNetwork();
    SamplePrefix();
    hide ClientLoaded, PublisherLoaded, DatasetOk, Cidr, Iqn, Digest, PrefixOk, NameOk, IsDigit;
    assert SampleClient(pool).name[0] == 'p' && SecondClient(pool).name[0] == 't';
  }

  lemma SampleAccepted(pool: string)
    requires '/' !in pool
    ensures Accepted(Sample(pool))
  {
    IqnsDiffer("pc", "studio");
    IqnsDiffer("tv", "studio");
    IqnsDiffer("pc", "tv");
    PcFits(pool, "pc", 169093221, 12, '0');
    PcFits(pool, "tv", 169093222, 13, '1');
    SampleApart(pool);
    assert NameOk("pc") && NameOk("tv");
    hide ClientFits, ApartFrom, Iqn, Digest, NameOk;
    assert forall c :: c in Sample(pool).clients ==> c == SampleClient(pool) || c == SecondClient(pool);
  }

  lemma SampleApart(pool: string)
    ensures ApartFrom(SampleClient(pool), SecondClient(pool))
  {
    IqnsDiffer("pc", "tv");
    assert Digest('0')[12] == '0' && Digest('1')[12] == '1';
    hide Iqn, Digest;
  }

  /** It takes no release: two of its volumes would own one snapshot. */
  lemma AcceptedYetUnstageable(pool: string)
    requires '/' !in pool && DatasetOk(pool)
    ensures Loaded(Sample(pool)) && Accepted(Sample(pool)) && !Manager.ReleaseManager.DistinctDatasets(Sample(pool))
  {
    SampleLoaded(pool);
    SampleAccepted(pool);
    hide Loaded, Accepted;
    assert Sample(pool).publisher.volumes[0].dataset == Sample(pool).publisher.volumes[1].dataset;
  }

  /** Its clients are in each other's way: their clones have one path, whatever the release. */
  lemma AcceptedYetShared(pool: string, release: string)
    requires '/' !in pool && DatasetOk(pool)
    ensures Loaded(Sample(pool)) && Accepted(Sample(pool)) && SampleClient(pool) != SecondClient(pool)
    ensures CloneDataset(SampleClient(pool), SampleClient(pool).volumes[0], release) ==
            CloneDataset(SecondClient(pool), SecondClient(pool).volumes[0], release)
  {
    SampleLoaded(pool);
    SampleAccepted(pool);
    hide Loaded, Accepted, Iqn, Digest;
    assert SampleClient(pool).name[0] != SecondClient(pool).name[0];
  }

  /** In a pool called zvol no reset of it is ever ready. */
  lemma AcceptedYetUnpreparable(release: string)
    ensures Loaded(Sample("zvol")) && Accepted(Sample("zvol")) && !Coordinator.PathsReadBack(SampleClient("zvol"), release)
  {
    assert DatasetOk("zvol");
    SampleLoaded("zvol");
    SampleAccepted("zvol");
    hide Loaded, Accepted, Coordinator.PathsReadBack, Iqn, Digest, DatasetOk;
    PathsReadBackIff(SampleClient("zvol"), release);
    var v := SampleClient("zvol").volumes[0];
    assert v in SampleClient("zvol").volumes;
    ZvolClones();
    assert ParentFor(SampleClient("zvol"), v) == "zvol" + "/clones";
  }

  lemma ZvolClones()
    ensures InZvol("zvol" + "/clones")
  {
    assert "zvol" + "/clones" == "zvol/" + "clones";
  }
}
