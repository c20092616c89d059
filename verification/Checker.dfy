/** config.py: the checks between the parts of a configuration, and what an accepted one guarantees. */
module Checker {
  import opened Results
  import opened Topology

  datatype Complaint =
    | PortalOutside | PublisherOutside | PublisherOnPortal | NoClients
    | HalfShared(client: string) | SharedTwice | PublisherExtentTwice
    | BadName(client: string) | ClientOutside(client: string) | ClientOnPortal(client: string)
    | SourceIpTwice(client: string) | InitiatorTwice(client: string)
    | TargetTwice(client: string) | DigestTwice(client: string)
    | NoMaster(client: string, volume: string) | ExtentTwice(client: string, volume: string)
    | LunTwice(client: string, volume: string) | LetterTwice(client: string, volume: string)
    | OtherPool(client: string, volume: string)

  predicate Contains(n: Network, a: Address) {
    n.first <= a <= n.last
  }

  predicate NameChar(c: char) {
    'a' <= c <= 'z' || '0' <= c <= '9'
  }

  /** NAME_RE. */
  predicate NameOk(s: string) {
    1 <= |s| <= 48 && NameChar(s[0]) && forall i :: 0 <= i < |s| ==> NameChar(s[i]) || s[i] in "._-"
  }

  predicate IsDigit(c: char) {
    '0' <= c <= '9'
  }

  /** IQN_RE, in the lower case the loader turns names into: iqn.YYYY-MM.authority:name. */
  ghost predicate IqnOk(s: string) {
    && |s| > 12
    && s[..4] == "iqn."
    && (forall i :: 4 <= i < 8 ==> IsDigit(s[i]))
    && s[8] == '-'
    && IsDigit(s[9]) && IsDigit(s[10])
    && s[11] == '.'
    && (exists k :: 13 <= k < |s| - 1 && s[k] == ':' && forall i :: 12 <= i < k ==> s[i] !in " \t\n\r:")
    && '\n' !in s
    && NoCapital(s)
  }

  predicate NoCapital(s: string) {
    forall i :: 0 <= i < |s| ==> !('A' <= s[i] <= 'Z')
  }

  /** TOKEN_DIGEST_RE. */
  predicate DigestOk(s: string) {
    && |s| == 76
    && s[..12] == "hmac-sha256:"
    && forall i :: 12 <= i < 76 ==> IsDigit(s[i]) || 'a' <= s[i] <= 'f'
  }

  predicate DatasetChar(c: char) {
    IsDigit(c) || 'a' <= c <= 'z' || 'A' <= c <= 'Z'
  }

  /** DATASET_RE, after trailing slashes are stripped. */
  predicate DatasetOk(s: string) {
    && s != ""
    && DatasetChar(s[0])
    && s[|s| - 1] != '/'
    && forall i :: 0 <= i < |s| ==> DatasetChar(s[i]) || s[i] in "._:/-"
  }

  /** PREFIX_RE. */
  predicate PrefixOk(s: string) {
    1 <= |s| <= 32 && NameChar(s[0]) && forall i :: 0 <= i < |s| ==> NameChar(s[i]) || s[i] == '-'
  }

  function Power(bits: nat): (r: nat)
    ensures r > 0
  {
    if bits == 0 then 1 else 2 * Power(bits - 1)
  }

  /** The network is a block of `2^bits` addresses that starts at a multiple of its size. */
  ghost predicate Block(n: Network, bits: nat) {
    bits <= 32 && n.last < Power(32) && n.last + 1 == n.first + Power(bits) && n.first % Power(bits) == 0
  }

  /** The addresses of a canonical IPv4 network. */
  ghost predicate Cidr(n: Network) {
    exists bits :: Block(n, bits)
  }

  /** The part before the first slash. */
  function Pool(path: string): string {
    if path == "" || path[0] == '/' then "" else [path[0]] + Pool(path[1..])
  }

  predicate SharesAddress(config: ServiceConfig, c: Client) {
    c.sourceIp == config.publisher.sourceIp
  }

  predicate SharesInitiator(config: ServiceConfig, c: Client) {
    c.initiatorIqn == config.publisher.initiatorIqn
  }

  predicate HasMaster(config: ServiceConfig, volume: string) {
    exists p :: p in config.publisher.volumes && p.name == volume
  }

  // ---- The relation an accepted configuration satisfies ----

  predicate Located(config: ServiceConfig) {
    && Contains(config.network, config.portal)
    && Contains(config.network, config.publisher.sourceIp)
    && config.publisher.sourceIp != config.portal
    && config.clients != []
    && forall c :: c in config.clients ==> Placed(config, c)
  }

  predicate Placed(config: ServiceConfig, c: Client) {
    NameOk(c.name) && Contains(config.network, c.sourceIp) && c.sourceIp != config.portal
  }

  /** A client is the publisher's PC, with its address and initiator both, or has neither. */
  predicate Paired(config: ServiceConfig) {
    forall c :: c in config.clients ==> (SharesAddress(config, c) <==> SharesInitiator(config, c))
  }

  predicate ApartFrom(c: Client, d: Client) {
    && c.sourceIp != d.sourceIp
    && c.initiatorIqn != d.initiatorIqn
    && c.targetIqn != d.targetIqn
    && c.tokenDigest != d.tokenDigest
    && ExtentIds(c) !! ExtentIds(d)
  }

  predicate VolumesApart(volumes: seq<Volume>) {
    forall i, j :: 0 <= i < j < |volumes| ==>
      && volumes[i].extentId != volumes[j].extentId
      && volumes[i].lun != volumes[j].lun
      && volumes[i].driveLetter != volumes[j].driveLetter
  }

  predicate VolumeFits(config: ServiceConfig, c: Client, v: Volume) {
    && HasMaster(config, v.name)
    && v.extentId !in PublisherExtentIds(config)
    && Pool(MasterDataset(config.publisher.volumes, v.name)) == Pool(ParentFor(c, v))
  }

  predicate ClientFits(config: ServiceConfig, c: Client) {
    && c.targetIqn != config.publisher.targetIqn
    && VolumesApart(c.volumes)
    && forall v :: v in c.volumes ==> VolumeFits(config, c, v)
  }

  predicate PublisherApart(volumes: seq<PublisherVolume>) {
    forall i, j :: 0 <= i < j < |volumes| ==> volumes[i].extentId != volumes[j].extentId
  }

  predicate Accepted(config: ServiceConfig) {
    && Located(config)
    && Paired(config)
    && PublisherApart(config.publisher.volumes)
    && (forall i, j :: 0 <= i < j < |config.clients| ==> ApartFrom(config.clients[i], config.clients[j]))
    && (forall c :: c in config.clients ==> ClientFits(config, c))
  }

  /** What the loader and the checks of each part have established before. */
  ghost predicate Loaded(config: ServiceConfig) {
    && Cidr(config.network)
    && PrefixOk(config.prefix)
    && PublisherLoaded(config.publisher)
    && DistinctClients(config.clients)
    && forall c :: c in config.clients ==> ClientLoaded(c)
  }

  ghost predicate PublisherLoaded(p: Publisher) {
    && IqnOk(p.initiatorIqn)
    && IqnOk(p.targetIqn)
    && p.volumes != []
    && (forall v :: v in p.volumes ==>
          NameOk(v.name) && DatasetOk(v.dataset) && v.extentId > 0 && v.lun <= 16383)
    && (forall i, j :: 0 <= i < j < |p.volumes| ==>
          p.volumes[i].name != p.volumes[j].name && p.volumes[i].lun != p.volumes[j].lun)
  }

  ghost predicate ClientLoaded(c: Client) {
    && IqnOk(c.initiatorIqn)
    && IqnOk(c.targetIqn)
    && DigestOk(c.tokenDigest)
    && c.volumes != []
    && (forall i, j :: 0 <= i < j < |c.volumes| ==> c.volumes[i].name != c.volumes[j].name)
    && (forall v :: v in c.volumes ==> VolumeLoaded(v) && DatasetOk(ParentFor(c, v)))
  }

  predicate VolumeLoaded(v: Volume) {
    && NameOk(v.name)
    && v.extentId > 0
    && v.lun <= 16383
    && 'D' <= v.driveLetter <= 'Z'
    && 1 <= |v.diskLabel| <= 32
  }

  // ---- validate_relations ----

  class Relations {
    const config: ServiceConfig
    var addresses: set<Address>
    var initiators: set<string>
    var targets: set<string>
    var digests: set<string>
    var extents: set<nat>

    constructor (config: ServiceConfig)
      ensures this.config == config
    {
      this.config := config;
      addresses, initiators, targets, digests, extents := {}, {}, {}, {}, {};
    }

    /** The values seen in the first `n` clients and in the publisher. */
    ghost predicate Seen(n: nat)
      reads this
      requires n <= |config.clients|
    {
      && addresses == (set c | c in config.clients[..n] :: c.sourceIp)
      && initiators == (set c | c in config.clients[..n] :: c.initiatorIqn)
      && targets == {config.publisher.targetIqn} + (set c | c in config.clients[..n] :: c.targetIqn)
      && digests == (set c | c in config.clients[..n] :: c.tokenDigest)
      && extents == PublisherExtentIds(config) + (set c, v | c in config.clients[..n] && v in c.volumes :: v.extentId)
    }

    /** The configuration is accepted exactly when the relation holds. */
    method Validate() returns (complaint: Option<Complaint>)
      modifies this
      ensures complaint.None? <==> Accepted(config)
    {
      if !Contains(config.network, config.portal) { return Some(PortalOutside); }
      if !Contains(config.network, config.publisher.sourceIp) { return Some(PublisherOutside); }
      if config.publisher.sourceIp == config.portal { return Some(PublisherOnPortal); }
      if config.clients == [] { return Some(NoClients); }
      complaint := CheckShared();
      if complaint.Some? { return; }
      var distinct := PublisherExtents();
      if !distinct { return Some(PublisherExtentTwice); }
      addresses, initiators, targets, digests := {}, {}, {config.publisher.targetIqn}, {};
      extents := PublisherExtentIds(config);
      assert Seen(0);
      for i := 0 to |config.clients|
        invariant Seen(i)
        invariant forall j :: 0 <= j < i ==> Placed(config, config.clients[j]) && ClientFits(config, config.clients[j])
        invariant forall j, k :: 0 <= j < k < i ==> ApartFrom(config.clients[j], config.clients[k])
      {
        complaint := CheckClient(i);
        if complaint.Some? {
          assert config.clients[i] in config.clients;
          assert !Accepted(config);
          return;
        }
      }
      forall c | c in config.clients
        ensures Placed(config, c) && ClientFits(config, c)
      {
        var j :| 0 <= j < |config.clients| && config.clients[j] == c;
      }
      return None;
    }

    /** Each client shares both identities with the publisher or none, and at most one shares them. */
    method CheckShared() returns (complaint: Option<Complaint>)
      ensures complaint.None? ==> Paired(config)
      ensures complaint.Some? ==> !Accepted(config)
    {
      var shared: seq<string> := [];
      ghost var sharing: seq<nat> := [];
      for i := 0 to |config.clients|
        invariant forall j :: 0 <= j < i ==>
                    (SharesAddress(config, config.clients[j]) <==> SharesInitiator(config, config.clients[j]))
        invariant |sharing| == |shared|
        invariant forall k :: 0 <= k < |sharing| ==> sharing[k] < i && SharesAddress(config, config.clients[sharing[k]])
        invariant forall k, l :: 0 <= k < l < |sharing| ==> sharing[k] < sharing[l]
      {
        var c := config.clients[i];
        if SharesAddress(config, c) != SharesInitiator(config, c) { return Some(HalfShared(c.name)); }
        if SharesAddress(config, c) {
          shared := shared + [c.name];
          sharing := sharing + [i];
        }
      }
      if |shared| > 1 {
        assert SharesAddress(config, config.clients[sharing[0]]) && SharesAddress(config, config.clients[sharing[1]]);
        assert !ApartFrom(config.clients[sharing[0]], config.clients[sharing[1]]);
        return Some(SharedTwice);
      }
      return None;
    }

    /** As many distinct extent ids as publisher volumes. */
    method PublisherExtents() returns (distinct: bool)
      ensures distinct <==> PublisherApart(config.publisher.volumes)
    {
      ghost var volumes := config.publisher.volumes;
      ghost var ids := seq(|volumes|, i requires 0 <= i < |volumes| => volumes[i].extentId);
      DistinctCount(ids);
      assert forall i :: 0 <= i < |ids| ==> ids[i] == volumes[i].extentId;
      assert NoRepeats(ids) <==> PublisherApart(volumes);
      assert Elements(ids) == PublisherExtentIds(config) by {
        forall v | v in volumes
          ensures v.extentId in ids
        {
          var i :| 0 <= i < |volumes| && volumes[i] == v;
          assert ids[i] == v.extentId;
        }
      }
      distinct := |PublisherExtentIds(config)| == |config.publisher.volumes|;
    }

    method CheckClient(i: nat) returns (complaint: Option<Complaint>)
      requires i < |config.clients| && Seen(i)
      modifies this
      ensures complaint.None? ==> Seen(i + 1)
      ensures complaint.None? <==>
                Placed(config, config.clients[i]) && ClientFits(config, config.clients[i]) &&
                forall j :: 0 <= j < i ==> ApartFrom(config.clients[j], config.clients[i])
    {
      hide NameOk, VolumesApart, Pool, MasterDataset, HasMaster;
      var c := config.clients[i];
      assert config.clients[..i + 1] == config.clients[..i] + [c];
      if !NameOk(c.name) { return Some(BadName(c.name)); }
      if !Contains(config.network, c.sourceIp) { return Some(ClientOutside(c.name)); }
      if c.sourceIp == config.portal { return Some(ClientOnPortal(c.name)); }
      if c.sourceIp in addresses { return Some(SourceIpTwice(c.name)); }
      addresses := addresses + {c.sourceIp};
      if c.initiatorIqn in initiators { return Some(InitiatorTwice(c.name)); }
      initiators := initiators + {c.initiatorIqn};
      if c.targetIqn in targets { return Some(TargetTwice(c.name)); }
      targets := targets + {c.targetIqn};
      if c.tokenDigest in digests { return Some(DigestTwice(c.name)); }
      digests := digests + {c.tokenDigest};
      complaint := CheckVolumes(c);
    }

    method CheckVolumes(c: Client) returns (complaint: Option<Complaint>)
      requires PublisherExtentIds(config) <= extents
      modifies this`extents
      ensures complaint.None? ==> extents == old(extents) + ExtentIds(c)
      ensures complaint.None? <==>
                VolumesApart(c.volumes) && (forall v :: v in c.volumes ==> VolumeFits(config, c, v)) &&
                ExtentIds(c) !! old(extents)
    {
      hide Pool, MasterDataset, HasMaster;
      var luns: set<nat>, letters: set<char> := {}, {};
      for k := 0 to |c.volumes|
        invariant luns == set v | v in c.volumes[..k] :: v.lun
        invariant letters == set v | v in c.volumes[..k] :: v.driveLetter
        invariant extents == old(extents) + (set v | v in c.volumes[..k] :: v.extentId)
        invariant VolumesApart(c.volumes[..k])
        invariant forall v :: v in c.volumes[..k] ==> VolumeFits(config, c, v) && v.extentId !in old(extents)
      {
        var v := c.volumes[k];
        assert v in c.volumes;
        assert !HasMaster(config, v.name) ==> !VolumeFits(config, c, v);
        if !HasMaster(config, v.name) { return Some(NoMaster(c.name, v.name)); }
        if v.extentId in extents { return Some(ExtentTwice(c.name, v.name)); }
        extents := extents + {v.extentId};
        if v.lun in luns { return Some(LunTwice(c.name, v.name)); }
        luns := luns + {v.lun};
        if v.driveLetter in letters { return Some(LetterTwice(c.name, v.name)); }
        letters := letters + {v.driveLetter};
        if Pool(MasterDataset(config.publisher.volumes, v.name)) != Pool(ParentFor(c, v)) {
          return Some(OtherPool(c.name, v.name));
        }
        assert c.volumes[..k + 1] == c.volumes[..k] + [v];
      }
      assert c.volumes[..|c.volumes|] == c.volumes;
      return None;
    }
  }

  predicate NoRepeats(ids: seq<nat>) {
    forall i, j :: 0 <= i < j < |ids| ==> ids[i] != ids[j]
  }

  function Elements(ids: seq<nat>): set<nat> {
    set x | x in ids
  }

  /** A sequence has as many different elements as positions exactly when none repeats. */
  lemma {:induction false} DistinctCount(ids: seq<nat>)
    ensures |Elements(ids)| <= |ids|
    ensures |Elements(ids)| == |ids| <==> NoRepeats(ids)
  {
    if ids != [] {
      var rest, last := ids[..|ids| - 1], ids[|ids| - 1];
      DistinctCount(rest);
      var all, some := Elements(ids), Elements(rest);
      assert ids == rest + [last];
      assert all == some + {last};
      if last in rest {
        assert all == some;
        var i :| 0 <= i < |rest| && rest[i] == last;
        assert ids[i] == ids[|ids| - 1];
        assert !NoRepeats(ids);
      } else {
        assert last !in some && |all| == |some| + 1;
        assert forall i :: 0 <= i < |rest| ==> ids[i] == rest[i];
        assert NoRepeats(rest) <==> NoRepeats(ids);
      }
    }
  }

  // ---- What acceptance says, in the terms of the fields themselves ----

  /** In a block are just the addresses that share its leading bits. */
  lemma ContainsSharesPrefix(n: Network, bits: nat, a: Address)
    requires Block(n, bits)
    ensures Contains(n, a) <==> a / Power(bits) == n.first / Power(bits)
    ensures Contains(n, a) ==> a < Power(32)
  {
    var size := Power(bits);
    QuotientIs(n.first, size, a);
  }

  lemma QuotientIs(first: nat, size: nat, a: nat)
    requires size > 0 && first % size == 0
    ensures first <= a < first + size <==> a / size == first / size
  {
    assert first == size * (first / size);
    assert a == size * (a / size) + a % size;
    if a / size < first / size {
      assert size * (a / size + 1) <= size * (first / size);
    } else if a / size > first / size {
      assert size * (first / size + 1) <= size * (a / size);
    }
  }

  /** A letter from a to z or a digit, by its code. */
  predicate Plain(c: char) {
    97 <= c as int <= 122 || 48 <= c as int <= 57
  }

  lemma NameOkMeans(s: string)
    ensures NameOk(s) <==> 1 <= |s| <= 48 && Plain(s[0]) && forall c :: c in s ==> Plain(c) || c in "._-"
  {
  }

  /** Both paths lie in one pool: they agree up to the first slash, or to the end of a path without one. */
  ghost predicate OnePool(a: string, b: string) {
    exists k :: 0 <= k <= |a| && k <= |b| && a[..k] == b[..k] && '/' !in a[..k] &&
      (k == |a| || a[k] == '/') && (k == |b| || b[k] == '/')
  }

  lemma {:induction false} PoolIs(a: string, k: nat)
    requires k <= |a| && '/' !in a[..k] && (k == |a| || a[k] == '/')
    ensures Pool(a) == a[..k]
  {
    if k > 0 {
      assert a[0] in a[..k] && a[1..][..k - 1] == a[..k][1..];
      PoolIs(a[1..], k - 1);
      assert a[..k] == [a[0]] + a[1..][..k - 1];
    }
  }

  lemma {:induction false} PoolAt(a: string)
    ensures |Pool(a)| <= |a| && a[..|Pool(a)|] == Pool(a) && '/' !in Pool(a)
    ensures |Pool(a)| == |a| || a[|Pool(a)|] == '/'
  {
    if a != "" && a[0] != '/' {
      PoolAt(a[1..]);
      assert a == [a[0]] + a[1..];
    }
  }

  lemma SamePoolMeans(a: string, b: string)
    ensures Pool(a) == Pool(b) <==> OnePool(a, b)
  {
    if Pool(a) == Pool(b) {
      PoolAt(a);
      PoolAt(b);
    }
    if OnePool(a, b) {
      var k :| 0 <= k <= |a| && k <= |b| && a[..k] == b[..k] && '/' !in a[..k] &&
               (k == |a| || a[k] == '/') && (k == |b| || b[k] == '/');
      PoolIs(a, k);
      PoolIs(b, k);
    }
  }

  /** Every address is in the network, the portal's is nobody else's, and the client names are well formed. */
  ghost predicate AddressesFit(config: ServiceConfig, bits: nat) {
    var size, block := Power(bits), config.network.first / Power(bits);
    && config.portal / size == block && config.portal < Power(32)
    && config.publisher.sourceIp / size == block && config.publisher.sourceIp < Power(32)
    && config.publisher.sourceIp != config.portal
    && config.clients != []
    && forall c :: c in config.clients ==>
         && c.sourceIp / size == block && c.sourceIp < Power(32) && c.sourceIp != config.portal
         && 1 <= |c.name| <= 48 && Plain(c.name[0]) && forall x :: x in c.name ==> Plain(x) || x in "._-"
  }

  /** No identity is used twice, but for the one PC that may be publisher and client with both identities. */
  ghost predicate IdentitiesFit(config: ServiceConfig) {
    && (forall c :: c in config.clients ==>
          && (c.sourceIp == config.publisher.sourceIp <==> c.initiatorIqn == config.publisher.initiatorIqn)
          && c.targetIqn != config.publisher.targetIqn)
    && (forall i, j :: 0 <= i < j < |config.clients| ==>
          var c, d := config.clients[i], config.clients[j];
          c.sourceIp != d.sourceIp && c.initiatorIqn != d.initiatorIqn && c.targetIqn != d.targetIqn &&
          c.tokenDigest != d.tokenDigest)
  }

  /** Every extent id is used once in the whole configuration, every LUN and drive letter once by a client. */
  ghost predicate NumbersFit(config: ServiceConfig) {
    var clients, masters := config.clients, config.publisher.volumes;
    && (forall i, j :: 0 <= i < j < |masters| ==> masters[i].extentId != masters[j].extentId)
    && (forall i, k, m :: 0 <= i < |clients| && 0 <= k < |clients[i].volumes| && 0 <= m < |masters| ==>
          clients[i].volumes[k].extentId != masters[m].extentId)
    && (forall i, j, k, l ::
          0 <= i < j < |clients| && 0 <= k < |clients[i].volumes| && 0 <= l < |clients[j].volumes| ==>
            clients[i].volumes[k].extentId != clients[j].volumes[l].extentId)
    && (forall i, k, l :: 0 <= i < |clients| && 0 <= k < l < |clients[i].volumes| ==>
          var v, w := clients[i].volumes[k], clients[i].volumes[l];
          v.extentId != w.extentId && v.lun != w.lun && v.driveLetter != w.driveLetter)
  }

  /** Every client volume has a master, in the pool its clones go to. */
  ghost predicate MastersFit(config: ServiceConfig) {
    forall c, v :: c in config.clients && v in c.volumes ==> MasterFits(config, c, v)
  }

  ghost predicate MasterFits(config: ServiceConfig, c: Client, v: Volume) {
    exists p :: p in config.publisher.volumes && p.name == v.name && OnePool(p.dataset, ParentFor(c, v))
  }

  /** `validate_relations`, field by field: what is accepted is exactly this. */
  lemma AcceptedExactly(config: ServiceConfig, bits: nat)
    requires Block(config.network, bits)
    requires forall i, j :: 0 <= i < j < |config.publisher.volumes| ==>
               config.publisher.volumes[i].name != config.publisher.volumes[j].name
    ensures Accepted(config) <==>
              AddressesFit(config, bits) && IdentitiesFit(config) && NumbersFit(config) && MastersFit(config)
  {
    LocatedIs(config, bits);
    NumbersAre(config);
    if PublisherApart(config.publisher.volumes) { MastersAre(config); }
    hide Located, AddressesFit, NumbersFit, MastersFit, VolumesApart, HasMaster, Pool, MasterDataset;
    AcceptedParts(config);
  }

  /** The volumes of a client have masters in the right pool. */
  ghost predicate Mastered(config: ServiceConfig) {
    forall c, v :: c in config.clients && v in c.volumes ==> MasteredVolume(config, c, v)
  }

  ghost predicate MasteredVolume(config: ServiceConfig, c: Client, v: Volume) {
    HasMaster(config, v.name) && Pool(MasterDataset(config.publisher.volumes, v.name)) == Pool(ParentFor(c, v))
  }

  ghost predicate Numbered(config: ServiceConfig) {
    && PublisherApart(config.publisher.volumes)
    && (forall c, v :: c in config.clients && v in c.volumes ==> v.extentId !in PublisherExtentIds(config))
    && (forall i, j :: 0 <= i < j < |config.clients| ==> ExtentIds(config.clients[i]) !! ExtentIds(config.clients[j]))
    && (forall c :: c in config.clients ==> VolumesApart(c.volumes))
  }

  lemma AcceptedParts(config: ServiceConfig)
    ensures Accepted(config) <==>
              Located(config) && IdentitiesFit(config) && Numbered(config) && Mastered(config)
  {
    hide Located, VolumesApart, HasMaster, Pool, MasterDataset, ExtentIds, PublisherExtentIds;
  }

  lemma LocatedIs(config: ServiceConfig, bits: nat)
    requires Block(config.network, bits)
    ensures Located(config) <==> AddressesFit(config, bits)
  {
    ContainsSharesPrefix(config.network, bits, config.portal);
    ContainsSharesPrefix(config.network, bits, config.publisher.sourceIp);
    forall c | c in config.clients
      ensures Contains(config.network, c.sourceIp) <==>
                c.sourceIp / Power(bits) == config.network.first / Power(bits)
      ensures Contains(config.network, c.sourceIp) ==> c.sourceIp < Power(32)
      ensures NameOk(c.name) <==>
                1 <= |c.name| <= 48 && Plain(c.name[0]) && forall x :: x in c.name ==> Plain(x) || x in "._-"
    {
      ContainsSharesPrefix(config.network, bits, c.sourceIp);
      NameOkMeans(c.name);
    }
    hide Contains, NameOk, Plain, Power;
  }

  lemma NumbersAre(config: ServiceConfig)
    ensures Numbered(config) <==> NumbersFit(config)
  {
    if Numbered(config) {
      forall i, k | 0 <= i < |config.clients| && 0 <= k < |config.clients[i].volumes|
        ensures config.clients[i].volumes[k].extentId in ExtentIds(config.clients[i])
        ensures config.clients[i].volumes[k].extentId !in PublisherExtentIds(config)
      {
        assert config.clients[i] in config.clients && config.clients[i].volumes[k] in config.clients[i].volumes;
      }
    }
  }

  lemma MastersAre(config: ServiceConfig)
    requires DistinctMasters(config.publisher.volumes)
    ensures Mastered(config) <==> MastersFit(config)
  {
    forall c, v | c in config.clients && v in c.volumes
      ensures MasteredVolume(config, c, v) <==> MasterFits(config, c, v)
    {
      MasterIs(config, c, v);
    }
    hide MasteredVolume, MasterFits;
  }

  lemma MasterIs(config: ServiceConfig, c: Client, v: Volume)
    requires DistinctMasters(config.publisher.volumes)
    ensures MasteredVolume(config, c, v) <==> MasterFits(config, c, v)
  {
    hide Pool, MasterDataset, OnePool;
    if p :| p in config.publisher.volumes && p.name == v.name {
      MasterDatasetOf(config.publisher.volumes, p);
      SamePoolMeans(p.dataset, ParentFor(c, v));
      assert forall q :: q in config.publisher.volumes && q.name == v.name ==> q == p;
    }
  }

  // ---- What acceptance is for ----

  /** An accepted configuration is one the protocol's proofs hold for. */
  lemma AcceptedIsWellFormed(config: ServiceConfig)
    requires Loaded(config) && Accepted(config)
    ensures WellFormed(config)
  {
    ExtentsAreGlobal(config);
    VolumesAreMapped(config);
    hide Accepted;
  }

  lemma ExtentsAreGlobal(config: ServiceConfig)
    requires Accepted(config)
    ensures forall c, d, v, w ::
              (c in config.clients && d in config.clients && v in c.volumes && w in d.volumes &&
               v.extentId == w.extentId) ==> (c == d && v == w)
  {
    hide Pool, MasterDataset, HasMaster;
    forall c, d, v, w |
      c in config.clients && d in config.clients && v in c.volumes && w in d.volumes && v.extentId == w.extentId
      ensures c == d && v == w
    {
      var i :| 0 <= i < |config.clients| && config.clients[i] == c;
      var j :| 0 <= j < |config.clients| && config.clients[j] == d;
      assert v.extentId in ExtentIds(c) && w.extentId in ExtentIds(d);
      assert i == j;
      var k :| 0 <= k < |c.volumes| && c.volumes[k] == v;
      var l :| 0 <= l < |c.volumes| && c.volumes[l] == w;
      assert ClientFits(config, c);
    }
  }

  lemma VolumesAreMapped(config: ServiceConfig)
    requires Loaded(config) && Accepted(config)
    ensures forall c, v, p :: c in config.clients && v in c.volumes && p in config.publisher.volumes ==>
              v.extentId != p.extentId
    ensures forall c, v :: c in config.clients && v in c.volumes ==> '/' !in v.name && HasMaster(config, v.name)
    ensures forall c :: c in config.clients ==> DistinctVolumes(c.volumes)
    ensures DistinctMasters(config.publisher.volumes)
  {
  }

  /** At most one client is the publisher's own PC. */
  lemma OneSharedClient(config: ServiceConfig, c: Client, d: Client)
    requires Accepted(config) && c in config.clients && d in config.clients
    requires SharesAddress(config, c) && SharesAddress(config, d)
    ensures c == d
  {
  }
}
