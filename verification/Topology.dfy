/**
 * The configuration of config.py. A YAML mapping keeps its order, so it is a sequence of entries
 * with distinct names; loops walk it in that order.
 */
module Topology {
  import opened Results

  /** An IPv4 address as a number. Parsing and printing addresses is library code. */
  type Address = nat

  /** A snapshot id, written dataset@name in the source. */
  datatype SnapshotId = At(dataset: string, name: string)

  datatype Volume = Volume(
    name: string, extentId: nat, lun: nat, driveLetter: char, diskLabel: string,
    cloneParent: Option<string>, uniqueIdOverride: Option<string>)

  datatype Client = Client(
    name: string, sourceIp: Address, initiatorIqn: string, targetIqn: string,
    tokenDigest: string, cloneParent: Option<string>, volumes: seq<Volume>)

  datatype PublisherVolume = PublisherVolume(name: string, dataset: string, extentId: nat, lun: nat)

  datatype Publisher = Publisher(
    sourceIp: Address, initiatorIqn: string, targetIqn: string, volumes: seq<PublisherVolume>)

  datatype Network = Network(first: Address, last: Address)

  datatype ServiceConfig = ServiceConfig(
    network: Network, portal: Address, prefix: string, publisher: Publisher, clients: seq<Client>)

  /** None and the empty string both fall through, as Python's `or` does. */
  function ParentFor(client: Client, volume: Volume): string {
    match volume.cloneParent
    case Some(p) => if p != "" then p else DefaultParent(client)
    case None => DefaultParent(client)
  }

  function DefaultParent(client: Client): string {
    match client.cloneParent
    case Some(p) => p
    case None => ""
  }

  function CloneDataset(client: Client, volume: Volume, release: string): string {
    ParentFor(client, volume) + "/" + volume.name + "__" + release
  }

  /** The dataset of the publisher volume called `name`; "" when there is none. */
  function MasterDataset(volumes: seq<PublisherVolume>, name: string): string {
    if volumes == [] then ""
    else if volumes[0].name == name then volumes[0].dataset
    else MasterDataset(volumes[1..], name)
  }

  function SnapshotPath(config: ServiceConfig, volume: string, release: string): SnapshotId {
    At(MasterDataset(config.publisher.volumes, volume), release)
  }

  function ExtentIds(client: Client): set<nat> {
    set v | v in client.volumes :: v.extentId
  }

  function PublisherExtentIds(config: ServiceConfig): set<nat> {
    set v | v in config.publisher.volumes :: v.extentId
  }

  function Masters(config: ServiceConfig): set<string> {
    set v | v in config.publisher.volumes :: v.dataset
  }

  /**
   * What the protocol needs of an accepted configuration: mapping keys are distinct, extent ids
   * are globally distinct, volume names are single path components, and every client volume has a
   * publisher master.
   */
  ghost predicate WellFormed(config: ServiceConfig) {
    && DistinctClients(config.clients)
    && (forall c :: c in config.clients ==> c.volumes != [] && DistinctVolumes(c.volumes))
    && config.publisher.volumes != []
    && DistinctMasters(config.publisher.volumes)
    && (forall c, d, v, w ::
          (c in config.clients && d in config.clients && v in c.volumes && w in d.volumes &&
           v.extentId == w.extentId) ==> (c == d && v == w))
    && (forall c, v, p ::
          c in config.clients && v in c.volumes && p in config.publisher.volumes ==>
            v.extentId != p.extentId)
    && (forall c, v :: c in config.clients && v in c.volumes ==> '/' !in v.name)
    && (forall c, v :: c in config.clients && v in c.volumes ==>
          exists p :: p in config.publisher.volumes && p.name == v.name)
  }

  ghost predicate DistinctClients(clients: seq<Client>) {
    forall i, j :: 0 <= i < j < |clients| ==> clients[i].name != clients[j].name
  }

  /** Volume names are mapping keys; extent ids are distinct by validate_relations. */
  ghost predicate DistinctVolumes(volumes: seq<Volume>) {
    forall i, j :: 0 <= i < j < |volumes| ==>
      volumes[i].name != volumes[j].name && volumes[i].extentId != volumes[j].extentId
  }

  ghost predicate DistinctMasters(volumes: seq<PublisherVolume>) {
    forall i, j :: 0 <= i < j < |volumes| ==>
      volumes[i].name != volumes[j].name && volumes[i].extentId != volumes[j].extentId
  }

  lemma {:induction false} MasterDatasetOf(volumes: seq<PublisherVolume>, p: PublisherVolume)
    requires DistinctMasters(volumes) && p in volumes
    ensures MasterDataset(volumes, p.name) == p.dataset
  {
    if volumes[0] != p {
      var k :| 0 <= k < |volumes| && volumes[k] == p;
      assert volumes[1..][k - 1] == p;
      MasterDatasetOf(volumes[1..], p);
    }
  }

  lemma MasterOfVolume(config: ServiceConfig, client: Client, volume: Volume) returns (p: PublisherVolume)
    requires WellFormed(config) && client in config.clients && volume in client.volumes
    ensures p in config.publisher.volumes && p.name == volume.name
    ensures MasterDataset(config.publisher.volumes, volume.name) == p.dataset
    ensures p.dataset in Masters(config)
  {
    p :| p in config.publisher.volumes && p.name == volume.name;
    MasterDatasetOf(config.publisher.volumes, p);
  }
}
