/**
 * The rules every storage step obeys, one kind of step per actor: a client's reset, the
 * publisher's release, and the world outside (initiators logging in and writing). Inv is what all
 * of them keep, Rely what one of them may count on while the others move.
 */
module Protocol {
  import opened Results
  import opened Topology
  import opened Storage

  // ---- What holds of the storage at every moment ----

  ghost predicate Inv(config: ServiceConfig, s: State) {
    && (forall n :: n in s.snapshots ==> n.dataset in s.datasets)
    && (forall m :: m in Masters(config) ==> m in s.datasets && Owner(s.datasets[m]).None?)
    && (forall e :: e in s.extents && s.extents[e].enabled ==> AttachmentOk(config, s, e))
    && (forall d :: d in s.datasets && Owner(s.datasets[d]).Some? ==> CloneOk(s, d))
  }

  ghost predicate Assigned(config: ServiceConfig, client: string, volume: string, extent: nat) {
    exists c, v :: c in config.clients && v in c.volumes &&
      c.name == client && v.name == volume && v.extentId == extent
  }

  /** An enabled extent shows an unmanaged disk, or the clone of its own client and volume. */
  ghost predicate AttachmentOk(config: ServiceConfig, s: State, e: nat)
    requires e in s.extents
  {
    var disk := s.extents[e].disk;
    disk in s.datasets &&
    match Owner(s.datasets[disk])
    case Some(o) => Assigned(config, o.0, o.1, e)
    case None => disk in Masters(config) ==> e in PublisherExtentIds(config)
  }

  /** A managed clone holds its origin until it has @clean, and @clean holds its origin for ever. */
  ghost predicate CloneOk(s: State, d: string)
    requires d in s.datasets
  {
    var origin := s.datasets[d].origin;
    origin.Some? && origin.value in s.snapshots &&
    if At(d, CLEAN) in s.snapshots
    then s.snapshots[At(d, CLEAN)] == s.snapshots[origin.value]
    else s.datasets[d].content == s.snapshots[origin.value] && !Attached(s, d)
  }

  /** Some enabled extent shows `d`, so its content may change under an initiator. */
  ghost predicate Attached(s: State, d: string) {
    exists e :: e in s.extents && s.extents[e].enabled && s.extents[e].disk == d
  }

  // ---- What no step ever undoes ----

  ghost predicate Grows(s: State, t: State) {
    && (forall n :: n in s.snapshots ==> n in t.snapshots && t.snapshots[n] == s.snapshots[n])
    && (forall d :: d in s.datasets ==> d in t.datasets && SameMeta(s.datasets[d], t.datasets[d]))
    && t.extents.Keys == s.extents.Keys
    && t.luns == s.luns
  }

  ghost predicate SameMeta(a: Dataset, b: Dataset) {
    a.origin == b.origin && a.props == b.props
  }

  // ---- A client's reset ----

  ghost predicate AllDisabled(ids: set<nat>, s: State) {
    forall e :: e in ids && e in s.extents ==> !s.extents[e].enabled
  }

  /** The clone of one volume for one release exists, is the client's own, and has @clean. */
  ghost predicate CloneReady(config: ServiceConfig, client: Client, volume: Volume, release: string, s: State) {
    var d := CloneDataset(client, volume, release);
    && d in s.datasets
    && Verified(s.datasets[d], client.name, volume.name, release, SnapshotPath(config, volume.name, release))
    && At(d, CLEAN) in s.snapshots
  }

  /** The clone's content is the release snapshot's. */
  ghost predicate Pristine(config: ServiceConfig, client: Client, volume: Volume, release: string, s: State) {
    var d := CloneDataset(client, volume, release);
    var source := SnapshotPath(config, volume.name, release);
    d in s.datasets && source in s.snapshots && s.datasets[d].content == s.snapshots[source]
  }

  ghost predicate Pointed(client: Client, volume: Volume, release: string, s: State) {
    volume.extentId in s.extents ==>
      s.extents[volume.extentId].disk == CloneDataset(client, volume, release)
  }

  /**
   * Every volume of the client is on its clone of one release, and whatever is still disabled
   * holds exactly the release snapshot.
   */
  ghost predicate Restored(config: ServiceConfig, client: Client, release: string, s: State) {
    forall v :: v in client.volumes ==>
      && CloneReady(config, client, v, release, s)
      && Pointed(client, v, release, s)
      && (v.extentId in s.extents && !s.extents[v.extentId].enabled ==> Pristine(config, client, v, release, s))
  }

  ghost predicate MayEnable(config: ServiceConfig, client: Client, s: State) {
    exists release :: Restored(config, client, release, s)
  }

  ghost predicate Rearranges(client: Client, s: State, t: State) {
    || t.snapshots != s.snapshots
    || t.datasets != s.datasets
    || exists e :: e in s.extents && e in t.extents && t.extents[e].disk != s.extents[e].disk
  }

  /** One storage step of `prepare` for `client`. */
  ghost predicate ClientStep(config: ServiceConfig, client: Client, s: State, t: State) {
    && Grows(s, t) && t.sessions == s.sessions
    && (forall e :: e in s.extents && e !in ExtentIds(client) ==> t.extents[e] == s.extents[e])
    && (forall n :: n in t.snapshots && n !in s.snapshots ==> NewClean(client, s, t, n))
    && (forall d :: d in t.datasets && d !in s.datasets ==> NewClone(client, s, t, d))
    && (forall d :: d in s.datasets && t.datasets[d].content != s.datasets[d].content ==> RolledBack(client, s, t, d))
    && (Rearranges(client, s, t) ==> AllDisabled(ExtentIds(client), s) && AllDisabled(ExtentIds(client), t))
    && (forall e :: e in s.extents && !s.extents[e].enabled && t.extents[e].enabled ==>
          t.extents[e].disk == s.extents[e].disk && MayEnable(config, client, s))
  }

  ghost predicate NewClean(client: Client, s: State, t: State, n: SnapshotId)
    requires n in t.snapshots
  {
    && n.name == CLEAN && n.dataset in s.datasets && OwnedBy(client, s.datasets[n.dataset])
    && t.snapshots[n] == s.datasets[n.dataset].content
  }

  ghost predicate NewClone(client: Client, s: State, t: State, d: string)
    requires d in t.datasets
  {
    var new' := t.datasets[d];
    && OwnedBy(client, new')
    && new'.origin.Some? && new'.origin.value in s.snapshots
    && new'.content == s.snapshots[new'.origin.value]
    && exists v, release :: v in client.volumes && MadeFor(client, v, release, d, new')
  }

  /** A dataset at the volume's own path for `release`, with the properties a reset gives its clones. */
  ghost predicate MadeFor(client: Client, v: Volume, release: string, path: string, d: Dataset) {
    path == CloneDataset(client, v, release) && d.props == CloneProperties(client.name, v.name, release)
  }

  ghost predicate RolledBack(client: Client, s: State, t: State, d: string)
    requires d in s.datasets && d in t.datasets
  {
    && OwnedBy(client, s.datasets[d]) && At(d, CLEAN) in s.snapshots
    && t.datasets[d].content == s.snapshots[At(d, CLEAN)]
  }

  // ---- The publisher's release ----

  ghost predicate Partial(config: ServiceConfig, release: string, s: State) {
    && (exists m :: m in Masters(config) && At(m, release) in s.snapshots)
    && (exists m :: m in Masters(config) && At(m, release) !in s.snapshots)
  }

  /** A publisher extent may be enabled only on its own master and with no release half taken. */
  ghost predicate MayPublish(config: ServiceConfig, releases: set<string>, s: State, e: nat)
    requires e in s.extents
  {
    && (exists p :: p in config.publisher.volumes && p.extentId == e && p.dataset == s.extents[e].disk)
    && (forall r :: r in releases ==> !Partial(config, r, s))
  }

  /** One storage step of `stage`, when the release store knows `releases`. */
  ghost predicate PublisherStep(config: ServiceConfig, releases: set<string>, s: State, t: State) {
    && Grows(s, t) && t.sessions == s.sessions && t.datasets == s.datasets
    && (forall e :: e in s.extents && e !in PublisherExtentIds(config) ==> t.extents[e] == s.extents[e])
    && (forall e :: e in s.extents ==> t.extents[e].disk == s.extents[e].disk)
    && (forall n :: n in t.snapshots && n !in s.snapshots ==>
          && n.dataset in Masters(config) && n.dataset in s.datasets && n.name in releases
          && t.snapshots[n] == s.datasets[n.dataset].content
          && AllDisabled(PublisherExtentIds(config), s) && t.extents == s.extents)
    && (forall e :: e in s.extents && !s.extents[e].enabled && t.extents[e].enabled ==>
          MayPublish(config, releases, s, e))
  }

  // ---- The world outside ----

  /** Sessions come and go; a dataset may be overwritten while some enabled extent shows it. */
  ghost predicate OutsideStep(s: State, t: State) {
    && Grows(s, t) && t.snapshots == s.snapshots && t.extents == s.extents
    && t.datasets.Keys == s.datasets.Keys
    && (forall d :: d in s.datasets && t.datasets[d].content != s.datasets[d].content ==> Attached(s, d))
  }

  // ---- What an actor may count on while others move ----

  ghost predicate OwnAttached(client: Client, s: State, d: string) {
    exists e :: e in ExtentIds(client) && e in s.extents && s.extents[e].enabled && s.extents[e].disk == d
  }

  ghost predicate Rely(client: Client, s: State, t: State) {
    && Grows(s, t)
    && (forall e :: e in ExtentIds(client) && e in s.extents ==> t.extents[e] == s.extents[e])
    && (forall d :: d in s.datasets && OwnedBy(client, s.datasets[d]) ==>
          && (At(d, CLEAN) in t.snapshots ==> At(d, CLEAN) in s.snapshots)
          && (t.datasets[d].content != s.datasets[d].content ==> OwnAttached(client, s, d)))
    && (forall d :: d in t.datasets && d !in s.datasets ==> !OwnedBy(client, t.datasets[d]))
  }

  ghost predicate PublisherRely(config: ServiceConfig, s: State, t: State) {
    && Grows(s, t)
    && (forall e :: e in PublisherExtentIds(config) && e in s.extents ==> t.extents[e] == s.extents[e])
    && (forall n :: n in t.snapshots && n !in s.snapshots ==> n.dataset !in Masters(config))
    && (forall m :: m in Masters(config) && m in s.datasets && AllDisabled(PublisherExtentIds(config), s) ==>
          t.datasets[m].content == s.datasets[m].content)
  }

  // ---- Basic facts ----

  lemma AssignedExtent(config: ServiceConfig, client: Client, volume: Volume)
    requires client in config.clients && volume in client.volumes
    ensures Assigned(config, client.name, volume.name, volume.extentId)
    ensures volume.extentId in ExtentIds(client)
  {
  }

  lemma SameNameSameClient(config: ServiceConfig, a: Client, b: Client)
    requires WellFormed(config) && a in config.clients && b in config.clients && a.name == b.name
    ensures a == b
  {
  }

  lemma VolumeByName(config: ServiceConfig, client: Client, v: Volume, w: Volume)
    requires WellFormed(config) && client in config.clients && v in client.volumes && w in client.volumes
    requires v.name == w.name
    ensures v == w
  {
  }

  /** An extent is assigned to one client volume only, and a client volume has one extent. */
  lemma AssignedUnique(config: ServiceConfig, c: string, v: string, e: nat, c': string, v': string, e': nat)
    requires WellFormed(config) && Assigned(config, c, v, e) && Assigned(config, c', v', e')
    ensures e == e' ==> c == c' && v == v'
    ensures c == c' && v == v' ==> e == e'
  {
  }

  lemma OwnedAttachment(config: ServiceConfig, client: Client, s: State, d: string)
    requires WellFormed(config) && client in config.clients && Inv(config, s)
    requires d in s.datasets && OwnedBy(client, s.datasets[d])
    ensures Attached(s, d) ==> OwnAttached(client, s, d)
  {
  }

  lemma OwnerKept(s: State, t: State, d: string)
    requires Grows(s, t) && d in s.datasets
    ensures d in t.datasets && Owner(t.datasets[d]) == Owner(s.datasets[d])
  {
  }

  lemma GrowsTransitive(s: State, t: State, u: State)
    requires Grows(s, t) && Grows(t, u)
    ensures Grows(s, u)
  {
  }

  lemma CloneReadyKept(config: ServiceConfig, client: Client, volume: Volume, release: string, s: State, t: State)
    requires CloneReady(config, client, volume, release, s) && Grows(s, t)
    ensures CloneReady(config, client, volume, release, t)
  {
  }

  lemma CloneReadyOwned(config: ServiceConfig, client: Client, volume: Volume, release: string, s: State)
    requires CloneReady(config, client, volume, release, s)
    ensures Owner(s.datasets[CloneDataset(client, volume, release)]) == Some((client.name, volume.name))
    ensures OwnedBy(client, s.datasets[CloneDataset(client, volume, release)])
  {
  }

  // ---- Every step keeps the invariant ----

  lemma ClientKeepsInv(config: ServiceConfig, client: Client, s: State, t: State)
    requires WellFormed(config) && client in config.clients && Inv(config, s) && ClientStep(config, client, s, t)
    ensures Inv(config, t)
  {
    hide NewClone;
    forall n | n in t.snapshots ensures n.dataset in t.datasets {
      if n !in s.snapshots { assert NewClean(client, s, t, n); }
    }
    forall m | m in Masters(config) ensures m in t.datasets && Owner(t.datasets[m]).None? {
      OwnerKept(s, t, m);
    }
    forall e | e in t.extents && t.extents[e].enabled ensures AttachmentOk(config, t, e) {
      if s.extents[e].enabled {
        KeptAttachment(config, client, s, t, e);
      } else {
        EnabledAttachment(config, client, s, t, e);
      }
    }
    forall d | d in t.datasets && Owner(t.datasets[d]).Some? ensures CloneOk(t, d) {
      if d in s.datasets {
        OwnerKept(s, t, d);
        ClientKeepsClone(config, client, s, t, d);
      } else {
        NewCloneOk(config, client, s, t, d);
      }
    }
  }

  lemma NewCloneOk(config: ServiceConfig, client: Client, s: State, t: State, d: string)
    requires Inv(config, s) && ClientStep(config, client, s, t)
    requires d in t.datasets && d !in s.datasets
    ensures CloneOk(t, d)
  {
    hide MadeFor;
    assert NewClone(client, s, t, d);
    assert At(d, CLEAN) !in t.snapshots;
  }

  lemma KeptAttachment(config: ServiceConfig, client: Client, s: State, t: State, e: nat)
    requires Inv(config, s) && ClientStep(config, client, s, t)
    requires e in s.extents && s.extents[e].enabled && t.extents[e].enabled
    ensures AttachmentOk(config, t, e)
  {
    assert AttachmentOk(config, s, e);
    if t.extents[e].disk != s.extents[e].disk {
      assert Rearranges(client, s, t);
      assert false;
    }
    OwnerKept(s, t, s.extents[e].disk);
  }

  lemma EnabledAttachment(config: ServiceConfig, client: Client, s: State, t: State, e: nat)
    requires client in config.clients && Inv(config, s) && ClientStep(config, client, s, t)
    requires e in s.extents && !s.extents[e].enabled && t.extents[e].enabled
    ensures AttachmentOk(config, t, e)
    ensures exists v, release :: v in client.volumes && v.extentId == e &&
              t.extents[e].disk == CloneDataset(client, v, release) &&
              CloneReady(config, client, v, release, s) && CloneReady(config, client, v, release, t)
  {
    hide CloneDataset, MasterDataset, Verified;
    assert e in ExtentIds(client);
    var v :| v in client.volumes && v.extentId == e;
    var release :| Restored(config, client, release, s);
    CloneReadyKept(config, client, v, release, s, t);
    CloneReadyOwned(config, client, v, release, t);
    AssignedExtent(config, client, v);
    assert Pointed(client, v, release, s);
  }

  lemma ClientKeepsClone(config: ServiceConfig, client: Client, s: State, t: State, d: string)
    requires WellFormed(config) && client in config.clients && Inv(config, s) && ClientStep(config, client, s, t)
    requires d in s.datasets && Owner(s.datasets[d]).Some?
    ensures CloneOk(t, d)
  {
    assert CloneOk(s, d);
    assert SameMeta(s.datasets[d], t.datasets[d]);
    var clean := At(d, CLEAN);
    if clean in s.snapshots {
    } else if clean in t.snapshots {
      assert NewClean(client, s, t, clean);
    } else {
      assert t.datasets[d].content == s.datasets[d].content;
      if Attached(t, d) {
        var e :| e in t.extents && t.extents[e].enabled && t.extents[e].disk == d;
        if s.extents[e].enabled {
          assert t.extents[e].disk != s.extents[e].disk;
          assert Rearranges(client, s, t);
          assert false;
        } else {
          EnabledAttachment(config, client, s, t, e);
        }
      }
    }
  }

  lemma PublisherKeepsInv(config: ServiceConfig, releases: set<string>, s: State, t: State)
    requires WellFormed(config) && Inv(config, s) && PublisherStep(config, releases, s, t)
    ensures Inv(config, t)
  {
    forall e | e in t.extents && t.extents[e].enabled ensures AttachmentOk(config, t, e) {
      if s.extents[e].enabled {
        assert AttachmentOk(config, s, e);
      } else {
        assert MayPublish(config, releases, s, e);
      }
    }
    forall d | d in t.datasets && Owner(t.datasets[d]).Some? ensures CloneOk(t, d) {
      assert CloneOk(s, d);
      assert d !in Masters(config);
      if Attached(t, d) && !Attached(s, d) {
        var e :| e in t.extents && t.extents[e].enabled && t.extents[e].disk == d;
        assert false;
      }
    }
  }

  lemma OutsideKeepsInv(config: ServiceConfig, s: State, t: State)
    requires Inv(config, s) && OutsideStep(s, t)
    ensures Inv(config, t)
  {
    forall m | m in Masters(config) ensures m in t.datasets && Owner(t.datasets[m]).None? {
      OwnerKept(s, t, m);
    }
    forall e | e in t.extents && t.extents[e].enabled ensures AttachmentOk(config, t, e) {
      assert AttachmentOk(config, s, e);
      OwnerKept(s, t, s.extents[e].disk);
    }
    forall d | d in t.datasets && Owner(t.datasets[d]).Some? ensures CloneOk(t, d) {
      OwnerKept(s, t, d);
      assert CloneOk(s, d);
      assert SameMeta(s.datasets[d], t.datasets[d]);
      assert Attached(t, d) <==> Attached(s, d);
    }
  }

  // ---- Every actor's step is within what the other actors count on ----

  lemma ClientWithinRely(config: ServiceConfig, client: Client, other: Client, s: State, t: State)
    requires WellFormed(config) && client in config.clients && other in config.clients && client.name != other.name
    requires Inv(config, s) && ClientStep(config, client, s, t)
    ensures Rely(other, s, t)
  {
    forall e | e in ExtentIds(other) && e in s.extents ensures t.extents[e] == s.extents[e] {
      if e in ExtentIds(client) { assert false; }
    }
    forall d | d in s.datasets && OwnedBy(other, s.datasets[d])
      ensures At(d, CLEAN) in t.snapshots ==> At(d, CLEAN) in s.snapshots
      ensures t.datasets[d].content == s.datasets[d].content
    {
      assert !OwnedBy(client, s.datasets[d]);
      if At(d, CLEAN) in t.snapshots && At(d, CLEAN) !in s.snapshots {
        assert false;
      }
    }
    forall d | d in t.datasets && d !in s.datasets ensures !OwnedBy(other, t.datasets[d]) {
      assert NewClone(client, s, t, d);
    }
  }

  lemma ClientWithinPublisherRely(config: ServiceConfig, client: Client, s: State, t: State)
    requires WellFormed(config) && client in config.clients && Inv(config, s) && ClientStep(config, client, s, t)
    ensures PublisherRely(config, s, t)
    ensures forall m :: m in Masters(config) ==> t.datasets[m] == s.datasets[m]
  {
    forall e | e in PublisherExtentIds(config) && e in s.extents ensures t.extents[e] == s.extents[e] {
      if e in ExtentIds(client) { assert false; }
    }
    forall n | n in t.snapshots && n !in s.snapshots ensures n.dataset !in Masters(config) {
      assert NewClean(client, s, t, n);
    }
    forall m | m in Masters(config) ensures t.datasets[m] == s.datasets[m] {
      assert SameMeta(s.datasets[m], t.datasets[m]);
      if t.datasets[m].content != s.datasets[m].content {
        assert false;
      }
    }
  }

  lemma PublisherWithinRely(config: ServiceConfig, releases: set<string>, client: Client, s: State, t: State)
    requires WellFormed(config) && client in config.clients && Inv(config, s)
    requires PublisherStep(config, releases, s, t)
    ensures Rely(client, s, t)
  {
  }

  lemma OutsideWithinRely(config: ServiceConfig, client: Client, s: State, t: State)
    requires WellFormed(config) && client in config.clients && Inv(config, s) && OutsideStep(s, t)
    ensures Rely(client, s, t)
  {
    forall d | d in s.datasets && OwnedBy(client, s.datasets[d]) && t.datasets[d].content != s.datasets[d].content
      ensures OwnAttached(client, s, d)
    {
      OwnedAttachment(config, client, s, d);
    }
  }

  lemma OutsideWithinPublisherRely(config: ServiceConfig, s: State, t: State)
    requires Inv(config, s) && OutsideStep(s, t)
    ensures PublisherRely(config, s, t)
  {
  }

  // ---- Rely is a preorder, so it covers any number of foreign steps ----

  lemma RelyReflexive(client: Client, s: State)
    ensures Rely(client, s, s)
  {
  }

  lemma RelyTransitive(client: Client, s: State, t: State, u: State)
    requires Rely(client, s, t) && Rely(client, t, u)
    ensures Rely(client, s, u)
  {
    forall d | d in s.datasets && OwnedBy(client, s.datasets[d])
      ensures At(d, CLEAN) in u.snapshots ==> At(d, CLEAN) in s.snapshots
      ensures u.datasets[d].content != s.datasets[d].content ==> OwnAttached(client, s, d)
    {
      OwnerKept(s, t, d);
      assert OwnAttached(client, t, d) ==> OwnAttached(client, s, d);
    }
    forall d | d in u.datasets && d !in s.datasets ensures !OwnedBy(client, u.datasets[d]) {
      if d in t.datasets { OwnerKept(t, u, d); }
    }
  }

  lemma PublisherRelyTransitive(config: ServiceConfig, s: State, t: State, u: State)
    requires PublisherRely(config, s, t) && PublisherRely(config, t, u)
    ensures PublisherRely(config, s, u)
  {
  }
}
