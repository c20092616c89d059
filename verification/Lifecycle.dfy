/**
 * The life of a configuration: saves, restarts, and the release operations in between, which the
 * routes admit only while the saved configuration is the running one (configurator_api.py).
 */
module Lifecycle {
  import opened Results
  import opened Topology
  import opened Releases
  import opened Manager
  import opened Configurator
  import opened Coordinator

  datatype World = World(file: ServiceConfig, running: ServiceConfig, db: Db)

  datatype Event =
    | Save(proposed: ServiceConfig)
    | Restart
    | Reserve(name: string, requestId: string)
    | Add(release: string, volume: string)
    | Mark(release: string)
    | Activate(release: string, requestId: string)

  /** The volume-to-dataset map of the publisher. */
  function MapOf(config: ServiceConfig): map<string, string> {
    map v | v in PublisherNames(config) :: MasterDataset(config.publisher.volumes, v)
  }

  /** The world after an event that is accepted; None when it is refused. */
  ghost function After(w: World, e: Event): Option<World> {
    match e
    case Save(proposed) =>
      if Permits(Document(true, Some([]), Some(w.file)), proposed, w.db) then Some(w.(file := proposed)) else None
    case Restart => Some(w.(running := w.file))
    case Reserve(name, requestId) => Recorded(w, Reserved(w.db, name, requestId))
    case Add(release, volume) =>
      if volume in PublisherNames(w.running)
      then Recorded(w, Added(w.db, release, volume, SnapshotPath(w.running, volume, release)))
      else None
    case Mark(release) => Recorded(w, Marked(w.db, release, PublisherNames(w.running)))
    case Activate(release, requestId) =>
      if StagedIn(w.db, release) && VolumesOf(w.db, release) == PublisherNames(w.running)
      then Recorded(w, Activated(w.db, release, requestId))
      else None
  }

  /** Release operations are refused while a restart is pending. */
  ghost function Recorded(w: World, next: Option<Db>): Option<World> {
    if w.running == w.file && next.Some? then Some(w.(db := next.value)) else None
  }

  ghost predicate History(worlds: seq<World>, events: seq<Event>) {
    && |worlds| == |events| + 1
    && forall i :: 0 <= i < |events| ==> After(worlds[i], events[i]) == Some(worlds[i + 1])
  }

  /** Saved and running configuration and every stored release agree on the map, and one is active. */
  ghost predicate Settled(w: World) {
    && DbInv(w.db)
    && w.db.active.Some?
    && MapOf(w.file) == MapOf(w.running)
    && ReleaseManager.Agrees(w.running, w.db)
  }

  lemma SameMapSamePaths(a: ServiceConfig, b: ServiceConfig)
    requires MapOf(a) == MapOf(b)
    ensures PublisherNames(a) == PublisherNames(b)
    ensures forall v, r :: v in PublisherNames(a) ==> SnapshotPath(a, v, r) == SnapshotPath(b, v, r)
  {
    assert PublisherNames(a) == MapOf(a).Keys == MapOf(b).Keys == PublisherNames(b);
    forall v, r | v in PublisherNames(a)
      ensures SnapshotPath(a, v, r) == SnapshotPath(b, v, r)
    {
      assert MapOf(a)[v] == MapOf(b)[v];
    }
  }

  lemma AgreesWithMap(a: ServiceConfig, b: ServiceConfig, db: Db)
    requires MapOf(a) == MapOf(b) && ReleaseManager.Agrees(a, db)
    ensures ReleaseManager.Agrees(b, db)
  {
    hide SnapshotPath;
    SameMapSamePaths(a, b);
  }

  lemma StagedVolumes(w: World, release: string)
    requires Settled(w) && w.db.active == Some(release)
    ensures StagedIn(w.db, release) && VolumesOf(w.db, release) == PublisherNames(w.running)
  {
  }

  /** A save that keeps the active release's snapshots keeps the map. */
  lemma SaveKeepsMap(w: World, proposed: ServiceConfig)
    requires Settled(w) && After(w, Save(proposed)).Some?
    ensures MapOf(proposed) == MapOf(w.running)
  {
    hide MasterDataset, DbInv;
    var active := w.db.active.value;
    StagedVolumes(w, active);
    assert SnapshotsOf(w.db, active) == Expected(proposed, active);
    assert VolumesOf(w.db, active) == SnapshotsOf(w.db, active).Keys;
    assert Expected(proposed, active).Keys == PublisherNames(proposed);
    assert MapOf(proposed).Keys == PublisherNames(proposed) == MapOf(w.running).Keys;
    forall v | v in PublisherNames(proposed)
      ensures MapOf(proposed)[v] == MapOf(w.running)[v]
    {
      assert (active, v) in w.db.volumes;
      assert Expected(proposed, active)[v] == w.db.volumes[(active, v)] == SnapshotPath(w.running, v, active);
    }
  }

  lemma StepStaysSettled(w: World, e: Event)
    requires Settled(w) && After(w, e).Some?
    ensures Settled(After(w, e).value) && MapOf(After(w, e).value.running) == MapOf(w.running)
  {
    match e
    case Save(proposed) => SaveKeepsMap(w, proposed);
    case Restart => AgreesWithMap(w.running, w.file, w.db);
    case Reserve(name, requestId) =>
      ReserveKeeps(w.db, name, requestId);
      ReserveAgrees(w, name, requestId);
    case Add(release, volume) =>
      AddKeeps(w.db, release, volume, SnapshotPath(w.running, volume, release));
      AddAgrees(w, release, volume);
    case Mark(release) =>
      MarkKeeps(w.db, release, PublisherNames(w.running));
      MarkAgrees(w, release);
    case Activate(release, requestId) =>
      ActivateKeeps(w.db, release, requestId);
      ActivateAgrees(w, release, requestId);
  }

  lemma ReserveAgrees(w: World, name: string, requestId: string)
    requires Settled(w) && Reserved(w.db, name, requestId).Some?
    ensures ReleaseManager.Agrees(w.running, Reserved(w.db, name, requestId).value)
  {
    hide SnapshotPath;
    var next := Reserved(w.db, name, requestId).value;
    forall r | StagedIn(next, r)
      ensures VolumesOf(next, r) == PublisherNames(w.running)
    {
      assert StagedIn(w.db, r) && next.volumes == w.db.volumes;
    }
  }

  lemma AddAgrees(w: World, release: string, volume: string)
    requires Settled(w) && volume in PublisherNames(w.running)
    requires Added(w.db, release, volume, SnapshotPath(w.running, volume, release)).Some?
    ensures ReleaseManager.Agrees(w.running, Added(w.db, release, volume, SnapshotPath(w.running, volume, release)).value)
  {
    hide SnapshotPath, DbInv, MapOf;
    var next := Added(w.db, release, volume, SnapshotPath(w.running, volume, release)).value;
    forall r | StagedIn(next, r)
      ensures VolumesOf(next, r) == PublisherNames(w.running)
    {
      assert StagedIn(w.db, r);
      assert forall k :: k in next.volumes && k.0 == r ==> k in w.db.volumes;
      assert VolumesOf(next, r) == VolumesOf(w.db, r);
    }
  }

  lemma MarkAgrees(w: World, release: string)
    requires Settled(w) && Marked(w.db, release, PublisherNames(w.running)).Some?
    ensures ReleaseManager.Agrees(w.running, Marked(w.db, release, PublisherNames(w.running)).value)
  {
    hide SnapshotPath;
    var next := Marked(w.db, release, PublisherNames(w.running)).value;
    forall r | StagedIn(next, r)
      ensures VolumesOf(next, r) == PublisherNames(w.running)
    {
      assert VolumesOf(next, r) == VolumesOf(w.db, r);
      assert r == release || StagedIn(w.db, r);
    }
  }

  lemma ActivateAgrees(w: World, release: string, requestId: string)
    requires Settled(w) && Activated(w.db, release, requestId).Some?
    ensures ReleaseManager.Agrees(w.running, Activated(w.db, release, requestId).value)
    ensures Activated(w.db, release, requestId).value.active.Some?
  {
    hide SnapshotPath;
    var next := Activated(w.db, release, requestId).value;
    forall r | StagedIn(next, r)
      ensures VolumesOf(next, r) == PublisherNames(w.running)
    {
      assert VolumesOf(next, r) == VolumesOf(w.db, r) && StagedIn(w.db, r);
    }
  }

  /** With the store in agreement, the coordinator never finds its active release unusable. */
  lemma SettledIsUsable(w: World)
    requires Settled(w)
    ensures ResetCoordinator.ActiveUsable(w.running, w.db) && ResetCoordinator.ActiveUsable(w.file, w.db)
  {
  }

  /**
   * The publisher map is frozen: from a settled world, whatever is saved, restarted, staged and
   * activated in whatever order, the map stays and the active release stays usable.
   */
  lemma {:induction false} MapIsFrozen(worlds: seq<World>, events: seq<Event>, i: nat)
    requires History(worlds, events) && Settled(worlds[0]) && i < |worlds|
    ensures Settled(worlds[i])
    ensures MapOf(worlds[i].running) == MapOf(worlds[i].file) == MapOf(worlds[0].running)
    ensures ResetCoordinator.ActiveUsable(worlds[i].running, worlds[i].db)
    ensures ResetCoordinator.ActiveUsable(worlds[i].file, worlds[i].db)
  {
    hide Settled, After, MapOf, ResetCoordinator.ActiveUsable;
    if i != 0 {
      MapIsFrozen(worlds, events, i - 1);
      assert After(worlds[i - 1], events[i - 1]) == Some(worlds[i]);
      StepStaysSettled(worlds[i - 1], events[i - 1]);
    }
    SettledFile(worlds[i]);
    SettledIsUsable(worlds[i]);
  }

  lemma SettledFile(w: World)
    requires Settled(w)
    ensures MapOf(w.file) == MapOf(w.running)
  {
  }

  // ---- A release left incomplete ----

  lemma StepIsLater(w: World, e: Event)
    requires DbInv(w.db) && After(w, e).Some?
    ensures DbInv(After(w, e).value.db) && Later(w.db, After(w, e).value.db)
  {
    hide DbInv, Later, Permits;
    match e
    case Save(proposed) => NothingKeeps(w.db);
    case Restart => NothingKeeps(w.db);
    case Reserve(name, requestId) => ReserveKeeps(w.db, name, requestId);
    case Add(release, volume) => AddKeeps(w.db, release, volume, SnapshotPath(w.running, volume, release));
    case Mark(release) => MarkKeeps(w.db, release, PublisherNames(w.running));
    case Activate(release, requestId) => ActivateKeeps(w.db, release, requestId);
  }

  lemma {:induction false} HistoryIsLater(worlds: seq<World>, events: seq<Event>, i: nat, k: nat)
    requires History(worlds, events) && DbInv(worlds[0].db) && i <= k < |worlds|
    ensures DbInv(worlds[i].db) && DbInv(worlds[k].db) && Later(worlds[i].db, worlds[k].db)
    decreases k
  {
    hide DbInv, Later, After;
    if k == 0 {
      NothingKeeps(worlds[0].db);
    } else {
      HistoryIsLater(worlds, events, if i == k then k - 1 else i, k - 1);
      assert After(worlds[k - 1], events[k - 1]) == Some(worlds[k]);
      StepIsLater(worlds[k - 1], events[k - 1]);
      NothingKeeps(worlds[k].db);
      if i < k { LaterTransitive(worlds[i].db, worlds[k - 1].db, worlds[k].db); }
    }
  }

  /**
   * From its reservation until it is staged a release keeps all it is continued under, whatever is saved,
   * restarted and done to the store in between.
   */
  lemma {:induction false} PendingKeepsPublisher(worlds: seq<World>, events: seq<Event>, n: string, i: nat, k: nat)
    requires History(worlds, events) && DbInv(worlds[0].db) && i <= k < |worlds|
    requires IncompleteIn(worlds[i].db, n) && IncompleteIn(worlds[k].db, n)
    ensures KeepsPublisher(worlds[i].file, worlds[k].file)
    decreases k
  {
    hide KeepsPublisher, After, DbInv;
    KeepsChained(worlds[i].file);
    if i < k {
      HistoryIsLater(worlds, events, i, k - 1);
      HistoryIsLater(worlds, events, k - 1, k);
      assert After(worlds[k - 1], events[k - 1]) == Some(worlds[k]);
      StillIncomplete(worlds[i].db, worlds[k - 1].db, worlds[k].db, n);
      PendingKeepsPublisher(worlds, events, n, i, k - 1);
      StepKeepsPublisher(worlds[k - 1], events[k - 1], n);
    }
  }

  lemma StillIncomplete(a: Db, b: Db, c: Db, n: string)
    requires Later(a, b) && Later(b, c) && IncompleteIn(a, n) && IncompleteIn(c, n)
    ensures IncompleteIn(b, n)
  {
    assert !StagedIn(c, n);
  }

  lemma StepKeepsPublisher(w: World, e: Event, n: string)
    requires After(w, e).Some? && IncompleteIn(w.db, n)
    ensures KeepsPublisher(w.file, After(w, e).value.file)
  {
    if e.Save? {
      SamePublisherMeans(w.file, e.proposed);
    } else {
      KeepsChained(w.file);
    }
  }

  /** So its rows still fit, and a stage with its request can complete it after the restart. */
  lemma PendingStaysCompletable(w: World, proposed: ServiceConfig, n: string)
    requires After(w, Save(proposed)).Some? && IncompleteIn(w.db, n) && ReleaseManager.Agrees(w.file, w.db)
    requires DistinctNames(w.file) && DistinctNames(proposed)
    ensures ReleaseManager.Agrees(proposed, w.db) && MapOf(proposed) == MapOf(w.file)
  {
    StepKeepsPublisher(w, Save(proposed), n);
    KeptMap(w.file, proposed);
    AgreesWithMap(w.file, proposed, w.db);
  }

  lemma KeptMap(a: ServiceConfig, b: ServiceConfig)
    requires KeepsPublisher(a, b) && DistinctNames(a) && DistinctNames(b)
    ensures MapOf(a) == MapOf(b)
  {
    hide MasterDataset;
    forall p: PublisherVolume
      ensures p in a.publisher.volumes <==> p in b.publisher.volumes
    {
      assert p == PublisherVolume(p.name, p.dataset, p.extentId, p.lun);
    }
    assert PublisherNames(a) == PublisherNames(b);
    forall v | v in PublisherNames(a)
      ensures MapOf(a)[v] == MapOf(b)[v]
    {
      var p :| p in a.publisher.volumes && p.name == v;
      DatasetByName(a.publisher.volumes, p);
      DatasetByName(b.publisher.volumes, p);
    }
  }

  /**
   * Before the first activation nothing freezes the map: with no release incomplete, any save is
   * accepted. A release staged before it can be activated after the restart exactly when the volume
   * names are the same, and is then usable exactly when the whole map is.
   */
  lemma MovedReleaseActivates(w: World, moved: ServiceConfig, release: string, requestId: string)
    requires DbInv(w.db) && w.running == w.file && ReleaseManager.Agrees(w.running, w.db)
    requires StagedIn(w.db, release) && requestId !in w.db.operations
    ensures w.db.active.None? && (forall n :: !IncompleteIn(w.db, n)) ==> After(w, Save(moved)).Some?
    ensures After(w, Save(moved)).Some? ==> History([w, w.(file := moved), Moved(w, moved)], [Save(moved), Restart])
    ensures After(Moved(w, moved), Activate(release, requestId)).Some? <==>
              PublisherNames(moved) == PublisherNames(w.running)
    ensures After(Moved(w, moved), Activate(release, requestId)).Some? ==>
              var last := After(Moved(w, moved), Activate(release, requestId)).value;
              && last.db.active == Some(release)
              && (ResetCoordinator.ActiveUsable(last.running, last.db) <==> MapOf(moved) == MapOf(w.running))
  {
    hide DbInv, MapOf, SnapshotPath, ResetCoordinator.ActiveUsable;
    assert VolumesOf(w.db, release) == PublisherNames(w.running);
    var after := After(Moved(w, moved), Activate(release, requestId));
    if after.Some? {
      ActivateKeeps(w.db, release, requestId);
      if MapOf(moved) == MapOf(w.running) { SameMapIsUsable(w, moved, release, requestId, after.value); }
      if ResetCoordinator.ActiveUsable(moved, after.value.db) { UsableIsSameMap(w, moved, release, after.value.db); }
    }
  }

  function Moved(w: World, moved: ServiceConfig): World {
    w.(file := moved, running := moved)
  }

  lemma SameMapIsUsable(w: World, moved: ServiceConfig, release: string, requestId: string, last: World)
    requires DbInv(w.db) && ReleaseManager.Agrees(w.running, w.db) && MapOf(moved) == MapOf(w.running)
    requires After(Moved(w, moved), Activate(release, requestId)) == Some(last) && requestId !in w.db.operations
    ensures ResetCoordinator.ActiveUsable(last.running, last.db)
  {
    hide SnapshotPath, DbInv, MapOf;
    ActivateKeeps(w.db, release, requestId);
    AgreesWithMap(w.running, moved, w.db);
    assert last.db.volumes == w.db.volumes && last.db.releases == w.db.releases;
    assert forall r :: VolumesOf(last.db, r) == VolumesOf(w.db, r);
    assert ReleaseManager.Agrees(moved, last.db);
    SettledIsUsable(last);
  }

  lemma UsableIsSameMap(w: World, moved: ServiceConfig, release: string, db: Db)
    requires ReleaseManager.Agrees(w.running, w.db) && db.volumes == w.db.volumes && db.active == Some(release)
    requires ResetCoordinator.ActiveUsable(moved, db) && PublisherNames(moved) == PublisherNames(w.running)
    ensures MapOf(moved) == MapOf(w.running)
  {
    hide MasterDataset;
    forall v | v in PublisherNames(moved)
      ensures MapOf(moved)[v] == MapOf(w.running)[v]
    {
      var record := Record(db, release);
      assert v in record.snapshots && (release, v) in db.volumes;
      assert SnapshotPath(moved, v, release) == db.volumes[(release, v)] == SnapshotPath(w.running, v, release);
    }
    assert MapOf(moved).Keys == MapOf(w.running).Keys;
  }
}
