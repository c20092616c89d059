/** configurator_api.py: the checks the stage and activate routes make before the release manager. */
module Routes {
  import opened Results
  import opened Topology
  import opened Storage
  import opened Protocol
  import opened PublishSteps
  import opened Backends
  import opened Guards
  import opened Releases
  import opened Sessions
  import opened Inspection
  import opened Manager
  import Republishing

  class ManagementRoutes {
    const inspector: ManagementInspector
    const manager: ReleaseManager
    var mutating: bool

    constructor (inspector: ManagementInspector, manager: ReleaseManager)
      ensures this.inspector == inspector && this.manager == manager && !mutating
    {
      this.inspector, this.manager, mutating := inspector, manager, false;
    }

    /** One configuration, one storage and one store behind both. */
    ghost predicate Together() {
      && inspector.config == manager.config
      && inspector.backend == manager.backend
      && inspector.store == manager.store
    }

    ghost predicate Sound()
      reads manager.backend, manager.store
    {
      && Together()
      && manager.Tracks()
      && ReleaseManager.Link(manager.config, manager.store.View(), manager.backend.View())
      && "" !in manager.store.releases
    }

    /** Nothing fails, nobody changes the storage or visits the publisher, and the configured extents exist. */
    ghost predicate Peaceful()
      reads manager, manager.backend
    {
      && manager.Undisturbed() && inspector.Fixed() && !manager.locked
      && inspector.ExtentsExist(manager.backend.View())
      && LowerCase(manager.config)
    }

    /** The publisher's topology is in order, too. */
    ghost predicate Settled()
      reads manager, manager.backend, manager.store
    {
      Peaceful() && !manager.store.readOnly && Wired(manager.config, manager.backend.View())
    }

    /** In surroundings that do nothing, when no call fails, it takes nobody logged in as the publisher. */
    lemma IdleIsSettled()
      requires forall n: nat, s :: manager.backend.env(n, s) == s
      requires forall n: nat :: n >= manager.backend.calls ==> manager.backend.faults(n).NoFault?
      requires inspector.backend == manager.backend && !manager.locked && !manager.store.readOnly
      requires Wired(manager.config, manager.backend.View()) && inspector.ExtentsExist(manager.backend.View())
      requires LowerCase(manager.config)
      ensures Settled() <==> Unvisited(manager.config, manager.backend.View())
    {
    }

    ghost predicate HasIncomplete(db: Db) {
      exists n :: IncompleteIn(db, n)
    }

    /**
     * How an attempt leaves the extents off with nothing to continue: somebody logs in as the publisher
     * after the checks of `stage` found nobody. Then, though no call fails, what follows in `stage` ends with
     * all extents off before anything is reserved. Once the PC has logged out again the manager would
     * publish, but the route refuses: the last clause of Stage holds of what is left here.
     */
    method StrandExtents() returns (o: Outcome)
      requires Sound() && !HasIncomplete(manager.store.View())
      requires forall n: nat, s :: manager.backend.env(n, s) == s
      requires manager.Faultless() && Wired(manager.config, manager.backend.View())
      requires !Unvisited(manager.config, manager.backend.View())
      modifies manager.backend
      ensures o.Fail? && Sound() && !HasIncomplete(manager.store.View())
      ensures Wired(manager.config, manager.backend.View()) && manager.Faultless()
      ensures forall p :: p in manager.config.publisher.volumes ==> Off(p.extentId, manager.backend.View())
      ensures !inspector.AllOn(manager.backend.View())
    {
      hide Inv, PublisherStep, PublisherRely, PublisherTrail, Happens, PublisherEnvOk, WellFormed, Linked, Wired,
           Grows, PublisherFailClosed, ReleaseManager.Closed, ReleaseManager.Link;
      var backend, config := manager.backend, manager.config;
      ghost var s0, log0, db := backend.View(), backend.trace, manager.store.View();
      o := manager.Quiesce();
      ghost var s1, log1 := backend.View(), backend.trace;
      AfterClosing(db, log0, log1, s0, s1);
      OnlyOthersVisit(config, {}, backend.faults, Closing, backend.env, backend.start, log0, log1, |log1|);
      manager.BestEffortDisable();
      AfterClosing(db, log1, backend.trace, s1, backend.View());
      AllOff(backend.View());
    }

    /** Closing without failures keeps the storage in order. */
    lemma AfterClosing(db: Db, before: seq<Step>, log: seq<Step>, s: State, t: State)
      requires WellFormed(manager.config) && PublisherEnvOk(manager.config, manager.backend.env)
      requires Linked(manager.backend.env, manager.backend.start, log)
      requires PublisherTrail(manager.config, {}, manager.backend.faults, Closing, before, log)
      requires forall n: nat :: n >= |before| ==> manager.backend.faults(n).NoFault?
      requires s == StateAfter(manager.backend.start, before, |before|) && t == StateAfter(manager.backend.start, log, |log|)
      requires Inv(manager.config, s) && Wired(manager.config, s) && ReleaseManager.Link(manager.config, db, s)
      requires Grows(s, t) && ReleaseManager.Closed(manager.config, s, t)
      ensures s == StateAfter(manager.backend.start, log, |before|)
      ensures Wired(manager.config, t) && ReleaseManager.Link(manager.config, db, t) && OnMasters(manager.config, t)
    {
      hide Inv, PublisherStep, PublisherEnvOk, WellFormed, Linked, ReleaseManager.Link, ReleaseManager.Closed, Grows,
           PublisherLuns;
      SameUpTo(manager.backend.start, before, log);
      forall i | |before| <= i < |log|
        ensures PublisherStep(manager.config, {}, log[i].before, log[i].after) && !log[i].fault.Reidentify?
      {
        assert PublisherOwnStep(manager.config, {}, manager.backend.faults(i), Closing, log[i]);
      }
      Republishing.LogStaysWired(manager.config, {}, manager.backend.env, manager.backend.start, log, |before|, |log|);
      ReleaseManager.GrowsKeys(s, t);
      ReleaseManager.ClosedKeepsOff(manager.config, s, t);
      ReleaseManager.ClosedSnapshots(manager.config, s, t);
      ReleaseManager.LinkKept(manager.config, db, s, t);
    }

    lemma AllOff(s: State)
      requires Together() && WellFormed(manager.config)
      requires forall p :: p in manager.config.publisher.volumes ==> Off(p.extentId, s)
      ensures !inspector.AllOn(s)
    {
      assert manager.config.publisher.volumes[0] in manager.config.publisher.volumes;
    }

    /** The route's request id is used for a new release; a release left incomplete keeps its own. */
    method Stage(requestId: string, date: string, restartRequired: bool, discovered: bool)
      returns (r: Result<ReleaseRecord>)
      requires Sound()
      modifies this`mutating, manager`locked, manager.backend, manager.store
      ensures mutating == old(mutating) && manager.locked == old(manager.locked)
      ensures Together() && manager.Tracks()
      ensures ReleaseManager.Link(manager.config, manager.store.View(), manager.backend.View())
      ensures manager.store.active == old(manager.store.active)
      ensures Later(old(manager.store.View()), manager.store.View())
      ensures old(mutating) ==> r == Err(OperationBusy)
      ensures restartRequired ==> r.Err? && manager.store.View() == old(manager.store.View())
      ensures r.Ok? ==> StagedIn(manager.store.View(), r.value.name)
      ensures r.Ok? ==> !restartRequired
      ensures (!old(mutating) && !restartRequired && discovered && old(Settled()) &&
               !Requested(old(manager.store.View()), requestId)) ==>
                (r.Ok? <==> (ReleaseManager.DistinctDatasets(manager.config) &&
                             (HasIncomplete(old(manager.store.View())) || old(inspector.AllOn(manager.backend.View())))))
      ensures (!old(mutating) && old(Settled()) && !HasIncomplete(old(manager.store.View())) &&
               !old(inspector.AllOn(manager.backend.View()))) ==>
                r == Err(ReleaseNotReady) && manager.store.View() == old(manager.store.View())
    {
      hide Inv, PublisherRely, PublisherStep, PublisherEnvOk, PublisherTrail, Grows, WellFormed, ReleaseManager.Link,
           DbInv, Later, Wired, ReleaseManager.Undisturbed, ManagementInspector.AllOn, Matching,
           ReleaseManager.DistinctDatasets, Record, LowerCase, Requested, HasIncomplete, PublisherFailClosed,
           PublisherLuns, Complete, Expected, ReleaseManager.PublisherKept, Happens,
           ManagementInspector.Fixed, ManagementInspector.ExtentsExist, ManagementInspector.StatusesAre,
           ManagementInspector.AllUpdated, ManagementInspector.NobodyIn;
      ghost var s0, db := manager.backend.View(), manager.store.View();
      ReleaseManager.LaterNil(db);
      if mutating { return Err(OperationBusy); }
      mutating := true;
      ReleaseManager.LinkInv(manager.config, db, s0);
      if Settled() { PeacefulIsQuiet(); }
      label start:
      var d, seen := inspector.Report(restartRequired, discovered);
      ghost var s1 := manager.backend.View();
      ReleaseManager.LookLink(manager.config, db, s0, s1);
      AfterReport@start();
      if d.Err? {
        r := Err(BackendError);
      } else if !d.value.canStage {
        if old(Settled()) { Gate(d.value, db, restartRequired, discovered, seen, s0, s1); }
        r := Err(ReleaseNotReady);
      } else {
        if old(Settled()) { Gate(d.value, db, restartRequired, discovered, seen, s0, s1); }
        var request := requestId;
        if d.value.incomplete.Some? {
          request := manager.store.releases[d.value.incomplete.value].requestId;
        }
        ChosenRequest(db, d.value.incomplete, requestId, request);
        ghost var mutated;
        r, mutated := manager.Stage(request, date);
      }
      mutating := false;
    }

    lemma PeacefulIsQuiet()
      requires Sound() && Peaceful()
      ensures inspector.Quiet() && inspector.Faultless()
    {
    }

    twostate lemma AfterReport()
      requires old(Sound()) && inspector.Kept() && Together()
      ensures manager.Tracks()
      ensures old(manager.Undisturbed()) ==> manager.Undisturbed()
    {
    }

    /** With nothing else moving, the gate is open when something is to be continued or all extents are on. */
    lemma Gate(d: Dashboard, db: Db, restartRequired: bool, discovered: bool, seen: seq<Session>, s: State, t: State)
      requires inspector.Reports(d, db, restartRequired, seen) && inspector.Faithful(d, db, discovered, t)
      requires inspector.Fixed() && SameStorage(s, t) && inspector.NobodyIn(seen)
      requires Wired(inspector.config, s) && LowerCase(inspector.config)
      ensures d.canStage <==>
                discovered && !restartRequired && (HasIncomplete(db) || inspector.AllOn(s))
    {
      hide Matching;
      assert Configured(inspector.config, PublisherRole(inspector.config));
      GuardIsDisconnected(PublisherRole(inspector.config), seen);
      inspector.PublisherSame(s, t);
    }

    /** With nothing else moving, an activation passes the gates exactly for what can be activated. */
    lemma Passage(
      d: Dashboard, db: Db, restartRequired: bool, discovered: bool, seen: seq<Session>, s: State, t: State,
      release: string, requestId: string)
      requires inspector.config == manager.config
      requires inspector.Reports(d, db, restartRequired, seen) && inspector.Faithful(d, db, discovered, t)
      requires SameStorage(s, t) && inspector.NobodyIn(seen) && LowerCase(inspector.config)
      requires Unvisited(manager.config, s) && Unvisited(manager.config, t)
      ensures d.publisher.connection.Disconnected?
      ensures manager.Activatable(db, s, release, requestId) <==> manager.Activatable(db, t, release, requestId)
      ensures manager.Activatable(db, t, release, requestId) && discovered ==> d.publisher.valid && d.publisher.enabled
      ensures d.publisher.valid ==> discovered
    {
      hide Matching;
      assert Configured(inspector.config, PublisherRole(inspector.config));
      GuardIsDisconnected(PublisherRole(inspector.config), seen);
      inspector.PublisherSame(s, t);
      AllOnIs(s);
      AllOnIs(t);
    }

    /** Looking changes nothing, so the storage stays what the surroundings keep it. */
    lemma {:induction false} LooksFix(before: seq<Step>, log: seq<Step>)
      requires Linked(manager.backend.env, manager.backend.start, log) && inspector.backend == manager.backend
      requires PublisherTrail(manager.config, {}, manager.backend.faults, Looking, before, log) && inspector.Fixed()
      ensures SameStorage(StateAfter(manager.backend.start, before, |before|),
                          StateAfter(manager.backend.start, log, |log|))
    {
      hide Happens, PublisherStep;
      if |before| < |log| {
        var rest := log[..|log| - 1];
        forall i | 0 <= i < |rest| ensures LinkedAt(manager.backend.env, manager.backend.start, rest, i) {
          assert LinkedAt(manager.backend.env, manager.backend.start, log, i) && rest[i] == log[i];
        }
        LooksFix(before, rest);
        assert LinkedAt(manager.backend.env, manager.backend.start, log, |log| - 1);
        assert PublisherOwnStep(manager.config, {}, manager.backend.faults(|log| - 1), Looking, log[|log| - 1]);
      }
    }

    lemma WasActivatable(db: Db, next: Db, release: string, requestId: string, s: State, t: State)
      requires Together() && DbInv(db) && SameStorage(s, t) && Unvisited(manager.config, s)
      requires Some(next) == Activated(db, release, requestId) && StagedIn(db, release)
      requires SnapshotsOf(next, release) == SnapshotsOf(db, release) && VolumesOf(next, release) == VolumesOf(db, release)
      requires VolumesOf(next, release) == PublisherNames(manager.config)
      requires ReleaseManager.AllAre(manager.config, true, t) && Wired(manager.config, t)
      requires forall v :: v in SnapshotsOf(next, release) ==> SnapshotsOf(next, release)[v] in t.snapshots
      ensures manager.Activatable(db, s, release, requestId)
    {
      hide DbInv, Wired, SnapshotsOf, VolumesOf;
      inspector.PublisherSame(s, t);
      AllOnIs(s);
      AllOnIs(t);
      ReleaseManager.ActivationAccepted(db, release, requestId);
    }

    lemma AllOnIs(s: State)
      requires inspector.config == manager.config
      ensures inspector.AllOn(s) <==> ReleaseManager.AllAre(manager.config, true, s)
    {
      forall j | 0 <= j < |manager.config.publisher.volumes|
        ensures manager.config.publisher.volumes[j] in manager.config.publisher.volumes
      {
      }
    }

    lemma ChosenRequest(db: Db, incomplete: Option<string>, requestId: string, request: string)
      requires DbInv(db) && forall n :: IncompleteIn(db, n) <==> incomplete == Some(n)
      requires request == if incomplete.Some? then db.releases[incomplete.value].requestId else requestId
      ensures ReleaseManager.OnlyMine(db, request)
      ensures !Requested(db, requestId) ==> !ReleaseManager.AlreadyStaged(db, request)
    {
    }

    /** The activate route: no restart pending, publisher disconnected, topology in order and extents on. */
    method Activate(release: string, confirmation: string, requestId: string, restartRequired: bool, discovered: bool)
      returns (r: Result<string>)
      requires Sound()
      modifies this`mutating, manager`locked, manager.backend, manager.store
      ensures mutating == old(mutating) && manager.locked == old(manager.locked)
      ensures Together() && manager.Tracks()
      ensures r.Err? ==> manager.store.View() == old(manager.store.View())
      ensures r.Ok? ==> !restartRequired && r.value == release
      ensures r.Ok? ==> Some(manager.store.View()) == Activated(old(manager.store.View()), release, requestId)
      ensures r.Ok? ==> VolumesOf(manager.store.View(), release) == PublisherNames(manager.config)
      ensures old(mutating) ==> r == Err(OperationBusy)
      ensures !old(mutating) && old(Peaceful()) && restartRequired ==> r == Err(RestartRequired)
      ensures !old(mutating) && old(Peaceful()) && confirmation == "ACTIVATE " + release ==>
                (r == Ok(release) <==>
                   !restartRequired && discovered && !manager.store.readOnly &&
                   manager.Activatable(old(manager.store.View()), old(manager.backend.View()), release, requestId))
    {
      hide Inv, PublisherRely, PublisherStep, PublisherEnvOk, PublisherTrail, Grows, WellFormed, ReleaseManager.Link,
           DbInv, Wired, ReleaseManager.Undisturbed, Matching, Record, LowerCase, Happens, ReleaseManager.AllAre,
           ManagementInspector.Fixed, ManagementInspector.StatusesAre, ManagementInspector.AllUpdated,
           ManagementInspector.Faithful, ManagementInspector.Reports, ReleaseManager.Activatable, ReleaseManager.InOrder,
           ManagementInspector.NobodyIn, ManagementInspector.ExtentsExist, SeenNobody, SeenActive, GuardFor, Linked,
           Activated, SnapshotsOf, VolumesOf, SameStorage, Unvisited;
      ghost var s0, db := manager.backend.View(), manager.store.View();
      if mutating { return Err(OperationBusy); }
      mutating := true;
      ReleaseManager.LinkInv(manager.config, db, s0);
      if Peaceful() { PeacefulIsQuiet(); }
      label start:
      var d, seen := inspector.Report(restartRequired, discovered);
      AfterReport@start();
      ghost var s1, log1 := manager.backend.View(), manager.backend.trace;
      if old(Peaceful()) { Passage(d.value, db, restartRequired, discovered, seen, s0, s1, release, requestId); }
      if d.Err? {
        r := Err(BackendError);
      } else if restartRequired {
        r := Err(RestartRequired);
      } else if !d.value.publisher.connection.Disconnected? {
        r := Err(PublisherSessionActive);
      } else if !d.value.publisher.valid || !d.value.publisher.enabled {
        r := Err(TopologyMismatch);
      } else {
        r := manager.Activate(release, confirmation, requestId);
        if old(Peaceful()) && r.Ok? {
          ReleaseManager.ActivatedRows(db, release, requestId);
          PublisherTrailPrefix(manager.config, {}, manager.backend.faults, Looking, log1, manager.backend.trace);
          SameUpTo(manager.backend.start, log1, manager.backend.trace);
          LooksFix(log1, manager.backend.trace);
          WasActivatable(db, manager.store.View(), release, requestId, s1, manager.backend.View());
        }
      }
      mutating := false;
    }
  }
}
