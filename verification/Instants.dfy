/**
 * What `stage` and `prepare` do to contents: the snapshots of a published release, and the disks of a
 * client that is ready, hold what the masters held at one common instant.
 */
module Instants {
  import opened Results
  import opened Topology
  import opened Storage
  import opened Protocol
  import opened ResetSteps
  import opened PublishSteps
  import opened Backends
  import opened Releases
  import opened Coordinator
  import opened Manager
  import Republishing
  import opened Runs

  // ---- Publishing ----

  /** The log of any number of attempts of the publisher is a run of the whole system. */
  lemma StageLogIsRun(
    config: ServiceConfig, env: (nat, State) -> State, start: State, log: seq<Step>, known: set<string>,
    releases: set<string>, from: nat)
    returns (states: seq<State>, actors: seq<Actor>)
    requires WellFormed(config) && Linked(env, start, log) && from <= |log|
    requires forall n: nat, s :: Inv(config, s) ==> OthersReach(config, {}, Publishing, s, env(n, s))
    requires Inv(config, StateAfter(start, log, from))
    requires Republishing.StageLog(config, known, releases, StateAfter(start, log, from), from, log,
                                   StateAfter(start, log, |log|))
    ensures Run(config, releases, states, actors)
    ensures states[0] == StateAfter(start, log, from) && states[|states| - 1] == StateAfter(start, log, |log|)
  {
    hide Inv, WellFormed, PublisherStep, Happens, Linked;
    forall n: nat, s | Inv(config, s)
      ensures OthersReach(config, releases, Publishing, s, env(n, s))
    {
      OthersAnyReleases(config, {}, releases, s, env(n, s));
    }
    states, actors := LogIsRun(config, releases, Publishing, env, start, log, from, |log|,
                               [StateAfter(start, log, from)], []);
  }

  /** Nothing of a release of this request has been taken yet. */
  ghost predicate Untouched(config: ServiceConfig, db: Db, requestId: string, s: State) {
    forall n :: n in db.releases && db.releases[n].requestId == requestId ==> !Taken(config, n, s)
  }

  /**
   * Point-in-time release: when a request is published after any number of failed, crashed and resumed
   * attempts, all snapshots of its release exist and hold what the masters held in one state the system
   * went through since the first attempt.
   */
  method PublishAtOneInstant(
    manager: ReleaseManager, requestId: string, dates: seq<string>, adversaries: seq<nat -> Fault>)
    returns (r: Result<ReleaseRecord>, ghost states: seq<State>, ghost actors: seq<Actor>, ghost j: nat)
    requires manager.Tracks() && !manager.locked && !manager.store.readOnly
    requires ReleaseManager.Link(manager.config, manager.store.View(), manager.backend.View())
    requires Wired(manager.config, manager.backend.View()) && ReleaseManager.DistinctDatasets(manager.config)
    requires ReleaseManager.OnlyMine(manager.store.View(), requestId)
    requires |dates| == |adversaries| + 1 && forall f :: f in adversaries ==> OnlyFailures(f)
    requires forall n: nat, s :: Inv(manager.config, s) ==>
               OthersReach(manager.config, {}, Publishing, s, manager.backend.env(n, s))
    requires Untouched(manager.config, manager.store.View(), requestId, manager.backend.View())
    modifies manager`locked, manager.backend, manager.store
    ensures Run(manager.config, manager.store.releases.Keys, states, actors)
    ensures states[0] == old(manager.backend.View()) && states[|states| - 1] == manager.backend.View()
    ensures r.Ok? ==> j < |states| && TakenAt(manager.config, r.value.name, manager.backend.View(), states[j])
    ensures r.Ok? ==> Complete(manager.config, r.value.name, manager.backend.View())
  {
    hide Inv, WellFormed, Linked, PublisherEnvOk, OthersReach, Republishing.StageLog, ReleaseManager.Link, Taken,
         Complete, Wired, StateAfter, Republishing.AloneFrom, Run, TakenAt, Untouched, ReleaseManager.PublisherKept,
         ReleaseManager.DistinctDatasets, OnlyFailures, Record, ReleaseManager.AlreadyStaged;
    var backend, config := manager.backend, manager.config;
    ghost var db0, s0, log0 := manager.store.View(), backend.View(), backend.trace;
    assert s0 == StateAfter(backend.start, log0, |log0|);
    ghost var last;
    r, last := Republishing.StageUntilReleased(manager, requestId, dates, adversaries);
    SameUpTo(backend.start, log0, backend.trace);
    ghost var releases := manager.store.releases.Keys;
    states, actors := StageLogIsRun(config, backend.env, backend.start, backend.trace, db0.releases.Keys, releases, |log0|);
    j := 0;
    if r.Ok? {
      SameRequest(db0, manager.store.View(), requestId, r.value.name);
      ReleaseFree(config, db0, requestId, r.value.name, releases, s0, |log0|, backend.trace, backend.View());
      RunStates(config, releases, states, actors);
      j := PointInTime(config, releases, states, actors, r.value.name, |states| - 1);
    }
  }

  lemma SameRequest(db: Db, next: Db, requestId: string, release: string)
    requires Later(db, next) && release in next.releases && Record(next, release).requestId == requestId
    ensures release in db.releases ==> db.releases[release].requestId == requestId
  {
  }

  lemma RunStates(config: ServiceConfig, releases: set<string>, states: seq<State>, actors: seq<Actor>)
    requires Run(config, releases, states, actors)
    ensures |states| >= 1
  {
  }

  lemma ReleaseFree(
    config: ServiceConfig, db: Db, requestId: string, release: string, releases: set<string>, s: State, from: nat,
    log: seq<Step>, t: State)
    requires Republishing.StageLog(config, db.releases.Keys, releases, s, from, log, t)
    requires Untouched(config, db, requestId, s) && release in releases
    requires release in db.releases ==> db.releases[release].requestId == requestId
    ensures !Taken(config, release, s)
  {
    hide Taken;
  }

  // ---- Resetting ----

  predicate SwitchedOn(v: Volume, step: Step) {
    && v.extentId in step.before.extents && !step.before.extents[v.extentId].enabled
    && v.extentId in step.after.extents && step.after.extents[v.extentId].enabled
  }

  /** Whatever this log entry switches on, every volume still off before it shows its master of `then'`. */
  ghost predicate ShowsInstant(config: ServiceConfig, client: Client, release: string, step: Step, then': State) {
    Enables(step.before, step.after) ==>
      forall v :: v in client.volumes && v.extentId in step.before.extents &&
                  !step.before.extents[v.extentId].enabled ==>
        ShowsMasterOf(config, client, v, release, step.before, then')
  }

  /** What a stretch of a reset's log leads through grows out of where it starts. */
  lemma {:induction false} ResetLogGrows(
    config: ServiceConfig, client: Client, env: (nat, State) -> State, start: State, log: seq<Step>, from: nat, upto: nat)
    requires WellFormed(config) && client in config.clients && EnvOk(config, client, env)
    requires Linked(env, start, log) && from <= upto <= |log|
    requires forall i :: from <= i < upto ==> ClientStep(config, client, log[i].before, log[i].after)
    requires Inv(config, StateAfter(start, log, from))
    ensures Inv(config, StateAfter(start, log, upto))
    ensures Grows(StateAfter(start, log, from), StateAfter(start, log, upto))
    ensures forall i :: from <= i < upto ==> Grows(StateAfter(start, log, from), log[i].before)
    decreases upto
  {
    hide Inv, WellFormed, Rely, Happens, Grows, ClientStep;
    if from == upto {
      ReflGrows(StateAfter(start, log, from));
    } else {
      ResetLogGrows(config, client, env, start, log, from, upto - 1);
      var s0, s, step := StateAfter(start, log, from), StateAfter(start, log, upto - 1), log[upto - 1];
      assert LinkedAt(env, start, log, upto - 1);
      ClientKeepsInv(config, client, step.before, step.after);
      ResetCoordinator.RelyGrows(client, s, step.before);
      StepGrows(config, client, step.before, step.after);
      GrowsTransitive(s0, s, step.before);
      GrowsTransitive(s0, step.before, step.after);
    }
  }

  lemma StepGrows(config: ServiceConfig, client: Client, s: State, t: State)
    requires ClientStep(config, client, s, t)
    ensures Grows(s, t)
  {
  }

  /** A volume that was off and is on was switched on by a call in between. */
  lemma {:induction false} SwitchedOnBetween(
    config: ServiceConfig, client: Client, v: Volume, env: (nat, State) -> State, start: State, log: seq<Step>,
    from: nat, upto: nat)
    returns (i: nat)
    requires WellFormed(config) && client in config.clients && v in client.volumes && EnvOk(config, client, env)
    requires Linked(env, start, log) && from < upto <= |log|
    requires forall i :: from <= i < upto ==> ClientStep(config, client, log[i].before, log[i].after)
    requires Inv(config, StateAfter(start, log, from))
    requires v.extentId in StateAfter(start, log, from).extents &&
             !StateAfter(start, log, from).extents[v.extentId].enabled
    requires v.extentId in StateAfter(start, log, upto).extents &&
             StateAfter(start, log, upto).extents[v.extentId].enabled
    ensures from <= i < upto && SwitchedOn(v, log[i])
    decreases upto
  {
    hide Inv, WellFormed, Rely, Happens, ClientStep;
    ResetLogGrows(config, client, env, start, log, from, upto - 1);
    var s, step := StateAfter(start, log, upto - 1), log[upto - 1];
    assert LinkedAt(env, start, log, upto - 1);
    OwnKept(client, v, s, step.before);
    StepGrows(config, client, step.before, step.after);
    if v.extentId in s.extents && s.extents[v.extentId].enabled {
      i := SwitchedOnBetween(config, client, v, env, start, log, from, upto - 1);
    } else {
      i := upto - 1;
    }
  }

  lemma OwnKept(client: Client, v: Volume, s: State, t: State)
    requires Rely(client, s, t) && v in client.volumes
    ensures v.extentId in s.extents <==> v.extentId in t.extents
    ensures v.extentId in s.extents ==> t.extents[v.extentId] == s.extents[v.extentId]
  {
    assert v.extentId in ExtentIds(client);
  }

  /** Taken at an instant, a complete release stays so. */
  lemma TakenStays(config: ServiceConfig, release: string, s: State, t: State, then': State)
    requires TakenAt(config, release, s, then') && Complete(config, release, s) && Grows(s, t)
    ensures TakenAt(config, release, t, then')
  {
  }

  lemma RestoredShows(config: ServiceConfig, client: Client, release: string, s: State, then': State)
    requires WellFormed(config) && client in config.clients
    requires Restored(config, client, release, s) && TakenAt(config, release, s, then')
    ensures forall v :: v in client.volumes && v.extentId in s.extents && !s.extents[v.extentId].enabled ==>
              ShowsMasterOf(config, client, v, release, s, then')
  {
    hide WellFormed, CloneDataset, CloneReady;
    forall v | v in client.volumes && v.extentId in s.extents && !s.extents[v.extentId].enabled
      ensures ShowsMasterOf(config, client, v, release, s, then')
    {
      var p := MasterOfVolume(config, client, v);
      assert Pointed(client, v, release, s) && Pristine(config, client, v, release, s);
    }
  }

  /**
   * Clean reset: given the run that led here from before the active release was taken, every call of a
   * reset that switches an extent on finds all volumes still off on the contents their masters had at one
   * instant of that run, the same for all calls; and a reset that answers ready has switched every volume on.
   */
  method PrepareAtOneInstant(
    coordinator: ResetCoordinator, client: Client, ghost releases: set<string>, ghost states: seq<State>,
    ghost actors: seq<Actor>)
    returns (r: Result<ClientResponse>, ghost j: nat)
    requires coordinator.Tracks(client) && coordinator.store.active.Some?
    requires ReleaseManager.Link(coordinator.config, coordinator.store.View(), coordinator.backend.View())
    requires Run(coordinator.config, releases, states, actors) && Inv(coordinator.config, states[0])
    requires states[|states| - 1] == coordinator.backend.View() && coordinator.store.active.value in releases
    requires !Taken(coordinator.config, coordinator.store.active.value, states[0])
    modifies coordinator`busy, coordinator.backend
    ensures j < |states|
    ensures forall i :: |old(coordinator.backend.trace)| <= i < |coordinator.backend.trace| ==>
              ShowsInstant(coordinator.config, client, coordinator.store.active.value, coordinator.backend.trace[i],
                           states[j])
    ensures r.Ok? ==> forall v :: v in client.volumes ==>
              exists i :: |old(coordinator.backend.trace)| <= i < |coordinator.backend.trace| &&
                          SwitchedOn(v, coordinator.backend.trace[i])
  {
    hide Inv, WellFormed, Linked, EnvOk, Run, Taken, Complete, TakenAt, ReleaseManager.Link, StateAfter, Trail,
         ResetCoordinator.WasOff, Ready, ShowsInstant, SwitchedOn, IdentityKept, PathsReadBack, AllReady, Preparable,
         ResetCoordinator.QuietAfter, FailClosed, Clear, DbInv;
    var backend, config := coordinator.backend, coordinator.config;
    ghost var release, s0, log0 := coordinator.store.active.value, backend.View(), backend.trace;
    assert s0 == StateAfter(backend.start, log0, |log0|);
    ActiveComplete(config, coordinator.store.View(), s0);
    RunStates(config, releases, states, actors);
    j := PointInTime(config, releases, states, actors, release, |states| - 1);
    ghost var mutated;
    r, mutated := coordinator.Prepare(client);
    TrailPrefix(config, client, backend.faults, Creates(release), log0, backend.trace);
    SameUpTo(backend.start, log0, backend.trace);
    LogShows(config, client, release, backend.env, backend.faults, backend.start, log0, backend.trace, states[j]);
    if r.Ok? {
      forall v | v in client.volumes
        ensures exists i :: |log0| <= i < |backend.trace| && SwitchedOn(v, backend.trace[i])
      {
        var i := ReadySwitched(config, client, v, release, backend.env, backend.faults, backend.start, log0, backend.trace);
      }
    }
  }

  lemma ActiveComplete(config: ServiceConfig, db: Db, s: State)
    requires WellFormed(config) && ReleaseManager.Link(config, db, s) && db.active.Some?
    ensures Complete(config, db.active.value, s)
  {
    ReleaseManager.StagedComplete(config, db, s, db.active.value);
  }

  lemma LogShows(
    config: ServiceConfig, client: Client, release: string, env: (nat, State) -> State, faults: nat -> Fault,
    start: State, before: seq<Step>, log: seq<Step>, then': State)
    requires WellFormed(config) && client in config.clients && EnvOk(config, client, env)
    requires Linked(env, start, log) && Trail(config, client, faults, Creates(release), before, log)
    requires Inv(config, StateAfter(start, log, |before|))
    requires Complete(config, release, StateAfter(start, log, |before|))
    requires TakenAt(config, release, StateAfter(start, log, |before|), then')
    ensures forall i :: |before| <= i < |log| ==> ShowsInstant(config, client, release, log[i], then')
  {
    hide WellFormed, EnvOk, Linked, Inv, Complete, TakenAt, Restored, Enables, ShowsMasterOf, ClientStep;
    forall i | |before| <= i < |log|
      ensures ClientStep(config, client, log[i].before, log[i].after)
      ensures Enables(log[i].before, log[i].after) ==> Restored(config, client, release, log[i].before)
    {
      assert OwnStep(config, client, faults(i), Creates(release), log[i]);
    }
    ResetLogGrows(config, client, env, start, log, |before|, |log|);
    forall i | |before| <= i < |log|
      ensures ShowsInstant(config, client, release, log[i], then')
    {
      TakenStays(config, release, StateAfter(start, log, |before|), log[i].before, then');
      if Enables(log[i].before, log[i].after) { RestoredShows(config, client, release, log[i].before, then'); }
    }
  }

  lemma TrailSteps(
    config: ServiceConfig, client: Client, release: string, faults: nat -> Fault, before: seq<Step>, log: seq<Step>)
    requires Trail(config, client, faults, Creates(release), before, log)
    ensures forall i :: |before| <= i < |log| ==> ClientStep(config, client, log[i].before, log[i].after)
  {
    hide ClientStep, Allowed;
    forall i | |before| <= i < |log|
      ensures ClientStep(config, client, log[i].before, log[i].after)
    {
      assert OwnStep(config, client, faults(i), Creates(release), log[i]);
    }
  }

  lemma OffThenOn(
    config: ServiceConfig, client: Client, v: Volume, env: (nat, State) -> State, start: State, log: seq<Step>,
    from: nat, m: nat)
    returns (i: nat)
    requires WellFormed(config) && client in config.clients && v in client.volumes && EnvOk(config, client, env)
    requires Linked(env, start, log) && from <= m < |log|
    requires forall i :: from <= i < |log| ==> ClientStep(config, client, log[i].before, log[i].after)
    requires Inv(config, StateAfter(start, log, from))
    requires v.extentId in log[m].after.extents ==> !log[m].after.extents[v.extentId].enabled
    requires v.extentId in StateAfter(start, log, |log|).extents
    requires StateAfter(start, log, |log|).extents[v.extentId].enabled
    ensures from <= i < |log| && SwitchedOn(v, log[i])
  {
    hide WellFormed, EnvOk, Linked, Inv, ClientStep, SameMeta;
    ResetLogGrows(config, client, env, start, log, from, m + 1);
    ResetLogGrows(config, client, env, start, log, m + 1, |log|);
    assert StateAfter(start, log, m + 1) == log[m].after;
    i := SwitchedOnBetween(config, client, v, env, start, log, m + 1, |log|);
  }

  lemma ReadySwitched(
    config: ServiceConfig, client: Client, v: Volume, release: string, env: (nat, State) -> State, faults: nat -> Fault,
    start: State, before: seq<Step>, log: seq<Step>)
    returns (i: nat)
    requires WellFormed(config) && client in config.clients && v in client.volumes && EnvOk(config, client, env)
    requires Linked(env, start, log) && Trail(config, client, faults, Creates(release), before, log)
    requires Inv(config, StateAfter(start, log, |before|))
    requires ResetCoordinator.WasOff(client, |before|, log) && Ready(config, client, release, StateAfter(start, log, |log|))
    ensures |before| <= i < |log| && SwitchedOn(v, log[i])
  {
    TrailSteps(config, client, release, faults, before, log);
    hide WellFormed, EnvOk, Linked, Inv, ClientStep, Trail, CloneReady, LunsMatch, Grows;
    var m :| |before| <= m < |log| && AllDisabled(ExtentIds(client), log[m].after);
    assert v.extentId in ExtentIds(client);
    i := OffThenOn(config, client, v, env, start, log, |before|, m);
  }
}
