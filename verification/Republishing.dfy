/** Stages over many attempts, and what a published release means to the clients' resets. */
module Republishing {
  import opened Results
  import opened Topology
  import opened Storage
  import opened Protocol
  import opened PublishSteps
  import opened Backends
  import opened Releases
  import opened Manager
  import Coordinator

  /** From call number `from` on, which finds `s`, nobody is logged in as the publisher and nobody logs in. */
  ghost predicate AloneFrom(config: ServiceConfig, env: (nat, State) -> State, from: nat, s: State) {
    Unvisited(config, s) &&
    forall n: nat, t :: n >= from && Inv(config, t) && Unvisited(config, t) ==> Unvisited(config, env(n, t))
  }

  /** One call of a stage, whatever fault hits it, leaves the publisher wired as it was. */
  lemma StepStaysWired(config: ServiceConfig, releases: set<string>, step: Step)
    requires PublisherStep(config, releases, step.before, step.after)
    requires Happens(step.op, step.before, step.after, step.raised, step.fault) && !step.fault.Reidentify?
    requires Wired(config, step.before)
    ensures Wired(config, step.after) && IdentitySame(config, step.before, step.after)
  {
    hide NormalizeDiskId, LunTable;
    NaaKept(step);
  }

  lemma NaaKept(step: Step)
    requires Happens(step.op, step.before, step.after, step.raised, step.fault) && !step.fault.Reidentify?
    ensures forall e :: e in step.before.extents ==>
              e in step.after.extents && step.after.extents[e].naa == step.before.extents[e].naa &&
              step.after.extents[e].serial == step.before.extents[e].serial
  {
  }

  lemma {:induction false} LogStaysWired(
    config: ServiceConfig, releases: set<string>, env: (nat, State) -> State, start: State, log: seq<Step>,
    from: nat, upto: nat)
    requires WellFormed(config) && PublisherEnvOk(config, env) && Linked(env, start, log) && from <= upto <= |log|
    requires forall i :: from <= i < upto ==>
               PublisherStep(config, releases, log[i].before, log[i].after) && !log[i].fault.Reidentify?
    requires Inv(config, StateAfter(start, log, from)) && Wired(config, StateAfter(start, log, from))
    ensures Inv(config, StateAfter(start, log, upto)) && Wired(config, StateAfter(start, log, upto))
    ensures IdentitySame(config, StateAfter(start, log, from), StateAfter(start, log, upto))
    decreases upto
  {
    hide Inv, WellFormed, PublisherStep, PublisherRely, Wired, Happens, IdentitySame;
    if from == upto {
      SameAsBefore(config, StateAfter(start, log, from));
    } else {
      LogStaysWired(config, releases, env, start, log, from, upto - 1);
      var s, step := StateAfter(start, log, upto - 1), log[upto - 1];
      assert LinkedAt(env, start, log, upto - 1);
      ReleaseManager.WiredKept(config, s, step.before);
      StepStaysWired(config, releases, step);
      PublisherKeepsInv(config, releases, step.before, step.after);
      RelyKeepsIdentity(config, s, step.before);
      IdentityThrough(config, s, step.before, step.after);
      IdentityThrough(config, StateAfter(start, log, from), s, step.after);
    }
  }

  lemma SameAsBefore(config: ServiceConfig, s: State)
    ensures IdentitySame(config, s, s)
  {
  }

  lemma RelyKeepsIdentity(config: ServiceConfig, s: State, t: State)
    requires PublisherRely(config, s, t)
    ensures IdentitySame(config, s, t)
  {
  }

  lemma IdentityThrough(config: ServiceConfig, s: State, t: State, u: State)
    requires IdentitySame(config, s, t) && IdentitySame(config, t, u)
    ensures IdentitySame(config, s, u)
  {
  }

  lemma AttemptStaysWired(
    config: ServiceConfig, releases: set<string>, env: (nat, State) -> State, faults: nat -> Fault, start: State,
    before: seq<Step>, log: seq<Step>)
    requires WellFormed(config) && PublisherEnvOk(config, env) && Linked(env, start, log) && OnlyFailures(faults)
    requires PublisherTrail(config, releases, faults, Working, before, log)
    requires Inv(config, StateAfter(start, before, |before|)) && Wired(config, StateAfter(start, before, |before|))
    ensures Wired(config, StateAfter(start, log, |log|))
    ensures IdentitySame(config, StateAfter(start, before, |before|), StateAfter(start, log, |log|))
  {
    hide Inv, WellFormed, PublisherStep, Linked, Wired, IdentitySame;
    assert StateAfter(start, before, |before|) == StateAfter(start, log, |before|);
    forall i | |before| <= i < |log|
      ensures PublisherStep(config, releases, log[i].before, log[i].after) && !log[i].fault.Reidentify?
    {
      assert PublisherOwnStep(config, releases, faults(i), Working, log[i]);
    }
    LogStaysWired(config, releases, env, start, log, |before|, |log|);
  }

  /** A request, once it has a release, keeps that release and its name. */
  lemma RequestKeepsName(db: Db, next: Db, requestId: string, name: string, later: string)
    requires DbInv(next) && Later(db, next)
    requires name in db.releases && db.releases[name].requestId == requestId
    requires later in next.releases && next.releases[later].requestId == requestId
    ensures later == name
  {
  }

  ghost predicate MastersOn(config: ServiceConfig, s: State) {
    forall p :: p in config.publisher.volumes ==> On(p.extentId, s)
  }

  lemma KeptAreOn(config: ServiceConfig, s: State, t: State)
    requires ReleaseManager.PublisherKept(config, s, t)
    ensures MastersOn(config, t)
  {
  }

  lemma KeptSinceStart(config: ServiceConfig, s: State, t: State)
    requires Wired(config, s) && Wired(config, t) && IdentitySame(config, s, t) && MastersOn(config, t)
    ensures ReleaseManager.PublisherKept(config, s, t)
  {
  }

  /** A request is staged by an attempt that answers, and only by one that switched the masters back on. */
  lemma StagedByAnswer(db: Db, next: Db, requestId: string)
    requires DbInv(next) && Later(db, next) && ReleaseManager.NothingStaged(db, next)
    ensures ReleaseManager.AlreadyStaged(next, requestId) ==> ReleaseManager.AlreadyStaged(db, requestId)
  {
  }

  // ---- The log of many attempts ----

  /** A step made when fewer releases were known is one made now, if none of the new ones had a snapshot. */
  lemma StepWidens(config: ServiceConfig, few: set<string>, many: set<string>, s: State, t: State)
    requires PublisherStep(config, few, s, t) && ReleaseManager.NewNamesFree(config, few, many, s)
    ensures PublisherStep(config, many, s, t)
  {
    hide Taken;
    forall e | e in s.extents && !s.extents[e].enabled && t.extents[e].enabled
      ensures MayPublish(config, many, s, e)
    {
      assert MayPublish(config, few, s, e);
      forall r | r in many
        ensures !Partial(config, r, s)
      {
        if r !in few { PartialIsTaken(config, r, s); }
      }
    }
  }

  lemma PartialIsTaken(config: ServiceConfig, release: string, s: State)
    ensures Partial(config, release, s) ==> Taken(config, release, s)
  {
  }

  /** What a stretch of the publisher's log leads to grows out of the state before each of its calls. */
  lemma {:induction false} LogGrows(
    config: ServiceConfig, releases: set<string>, env: (nat, State) -> State, start: State, log: seq<Step>,
    from: nat, upto: nat)
    requires WellFormed(config) && PublisherEnvOk(config, env) && Linked(env, start, log) && from <= upto <= |log|
    requires forall i :: from <= i < upto ==> PublisherStep(config, releases, log[i].before, log[i].after)
    requires Inv(config, StateAfter(start, log, from))
    ensures Inv(config, StateAfter(start, log, upto))
    ensures forall i :: from <= i < upto ==> Grows(log[i].before, StateAfter(start, log, upto))
    decreases upto
  {
    hide Inv, WellFormed, PublisherRely, Happens, Grows, PublisherStep;
    if from != upto {
      LogGrows(config, releases, env, start, log, from, upto - 1);
      var s, step := StateAfter(start, log, upto - 1), log[upto - 1];
      assert LinkedAt(env, start, log, upto - 1);
      PublisherKeepsInv(config, releases, step.before, step.after);
      RelyAndStepGrow(config, releases, s, step.before, step.after);
      forall i | from <= i < upto - 1
        ensures Grows(log[i].before, step.after)
      {
        GrowsTransitive(log[i].before, s, step.after);
      }
    }
  }

  lemma RelyAndStepGrow(config: ServiceConfig, releases: set<string>, s: State, t: State, u: State)
    requires PublisherRely(config, s, t) && PublisherStep(config, releases, t, u)
    ensures Grows(t, u) && Grows(s, u)
  {
    GrowsTransitive(s, t, u);
  }

  /**
   * From entry `from` on, which found `s0`, every entry of the log is a step of the publisher as it would
   * be made knowing all the releases known now, which were free in `s0` or known then.
   */
  ghost predicate StageLog(
    config: ServiceConfig, known: set<string>, releases: set<string>, s0: State, from: nat, log: seq<Step>, s: State)
  {
    && ReleaseManager.NewNamesFree(config, known, releases, s0)
    && from <= |log| && Grows(s0, s)
    && forall i :: from <= i < |log| ==>
         PublisherStep(config, releases, log[i].before, log[i].after) && Grows(log[i].before, s)
  }

  lemma StageLogNext(
    config: ServiceConfig, env: (nat, State) -> State, faults: nat -> Fault, start: State, known: set<string>,
    few: set<string>, many: set<string>, s0: State, from: nat, before: seq<Step>, log: seq<Step>)
    requires WellFormed(config) && PublisherEnvOk(config, env) && Linked(env, start, log)
    requires PublisherTrail(config, many, faults, Working, before, log)
    requires Inv(config, StateAfter(start, before, |before|))
    requires Grows(StateAfter(start, before, |before|), StateAfter(start, log, |log|))
    requires StageLog(config, known, few, s0, from, before, StateAfter(start, before, |before|))
    requires ReleaseManager.NewNamesFree(config, few, many, StateAfter(start, before, |before|))
    ensures StageLog(config, known, many, s0, from, log, StateAfter(start, log, |log|))
  {
    hide Inv, WellFormed, PublisherStep, PublisherEnvOk, Linked, Grows, ReleaseManager.NewNamesFree;
    var s, t := StateAfter(start, before, |before|), StateAfter(start, log, |log|);
    assert s == StateAfter(start, log, |before|);
    forall i | |before| <= i < |log|
      ensures PublisherStep(config, many, log[i].before, log[i].after)
    {
      assert PublisherOwnStep(config, many, faults(i), Working, log[i]);
    }
    LogGrows(config, many, env, start, log, |before|, |log|);
    forall i | from <= i < |before|
      ensures PublisherStep(config, many, log[i].before, log[i].after) && Grows(log[i].before, t)
    {
      assert log[i] == before[i];
      ReleaseManager.NamesFreeBefore(config, few, many, log[i].before, s);
      StepWidens(config, few, many, log[i].before, log[i].after);
      GrowsTransitive(log[i].before, s, t);
    }
    GrowsTransitive(s0, s, t);
    ReleaseManager.NamesFreeBefore(config, few, many, s0, s);
    NamesFreeJoin(config, known, few, many, s0);
  }

  lemma NamesFreeJoin(config: ServiceConfig, known: set<string>, few: set<string>, many: set<string>, s: State)
    requires ReleaseManager.NewNamesFree(config, known, few, s) && ReleaseManager.NewNamesFree(config, few, many, s)
    ensures ReleaseManager.NewNamesFree(config, known, many, s)
  {
    hide Taken;
  }

  /**
   * After any finite number of attempts, each failing wherever its adversary likes, and whoever logs in
   * meanwhile, one more `stage` with the same request id and without failures, which starts at call
   * number `last`, publishes the release unless somebody is or gets logged in as the publisher. A name
   * reserved on the way is kept, no snapshot is changed, and the masters are on as they were before the
   * first attempt. The log is one of publisher steps, as if all releases had been known from the start.
   */
  method StageUntilReleased(manager: ReleaseManager, requestId: string, dates: seq<string>, adversaries: seq<nat -> Fault>)
    returns (r: Result<ReleaseRecord>, ghost last: nat)
    requires manager.Tracks() && !manager.locked && !manager.store.readOnly
    requires ReleaseManager.Link(manager.config, manager.store.View(), manager.backend.View())
    requires Wired(manager.config, manager.backend.View()) && ReleaseManager.DistinctDatasets(manager.config)
    requires ReleaseManager.OnlyMine(manager.store.View(), requestId)
    requires |dates| == |adversaries| + 1 && forall f :: f in adversaries ==> OnlyFailures(f)
    modifies manager`locked, manager.backend, manager.store
    ensures manager.Tracks()
    ensures |old(manager.backend.trace)| <= last <= |manager.backend.trace|
    ensures (AloneFrom(manager.config, manager.backend.env, last,
                       StateAfter(manager.backend.start, manager.backend.trace, last))) ==> r.Ok?
    ensures r.Ok? ==> r.value.requestId == requestId && StagedIn(manager.store.View(), r.value.name)
    ensures r.Ok? ==> r.value == Record(manager.store.View(), r.value.name)
    ensures r.Ok? ==> Complete(manager.config, r.value.name, manager.backend.View())
    ensures r.Ok? ==> OnlyRelease(old(manager.store.View()), requestId, r.value.name)
    ensures r.Ok? && !ReleaseManager.AlreadyStaged(old(manager.store.View()), requestId) ==>
              ReleaseManager.PublisherKept(manager.config, old(manager.backend.View()), manager.backend.View())
    ensures manager.store.active == old(manager.store.active)
    ensures Later(old(manager.store.View()), manager.store.View())
    ensures old(manager.backend.trace) <= manager.backend.trace
    ensures StageLog(manager.config, old(manager.store.releases.Keys), manager.store.releases.Keys,
                     old(manager.backend.View()), |old(manager.backend.trace)|, manager.backend.trace,
                     manager.backend.View())
  {
    hide Inv, WellFormed, PublisherStep, Linked, Wired, PublisherTrail, PublisherEnvOk, Grows, StateAfter, OnlyFailures,
         ReleaseManager.Link, ReleaseManager.DistinctDatasets, Later, AloneFrom, Complete, Expected, SnapshotsOf,
         ReleaseManager.PublisherKept, PublisherFailClosed, ReleaseManager.QuietEnd, PublisherLuns, DbInv,
         IdentitySame, MastersOn, ReleaseManager.AlreadyStaged, ReleaseManager.NothingStaged, Happens,
         StageLog, ReleaseManager.NewNamesFree;
    var backend := manager.backend;
    ghost var db0, s0, from := manager.store.View(), backend.View(), |backend.trace|;
    StageLogNil(manager.config, db0.releases.Keys, s0, backend.trace);
    ReleaseManager.LaterNil(db0);
    ReleaseManager.LookNil(manager.config, s0, backend.trace, backend.faults);
    SameAsBefore(manager.config, s0);
    for i := 0 to |adversaries|
      invariant manager.Tracks() && !manager.locked && manager.store.active == old(manager.store.active)
      invariant ReleaseManager.Link(manager.config, manager.store.View(), backend.View())
      invariant Wired(manager.config, backend.View()) && ReleaseManager.OnlyMine(manager.store.View(), requestId)
      invariant Later(db0, manager.store.View())
      invariant Grows(s0, backend.View()) && IdentitySame(manager.config, s0, backend.View())
      invariant old(backend.trace) <= backend.trace
      invariant StageLog(manager.config, db0.releases.Keys, manager.store.releases.Keys, s0, from, backend.trace,
                         backend.View())
      invariant ReleaseManager.AlreadyStaged(manager.store.View(), requestId) ==>
                  ReleaseManager.AlreadyStaged(db0, requestId) || MastersOn(manager.config, backend.View())
    {
      backend.SetFaults(adversaries[i]);
      assert adversaries[i] in adversaries;
      ghost var before, db, s := backend.trace, manager.store.View(), backend.View();
      assert backend.View() == StateAfter(backend.start, before, |before|);
      ghost var answer, moved := manager.Stage(requestId, dates[i]);
      ReleaseManager.LinkInv(manager.config, manager.store.View(), backend.View());
      if answer.Err? { StagedByAnswer(db, manager.store.View(), requestId); }
      if answer.Ok? && moved { KeptAreOn(manager.config, s, backend.View()); }
      GrowsTransitive(s0, s, backend.View());
      AttemptStaysWired(manager.config, manager.store.releases.Keys, backend.env, backend.faults, backend.start, before,
                        backend.trace);
      StageLogNext(manager.config, backend.env, backend.faults, backend.start, db0.releases.Keys, db.releases.Keys,
                   manager.store.releases.Keys, s0, from, before, backend.trace);
      PublisherTrailPrefix(manager.config, manager.store.releases.Keys, backend.faults, Working, before, backend.trace);
      IdentityThrough(manager.config, s0, s, backend.View());
      StillMine(db, manager.store.View(), requestId);
      LaterTransitive(db0, db, manager.store.View());
    }
    backend.SetFaults(n => NoFault);
    ghost var db, s, before := manager.store.View(), backend.View(), backend.trace;
    assert backend.View() == StateAfter(backend.start, before, |before|);
    last := |before|;
    if AloneFrom(manager.config, backend.env, last, s) { Quiet(manager); }
    ghost var mutated;
    r, mutated := manager.Stage(requestId, dates[|adversaries|]);
    StageLogNext(manager.config, backend.env, backend.faults, backend.start, db0.releases.Keys, db.releases.Keys,
                 manager.store.releases.Keys, s0, from, before, backend.trace);
    PublisherTrailPrefix(manager.config, manager.store.releases.Keys, backend.faults, Working, before, backend.trace);
    SameUpTo(backend.start, before, backend.trace);
    NoFaultsOnlyFail(backend.faults);
    AttemptStaysWired(manager.config, manager.store.releases.Keys, backend.env, backend.faults, backend.start, before,
                      backend.trace);
    IdentityThrough(manager.config, s0, s, backend.View());
    GrowsTransitive(s0, s, backend.View());
    if mutated && r.Ok? { KeptAreOn(manager.config, s, backend.View()); }
    if MastersOn(manager.config, backend.View()) { KeptSinceStart(manager.config, s0, backend.View()); }
    LaterTransitive(db0, db, manager.store.View());
    ReleaseManager.LinkInv(manager.config, manager.store.View(), backend.View());
    if r.Ok? { SameName(db0, manager.store.View(), requestId, r.value.name); }
  }

  lemma StageLogNil(config: ServiceConfig, known: set<string>, s: State, log: seq<Step>)
    ensures StageLog(config, known, known, s, |log|, log, s)
  {
  }

  /** The request has no other release than this one. */
  ghost predicate OnlyRelease(db: Db, requestId: string, name: string) {
    forall n :: n in db.releases && db.releases[n].requestId == requestId ==> n == name
  }

  lemma NoFaultsOnlyFail(faults: nat -> Fault)
    requires forall n: nat :: faults(n).NoFault?
    ensures OnlyFailures(faults)
  {
  }

  lemma SameName(db: Db, next: Db, requestId: string, later: string)
    requires DbInv(next) && Later(db, next) && later in next.releases && next.releases[later].requestId == requestId
    ensures OnlyRelease(db, requestId, later)
  {
  }

  lemma StillMine(db: Db, next: Db, requestId: string)
    requires ReleaseManager.OnlyMine(db, requestId) && Later(db, next)
    requires forall n :: IncompleteIn(next, n) && !IncompleteIn(db, n) ==> next.releases[n].requestId == requestId
    ensures ReleaseManager.OnlyMine(next, requestId)
  {
  }

  lemma Quiet(manager: ReleaseManager)
    requires AloneFrom(manager.config, manager.backend.env, manager.backend.calls, manager.backend.View())
    requires forall n: nat :: manager.backend.faults(n).NoFault?
    ensures manager.Undisturbed()
  {
  }

  /** Surroundings that do nothing disturb no stage. */
  lemma IdleDisturbsNothing(manager: ReleaseManager)
    requires forall n: nat, s :: manager.backend.env(n, s) == s
    requires forall n: nat :: n >= manager.backend.calls ==> manager.backend.faults(n).NoFault?
    ensures manager.Undisturbed() <==> Unvisited(manager.config, manager.backend.View())
    ensures PublisherEnvOk(manager.config, manager.backend.env)
    ensures forall from: nat, s :: Unvisited(manager.config, s) ==>
              AloneFrom(manager.config, manager.backend.env, from, s)
  {
  }

  /** While the stored releases agree with the configuration, every reset can use the active one. */
  lemma ActiveIsUsable(config: ServiceConfig, db: Db, s: State)
    requires WellFormed(config) && ReleaseManager.Link(config, db, s) && db.active.Some?
    ensures Coordinator.ResetCoordinator.ActiveUsable(config, db)
  {
    hide SnapshotPath;
    var active := db.active.value;
    ReleaseManager.StagedComplete(config, db, s, active);
    assert Expected(config, active).Keys == PublisherNames(config);
  }
}
