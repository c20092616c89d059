/**
 * Resets over many attempts. The log of a reset is its whole history, so what a failed or crashed
 * attempt leaves behind can be read off the log alone.
 */
module Recovery {
  import opened Results
  import opened Topology
  import opened Storage
  import opened Protocol
  import opened ResetSteps
  import opened Backends
  import opened Releases
  import opened Names
  import opened Coordinator

  /** The other tasks never take a clone path of this release. */
  ghost predicate KeepsOff(config: ServiceConfig, client: Client, release: string, env: (nat, State) -> State) {
    forall n: nat, s :: Inv(config, s) ==> PathsFree(client, release, s, env(n, s))
  }

  /** From call number `from` on, which finds `s`, nobody is logged in as the client and nobody logs in. */
  ghost predicate AloneFrom(config: ServiceConfig, client: Client, env: (nat, State) -> State, from: nat, s: State) {
    Clear(client, s) && forall n: nat, t :: n >= from && Inv(config, t) && Clear(client, t) ==> Clear(client, env(n, t))
  }

  lemma OwnStepKeepsIdentity(client: Client, step: Step)
    requires Happens(step.op, step.before, step.after, step.raised, step.fault) && !step.fault.Reidentify?
    ensures SameIdentity(client, step.before, step.after)
  {
    hide NormalizeZvol;
    assert Effect(step.before, step.op).Some? ==>
      step.after == step.before || step.after == Effect(step.before, step.op).value;
  }

  /** A clone path that appears in a reset of `release` appears as this client's verified clone. */
  lemma OwnStepKeepsClonable(config: ServiceConfig, client: Client, w: Volume, release: string, step: Step)
    requires WellFormed(config) && client in config.clients && w in client.volumes && '/' !in release
    requires ClientStep(config, client, step.before, step.after)
    requires Allowed(config, client, Creates(release), step)
    requires Happens(step.op, step.before, step.after, step.raised, step.fault)
    requires Clonable(config, client, w, release, step.before)
    ensures Clonable(config, client, w, release, step.after)
  {
    hide CloneDataset, MasterDataset, WellFormed, Verified, Clonable;
    var d := CloneDataset(client, w, release);
    if d in step.after.datasets && d !in step.before.datasets {
      NewDatasetMeansClone(step, d);
      var v :| v in client.volumes && step.op == CloneOp(config, client, v, release);
      if v.name != w.name {
        SlashFree(config, client, v);
        SlashFree(config, client, w);
        ClonePathsDiffer(client, v, w, release);
        assert false;
      } else {
        VolumeByName(config, client, v, w);
        NewCloneVerifies(config, client, w, release, step);
      }
    } else {
      ClonableKept(config, client, w, release, step.before, step.after);
    }
  }

  lemma NewDatasetMeansClone(step: Step, d: string)
    requires Happens(step.op, step.before, step.after, step.raised, step.fault)
    requires d in step.after.datasets && d !in step.before.datasets
    ensures step.op.CloneSnapshot? && step.op.destination == d
  {
  }

  lemma NewCloneVerifies(config: ServiceConfig, client: Client, w: Volume, release: string, step: Step)
    requires step.op == CloneOp(config, client, w, release)
    requires Happens(step.op, step.before, step.after, step.raised, step.fault)
    requires Clonable(config, client, w, release, step.before)
    ensures Clonable(config, client, w, release, step.after)
  {
  }

  lemma SlashFree(config: ServiceConfig, client: Client, v: Volume)
    requires WellFormed(config) && client in config.clients && v in client.volumes
    ensures '/' !in v.name
  {
  }

  /** One call of a reset of `release`, whatever fault hits it, keeps the reset possible. */
  lemma StepSurvives(config: ServiceConfig, client: Client, release: string, step: Step)
    requires WellFormed(config) && client in config.clients && '/' !in release
    requires ClientStep(config, client, step.before, step.after)
    requires Allowed(config, client, Creates(release), step)
    requires Happens(step.op, step.before, step.after, step.raised, step.fault) && !step.fault.Reidentify?
    requires Checked(config, client, release, step.before)
    ensures Checked(config, client, release, step.after) && SameIdentity(client, step.before, step.after)
  {
    hide Clonable, WellFormed, StableId, LunTable, Allowed, Happens;
    OwnStepKeepsIdentity(client, step);
    forall v | v in client.volumes
      ensures v.extentId in step.after.extents && StableId(v, step.after.extents[v.extentId]) != ""
      ensures Clonable(config, client, v, release, step.after)
    {
      assert v.extentId in ExtentIds(client);
      StableIdSame(v, step.before.extents[v.extentId], step.after.extents[v.extentId]);
      OwnStepKeepsClonable(config, client, v, release, step);
    }
  }

  lemma StableIdSame(v: Volume, a: Extent, b: Extent)
    requires a.naa == b.naa
    ensures StableId(v, a) == StableId(v, b)
  {
  }

  lemma EnvSurvives(config: ServiceConfig, client: Client, release: string, s: State, t: State)
    requires Rely(client, s, t) && PathsFree(client, release, s, t) && Checked(config, client, release, s)
    ensures Checked(config, client, release, t) && SameIdentity(client, s, t)
  {
  }

  /** However far an attempt came, the next one starts from a state it can be prepared in. */
  lemma {:induction false} LogSurvives(
    config: ServiceConfig, client: Client, release: string, env: (nat, State) -> State, start: State,
    log: seq<Step>, from: nat, upto: nat)
    requires WellFormed(config) && client in config.clients && '/' !in release
    requires EnvOk(config, client, env) && KeepsOff(config, client, release, env)
    requires from <= upto <= |log| && Linked(env, start, log)
    requires forall i :: from <= i < upto ==>
               ClientStep(config, client, log[i].before, log[i].after) &&
               Allowed(config, client, Creates(release), log[i]) && !log[i].fault.Reidentify?
    requires Inv(config, StateAfter(start, log, from)) && Checked(config, client, release, StateAfter(start, log, from))
    ensures Inv(config, StateAfter(start, log, upto)) && Checked(config, client, release, StateAfter(start, log, upto))
    ensures SameIdentity(client, StateAfter(start, log, from), StateAfter(start, log, upto))
    decreases upto
  {
    hide Inv, Checked, WellFormed, ClientStep, Allowed, Rely, PathsFree, Happens, SameIdentity;
    if from == upto {
      ResetCoordinator.SameIdentityReflexive(client, StateAfter(start, log, from));
    } else {
      LogSurvives(config, client, release, env, start, log, from, upto - 1);
      var s, step := StateAfter(start, log, upto - 1), log[upto - 1];
      assert LinkedAt(env, start, log, upto - 1);
      EnvSurvives(config, client, release, s, step.before);
      StepSurvives(config, client, release, step);
      ClientKeepsInv(config, client, step.before, step.after);
      ResetCoordinator.SameIdentityTransitive(client, s, step.before, step.after);
      ResetCoordinator.SameIdentityTransitive(client, StateAfter(start, log, from), s, step.after);
    }
  }

  lemma AttemptSurvives(
    config: ServiceConfig, client: Client, release: string, env: (nat, State) -> State, faults: nat -> Fault, start: State,
    before: seq<Step>, log: seq<Step>)
    requires WellFormed(config) && client in config.clients && '/' !in release
    requires EnvOk(config, client, env) && KeepsOff(config, client, release, env) && OnlyFailures(faults)
    requires Linked(env, start, log) && Trail(config, client, faults, Creates(release), before, log)
    requires Inv(config, StateAfter(start, before, |before|))
    requires Checked(config, client, release, StateAfter(start, before, |before|))
    ensures Checked(config, client, release, StateAfter(start, log, |log|))
    ensures SameIdentity(client, StateAfter(start, before, |before|), StateAfter(start, log, |log|))
  {
    hide Inv, Checked, WellFormed, ClientStep, Allowed, Linked, EnvOk, KeepsOff, SameIdentity;
    assert StateAfter(start, before, |before|) == StateAfter(start, log, |before|);
    forall i | |before| <= i < |log|
      ensures ClientStep(config, client, log[i].before, log[i].after)
      ensures Allowed(config, client, Creates(release), log[i]) && !log[i].fault.Reidentify?
    {
      assert OwnStep(config, client, faults(i), Creates(release), log[i]);
    }
    LogSurvives(config, client, release, env, start, log, |before|, |log|);
  }

  /**
   * After any finite number of attempts, each failing wherever its adversary likes, before or after
   * the effect of a call, and whoever logs in meanwhile, one more attempt without failures, which
   * starts at call number `last`, answers ready unless somebody is or gets logged in as the client.
   * Ready comes with the disk identities of before the first attempt.
   */
  method PrepareUntilReady(coordinator: ResetCoordinator, client: Client, adversaries: seq<nat -> Fault>)
    returns (r: Result<ClientResponse>, ghost last: nat)
    requires coordinator.Tracks(client) && client.name !in coordinator.busy
    requires ResetCoordinator.ActiveUsable(coordinator.config, coordinator.store.View())
    requires KeepsOff(coordinator.config, client, coordinator.store.active.value, coordinator.backend.env)
    requires forall f :: f in adversaries ==> OnlyFailures(f)
    requires Preparable(coordinator.config, client, coordinator.store.active.value, coordinator.backend.View())
    modifies coordinator`busy, coordinator.backend
    ensures |old(coordinator.backend.trace)| <= last <= |coordinator.backend.trace|
    ensures (AloneFrom(coordinator.config, client, coordinator.backend.env, last,
                       StateAfter(coordinator.backend.start, coordinator.backend.trace, last))) ==> r.Ok?
    ensures r.Ok? ==> Ready(coordinator.config, client, coordinator.store.active.value, coordinator.backend.View())
    ensures r.Ok? ==> IdentityKept(client, old(coordinator.backend.View()), coordinator.backend.View())
  {
    hide Inv, Checked, WellFormed, ClientStep, Allowed, Linked, EnvOk, KeepsOff, Usable, Record, Rely, Grows, Ready,
         OnlyFailures, Trail, NoMatch, StateAfter, PathsReadBack, SameIdentity, IdentityKept, AllReady;
    var backend := coordinator.backend;
    ghost var s0 := backend.View();
    ResetCoordinator.SameIdentityReflexive(client, s0);
    ghost var release := coordinator.store.active.value;
    for i := 0 to |adversaries|
      invariant coordinator.Tracks(client) && client.name !in coordinator.busy
      invariant Checked(coordinator.config, client, release, backend.View())
      invariant SameIdentity(client, s0, backend.View()) && backend.View().extents.Keys == s0.extents.Keys
      invariant |old(backend.trace)| <= |backend.trace|
    {
      backend.SetFaults(adversaries[i]);
      assert adversaries[i] in adversaries;
      ghost var before, s := backend.trace, backend.View();
      assert s == StateAfter(backend.start, before, |before|);
      var _, _ := coordinator.Prepare(client);
      AttemptSurvives(coordinator.config, client, release, backend.env, backend.faults, backend.start, before, backend.trace);
      TrailPrefix(coordinator.config, client, backend.faults, Creates(release), before, backend.trace);
      ResetCoordinator.SameIdentityTransitive(client, s0, s, backend.View());
      ResetCoordinator.GrowsKeys(s, backend.View());
    }
    backend.SetFaults(n => NoFault);
    ghost var mutated, s, before := false, backend.View(), backend.trace;
    last := |before|;
    if AloneFrom(coordinator.config, client, backend.env, last, s) { Quiet(coordinator, client, release); }
    r, mutated := coordinator.Prepare(client);
    TrailPrefix(coordinator.config, client, backend.faults, Creates(release), before, backend.trace);
    SameUpTo(backend.start, before, backend.trace);
    if r.Ok? { IdentitySince(client, s0, s, backend.View()); }
  }

  lemma IdentitySince(client: Client, s: State, t: State, u: State)
    requires SameIdentity(client, s, t) && IdentityKept(client, t, u) && t.extents.Keys == s.extents.Keys
    ensures IdentityKept(client, s, u)
  {
  }

  lemma ReadyIsAllReady(config: ServiceConfig, client: Client, release: string, s: State)
    requires Ready(config, client, release, s)
    ensures AllReady(config, client, release, s)
  {
  }

  /** Once a client is ready, resets of the same release create nothing, whatever happens to them. */
  method PrepareAgain(coordinator: ResetCoordinator, client: Client) returns (r: Result<ClientResponse>)
    requires coordinator.Tracks(client) && coordinator.store.active.Some?
    requires Ready(coordinator.config, client, coordinator.store.active.value, coordinator.backend.View())
    modifies coordinator`busy, coordinator.backend
    ensures forall i :: |old(coordinator.backend.trace)| <= i < |coordinator.backend.trace| ==>
              !coordinator.backend.trace[i].op.CloneSnapshot? && !coordinator.backend.trace[i].op.CreateSnapshot?
    ensures AllReady(coordinator.config, client, coordinator.store.active.value, coordinator.backend.View())
  {
    hide Inv, WellFormed, ClientStep, Linked, EnvOk, Usable, Record, Rely, Grows, Ready, NoMatch, StateAfter,
         PathsReadBack, SameIdentity, IdentityKept, AllReady, Happens;
    ghost var s := coordinator.backend.View();
    ReadyIsAllReady(coordinator.config, client, coordinator.store.active.value, s);
    ghost var mutated;
    r, mutated := coordinator.Prepare(client);
    coordinator.AllReadyKept(client, coordinator.store.active.value, s, coordinator.backend.View());
  }

  lemma Quiet(coordinator: ResetCoordinator, client: Client, release: string)
    requires KeepsOff(coordinator.config, client, release, coordinator.backend.env)
    requires AloneFrom(coordinator.config, client, coordinator.backend.env, coordinator.backend.calls,
                       coordinator.backend.View())
    requires forall n: nat :: coordinator.backend.faults(n).NoFault?
    ensures coordinator.Undisturbed(client, release) && Clear(client, coordinator.backend.View())
  {
  }

  /** Surroundings that do nothing disturb no reset. */
  lemma IdleDisturbsNothing(coordinator: ResetCoordinator, client: Client, release: string)
    requires forall n: nat, s :: coordinator.backend.env(n, s) == s
    requires forall n: nat :: n >= coordinator.backend.calls ==> coordinator.backend.faults(n).NoFault?
    ensures coordinator.Undisturbed(client, release)
    ensures EnvOk(coordinator.config, client, coordinator.backend.env)
    ensures KeepsOff(coordinator.config, client, release, coordinator.backend.env)
    ensures forall from: nat, s :: Clear(client, s) ==>
              AloneFrom(coordinator.config, client, coordinator.backend.env, from, s)
  {
  }

  /**
   * The dry run is sound exactly when every clone path reads back unchanged: if `validate` finds
   * nothing, so also no session, and neither storage nor store is disturbed, `prepare` answers ready
   * if and only if no clone path begins with zvol/, which the backend would strip.
   */
  method DryRunThenPrepare(coordinator: ResetCoordinator, client: Client)
    returns (errors: seq<Error>, r: Result<ClientResponse>)
    requires coordinator.Tracks(client) && client.name !in coordinator.busy
    requires coordinator.store.active.Some? && '/' !in coordinator.store.active.value
    requires coordinator.Undisturbed(client, coordinator.store.active.value)
    modifies coordinator`busy, coordinator.backend
    ensures errors == [] ==> (r.Ok? <==> PathsReadBack(client, coordinator.store.active.value))
  {
    hide Inv, WellFormed, ClientStep, Linked, EnvOk, Usable, Record, Rely, Grows, NoMatch, StateAfter, PathsReadBack,
         Trail, PathsFree, Checked;
    errors := coordinator.Validate(client);
    if errors == [] {
      coordinator.DryMeansChecked(client, coordinator.store.active.value, coordinator.backend.View());
    }
    ghost var mutated;
    r, mutated := coordinator.Prepare(client);
  }
}
