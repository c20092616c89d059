/** What each storage call of a reset does to the facts the reset builds up. */
module ResetSteps {
  import opened Results
  import opened Topology
  import opened Storage
  import opened Protocol
  import opened Backends
  import opened Guards

  /** What a reset must not find: a login as the client, by any of its identities. */
  function GuardOf(client: Client): Guard {
    Guard(client.initiatorIqn, client.sourceIp, client.targetIqn, ExtentIds(client))
  }

  // ---- The log of a process ----

  /**
   * Reads leave the state alone; disabling enables nothing; updates may enable what is restored to
   * `release`; only the last mode makes the clones and clean snapshots of `release`.
   */
  datatype Mode = Reads | Disables | Updates(release: string) | Creates(release: string)

  ghost predicate Allowed(config: ServiceConfig, client: Client, mode: Mode, step: Step) {
    match mode
    case Reads => IsRead(step.op) && step.after == step.before
    case Disables => !Makes(step.op) && !Enables(step.before, step.after)
    case Updates(r) => !Makes(step.op) && (Enables(step.before, step.after) ==> Restored(config, client, r, step.before))
    case Creates(r) =>
      (Makes(step.op) ==> MakesFor(config, client, r, step.op)) &&
      (Enables(step.before, step.after) ==> Restored(config, client, r, step.before))
  }

  predicate Makes(op: Op) {
    op.CloneSnapshot? || op.CreateSnapshot?
  }

  ghost predicate Enables(s: State, t: State) {
    exists e :: e in s.extents && e in t.extents && !s.extents[e].enabled && t.extents[e].enabled
  }

  ghost predicate MakesFor(config: ServiceConfig, client: Client, release: string, op: Op) {
    exists v :: v in client.volumes && (op == CloneOp(config, client, v, release) || op == CleanOp(client, v, release))
  }

  function CloneOp(config: ServiceConfig, client: Client, v: Volume, release: string): Op {
    CloneSnapshot(SnapshotPath(config, v.name, release), CloneDataset(client, v, release),
                  CloneProperties(client.name, v.name, release))
  }

  function CleanOp(client: Client, v: Volume, release: string): Op {
    CreateSnapshot(CloneDataset(client, v, release), CLEAN)
  }

  /**
   * `log` extends `start`, every new entry is a step a reset of `client` may make, and the n-th
   * entry fared as the adversary decided for the n-th call.
   */
  ghost predicate Trail(
    config: ServiceConfig, client: Client, faults: nat -> Fault, mode: Mode, start: seq<Step>, log: seq<Step>)
  {
    && start <= log
    && (forall i :: |start| <= i < |log| ==> OwnStep(config, client, faults(i), mode, log[i]))
  }

  ghost predicate OwnStep(config: ServiceConfig, client: Client, fault: Fault, mode: Mode, step: Step) {
    && ClientStep(config, client, step.before, step.after)
    && Allowed(config, client, mode, step)
    && step.fault == fault
  }

  predicate Within(m: Mode, mode: Mode) {
    m == mode || m.Reads? || (m.Disables? && !mode.Reads?) || (m.Updates? && mode == Creates(m.release))
  }

  lemma TrailPrefix(config: ServiceConfig, client: Client, faults: nat -> Fault, mode: Mode, a: seq<Step>, b: seq<Step>)
    requires Trail(config, client, faults, mode, a, b)
    ensures a <= b
  {
  }

  lemma TrailNil(config: ServiceConfig, client: Client, faults: nat -> Fault, mode: Mode, log: seq<Step>)
    ensures Trail(config, client, faults, mode, log, log)
  {
  }

  /** What only reads may stand for any other stretch of a log. */
  lemma TrailWiden(
    config: ServiceConfig, client: Client, faults: nat -> Fault, m: Mode, a: seq<Step>, b: seq<Step>, release: string)
    requires Trail(config, client, faults, m, a, b)
    ensures m.Reads? ==> Trail(config, client, faults, Disables, a, b)
    ensures m.Reads? || m.Disables? ==> Trail(config, client, faults, Updates(release), a, b)
    ensures !m.Updates? && !m.Creates? ==> Trail(config, client, faults, Creates(release), a, b)
  {
  }

  lemma TrailJoin(
    config: ServiceConfig, client: Client, faults: nat -> Fault, m: Mode, n: Mode, mode: Mode,
    a: seq<Step>, b: seq<Step>, c: seq<Step>)
    requires Trail(config, client, faults, m, a, b) && Trail(config, client, faults, n, b, c)
    requires Within(m, mode) && Within(n, mode)
    ensures Trail(config, client, faults, mode, a, c)
  {
  }

  /** The last calls of `log` disable the client's extents, and each either did so or raised. */
  ghost predicate FailClosed(client: Client, log: seq<Step>, s: State) {
    var n := |client.volumes|;
    |log| >= n &&
    forall j :: 0 <= j < n ==>
      var step := log[|log| - n + j];
      && step.op == UpdateExtent(client.volumes[j].extentId, Some(false), None)
      && (step.raised || Disabled(client.volumes[j].extentId, s))
  }

  lemma ReadsClose(
    config: ServiceConfig, client: Client, faults: nat -> Fault, before: seq<Step>, log: seq<Step>)
    requires Trail(config, client, faults, Reads, before, log)
    ensures OnlyCloses(|before|, log)
  {
    forall i | |before| <= i < |log| ensures IsRead(log[i].op) {
      assert OwnStep(config, client, faults(i), Reads, log[i]);
    }
  }

  lemma ReadsLeave(
    config: ServiceConfig, client: Client, faults: nat -> Fault, env: (nat, State) -> State, start: State,
    before: seq<Step>, log: seq<Step>)
    requires Linked(env, start, log) && Trail(config, client, faults, Reads, before, log)
    requires forall n: nat, s :: env(n, s) == s
    ensures StateAfter(start, log, |log|) == StateAfter(start, before, |before|)
  {
    hide ClientStep, Linked;
    forall i | |before| <= i < |log| ensures log[i].after == log[i].before {
      assert OwnStep(config, client, faults(i), Reads, log[i]);
    }
    LooksLeave(env, start, before, log);
  }

  ghost predicate Disabled(id: nat, s: State) {
    id in s.extents && !s.extents[id].enabled
  }

  // ---- What other tasks do meanwhile ----

  ghost predicate EnvOk(config: ServiceConfig, client: Client, env: (nat, State) -> State) {
    forall n: nat, s :: Inv(config, s) ==> Inv(config, env(n, s)) && Rely(client, s, env(n, s))
  }

  /** Nobody is logged in with an identity of the client. */
  ghost predicate Clear(client: Client, s: State) {
    NoMatch(s.sessions, client.initiatorIqn, client.sourceIp, client.targetIqn)
  }

  /** Nobody logs in as the client, and nobody takes a clone path of this release. */
  ghost predicate Calm(client: Client, release: string, s: State, t: State) {
    && (Clear(client, s) ==> Clear(client, t))
    && PathsFree(client, release, s, t)
  }

  ghost predicate PathsFree(client: Client, release: string, s: State, t: State) {
    forall v :: v in client.volumes && CloneDataset(client, v, release) in t.datasets ==>
      CloneDataset(client, v, release) in s.datasets
  }

  ghost predicate CalmCall(
    config: ServiceConfig, client: Client, release: string, fault: Fault, env: (nat, State) -> State, n: nat)
  {
    fault.NoFault? && forall s :: Inv(config, s) ==> Calm(client, release, s, env(n, s))
  }

  // ---- The facts a reset builds up ----

  ghost predicate OwnExtentsSame(client: Client, s: State, t: State) {
    forall e :: e in ExtentIds(client) && e in s.extents ==> e in t.extents && t.extents[e] == s.extents[e]
  }

  ghost predicate SameIdentity(client: Client, s: State, t: State) {
    forall e :: e in ExtentIds(client) && e in s.extents ==>
      e in t.extents && t.extents[e].naa == s.extents[e].naa && t.extents[e].serial == s.extents[e].serial
  }

  ghost predicate AllPresent(client: Client, s: State) {
    forall v :: v in client.volumes ==> v.extentId in s.extents
  }

  ghost predicate LunsMatch(client: Client, s: State) {
    LunPairs(LunTable(s.luns, client.targetIqn)) == ConfiguredPairs(client)
  }

  function LunPairs(luns: seq<TargetLun>): set<(nat, nat)> {
    set l | l in luns :: (l.extentId, l.lun)
  }

  function ConfiguredPairs(client: Client): set<(nat, nat)> {
    set v | v in client.volumes :: (v.extentId, v.lun)
  }

  ghost predicate HasLun(client: Client, extent: nat, lun: nat) {
    exists v :: v in client.volumes && v.extentId == extent && v.lun == lun
  }

  /** The target shows exactly the configured extents, each at its LUN. */
  lemma LunsMatchMeans(client: Client, s: State)
    ensures LunsMatch(client, s) <==> forall e: nat, l: nat :: InTable(s, client.targetIqn, e, l) <==> HasLun(client, e, l)
  {
    var table := LunTable(s.luns, client.targetIqn);
    var shown, wanted := LunPairs(table), ConfiguredPairs(client);
    forall e: nat, l: nat
      ensures (e, l) in shown <==> InTable(s, client.targetIqn, e, l)
      ensures (e, l) in wanted <==> HasLun(client, e, l)
    {
      if InTable(s, client.targetIqn, e, l) {
        var t := TargetLun(e, l);
        assert t in table && (t.extentId, t.lun) in shown;
      }
      if t :| t in table && (t.extentId, t.lun) == (e, l) { assert t == TargetLun(e, l); }
    }
    if forall e: nat, l: nat :: InTable(s, client.targetIqn, e, l) <==> HasLun(client, e, l) {
      forall x: (nat, nat)
        ensures x in shown <==> x in wanted
      {
        assert x == (x.0, x.1);
        assert InTable(s, client.targetIqn, x.0, x.1) <==> HasLun(client, x.0, x.1);
      }
      assert shown == wanted;
    }
  }

  /** Nothing stands in the way of this volume's clone: it is absent, or it verifies. */
  ghost predicate Clonable(config: ServiceConfig, client: Client, v: Volume, release: string, s: State) {
    var d := CloneDataset(client, v, release);
    var source := SnapshotPath(config, v.name, release);
    && source in s.snapshots
    && (d in s.datasets ==> Verified(s.datasets[d], client.name, v.name, release, source))
  }

  ghost predicate VerifiedClone(config: ServiceConfig, client: Client, v: Volume, release: string, s: State) {
    var d := CloneDataset(client, v, release);
    d in s.datasets &&
    Verified(s.datasets[d], client.name, v.name, release, SnapshotPath(config, v.name, release))
  }

  /** Only this extent differs. */
  ghost predicate OnlyExtent(id: nat, s: State, t: State) {
    && t.snapshots == s.snapshots && t.datasets == s.datasets && t.sessions == s.sessions && t.luns == s.luns
    && t.extents.Keys == s.extents.Keys
    && (forall e :: e in s.extents && e != id ==> t.extents[e] == s.extents[e])
  }

  // ---- One lemma per kind of call ----

  lemma ReadStep(config: ServiceConfig, client: Client, op: Op, s: State, t: State, raised: bool, fault: Fault)
    requires IsRead(op) && Happens(op, s, t, raised, fault)
    ensures t == s && ClientStep(config, client, s, t)
    ensures raised ==> !fault.NoFault? || (op.GetExtent? && op.id !in s.extents)
  {
  }

  lemma DisableStep(
    config: ServiceConfig, client: Client, v: Volume, disk: Option<string>, s: State, t: State, raised: bool, fault: Fault)
    requires v in client.volumes
    requires disk.Some? ==> AllDisabled(ExtentIds(client), s)
    requires Happens(UpdateExtent(v.extentId, Some(false), disk), s, t, raised, fault)
    ensures ClientStep(config, client, s, t) && OnlyExtent(v.extentId, s, t)
    ensures !Enables(s, t)
    ensures !raised ==> Disabled(v.extentId, t)
    ensures !raised && disk.Some? ==> t.extents[v.extentId].disk == NormalizeZvol(disk.value)
    ensures fault.NoFault? ==> SameIdentity(client, s, t) && (v.extentId in s.extents ==> !raised)
    ensures disk.None? && v.extentId in s.extents ==> t.extents[v.extentId].disk == s.extents[v.extentId].disk
  {
    hide ClientStep, NormalizeZvol;
    UpdateIsStep(config, client, v, disk, s, t, raised, fault);
  }

  /** Switching off an extent and pointing it elsewhere while all are off are steps of a reset. */
  lemma UpdateIsStep(
    config: ServiceConfig, client: Client, v: Volume, disk: Option<string>, s: State, t: State, raised: bool, fault: Fault)
    requires v in client.volumes
    requires disk.Some? ==> AllDisabled(ExtentIds(client), s)
    requires Happens(UpdateExtent(v.extentId, Some(false), disk), s, t, raised, fault)
    ensures ClientStep(config, client, s, t)
  {
    hide NormalizeZvol, MayEnable;
    assert v.extentId in ExtentIds(client);
  }

  lemma EnableStep(
    config: ServiceConfig, client: Client, v: Volume, release: string, s: State, t: State, raised: bool, fault: Fault)
    requires v in client.volumes && Restored(config, client, release, s)
    requires Happens(UpdateExtent(v.extentId, Some(true), None), s, t, raised, fault)
    ensures ClientStep(config, client, s, t) && OnlyExtent(v.extentId, s, t)
    ensures Restored(config, client, release, t)
    ensures forall e :: e in s.extents && s.extents[e].enabled ==> t.extents[e].enabled
    ensures !raised ==> v.extentId in t.extents && t.extents[v.extentId].enabled
    ensures fault.NoFault? ==> SameIdentity(client, s, t) && (v.extentId in s.extents ==> !raised)
  {
    hide CloneDataset, MasterDataset, Verified, ClientStep, Restored;
    EnableIsStep(config, client, v, release, s, t, raised, fault);
    StillRestored(config, client, v, release, s, t, raised, fault);
  }

  lemma EnableIsStep(
    config: ServiceConfig, client: Client, v: Volume, release: string, s: State, t: State, raised: bool, fault: Fault)
    requires v in client.volumes && Restored(config, client, release, s)
    requires Happens(UpdateExtent(v.extentId, Some(true), None), s, t, raised, fault)
    ensures ClientStep(config, client, s, t)
  {
    hide Restored;
    assert v.extentId in ExtentIds(client);
    assert MayEnable(config, client, s);
  }

  lemma StillRestored(
    config: ServiceConfig, client: Client, v: Volume, release: string, s: State, t: State, raised: bool, fault: Fault)
    requires v in client.volumes && Restored(config, client, release, s)
    requires Happens(UpdateExtent(v.extentId, Some(true), None), s, t, raised, fault)
    ensures Restored(config, client, release, t)
  {
    hide CloneDataset, MasterDataset, Verified;
    forall w | w in client.volumes
      ensures CloneReady(config, client, w, release, t) && Pointed(client, w, release, t)
      ensures w.extentId in t.extents && !t.extents[w.extentId].enabled ==> Pristine(config, client, w, release, t)
    {
      assert CloneReady(config, client, w, release, s) && Pointed(client, w, release, s);
    }
  }

  lemma CloneStep(
    config: ServiceConfig, client: Client, v: Volume, release: string, s: State, t: State, raised: bool, fault: Fault)
    requires v in client.volumes && AllDisabled(ExtentIds(client), s)
    requires Happens(CloneSnapshot(SnapshotPath(config, v.name, release), CloneDataset(client, v, release),
                                   CloneProperties(client.name, v.name, release)), s, t, raised, fault)
    ensures ClientStep(config, client, s, t) && t.extents == s.extents
    ensures forall d :: d in t.datasets ==> d in s.datasets || d == CloneDataset(client, v, release)
    ensures Clonable(config, client, v, release, s) ==> Clonable(config, client, v, release, t)
    ensures fault.NoFault? && Clonable(config, client, v, release, s) && CloneDataset(client, v, release) !in s.datasets ==>
              !raised
    ensures !raised ==> CloneDataset(client, v, release) in t.datasets
    ensures t.sessions == s.sessions
  {
    hide CloneDataset, MasterDataset;
    var source := SnapshotPath(config, v.name, release);
    var d := CloneDataset(client, v, release);
    if source in s.snapshots && d !in s.datasets {
      PropertiesVerify(client.name, v.name, release, source, s.snapshots[source]);
      VerifiedOwner(Dataset(Some(source), CloneProperties(client.name, v.name, release), s.snapshots[source]),
                    client.name, v.name, release, source);
      assert MadeFor(client, v, release, d, Dataset(Some(source), CloneProperties(client.name, v.name, release),
                                                    s.snapshots[source]));
    }
  }

  lemma CleanStep(
    config: ServiceConfig, client: Client, v: Volume, release: string, s: State, t: State, raised: bool, fault: Fault)
    requires v in client.volumes && AllDisabled(ExtentIds(client), s)
    requires CloneDataset(client, v, release) in s.datasets
    requires Verified(s.datasets[CloneDataset(client, v, release)], client.name, v.name, release,
                      SnapshotPath(config, v.name, release))
    requires Happens(CreateSnapshot(CloneDataset(client, v, release), CLEAN), s, t, raised, fault)
    ensures ClientStep(config, client, s, t) && t.extents == s.extents && t.datasets == s.datasets
    ensures fault.NoFault? && At(CloneDataset(client, v, release), CLEAN) !in s.snapshots ==> !raised
    ensures !raised ==> CloneReady(config, client, v, release, t)
    ensures t.sessions == s.sessions
  {
    hide CloneDataset, MasterDataset;
  }

  lemma RollbackStep(
    config: ServiceConfig, client: Client, v: Volume, release: string, s: State, t: State, raised: bool, fault: Fault)
    requires v in client.volumes && AllDisabled(ExtentIds(client), s) && Inv(config, s)
    requires CloneReady(config, client, v, release, s)
    requires Happens(RollbackSnapshot(At(CloneDataset(client, v, release), CLEAN)), s, t, raised, fault)
    ensures ClientStep(config, client, s, t) && t.extents == s.extents && t.snapshots == s.snapshots
    ensures t.datasets.Keys == s.datasets.Keys
    ensures !raised ==> Pristine(config, client, v, release, t)
    ensures fault.NoFault? ==> !raised
    ensures t.sessions == s.sessions
  {
    hide CloneDataset, SnapshotPath, Verified, Inv, Owner;
    CleanHoldsSource(config, client, v, release, s);
  }

  lemma CleanHoldsSource(config: ServiceConfig, client: Client, v: Volume, release: string, s: State)
    requires Inv(config, s) && CloneReady(config, client, v, release, s)
    ensures SnapshotPath(config, v.name, release) in s.snapshots
    ensures s.snapshots[At(CloneDataset(client, v, release), CLEAN)] == s.snapshots[SnapshotPath(config, v.name, release)]
    ensures OwnedBy(client, s.datasets[CloneDataset(client, v, release)])
  {
  }

  /** A rollback leaves the content of every clone that is pristine already. */
  lemma RollbackKeepsPristine(
    config: ServiceConfig, client: Client, v: Volume, w: Volume, release: string, s: State, t: State, raised: bool, fault: Fault)
    requires Inv(config, s)
    requires CloneReady(config, client, v, release, s) && CloneReady(config, client, w, release, s)
    requires Pristine(config, client, w, release, s)
    requires Happens(RollbackSnapshot(At(CloneDataset(client, v, release), CLEAN)), s, t, raised, fault)
    ensures Pristine(config, client, w, release, t)
  {
  }

  // ---- The facts survive what others do ----

  lemma VerifiedKept(config: ServiceConfig, client: Client, v: Volume, release: string, s: State, t: State)
    requires VerifiedClone(config, client, v, release, s) && Grows(s, t)
    ensures VerifiedClone(config, client, v, release, t)
  {
  }

  lemma RelyOwn(client: Client, s: State, t: State)
    requires Rely(client, s, t)
    ensures OwnExtentsSame(client, s, t) && SameIdentity(client, s, t)
    ensures t.luns == s.luns && t.extents.Keys == s.extents.Keys
  {
  }

  lemma PathsFreeReflexive(client: Client, s: State)
    ensures forall release :: PathsFree(client, release, s, s)
  {
  }

  lemma PathsFreeTransitive(client: Client, s: State, t: State, u: State)
    ensures forall release :: PathsFree(client, release, s, t) && PathsFree(client, release, t, u) ==>
              PathsFree(client, release, s, u)
  {
  }

  lemma AllDisabledKept(client: Client, s: State, t: State)
    requires Rely(client, s, t) && AllDisabled(ExtentIds(client), s)
    ensures AllDisabled(ExtentIds(client), t)
  {
  }

  lemma PristineKept(config: ServiceConfig, client: Client, v: Volume, release: string, s: State, t: State)
    requires Rely(client, s, t) && CloneReady(config, client, v, release, s) && Pristine(config, client, v, release, s)
    requires !OwnAttached(client, s, CloneDataset(client, v, release))
    ensures Pristine(config, client, v, release, t)
  {
  }

  lemma NotAttached(config: ServiceConfig, client: Client, v: Volume, release: string, s: State)
    requires WellFormed(config) && client in config.clients && v in client.volumes && Inv(config, s)
    requires CloneReady(config, client, v, release, s)
    requires v.extentId in s.extents ==> !s.extents[v.extentId].enabled
    ensures !OwnAttached(client, s, CloneDataset(client, v, release))
  {
    hide CloneDataset, MasterDataset, Verified;
    var d := CloneDataset(client, v, release);
    if OwnAttached(client, s, d) {
      var e :| e in ExtentIds(client) && e in s.extents && s.extents[e].enabled && s.extents[e].disk == d;
      CloneReadyOwned(config, client, v, release, s);
      assert AttachmentOk(config, s, e);
      AssignedExtent(config, client, v);
      AssignedUnique(config, client.name, v.name, e, client.name, v.name, v.extentId);
      assert false;
    }
  }

  lemma RestoredKept(config: ServiceConfig, client: Client, release: string, s: State, t: State)
    requires WellFormed(config) && client in config.clients && Inv(config, s)
    requires AllPresent(client, s)
    requires Restored(config, client, release, s) && Rely(client, s, t)
    ensures Restored(config, client, release, t) && AllPresent(client, t)
  {
    hide CloneDataset, MasterDataset, Verified, CloneReady, Pristine, WellFormed, Inv;
    forall v | v in client.volumes
      ensures CloneReady(config, client, v, release, t) && Pointed(client, v, release, t) && v.extentId in t.extents
      ensures v.extentId in t.extents && !t.extents[v.extentId].enabled ==> Pristine(config, client, v, release, t)
    {
      CloneReadyKept(config, client, v, release, s, t);
      assert v.extentId in ExtentIds(client);
      if !s.extents[v.extentId].enabled {
        NotAttached(config, client, v, release, s);
        PristineKept(config, client, v, release, s, t);
      }
    }
  }

  lemma ClonableKept(config: ServiceConfig, client: Client, v: Volume, release: string, s: State, t: State)
    requires Clonable(config, client, v, release, s) && Grows(s, t)
    requires CloneDataset(client, v, release) in t.datasets ==> CloneDataset(client, v, release) in s.datasets
    ensures Clonable(config, client, v, release, t)
  {
  }
}
