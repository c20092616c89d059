/** What each storage call of a release does to the facts the release builds up. */
module PublishSteps {
  import opened Results
  import opened Topology
  import opened Storage
  import opened Protocol
  import opened Backends
  import opened Guards
  import opened Releases

  /** What a release must not find: a login as the publisher, by any of its identities. */
  function GuardFor(config: ServiceConfig): Guard {
    Guard(config.publisher.initiatorIqn, config.publisher.sourceIp, config.publisher.targetIqn, PublisherExtentIds(config))
  }

  /** Looking leaves the state alone; closing takes no snapshot and opens nothing. */
  datatype PublishMode = Looking | Closing | Working

  ghost predicate Permitted(mode: PublishMode, step: Step) {
    match mode
    case Looking => IsRead(step.op) && step.after == step.before
    case Closing => step.after.snapshots == step.before.snapshots && !Opens(step.before, step.after)
    case Working => true
  }

  ghost predicate Opens(s: State, t: State) {
    exists e :: e in s.extents && e in t.extents && !s.extents[e].enabled && t.extents[e].enabled
  }

  /** As Trail, for the publisher: every new entry is a step a release may make. */
  ghost predicate PublisherTrail(
    config: ServiceConfig, releases: set<string>, faults: nat -> Fault, mode: PublishMode, start: seq<Step>, log: seq<Step>)
  {
    && start <= log
    && (forall i :: |start| <= i < |log| ==> PublisherOwnStep(config, releases, faults(i), mode, log[i]))
  }

  ghost predicate PublisherOwnStep(
    config: ServiceConfig, releases: set<string>, fault: Fault, mode: PublishMode, step: Step)
  {
    && PublisherStep(config, releases, step.before, step.after)
    && Permitted(mode, step)
    && step.fault == fault
  }

  predicate Inside(m: PublishMode, mode: PublishMode) {
    m == mode || m.Looking? || mode.Working?
  }

  lemma PublisherTrailPrefix(
    config: ServiceConfig, releases: set<string>, faults: nat -> Fault, mode: PublishMode, a: seq<Step>, b: seq<Step>)
    requires PublisherTrail(config, releases, faults, mode, a, b)
    ensures a <= b
  {
  }

  lemma PublisherTrailJoin(
    config: ServiceConfig, releases: set<string>, faults: nat -> Fault, m: PublishMode, n: PublishMode, mode: PublishMode,
    a: seq<Step>, b: seq<Step>, c: seq<Step>)
    requires PublisherTrail(config, releases, faults, m, a, b) && PublisherTrail(config, releases, faults, n, b, c)
    requires Inside(m, mode) && Inside(n, mode)
    ensures PublisherTrail(config, releases, faults, mode, a, c)
  {
  }

  /** What takes no snapshot and opens nothing suits any set of releases. */
  lemma ClosingSuitsAll(
    config: ServiceConfig, releases: set<string>, faults: nat -> Fault, mode: PublishMode, a: seq<Step>, b: seq<Step>)
    requires PublisherTrail(config, {}, faults, mode, a, b) && !mode.Working?
    ensures PublisherTrail(config, releases, faults, mode, a, b)
  {
  }

  /** The last calls of `log` disable the publisher's extents, and each either did so or raised. */
  ghost predicate PublisherFailClosed(config: ServiceConfig, log: seq<Step>, s: State) {
    var volumes := config.publisher.volumes;
    |log| >= |volumes| &&
    forall j :: 0 <= j < |volumes| ==>
      var step := log[|log| - |volumes| + j];
      && step.op == UpdateExtent(volumes[j].extentId, Some(false), None)
      && (step.raised || Off(volumes[j].extentId, s))
  }

  ghost predicate Off(id: nat, s: State) {
    id in s.extents && !s.extents[id].enabled
  }

  ghost predicate PublisherEnvOk(config: ServiceConfig, env: (nat, State) -> State) {
    forall n: nat, s :: Inv(config, s) ==> Inv(config, env(n, s)) && PublisherRely(config, s, env(n, s))
  }

  ghost predicate QuietCall(config: ServiceConfig, fault: Fault, env: (nat, State) -> State, n: nat) {
    fault.NoFault? && forall s :: Inv(config, s) && Unvisited(config, s) ==> Unvisited(config, env(n, s))
  }

  /** No session uses the publisher's address, initiator or target. */
  ghost predicate Unvisited(config: ServiceConfig, s: State) {
    NoMatch(s.sessions, config.publisher.initiatorIqn, config.publisher.sourceIp, config.publisher.targetIqn)
  }

  lemma LooksClose(
    config: ServiceConfig, releases: set<string>, faults: nat -> Fault, before: seq<Step>, log: seq<Step>)
    requires PublisherTrail(config, releases, faults, Looking, before, log)
    ensures OnlyCloses(|before|, log)
  {
    forall i | |before| <= i < |log| ensures IsRead(log[i].op) {
      assert PublisherOwnStep(config, releases, faults(i), Looking, log[i]);
    }
  }

  lemma LooksStay(
    config: ServiceConfig, releases: set<string>, faults: nat -> Fault, env: (nat, State) -> State, start: State,
    before: seq<Step>, log: seq<Step>)
    requires Linked(env, start, log) && PublisherTrail(config, releases, faults, Looking, before, log)
    requires forall n: nat, s :: env(n, s) == s
    ensures StateAfter(start, log, |log|) == StateAfter(start, before, |before|)
  {
    hide PublisherStep, Linked;
    forall i | |before| <= i < |log| ensures log[i].after == log[i].before {
      assert PublisherOwnStep(config, releases, faults(i), Looking, log[i]);
    }
    LooksLeave(env, start, before, log);
  }

  /** No call of the publisher logs anybody in or out. */
  lemma {:induction false} OnlyOthersVisit(
    config: ServiceConfig, releases: set<string>, faults: nat -> Fault, mode: PublishMode, env: (nat, State) -> State,
    start: State, before: seq<Step>, log: seq<Step>, k: nat)
    requires Linked(env, start, log) && PublisherTrail(config, releases, faults, mode, before, log)
    requires forall n: nat, s :: env(n, s).sessions == s.sessions
    requires |before| <= k <= |log|
    ensures StateAfter(start, log, k).sessions == StateAfter(start, log, |before|).sessions
    decreases k
  {
    if k > |before| {
      OnlyOthersVisit(config, releases, faults, mode, env, start, before, log, k - 1);
      assert LinkedAt(env, start, log, k - 1);
      assert PublisherOwnStep(config, releases, faults(k - 1), mode, log[k - 1]);
    }
  }

  // ---- Facts about the publisher's extents ----

  ghost predicate OwnSame(config: ServiceConfig, s: State, t: State) {
    forall e :: e in PublisherExtentIds(config) && e in s.extents ==> e in t.extents && t.extents[e] == s.extents[e]
  }

  ghost predicate IdentitySame(config: ServiceConfig, s: State, t: State) {
    forall e :: e in PublisherExtentIds(config) && e in s.extents ==>
      e in t.extents && t.extents[e].naa == s.extents[e].naa && t.extents[e].serial == s.extents[e].serial
  }

  /** Every publisher extent exists and shows its own master. */
  ghost predicate OnMasters(config: ServiceConfig, s: State) {
    forall p :: p in config.publisher.volumes ==>
      p.extentId in s.extents && s.extents[p.extentId].disk == p.dataset
  }

  ghost predicate NoPartial(config: ServiceConfig, releases: set<string>, s: State) {
    forall r :: r in releases ==> !Partial(config, r, s)
  }

  ghost predicate SameMasterSnapshots(config: ServiceConfig, s: State, t: State) {
    forall m, r :: m in Masters(config) ==> (At(m, r) in t.snapshots <==> At(m, r) in s.snapshots)
  }

  ghost predicate PublisherLuns(config: ServiceConfig, s: State) {
    (set l | l in LunTable(s.luns, config.publisher.targetIqn) :: (l.extentId, l.lun))
      == PublisherPairs(config)
  }

  function PublisherPairs(config: ServiceConfig): set<(nat, nat)> {
    set p | p in config.publisher.volumes :: (p.extentId, p.lun)
  }

  ghost predicate HasMasterLun(config: ServiceConfig, extent: nat, lun: nat) {
    exists p :: p in config.publisher.volumes && p.extentId == extent && p.lun == lun
  }

  /** The target shows exactly the configured extents, each at its LUN. */
  lemma PublisherLunsMean(config: ServiceConfig, s: State)
    ensures PublisherLuns(config, s) <==> forall e: nat, l: nat :: InTable(s, config.publisher.targetIqn, e, l) <==> HasMasterLun(config, e, l)
  {
    var table := LunTable(s.luns, config.publisher.targetIqn);
    var shown, wanted := set l | l in table :: (l.extentId, l.lun), PublisherPairs(config);
    forall e: nat, l: nat
      ensures (e, l) in shown <==> InTable(s, config.publisher.targetIqn, e, l)
      ensures (e, l) in wanted <==> HasMasterLun(config, e, l)
    {
      if InTable(s, config.publisher.targetIqn, e, l) {
        var t := TargetLun(e, l);
        assert t in table && (t.extentId, t.lun) in shown;
      }
      if t :| t in table && (t.extentId, t.lun) == (e, l) { assert t == TargetLun(e, l); }
    }
    if forall e: nat, l: nat :: InTable(s, config.publisher.targetIqn, e, l) <==> HasMasterLun(config, e, l) {
      forall x: (nat, nat)
        ensures x in shown <==> x in wanted
      {
        assert x == (x.0, x.1);
        assert InTable(s, config.publisher.targetIqn, x.0, x.1) <==> HasMasterLun(config, x.0, x.1);
      }
      assert shown == wanted;
    }
  }

  lemma PartialSame(config: ServiceConfig, s: State, t: State)
    requires SameMasterSnapshots(config, s, t)
    ensures forall r :: Partial(config, r, s) <==> Partial(config, r, t)
  {
  }

  lemma PublisherRelyFacts(config: ServiceConfig, s: State, t: State)
    requires PublisherRely(config, s, t)
    ensures Grows(s, t) && OwnSame(config, s, t) && IdentitySame(config, s, t)
    ensures SameMasterSnapshots(config, s, t)
    ensures AllDisabled(PublisherExtentIds(config), s) ==> AllDisabled(PublisherExtentIds(config), t)
    ensures OnMasters(config, s) ==> OnMasters(config, t)
    ensures PublisherLuns(config, s) ==> PublisherLuns(config, t)
    ensures t.extents.Keys == s.extents.Keys
  {
  }

  // ---- One lemma per kind of call ----

  lemma LookStep(config: ServiceConfig, op: Op, s: State, t: State, raised: bool, fault: Fault)
    requires IsRead(op) && Happens(op, s, t, raised, fault)
    ensures t == s && PublisherStep(config, {}, s, t)
    ensures raised ==> !fault.NoFault? || (op.GetExtent? && op.id !in s.extents)
  {
  }

  lemma CloseStep(config: ServiceConfig, p: PublisherVolume, s: State, t: State, raised: bool, fault: Fault)
    requires p in config.publisher.volumes
    requires Happens(UpdateExtent(p.extentId, Some(false), None), s, t, raised, fault)
    ensures PublisherStep(config, {}, s, t) && !Opens(s, t)
    ensures t.snapshots == s.snapshots && t.extents.Keys == s.extents.Keys && t.luns == s.luns
    ensures forall e :: e in s.extents && e != p.extentId ==> t.extents[e] == s.extents[e]
    ensures p.extentId in s.extents ==> t.extents[p.extentId].disk == s.extents[p.extentId].disk
    ensures !raised ==> Off(p.extentId, t)
    ensures forall e :: Off(e, s) ==> Off(e, t)
    ensures fault.NoFault? ==> IdentitySame(config, s, t) && (p.extentId in s.extents ==> !raised)
  {
    hide PublisherStep;
    CloseIsStep(config, p, s, t, raised, fault);
  }

  lemma CloseIsStep(config: ServiceConfig, p: PublisherVolume, s: State, t: State, raised: bool, fault: Fault)
    requires p in config.publisher.volumes
    requires Happens(UpdateExtent(p.extentId, Some(false), None), s, t, raised, fault)
    ensures PublisherStep(config, {}, s, t)
  {
    hide MayPublish;
    assert p.extentId in PublisherExtentIds(config);
  }

  lemma OpenStep(
    config: ServiceConfig, releases: set<string>, p: PublisherVolume, s: State, t: State, raised: bool, fault: Fault)
    requires p in config.publisher.volumes && OnMasters(config, s) && NoPartial(config, releases, s)
    requires Happens(UpdateExtent(p.extentId, Some(true), None), s, t, raised, fault)
    ensures PublisherStep(config, releases, s, t)
    ensures t.snapshots == s.snapshots && t.extents.Keys == s.extents.Keys && t.luns == s.luns
    ensures forall e :: e in s.extents && e != p.extentId ==> t.extents[e] == s.extents[e]
    ensures OnMasters(config, t)
    ensures !raised ==> t.extents[p.extentId].enabled
    ensures forall e :: e in s.extents && s.extents[e].enabled ==> t.extents[e].enabled
    ensures fault.NoFault? ==> IdentitySame(config, s, t) && !raised
  {
    assert MayPublish(config, releases, s, p.extentId);
  }

  lemma TakeStep(
    config: ServiceConfig, releases: set<string>, m: string, release: string, s: State, t: State, raised: bool, fault: Fault)
    requires m in Masters(config) && release in releases && AllDisabled(PublisherExtentIds(config), s)
    requires Happens(CreateSnapshot(m, release), s, t, raised, fault)
    ensures PublisherStep(config, releases, s, t) && !Opens(s, t)
    ensures t.extents == s.extents && t.luns == s.luns
    ensures forall n :: n in t.snapshots ==> n in s.snapshots || n == At(m, release)
    ensures !raised ==> At(m, release) in t.snapshots
    ensures fault.NoFault? && m in s.datasets && At(m, release) !in s.snapshots ==> !raised
  {
  }
}
