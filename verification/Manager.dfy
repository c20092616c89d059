/** release_manager.py: staging and activating a release of all master volumes. */
module Manager {
  import opened Results
  import opened Topology
  import opened Storage
  import opened Protocol
  import opened PublishSteps
  import opened Backends
  import opened Guards
  import opened Releases
  import opened Names

  function PublisherNames(config: ServiceConfig): set<string> {
    set p | p in config.publisher.volumes :: p.name
  }

  function Expected(config: ServiceConfig, release: string): map<string, SnapshotId> {
    map v | v in PublisherNames(config) :: SnapshotPath(config, v, release)
  }

  /** Each extent, at its volume's position, is on its master and has an NAA. */
  ghost predicate Originals(config: ServiceConfig, originals: seq<Extent>, s: State) {
    |originals| == |config.publisher.volumes| &&
    forall j :: 0 <= j < |originals| ==> OriginalAt(config.publisher.volumes[j], originals[j], s)
  }

  ghost predicate OriginalAt(p: PublisherVolume, original: Extent, s: State) {
    && p.extentId in s.extents && s.extents[p.extentId] == original
    && original.disk == p.dataset && NormalizeDiskId(original.naa) != ""
  }

  ghost predicate IdentityAs(config: ServiceConfig, originals: seq<Extent>, s: State) {
    |originals| == |config.publisher.volumes| &&
    forall j :: 0 <= j < |originals| ==>
      var id := config.publisher.volumes[j].extentId;
      id in s.extents && s.extents[id].naa == originals[j].naa && s.extents[id].serial == originals[j].serial
  }

  ghost predicate Final(p: PublisherVolume, original: Extent, s: State) {
    && On(p.extentId, s) && s.extents[p.extentId].disk == p.dataset
    && NormalizeDiskId(s.extents[p.extentId].naa) == NormalizeDiskId(original.naa)
    && s.extents[p.extentId].serial == original.serial
  }

  ghost predicate AllFinal(config: ServiceConfig, originals: seq<Extent>, s: State) {
    |originals| == |config.publisher.volumes| &&
    forall j :: 0 <= j < |originals| ==> Final(config.publisher.volumes[j], originals[j], s)
  }

  ghost predicate On(id: nat, s: State) {
    id in s.extents && s.extents[id].enabled
  }

  /** The publisher's topology is as configured. */
  ghost predicate Wired(config: ServiceConfig, s: State) {
    && PublisherLuns(config, s)
    && (forall p :: p in config.publisher.volumes ==>
          p.extentId in s.extents && s.extents[p.extentId].disk == p.dataset &&
          NormalizeDiskId(s.extents[p.extentId].naa) != "")
  }

  /** Some master has a snapshot of this name already. */
  ghost predicate Taken(config: ServiceConfig, name: string, s: State) {
    exists m :: m in Masters(config) && At(m, name) in s.snapshots
  }

  /** All masters have their snapshot of this name. */
  ghost predicate Complete(config: ServiceConfig, name: string, s: State) {
    forall m :: m in Masters(config) ==> At(m, name) in s.snapshots
  }

  ghost predicate FreshName(config: ServiceConfig, db: Db, s: State, name: string) {
    name !in db.releases && !Taken(config, name, s)
  }

  class ReleaseManager {
    const config: ServiceConfig
    const backend: Backend
    const store: ReleaseStore
    var locked: bool

    constructor (config: ServiceConfig, backend: Backend, store: ReleaseStore)
      ensures this.config == config && this.backend == backend && this.store == store && !locked
    {
      this.config, this.backend, this.store, locked := config, backend, store, false;
    }

    ghost predicate Tracks()
      reads backend
    {
      WellFormed(config) && PublisherEnvOk(config, backend.env) && backend.Consistent() && Inv(config, backend.View())
    }

    /** From now on no call fails, and nobody is or gets logged in as the publisher. */
    ghost predicate Undisturbed()
      reads backend
    {
      Unvisited(config, backend.View()) &&
      forall n :: n >= backend.calls ==> QuietCall(config, backend.faults(n), backend.env, n)
    }

    /** From now on no call fails. */
    ghost predicate Faultless()
      reads backend
    {
      forall n :: n >= backend.calls ==> backend.faults(n).NoFault?
    }

    /** Nor do the surroundings do anything. */
    ghost predicate Idle()
      reads backend
    {
      Faultless() && forall n: nat, s :: backend.env(n, s) == s
    }

    twostate predicate Advanced(releases: set<string>, mode: PublishMode)
      reads backend
    {
      && backend.faults == old(backend.faults) && backend.calls >= old(backend.calls)
      && Grows(old(backend.View()), backend.View())
      && PublisherTrail(config, releases, backend.faults, mode, old(backend.trace), backend.trace)
    }

    // ---- After each kind of call ----

    twostate lemma AfterLook(new op: Op, new raised: bool)
      requires old(Tracks()) && IsRead(op)
      requires backend.faults == old(backend.faults) && backend.calls == old(backend.calls) + 1
      requires backend.Logged(op, old(backend.calls), old(backend.View()), old(backend.trace), raised)
      requires backend.Consistent()
      ensures Tracks() && Advanced({}, Looking) && PublisherRely(config, old(backend.View()), backend.View())
      ensures backend.View() == backend.env(old(backend.calls), old(backend.View()))
      ensures raised && old(backend.faults)(old(backend.calls)).NoFault? ==>
                op.GetExtent? && op.id !in backend.View().extents
      ensures old(Undisturbed()) ==>
                Undisturbed() && Unvisited(config, backend.View()) &&
                (raised ==> op.GetExtent? && op.id !in backend.View().extents)
    {
      hide Inv, PublisherStep, WellFormed, Unvisited, PublisherRely, Grows, Happens;
      PublisherRelyFacts(config, old(backend.View()), backend.env(old(backend.calls), old(backend.View())));
      LookStep(config, op, backend.env(old(backend.calls), old(backend.View())), backend.View(),
               raised, backend.faults(old(backend.calls)));
      if old(Undisturbed()) {
        assert QuietCall(config, backend.faults(old(backend.calls)), backend.env, old(backend.calls));
      }
    }

    twostate lemma BeforeWrite()
      requires old(Tracks())
      ensures var mid := backend.env(old(backend.calls), old(backend.View()));
              Inv(config, mid) && PublisherRely(config, old(backend.View()), mid)
      ensures old(Undisturbed()) ==> old(backend.faults)(old(backend.calls)).NoFault?
    {
      hide Inv, PublisherRely;
      if old(Undisturbed()) {
        assert QuietCall(config, old(backend.faults)(old(backend.calls)), backend.env, old(backend.calls));
      }
    }

    twostate lemma AfterWrite(new releases: set<string>, new mode: PublishMode, new op: Op, new raised: bool)
      requires old(Tracks())
      requires backend.faults == old(backend.faults) && backend.calls == old(backend.calls) + 1
      requires backend.Logged(op, old(backend.calls), old(backend.View()), old(backend.trace), raised)
      requires backend.Consistent()
      requires PublisherStep(config, releases, backend.env(old(backend.calls), old(backend.View())), backend.View())
      requires Permitted(mode, Step(op, backend.env(old(backend.calls), old(backend.View())), backend.View(),
                                    raised, old(backend.faults)(old(backend.calls))))
      ensures Tracks() && Advanced(releases, mode)
      ensures old(Undisturbed()) ==> Undisturbed()
    {
      var mid := backend.env(old(backend.calls), old(backend.View()));
      assert Inv(config, mid) && PublisherRely(config, old(backend.View()), mid);
      PublisherKeepsInv(config, releases, mid, backend.View());
      GrowsTransitive(old(backend.View()), mid, backend.View());
      hide Inv, WellFormed, PublisherRely, Grows;
    }

    // ---- Reads ----

    method MatchingSessions() returns (r: Result<bool>)
      requires Tracks()
      modifies backend
      ensures Tracks() && Advanced({}, Looking) && PublisherRely(config, old(backend.View()), backend.View())
      ensures |backend.trace| == old(|backend.trace|) + 1
      ensures backend.trace[old(|backend.trace|)].op == ListSessions
      ensures backend.trace[old(|backend.trace|)].after == backend.View()
      ensures backend.trace[old(|backend.trace|)].raised <==> r.Err?
      ensures r.Ok? ==> r.value == !Unvisited(config, backend.View())
      ensures r.Err? ==> r.error == BackendError
      ensures backend.View() == backend.env(old(backend.calls), old(backend.View()))
      ensures old(backend.faults(backend.calls)).NoFault? ==> r.Ok?
      ensures old(Undisturbed()) ==> Undisturbed() && r == Ok(false)
    {
      hide Inv, PublisherRely, PublisherStep, WellFormed, PublisherEnvOk, Undisturbed;
      label before:
      var sessions := backend.ListSessions();
      AfterLook@before(ListSessions, sessions.Err?);
      if sessions.Err? { return Err(BackendError); }
      r := Ok(!NoMatch(sessions.value, config.publisher.initiatorIqn, config.publisher.sourceIp, config.publisher.targetIqn));
    }

    /** _require_no_session. */
    method RequireNoSession() returns (o: Outcome)
      requires Tracks()
      modifies backend
      ensures Tracks() && Advanced({}, Looking) && PublisherRely(config, old(backend.View()), backend.View())
      ensures |backend.trace| == old(|backend.trace|) + 1
      ensures backend.trace[old(|backend.trace|)].after == backend.View()
      ensures o.Pass? ==>
                Unvisited(config, backend.View()) && SeenClear(GuardFor(config), backend.trace[old(|backend.trace|)])
      ensures o.Fail? ==> o.error in {PublisherSessionActive, BackendError}
      ensures o == Fail(PublisherSessionActive) ==>
                SeenActive(GuardFor(config), |old(backend.trace)|, backend.trace)
      ensures backend.View() == backend.env(old(backend.calls), old(backend.View()))
      ensures old(backend.faults(backend.calls)).NoFault? ==>
                o == if Unvisited(config, backend.View()) then Pass else Fail(PublisherSessionActive)
      ensures old(Undisturbed()) ==> Undisturbed() && o.Pass?
    {
      hide Inv, PublisherRely, PublisherStep, WellFormed, PublisherEnvOk, Undisturbed;
      var found := MatchingSessions();
      o := if found.Err? then Fail(found.error) else if found.value then Fail(PublisherSessionActive) else Pass;
    }

    method VerifyTargetLuns() returns (o: Outcome)
      requires Tracks()
      modifies backend
      ensures Tracks() && Advanced({}, Looking) && PublisherRely(config, old(backend.View()), backend.View())
      ensures |backend.trace| == old(|backend.trace|) + 1
      ensures backend.trace[old(|backend.trace|)].op == TargetLuns(config.publisher.targetIqn)
      ensures backend.trace[old(|backend.trace|)].after == backend.View()
      ensures o.Pass? ==> PublisherLuns(config, backend.View()) && !backend.trace[old(|backend.trace|)].raised
      ensures o.Fail? ==> o.error in {NotReady, BackendError}
      ensures old(Faultless()) && PublisherLuns(config, old(backend.View())) ==> o.Pass?
      ensures old(Undisturbed()) ==> Undisturbed() && (PublisherLuns(config, old(backend.View())) ==> o.Pass?)
    {
      hide Inv, PublisherRely, PublisherStep, WellFormed, PublisherEnvOk, Undisturbed, Unvisited, LunTable;
      ghost var view := backend.View();
      label before:
      var luns := backend.TargetLuns(config.publisher.targetIqn);
      AfterLook@before(TargetLuns(config.publisher.targetIqn), luns.Err?);
      PublisherRelyFacts(config, view, backend.View());
      if luns.Err? { return Fail(BackendError); }
      var actual := set l | l in luns.value :: (l.extentId, l.lun);
      o := if actual == PublisherPairs(config) then Pass else Fail(NotReady);
    }

    static predicate ReadOf(p: PublisherVolume, step: Step) {
      step.op == GetExtent(p.extentId) && !step.raised
    }

    method ReadExtent(p: PublisherVolume) returns (r: Result<Extent>)
      requires Tracks() && p in config.publisher.volumes
      modifies backend
      ensures Tracks() && Advanced({}, Looking) && PublisherRely(config, old(backend.View()), backend.View())
      ensures |backend.trace| == old(|backend.trace|) + 1
      ensures r.Ok? ==> ReadOf(p, backend.trace[old(|backend.trace|)])
      ensures r.Ok? ==> p.extentId in backend.View().extents && r.value == backend.View().extents[p.extentId]
      ensures r.Err? ==> r.error == BackendError
      ensures old(Faultless()) && p.extentId in old(backend.View()).extents ==> r.Ok?
      ensures old(Undisturbed()) ==> Undisturbed() && (p.extentId in old(backend.View()).extents ==> r.Ok?)
    {
      hide Inv, PublisherRely, PublisherStep, WellFormed, PublisherEnvOk, Undisturbed, Unvisited;
      label before:
      r := backend.GetExtent(p.extentId);
      AfterLook@before(GetExtent(p.extentId), r.Err?);
      GrowsKeys(old(backend.View()), backend.View());
    }

    static lemma GrowsKeys(s: State, t: State)
      requires Grows(s, t)
      ensures t.extents.Keys == s.extents.Keys && t.luns == s.luns
    {
    }

    static lemma LookNil(config: ServiceConfig, s: State, log: seq<Step>, faults: nat -> Fault)
      ensures Grows(s, s) && PublisherRely(config, s, s)
      ensures forall releases, mode :: PublisherTrail(config, releases, faults, mode, log, log)
    {
    }

    static lemma LookJoin(config: ServiceConfig, s: State, t: State, u: State)
      requires PublisherRely(config, s, t) && PublisherRely(config, t, u)
      ensures PublisherRely(config, s, u) && Grows(s, u)
    {
    }

    /** Own extents are the same after others moved, so what was read of them still holds. */
    static lemma ReadKept(config: ServiceConfig, p: PublisherVolume, s: State, t: State)
      requires p in config.publisher.volumes && PublisherRely(config, s, t)
      ensures p.extentId in s.extents <==> p.extentId in t.extents
      ensures p.extentId in s.extents ==> t.extents[p.extentId] == s.extents[p.extentId]
    {
    }

    /** _publisher_extents: each extent must be on its own master and have an NAA. */
    method PublisherExtents() returns (r: Result<seq<Extent>>)
      requires Tracks()
      modifies backend
      ensures Tracks() && Advanced({}, Looking) && PublisherRely(config, old(backend.View()), backend.View())
      ensures r.Ok? ==> Originals(config, r.value, backend.View())
      ensures r.Ok? ==> |backend.trace| == old(|backend.trace|) + |config.publisher.volumes|
      ensures r.Ok? ==>
                forall j :: 0 <= j < |config.publisher.volumes| ==>
                  ReadOf(config.publisher.volumes[j], backend.trace[old(|backend.trace|) + j])
      ensures r.Err? ==> r.error in {NotReady, BackendError}
      ensures old(Faultless()) && Wired(config, old(backend.View())) ==> r.Ok?
      ensures old(Undisturbed()) ==> Undisturbed() && (Wired(config, old(backend.View())) ==> r.Ok?)
    {
      hide Inv, PublisherRely, PublisherStep, WellFormed, PublisherEnvOk, Undisturbed, Unvisited, PublisherTrail, Grows,
           NormalizeDiskId, PublisherLuns;
      ghost var s0, log0 := backend.View(), backend.trace;
      LookNil(config, s0, log0, backend.faults);
      var extents: seq<Extent> := [];
      for i := 0 to |config.publisher.volumes|
        invariant Tracks() && Advanced({}, Looking) && PublisherRely(config, s0, backend.View())
        invariant |extents| == i && |backend.trace| == old(|backend.trace|) + i
        invariant forall j :: 0 <= j < i ==> ReadOf(config.publisher.volumes[j], backend.trace[old(|backend.trace|) + j])
        invariant forall j :: 0 <= j < i ==> OriginalAt(config.publisher.volumes[j], extents[j], backend.View())
        invariant old(Undisturbed()) ==> Undisturbed()
      {
        ghost var view, log := backend.View(), backend.trace;
        var p := config.publisher.volumes[i];
        var extent := ReadExtent(p);
        PublisherTrailPrefix(config, {}, backend.faults, Looking, log, backend.trace);
        LookJoin(config, s0, view, backend.View());
        PublisherTrailJoin(config, {}, backend.faults, Looking, Looking, Looking, log0, log, backend.trace);
        forall j | 0 <= j < i ensures OriginalAt(config.publisher.volumes[j], extents[j], backend.View()) {
          ReadKept(config, config.publisher.volumes[j], view, backend.View());
        }
        ReadKept(config, p, s0, backend.View());
        ReadKept(config, p, s0, view);
        if extent.Err? { return Err(BackendError); }
        if extent.value.disk != p.dataset { return Err(NotReady); }
        if NormalizeDiskId(extent.value.naa) == "" { return Err(NotReady); }
        extents := extents + [extent.value];
      }
      r := Ok(extents);
    }

    method VerifyEnabled(enabled: bool) returns (o: Outcome)
      requires Tracks()
      modifies backend
      ensures Tracks() && Advanced({}, Looking) && PublisherRely(config, old(backend.View()), backend.View())
      ensures o.Pass? ==> AllAre(config, enabled, backend.View())
      ensures o.Fail? ==> o.error in {NotReady, BackendError}
      ensures old(Faultless()) && AllAre(config, enabled, old(backend.View())) ==> o.Pass?
      ensures old(Undisturbed()) ==> Undisturbed() && (AllAre(config, enabled, old(backend.View())) ==> o.Pass?)
    {
      hide Inv, PublisherRely, PublisherStep, WellFormed, PublisherEnvOk, Undisturbed, Unvisited, PublisherTrail, Grows;
      ghost var s0, log0 := backend.View(), backend.trace;
      LookNil(config, s0, log0, backend.faults);
      for i := 0 to |config.publisher.volumes|
        invariant Tracks() && Advanced({}, Looking) && PublisherRely(config, s0, backend.View())
        invariant forall j :: 0 <= j < i ==> Is(config.publisher.volumes[j], enabled, backend.View())
        invariant old(Undisturbed()) ==> Undisturbed()
      {
        ghost var view, log := backend.View(), backend.trace;
        var p := config.publisher.volumes[i];
        var extent := ReadExtent(p);
        LookJoin(config, s0, view, backend.View());
        PublisherTrailJoin(config, {}, backend.faults, Looking, Looking, Looking, log0, log, backend.trace);
        forall j | 0 <= j < i ensures Is(config.publisher.volumes[j], enabled, backend.View()) {
          ReadKept(config, config.publisher.volumes[j], view, backend.View());
        }
        ReadKept(config, p, s0, backend.View());
        ReadKept(config, p, s0, view);
        assert AllAre(config, enabled, s0) ==> Is(p, enabled, s0);
        if extent.Err? { return Fail(BackendError); }
        if extent.value.enabled != enabled { return Fail(NotReady); }
      }
      o := Pass;
    }

    static ghost predicate Is(p: PublisherVolume, enabled: bool, s: State) {
      p.extentId in s.extents && s.extents[p.extentId].enabled == enabled
    }

    static ghost predicate AllAre(config: ServiceConfig, enabled: bool, s: State) {
      forall j :: 0 <= j < |config.publisher.volumes| ==> Is(config.publisher.volumes[j], enabled, s)
    }

    /** _verify_final_extents. */
    method VerifyFinalExtents(originals: seq<Extent>) returns (o: Outcome)
      requires Tracks() && |originals| == |config.publisher.volumes|
      modifies backend
      ensures Tracks() && Advanced({}, Looking) && PublisherRely(config, old(backend.View()), backend.View())
      ensures o.Pass? ==> AllFinal(config, originals, backend.View())
      ensures o.Fail? ==> o.error in {NotReady, BackendError}
      ensures old(Undisturbed()) ==> Undisturbed() && (AllFinal(config, originals, old(backend.View())) ==> o.Pass?)
    {
      hide Inv, PublisherRely, PublisherStep, WellFormed, PublisherEnvOk, Undisturbed, Unvisited, PublisherTrail, Grows,
           NormalizeDiskId;
      ghost var s0, log0 := backend.View(), backend.trace;
      o := VerifyEnabled(true);
      assert AllFinal(config, originals, s0) ==> AllAre(config, true, s0);
      if o.Fail? { return; }
      for i := 0 to |originals|
        invariant Tracks() && Advanced({}, Looking) && PublisherRely(config, s0, backend.View())
        invariant AllAre(config, true, backend.View())
        invariant forall j :: 0 <= j < i ==> Final(config.publisher.volumes[j], originals[j], backend.View())
        invariant old(Undisturbed()) ==> Undisturbed()
      {
        ghost var view, log := backend.View(), backend.trace;
        var p := config.publisher.volumes[i];
        var extent := ReadExtent(p);
        LookJoin(config, s0, view, backend.View());
        PublisherTrailJoin(config, {}, backend.faults, Looking, Looking, Looking, log0, log, backend.trace);
        forall j | 0 <= j < |originals|
          ensures Is(config.publisher.volumes[j], true, backend.View())
          ensures j < i ==> Final(config.publisher.volumes[j], originals[j], backend.View())
        {
          ReadKept(config, config.publisher.volumes[j], view, backend.View());
        }
        ReadKept(config, p, s0, backend.View());
        ReadKept(config, p, s0, view);
        assert AllFinal(config, originals, s0) ==> Final(p, originals[i], s0);
        if extent.Err? { return Fail(BackendError); }
        if extent.value.disk != p.dataset { return Fail(NotReady); }
        if NormalizeDiskId(extent.value.naa) != NormalizeDiskId(originals[i].naa) { return Fail(NotReady); }
        if extent.value.serial != originals[i].serial { return Fail(NotReady); }
        assert Is(p, true, backend.View());
      }
      o := Pass;
    }

    // ---- Writes ----

    method Close(p: PublisherVolume) returns (r: Result<Extent>)
      requires Tracks() && p in config.publisher.volumes
      modifies backend
      ensures Tracks() && Advanced({}, Closing)
      ensures |backend.trace| == old(|backend.trace|) + 1
      ensures var step := backend.trace[old(|backend.trace|)];
              step.op == UpdateExtent(p.extentId, Some(false), None) && step.raised == r.Err?
      ensures Closed(config, old(backend.View()), backend.View())
      ensures r.Ok? ==> Off(p.extentId, backend.View())
      ensures r.Err? ==> r.error == BackendError
      ensures old(Undisturbed()) ==>
                Undisturbed() && IdentitySame(config, old(backend.View()), backend.View()) &&
                (p.extentId in old(backend.View()).extents ==> r.Ok?)
      ensures old(backend.faults(backend.calls)).NoFault? && p.extentId in old(backend.View()).extents ==> r.Ok?
    {
      hide Inv, PublisherStep, WellFormed, PublisherEnvOk, Undisturbed, PublisherRely, Unvisited, Happens, PublisherLuns;
      ghost var mid := backend.env(backend.calls, backend.View());
      ghost var fault := backend.faults(backend.calls);
      label before:
      r := backend.UpdateExtent(p.extentId, Some(false), None);
      BeforeWrite@before();
      PublisherRelyFacts(config, old(backend.View()), mid);
      CloseStep(config, p, mid, backend.View(), r.Err?, fault);
      AfterWrite@before({}, Closing, UpdateExtent(p.extentId, Some(false), None), r.Err?);
      ClosedBy(config, p, old(backend.View()), mid, backend.View());
    }

    /** Switching extents off leaves everything else the publisher knows. */
    static ghost predicate Closed(config: ServiceConfig, s: State, t: State) {
      && (forall p :: p in config.publisher.volumes && Off(p.extentId, s) ==> Off(p.extentId, t))
      && (forall p :: p in config.publisher.volumes && p.extentId in s.extents ==>
            p.extentId in t.extents && t.extents[p.extentId].disk == s.extents[p.extentId].disk)
      && SameMasterSnapshots(config, s, t)
    }

    static lemma ClosedBy(config: ServiceConfig, p: PublisherVolume, s: State, t: State, u: State)
      requires OwnSame(config, s, t) && SameMasterSnapshots(config, s, t) && t.extents.Keys == s.extents.Keys
      requires u.snapshots == t.snapshots && u.extents.Keys == t.extents.Keys
      requires forall e :: e in t.extents && e != p.extentId ==> u.extents[e] == t.extents[e]
      requires p.extentId in t.extents ==> u.extents[p.extentId].disk == t.extents[p.extentId].disk
      requires forall e :: Off(e, t) ==> Off(e, u)
      ensures Closed(config, s, u)
    {
    }

    static lemma ClosedJoin(config: ServiceConfig, s: State, t: State, u: State)
      requires Closed(config, s, t) && Closed(config, t, u)
      ensures Closed(config, s, u)
    {
    }

    static lemma ClosedNil(config: ServiceConfig, s: State)
      ensures Closed(config, s, s) && IdentitySame(config, s, s)
    {
    }

    static lemma IdentityJoin(config: ServiceConfig, s: State, t: State, u: State)
      ensures IdentitySame(config, s, t) && IdentitySame(config, t, u) ==> IdentitySame(config, s, u)
    {
    }

    /** _set_all_enabled(False). */
    method CloseAll() returns (o: Outcome)
      requires Tracks()
      modifies backend
      ensures Tracks() && Advanced({}, Closing) && Closed(config, old(backend.View()), backend.View())
      ensures OnlyCloses(|old(backend.trace)|, backend.trace)
      ensures o.Pass? ==> AllAre(config, false, backend.View())
      ensures o.Fail? ==> o.error == BackendError
      ensures old(Undisturbed()) ==>
                Undisturbed() && IdentitySame(config, old(backend.View()), backend.View()) &&
                (Wired(config, old(backend.View())) ==> o.Pass?)
    {
      hide Inv, PublisherStep, WellFormed, PublisherEnvOk, Undisturbed, PublisherRely, Unvisited, PublisherTrail, Grows,
           Closed, IdentitySame, PublisherLuns;
      ghost var s0, log0 := backend.View(), backend.trace;
      LookNil(config, s0, log0, backend.faults);
      ClosedNil(config, s0);
      for i := 0 to |config.publisher.volumes|
        invariant Tracks() && Advanced({}, Closing) && Closed(config, s0, backend.View())
        invariant |backend.trace| == |log0| + i && OnlyCloses(|log0|, backend.trace)
        invariant forall j :: 0 <= j < i ==> Off(config.publisher.volumes[j].extentId, backend.View())
        invariant old(Undisturbed()) ==> Undisturbed() && IdentitySame(config, s0, backend.View())
      {
        ghost var view, log := backend.View(), backend.trace;
        var p := config.publisher.volumes[i];
        var closed := Close(p);
        GrowsTransitive(s0, view, backend.View());
        GrowsKeys(s0, view);
        ClosedJoin(config, s0, view, backend.View());
        IdentityJoin(config, s0, view, backend.View());
        PublisherTrailJoin(config, {}, backend.faults, Closing, Closing, Closing, log0, log, backend.trace);
        OffKept(config, i, view, backend.View());
        PublisherTrailPrefix(config, {}, backend.faults, Closing, log, backend.trace);
        if closed.Err? { return Fail(BackendError); }
      }
      o := Pass;
    }

    static lemma OffKept(config: ServiceConfig, i: nat, s: State, t: State)
      requires Closed(config, s, t) && i <= |config.publisher.volumes|
      ensures (forall j :: 0 <= j < i ==> Off(config.publisher.volumes[j].extentId, s)) ==>
                forall j :: 0 <= j < i ==> Off(config.publisher.volumes[j].extentId, t)
    {
    }

    /** _best_effort_disable. */
    method BestEffortDisable()
      requires Tracks()
      modifies backend
      ensures Tracks() && Advanced({}, Closing) && Closed(config, old(backend.View()), backend.View())
      ensures PublisherFailClosed(config, backend.trace, backend.View())
      ensures OnlyCloses(|old(backend.trace)|, backend.trace)
      ensures old(Faultless()) && OnMasters(config, old(backend.View())) ==> AllAre(config, false, backend.View())
    {
      hide Inv, PublisherStep, WellFormed, PublisherEnvOk, Undisturbed, PublisherRely, Unvisited, PublisherTrail, Grows,
           Closed, IdentitySame, PublisherLuns, OnlyCloses;
      ghost var s0, log0 := backend.View(), backend.trace;
      LookNil(config, s0, log0, backend.faults);
      ClosedNil(config, s0);
      for i := 0 to |config.publisher.volumes|
        invariant Tracks() && Advanced({}, Closing) && Closed(config, s0, backend.View())
        invariant |backend.trace| == |log0| + i
        invariant forall j :: 0 <= j < i ==>
          var step := backend.trace[|log0| + j];
          && step.op == UpdateExtent(config.publisher.volumes[j].extentId, Some(false), None)
          && (step.raised || Off(config.publisher.volumes[j].extentId, backend.View()))
        invariant old(Faultless()) && OnMasters(config, s0) ==>
                    forall j :: 0 <= j < i ==> Off(config.publisher.volumes[j].extentId, backend.View())
      {
        ghost var view, log := backend.View(), backend.trace;
        GrowsKeys(s0, view);
        var _ := Close(config.publisher.volumes[i]);
        GrowsTransitive(s0, view, backend.View());
        ClosedJoin(config, s0, view, backend.View());
        PublisherTrailJoin(config, {}, backend.faults, Closing, Closing, Closing, log0, log, backend.trace);
        PublisherTrailPrefix(config, {}, backend.faults, Closing, log, backend.trace);
        ClosedEach(config, view, backend.View());
      }
      FailClosedCloses(|log0|, backend.trace, backend.View());
    }

    lemma FailClosedCloses(n: nat, log: seq<Step>, s: State)
      requires PublisherFailClosed(config, log, s) && |log| == n + |config.publisher.volumes|
      ensures OnlyCloses(n, log)
    {
      forall i | n <= i < |log| ensures Closes(log[i].op) {
        assert log[i].op == UpdateExtent(config.publisher.volumes[i - n].extentId, Some(false), None);
      }
    }

    static lemma ClosedEach(config: ServiceConfig, s: State, t: State)
      requires Closed(config, s, t)
      ensures forall j :: 0 <= j < |config.publisher.volumes| && Off(config.publisher.volumes[j].extentId, s) ==>
                Off(config.publisher.volumes[j].extentId, t)
    {
    }

    method Open(p: PublisherVolume, ghost releases: set<string>) returns (r: Result<Extent>)
      requires Tracks() && p in config.publisher.volumes
      requires OnMasters(config, backend.View()) && NoPartial(config, releases, backend.View())
      modifies backend
      ensures Tracks() && Advanced(releases, Working)
      ensures OnMasters(config, backend.View()) && SameMasterSnapshots(config, old(backend.View()), backend.View())
      ensures forall e :: e in PublisherExtentIds(config) && On(e, old(backend.View())) ==> On(e, backend.View())
      ensures r.Ok? ==> On(p.extentId, backend.View())
      ensures r.Err? ==> r.error == BackendError
      ensures old(Undisturbed()) ==>
                Undisturbed() && IdentitySame(config, old(backend.View()), backend.View()) && r.Ok?
    {
      hide Inv, PublisherStep, WellFormed, PublisherEnvOk, Undisturbed, PublisherRely, Unvisited, Happens, PublisherLuns,
           Partial;
      ghost var mid := backend.env(backend.calls, backend.View());
      ghost var fault := backend.faults(backend.calls);
      label before:
      r := backend.UpdateExtent(p.extentId, Some(true), None);
      BeforeWrite@before();
      PublisherRelyFacts(config, old(backend.View()), mid);
      PartialSame(config, old(backend.View()), mid);
      OpenStep(config, releases, p, mid, backend.View(), r.Err?, fault);
      AfterWrite@before(releases, Working, UpdateExtent(p.extentId, Some(true), None), r.Err?);
    }

    /** _set_all_enabled(True). */
    method OpenAll(ghost releases: set<string>) returns (o: Outcome)
      requires Tracks()
      requires OnMasters(config, backend.View()) && NoPartial(config, releases, backend.View())
      modifies backend
      ensures Tracks() && Advanced(releases, Working)
      ensures OnMasters(config, backend.View()) && SameMasterSnapshots(config, old(backend.View()), backend.View())
      ensures o.Pass? ==> AllAre(config, true, backend.View())
      ensures o.Fail? ==> o.error == BackendError
      ensures old(Undisturbed()) ==>
                Undisturbed() && IdentitySame(config, old(backend.View()), backend.View()) && o.Pass?
    {
      hide Inv, PublisherStep, WellFormed, PublisherEnvOk, Undisturbed, PublisherRely, Unvisited, PublisherTrail, Grows,
           Partial, IdentitySame, OnMasters, SameMasterSnapshots;
      ghost var s0, log0 := backend.View(), backend.trace;
      LookNil(config, s0, log0, backend.faults);
      ClosedNil(config, s0);
      MasterSnapshotsNil(config, s0);
      for i := 0 to |config.publisher.volumes|
        invariant Tracks() && Advanced(releases, Working)
        invariant OnMasters(config, backend.View()) && SameMasterSnapshots(config, s0, backend.View())
        invariant NoPartial(config, releases, backend.View())
        invariant forall j :: 0 <= j < i ==> Is(config.publisher.volumes[j], true, backend.View())
        invariant old(Undisturbed()) ==> Undisturbed() && IdentitySame(config, s0, backend.View())
      {
        ghost var view, log := backend.View(), backend.trace;
        var result := Open(config.publisher.volumes[i], releases);
        GrowsTransitive(s0, view, backend.View());
        IdentityJoin(config, s0, view, backend.View());
        MasterSnapshotsJoin(config, s0, view, backend.View());
        PartialSame(config, view, backend.View());
        PublisherTrailJoin(config, releases, backend.faults, Working, Working, Working, log0, log, backend.trace);
        forall j | 0 <= j < i ensures Is(config.publisher.volumes[j], true, backend.View()) {
          assert config.publisher.volumes[j].extentId in PublisherExtentIds(config);
          assert On(config.publisher.volumes[j].extentId, view);
        }
        if result.Err? { return Fail(BackendError); }
      }
      o := Pass;
    }

    static lemma MasterSnapshotsNil(config: ServiceConfig, s: State)
      ensures SameMasterSnapshots(config, s, s)
    {
    }

    static lemma MasterSnapshotsJoin(config: ServiceConfig, s: State, t: State, u: State)
      requires SameMasterSnapshots(config, s, t) && SameMasterSnapshots(config, t, u)
      ensures SameMasterSnapshots(config, s, u)
    {
    }

    // ---- Naming ----

    method ReadSnapshot(snapshot: SnapshotId) returns (r: Result<bool>)
      requires Tracks()
      modifies backend
      ensures Tracks() && Advanced({}, Looking) && PublisherRely(config, old(backend.View()), backend.View())
      ensures r.Ok? ==> r.value == (snapshot in backend.View().snapshots)
      ensures r.Err? ==> r.error == BackendError
      ensures old(Faultless()) ==> r.Ok?
      ensures old(Undisturbed()) ==> Undisturbed() && r.Ok?
    {
      hide Inv, PublisherRely, PublisherStep, WellFormed, PublisherEnvOk, Undisturbed, Unvisited;
      label before:
      r := backend.SnapshotExists(snapshot);
      AfterLook@before(SnapshotExists(snapshot), r.Err?);
    }

    /** Whether any volume has a snapshot of this name; every volume is asked. */
    method Collides(candidate: string) returns (r: Result<bool>)
      requires Tracks()
      modifies backend
      ensures Tracks() && Advanced({}, Looking) && PublisherRely(config, old(backend.View()), backend.View())
      ensures r.Ok? ==> r.value == Taken(config, candidate, backend.View())
      ensures r.Err? ==> r.error == BackendError
      ensures old(Undisturbed()) ==> Undisturbed() && r.Ok?
    {
      hide Inv, PublisherRely, PublisherStep, PublisherEnvOk, Undisturbed, Unvisited, PublisherTrail, Grows, SnapshotPath,
           WellFormed;
      ghost var s0, log0 := backend.View(), backend.trace;
      LookNil(config, s0, log0, backend.faults);
      var any := false;
      for i := 0 to |config.publisher.volumes|
        invariant Tracks() && Advanced({}, Looking) && PublisherRely(config, s0, backend.View())
        invariant any == exists j :: 0 <= j < i && TakenBy(config.publisher.volumes[j], candidate, backend.View())
        invariant old(Undisturbed()) ==> Undisturbed()
      {
        ghost var view, log := backend.View(), backend.trace;
        var p := config.publisher.volumes[i];
        PathOf(config, p, candidate);
        var found := ReadSnapshot(SnapshotPath(config, p.name, candidate));
        LookJoin(config, s0, view, backend.View());
        PublisherTrailJoin(config, {}, backend.faults, Looking, Looking, Looking, log0, log, backend.trace);
        TakenKept(config, candidate, view, backend.View());
        if found.Err? { return Err(BackendError); }
        any := any || found.value;
        assert found.value == TakenBy(p, candidate, backend.View());
      }
      TakenByAll(config, candidate, backend.View());
      r := Ok(any);
    }

    static ghost predicate TakenBy(p: PublisherVolume, name: string, s: State) {
      At(p.dataset, name) in s.snapshots
    }

    static lemma PathOf(config: ServiceConfig, p: PublisherVolume, name: string)
      requires WellFormed(config) && p in config.publisher.volumes
      ensures SnapshotPath(config, p.name, name) == At(p.dataset, name)
      ensures p.dataset in Masters(config) && p.name in PublisherNames(config)
    {
      MasterDatasetOf(config.publisher.volumes, p);
    }

    static lemma TakenKept(config: ServiceConfig, name: string, s: State, t: State)
      requires PublisherRely(config, s, t)
      ensures forall p :: p in config.publisher.volumes ==> (TakenBy(p, name, s) <==> TakenBy(p, name, t))
      ensures Taken(config, name, s) <==> Taken(config, name, t)
    {
    }

    static lemma TakenByAll(config: ServiceConfig, name: string, s: State)
      ensures Taken(config, name, s) <==>
                exists j :: 0 <= j < |config.publisher.volumes| && TakenBy(config.publisher.volumes[j], name, s)
    {
    }

    /** Every name that is not fresh, as a finite set. */
    ghost function UsedNames(s: State): set<string>
      reads store
    {
      store.releases.Keys + set n | n in s.snapshots && n.dataset in Masters(config) :: n.name
    }

    lemma NotFreshIsUsed(s: State, name: string)
      requires !FreshName(config, store.View(), s, name)
      ensures name in UsedNames(s)
    {
    }

    /**
     * _next_release_name: the least sequence number whose name no release has and no volume has a
     * snapshot of. The search ends because it can only pass names that are in use.
     */
    method NextReleaseName(date: string) returns (r: Result<string>, ghost k: nat)
      requires Tracks()
      modifies backend
      ensures Tracks() && Advanced({}, Looking) && PublisherRely(config, old(backend.View()), backend.View())
      ensures r.Ok? ==> 1 <= k <= |UsedNames(old(backend.View()))| + 1 && r.value == ReleaseName(config.prefix, date, k)
      ensures r.Ok? ==> FreshName(config, store.View(), backend.View(), r.value)
      ensures r.Ok? ==> forall j :: 1 <= j < k ==>
                !FreshName(config, store.View(), old(backend.View()), ReleaseName(config.prefix, date, j))
      ensures r.Err? ==> r.error == BackendError
      ensures old(Undisturbed()) ==> Undisturbed() && r.Ok?
    {
      hide Inv, PublisherRely, PublisherStep, PublisherEnvOk, Undisturbed, Unvisited, PublisherTrail, Grows, SnapshotPath,
           WellFormed, ReleaseName, UsedNames, Taken;
      ghost var s0, log0 := backend.View(), backend.trace;
      LookNil(config, s0, log0, backend.faults);
      ghost var passed: set<string> := {};
      var sequence := 1;
      while true
        invariant Tracks() && Advanced({}, Looking) && PublisherRely(config, s0, backend.View())
        invariant sequence >= 1 && |passed| == sequence - 1 && passed <= UsedNames(s0)
        invariant forall n :: n in passed ==> exists j :: 1 <= j < sequence && n == ReleaseName(config.prefix, date, j)
        invariant forall j :: 1 <= j < sequence ==>
          !FreshName(config, store.View(), s0, ReleaseName(config.prefix, date, j))
        invariant old(Undisturbed()) ==> Undisturbed()
        decreases |UsedNames(s0)| - |passed|
      {
        Subset(passed, UsedNames(s0));
        var candidate := ReleaseName(config.prefix, date, sequence);
        if candidate !in store.releases {
          ghost var view, log := backend.View(), backend.trace;
          var collides := Collides(candidate);
          LookJoin(config, s0, view, backend.View());
          PublisherTrailJoin(config, {}, backend.faults, Looking, Looking, Looking, log0, log, backend.trace);
          TakenKept(config, candidate, s0, backend.View());
          if collides.Err? { return Err(BackendError), 0; }
          if !collides.value { return Ok(candidate), sequence; }
        }
        NotFreshIsUsed(s0, candidate);
        NewName(config.prefix, date, sequence, passed);
        passed := passed + {candidate};
        Subset(passed, UsedNames(s0));
        sequence := sequence + 1;
      }
    }

    static lemma NewName(prefix: string, date: string, sequence: nat, passed: set<string>)
      requires forall n :: n in passed ==> exists j :: 1 <= j < sequence && n == ReleaseName(prefix, date, j)
      ensures ReleaseName(prefix, date, sequence) !in passed
    {
      hide ReleaseName;
      if ReleaseName(prefix, date, sequence) in passed {
        var j :| 1 <= j < sequence && ReleaseName(prefix, date, sequence) == ReleaseName(prefix, date, j);
        ReleaseNameInjective(prefix, date, sequence, j);
        assert false;
      }
    }

    static lemma {:induction false} Subset<T>(a: set<T>, b: set<T>)
      requires a <= b
      ensures |a| <= |b|
    {
      if a != {} {
        var x :| x in a;
        Subset(a - {x}, b - {x});
      }
    }

    // ---- Snapshots ----

    method Take(p: PublisherVolume, release: string, ghost releases: set<string>) returns (o: Outcome)
      requires Tracks() && p in config.publisher.volumes && release in releases
      requires AllDisabled(PublisherExtentIds(config), backend.View())
      modifies backend
      ensures Tracks() && Advanced(releases, Working) && OwnSame(config, old(backend.View()), backend.View())
      ensures OnlyTaken(config, p.dataset, release, old(backend.View()), backend.View())
      ensures o.Pass? ==> At(p.dataset, release) in backend.View().snapshots
      ensures o.Fail? ==> o.error == BackendError
      ensures old(Undisturbed()) ==>
                Undisturbed() && (At(p.dataset, release) !in old(backend.View()).snapshots ==> o.Pass?)
    {
      hide Inv, PublisherStep, WellFormed, PublisherEnvOk, Undisturbed, PublisherRely, Unvisited, Happens, PublisherLuns;
      ghost var mid := backend.env(backend.calls, backend.View());
      ghost var fault := backend.faults(backend.calls);
      label before:
      var r := backend.CreateSnapshot(p.dataset, release);
      BeforeWrite@before();
      PublisherRelyFacts(config, old(backend.View()), mid);
      MasterExists(config, p, mid);
      TakeStep(config, releases, p.dataset, release, mid, backend.View(), r.Err?, fault);
      AfterWrite@before(releases, Working, Op.CreateSnapshot(p.dataset, release), r.Err?);
      o := if r.Err? then Fail(r.error) else Pass;
    }

    static lemma MasterExists(config: ServiceConfig, p: PublisherVolume, s: State)
      requires Inv(config, s) && p in config.publisher.volumes
      ensures p.dataset in Masters(config) && p.dataset in s.datasets
    {
    }

    /** Among the masters' snapshots, only this one may be new. */
    static ghost predicate OnlyTaken(config: ServiceConfig, m: string, release: string, s: State, t: State) {
      forall d, r :: d in Masters(config) && At(d, r) in t.snapshots ==>
        At(d, r) in s.snapshots || (d == m && r == release)
    }

    /** Among the masters' snapshots, only those of this release may be new. */
    static ghost predicate OnlyRelease(config: ServiceConfig, release: string, s: State, t: State) {
      forall d, r :: d in Masters(config) && At(d, r) in t.snapshots ==> At(d, r) in s.snapshots || r == release
    }

    static lemma OnlyReleaseJoin(config: ServiceConfig, release: string, s: State, t: State, u: State)
      ensures OnlyRelease(config, release, s, t) && OnlyRelease(config, release, t, u) ==> OnlyRelease(config, release, s, u)
      ensures SameMasterSnapshots(config, s, t) ==> OnlyRelease(config, release, s, t)
      ensures forall m :: OnlyTaken(config, m, release, s, t) ==> OnlyRelease(config, release, s, t)
      ensures OnlyRelease(config, release, s, s)
    {
    }

    static lemma OwnJoin(config: ServiceConfig, s: State, t: State, u: State)
      ensures OwnSame(config, s, s)
      ensures OwnSame(config, s, t) && OwnSame(config, t, u) ==> OwnSame(config, s, u)
    {
    }

    static lemma OwnFacts(config: ServiceConfig, s: State, t: State)
      requires OwnSame(config, s, t) && t.extents.Keys == s.extents.Keys
      ensures AllDisabled(PublisherExtentIds(config), s) ==> AllDisabled(PublisherExtentIds(config), t)
      ensures OnMasters(config, s) ==> OnMasters(config, t)
      ensures IdentitySame(config, s, t)
    {
    }

    /** The snapshot exists afterwards: it did before, or it is taken now. */
    method EnsureSnapshot(p: PublisherVolume, release: string, snapshot: SnapshotId, ghost releases: set<string>)
      returns (o: Outcome)
      requires Tracks() && p in config.publisher.volumes && release in releases && snapshot == At(p.dataset, release)
      requires AllDisabled(PublisherExtentIds(config), backend.View())
      modifies backend
      ensures Tracks() && Advanced(releases, Working) && OwnSame(config, old(backend.View()), backend.View())
      ensures OnlyRelease(config, release, old(backend.View()), backend.View())
      ensures o.Pass? ==> snapshot in backend.View().snapshots
      ensures o.Fail? ==> o.error in {NotReady, BackendError}
      ensures old(Undisturbed()) ==> Undisturbed() && o.Pass?
    {
      hide Inv, PublisherRely, PublisherStep, PublisherEnvOk, Undisturbed, Unvisited, PublisherTrail, Grows,
           WellFormed, OwnSame, AllDisabled, OnlyRelease, OnlyTaken;
      ghost var s0, log0 := backend.View(), backend.trace;
      var found := ReadSnapshot(snapshot);
      ghost var s1, log1 := backend.View(), backend.trace;
      PublisherRelyFacts(config, s0, s1);
      ClosingSuitsAll(config, releases, backend.faults, Looking, log0, log1);
      LookNil(config, s1, log1, backend.faults);
      PublisherTrailJoin(config, releases, backend.faults, Looking, Looking, Working, log0, log1, log1);
      OnlyReleaseJoin(config, release, s0, s1, s1);
      if found.Err? { return Fail(BackendError); }
      if !found.value {
        var taken := Take(p, release, releases);
        GrowsTransitive(s0, s1, backend.View());
        OwnJoin(config, s0, s1, backend.View());
        OnlyReleaseJoin(config, release, s1, backend.View(), backend.View());
        OnlyReleaseJoin(config, release, s0, s1, backend.View());
        PublisherTrailJoin(config, releases, backend.faults, Working, Working, Working, log0, log1, backend.trace);
        if taken.Fail? { return taken; }
      }
      ghost var s2, log2 := backend.View(), backend.trace;
      found := ReadSnapshot(snapshot);
      PublisherRelyFacts(config, s2, backend.View());
      ClosingSuitsAll(config, releases, backend.faults, Looking, log2, backend.trace);
      PublisherTrailJoin(config, releases, backend.faults, Working, Looking, Working, log0, log2, backend.trace);
      GrowsTransitive(s0, s2, backend.View());
      OwnJoin(config, s0, s2, backend.View());
      OnlyReleaseJoin(config, release, s2, backend.View(), backend.View());
      OnlyReleaseJoin(config, release, s0, s2, backend.View());
      SnapshotKept(snapshot, s2, backend.View());
      if found.Err? { return Fail(BackendError); }
      o := if found.value then Pass else Fail(NotReady);
    }

    /** One round of the snapshot loop: the mapping must not have changed; ensure, then record. */
    method TakeSnapshot(p: PublisherVolume, release: string, existing: ReleaseRecord) returns (o: Outcome)
      requires Tracks() && p in config.publisher.volumes && release in store.releases
      requires AllDisabled(PublisherExtentIds(config), backend.View())
      requires existing == Record(store.View(), release)
      modifies backend, store
      ensures Tracks() && Advanced(store.releases.Keys, Working) && OwnSame(config, old(backend.View()), backend.View())
      ensures OnlyRelease(config, release, old(backend.View()), backend.View())
      ensures o.Pass? ==> At(p.dataset, release) in backend.View().snapshots
      ensures o.Pass? ==> Some(store.View()) == Added(old(store.View()), release, p.name, At(p.dataset, release))
      ensures o.Fail? ==> store.View() == old(store.View()) && o.error in {NotReady, BackendError, StoreError, StoreIncomplete}
      ensures store.releases == old(store.releases)
      ensures old(Undisturbed()) ==>
                Undisturbed() &&
                (!store.readOnly && Added(old(store.View()), release, p.name, At(p.dataset, release)).Some? ==> o.Pass?)
    {
      hide Inv, PublisherRely, PublisherStep, PublisherEnvOk, Undisturbed, Unvisited, PublisherTrail, Grows, SnapshotPath,
           WellFormed, Taken, OwnSame, AllDisabled, OnlyRelease, OnlyTaken;
      LookNil(config, backend.View(), backend.trace, backend.faults);
      OwnJoin(config, backend.View(), backend.View(), backend.View());
      OnlyReleaseJoin(config, release, backend.View(), backend.View(), backend.View());
      PathOf(config, p, release);
      RecordedIn(store.View(), release, p.name);
      var snapshot := SnapshotPath(config, p.name, release);
      if p.name in existing.snapshots && existing.snapshots[p.name] != snapshot { return Fail(NotReady); }
      o := EnsureSnapshot(p, release, snapshot, store.releases.Keys);
      if o.Fail? { return; }
      o := store.AddSnapshot(release, p.name, snapshot);
    }

    static lemma SnapshotKept(n: SnapshotId, s: State, t: State)
      requires Grows(s, t)
      ensures n in s.snapshots ==> n in t.snapshots
    {
    }

    static lemma RecordedIn(db: Db, release: string, volume: string)
      requires release in db.releases
      ensures volume in SnapshotsOf(db, release) <==> (release, volume) in db.volumes
      ensures volume in SnapshotsOf(db, release) ==> SnapshotsOf(db, release)[volume] == db.volumes[(release, volume)]
      ensures Record(db, release).snapshots == SnapshotsOf(db, release) && Record(db, release).name == release
    {
    }

    /** Only rows of this release were added, and each is an expected one. */
    static ghost predicate RowsAdded(config: ServiceConfig, release: string, db: Db, next: Db) {
      && next.releases == db.releases && next.active == db.active && next.operations == db.operations
      && (forall k :: k in db.volumes ==> k in next.volumes && next.volumes[k] == db.volumes[k])
      && (forall k :: k in next.volumes && k !in db.volumes ==>
            exists p :: p in config.publisher.volumes && k == (release, p.name) && next.volumes[k] == At(p.dataset, release))
    }

    /** The rows of this release are expected ones, and no other release owns an expected snapshot. */
    static ghost predicate Resumable(config: ServiceConfig, release: string, db: Db) {
      && (forall p :: p in config.publisher.volumes && (release, p.name) in db.volumes ==>
            db.volumes[(release, p.name)] == At(p.dataset, release))
      && (forall p :: p in config.publisher.volumes && At(p.dataset, release) in db.volumes.Values ==>
            (release, p.name) in db.volumes)
    }

    static ghost predicate DistinctDatasets(config: ServiceConfig) {
      forall i, j :: 0 <= i < j < |config.publisher.volumes| ==>
        config.publisher.volumes[i].dataset != config.publisher.volumes[j].dataset
    }

    static ghost predicate RecordedTo(config: ServiceConfig, release: string, i: nat, db: Db) {
      forall j :: 0 <= j < i && j < |config.publisher.volumes| ==>
        (release, config.publisher.volumes[j].name) in db.volumes
    }

    /** Every added row names a snapshot that exists. */
    static ghost predicate RowsExist(db: Db, next: Db, s: State) {
      forall k :: k in next.volumes && k !in db.volumes ==> next.volumes[k] in s.snapshots
    }

    static lemma RowsExistNext(release: string, p: PublisherVolume, db0: Db, db: Db, next: Db, s: State)
      requires RowsExist(db0, db, s) && At(p.dataset, release) in s.snapshots
      requires Added(db, release, p.name, At(p.dataset, release)) == Some(next)
      ensures RowsExist(db0, next, s)
    {
    }

    static lemma RowsNext(config: ServiceConfig, release: string, p: PublisherVolume, db0: Db, db: Db, next: Db)
      requires DbInv(db) && p in config.publisher.volumes && RowsAdded(config, release, db0, db)
      requires Added(db, release, p.name, At(p.dataset, release)) == Some(next)
      ensures DbInv(next) && RowsAdded(config, release, db0, next)
    {
      AddKeeps(db, release, p.name, At(p.dataset, release));
    }

    static lemma ResumableNext(config: ServiceConfig, release: string, i: nat, db: Db, next: Db)
      requires WellFormed(config) && DistinctDatasets(config) && i < |config.publisher.volumes|
      requires IncompleteIn(db, release) && Resumable(config, release, db) && RecordedTo(config, release, i, db)
      requires var p := config.publisher.volumes[i]; Added(db, release, p.name, At(p.dataset, release)) == Some(next)
      ensures Resumable(config, release, next) && RecordedTo(config, release, i + 1, next)
    {
    }

    static lemma SameDataset(config: ServiceConfig, p: PublisherVolume, q: PublisherVolume)
      requires DistinctDatasets(config) && p in config.publisher.volumes && q in config.publisher.volumes
      requires p.dataset == q.dataset
      ensures p == q
    {
    }

    static lemma ResumableAdds(config: ServiceConfig, release: string, p: PublisherVolume, db: Db)
      requires IncompleteIn(db, release) && Resumable(config, release, db) && p in config.publisher.volumes
      ensures Added(db, release, p.name, At(p.dataset, release)).Some?
    {
    }

    method TakeSnapshots(release: string, record: ReleaseRecord) returns (r: Result<ReleaseRecord>)
      requires Tracks() && IncompleteIn(store.View(), release) && DbInv(store.View())
      requires AllDisabled(PublisherExtentIds(config), backend.View())
      requires record == Record(store.View(), release)
      modifies backend, store
      ensures Tracks() && Advanced(store.releases.Keys, Working) && OwnSame(config, old(backend.View()), backend.View())
      ensures AllDisabled(PublisherExtentIds(config), backend.View())
      ensures OnlyRelease(config, release, old(backend.View()), backend.View())
      ensures DbInv(store.View()) && RowsAdded(config, release, old(store.View()), store.View())
      ensures RowsExist(old(store.View()), store.View(), backend.View())
      ensures r.Ok? ==> r.value == Record(store.View(), release) && Complete(config, release, backend.View())
      ensures r.Err? ==> r.error in {NotReady, BackendError, StoreError, StoreIncomplete}
      ensures old(Undisturbed()) ==>
                Undisturbed() &&
                (!store.readOnly && Resumable(config, release, old(store.View())) && DistinctDatasets(config) ==>
                   r.Ok? && Resumable(config, release, store.View()) &&
                   RecordedTo(config, release, |config.publisher.volumes|, store.View()))
    {
      hide Inv, PublisherRely, PublisherStep, PublisherEnvOk, Undisturbed, Unvisited, PublisherTrail, Grows,
           WellFormed, Taken, OwnSame, AllDisabled, OnlyRelease, OnlyTaken, DbInv, RowsAdded, Resumable, RecordedTo,
           DistinctDatasets, Record, Added, RowsExist, Going;
      ghost var s0, log0, db0 := backend.View(), backend.trace, store.View();
      ghost var releases := store.releases.Keys;
      LookNil(config, s0, log0, backend.faults);
      GoingFrom(config, release, s0, db0);
      RecordedNone(config, release, db0);
      var existing := record;
      for i := 0 to |config.publisher.volumes|
        invariant Tracks() && store.releases == old(store.releases) && Advanced(releases, Working)
        invariant Going(config, release, s0, db0, backend.View(), store.View())
        invariant existing == Record(store.View(), release)
        invariant forall j :: 0 <= j < i ==> TakenBy(config.publisher.volumes[j], release, backend.View())
        invariant old(Undisturbed()) ==>
          Undisturbed() &&
          (!store.readOnly && Resumable(config, release, db0) && DistinctDatasets(config) ==>
             Resumable(config, release, store.View()) && RecordedTo(config, release, i, store.View()))
      {
        ghost var view, log, db := backend.View(), backend.trace, store.View();
        var p := config.publisher.volumes[i];
        if Resumable(config, release, db) { ResumableAdds(config, release, p, db); }
        GoingFacts(config, release, s0, db0, view, db);
        var taken := TakeSnapshot(p, release, existing);
        GrowsTransitive(s0, view, backend.View());
        GoingOn(config, release, s0, db0, view, backend.View(), db);
        GoingFacts(config, release, s0, db0, backend.View(), db);
        PublisherTrailJoin(config, releases, backend.faults, Working, Working, Working, log0, log, backend.trace);
        TakenGrows(config, release, view, backend.View());
        if taken.Fail? { return Err(taken.error); }
        GoingNext(config, release, p, s0, db0, backend.View(), db, store.View());
        if Resumable(config, release, db) && RecordedTo(config, release, i, db) && DistinctDatasets(config) {
          ResumableNext(config, release, i, db, store.View());
        }
        existing := Record(store.View(), release);
      }
      GoingFacts(config, release, s0, db0, backend.View(), store.View());
      CompleteFromAll(config, release, backend.View());
      r := Ok(existing);
    }

    /** While the snapshots are being taken: extents off, and only this release's snapshots and rows added. */
    static ghost predicate Going(config: ServiceConfig, release: string, s0: State, db0: Db, s: State, db: Db) {
      && OwnSame(config, s0, s) && AllDisabled(PublisherExtentIds(config), s) && OnlyRelease(config, release, s0, s)
      && DbInv(db) && RowsAdded(config, release, db0, db) && RowsExist(db0, db, s)
    }

    static lemma GoingFrom(config: ServiceConfig, release: string, s: State, db: Db)
      requires AllDisabled(PublisherExtentIds(config), s) && DbInv(db)
      ensures Going(config, release, s, db, s, db)
    {
    }

    static lemma GoingFacts(config: ServiceConfig, release: string, s0: State, db0: Db, s: State, db: Db)
      requires Going(config, release, s0, db0, s, db)
      ensures OwnSame(config, s0, s) && AllDisabled(PublisherExtentIds(config), s) && OnlyRelease(config, release, s0, s)
      ensures DbInv(db) && RowsAdded(config, release, db0, db) && RowsExist(db0, db, s)
    {
    }

    static lemma GoingOn(config: ServiceConfig, release: string, s0: State, db0: Db, s: State, t: State, db: Db)
      requires Going(config, release, s0, db0, s, db) && Grows(s, t)
      requires OwnSame(config, s, t) && OnlyRelease(config, release, s, t)
      ensures Going(config, release, s0, db0, t, db)
    {
    }

    static lemma GoingNext(
      config: ServiceConfig, release: string, p: PublisherVolume, s0: State, db0: Db, s: State, db: Db, next: Db)
      requires Going(config, release, s0, db0, s, db) && p in config.publisher.volumes
      requires At(p.dataset, release) in s.snapshots
      requires Added(db, release, p.name, At(p.dataset, release)) == Some(next)
      ensures Going(config, release, s0, db0, s, next)
    {
      hide OwnSame, OnlyRelease, AllDisabled, DbInv, RowsAdded, RowsExist, Added;
      RowsNext(config, release, p, db0, db, next);
      RowsExistNext(release, p, db0, db, next, s);
    }

    static lemma RecordedNone(config: ServiceConfig, release: string, db: Db)
      ensures RecordedTo(config, release, 0, db)
    {
    }

    static lemma TakenGrows(config: ServiceConfig, release: string, s: State, t: State)
      requires Grows(s, t)
      ensures forall p :: TakenBy(p, release, s) ==> TakenBy(p, release, t)
    {
    }

    static lemma CompleteFromAll(config: ServiceConfig, release: string, s: State)
      requires forall j :: 0 <= j < |config.publisher.volumes| ==> TakenBy(config.publisher.volumes[j], release, s)
      ensures Complete(config, release, s)
    {
    }

    /** A recorded release is the expected one exactly when every volume has its row. */
    static lemma SnapshotsExpected(config: ServiceConfig, release: string, db: Db)
      requires WellFormed(config) && release in db.releases && Resumable(config, release, db)
      requires RecordedTo(config, release, |config.publisher.volumes|, db)
      requires forall v :: (release, v) in db.volumes ==> v in PublisherNames(config)
      ensures SnapshotsOf(db, release) == Expected(config, release)
    {
      hide SnapshotPath;
      forall v | v in PublisherNames(config)
        ensures v in SnapshotsOf(db, release) && SnapshotsOf(db, release)[v] == Expected(config, release)[v]
      {
        var j :| 0 <= j < |config.publisher.volumes| && config.publisher.volumes[j].name == v;
        RecordedIn(db, release, v);
        PathOf(config, config.publisher.volumes[j], release);
      }
      forall v | v in SnapshotsOf(db, release) ensures v in Expected(config, release) {
        RecordedIn(db, release, v);
      }
    }

    /** Each snapshot has one owner, so an expected release needs distinct master datasets. */
    static lemma ExpectedNeedsDistinct(config: ServiceConfig, release: string, db: Db)
      requires WellFormed(config) && DbInv(db) && release in db.releases
      requires SnapshotsOf(db, release) == Expected(config, release)
      ensures DistinctDatasets(config)
    {
      hide SnapshotPath;
      forall i, j | 0 <= i < j < |config.publisher.volumes|
        ensures config.publisher.volumes[i].dataset != config.publisher.volumes[j].dataset
      {
        var p, q := config.publisher.volumes[i], config.publisher.volumes[j];
        PathOf(config, p, release);
        PathOf(config, q, release);
        RecordedIn(db, release, p.name);
        RecordedIn(db, release, q.name);
        assert (release, p.name) != (release, q.name);
      }
    }

    // ---- The end of stage ----

    /** Opening the extents, verifying them, and a last look at the sessions. */
    method Reopen(ghost releases: set<string>, originals: seq<Extent>) returns (o: Outcome)
      requires Tracks() && |originals| == |config.publisher.volumes|
      requires OnMasters(config, backend.View()) && NoPartial(config, releases, backend.View())
      modifies backend
      ensures Tracks() && Advanced(releases, Working) && SameMasterSnapshots(config, old(backend.View()), backend.View())
      ensures o.Pass? ==> AllFinal(config, originals, backend.View()) && PublisherLuns(config, backend.View())
      ensures o.Pass? ==> QuietEnd(backend.trace)
      ensures o == Fail(PublisherSessionActive) ==>
                SeenActive(GuardFor(config), |old(backend.trace)|, backend.trace)
      ensures old(Undisturbed()) ==>
                Undisturbed() &&
                (PublisherLuns(config, old(backend.View())) && IdentityAs(config, originals, old(backend.View())) ==> o.Pass?)
    {
      hide Inv, PublisherRely, PublisherStep, PublisherEnvOk, Undisturbed, Unvisited, PublisherTrail, Grows, WellFormed,
           OnMasters, NoPartial, SameMasterSnapshots, AllFinal, IdentityAs, IdentitySame, PublisherLuns, Closed;
      ghost var s0, log0 := backend.View(), backend.trace;
      o := VerifyTargetLuns();
      ghost var s1, log1 := backend.View(), backend.trace;
      PublisherRelyFacts(config, s0, s1);
      NoPartialKept(config, releases, s0, s1);
      ClosingSuitsAll(config, releases, backend.faults, Looking, log0, log1);
      LookNil(config, s1, log1, backend.faults);
      PublisherTrailJoin(config, releases, backend.faults, Looking, Looking, Working, log0, log1, log1);
      if o.Fail? { return; }
      o := OpenAll(releases);
      ghost var s2, log2 := backend.View(), backend.trace;
      GrowsTransitive(s0, s1, s2);
      GrowsLuns(config, s1, s2);
      MasterSnapshotsJoin(config, s0, s1, s2);
      IdentityJoin(config, s0, s1, s2);
      PublisherTrailJoin(config, releases, backend.faults, Working, Working, Working, log0, log1, log2);
      if o.Fail? { return; }
      if IdentityAs(config, originals, s0) && IdentitySame(config, s0, s2) { FinalNow(config, originals, s0, s2); }
      o := VerifyFinalExtents(originals);
      ghost var s3, log3 := backend.View(), backend.trace;
      PublisherRelyFacts(config, s2, s3);
      GrowsTransitive(s0, s2, s3);
      GrowsLuns(config, s2, s3);
      MasterSnapshotsJoin(config, s0, s2, s3);
      ClosingSuitsAll(config, releases, backend.faults, Looking, log2, log3);
      PublisherTrailJoin(config, releases, backend.faults, Working, Looking, Working, log0, log2, log3);
      if o.Fail? { return; }
      o := EndQuietly(releases, originals);
      GrowsTransitive(s0, s3, backend.View());
      MasterSnapshotsJoin(config, s0, s3, backend.View());
      PublisherTrailJoin(config, releases, backend.faults, Working, Working, Working, log0, log3, backend.trace);
      PublisherTrailPrefix(config, releases, backend.faults, Working, log3, backend.trace);
      SeenSince(releases, log0, log3, backend.trace, o == Fail(PublisherSessionActive));
    }

    lemma SeenSince(releases: set<string>, before: seq<Step>, middle: seq<Step>, log: seq<Step>, active: bool)
      requires PublisherTrail(config, releases, backend.faults, Working, before, middle) && middle <= log
      requires active ==> SeenActive(GuardFor(config), |middle|, log)
      ensures active ==> SeenActive(GuardFor(config), |before|, log)
    {
      if active { SeenActiveLater(GuardFor(config), |middle|, |before|, log, log); }
    }

    method EndQuietly(ghost releases: set<string>, originals: seq<Extent>) returns (o: Outcome)
      requires Tracks() && AllFinal(config, originals, backend.View()) && PublisherLuns(config, backend.View())
      modifies backend
      ensures Tracks() && Advanced(releases, Working) && SameMasterSnapshots(config, old(backend.View()), backend.View())
      ensures o.Pass? ==> AllFinal(config, originals, backend.View()) && PublisherLuns(config, backend.View())
      ensures o.Pass? ==> QuietEnd(backend.trace)
      ensures o == Fail(PublisherSessionActive) ==>
                SeenActive(GuardFor(config), |old(backend.trace)|, backend.trace)
      ensures old(Undisturbed()) ==> Undisturbed() && o.Pass?
    {
      hide Inv, PublisherRely, PublisherStep, PublisherEnvOk, Undisturbed, Unvisited, PublisherTrail, Grows, WellFormed,
           SameMasterSnapshots, AllFinal, PublisherLuns;
      ghost var s0, log0 := backend.View(), backend.trace;
      var found := MatchingSessions();
      ghost var s1, log1 := backend.View(), backend.trace;
      PublisherRelyFacts(config, s0, s1);
      FinalKept(config, originals, s0, s1);
      ClosingSuitsAll(config, releases, backend.faults, Looking, log0, log1);
      LookNil(config, s1, log1, backend.faults);
      PublisherTrailJoin(config, releases, backend.faults, Looking, Looking, Working, log0, log1, log1);
      if found.Err? { return Fail(found.error); }
      if found.value {
        BestEffortDisable();
        GrowsTransitive(s0, s1, backend.View());
        MasterSnapshotsJoin(config, s0, s1, backend.View());
        ClosingSuitsAll(config, releases, backend.faults, Closing, log1, backend.trace);
        PublisherTrailJoin(config, releases, backend.faults, Working, Closing, Working, log0, log1, backend.trace);
        PublisherTrailPrefix(config, releases, backend.faults, Closing, log1, backend.trace);
        assert backend.trace[|log0|] == log1[|log0|];
        VisitSeen(log0, backend.trace);
        return Fail(PublisherSessionActive);
      }
      o := Pass;
    }

    /** The last call of the attempt saw no publisher session. */
    lemma VisitSeen(before: seq<Step>, log: seq<Step>)
      requires |before| < |log| && log[|before|].op == ListSessions && !log[|before|].raised
      requires !Unvisited(config, log[|before|].after)
      ensures SeenActive(GuardFor(config), |before|, log)
    {
    }

    ghost predicate QuietEnd(log: seq<Step>) {
      |log| > 0 && log[|log| - 1].op == ListSessions && Unvisited(config, log[|log| - 1].after)
    }

    static lemma NoPartialKept(config: ServiceConfig, releases: set<string>, s: State, t: State)
      requires SameMasterSnapshots(config, s, t)
      ensures NoPartial(config, releases, s) ==> NoPartial(config, releases, t)
    {
    }

    static lemma GrowsLuns(config: ServiceConfig, s: State, t: State)
      requires Grows(s, t)
      ensures PublisherLuns(config, s) ==> PublisherLuns(config, t)
    {
    }

    static lemma FinalNow(config: ServiceConfig, originals: seq<Extent>, s: State, t: State)
      requires IdentityAs(config, originals, s) && IdentitySame(config, s, t)
      requires OnMasters(config, t) && AllAre(config, true, t)
      ensures AllFinal(config, originals, t)
    {
    }

    static lemma FinalKept(config: ServiceConfig, originals: seq<Extent>, s: State, t: State)
      requires AllFinal(config, originals, s) && PublisherRely(config, s, t)
      ensures AllFinal(config, originals, t)
    {
    }

    // ---- Stage ----

    /** No other request's release is incomplete. */
    static ghost predicate OnlyMine(db: Db, requestId: string) {
      forall n :: IncompleteIn(db, n) ==> db.releases[n].requestId == requestId
    }

    static lemma LaterNil(db: Db)
      ensures Later(db, db)
    {
    }

    static lemma LinkInv(config: ServiceConfig, db: Db, s: State)
      requires Link(config, db, s)
      ensures DbInv(db)
    {
    }

    static lemma LookLink(config: ServiceConfig, db: Db, s: State, t: State)
      requires Link(config, db, s) && PublisherRely(config, s, t)
      ensures Link(config, db, t)
    {
    }

    /**
     * Store and storage fit together: recorded snapshots are the configured ones and exist, staged
     * releases are complete, and a half-taken release keeps every publisher extent off.
     */
    static ghost predicate Link(config: ServiceConfig, db: Db, s: State) {
      && DbInv(db) && Agrees(config, db)
      && (forall k :: k in db.volumes ==> db.volumes[k] in s.snapshots)
      && Guarded(config, db, s)
    }

    /** Every stored release agrees with the running volume-to-dataset map. */
    static ghost predicate Agrees(config: ServiceConfig, db: Db) {
      && (forall k :: k in db.volumes ==>
            k.1 in PublisherNames(config) && db.volumes[k] == SnapshotPath(config, k.1, k.0))
      && (forall r :: StagedIn(db, r) ==> VolumesOf(db, r) == PublisherNames(config))
    }

    static ghost predicate Guarded(config: ServiceConfig, db: Db, s: State) {
      forall r :: r in db.releases && Partial(config, r, s) ==> AllDisabled(PublisherExtentIds(config), s)
    }

    static lemma StagedComplete(config: ServiceConfig, db: Db, s: State, release: string)
      requires WellFormed(config) && Link(config, db, s) && StagedIn(db, release)
      ensures Complete(config, release, s) && !Partial(config, release, s)
      ensures SnapshotsOf(db, release) == Expected(config, release)
    {
      hide SnapshotPath, DbInv, Guarded;
      forall m | m in Masters(config) ensures At(m, release) in s.snapshots {
        var p :| p in config.publisher.volumes && p.dataset == m;
        PathOf(config, p, release);
        assert p.name in VolumesOf(db, release);
        assert db.volumes[(release, p.name)] in s.snapshots;
      }
      forall v | v in PublisherNames(config) ensures v in SnapshotsOf(db, release) {
        assert v in VolumesOf(db, release);
      }
    }

    static lemma LinkKept(config: ServiceConfig, db: Db, s: State, t: State)
      requires Link(config, db, s) && Grows(s, t) && SameMasterSnapshots(config, s, t)
      requires AllDisabled(PublisherExtentIds(config), s) ==> AllDisabled(PublisherExtentIds(config), t)
      ensures Link(config, db, t)
    {
    }

    static lemma ClosedKeepsOff(config: ServiceConfig, s: State, t: State)
      requires Closed(config, s, t) && t.extents.Keys == s.extents.Keys
      ensures AllDisabled(PublisherExtentIds(config), s) ==> AllDisabled(PublisherExtentIds(config), t)
      ensures OnMasters(config, s) ==> OnMasters(config, t)
    {
    }

    static lemma AgreesResumable(config: ServiceConfig, db: Db, release: string)
      requires WellFormed(config) && Agrees(config, db) && DistinctDatasets(config)
      ensures Resumable(config, release, db)
    {
      hide SnapshotPath, DbInv, WellFormed;
      forall p | p in config.publisher.volumes
        ensures (release, p.name) in db.volumes ==> db.volumes[(release, p.name)] == At(p.dataset, release)
        ensures At(p.dataset, release) in db.volumes.Values ==> (release, p.name) in db.volumes
      {
        PathOf(config, p, release);
        if At(p.dataset, release) in db.volumes.Values {
          var k :| k in db.volumes && db.volumes[k] == At(p.dataset, release);
          var q :| q in config.publisher.volumes && q.name == k.1;
          PathOf(config, q, k.0);
          SameDataset(config, p, q);
          assert k == (release, p.name);
        }
      }
    }

    /** A reservation adds a release of which no snapshot exists, so the link holds with it. */
    static lemma ReservedLink(config: ServiceConfig, db: Db, s: State, name: string, requestId: string)
      requires WellFormed(config) && Link(config, db, s) && Reserved(db, name, requestId).Some?
      requires !Requested(db, requestId) && !Taken(config, name, s)
      ensures Link(config, Reserved(db, name, requestId).value, s)
    {
      var next := Reserved(db, name, requestId).value;
      ReserveKeeps(db, name, requestId);
      hide SnapshotPath, DbInv;
      forall r | StagedIn(next, r) ensures VolumesOf(next, r) == PublisherNames(config) {
        assert StagedIn(db, r) && VolumesOf(next, r) == VolumesOf(db, r);
      }
    }

    /** The rows a stage added are configured ones, and their snapshots exist. */
    static lemma RowsLink(config: ServiceConfig, db: Db, next: Db, release: string, s: State, t: State)
      requires WellFormed(config) && Link(config, db, s) && RowsAdded(config, release, db, next) && DbInv(next)
      requires IncompleteIn(db, release) && Grows(s, t) && AllDisabled(PublisherExtentIds(config), t)
      requires RowsExist(db, next, t)
      ensures Link(config, next, t)
    {
      hide SnapshotPath, DbInv;
      forall k | k in next.volumes
        ensures k.1 in PublisherNames(config) && next.volumes[k] == SnapshotPath(config, k.1, k.0)
        ensures next.volumes[k] in t.snapshots
      {
        if k !in db.volumes {
          var p :| p in config.publisher.volumes && k == (release, p.name) && next.volumes[k] == At(p.dataset, release);
          PathOf(config, p, release);
        }
      }
      forall r | StagedIn(next, r) ensures VolumesOf(next, r) == PublisherNames(config) {
        assert StagedIn(db, r) && r != release;
        assert forall v :: (r, v) in next.volumes <==> (r, v) in db.volumes;
        assert VolumesOf(next, r) == VolumesOf(db, r);
      }
    }

    static lemma MarkedLink(config: ServiceConfig, db: Db, s: State, release: string)
      requires Link(config, db, s) && Marked(db, release, PublisherNames(config)).Some?
      ensures Link(config, Marked(db, release, PublisherNames(config)).value, s)
    {
      var next := Marked(db, release, PublisherNames(config)).value;
      MarkKeeps(db, release, PublisherNames(config));
      hide SnapshotPath, DbInv;
      forall r | StagedIn(next, r) ensures VolumesOf(next, r) == PublisherNames(config) {
        assert VolumesOf(next, r) == VolumesOf(db, r);
        assert r == release || StagedIn(db, r);
      }
    }

    /** With this release complete no release is half taken: the others are staged. */
    static lemma NonePartial(config: ServiceConfig, db: Db, s: State, release: string)
      requires WellFormed(config) && Link(config, db, s) && IncompleteIn(db, release) && Complete(config, release, s)
      ensures NoPartial(config, db.releases.Keys, s)
    {
      hide SnapshotPath, Agrees, Guarded;
      forall r | r in db.releases ensures !Partial(config, r, s) {
        if r != release {
          assert !IncompleteIn(db, r);
          StagedComplete(config, db, s, r);
        }
      }
    }

    /** The checks of stage before its mutation point. */
    method Inspect() returns (r: Result<seq<Extent>>)
      requires Tracks()
      modifies backend
      ensures Tracks() && Advanced({}, Looking) && PublisherRely(config, old(backend.View()), backend.View())
      ensures r.Ok? ==> Originals(config, r.value, backend.View()) && PublisherLuns(config, backend.View())
      ensures r.Err? ==> r.error in {NotReady, PublisherSessionActive, BackendError}
      ensures r.Ok? ==> Inspected(|old(backend.trace)|, backend.trace)
      ensures r == Err(PublisherSessionActive) ==>
                SeenActive(GuardFor(config), |old(backend.trace)|, backend.trace)
      ensures var mid := backend.env(old(backend.calls), old(backend.View()));
              old(backend.faults(backend.calls)).NoFault? && !Unvisited(config, mid) ==>
                r == Err(PublisherSessionActive) && backend.View() == mid
      ensures old(Idle()) ==>
                (r.Ok? <==> Unvisited(config, old(backend.View())) && Wired(config, old(backend.View())))
      ensures old(Undisturbed()) ==> Undisturbed() && (Wired(config, old(backend.View())) ==> r.Ok?)
    {
      hide Inv, PublisherRely, PublisherStep, PublisherEnvOk, Undisturbed, Unvisited, PublisherTrail, Grows, WellFormed,
           PublisherLuns, Originals, Inspected, SeenClear, SeenActive, GuardFor, Wired, ReadOf;
      ghost var s0, log0 := backend.View(), backend.trace;
      var o := RequireNoSession();
      ghost var s1, log1 := backend.View(), backend.trace;
      PublisherRelyFacts(config, s0, s1);
      WiredKept(config, s0, s1);
      if o.Fail? { return Err(o.error); }
      o := VerifyTargetLuns();
      ghost var s2, log2 := backend.View(), backend.trace;
      LookJoin(config, s0, s1, s2);
      WiredKept(config, s0, s2);
      PublisherTrailJoin(config, {}, backend.faults, Looking, Looking, Looking, log0, log1, log2);
      if o.Fail? { return Err(o.error); }
      r := PublisherExtents();
      PublisherRelyFacts(config, s2, backend.View());
      LookJoin(config, s0, s2, backend.View());
      PublisherTrailPrefix(config, {}, backend.faults, Looking, log0, log1);
      PublisherTrailPrefix(config, {}, backend.faults, Looking, log1, log2);
      PublisherTrailPrefix(config, {}, backend.faults, Looking, log2, backend.trace);
      PublisherTrailJoin(config, {}, backend.faults, Looking, Looking, Looking, log0, log2, backend.trace);
      if r.Ok? {
        InspectWired(r.value, backend.View());
        WiredBack(s0, backend.View());
        InspectedBy(log0, log1, log2, backend.trace);
      }
    }

    /**
     * The log since `from` begins with the checks: a list without a session of the publisher, the LUN table
     * as configured, and every extent.
     */
    ghost predicate Inspected(from: nat, log: seq<Step>) {
      var n := |config.publisher.volumes|;
      && |log| >= from + 2 + n
      && SeenClear(GuardFor(config), log[from])
      && log[from + 1].op == TargetLuns(config.publisher.targetIqn) && !log[from + 1].raised
      && PublisherLuns(config, log[from + 1].after)
      && forall j :: 0 <= j < n ==> ReadOf(config.publisher.volumes[j], log[from + 2 + j])
    }

    lemma InspectedBy(log0: seq<Step>, log1: seq<Step>, log2: seq<Step>, log: seq<Step>)
      requires log0 <= log1 <= log2 <= log && |log1| == |log0| + 1 && |log2| == |log1| + 1
      requires SeenClear(GuardFor(config), log1[|log0|]) && log2[|log1|].op == TargetLuns(config.publisher.targetIqn)
      requires !log2[|log1|].raised && PublisherLuns(config, log2[|log1|].after)
      requires |log| == |log2| + |config.publisher.volumes|
      requires forall j :: 0 <= j < |config.publisher.volumes| ==> ReadOf(config.publisher.volumes[j], log[|log2| + j])
      ensures Inspected(|log0|, log)
    {
      assert log[|log0|] == log1[|log0|] && log[|log1|] == log2[|log1|];
    }

    lemma InspectedLater(from: nat, log: seq<Step>, later: seq<Step>)
      requires Inspected(from, log) && log <= later
      ensures Inspected(from, later)
    {
      hide PublisherLuns, SeenClear;
      var n := |config.publisher.volumes|;
      assert later[from] == log[from] && later[from + 1] == log[from + 1];
      forall j | 0 <= j < n ensures ReadOf(config.publisher.volumes[j], later[from + 2 + j]) {
        assert ReadOf(config.publisher.volumes[j], log[from + 2 + j]);
      }
    }

    /** What is in order after looking was so before. */
    lemma WiredBack(s: State, t: State)
      requires PublisherRely(config, s, t) && Wired(config, t)
      ensures Wired(config, s)
    {
      forall p | p in config.publisher.volumes
        ensures p.extentId in s.extents && s.extents[p.extentId] == t.extents[p.extentId]
      {
        ReadKept(config, p, s, t);
      }
    }

    static lemma WiredKept(config: ServiceConfig, s: State, t: State)
      requires PublisherRely(config, s, t)
      ensures Wired(config, s) ==> Wired(config, t)
    {
    }

    /** Every extent is switched off, seen to be off, and nobody is logged in. */
    method Quiesce() returns (o: Outcome)
      requires Tracks()
      modifies backend
      ensures Tracks() && Advanced({}, Closing) && Closed(config, old(backend.View()), backend.View())
      ensures o.Pass? ==> AllDisabled(PublisherExtentIds(config), backend.View()) && Unvisited(config, backend.View())
      ensures OnlyCloses(|old(backend.trace)|, backend.trace)
      ensures o.Pass? ==> QuietedLast(backend.trace, backend.View()) && |backend.trace| > |old(backend.trace)|
      ensures o == Fail(PublisherSessionActive) ==>
                SeenActive(GuardFor(config), |old(backend.trace)|, backend.trace)
      ensures old(Undisturbed()) ==>
                Undisturbed() && IdentitySame(config, old(backend.View()), backend.View()) &&
                (Wired(config, old(backend.View())) ==> o.Pass?)
    {
      hide Inv, PublisherRely, PublisherStep, PublisherEnvOk, Undisturbed, Unvisited, PublisherTrail, Grows, WellFormed,
           PublisherLuns, Closed, IdentitySame, OnlyCloses, SeenActive, SeenClear, GuardFor;
      ghost var s0, log0 := backend.View(), backend.trace;
      o := CloseAll();
      ghost var s1, log1 := backend.View(), backend.trace;
      if o.Fail? { return; }
      o := VerifyEnabled(false);
      ghost var s2, log2 := backend.View(), backend.trace;
      GrowsTransitive(s0, s1, s2);
      LookClosed(config, s0, s1, s2);
      PublisherTrailJoin(config, {}, backend.faults, Closing, Looking, Closing, log0, log1, log2);
      PublisherTrailPrefix(config, {}, backend.faults, Closing, log0, log1);
      LooksAfter(log0, log1, log2, false);
      if o.Fail? { return; }
      o := RequireNoSession();
      LooksAfter(log0, log2, backend.trace, o == Fail(PublisherSessionActive));
      GrowsTransitive(s0, s2, backend.View());
      LookClosed(config, s0, s2, backend.View());
      PublisherTrailJoin(config, {}, backend.faults, Closing, Looking, Closing, log0, log2, backend.trace);
      AreOff(config, s2);
      PublisherRelyFacts(config, s2, backend.View());
    }

    /** The log ends with a list that showed nobody logged in. */
    ghost predicate QuietedLast(log: seq<Step>, s: State) {
      log != [] && SeenClear(GuardFor(config), log[|log| - 1]) && log[|log| - 1].after == s
    }

    lemma LooksAfter(before: seq<Step>, middle: seq<Step>, log: seq<Step>, active: bool)
      requires before <= middle && OnlyCloses(|before|, middle)
      requires PublisherTrail(config, {}, backend.faults, Looking, middle, log)
      requires active ==> SeenActive(GuardFor(config), |middle|, log)
      ensures before <= log && OnlyCloses(|before|, log) && (active ==> SeenActive(GuardFor(config), |before|, log))
    {
      LooksClose(config, {}, backend.faults, middle, log);
      OnlyClosesJoin(|before|, middle, log);
      if active { SeenActiveLater(GuardFor(config), |middle|, |before|, log, log); }
    }

    static lemma LookClosed(config: ServiceConfig, s: State, t: State, u: State)
      requires Closed(config, s, t) && PublisherRely(config, t, u)
      ensures Closed(config, s, u)
      ensures IdentitySame(config, s, t) ==> IdentitySame(config, s, u)
    {
    }

    static lemma AreOff(config: ServiceConfig, s: State)
      requires AllAre(config, false, s)
      ensures AllDisabled(PublisherExtentIds(config), s)
    {
    }

    /** No master has a snapshot of a name that is new to the store. */
    static ghost predicate NewNamesFree(config: ServiceConfig, known: set<string>, names: set<string>, s: State) {
      known <= names && forall n :: n in names && n !in known ==> !Taken(config, n, s)
    }

    /** A name that is free now was free before. */
    static lemma NewNameWasFree(config: ServiceConfig, known: set<string>, name: string, s: State, t: State)
      requires Grows(s, t) && !Taken(config, name, t)
      ensures NewNamesFree(config, known, known + {name}, s)
    {
    }

    static lemma NamesFreeBefore(config: ServiceConfig, known: set<string>, names: set<string>, s: State, t: State)
      requires Grows(s, t) && NewNamesFree(config, known, names, t)
      ensures NewNamesFree(config, known, names, s)
    {
    }

    static ghost predicate NothingStaged(db: Db, next: Db) {
      forall n :: StagedIn(next, n) ==> StagedIn(db, n)
    }

    /** The release of this request: the known one, or a reservation under the next free name. */
    method ReserveRelease(existing: Option<ReleaseRecord>, requestId: string, date: string)
      returns (r: Result<ReleaseRecord>)
      requires Tracks() && Link(config, store.View(), backend.View())
      requires existing.None? <==> !Requested(store.View(), requestId)
      requires existing.Some? ==>
                 existing.value.name in store.releases && existing.value == Record(store.View(), existing.value.name) &&
                 existing.value.requestId == requestId && existing.value.status.Incomplete?
      modifies backend, store
      ensures Tracks() && Advanced({}, Looking) && PublisherRely(config, old(backend.View()), backend.View())
      ensures Link(config, store.View(), backend.View()) && Later(old(store.View()), store.View())
      ensures store.active == old(store.active)
      ensures r.Err? ==> store.View() == old(store.View()) && r.error in {NotReady, BackendError, StoreError, StoreIncomplete}
      ensures r.Ok? ==> IncompleteIn(store.View(), r.value.name) && r.value == Record(store.View(), r.value.name)
      ensures r.Ok? ==> r.value.requestId == requestId
      ensures r.Ok? && existing.Some? ==> store.View() == old(store.View()) && r.value == existing.value
      ensures NothingStaged(old(store.View()), store.View())
      ensures NewNamesFree(config, old(store.releases.Keys), store.releases.Keys, old(backend.View()))
      ensures old(Undisturbed()) ==>
                Undisturbed() && (!store.readOnly && OnlyMine(old(store.View()), requestId) ==> r.Ok?)
      ensures old(Undisturbed()) && existing.None? && !store.readOnly && !OnlyMine(old(store.View()), requestId) ==>
                r == Err(StoreIncomplete)
    {
      hide Inv, PublisherRely, PublisherStep, PublisherEnvOk, Undisturbed, Unvisited, PublisherTrail, Grows, WellFormed,
           Link, DbInv, Taken, Later, SnapshotsOf, UsedNames;
      LookNil(config, backend.View(), backend.trace, backend.faults);
      LaterNil(store.View());
      if existing.Some? { return Ok(existing.value); }
      var name, _ := NextReleaseName(date);
      LookLink(config, store.View(), old(backend.View()), backend.View());
      if name.Err? { return Err(name.error); }
      LinkInv(config, store.View(), backend.View());
      r := store.Reserve(name.value, requestId);
      if r.Ok? {
        NewNameWasFree(config, old(store.releases.Keys), name.value, old(backend.View()), backend.View());
        ReservedLink(config, old(store.View()), backend.View(), name.value, requestId);
        ReserveKeeps(old(store.View()), name.value, requestId);
      }
    }

    /** What a newly staged release is: complete, as configured, with every master back on. */
    ghost predicate StagedNow(r: ReleaseRecord, originals: seq<Extent>, db: Db, s: State) {
      && StagedIn(db, r.name) && r == Record(db, r.name)
      && r.snapshots == Expected(config, r.name) && Complete(config, r.name, s)
      && AllFinal(config, originals, s) && PublisherLuns(config, s)
    }

    /** Stage after the release is reserved. */
    method StageRelease(record: ReleaseRecord, originals: seq<Extent>) returns (r: Result<ReleaseRecord>)
      requires Tracks() && Link(config, store.View(), backend.View())
      requires IncompleteIn(store.View(), record.name) && record == Record(store.View(), record.name)
      requires AllDisabled(PublisherExtentIds(config), backend.View()) && OnMasters(config, backend.View())
      requires |originals| == |config.publisher.volumes|
      modifies backend, store
      ensures Tracks() && Advanced(store.releases.Keys, Working)
      ensures Link(config, store.View(), backend.View()) && Later(old(store.View()), store.View())
      ensures store.active == old(store.active) && store.releases.Keys == old(store.releases.Keys)
      ensures forall n :: n != record.name ==> IncompleteIn(store.View(), n) == IncompleteIn(old(store.View()), n)
      ensures r.Err? ==> IncompleteIn(store.View(), record.name) && NothingStaged(old(store.View()), store.View())
      ensures r == Err(PublisherSessionActive) ==>
                SeenActive(GuardFor(config), |old(backend.trace)|, backend.trace)
      ensures r.Ok? ==> r.value.name == record.name && StagedNow(r.value, originals, store.View(), backend.View())
      ensures r.Ok? ==> QuietEnd(backend.trace) && DistinctDatasets(config)
      ensures (old(Undisturbed()) && !store.readOnly && DistinctDatasets(config) &&
               PublisherLuns(config, old(backend.View())) && IdentityAs(config, originals, old(backend.View()))) ==> r.Ok?
    {
      hide Inv, PublisherRely, PublisherStep, PublisherEnvOk, Undisturbed, Unvisited, PublisherTrail, Grows, WellFormed,
           Link, DbInv, Later, AllDisabled, OnMasters, PublisherLuns, IdentityAs, AllFinal, OwnSame, OnlyRelease,
           RowsAdded, RowsExist, Resumable, RecordedTo, DistinctDatasets, Complete, Expected, Record, Marked,
           SnapshotsOf, VolumesOf, QuietEnd, NoPartial;
      ghost var s0, log0, db0 := backend.View(), backend.trace, store.View();
      ghost var releases := store.releases.Keys;
      var release := record.name;
      LinkInv(config, db0, s0);
      if DistinctDatasets(config) { LinkResumable(config, db0, s0, release); }
      var taken := TakeSnapshots(release, record);
      ghost var s1, log1, db1 := backend.View(), backend.trace, store.View();
      GrowsKeys(s0, s1);
      OwnFacts(config, s0, s1);
      RowsLink(config, db0, db1, release, s0, s1);
      RowsLater(config, release, db0, db1);
      GrowsLuns(config, s0, s1);
      if IdentityAs(config, originals, s0) { IdentityAsKept(config, originals, s0, s1); }
      if taken.Err? { return Err(taken.error); }
      RecordedIn(db1, release, "");
      if Resumable(config, release, db1) && RecordedTo(config, release, |config.publisher.volumes|, db1) {
        LinkExpected(config, db1, s1, release);
      }
      if taken.value.snapshots != Expected(config, release) { return Err(NotReady); }
      ExpectedNeedsDistinct(config, release, db1);
      NonePartial(config, db1, s1, release);
      var o := Reopen(releases, originals);
      ghost var s2 := backend.View();
      GrowsTransitive(s0, s1, s2);
      PublisherTrailJoin(config, releases, backend.faults, Working, Working, Working, log0, log1, backend.trace);
      OpenedLink(config, db1, s1, s2, release);
      PublisherTrailPrefix(config, releases, backend.faults, Working, log1, backend.trace);
      SeenSince(releases, log0, log1, backend.trace, o == Fail(PublisherSessionActive));
      if o.Fail? { return Err(o.error); }
      ExpectedVolumes(config, release, db1);
      r := store.MarkStaged(release, PublisherNames(config));
      MarkedLink(config, db1, s2, release);
      MarkedFacts(config, release, db1);
      LaterTransitive(db0, db1, store.View());
      RecordedIn(store.View(), release, "");
    }

    static lemma LinkResumable(config: ServiceConfig, db: Db, s: State, release: string)
      requires WellFormed(config) && Link(config, db, s) && DistinctDatasets(config)
      ensures Resumable(config, release, db)
    {
      hide WellFormed, DbInv, Resumable, DistinctDatasets, Agrees, Guarded;
      AgreesResumable(config, db, release);
    }

    static lemma RowsLater(config: ServiceConfig, release: string, db: Db, next: Db)
      requires RowsAdded(config, release, db, next) && IncompleteIn(db, release)
      ensures Later(db, next) && next.active == db.active && next.releases == db.releases
      ensures IncompleteIn(next, release)
    {
    }

    static lemma IdentityAsKept(config: ServiceConfig, originals: seq<Extent>, s: State, t: State)
      requires IdentityAs(config, originals, s) && IdentitySame(config, s, t)
      ensures IdentityAs(config, originals, t)
    {
    }

    static lemma LinkExpected(config: ServiceConfig, db: Db, s: State, release: string)
      requires WellFormed(config) && Link(config, db, s) && release in db.releases
      requires Resumable(config, release, db) && RecordedTo(config, release, |config.publisher.volumes|, db)
      ensures SnapshotsOf(db, release) == Expected(config, release)
    {
      hide WellFormed, DbInv, Resumable, RecordedTo, Guarded, SnapshotPath;
      SnapshotsExpected(config, release, db);
    }

    static lemma ExpectedVolumes(config: ServiceConfig, release: string, db: Db)
      requires SnapshotsOf(db, release) == Expected(config, release) && release in db.releases
      ensures VolumesOf(db, release) == PublisherNames(config)
      ensures Marked(db, release, PublisherNames(config)).Some?
    {
      hide SnapshotPath;
      assert SnapshotsOf(db, release).Keys == VolumesOf(db, release);
      assert Expected(config, release).Keys == PublisherNames(config);
    }

    /** Opening the extents keeps the link: no release is half taken. */
    static lemma OpenedLink(config: ServiceConfig, db: Db, s: State, t: State, release: string)
      requires Link(config, db, s) && NoPartial(config, db.releases.Keys, s)
      requires Grows(s, t) && SameMasterSnapshots(config, s, t)
      ensures Link(config, db, t)
      ensures Complete(config, release, s) ==> Complete(config, release, t)
    {
    }

    static lemma MarkedFacts(config: ServiceConfig, release: string, db: Db)
      requires DbInv(db) && Marked(db, release, PublisherNames(config)).Some?
      ensures var next := Marked(db, release, PublisherNames(config)).value;
              Later(db, next) && StagedIn(next, release) && next.releases.Keys == db.releases.Keys &&
              next.active == db.active && SnapshotsOf(next, release) == SnapshotsOf(db, release) &&
              forall n :: n != release ==> IncompleteIn(next, n) == IncompleteIn(db, n)
    {
      hide DbInv, Later;
      MarkKeeps(db, release, PublisherNames(config));
      var next := Marked(db, release, PublisherNames(config)).value;
      assert next.volumes == db.volumes;
      assert VolumesOf(next, release) == VolumesOf(db, release);
    }

    /** How a failure reaches the caller. */
    static function Reported(error: Error): Error {
      match error
      case StoreIncomplete => ReleaseIncomplete
      case StoreError => NotReady
      case BackendError => NotReady
      case other => other
    }

    static ghost predicate AlreadyStaged(db: Db, requestId: string) {
      exists n :: StagedIn(db, n) && db.releases[n].requestId == requestId
    }

    /** Every master is back on, on its own dataset, with the NAA and serial it had. */
    static ghost predicate PublisherKept(config: ServiceConfig, s: State, t: State) {
      forall p :: p in config.publisher.volumes ==>
        && p.extentId in s.extents && On(p.extentId, t)
        && t.extents[p.extentId].disk == p.dataset == s.extents[p.extentId].disk
        && NormalizeDiskId(t.extents[p.extentId].naa) == NormalizeDiskId(s.extents[p.extentId].naa)
        && t.extents[p.extentId].serial == s.extents[p.extentId].serial
    }

    /** The part of stage after its mutation point. */
    method Mutate(existing: Option<ReleaseRecord>, requestId: string, date: string, originals: seq<Extent>)
      returns (r: Result<ReleaseRecord>)
      requires Tracks() && Link(config, store.View(), backend.View())
      requires existing.None? <==> !Requested(store.View(), requestId)
      requires existing.Some? ==>
                 existing.value.name in store.releases && existing.value == Record(store.View(), existing.value.name) &&
                 existing.value.requestId == requestId && existing.value.status.Incomplete?
      requires Originals(config, originals, backend.View())
      modifies backend, store
      ensures Tracks() && Advanced(store.releases.Keys, Working)
      ensures Link(config, store.View(), backend.View()) && Later(old(store.View()), store.View())
      ensures store.active == old(store.active)
      ensures forall n :: IncompleteIn(store.View(), n) && !IncompleteIn(old(store.View()), n) ==>
                store.releases[n].requestId == requestId
      ensures r.Err? ==> NothingStaged(old(store.View()), store.View())
      ensures Quieted(GuardFor(config), |old(backend.trace)|, backend.trace)
      ensures r == Err(PublisherSessionActive) ==>
                SeenActive(GuardFor(config), |old(backend.trace)|, backend.trace)
      ensures NewNamesFree(config, old(store.releases.Keys), store.releases.Keys, old(backend.View()))
      ensures r.Ok? ==> StagedNow(r.value, originals, store.View(), backend.View()) && r.value.requestId == requestId
      ensures r.Ok? ==> QuietEnd(backend.trace) && DistinctDatasets(config)
      ensures (old(Undisturbed()) && !store.readOnly && DistinctDatasets(config) &&
               Wired(config, old(backend.View())) && OnlyMine(old(store.View()), requestId)) ==> r.Ok?
      ensures (old(Undisturbed()) && existing.None? && !store.readOnly && Wired(config, old(backend.View())) &&
               !OnlyMine(old(store.View()), requestId)) ==> r == Err(StoreIncomplete)
    {
      hide Inv, PublisherRely, PublisherStep, PublisherEnvOk, Undisturbed, Unvisited, PublisherTrail, Grows, WellFormed,
           Link, DbInv, Later, AllDisabled, OnMasters, PublisherLuns, IdentityAs, AllFinal, DistinctDatasets,
           Complete, Expected, SnapshotsOf, VolumesOf, QuietEnd, NoPartial, Wired, Originals, Closed, IdentitySame,
           OnlyMine, StagedNow, Quieted, SeenActive, SeenClear, OnlyCloses, GuardFor;
      ghost var s0, log0, db0 := backend.View(), backend.trace, store.View();
      OriginalsFacts(config, originals, s0);
      LaterNil(db0);
      var o := Quiesce();
      ghost var s1, log1 := backend.View(), backend.trace;
      GrowsKeys(s0, s1);
      ClosedKeepsOff(config, s0, s1);
      ClosedSnapshots(config, s0, s1);
      LinkKept(config, db0, s0, s1);
      if IdentitySame(config, s0, s1) { IdentityAsKept(config, originals, s0, s1); }
      GrowsLuns(config, s0, s1);
      ClosingSuitsAll(config, store.releases.Keys, backend.faults, Closing, log0, log1);
      LookNil(config, s1, log1, backend.faults);
      PublisherTrailJoin(config, store.releases.Keys, backend.faults, Closing, Closing, Working, log0, log1, log1);
      ClosedIsQuieted(GuardFor(config), |log0|, log1);
      if o.Fail? { return Err(o.error); }
      var reserved := ReserveRelease(existing, requestId, date);
      ghost var s2, log2, db2 := backend.View(), backend.trace, store.View();
      ghost var releases := store.releases.Keys;
      PublisherRelyFacts(config, s1, s2);
      IdentityKeptOn(config, originals, s1, s2);
      GrowsTransitive(s0, s1, s2);
      ClosingSuitsAll(config, releases, backend.faults, Closing, log0, log1);
      ClosingSuitsAll(config, releases, backend.faults, Looking, log1, log2);
      PublisherTrailJoin(config, releases, backend.faults, Closing, Looking, Closing, log0, log1, log2);
      LookNil(config, s2, log2, backend.faults);
      PublisherTrailJoin(config, releases, backend.faults, Closing, Closing, Working, log0, log2, log2);
      Quiet(log0, log1, log2, s1);
      if reserved.Err? { return Err(reserved.error); }
      LinkInv(config, db2, s2);
      r := StageRelease(reserved.value, originals);
      GrowsTransitive(s0, s2, backend.View());
      PublisherTrailJoin(config, releases, backend.faults, Working, Working, Working, log0, log2, backend.trace);
      LaterTransitive(db0, db2, store.View());
      PublisherTrailPrefix(config, releases, backend.faults, Working, log2, backend.trace);
      Quiet(log0, log1, backend.trace, s1);
      SeenSince(releases, log0, log2, backend.trace, r == Err(PublisherSessionActive));
      LaterRequest(db2, store.View(), reserved.value.name);
      if r.Ok? { StagedIsRecord(originals, r.value, store.View(), backend.View()); }
      OnlyOne(db2, reserved.value.name, requestId, store.View());
    }

    lemma Quiet(log0: seq<Step>, log1: seq<Step>, log: seq<Step>, s: State)
      requires |log0| < |log1| && log1 <= log && OnlyCloses(|log0|, log1) && QuietedLast(log1, s)
      requires AllDisabled(PublisherExtentIds(config), s)
      ensures Quieted(GuardFor(config), |log0|, log)
    {
      QuietedBy(GuardFor(config), |log0|, log1, log);
    }

    static lemma OriginalsFacts(config: ServiceConfig, originals: seq<Extent>, s: State)
      requires Originals(config, originals, s)
      ensures |originals| == |config.publisher.volumes| && OnMasters(config, s) && IdentityAs(config, originals, s)
      ensures Wired(config, s) ==> PublisherLuns(config, s)
    {
    }

    static lemma ClosedSnapshots(config: ServiceConfig, s: State, t: State)
      requires Closed(config, s, t)
      ensures SameMasterSnapshots(config, s, t)
    {
    }

    static lemma IdentityKeptOn(config: ServiceConfig, originals: seq<Extent>, s: State, t: State)
      requires IdentitySame(config, s, t)
      ensures IdentityAs(config, originals, s) ==> IdentityAs(config, originals, t)
    {
    }

    lemma StagedIsRecord(originals: seq<Extent>, r: ReleaseRecord, db: Db, s: State)
      requires StagedNow(r, originals, db, s)
      ensures r.name in db.releases && r == Record(db, r.name)
    {
    }

    static lemma LaterRequest(db: Db, next: Db, release: string)
      requires Later(db, next) && release in db.releases
      ensures release in next.releases && next.releases[release].requestId == db.releases[release].requestId
      ensures Record(next, release).requestId == Record(db, release).requestId
    {
    }

    static lemma OnlyOne(db: Db, release: string, requestId: string, next: Db)
      requires DbInv(db) && Later(db, next) && IncompleteIn(db, release) && db.releases[release].requestId == requestId
      requires forall n :: n != release ==> IncompleteIn(next, n) == IncompleteIn(db, n)
      ensures forall n :: IncompleteIn(next, n) ==> next.releases[n].requestId == requestId
    {
    }

    /** `stage`: one attempt to publish a release under a request id. */
    method Stage(requestId: string, date: string) returns (r: Result<ReleaseRecord>, ghost mutated: bool)
      requires Tracks() && Link(config, store.View(), backend.View())
      modifies this`locked, backend, store
      ensures locked == old(locked)
      ensures Tracks() && Advanced(store.releases.Keys, Working)
      ensures Link(config, store.View(), backend.View()) && Later(old(store.View()), store.View())
      ensures store.active == old(store.active)
      ensures old(locked) ==> r == Err(ReleaseBusy)
      ensures !old(locked) && AlreadyStaged(old(store.View()), requestId) ==>
                r.Ok? && !mutated && backend.trace == old(backend.trace) && backend.View() == old(backend.View())
      ensures r.Err? ==> NothingStaged(old(store.View()), store.View())
      ensures NewNamesFree(config, old(store.releases.Keys), store.releases.Keys, old(backend.View()))
      ensures !mutated && r.Ok? ==> AlreadyStaged(old(store.View()), requestId)
      ensures !mutated ==> Advanced({}, Looking) && store.View() == old(store.View())
      ensures mutated ==> Inspected(|old(backend.trace)|, backend.trace)
      ensures Quieted(GuardFor(config), |old(backend.trace)|, backend.trace)
      ensures r == Err(PublisherSessionActive) ==>
                SeenActive(GuardFor(config), |old(backend.trace)|, backend.trace)
      ensures var mid := backend.env(old(backend.calls), old(backend.View()));
              (!old(locked) && !AlreadyStaged(old(store.View()), requestId) &&
               old(backend.faults(backend.calls)).NoFault? && !Unvisited(config, mid)) ==>
                r == Err(PublisherSessionActive) && !mutated && backend.View() == mid
      ensures !old(locked) && !AlreadyStaged(old(store.View()), requestId) && old(Idle()) ==>
                (mutated <==> Unvisited(config, old(backend.View())) && Wired(config, old(backend.View())))
      ensures !mutated && old(Idle()) ==> backend.View() == old(backend.View())
      ensures mutated && r.Err? ==> PublisherFailClosed(config, backend.trace, backend.View())
      ensures forall n :: IncompleteIn(store.View(), n) && !IncompleteIn(old(store.View()), n) ==>
                store.releases[n].requestId == requestId
      ensures r.Ok? ==> StagedIn(store.View(), r.value.name) && r.value == Record(store.View(), r.value.name)
      ensures r.Ok? ==> r.value.requestId == requestId && r.value.snapshots == Expected(config, r.value.name)
      ensures r.Ok? ==> Complete(config, r.value.name, backend.View())
      ensures mutated && r.Ok? ==> PublisherKept(config, old(backend.View()), backend.View())
      ensures mutated && r.Ok? ==> PublisherLuns(config, backend.View()) && QuietEnd(backend.trace)
      ensures mutated && r.Ok? ==> DistinctDatasets(config)
      ensures (!old(locked) && old(Undisturbed()) && !store.readOnly && Wired(config, old(backend.View())) &&
               OnlyMine(old(store.View()), requestId) && !AlreadyStaged(old(store.View()), requestId)) ==>
                (r.Ok? <==> DistinctDatasets(config))
      ensures (!old(locked) && old(Undisturbed()) && !store.readOnly && Wired(config, old(backend.View())) &&
               !Requested(old(store.View()), requestId) && !OnlyMine(old(store.View()), requestId)) ==>
                r == Err(ReleaseIncomplete)
    {
      hide Inv, PublisherRely, PublisherStep, PublisherEnvOk, Undisturbed, Unvisited, PublisherTrail, Grows, WellFormed,
           Link, DbInv, Later, AllDisabled, OnMasters, PublisherLuns, AllFinal, DistinctDatasets, PublisherKept,
           Complete, Expected, SnapshotsOf, VolumesOf, QuietEnd, NoPartial, Wired, Originals, Closed,
           OnlyMine, StagedNow, PublisherFailClosed, Quieted, SeenActive, OnlyCloses, GuardFor, Inspected, Faultless,
           Linked;
      mutated := false;
      ghost var s0, log0, db0 := backend.View(), backend.trace, store.View();
      LookNil(config, s0, log0, backend.faults);
      LaterNil(db0);
      LinkInv(config, db0, s0);
      LooksQuiet(log0, log0, s0);
      if locked { return Err(ReleaseBusy), false; }
      var existing := store.ByRequestId(requestId);
      StagedRequest(db0, existing, requestId);
      if existing.Some? && existing.value.status.Staged? {
        StagedComplete(config, db0, s0, existing.value.name);
        RecordedIn(db0, existing.value.name, "");
        return Ok(existing.value), false;
      }
      locked := true;
      var originals := Inspect();
      ghost var s1, log1 := backend.View(), backend.trace;
      PublisherRelyFacts(config, s0, s1);
      LookLink(config, db0, s0, s1);
      WiredKept(config, s0, s1);
      ClosingSuitsAll(config, store.releases.Keys, backend.faults, Looking, log0, log1);
      LookNil(config, s1, log1, backend.faults);
      PublisherTrailJoin(config, store.releases.Keys, backend.faults, Looking, Looking, Working, log0, log1, log1);
      LooksQuiet(log0, log1, s0);
      if originals.Err? {
        r := Err(Reported(originals.error));
      } else {
        mutated := true;
        var outcome := Mutate(existing, requestId, date, originals.value);
        ghost var s2, log2 := backend.View(), backend.trace;
        ghost var releases := store.releases.Keys;
        GrowsTransitive(s0, s1, s2);
        AfterInspection(releases, log0, log1, log2, outcome == Err(PublisherSessionActive));
        if outcome.Ok? {
          KeptFromFinal(originals.value, outcome.value, store.View(), s0, s1, s2);
          r := outcome;
        } else {
          BestEffortDisable();
          GrowsTransitive(s0, s2, backend.View());
          LinkClosed(store.View(), s2, backend.View());
          AfterDisabling(releases, log0, log2, backend.trace, outcome == Err(PublisherSessionActive));
          r := Err(Reported(outcome.error));
        }
      }
      locked := false;
    }

    /** What only looks keeps quiet, and changes nothing in surroundings that do nothing. */
    lemma LooksQuiet(before: seq<Step>, log: seq<Step>, s: State)
      requires PublisherTrail(config, {}, backend.faults, Looking, before, log)
      ensures before <= log && OnlyCloses(|before|, log) && Quieted(GuardFor(config), |before|, log)
      ensures (backend.Consistent() && log == backend.trace && s == StateAfter(backend.start, before, |before|) &&
               forall n: nat, t :: backend.env(n, t) == t) ==> backend.View() == s
    {
      hide PublisherTrail, Linked;
      PublisherTrailPrefix(config, {}, backend.faults, Looking, before, log);
      LooksClose(config, {}, backend.faults, before, log);
      ClosedIsQuieted(GuardFor(config), |before|, log);
      if backend.Consistent() && log == backend.trace && forall n: nat, t :: backend.env(n, t) == t {
        LooksStay(config, {}, backend.faults, backend.env, backend.start, before, log);
      }
    }

    lemma LinkClosed(db: Db, s: State, t: State)
      requires Link(config, db, s) && Grows(s, t) && Closed(config, s, t)
      ensures Link(config, db, t)
    {
      hide Link, Closed, Grows;
      GrowsKeys(s, t);
      ClosedKeepsOff(config, s, t);
      ClosedSnapshots(config, s, t);
      LinkKept(config, db, s, t);
    }

    lemma AfterInspection(
      releases: set<string>, log0: seq<Step>, log1: seq<Step>, log: seq<Step>, active: bool)
      requires PublisherTrail(config, {}, backend.faults, Looking, log0, log1)
      requires PublisherTrail(config, releases, backend.faults, Working, log1, log)
      requires Inspected(|log0|, log1)
      requires Quieted(GuardFor(config), |log1|, log) && (active ==> SeenActive(GuardFor(config), |log1|, log))
      ensures PublisherTrail(config, releases, backend.faults, Working, log0, log)
      ensures Inspected(|log0|, log) && Quieted(GuardFor(config), |log0|, log)
      ensures active ==> SeenActive(GuardFor(config), |log0|, log)
    {
      hide Inspected, Quieted, SeenActive, PublisherTrail;
      ClosingSuitsAll(config, releases, backend.faults, Looking, log0, log1);
      PublisherTrailJoin(config, releases, backend.faults, Looking, Working, Working, log0, log1, log);
      PublisherTrailPrefix(config, releases, backend.faults, Working, log1, log);
      PublisherTrailPrefix(config, releases, backend.faults, Looking, log0, log1);
      LooksClose(config, {}, backend.faults, log0, log1);
      InspectedLater(|log0|, log1, log);
      assert log[..|log1|] == log1;
      QuietedSince(GuardFor(config), |log1|, |log0|, log);
      if active { SeenActiveLater(GuardFor(config), |log1|, |log0|, log, log); }
    }

    lemma AfterDisabling(
      releases: set<string>, log0: seq<Step>, log1: seq<Step>, log: seq<Step>, active: bool)
      requires PublisherTrail(config, releases, backend.faults, Working, log0, log1)
      requires PublisherTrail(config, {}, backend.faults, Closing, log1, log)
      requires Inspected(|log0|, log1) && OnlyCloses(|log1|, log)
      requires Quieted(GuardFor(config), |log0|, log1) && (active ==> SeenActive(GuardFor(config), |log0|, log1))
      ensures PublisherTrail(config, releases, backend.faults, Working, log0, log)
      ensures Inspected(|log0|, log) && Quieted(GuardFor(config), |log0|, log)
      ensures active ==> SeenActive(GuardFor(config), |log0|, log)
    {
      hide Inspected, Quieted, SeenActive, PublisherTrail;
      ClosingSuitsAll(config, releases, backend.faults, Closing, log1, log);
      PublisherTrailJoin(config, releases, backend.faults, Working, Closing, Working, log0, log1, log);
      PublisherTrailPrefix(config, releases, backend.faults, Working, log0, log1);
      PublisherTrailPrefix(config, releases, backend.faults, Closing, log1, log);
      InspectedLater(|log0|, log1, log);
      QuietedLater(GuardFor(config), |log0|, log1, log);
      if active { SeenActiveLater(GuardFor(config), |log0|, |log0|, log1, log); }
    }

    static lemma StagedRequest(db: Db, existing: Option<ReleaseRecord>, requestId: string)
      requires DbInv(db) && (existing.None? <==> !Requested(db, requestId))
      requires existing.Some? ==>
                 existing.value.name in db.releases && existing.value == Record(db, existing.value.name) &&
                 existing.value.requestId == requestId
      ensures AlreadyStaged(db, requestId) <==> existing.Some? && existing.value.status.Staged?
      ensures existing.Some? && existing.value.status.Staged? ==> StagedIn(db, existing.value.name)
    {
    }

    lemma KeptFromFinal(originals: seq<Extent>, r: ReleaseRecord, db: Db, s: State, t: State, u: State)
      requires Originals(config, originals, t) && PublisherRely(config, s, t)
      requires StagedNow(r, originals, db, u)
      ensures PublisherKept(config, s, u) && PublisherLuns(config, u) && Complete(config, r.name, u)
      ensures StagedIn(db, r.name) && r == Record(db, r.name) && r.snapshots == Expected(config, r.name)
    {
    }

    // ---- Activate ----

    /** Every snapshot of the record exists. */
    static ghost predicate AllExist(record: ReleaseRecord, s: State) {
      forall v :: v in record.snapshots ==> record.snapshots[v] in s.snapshots
    }

    method VerifySnapshots(record: ReleaseRecord) returns (o: Outcome)
      requires Tracks()
      modifies backend
      ensures Tracks() && Advanced({}, Looking) && PublisherRely(config, old(backend.View()), backend.View())
      ensures o.Pass? ==> AllExist(record, backend.View())
      ensures o.Fail? ==> o.error in {NotReady, BackendError}
      ensures old(Faultless()) && AllExist(record, old(backend.View())) ==> o.Pass?
      ensures old(Undisturbed()) ==> Undisturbed()
    {
      hide Inv, PublisherRely, PublisherStep, PublisherEnvOk, Undisturbed, Unvisited, PublisherTrail, WellFormed;
      ghost var s0, log0 := backend.View(), backend.trace;
      LookNil(config, s0, log0, backend.faults);
      var left := record.snapshots.Keys;
      while left != {}
        invariant left <= record.snapshots.Keys
        invariant Tracks() && Advanced({}, Looking) && PublisherRely(config, s0, backend.View())
        invariant forall v :: v in record.snapshots && v !in left ==> record.snapshots[v] in backend.View().snapshots
        invariant old(Undisturbed()) ==> Undisturbed()
        decreases left
      {
        ghost var view, log := backend.View(), backend.trace;
        var v :| v in left;
        var found := ReadSnapshot(record.snapshots[v]);
        LookJoin(config, s0, view, backend.View());
        PublisherTrailJoin(config, {}, backend.faults, Looking, Looking, Looking, log0, log, backend.trace);
        if found.Err? { return Fail(BackendError); }
        if !found.value { return Fail(NotReady); }
        left := left - {v};
      }
      o := Pass;
    }

    /** The checks of activate: snapshots, sessions, LUNs, extents, and that every master is on. */
    method Ready(record: ReleaseRecord) returns (o: Outcome)
      requires Tracks()
      modifies backend
      ensures Tracks() && Advanced({}, Looking) && PublisherRely(config, old(backend.View()), backend.View())
      ensures o.Pass? ==> AllAre(config, true, backend.View()) && Wired(config, backend.View())
      ensures o.Pass? ==> AllExist(record, backend.View())
      ensures o.Pass? ==> SeenNobody(GuardFor(config), |old(backend.trace)|, backend.trace)
      ensures o.Fail? ==> o.error in {NotReady, PublisherSessionActive, BackendError}
      ensures o == Fail(PublisherSessionActive) ==>
                SeenActive(GuardFor(config), |old(backend.trace)|, backend.trace)
      ensures old(Idle()) ==>
                backend.View() == old(backend.View()) &&
                (o.Pass? <==> AllExist(record, backend.View()) && InOrder(backend.View()))
      ensures old(Undisturbed()) && AllExist(record, old(backend.View())) && InOrder(old(backend.View())) ==> o.Pass?
    {
      hide Inv, PublisherRely, PublisherStep, PublisherEnvOk, Undisturbed, Unvisited, PublisherTrail, WellFormed,
           AllAre, Grows, AllExist, Wired, SeenNobody, SeenActive, GuardFor, Linked, InOrder;
      UndisturbedIsFaultless();
      ghost var s0, log0 := backend.View(), backend.trace;
      o := VerifySnapshots(record);
      ghost var s1, log1 := backend.View(), backend.trace;
      LooksQuiet(log0, log1, s0);
      if o.Fail? { return; }
      UndisturbedIsFaultless();
      InOrderKept(s0, s1);
      o := VerifyInOrder();
      LookJoin(config, s0, s1, backend.View());
      SnapshotsGrow(record, s1, backend.View());
      PublisherTrailJoin(config, {}, backend.faults, Looking, Looking, Looking, log0, log1, backend.trace);
      LooksQuiet(log0, backend.trace, s0);
      SeenEarlier(log0, log1, backend.trace, o);
    }

    /** The checks of activate on the publisher itself. */
    method VerifyInOrder() returns (o: Outcome)
      requires Tracks()
      modifies backend
      ensures Tracks() && Advanced({}, Looking) && PublisherRely(config, old(backend.View()), backend.View())
      ensures o.Pass? ==> AllAre(config, true, backend.View()) && Wired(config, backend.View())
      ensures o.Pass? ==> SeenNobody(GuardFor(config), |old(backend.trace)|, backend.trace)
      ensures o.Fail? ==> o.error in {NotReady, PublisherSessionActive, BackendError}
      ensures o == Fail(PublisherSessionActive) ==>
                SeenActive(GuardFor(config), |old(backend.trace)|, backend.trace)
      ensures old(Idle()) ==> (o.Pass? <==> InOrder(old(backend.View())))
      ensures old(Undisturbed()) && InOrder(old(backend.View())) ==> o.Pass?
    {
      hide Inv, PublisherRely, PublisherStep, PublisherEnvOk, Undisturbed, Unvisited, PublisherTrail, WellFormed,
           PublisherLuns, Originals, AllAre, Grows, Wired, Inspected, SeenNobody, SeenActive, GuardFor, Linked;
      UndisturbedIsFaultless();
      ghost var s0, log0 := backend.View(), backend.trace;
      var extents := Inspect();
      ghost var s1, log1 := backend.View(), backend.trace;
      if extents.Err? { return Fail(extents.error); }
      InspectWired(extents.value, s1);
      AllAreKept(config, true, s0, s1);
      o := VerifyEnabled(true);
      LookJoin(config, s0, s1, backend.View());
      AllAreKept(config, true, s0, backend.View());
      WiredKept(config, s1, backend.View());
      PublisherTrailPrefix(config, {}, backend.faults, Looking, log1, backend.trace);
      PublisherTrailJoin(config, {}, backend.faults, Looking, Looking, Looking, log0, log1, backend.trace);
      InspectionSaw(log0, log1, backend.trace);
    }

    /** Nobody is logged in as the publisher, its topology is as configured, and every master is on. */
    ghost predicate InOrder(s: State) {
      Unvisited(config, s) && Wired(config, s) && AllAre(config, true, s)
    }

    /** Only a login or logout of others can change that while nothing but looking goes on. */
    lemma InOrderKept(s: State, t: State)
      requires PublisherRely(config, s, t)
      ensures InOrder(s) && Unvisited(config, t) ==> InOrder(t)
    {
      hide PublisherRely, Wired, AllAre, Unvisited;
      WiredKept(config, s, t);
      AllAreKept(config, true, s, t);
    }

    lemma InspectionSaw(log0: seq<Step>, log1: seq<Step>, log: seq<Step>)
      requires Inspected(|log0|, log1) && log1 <= log
      ensures SeenNobody(GuardFor(config), |log0|, log)
    {
      SeenNobodyAt(GuardFor(config), |log0|, |log0|, log1, log);
    }

    lemma SeenEarlier(log0: seq<Step>, log1: seq<Step>, log: seq<Step>, o: Outcome)
      requires |log0| <= |log1|
      requires o.Pass? ==> SeenNobody(GuardFor(config), |log1|, log)
      requires o == Fail(PublisherSessionActive) ==> SeenActive(GuardFor(config), |log1|, log)
      ensures o.Pass? ==> SeenNobody(GuardFor(config), |log0|, log)
      ensures o == Fail(PublisherSessionActive) ==> SeenActive(GuardFor(config), |log0|, log)
    {
      if o.Pass? {
        var i :| |log1| <= i < |log| && SeenClear(GuardFor(config), log[i]);
        SeenNobodyAt(GuardFor(config), |log0|, i, log, log);
      }
    }

    lemma UndisturbedIsFaultless()
      ensures Undisturbed() ==> Faultless() && Unvisited(config, backend.View())
    {
    }

    static lemma AllAreKept(config: ServiceConfig, enabled: bool, s: State, t: State)
      requires PublisherRely(config, s, t)
      ensures AllAre(config, enabled, s) <==> AllAre(config, enabled, t)
    {
      forall p | p in config.publisher.volumes
        ensures Is(p, enabled, s) <==> Is(p, enabled, t)
      {
        ReadKept(config, p, s, t);
      }
    }

    static lemma SnapshotsGrow(record: ReleaseRecord, s: State, t: State)
      requires Grows(s, t)
      ensures AllExist(record, s) ==> AllExist(record, t)
    {
    }

    lemma InspectWired(originals: seq<Extent>, s: State)
      requires Originals(config, originals, s) && PublisherLuns(config, s)
      ensures Wired(config, s)
    {
    }

    /**
     * What it takes to activate a release: it is staged with the configured volumes, its snapshots exist,
     * the publisher is in order, and the request is new or was this very activation.
     */
    ghost predicate Activatable(db: Db, s: State, release: string, requestId: string) {
      && StagedIn(db, release) && VolumesOf(db, release) == PublisherNames(config)
      && (forall v :: v in SnapshotsOf(db, release) ==> SnapshotsOf(db, release)[v] in s.snapshots)
      && InOrder(s)
      && (requestId in db.operations ==> db.operations[requestId] == Operation(Activation, release))
    }

    /**
     * `activate`: the storage is only looked at, and only a complete staged release becomes active. Left
     * alone it succeeds exactly for what can be activated, whatever release is active before.
     */
    method Activate(release: string, confirmation: string, requestId: string) returns (r: Result<string>)
      requires Tracks() && DbInv(store.View())
      modifies this`locked, backend, store
      ensures locked == old(locked)
      ensures Tracks() && Advanced({}, Looking)
      ensures r.Err? ==> store.View() == old(store.View())
      ensures confirmation != "ACTIVATE " + release ==> r == Err(ConfirmationMismatch)
      ensures confirmation == "ACTIVATE " + release && old(locked) ==> r == Err(ReleaseBusy)
      ensures confirmation == "ACTIVATE " + release && !old(locked) && release !in old(store.releases) ==>
                r == Err(ReleaseConflict)
      ensures (confirmation == "ACTIVATE " + release && !old(locked) && release in old(store.releases) &&
               !(StagedIn(old(store.View()), release) &&
                 VolumesOf(old(store.View()), release) == PublisherNames(config))) ==>
                r == Err(ReleaseNotStaged)
      ensures r.Ok? ==> !store.readOnly && SeenNobody(GuardFor(config), |old(backend.trace)|, backend.trace)
      ensures r == Err(PublisherSessionActive) ==>
                SeenActive(GuardFor(config), |old(backend.trace)|, backend.trace)
      ensures confirmation == "ACTIVATE " + release && !old(locked) && old(Idle()) ==>
                (r == Ok(release) <==>
                   !store.readOnly && Activatable(old(store.View()), old(backend.View()), release, requestId))
      ensures (confirmation == "ACTIVATE " + release && !old(locked) && old(Undisturbed()) && !store.readOnly &&
               Activatable(old(store.View()), old(backend.View()), release, requestId)) ==> r == Ok(release)
      ensures r.Ok? ==> r.value == release && Some(store.View()) == Activated(old(store.View()), release, requestId)
      ensures r.Ok? ==> StagedIn(old(store.View()), release) && VolumesOf(store.View(), release) == PublisherNames(config)
      ensures r.Ok? ==> AllAre(config, true, backend.View()) && Wired(config, backend.View())
      ensures r.Ok? ==> forall v :: v in SnapshotsOf(store.View(), release) ==>
                SnapshotsOf(store.View(), release)[v] in backend.View().snapshots
    {
      hide Inv, PublisherRely, PublisherStep, PublisherEnvOk, Undisturbed, Unvisited, PublisherTrail, WellFormed,
           PublisherLuns, Originals, AllAre, Grows, Wired, DbInv, SeenNobody, SeenActive, GuardFor, InOrder;
      ghost var db0 := store.View();
      LookNil(config, backend.View(), backend.trace, backend.faults);
      if confirmation != "ACTIVATE " + release { return Err(ConfirmationMismatch); }
      if locked { return Err(ReleaseBusy); }
      locked := true;
      var record := Releases.Get(store.View(), release);
      if record.Err? {
        r := Err(ReleaseConflict);
      } else if record.value.status != Staged || record.value.snapshots.Keys != PublisherNames(config) {
        r := Err(ReleaseNotStaged);
      } else {
        var o := Ready(record.value);
        if o.Fail? {
          r := Err(o.error);
        } else {
          var activated := store.Activate(release, requestId);
          ActivatedRows(db0, release, requestId);
          ActivationAccepted(db0, release, requestId);
          r := if activated.Err? then Err(ReleaseConflict) else Ok(activated.value.name);
        }
      }
      locked := false;
    }

    /** The store takes the activation of a staged release unless the request id was used for another one. */
    static lemma ActivationAccepted(db: Db, release: string, requestId: string)
      requires DbInv(db) && StagedIn(db, release)
      ensures Activated(db, release, requestId).Some? <==>
                (requestId in db.operations ==> db.operations[requestId] == Operation(Activation, release))
    {
    }

    static lemma ActivatedRows(db: Db, release: string, requestId: string)
      ensures Activated(db, release, requestId).Some? ==>
                SnapshotsOf(Activated(db, release, requestId).value, release) == SnapshotsOf(db, release) &&
                VolumesOf(Activated(db, release, requestId).value, release) == VolumesOf(db, release)
    {
    }
  }
}
