/** coordinator.py: preparing a client's extents for the active release. */
module Coordinator {
  import opened Results
  import opened Topology
  import opened Storage
  import opened Protocol
  import opened ResetSteps
  import opened Guards
  import opened Backends
  import opened Releases
  import opened Names

  datatype VolumeResponse = VolumeResponse(
    name: string, lun: nat, diskUniqueId: string, driveLetter: char, diskLabel: string)

  datatype ClientResponse = ClientResponse(portal: Address, targetIqn: string, volumes: seq<VolumeResponse>)

  /** A configured override wins over the extent's NAA. */
  function StableId(v: Volume, extent: Extent): string {
    match v.uniqueIdOverride
    case Some(o) => if o != "" then o else NormalizeDiskId(extent.naa)
    case None => NormalizeDiskId(extent.naa)
  }

  function VolumeView(v: Volume, extent: Extent): VolumeResponse {
    VolumeResponse(v.name, v.lun, StableId(v, extent), v.driveLetter, v.diskLabel)
  }

  function InsertByLun(v: Volume, sorted: seq<Volume>): seq<Volume> {
    if sorted == [] || v.lun < sorted[0].lun then [v] + sorted
    else [sorted[0]] + InsertByLun(v, sorted[1..])
  }

  function SortByLun(volumes: seq<Volume>): seq<Volume> {
    if volumes == [] then []
    else InsertByLun(volumes[|volumes| - 1], SortByLun(volumes[..|volumes| - 1]))
  }

  predicate SortedByLun(volumes: seq<Volume>) {
    forall i, j :: 0 <= i < j < |volumes| ==> volumes[i].lun <= volumes[j].lun
  }

  lemma SortedAhead(v: Volume, rest: seq<Volume>)
    requires SortedByLun(rest)
    requires (rest != [] ==> v.lun <= rest[0].lun) || forall w :: w in rest ==> v.lun <= w.lun
    ensures SortedByLun([v] + rest)
  {
  }

  lemma {:induction false} InsertByLunSorts(v: Volume, sorted: seq<Volume>)
    requires SortedByLun(sorted)
    ensures SortedByLun(InsertByLun(v, sorted))
    ensures multiset(InsertByLun(v, sorted)) == multiset(sorted) + multiset{v}
  {
    if sorted == [] || v.lun < sorted[0].lun {
      SortedAhead(v, sorted);
    } else {
      var tail := sorted[1..];
      SortedTail(sorted);
      InsertByLunSorts(v, tail);
      var rest := InsertByLun(v, tail);
      forall w | w in rest
        ensures sorted[0].lun <= w.lun
      {
        assert w in multiset(rest);
      }
      SortedAhead(sorted[0], rest);
    }
  }

  lemma SortedTail(sorted: seq<Volume>)
    requires SortedByLun(sorted) && sorted != []
    ensures SortedByLun(sorted[1..]) && forall w :: w in sorted[1..] ==> sorted[0].lun <= w.lun
    ensures multiset(sorted) == multiset(sorted[1..]) + multiset{sorted[0]}
  {
    assert sorted == [sorted[0]] + sorted[1..];
  }

  lemma {:induction false} SortByLunSorts(volumes: seq<Volume>)
    ensures SortedByLun(SortByLun(volumes))
    ensures multiset(SortByLun(volumes)) == multiset(volumes)
    ensures forall v :: v in SortByLun(volumes) <==> v in volumes
  {
    if volumes != [] {
      hide InsertByLun, SortedByLun;
      var n := |volumes| - 1;
      SortByLunSorts(volumes[..n]);
      InsertByLunSorts(volumes[n], SortByLun(volumes[..n]));
      assert volumes == volumes[..n] + [volumes[n]];
    }
    assert forall v :: v in SortByLun(volumes) <==> v in multiset(SortByLun(volumes));
  }

  lemma SortByLunKeeps(volumes: seq<Volume>)
    ensures |SortByLun(volumes)| == |volumes|
    ensures forall v :: v in SortByLun(volumes) <==> v in volumes
  {
    SortByLunSorts(volumes);
    assert |SortByLun(volumes)| == |multiset(SortByLun(volumes))| == |multiset(volumes)| == |volumes|;
  }

  /** _active_release: the store's active release, complete and mapped as the configuration says. */
  predicate Usable(config: ServiceConfig, record: ReleaseRecord) {
    && record.status.Staged?
    && record.snapshots.Keys == (set p | p in config.publisher.volumes :: p.name)
    && (forall v :: v in record.snapshots ==> record.snapshots[v] == SnapshotPath(config, v, record.name))
  }

  /** What `prepare` promises when it answers ready. */
  ghost predicate Ready(config: ServiceConfig, client: Client, release: string, s: State) {
    && LunsMatch(client, s)
    && (forall v :: v in client.volumes ==>
          && v.extentId in s.extents && s.extents[v.extentId].enabled
          && s.extents[v.extentId].disk == CloneDataset(client, v, release)
          && CloneReady(config, client, v, release, s))
  }

  /** The NAA, up to spelling, and the serial are those the extents had. */
  ghost predicate IdentityKept(client: Client, s: State, t: State) {
    forall v :: v in client.volumes ==>
      && v.extentId in s.extents && v.extentId in t.extents
      && NormalizeDiskId(t.extents[v.extentId].naa) == NormalizeDiskId(s.extents[v.extentId].naa)
      && t.extents[v.extentId].serial == s.extents[v.extentId].serial
  }

  /** What a reset needs: everything `validate` looks at, and clone paths that read back unchanged. */
  ghost predicate Preparable(config: ServiceConfig, client: Client, release: string, s: State) {
    && '/' !in release && PathsReadBack(client, release)
    && Checked(config, client, release, s)
  }

  /** The storage side of it, which is what `validate` establishes. */
  ghost predicate Checked(config: ServiceConfig, client: Client, release: string, s: State) {
    && LunsMatch(client, s)
    && (forall v :: v in client.volumes ==>
          && v.extentId in s.extents && StableId(v, s.extents[v.extentId]) != ""
          && Clonable(config, client, v, release, s))
  }

  /** The backend stores the clone paths as they are: none begins with zvol/. */
  ghost predicate PathsReadBack(client: Client, release: string) {
    forall v :: v in client.volumes ==>
      NormalizeZvol(CloneDataset(client, v, release)) == CloneDataset(client, v, release)
  }

  ghost predicate AllReady(config: ServiceConfig, client: Client, release: string, s: State) {
    forall v :: v in client.volumes ==> CloneReady(config, client, v, release, s)
  }

  class ResetCoordinator {
    const config: ServiceConfig
    const backend: Backend
    const store: ReleaseStore
    var busy: set<string>

    constructor (config: ServiceConfig, backend: Backend, store: ReleaseStore)
      ensures this.config == config && this.backend == backend && this.store == store && busy == {}
    {
      this.config, this.backend, this.store, busy := config, backend, store, {};
    }

    /** The standing assumptions of a reset, and the invariant it keeps. */
    ghost predicate Tracks(client: Client)
      reads backend
    {
      WellFormed(config) && client in config.clients && EnvOk(config, client, backend.env) && backend.Consistent() &&
      Inv(config, backend.View())
    }

    /** From now on no call fails, nobody logs in as the client and nobody takes a clone path. */
    ghost predicate Undisturbed(client: Client, release: string)
      reads backend
    {
      forall n :: n >= backend.calls ==> CalmCall(config, client, release, backend.faults(n), backend.env, n)
    }

    /** The surroundings do nothing, and from now on no call fails. */
    ghost predicate Idle()
      reads backend
    {
      Faultless() && forall n: nat, s :: backend.env(n, s) == s
    }

    ghost predicate Faultless()
      reads backend
    {
      forall n: nat :: n >= backend.calls ==> backend.faults(n).NoFault?
    }

    /** So far nothing failed and nobody logged in. */
    twostate predicate Still(client: Client, release: string)
      reads backend
    {
      Undisturbed(client, release) && (Clear(client, old(backend.View())) ==> Clear(client, backend.View()))
    }

    /** Nor did anybody take a clone path. */
    twostate predicate Smooth(client: Client, release: string)
      reads backend
    {
      Still(client, release) && PathsFree(client, release, old(backend.View()), backend.View())
    }

    twostate predicate Advanced(client: Client, mode: Mode)
      reads backend
    {
      && backend.faults == old(backend.faults) && backend.calls >= old(backend.calls)
      && Grows(old(backend.View()), backend.View())
      && Trail(config, client, backend.faults, mode, old(backend.trace), backend.trace)
    }

    // ---- After each kind of call ----

    twostate lemma AfterRead(new client: Client, new op: Op, new raised: bool)
      requires old(Tracks(client))
      requires IsRead(op)
      requires backend.faults == old(backend.faults) && backend.calls == old(backend.calls) + 1
      requires backend.Logged(op, old(backend.calls), old(backend.View()), old(backend.trace), raised)
      requires backend.Consistent()
      ensures Tracks(client) && Advanced(client, Reads)
      ensures Rely(client, old(backend.View()), backend.View())
      ensures backend.View() == backend.env(old(backend.calls), old(backend.View()))
      ensures raised && old(backend.faults)(old(backend.calls)).NoFault? ==>
                op.GetExtent? && op.id !in backend.View().extents
      ensures forall release :: old(Undisturbed(client, release)) ==>
                Smooth(client, release) &&
                (raised ==> op.GetExtent? && op.id !in backend.View().extents)
    {
      hide Inv, ClientStep;
      ReadStep(config, client, op, backend.env(old(backend.calls), old(backend.View())), backend.View(),
               raised, backend.faults(old(backend.calls)));
      forall release | old(Undisturbed(client, release))
        ensures Smooth(client, release)
        ensures old(backend.faults)(old(backend.calls)).NoFault?
      {
        assert CalmCall(config, client, release, backend.faults(old(backend.calls)), backend.env, old(backend.calls));
      }
    }

    /** The state in which the call was performed, after the others moved. */
    twostate lemma BeforeWrite(new client: Client)
      requires old(Tracks(client))
      ensures var mid := backend.env(old(backend.calls), old(backend.View()));
              Inv(config, mid) && Rely(client, old(backend.View()), mid)
      ensures var mid := backend.env(old(backend.calls), old(backend.View()));
              forall release :: old(Undisturbed(client, release)) ==>
                Calm(client, release, old(backend.View()), mid) &&
                old(backend.faults)(old(backend.calls)).NoFault?
    {
      hide Inv, Rely, Calm;
      forall release | old(Undisturbed(client, release))
        ensures CalmCall(config, client, release, old(backend.faults)(old(backend.calls)), backend.env, old(backend.calls))
      {
      }
    }

    twostate lemma AfterWrite(new client: Client, new mode: Mode, new op: Op, new raised: bool)
      requires old(Tracks(client))
      requires backend.faults == old(backend.faults) && backend.calls == old(backend.calls) + 1
      requires backend.Logged(op, old(backend.calls), old(backend.View()), old(backend.trace), raised)
      requires ClientStep(config, client, backend.env(old(backend.calls), old(backend.View())), backend.View())
      requires backend.Consistent()
      requires Allowed(config, client, mode, Step(op, backend.env(old(backend.calls), old(backend.View())), backend.View(),
                                                  raised, old(backend.faults)(old(backend.calls))))
      ensures Tracks(client) && Advanced(client, mode)
      ensures forall release :: old(Undisturbed(client, release)) ==> Still(client, release)
    {
      hide Inv, WellFormed, Grows, Happens, Allowed;
      var mid := backend.env(old(backend.calls), old(backend.View()));
      assert Inv(config, mid) && Rely(client, old(backend.View()), mid);
      ClientKeepsInv(config, client, mid, backend.View());
      assert Grows(mid, backend.View());
      GrowsTransitive(old(backend.View()), mid, backend.View());
      assert backend.View().sessions == mid.sessions;
      hide ClientStep, Rely;
      forall release | old(Undisturbed(client, release))
        ensures Still(client, release)
      {
        assert CalmCall(config, client, release, old(backend.faults)(old(backend.calls)), backend.env, old(backend.calls));
      }
    }

    // ---- Reads ----

    method MatchingSessions(client: Client) returns (r: Result<bool>)
      requires Tracks(client)
      modifies backend
      ensures Tracks(client) && Advanced(client, Reads) && Rely(client, old(backend.View()), backend.View())
      ensures |backend.trace| == old(|backend.trace|) + 1
      ensures backend.trace[old(|backend.trace|)].op == ListSessions
      ensures backend.trace[old(|backend.trace|)].after == backend.View()
      ensures backend.trace[old(|backend.trace|)].raised <==> r.Err?
      ensures r.Ok? ==> r.value == !Clear(client, backend.View())
      ensures r.Err? ==> r.error == BackendError
      ensures backend.View() == backend.env(old(backend.calls), old(backend.View()))
      ensures old(backend.faults(backend.calls)).NoFault? ==> r.Ok?
      ensures forall release :: old(Undisturbed(client, release)) ==>
                Smooth(client, release) && r.Ok? && (Clear(client, old(backend.View())) ==> r == Ok(false))
    {
      label before:
      var sessions := backend.ListSessions();
      AfterRead@before(client, ListSessions, sessions.Err?);
      if sessions.Err? { return Err(BackendError); }
      var quiet := NoMatch(sessions.value, client.initiatorIqn, client.sourceIp, client.targetIqn);
      r := Ok(!quiet);
    }

    /** _require_no_session. */
    method RequireNoSession(client: Client) returns (o: Outcome)
      requires Tracks(client)
      modifies backend
      ensures Tracks(client) && Advanced(client, Reads) && Rely(client, old(backend.View()), backend.View())
      ensures |backend.trace| == old(|backend.trace|) + 1
      ensures backend.trace[old(|backend.trace|)].op == ListSessions
      ensures backend.trace[old(|backend.trace|)].after == backend.View()
      ensures o.Pass? ==> Clear(client, backend.View()) && SeenClear(GuardOf(client), backend.trace[old(|backend.trace|)])
      ensures o.Fail? ==> o.error in {SessionActive, BackendError}
      ensures o == Fail(SessionActive) ==> SeenActive(GuardOf(client), |old(backend.trace)|, backend.trace)
      ensures backend.View() == backend.env(old(backend.calls), old(backend.View()))
      ensures old(backend.faults(backend.calls)).NoFault? ==>
                o == if Clear(client, backend.View()) then Pass else Fail(SessionActive)
      ensures forall release :: old(Undisturbed(client, release)) ==>
                Smooth(client, release) && (Clear(client, old(backend.View())) ==> o.Pass?)
    {
      hide Inv, Rely, ClientStep, WellFormed, EnvOk, Undisturbed;
      var found := MatchingSessions(client);
      o := if found.Err? then Fail(found.error) else if found.value then Fail(SessionActive) else Pass;
    }

    method VerifyTargetLuns(client: Client) returns (o: Outcome)
      requires Tracks(client)
      modifies backend
      ensures Tracks(client) && Advanced(client, Reads) && Rely(client, old(backend.View()), backend.View())
      ensures |backend.trace| == old(|backend.trace|) + 1
      ensures backend.trace[old(|backend.trace|)].op == TargetLuns(client.targetIqn)
      ensures backend.trace[old(|backend.trace|)].after == backend.View()
      ensures o.Pass? ==> LunsMatch(client, backend.View()) && !backend.trace[old(|backend.trace|)].raised
      ensures o.Fail? ==> o.error in {NotReady, BackendError}
      ensures old(backend.faults(backend.calls)).NoFault? && LunsMatch(client, backend.View()) ==> o.Pass?
      ensures forall release :: old(Undisturbed(client, release)) ==>
                Smooth(client, release) && (LunsMatch(client, old(backend.View())) ==> o.Pass?)
    {
      hide Inv, ClientStep, WellFormed, EnvOk, PathsFree;
      label before:
      var luns := backend.TargetLuns(client.targetIqn);
      AfterRead@before(client, TargetLuns(client.targetIqn), luns.Err?);
      if luns.Err? { return Fail(BackendError); }
      o := if LunPairs(luns.value) == ConfiguredPairs(client) then Pass else Fail(NotReady);
    }

    static lemma SameExtents(client: Client, s: State, t: State)
      requires Rely(client, s, t)
      ensures Grows(s, t)
      ensures forall v :: v in client.volumes && v.extentId in s.extents ==>
                v.extentId in t.extents && t.extents[v.extentId] == s.extents[v.extentId]
      ensures forall v :: v in client.volumes && v.extentId in t.extents ==> v.extentId in s.extents
    {
    }

    static predicate ReadOf(v: Volume, step: Step) {
      step.op == GetExtent(v.extentId) && !step.raised
    }

    method GetExtents(client: Client) returns (r: Result<seq<Extent>>)
      requires Tracks(client)
      modifies backend
      ensures Tracks(client) && Advanced(client, Reads) && Rely(client, old(backend.View()), backend.View())
      ensures r.Ok? ==> |r.value| == |client.volumes| && forall j :: 0 <= j < |client.volumes| ==>
                client.volumes[j].extentId in backend.View().extents &&
                r.value[j] == backend.View().extents[client.volumes[j].extentId]
      ensures r.Ok? ==> |backend.trace| == old(|backend.trace|) + |client.volumes|
      ensures r.Ok? ==>
                forall j :: 0 <= j < |client.volumes| ==> ReadOf(client.volumes[j], backend.trace[old(|backend.trace|) + j])
      ensures r.Err? ==> r.error == BackendError
      ensures old(Faultless()) && AllPresent(client, old(backend.View())) ==> r.Ok?
      ensures forall release :: old(Undisturbed(client, release)) ==>
                Smooth(client, release) && (AllPresent(client, old(backend.View())) ==> r.Ok?)
    {
      hide Inv, ClientStep, WellFormed, EnvOk, PathsFree, Undisturbed, NoMatch, Allowed, Rely, Happens, Grows;
      RelyReflexive(client, backend.View());
      PathsFreeReflexive(client, backend.View());
      var extents: seq<Extent> := [];
      for i := 0 to |client.volumes|
        invariant Tracks(client) && Advanced(client, Reads) && Rely(client, old(backend.View()), backend.View())
        invariant |extents| == i && forall j :: 0 <= j < i ==>
          client.volumes[j].extentId in backend.View().extents &&
          extents[j] == backend.View().extents[client.volumes[j].extentId]
        invariant |backend.trace| == old(|backend.trace|) + i
        invariant forall j :: 0 <= j < i ==> ReadOf(client.volumes[j], backend.trace[old(|backend.trace|) + j])
        invariant forall release :: old(Undisturbed(client, release)) ==> Smooth(client, release)
      {
        label before:
        ghost var view := backend.View();
        var extent := backend.GetExtent(client.volumes[i].extentId);
        AfterRead@before(client, GetExtent(client.volumes[i].extentId), extent.Err?);
        RelyTransitive(client, old(backend.View()), view, backend.View());
        PathsFreeTransitive(client, old(backend.View()), view, backend.View());
        SameExtents(client, view, backend.View());
        SameExtents(client, old(backend.View()), backend.View());
        if extent.Err? { return Err(BackendError); }
        extents := extents + [extent.value];
      }
      r := Ok(extents);
    }

    method VerifyAllEnabled(client: Client, enabled: bool) returns (o: Outcome)
      requires Tracks(client)
      modifies backend
      ensures Tracks(client) && Advanced(client, Reads) && Rely(client, old(backend.View()), backend.View())
      ensures o.Pass? ==> forall v :: v in client.volumes ==>
                v.extentId in backend.View().extents && backend.View().extents[v.extentId].enabled == enabled
      ensures o.Fail? ==> o.error in {NotReady, BackendError}
      ensures forall release :: old(Undisturbed(client, release)) ==>
                Smooth(client, release) &&
                ((forall v :: v in client.volumes ==>
                    v.extentId in old(backend.View()).extents &&
                    old(backend.View()).extents[v.extentId].enabled == enabled) ==> o.Pass?)
    {
      hide Inv, ClientStep, WellFormed, EnvOk, PathsFree, Undisturbed, NoMatch, Allowed, Rely, Happens, Grows;
      RelyReflexive(client, backend.View());
      PathsFreeReflexive(client, backend.View());
      for i := 0 to |client.volumes|
        invariant Tracks(client) && Advanced(client, Reads) && Rely(client, old(backend.View()), backend.View())
        invariant forall j :: 0 <= j < i ==>
          client.volumes[j].extentId in backend.View().extents &&
          backend.View().extents[client.volumes[j].extentId].enabled == enabled
        invariant forall release :: old(Undisturbed(client, release)) ==> Smooth(client, release)
      {
        label before:
        ghost var view := backend.View();
        var extent := backend.GetExtent(client.volumes[i].extentId);
        AfterRead@before(client, GetExtent(client.volumes[i].extentId), extent.Err?);
        RelyTransitive(client, old(backend.View()), view, backend.View());
        PathsFreeTransitive(client, old(backend.View()), view, backend.View());
        SameExtents(client, view, backend.View());
        SameExtents(client, old(backend.View()), backend.View());
        if extent.Err? { return Fail(BackendError); }
        if extent.value.enabled != enabled { return Fail(NotReady); }
      }
      o := Pass;
    }

    method VerifyFinalExtents(client: Client, desired: seq<string>, originals: seq<Extent>) returns (o: Outcome)
      requires Tracks(client) && |desired| == |originals| == |client.volumes|
      modifies backend
      ensures Tracks(client) && Advanced(client, Reads) && Rely(client, old(backend.View()), backend.View())
      ensures o.Pass? ==> forall j :: 0 <= j < |client.volumes| ==>
                FinalOk(backend.View(), client.volumes[j].extentId, desired[j], originals[j])
      ensures o.Fail? ==> o.error in {NotReady, BackendError}
      ensures forall release :: old(Undisturbed(client, release)) ==>
                Smooth(client, release) &&
                ((forall j :: 0 <= j < |client.volumes| ==>
                    FinalOk(old(backend.View()), client.volumes[j].extentId, desired[j], originals[j])) ==> o.Pass?)
    {
      hide Inv, ClientStep, WellFormed, EnvOk, PathsFree, Undisturbed, NormalizeDiskId, NoMatch, Allowed, Rely, Happens,
           Grows;
      RelyReflexive(client, backend.View());
      PathsFreeReflexive(client, backend.View());
      for i := 0 to |client.volumes|
        invariant Tracks(client) && Advanced(client, Reads) && Rely(client, old(backend.View()), backend.View())
        invariant forall j :: 0 <= j < i ==>
          FinalOk(backend.View(), client.volumes[j].extentId, desired[j], originals[j])
        invariant forall release :: old(Undisturbed(client, release)) ==> Smooth(client, release)
      {
        label before:
        ghost var view := backend.View();
        var extent := backend.GetExtent(client.volumes[i].extentId);
        AfterRead@before(client, GetExtent(client.volumes[i].extentId), extent.Err?);
        RelyTransitive(client, old(backend.View()), view, backend.View());
        PathsFreeTransitive(client, old(backend.View()), view, backend.View());
        SameExtents(client, view, backend.View());
        SameExtents(client, old(backend.View()), backend.View());
        if extent.Err? {
          assert FinalOk(view, client.volumes[i].extentId, desired[i], originals[i]) ==>
            client.volumes[i].extentId in view.extents;
          return Fail(BackendError);
        }
        if !extent.value.enabled || extent.value.disk != desired[i] { return Fail(NotReady); }
        if NormalizeDiskId(extent.value.naa) != NormalizeDiskId(originals[i].naa) { return Fail(NotReady); }
        if extent.value.serial != originals[i].serial { return Fail(NotReady); }
      }
      o := Pass;
    }

    static ghost predicate FinalOk(s: State, id: nat, disk: string, original: Extent) {
      && id in s.extents && s.extents[id].enabled && s.extents[id].disk == disk
      && NormalizeDiskId(s.extents[id].naa) == NormalizeDiskId(original.naa)
      && s.extents[id].serial == original.serial
    }

    /** public_client: the connection data of a client. */
    method PublicClient(client: Client) returns (r: Result<ClientResponse>)
      requires Tracks(client)
      modifies backend
      ensures Tracks(client) && Advanced(client, Reads) && Rely(client, old(backend.View()), backend.View())
      ensures r.Ok? ==> |backend.trace| == old(|backend.trace|) + 1 + |client.volumes|
      ensures r.Ok? ==> LunsMatch(client, backend.View()) && Answers(client, r.value, backend.View())
      ensures r.Err? ==> r.error in {NotReady, BackendError}
      ensures forall release :: old(Undisturbed(client, release)) ==>
                Smooth(client, release) &&
                (LunsMatch(client, old(backend.View())) && Identified(client, old(backend.View())) ==> r.Ok?)
    {
      hide Inv, ClientStep, WellFormed, EnvOk, PathsFree, Undisturbed, SortByLun, Rely, Grows, NoMatch, Shown, LunsMatch,
           Allowed, LunTable, Identified;
      var luns := VerifyTargetLuns(client);
      if luns.Fail? { return Err(luns.error); }
      SortByLunKeeps(client.volumes);
      var sorted := SortByLun(client.volumes);
      ghost var first := backend.View();
      RelyOwn(client, old(backend.View()), first);
      RelyReflexive(client, first);
      var volumes: seq<VolumeResponse> := [];
      for i := 0 to |sorted|
        invariant Tracks(client) && Advanced(client, Reads)
        invariant Rely(client, old(backend.View()), backend.View()) && Rely(client, first, backend.View())
        invariant |backend.trace| == old(|backend.trace|) + 1 + i
        invariant |volumes| == i && forall j :: 0 <= j < i ==> Shown(sorted[j], volumes[j], backend.View())
        invariant forall release :: old(Undisturbed(client, release)) ==> Smooth(client, release)
      {
        ghost var view := backend.View();
        assert sorted[i] in client.volumes;
        RelyOwn(client, old(backend.View()), view);
        var shown := ShowVolume(client, sorted[i]);
        RelyTransitive(client, old(backend.View()), view, backend.View());
        RelyTransitive(client, first, view, backend.View());
        GrowsTransitive(old(backend.View()), view, backend.View());
        PathsFreeTransitive(client, old(backend.View()), view, backend.View());
        if shown.Err? {
          if Identified(client, old(backend.View())) { IdentifiedKept(client, old(backend.View()), view); }
          return Err(shown.error);
        }
        forall j | 0 <= j < i ensures Shown(sorted[j], volumes[j], backend.View()) {
          assert sorted[j] in client.volumes;
          ShownKept(client, sorted[j], volumes[j], view, backend.View());
        }
        volumes := volumes + [shown.value];
      }
      LunsMatchKept(client, first, backend.View());
      r := Ok(ClientResponse(config.portal, client.targetIqn, volumes));
    }

    method ShowVolume(client: Client, v: Volume) returns (r: Result<VolumeResponse>)
      requires Tracks(client) && v in client.volumes
      modifies backend
      ensures Tracks(client) && Advanced(client, Reads) && Rely(client, old(backend.View()), backend.View())
      ensures |backend.trace| == old(|backend.trace|) + 1
      ensures r.Ok? ==> Shown(v, r.value, backend.View())
      ensures r.Err? ==> r.error in {NotReady, BackendError}
      ensures forall release :: old(Undisturbed(client, release)) ==>
                Smooth(client, release) && (Identified(client, old(backend.View())) ==> r.Ok?)
    {
      hide Inv, ClientStep, WellFormed, EnvOk, PathsFree, Undisturbed, Rely, Grows, NoMatch, StableId, VolumeView;
      label before:
      ghost var view := backend.View();
      var extent := backend.GetExtent(v.extentId);
      AfterRead@before(client, GetExtent(v.extentId), extent.Err?);
      RelyOwn(client, view, backend.View());
      assert v.extentId in ExtentIds(client);
      if extent.Err? { return Err(BackendError); }
      if StableId(v, extent.value) == "" { return Err(NotReady); }
      r := Ok(VolumeView(v, extent.value));
    }

    static lemma ShownKept(client: Client, v: Volume, view: VolumeResponse, s: State, t: State)
      requires v in client.volumes && Rely(client, s, t) && Shown(v, view, s)
      ensures Shown(v, view, t)
    {
    }

    static lemma IdentifiedKept(client: Client, s: State, t: State)
      requires Rely(client, s, t) && Identified(client, s)
      ensures Identified(client, t)
    {
    }

    static lemma LunsMatchKept(client: Client, s: State, t: State)
      requires Rely(client, s, t) && LunsMatch(client, s)
      ensures LunsMatch(client, t)
    {
    }

    static ghost predicate Shown(v: Volume, view: VolumeResponse, s: State) {
      v.extentId in s.extents && view == VolumeView(v, s.extents[v.extentId])
    }

    static ghost predicate Identified(client: Client, s: State) {
      forall v :: v in client.volumes ==> v.extentId in s.extents && StableId(v, s.extents[v.extentId]) != ""
    }

    /** The answer lists every volume by LUN, with the identity its extent has. */
    ghost predicate Answers(client: Client, r: ClientResponse, s: State) {
      var sorted := SortByLun(client.volumes);
      && r.portal == config.portal && r.targetIqn == client.targetIqn && |r.volumes| == |sorted|
      && forall j :: 0 <= j < |sorted| ==> Shown(sorted[j], r.volumes[j], s)
    }

    /** What an answer shows of a volume, field by field. */
    static ghost predicate Tells(r: ClientResponse, v: Volume, s: State) {
      exists j :: 0 <= j < |r.volumes| &&
        var w := r.volumes[j];
        && w.name == v.name && w.lun == v.lun && w.driveLetter == v.driveLetter && w.diskLabel == v.diskLabel
        && v.extentId in s.extents
        && w.diskUniqueId == if v.uniqueIdOverride.Some? && v.uniqueIdOverride.value != "" then v.uniqueIdOverride.value
                         else NormalizeDiskId(s.extents[v.extentId].naa)
    }

    /** An answer tells of every volume, in the order of their LUNs, and of nothing else. */
    lemma AnswersTell(client: Client, r: ClientResponse, s: State)
      requires Answers(client, r, s)
      ensures r.portal == config.portal && r.targetIqn == client.targetIqn && |r.volumes| == |client.volumes|
      ensures forall i, j :: 0 <= i < j < |r.volumes| ==> r.volumes[i].lun <= r.volumes[j].lun
      ensures forall v :: v in client.volumes ==> Tells(r, v, s)
    {
      SortByLunSorts(client.volumes);
      SortByLunKeeps(client.volumes);
      var sorted := SortByLun(client.volumes);
      forall i, j | 0 <= i < j < |r.volumes|
        ensures r.volumes[i].lun <= r.volumes[j].lun
      {
        assert Shown(sorted[i], r.volumes[i], s) && Shown(sorted[j], r.volumes[j], s);
      }
      forall v | v in client.volumes
        ensures Tells(r, v, s)
      {
        var j :| 0 <= j < |sorted| && sorted[j] == v;
        assert Shown(sorted[j], r.volumes[j], s);
      }
    }

    // ---- Writes ----

    /** _set_all_enabled(False). */
    method DisableAll(client: Client) returns (o: Outcome)
      requires Tracks(client)
      modifies backend
      ensures Tracks(client) && Advanced(client, Disables) && OnlyCloses(|old(backend.trace)|, backend.trace)
      ensures o.Pass? ==> AllDisabled(ExtentIds(client), backend.View()) && AllPresent(client, backend.View())
      ensures o.Fail? ==> o.error == BackendError
      ensures forall release :: old(Undisturbed(client, release)) ==>
                Smooth(client, release) && SameIdentity(client, old(backend.View()), backend.View()) &&
                (AllPresent(client, old(backend.View())) ==> o.Pass?)
    {
      hide Inv, ClientStep, WellFormed, EnvOk, PathsFree, Undisturbed, Rely, Grows, NoMatch, AllDisabled, Allowed;
      PathsFreeReflexive(client, backend.View());
      GrowsReflexive(backend.View());
      for i := 0 to |client.volumes|
        invariant Tracks(client) && Advanced(client, Disables)
        invariant OnlyCloses(|old(backend.trace)|, backend.trace)
        invariant forall j :: 0 <= j < i ==> Disabled(client.volumes[j].extentId, backend.View())
        invariant forall release :: old(Undisturbed(client, release)) ==>
          Smooth(client, release) && SameIdentity(client, old(backend.View()), backend.View())
      {
        ghost var view := backend.View();
        var updated := Disable(client, client.volumes[i], None);
        GrowsTransitive(old(backend.View()), view, backend.View());
        PathsFreeTransitive(client, old(backend.View()), view, backend.View());
        if updated.Err? {
          GrowsKeys(old(backend.View()), view);
          return Fail(BackendError);
        }
      }
      EveryDisabled(client, backend.View());
      o := Pass;
    }

    static lemma EveryDisabled(client: Client, s: State)
      requires forall j :: 0 <= j < |client.volumes| ==> Disabled(client.volumes[j].extentId, s)
      ensures AllDisabled(ExtentIds(client), s) && AllPresent(client, s)
    {
    }

    /** One update_extent call of the reset that leaves the extent disabled. */
    method Disable(client: Client, v: Volume, disk: Option<string>) returns (r: Result<Extent>)
      requires Tracks(client) && v in client.volumes
      requires disk.Some? ==> AllDisabled(ExtentIds(client), backend.View())
      modifies backend
      ensures Tracks(client) && Advanced(client, Disables)
      ensures |backend.trace| == old(|backend.trace|) + 1
      ensures var step := backend.trace[old(|backend.trace|)];
              step.op == UpdateExtent(v.extentId, Some(false), disk) && step.raised == r.Err?
      ensures forall e :: e in ExtentIds(client) && Disabled(e, old(backend.View())) ==> Disabled(e, backend.View())
      ensures forall e :: e in ExtentIds(client) && e in old(backend.View()).extents && e != v.extentId ==>
                e in backend.View().extents && backend.View().extents[e] == old(backend.View()).extents[e]
      ensures r.Ok? ==> v.extentId in backend.View().extents && r.value == backend.View().extents[v.extentId]
      ensures r.Ok? ==> Disabled(v.extentId, backend.View())
      ensures r.Ok? && disk.Some? ==> r.value.disk == NormalizeZvol(disk.value)
      ensures r.Err? ==> r.error == BackendError
      ensures forall release :: old(Undisturbed(client, release)) ==>
                Smooth(client, release) && SameIdentity(client, old(backend.View()), backend.View()) &&
                (v.extentId in old(backend.View()).extents ==> r.Ok?)
    {
      hide Inv, ClientStep, WellFormed, EnvOk, Undisturbed, Rely, NoMatch, NormalizeZvol, CloneDataset, Happens;
      ghost var mid := backend.env(backend.calls, backend.View());
      ghost var fault := backend.faults(backend.calls);
      label before:
      r := backend.UpdateExtent(v.extentId, Some(false), disk);
      BeforeWrite@before(client);
      RelyOwn(client, old(backend.View()), mid);
      if disk.Some? { AllDisabledKept(client, old(backend.View()), mid); }
      DisableStep(config, client, v, disk, mid, backend.View(), r.Err?, fault);
      AfterWrite@before(client, Disables, UpdateExtent(v.extentId, Some(false), disk), r.Err?);
      assert v.extentId in ExtentIds(client);
    }

    static lemma GrowsReflexive(s: State)
      ensures Grows(s, s)
    {
    }

    static lemma GrowsKeys(s: State, t: State)
      requires Grows(s, t)
      ensures t.extents.Keys == s.extents.Keys && t.luns == s.luns
    {
    }

    /** _best_effort_disable: every extent is tried, whatever happens to the others. */
    method BestEffortDisable(client: Client)
      requires Tracks(client)
      modifies backend
      ensures Tracks(client) && Advanced(client, Disables) && OnlyCloses(|old(backend.trace)|, backend.trace)
      ensures FailClosed(client, backend.trace, backend.View())
    {
      hide Inv, ClientStep, WellFormed, EnvOk, PathsFree, Undisturbed, Rely, Grows, NoMatch, AllDisabled, Trail, OnlyCloses, SameIdentity;
      ghost var log0 := backend.trace;
      TrailNil(config, client, backend.faults, Disables, log0);
      GrowsReflexive(backend.View());
      ghost var n := |backend.trace|;
      for i := 0 to |client.volumes|
        invariant Tracks(client) && Advanced(client, Disables)
        invariant |backend.trace| == n + i
        invariant forall j :: 0 <= j < i ==>
          var step := backend.trace[n + j];
          && step.op == UpdateExtent(client.volumes[j].extentId, Some(false), None)
          && (step.raised || Disabled(client.volumes[j].extentId, backend.View()))
      {
        ghost var view, log := backend.View(), backend.trace;
        assert forall j :: 0 <= j < |client.volumes| ==> client.volumes[j].extentId in ExtentIds(client);
        var _ := Disable(client, client.volumes[i], None);
        GrowsTransitive(old(backend.View()), view, backend.View());
        TrailJoin(config, client, backend.faults, Disables, Disables, Disables, log0, log, backend.trace);
        TrailPrefix(config, client, backend.faults, Disables, log, backend.trace);
      }
      FailClosedCloses(client, n, backend.trace, backend.View());
    }

    static lemma FailClosedCloses(client: Client, n: nat, log: seq<Step>, s: State)
      requires FailClosed(client, log, s) && |log| == n + |client.volumes|
      ensures OnlyCloses(n, log)
    {
      forall i | n <= i < |log| ensures Closes(log[i].op) {
        assert log[i].op == UpdateExtent(client.volumes[i - n].extentId, Some(false), None);
      }
    }

    /** _set_all_enabled(True), which the reset calls only when everything is in place. */
    method EnableAll(client: Client, ghost release: string) returns (o: Outcome)
      requires Tracks(client)
      requires Restored(config, client, release, backend.View()) && AllPresent(client, backend.View())
      modifies backend
      ensures Tracks(client) && Advanced(client, Updates(release))
      ensures Restored(config, client, release, backend.View()) && AllPresent(client, backend.View())
      ensures o.Pass? ==> forall j :: 0 <= j < |client.volumes| ==> Enabled(client.volumes[j].extentId, backend.View())
      ensures o.Fail? ==> o.error == BackendError
      ensures old(Undisturbed(client, release)) ==>
                Smooth(client, release) && SameIdentity(client, old(backend.View()), backend.View()) && o.Pass?
    {
      hide Inv, ClientStep, WellFormed, EnvOk, PathsFree, Undisturbed, Rely, Grows, NoMatch, Restored;
      PathsFreeReflexive(client, backend.View());
      GrowsReflexive(backend.View());
      for i := 0 to |client.volumes|
        invariant Tracks(client) && Advanced(client, Updates(release))
        invariant Restored(config, client, release, backend.View()) && AllPresent(client, backend.View())
        invariant forall j :: 0 <= j < i ==> Enabled(client.volumes[j].extentId, backend.View())
        invariant old(Undisturbed(client, release)) ==>
          Smooth(client, release) && SameIdentity(client, old(backend.View()), backend.View())
      {
        ghost var view := backend.View();
        var updated := Enable(client, client.volumes[i], release);
        GrowsTransitive(old(backend.View()), view, backend.View());
        PathsFreeTransitive(client, old(backend.View()), view, backend.View());
        if updated.Err? { return Fail(BackendError); }
        assert forall j :: 0 <= j < i ==> client.volumes[j].extentId in ExtentIds(client);
      }
      o := Pass;
    }

    static ghost predicate Enabled(id: nat, s: State) {
      id in s.extents && s.extents[id].enabled
    }

    method Enable(client: Client, v: Volume, ghost release: string) returns (r: Result<Extent>)
      requires Tracks(client) && v in client.volumes
      requires Restored(config, client, release, backend.View()) && AllPresent(client, backend.View())
      modifies backend
      ensures Tracks(client) && Advanced(client, Updates(release))
      ensures Restored(config, client, release, backend.View()) && AllPresent(client, backend.View())
      ensures forall e :: e in ExtentIds(client) && Enabled(e, old(backend.View())) ==> Enabled(e, backend.View())
      ensures r.Ok? ==> Enabled(v.extentId, backend.View())
      ensures r.Err? ==> r.error == BackendError
      ensures old(Undisturbed(client, release)) ==>
                Smooth(client, release) && SameIdentity(client, old(backend.View()), backend.View()) && r.Ok?
    {
      hide Inv, ClientStep, WellFormed, EnvOk, Undisturbed, Rely, NoMatch, CloneDataset, Happens, Restored;
      ghost var mid := backend.env(backend.calls, backend.View());
      ghost var fault := backend.faults(backend.calls);
      label before:
      r := backend.UpdateExtent(v.extentId, Some(true), None);
      BeforeWrite@before(client);
      RelyOwn(client, old(backend.View()), mid);
      RestoredKept(config, client, release, old(backend.View()), mid);
      EnableStep(config, client, v, release, mid, backend.View(), r.Err?, fault);
      AfterWrite@before(client, Updates(release), UpdateExtent(v.extentId, Some(true), None), r.Err?);
      assert v.extentId in ExtentIds(client);
    }

    method Ping(client: Client) returns (o: Outcome)
      requires Tracks(client)
      modifies backend
      ensures Tracks(client) && Advanced(client, Reads) && Rely(client, old(backend.View()), backend.View())
      ensures |backend.trace| == |old(backend.trace)| + 1
      ensures forall release :: old(Undisturbed(client, release)) ==> Smooth(client, release) && o.Pass?
    {
      hide Inv, Rely, ClientStep, WellFormed, EnvOk, PathsFree, Undisturbed, NoMatch;
      label before:
      var r := backend.Ping();
      AfterRead@before(client, Op.Ping, r.Err?);
      o := if r.Err? then Fail(BackendError) else Pass;
    }

    method ReadSnapshot(client: Client, snapshot: SnapshotId) returns (r: Result<bool>)
      requires Tracks(client)
      modifies backend
      ensures Tracks(client) && Advanced(client, Reads) && Rely(client, old(backend.View()), backend.View())
      ensures r.Ok? ==> r.value == (snapshot in backend.View().snapshots)
      ensures r.Err? ==> r.error == BackendError
      ensures forall release :: old(Undisturbed(client, release)) ==> Smooth(client, release) && r.Ok?
    {
      hide Inv, Rely, ClientStep, WellFormed, EnvOk, PathsFree, Undisturbed, NoMatch;
      label before:
      r := backend.SnapshotExists(snapshot);
      AfterRead@before(client, SnapshotExists(snapshot), r.Err?);
    }

    method ReadDataset(client: Client, name: string) returns (r: Result<Option<Dataset>>)
      requires Tracks(client)
      modifies backend
      ensures Tracks(client) && Advanced(client, Reads) && Rely(client, old(backend.View()), backend.View())
      ensures r.Ok? ==> r.value == if name in backend.View().datasets then Some(backend.View().datasets[name]) else None
      ensures r.Err? ==> r.error == BackendError
      ensures forall release :: old(Undisturbed(client, release)) ==> Smooth(client, release) && r.Ok?
    {
      hide Inv, Rely, ClientStep, WellFormed, EnvOk, PathsFree, Undisturbed, NoMatch;
      label before:
      r := backend.GetDataset(name);
      AfterRead@before(client, GetDataset(name), r.Err?);
    }

    method Clone(client: Client, v: Volume, release: string) returns (o: Outcome)
      requires Tracks(client) && v in client.volumes && AllDisabled(ExtentIds(client), backend.View())
      modifies backend
      ensures Tracks(client) && Advanced(client, Creates(release))
      ensures OwnExtentsSame(client, old(backend.View()), backend.View())
      ensures o.Pass? ==> CloneDataset(client, v, release) in backend.View().datasets
      ensures o.Fail? ==> o.error == BackendError
      ensures old(Undisturbed(client, release)) ==>
                Still(client, release) &&
                OnlyPath(client, v, release, old(backend.View()), backend.View()) &&
                (Clonable(config, client, v, release, old(backend.View())) &&
                 CloneDataset(client, v, release) !in old(backend.View()).datasets ==>
                   o.Pass? && Clonable(config, client, v, release, backend.View()))
    {
      hide Inv, ClientStep, WellFormed, EnvOk, Undisturbed, Rely, NoMatch, CloneDataset, MasterDataset, Happens,
           CloneProperties, Grows, Clonable;
      ghost var mid := backend.env(backend.calls, backend.View());
      ghost var fault := backend.faults(backend.calls);
      label before:
      var r := backend.CloneSnapshot(SnapshotPath(config, v.name, release), CloneDataset(client, v, release),
                                     CloneProperties(client.name, v.name, release));
      BeforeWrite@before(client);
      RelyOwn(client, old(backend.View()), mid);
      RelyGrows(client, old(backend.View()), mid);
      AllDisabledKept(client, old(backend.View()), mid);
      CloneStep(config, client, v, release, mid, backend.View(), r.Err?, fault);
      AfterWrite@before(client, Creates(release),
        Op.CloneSnapshot(SnapshotPath(config, v.name, release), CloneDataset(client, v, release),
                         CloneProperties(client.name, v.name, release)), r.Err?);
      o := if r.Err? then Fail(r.error) else Pass;
      if Clonable(config, client, v, release, old(backend.View())) && PathsFree(client, release, old(backend.View()), mid) {
        ClonableKept(config, client, v, release, old(backend.View()), mid);
      }
    }

    static lemma RelyGrows(client: Client, s: State, t: State)
      requires Rely(client, s, t)
      ensures Grows(s, t)
    {
    }

    method EnsureDataset(client: Client, v: Volume, release: string, source: SnapshotId) returns (o: Outcome)
      requires Tracks(client) && v in client.volumes && AllDisabled(ExtentIds(client), backend.View())
      requires source == SnapshotPath(config, v.name, release)
      modifies backend
      ensures Tracks(client) && Advanced(client, Creates(release))
      ensures OwnExtentsSame(client, old(backend.View()), backend.View())
      ensures VerifiedClone(config, client, v, release, old(backend.View())) ==> Advanced(client, Disables)
      ensures o.Pass? ==> VerifiedClone(config, client, v, release, backend.View())
      ensures o.Fail? ==> o.error in {NotReady, BackendError}
      ensures old(Undisturbed(client, release)) ==>
                Still(client, release) &&
                OnlyPath(client, v, release, old(backend.View()), backend.View()) &&
                (Clonable(config, client, v, release, old(backend.View())) ==> o.Pass?)
    {
      hide Inv, ClientStep, WellFormed, EnvOk, PathsFree, Undisturbed, Rely, NoMatch, CloneDataset, MasterDataset,
           Verified, Grows, OwnExtentsSame, AllDisabled, OnlyPath, Happens, Allowed, Trail;
      ghost var s0, log0 := backend.View(), backend.trace;
      var found := ReadSnapshot(client, source);
      ghost var s1, log1 := backend.View(), backend.trace;
      ReadFacts(client, v, release, s0, s1);
      TrailWiden(config, client, backend.faults, Reads, log0, log1, release);
      if found.Err? { return Fail(found.error); }
      if !found.value { return Fail(NotReady); }
      var d := CloneDataset(client, v, release);
      var existing := ReadDataset(client, d);
      ghost var s2, log2 := backend.View(), backend.trace;
      ReadFacts(client, v, release, s1, s2);
      TrailJoin(config, client, backend.faults, Reads, Reads, Reads, log0, log1, log2);
      TrailWiden(config, client, backend.faults, Reads, log0, log2, release);
      RelyTransitive(client, s0, s1, s2);
      ReadFacts(client, v, release, s0, s2);
      PathsFreeTransitive(client, s0, s1, s2);
      if existing.Err? { return Fail(existing.error); }
      var dataset := existing.value;
      if dataset.None? {
        var cloned := Clone(client, v, release);
        ghost var s3, log3 := backend.View(), backend.trace;
        GrowsTransitive(s0, s2, s3);
        OwnSameTransitive(client, s0, s2, s3);
        TrailJoin(config, client, backend.faults, Reads, Creates(release), Creates(release), log0, log2, log3);
        OnlyPathTransitive(client, v, release, s0, s2, s3);
        if cloned.Fail? { return cloned; }
        existing := ReadDataset(client, d);
        ghost var s4 := backend.View();
        ReadFacts(client, v, release, s3, s4);
        TrailJoin(config, client, backend.faults, Creates(release), Reads, Creates(release), log0, log3, backend.trace);
        GrowsTransitive(s0, s3, s4);
        OwnSameTransitive(client, s0, s3, s4);
        OnlyPathTransitive(client, v, release, s3, s4, s4);
        OnlyPathTransitive(client, v, release, s0, s3, s4);
        if existing.Err? { return Fail(existing.error); }
        if existing.value.None? { return Fail(NotReady); }
        dataset := existing.value;
      }
      if !Verified(dataset.value, client.name, v.name, release, source) { return Fail(NotReady); }
      o := Pass;
    }

    /** What a read leaves of the facts about one volume. */
    lemma ReadFacts(client: Client, v: Volume, release: string, s: State, t: State)
      requires Rely(client, s, t)
      ensures Grows(s, t) && OwnExtentsSame(client, s, t)
      ensures AllDisabled(ExtentIds(client), s) ==> AllDisabled(ExtentIds(client), t)
      ensures PathsFree(client, release, s, t) ==> OnlyPath(client, v, release, s, t)
      ensures VerifiedClone(config, client, v, release, s) ==> VerifiedClone(config, client, v, release, t)
      ensures Clonable(config, client, v, release, s) && v in client.volumes &&
              (PathsFree(client, release, s, t) || CloneDataset(client, v, release) in s.datasets) ==>
                Clonable(config, client, v, release, t)
    {
    }

    method Clean(client: Client, v: Volume, release: string) returns (o: Outcome)
      requires Tracks(client) && v in client.volumes && AllDisabled(ExtentIds(client), backend.View())
      requires VerifiedClone(config, client, v, release, backend.View())
      modifies backend
      ensures Tracks(client) && Advanced(client, Creates(release))
      ensures OwnExtentsSame(client, old(backend.View()), backend.View())
      ensures VerifiedClone(config, client, v, release, backend.View())
      ensures o.Pass? ==> CloneReady(config, client, v, release, backend.View())
      ensures o.Fail? ==> o.error == BackendError
      ensures old(Undisturbed(client, release)) ==>
                Smooth(client, release) &&
                (At(CloneDataset(client, v, release), CLEAN) !in old(backend.View()).snapshots ==> o.Pass?)
    {
      hide Inv, ClientStep, WellFormed, EnvOk, Undisturbed, NoMatch, CloneDataset, MasterDataset, Happens, Verified, CloneReady;
      ghost var mid := backend.env(backend.calls, backend.View());
      ghost var fault := backend.faults(backend.calls);
      label before:
      var r := backend.CreateSnapshot(CloneDataset(client, v, release), CLEAN);
      BeforeWrite@before(client);
      RelyOwn(client, old(backend.View()), mid);
      AllDisabledKept(client, old(backend.View()), mid);
      VerifiedKept(config, client, v, release, old(backend.View()), mid);
      VerifiedOwned(client, v, release, old(backend.View()));
      CleanStep(config, client, v, release, mid, backend.View(), r.Err?, fault);
      AfterWrite@before(client, Creates(release), Op.CreateSnapshot(CloneDataset(client, v, release), CLEAN), r.Err?);
      o := if r.Err? then Fail(r.error) else Pass;
    }

    lemma VerifiedOwned(client: Client, v: Volume, release: string, s: State)
      requires VerifiedClone(config, client, v, release, s)
      ensures OwnedBy(client, s.datasets[CloneDataset(client, v, release)])
    {
    }

    method EnsureClean(client: Client, v: Volume, release: string) returns (o: Outcome)
      requires Tracks(client) && v in client.volumes && AllDisabled(ExtentIds(client), backend.View())
      requires VerifiedClone(config, client, v, release, backend.View())
      modifies backend
      ensures Tracks(client) && Advanced(client, Creates(release))
      ensures OwnExtentsSame(client, old(backend.View()), backend.View())
      ensures CloneReady(config, client, v, release, old(backend.View())) ==> Advanced(client, Disables)
      ensures o.Pass? ==> CloneReady(config, client, v, release, backend.View())
      ensures o.Fail? ==> o.error in {NotReady, BackendError}
      ensures old(Undisturbed(client, release)) ==> Smooth(client, release) && o.Pass?
    {
      hide Inv, ClientStep, WellFormed, EnvOk, PathsFree, Undisturbed, Rely, NoMatch, CloneDataset, MasterDataset,
           Verified, OwnExtentsSame, AllDisabled, Trail, Happens, Allowed, CloneReady, VerifiedClone, Grows;
      var clean := At(CloneDataset(client, v, release), CLEAN);
      ghost var s0, log0 := backend.View(), backend.trace;
      var found := ReadSnapshot(client, clean);
      ghost var s1, log1 := backend.View(), backend.trace;
      ReadFacts(client, v, release, s0, s1);
      TrailWiden(config, client, backend.faults, Reads, log0, log1, release);
      if found.Err? { return Fail(found.error); }
      ReadyWhenClean(client, v, release, s0, s1);
      if !found.value {
        var made := Clean(client, v, release);
        GrowsTransitive(s0, s1, backend.View());
        OwnSameTransitive(client, s0, s1, backend.View());
        PathsFreeTransitive(client, s0, s1, backend.View());
        TrailJoin(config, client, backend.faults, Reads, Creates(release), Creates(release), log0, log1, backend.trace);
        if made.Fail? { return made; }
      }
      ghost var s2, log2 := backend.View(), backend.trace;
      found := ReadSnapshot(client, clean);
      TrailJoin(config, client, backend.faults, Creates(release), Reads, Creates(release), log0, log2, backend.trace);
      if CloneReady(config, client, v, release, s0) {
        TrailJoin(config, client, backend.faults, Disables, Reads, Disables, log0, log2, backend.trace);
      }
      ReadFacts(client, v, release, s2, backend.View());
      GrowsTransitive(s0, s2, backend.View());
      OwnSameTransitive(client, s0, s2, backend.View());
      PathsFreeTransitive(client, s0, s2, backend.View());
      ReadyWhenClean(client, v, release, s2, backend.View());
      if found.Err? { return Fail(found.error); }
      if !found.value { return Fail(NotReady); }
      o := Pass;
    }

    lemma ReadyWhenClean(client: Client, v: Volume, release: string, s: State, t: State)
      requires Grows(s, t)
      ensures VerifiedClone(config, client, v, release, t) && At(CloneDataset(client, v, release), CLEAN) in t.snapshots ==>
                CloneReady(config, client, v, release, t)
      ensures CloneReady(config, client, v, release, s) ==> At(CloneDataset(client, v, release), CLEAN) in t.snapshots
      ensures CloneReady(config, client, v, release, s) ==> VerifiedClone(config, client, v, release, s)
    {
    }

    /** _ensure_release_clone: an existing clone is reused only when origin and properties verify. */
    method EnsureReleaseClone(client: Client, v: Volume, release: string, source: SnapshotId) returns (o: Outcome)
      requires Tracks(client) && v in client.volumes && AllDisabled(ExtentIds(client), backend.View())
      requires source == SnapshotPath(config, v.name, release)
      modifies backend
      ensures Tracks(client) && Advanced(client, Creates(release))
      ensures OwnExtentsSame(client, old(backend.View()), backend.View())
      ensures CloneReady(config, client, v, release, old(backend.View())) ==> Advanced(client, Disables)
      ensures o.Pass? ==> CloneReady(config, client, v, release, backend.View())
      ensures o.Fail? ==> o.error in {NotReady, BackendError}
      ensures old(Undisturbed(client, release)) ==>
                Still(client, release) &&
                OnlyPath(client, v, release, old(backend.View()), backend.View()) &&
                (Clonable(config, client, v, release, old(backend.View())) ==> o.Pass?)
    {
      hide Inv, ClientStep, WellFormed, EnvOk, PathsFree, Undisturbed, Rely, NoMatch, CloneDataset, MasterDataset,
           Verified, Grows, OwnExtentsSame, AllDisabled, Clonable, OnlyPath;
      var dataset := EnsureDataset(client, v, release, source);
      if dataset.Fail? { return dataset; }
      ghost var view := backend.View();
      GrowsKeys(old(backend.View()), view);
      OwnDisabled(client, old(backend.View()), view);
      if CloneReady(config, client, v, release, old(backend.View())) {
        CloneReadyKept(config, client, v, release, old(backend.View()), view);
      }
      o := EnsureClean(client, v, release);
      OnlyPathTransitive(client, v, release, view, backend.View(), backend.View());
      OwnSameTransitive(client, old(backend.View()), view, backend.View());
      GrowsTransitive(old(backend.View()), view, backend.View());
      OnlyPathTransitive(client, v, release, old(backend.View()), view, backend.View());
    }

    /** No clone path of the release but this volume's was taken. */
    static ghost predicate OnlyPath(client: Client, v: Volume, release: string, s: State, t: State) {
      forall w :: w in client.volumes && CloneDataset(client, w, release) in t.datasets ==>
        CloneDataset(client, w, release) in s.datasets || CloneDataset(client, w, release) == CloneDataset(client, v, release)
    }

    static lemma OnlyPathTransitive(client: Client, v: Volume, release: string, s: State, t: State, u: State)
      ensures OnlyPath(client, v, release, s, t) && OnlyPath(client, v, release, t, u) ==>
                OnlyPath(client, v, release, s, u)
      ensures PathsFree(client, release, s, t) ==> OnlyPath(client, v, release, s, t)
    {
    }

    static lemma OwnSameTransitive(client: Client, s: State, t: State, u: State)
      requires OwnExtentsSame(client, s, t) && OwnExtentsSame(client, t, u)
      ensures OwnExtentsSame(client, s, u)
    {
    }

    static lemma OwnDisabled(client: Client, s: State, t: State)
      requires OwnExtentsSame(client, s, t) && t.extents.Keys == s.extents.Keys
      ensures AllDisabled(ExtentIds(client), s) ==> AllDisabled(ExtentIds(client), t)
    {
    }

    // ---- The loops of prepare ----

    method ActiveRelease() returns (r: Result<ReleaseRecord>)
      ensures r.Ok? ==> store.active == Some(r.value.name) && r.value.name in store.releases
      ensures r.Ok? ==> r.value == Record(store.View(), r.value.name) && Usable(config, r.value)
      ensures r.Err? ==> r.error == NotReady
      ensures r.Err? <==> !ActiveUsable(config, store.View())
    {
      hide Record, SnapshotPath;
      var active := store.ActiveRelease();
      if active.Err? || active.value.None? { return Err(NotReady); }
      var record := active.value.value;
      assert record.name == store.active.value by { RecordName(store.View(), store.active.value); }
      if !Usable(config, record) { return Err(NotReady); }
      r := Ok(record);
    }

    static lemma RecordName(db: Db, name: string)
      requires name in db.releases
      ensures Record(db, name).name == name
    {
    }

    static ghost predicate ActiveUsable(config: ServiceConfig, db: Db) {
      db.active.Some? && db.active.value in db.releases && Usable(config, Record(db, db.active.value))
    }

    method EnsureClones(client: Client, record: ReleaseRecord) returns (r: Result<seq<string>>)
      requires Tracks(client) && AllDisabled(ExtentIds(client), backend.View()) && Usable(config, record)
      modifies backend
      ensures Tracks(client) && Advanced(client, Creates(record.name))
      ensures OwnExtentsSame(client, old(backend.View()), backend.View())
      ensures AllReady(config, client, record.name, old(backend.View())) ==> Advanced(client, Disables)
      ensures r.Ok? ==> Desired(client, record.name, r.value) && AllReady(config, client, record.name, backend.View())
      ensures r.Err? ==> r.error in {NotReady, BackendError}
      ensures old(Undisturbed(client, record.name)) ==>
                Still(client, record.name) &&
                (AllClonable(config, client, record.name, 0, old(backend.View())) && PathsDiffer(client, record.name) ==>
                   r.Ok?)
    {
      hide Inv, ClientStep, EnvOk, PathsFree, Undisturbed, Rely, NoMatch, CloneDataset, SnapshotPath, WellFormed,
           Grows, OwnExtentsSame, AllDisabled, Clonable, CloneReady, OnlyPath, PathsDiffer, Usable;
      OwnSameReflexive(client, backend.View());
      GrowsReflexive(backend.View());
      var desired: seq<string> := [];
      for i := 0 to |client.volumes|
        invariant Tracks(client) && Advanced(client, Creates(record.name))
        invariant OwnExtentsSame(client, old(backend.View()), backend.View())
        invariant AllDisabled(ExtentIds(client), backend.View())
        invariant AllReady(config, client, record.name, old(backend.View())) ==> Advanced(client, Disables)
        invariant |desired| == i && ReadyTo(client, record.name, i, backend.View())
        invariant forall j :: 0 <= j < i ==> desired[j] == CloneDataset(client, client.volumes[j], record.name)
        invariant old(Undisturbed(client, record.name)) ==>
          Still(client, record.name) &&
          (AllClonable(config, client, record.name, 0, old(backend.View())) && PathsDiffer(client, record.name) ==>
             AllClonable(config, client, record.name, i, backend.View()))
      {
        var v := client.volumes[i];
        ghost var view := backend.View();
        HasMaster(client, v, record);
        if CloneReady(config, client, v, record.name, old(backend.View())) {
          CloneReadyKept(config, client, v, record.name, old(backend.View()), view);
        }
        var ensured := EnsureReleaseClone(client, v, record.name, record.snapshots[v.name]);
        OwnSameTransitive(client, old(backend.View()), view, backend.View());
        GrowsTransitive(old(backend.View()), view, backend.View());
        GrowsKeys(view, backend.View());
        OwnDisabled(client, view, backend.View());
        if ensured.Fail? { return Err(ensured.error); }
        ReadyToNext(client, record.name, i, view, backend.View());
        desired := desired + [CloneDataset(client, v, record.name)];
        if OnlyPath(client, v, record.name, view, backend.View()) && PathsDiffer(client, record.name) {
          StillClonable(client, record.name, i, view, backend.View());
        }
      }
      ReadyToAll(client, record.name, backend.View());
      r := Ok(desired);
    }

    /** The first `i` volumes have their clones. */
    ghost predicate ReadyTo(client: Client, release: string, i: nat, s: State) {
      forall j :: 0 <= j < i && j < |client.volumes| ==> CloneReady(config, client, client.volumes[j], release, s)
    }

    lemma ReadyToNext(client: Client, release: string, i: nat, s: State, t: State)
      requires i < |client.volumes| && ReadyTo(client, release, i, s) && Grows(s, t)
      requires CloneReady(config, client, client.volumes[i], release, t)
      ensures ReadyTo(client, release, i + 1, t)
    {
    }

    lemma ReadyToAll(client: Client, release: string, s: State)
      requires ReadyTo(client, release, |client.volumes|, s)
      ensures AllReady(config, client, release, s)
    {
    }

    static ghost predicate Desired(client: Client, release: string, desired: seq<string>) {
      |desired| == |client.volumes| &&
      forall j :: 0 <= j < |desired| ==> desired[j] == CloneDataset(client, client.volumes[j], release)
    }

    static ghost predicate AllClonable(config: ServiceConfig, client: Client, release: string, from: nat, s: State) {
      forall j :: from <= j < |client.volumes| ==> Clonable(config, client, client.volumes[j], release, s)
    }

    static ghost predicate PathsDiffer(client: Client, release: string) {
      forall i, j :: 0 <= i < j < |client.volumes| ==>
        CloneDataset(client, client.volumes[i], release) != CloneDataset(client, client.volumes[j], release)
    }

    lemma StillClonable(client: Client, release: string, i: nat, s: State, t: State)
      requires i < |client.volumes| && OnlyPath(client, client.volumes[i], release, s, t)
      requires PathsDiffer(client, release) && Grows(s, t)
      ensures AllClonable(config, client, release, i, s) ==> AllClonable(config, client, release, i + 1, t)
    {
    }

    static lemma OwnSameReflexive(client: Client, s: State)
      ensures OwnExtentsSame(client, s, s)
    {
    }

    lemma HasMaster(client: Client, v: Volume, record: ReleaseRecord)
      requires WellFormed(config) && client in config.clients && v in client.volumes && Usable(config, record)
      ensures v.name in record.snapshots && record.snapshots[v.name] == SnapshotPath(config, v.name, record.name)
    {
    }

    method PointExtents(client: Client, desired: seq<string>, originals: seq<Extent>) returns (o: Outcome)
      requires Tracks(client) && AllDisabled(ExtentIds(client), backend.View())
      requires |desired| == |originals| == |client.volumes|
      modifies backend
      ensures Tracks(client) && Advanced(client, Disables) && AllDisabled(ExtentIds(client), backend.View())
      ensures o.Pass? ==> PointedAt(client, desired, backend.View()) && ReadBack(desired)
      ensures o.Fail? ==> o.error in {NotReady, BackendError}
      ensures forall release :: old(Undisturbed(client, release)) ==>
                Smooth(client, release) && SameIdentity(client, old(backend.View()), backend.View()) &&
                (IdentityIs(client, originals, old(backend.View())) && ReadBack(desired) ==> o.Pass?)
    {
      hide Inv, ClientStep, WellFormed, EnvOk, PathsFree, Undisturbed, Rely, NoMatch, NormalizeZvol, NormalizeDiskId, Grows,
           Trail, AllDisabled, SameIdentity, IdentityIs;
      ghost var s0, log0 := backend.View(), backend.trace;
      PathsFreeReflexive(client, s0);
      GrowsReflexive(s0);
      TrailNil(config, client, backend.faults, Disables, log0);
      SameIdentityReflexive(client, s0);
      for i := 0 to |client.volumes|
        invariant Tracks(client) && Advanced(client, Disables) && AllDisabled(ExtentIds(client), backend.View())
        invariant forall j :: 0 <= j < i ==>
          PointedTo(client.volumes[j], desired[j], backend.View()) && NormalizeZvol(desired[j]) == desired[j]
        invariant forall release :: old(Undisturbed(client, release)) ==>
          Smooth(client, release) && SameIdentity(client, s0, backend.View())
      {
        ghost var view, log := backend.View(), backend.trace;
        if IdentityIs(client, originals, s0) && SameIdentity(client, s0, view) {
          IdentityIsKept(client, originals, s0, view);
          IdentityIsAt(client, originals, view, i);
        }
        var pointed := PointExtent(client, client.volumes[i], desired[i], originals[i]);
        GrowsTransitive(s0, view, backend.View());
        TrailJoin(config, client, backend.faults, Disables, Disables, Disables, log0, log, backend.trace);
        SameIdentityTransitive(client, s0, view, backend.View());
        PathsFreeTransitive(client, s0, view, backend.View());
        assert desired[i] in desired;
        if pointed.Fail? { return pointed; }
        OthersPointed(client, desired, i, view, backend.View());
      }
      o := Pass;
    }

    method PointExtent(client: Client, v: Volume, disk: string, original: Extent) returns (o: Outcome)
      requires Tracks(client) && v in client.volumes && AllDisabled(ExtentIds(client), backend.View())
      modifies backend
      ensures Tracks(client) && Advanced(client, Disables) && AllDisabled(ExtentIds(client), backend.View())
      ensures OthersSame(client, v, old(backend.View()), backend.View())
      ensures o.Pass? ==> PointedTo(v, disk, backend.View()) && NormalizeZvol(disk) == disk
      ensures o.Fail? ==> o.error in {NotReady, BackendError}
      ensures forall release :: old(Undisturbed(client, release)) ==>
                Smooth(client, release) && SameIdentity(client, old(backend.View()), backend.View()) &&
                (IdentityAt(v, original, old(backend.View())) && NormalizeZvol(disk) == disk ==> o.Pass?)
    {
      hide Inv, ClientStep, WellFormed, EnvOk, PathsFree, Undisturbed, Rely, NoMatch, NormalizeZvol, NormalizeDiskId, Trail,
           Grows, AllDisabled;
      ghost var view := backend.View();
      var updated := Disable(client, v, Some(disk));
      GrowsKeys(view, backend.View());
      StillDisabled(client, view, backend.View());
      assert v.extentId in ExtentIds(client);
      if updated.Err? { return Fail(BackendError); }
      if NormalizeDiskId(updated.value.naa) != NormalizeDiskId(original.naa) { return Fail(NotReady); }
      if updated.value.serial != original.serial { return Fail(NotReady); }
      if updated.value.disk != disk || updated.value.enabled { return Fail(NotReady); }
      o := Pass;
    }

    static ghost predicate PointedTo(v: Volume, disk: string, s: State) {
      v.extentId in s.extents && s.extents[v.extentId].disk == disk
    }

    static ghost predicate IdentityAt(v: Volume, original: Extent, s: State) {
      && v.extentId in s.extents
      && s.extents[v.extentId].naa == original.naa && s.extents[v.extentId].serial == original.serial
    }

    static ghost predicate OthersSame(client: Client, v: Volume, s: State, t: State) {
      forall e :: e in ExtentIds(client) && e in s.extents && e != v.extentId ==>
        e in t.extents && t.extents[e] == s.extents[e]
    }

    static lemma IdentityIsAt(client: Client, originals: seq<Extent>, s: State, i: nat)
      requires IdentityIs(client, originals, s) && i < |client.volumes|
      ensures IdentityAt(client.volumes[i], originals[i], s)
    {
    }

    lemma OthersPointed(client: Client, desired: seq<string>, i: nat, s: State, t: State)
      requires WellFormed(config) && client in config.clients && i < |client.volumes| == |desired|
      requires OthersSame(client, client.volumes[i], s, t)
      ensures forall j :: 0 <= j < i && PointedTo(client.volumes[j], desired[j], s) ==>
                PointedTo(client.volumes[j], desired[j], t)
    {
    }

    static lemma StillDisabled(client: Client, s: State, t: State)
      requires AllDisabled(ExtentIds(client), s) && t.extents.Keys == s.extents.Keys
      requires forall e :: e in ExtentIds(client) && Disabled(e, s) ==> Disabled(e, t)
      ensures AllDisabled(ExtentIds(client), t)
    {
    }

    static lemma SameIdentityReflexive(client: Client, s: State)
      ensures SameIdentity(client, s, s)
    {
    }

    static ghost predicate PointedAt(client: Client, desired: seq<string>, s: State)
      requires |desired| == |client.volumes|
    {
      forall j :: 0 <= j < |client.volumes| ==> PointedTo(client.volumes[j], desired[j], s)
    }

    /** The backend stores these paths as they are. */
    static ghost predicate ReadBack(desired: seq<string>) {
      forall d :: d in desired ==> NormalizeZvol(d) == d
    }

    static ghost predicate IdentityIs(client: Client, originals: seq<Extent>, s: State) {
      |originals| == |client.volumes| &&
      forall j :: 0 <= j < |client.volumes| ==>
        && client.volumes[j].extentId in s.extents
        && s.extents[client.volumes[j].extentId].naa == originals[j].naa
        && s.extents[client.volumes[j].extentId].serial == originals[j].serial
    }

    method RollbackAll(client: Client, ghost release: string, desired: seq<string>) returns (o: Outcome)
      requires Tracks(client) && AllDisabled(ExtentIds(client), backend.View())
      requires Desired(client, release, desired) && AllReady(config, client, release, backend.View())
      modifies backend
      ensures Tracks(client) && Advanced(client, Disables)
      ensures OwnExtentsSame(client, old(backend.View()), backend.View())
      ensures AllReady(config, client, release, backend.View())
      ensures o.Pass? ==> forall v :: v in client.volumes ==> Pristine(config, client, v, release, backend.View())
      ensures o.Fail? ==> o.error == BackendError
      ensures old(Undisturbed(client, release)) ==> Smooth(client, release) && o.Pass?
    {
      hide Inv, ClientStep, WellFormed, EnvOk, PathsFree, Undisturbed, Rely, NoMatch, CloneDataset, MasterDataset,
           Grows, OwnExtentsSame, AllDisabled, CloneReady, Pristine;
      OwnSameReflexive(client, backend.View());
      PathsFreeReflexive(client, backend.View());
      GrowsReflexive(backend.View());
      for i := 0 to |client.volumes|
        invariant Tracks(client) && Advanced(client, Disables)
        invariant OwnExtentsSame(client, old(backend.View()), backend.View())
        invariant AllDisabled(ExtentIds(client), backend.View()) && AllReady(config, client, release, backend.View())
        invariant forall j :: 0 <= j < i ==> Pristine(config, client, client.volumes[j], release, backend.View())
        invariant old(Undisturbed(client, release)) ==> Smooth(client, release)
      {
        ghost var view := backend.View();
        var rolled := Rollback(client, client.volumes[i], release, desired[i]);
        OwnSameTransitive(client, old(backend.View()), view, backend.View());
        GrowsTransitive(old(backend.View()), view, backend.View());
        PathsFreeTransitive(client, old(backend.View()), view, backend.View());
        GrowsKeys(view, backend.View());
        OwnDisabled(client, view, backend.View());
        if rolled.Fail? { return rolled; }
      }
      o := Pass;
    }

    method Rollback(client: Client, v: Volume, ghost release: string, path: string) returns (o: Outcome)
      requires Tracks(client) && v in client.volumes && AllDisabled(ExtentIds(client), backend.View())
      requires path == CloneDataset(client, v, release) && AllReady(config, client, release, backend.View())
      modifies backend
      ensures Tracks(client) && Advanced(client, Disables)
      ensures OwnExtentsSame(client, old(backend.View()), backend.View())
      ensures AllReady(config, client, release, backend.View())
      ensures o.Pass? ==> Pristine(config, client, v, release, backend.View())
      ensures forall w :: w in client.volumes && Pristine(config, client, w, release, old(backend.View())) ==>
                Pristine(config, client, w, release, backend.View())
      ensures o.Fail? ==> o.error == BackendError
      ensures old(Undisturbed(client, release)) ==> Smooth(client, release) && o.Pass?
    {
      hide Inv, ClientStep, EnvOk, Undisturbed, Rely, NoMatch, CloneDataset, MasterDataset, Happens, CloneReady,
           Pristine, Verified, Grows, WellFormed;
      ghost var mid := backend.env(backend.calls, backend.View());
      ghost var fault := backend.faults(backend.calls);
      label before:
      var r := backend.RollbackSnapshot(At(path, CLEAN));
      BeforeWrite@before(client);
      RelyOwn(client, old(backend.View()), mid);
      RelyGrows(client, old(backend.View()), mid);
      AllDisabledKept(client, old(backend.View()), mid);
      forall w | w in client.volumes ensures CloneReady(config, client, w, release, mid) {
        CloneReadyKept(config, client, w, release, old(backend.View()), mid);
      }
      RollbackStep(config, client, v, release, mid, backend.View(), r.Err?, fault);
      AfterWrite@before(client, Disables, Op.RollbackSnapshot(At(path, CLEAN)), r.Err?);
      forall w | w in client.volumes ensures CloneReady(config, client, w, release, backend.View()) {
        CloneReadyKept(config, client, w, release, old(backend.View()), backend.View());
      }
      forall w | w in client.volumes && Pristine(config, client, w, release, old(backend.View()))
        ensures Pristine(config, client, w, release, backend.View())
      {
        assert w.extentId in ExtentIds(client);
        NotAttached(config, client, w, release, old(backend.View()));
        PristineKept(config, client, w, release, old(backend.View()), mid);
        RollbackKeepsPristine(config, client, v, w, release, mid, backend.View(), r.Err?, fault);
      }
      o := if r.Err? then Fail(r.error) else Pass;
    }

    // ---- The stages of prepare ----

    /** Some call of this attempt left all extents off. */
    static ghost predicate WasOff(client: Client, from: nat, log: seq<Step>) {
      exists m :: from <= m < |log| && AllDisabled(ExtentIds(client), log[m].after)
    }

    static lemma WasOffLater(client: Client, from: nat, since: nat, log: seq<Step>, later: seq<Step>)
      requires since <= from && log <= later && WasOff(client, from, log)
      ensures WasOff(client, since, later)
    {
      hide AllDisabled;
      var m :| from <= m < |log| && AllDisabled(ExtentIds(client), log[m].after);
      assert later[m] == log[m];
    }

    /** Everything is switched off, seen to be off, and nobody is logged in. */
    method Quiesce(client: Client) returns (o: Outcome)
      requires Tracks(client)
      modifies backend
      ensures Tracks(client) && Advanced(client, Disables)
      ensures o.Pass? ==> AllDisabled(ExtentIds(client), backend.View()) && AllPresent(client, backend.View())
      ensures o.Pass? ==> WasOff(client, |old(backend.trace)|, backend.trace)
      ensures OnlyCloses(|old(backend.trace)|, backend.trace)
      ensures o.Pass? ==> |backend.trace| > |old(backend.trace)| && SeenClear(GuardOf(client), backend.trace[|backend.trace| - 1])
      ensures o.Pass? ==> backend.trace[|backend.trace| - 1].after == backend.View()
      ensures o.Fail? ==> o.error in {NotReady, SessionActive, BackendError}
      ensures o == Fail(SessionActive) ==> SeenActive(GuardOf(client), |old(backend.trace)|, backend.trace)
      ensures forall release :: old(Undisturbed(client, release)) ==>
                Smooth(client, release) && SameIdentity(client, old(backend.View()), backend.View()) &&
                (AllPresent(client, old(backend.View())) && Clear(client, old(backend.View())) ==> o.Pass?)
    {
      hide Inv, ClientStep, WellFormed, EnvOk, PathsFree, Undisturbed, Rely, NoMatch, Grows, AllDisabled, SameIdentity,
           OnlyCloses, Trail, Clear;
      ghost var s0, log0 := backend.View(), backend.trace;
      o := DisableAll(client);
      ghost var s1, log1 := backend.View(), backend.trace;
      TrailPrefix(config, client, backend.faults, Disables, log0, log1);
      if o.Fail? { return; }
      DisabledOff(client, s1);
      o := VerifyAllEnabled(client, false);
      ghost var s2, log2 := backend.View(), backend.trace;
      QuietFacts(client, s0, s1, s2);
      ClosesOn(client, |log0|, log1, log2);
      TrailJoin(config, client, backend.faults, Disables, Reads, Disables, log0, log1, log2);
      if o.Fail? { return; }
      o := RequireNoSession(client);
      QuietFacts(client, s0, s2, backend.View());
      ClosesOn(client, |log0|, log2, backend.trace);
      TrailPrefix(config, client, backend.faults, Disables, log0, log2);
      if o == Fail(SessionActive) { SeenActiveLater(GuardOf(client), |log2|, |log0|, backend.trace, backend.trace); }
      TrailJoin(config, client, backend.faults, Disables, Reads, Disables, log0, log2, backend.trace);
      assert backend.trace[|backend.trace| - 1].after == backend.View();
    }

    /** Reads after a stretch that only closes. */
    lemma ClosesOn(client: Client, from: nat, log: seq<Step>, later: seq<Step>)
      requires OnlyCloses(from, log) && exists faults :: Trail(config, client, faults, Reads, log, later)
      ensures OnlyCloses(from, later) && log <= later
    {
      var faults :| Trail(config, client, faults, Reads, log, later);
      ReadsClose(config, client, faults, log, later);
      OnlyClosesJoin(from, log, later);
    }

    static lemma DisabledOff(client: Client, s: State)
      requires AllDisabled(ExtentIds(client), s) && AllPresent(client, s)
      ensures forall v :: v in client.volumes ==> v.extentId in s.extents && s.extents[v.extentId].enabled == false
    {
    }

    /** A read after the extents were switched off changes nothing the reset knows. */
    static lemma QuietFacts(client: Client, s: State, t: State, u: State)
      requires Grows(s, t) && Rely(client, t, u)
      ensures Grows(s, u)
      ensures SameIdentity(client, s, t) ==> SameIdentity(client, s, u)
      ensures AllDisabled(ExtentIds(client), t) ==> AllDisabled(ExtentIds(client), u)
      ensures AllPresent(client, t) ==> AllPresent(client, u)
      ensures forall release :: PathsFree(client, release, s, t) && PathsFree(client, release, t, u) ==>
                PathsFree(client, release, s, u)
    {
    }

    /** Clones, extent paths, contents: afterwards everything but the switch is in place. */
    method Rebuild(client: Client, record: ReleaseRecord, originals: seq<Extent>) returns (r: Result<seq<string>>)
      requires Tracks(client) && Usable(config, record) && |originals| == |client.volumes|
      requires AllDisabled(ExtentIds(client), backend.View())
      modifies backend
      ensures Tracks(client) && Advanced(client, Creates(record.name))
      ensures AllReady(config, client, record.name, old(backend.View())) ==> Advanced(client, Disables)
      ensures r.Ok? ==> Desired(client, record.name, r.value) && AllPresent(client, backend.View())
      ensures r.Ok? ==> PathsReadBack(client, record.name)
      ensures r.Ok? ==> Restored(config, client, record.name, backend.View())
      ensures r.Err? ==> r.error in {NotReady, BackendError}
      ensures old(Undisturbed(client, record.name)) ==>
                Still(client, record.name) &&
                SameIdentity(client, old(backend.View()), backend.View()) &&
                ((Preparable(config, client, record.name, old(backend.View())) &&
                  IdentityIs(client, originals, old(backend.View()))) ==> r.Ok?)
    {
      hide Inv, ClientStep, EnvOk, PathsFree, Undisturbed, Rely, NoMatch, Grows, AllDisabled, SameIdentity, CloneDataset,
           OwnExtentsSame, CloneReady, Pristine, Preparable, IdentityIs, AllClonable, PathsDiffer, ReadBack, WellFormed,
           Usable, Restored, AllReady, Desired, PathsReadBack;
      ghost var s0 := backend.View();
      if Preparable(config, client, record.name, s0) { PreparablePaths(client, record.name, s0); }
      r := EnsureClones(client, record);
      ghost var s1 := backend.View();
      OwnFacts(client, s0, s1);
      if r.Err? { return; }
      var desired := r.value;
      if IdentityIs(client, originals, s0) { IdentityIsKept(client, originals, s0, s1); }
      if Preparable(config, client, record.name, s0) { PreparableReadBack(client, record.name, s0, desired); }
      DesiredLength(client, record.name, desired);
      var pointed := PointExtents(client, desired, originals);
      ghost var s2 := backend.View();
      GrowsTransitive(s0, s1, s2);
      SameIdentityTransitive(client, s0, s1, s2);
      if pointed.Fail? { return Err(pointed.error); }
      AllReadyKept(client, record.name, s1, s2);
      var rolled := RollbackAll(client, record.name, desired);
      ghost var s3 := backend.View();
      OwnFacts(client, s2, s3);
      GrowsTransitive(s0, s2, s3);
      SameIdentityTransitive(client, s0, s2, s3);
      if rolled.Fail? { return Err(rolled.error); }
      RestoredNow(client, record.name, desired, s2, s3);
      DesiredReadBack(client, record.name, desired);
    }

    static lemma DesiredReadBack(client: Client, release: string, desired: seq<string>)
      requires Desired(client, release, desired) && ReadBack(desired)
      ensures PathsReadBack(client, release)
    {
    }

    static lemma DesiredLength(client: Client, release: string, desired: seq<string>)
      requires Desired(client, release, desired)
      ensures |desired| == |client.volumes|
    {
    }

    lemma PreparablePaths(client: Client, release: string, s: State)
      requires WellFormed(config) && client in config.clients && Preparable(config, client, release, s)
      ensures PathsDiffer(client, release) && AllClonable(config, client, release, 0, s)
    {
      hide CloneDataset, MasterDataset, Clonable;
      forall i, j | 0 <= i < j < |client.volumes|
        ensures CloneDataset(client, client.volumes[i], release) != CloneDataset(client, client.volumes[j], release)
      {
        ClonePathsDiffer(client, client.volumes[i], client.volumes[j], release);
      }
    }

    lemma PreparableReadBack(client: Client, release: string, s: State, desired: seq<string>)
      requires Preparable(config, client, release, s) && Desired(client, release, desired)
      ensures ReadBack(desired)
    {
    }

    static lemma OwnFacts(client: Client, s: State, t: State)
      requires Grows(s, t) && OwnExtentsSame(client, s, t)
      ensures SameIdentity(client, s, t)
      ensures AllDisabled(ExtentIds(client), s) ==> AllDisabled(ExtentIds(client), t)
    {
    }

    static lemma SameIdentityTransitive(client: Client, s: State, t: State, u: State)
      ensures SameIdentity(client, s, t) && SameIdentity(client, t, u) ==> SameIdentity(client, s, u)
    {
    }

    static lemma IdentityIsKept(client: Client, originals: seq<Extent>, s: State, t: State)
      requires IdentityIs(client, originals, s) && SameIdentity(client, s, t)
      ensures IdentityIs(client, originals, t)
    {
    }

    lemma AllReadyKept(client: Client, release: string, s: State, t: State)
      requires AllReady(config, client, release, s) && Grows(s, t)
      ensures AllReady(config, client, release, t)
    {
    }

    lemma RestoredNow(client: Client, release: string, desired: seq<string>, s: State, t: State)
      requires Desired(client, release, desired) && PointedAt(client, desired, s)
      requires OwnExtentsSame(client, s, t) && Grows(s, t)
      requires AllReady(config, client, release, t)
      requires forall v :: v in client.volumes ==> Pristine(config, client, v, release, t)
      ensures Restored(config, client, release, t) && AllPresent(client, t)
    {
    }

    /** The LUN table is checked, the extents are switched on, and each is looked at once more. */
    method SwitchOn(client: Client, ghost release: string, desired: seq<string>, originals: seq<Extent>)
      returns (o: Outcome)
      requires Tracks(client) && Desired(client, release, desired) && |originals| == |client.volumes|
      requires Restored(config, client, release, backend.View()) && AllPresent(client, backend.View())
      modifies backend
      ensures Tracks(client) && Advanced(client, Updates(release))
      ensures o.Pass? ==> AllFinal(client, desired, originals, backend.View())
      ensures o.Fail? ==> o.error in {NotReady, BackendError}
      ensures old(Undisturbed(client, release)) ==>
                Still(client, release) && SameIdentity(client, old(backend.View()), backend.View()) &&
                (LunsMatch(client, old(backend.View())) && IdentityIs(client, originals, old(backend.View())) ==> o.Pass?)
    {
      hide Inv, ClientStep, EnvOk, PathsFree, Undisturbed, Rely, NoMatch, Grows, SameIdentity, CloneDataset,
           Restored, IdentityIs, WellFormed, AllFinal, LunsMatch, Trail;
      ghost var s0, log0 := backend.View(), backend.trace;
      o := VerifyTargetLuns(client);
      ghost var s1, log1 := backend.View(), backend.trace;
      TrailWiden(config, client, backend.faults, Reads, log0, log1, release);
      RestoredKept(config, client, release, s0, s1);
      RelyOwn(client, s0, s1);
      if o.Fail? { return; }
      o := EnableAll(client, release);
      ghost var s2, log2 := backend.View(), backend.trace;
      GrowsTransitive(s0, s1, s2);
      SameIdentityTransitive(client, s0, s1, s2);
      TrailJoin(config, client, backend.faults, Reads, Updates(release), Updates(release), log0, log1, log2);
      if o.Fail? { return; }
      if SameIdentity(client, s0, s2) && IdentityIs(client, originals, s0) {
        FinalAfterEnable(client, release, desired, originals, s0, s2);
      }
      FinalEach(client, desired, originals, s2);
      o := VerifyFinalExtents(client, desired, originals);
      GrowsTransitive(s0, s2, backend.View());
      RelyOwn(client, s2, backend.View());
      SameIdentityTransitive(client, s0, s2, backend.View());
      TrailJoin(config, client, backend.faults, Updates(release), Reads, Updates(release), log0, log2, backend.trace);
      FinalEach(client, desired, originals, backend.View());
    }

    /** The end of prepare: on, quiet, answered. */
    method Reopen(client: Client, ghost release: string, desired: seq<string>, originals: seq<Extent>)
      returns (r: Result<ClientResponse>)
      requires Tracks(client) && Desired(client, release, desired) && |originals| == |client.volumes|
      requires Restored(config, client, release, backend.View()) && AllPresent(client, backend.View())
      modifies backend
      ensures Tracks(client) && Advanced(client, Updates(release))
      ensures r.Ok? ==> AllFinal(client, desired, originals, backend.View()) && LunsMatch(client, backend.View())
      ensures r.Ok? ==> Answers(client, r.value, backend.View())
      ensures r.Ok? ==> QuietAfter(client, backend.trace)
      ensures r.Err? ==> r.error in {NotReady, SessionActive, BackendError}
      ensures r == Err(SessionActive) ==> SeenActive(GuardOf(client), |old(backend.trace)|, backend.trace)
      ensures (old(Undisturbed(client, release)) && Clear(client, old(backend.View())) &&
               LunsMatch(client, old(backend.View())) &&
               Identified(client, old(backend.View())) && IdentityIs(client, originals, old(backend.View()))) ==> r.Ok?
    {
      hide Inv, ClientStep, EnvOk, PathsFree, Undisturbed, Rely, NoMatch, Grows, SameIdentity, CloneDataset,
           Restored, IdentityIs, WellFormed, AllFinal, Identified, LunsMatch, Answers, FailClosed, Trail;
      ghost var s0, log0 := backend.View(), backend.trace;
      var on := SwitchOn(client, release, desired, originals);
      ghost var s1, log1 := backend.View(), backend.trace;
      if on.Fail? { return Err(on.error); }
      var found := MatchingSessions(client);
      ghost var s2, log2 := backend.View(), backend.trace;
      GrowsTransitive(s0, s1, s2);
      RelyOwn(client, s1, s2);
      SameIdentityTransitive(client, s0, s1, s2);
      TrailJoin(config, client, backend.faults, Updates(release), Reads, Updates(release), log0, log1, log2);
      if found.Err? { return Err(found.error); }
      if found.value {
        BestEffortDisable(client);
        GrowsTransitive(s0, s2, backend.View());
        TrailJoin(config, client, backend.faults, Updates(release), Disables, Updates(release), log0, log2, backend.trace);
        TrailPrefix(config, client, backend.faults, Updates(release), log0, log1);
        TrailPrefix(config, client, backend.faults, Disables, log2, backend.trace);
        assert backend.trace[|log1|] == log2[|log1|];
        return Err(SessionActive);
      }
      FinalKept(client, desired, originals, s1, s2);
      if SameIdentity(client, s0, s2) { EndFacts(client, s0, s2); }
      r := PublicClient(client);
      GrowsTransitive(s0, s2, backend.View());
      TrailJoin(config, client, backend.faults, Updates(release), Reads, Updates(release), log0, log2, backend.trace);
      TrailPrefix(config, client, backend.faults, Reads, log2, backend.trace);
      if r.Ok? { FinalKept(client, desired, originals, s2, backend.View()); }
    }

    static ghost predicate AllFinal(client: Client, desired: seq<string>, originals: seq<Extent>, s: State)
      requires |desired| == |originals| == |client.volumes|
    {
      forall j :: 0 <= j < |client.volumes| ==> FinalOk(s, client.volumes[j].extentId, desired[j], originals[j])
    }

    /** After the extents were on, and before the closing reads, nobody was logged in. */
    static ghost predicate QuietAfter(client: Client, log: seq<Step>) {
      var n := |client.volumes|;
      |log| >= n + 2 &&
      var step := log[|log| - n - 2];
      step.op == ListSessions &&
      NoMatch(step.after.sessions, client.initiatorIqn, client.sourceIp, client.targetIqn)
    }

    static lemma FinalEach(client: Client, desired: seq<string>, originals: seq<Extent>, s: State)
      requires |desired| == |originals| == |client.volumes|
      ensures AllFinal(client, desired, originals, s) <==>
                forall j :: 0 <= j < |client.volumes| ==> FinalOk(s, client.volumes[j].extentId, desired[j], originals[j])
    {
    }

    static lemma FinalKept(client: Client, desired: seq<string>, originals: seq<Extent>, s: State, t: State)
      requires |desired| == |originals| == |client.volumes|
      requires AllFinal(client, desired, originals, s) && Rely(client, s, t)
      ensures AllFinal(client, desired, originals, t)
    {
    }

    lemma FinalAfterEnable(
      client: Client, release: string, desired: seq<string>, originals: seq<Extent>, s: State, t: State)
      requires Desired(client, release, desired) && |originals| == |client.volumes|
      requires Restored(config, client, release, t) && SameIdentity(client, s, t)
      requires forall j :: 0 <= j < |client.volumes| ==> Enabled(client.volumes[j].extentId, t)
      requires IdentityIs(client, originals, s)
      ensures AllFinal(client, desired, originals, t)
    {
    }

    static lemma EndFacts(client: Client, s: State, t: State)
      requires Grows(s, t) && SameIdentity(client, s, t)
      ensures LunsMatch(client, s) ==> LunsMatch(client, t)
      ensures Identified(client, s) ==> Identified(client, t)
    {
    }

    /** The release a reset works towards. */
    ghost function Goal(): string
      reads store
    {
      if store.active.Some? then store.active.value else ""
    }

    /** The part of prepare after its mutation point. */
    method Mutate(client: Client, originals: seq<Extent>) returns (r: Result<ClientResponse>)
      requires Tracks(client) && IdentityIs(client, originals, backend.View())
      modifies backend
      ensures Tracks(client) && Advanced(client, Creates(Goal()))
      ensures r.Ok? ==> ActiveUsable(config, store.View())
      ensures r.Ok? ==> Prepared(client, store.active.value, originals, r.value, backend.View())
      ensures r.Ok? ==> QuietAfter(client, backend.trace) && PathsReadBack(client, store.active.value)
      ensures r.Ok? ==> WasOff(client, |old(backend.trace)|, backend.trace)
      ensures Quieted(GuardOf(client), |old(backend.trace)|, backend.trace)
      ensures r.Err? ==> r.error in {NotReady, SessionActive, BackendError}
      ensures r == Err(SessionActive) ==> SeenActive(GuardOf(client), |old(backend.trace)|, backend.trace)
      ensures store.active.Some? && AllReady(config, client, store.active.value, old(backend.View())) ==>
                Advanced(client, Updates(Goal()))
      ensures (ActiveUsable(config, store.View()) && old(Undisturbed(client, store.active.value)) &&
               Clear(client, old(backend.View())) &&
               Preparable(config, client, store.active.value, old(backend.View()))) ==> r.Ok?
    {
      hide Inv, ClientStep, EnvOk, PathsFree, Undisturbed, Rely, NoMatch, Grows, SameIdentity, CloneDataset, AllDisabled,
           Restored, IdentityIs, WellFormed, AllFinal, Identified, LunsMatch, Answers, FailClosed, AllReady, Desired,
           Usable, Preparable, Prepared, QuietAfter, Record, PathsReadBack, Trail, WasOff, Clear, Happens, Allowed, DbInv,
           Quieted, SeenClear, SeenActive, OnlyCloses, AllPresent;
      ghost var s0, log0, faults := backend.View(), backend.trace, backend.faults;
      if store.active.Some? && Preparable(config, client, store.active.value, s0) {
        PreparablePresent(client, store.active.value, s0);
      }
      IdentityIsLength(client, originals, s0);
      var quiesced := Quiesce(client);
      ghost var s1, log1 := backend.View(), backend.trace;
      TrailWiden(config, client, faults, Disables, log0, log1, Goal());
      ClosedIsQuieted(GuardOf(client), |log0|, log1);
      if quiesced.Fail? { return Err(quiesced.error); }
      if store.active.Some? {
        PreparableKept(client, store.active.value, s0, s1);
        if SameIdentity(client, s0, s1) { IdentityIsKept(client, originals, s0, s1); }
        if AllReady(config, client, store.active.value, s0) { AllReadyKept(client, store.active.value, s0, s1); }
      }
      r := Restore(client, originals);
      GrowsTransitive(s0, s1, backend.View());
      ghost var ready := store.active.Some? && AllReady(config, client, store.active.value, s0);
      AfterQuiescing(client, log0, log1, backend.trace, ready, r == Err(SessionActive));
    }

    /** Whatever follows once everything is off keeps the two halves one stretch of the log. */
    lemma AfterQuiescing(
      client: Client, log0: seq<Step>, log1: seq<Step>, log: seq<Step>, ready: bool, active: bool)
      requires Trail(config, client, backend.faults, Disables, log0, log1)
      requires Trail(config, client, backend.faults, Creates(Goal()), log1, log)
      requires ready ==> Trail(config, client, backend.faults, Updates(Goal()), log1, log)
      requires |log0| < |log1| && OnlyCloses(|log0|, log1) && WasOff(client, |log0|, log1)
      requires SeenClear(GuardOf(client), log1[|log1| - 1]) && AllDisabled(ExtentIds(client), log1[|log1| - 1].after)
      requires active ==> SeenActive(GuardOf(client), |log1|, log)
      ensures Trail(config, client, backend.faults, Creates(Goal()), log0, log)
      ensures ready ==> Trail(config, client, backend.faults, Updates(Goal()), log0, log)
      ensures WasOff(client, |log0|, log) && Quieted(GuardOf(client), |log0|, log)
      ensures active ==> SeenActive(GuardOf(client), |log0|, log)
    {
      hide Trail, SeenActive, Quieted, OnlyCloses, WasOff, SeenClear, AllDisabled;
      TrailJoin(config, client, backend.faults, Disables, Creates(Goal()), Creates(Goal()), log0, log1, log);
      if ready {
        TrailJoin(config, client, backend.faults, Disables, Updates(Goal()), Updates(Goal()), log0, log1, log);
      }
      TrailPrefix(config, client, backend.faults, Creates(Goal()), log1, log);
      WasOffLater(client, |log0|, |log0|, log1, log);
      QuietedBy(GuardOf(client), |log0|, log1, log);
      if active { SeenActiveLater(GuardOf(client), |log1|, |log0|, log, log); }
    }

    /** What follows once everything is off: the active release is looked up, put in place and switched on. */
    method Restore(client: Client, originals: seq<Extent>) returns (r: Result<ClientResponse>)
      requires Tracks(client) && |originals| == |client.volumes|
      requires AllDisabled(ExtentIds(client), backend.View())
      modifies backend
      ensures Tracks(client) && Advanced(client, Creates(Goal()))
      ensures r.Ok? ==> ActiveUsable(config, store.View())
      ensures r.Ok? ==> Prepared(client, store.active.value, originals, r.value, backend.View())
      ensures r.Ok? ==> QuietAfter(client, backend.trace) && PathsReadBack(client, store.active.value)
      ensures r.Err? ==> r.error in {NotReady, SessionActive, BackendError}
      ensures r == Err(SessionActive) ==> SeenActive(GuardOf(client), |old(backend.trace)|, backend.trace)
      ensures store.active.Some? && AllReady(config, client, store.active.value, old(backend.View())) ==>
                Advanced(client, Updates(Goal()))
      ensures (ActiveUsable(config, store.View()) && old(Undisturbed(client, store.active.value)) &&
               Clear(client, old(backend.View())) && IdentityIs(client, originals, old(backend.View())) &&
               Preparable(config, client, store.active.value, old(backend.View()))) ==> r.Ok?
    {
      hide Inv, ClientStep, EnvOk, PathsFree, Undisturbed, Rely, Clear, Grows, SameIdentity, CloneDataset, AllDisabled,
           Restored, IdentityIs, WellFormed, AllFinal, Identified, LunsMatch, Answers, FailClosed, AllReady, Desired,
           Usable, Preparable, Prepared, QuietAfter, Record, PathsReadBack, Trail, Happens, Allowed, DbInv, SeenActive;
      ghost var s0, log0, faults := backend.View(), backend.trace, backend.faults;
      GrowsReflexive(s0);
      TrailNil(config, client, faults, Reads, log0);
      TrailWiden(config, client, faults, Reads, log0, log0, Goal());
      var active := ActiveRelease();
      if active.Err? { return Err(active.error); }
      var record := active.value;
      var desired := Rebuild(client, record, originals);
      ghost var s1, log1 := backend.View(), backend.trace;
      if AllReady(config, client, record.name, s0) {
        TrailWiden(config, client, faults, Disables, log0, log1, record.name);
      }
      if desired.Err? { return Err(desired.error); }
      if SameIdentity(client, s0, s1) {
        if IdentityIs(client, originals, s0) { IdentityIsKept(client, originals, s0, s1); }
        PreparableEnd(client, record.name, s0, s1);
      }
      r := Reopen(client, record.name, desired.value, originals);
      TrailJoin(config, client, faults, Creates(record.name), Updates(record.name), Creates(record.name), log0, log1,
                backend.trace);
      if AllReady(config, client, record.name, s0) {
        TrailJoin(config, client, faults, Updates(record.name), Updates(record.name), Updates(record.name), log0, log1,
                  backend.trace);
      }
      GrowsTransitive(s0, s1, backend.View());
      TrailPrefix(config, client, faults, Creates(record.name), log0, log1);
      if r == Err(SessionActive) { SeenActiveLater(GuardOf(client), |log1|, |log0|, backend.trace, backend.trace); }
      if r.Ok? { PreparedNow(client, record.name, desired.value, originals, r.value, s1, backend.View()); }
    }

    static lemma IdentityIsLength(client: Client, originals: seq<Extent>, s: State)
      requires IdentityIs(client, originals, s)
      ensures |originals| == |client.volumes| && AllPresent(client, s)
    {
    }

    /** What a ready answer certifies. */
    ghost predicate Prepared(client: Client, release: string, originals: seq<Extent>, r: ClientResponse, s: State) {
      && |originals| == |client.volumes|
      && Ready(config, client, release, s)
      && Answers(client, r, s)
      && (forall j :: 0 <= j < |client.volumes| ==>
            && client.volumes[j].extentId in s.extents
            && NormalizeDiskId(s.extents[client.volumes[j].extentId].naa) == NormalizeDiskId(originals[j].naa)
            && s.extents[client.volumes[j].extentId].serial == originals[j].serial)
    }

    lemma PreparedNow(
      client: Client, release: string, desired: seq<string>, originals: seq<Extent>, r: ClientResponse, s: State, t: State)
      requires Desired(client, release, desired) && |originals| == |client.volumes|
      requires AllFinal(client, desired, originals, t) && LunsMatch(client, t) && Answers(client, r, t)
      requires Restored(config, client, release, s) && Grows(s, t)
      ensures Prepared(client, release, originals, r, t)
    {
    }

    lemma PreparablePresent(client: Client, release: string, s: State)
      requires Preparable(config, client, release, s)
      ensures AllPresent(client, s)
    {
    }

    lemma PreparableKept(client: Client, release: string, s: State, t: State)
      ensures (Preparable(config, client, release, s) && Grows(s, t) && SameIdentity(client, s, t) &&
               PathsFree(client, release, s, t)) ==> Preparable(config, client, release, t)
    {
    }

    lemma PreparableEnd(client: Client, release: string, s: State, t: State)
      requires Grows(s, t) && SameIdentity(client, s, t)
      ensures Preparable(config, client, release, s) ==> LunsMatch(client, t) && Identified(client, t)
    {
    }

    /** An error that is not the service's own reaches the caller as NOT_READY. */
    static function Reported(error: Error): Error {
      if error.BackendError? || error.StoreError? then NotReady else error
    }

    /** `prepare`: one reset of one client, with the client's lock held. */
    method Prepare(client: Client) returns (r: Result<ClientResponse>, ghost mutated: bool)
      requires Tracks(client)
      modifies this`busy, backend
      ensures busy == old(busy)
      ensures Tracks(client) && Advanced(client, Creates(Goal()))
      ensures old(client.name in busy) ==> r == Err(ClientBusy) && backend.trace == old(backend.trace)
      ensures r.Err? ==> r.error in {ClientBusy, SessionActive, NotReady}
      ensures r == Err(ClientBusy) ==> old(client.name in busy)
      ensures !mutated ==> r.Err? && Advanced(client, Reads)
      ensures mutated ==> Inspected(client, |old(backend.trace)|, backend.trace)
      ensures Quieted(GuardOf(client), |old(backend.trace)|, backend.trace)
      ensures r == Err(SessionActive) ==> SeenActive(GuardOf(client), |old(backend.trace)|, backend.trace)
      ensures var mid := backend.env(old(backend.calls), old(backend.View()));
              !old(client.name in busy) && old(backend.faults(backend.calls)).NoFault? && !Clear(client, mid) ==>
                r == Err(SessionActive) && !mutated && backend.View() == mid
      ensures !old(client.name in busy) && old(Idle()) ==>
                (mutated <==> Clear(client, old(backend.View())) && LunsMatch(client, old(backend.View())) &&
                              AllPresent(client, old(backend.View())))
      ensures !mutated && old(Idle()) ==> backend.View() == old(backend.View())
      ensures mutated && r.Err? ==> FailClosed(client, backend.trace, backend.View())
      ensures r.Ok? ==> ActiveUsable(config, store.View())
      ensures r.Ok? ==> Ready(config, client, store.active.value, backend.View())
      ensures r.Ok? ==> PathsReadBack(client, store.active.value)
      ensures r.Ok? ==> IdentityKept(client, old(backend.View()), backend.View())
      ensures r.Ok? ==> Answers(client, r.value, backend.View()) && QuietAfter(client, backend.trace)
      ensures r.Ok? ==> WasOff(client, |old(backend.trace)|, backend.trace)
      ensures store.active.Some? && AllReady(config, client, store.active.value, old(backend.View())) ==>
                Advanced(client, Updates(Goal()))
      ensures (client.name !in busy && ActiveUsable(config, store.View()) &&
               old(Undisturbed(client, store.active.value)) && Clear(client, old(backend.View())) &&
               Preparable(config, client, store.active.value, old(backend.View()))) ==> r.Ok?
    {
      hide Inv, ClientStep, EnvOk, PathsFree, Undisturbed, Rely, NoMatch, Grows, SameIdentity, CloneDataset, AllDisabled,
           IdentityIs, WellFormed, Identified, LunsMatch, Answers, AllReady, Ready, IdentityKept,
           Usable, Preparable, Prepared, QuietAfter, Record, FailClosed, PathsReadBack, Trail, WasOff, Clear, AllPresent,
           Quieted, SeenActive, OnlyCloses, Inspected, Linked, Faultless;
      mutated := false;
      ghost var s0, log0, faults := backend.View(), backend.trace, backend.faults;
      GrowsReflexive(s0);
      TrailNil(config, client, faults, Reads, log0);
      TrailWiden(config, client, faults, Reads, log0, log0, Goal());
      ReadsClose(config, client, faults, log0, log0);
      ClosedIsQuieted(GuardOf(client), |log0|, log0);
      if client.name in busy { return Err(ClientBusy), false; }
      busy := busy + {client.name};
      var originals, failure := Inspect(client);
      ghost var s1, log1 := backend.View(), backend.trace;
      TrailWiden(config, client, faults, Reads, log0, log1, Goal());
      ReadsClose(config, client, faults, log0, log1);
      ClosedIsQuieted(GuardOf(client), |log0|, log1);
      IdleInspection(client, log0, s0);
      TrailPrefix(config, client, faults, Reads, log0, log1);
      if failure.Fail? {
        r := Err(Reported(failure.error));
      } else {
        mutated := true;
        if store.active.Some? {
          PreparableKept(client, store.active.value, s0, s1);
          if AllReady(config, client, store.active.value, s0) { AllReadyKept(client, store.active.value, s0, s1); }
        }
        var outcome := Mutate(client, originals);
        ghost var s2, log2 := backend.View(), backend.trace;
        ghost var ready := store.active.Some? && AllReady(config, client, store.active.value, s0);
        GrowsTransitive(s0, s1, s2);
        AfterInspection(client, log0, log1, log2, ready, outcome == Err(SessionActive));
        if outcome.Ok? {
          WasOffLater(client, |log1|, |log0|, log2, log2);
          PreparedMeans(client, store.active.value, originals, outcome.value, s0, s2);
          r := outcome;
        } else {
          BestEffortDisable(client);
          GrowsTransitive(s0, s2, backend.View());
          AfterDisabling(client, log0, log2, backend.trace, ready, outcome == Err(SessionActive));
          r := Err(Reported(outcome.error));
        }
      }
      busy := busy - {client.name};
    }

    /** Inspection in surroundings that do nothing leaves the storage as it was. */
    lemma IdleInspection(client: Client, before: seq<Step>, s: State)
      requires backend.Consistent() && Trail(config, client, backend.faults, Reads, before, backend.trace)
      requires s == StateAfter(backend.start, before, |before|)
      ensures (forall n: nat, t :: backend.env(n, t) == t) ==> backend.View() == s
    {
      hide Linked, Trail;
      if forall n: nat, t :: backend.env(n, t) == t {
        ReadsLeave(config, client, backend.faults, backend.env, backend.start, before, backend.trace);
      }
    }

    /** The log of an inspection, followed by that of a mutation. */
    lemma AfterInspection(
      client: Client, log0: seq<Step>, log1: seq<Step>, log: seq<Step>, ready: bool, active: bool)
      requires Trail(config, client, backend.faults, Reads, log0, log1)
      requires Trail(config, client, backend.faults, Creates(Goal()), log1, log)
      requires ready ==> Trail(config, client, backend.faults, Updates(Goal()), log1, log)
      requires Inspected(client, |log0|, log1)
      requires Quieted(GuardOf(client), |log1|, log) && (active ==> SeenActive(GuardOf(client), |log1|, log))
      ensures Trail(config, client, backend.faults, Creates(Goal()), log0, log)
      ensures ready ==> Trail(config, client, backend.faults, Updates(Goal()), log0, log)
      ensures Inspected(client, |log0|, log) && Quieted(GuardOf(client), |log0|, log)
      ensures active ==> SeenActive(GuardOf(client), |log0|, log)
    {
      hide Trail, SeenActive, Inspected, Quieted;
      TrailJoin(config, client, backend.faults, Reads, Creates(Goal()), Creates(Goal()), log0, log1, log);
      if ready { TrailJoin(config, client, backend.faults, Reads, Updates(Goal()), Updates(Goal()), log0, log1, log); }
      TrailPrefix(config, client, backend.faults, Reads, log0, log1);
      TrailPrefix(config, client, backend.faults, Creates(Goal()), log1, log);
      ReadsClose(config, client, backend.faults, log0, log1);
      InspectedLater(client, |log0|, log1, log);
      assert log[..|log1|] == log1;
      QuietedSince(GuardOf(client), |log1|, |log0|, log);
      if active { SeenActiveLater(GuardOf(client), |log1|, |log0|, log, log); }
    }

    lemma AfterDisabling(
      client: Client, log0: seq<Step>, log1: seq<Step>, log: seq<Step>, ready: bool, active: bool)
      requires Trail(config, client, backend.faults, Creates(Goal()), log0, log1)
      requires ready ==> Trail(config, client, backend.faults, Updates(Goal()), log0, log1)
      requires Trail(config, client, backend.faults, Disables, log1, log)
      requires Inspected(client, |log0|, log1) && Quieted(GuardOf(client), |log0|, log1)
      requires OnlyCloses(|log1|, log) && (active ==> SeenActive(GuardOf(client), |log0|, log1))
      ensures Trail(config, client, backend.faults, Creates(Goal()), log0, log)
      ensures ready ==> Trail(config, client, backend.faults, Updates(Goal()), log0, log)
      ensures Inspected(client, |log0|, log) && Quieted(GuardOf(client), |log0|, log)
      ensures active ==> SeenActive(GuardOf(client), |log0|, log)
    {
      hide Trail, SeenActive, Inspected, Quieted, OnlyCloses;
      TrailJoin(config, client, backend.faults, Creates(Goal()), Disables, Creates(Goal()), log0, log1, log);
      if ready { TrailJoin(config, client, backend.faults, Updates(Goal()), Disables, Updates(Goal()), log0, log1, log); }
      TrailPrefix(config, client, backend.faults, Creates(Goal()), log0, log1);
      TrailPrefix(config, client, backend.faults, Disables, log1, log);
      InspectedLater(client, |log0|, log1, log);
      QuietedLater(GuardOf(client), |log0|, log1, log);
      if active { SeenActiveLater(GuardOf(client), |log0|, |log0|, log1, log); }
    }

    /**
     * The log since `from` begins with the checks: a list without a session of the client, the LUN table
     * as configured, and every extent.
     */
    static ghost predicate Inspected(client: Client, from: nat, log: seq<Step>) {
      var n := |client.volumes|;
      && |log| >= from + 2 + n
      && SeenClear(GuardOf(client), log[from])
      && log[from + 1].op == TargetLuns(client.targetIqn) && !log[from + 1].raised && LunsMatch(client, log[from + 1].after)
      && forall j :: 0 <= j < n ==> ReadOf(client.volumes[j], log[from + 2 + j])
    }

    static lemma InspectedBy(client: Client, log0: seq<Step>, log1: seq<Step>, log2: seq<Step>, log: seq<Step>)
      requires log0 <= log1 <= log2 <= log && |log1| == |log0| + 1 && |log2| == |log1| + 1
      requires SeenClear(GuardOf(client), log1[|log0|]) && log2[|log1|].op == TargetLuns(client.targetIqn)
      requires !log2[|log1|].raised && LunsMatch(client, log2[|log1|].after)
      requires |log| == |log2| + |client.volumes|
      requires forall j :: 0 <= j < |client.volumes| ==> ReadOf(client.volumes[j], log[|log2| + j])
      ensures Inspected(client, |log0|, log)
    {
      assert log[|log0|] == log1[|log0|] && log[|log1|] == log2[|log1|];
    }

    static lemma InspectedLater(client: Client, from: nat, log: seq<Step>, later: seq<Step>)
      requires Inspected(client, from, log) && log <= later
      ensures Inspected(client, from, later)
    {
      hide LunsMatch, SeenClear;
      var n := |client.volumes|;
      assert later[from] == log[from] && later[from + 1] == log[from + 1];
      forall j | 0 <= j < n ensures ReadOf(client.volumes[j], later[from + 2 + j]) {
        assert ReadOf(client.volumes[j], log[from + 2 + j]);
      }
    }

    /** The checks of prepare before its mutation point. */
    method Inspect(client: Client) returns (originals: seq<Extent>, o: Outcome)
      requires Tracks(client)
      modifies backend
      ensures Tracks(client) && Advanced(client, Reads) && Rely(client, old(backend.View()), backend.View())
      ensures o.Pass? ==> Originals(client, originals, old(backend.View())) && IdentityIs(client, originals, backend.View())
      ensures o.Fail? ==> o.error in {NotReady, SessionActive, BackendError}
      ensures o.Pass? ==> Inspected(client, |old(backend.trace)|, backend.trace)
      ensures o == Fail(SessionActive) ==> SeenActive(GuardOf(client), |old(backend.trace)|, backend.trace)
      ensures var mid := backend.env(old(backend.calls), old(backend.View()));
              old(backend.faults(backend.calls)).NoFault? && !Clear(client, mid) ==>
                o == Fail(SessionActive) && backend.View() == mid
      ensures old(Idle()) ==>
                (o.Pass? <==> Clear(client, old(backend.View())) && LunsMatch(client, old(backend.View())) &&
                              AllPresent(client, old(backend.View())))
      ensures forall release :: old(Undisturbed(client, release)) ==>
                Smooth(client, release) && SameIdentity(client, old(backend.View()), backend.View()) &&
                (Preparable(config, client, release, old(backend.View())) && Clear(client, old(backend.View())) ==> o.Pass?)
    {
      hide Inv, ClientStep, EnvOk, PathsFree, Undisturbed, Rely, Clear, Grows, SameIdentity, CloneDataset,
           WellFormed, LunsMatch, Preparable, AllPresent, SeenClear, SeenActive, ReadOf, Trail, Inspected, Allowed, Happens,
           StableId, DbInv, NoMatch;
      ghost var s0, log0 := backend.View(), backend.trace;
      originals := [];
      ReadStart(client, s0);
      TrailNil(config, client, backend.faults, Reads, log0);
      o := RequireNoSession(client);
      ghost var s1, log1 := backend.View(), backend.trace;
      ReadOn(client, s0, s0, s1, log0, log0, log1);
      PreparableNeeds(client, s0);
      if o.Fail? { return; }
      o := VerifyTargetLuns(client);
      ghost var s2, log2 := backend.View(), backend.trace;
      ReadOn(client, s0, s1, s2, log0, log1, log2);
      if o.Fail? { return; }
      var extents := GetExtents(client);
      ReadOn(client, s0, s2, backend.View(), log0, log2, backend.trace);
      if extents.Err? { return [], Fail(extents.error); }
      originals := extents.value;
      AllRead(client, originals, backend.View());
      InspectedBy(client, log0, log1, log2, backend.trace);
      OriginalsRead(client, originals, s0, backend.View());
    }

    /** Two stretches of reading are one, and leave what a reset looks at. */
    lemma ReadOn(client: Client, s: State, t: State, u: State, log: seq<Step>, mid: seq<Step>, fin: seq<Step>)
      requires Rely(client, s, t) && Rely(client, t, u)
      requires Trail(config, client, backend.faults, Reads, log, mid) && Trail(config, client, backend.faults, Reads, mid, fin)
      ensures Rely(client, s, u) && Grows(s, u) && log <= mid <= fin
      ensures Trail(config, client, backend.faults, Reads, log, fin)
      ensures LunsMatch(client, u) <==> LunsMatch(client, s)
      ensures AllPresent(client, u) <==> AllPresent(client, s)
      ensures forall release :: PathsFree(client, release, s, t) && PathsFree(client, release, t, u) ==>
                PathsFree(client, release, s, u)
      ensures SameIdentity(client, s, u)
    {
      RelyTransitive(client, s, t, u);
      RelyOwn(client, s, u);
      ReadsSee(client, s, u);
      PathsFreeTransitive(client, s, t, u);
      TrailJoin(config, client, backend.faults, Reads, Reads, Reads, log, mid, fin);
    }

    static lemma ReadsSee(client: Client, s: State, t: State)
      requires Rely(client, s, t)
      ensures LunsMatch(client, t) <==> LunsMatch(client, s)
      ensures AllPresent(client, t) <==> AllPresent(client, s)
    {
    }

    lemma PreparableNeeds(client: Client, s: State)
      ensures forall release :: Preparable(config, client, release, s) ==> LunsMatch(client, s) && AllPresent(client, s)
    {
    }

    static ghost predicate Originals(client: Client, originals: seq<Extent>, s: State) {
      |originals| == |client.volumes| &&
      forall j :: 0 <= j < |client.volumes| ==>
        client.volumes[j].extentId in s.extents && originals[j] == s.extents[client.volumes[j].extentId]
    }

    static lemma AllRead(client: Client, originals: seq<Extent>, s: State)
      requires Originals(client, originals, s)
      ensures AllPresent(client, s)
    {
    }

    static lemma OriginalsRead(client: Client, originals: seq<Extent>, s: State, t: State)
      requires Rely(client, s, t) && Originals(client, originals, t)
      ensures Originals(client, originals, s) && IdentityIs(client, originals, t)
    {
    }

    lemma PreparedMeans(client: Client, release: string, originals: seq<Extent>, r: ClientResponse, s: State, t: State)
      requires Prepared(client, release, originals, r, t) && Originals(client, originals, s)
      ensures Ready(config, client, release, t) && Answers(client, r, t) && IdentityKept(client, s, t)
    {
    }

    // ---- The dry run ----

    /** `validate`: ready means that no error was found. */
    method Validate(client: Client) returns (errors: seq<Error>)
      requires Tracks(client)
      modifies backend
      ensures Tracks(client) && Advanced(client, Reads) && Rely(client, old(backend.View()), backend.View())
      ensures errors == [] ==> ActiveUsable(config, store.View()) && QuietCheck(client, |old(backend.trace)|, backend.trace)
      ensures old(Undisturbed(client, Goal())) ==> Smooth(client, Goal())
      ensures old(Undisturbed(client, Goal())) && errors == [] ==>
                Dry(client, Goal(), backend.View()) && Clear(client, backend.View())
      ensures (old(Undisturbed(client, Goal())) && Clear(client, old(backend.View())) &&
               ActiveUsable(config, store.View()) && Dry(client, Goal(), old(backend.View()))) ==> errors == []
    {
      hide Inv, Rely, ClientStep, WellFormed, EnvOk, PathsFree, Undisturbed, NoMatch, Grows, Usable, Record, Dry, LunsMatch,
           Trail, QuietCheck, Happens, LunTable, Allowed, SameIdentity, VolumeDry, StableId, DbInv, AllPresent, CloneDataset;
      ghost var s0, log0 := backend.View(), backend.trace;
      errors := [];
      TrailNil(config, client, backend.faults, Reads, log0);
      ReadStart(client, s0);
      var active := ActiveRelease();
      if active.Err? { return [active.error]; }
      var record := active.value;
      assert old(Undisturbed(client, Goal())) ==> Undisturbed(client, record.name);
      var ping := Ping(client);
      ghost var s1, log1 := backend.View(), backend.trace;
      if ping.Fail? { return [BackendError]; }
      var luns := VerifyTargetLuns(client);
      ghost var s2, log2 := backend.View(), backend.trace;
      ReadOn(client, s0, s1, s2, log0, log1, log2);
      if luns.Fail? {
        if Dry(client, Goal(), s0) {
          DryLuns(client, Goal(), s0);
          LunsMatchKept(client, s0, s1);
        }
        return [luns.error];
      }
      var found := MatchingSessions(client);
      ghost var s3, log3 := backend.View(), backend.trace;
      ReadOn(client, s0, s2, s3, log0, log2, log3);
      if found.Err? { return [found.error]; }
      if found.value { errors := [SessionActive]; }
      var rest := CheckVolumes(client, record);
      errors := errors + rest;
      ReadOn(client, s0, s3, backend.View(), log0, log3, backend.trace);
      QuietChecked(client, log0, log1, log2, log3, backend.trace, found.value);
      if Dry(client, Goal(), s0) { DryKept(client, Goal(), s0, s3); }
      DryFrom(client, Goal(), backend.View());
    }

    /** What the storage must look like for `validate` to find nothing. */
    ghost predicate Dry(client: Client, release: string, s: State) {
      && LunsMatch(client, s)
      && (forall v :: v in client.volumes ==> VolumeDry(client, v, release, s))
    }

    ghost predicate VolumeDry(client: Client, v: Volume, release: string, s: State) {
      && v.extentId in s.extents && StableId(v, s.extents[v.extentId]) != ""
      && SnapshotPath(config, v.name, release) in s.snapshots
      && CloneDry(client, v, release, s)
    }

    /** An existing clone is reusable. */
    ghost predicate CloneDry(client: Client, v: Volume, release: string, s: State) {
      CloneDataset(client, v, release) in s.datasets ==> CloneReady(config, client, v, release, s)
    }

    lemma DryMeansChecked(client: Client, release: string, s: State)
      requires Dry(client, release, s)
      ensures Checked(config, client, release, s)
    {
    }

    /** The third call listed the sessions and none was the client's. */
    static ghost predicate QuietCheck(client: Client, from: nat, log: seq<Step>) {
      && |log| > from + 2 && log[from + 2].op == ListSessions
      && NoMatch(log[from + 2].after.sessions, client.initiatorIqn, client.sourceIp, client.targetIqn)
    }

    static lemma QuietChecked(
      client: Client, log0: seq<Step>, log1: seq<Step>, log2: seq<Step>, log3: seq<Step>, log: seq<Step>, found: bool)
      requires log0 <= log1 <= log2 <= log3 <= log
      requires |log1| == |log0| + 1 && |log2| == |log1| + 1 && |log3| == |log2| + 1
      requires log3[|log2|].op == ListSessions
      requires !found ==>
                NoMatch(log3[|log2|].after.sessions, client.initiatorIqn, client.sourceIp, client.targetIqn)
      ensures !found ==> QuietCheck(client, |log0|, log)
    {
    }

    static lemma ReadStart(client: Client, s: State)
      ensures Grows(s, s) && Rely(client, s, s) && forall release :: PathsFree(client, release, s, s)
    {
    }

    static lemma ReadJoin(client: Client, release: string, s: State, t: State, u: State)
      requires Rely(client, s, t) && Rely(client, t, u)
      ensures Rely(client, s, u) && Grows(s, u)
      ensures PathsFree(client, release, s, t) && PathsFree(client, release, t, u) ==> PathsFree(client, release, s, u)
    {
      RelyTransitive(client, s, t, u);
      PathsFreeTransitive(client, s, t, u);
    }

    lemma DryKept(client: Client, release: string, s: State, t: State)
      requires Rely(client, s, t) && Dry(client, release, s)
      ensures PathsFree(client, release, s, t) ==> Dry(client, release, t)
    {
    }

    lemma DryLuns(client: Client, release: string, s: State)
      requires Dry(client, release, s)
      ensures LunsMatch(client, s)
    {
    }

    lemma DryFrom(client: Client, release: string, s: State)
      ensures LunsMatch(client, s) && (forall v :: v in client.volumes ==> VolumeDry(client, v, release, s)) ==>
                Dry(client, release, s)
    {
    }

    method CheckVolumes(client: Client, record: ReleaseRecord) returns (errors: seq<Error>)
      requires Tracks(client) && Usable(config, record)
      modifies backend
      ensures Tracks(client) && Advanced(client, Reads) && Rely(client, old(backend.View()), backend.View())
      ensures old(Undisturbed(client, record.name)) ==> Smooth(client, record.name)
      ensures old(Undisturbed(client, record.name)) && errors == [] ==>
                forall v :: v in client.volumes ==> VolumeDry(client, v, record.name, backend.View())
      ensures old(Undisturbed(client, record.name)) && Dry(client, record.name, old(backend.View())) ==> errors == []
    {
      hide Inv, Rely, ClientStep, EnvOk, PathsFree, Undisturbed, NoMatch, Grows, Usable, Record, LunsMatch, Trail,
           WellFormed, VolumeDry, Dry;
      ghost var s0, log0 := backend.View(), backend.trace;
      ReadStart(client, s0);
      TrailNil(config, client, backend.faults, Reads, log0);
      errors := [];
      for i := 0 to |client.volumes|
        invariant Tracks(client) && Advanced(client, Reads) && Rely(client, s0, backend.View())
        invariant old(Undisturbed(client, record.name)) ==> Smooth(client, record.name)
        invariant old(Undisturbed(client, record.name)) && errors == [] ==>
          forall j :: 0 <= j < i ==> VolumeDry(client, client.volumes[j], record.name, backend.View())
        invariant old(Undisturbed(client, record.name)) && Dry(client, record.name, s0) ==> errors == []
      {
        ghost var view, log := backend.View(), backend.trace;
        var v := client.volumes[i];
        HasMaster(client, v, record);
        if Dry(client, record.name, s0) { DryVolume(client, v, record.name, s0, view); }
        var found, failure := CheckVolume(client, v, record.name, record.snapshots[v.name]);
        ReadJoin(client, record.name, s0, view, backend.View());
        TrailJoin(config, client, backend.faults, Reads, Reads, Reads, log0, log, backend.trace);
        errors := errors + found;
        if failure.Fail? { return errors + [failure.error]; }
        DryBefore(client, record.name, i, view, backend.View());
      }
    }

    lemma DryVolume(client: Client, v: Volume, release: string, s: State, t: State)
      requires v in client.volumes && Rely(client, s, t) && Dry(client, release, s)
      ensures PathsFree(client, release, s, t) ==> VolumeDry(client, v, release, t)
    {
    }

    lemma DryBefore(client: Client, release: string, i: nat, s: State, t: State)
      requires i < |client.volumes| && Rely(client, s, t)
      ensures PathsFree(client, release, s, t) ==> forall j :: 0 <= j < i && VolumeDry(client, client.volumes[j], release, s) ==>
                VolumeDry(client, client.volumes[j], release, t)
    {
    }

    /** The findings about one volume; a failed read or a foreign clone ends the whole check. */
    method CheckVolume(client: Client, v: Volume, release: string, source: SnapshotId)
      returns (found: seq<Error>, o: Outcome)
      requires Tracks(client) && v in client.volumes && source == SnapshotPath(config, v.name, release)
      modifies backend
      ensures Tracks(client) && Advanced(client, Reads) && Rely(client, old(backend.View()), backend.View())
      ensures old(Undisturbed(client, release)) ==> Smooth(client, release)
      ensures old(Undisturbed(client, release)) && found == [] && o.Pass? ==> VolumeDry(client, v, release, backend.View())
      ensures old(Undisturbed(client, release)) && VolumeDry(client, v, release, old(backend.View())) ==>
                found == [] && o.Pass?
    {
      hide Inv, Rely, ClientStep, EnvOk, PathsFree, Undisturbed, NoMatch, Grows, LunsMatch, Trail, WellFormed, StableId,
           CloneDataset, SnapshotPath, CloneDry;
      ghost var s0, log0 := backend.View(), backend.trace;
      found := [];
      var exists' := ReadSnapshot(client, source);
      ghost var s1, log1 := backend.View(), backend.trace;
      DryStep(client, v, release, s0, s1);
      if exists'.Err? { return found, Fail(exists'.error); }
      if !exists'.value { found := found + [NotReady]; }
      label extent:
      var extent := backend.GetExtent(v.extentId);
      AfterRead@extent(client, Op.GetExtent(v.extentId), extent.Err?);
      ghost var s2, log2 := backend.View(), backend.trace;
      DryStep(client, v, release, s1, s2);
      ReadJoin(client, release, s0, s1, s2);
      TrailJoin(config, client, backend.faults, Reads, Reads, Reads, log0, log1, log2);
      if extent.Err? { return found, Fail(extent.error); }
      if StableId(v, extent.value) == "" { found := found + [NotReady]; }
      var clone;
      clone, o := CheckClone(client, v, release, source);
      DryStep(client, v, release, s2, backend.View());
      ReadJoin(client, release, s0, s2, backend.View());
      TrailJoin(config, client, backend.faults, Reads, Reads, Reads, log0, log2, backend.trace);
      PartsKept(client, v, source, s1, s2, backend.View());
      found := found + clone;
    }

    method CheckClone(client: Client, v: Volume, release: string, source: SnapshotId)
      returns (found: seq<Error>, o: Outcome)
      requires Tracks(client) && v in client.volumes && source == SnapshotPath(config, v.name, release)
      modifies backend
      ensures Tracks(client) && Advanced(client, Reads) && Rely(client, old(backend.View()), backend.View())
      ensures old(Undisturbed(client, release)) ==> Smooth(client, release)
      ensures found == [] && o.Pass? && old(Undisturbed(client, release)) ==> CloneDry(client, v, release, backend.View())
      ensures old(Undisturbed(client, release)) && CloneDry(client, v, release, old(backend.View())) ==>
                found == [] && o.Pass?
    {
      hide Inv, Rely, ClientStep, EnvOk, PathsFree, Undisturbed, NoMatch, Grows, LunsMatch, Trail, WellFormed,
           CloneDataset, SnapshotPath, Verified;
      ghost var s0, log0 := backend.View(), backend.trace;
      found := [];
      var d := CloneDataset(client, v, release);
      var existing := ReadDataset(client, d);
      ghost var s1, log1 := backend.View(), backend.trace;
      CloneDryKept(client, v, release, s0, s1);
      if existing.Err? { return found, Fail(existing.error); }
      if existing.value.None? { return found, Pass; }
      if !Verified(existing.value.value, client.name, v.name, release, source) { return found, Fail(NotReady); }
      var clean := ReadSnapshot(client, At(d, CLEAN));
      CloneDryKept(client, v, release, s1, backend.View());
      ReadJoin(client, release, s0, s1, backend.View());
      TrailJoin(config, client, backend.faults, Reads, Reads, Reads, log0, log1, backend.trace);
      if clean.Err? { return found, Fail(clean.error); }
      if !clean.value { found := found + [NotReady]; }
      VerifiedKept(config, client, v, release, s1, backend.View());
      o := Pass;
    }

    lemma CloneDryKept(client: Client, v: Volume, release: string, s: State, t: State)
      requires v in client.volumes && Rely(client, s, t)
      ensures Grows(s, t)
      ensures PathsFree(client, release, s, t) && CloneDry(client, v, release, s) ==> CloneDry(client, v, release, t)
    {
    }

    lemma DryStep(client: Client, v: Volume, release: string, s: State, t: State)
      requires v in client.volumes && Rely(client, s, t)
      ensures Grows(s, t)
      ensures PathsFree(client, release, s, t) && VolumeDry(client, v, release, s) ==> VolumeDry(client, v, release, t)
    {
    }

    static lemma PartsKept(client: Client, v: Volume, source: SnapshotId, s: State, t: State, u: State)
      requires v in client.volumes && Grows(s, t) && Rely(client, t, u)
      ensures source in s.snapshots ==> source in u.snapshots
      ensures v.extentId in t.extents ==> v.extentId in u.extents && u.extents[v.extentId] == t.extents[v.extentId]
    {
    }
  }
}
