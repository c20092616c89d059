/** management.py: what the management view reports about clients and releases. */
module Inspection {
  import opened Results
  import opened Topology
  import opened Storage
  import opened Protocol
  import opened ResetSteps
  import opened PublishSteps
  import opened Backends
  import opened Releases
  import opened Names
  import opened Coordinator
  import opened Sessions
  import opened Runs
  import Manager

  datatype UpdateStatus = Unprepared | Mixed | Updated | Outdated

  datatype ClientRow = ClientRow(
    name: string, connection: Connection, observed: set<string>, mapped: Option<string>, status: UpdateStatus)

  datatype PublisherRow = PublisherRow(connection: Connection, enabled: bool, valid: bool)

  datatype ReportRow = ReportRow(name: string, mappedClients: set<string>, unused: bool)

  datatype Dashboard = Dashboard(
    publisher: PublisherRow, clients: seq<ClientRow>, allUpdated: bool, releases: seq<ReportRow>,
    incomplete: Option<string>, canStage: bool)

  // ---- What the storage shows of a client ----

  function ReleaseOf(d: Dataset): string {
    if OfRelease in d.props then d.props[OfRelease] else ""
  }

  /** The release named by the dataset a volume's extent is on; "" when there is none. */
  function Shown(v: Volume, s: State): string {
    if v.extentId in s.extents && s.extents[v.extentId].disk != "" && s.extents[v.extentId].disk in s.datasets
    then ReleaseOf(s.datasets[s.extents[v.extentId].disk])
    else ""
  }

  function Observed(client: Client, s: State): set<string> {
    set v | v in client.volumes && Shown(v, s) != "" :: Shown(v, s)
  }

  /** The extent is on, and its disk is this volume's managed clone of a known release, with @clean. */
  ghost predicate Fine(client: Client, v: Volume, db: Db, s: State) {
    && v.extentId in s.extents
    && var e := s.extents[v.extentId];
    && e.enabled && e.disk != "" && e.disk in s.datasets
    && var d := s.datasets[e.disk];
    && Storage.Get(d.props, Managed) == Some("yes")
    && Storage.Get(d.props, OfClient) == Some(client.name)
    && Storage.Get(d.props, OfVolume) == Some(v.name)
    && ReleaseOf(d) in db.releases
    && d.origin == Recorded(db, ReleaseOf(d), v.name)
    && At(e.disk, CLEAN) in s.snapshots
  }

  function Recorded(db: Db, release: string, volume: string): Option<SnapshotId> {
    if (release, volume) in db.volumes then Some(db.volumes[(release, volume)]) else None
  }

  /** Every volume of the client is in order and shows `release`. */
  ghost predicate MappedTo(client: Client, release: string, db: Db, s: State) {
    && LunsMatch(client, s)
    && forall v :: v in client.volumes ==> Fine(client, v, db, s) && Shown(v, s) == release
  }

  ghost function StatusOf(client: Client, db: Db, s: State): UpdateStatus {
    if Observed(client, s) == {} then Unprepared
    else if db.active.Some? && MappedTo(client, db.active.value, db, s) then Updated
    else if exists r :: r in db.releases && MappedTo(client, r, db, s) then Outdated
    else Mixed
  }

  // ---- The reports agree with the protocol ----

  /** The client's clones are where a reset puts them. */
  ghost predicate Homed(config: ServiceConfig, client: Client, s: State) {
    forall d, v, r :: d in s.datasets && v in client.volumes && ClonedFor(client, v, r, s.datasets[d]) ==>
      d == CloneDataset(client, v, r)
  }

  ghost predicate ClonedFor(client: Client, v: Volume, release: string, d: Dataset) {
    && Storage.Get(d.props, Managed) == Some("yes")
    && Storage.Get(d.props, OfClient) == Some(client.name)
    && Storage.Get(d.props, OfVolume) == Some(v.name)
    && Storage.Get(d.props, OfRelease) == Some(release)
  }

  /** No step of any reset puts a clone of this client anywhere else. */
  lemma ResetStaysHomed(config: ServiceConfig, client: Client, other: Client, s: State, t: State)
    requires WellFormed(config) && client in config.clients && other in config.clients
    requires ClientStep(config, other, s, t) && Homed(config, client, s)
    ensures Homed(config, client, t)
  {
    hide WellFormed, CloneDataset;
    forall d, v, r | d in t.datasets && v in client.volumes && ClonedFor(client, v, r, t.datasets[d])
      ensures d == CloneDataset(client, v, r)
    {
      if d in s.datasets {
        assert SameMeta(s.datasets[d], t.datasets[d]);
        assert ClonedFor(client, v, r, s.datasets[d]);
      } else {
        assert NewClone(other, s, t, d);
        var w, release :| w in other.volumes && MadeFor(other, w, release, d, t.datasets[d]);
        SameNameSameClient(config, client, other);
        VolumeByName(config, client, v, w);
      }
    }
  }

  lemma OthersStayHomed(config: ServiceConfig, client: Client, s: State, t: State)
    requires Homed(config, client, s) && Grows(s, t) && t.datasets.Keys == s.datasets.Keys
    ensures Homed(config, client, t)
  {
    hide CloneDataset;
    forall d, v, r | d in t.datasets && v in client.volumes && ClonedFor(client, v, r, t.datasets[d])
      ensures d == CloneDataset(client, v, r)
    {
      assert SameMeta(s.datasets[d], t.datasets[d]);
      assert ClonedFor(client, v, r, s.datasets[d]);
    }
  }

  /** So in every run, of all resets, the publisher and initiators, the clones are where resets put them. */
  lemma {:induction false} RunStaysHomed(
    config: ServiceConfig, releases: set<string>, states: seq<State>, actors: seq<Actor>, client: Client, k: nat)
    requires WellFormed(config) && client in config.clients && Run(config, releases, states, actors) && k < |states|
    requires Homed(config, client, states[0])
    ensures Homed(config, client, states[k])
  {
    hide WellFormed, Homed, ClientStep;
    if k > 0 {
      RunStaysHomed(config, releases, states, actors, client, k - 1);
      var s, t := states[k - 1], states[k];
      assert ActorStep(config, releases, actors[k - 1], s, t);
      match actors[k - 1]
      case World => OthersStayHomed(config, client, s, t);
      case Publishing => OthersStayHomed(config, client, s, t);
      case Resetting(other) => ResetStaysHomed(config, client, other, s, t);
    }
  }

  /**
   * A client that is as `prepare` leaves it when it answers ready for the active release is reported
   * updated; and no other is, as long as its clones are where resets put them.
   */
  lemma UpdatedIsReady(config: ServiceConfig, client: Client, db: Db, s: State)
    requires WellFormed(config) && client in config.clients
    requires "" !in db.releases && ResetCoordinator.ActiveUsable(config, db)
    ensures Ready(config, client, db.active.value, s) ==> StatusOf(client, db, s).Updated?
    ensures Homed(config, client, s) && StatusOf(client, db, s).Updated? ==> Ready(config, client, db.active.value, s)
  {
    hide CloneDataset, LunsMatch, WellFormed, Homed;
    var active := db.active.value;
    forall v | v in client.volumes
      ensures Recorded(db, active, v.name) == Some(SnapshotPath(config, v.name, active))
    {
      ActiveRow(config, client, v, db);
    }
    if Ready(config, client, active, s) {
      forall v | v in client.volumes
        ensures Fine(client, v, db, s) && Shown(v, s) == active
      {
        ReadyIsFine(config, client, v, db, s);
      }
      SomeVolume(config, client);
      assert Shown(client.volumes[0], s) in Observed(client, s);
    }
    if Homed(config, client, s) && MappedTo(client, active, db, s) {
      forall v | v in client.volumes
        ensures s.extents[v.extentId].disk == CloneDataset(client, v, active)
        ensures CloneReady(config, client, v, active, s)
      {
        assert Fine(client, v, db, s) && Shown(v, s) == active;
        HomedAt(config, client, v, active, s, s.extents[v.extentId].disk);
      }
    }
  }

  lemma HomedAt(config: ServiceConfig, client: Client, v: Volume, release: string, s: State, d: string)
    requires Homed(config, client, s) && v in client.volumes && d in s.datasets
    requires ClonedFor(client, v, release, s.datasets[d])
    ensures d == CloneDataset(client, v, release)
  {
  }

  lemma SomeVolume(config: ServiceConfig, client: Client)
    requires WellFormed(config) && client in config.clients
    ensures client.volumes != []
  {
  }

  lemma ReadyIsFine(config: ServiceConfig, client: Client, v: Volume, db: Db, s: State)
    requires WellFormed(config) && v in client.volumes
    requires "" !in db.releases && ResetCoordinator.ActiveUsable(config, db)
    requires Recorded(db, db.active.value, v.name) == Some(SnapshotPath(config, v.name, db.active.value))
    requires Ready(config, client, db.active.value, s)
    ensures Fine(client, v, db, s) && Shown(v, s) == db.active.value
  {
  }

  lemma ActiveRow(config: ServiceConfig, client: Client, v: Volume, db: Db)
    requires WellFormed(config) && client in config.clients && v in client.volumes
    requires ResetCoordinator.ActiveUsable(config, db)
    ensures Recorded(db, db.active.value, v.name) == Some(SnapshotPath(config, v.name, db.active.value))
  {
  }

  /** A client that shows one staged release in order shows it and nothing else. */
  lemma MappedObserved(client: Client, release: string, db: Db, s: State)
    requires MappedTo(client, release, db, s) && release != "" && client.volumes != []
    ensures Observed(client, s) == {release}
  {
    hide LunsMatch, Fine;
    assert Shown(client.volumes[0], s) in Observed(client, s);
  }

  /** Activating another release turns every updated client outdated. */
  lemma ActivationOutdates(config: ServiceConfig, client: Client, db: Db, next: Db, s: State, release: string, request: string)
    requires client.volumes != [] && "" !in db.releases
    requires StatusOf(client, db, s).Updated?
    requires Activated(db, release, request) == Some(next) && next.active != db.active
    ensures StatusOf(client, next, s).Outdated?
  {
  }

  // ---- The inspector ----

  ghost predicate SameStorage(s: State, t: State) {
    s.(sessions := t.sessions) == t
  }

  class ManagementInspector {
    const config: ServiceConfig
    const backend: Backend
    const store: ReleaseStore

    constructor (config: ServiceConfig, backend: Backend, store: ReleaseStore)
      ensures this.config == config && this.backend == backend && this.store == store
    {
      this.config, this.backend, this.store := config, backend, store;
    }

    /** Sessions come and go, but nobody changes the storage. */
    ghost predicate Fixed() {
      forall n: nat, s :: SameStorage(s, backend.env(n, s))
    }

    /** From now on no call fails. */
    ghost predicate Faultless()
      reads backend
    {
      forall n: nat :: n >= backend.calls ==> backend.faults(n).NoFault?
    }

    ghost predicate ExtentsExist(s: State) {
      && (forall c, v :: c in config.clients && v in c.volumes ==> v.extentId in s.extents)
      && (forall p :: p in config.publisher.volumes ==> p.extentId in s.extents)
    }

    /** What a stretch of reads leaves: the storage as the others have it, and a log of reads. */
    ghost predicate Between(s: State, a: seq<Step>, t: State, b: seq<Step>, faults: nat -> Fault) {
      && PublisherTrail(config, {}, faults, Looking, a, b)
      && (Fixed() ==> SameStorage(s, t))
      && (PublisherEnvOk(config, backend.env) && Inv(config, s) ==> Inv(config, t) && PublisherRely(config, s, t))
    }

    twostate predicate Kept()
      reads backend
    {
      && backend.faults == old(backend.faults) && backend.calls >= old(backend.calls)
      && (old(backend.Consistent()) ==> backend.Consistent())
      && (old(Faultless()) ==> Faultless())
      && (old(Quiet()) ==> Quiet())
      && Between(old(backend.View()), old(backend.trace), backend.View(), backend.trace, backend.faults)
    }

    lemma BetweenJoin(s: State, a: seq<Step>, t: State, b: seq<Step>, u: State, c: seq<Step>, faults: nat -> Fault)
      requires Between(s, a, t, b, faults) && Between(t, b, u, c, faults)
      ensures Between(s, a, u, c, faults)
    {
      PublisherTrailJoin(config, {}, faults, Looking, Looking, Looking, a, b, c);
      if PublisherEnvOk(config, backend.env) && Inv(config, s) {
        PublisherRelyTransitive(config, s, t, u);
      }
      hide PublisherTrail, PublisherRely, Inv, PublisherEnvOk;
    }

    lemma BetweenNil(s: State, a: seq<Step>, faults: nat -> Fault)
      ensures Between(s, a, s, a, faults)
    {
    }

    twostate lemma AfterRead(new op: Op, new raised: bool)
      requires IsRead(op)
      requires backend.faults == old(backend.faults) && backend.calls == old(backend.calls) + 1
      requires old(backend.Consistent())
      requires backend.Logged(op, old(backend.calls), old(backend.View()), old(backend.trace), raised)
      requires backend.Consistent()
      ensures Kept()
      ensures backend.View() == backend.env(old(backend.calls), old(backend.View()))
      ensures raised && old(Faultless()) ==> op.GetExtent? && op.id !in backend.View().extents
    {
      hide Inv, PublisherStep, PublisherRely, Happens;
      LookStep(config, op, backend.env(old(backend.calls), old(backend.View())), backend.View(),
               raised, backend.faults(old(backend.calls)));
      if old(Quiet()) { QuietSessions(old(backend.calls), old(backend.View())); }
    }

    lemma FineSame(client: Client, v: Volume, db: Db, s: State, t: State)
      requires SameStorage(s, t)
      ensures Fine(client, v, db, s) <==> Fine(client, v, db, t)
      ensures Shown(v, s) == Shown(v, t)
    {
    }

    /** One volume of a client: the release it shows, and whether nothing is wrong with it. */
    method InspectVolume(client: Client, v: Volume, db: Db) returns (r: Result<(string, bool)>)
      requires backend.Consistent()
      modifies backend
      ensures Kept()
      ensures r.Err? ==> r.error == BackendError
      ensures old(Faultless()) && Fixed() && v.extentId in old(backend.View()).extents ==> r.Ok?
      ensures r.Ok? && Fixed() ==> r.value.0 == Shown(v, backend.View())
      ensures r.Ok? && Fixed() ==> (r.value.1 <==> Fine(client, v, db, backend.View()))
    {
      hide Inv, PublisherStep, PublisherRely, PublisherTrail, Happens, PublisherEnvOk;
      ghost var s0, log0, faults := backend.View(), backend.trace, backend.faults;
      label first:
      var extent := backend.GetExtent(v.extentId);
      AfterRead@first(GetExtent(v.extentId), extent.Err?);
      ghost var s1, log1 := backend.View(), backend.trace;
      if extent.Err? { return Err(BackendError); }
      var disk := extent.value.disk;
      if disk == "" { return Ok(("", false)); }
      label second:
      var dataset := backend.GetDataset(disk);
      AfterRead@second(GetDataset(disk), dataset.Err?);
      ghost var s2, log2 := backend.View(), backend.trace;
      BetweenJoin(s0, log0, s1, log1, s2, log2, faults);
      if dataset.Err? { return Err(BackendError); }
      if dataset.value.None? { return Ok(("", false)); }
      var d := dataset.value.value;
      label third:
      var clean := backend.SnapshotExists(At(disk, CLEAN));
      AfterRead@third(SnapshotExists(At(disk, CLEAN)), clean.Err?);
      BetweenJoin(s0, log0, s2, log2, backend.View(), backend.trace, faults);
      if clean.Err? { return Err(BackendError); }
      var fine := Storage.Get(d.props, Managed) == Some("yes")
        && Storage.Get(d.props, OfClient) == Some(client.name)
        && Storage.Get(d.props, OfVolume) == Some(v.name)
        && ReleaseOf(d) in db.releases
        && d.origin == Recorded(db, ReleaseOf(d), v.name)
        && clean.value
        && extent.value.enabled;
      r := Ok((ReleaseOf(d), fine));
    }

    /** The LUN table is as configured and no volume shows an error. */
    ghost predicate NoError(client: Client, db: Db, s: State) {
      LunsMatch(client, s) && forall v :: v in client.volumes ==> Fine(client, v, db, s)
    }

    /** _client. */
    method InspectClient(client: Client, sessions: seq<Session>, db: Db) returns (r: Result<ClientRow>)
      requires WellFormed(config) && client in config.clients && backend.Consistent() && "" !in db.releases
      modifies backend
      ensures Kept()
      ensures r.Err? ==> r.error == BackendError
      ensures old(Faultless()) && Fixed() && ExtentsExist(old(backend.View())) ==> r.Ok?
      ensures r.Ok? ==> r.value.name == client.name && r.value.connection == Attribution(ClientRole(client), sessions)
      ensures r.Ok? && r.value.status.Updated? ==> db.active.Some? && r.value.observed == {db.active.value}
      ensures r.Ok? && Fixed() ==> r.value.observed == Observed(client, backend.View())
      ensures r.Ok? && Fixed() ==> r.value.status == StatusOf(client, db, backend.View())
      ensures r.Ok? && r.value.mapped.Some? ==> r.value.observed == {r.value.mapped.value}
      ensures r.Ok? && Fixed() ==>
                (r.value.mapped.Some? <==> |r.value.observed| == 1 && NoError(client, db, backend.View()))
    {
      hide Inv, PublisherStep, PublisherRely, PublisherTrail, Happens, PublisherEnvOk, WellFormed, Fine, Matching,
           Shown, StatusOf, LunTable;
      ghost var s0, log0, faults := backend.View(), backend.trace, backend.faults;
      var matching := Attribution(ClientRole(client), sessions);
      label first:
      var luns := backend.TargetLuns(client.targetIqn);
      AfterRead@first(TargetLuns(client.targetIqn), luns.Err?);
      if luns.Err? { return Err(BackendError); }
      var fine := LunPairs(luns.value) == ConfiguredPairs(client);
      var observed: set<string> := {};
      var order := SortByLun(client.volumes);
      SortByLunKeeps(client.volumes);
      for i := 0 to |order|
        invariant backend.Consistent() && backend.faults == faults && backend.calls >= old(backend.calls)
        invariant old(Faultless()) ==> Faultless()
        invariant old(Quiet()) ==> Quiet()
        invariant Between(s0, log0, backend.View(), backend.trace, faults)
        invariant Fixed() ==> (fine <==> LunsMatch(client, backend.View()) &&
                                         forall v :: v in order[..i] ==> Fine(client, v, db, backend.View()))
        invariant Fixed() ==> observed == ObservedOf(order[..i], backend.View())
      {
        ghost var s, log := backend.View(), backend.trace;
        var shown := InspectVolume(client, order[i], db);
        BetweenJoin(s0, log0, s, log, backend.View(), backend.trace, faults);
        if shown.Err? { return Err(BackendError); }
        if shown.value.0 != "" { observed := observed + {shown.value.0}; }
        fine := fine && shown.value.1;
        if Fixed() {
          ObservedMore(order, i, s, backend.View());
          FineMore(client, db, order, i, s, backend.View());
        }
      }
      assert order[..|order|] == order;
      var mapped := None;
      if fine && |observed| == 1 {
        var release :| release in observed;
        Alone(observed, release);
        mapped := Some(release);
      }
      var status := if observed == {} then Unprepared
        else if !fine || |observed| > 1 then Mixed
        else if db.active.Some? && mapped == db.active then Updated
        else Outdated;
      if status.Updated? { Alone(observed, db.active.value); }
      if Fixed() {
        ObservedAll(client, order, backend.View());
        SomeVolume(config, client);
        CountingDecides(client, db, backend.View(), observed, fine);
        if |observed| == 1 { Single(observed); }
      }
      r := Ok(ClientRow(client.name, matching, observed, mapped, status));
    }

    lemma Alone(observed: set<string>, release: string)
      requires release in observed && |observed| == 1
      ensures observed == {release}
    {
      assert |observed - {release}| == 0;
    }

    lemma Single(observed: set<string>)
      requires |observed| == 1
      ensures exists r :: observed == {r}
    {
      var r :| r in observed;
      Alone(observed, r);
    }

    function ObservedOf(volumes: seq<Volume>, s: State): set<string> {
      set v | v in volumes && Shown(v, s) != "" :: Shown(v, s)
    }

    lemma ObservedAll(client: Client, order: seq<Volume>, s: State)
      requires forall v :: v in order <==> v in client.volumes
      ensures ObservedOf(order, s) == Observed(client, s)
    {
    }

    lemma ObservedMore(order: seq<Volume>, i: nat, s: State, t: State)
      requires i < |order| && SameStorage(s, t)
      ensures ObservedOf(order[..i + 1], t) ==
                ObservedOf(order[..i], s) + (if Shown(order[i], t) != "" then {Shown(order[i], t)} else {})
    {
      hide Shown;
      assert order[..i + 1] == order[..i] + [order[i]];
      forall v | v in order[..i]
        ensures Shown(v, s) == Shown(v, t)
      {
        ShownSame(v, s, t);
      }
      var more := if Shown(order[i], t) != "" then {Shown(order[i], t)} else {};
      forall x | x in more
        ensures x in ObservedOf(order[..i + 1], t)
      {
        assert order[i] in order[..i + 1];
      }
      forall x | x in ObservedOf(order[..i], s)
        ensures x in ObservedOf(order[..i + 1], t)
      {
        var v :| v in order[..i] && Shown(v, s) == x && x != "";
        assert v in order[..i + 1];
      }
    }

    lemma ShownSame(v: Volume, s: State, t: State)
      requires SameStorage(s, t)
      ensures Shown(v, s) == Shown(v, t)
    {
    }

    lemma FineMore(client: Client, db: Db, order: seq<Volume>, i: nat, s: State, t: State)
      requires i < |order| && SameStorage(s, t)
      ensures (forall v :: v in order[..i + 1] ==> Fine(client, v, db, t)) <==>
                (forall v :: v in order[..i] ==> Fine(client, v, db, s)) && Fine(client, order[i], db, t)
      ensures LunsMatch(client, s) <==> LunsMatch(client, t)
    {
      hide Fine;
      assert order[..i + 1] == order[..i] + [order[i]];
      forall v | v in order
        ensures Fine(client, v, db, s) <==> Fine(client, v, db, t)
      {
        FineSame(client, v, db, s, t);
      }
    }

    /** The counting of the report decides what the storage shows. */
    lemma CountingDecides(client: Client, db: Db, s: State, observed: set<string>, fine: bool)
      requires client.volumes != [] && "" !in db.releases
      requires observed == Observed(client, s)
      requires fine <==> LunsMatch(client, s) && forall v :: v in client.volumes ==> Fine(client, v, db, s)
      ensures observed == {} ==> StatusOf(client, db, s).Unprepared?
      ensures observed != {} && (!fine || |observed| > 1) ==> StatusOf(client, db, s).Mixed?
      ensures forall r :: observed == {r} && fine ==>
                StatusOf(client, db, s) == if db.active == Some(r) then Updated else Outdated
    {
      hide LunsMatch;
      forall r | r in db.releases && MappedTo(client, r, db, s)
        ensures observed == {r} && fine
      {
        MappedObserved(client, r, db, s);
      }
      forall r | observed == {r} && fine
        ensures MappedTo(client, r, db, s) && r in db.releases
      {
        forall v | v in client.volumes
          ensures Shown(v, s) == r && r in db.releases
        {
          assert Fine(client, v, db, s);
          assert Shown(v, s) in db.releases;
          assert Shown(v, s) in Observed(client, s);
        }
        assert client.volumes[0] in client.volumes;
      }
      if db.active.Some? && MappedTo(client, db.active.value, db, s) {
        assert Fine(client, client.volumes[0], db, s);
        assert db.active.value in db.releases;
      }
    }

    /** One publisher volume: whether its extent is as configured, and whether it is on. */
    method InspectMaster(p: PublisherVolume) returns (r: Result<(bool, bool)>)
      requires backend.Consistent()
      modifies backend
      ensures Kept()
      ensures r.Err? ==> r.error == BackendError
      ensures old(Faultless()) && Fixed() && p.extentId in old(backend.View()).extents ==> r.Ok?
      ensures r.Ok? && Fixed() ==> (r.value.0 <==> WiredAt(p, backend.View())) && (r.value.1 <==> OnAt(p, backend.View()))
      ensures r.Ok? && Fixed() ==> p.extentId in backend.View().extents
    {
      hide Inv, PublisherStep, PublisherRely, PublisherTrail, Happens, PublisherEnvOk, NormalizeDiskId;
      label first:
      var extent := backend.GetExtent(p.extentId);
      AfterRead@first(GetExtent(p.extentId), extent.Err?);
      if extent.Err? { return Err(BackendError); }
      r := Ok((extent.value.disk == p.dataset && NormalizeDiskId(extent.value.naa) != "", extent.value.enabled));
    }

    /** _publisher, given whether discovery found the publisher's target as configured. */
    method InspectPublisher(sessions: seq<Session>, discovered: bool) returns (r: Result<PublisherRow>)
      requires backend.Consistent()
      modifies backend
      ensures Kept()
      ensures r.Err? ==> r.error == BackendError
      ensures old(Faultless()) && Fixed() && ExtentsExist(old(backend.View())) ==> r.Ok?
      ensures r.Ok? ==> r.value.connection == Attribution(PublisherRole(config), sessions)
      ensures r.Ok? && Fixed() ==> (r.value.valid <==> discovered && Manager.Wired(config, backend.View()))
      ensures r.Ok? && Fixed() ==> (r.value.enabled <==> AllOn(backend.View()))
    {
      hide Inv, PublisherStep, PublisherRely, PublisherTrail, Happens, PublisherEnvOk, Matching, WiredAt, OnAt, Between;
      ghost var s0, log0, faults := backend.View(), backend.trace, backend.faults;
      var connection := Attribution(PublisherRole(config), sessions);
      var luns := PublisherPairing();
      if luns.Err? { return Err(BackendError); }
      var valid := discovered && luns.value;
      var enabled := true;
      var volumes := config.publisher.volumes;
      for i := 0 to |volumes|
        invariant backend.Consistent() && backend.faults == faults && backend.calls >= old(backend.calls)
        invariant old(Faultless()) ==> Faultless()
        invariant old(Quiet()) ==> Quiet()
        invariant Between(s0, log0, backend.View(), backend.trace, faults)
        invariant Fixed() ==> (valid <==> discovered && PublisherLuns(config, backend.View()) && WiredTo(i, backend.View()))
        invariant Fixed() ==> (enabled <==> OnTo(i, backend.View()))
      {
        ghost var s, log := backend.View(), backend.trace;
        var row := InspectMaster(volumes[i]);
        BetweenJoin(s0, log0, s, log, backend.View(), backend.trace, faults);
        BetweenFixed(s0, log0, s, log, faults);
        BetweenFixed(s, log, backend.View(), backend.trace, faults);
        if Fixed() { MasterSame(i, s0, s, backend.View()); }
        if row.Err? { return Err(BackendError); }
        valid := valid && row.value.0;
        enabled := enabled && row.value.1;
      }
      BetweenFixed(s0, log0, backend.View(), backend.trace, faults);
      if Fixed() { MastersAre(backend.View()); }
      r := Ok(PublisherRow(connection, enabled, valid));
    }

    method PublisherPairing() returns (r: Result<bool>)
      requires backend.Consistent()
      modifies backend
      ensures Kept()
      ensures r.Err? ==> r.error == BackendError
      ensures old(Faultless()) ==> r.Ok?
      ensures r.Ok? ==> r.value == PublisherLuns(config, backend.View())
    {
      hide Inv, PublisherStep, PublisherRely, PublisherTrail, Happens, PublisherEnvOk;
      label first:
      var luns := backend.TargetLuns(config.publisher.targetIqn);
      AfterRead@first(TargetLuns(config.publisher.targetIqn), luns.Err?);
      if luns.Err? { return Err(BackendError); }
      r := Ok((set l | l in luns.value :: (l.extentId, l.lun)) == PublisherPairs(config));
    }

    lemma BetweenFixed(s: State, a: seq<Step>, t: State, b: seq<Step>, faults: nat -> Fault)
      requires Between(s, a, t, b, faults)
      ensures Fixed() ==> SameStorage(s, t)
    {
    }

    lemma MasterSame(i: nat, s: State, t: State, u: State)
      requires i < |config.publisher.volumes| && SameStorage(s, t) && SameStorage(t, u)
      ensures WiredTo(i, t) <==> WiredTo(i, u)
      ensures OnTo(i, t) <==> OnTo(i, u)
      ensures WiredTo(i + 1, u) <==> WiredTo(i, u) && WiredAt(config.publisher.volumes[i], u)
      ensures OnTo(i + 1, u) <==> OnTo(i, u) && OnAt(config.publisher.volumes[i], u)
      ensures PublisherLuns(config, t) <==> PublisherLuns(config, u)
      ensures ExtentsExist(s) ==> config.publisher.volumes[i].extentId in t.extents
    {
    }

    lemma MastersAre(s: State)
      ensures Manager.Wired(config, s) <==> PublisherLuns(config, s) && WiredTo(|config.publisher.volumes|, s)
      ensures AllOn(s) <==> OnTo(|config.publisher.volumes|, s)
    {
    }

    ghost predicate WiredTo(i: nat, s: State) {
      forall j :: 0 <= j < i && j < |config.publisher.volumes| ==> WiredAt(config.publisher.volumes[j], s)
    }

    ghost predicate OnTo(i: nat, s: State) {
      forall j :: 0 <= j < i && j < |config.publisher.volumes| ==> OnAt(config.publisher.volumes[j], s)
    }

    ghost predicate WiredAt(p: PublisherVolume, s: State) {
      p.extentId in s.extents && s.extents[p.extentId].disk == p.dataset && NormalizeDiskId(s.extents[p.extentId].naa) != ""
    }

    ghost predicate OnAt(p: PublisherVolume, s: State) {
      p.extentId in s.extents && s.extents[p.extentId].enabled
    }

    ghost predicate AllOn(s: State) {
      forall p :: p in config.publisher.volumes ==> OnAt(p, s)
    }

    /** _releases: a release is unused when every client is on the active one and this is another, staged one. */
    method ReportReleases(db: Db, clients: seq<ClientRow>, allUpdated: bool) returns (rows: seq<ReportRow>)
      requires DbInv(db)
      requires allUpdated ==> db.active.Some? && forall c :: c in clients ==> c.observed == {db.active.value}
      ensures (set row | row in rows :: row.name) == db.releases.Keys
      ensures forall row :: row in rows ==>
                row.mappedClients == set c | c in clients && row.name in c.observed :: c.name
      ensures forall row :: row in rows ==>
                (row.unused <==> allUpdated && db.active != Some(row.name) && StagedIn(db, row.name))
    {
      rows := [];
      var names := db.releases.Keys;
      while names != {}
        invariant names <= db.releases.Keys
        invariant (set row | row in rows :: row.name) == db.releases.Keys - names
        invariant forall row :: row in rows ==>
                    row.mappedClients == set c | c in clients && row.name in c.observed :: c.name
        invariant forall row :: row in rows ==>
                    (row.unused <==> allUpdated && db.active != Some(row.name) && StagedIn(db, row.name))
        decreases names
      {
        var name :| name in names;
        var mapped := set c | c in clients && name in c.observed :: c.name;
        var unused := allUpdated && db.active != Some(name) && db.releases[name].status != Incomplete && mapped == {};
        if allUpdated && db.active != Some(name) {
          assert forall c :: c in clients ==> name !in c.observed;
          assert mapped == {};
        }
        ghost var before := rows;
        rows := rows + [ReportRow(name, mapped, unused)];
        assert (set row | row in rows :: row.name) == (set row | row in before :: row.name) + {name};
        names := names - {name};
      }
    }

    ghost predicate StatusesAre(rows: seq<ClientRow>, db: Db, s: State) {
      |rows| == |config.clients| && forall i :: 0 <= i < |rows| ==> StatusIs(rows[i], config.clients[i], db, s)
    }

    ghost predicate StatusIs(row: ClientRow, client: Client, db: Db, s: State) {
      row.observed == Observed(client, s) && row.status == StatusOf(client, db, s)
    }

    ghost predicate AllUpdated(db: Db, s: State) {
      db.active.Some? && config.clients != [] && forall c :: c in config.clients ==> StatusOf(c, db, s).Updated?
    }

    /** What the rows say of each other and of the sessions, whatever happened meanwhile. */
    ghost predicate Reports(d: Dashboard, db: Db, restartRequired: bool, seen: seq<Session>) {
      && |d.clients| == |config.clients|
      && (forall i :: 0 <= i < |d.clients| ==>
            && d.clients[i].name == config.clients[i].name
            && d.clients[i].connection == Attribution(ClientRole(config.clients[i]), seen))
      && d.publisher.connection == Attribution(PublisherRole(config), seen)
      && (set row | row in d.releases :: row.name) == db.releases.Keys
      && (forall row :: row in d.releases ==>
            (row.unused <==> d.allUpdated && db.active != Some(row.name) && StagedIn(db, row.name)))
      && (forall n :: IncompleteIn(db, n) <==> d.incomplete == Some(n))
      && (d.canStage <==>
            && d.publisher.connection.Disconnected? && d.publisher.valid && !restartRequired
            && (d.incomplete.Some? || d.publisher.enabled))
    }

    /** What the rows say of the storage. */
    ghost predicate Faithful(d: Dashboard, db: Db, discovered: bool, s: State) {
      && StatusesAre(d.clients, db, s)
      && (d.allUpdated <==> AllUpdated(db, s))
      && (d.publisher.valid <==> discovered && Manager.Wired(config, s))
      && (d.publisher.enabled <==> AllOn(s))
    }

    /** A release reported unused is shown by no extent of any client. */
    lemma UnusedIsUnused(
      d: Dashboard, db: Db, restartRequired: bool, discovered: bool, seen: seq<Session>, s: State, row: ReportRow)
      requires Reports(d, db, restartRequired, seen) && Faithful(d, db, discovered, s)
      requires row in d.releases && row.unused
      ensures forall c, v :: c in config.clients && v in c.volumes ==> Shown(v, s) != row.name
    {
    }

    /** Nobody logs in to the publisher target and nothing fails. */
    ghost predicate Quiet()
      reads backend
    {
      && PublisherEnvOk(config, backend.env) && Inv(config, backend.View()) && Unvisited(config, backend.View())
      && forall n :: n >= backend.calls ==> QuietCall(config, backend.faults(n), backend.env, n)
    }

    ghost predicate NobodyIn(sessions: seq<Session>) {
      NoMatch(sessions, config.publisher.initiatorIqn, config.publisher.sourceIp, config.publisher.targetIqn)
    }

    lemma QuietSessions(n: nat, s: State)
      requires PublisherEnvOk(config, backend.env) && Inv(config, s)
      requires Unvisited(config, s) && QuietCall(config, backend.faults(n), backend.env, n)
      ensures Unvisited(config, backend.env(n, s))
    {
    }

    /**
     * `dashboard`. The rows speak of the storage they were read from when nobody changes it meanwhile;
     * `seen` are the sessions they are judged by.
     */
    method Report(restartRequired: bool, discovered: bool) returns (r: Result<Dashboard>, ghost seen: seq<Session>)
      requires WellFormed(config) && backend.Consistent() && DbInv(store.View()) && "" !in store.releases
      modifies backend
      ensures Kept()
      ensures r.Err? ==> r.error == BackendError
      ensures old(Faultless()) && Fixed() && ExtentsExist(old(backend.View())) ==> r.Ok?
      ensures r.Ok? ==> Reports(r.value, store.View(), restartRequired, seen)
      ensures r.Ok? && Fixed() ==> Faithful(r.value, store.View(), discovered, backend.View())
      ensures r.Ok? && old(Quiet()) ==> NobodyIn(seen)
    {
      hide Inv, PublisherStep, PublisherRely, PublisherTrail, Happens, PublisherEnvOk, Matching, WellFormed, DbInv,
           StatusesAre, AllUpdated, Manager.Wired, AllOn, NobodyIn, Reports, Faithful;
      ghost var s0, log0, faults := backend.View(), backend.trace, backend.faults;
      var sessions := ListSessions();
      ghost var s1, log1 := backend.View(), backend.trace;
      if sessions.Err? { return Err(BackendError), []; }
      seen := sessions.value;
      var publisher := InspectPublisher(sessions.value, discovered);
      ghost var s2, log2 := backend.View(), backend.trace;
      BetweenJoin(s0, log0, s1, log1, s2, log2, faults);
      if publisher.Err? { return Err(BackendError), seen; }
      var clients := InspectClients(sessions.value);
      BetweenJoin(s0, log0, s2, log2, backend.View(), backend.trace, faults);
      if clients.Err? { return Err(BackendError), seen; }
      if Fixed() { PublisherSame(s2, backend.View()); }
      var d := Assemble(publisher.value, clients.value, restartRequired, seen);
      if Fixed() { FaithfulNow(d, store.View(), discovered, backend.View()); }
      r := Ok(d);
    }

    method ListSessions() returns (r: Result<seq<Session>>)
      requires backend.Consistent()
      modifies backend
      ensures Kept()
      ensures r.Err? ==> r.error == BackendError
      ensures old(Faultless()) ==> r.Ok?
      ensures r.Ok? && old(Quiet()) ==> NobodyIn(r.value)
    {
      hide Inv, PublisherStep, PublisherRely, PublisherTrail, Happens, PublisherEnvOk, NoMatch;
      ghost var s0, log0, faults := backend.View(), backend.trace, backend.faults;
      label first:
      var ping := backend.Ping();
      AfterRead@first(Ping, ping.Err?);
      ghost var s1, log1 := backend.View(), backend.trace;
      if ping.Err? { return Err(BackendError); }
      label second:
      r := backend.ListSessions();
      AfterRead@second(Op.ListSessions, r.Err?);
      BetweenJoin(s0, log0, s1, log1, backend.View(), backend.trace, faults);
      if old(Quiet()) {
        QuietSessions(old(backend.calls), s0);
        QuietSessions(old(backend.calls) + 1, s1);
      }
    }

    /** The answer, from the rows. */
    method Assemble(publisher: PublisherRow, rows: seq<ClientRow>, restartRequired: bool, ghost seen: seq<Session>)
      returns (d: Dashboard)
      requires DbInv(store.View())
      requires |rows| == |config.clients| && forall i :: 0 <= i < |rows| ==>
                 && rows[i].name == config.clients[i].name
                 && rows[i].connection == Attribution(ClientRole(config.clients[i]), seen)
                 && (rows[i].status.Updated? ==> store.active.Some? && rows[i].observed == {store.active.value})
      requires publisher.connection == Attribution(PublisherRole(config), seen)
      ensures d.publisher == publisher && d.clients == rows
      ensures d.allUpdated <==> (store.active.Some? && rows != [] && forall c :: c in rows ==> c.status.Updated?)
      ensures Reports(d, store.View(), restartRequired, seen)
    {
      hide DbInv, Matching;
      var allUpdated := store.active.Some? && rows != [] && forall c :: c in rows ==> c.status.Updated?;
      var releases := ReportReleases(store.View(), rows, allUpdated);
      var incomplete := FirstIncomplete(store.View());
      var ready := publisher.connection.Disconnected? && publisher.valid && !restartRequired;
      var canStage := if incomplete.Some? then ready else ready && publisher.enabled;
      d := Dashboard(publisher, rows, allUpdated, releases, incomplete, canStage);
    }

    lemma FaithfulNow(d: Dashboard, db: Db, discovered: bool, s: State)
      requires StatusesAre(d.clients, db, s)
      requires d.allUpdated <==> (db.active.Some? && d.clients != [] && forall c :: c in d.clients ==> c.status.Updated?)
      requires d.publisher.valid <==> discovered && Manager.Wired(config, s)
      requires d.publisher.enabled <==> AllOn(s)
      ensures Faithful(d, db, discovered, s)
    {
    }

    lemma PublisherSame(s: State, t: State)
      requires SameStorage(s, t)
      ensures Manager.Wired(config, s) <==> Manager.Wired(config, t)
      ensures AllOn(s) <==> AllOn(t)
    {
    }

    method InspectClients(sessions: seq<Session>) returns (r: Result<seq<ClientRow>>)
      requires WellFormed(config) && backend.Consistent() && "" !in store.releases
      modifies backend
      ensures Kept()
      ensures r.Err? ==> r.error == BackendError
      ensures old(Faultless()) && Fixed() && ExtentsExist(old(backend.View())) ==> r.Ok?
      ensures r.Ok? ==> |r.value| == |config.clients| && forall i :: 0 <= i < |r.value| ==>
                && r.value[i].name == config.clients[i].name
                && r.value[i].connection == Attribution(ClientRole(config.clients[i]), sessions)
                && (r.value[i].status.Updated? ==> store.active.Some? && r.value[i].observed == {store.active.value})
      ensures r.Ok? && Fixed() ==> StatusesAre(r.value, store.View(), backend.View())
    {
      hide Inv, PublisherStep, PublisherRely, PublisherTrail, Happens, PublisherEnvOk, Matching, WellFormed, StatusOf, Observed;
      ghost var s0, log0, faults := backend.View(), backend.trace, backend.faults;
      BetweenNil(s0, log0, faults);
      var rows: seq<ClientRow> := [];
      for i := 0 to |config.clients|
        invariant backend.Consistent() && backend.faults == faults && backend.calls >= old(backend.calls)
        invariant old(Faultless()) ==> Faultless()
        invariant old(Quiet()) ==> Quiet()
        invariant Between(s0, log0, backend.View(), backend.trace, faults)
        invariant |rows| == i
        invariant forall j :: 0 <= j < i ==>
                    && rows[j].name == config.clients[j].name
                    && rows[j].connection == Attribution(ClientRole(config.clients[j]), sessions)
                    && (rows[j].status.Updated? ==> store.active.Some? && rows[j].observed == {store.active.value})
        invariant Fixed() ==> forall j :: 0 <= j < i ==>
                    StatusIs(rows[j], config.clients[j], store.View(), backend.View())
      {
        ghost var s, log := backend.View(), backend.trace;
        var row := InspectClient(config.clients[i], sessions, store.View());
        BetweenJoin(s0, log0, s, log, backend.View(), backend.trace, faults);
        if row.Err? { return Err(BackendError); }
        if Fixed() {
          forall j | 0 <= j < i
            ensures Observed(config.clients[j], s) == Observed(config.clients[j], backend.View())
            ensures StatusOf(config.clients[j], store.View(), s) == StatusOf(config.clients[j], store.View(), backend.View())
          {
            StatusSame(config.clients[j], store.View(), s, backend.View());
          }
        }
        rows := rows + [row.value];
      }
      r := Ok(rows);
    }

    lemma StatusSame(client: Client, db: Db, s: State, t: State)
      requires SameStorage(s, t)
      ensures Observed(client, s) == Observed(client, t) && StatusOf(client, db, s) == StatusOf(client, db, t)
    {
    }

    method FirstIncomplete(db: Db) returns (r: Option<string>)
      requires DbInv(db)
      ensures forall n :: IncompleteIn(db, n) <==> r == Some(n)
    {
      var pending := set n | n in db.releases && db.releases[n].status.Incomplete?;
      if pending == {} {
        assert forall n :: IncompleteIn(db, n) ==> n in pending;
        return None;
      }
      var n :| n in pending;
      assert IncompleteIn(db, n);
      return Some(n);
    }
  }
}
