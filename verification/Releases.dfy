/**
 * release_store.py: the releases, release_volumes, settings and operations tables. Every method is
 * one SQLite transaction: it either commits its whole effect or raises and changes nothing.
 */
module Releases {
  import opened Results
  import opened Topology

  datatype Status = Incomplete | Staged

  datatype ReleaseRow = ReleaseRow(status: Status, requestId: string)

  datatype OperationKind = Activation | OtherOperation

  datatype Operation = Operation(kind: OperationKind, release: string)

  datatype Db = Db(
    releases: map<string, ReleaseRow>, volumes: map<(string, string), SnapshotId>,
    active: Option<string>, operations: map<string, Operation>)

  datatype ReleaseRecord = ReleaseRecord(
    name: string, status: Status, requestId: string, snapshots: map<string, SnapshotId>, active: bool)

  function VolumesOf(db: Db, release: string): set<string> {
    set k | k in db.volumes && k.0 == release :: k.1
  }

  function SnapshotsOf(db: Db, release: string): map<string, SnapshotId> {
    map v | v in VolumesOf(db, release) :: db.volumes[(release, v)]
  }

  function Record(db: Db, release: string): ReleaseRecord
    requires release in db.releases
  {
    ReleaseRecord(release, db.releases[release].status, db.releases[release].requestId,
                  SnapshotsOf(db, release), db.active == Some(release))
  }

  function Get(db: Db, release: string): Result<ReleaseRecord> {
    if release in db.releases then Ok(Record(db, release)) else Err(StoreError)
  }

  ghost predicate Requested(db: Db, requestId: string) {
    exists n :: n in db.releases && db.releases[n].requestId == requestId
  }

  // ---- What the tables always satisfy ----

  ghost predicate DbInv(db: Db) {
    && (forall a, b :: IncompleteIn(db, a) && IncompleteIn(db, b) ==> a == b)
    && (forall a, b ::
          a in db.releases && b in db.releases && db.releases[a].requestId == db.releases[b].requestId ==> a == b)
    && (forall k :: k in db.volumes ==> k.0 in db.releases)
    && (forall k, l :: k in db.volumes && l in db.volumes && db.volumes[k] == db.volumes[l] ==> k == l)
    && (db.active.Some? ==> StagedIn(db, db.active.value))
    && (forall q :: q in db.operations ==>
          db.operations[q].kind.Activation? && StagedIn(db, db.operations[q].release))
  }

  predicate IncompleteIn(db: Db, release: string) {
    release in db.releases && db.releases[release].status.Incomplete?
  }

  predicate StagedIn(db: Db, release: string) {
    release in db.releases && db.releases[release].status.Staged?
  }

  /** Nothing recorded is ever taken back, and a staged release never changes again. */
  ghost predicate Later(db: Db, next: Db) {
    && (forall n :: n in db.releases ==>
          n in next.releases && next.releases[n].requestId == db.releases[n].requestId)
    && (forall n :: StagedIn(db, n) ==> StagedIn(next, n) && VolumesOf(next, n) == VolumesOf(db, n))
    && (forall k :: k in db.volumes ==> k in next.volumes && next.volumes[k] == db.volumes[k])
    && (forall q :: q in db.operations ==> q in next.operations && next.operations[q] == db.operations[q])
    && (db.active.Some? ==> next.active.Some?)
  }

  // ---- The transactions; None is a raised ReleaseStoreError ----

  ghost predicate OtherPending(db: Db, requestId: string) {
    exists n :: IncompleteIn(db, n) && db.releases[n].requestId != requestId
  }

  /** An incomplete release of another request must be resumed first; a known request keeps its row. */
  ghost function Reserved(db: Db, name: string, requestId: string): Option<Db> {
    if OtherPending(db, requestId)
    then None
    else if Requested(db, requestId) then Some(db)
    else if name in db.releases then None
    else Some(db.(releases := db.releases[name := ReleaseRow(Incomplete, requestId)]))
  }

  /** INSERT OR IGNORE: a snapshot owned by any row already is dropped without an error. */
  ghost function Added(db: Db, release: string, volume: string, snapshot: SnapshotId): Option<Db> {
    if release !in db.releases || !db.releases[release].status.Incomplete? then None
    else if (release, volume) in db.volumes then
      if db.volumes[(release, volume)] != snapshot then None else Some(db)
    else if snapshot in db.volumes.Values then Some(db)
    else Some(db.(volumes := db.volumes[(release, volume) := snapshot]))
  }

  ghost function Marked(db: Db, release: string, expected: set<string>): Option<Db> {
    if VolumesOf(db, release) != expected then None
    else if release !in db.releases then None
    else Some(db.(releases := db.releases[release := db.releases[release].(status := Staged)]))
  }

  ghost function Activated(db: Db, release: string, requestId: string): Option<Db> {
    if requestId in db.operations then
      if db.operations[requestId] != Operation(Activation, release) then None else Some(db)
    else if !StagedIn(db, release) then None
    else Some(db.(active := Some(release),
                  operations := db.operations[requestId := Operation(Activation, release)]))
  }

  class ReleaseStore {
    const readOnly: bool
    var releases: map<string, ReleaseRow>
    var volumes: map<(string, string), SnapshotId>
    var active: Option<string>
    var operations: map<string, Operation>

    function View(): Db
      reads this
    {
      Db(releases, volumes, active, operations)
    }

    constructor (readOnly: bool)
      ensures this.readOnly == readOnly && View() == Db(map[], map[], None, map[])
    {
      this.readOnly := readOnly;
      releases, volumes, active, operations := map[], map[], None, map[];
    }

    method Reserve(name: string, requestId: string) returns (r: Result<ReleaseRecord>)
      requires DbInv(View())
      modifies this
      ensures r.Ok? <==> !readOnly && Reserved(old(View()), name, requestId).Some?
      ensures r.Err? ==> View() == old(View()) && r.error in {StoreError, StoreIncomplete}
      ensures r == Err(StoreIncomplete) <==> !readOnly && OtherPending(old(View()), requestId)
      ensures r.Ok? ==> Some(View()) == Reserved(old(View()), name, requestId)
      ensures r.Ok? ==> r.value.name in releases && r.value == Record(View(), r.value.name)
      ensures r.Ok? ==> r.value.requestId == requestId
    {
      if readOnly { return Err(StoreError); }
      hide DbInv, Record, OtherPending, Requested;
      var blocked := Blocked(requestId);
      if blocked { return Err(StoreIncomplete); }
      var known := ByRequestId(requestId);
      if known.Some? { return Ok(known.value); }
      if name in releases { return Err(StoreError); }
      releases := releases[name := ReleaseRow(Incomplete, requestId)];
      r := Ok(Record(View(), name));
    }

    /** The pending row is some incomplete release; by DbInv there is at most one. */
    method Blocked(requestId: string) returns (blocked: bool)
      requires DbInv(View())
      ensures blocked <==> OtherPending(View(), requestId)
    {
      var pending := set n | n in releases && releases[n].status.Incomplete?;
      assert forall n :: IncompleteIn(View(), n) <==> n in pending;
      if pending == {} { return false; }
      var n :| n in pending;
      blocked := releases[n].requestId != requestId;
    }

    method ByRequestId(requestId: string) returns (r: Option<ReleaseRecord>)
      requires DbInv(View())
      ensures r.None? <==> !Requested(View(), requestId)
      ensures r.Some? ==> r.value.name in releases && r.value == Record(View(), r.value.name)
      ensures r.Some? ==> r.value.requestId == requestId
    {
      var requested := set n | n in releases && releases[n].requestId == requestId;
      assert forall n :: n in releases && releases[n].requestId == requestId ==> n in requested;
      if requested == {} { return None; }
      var n :| n in requested;
      r := Some(Record(View(), n));
    }

    method AddSnapshot(release: string, volume: string, snapshot: SnapshotId) returns (r: Outcome)
      modifies this
      ensures r.Pass? <==> !readOnly && Added(old(View()), release, volume, snapshot).Some?
      ensures r.Fail? ==> View() == old(View()) && r.error in {StoreError, StoreIncomplete}
      ensures r.Pass? ==> Some(View()) == Added(old(View()), release, volume, snapshot)
    {
      if readOnly { return Fail(StoreError); }
      if release !in releases || releases[release].status != Incomplete { return Fail(StoreIncomplete); }
      if (release, volume) in volumes && volumes[(release, volume)] != snapshot { return Fail(StoreError); }
      if (release, volume) !in volumes && snapshot !in volumes.Values {
        volumes := volumes[(release, volume) := snapshot];
      }
      r := Pass;
    }

    method MarkStaged(release: string, expected: set<string>) returns (r: Result<ReleaseRecord>)
      modifies this
      ensures r.Ok? <==> !readOnly && Marked(old(View()), release, expected).Some?
      ensures r.Err? ==> View() == old(View()) && r.error == StoreError
      ensures r.Ok? ==> Some(View()) == Marked(old(View()), release, expected)
      ensures r.Ok? ==> release in releases && r.value == Record(View(), release)
    {
      if readOnly { return Err(StoreError); }
      if VolumesOf(View(), release) != expected { return Err(StoreError); }
      if release in releases {
        releases := releases[release := releases[release].(status := Staged)];
      }
      r := Get(View(), release);
    }

    method Activate(release: string, requestId: string) returns (r: Result<ReleaseRecord>)
      requires DbInv(View())
      modifies this
      ensures r.Ok? <==> !readOnly && Activated(old(View()), release, requestId).Some?
      ensures r.Err? ==> View() == old(View()) && r.error == StoreError
      ensures r.Ok? ==> Some(View()) == Activated(old(View()), release, requestId)
      ensures r.Ok? ==> release in releases && r.value == Record(View(), release)
    {
      if readOnly { return Err(StoreError); }
      if requestId in operations {
        if operations[requestId].kind != Activation || operations[requestId].release != release {
          return Err(StoreError);
        }
        return Get(View(), release);
      }
      if release !in releases || releases[release].status != Staged { return Err(StoreError); }
      active := Some(release);
      operations := operations[requestId := Operation(Activation, release)];
      r := Get(View(), release);
    }

    method ActiveRelease() returns (r: Result<Option<ReleaseRecord>>)
      ensures active.None? ==> r == Ok(None)
      ensures active.Some? && active.value in releases ==> r == Ok(Some(Record(View(), active.value)))
      ensures active.Some? && active.value !in releases ==> r == Err(StoreError)
    {
      if active.None? { return Ok(None); }
      var record :- Get(View(), active.value);
      r := Ok(Some(record));
    }
  }

  // ---- Every sequence of operations ----

  datatype StoreOp =
    | ReserveOp(name: string, requestId: string)
    | AddOp(release: string, volume: string, snapshot: SnapshotId)
    | MarkOp(release: string, expected: set<string>)
    | ActivateOp(release: string, requestId: string)

  ghost function Transaction(db: Db, op: StoreOp): Option<Db> {
    match op
    case ReserveOp(name, requestId) => Reserved(db, name, requestId)
    case AddOp(release, volume, snapshot) => Added(db, release, volume, snapshot)
    case MarkOp(release, expected) => Marked(db, release, expected)
    case ActivateOp(release, requestId) => Activated(db, release, requestId)
  }

  ghost function Apply(db: Db, op: StoreOp): Db {
    match Transaction(db, op)
    case Some(next) => next
    case None => db
  }

  ghost function ApplyAll(db: Db, ops: seq<StoreOp>): Db {
    if ops == [] then db else Apply(ApplyAll(db, ops[..|ops| - 1]), ops[|ops| - 1])
  }

  /** An activation that is not the replay of an answered request. */
  ghost predicate Fresh(db: Db, op: StoreOp) {
    op.ActivateOp? && op.requestId !in db.operations && StagedIn(db, op.release)
  }

  lemma ReserveKeeps(db: Db, name: string, requestId: string)
    requires DbInv(db) && Reserved(db, name, requestId).Some?
    ensures DbInv(Reserved(db, name, requestId).value) && Later(db, Reserved(db, name, requestId).value)
    ensures Reserved(db, name, requestId).value.volumes == db.volumes
  {
    var next := Reserved(db, name, requestId).value;
    hide DbInv, Later, Requested;
    if next == db {
      NothingKeeps(db);
    } else {
      ReservedInv(db, next, name, requestId);
      ReservedLater(db, next, name, requestId);
    }
  }

  lemma ReservedLater(db: Db, next: Db, name: string, requestId: string)
    requires name !in db.releases
    requires next == db.(releases := db.releases[name := ReleaseRow(Incomplete, requestId)])
    ensures Later(db, next)
  {
  }

  lemma ReservedInv(db: Db, next: Db, name: string, requestId: string)
    requires DbInv(db) && name !in db.releases && !Requested(db, requestId)
    requires forall n :: !IncompleteIn(db, n)
    requires next == db.(releases := db.releases[name := ReleaseRow(Incomplete, requestId)])
    ensures DbInv(next)
  {
    forall a | IncompleteIn(next, a) ensures a == name {
      assert a != name ==> IncompleteIn(db, a);
    }
    forall a | StagedIn(db, a) ensures StagedIn(next, a) {
    }
  }

  lemma AddKeeps(db: Db, release: string, volume: string, snapshot: SnapshotId)
    requires DbInv(db) && Added(db, release, volume, snapshot).Some?
    ensures DbInv(Added(db, release, volume, snapshot).value) && Later(db, Added(db, release, volume, snapshot).value)
  {
    var next := Added(db, release, volume, snapshot).value;
    if next != db {
      RowKeepsInv(db, next, release, volume, snapshot);
      RowIsLater(db, next, release, volume, snapshot);
    } else {
      NothingKeeps(db);
    }
  }

  /** A row of a snapshot nobody owns yet. */
  ghost predicate NewRow(db: Db, next: Db, release: string, volume: string, snapshot: SnapshotId) {
    && IncompleteIn(db, release) && (release, volume) !in db.volumes && snapshot !in db.volumes.Values
    && next == db.(volumes := db.volumes[(release, volume) := snapshot])
  }

  lemma RowKeepsInv(db: Db, next: Db, release: string, volume: string, snapshot: SnapshotId)
    requires DbInv(db) && NewRow(db, next, release, volume, snapshot)
    ensures DbInv(next)
  {
    forall a | IncompleteIn(next, a) ensures IncompleteIn(db, a) {
    }
    forall k, l | k in next.volumes && l in next.volumes && next.volumes[k] == next.volumes[l] ensures k == l {
      assert k in db.volumes ==> db.volumes[k] in db.volumes.Values;
      assert l in db.volumes ==> db.volumes[l] in db.volumes.Values;
    }
  }

  lemma RowIsLater(db: Db, next: Db, release: string, volume: string, snapshot: SnapshotId)
    requires NewRow(db, next, release, volume, snapshot)
    ensures Later(db, next)
  {
  }

  lemma MarkKeeps(db: Db, release: string, expected: set<string>)
    requires DbInv(db) && Marked(db, release, expected).Some?
    ensures DbInv(Marked(db, release, expected).value) && Later(db, Marked(db, release, expected).value)
  {
    var next := Marked(db, release, expected).value;
    forall n ensures VolumesOf(next, n) == VolumesOf(db, n) {
      assert next.volumes == db.volumes;
    }
    forall a, b | IncompleteIn(next, a) && IncompleteIn(next, b) ensures a == b {
      assert IncompleteIn(db, a) && IncompleteIn(db, b);
    }
    forall n | StagedIn(db, n) ensures StagedIn(next, n) {
    }
  }

  lemma ActivateKeeps(db: Db, release: string, requestId: string)
    requires DbInv(db) && Activated(db, release, requestId).Some?
    ensures DbInv(Activated(db, release, requestId).value) && Later(db, Activated(db, release, requestId).value)
    ensures StagedIn(db, release)
  {
    var next := Activated(db, release, requestId).value;
    forall n ensures VolumesOf(next, n) == VolumesOf(db, n) {
      assert next.volumes == db.volumes;
    }
    forall a, b | IncompleteIn(next, a) && IncompleteIn(next, b) ensures a == b {
      assert IncompleteIn(db, a) && IncompleteIn(db, b);
    }
    forall n | StagedIn(db, n) ensures StagedIn(next, n) {
    }
  }

  lemma ApplyKeeps(db: Db, op: StoreOp)
    requires DbInv(db)
    ensures DbInv(Apply(db, op)) && Later(db, Apply(db, op))
    ensures Apply(db, op).active == if Fresh(db, op) then Some(op.release) else db.active
  {
    hide DbInv, Later;
    if Transaction(db, op).None? {
      NothingKeeps(db);
    } else {
      match op
      case ReserveOp(name, requestId) => ReserveKeeps(db, name, requestId);
      case AddOp(release, volume, snapshot) => AddKeeps(db, release, volume, snapshot);
      case MarkOp(release, expected) => MarkKeeps(db, release, expected);
      case ActivateOp(release, requestId) => ActivateKeeps(db, release, requestId);
    }
  }

  lemma NothingKeeps(db: Db)
    ensures Later(db, db)
  {
  }

  lemma LaterTransitive(a: Db, b: Db, c: Db)
    requires Later(a, b) && Later(b, c)
    ensures Later(a, c)
  {
  }

  /** Whatever is called in whatever order, the tables stay consistent and nothing is taken back. */
  lemma {:induction false} StoreRuns(db: Db, ops: seq<StoreOp>)
    requires DbInv(db)
    ensures DbInv(ApplyAll(db, ops)) && Later(db, ApplyAll(db, ops))
  {
    if ops != [] {
      var before := ops[..|ops| - 1];
      StoreRuns(db, before);
      ApplyKeeps(ApplyAll(db, before), ops[|ops| - 1]);
      LaterTransitive(db, ApplyAll(db, before), ApplyAll(db, ops));
    }
  }

  /** The active release is the last fresh activation; replays and failures do not change it. */
  lemma {:induction false} ActiveIsLastFresh(db: Db, ops: seq<StoreOp>, last: int)
    requires DbInv(db) && -1 <= last < |ops|
    requires last >= 0 ==> Fresh(ApplyAll(db, ops[..last]), ops[last])
    requires forall i :: last < i < |ops| ==> !Fresh(ApplyAll(db, ops[..i]), ops[i])
    ensures ApplyAll(db, ops).active == if last >= 0 then Some(ops[last].release) else db.active
  {
    hide DbInv, Later, Fresh, Apply;
    if ops != [] {
      var before := ops[..|ops| - 1];
      StoreRuns(db, before);
      ApplyKeeps(ApplyAll(db, before), ops[|ops| - 1]);
      if last < |ops| - 1 {
        assert last >= 0 ==> before[..last] == ops[..last];
        forall i | last < i < |before| ensures !Fresh(ApplyAll(db, before[..i]), before[i]) {
          assert before[..i] == ops[..i];
        }
        ActiveIsLastFresh(db, before, last);
      }
    }
  }

  /** Replaying an answered activation answers again and changes nothing, whatever came between. */
  lemma {:induction false} ReplayIsSilent(db: Db, release: string, requestId: string, ops: seq<StoreOp>)
    requires DbInv(db) && Activated(db, release, requestId).Some?
    ensures var later := ApplyAll(Activated(db, release, requestId).value, ops);
            Activated(later, release, requestId) == Some(later)
  {
    hide DbInv;
    ActivateKeeps(db, release, requestId);
    StoreRuns(Activated(db, release, requestId).value, ops);
  }
}
