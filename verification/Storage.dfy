/**
 * The storage state of backends/mock.py, with the block contents a real pool adds: a clone copies
 * its source snapshot, a snapshot captures its dataset, a rollback restores it.
 */
module Storage {
  import opened Results
  import opened Topology

  /** The identity of a block image. */
  type Content = nat

  datatype Property = Managed | OfClient | OfVolume | OfRelease | Other(name: string)

  datatype Dataset = Dataset(origin: Option<SnapshotId>, props: map<Property, string>, content: Content)

  datatype Extent = Extent(disk: string, naa: string, serial: Option<string>, enabled: bool)

  datatype Session = Session(initiatorIqn: string, initiatorAddr: Address, targetIqn: string)

  datatype TargetLun = TargetLun(extentId: nat, lun: nat)

  datatype State = State(
    snapshots: map<SnapshotId, Content>, datasets: map<string, Dataset>,
    extents: map<nat, Extent>, sessions: seq<Session>, luns: map<string, seq<TargetLun>>)

  /** One call of the backend interface. */
  datatype Op =
    | Ping
    | ListSessions
    | TargetLuns(iqn: string)
    | GetExtent(id: nat)
    | UpdateExtent(id: nat, enabled: Option<bool>, disk: Option<string>)
    | SnapshotExists(snapshot: SnapshotId)
    | GetDataset(name: string)
    | CloneSnapshot(source: SnapshotId, destination: string, props: map<Property, string>)
    | CreateSnapshot(dataset: string, name: string)
    | RollbackSnapshot(target: SnapshotId)

  predicate IsRead(op: Op) {
    op.Ping? || op.ListSessions? || op.TargetLuns? || op.GetExtent? || op.SnapshotExists? || op.GetDataset?
  }

  const CLEAN := "clean"

  /** The backend strips a leading zvol/ from a disk path. */
  function NormalizeZvol(path: string): string {
    if |path| >= 5 && path[..5] == "zvol/" then path[5..] else path
  }

  function UpdatedExtent(extent: Extent, enabled: Option<bool>, disk: Option<string>): Extent {
    Extent(
      if disk.Some? then NormalizeZvol(disk.value) else extent.disk,
      extent.naa, extent.serial,
      if enabled.Some? then enabled.value else extent.enabled)
  }

  /** The state after a call that the backend performs; None when it refuses the call. */
  function Effect(s: State, op: Op): Option<State> {
    match op
    case Ping => Some(s)
    case ListSessions => Some(s)
    case TargetLuns(_) => Some(s)
    case GetExtent(id) => if id in s.extents then Some(s) else None
    case UpdateExtent(id, enabled, disk) =>
      if id !in s.extents then None
      else Some(s.(extents := s.extents[id := UpdatedExtent(s.extents[id], enabled, disk)]))
    case SnapshotExists(_) => Some(s)
    case GetDataset(_) => Some(s)
    case CloneSnapshot(source, destination, props) =>
      if source !in s.snapshots || destination in s.datasets then None
      else Some(s.(datasets := s.datasets[destination := Dataset(Some(source), props, s.snapshots[source])]))
    case CreateSnapshot(dataset, name) =>
      if dataset !in s.datasets || At(dataset, name) in s.snapshots then None
      else Some(s.(snapshots := s.snapshots[At(dataset, name) := s.datasets[dataset].content]))
    case RollbackSnapshot(target) =>
      if target !in s.snapshots || target.dataset !in s.datasets then None
      else Some(s.(datasets := s.datasets[target.dataset :=
                     s.datasets[target.dataset].(content := s.snapshots[target])]))
  }

  /**
   * How a call may go wrong: it raises before or after its effect (a lost acknowledgement), or the
   * extent comes back with another NAA and serial.
   */
  datatype Fault = NoFault | RaiseBefore | RaiseAfter | Reidentify(naa: string, serial: Option<string>)

  /** Calls may fail before or after their effect, but never change an extent's identity. */
  ghost predicate OnlyFailures(faults: nat -> Fault) {
    forall n: nat :: !faults(n).Reidentify?
  }

  function Identified(s: State, op: Op, naa: string, serial: Option<string>): State {
    if op.UpdateExtent? && op.id in s.extents
    then s.(extents := s.extents[op.id := s.extents[op.id].(naa := naa, serial := serial)])
    else s
  }

  /** What a call on `before` leaves, and whether it raises, under a fault. */
  ghost predicate Happens(op: Op, before: State, after: State, raised: bool, fault: Fault) {
    match Effect(before, op)
    case None => raised && after == before
    case Some(t) =>
      match fault
      case NoFault => !raised && after == t
      case RaiseBefore => raised && after == before
      case RaiseAfter => raised && after == t
      case Reidentify(naa, serial) => !raised && after == Identified(t, op, naa, serial)
  }

  /** One logged call: the state it was performed in, the state it left, and how it fared. */
  datatype Step = Step(op: Op, before: State, after: State, raised: bool, fault: Fault)

  function Get(props: map<Property, string>, key: Property): Option<string> {
    if key in props then Some(props[key]) else None
  }

  function CloneProperties(client: string, volume: string, release: string): map<Property, string> {
    map[Managed := "yes", OfClient := client, OfVolume := volume, OfRelease := release]
  }

  /** _verify_clone. */
  predicate Verified(d: Dataset, client: string, volume: string, release: string, source: SnapshotId) {
    && d.origin == Some(source)
    && Get(d.props, Managed) == Some("yes")
    && Get(d.props, OfClient) == Some(client)
    && Get(d.props, OfVolume) == Some(volume)
    && Get(d.props, OfRelease) == Some(release)
  }

  /** The client and volume a managed clone belongs to. */
  function Owner(d: Dataset): Option<(string, string)> {
    if Get(d.props, Managed) == Some("yes") && OfClient in d.props && OfVolume in d.props
    then Some((d.props[OfClient], d.props[OfVolume]))
    else None
  }

  predicate OwnedBy(client: Client, d: Dataset) {
    Owner(d).Some? && Owner(d).value.0 == client.name
  }

  lemma PropertiesVerify(client: string, volume: string, release: string, source: SnapshotId, content: Content)
    ensures Verified(Dataset(Some(source), CloneProperties(client, volume, release), content),
                     client, volume, release, source)
  {
  }

  lemma VerifiedOwner(d: Dataset, client: string, volume: string, release: string, source: SnapshotId)
    requires Verified(d, client, volume, release, source)
    ensures Owner(d) == Some((client, volume)) && d.origin == Some(source)
  {
  }

  /** NAA comparison ignores whitespace, case and one leading 0x. */
  function NormalizeDiskId(value: string): string {
    var n := Lower(Compact(value));
    if |n| >= 2 && n[..2] == "0x" then n[2..] else n
  }

  function Compact(value: string): string {
    if value == "" then ""
    else if value[0] in " \t\n\r\U{B}\U{C}" then Compact(value[1..])
    else [value[0]] + Compact(value[1..])
  }

  function Lower(value: string): string {
    if value == "" then "" else [LowerChar(value[0])] + Lower(value[1..])
  }

  function LowerChar(c: char): char {
    if 'A' <= c <= 'Z' then c - 'A' + 'a' else c
  }

  /** _matching_sessions: any one of the three identities is enough. */
  predicate Matches(s: Session, initiatorIqn: string, sourceIp: Address, targetIqn: string) {
    Lower(s.initiatorIqn) == initiatorIqn || s.initiatorAddr == sourceIp || Lower(s.targetIqn) == targetIqn
  }

  predicate NoMatch(sessions: seq<Session>, initiatorIqn: string, sourceIp: Address, targetIqn: string) {
    forall s :: s in sessions ==> !Matches(s, initiatorIqn, sourceIp, targetIqn)
  }

  function LunTable(luns: map<string, seq<TargetLun>>, iqn: string): seq<TargetLun> {
    if iqn in luns then luns[iqn] else []
  }

  ghost predicate InTable(s: State, iqn: string, extent: nat, lun: nat) {
    iqn in s.luns && TargetLun(extent, lun) in s.luns[iqn]
  }

  // ---- What these comparisons mean, character by character ----

  predicate White(c: char) {
    c == ' ' || 9 <= c as int <= 13
  }

  /** The small letter of a capital from A to Z, by its code; any other character is itself. */
  function Small(c: char): char {
    if 65 <= c as int <= 90 then (c as int + 32) as char else c
  }

  /** `x` reads `y` once its capitals are written small. */
  ghost predicate Reads(x: string, y: string) {
    |x| == |y| && forall k :: 0 <= k < |x| ==> y[k] == Small(x[k])
  }

  lemma {:induction false} LowerMeans(x: string, y: string)
    ensures Lower(x) == y <==> Reads(x, y)
  {
    if x != "" {
      if y != "" {
        LowerMeans(x[1..], y[1..]);
        assert y == [y[0]] + y[1..];
        assert Reads(x, y) <==> y[0] == Small(x[0]) && Reads(x[1..], y[1..]) by {
          assert forall k :: 0 < k < |x| ==> x[k] == x[1..][k - 1];
          assert forall k :: 0 < k < |y| ==> y[k] == y[1..][k - 1];
        }
      }
    }
  }

  /** A session is in the way by its address, or by either name in any spelling. */
  lemma NoMatchMeans(sessions: seq<Session>, initiatorIqn: string, sourceIp: Address, targetIqn: string)
    ensures NoMatch(sessions, initiatorIqn, sourceIp, targetIqn) <==>
              forall s :: s in sessions ==>
                s.initiatorAddr != sourceIp && !Reads(s.initiatorIqn, initiatorIqn) && !Reads(s.targetIqn, targetIqn)
  {
    hide Reads, Lower;
    forall s | s in sessions
      ensures Matches(s, initiatorIqn, sourceIp, targetIqn) <==>
                s.initiatorAddr == sourceIp || Reads(s.initiatorIqn, initiatorIqn) || Reads(s.targetIqn, targetIqn)
    {
      LowerMeans(s.initiatorIqn, initiatorIqn);
      LowerMeans(s.targetIqn, targetIqn);
    }
  }

  lemma {:induction false} CompactDrops(a: string, c: char, b: string)
    requires White(c)
    ensures Compact(a + [c] + b) == Compact(a + b)
  {
    if a == "" {
      assert a + [c] + b == [c] + b && a + b == b;
    } else {
      CompactDrops(a[1..], c, b);
      assert (a + [c] + b)[1..] == a[1..] + [c] + b && (a + b)[1..] == a[1..] + b;
    }
  }

  lemma {:induction false} LowerCompact(a: string, c: char, b: string)
    ensures Lower(Compact(a + [c] + b)) == Lower(Compact(a + [Small(c)] + b))
  {
    if a == "" {
      assert a + [c] + b == [c] + b && a + [Small(c)] + b == [Small(c)] + b;
      assert White(c) <==> White(Small(c));
    } else {
      LowerCompact(a[1..], c, b);
      assert (a + [c] + b)[1..] == a[1..] + [c] + b;
      assert (a + [Small(c)] + b)[1..] == a[1..] + [Small(c)] + b;
    }
  }

  lemma {:induction false} CleanStays(x: string)
    requires forall i :: 0 <= i < |x| ==> !White(x[i]) && Small(x[i]) == x[i]
    ensures Lower(Compact(x)) == x
  {
    if x != "" {
      CleanStays(x[1..]);
    }
  }

  /** The spelling of a disk id does not count: neither white space, nor capitals, nor one leading 0x. */
  lemma DiskIdSpelling(a: string, c: char, b: string)
    ensures NormalizeDiskId(a + [c] + b) == NormalizeDiskId(a + [Small(c)] + b)
    ensures White(c) ==> NormalizeDiskId(a + [c] + b) == NormalizeDiskId(a + b)
  {
    LowerCompact(a, c, b);
    if White(c) { CompactDrops(a, c, b); }
  }

  /** All else counts: what has none of these is its own normal form. */
  lemma DiskIdPlain(x: string)
    requires forall i :: 0 <= i < |x| ==> !White(x[i]) && Small(x[i]) == x[i]
    ensures NormalizeDiskId("0x" + x) == x
    ensures !(|x| >= 2 && x[0] == '0' && x[1] == 'x') ==> NormalizeDiskId(x) == x
  {
    CleanStays(x);
    var y := "0x" + x;
    assert forall i :: 0 <= i < |y| ==> y[i] == if i == 0 then '0' else if i == 1 then 'x' else x[i - 2];
    CleanStays(y);
    assert y[..2] == "0x" && y[2..] == x;
    if |x| >= 2 && x[..2] == "0x" { assert x[0] == "0x"[0] && x[1] == "0x"[1]; }
  }
}
