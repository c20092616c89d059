/**
 * Runs of the whole system: any interleaving of the steps of resets, of the publisher and of the
 * world outside, over one storage. A crash is an actor that takes no more steps.
 */
module Runs {
  import opened Results
  import opened Topology
  import opened Storage
  import opened Protocol
  import opened ResetSteps
  import opened PublishSteps
  import opened Backends
  import opened Manager
  import Recovery

  datatype Actor = World | Publishing | Resetting(client: Client)

  ghost predicate ActorStep(config: ServiceConfig, releases: set<string>, actor: Actor, s: State, t: State) {
    match actor
    case World => OutsideStep(s, t)
    case Publishing => PublisherStep(config, releases, s, t)
    case Resetting(client) => client in config.clients && ClientStep(config, client, s, t)
  }

  ghost predicate Run(config: ServiceConfig, releases: set<string>, states: seq<State>, actors: seq<Actor>) {
    && |states| == |actors| + 1
    && (forall i :: 0 <= i < |actors| ==> ActorStep(config, releases, actors[i], states[i], states[i + 1]))
  }

  lemma StepKeepsInv(config: ServiceConfig, releases: set<string>, actor: Actor, s: State, t: State)
    requires WellFormed(config) && Inv(config, s) && ActorStep(config, releases, actor, s, t)
    ensures Inv(config, t) && Grows(s, t)
  {
    hide Inv, WellFormed;
    match actor
    case World => OutsideKeepsInv(config, s, t);
    case Publishing => PublisherKeepsInv(config, releases, s, t);
    case Resetting(client) => ClientKeepsInv(config, client, s, t);
  }

  /** Every reachable state satisfies the invariant, and what exists stays. */
  lemma {:induction false} RunKeepsInv(
    config: ServiceConfig, releases: set<string>, states: seq<State>, actors: seq<Actor>, i: nat, k: nat)
    requires WellFormed(config) && Run(config, releases, states, actors) && Inv(config, states[0]) && i <= k < |states|
    ensures Inv(config, states[i]) && Inv(config, states[k]) && Grows(states[i], states[k])
    decreases k
  {
    hide Inv, WellFormed, ActorStep, Grows;
    if k == 0 {
      ReflGrows(states[0]);
    } else {
      RunKeepsInv(config, releases, states, actors, if i == k then k - 1 else i, k - 1);
      StepKeepsInv(config, releases, actors[k - 1], states[k - 1], states[k]);
      ReflGrows(states[k]);
      if i < k { GrowsTransitive(states[i], states[k - 1], states[k]); }
    }
  }

  lemma ReflGrows(s: State)
    ensures Grows(s, s)
  {
  }

  // ---- Isolation ----

  /**
   * Two enabled extents never show the same managed clone, and a managed clone that is shown is
   * shown by the one extent of its own client and volume.
   */
  lemma NoSharedClone(
    config: ServiceConfig, releases: set<string>, states: seq<State>, actors: seq<Actor>, i: nat, e: nat, f: nat)
    requires WellFormed(config) && Run(config, releases, states, actors) && Inv(config, states[0]) && i < |states|
    requires var s := states[i];
             e in s.extents && f in s.extents && s.extents[e].enabled && s.extents[f].enabled &&
             s.extents[e].disk == s.extents[f].disk && s.extents[e].disk in s.datasets &&
             Owner(s.datasets[s.extents[e].disk]).Some?
    ensures e == f
    ensures var o := Owner(states[i].datasets[states[i].extents[e].disk]).value; Assigned(config, o.0, o.1, e)
  {
    hide WellFormed, Run;
    RunKeepsInv(config, releases, states, actors, i, i);
    var s := states[i];
    var o := Owner(s.datasets[s.extents[e].disk]).value;
    assert AttachmentOk(config, s, e) && AttachmentOk(config, s, f);
    AssignedUnique(config, o.0, o.1, e, o.0, o.1, f);
  }

  /** A reset touches nothing of another client, of the publisher, or of any master. */
  lemma ResetIsIsolated(config: ServiceConfig, client: Client, other: Client, s: State, t: State)
    requires WellFormed(config) && client in config.clients && other in config.clients && client != other
    requires Inv(config, s) && ClientStep(config, client, s, t)
    ensures forall e :: e in ExtentIds(other) + PublisherExtentIds(config) && e in s.extents ==> t.extents[e] == s.extents[e]
    ensures forall d :: d in s.datasets && (OwnedBy(other, s.datasets[d]) || d in Masters(config)) ==>
              t.datasets[d] == s.datasets[d]
    ensures forall d :: d in t.datasets && OwnedBy(other, t.datasets[d]) ==> d in s.datasets
    ensures forall n :: n in t.snapshots && n !in s.snapshots ==>
              n.dataset in s.datasets && !OwnedBy(other, s.datasets[n.dataset]) && n.dataset !in Masters(config)
  {
    hide WellFormed;
    NamesDiffer(config, client, other);
    ClientWithinRely(config, client, other, s, t);
    ClientWithinPublisherRely(config, client, s, t);
    forall d | d in s.datasets && OwnedBy(other, s.datasets[d]) ensures t.datasets[d] == s.datasets[d] {
      assert SameMeta(s.datasets[d], t.datasets[d]);
    }
    forall n | n in t.snapshots && n !in s.snapshots
      ensures n.dataset in s.datasets && !OwnedBy(other, s.datasets[n.dataset]) && n.dataset !in Masters(config)
    {
      assert NewClean(client, s, t, n);
    }
  }

  lemma NamesDiffer(config: ServiceConfig, client: Client, other: Client)
    requires WellFormed(config) && client in config.clients && other in config.clients && client != other
    ensures client.name != other.name
  {
  }

  // ---- Point in time ----

  /** Every snapshot of the release that exists in `s` holds what its master held in `then'`. */
  ghost predicate TakenAt(config: ServiceConfig, release: string, s: State, then': State) {
    forall m :: m in Masters(config) && At(m, release) in s.snapshots ==>
      m in then'.datasets && s.snapshots[At(m, release)] == then'.datasets[m].content
  }

  /** While a release is being taken, its snapshots hold the masters' present contents. */
  ghost predicate BeingTaken(config: ServiceConfig, release: string, s: State) {
    && TakenAt(config, release, s, s)
    && (Taken(config, release, s) ==> AllDisabled(PublisherExtentIds(config), s))
  }

  lemma IncompleteStaysTaken(config: ServiceConfig, releases: set<string>, actor: Actor, release: string, s: State, t: State)
    requires WellFormed(config) && Inv(config, s) && ActorStep(config, releases, actor, s, t) && release in releases
    requires !Complete(config, release, s) && BeingTaken(config, release, s)
    ensures BeingTaken(config, release, t)
  {
    match actor
    case World => WorldStaysTaken(config, release, s, t);
    case Publishing => PublisherStaysTaken(config, releases, release, s, t);
    case Resetting(client) => ResetStaysTaken(config, client, release, s, t);
  }

  lemma WorldStaysTaken(config: ServiceConfig, release: string, s: State, t: State)
    requires Inv(config, s) && OutsideStep(s, t) && BeingTaken(config, release, s)
    ensures BeingTaken(config, release, t)
  {
  }

  lemma PublisherStaysTaken(config: ServiceConfig, releases: set<string>, release: string, s: State, t: State)
    requires Inv(config, s) && PublisherStep(config, releases, s, t) && release in releases
    requires !Complete(config, release, s) && BeingTaken(config, release, s)
    ensures BeingTaken(config, release, t)
  {
    if Taken(config, release, t) {
      if Taken(config, release, s) {
        assert Partial(config, release, s);
        forall e | e in PublisherExtentIds(config) && e in t.extents ensures !t.extents[e].enabled {
          if t.extents[e].enabled {
            assert false;
          }
        }
      } else {
        var m :| m in Masters(config) && At(m, release) in t.snapshots;
        assert At(m, release) !in s.snapshots;
      }
    }
  }

  lemma ResetStaysTaken(config: ServiceConfig, client: Client, release: string, s: State, t: State)
    requires WellFormed(config) && client in config.clients && Inv(config, s) && ClientStep(config, client, s, t)
    requires BeingTaken(config, release, s)
    ensures BeingTaken(config, release, t)
  {
    ClientWithinPublisherRely(config, client, s, t);
    hide WellFormed, Inv, ClientStep;
    forall m | m in Masters(config) && At(m, release) in t.snapshots ensures At(m, release) in s.snapshots {
    }
  }

  /** Up to any moment, the release is still being taken, or it was complete at an earlier one. */
  lemma {:induction false} TakenOrComplete(
    config: ServiceConfig, releases: set<string>, states: seq<State>, actors: seq<Actor>, release: string, i: nat)
    returns (j: nat)
    requires WellFormed(config) && Run(config, releases, states, actors) && Inv(config, states[0]) && i < |states|
    requires release in releases && !Taken(config, release, states[0])
    ensures j <= i && BeingTaken(config, release, states[j])
    ensures j < i ==> Complete(config, release, states[j])
  {
    hide WellFormed, Inv, ActorStep, Complete;
    if i == 0 {
      j := 0;
    } else {
      j := TakenOrComplete(config, releases, states, actors, release, i - 1);
      if j == i - 1 && !Complete(config, release, states[j]) {
        RunKeepsInv(config, releases, states, actors, j, j);
        IncompleteStaysTaken(config, releases, actors[j], release, states[j], states[i]);
        j := i;
      }
    }
  }

  /**
   * Point-in-time release: across any run, with any number of failed, crashed and resumed attempts,
   * all snapshots of a release hold the masters' contents of one common earlier state.
   */
  lemma PointInTime(
    config: ServiceConfig, releases: set<string>, states: seq<State>, actors: seq<Actor>, release: string, i: nat)
    returns (j: nat)
    requires WellFormed(config) && Run(config, releases, states, actors) && Inv(config, states[0]) && i < |states|
    requires release in releases && !Taken(config, release, states[0])
    ensures j <= i && TakenAt(config, release, states[i], states[j])
  {
    hide WellFormed, Inv, Run;
    j := TakenOrComplete(config, releases, states, actors, release, i);
    RunKeepsInv(config, releases, states, actors, j, i);
  }

  // ---- Clean reset ----

  /** Enabling an extent takes a restored client: all its volumes are on clones of one release. */
  lemma EnablingIsRestored(config: ServiceConfig, releases: set<string>, actor: Actor, client: Client, s: State, t: State, e: nat)
    requires WellFormed(config) && client in config.clients && Inv(config, s)
    requires ActorStep(config, releases, actor, s, t)
    requires e in ExtentIds(client) && e in s.extents && !s.extents[e].enabled && t.extents[e].enabled
    ensures actor == Resetting(client)
    ensures exists release :: Restored(config, client, release, s)
  {
  }

  /**
   * Whenever a client's extent is switched on, every volume of the client that is still off holds
   * exactly what its master held at one earlier moment, the same moment for all of them.
   */
  lemma ResetShowsOneInstant(
    config: ServiceConfig, releases: set<string>, states: seq<State>, actors: seq<Actor>, client: Client,
    release: string, i: nat)
    returns (j: nat)
    requires WellFormed(config) && Run(config, releases, states, actors) && Inv(config, states[0]) && i < |states|
    requires release in releases && !Taken(config, release, states[0])
    requires client in config.clients && Restored(config, client, release, states[i])
    ensures j <= i
    ensures forall v :: v in client.volumes && v.extentId in states[i].extents && !states[i].extents[v.extentId].enabled ==>
              ShowsMasterOf(config, client, v, release, states[i], states[j])
  {
    hide WellFormed, Inv, Run, CloneDataset, CloneReady, Taken;
    j := PointInTime(config, releases, states, actors, release, i);
    forall v | v in client.volumes && v.extentId in states[i].extents && !states[i].extents[v.extentId].enabled
      ensures ShowsMasterOf(config, client, v, release, states[i], states[j])
    {
      var p := MasterOfVolume(config, client, v);
      assert Pointed(client, v, release, states[i]) && Pristine(config, client, v, release, states[i]);
    }
  }

  /** The volume's disk in `s` holds what its master held in `then'`. */
  ghost predicate ShowsMasterOf(
    config: ServiceConfig, client: Client, v: Volume, release: string, s: State, then': State)
    requires v.extentId in s.extents
  {
    var disk, master := s.extents[v.extentId].disk, MasterDataset(config.publisher.volumes, v.name);
    && disk == CloneDataset(client, v, release)
    && disk in s.datasets && master in then'.datasets
    && s.datasets[disk].content == then'.datasets[master].content
  }

  // ---- What an actor relies on is what the others do ----

  /** A run in which this client resets nothing stays within what its reset relies on. */
  lemma {:induction false} OthersWithinRely(
    config: ServiceConfig, releases: set<string>, states: seq<State>, actors: seq<Actor>, client: Client, k: nat)
    requires WellFormed(config) && Run(config, releases, states, actors) && Inv(config, states[0]) && k < |states|
    requires client in config.clients && forall i :: 0 <= i < |actors| ==> actors[i] != Resetting(client)
    ensures Rely(client, states[0], states[k])
  {
    hide Inv, WellFormed, Rely;
    if k == 0 {
      RelyReflexive(client, states[0]);
    } else {
      OthersWithinRely(config, releases, states, actors, client, k - 1);
      RunKeepsInv(config, releases, states, actors, k - 1, k - 1);
      var s, t := states[k - 1], states[k];
      assert ActorStep(config, releases, actors[k - 1], s, t);
      match actors[k - 1] {
        case World => OutsideWithinRely(config, client, s, t);
        case Publishing => PublisherWithinRely(config, releases, client, s, t);
        case Resetting(other) =>
          NamesDiffer(config, other, client);
          ClientWithinRely(config, other, client, s, t);
      }
      RelyTransitive(client, states[0], s, t);
    }
  }

  lemma {:induction false} OthersWithinPublisherRely(
    config: ServiceConfig, releases: set<string>, states: seq<State>, actors: seq<Actor>, k: nat)
    requires WellFormed(config) && Run(config, releases, states, actors) && Inv(config, states[0]) && k < |states|
    requires forall i :: 0 <= i < |actors| ==> actors[i] != Publishing
    ensures PublisherRely(config, states[0], states[k])
  {
    hide Inv, WellFormed, PublisherRely;
    if k == 0 {
      PublisherRelyNil(config, states[0]);
    } else {
      OthersWithinPublisherRely(config, releases, states, actors, k - 1);
      RunKeepsInv(config, releases, states, actors, k - 1, k - 1);
      var s, t := states[k - 1], states[k];
      assert ActorStep(config, releases, actors[k - 1], s, t);
      match actors[k - 1] {
        case World => OutsideWithinPublisherRely(config, s, t);
        case Publishing =>
        case Resetting(client) => ClientWithinPublisherRely(config, client, s, t);
      }
      PublisherRelyTransitive(config, states[0], s, t);
    }
  }

  lemma PublisherRelyNil(config: ServiceConfig, s: State)
    ensures PublisherRely(config, s, s)
  {
  }

  /** Some run of the others leads from `s` to `t`. */
  ghost predicate OthersReach(config: ServiceConfig, releases: set<string>, self: Actor, s: State, t: State) {
    exists states, actors :: OthersRun(config, releases, self, states, actors, s, t)
  }

  ghost predicate OthersRun(
    config: ServiceConfig, releases: set<string>, self: Actor, states: seq<State>, actors: seq<Actor>, s: State, t: State)
  {
    && Run(config, releases, states, actors) && states[0] == s && states[|states| - 1] == t
    && (forall i :: 0 <= i < |actors| ==> actors[i] != self)
  }

  /** The assumption of a reset about its surroundings holds of every surroundings made of the others. */
  lemma ResetSurroundings(config: ServiceConfig, releases: set<string>, client: Client, env: (nat, State) -> State)
    requires WellFormed(config) && client in config.clients
    requires forall n: nat, s :: Inv(config, s) ==> OthersReach(config, releases, Resetting(client), s, env(n, s))
    ensures EnvOk(config, client, env)
  {
    hide Inv, WellFormed, Rely, ActorStep;
    forall n: nat, s | Inv(config, s) ensures Inv(config, env(n, s)) && Rely(client, s, env(n, s)) {
      var states, actors :| OthersRun(config, releases, Resetting(client), states, actors, s, env(n, s));
      OthersWithinRely(config, releases, states, actors, client, |states| - 1);
      RunKeepsInv(config, releases, states, actors, 0, |states| - 1);
    }
  }

  lemma PublisherSurroundings(config: ServiceConfig, releases: set<string>, env: (nat, State) -> State)
    requires WellFormed(config)
    requires forall n: nat, s :: Inv(config, s) ==> OthersReach(config, releases, Publishing, s, env(n, s))
    ensures PublisherEnvOk(config, env)
  {
    hide Inv, WellFormed, PublisherRely, ActorStep;
    forall n: nat, s | Inv(config, s) ensures Inv(config, env(n, s)) && PublisherRely(config, s, env(n, s)) {
      var states, actors :| OthersRun(config, releases, Publishing, states, actors, s, env(n, s));
      OthersWithinPublisherRely(config, releases, states, actors, |states| - 1);
      RunKeepsInv(config, releases, states, actors, 0, |states| - 1);
    }
  }

  // ---- Resets beside each other ----

  /** No clone path of another client, for whatever release, is one this client needs for `release`. */
  ghost predicate Apart(config: ServiceConfig, client: Client, release: string) {
    forall c, w, v :: c in config.clients && c != client && w in c.volumes && v in client.volumes ==>
      !(ParentFor(c, w) + "/" + w.name + "__" <= CloneDataset(client, v, release))
  }

  lemma ApartIs(config: ServiceConfig, client: Client, release: string)
    ensures Apart(config, client, release) <==>
              forall c, w, v, r :: c in config.clients && c != client && w in c.volumes && v in client.volumes ==>
                CloneDataset(c, w, r) != CloneDataset(client, v, release)
  {
    if Apart(config, client, release) {
      forall c, w, v, r | c in config.clients && c != client && w in c.volumes && v in client.volumes
        ensures CloneDataset(c, w, r) != CloneDataset(client, v, release)
      {
        assert CloneDataset(c, w, r) == (ParentFor(c, w) + "/" + w.name + "__") + r;
      }
    } else {
      var c, w, v :| c in config.clients && c != client && w in c.volumes && v in client.volumes &&
                     ParentFor(c, w) + "/" + w.name + "__" <= CloneDataset(client, v, release);
      var stem, path := ParentFor(c, w) + "/" + w.name + "__", CloneDataset(client, v, release);
      assert CloneDataset(c, w, path[|stem|..]) == stem + path[|stem|..] == path;
    }
  }

  lemma StepLeavesPaths(
    config: ServiceConfig, releases: set<string>, actor: Actor, client: Client, release: string, s: State, t: State)
    requires Apart(config, client, release)
    requires ActorStep(config, releases, actor, s, t) && actor != Resetting(client)
    ensures PathsFree(client, release, s, t)
  {
    ApartIs(config, client, release);
    hide Apart, CloneDataset;
  }

  lemma {:induction false} OthersLeavePaths(
    config: ServiceConfig, releases: set<string>, states: seq<State>, actors: seq<Actor>, client: Client,
    release: string, k: nat)
    requires Apart(config, client, release) && Run(config, releases, states, actors) && k < |states|
    requires forall i :: 0 <= i < |actors| ==> actors[i] != Resetting(client)
    ensures PathsFree(client, release, states[0], states[k])
  {
    hide Apart, PathsFree, ActorStep;
    if k == 0 {
      PathsFreeReflexive(client, states[0]);
    } else {
      OthersLeavePaths(config, releases, states, actors, client, release, k - 1);
      StepLeavesPaths(config, releases, actors[k - 1], client, release, states[k - 1], states[k]);
      PathsFreeTransitive(client, states[0], states[k - 1], states[k]);
    }
  }

  /** Beside clients with other paths nothing in the system keeps a reset from getting ready. */
  lemma OthersKeepOff(
    config: ServiceConfig, releases: set<string>, client: Client, release: string, env: (nat, State) -> State)
    requires Apart(config, client, release)
    requires forall n: nat, s :: Inv(config, s) ==> OthersReach(config, releases, Resetting(client), s, env(n, s))
    ensures Recovery.KeepsOff(config, client, release, env)
  {
    hide Inv, Apart, PathsFree, ActorStep;
    forall n: nat, s | Inv(config, s) ensures PathsFree(client, release, s, env(n, s)) {
      var states, actors :| OthersRun(config, releases, Resetting(client), states, actors, s, env(n, s));
      OthersLeavePaths(config, releases, states, actors, client, release, |states| - 1);
    }
  }

  /** A run followed by a run, and by one more step. */
  lemma RunAppend(
    config: ServiceConfig, releases: set<string>, a: seq<State>, x: seq<Actor>, b: seq<State>, y: seq<Actor>,
    actor: Actor, t: State)
    requires Run(config, releases, a, x) && Run(config, releases, b, y) && a[|a| - 1] == b[0]
    requires ActorStep(config, releases, actor, b[|b| - 1], t)
    ensures Run(config, releases, a + b[1..] + [t], x + y + [actor])
  {
    hide ActorStep;
    var states, actors := a + b[1..] + [t], x + y + [actor];
    forall i | 0 <= i < |actors| ensures ActorStep(config, releases, actors[i], states[i], states[i + 1]) {
      if i < |x| {
        assert states[i] == a[i] && states[i + 1] == a[i + 1];
      } else if i < |x| + |y| {
        assert states[i] == b[i - |x|] && states[i + 1] == b[i - |x| + 1];
      } else {
        assert states[i] == b[|b| - 1] && states[i + 1] == t;
      }
    }
  }

  /** A run followed by a run of the others and a step keeps all its states, and has the new ones. */
  lemma AppendedStates(a: seq<State>, b: seq<State>, t: State)
    requires a != [] && b != [] && a[|a| - 1] == b[0]
    ensures a <= a + b[1..] + [t]
    ensures b[|b| - 1] in a + b[1..] + [t] && t in a + b[1..] + [t]
    ensures forall s :: s in a ==> s in a + b[1..] + [t]
  {
    var c := a + b[1..] + [t];
    assert c[|a| + |b| - 1] == t;
    assert c[|a| + |b| - 2] == b[|b| - 1];
  }

  /** A run, then others, then one step of `self`. */
  lemma RunContinues(
    config: ServiceConfig, releases: set<string>, self: Actor, a: seq<State>, x: seq<Actor>, s: State, t: State)
    returns (states: seq<State>, actors: seq<Actor>)
    requires Run(config, releases, a, x)
    requires OthersReach(config, releases, self, a[|a| - 1], s) && ActorStep(config, releases, self, s, t)
    ensures Run(config, releases, states, actors) && a <= states
    ensures states[|states| - 1] == t && s in states && t in states
  {
    hide ActorStep;
    var b, y :| OthersRun(config, releases, self, b, y, a[|a| - 1], s);
    RunAppend(config, releases, a, x, b, y, self, t);
    AppendedStates(a, b, t);
    states, actors := a + b[1..] + [t], x + y + [self];
  }

  /**
   * The log of a reset, or of the publisher, with what the others did between its calls, continues any
   * run that led to where it starts: so all that is proved of runs holds of what `prepare` and `stage`
   * do, before and after each of their calls.
   */
  lemma {:induction false} LogIsRun(
    config: ServiceConfig, releases: set<string>, self: Actor, env: (nat, State) -> State, start: State,
    log: seq<Step>, from: nat, k: nat, earlier: seq<State>, movers: seq<Actor>)
    returns (states: seq<State>, actors: seq<Actor>)
    requires WellFormed(config) && Linked(env, start, log) && from <= k <= |log|
    requires forall n: nat, s :: Inv(config, s) ==> OthersReach(config, releases, self, s, env(n, s))
    requires forall i :: from <= i < k ==> ActorStep(config, releases, self, log[i].before, log[i].after)
    requires Run(config, releases, earlier, movers) && Inv(config, earlier[0])
    requires earlier[|earlier| - 1] == StateAfter(start, log, from)
    ensures Run(config, releases, states, actors) && earlier <= states
    ensures states[|states| - 1] == StateAfter(start, log, k)
    ensures forall i :: from <= i < k ==> log[i].before in states && log[i].after in states
    decreases k
  {
    hide Inv, WellFormed, ActorStep, Happens, OthersReach, Grows;
    if k == from {
      states, actors := earlier, movers;
    } else {
      var a, x := LogIsRun(config, releases, self, env, start, log, from, k - 1, earlier, movers);
      var s, step := StateAfter(start, log, k - 1), log[k - 1];
      assert LinkedAt(env, start, log, k - 1);
      RunKeepsInv(config, releases, a, x, 0, |a| - 1);
      assert ActorStep(config, releases, self, log[k - 1].before, log[k - 1].after);
      states, actors := RunContinues(config, releases, self, a, x, env(k - 1, s), step.after);
    }
  }

  /** What the others may do does not depend on the releases the publisher knows. */
  lemma OthersAnyReleases(config: ServiceConfig, releases: set<string>, more: set<string>, s: State, t: State)
    requires OthersReach(config, releases, Publishing, s, t)
    ensures OthersReach(config, more, Publishing, s, t)
  {
    hide PublisherStep, ClientStep, OutsideStep;
    var states, actors :| OthersRun(config, releases, Publishing, states, actors, s, t);
    forall i | 0 <= i < |actors|
      ensures ActorStep(config, more, actors[i], states[i], states[i + 1])
    {
      assert ActorStep(config, releases, actors[i], states[i], states[i + 1]);
    }
    assert OthersRun(config, more, Publishing, states, actors, s, t);
  }
}
