/**
 * backends/mock.py: the storage backend as an object. Every call is a point where other tasks may
 * run first (`env`), and an adversary decides by call number how the call fares (`faults`); a crash
 * after some call is an adversary that fails every later one. `trace` is the ghost of `calls`.
 */
module Backends {
  import opened Results
  import opened Topology
  import opened Storage

  ghost function StateAfter(start: State, log: seq<Step>, i: nat): State
    requires i <= |log|
  {
    if i == 0 then start else log[i - 1].after
  }

  ghost predicate LinkedAt(env: (nat, State) -> State, start: State, log: seq<Step>, i: nat)
    requires i < |log|
  {
    && log[i].before == env(i, StateAfter(start, log, i))
    && Happens(log[i].op, log[i].before, log[i].after, log[i].raised, log[i].fault)
  }

  ghost predicate Linked(env: (nat, State) -> State, start: State, log: seq<Step>) {
    forall i :: 0 <= i < |log| ==> LinkedAt(env, start, log, i)
  }

  lemma LinkedNext(env: (nat, State) -> State, start: State, log: seq<Step>, step: Step)
    requires Linked(env, start, log) && step.before == env(|log|, StateAfter(start, log, |log|))
    requires Happens(step.op, step.before, step.after, step.raised, step.fault)
    ensures Linked(env, start, log + [step])
  {
    hide Happens;
    var next := log + [step];
    forall i | 0 <= i < |next| ensures LinkedAt(env, start, next, i) {
      if i < |log| {
        assert next[i] == log[i] && LinkedAt(env, start, log, i);
        assert StateAfter(start, next, i) == StateAfter(start, log, i);
      }
    }
  }

  lemma SameUpTo(start: State, before: seq<Step>, log: seq<Step>)
    requires before <= log
    ensures StateAfter(start, before, |before|) == StateAfter(start, log, |before|)
  {
  }

  /** Calls that change nothing, in surroundings that do nothing, leave the state as it is. */
  lemma {:induction false} LooksLeave(env: (nat, State) -> State, start: State, before: seq<Step>, log: seq<Step>)
    requires Linked(env, start, log) && before <= log
    requires forall n: nat, s :: env(n, s) == s
    requires forall i :: |before| <= i < |log| ==> log[i].after == log[i].before
    ensures StateAfter(start, log, |log|) == StateAfter(start, before, |before|)
  {
    hide Happens;
    if |before| < |log| {
      var rest := log[..|log| - 1];
      forall i | 0 <= i < |rest| ensures LinkedAt(env, start, rest, i) {
        assert LinkedAt(env, start, log, i) && rest[i] == log[i];
      }
      LooksLeave(env, start, before, rest);
      assert LinkedAt(env, start, log, |log| - 1);
    }
  }

  class Backend {
    var snapshots: map<SnapshotId, Content>
    var datasets: map<string, Dataset>
    var extents: map<nat, Extent>
    var sessions: seq<Session>
    var luns: map<string, seq<TargetLun>>
    var calls: nat
    var faults: nat -> Fault
    const env: (nat, State) -> State
    ghost var trace: seq<Step>
    ghost const start: State

    function View(): State
      reads this
    {
      State(snapshots, datasets, extents, sessions, luns)
    }

    /** The n-th call: the others move, then the call happens, and it is logged. */
    ghost predicate Logged(op: Op, n: nat, view: State, log: seq<Step>, raised: bool)
      reads this
    {
      && trace == log + [Step(op, env(n, view), View(), raised, faults(n))]
      && Happens(op, env(n, view), View(), raised, faults(n))
    }

    /** The log is the whole history: each call starts where the others left what the last one left. */
    ghost predicate Consistent()
      reads this
    {
      calls == |trace| && View() == StateAfter(start, trace, |trace|) && Linked(env, start, trace)
    }

    constructor (s: State, faults: nat -> Fault, env: (nat, State) -> State)
      ensures View() == s && this.faults == faults && this.env == env && trace == [] && calls == 0 && Consistent()
    {
      snapshots, datasets, extents, sessions, luns := s.snapshots, s.datasets, s.extents, s.sessions, s.luns;
      calls := 0;
      this.faults := faults;
      this.env := env;
      trace := [];
      start := s;
    }

    /** What a test harness does with failpoints and fail_at_calls. */
    method SetFaults(faults: nat -> Fault)
      modifies this
      ensures View() == old(View()) && calls == old(calls) && trace == old(trace) && this.faults == faults
      ensures old(Consistent()) ==> Consistent()
    {
      this.faults := faults;
    }

    /** Appends the call that took the state `view` left by the last one. */
    ghost method Log(view: State, op: Op, raised: bool, fault: Fault)
      requires calls > 0 && Happens(op, env(calls - 1, view), View(), raised, fault)
      modifies this`trace
      ensures trace == old(trace) + [Step(op, env(calls - 1, view), View(), raised, fault)]
      ensures (calls - 1 == |old(trace)| && view == StateAfter(start, old(trace), |old(trace)|) &&
               Linked(env, start, old(trace))) ==> Consistent()
    {
      hide Happens, Linked;
      var step := Step(op, env(calls - 1, view), View(), raised, fault);
      if calls - 1 == |trace| && view == StateAfter(start, trace, |trace|) && Linked(env, start, trace) {
        LinkedNext(env, start, trace, step);
      }
      trace := trace + [step];
    }

    method Begin() returns (fault: Fault)
      modifies this
      ensures View() == env(old(calls), old(View()))
      ensures calls == old(calls) + 1 && faults == old(faults) && trace == old(trace)
      ensures fault == faults(old(calls))
    {
      fault := faults(calls);
      var s := env(calls, View());
      snapshots, datasets, extents, sessions, luns := s.snapshots, s.datasets, s.extents, s.sessions, s.luns;
      calls := calls + 1;
    }

    method Ping() returns (r: Result<()>)
      modifies this
      ensures calls == old(calls) + 1 && faults == old(faults)
      ensures old(Consistent()) ==> Consistent()
      ensures Logged(Op.Ping, old(calls), old(View()), old(trace), r.Err?)
      ensures r.Err? ==> r.error == BackendError
      ensures r.Ok? ==> View() == env(old(calls), old(View()))
    {
      ghost var view := View();
      var fault := Begin();
      if fault.RaiseBefore? || fault.RaiseAfter? {
        Log(view, Op.Ping, true, fault);
        return Err(BackendError);
      }
      Log(view, Op.Ping, false, fault);
      r := Ok(());
    }

    method ListSessions() returns (r: Result<seq<Session>>)
      modifies this
      ensures calls == old(calls) + 1 && faults == old(faults)
      ensures old(Consistent()) ==> Consistent()
      ensures Logged(Op.ListSessions, old(calls), old(View()), old(trace), r.Err?)
      ensures r.Err? ==> r.error == BackendError
      ensures r.Ok? ==> r.value == View().sessions
    {
      ghost var view := View();
      var fault := Begin();
      if fault.RaiseBefore? || fault.RaiseAfter? {
        Log(view, Op.ListSessions, true, fault);
        return Err(BackendError);
      }
      Log(view, Op.ListSessions, false, fault);
      r := Ok(sessions);
    }

    method TargetLuns(iqn: string) returns (r: Result<seq<TargetLun>>)
      modifies this
      ensures calls == old(calls) + 1 && faults == old(faults)
      ensures old(Consistent()) ==> Consistent()
      ensures Logged(Op.TargetLuns(iqn), old(calls), old(View()), old(trace), r.Err?)
      ensures r.Err? ==> r.error == BackendError
      ensures r.Ok? ==> r.value == LunTable(View().luns, iqn)
    {
      ghost var view := View();
      var fault := Begin();
      if fault.RaiseBefore? || fault.RaiseAfter? {
        Log(view, Op.TargetLuns(iqn), true, fault);
        return Err(BackendError);
      }
      Log(view, Op.TargetLuns(iqn), false, fault);
      r := Ok(LunTable(luns, iqn));
    }

    method GetExtent(id: nat) returns (r: Result<Extent>)
      modifies this
      ensures calls == old(calls) + 1 && faults == old(faults)
      ensures old(Consistent()) ==> Consistent()
      ensures Logged(Op.GetExtent(id), old(calls), old(View()), old(trace), r.Err?)
      ensures r.Err? ==> r.error == BackendError
      ensures r.Ok? ==> id in View().extents && r.value == View().extents[id]
    {
      ghost var view := View();
      var fault := Begin();
      if fault.RaiseBefore? || fault.RaiseAfter? || id !in extents {
        Log(view, Op.GetExtent(id), true, fault);
        return Err(BackendError);
      }
      Log(view, Op.GetExtent(id), false, fault);
      r := Ok(extents[id]);
    }

    method SnapshotExists(snapshot: SnapshotId) returns (r: Result<bool>)
      modifies this
      ensures calls == old(calls) + 1 && faults == old(faults)
      ensures old(Consistent()) ==> Consistent()
      ensures Logged(Op.SnapshotExists(snapshot), old(calls), old(View()), old(trace), r.Err?)
      ensures r.Err? ==> r.error == BackendError
      ensures r.Ok? ==> r.value == (snapshot in View().snapshots)
    {
      ghost var view := View();
      var fault := Begin();
      if fault.RaiseBefore? || fault.RaiseAfter? {
        Log(view, Op.SnapshotExists(snapshot), true, fault);
        return Err(BackendError);
      }
      Log(view, Op.SnapshotExists(snapshot), false, fault);
      r := Ok(snapshot in snapshots);
    }

    method GetDataset(name: string) returns (r: Result<Option<Dataset>>)
      modifies this
      ensures calls == old(calls) + 1 && faults == old(faults)
      ensures old(Consistent()) ==> Consistent()
      ensures Logged(Op.GetDataset(name), old(calls), old(View()), old(trace), r.Err?)
      ensures r.Err? ==> r.error == BackendError
      ensures r.Ok? ==> r.value == if name in View().datasets then Some(View().datasets[name]) else None
    {
      ghost var view := View();
      var fault := Begin();
      if fault.RaiseBefore? || fault.RaiseAfter? {
        Log(view, Op.GetDataset(name), true, fault);
        return Err(BackendError);
      }
      Log(view, Op.GetDataset(name), false, fault);
      r := Ok(if name in datasets then Some(datasets[name]) else None);
    }

    method CloneSnapshot(source: SnapshotId, destination: string, props: map<Property, string>) returns (r: Result<()>)
      modifies this
      ensures calls == old(calls) + 1 && faults == old(faults)
      ensures old(Consistent()) ==> Consistent()
      ensures Logged(Op.CloneSnapshot(source, destination, props), old(calls), old(View()), old(trace), r.Err?)
      ensures r.Err? ==> r.error == BackendError
    {
      ghost var view := View();
      var fault := Begin();
      if fault.RaiseBefore? || source !in snapshots || destination in datasets {
        Log(view, Op.CloneSnapshot(source, destination, props), true, fault);
        return Err(BackendError);
      }
      datasets := datasets[destination := Dataset(Some(source), props, snapshots[source])];
      Log(view, Op.CloneSnapshot(source, destination, props), fault.RaiseAfter?, fault);
      r := if fault.RaiseAfter? then Err(BackendError) else Ok(());
    }

    method CreateSnapshot(dataset: string, name: string) returns (r: Result<()>)
      modifies this
      ensures calls == old(calls) + 1 && faults == old(faults)
      ensures old(Consistent()) ==> Consistent()
      ensures Logged(Op.CreateSnapshot(dataset, name), old(calls), old(View()), old(trace), r.Err?)
      ensures r.Err? ==> r.error == BackendError
    {
      ghost var view := View();
      var fault := Begin();
      if fault.RaiseBefore? || dataset !in datasets || At(dataset, name) in snapshots {
        Log(view, Op.CreateSnapshot(dataset, name), true, fault);
        return Err(BackendError);
      }
      snapshots := snapshots[At(dataset, name) := datasets[dataset].content];
      Log(view, Op.CreateSnapshot(dataset, name), fault.RaiseAfter?, fault);
      r := if fault.RaiseAfter? then Err(BackendError) else Ok(());
    }

    method RollbackSnapshot(target: SnapshotId) returns (r: Result<()>)
      modifies this
      ensures calls == old(calls) + 1 && faults == old(faults)
      ensures old(Consistent()) ==> Consistent()
      ensures Logged(Op.RollbackSnapshot(target), old(calls), old(View()), old(trace), r.Err?)
      ensures r.Err? ==> r.error == BackendError
    {
      ghost var view := View();
      var fault := Begin();
      if fault.RaiseBefore? || target !in snapshots || target.dataset !in datasets {
        Log(view, Op.RollbackSnapshot(target), true, fault);
        return Err(BackendError);
      }
      datasets := datasets[target.dataset := datasets[target.dataset].(content := snapshots[target])];
      Log(view, Op.RollbackSnapshot(target), fault.RaiseAfter?, fault);
      r := if fault.RaiseAfter? then Err(BackendError) else Ok(());
    }

    method UpdateExtent(id: nat, enabled: Option<bool>, disk: Option<string>) returns (r: Result<Extent>)
      modifies this
      ensures calls == old(calls) + 1 && faults == old(faults)
      ensures old(Consistent()) ==> Consistent()
      ensures Logged(Op.UpdateExtent(id, enabled, disk), old(calls), old(View()), old(trace), r.Err?)
      ensures r.Err? ==> r.error == BackendError
      ensures r.Ok? ==> id in View().extents && r.value == View().extents[id]
    {
      ghost var view := View();
      var fault := Begin();
      if fault.RaiseBefore? || id !in extents {
        Log(view, Op.UpdateExtent(id, enabled, disk), true, fault);
        return Err(BackendError);
      }
      var extent := extents[id];
      if enabled.Some? { extent := extent.(enabled := enabled.value); }
      if disk.Some? { extent := extent.(disk := NormalizeZvol(disk.value)); }
      if fault.Reidentify? { extent := extent.(naa := fault.naa, serial := fault.serial); }
      extents := extents[id := extent];
      Log(view, Op.UpdateExtent(id, enabled, disk), fault.RaiseAfter?, fault);
      r := if fault.RaiseAfter? then Err(BackendError) else Ok(extents[id]);
    }
  }
}
