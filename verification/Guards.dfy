/** Who must not be logged in while extents are switched, and what a log shows of it. */
module Guards {
  import opened Results
  import opened Topology
  import opened Storage
  import opened Protocol
  import opened Backends

  datatype Guard = Guard(initiatorIqn: string, sourceIp: Address, targetIqn: string, extents: set<nat>)

  /** No session matches by any of the three identities. */
  ghost predicate Empty(g: Guard, s: State) {
    NoMatch(s.sessions, g.initiatorIqn, g.sourceIp, g.targetIqn)
  }

  /** A session list that showed nobody logged in. */
  ghost predicate SeenClear(g: Guard, step: Step) {
    step.op == ListSessions && !step.raised && Empty(g, step.after)
  }

  /** Calls that look at the storage or switch an extent off where it is. */
  predicate Closes(op: Op) {
    IsRead(op) || (op.UpdateExtent? && op.enabled == Some(false) && op.disk == None)
  }

  ghost predicate OnlyCloses(from: nat, log: seq<Step>) {
    forall i :: from <= i < |log| ==> Closes(log[i].op)
  }

  /**
   * Since `from` the log does no more than switch extents off, or it first has a list without a matching
   * session, taken when all the guarded extents were off.
   */
  ghost predicate Quieted(g: Guard, from: nat, log: seq<Step>) {
    OnlyCloses(from, log) ||
    exists m :: from <= m < |log| && SeenClear(g, log[m]) && AllDisabled(g.extents, log[m].after) &&
                OnlyCloses(from, log[..m])
  }

  lemma ClosedIsQuieted(g: Guard, from: nat, log: seq<Step>)
    requires OnlyCloses(from, log)
    ensures Quieted(g, from, log)
  {
  }

  lemma QuietedBy(g: Guard, from: nat, log: seq<Step>, later: seq<Step>)
    requires from < |log| && OnlyCloses(from, log) && log <= later
    requires SeenClear(g, log[|log| - 1]) && AllDisabled(g.extents, log[|log| - 1].after)
    ensures Quieted(g, from, later)
  {
    var m := |log| - 1;
    assert later[m] == log[m] && OnlyCloses(from, later[..m]);
  }

  lemma QuietedLater(g: Guard, from: nat, log: seq<Step>, later: seq<Step>)
    requires Quieted(g, from, log) && log <= later
    requires OnlyCloses(|log|, later) || !OnlyCloses(from, log)
    ensures Quieted(g, from, later)
  {
    if !OnlyCloses(from, log) {
      var m :| from <= m < |log| && SeenClear(g, log[m]) && AllDisabled(g.extents, log[m].after) &&
               OnlyCloses(from, log[..m]);
      assert later[m] == log[m] && later[..m] == log[..m];
    }
  }

  lemma QuietedSince(g: Guard, from: nat, since: nat, log: seq<Step>)
    requires Quieted(g, from, log) && since <= from <= |log| && OnlyCloses(since, log[..from])
    ensures Quieted(g, since, log)
  {
    hide AllDisabled, SeenClear;
    if OnlyCloses(from, log) {
      forall i | since <= i < |log| ensures Closes(log[i].op) {
        if i < from { assert log[..from][i] == log[i]; }
      }
    } else {
      var m :| from <= m < |log| && SeenClear(g, log[m]) && AllDisabled(g.extents, log[m].after) &&
               OnlyCloses(from, log[..m]);
      forall i | since <= i < m ensures Closes(log[..m][i].op) {
        if i < from { assert log[..from][i] == log[i]; }
      }
    }
  }

  /** Some session list since `from` showed nobody logged in. */
  ghost predicate SeenNobody(g: Guard, from: nat, log: seq<Step>) {
    exists i :: from <= i < |log| && SeenClear(g, log[i])
  }

  lemma SeenNobodyAt(g: Guard, from: nat, i: nat, log: seq<Step>, later: seq<Step>)
    requires from <= i < |log| && SeenClear(g, log[i]) && log <= later
    ensures SeenNobody(g, from, later)
  {
    assert later[i] == log[i];
  }

  /** Some session list since `from` showed a matching session. */
  ghost predicate SeenActive(g: Guard, from: nat, log: seq<Step>) {
    exists i :: from <= i < |log| && log[i].op == ListSessions && !log[i].raised && !Empty(g, log[i].after)
  }

  lemma SeenActiveLater(g: Guard, from: nat, since: nat, log: seq<Step>, later: seq<Step>)
    requires SeenActive(g, from, log) && since <= from && log <= later
    ensures SeenActive(g, since, later)
  {
    var i :| from <= i < |log| && log[i].op == ListSessions && !log[i].raised && !Empty(g, log[i].after);
    assert later[i] == log[i];
  }

  lemma OnlyClosesJoin(from: nat, log: seq<Step>, later: seq<Step>)
    requires OnlyCloses(from, log) && log <= later && OnlyCloses(|log|, later)
    ensures OnlyCloses(from, later)
  {
  }
}
