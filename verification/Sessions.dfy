/** management.py: how the iSCSI sessions seen by the storage are attributed to the configured roles. */
module Sessions {
  import opened Results
  import opened Topology
  import opened Storage
  import opened Checker

  /** The identities under which a PC logs in to one target. */
  datatype Role = Role(address: Address, initiator: string, target: string)

  datatype Connection = Disconnected | Connected | Conflict

  function PublisherRole(config: ServiceConfig): Role {
    Role(config.publisher.sourceIp, config.publisher.initiatorIqn, config.publisher.targetIqn)
  }

  function ClientRole(c: Client): Role {
    Role(c.sourceIp, c.initiatorIqn, c.targetIqn)
  }

  ghost predicate Configured(config: ServiceConfig, r: Role) {
    r == PublisherRole(config) || exists c :: c in config.clients && r == ClientRole(c)
  }

  /** The configuration keeps initiator and target names in lower case. */
  ghost predicate LowerCase(config: ServiceConfig) {
    forall r :: Configured(config, r) ==> Lower(r.initiator) == r.initiator && Lower(r.target) == r.target
  }

  lemma {:induction false} LowerIsIdentity(s: string)
    requires NoCapital(s)
    ensures Lower(s) == s
  {
    if s != "" {
      LowerIsIdentity(s[1..]);
    }
  }

  /** The loader lowers every name, so this holds of every configuration it returns. */
  lemma LoadedIsLowerCase(config: ServiceConfig)
    requires Loaded(config)
    ensures LowerCase(config)
  {
    hide PrefixOk, Cidr, DigestOk, NameOk, DatasetOk;
    forall r | Configured(config, r)
      ensures Lower(r.initiator) == r.initiator && Lower(r.target) == r.target
    {
      assert IqnOk(r.initiator) && IqnOk(r.target);
      LowerIsIdentity(r.initiator);
      LowerIsIdentity(r.target);
    }
  }

  predicate Touches(r: Role, s: Session) {
    Matches(s, Lower(r.initiator), r.address, Lower(r.target))
  }

  predicate Exact(r: Role, s: Session) {
    && s.initiatorAddr == r.address
    && Lower(s.initiatorIqn) == Lower(r.initiator)
    && Lower(s.targetIqn) == Lower(r.target)
  }

  function Matching(r: Role, sessions: seq<Session>): seq<Session> {
    if sessions == [] then []
    else if Touches(r, sessions[0]) then [sessions[0]] + Matching(r, sessions[1..])
    else Matching(r, sessions[1..])
  }

  /** _connection_status. */
  function Attribution(r: Role, sessions: seq<Session>): Connection {
    var matching := Matching(r, sessions);
    if matching == [] then Disconnected
    else if |matching| == 1 && Exact(r, matching[0]) then Connected
    else Conflict
  }

  /** _shared_client_session_reason: the client whose session on the shared PC is the only match. */
  function SharedReason(config: ServiceConfig, sessions: seq<Session>): Option<string> {
    var matching := Matching(PublisherRole(config), sessions);
    match SharedClient(config, config.clients)
    case None => None
    case Some(c) =>
      if |matching| == 1
         && matching[0].initiatorAddr == config.publisher.sourceIp
         && Lower(matching[0].initiatorIqn) == config.publisher.initiatorIqn
         && Lower(matching[0].targetIqn) == c.targetIqn
      then Some(c.name)
      else None
  }

  /** shared_publisher_client, looked for in `clients`. */
  function SharedClient(config: ServiceConfig, clients: seq<Client>): Option<Client> {
    if clients == [] then None
    else if SharesAddress(config, clients[0]) && SharesInitiator(config, clients[0]) then Some(clients[0])
    else SharedClient(config, clients[1..])
  }

  // ---- Well-behaved sessions: each is one role's own, and no machine has two

  ghost predicate Attributable(config: ServiceConfig, sessions: seq<Session>) {
    && (forall s :: s in sessions ==> exists r :: Configured(config, r) && Exact(r, s))
    && (forall i, j :: 0 <= i < j < |sessions| ==> sessions[i].initiatorAddr != sessions[j].initiatorAddr)
  }

  /** Two different roles of one PC: the publisher and the client that shares its identities. */
  ghost predicate Partners(config: ServiceConfig, a: Role, b: Role) {
    a != b && a.address == b.address && Configured(config, a) && Configured(config, b)
  }

  lemma RolesApart(config: ServiceConfig, a: Role, b: Role)
    requires Accepted(config) && Configured(config, a) && Configured(config, b)
    ensures a.address == b.address <==> a.initiator == b.initiator
    ensures a.target == b.target ==> a == b
  {
  }

  /** A session of a role touches just the roles on the same PC. */
  lemma TouchesSameMachine(config: ServiceConfig, r: Role, owner: Role, s: Session)
    requires Accepted(config) && LowerCase(config)
    requires Configured(config, r) && Configured(config, owner) && Exact(owner, s)
    ensures Touches(r, s) <==> s.initiatorAddr == r.address
    ensures Exact(r, s) <==> r == owner
  {
  }

  lemma {:induction false} MatchingOne(config: ServiceConfig, r: Role, sessions: seq<Session>)
    requires Accepted(config) && LowerCase(config) && Configured(config, r) && Attributable(config, sessions)
    ensures Matching(r, sessions) == [] || exists s :: s in sessions && Matching(r, sessions) == [s]
    ensures forall s :: s in Matching(r, sessions) <==> s in sessions && s.initiatorAddr == r.address
  {
    hide Accepted, LowerCase, Configured, Exact;
    if sessions != [] {
      var s, rest := sessions[0], sessions[1..];
      assert forall i :: 0 <= i < |rest| ==> rest[i] == sessions[i + 1];
      assert s in sessions && forall t :: t in rest ==> t in sessions;
      forall i, j | 0 <= i < j < |rest|
        ensures rest[i].initiatorAddr != rest[j].initiatorAddr
      {
        assert sessions[i + 1].initiatorAddr != sessions[j + 1].initiatorAddr;
      }
      MatchingOne(config, r, rest);
      var owner :| Configured(config, owner) && Exact(owner, s);
      TouchesSameMachine(config, r, owner, s);
      forall t | t in rest
        ensures t.initiatorAddr != s.initiatorAddr
      {
        var i :| 0 <= i < |rest| && rest[i] == t;
        assert sessions[0].initiatorAddr != sessions[i + 1].initiatorAddr;
      }
    }
  }

  /**
   * A role is connected exactly when its own session is there, in conflict exactly when the other role
   * of the same PC is logged in, and disconnected otherwise.
   */
  lemma Classified(config: ServiceConfig, r: Role, sessions: seq<Session>)
    requires Accepted(config) && LowerCase(config) && Configured(config, r) && Attributable(config, sessions)
    ensures Attribution(r, sessions).Connected? <==> exists s :: s in sessions && Exact(r, s)
    ensures Attribution(r, sessions).Conflict? <==>
              exists s, other :: s in sessions && Partners(config, r, other) && Exact(other, s)
  {
    hide Accepted, LowerCase, Exact;
    MatchingOne(config, r, sessions);
    var matching := Matching(r, sessions);
    forall s, owner | s in sessions && Configured(config, owner) && Exact(owner, s)
      ensures s.initiatorAddr == owner.address
      ensures Exact(r, s) <==> r == owner
      ensures s in matching <==> owner.address == r.address
    {
      ExactAddress(owner, s);
      TouchesSameMachine(config, r, owner, s);
    }
    if exists s :: s in sessions && Exact(r, s) {
      var s :| s in sessions && Exact(r, s);
      assert s in matching && matching == [s];
    }
    if exists s, other :: s in sessions && Partners(config, r, other) && Exact(other, s) {
      var s, other :| s in sessions && Partners(config, r, other) && Exact(other, s);
      assert s in matching && matching == [s] && !Exact(r, s);
    }
    if Attribution(r, sessions).Conflict? {
      var s :| s in sessions && matching == [s];
      var owner :| Configured(config, owner) && Exact(owner, s);
      assert s in matching;
      assert Partners(config, r, owner);
    }
  }

  lemma ExactAddress(r: Role, s: Session)
    requires Exact(r, s)
    ensures s.initiatorAddr == r.address
  {
  }

  /** For any sessions, the guards of the coordinator and the manager pass exactly when nothing is attributed. */
  lemma {:induction false} GuardIsDisconnected(r: Role, sessions: seq<Session>)
    requires Lower(r.initiator) == r.initiator && Lower(r.target) == r.target
    ensures Attribution(r, sessions).Disconnected? <==> NoMatch(sessions, r.initiator, r.address, r.target)
  {
    if sessions != [] {
      GuardIsDisconnected(r, sessions[1..]);
      assert forall s :: s in sessions <==> s == sessions[0] || s in sessions[1..];
    }
  }

  /** The explanation is given exactly for the one session of that client on the publisher's PC. */
  lemma ExplanationIsExact(config: ServiceConfig, sessions: seq<Session>, c: Client)
    requires SharedClient(config, config.clients) == Some(c)
    ensures SharedReason(config, sessions) == Some(c.name) <==>
              exists s :: Matching(PublisherRole(config), sessions) == [s] &&
                s.initiatorAddr == config.publisher.sourceIp &&
                Reads(s.initiatorIqn, config.publisher.initiatorIqn) && Reads(s.targetIqn, c.targetIqn)
  {
    hide Reads, Lower, Matching;
    var matching := Matching(PublisherRole(config), sessions);
    if |matching| == 1 {
      assert matching == [matching[0]];
      LowerMeans(matching[0].initiatorIqn, config.publisher.initiatorIqn);
      LowerMeans(matching[0].targetIqn, c.targetIqn);
    }
  }

  /** The publisher's conflict is always explained: it names the client logged in from the shared PC. */
  lemma ConflictIsExplained(config: ServiceConfig, sessions: seq<Session>)
    requires Accepted(config) && LowerCase(config) && Attributable(config, sessions)
    ensures Attribution(PublisherRole(config), sessions).Conflict? <==> SharedReason(config, sessions).Some?
    ensures SharedReason(config, sessions).Some? ==>
              exists c, s :: c in config.clients && s in sessions && Exact(ClientRole(c), s) &&
                SharedReason(config, sessions) == Some(c.name)
  {
    hide Accepted, LowerCase;
    var r := PublisherRole(config);
    assert Configured(config, r);
    MatchingOne(config, r, sessions);
    Classified(config, r, sessions);
    SharedClientIs(config, config.clients);
    if Attribution(r, sessions).Conflict? {
      var s, other :| s in sessions && Partners(config, r, other) && Exact(other, s);
      var c :| c in config.clients && other == ClientRole(c);
      RolesApart(config, r, other);
      TouchesSameMachine(config, r, other, s);
      assert Lower(other.initiator) == other.initiator && Lower(other.target) == other.target by { Lowered(config, other); }
      var shared := SharedClient(config, config.clients).value;
      OneSharedClient(config, c, shared);
      assert s in Matching(r, sessions);
    }
    if SharedReason(config, sessions).Some? {
      var c := SharedClient(config, config.clients).value;
      var s := Matching(r, sessions)[0];
      Lowered(config, ClientRole(c));
      assert s in Matching(r, sessions);
      assert Exact(ClientRole(c), s);
      TargetsApart(config, c);
      assert Partners(config, r, ClientRole(c));
    }
  }

  lemma TargetsApart(config: ServiceConfig, c: Client)
    requires Accepted(config) && c in config.clients
    ensures c.targetIqn != config.publisher.targetIqn
  {
  }

  lemma Lowered(config: ServiceConfig, r: Role)
    requires LowerCase(config) && Configured(config, r)
    ensures Lower(r.initiator) == r.initiator && Lower(r.target) == r.target
  {
  }

  lemma {:induction false} SharedClientIs(config: ServiceConfig, clients: seq<Client>)
    ensures SharedClient(config, clients).Some? ==>
              var c := SharedClient(config, clients).value;
              c in clients && SharesAddress(config, c) && SharesInitiator(config, c)
    ensures SharedClient(config, clients).None? ==>
              forall c :: c in clients ==> !(SharesAddress(config, c) && SharesInitiator(config, c))
  {
    if clients != [] {
      SharedClientIs(config, clients[1..]);
    }
  }
}
