/** What the cluster can achieve: which nodes can be elected, and whom a replication counts. */
module ClusterProgress {
  import opened ClusterNode
  import opened Cluster
  import opened ClusterSafety

  lemma {:induction false} RunConcat(c: Config, s: State, a: seq<Step>, b: seq<Step>)
    ensures Run(c, s, a + b) == Run(c, Run(c, s, a), b)
  {
    if b == [] {
      assert a + b == a;
    } else {
      assert (a + b)[..|a + b| - 1] == a + b[..|b| - 1];
      RunConcat(c, s, a, b[..|b| - 1]);
    }
  }

  lemma RunTwo(c: Config, s: State, a: Step, b: Step)
    ensures Run(c, s, [a, b]) == Apply(c, Apply(c, s, a), b)
  {
    assert [a, b][..1] == [a] && [a][..0] == [];
    assert Run(c, s, [a]) == Apply(c, s, a);
  }

  // ---------------------------------------------------------------------------
  // Elections
  // ---------------------------------------------------------------------------

  /** The nodes that grant votes. */
  ghost function Electorate(c: Config): set<Address> {
    set n | n in c && !c[n].designated
  }

  ghost predicate LeadsAfter(c: Config, steps: seq<Step>, n: Address) {
    n in Run(c, Init(c), steps).node && Run(c, Init(c), steps).node[n].role == Leader
  }

  /** Node `n` campaigns in term 1: those in `voted` have voted for it, the others have not been asked yet. */
  ghost predicate Campaigns(c: Config, s: State, n: Address, voted: set<Address>)
    requires n in c
  {
    && s.node.Keys == c.Keys && s.node[n].term == 1
    && s.node[n].role != Follower
    && (s.node[n].role == Candidate ==>
          s.node[n].votes == 1 + |voted| && (voted == {} || s.node[n].votes < Quorum(c[n].nodesEnv)))
    && forall p | p in Electorate(c) - voted - {n} ::
         s.node[p] == NodeState(Follower, 0, "", 0) && Ballot(n, 1, p) in s.requests
  }

  lemma CampaignStarts(c: Config, n: Address)
    requires n in c && !c[n].designated
    ensures Campaigns(c, Apply(c, Init(c), Elect(n)), n, {})
  {
  }

  /** Another node votes, and its vote is counted. */
  lemma CampaignGoesOn(c: Config, s: State, n: Address, voted: set<Address>, p: Address)
    requires n in c && !c[n].designated && Campaigns(c, s, n, voted) && p in Electorate(c) - voted - {n}
    ensures Campaigns(c, Apply(c, Apply(c, s, Vote(Ballot(n, 1, p))), Tally(Ballot(n, 1, p))), n, voted + {p})
  {
    var b := Ballot(n, 1, p);
    var s1 := Apply(c, s, Vote(b));
    assert s1.node[p] == NodeState(Follower, 1, n, 0) && b in s1.grants && s1.node[n] == s.node[n];
    assert |voted + {p}| == |voted| + 1;
    var s2 := Apply(c, s1, Tally(b));
    forall x | x in Electorate(c) - (voted + {p}) - {n}
      ensures s2.node[x] == NodeState(Follower, 0, "", 0) && Ballot(n, 1, x) in s2.requests
    {
      assert x in Electorate(c) - voted - {n};
    }
  }

  lemma CampaignEnds(c: Config, s: State, n: Address, voted: set<Address>) returns (steps: seq<Step>)
    requires n in c && !c[n].designated && voted <= Electorate(c) - {n} && Campaigns(c, s, n, voted)
    ensures Campaigns(c, Run(c, s, steps), n, Electorate(c) - {n})
    decreases Electorate(c) - {n} - voted
  {
    var rest := Electorate(c) - {n} - voted;
    if rest == {} {
      assert voted == Electorate(c) - {n};
      steps := [];
    } else {
      var p :| p in rest;
      var first := [Vote(Ballot(n, 1, p)), Tally(Ballot(n, 1, p))];
      CampaignGoesOn(c, s, n, voted, p);
      RunTwo(c, s, first[0], first[1]);
      var more := CampaignEnds(c, Run(c, s, first), n, voted + {p});
      RunConcat(c, s, first, more);
      steps := first + more;
    }
  }

  /** With a quorum among those who grant votes, a node that asks them all leads term 1. */
  lemma CanBeElected(c: Config, n: Address) returns (steps: seq<Step>)
    requires n in c && !c[n].designated
    requires |Electorate(c)| >= 2 && Quorum(c[n].nodesEnv) <= |Electorate(c)|
    ensures LeadsAfter(c, steps, n) && Run(c, Init(c), steps).node[n].term == 1
  {
    CampaignStarts(c, n);
    assert [Elect(n)][..0] == [];
    assert Run(c, Init(c), [Elect(n)]) == Apply(c, Init(c), Elect(n));
    var more := CampaignEnds(c, Run(c, Init(c), [Elect(n)]), n, {});
    RunConcat(c, Init(c), [Elect(n)], more);
    steps := [Elect(n)] + more;
    assert |Electorate(c) - {n}| == |Electorate(c)| - 1;
  }

  /** Grants come from those who grant votes, and whoever leads by election has counted at least one. */
  ghost predicate SeatOk(c: Config, s: State, n: Address)
    requires n in c && n in s.node
  {
    s.node[n].role == Leader && !c[n].designated ==> s.node[n].votes >= 2 && s.node[n].votes >= Quorum(c[n].nodesEnv)
  }

  ghost predicate SeatsOk(c: Config, s: State) {
    && (forall b | b in s.grants || b in s.tallied :: b.voter in Electorate(c))
    && (forall n | n in c && n in s.node :: SeatOk(c, s, n))
  }

  /** A move that makes nobody leader keeps the seats. */
  lemma MoveKeepsSeats(c: Config, s: State, s': State, n: Address)
    requires SeatsOk(c, s) && n in s.node && n in s'.node && s'.node == s.node[n := s'.node[n]]
    requires s'.node[n].role == Leader ==> s.node[n].role == Leader && s'.node[n].votes == s.node[n].votes
    requires forall b | b in s'.grants || b in s'.tallied :: b.voter in Electorate(c)
    ensures SeatsOk(c, s')
  {
    forall x | x in c && x in s'.node
      ensures SeatOk(c, s', x)
    {
      assert SeatOk(c, s, x);
    }
  }

  lemma VoteKeepsSeats(c: Config, s: State, b: Ballot)
    requires SeatsOk(c, s)
    ensures SeatsOk(c, ApplyVote(c, s, b))
  {
    if b in s.requests && b.voter in c && b.voter in s.node {
      MoveKeepsSeats(c, s, ApplyVote(c, s, b), b.voter);
    }
  }

  lemma TallyKeepsSeats(c: Config, s: State, b: Ballot)
    requires Inv(c, s) && SeatsOk(c, s)
    ensures SeatsOk(c, ApplyTally(c, s, b))
  {
    var s' := ApplyTally(c, s, b);
    if b in s.grants && b.candidate in c && b.candidate in s.node {
      assert RoleOk(c, s, b.candidate);
      forall n | n in c && n in s'.node
        ensures SeatOk(c, s', n)
      {
        assert SeatOk(c, s, n);
      }
    }
  }

  lemma SameNodesKeepSeats(c: Config, s: State, s': State)
    requires SeatsOk(c, s) && s'.node == s.node && s'.grants == s.grants && s'.tallied == s.tallied
    ensures SeatsOk(c, s')
  {
    forall n | n in c && n in s'.node
      ensures SeatOk(c, s', n)
    {
      assert SeatOk(c, s, n);
    }
  }

  lemma ElectKeepsSeats(c: Config, s: State, n: Address)
    requires SeatsOk(c, s)
    ensures SeatsOk(c, ApplyElect(c, s, n))
  {
    if n in s.node { MoveKeepsSeats(c, s, ApplyElect(c, s, n), n); }
  }

  lemma HeartbeatKeepsSeats(c: Config, s: State, n: Address, term: int, leader: Address)
    requires SeatsOk(c, s)
    ensures SeatsOk(c, ApplyHeartbeat(s, n, term, leader))
  {
    if n in s.node { MoveKeepsSeats(c, s, ApplyHeartbeat(s, n, term, leader), n); }
  }

  lemma DeliverKeepsSeats(c: Config, s: State, id: nat, p: Address, decodes: bool)
    requires SeatsOk(c, s)
    ensures SeatsOk(c, ApplyDeliver(s, id, p, decodes))
  {
    if p in s.node { MoveKeepsSeats(c, s, ApplyDeliver(s, id, p, decodes), p); }
  }

  lemma StepKeepsSeats(c: Config, s: State, step: Step)
    requires Inv(c, s) && SeatsOk(c, s)
    ensures SeatsOk(c, Apply(c, s, step))
  {
    match step
    case Elect(n) => ElectKeepsSeats(c, s, n);
    case Vote(b) => VoteKeepsSeats(c, s, b);
    case Tally(b) => TallyKeepsSeats(c, s, b);
    case Heartbeat(n, term, leader) => HeartbeatKeepsSeats(c, s, n, term, leader);
    case Deliver(id, p, decodes) => DeliverKeepsSeats(c, s, id, p, decodes);
    case _ => SameNodesKeepSeats(c, s, Apply(c, s, step));
  }

  lemma {:induction false} RunKeepsSeats(c: Config, steps: seq<Step>)
    requires ValidConfig(c)
    ensures SeatsOk(c, Run(c, Init(c), steps))
  {
    if steps == [] {
    } else {
      var shorter := steps[..|steps| - 1];
      RunKeepsSeats(c, shorter);
      Reachable(c, shorter);
      StepKeepsSeats(c, Run(c, Init(c), shorter), steps[|steps| - 1]);
    }
  }

  lemma LeaderHasElectorate(c: Config, s: State, n: Address)
    requires Inv(c, s) && SeatsOk(c, s) && n in c && !c[n].designated && n in s.node && s.node[n].role == Leader
    ensures |Electorate(c)| >= 2 && Quorum(c[n].nodesEnv) <= |Electorate(c)|
  {
    var voters := VotersIn(c, s.tallied, n, s.node[n].term);
    assert RoleOk(c, s, n) && SeatOk(c, s, n);
    forall v | v in voters
      ensures v in Electorate(c) - {n}
    {
      assert BallotOk(c, s, Ballot(n, s.node[n].term, v));
    }
    SubsetSize(voters, Electorate(c) - {n});
    assert |Electorate(c) - {n}| == |Electorate(c)| - 1;
  }

  /** A node that is not designated can come to lead exactly when there is another one like it and its quorum is no
      larger than their number: the designated leader grants no vote, and without a grant nobody is elected. */
  lemma ElectableExactlyWhen(c: Config, n: Address)
    requires ValidConfig(c) && n in c && !c[n].designated
    ensures (exists steps :: LeadsAfter(c, steps, n)) <==>
            |Electorate(c)| >= 2 && Quorum(c[n].nodesEnv) <= |Electorate(c)|
  {
    if |Electorate(c)| >= 2 && Quorum(c[n].nodesEnv) <= |Electorate(c)| {
      var steps := CanBeElected(c, n);
    }
    if steps :| LeadsAfter(c, steps, n) {
      Reachable(c, steps);
      RunKeepsSeats(c, steps);
      LeaderHasElectorate(c, Run(c, Init(c), steps), n);
    }
  }

  // ---------------------------------------------------------------------------
  // Replication
  // ---------------------------------------------------------------------------

  /** The peers that accept `n` as the leader of term `t`. */
  ghost function Trusting(s: State, peers: set<Address>, n: Address, t: nat): set<Address> {
    set p | p in peers && p in s.node && Trusts(s.node[p], t, n)
  }

  /** Call `id` has been delivered to those in `done`, and the acknowledgements of those who trust it are counted. */
  ghost predicate Delivered(s: State, s': State, id: nat, n: Address, t: nat, alive: set<Address>, done: set<Address>) {
    && id in s'.calls && s'.calls[id] == Call(n, t, alive, alive - done, {}, Trusting(s, done, n, t))
    && s'.node.Keys == s.node.Keys && forall p | p in alive - done && p in s.node :: s'.node[p] == s.node[p]
  }

  lemma DeliveryGoesOn(c: Config, s: State, s': State, id: nat, n: Address, t: nat, alive: set<Address>,
                       done: set<Address>, p: Address)
    requires Delivered(s, s', id, n, t, alive, done) && p in alive - done && alive <= s.node.Keys
    ensures Delivered(s, Apply(c, Apply(c, s', Deliver(id, p, true)), Acknowledge(id, p)), id, n, t, alive, done + {p})
  {
    var s1 := Apply(c, s', Deliver(id, p, true));
    var s2 := Apply(c, s1, Acknowledge(id, p));
    assert s1.calls[id].acked == if Trusts(s.node[p], t, n) then {p} else {};
    assert s2.calls[id].unreached == alive - (done + {p});
    assert s2.calls[id].counted == Trusting(s, done + {p}, n, t);
    assert s2.calls[id].acked == {};
  }

  lemma DeliveryEnds(c: Config, s: State, s': State, id: nat, n: Address, t: nat, alive: set<Address>,
                     done: set<Address>) returns (steps: seq<Step>)
    requires Delivered(s, s', id, n, t, alive, done) && done <= alive <= s.node.Keys
    ensures Delivered(s, Run(c, s', steps), id, n, t, alive, alive)
    decreases alive - done
  {
    if done == alive {
      steps := [];
    } else {
      var p :| p in alive - done;
      var first := [Deliver(id, p, true), Acknowledge(id, p)];
      DeliveryGoesOn(c, s, s', id, n, t, alive, done, p);
      RunTwo(c, s', first[0], first[1]);
      var more := DeliveryEnds(c, s, Run(c, s', first), id, n, t, alive, done + {p});
      RunConcat(c, s', first, more);
      steps := first + more;
    }
  }

  /** A replication that reaches everybody it found alive counts exactly those who accept its leader and term, and
      succeeds if they and the leader make up the quorum. */
  lemma ReplicationCountsTheTrusting(c: Config, s: State, n: Address, id: nat, alive: set<Address>)
      returns (steps: seq<Step>)
    requires n in c && n in s.node && s.node[n].role == Leader && id !in s.calls
    requires alive <= c.Keys - {n} && alive <= s.node.Keys
    ensures var s', t := Run(c, s, [Replicate(id, n, alive)] + steps), s.node[n].term;
            && id in s'.calls && s'.calls[id].leader == n && s'.calls[id].term == t
            && s'.calls[id].counted == Trusting(s, alive, n, t)
            && (alive != {} ==>
                  (Succeeds(c, s'.calls[id]) <==> 1 + |Trusting(s, alive, n, t)| >= Quorum(c[n].nodesEnv)))
  {
    var start := [Replicate(id, n, alive)];
    var t := s.node[n].term;
    assert start[..0] == [];
    assert Run(c, s, start) == ApplyReplicate(c, s, id, n, alive);
    assert alive - {} == alive;
    assert Delivered(s, Run(c, s, start), id, n, t, alive, {});
    steps := DeliveryEnds(c, s, Run(c, s, start), id, n, t, alive, {});
    RunConcat(c, s, start, steps);
  }
}
