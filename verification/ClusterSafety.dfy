/** What every run of the cluster guarantees: one leader per term, one source of replicated messages per
    term, acknowledgements by a majority, and fencing of deposed leaders. */
module ClusterSafety {
  import opened ClusterNode
  import opened Cluster

  /** Every state of every run satisfies the invariant. */
  lemma Reachable(c: Config, steps: seq<Step>)
    requires ValidConfig(c)
    ensures Inv(c, Run(c, Init(c), steps))
  {
    InitInv(c);
    RunKeepsInv(c, Init(c), steps);
  }

  lemma ClusterBelowTwoQuorums(c: Config, n: Address, m: Address)
    requires ValidConfig(c) && n in c && m in c
    ensures |c.Keys| < Quorum(c[n].nodesEnv) + Quorum(c[m].nodesEnv)
  {
    forall x | x in {n, m}
      ensures |c.Keys| < 2 * Quorum(c[x].nodesEnv)
    {
      QuorumIsMajority(c[x].nodesEnv, c[x].own);
      assert |c.Keys - {x}| == |c.Keys| - 1;
    }
  }

  /** Two groups of nodes that together outnumber the cluster share a node. */
  lemma GroupsMeet(c: Config, a: set<Address>, b: set<Address>) returns (v: Address)
    requires a <= c.Keys && b <= c.Keys && |a| + |b| > |c.Keys|
    ensures v in a && v in b
  {
    assert |a + b| == |a| + |b| - |a * b|;
    SubsetSize(a + b, c.Keys);
    v :| v in a * b;
  }

  lemma OneReignPerTerm(c: Config, s: State, r: Reign, r': Reign)
    requires ValidConfig(c) && Inv(c, s)
    requires r in s.led && r' in s.led && r.term == r'.term
    ensures r == r'
  {
    assert ReignOk(c, s, r) && ReignOk(c, s, r');
    if r.term != 0 {
      var a, b := VotersIn(c, s.votes, r.leader, r.term), VotersIn(c, s.votes, r'.leader, r'.term);
      ClusterBelowTwoQuorums(c, r.leader, r'.leader);
      var v := GroupsMeet(c, a, b);
      assert Ballot(r.leader, r.term, v) in s.votes && Ballot(r'.leader, r'.term, v) in s.votes;
    }
  }

  /** Election safety: over a whole run, whatever was lost, delayed or reordered, no term ever had two
      leaders; in particular no two nodes lead the same term at once. */
  lemma ElectionSafety(c: Config, steps: seq<Step>)
    requires ValidConfig(c)
    ensures var s := Run(c, Init(c), steps);
            && (forall r, r' | r in s.led && r' in s.led && r.term == r'.term :: r == r')
            && (forall n, m | n in s.node && m in s.node && s.node[n].role == Leader && s.node[m].role == Leader
                              && s.node[n].term == s.node[m].term :: n == m)
  {
    var s := Run(c, Init(c), steps);
    Reachable(c, steps);
    forall r, r' | r in s.led && r' in s.led && r.term == r'.term
      ensures r == r'
    {
      OneReignPerTerm(c, s, r, r');
    }
    forall n, m | n in s.node && m in s.node && s.node[n].role == Leader && s.node[m].role == Leader
                  && s.node[n].term == s.node[m].term
      ensures n == m
    {
      OneReignPerTerm(c, s, Reign(n, s.node[n].term), Reign(m, s.node[m].term));
    }
  }

  /** Single source: all REPLICATE messages of one term, whether sent by a publish or in a sync reply,
      name the same leader. */
  lemma SingleReplicationSource(c: Config, steps: seq<Step>, r: Reign, r': Reign)
    requires ValidConfig(c)
    requires r in Run(c, Init(c), steps).sent && r' in Run(c, Init(c), steps).sent && r.term == r'.term
    ensures r.leader == r'.leader
  {
    Reachable(c, steps);
    OneReignPerTerm(c, Run(c, Init(c), steps), r, r');
  }

  /** Terms never decrease, a vote cast in a term never changes within it, and a node past term 0 always
      holds one, between any two points of any run. */
  lemma VotesAreWriteOnce(c: Config, before: seq<Step>, after: seq<Step>, n: Address)
    requires ValidConfig(c) && n in c
    ensures var s := Run(c, Init(c), before);
            var s' := Run(c, s, after);
            && n in s.node && n in s'.node && s.node[n].term <= s'.node[n].term
            && (s.node[n].term == s'.node[n].term && s.node[n].votedFor != "" ==>
                  s'.node[n].votedFor == s.node[n].votedFor)
            && (s.node[n].term >= 1 ==> s.node[n].votedFor != "")
  {
    Reachable(c, before);
    var s := Run(c, Init(c), before);
    RunKeepsInv(c, s, after);
    assert HoldsItsVote(s, n) && Respects(s.node[n], Run(c, s, after).node[n]);
  }

  /** The one thing that makes a leader step down within its term: a heartbeat of that term that names the leader
      itself or, as the designated leader has no vote on record, any leader at all. */
  predicate Deposes(c: Config, step: Step, n: Address, t: nat)
    requires n in c
  {
    && step.Heartbeat? && step.node == n && step.term == t
    && if c[n].designated then step.leader != "" else step.leader == n
  }

  /** The node leads term `t`, or follows in it once deposed, or has left it for a larger one. */
  ghost predicate LeadsUnlessDeposed(s: State, n: Address, t: nat, deposed: bool) {
    && n in s.node && s.node[n].term >= t
    && (s.node[n].term == t ==> s.node[n].role == if deposed then Follower else Leader)
  }

  lemma StepWhileLeading(c: Config, s: State, step: Step, n: Address)
    requires n in c && n in s.node && s.node[n].role == Leader && n != ""
    requires s.node[n].votedFor == if c[n].designated then "" else n
    requires forall id | id in s.calls && n in s.calls[id].unreached ::
               s.calls[id].leader != n && (c[n].designated ==> s.calls[id].term != 0)
    requires c[n].designated ==> s.node[n].term == 0
    requires n in Apply(c, s, step).node && Apply(c, s, step).node[n].term == s.node[n].term
    ensures Apply(c, s, step).node[n].role == if Deposes(c, step, n, s.node[n].term) then Follower else Leader
  {
  }

  lemma StepWhileFollowing(c: Config, s: State, step: Step, n: Address)
    requires n in s.node && s.node[n].role == Follower
    requires n in Apply(c, s, step).node && Apply(c, s, step).node[n].term == s.node[n].term
    ensures Apply(c, s, step).node[n].role == Follower
  {
  }

  /** No call under way can depose a leader: calls reach others only, and term 0 has one leader. */
  lemma CallsDoNotDepose(c: Config, s: State, n: Address, id: nat)
    requires ValidConfig(c) && Inv(c, s) && n in c && id in s.calls && n in s.calls[id].unreached
    ensures s.calls[id].leader != n && (c[n].designated ==> s.calls[id].term != 0)
  {
    assert CallOk(c, s, s.calls[id]) && ReignOk(c, s, Reign(s.calls[id].leader, s.calls[id].term));
  }

  lemma StepKeepsLeading(c: Config, s: State, step: Step, n: Address, t: nat, deposed: bool)
    requires ValidConfig(c) && Inv(c, s) && n in c && LeadsUnlessDeposed(s, n, t, deposed)
    ensures LeadsUnlessDeposed(Apply(c, s, step), n, t, deposed || Deposes(c, step, n, t))
  {
    var s' := Apply(c, s, step);
    StepKeepsInv(c, s, step);
    assert Respects(s.node[n], s'.node[n]);
    if s'.node[n].term == t {
      if deposed {
        StepWhileFollowing(c, s, step, n);
      } else {
        assert RoleOk(c, s, n);
        forall id | id in s.calls && n in s.calls[id].unreached
          ensures s.calls[id].leader != n && (c[n].designated ==> s.calls[id].term != 0)
        {
          CallsDoNotDepose(c, s, n, id);
        }
        StepWhileLeading(c, s, step, n);
      }
    }
  }

  predicate AnyDeposes(c: Config, steps: seq<Step>, n: Address, t: nat)
    requires n in c
  {
    exists i | 0 <= i < |steps| :: Deposes(c, steps[i], n, t)
  }

  lemma DeposesSnoc(c: Config, steps: seq<Step>, last: Step, n: Address, t: nat)
    requires n in c
    ensures AnyDeposes(c, steps + [last], n, t) <==> AnyDeposes(c, steps, n, t) || Deposes(c, last, n, t)
  {
    var all := steps + [last];
    assert all[|steps|] == last && forall i | 0 <= i < |steps| :: all[i] == steps[i];
  }

  lemma {:induction false} RunKeepsLeading(c: Config, s: State, steps: seq<Step>, n: Address, t: nat)
    requires ValidConfig(c) && Inv(c, s) && n in c && LeadsUnlessDeposed(s, n, t, false)
    ensures LeadsUnlessDeposed(Run(c, s, steps), n, t, AnyDeposes(c, steps, n, t))
  {
    if steps == [] {
    } else {
      var shorter, last := steps[..|steps| - 1], steps[|steps| - 1];
      var mid := Run(c, s, shorter);
      DeposesSnoc(c, shorter, last, n, t);
      assert steps == shorter + [last];
      RunKeepsLeading(c, s, shorter, n, t);
      RunKeepsInv(c, s, shorter);
      StepKeepsLeading(c, mid, last, n, t, AnyDeposes(c, shorter, n, t));
    }
  }

  /** An elected leader is deposed only by a heartbeat that names the leader to itself. */
  lemma OnlyOwnHeartbeatDeposes(c: Config, steps: seq<Step>, n: Address, t: nat)
    requires n in c && !c[n].designated
    ensures AnyDeposes(c, steps, n, t) <==> Heartbeat(n, t, n) in steps
  {
    forall i | 0 <= i < |steps|
      ensures Deposes(c, steps[i], n, t) <==> steps[i] == Heartbeat(n, t, n)
    {
    }
  }

  /** A leader that is still in its term leads it still, exactly when no heartbeat has deposed it. For an elected
      leader this takes a heartbeat of that term naming the leader to itself. */
  lemma LeaderForItsWholeTerm(c: Config, before: seq<Step>, after: seq<Step>, n: Address)
    requires ValidConfig(c) && n in c
    ensures var s := Run(c, Init(c), before);
            var s' := Run(c, s, after);
            && n in s.node && n in s'.node
            && (s.node[n].role == Leader && s'.node[n].term == s.node[n].term ==>
                  && (s'.node[n].role == Leader <==> !AnyDeposes(c, after, n, s.node[n].term))
                  && (!c[n].designated ==>
                        (s'.node[n].role == Leader <==> Heartbeat(n, s.node[n].term, n) !in after)))
  {
    Reachable(c, before);
    var s := Run(c, Init(c), before);
    RunKeepsInv(c, s, after);
    if s.node[n].role == Leader {
      RunKeepsLeading(c, s, after, n, s.node[n].term);
      if !c[n].designated { OnlyOwnHeartbeatDeposes(c, after, n, s.node[n].term); }
    }
  }

  lemma QuorumIsBehind(c: Config, k: Call)
    requires ValidConfig(c) && k.leader in c && k.counted <= c.Keys - {k.leader} && GathersQuorum(c, k)
    ensures 2 * |k.counted + {k.leader}| > |c.Keys|
  {
    ClusterBelowTwoQuorums(c, k.leader, k.leader);
    assert |k.counted + {k.leader}| == |k.counted| + 1;
  }

  /** A call that succeeded by acknowledgements has a strict majority behind it, the leader and nodes that
      are on record for that leader in that term. */
  lemma SuccessIsMajority(c: Config, steps: seq<Step>, id: nat)
    requires ValidConfig(c)
    requires id in Run(c, Init(c), steps).calls
    ensures var s := Run(c, Init(c), steps);
            var k := s.calls[id];
            && k.leader in c
            && (Succeeds(c, k) && k.targets != {} ==> 2 * |k.counted + {k.leader}| > |c.Keys|)
            && (forall p | p in k.counted :: p in c && Ballot(k.leader, k.term, p) in s.votes)
  {
    Reachable(c, steps);
    var s := Run(c, Init(c), steps);
    var k := s.calls[id];
    assert CallOk(c, s, k) && ReignOk(c, s, Reign(k.leader, k.term));
    if Succeeds(c, k) && k.targets != {} {
      QuorumIsBehind(c, k);
    }
  }

  // ---------------------------------------------------------------------------
  // Fencing
  // ---------------------------------------------------------------------------

  /** Call `id`, if it exists and is of a term below `t`, has no one from `voters` behind it. */
  ghost predicate Fenced(s: State, voters: set<Address>, t: nat, id: nat) {
    && (forall v | v in voters :: v in s.node && t <= s.node[v].term)
    && (id in s.calls && s.calls[id].term < t ==>
          s.calls[id].leader !in voters && s.calls[id].acked !! voters && s.calls[id].counted !! voters)
  }

  lemma StepKeepsFence(c: Config, s: State, step: Step, voters: set<Address>, t: nat, id: nat)
    requires Fenced(s, voters, t, id) && Extends(s, Apply(c, s, step))
    ensures Fenced(Apply(c, s, step), voters, t, id)
  {
    var s' := Apply(c, s, step);
    forall v | v in voters
      ensures v in s'.node && t <= s'.node[v].term
    {
      assert Respects(s.node[v], s'.node[v]);
    }
  }

  lemma {:induction false} RunKeepsFence(c: Config, s: State, steps: seq<Step>, voters: set<Address>, t: nat, id: nat)
    requires Inv(c, s) && "" !in c && Fenced(s, voters, t, id)
    ensures Fenced(Run(c, s, steps), voters, t, id)
  {
    if steps == [] {
    } else {
      var shorter := steps[..|steps| - 1];
      RunKeepsFence(c, s, shorter, voters, t, id);
      RunKeepsInv(c, s, shorter);
      StepKeepsInv(c, Run(c, s, shorter), steps[|steps| - 1]);
      StepKeepsFence(c, Run(c, s, shorter), steps[|steps| - 1], voters, t, id);
    }
  }

  lemma VotersHaveReached(c: Config, s: State, n: Address, t: nat)
    requires Inv(c, s)
    ensures forall v | v in VotersIn(c, s.votes, n, t) :: v in s.node && t <= s.node[v].term
  {
    forall v | v in VotersIn(c, s.votes, n, t)
      ensures v in s.node && t <= s.node[v].term
    {
      assert VoteOk(s, Ballot(n, t, v));
    }
  }

  /** With a quorum of nodes out of reach, the rest cannot make up a quorum. */
  lemma FencedCannotSucceed(c: Config, voters: set<Address>, winner: Address, k: Call)
    requires ValidConfig(c) && winner in c && k.leader in c
    requires voters <= c.Keys && |voters| >= Quorum(c[winner].nodesEnv)
    requires k.counted <= c.Keys - {k.leader} && k.leader !in voters && k.counted !! voters
    ensures !GathersQuorum(c, k)
  {
    ClusterBelowTwoQuorums(c, winner, k.leader);
    var behind := k.counted + {k.leader};
    assert |behind| == |k.counted| + 1 && |voters + behind| == |voters| + |behind|;
    SubsetSize(voters + behind, c.Keys);
  }

  /** Fencing: once some node has led term `t`, a `Replicate` call that starts later for a lower term
      returns success in no continuation of the run, unless it finds no peer alive at all. */
  lemma Fencing(c: Config, before: seq<Step>, after: seq<Step>, winner: Reign, id: nat)
    requires ValidConfig(c)
    requires winner in Run(c, Init(c), before).led && id !in Run(c, Init(c), before).calls
    ensures var s' := Run(c, Run(c, Init(c), before), after);
            id in s'.calls && s'.calls[id].term < winner.term ==>
              s'.calls[id].leader in c && (Succeeds(c, s'.calls[id]) <==> s'.calls[id].targets == {})
  {
    Reachable(c, before);
    var s := Run(c, Init(c), before);
    var s' := Run(c, s, after);
    RunKeepsInv(c, s, after);
    if id in s'.calls && s'.calls[id].term < winner.term {
      var k := s'.calls[id];
      var voters := VotersIn(c, s.votes, winner.leader, winner.term);
      assert ReignOk(c, s, winner) && CallOk(c, s', k) && ReignOk(c, s', Reign(k.leader, k.term));
      VotersHaveReached(c, s, winner.leader, winner.term);
      RunKeepsFence(c, s, after, voters, winner.term, id);
      FencedCannotSucceed(c, voters, winner.leader, k);
    }
  }
}
