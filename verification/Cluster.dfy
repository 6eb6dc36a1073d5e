/** The cluster as a transition system: one step per locked section, messages that may be delayed,
    lost or reordered at will, and heartbeats that may carry any term and any leader. A run is any
    sequence of steps; a step that is not possible in a state changes nothing. */
module Cluster {
  import opened ClusterNode

  datatype NodeConfig = NodeConfig(nodesEnv: string, own: Identity, designated: bool)

  type Config = map<Address, NodeConfig>

  /** Addresses are unique and non-empty, each node's list covers exactly the others, and at most
      one node is designated leader. */
  ghost predicate ValidConfig(c: Config) {
    && "" !in c
    && (forall n | n in c :: Peers(c[n].nodesEnv, c[n].own) == c.Keys - {n})
    && (forall n, m | n in c && m in c && c[n].designated && c[m].designated :: n == m)
  }

  /** The vote one candidate asks of one peer in one term; each is asked over its own connection. */
  datatype Ballot = Ballot(candidate: Address, term: nat, voter: Address)

  /** One `Replicate` call: the peers it found alive, those it has not reached yet, those whose
      acknowledgement is under way, and those it has counted. */
  datatype Call = Call(leader: Address, term: nat, targets: set<Address>,
                       unreached: set<Address>, acked: set<Address>, counted: set<Address>)

  /** A node leading a term. */
  datatype Reign = Reign(leader: Address, term: nat)

  /** `node`, `requests`, `grants` and `calls` are the system; `tallied`, `votes`, `led` and `sent`
      record its history: the grants counted, the votes ever cast, the reigns there ever were, and the
      reign named by every REPLICATE ever sent. */
  datatype State = State(
    node: map<Address, NodeState>,
    requests: set<Ballot>,
    grants: set<Ballot>,
    calls: map<nat, Call>,
    tallied: set<Ballot>,
    votes: set<Ballot>,
    led: set<Reign>,
    sent: set<Reign>)

  datatype Step =
    | Elect(node: Address)
    | Vote(ballot: Ballot)
    | Tally(ballot: Ballot)
    | Heartbeat(node: Address, term: int, leader: Address)
    | Replicate(call: nat, node: Address, alive: set<Address>)
    | Deliver(call: nat, peer: Address, decodes: bool)
    | Acknowledge(call: nat, peer: Address)
    | SyncReply(node: Address)

  function Init(c: Config): State {
    State(
      map n | n in c :: NodeState(if c[n].designated then Leader else Follower, 0, "", 0),
      {}, {}, map[], {}, {},
      set n | n in c && c[n].designated :: Reign(n, 0),
      {})
  }

  /** The node takes on a new state; the vote it now holds, if any, goes on record. */
  function Move(s: State, n: Address, ns: NodeState): State {
    s.(node := s.node[n := ns],
       votes := if ns.votedFor == "" then s.votes else s.votes + {Ballot(ns.votedFor, ns.term, n)})
  }

  function ApplyElect(c: Config, s: State, n: Address): State {
    if n in c && n in s.node && !c[n].designated then
      var ns := StartElection(s.node[n], n);
      Move(s, n, ns).(requests := s.requests + set p | p in c.Keys - {n} :: Ballot(n, ns.term, p))
    else s
  }

  function ApplyVote(c: Config, s: State, b: Ballot): State {
    if b in s.requests && b.voter in c && b.voter in s.node then
      var (ns, granted) := EvaluateVote(s.node[b.voter], c[b.voter].designated, b.term, b.candidate);
      Move(s, b.voter, ns).(requests := s.requests - {b}, grants := s.grants + if granted then {b} else {})
    else s
  }

  function ApplyTally(c: Config, s: State, b: Ballot): State {
    if b in s.grants && b.candidate in c && b.candidate in s.node then
      var ns := CountVote(s.node[b.candidate], b.term, Quorum(c[b.candidate].nodesEnv));
      s.(node := s.node[b.candidate := ns],
         grants := s.grants - {b},
         tallied := s.tallied + (if Counts(s.node[b.candidate], b.term) then {b} else {}),
         led := s.led + if ns.role == Leader then {Reign(b.candidate, ns.term)} else {})
    else s
  }

  function ApplyHeartbeat(s: State, n: Address, term: int, leader: Address): State {
    if n in s.node && leader != ""
    then Move(s, n, Adopt(s.node[n], term, leader))
    else s
  }

  function ApplyReplicate(c: Config, s: State, id: nat, n: Address, alive: set<Address>): State {
    if id !in s.calls && n in s.node && s.node[n].role == Leader && alive <= c.Keys - {n} then
      s.(calls := s.calls[id := Call(n, s.node[n].term, alive, alive, {}, {})],
         sent := s.sent + if alive == {} then {} else {Reign(n, s.node[n].term)})
    else s
  }

  /** The state of a call once a REPLICATE has reached `p`. */
  function Reached(k: Call, p: Address, acks: bool): Call {
    k.(unreached := k.unreached - {p}, acked := k.acked + if acks then {p} else {})
  }

  function ApplyDeliver(s: State, id: nat, p: Address, decodes: bool): State {
    if id in s.calls && p in s.calls[id].unreached && p in s.node then
      var k := s.calls[id];
      var acks := Trusts(s.node[p], k.term, k.leader) && decodes;
      Move(s, p, Adopt(s.node[p], k.term, k.leader)).(
        calls := s.calls[id := Reached(k, p, acks)])
    else s
  }

  function ApplyAcknowledge(s: State, id: nat, p: Address): State {
    if id in s.calls && p in s.calls[id].acked then
      var k := s.calls[id];
      s.(calls := s.calls[id := k.(acked := k.acked - {p}, counted := k.counted + {p})])
    else s
  }

  function ApplySyncReply(s: State, n: Address): State {
    if n in s.node && s.node[n].role == Leader then s.(sent := s.sent + {Reign(n, s.node[n].term)}) else s
  }

  function Apply(c: Config, s: State, step: Step): State {
    match step
    case Elect(n) => ApplyElect(c, s, n)
    case Vote(b) => ApplyVote(c, s, b)
    case Tally(b) => ApplyTally(c, s, b)
    case Heartbeat(n, term, leader) => ApplyHeartbeat(s, n, term, leader)
    case Replicate(id, n, alive) => ApplyReplicate(c, s, id, n, alive)
    case Deliver(id, p, decodes) => ApplyDeliver(s, id, p, decodes)
    case Acknowledge(id, p) => ApplyAcknowledge(s, id, p)
    case SyncReply(n) => ApplySyncReply(s, n)
  }

  function Run(c: Config, s: State, steps: seq<Step>): State {
    if steps == [] then s else Apply(c, Run(c, s, steps[..|steps| - 1]), steps[|steps| - 1])
  }

  /** The call has gathered its quorum, the leader itself counting as one. */
  predicate GathersQuorum(c: Config, k: Call)
    requires k.leader in c
  {
    1 + |k.counted| >= Quorum(c[k.leader].nodesEnv)
  }

  /** The call may return success: it has its quorum, or it found no peer alive and asked nobody. */
  predicate Succeeds(c: Config, k: Call)
    requires k.leader in c
  {
    k.targets == {} || GathersQuorum(c, k)
  }

  // ---------------------------------------------------------------------------
  // Invariant
  // ---------------------------------------------------------------------------

  /** The nodes on record in `ballots` for candidate `n` in term `t`. */
  function VotersIn(c: Config, ballots: set<Ballot>, n: Address, t: nat): set<Address> {
    set v | v in c && Ballot(n, t, v) in ballots
  }

  /** The vote a node holds is on record once its term is positive or it has voted. */
  ghost predicate HoldsItsVote(s: State, n: Address)
    requires n in s.node
  {
    && (s.node[n].term >= 1 ==> s.node[n].votedFor != "")
    && (s.node[n].votedFor != "" ==> Ballot(s.node[n].votedFor, s.node[n].term, n) in s.votes)
  }

  /** A recorded vote is of a term the voter has reached; in its present term it is the vote it holds. */
  ghost predicate VoteOk(s: State, b: Ballot) {
    && b.candidate != "" && b.voter in s.node && b.term <= s.node[b.voter].term
    && (b.term == s.node[b.voter].term ==> b.candidate == s.node[b.voter].votedFor)
  }

  ghost predicate InvVotes(c: Config, s: State) {
    && s.node.Keys == c.Keys
    && (forall n | n in s.node :: HoldsItsVote(s, n))
    && (forall b | b in s.votes :: VoteOk(s, b))
  }

  /** No node is on record for two candidates in one term. */
  ghost predicate WriteOnce(votes: set<Ballot>) {
    forall b, b' | b in votes && b' in votes && b.voter == b'.voter && b.term == b'.term ::
      b.candidate == b'.candidate
  }

  ghost predicate BallotOk(c: Config, s: State, b: Ballot) {
    && b.candidate in c && b.candidate in s.node && !c[b.candidate].designated
    && 1 <= b.term <= s.node[b.candidate].term
    && b.voter in c && b.voter != b.candidate
  }

  ghost predicate InvBallots(c: Config, s: State) {
    && (forall b | b in s.requests :: BallotOk(c, s, b))
    && (forall b | b in s.grants :: BallotOk(c, s, b))
    && (forall b | b in s.tallied :: BallotOk(c, s, b))
    && s.requests !! s.grants && s.requests !! s.tallied && s.grants !! s.tallied
    && s.grants <= s.votes && s.tallied <= s.votes
  }

  ghost predicate RoleOk(c: Config, s: State, n: Address)
    requires n in c && n in s.node
  {
    if c[n].designated
    then s.node[n].role != Candidate && (s.node[n].role == Leader ==> s.node[n].term == 0 && s.node[n].votedFor == "")
    else s.node[n].role != Follower ==>
           && s.node[n].term >= 1 && s.node[n].votedFor == n
           && s.node[n].votes == 1 + |VotersIn(c, s.tallied, n, s.node[n].term)|
  }

  ghost predicate InvRoles(c: Config, s: State) {
    forall n | n in c && n in s.node :: RoleOk(c, s, n)
  }

  /** A reign is the designated leader's term 0, or has a quorum of recorded votes behind it. */
  ghost predicate ReignOk(c: Config, s: State, r: Reign) {
    && r.leader in c && r.leader in s.node && r.term <= s.node[r.leader].term
    && if r.term == 0 then c[r.leader].designated
       else |VotersIn(c, s.votes, r.leader, r.term)| >= Quorum(c[r.leader].nodesEnv)
  }

  ghost predicate InvLed(c: Config, s: State) {
    && (forall n | n in s.node :: s.node[n].role == Leader ==> Reign(n, s.node[n].term) in s.led)
    && (forall r | r in s.led :: ReignOk(c, s, r))
  }

  /** Whoever acknowledges a call is on record for its leader in its term. */
  ghost predicate CallOk(c: Config, s: State, k: Call) {
    && Reign(k.leader, k.term) in s.led
    && k.unreached <= k.targets && k.acked <= k.targets && k.counted <= k.targets <= c.Keys - {k.leader}
    && (forall p | p in k.acked :: Ballot(k.leader, k.term, p) in s.votes)
    && (forall p | p in k.counted :: Ballot(k.leader, k.term, p) in s.votes)
  }

  ghost predicate InvCalls(c: Config, s: State) {
    && (forall id | id in s.calls :: CallOk(c, s, s.calls[id]))
    && s.sent <= s.led
  }

  ghost predicate Inv(c: Config, s: State) {
    && InvVotes(c, s) && WriteOnce(s.votes) && InvBallots(c, s)
    && InvRoles(c, s) && InvLed(c, s) && InvCalls(c, s)
  }

  /** How any later state relates to an earlier one: terms only rise, every vote stands, and
      history is kept. */
  ghost predicate Extends(s: State, s': State) {
    && s.node.Keys == s'.node.Keys
    && (forall n | n in s.node :: Respects(s.node[n], s'.node[n]))
    && s.votes <= s'.votes && s.led <= s'.led && s.sent <= s'.sent
    && s.calls.Keys <= s'.calls.Keys
  }

  // ---------------------------------------------------------------------------
  // Preservation
  // ---------------------------------------------------------------------------

  lemma SubsetSize<T>(a: set<T>, b: set<T>)
    requires a <= b
    ensures |a| <= |b|
  {
    assert b == a + (b - a);
  }

  /** A vote on record for the term a node moves to is the vote it takes there. */
  lemma MoveKeepsItsVote(c: Config, s: State, n: Address, ns: NodeState, b: Ballot)
    requires InvVotes(c, s) && n in c && Respects(s.node[n], ns)
    requires b in s.votes && b.voter == n && b.term == ns.term && ns.votedFor != ""
    ensures b.candidate == ns.votedFor
  {
    assert VoteOk(s, b) && HoldsItsVote(s, n);
  }

  lemma MoveKeepsWriteOnce(c: Config, s: State, n: Address, ns: NodeState)
    requires InvVotes(c, s) && WriteOnce(s.votes) && n in c && Respects(s.node[n], ns)
    ensures WriteOnce(Move(s, n, ns).votes)
  {
    forall b | b in s.votes && b.voter == n && b.term == ns.term && ns.votedFor != ""
      ensures b.candidate == ns.votedFor
    {
      MoveKeepsItsVote(c, s, n, ns, b);
    }
  }

  /** A node that moves on respectfully, with a vote once its term is positive, keeps the record right. */
  lemma MoveKeepsVotes(c: Config, s: State, n: Address, ns: NodeState)
    requires InvVotes(c, s) && WriteOnce(s.votes) && n in c
    requires Respects(s.node[n], ns) && (ns.term >= 1 ==> ns.votedFor != "")
    ensures InvVotes(c, Move(s, n, ns)) && WriteOnce(Move(s, n, ns).votes)
    ensures Extends(s, Move(s, n, ns))
  {
    var s' := Move(s, n, ns);
    MoveKeepsWriteOnce(c, s, n, ns);
    forall b | b in s'.votes
      ensures VoteOk(s', b)
    {
      if b in s.votes {
        assert VoteOk(s, b);
        if b.voter == n && b.term == ns.term && ns.votedFor != "" { MoveKeepsItsVote(c, s, n, ns, b); }
      }
    }
    forall m | m in s'.node
      ensures HoldsItsVote(s', m)
    {
      assert HoldsItsVote(s, m);
    }
  }

  /** Ballots stay in order when votes only grow and no new ballot appears. */
  lemma BallotsCarryOver(c: Config, s: State, s': State)
    requires InvBallots(c, s) && Extends(s, s')
    requires s'.requests <= s.requests && s'.grants <= s.grants && s'.tallied == s.tallied
    ensures InvBallots(c, s')
  {
    forall b | b in s.requests || b in s.grants || b in s.tallied
      ensures BallotOk(c, s', b)
    {
      assert BallotOk(c, s, b);
    }
  }

  /** Roles stay in order when one node moves to a role in order. */
  lemma MoveKeepsRoles(c: Config, s: State, n: Address, ns: NodeState)
    requires InvRoles(c, s) && s.node.Keys == c.Keys && n in c
    requires RoleOk(c, s.(node := s.node[n := ns]), n)
    ensures InvRoles(c, Move(s, n, ns))
  {
    forall m | m in c
      ensures RoleOk(c, Move(s, n, ns), m)
    {
      assert RoleOk(c, s, m);
    }
  }

  lemma ReignCarriesOver(c: Config, s: State, s': State, r: Reign)
    requires ReignOk(c, s, r) && Extends(s, s')
    ensures ReignOk(c, s', r)
  {
    SubsetSize(VotersIn(c, s.votes, r.leader, r.term), VotersIn(c, s'.votes, r.leader, r.term));
  }

  /** Reigns stay in order when nobody becomes leader. */
  lemma LedCarriesOver(c: Config, s: State, s': State)
    requires InvLed(c, s) && Extends(s, s') && s'.led == s.led
    requires forall n | n in s'.node ::
               s'.node[n].role == Leader ==> s.node[n].role == Leader && s'.node[n].term == s.node[n].term
    ensures InvLed(c, s')
  {
    forall r | r in s'.led
      ensures ReignOk(c, s', r)
    {
      ReignCarriesOver(c, s, s', r);
    }
  }

  lemma CallsCarryOver(c: Config, s: State, s': State)
    requires InvCalls(c, s) && Extends(s, s')
    requires s'.calls == s.calls && s'.sent == s.sent
    ensures InvCalls(c, s')
  {
    forall id | id in s'.calls
      ensures CallOk(c, s', s'.calls[id])
    {
      assert CallOk(c, s, s.calls[id]);
    }
  }

  /** One node moving on keeps the invariant if its role is in order and it does not become leader. */
  lemma MoveKeepsInv(c: Config, s: State, n: Address, ns: NodeState)
    requires Inv(c, s) && n in c
    requires Respects(s.node[n], ns) && (ns.term >= 1 ==> ns.votedFor != "")
    requires RoleOk(c, s.(node := s.node[n := ns]), n)
    requires ns.role == Leader ==> s.node[n].role == Leader && ns.term == s.node[n].term
    ensures Inv(c, Move(s, n, ns)) && Extends(s, Move(s, n, ns))
  {
    var s' := Move(s, n, ns);
    MoveKeepsVotes(c, s, n, ns);
    BallotsCarryOver(c, s, s');
    MoveKeepsRoles(c, s, n, ns);
    LedCarriesOver(c, s, s');
    CallsCarryOver(c, s, s');
  }

  /** A step that touches only the ballots under way leaves the rest of the invariant alone. */
  lemma BallotStepKeepsInv(c: Config, s: State, s': State)
    requires Inv(c, s) && s' == s.(requests := s'.requests, grants := s'.grants)
    requires InvBallots(c, s')
    ensures Inv(c, s') && Extends(s, s')
  {
    SameNodesKeepVotes(c, s, s');
    SameNodesKeepRoles(c, s, s');
    LedCarriesOver(c, s, s');
    CallsCarryOver(c, s, s');
  }

  lemma SameNodesKeepVotes(c: Config, s: State, s': State)
    requires InvVotes(c, s) && s'.node == s.node && s'.votes == s.votes
    ensures InvVotes(c, s')
  {
    forall n | n in s'.node
      ensures HoldsItsVote(s', n)
    {
      assert HoldsItsVote(s, n);
    }
    forall b | b in s'.votes
      ensures VoteOk(s', b)
    {
      assert VoteOk(s, b);
    }
  }

  lemma SameNodesKeepRoles(c: Config, s: State, s': State)
    requires InvRoles(c, s) && s'.node == s.node && s'.tallied == s.tallied
    ensures InvRoles(c, s')
  {
    forall n | n in c && n in s'.node
      ensures RoleOk(c, s', n)
    {
      assert RoleOk(c, s, n);
    }
  }

  /** All ballots of candidate `n` are of terms it has reached. */
  lemma BallotTermsReached(c: Config, s: State, n: Address)
    requires InvBallots(c, s) && n in s.node
    ensures forall b | b in s.requests || b in s.grants || b in s.tallied ::
              b.candidate == n ==> b.term <= s.node[n].term
    ensures VotersIn(c, s.tallied, n, s.node[n].term + 1) == {}
  {
    forall b | b in s.requests || b in s.grants || b in s.tallied
      ensures b.candidate == n ==> b.term <= s.node[n].term
    {
      assert BallotOk(c, s, b);
    }
  }

  /** A node may start an election at any time. */
  lemma CandidacyKeepsInv(c: Config, s: State, n: Address)
    requires Inv(c, s) && n in c && n != "" && !c[n].designated
    ensures var mid := Move(s, n, StartElection(s.node[n], n)); Inv(c, mid) && Extends(s, mid)
  {
    BallotTermsReached(c, s, n);
    MoveKeepsInv(c, s, n, StartElection(s.node[n], n));
  }

  lemma ElectKeepsInv(c: Config, s: State, n: Address)
    requires Inv(c, s) && "" !in c
    ensures Inv(c, ApplyElect(c, s, n)) && Extends(s, ApplyElect(c, s, n))
  {
    if n in c && !c[n].designated {
      var mid, s' := Move(s, n, StartElection(s.node[n], n)), ApplyElect(c, s, n);
      CandidacyKeepsInv(c, s, n);
      ElectKeepsBallots(c, s, mid, s', n);
      BallotStepKeepsInv(c, mid, s');
      ExtendsTransitive(s, mid, s');
    }
  }

  /** The ballots of a new election are of a term none of the candidate's earlier ballots had. */
  lemma ElectKeepsBallots(c: Config, s: State, mid: State, s': State, n: Address)
    requires InvBallots(c, s) && InvBallots(c, mid) && n in c && !c[n].designated && n in s.node
    requires mid == Move(s, n, StartElection(s.node[n], n))
    requires s' == mid.(requests := s.requests + set p | p in c.Keys - {n} :: Ballot(n, s.node[n].term + 1, p))
    ensures InvBallots(c, s')
  {
    BallotTermsReached(c, s, n);
    forall b | b in s'.requests || b in s'.grants || b in s'.tallied
      ensures BallotOk(c, s', b)
    {
      if b in s.requests || b in s.grants || b in s.tallied { assert BallotOk(c, mid, b); }
    }
  }

  lemma VoteKeepsInv(c: Config, s: State, b: Ballot)
    requires Inv(c, s) && "" !in c
    ensures Inv(c, ApplyVote(c, s, b)) && Extends(s, ApplyVote(c, s, b))
  {
    if b in s.requests {
      var (ns, granted) := EvaluateVote(s.node[b.voter], c[b.voter].designated, b.term, b.candidate);
      assert BallotOk(c, s, b) && HoldsItsVote(s, b.voter) && RoleOk(c, s, b.voter);
      var mid := Move(s, b.voter, ns);
      MoveKeepsInv(c, s, b.voter, ns);
      assert granted ==> b in mid.votes;
      RequestSettled(c, mid, b, granted);
      BallotStepKeepsInv(c, mid, ApplyVote(c, s, b));
    }
  }

  lemma RequestSettled(c: Config, s: State, b: Ballot, granted: bool)
    requires InvBallots(c, s) && b in s.requests && (granted ==> b in s.votes)
    ensures InvBallots(c, s.(requests := s.requests - {b}, grants := s.grants + if granted then {b} else {}))
  {
    var s' := s.(requests := s.requests - {b}, grants := s.grants + if granted then {b} else {});
    forall x | x in s'.requests || x in s'.grants || x in s'.tallied
      ensures BallotOk(c, s', x)
    {
      assert BallotOk(c, s, x);
    }
  }

  lemma AdoptKeepsInv(c: Config, s: State, n: Address, term: int, leader: Address)
    requires Inv(c, s) && n in c && leader != ""
    ensures var s' := Move(s, n, Adopt(s.node[n], term, leader)); Inv(c, s') && Extends(s, s')
  {
    assert HoldsItsVote(s, n) && RoleOk(c, s, n);
    MoveKeepsInv(c, s, n, Adopt(s.node[n], term, leader));
  }

  /** A counted grant is a new voter: no peer is counted twice in a term. */
  lemma TallyAddsOne(c: Config, s: State, b: Ballot)
    requires InvBallots(c, s) && b in s.grants
    ensures |VotersIn(c, s.tallied + {b}, b.candidate, b.term)| == |VotersIn(c, s.tallied, b.candidate, b.term)| + 1
    ensures forall m, t | m != b.candidate || t != b.term ::
              VotersIn(c, s.tallied + {b}, m, t) == VotersIn(c, s.tallied, m, t)
  {
    assert BallotOk(c, s, b) && b == Ballot(b.candidate, b.term, b.voter);
    var before := VotersIn(c, s.tallied, b.candidate, b.term);
    assert b.voter !in before;
    assert VotersIn(c, s.tallied + {b}, b.candidate, b.term) == before + {b.voter};
  }

  /** The counted voters and the candidate itself are all on record as its voters. */
  lemma TalliedHaveVoted(c: Config, s: State, n: Address, t: nat)
    requires InvBallots(c, s) && n in c && Ballot(n, t, n) in s.votes
    ensures 1 + |VotersIn(c, s.tallied, n, t)| <= |VotersIn(c, s.votes, n, t)|
  {
    var counted := VotersIn(c, s.tallied, n, t);
    forall v | v in counted
      ensures v != n
    {
      assert BallotOk(c, s, Ballot(n, t, v));
    }
    SubsetSize(counted + {n}, VotersIn(c, s.votes, n, t));
  }

  lemma TallyKeepsBallots(c: Config, s: State, b: Ballot)
    requires InvVotes(c, s) && InvBallots(c, s) && b in s.grants
    ensures InvBallots(c, ApplyTally(c, s, b))
  {
    var s' := ApplyTally(c, s, b);
    forall b' | b' in s.requests || b' in s.grants || b' in s.tallied
      ensures BallotOk(c, s', b')
    {
      assert BallotOk(c, s, b');
    }
  }

  lemma TallyExtends(c: Config, s: State, b: Ballot)
    ensures Extends(s, ApplyTally(c, s, b))
  {
  }

  lemma TallyKeepsRecord(c: Config, s: State, b: Ballot)
    requires InvVotes(c, s) && InvCalls(c, s)
    ensures InvVotes(c, ApplyTally(c, s, b)) && InvCalls(c, ApplyTally(c, s, b))
    ensures Extends(s, ApplyTally(c, s, b))
  {
    var s' := ApplyTally(c, s, b);
    TallyExtends(c, s, b);
    forall n | n in s'.node
      ensures HoldsItsVote(s', n)
    {
      assert HoldsItsVote(s, n);
    }
    forall v | v in s'.votes
      ensures VoteOk(s', v)
    {
      assert VoteOk(s, v);
    }
    CallsCarryOver(c, s, s');
  }

  lemma TallyKeepsRoles(c: Config, s: State, b: Ballot)
    requires s.node.Keys == c.Keys && InvBallots(c, s) && InvRoles(c, s) && b in s.grants
    ensures InvRoles(c, ApplyTally(c, s, b))
  {
    var s' := ApplyTally(c, s, b);
    assert BallotOk(c, s, b);
    TallyAddsOne(c, s, b);
    forall m | m in c
      ensures RoleOk(c, s', m)
    {
      assert RoleOk(c, s, m);
      if m == b.candidate {
        CandidateRoleOk(c, s, b);
      } else {
        assert s'.node[m] == s.node[m];
        assert VotersIn(c, s'.tallied, m, s.node[m].term) == VotersIn(c, s.tallied, m, s.node[m].term);
      }
    }
  }

  lemma CandidateRoleOk(c: Config, s: State, b: Ballot)
    requires s.node.Keys == c.Keys && InvBallots(c, s) && b in s.grants
    requires b.candidate in c && RoleOk(c, s, b.candidate) && !c[b.candidate].designated
    ensures RoleOk(c, ApplyTally(c, s, b), b.candidate)
  {
    TallyAddsOne(c, s, b);
    assert ApplyTally(c, s, b).tallied == if Counts(s.node[b.candidate], b.term) then s.tallied + {b} else s.tallied;
  }

  /** Whoever leads after a count has a quorum of recorded votes behind it. */
  lemma NewReignOk(c: Config, s: State, n: Address)
    requires InvVotes(c, s) && InvBallots(c, s) && n in c && n != "" && !c[n].designated && RoleOk(c, s, n)
    requires s.node[n].role == Leader && s.node[n].votes >= Quorum(c[n].nodesEnv)
    ensures ReignOk(c, s, Reign(n, s.node[n].term))
  {
    assert HoldsItsVote(s, n);
    TalliedHaveVoted(c, s, n, s.node[n].term);
  }

  /** The reigns after a count: those there were, and perhaps that of the candidate. */
  lemma TallyKeepsReign(c: Config, s: State, b: Ballot, r: Reign)
    requires InvVotes(c, ApplyTally(c, s, b)) && InvBallots(c, ApplyTally(c, s, b)) && InvRoles(c, ApplyTally(c, s, b))
    requires Extends(s, ApplyTally(c, s, b)) && InvLed(c, s) && BallotOk(c, s, b) && b in s.grants && "" !in c
    requires r in ApplyTally(c, s, b).led
    ensures ReignOk(c, ApplyTally(c, s, b), r)
  {
    var s' := ApplyTally(c, s, b);
    if r in s.led {
      ReignCarriesOver(c, s, s', r);
    } else {
      assert RoleOk(c, s', b.candidate);
      NewReignOk(c, s', b.candidate);
    }
  }

  lemma TallyKeepsLed(c: Config, s: State, b: Ballot)
    requires Inv(c, s) && b in s.grants && "" !in c
    ensures InvLed(c, ApplyTally(c, s, b))
  {
    TallyKeepsRecord(c, s, b);
    TallyKeepsBallots(c, s, b);
    TallyKeepsRoles(c, s, b);
    assert BallotOk(c, s, b);
    forall r | r in ApplyTally(c, s, b).led
      ensures ReignOk(c, ApplyTally(c, s, b), r)
    {
      TallyKeepsReign(c, s, b, r);
    }
  }

  lemma TallyKeepsInv(c: Config, s: State, b: Ballot)
    requires Inv(c, s) && "" !in c
    ensures Inv(c, ApplyTally(c, s, b)) && Extends(s, ApplyTally(c, s, b))
  {
    if b in s.grants {
      TallyKeepsRecord(c, s, b);
      TallyKeepsBallots(c, s, b);
      TallyKeepsRoles(c, s, b);
      TallyKeepsLed(c, s, b);
    }
  }

  /** A step that touches only calls and sent messages leaves the rest of the invariant alone. */
  lemma CallStepKeepsInv(c: Config, s: State, s': State)
    requires Inv(c, s) && s' == s.(calls := s'.calls, sent := s'.sent)
    requires InvCalls(c, s') && s.sent <= s'.sent && s.calls.Keys <= s'.calls.Keys
    ensures Inv(c, s') && Extends(s, s')
  {
    SameNodesKeepVotes(c, s, s');
    BallotsCarryOver(c, s, s');
    SameNodesKeepRoles(c, s, s');
    LedCarriesOver(c, s, s');
  }

  lemma CallsOkStill(c: Config, s: State, s': State, id: nat, k: Call)
    requires InvCalls(c, s)
    requires s' == s.(calls := s.calls[id := k], sent := s'.sent) && s'.sent <= s.led
    requires CallOk(c, s, k)
    ensures InvCalls(c, s')
  {
    forall i | i in s'.calls
      ensures CallOk(c, s', s'.calls[i])
    {
      assert i != id ==> CallOk(c, s, s.calls[i]);
    }
  }

  lemma ReplicateKeepsInv(c: Config, s: State, id: nat, n: Address, alive: set<Address>)
    requires Inv(c, s)
    ensures Inv(c, ApplyReplicate(c, s, id, n, alive)) && Extends(s, ApplyReplicate(c, s, id, n, alive))
  {
    var s' := ApplyReplicate(c, s, id, n, alive);
    if s' != s {
      CallsOkStill(c, s, s', id, Call(n, s.node[n].term, alive, alive, {}, {}));
      CallStepKeepsInv(c, s, s');
    }
  }

  lemma AcknowledgeKeepsInv(c: Config, s: State, id: nat, p: Address)
    requires Inv(c, s)
    ensures Inv(c, ApplyAcknowledge(s, id, p)) && Extends(s, ApplyAcknowledge(s, id, p))
  {
    var s' := ApplyAcknowledge(s, id, p);
    if id in s.calls && p in s.calls[id].acked {
      var k := s.calls[id];
      assert CallOk(c, s, k);
      CallsOkStill(c, s, s', id, k.(acked := k.acked - {p}, counted := k.counted + {p}));
      CallStepKeepsInv(c, s, s');
    }
  }

  lemma SyncReplyKeepsInv(c: Config, s: State, n: Address)
    requires Inv(c, s)
    ensures Inv(c, ApplySyncReply(s, n)) && Extends(s, ApplySyncReply(s, n))
  {
    var s' := ApplySyncReply(s, n);
    forall id | id in s'.calls
      ensures CallOk(c, s', s'.calls[id])
    {
      assert CallOk(c, s, s.calls[id]);
    }
    CallStepKeepsInv(c, s, s');
  }

  lemma DeliveryKeepsInv(c: Config, mid: State, id: nat, p: Address, acks: bool)
    requires Inv(c, mid) && id in mid.calls && p in mid.calls[id].unreached
    requires acks ==> Ballot(mid.calls[id].leader, mid.calls[id].term, p) in mid.votes
    ensures var s' := mid.(calls := mid.calls[id := Reached(mid.calls[id], p, acks)]); Inv(c, s') && Extends(mid, s')
  {
    var k' := Reached(mid.calls[id], p, acks);
    var s' := mid.(calls := mid.calls[id := k']);
    assert CallOk(c, mid, mid.calls[id]);
    CallsOkStill(c, mid, s', id, k');
    CallStepKeepsInv(c, mid, s');
  }

  lemma DeliverKeepsInv(c: Config, s: State, id: nat, p: Address, decodes: bool)
    requires Inv(c, s) && "" !in c
    ensures Inv(c, ApplyDeliver(s, id, p, decodes)) && Extends(s, ApplyDeliver(s, id, p, decodes))
  {
    if id in s.calls && p in s.calls[id].unreached {
      var k := s.calls[id];
      assert CallOk(c, s, k) && ReignOk(c, s, Reign(k.leader, k.term));
      AdoptKeepsInv(c, s, p, k.term, k.leader);
      DeliveryKeepsInv(c, Move(s, p, Adopt(s.node[p], k.term, k.leader)), id, p,
                       Trusts(s.node[p], k.term, k.leader) && decodes);
    }
  }

  lemma StepKeepsInv(c: Config, s: State, step: Step)
    requires Inv(c, s) && "" !in c
    ensures Inv(c, Apply(c, s, step)) && Extends(s, Apply(c, s, step))
  {
    match step
    case Elect(n) => ElectKeepsInv(c, s, n);
    case Vote(b) => VoteKeepsInv(c, s, b);
    case Tally(b) => TallyKeepsInv(c, s, b);
    case Heartbeat(n, term, leader) =>
      if n in c && leader != "" { AdoptKeepsInv(c, s, n, term, leader); }
    case Replicate(id, n, alive) => ReplicateKeepsInv(c, s, id, n, alive);
    case Deliver(id, p, decodes) => DeliverKeepsInv(c, s, id, p, decodes);
    case Acknowledge(id, p) => AcknowledgeKeepsInv(c, s, id, p);
    case SyncReply(n) => SyncReplyKeepsInv(c, s, n);
  }

  lemma InitInv(c: Config)
    ensures Inv(c, Init(c))
  {
  }

  lemma ExtendsTransitive(a: State, b: State, c: State)
    requires Extends(a, b) && Extends(b, c)
    ensures Extends(a, c)
  {
    forall n | n in a.node
      ensures Respects(a.node[n], c.node[n])
    {
      assert Respects(a.node[n], b.node[n]) && Respects(b.node[n], c.node[n]);
    }
  }

  lemma {:induction false} RunKeepsInv(c: Config, s: State, steps: seq<Step>)
    requires Inv(c, s) && "" !in c
    ensures Inv(c, Run(c, s, steps)) && Extends(s, Run(c, s, steps))
  {
    if steps == [] {
    } else {
      var mid, last := Run(c, s, steps[..|steps| - 1]), steps[|steps| - 1];
      RunKeepsInv(c, s, steps[..|steps| - 1]);
      StepKeepsInv(c, mid, last);
      ExtendsTransitive(s, mid, Apply(c, mid, last));
    }
  }
}
