/** One cluster node: its role, term and vote, the locked sections that change them,
    and the quorum it derives from its configured node list. */
module ClusterNode {

  /** A node address; the empty string stands for "nobody". */
  type Address = string

  datatype Role = Follower | Candidate | Leader

  datatype NodeState = NodeState(role: Role, term: nat, votedFor: Address, votes: int)

  // ---------------------------------------------------------------------------
  // The configured node list
  // ---------------------------------------------------------------------------

  function SplitCommas(s: string): (parts: seq<string>)
    ensures |parts| >= 1
  {
    if s == "" then [""]
    else
      var rest := SplitCommas(s[1..]);
      if s[0] == ',' then [""] + rest else [[s[0]] + rest[0]] + rest[1..]
  }

  /** White space as Unicode defines it. */
  predicate IsSpace(ch: char) {
    || '\U{9}' <= ch <= '\U{D}' || ch in "\U{20}\U{85}\U{A0}\U{1680}\U{2028}\U{2029}\U{202F}\U{205F}\U{3000}"
    || '\U{2000}' <= ch <= '\U{200A}'
  }

  function TrimSpace(s: string): string
    decreases |s|
  {
    if s == "" then ""
    else if IsSpace(s[0]) then TrimSpace(s[1..])
    else if IsSpace(s[|s| - 1]) then TrimSpace(s[..|s| - 1])
    else s
  }

  /** How a node recognises itself in the list: its address, and its host name as the host part of an address. */
  datatype Identity = Identity(addr: Address, hostname: string, hostOf: Address -> string)

  predicate IsOwn(own: Identity, addr: Address) {
    addr == own.addr || own.hostOf(addr) == own.hostname || own.hostname + "." <= own.hostOf(addr)
  }

  /** The addresses that a parsed list contributes, blanks and own names left out. */
  function PeersIn(parts: seq<string>, own: Identity): set<Address> {
    if parts == [] then {}
    else
      var addr := TrimSpace(parts[|parts| - 1]);
      PeersIn(parts[..|parts| - 1], own) + (if addr == "" || IsOwn(own, addr) then {} else {addr})
  }

  function Peers(nodesEnv: string, own: Identity): set<Address> {
    if nodesEnv == "" then {} else PeersIn(SplitCommas(nodesEnv), own)
  }

  function Quorum(nodesEnv: string): nat {
    if nodesEnv == "" then 1 else (|SplitCommas(nodesEnv)| + 1) / 2 + 1
  }

  lemma {:induction false} PeersAtMostParts(parts: seq<string>, own: Identity)
    ensures |PeersIn(parts, own)| <= |parts|
  {
    if parts == [] {
    } else {
      PeersAtMostParts(parts[..|parts| - 1], own);
    }
  }

  /** Whatever the list looks like (repeats, blanks, the node's own name), the quorum
      derived from it is a strict majority of the node and its peers. */
  lemma QuorumIsMajority(nodesEnv: string, own: Identity)
    ensures |Peers(nodesEnv, own)| + 1 < 2 * Quorum(nodesEnv)
  {
    PeersAtMostParts(SplitCommas(nodesEnv), own);
  }

  function JoinCommas(parts: seq<string>): string
    decreases |parts|, 0
  {
    if parts == [] then "" else parts[0] + AfterComma(parts[1..])
  }

  function AfterComma(parts: seq<string>): string
    decreases |parts|, 1
  {
    if parts == [] then "" else "," + JoinCommas(parts)
  }

  lemma JoinLonger(ch: char, parts: seq<string>)
    requires parts != []
    ensures JoinCommas([[ch] + parts[0]] + parts[1..]) == [ch] + JoinCommas(parts)
  {
    var tail := AfterComma(parts[1..]);
    assert ([[ch] + parts[0]] + parts[1..])[1..] == parts[1..];
    assert ([ch] + parts[0]) + tail == [ch] + (parts[0] + tail);
  }

  lemma {:induction false} SplitMakesUp(s: string)
    ensures JoinCommas(SplitCommas(s)) == s
  {
    if s == "" {
    } else {
      var rest := SplitCommas(s[1..]);
      SplitMakesUp(s[1..]);
      JoinLonger(s[0], rest);
      assert ([""] + rest)[1..] == rest && [s[0]] + s[1..] == s;
      assert "" + ("," + JoinCommas(rest)) == [','] + JoinCommas(rest);
    }
  }

  lemma {:induction false} PartsHoldNoComma(s: string)
    ensures forall part | part in SplitCommas(s) :: ',' !in part
  {
    if s == "" {
    } else {
      PartsHoldNoComma(s[1..]);
    }
  }

  /** The parts hold no comma and, with commas between them, make up the list. */
  lemma SplitThenJoin(s: string)
    ensures JoinCommas(SplitCommas(s)) == s && forall part | part in SplitCommas(s) :: ',' !in part
  {
    SplitMakesUp(s);
    PartsHoldNoComma(s);
  }

  predicate AllSpace(s: string) { forall ch | ch in s :: IsSpace(ch) }

  ghost predicate TrimmedTo(s: string, before: string, core: string, after: string) {
    s == before + core + after && AllSpace(before) && AllSpace(after)
  }

  lemma TrimmedInFront(s: string, before: string, core: string, after: string)
    requires s != "" && IsSpace(s[0]) && TrimmedTo(s[1..], before, core, after)
    ensures TrimmedTo(s, [s[0]] + before, core, after)
  {
    assert s == [s[0]] + s[1..];
  }

  lemma TrimmedBehind(s: string, before: string, core: string, after: string)
    requires s != "" && IsSpace(s[|s| - 1]) && TrimmedTo(s[..|s| - 1], before, core, after)
    ensures TrimmedTo(s, before, core, after + [s[|s| - 1]])
  {
    assert s == s[..|s| - 1] + [s[|s| - 1]];
  }

  lemma {:induction false} TrimmedEnds(s: string)
    ensures TrimSpace(s) != "" ==> !IsSpace(TrimSpace(s)[0]) && !IsSpace(TrimSpace(s)[|TrimSpace(s)| - 1])
    decreases |s|
  {
    if s == "" {
    } else if IsSpace(s[0]) {
      TrimmedEnds(s[1..]);
    } else if IsSpace(s[|s| - 1]) {
      TrimmedEnds(s[..|s| - 1]);
    }
  }

  lemma {:induction false} TrimmedSplit(s: string) returns (before: string, after: string)
    ensures TrimmedTo(s, before, TrimSpace(s), after)
    decreases |s|
  {
    before, after := "", "";
    if s == "" {
    } else if IsSpace(s[0]) {
      var b, a := TrimmedSplit(s[1..]);
      TrimmedInFront(s, b, TrimSpace(s), a);
      before, after := [s[0]] + b, a;
    } else if IsSpace(s[|s| - 1]) {
      var b, a := TrimmedSplit(s[..|s| - 1]);
      TrimmedBehind(s, b, TrimSpace(s), a);
      before, after := b, a + [s[|s| - 1]];
    }
  }

  /** Trimming cuts off white space at both ends, all of it and nothing else. */
  lemma TrimSpaceTrims(s: string) returns (before: string, after: string)
    ensures s == before + TrimSpace(s) + after && AllSpace(before) && AllSpace(after)
    ensures TrimSpace(s) != "" ==> !IsSpace(TrimSpace(s)[0]) && !IsSpace(TrimSpace(s)[|TrimSpace(s)| - 1])
  {
    before, after := TrimmedSplit(s);
    TrimmedEnds(s);
  }

  predicate HasEntry(parts: seq<string>, addr: Address) {
    exists i | 0 <= i < |parts| :: TrimSpace(parts[i]) == addr
  }

  lemma {:induction false} PeersAreParts(parts: seq<string>, own: Identity, addr: Address)
    ensures addr in PeersIn(parts, own) <==>
              addr != "" && !IsOwn(own, addr) && HasEntry(parts, addr)
  {
    if parts == [] {
    } else {
      var shorter, last := parts[..|parts| - 1], parts[|parts| - 1];
      PeersAreParts(shorter, own, addr);
      assert forall i | 0 <= i < |shorter| :: shorter[i] == parts[i];
    }
  }

  /** The peers of a node are the trimmed entries of its list other than blanks, its own address, and addresses whose
      host is its host name, alone or followed by a domain. */
  lemma PeersAreListed(nodesEnv: string, own: Identity, addr: Address)
    ensures addr in Peers(nodesEnv, own) <==>
              && addr != "" && addr != own.addr
              && own.hostOf(addr) != own.hostname && !(own.hostname + "." <= own.hostOf(addr))
              && HasEntry(SplitCommas(nodesEnv), addr)
  {
    if nodesEnv == "" {
      assert SplitCommas(nodesEnv) == [""] && TrimSpace("") == "";
    } else {
      PeersAreParts(SplitCommas(nodesEnv), own, addr);
    }
  }

  /** The quorum is the least majority of a cluster of as many peers as the list has entries: with distinct peers all
      of them together, and no fewer than half, make it up. */
  lemma QuorumIsLeastMajority(nodesEnv: string, own: Identity)
    ensures nodesEnv == "" ==> Quorum(nodesEnv) == 1 && Peers(nodesEnv, own) == {}
    ensures nodesEnv != "" && |Peers(nodesEnv, own)| == |SplitCommas(nodesEnv)| ==>
              && 2 * (Quorum(nodesEnv) - 1) <= |Peers(nodesEnv, own)| + 1 < 2 * Quorum(nodesEnv)
              && Quorum(nodesEnv) <= |Peers(nodesEnv, own)| + 1
  {
  }

  // ---------------------------------------------------------------------------
  // The locked sections, as functions of the node state
  // ---------------------------------------------------------------------------

  /** Does the node accept `leader` as the leader of `term`? */
  predicate Trusts(s: NodeState, term: int, leader: Address) {
    term > s.term || (term == s.term && (s.votedFor == "" || s.votedFor == leader))
  }

  /** The effect of a HEARTBEAT or of a REPLICATE naming `leader` and `term`. */
  function Adopt(s: NodeState, term: int, leader: Address): NodeState {
    if Trusts(s, term, leader) then s.(role := Follower, term := term, votedFor := leader) else s
  }

  function EvaluateVote(s: NodeState, designated: bool, term: int, candidate: Address): (NodeState, bool) {
    if designated || term < s.term then (s, false)
    else
      var current := if term > s.term then s.(term := term, role := Follower, votedFor := "") else s;
      if current.votedFor == "" || current.votedFor == candidate
      then (current.(votedFor := candidate), true)
      else (current, false)
  }

  /** A vote is granted exactly to a request of a newer term, or of the present one where the vote is free or the
      candidate's already, and never by the designated leader. A newer term is entered as a follower either way. */
  lemma VoteIsGrantedExactlyWhen(s: NodeState, designated: bool, term: int, candidate: Address)
    ensures var (s', granted) := EvaluateVote(s, designated, term, candidate);
            && (granted <==> !designated && (term > s.term || (term == s.term && s.votedFor in {"", candidate})))
            && s'.term == (if designated || term <= s.term then s.term else term)
            && s'.role == (if designated || term <= s.term then s.role else Follower)
            && s'.votedFor == (if granted then candidate else s.votedFor)
            && s'.votes == s.votes
  {
  }

  /** A heartbeat or REPLICATE of a newer term is accepted from anybody, one of the present term from the node's
      leader or while it has none, and one of an older term from nobody; acceptance makes the node a follower. */
  lemma LeaderIsAcceptedExactlyWhen(s: NodeState, term: int, leader: Address)
    ensures term > s.term ==> Trusts(s, term, leader)
    ensures term < s.term ==> !Trusts(s, term, leader)
    ensures term == s.term ==> (Trusts(s, term, leader) <==> s.votedFor in {"", leader})
    ensures Trusts(s, term, leader) ==> Adopt(s, term, leader) == NodeState(Follower, term, leader, s.votes)
    ensures !Trusts(s, term, leader) ==> Adopt(s, term, leader) == s
  {
  }

  function StartElection(s: NodeState, self: Address): NodeState {
    NodeState(Candidate, s.term + 1, self, 1)
  }

  predicate Counts(s: NodeState, term: int) {
    s.role == Candidate && s.term == term
  }

  function CountVote(s: NodeState, term: int, quorum: int): NodeState {
    if Counts(s, term)
    then s.(votes := s.votes + 1, role := if s.votes + 1 >= quorum then Leader else Candidate)
    else s
  }

  /** What every locked section keeps: the term never falls, and a vote cast in a term stands
      for that whole term. */
  ghost predicate Respects(s: NodeState, s': NodeState) {
    && s.term <= s'.term
    && (s.term == s'.term && s.votedFor != "" ==> s'.votedFor == s.votedFor)
  }

  // ---------------------------------------------------------------------------
  // The node object
  // ---------------------------------------------------------------------------

  datatype Arrival = AckArrived | TimerFired

  /** How many acknowledgements arrive before the timer does. */
  function AcksBeforeTimer(arrivals: seq<Arrival>): nat {
    if arrivals == [] || arrivals[0] == TimerFired then 0 else 1 + AcksBeforeTimer(arrivals[1..])
  }

  /** All arrivals before the first timer are acknowledgements. */
  lemma {:induction false} AcksEndAtTimer(arrivals: seq<Arrival>)
    ensures var k := AcksBeforeTimer(arrivals);
            k <= |arrivals| && TimerFired !in arrivals[..k] && (k < |arrivals| ==> arrivals[k] == TimerFired)
  {
    if arrivals == [] || arrivals[0] == TimerFired {
    } else {
      var k := AcksBeforeTimer(arrivals[1..]);
      AcksEndAtTimer(arrivals[1..]);
      assert arrivals[..k + 1] == [arrivals[0]] + arrivals[1..][..k];
      assert arrivals[k + 1..] == arrivals[1..][k..];
    }
  }

  class Node {
    const own: Identity
    const nodesEnv: string
    const designated: bool
    var role: Role
    var currentTerm: nat
    var votedFor: Address
    var votesReceived: int
    var peers: set<Address>
    var quorumSize: int

    ghost function State(): NodeState
      reads this
    {
      NodeState(role, currentTerm, votedFor, votesReceived)
    }

    /** The cached quorum, when there is one, is the quorum of the configured list. */
    ghost predicate Valid()
      reads this
    {
      && peers == Peers(nodesEnv, own)
      && (quorumSize > 0 ==> quorumSize == Quorum(nodesEnv))
    }

    constructor (own: Identity, nodesEnv: string, designated: bool)
      ensures Valid()
      ensures this.own == own && this.nodesEnv == nodesEnv && this.designated == designated
      ensures State() == NodeState(if designated then Leader else Follower, 0, "", 0)
    {
      this.own, this.nodesEnv, this.designated := own, nodesEnv, designated;
      role := if designated then Leader else Follower;
      currentTerm, votedFor, votesReceived, quorumSize := 0, "", 0, 0;
      peers := {};
      new;
      LoadPeersFromEnv();
    }

    method LoadPeersFromEnv()
      requires peers == {}
      modifies this`peers
      ensures peers == Peers(nodesEnv, own)
    {
      if nodesEnv == "" { return; }
      var parts := SplitCommas(nodesEnv);
      for i := 0 to |parts|
        invariant peers == PeersIn(parts[..i], own)
      {
        var addr := TrimSpace(parts[i]);
        assert parts[..i + 1][..i] == parts[..i];
        if addr == "" || IsOwn(own, addr) { continue; }
        peers := peers + {addr};
      }
      assert parts[..|parts|] == parts;
    }

    method CalculateQuorum() returns (q: int)
      requires Valid()
      modifies this`quorumSize
      ensures Valid() && q == Quorum(nodesEnv)
      ensures |peers| + 1 < 2 * q
    {
      QuorumIsMajority(nodesEnv, own);
      if quorumSize > 0 { return quorumSize; }
      if nodesEnv == "" {
        q := 1;
      } else {
        var totalClusterSize := |SplitCommas(nodesEnv)| + 1;
        q := totalClusterSize / 2 + 1;
      }
      quorumSize := q;
    }

    method HandleHeartbeat(term: int, leader: Address)
      modifies this`role, this`currentTerm, this`votedFor
      ensures State() == Adopt(old(State()), term, leader)
      ensures Respects(old(State()), State())
      ensures term > old(currentTerm) ==> role == Follower && currentTerm == term && votedFor == leader
    {
      var acceptsHeartbeat := term > currentTerm || (term == currentTerm && (votedFor == leader || votedFor == ""));
      if acceptsHeartbeat {
        if role != Follower { role := Follower; }
        currentTerm := term;
        votedFor := leader;
      }
    }

    /** The locked part of a REPLICATE; the caller acknowledges exactly when it is trusted. */
    method HandleReplicate(term: int, leader: Address) returns (trusted: bool)
      modifies this`role, this`currentTerm, this`votedFor
      ensures trusted == Trusts(old(State()), term, leader)
      ensures State() == Adopt(old(State()), term, leader)
      ensures Respects(old(State()), State())
      ensures term > old(currentTerm) || (term == old(currentTerm) && old(votedFor) in {"", leader}) <==> trusted
      ensures trusted ==> role == Follower && currentTerm == term && votedFor == leader
      ensures !trusted ==> State() == old(State())
    {
      trusted := term > currentTerm || (term == currentTerm && (votedFor == "" || votedFor == leader));
      if trusted {
        currentTerm := term;
        role := Follower;
        votedFor := leader;
      }
    }

    method HandleRequestVote(term: int, candidate: Address) returns (granted: bool)
      modifies this`role, this`currentTerm, this`votedFor
      ensures (State(), granted) == EvaluateVote(old(State()), designated, term, candidate)
      ensures Respects(old(State()), State())
      ensures granted <==> !designated && (term > old(currentTerm) ||
                                           (term == old(currentTerm) && old(votedFor) in {"", candidate}))
      ensures votedFor == if granted then candidate else old(votedFor)
      ensures currentTerm == if designated || term <= old(currentTerm) then old(currentTerm) else term
      ensures role == if designated || term <= old(currentTerm) then old(role) else Follower
    {
      if designated { return false; }
      if term < currentTerm { return false; }
      if term > currentTerm {
        currentTerm := term;
        role := Follower;
        votedFor := "";
      }
      if votedFor == "" || votedFor == candidate {
        votedFor := candidate;
        return true;
      }
      return false;
    }

    method BeginElection() returns (term: nat, asked: set<Address>)
      modifies this`role, this`currentTerm, this`votedFor, this`votesReceived
      ensures State() == StartElection(old(State()), own.addr)
      ensures role == Candidate && currentTerm == old(currentTerm) + 1 && votedFor == own.addr && votesReceived == 1
      ensures Respects(old(State()), State())
      ensures term == currentTerm && asked == peers
    {
      role := Candidate;
      currentTerm := currentTerm + 1;
      votedFor := own.addr;
      votesReceived := 1;
      term, asked := currentTerm, peers;
    }

    method ReceiveGrant(term: int)
      requires Valid()
      modifies this`role, this`votesReceived, this`quorumSize
      ensures Valid()
      ensures State() == CountVote(old(State()), term, Quorum(nodesEnv))
      ensures votesReceived == old(votesReceived) + if old(role) == Candidate && old(currentTerm) == term then 1 else 0
      ensures role == if votesReceived > old(votesReceived) && votesReceived >= Quorum(nodesEnv)
                      then Leader else old(role)
    {
      var quorum := CalculateQuorum();
      if role == Candidate && currentTerm == term {
        votesReceived := votesReceived + 1;
        if votesReceived >= quorum {
          role := Leader;
        }
      }
    }

    /** The wait of `Replicate` for the peers it found alive: success is a quorum, the leader included,
        reached before the timer; with no live peer it succeeds at once. */
    method AwaitReplication(alive: set<Address>, arrivals: seq<Arrival>) returns (ok: bool)
      requires Valid()
      modifies this`quorumSize
      ensures Valid()
      ensures ok <==> alive == {} || 1 + AcksBeforeTimer(arrivals) >= Quorum(nodesEnv)
    {
      if alive == {} { return true; }
      var successCount, next := 1, 0;
      var quorum := CalculateQuorum();
      while successCount < quorum
        invariant 0 <= next <= |arrivals|
        invariant successCount == 1 + next
        invariant AcksBeforeTimer(arrivals) == next + AcksBeforeTimer(arrivals[next..])
        decreases quorum - successCount
      {
        if next == |arrivals| || arrivals[next] == TimerFired { return false; }
        successCount, next := successCount + 1, next + 1;
      }
      return true;
    }
  }
}
