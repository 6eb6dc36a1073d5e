/** No lost wake-up: while a consumer is parked on a topic, or on a pattern that the topic matches, every message
    that may be wanted from the topic still has its push to come, over every interleaving. */
module DispatchWakeups {
  import opened Messages
  import opened Queueing
  import opened Dispatch
  import opened DispatchChannels

  /** Pairs of a pattern and a topic it matches. */
  type Watch = set<(TopicId, TopicId)>

  /** Consumers parked on `w` want the messages of `t`. */
  predicate Watches(watch: Watch, w: TopicId, t: TopicId) { w == t || (w, t) in watch }

  /** The push will still look at the waiting list of `w`, or has found a consumer and will remove its message. */
  predicate Visits(job: Job, w: TopicId) {
    if job.broadcast then job.phase == Offering && (w == job.topic || w in job.wild)
    else job.phase == Offering ==> w == job.topic || w in job.wild
  }

  predicate Covers(job: Job, w: TopicId, t: TopicId, m: Message) {
    job.topic == t && job.msg == m && Visits(job, w)
  }

  ghost predicate Pending(s: State, w: TopicId, t: TopicId, m: Message) {
    exists j :: j in s.jobs && Covers(s.jobs[j], w, t, m)
  }

  /** No ready message is wanted by a parked consumer without a push still to come. */
  ghost predicate NoLostWakeup(watch: Watch, s: State) {
    forall w, t, m | Watches(watch, w, t) && w in s.topics && t in s.topics && s.topics[w].waiting != []
                     && m in All(s.topics[t].queues) && FateOf(m, s.now) == Ready :: Pending(s, w, t, m)
  }

  /** The message does not expire before its delivery time. */
  predicate Deliverable(m: Message) {
    m.deliverAt.Some? && m.expiresAt.Some? ==> m.deliverAt.value <= m.expiresAt.value
  }

  /** The message is ready or will be. */
  predicate Hopeful(m: Message, now: Time) { Deliverable(m) && !Expired(m, now) }

  // ---------------------------------------------------------------------------
  // Invariant
  // ---------------------------------------------------------------------------

  function EarlyWithId(id: string, now: Time): Message -> bool {
    (m: Message) => m.id == id && !Due(m, now)
  }

  /** A push that waits for its message to be due has all of its way before it. */
  ghost predicate PushOk(watch: Watch, s: State, job: Job) {
    && job.topic in s.topics
    && (!Due(job.msg, s.now) ==> job.phase == Offering)
    && (!Due(job.msg, s.now) && Deliverable(job.msg) ==>
          forall w | (w, job.topic) in watch && w in s.topics && w != job.topic :: w in job.wild)
  }

  /** No two pushes are of messages with the same id. */
  ghost predicate PushesOk(watch: Watch, s: State) {
    && (forall j | j in s.jobs :: PushOk(watch, s, s.jobs[j]))
    && (forall j, k | j in s.jobs && k in s.jobs && s.jobs[j].msg.id == s.jobs[k].msg.id :: j == k)
  }

  /** Messages not yet due have their push to come, and share their id with no other of them. */
  ghost predicate EarlyOk(s: State, t: TopicId)
    requires t in s.topics
  {
    forall m | m in All(s.topics[t].queues) && !Due(m, s.now) && Deliverable(m) ::
      Pending(s, t, t, m) && CountAll(s.topics[t].queues, EarlyWithId(m.id, s.now)) <= 1
  }

  /** What may be wanted from `t` has its push to `w` still to come, and shares its id with no other message. */
  ghost predicate Coming(s: State, w: TopicId, t: TopicId)
    requires t in s.topics
  {
    forall m | m in All(s.topics[t].queues) && Hopeful(m, s.now) ::
      Pending(s, w, t, m) && CountAll(s.topics[t].queues, HasId(m.id)) <= 1
  }

  ghost predicate ParkedOk(watch: Watch, s: State) {
    forall w, t | Watches(watch, w, t) && w in s.topics && t in s.topics && s.topics[w].waiting != [] :: Coming(s, w, t)
  }

  ghost predicate WakeInv(watch: Watch, s: State) {
    PushesOk(watch, s) && (forall t | t in s.topics :: EarlyOk(s, t)) && ParkedOk(watch, s)
  }

  lemma WakeInvMeansNoLostWakeup(watch: Watch, s: State)
    requires WakeInv(watch, s)
    ensures NoLostWakeup(watch, s)
  {
    forall w, t, m | Watches(watch, w, t) && w in s.topics && t in s.topics && s.topics[w].waiting != []
                     && m in All(s.topics[t].queues) && FateOf(m, s.now) == Ready
      ensures Pending(s, w, t, m)
    {
      assert Coming(s, w, t) && Hopeful(m, s.now);
    }
  }

  /** Recovered messages come without a push; it takes that each of them is due or will never be ready. */
  ghost predicate NoneDelayed(now: Time, recovered: map<TopicId, Queues>) {
    forall t, m | t in recovered && m in All(recovered[t]) :: Due(m, now) || !Deliverable(m)
  }

  lemma InitWake(watch: Watch, now: Time, recovered: map<TopicId, Queues>)
    requires NoneDelayed(now, recovered)
    ensures WakeInv(watch, Init(now, recovered))
  {
  }

  lemma {:induction false} CountNone(s: seq<Message>, p: Message -> bool)
    requires forall m | m in s :: !p(m)
    ensures Count(s, p) == 0
  {
    if s == [] {
    } else {
      CountNone(s[..|s| - 1], p);
    }
  }

  lemma CountAllNone(q: Queues, p: Message -> bool)
    requires forall m | m in All(q) :: !p(m)
    ensures CountAll(q, p) == 0
  {
    CountNone(q.high, p);
    CountNone(q.normal, p);
    CountNone(q.low, p);
  }

  lemma {:induction false} CountWeaker(s: seq<Message>, p: Message -> bool, p': Message -> bool)
    requires forall m | m in s :: p(m) ==> p'(m)
    ensures Count(s, p) <= Count(s, p')
  {
    if s == [] {
    } else {
      CountWeaker(s[..|s| - 1], p, p');
    }
  }

  lemma CountAllWeaker(q: Queues, p: Message -> bool, p': Message -> bool)
    requires forall m | m in All(q) :: p(m) ==> p'(m)
    ensures CountAll(q, p) <= CountAll(q, p')
  {
    CountWeaker(q.high, p, p');
    CountWeaker(q.normal, p, p');
    CountWeaker(q.low, p, p');
  }

  // ---------------------------------------------------------------------------
  // Steps that only take messages and consumers away
  // ---------------------------------------------------------------------------

  /** `q'` holds no message that `q` does not, and none more often. */
  ghost predicate Shrinks(q: Queues, q': Queues) {
    && (forall m | m in All(q') :: m in All(q))
    && (forall p: Message -> bool :: CountAll(q', p) <= CountAll(q, p))
  }

  /** The pushes of `s'` that matter are still those of `s`. */
  ghost predicate KeepsPending(watch: Watch, s: State, s': State)
    requires s'.topics.Keys == s.topics.Keys
  {
    && (forall t, m | t in s.topics && m in All(s'.topics[t].queues) && !Due(m, s.now) && Pending(s, t, t, m) ::
          Pending(s', t, t, m))
    && (forall w, t, m | Watches(watch, w, t) && w in s.topics && t in s.topics && s'.topics[w].waiting != []
                         && m in All(s'.topics[t].queues) && Hopeful(m, s.now) && Pending(s, w, t, m) ::
          Pending(s', w, t, m))
  }

  ghost predicate OnlyLess(s: State, s': State) {
    && s'.now == s.now && s'.topics.Keys == s.topics.Keys
    && (forall t | t in s.topics :: Shrinks(s.topics[t].queues, s'.topics[t].queues))
    && (forall t | t in s.topics && s'.topics[t].waiting != [] :: s.topics[t].waiting != [])
  }

  lemma CarryOver(watch: Watch, s: State, s': State)
    requires WakeInv(watch, s) && PushesOk(watch, s') && OnlyLess(s, s') && KeepsPending(watch, s, s')
    ensures WakeInv(watch, s')
  {
    forall t | t in s'.topics
      ensures EarlyOk(s', t)
    {
      EarlyCarriesOver(watch, s, s', t);
    }
    forall w, t | Watches(watch, w, t) && w in s'.topics && t in s'.topics && s'.topics[w].waiting != []
      ensures Coming(s', w, t)
    {
      ComingCarriesOver(watch, s, s', w, t);
    }
  }

  lemma EarlyCarriesOver(watch: Watch, s: State, s': State, t: TopicId)
    requires OnlyLess(s, s') && KeepsPending(watch, s, s') && t in s.topics && EarlyOk(s, t)
    ensures EarlyOk(s', t)
  {
    var q, q' := s.topics[t].queues, s'.topics[t].queues;
    assert Shrinks(q, q');
    forall m | m in All(q') && !Due(m, s.now) && Deliverable(m)
      ensures Pending(s', t, t, m) && CountAll(q', EarlyWithId(m.id, s.now)) <= 1
    {
      assert m in All(q);
      assert CountAll(q', EarlyWithId(m.id, s.now)) <= CountAll(q, EarlyWithId(m.id, s.now));
    }
  }

  lemma ComingCarriesOver(watch: Watch, s: State, s': State, w: TopicId, t: TopicId)
    requires OnlyLess(s, s') && KeepsPending(watch, s, s') && Watches(watch, w, t)
    requires w in s.topics && t in s.topics && s'.topics[w].waiting != [] && Coming(s, w, t)
    ensures Coming(s', w, t)
  {
    var q, q' := s.topics[t].queues, s'.topics[t].queues;
    assert Shrinks(q, q');
    forall m | m in All(q') && Hopeful(m, s.now)
      ensures Pending(s', w, t, m) && CountAll(q', HasId(m.id)) <= 1
    {
      assert m in All(q);
      assert CountAll(q', HasId(m.id)) <= CountAll(q, HasId(m.id));
    }
  }

  /** Steps that leave the pushes alone. */
  lemma SamePushes(watch: Watch, s: State, s': State)
    requires WakeInv(watch, s) && OnlyLess(s, s') && s'.jobs == s.jobs
    ensures WakeInv(watch, s')
  {
    SamePending(s, s');
    assert PushesOk(watch, s') by {
      forall j | j in s'.jobs
        ensures PushOk(watch, s', s'.jobs[j])
      {
        assert PushOk(watch, s, s.jobs[j]);
      }
    }
    CarryOver(watch, s, s');
  }

  lemma SamePending(s: State, s': State)
    requires forall j | j in s.jobs :: j in s'.jobs && s'.jobs[j] == s.jobs[j]
    ensures forall w, t, m :: Pending(s, w, t, m) ==> Pending(s', w, t, m)
  {
    forall w, t, m | Pending(s, w, t, m)
      ensures Pending(s', w, t, m)
    {
      var j :| j in s.jobs && Covers(s.jobs[j], w, t, m);
      assert j in s'.jobs && Covers(s'.jobs[j], w, t, m);
    }
  }

  lemma ShrinksSelf(q: Queues)
    ensures Shrinks(q, q)
  {
  }

  lemma ShrinkKeeps(watch: Watch, s: State, t: TopicId, q': Queues)
    requires WakeInv(watch, s) && t in s.topics && Shrinks(s.topics[t].queues, q')
    ensures WakeInv(watch, SetQueues(s, t, q'))
  {
    var s' := SetQueues(s, t, q');
    forall x | x in s.topics
      ensures Shrinks(s.topics[x].queues, s'.topics[x].queues)
    {
      ShrinksSelf(s.topics[x].queues);
    }
    SamePushes(watch, s, s');
  }

  lemma ExtractShrinks(q: Queues, limit: int, now: Time)
    ensures Shrinks(q, Extract(q, limit, now).left)
  {
    ExtractSound(q, limit, now);
    forall p: Message -> bool
      ensures CountAll(Extract(q, limit, now).left, p) <= CountAll(q, p)
    {
      ExtractPartitions(q, limit, now, p);
    }
  }

  lemma RemoveShrinks(q: Queues, id: string)
    ensures Shrinks(q, Remove(q, id))
  {
    forall p: Message -> bool
      ensures CountAll(Remove(q, id), p) <= CountAll(q, p)
      ensures forall m | m in All(Remove(q, id)) :: m in All(q)
    {
      RemoveTakesOne(q, id, p);
    }
    RemoveTakesOne(q, id, HasId(id));
  }

  lemma PurgeShrinks(q: Queues, now: Time)
    ensures Shrinks(q, Purge(q, now))
  {
    forall p: Message -> bool
      ensures CountAll(Purge(q, now), p) <= CountAll(q, p)
    {
      PurgePartitions(q, now, p);
    }
    PurgePartitions(q, now, HasId(""));
  }

  // ---------------------------------------------------------------------------
  // Pushes
  // ---------------------------------------------------------------------------

  /** The pushes of `s'` are those of `s`, except that push `j` has moved on or ended. */
  ghost predicate OnlyMoves(s: State, s': State, j: JobId) {
    && j in s.jobs && s'.jobs.Keys <= s.jobs.Keys
    && (forall k | k in s.jobs && k != j :: k in s'.jobs && s'.jobs[k] == s.jobs[k])
    && (j in s'.jobs ==> s'.jobs[j].topic == s.jobs[j].topic && s'.jobs[j].msg == s.jobs[j].msg)
  }

  /** Whatever push `j` still covered for somebody parked, it covers or is no longer queued. */
  ghost predicate LeavesNothing(watch: Watch, s: State, s': State, j: JobId)
    requires j in s.jobs
  {
    forall w | w in s'.topics && s'.topics[w].waiting != []
               && Watches(watch, w, s.jobs[j].topic) && Visits(s.jobs[j], w) ::
      || (j in s'.jobs && Visits(s'.jobs[j], w))
      || (s.jobs[j].topic in s'.topics && s.jobs[j].msg !in All(s'.topics[s.jobs[j].topic].queues))
      || !Hopeful(s.jobs[j].msg, s.now)
  }

  lemma PushesStayOk(watch: Watch, s: State, s': State, j: JobId)
    requires PushesOk(watch, s) && OnlyMoves(s, s', j) && Due(s.jobs[j].msg, s.now)
    requires s'.now == s.now && s'.topics.Keys == s.topics.Keys
    ensures PushesOk(watch, s')
  {
    forall k | k in s'.jobs
      ensures PushOk(watch, s', s'.jobs[k])
    {
      assert PushOk(watch, s, s.jobs[k]);
    }
  }

  lemma PendingStays(s: State, s': State, j: JobId, w: TopicId, t: TopicId, m: Message)
    requires OnlyMoves(s, s', j) && Pending(s, w, t, m)
    requires Covers(s.jobs[j], w, t, m) ==> j in s'.jobs && Visits(s'.jobs[j], w)
    ensures Pending(s', w, t, m)
  {
    var k :| k in s.jobs && Covers(s.jobs[k], w, t, m);
    assert k in s'.jobs && Covers(s'.jobs[k], w, t, m);
  }

  /** A push that moves on or ends harms nobody when it leaves nothing behind. */
  lemma PushMovesOn(watch: Watch, s: State, s': State, j: JobId)
    requires WakeInv(watch, s) && OnlyMoves(s, s', j) && Due(s.jobs[j].msg, s.now)
    requires OnlyLess(s, s') && LeavesNothing(watch, s, s', j)
    ensures WakeInv(watch, s')
  {
    PushesStayOk(watch, s, s', j);
    forall t, m | t in s.topics && m in All(s'.topics[t].queues) && !Due(m, s.now) && Pending(s, t, t, m)
      ensures Pending(s', t, t, m)
    {
      PendingStays(s, s', j, t, t, m);
    }
    forall w, t, m | Watches(watch, w, t) && w in s.topics && t in s.topics && s'.topics[w].waiting != []
                     && m in All(s'.topics[t].queues) && Hopeful(m, s.now) && Pending(s, w, t, m)
      ensures Pending(s', w, t, m)
    {
      PendingStays(s, s', j, w, t, m);
    }
    CarryOver(watch, s, s');
  }

  lemma SameQueues(s: State, s': State)
    requires s'.now == s.now && s'.topics.Keys == s.topics.Keys
    requires forall t | t in s.topics :: s'.topics[t].queues == s.topics[t].queues
    requires forall t | t in s.topics && s'.topics[t].waiting != [] :: s.topics[t].waiting != []
    ensures OnlyLess(s, s')
  {
    forall t | t in s.topics
      ensures Shrinks(s.topics[t].queues, s'.topics[t].queues)
    {
      ShrinksSelf(s.topics[t].queues);
    }
  }

  lemma RemovalKeeps(watch: Watch, s: State, j: JobId)
    requires WakeInv(watch, s) && j in s.jobs && Due(s.jobs[j].msg, s.now)
    ensures var t := s.jobs[j].topic;
            t in s.topics && WakeInv(watch, Finish(SetQueues(s, t, Remove(s.topics[t].queues, s.jobs[j].msg.id)), j))
  {
    assert PushOk(watch, s, s.jobs[j]);
    var t, m := s.jobs[j].topic, s.jobs[j].msg;
    var q, q' := s.topics[t].queues, Remove(s.topics[t].queues, m.id);
    var s' := Finish(SetQueues(s, t, q'), j);
    forall x | x in s.topics
      ensures Shrinks(s.topics[x].queues, s'.topics[x].queues)
    {
      ShrinksSelf(s.topics[x].queues);
      RemoveShrinks(q, m.id);
    }
    forall w | w in s'.topics && s'.topics[w].waiting != [] && Watches(watch, w, t) && Hopeful(m, s.now)
      ensures m !in All(q')
    {
      assert Coming(s, w, t);
      RemoveLonely(q, m);
    }
    PushMovesOn(watch, s, s', j);
  }

  /** A message that shares its id with no other is gone once its id is removed. */
  lemma RemoveLonely(q: Queues, m: Message)
    requires m in All(q) ==> CountAll(q, HasId(m.id)) <= 1
    ensures m !in All(Remove(q, m.id))
  {
    RemoveTakesOne(q, m.id, HasId(m.id));
    if m in All(Remove(q, m.id)) {
      CountAllMember(Remove(q, m.id), HasId(m.id), m);
      assert m in All(q);
      MemberHas(q, m);
    }
  }

  lemma MemberHas(q: Queues, m: Message)
    requires m in All(q)
    ensures Has(q.high, m.id) || Has(q.normal, m.id) || Has(q.low, m.id)
  {
    if m in q.high {
      var i :| 0 <= i < |q.high| && q.high[i] == m;
    } else if m in q.normal {
      var i :| 0 <= i < |q.normal| && q.normal[i] == m;
    } else {
      var i :| 0 <= i < |q.low| && q.low[i] == m;
    }
  }

  lemma SweepLeavesNothing(watch: Watch, s: State, j: JobId)
    requires j in s.jobs && s.jobs[j].phase == Offering && Next(s.jobs[j]) in s.topics && s.jobs[j].broadcast
    ensures LeavesNothing(watch, s, Sweep(s, j), j) && OnlyMoves(s, Sweep(s, j), j) && OnlyLess(s, Sweep(s, j))
  {
    SameQueues(s, Sweep(s, j));
  }

  lemma SweepKeepsWake(watch: Watch, s: State, j: JobId)
    requires WakeInv(watch, s) && j in s.jobs && Due(s.jobs[j].msg, s.now) && s.jobs[j].phase == Offering
    requires Next(s.jobs[j]) in s.topics && s.jobs[j].broadcast
    ensures WakeInv(watch, Sweep(s, j))
  {
    SweepLeavesNothing(watch, s, j);
    PushMovesOn(watch, s, Sweep(s, j), j);
  }

  lemma OfferLeavesNothing(watch: Watch, s: State, j: JobId)
    requires j in s.jobs && s.jobs[j].phase == Offering && Next(s.jobs[j]) in s.topics && !s.jobs[j].broadcast
    ensures LeavesNothing(watch, s, Offer(s, j), j) && OnlyMoves(s, Offer(s, j), j) && OnlyLess(s, Offer(s, j))
  {
    SameQueues(s, Offer(s, j));
  }

  lemma OfferKeepsWake(watch: Watch, s: State, j: JobId)
    requires WakeInv(watch, s) && j in s.jobs && Due(s.jobs[j].msg, s.now) && s.jobs[j].phase == Offering
    requires Next(s.jobs[j]) in s.topics && !s.jobs[j].broadcast
    ensures WakeInv(watch, Offer(s, j))
  {
    OfferLeavesNothing(watch, s, j);
    PushMovesOn(watch, s, Offer(s, j), j);
  }

  /** The push sends to the next of its channels, or ends. */
  function SendOn(s: State, j: JobId): State
    requires j in s.jobs
  {
    if s.jobs[j].held == [] then Finish(s, j) else SendHeld(s, j)
  }

  lemma SendingLeavesNothing(watch: Watch, s: State, j: JobId)
    requires ChannelInv(s) && j in s.jobs && s.jobs[j].phase == Sending
    ensures LeavesNothing(watch, s, SendOn(s, j), j) && OnlyMoves(s, SendOn(s, j), j) && OnlyLess(s, SendOn(s, j))
  {
    var job := s.jobs[j];
    assert AllAt(s.place, job.held, HeldBy(j)) && JobShape(job);
    if job.held != [] {
      SendGoesThrough(s, job.held[0], job.msg);
    }
    SameQueues(s, SendOn(s, j));
  }

  lemma SendingKeepsWake(watch: Watch, s: State, j: JobId)
    requires WakeInv(watch, s) && ChannelInv(s) && j in s.jobs && Due(s.jobs[j].msg, s.now)
    requires s.jobs[j].phase == Sending
    ensures WakeInv(watch, SendOn(s, j))
  {
    SendingLeavesNothing(watch, s, j);
    PushMovesOn(watch, s, SendOn(s, j), j);
  }

  lemma PushKeepsWake(watch: Watch, s: State, j: JobId)
    requires WakeInv(watch, s) && ChannelInv(s)
    ensures WakeInv(watch, ApplyPush(s, j))
  {
    if j in s.jobs && Due(s.jobs[j].msg, s.now) {
      match s.jobs[j].phase
      case Offering =>
        if Next(s.jobs[j]) in s.topics {
          if s.jobs[j].broadcast { SweepKeepsWake(watch, s, j); } else { OfferKeepsWake(watch, s, j); }
        }
      case Sending => SendingKeepsWake(watch, s, j);
      case Removing => RemovalKeeps(watch, s, j);
    }
  }

  // ---------------------------------------------------------------------------
  // Time
  // ---------------------------------------------------------------------------

  lemma TickKeeps(watch: Watch, s: State, now: Time)
    requires WakeInv(watch, s) && now >= s.now
    ensures WakeInv(watch, s.(now := now))
  {
    var s' := s.(now := now);
    SamePending(s, s');
    forall j | j in s'.jobs
      ensures PushOk(watch, s', s'.jobs[j])
    {
      assert PushOk(watch, s, s.jobs[j]);
    }
    forall t, m | t in s'.topics && m in All(s'.topics[t].queues) && !Due(m, now) && Deliverable(m)
      ensures Pending(s', t, t, m) && CountAll(s'.topics[t].queues, EarlyWithId(m.id, now)) <= 1
    {
      assert EarlyOk(s, t);
      CountAllWeaker(s.topics[t].queues, EarlyWithId(m.id, now), EarlyWithId(m.id, s.now));
    }
    forall w, t | Watches(watch, w, t) && w in s'.topics && t in s'.topics && s'.topics[w].waiting != []
      ensures Coming(s', w, t)
    {
      assert Coming(s, w, t);
    }
  }

  // ---------------------------------------------------------------------------
  // Publishing
  // ---------------------------------------------------------------------------

  /** `q'` is `q` with `m` added, perhaps at the expense of others; no message of `q` has the id of `m`. */
  ghost predicate Adds(q: Queues, q': Queues, m: Message) {
    && (forall x | x in All(q) :: x.id != m.id)
    && (forall x | x in All(q') :: x == m || x in All(q))
    && (forall p: Message -> bool :: CountAll(q', p) <= CountAll(q, p) + if p(m) then 1 else 0)
  }

  /** The new message is alone with its id, and the others are as alone as they were. */
  lemma AddedIsAlone(q: Queues, q': Queues, m: Message, now: Time)
    requires Adds(q, q', m)
    ensures CountAll(q', HasId(m.id)) <= 1 && CountAll(q', EarlyWithId(m.id, now)) <= 1
    ensures forall x | x in All(q) ::
              && CountAll(q', HasId(x.id)) <= CountAll(q, HasId(x.id))
              && CountAll(q', EarlyWithId(x.id, now)) <= CountAll(q, EarlyWithId(x.id, now))
  {
    CountAllNone(q, HasId(m.id));
    CountAllNone(q, EarlyWithId(m.id, now));
  }

  /** A publish knows the patterns that matter: for a message that is ready those on which somebody is parked, for
      one that will be ready all that its topic matches. */
  ghost predicate Knows(watch: Watch, s: State, t: TopicId, m: Message, wild: seq<TopicId>) {
    Hopeful(m, s.now) ==>
      forall w | (w, t) in watch && w in s.topics && w != t && (Due(m, s.now) ==> s.topics[w].waiting != []) ::
        w in wild
  }

  /** The state after a topic has gained a message and the push for it. */
  ghost predicate Grows(watch: Watch, s: State, s': State, j: JobId) {
    && j !in s.jobs && j in s'.jobs && s'.jobs == s.jobs[j := s'.jobs[j]]
    && s'.now == s.now && s'.topics.Keys == s.topics.Keys
    && var job := s'.jobs[j];
       && job.topic in s.topics && job.phase == Offering
       && Knows(watch, s, job.topic, job.msg, job.wild)
       && (forall k | k in s.jobs :: s.jobs[k].msg.id != job.msg.id)
       && Adds(s.topics[job.topic].queues, s'.topics[job.topic].queues, job.msg)
       && (forall t | t in s.topics :: s'.topics[t].waiting == s.topics[t].waiting)
       && (forall t | t in s.topics && t != job.topic :: s'.topics[t] == s.topics[t])
  }

  lemma PushesGrow(watch: Watch, s: State, s': State, j: JobId)
    requires PushesOk(watch, s) && Grows(watch, s, s', j)
    ensures PushesOk(watch, s')
  {
    forall k | k in s'.jobs
      ensures PushOk(watch, s', s'.jobs[k])
    {
      if k != j { assert PushOk(watch, s, s.jobs[k]); }
    }
  }

  lemma EarlyGrows(watch: Watch, s: State, s': State, j: JobId, t: TopicId)
    requires Grows(watch, s, s', j) && t in s.topics && EarlyOk(s, t)
    ensures EarlyOk(s', t)
  {
    SamePending(s, s');
    var job := s'.jobs[j];
    if t == job.topic {
      AddedIsAlone(s.topics[t].queues, s'.topics[t].queues, job.msg, s.now);
      assert Covers(job, t, t, job.msg) && Pending(s', t, t, job.msg);
    }
  }

  lemma ComingGrows(watch: Watch, s: State, s': State, j: JobId, w: TopicId, t: TopicId)
    requires Grows(watch, s, s', j) && w in s.topics && t in s.topics && Watches(watch, w, t) && Coming(s, w, t)
    requires s.topics[w].waiting != []
    ensures Coming(s', w, t)
  {
    SamePending(s, s');
    var job := s'.jobs[j];
    if t == job.topic {
      AddedIsAlone(s.topics[t].queues, s'.topics[t].queues, job.msg, s.now);
      assert Hopeful(job.msg, s.now) ==> Covers(job, w, t, job.msg) && Pending(s', w, t, job.msg);
    }
  }

  lemma GrowKeeps(watch: Watch, s: State, s': State, j: JobId)
    requires WakeInv(watch, s) && Grows(watch, s, s', j)
    ensures WakeInv(watch, s')
  {
    PushesGrow(watch, s, s', j);
    forall t | t in s'.topics
      ensures EarlyOk(s', t)
    {
      EarlyGrows(watch, s, s', j, t);
    }
    forall w, t | Watches(watch, w, t) && w in s'.topics && t in s'.topics && s'.topics[w].waiting != []
      ensures Coming(s', w, t)
    {
      ComingGrows(watch, s, s', j, w, t);
    }
  }

  lemma EnqueueAdds(q: Queues, m: Message, priority: string, maxMessages: nat, policy: Policy)
    requires maxMessages > 0 && Enqueue(q, m, priority, maxMessages, policy).Accepted?
    requires forall x | x in All(q) :: x.id != m.id
    ensures Adds(q, Enqueue(q, m, priority, maxMessages, policy).queues, m)
  {
    var q' := Enqueue(q, m, priority, maxMessages, policy).queues;
    EnqueueConserves(q, m, priority, maxMessages, policy, HasId(""));
    forall p: Message -> bool
      ensures CountAll(q', p) <= CountAll(q, p) + if p(m) then 1 else 0
    {
      EnqueueConserves(q, m, priority, maxMessages, policy, p);
    }
  }

  /** The publish goes through: the id is new and the topic takes the message. */
  ghost predicate Accepts(s: State, j: JobId, t: TopicId, m: Message, priority: string, wild: seq<TopicId>,
                          maxMessages: nat, policy: Policy) {
    && j !in s.jobs && t in s.topics && (forall w | w in wild :: w in s.topics) && maxMessages > 0 && NewId(s, m.id)
    && Enqueue(s.topics[t].queues, m, priority, maxMessages, policy).Accepted?
  }

  lemma PublishKeeps(watch: Watch, s: State, j: JobId, t: TopicId, m: Message, priority: string, broadcast: bool,
                     wild: seq<TopicId>, maxMessages: nat, policy: Policy)
    requires WakeInv(watch, s)
    requires Accepts(s, j, t, m, priority, wild, maxMessages, policy) ==> Knows(watch, s, t, m, wild)
    ensures WakeInv(watch, ApplyPublish(s, j, t, m, priority, broadcast, wild, maxMessages, policy))
  {
    if Accepts(s, j, t, m, priority, wild, maxMessages, policy) {
      EnqueueAdds(s.topics[t].queues, m, priority, maxMessages, policy);
      GrowKeeps(watch, s, ApplyPublish(s, j, t, m, priority, broadcast, wild, maxMessages, policy), j);
    }
  }

  // ---------------------------------------------------------------------------
  // Parking
  // ---------------------------------------------------------------------------

  /** A push that waits for its message to be due will look at every list that wants the message. */
  lemma EarlyIsWatched(watch: Watch, s: State, w: TopicId, t: TopicId, m: Message)
    requires PushesOk(watch, s) && Pending(s, t, t, m) && !Due(m, s.now) && Deliverable(m)
    requires Watches(watch, w, t) && w in s.topics
    ensures Pending(s, w, t, m)
  {
    var j :| j in s.jobs && Covers(s.jobs[j], t, t, m);
    assert PushOk(watch, s, s.jobs[j]) && Covers(s.jobs[j], w, t, m);
  }

  /** A consumer that parks on `w` now misses nothing in `t`: what is ready there has its push to `w` to come,
      and no two messages share an id. */
  ghost predicate Unmissed(s: State, w: TopicId, t: TopicId)
    requires t in s.topics
  {
    forall m | m in All(s.topics[t].queues) && Hopeful(m, s.now) ::
      (Due(m, s.now) ==> Pending(s, w, t, m)) && CountAll(s.topics[t].queues, HasId(m.id)) <= 1
  }

  lemma UnmissedIsComing(watch: Watch, s: State, w: TopicId, t: TopicId)
    requires PushesOk(watch, s) && t in s.topics && w in s.topics && EarlyOk(s, t) && Watches(watch, w, t)
    requires Unmissed(s, w, t)
    ensures Coming(s, w, t)
  {
    forall m | m in All(s.topics[t].queues) && Hopeful(m, s.now)
      ensures Pending(s, w, t, m)
    {
      if !Due(m, s.now) { EarlyIsWatched(watch, s, w, t, m); }
    }
  }

  /** Where only messages not yet due are left, nothing is missed. */
  lemma NothingReadyIsUnmissed(s: State, w: TopicId, t: TopicId)
    requires t in s.topics && EarlyOk(s, t)
    requires forall m | m in All(s.topics[t].queues) :: FateOf(m, s.now) == Waiting
    ensures Unmissed(s, w, t)
  {
    forall m | m in All(s.topics[t].queues) && Hopeful(m, s.now)
      ensures CountAll(s.topics[t].queues, HasId(m.id)) <= 1
    {
      assert FateOf(m, s.now) == Waiting;
      CountAllWeaker(s.topics[t].queues, HasId(m.id), EarlyWithId(m.id, s.now));
    }
  }

  /** The consumer would be parked, and the topics its pattern matches hold nothing it would miss. */
  ghost predicate MayPark(watch: Watch, s: State, w: TopicId, limit: int) {
    w in s.topics && Extract(s.topics[w].queues, limit, s.now).results == [] ==>
      forall t | (w, t) in watch && t in s.topics && t != w :: Unmissed(s, w, t)
  }

  /** Another consumer on `w`, where all it may want is still to come. */
  lemma ParkKeeps(watch: Watch, s: State, s': State, w: TopicId, ch: Channel)
    requires WakeInv(watch, s) && w in s.topics && s'.now == s.now && s'.jobs == s.jobs
    requires s'.topics == s.topics[w := s.topics[w].(waiting := s.topics[w].waiting + [ch])]
    requires forall t | Watches(watch, w, t) && t in s.topics :: Coming(s, w, t)
    ensures WakeInv(watch, s')
  {
    SamePending(s, s');
    forall j | j in s'.jobs
      ensures PushOk(watch, s', s'.jobs[j])
    {
      assert PushOk(watch, s, s.jobs[j]);
    }
    forall t | t in s'.topics
      ensures EarlyOk(s', t)
    {
      assert EarlyOk(s, t);
    }
    forall x, t | Watches(watch, x, t) && x in s'.topics && t in s'.topics && s'.topics[x].waiting != []
      ensures Coming(s', x, t)
    {
      assert Coming(s, x, t);
    }
  }

  lemma ConsumeKeepsWake(watch: Watch, s: State, w: TopicId, limit: int, ch: Channel)
    requires WakeInv(watch, s) && MayPark(watch, s, w, limit)
    ensures WakeInv(watch, ApplyConsume(s, w, limit, ch))
  {
    if w in s.topics && limit >= 1 && ch !in s.used {
      var e, s' := Extract(s.topics[w].queues, limit, s.now), ApplyConsume(s, w, limit, ch);
      var mid := SetQueues(s, w, e.left);
      ExtractShrinks(s.topics[w].queues, limit, s.now);
      ShrinkKeeps(watch, s, w, e.left);
      if e.results == [] {
        ParkingIsSafe(watch, s, mid, w, limit);
        ParkKeeps(watch, mid, s', w, ch);
      } else {
        SameQueues(mid, s');
        SamePushes(watch, mid, s');
      }
    }
  }

  lemma ParkingIsSafe(watch: Watch, s: State, mid: State, w: TopicId, limit: int)
    requires WakeInv(watch, mid) && MayPark(watch, s, w, limit) && w in s.topics && limit >= 1
    requires Extract(s.topics[w].queues, limit, s.now).results == []
    requires mid == SetQueues(s, w, Extract(s.topics[w].queues, limit, s.now).left)
    ensures forall t | Watches(watch, w, t) && t in mid.topics :: Coming(mid, w, t)
  {
    EmptyHandedLeavesWaiting(s.topics[w].queues, limit, s.now);
    SamePending(s, mid);
    forall t | Watches(watch, w, t) && t in mid.topics
      ensures Coming(mid, w, t)
    {
      assert EarlyOk(mid, t);
      if t == w {
        NothingReadyIsUnmissed(mid, w, t);
      } else {
        assert Unmissed(s, w, t);
      }
      UnmissedIsComing(watch, mid, w, t);
    }
  }

  // ---------------------------------------------------------------------------
  // Requeues
  // ---------------------------------------------------------------------------

  /** Queueing `m` without a push of its own is safe: it will never be ready, or it is ready and whoever is
      parked has a push of it to come, or it is not yet due and has a push all the same. */
  ghost predicate Attended(watch: Watch, s: State, t: TopicId, m: Message) {
    || !Hopeful(m, s.now)
    || if Due(m, s.now)
       then forall w | (w, t) in watch && w in s.topics && s.topics[w].waiting != [] :: Pending(s, w, t, m)
       else Pending(s, t, t, m)
  }

  /** No message with the id is queued, or neither `m` nor those that are will ever be ready. */
  predicate NoTwin(q: Queues, m: Message, now: Time) {
    forall x | x in All(q) && x.id == m.id :: !Hopeful(m, now) && !Hopeful(x, now)
  }

  /** A message may be queued where nobody is parked when it is due and nobody waits for it on a pattern, or when
      it has no twin and is attended. */
  ghost predicate MayQueue(watch: Watch, s: State, t: TopicId, m: Message)
    requires t in s.topics
  {
    || (Due(m, s.now) && forall w | (w, t) in watch && w in s.topics :: s.topics[w].waiting == [])
    || (NoTwin(s.topics[t].queues, m, s.now) && Attended(watch, s, t, m))
  }

  /** Appending `m` leaves those that may be ready as alone with their ids as they were, and `m` alone with its. */
  lemma AppendedIsAlone(q: Queues, m: Message, now: Time, x: Message)
    requires NoTwin(q, m, now) && x in All(Append(q, m, "normal")) && Hopeful(x, now)
    ensures x in All(q) ==> CountAll(Append(q, m, "normal"), HasId(x.id)) == CountAll(q, HasId(x.id))
    ensures x in All(q) ==>
              CountAll(Append(q, m, "normal"), EarlyWithId(x.id, now)) == CountAll(q, EarlyWithId(x.id, now))
    ensures x !in All(q) ==> CountAll(Append(q, m, "normal"), HasId(x.id)) <= 1
    ensures x !in All(q) ==> CountAll(Append(q, m, "normal"), EarlyWithId(x.id, now)) <= 1
  {
    AppendAddsOne(q, m, "normal", HasId(x.id));
    AppendAddsOne(q, m, "normal", EarlyWithId(x.id, now));
    if x !in All(q) {
      CountAllNone(q, HasId(x.id));
      CountAllNone(q, EarlyWithId(x.id, now));
    }
  }

  lemma QueueKeepsEarly(watch: Watch, s: State, t: TopicId, m: Message)
    requires t in s.topics && EarlyOk(s, t) && MayQueue(watch, s, t, m)
    ensures EarlyOk(SetQueues(s, t, Append(s.topics[t].queues, m, "normal")), t)
  {
    var q, q' := s.topics[t].queues, Append(s.topics[t].queues, m, "normal");
    SamePending(s, SetQueues(s, t, q'));
    AppendAddsOne(q, m, "normal", HasId(""));
    forall x | x in All(q') && !Due(x, s.now) && Deliverable(x)
      ensures Pending(s, t, t, x) && CountAll(q', EarlyWithId(x.id, s.now)) <= 1
    {
      if Due(m, s.now) {
        AppendAddsOne(q, m, "normal", EarlyWithId(x.id, s.now));
      } else {
        AppendedIsAlone(q, m, s.now, x);
      }
    }
  }

  lemma QueueKeepsComing(watch: Watch, s: State, w: TopicId, t: TopicId, m: Message)
    requires PushesOk(watch, s) && w in s.topics && t in s.topics && (w, t) in watch && s.topics[w].waiting != []
    requires Coming(s, w, t) && MayQueue(watch, s, t, m)
    ensures Coming(SetQueues(s, t, Append(s.topics[t].queues, m, "normal")), w, t)
  {
    var q, q' := s.topics[t].queues, Append(s.topics[t].queues, m, "normal");
    SamePending(s, SetQueues(s, t, q'));
    AppendAddsOne(q, m, "normal", HasId(""));
    forall x | x in All(q') && Hopeful(x, s.now)
      ensures Pending(s, w, t, x) && CountAll(q', HasId(x.id)) <= 1
    {
      AppendedIsAlone(q, m, s.now, x);
      if x !in All(q) && !Due(m, s.now) {
        EarlyIsWatched(watch, s, w, t, m);
      }
    }
  }

  lemma QueueKeeps(watch: Watch, s: State, t: TopicId, m: Message)
    requires WakeInv(watch, s) && t in s.topics && s.topics[t].waiting == [] && MayQueue(watch, s, t, m)
    ensures WakeInv(watch, SetQueues(s, t, Append(s.topics[t].queues, m, "normal")))
  {
    var s' := SetQueues(s, t, Append(s.topics[t].queues, m, "normal"));
    SamePending(s, s');
    forall j | j in s'.jobs
      ensures PushOk(watch, s', s'.jobs[j])
    {
      assert PushOk(watch, s, s.jobs[j]);
    }
    forall x | x in s'.topics
      ensures EarlyOk(s', x)
    {
      assert EarlyOk(s, x);
      if x == t { QueueKeepsEarly(watch, s, t, m); }
    }
    forall w, x | Watches(watch, w, x) && w in s'.topics && x in s'.topics && s'.topics[w].waiting != []
      ensures Coming(s', w, x)
    {
      assert Coming(s, w, x);
      if x == t { QueueKeepsComing(watch, s, w, t, m); }
    }
  }

  lemma TakenOverKeepsWake(watch: Watch, s: State, t: TopicId, m: Message)
    requires WakeInv(watch, s) && ChannelInv(s) && t in s.topics && s.topics[t].waiting != []
    ensures WakeInv(watch, ApplyRequeue(s, t, m))
  {
    var s' := ApplyRequeue(s, t, m);
    assert AllAt(s.place, s.topics[t].waiting, ParkedAt(t));
    SendGoesThrough(s, s.topics[t].waiting[0], m);
    assert s'.jobs == s.jobs && s'.now == s.now && s'.topics[t].queues == s.topics[t].queues;
    SameQueues(s, s');
    SamePushes(watch, s, s');
  }

  lemma QueuedWithoutTaker(s: State, t: TopicId, m: Message)
    requires t in s.topics && s.topics[t].waiting == []
    ensures ApplyRequeue(s, t, m) == SetQueues(s, t, Append(s.topics[t].queues, m, "normal"))
  {
  }

  lemma RequeueKeepsWake(watch: Watch, s: State, t: TopicId, m: Message)
    requires WakeInv(watch, s) && ChannelInv(s)
    requires t in s.topics && s.topics[t].waiting == [] ==> MayQueue(watch, s, t, m)
    ensures WakeInv(watch, ApplyRequeue(s, t, m))
  {
    if t in s.topics {
      if s.topics[t].waiting == [] {
        QueuedWithoutTaker(s, t, m);
        QueueKeeps(watch, s, t, m);
      } else {
        TakenOverKeepsWake(watch, s, t, m);
      }
    }
  }

  // ---------------------------------------------------------------------------
  // Runs
  // ---------------------------------------------------------------------------

  /** A publish knows the patterns that matter, whoever parks on a pattern misses nothing by it, and what is requeued
      may be queued. */
  ghost predicate Punctual(watch: Watch, s: State, step: Step) {
    match step
    case Publish(j, t, m, priority, _, wild, maxMessages, policy) =>
      Accepts(s, j, t, m, priority, wild, maxMessages, policy) ==> Knows(watch, s, t, m, wild)
    case Consume(w, limit, _) => MayPark(watch, s, w, limit)
    case Requeue(t, m) => t in s.topics && s.topics[t].waiting == [] ==> MayQueue(watch, s, t, m)
    case _ => true
  }

  ghost predicate PunctualRun(watch: Watch, s: State, steps: seq<Step>) {
    steps == [] ||
    (PunctualRun(watch, s, steps[..|steps| - 1]) && Punctual(watch, Run(s, steps[..|steps| - 1]), steps[|steps| - 1]))
  }

  lemma TakeStepKeeps(watch: Watch, s: State, step: Step)
    requires WakeInv(watch, s)
    requires step.Visit? || step.Acknowledge? || step.PurgeExpired? || step.Clear? || step.DrainNormal?
    ensures WakeInv(watch, Apply(s, step))
  {
    var t := step.topic;
    if t in s.topics {
      var q := s.topics[t].queues;
      match step
      case Visit(_, limit) => ExtractShrinks(q, limit, s.now); ShrinkKeeps(watch, s, t, Extract(q, limit, s.now).left);
      case Acknowledge(_, id) => RemoveShrinks(q, id); ShrinkKeeps(watch, s, t, Remove(q, id));
      case PurgeExpired(_) => PurgeShrinks(q, s.now); ShrinkKeeps(watch, s, t, Purge(q, s.now));
      case Clear(_) => ShrinkKeeps(watch, s, t, Queues([], [], []));
      case DrainNormal(_) => ShrinkKeeps(watch, s, t, q.(normal := []));
    }
  }

  lemma GiveUpKeepsWake(watch: Watch, s: State, t: TopicId, ch: Channel)
    requires WakeInv(watch, s)
    ensures WakeInv(watch, ApplyGiveUp(s, t, ch))
  {
    SameQueues(s, ApplyGiveUp(s, t, ch));
    SamePushes(watch, s, ApplyGiveUp(s, t, ch));
  }

  lemma ReceiveKeepsWake(watch: Watch, s: State, ch: Channel)
    requires WakeInv(watch, s)
    ensures WakeInv(watch, s.(occupied := s.occupied - {ch}))
  {
    SameQueues(s, s.(occupied := s.occupied - {ch}));
    SamePushes(watch, s, s.(occupied := s.occupied - {ch}));
  }

  lemma StepKeepsWake(watch: Watch, s: State, step: Step)
    requires WakeInv(watch, s) && ChannelInv(s) && Punctual(watch, s, step)
    ensures WakeInv(watch, Apply(s, step))
  {
    match step
    case Tick(now) => if now >= s.now { TickKeeps(watch, s, now); }
    case Publish(j, t, m, priority, broadcast, wild, maxMessages, policy) =>
      PublishKeeps(watch, s, j, t, m, priority, broadcast, wild, maxMessages, policy);
    case Push(j) => PushKeepsWake(watch, s, j);
    case Consume(w, limit, ch) => ConsumeKeepsWake(watch, s, w, limit, ch);
    case Receive(ch) => ReceiveKeepsWake(watch, s, ch);
    case GiveUp(t, ch) => GiveUpKeepsWake(watch, s, t, ch);
    case Requeue(t, m) => RequeueKeepsWake(watch, s, t, m);
    case _ => TakeStepKeeps(watch, s, step);
  }

  lemma {:induction false} RunKeepsWake(watch: Watch, s: State, steps: seq<Step>)
    requires WakeInv(watch, s) && ChannelInv(s) && PunctualRun(watch, s, steps)
    ensures WakeInv(watch, Run(s, steps)) && ChannelInv(Run(s, steps))
  {
    if steps == [] {
    } else {
      var shorter := steps[..|steps| - 1];
      RunKeepsWake(watch, s, shorter);
      StepKeepsWake(watch, Run(s, shorter), steps[|steps| - 1]);
      StepKeepsChannels(Run(s, shorter), steps[|steps| - 1]);
    }
  }

  /** No lost wake-up, for topics and patterns alike, over every interleaving of publishes, pushes, broadcasts,
      consumers, acknowledgements, evictions, purges and requeues in which every step is punctual, from any
      recovered state with nothing delayed. */
  lemma NoWakeupIsLost(watch: Watch, now: Time, recovered: map<TopicId, Queues>, steps: seq<Step>)
    requires NoneDelayed(now, recovered) && PunctualRun(watch, Init(now, recovered), steps)
    ensures NoLostWakeup(watch, Run(Init(now, recovered), steps))
  {
    InitWake(watch, now, recovered);
    InitChannels(now, recovered);
    RunKeepsWake(watch, Init(now, recovered), steps);
    WakeInvMeansNoLostWakeup(watch, Run(Init(now, recovered), steps));
  }
}
