/** Exactly when a publish, a requeue, a restart or a parking consumer is safe: no wake-up is lost whatever
    follows. */
module WakeupConditions {
  import opened Messages
  import opened Queueing
  import opened Dispatch
  import opened DispatchChannels
  import opened DispatchWakeups

  const EMPTY := Queues([], [], [])

  // ---------------------------------------------------------------------------
  // Missing a message
  // ---------------------------------------------------------------------------

  lemma RunSnoc(watch: Watch, s: State, steps: seq<Step>, step: Step)
    ensures Run(s, steps + [step]) == Apply(Run(s, steps), step)
    ensures PunctualRun(watch, s, steps + [step]) <==>
            PunctualRun(watch, s, steps) && Punctual(watch, Run(s, steps), step)
  {
    assert (steps + [step])[..|steps|] == steps;
  }

  lemma FreshChannel(used: set<Channel>) returns (ch: Channel)
    ensures forall u | u in used :: u < ch
  {
    if used == {} {
      ch := 0;
    } else {
      var u :| u in used;
      var above := FreshChannel(used - {u});
      ch := if u < above then above else u + 1;
      assert used == (used - {u}) + {u};
    }
  }

  lemma {:induction false} ScanKeepsEarly(s: seq<Message>, have: nat, limit: int, now: Time, m: Message)
    requires m in s && FateOf(m, now) == Waiting
    ensures m in ScanQueue(s, have, limit, now).kept
  {
    if m != s[|s| - 1] {
      ScanKeepsEarly(s[..|s| - 1], have, limit, now, m);
    }
  }

  lemma ExtractKeepsEarly(q: Queues, limit: int, now: Time, m: Message)
    requires m in All(q) && FateOf(m, now) == Waiting
    ensures m in All(Extract(q, limit, now).left)
  {
    var h := ScanQueue(q.high, 0, limit, now);
    var n := ScanQueue(q.normal, |h.taken|, limit, now);
    if m in q.high { ScanKeepsEarly(q.high, 0, limit, now, m); }
    else if m in q.normal { ScanKeepsEarly(q.normal, |h.taken|, limit, now, m); }
    else { ScanKeepsEarly(q.low, |h.taken| + |n.taken|, limit, now, m); }
  }

  lemma {:induction false} ScanAll(s: seq<Message>, have: nat, limit: int, now: Time)
    requires have + |s| < limit
    ensures var r := ScanQueue(s, have, limit, now);
            |r.taken| <= |s| && forall m | m in r.kept :: FateOf(m, now) == Waiting
  {
    if s == [] {
    } else {
      ScanAll(s[..|s| - 1], have, limit, now);
    }
  }

  /** A consumer that takes all there is leaves only messages not yet due. */
  lemma AllTakenLeavesWaiting(q: Queues, now: Time)
    ensures forall m | m in All(Extract(q, Size(q) + 1, now).left) :: FateOf(m, now) == Waiting
  {
    var limit := Size(q) + 1;
    var h := ScanQueue(q.high, 0, limit, now);
    var n := ScanQueue(q.normal, |h.taken|, limit, now);
    ScanAll(q.high, 0, limit, now);
    ScanAll(q.normal, |h.taken|, limit, now);
    ScanAll(q.low, |h.taken| + |n.taken|, limit, now);
  }

  /** The next consumer is parked. */
  lemma NextOneParks(q: Queues, now: Time)
    ensures Extract(Extract(q, Size(q) + 1, now).left, 1, now).results == []
  {
    var left := Extract(q, Size(q) + 1, now).left;
    AllTakenLeavesWaiting(q, now);
    SelectNone(All(left), Ready, now);
    ExtractTakesFirstReady(left, 1, now);
  }

  /** The topics in `us` are empty, and nothing else has changed. */
  ghost predicate Emptied(s: State, s': State, us: set<TopicId>) {
    && s'.jobs == s.jobs && s'.now == s.now && s'.used == s.used && s'.topics.Keys == s.topics.Keys
    && forall x | x in s.topics ::
         s'.topics[x] == if x in us then s.topics[x].(queues := EMPTY) else s.topics[x]
  }

  lemma EmptyAll(watch: Watch, s: State, us: set<TopicId>) returns (steps: seq<Step>)
    requires us <= s.topics.Keys
    ensures PunctualRun(watch, s, steps) && Emptied(s, Run(s, steps), us)
  {
    if us == {} {
      steps := [];
    } else {
      var u :| u in us;
      var before := EmptyAll(watch, s, us - {u});
      RunSnoc(watch, s, before, Clear(u));
      steps := before + [Clear(u)];
    }
  }

  /** The topics that a consumer of `w` wants, other than `t`, and `w` itself. */
  function Others(watch: Watch, s: State, w: TopicId, t: TopicId): set<TopicId> {
    set u | u in s.topics && u != t && Watches(watch, w, u)
  }

  lemma EarlyShrinks(s: State, s': State, t: TopicId)
    requires t in s.topics && t in s'.topics && EarlyOk(s, t) && s'.jobs == s.jobs && s'.now == s.now
    requires Shrinks(s.topics[t].queues, s'.topics[t].queues)
    ensures EarlyOk(s', t)
  {
    var q, q' := s.topics[t].queues, s'.topics[t].queues;
    SamePending(s, s');
    forall m | m in All(q') && !Due(m, s.now) && Deliverable(m)
      ensures Pending(s', t, t, m) && CountAll(q', EarlyWithId(m.id, s.now)) <= 1
    {
      assert m in All(q);
      assert CountAll(q', EarlyWithId(m.id, s.now)) <= CountAll(q, EarlyWithId(m.id, s.now));
    }
  }

  /** A visit that takes all there is to take from `t`. */
  lemma VisitTakesAll(s: State, t: TopicId, m: Message)
    requires t in s.topics && m in All(s.topics[t].queues) && FateOf(m, s.now) == Waiting
    ensures var q := s.topics[t].queues;
            var q' := Extract(q, Size(q) + 1, s.now).left;
            && Apply(s, Visit(t, Size(q) + 1)) == SetQueues(s, t, q')
            && m in All(q') && Shrinks(q, q') && Extract(q', 1, s.now).results == []
            && (forall x | x in All(q') :: FateOf(x, s.now) == Waiting)
  {
    var q := s.topics[t].queues;
    NextOneParks(q, s.now);
    ExtractKeepsEarly(q, Size(q) + 1, s.now, m);
    ExtractShrinks(q, Size(q) + 1, s.now);
    AllTakenLeavesWaiting(q, s.now);
  }

  /** With the other topics empty and only messages not yet due in `t`, a consumer of `w` may park. */
  lemma MayParkHere(watch: Watch, s: State, w: TopicId, t: TopicId)
    requires w in s.topics && t in s.topics && (w == t || EarlyOk(s, t))
    requires forall x | x in All(s.topics[t].queues) :: FateOf(x, s.now) == Waiting
    requires forall u | u in Others(watch, s, w, t) :: s.topics[u].queues == EMPTY
    ensures MayPark(watch, s, w, 1)
  {
    forall u | (w, u) in watch && u in s.topics && u != w
      ensures Unmissed(s, w, u)
    {
      if u == t {
        NothingReadyIsUnmissed(s, w, t);
      } else {
        assert u in Others(watch, s, w, t);
      }
    }
  }

  lemma ParksOn(watch: Watch, s: State, w: TopicId, t: TopicId, m: Message, ch: Channel)
    requires w in s.topics && t in s.topics && ch !in s.used && m in All(s.topics[t].queues)
    requires FateOf(m, s.now) == Waiting && Extract(s.topics[w].queues, 1, s.now).results == []
    ensures var s' := Apply(s, Consume(w, 1, ch));
            && w in s'.topics && t in s'.topics && s'.topics[w].waiting != [] && m in All(s'.topics[t].queues)
            && s'.jobs == s.jobs && s'.now == s.now
  {
    if w == t { ExtractKeepsEarly(s.topics[w].queues, 1, s.now, m); }
  }

  /** Somebody can be brought to park on `w` while `m` is still early. */
  lemma BringToPark(watch: Watch, s: State, w: TopicId, t: TopicId, m: Message) returns (steps: seq<Step>)
    requires w in s.topics && t in s.topics && m in All(s.topics[t].queues) && FateOf(m, s.now) == Waiting
    requires w == t || EarlyOk(s, t)
    ensures PunctualRun(watch, s, steps)
    ensures var s' := Run(s, steps);
            && w in s'.topics && t in s'.topics && s'.topics[w].waiting != [] && m in All(s'.topics[t].queues)
            && s'.jobs == s.jobs && s'.now == s.now
  {
    var clear := EmptyAll(watch, s, Others(watch, s, w, t));
    var s1 := Run(s, clear);
    var visit := Visit(t, Size(s1.topics[t].queues) + 1);
    var s2 := Apply(s1, visit);
    VisitTakesAll(s1, t, m);
    if w != t {
      ShrinksSelf(s.topics[t].queues);
      EarlyShrinks(s, s1, t);
      EarlyShrinks(s1, s2, t);
      assert w in Others(watch, s, w, t);
      EmptyHanded(s.now);
    }
    assert Others(watch, s2, w, t) == Others(watch, s, w, t);
    MayParkHere(watch, s2, w, t);
    var ch := FreshChannel(s2.used);
    ParksOn(watch, s2, w, t, m, ch);
    RunSnoc(watch, s, clear, visit);
    RunSnoc(watch, s, clear + [visit], Consume(w, 1, ch));
    steps := clear + [visit] + [Consume(w, 1, ch)];
  }

  /** A message not yet due that no push will bring to a list on which it is wanted can be missed there. */
  lemma EarlyIsMissed(watch: Watch, s: State, w: TopicId, t: TopicId, m: Message) returns (steps: seq<Step>)
    requires Watches(watch, w, t) && w in s.topics && t in s.topics && m in All(s.topics[t].queues)
    requires !Due(m, s.now) && Deliverable(m) && !Pending(s, w, t, m) && (w == t || EarlyOk(s, t))
    ensures PunctualRun(watch, s, steps) && !NoLostWakeup(watch, Run(s, steps))
  {
    var park := [];
    if s.topics[w].waiting == [] {
      park := BringToPark(watch, s, w, t, m);
    }
    RunSnoc(watch, s, park, Tick(m.deliverAt.value));
    steps := park + [Tick(m.deliverAt.value)];
    MissedWhenDue(watch, Run(s, park), w, t, m);
  }

  lemma MissedWhenDue(watch: Watch, s: State, w: TopicId, t: TopicId, m: Message)
    requires Watches(watch, w, t) && w in s.topics && t in s.topics && m in All(s.topics[t].queues)
    requires s.topics[w].waiting != [] && !Due(m, s.now) && Deliverable(m) && !Pending(s, w, t, m)
    ensures !NoLostWakeup(watch, Apply(s, Tick(m.deliverAt.value)))
  {
    var s' := Apply(s, Tick(m.deliverAt.value));
    assert FateOf(m, s'.now) == Ready && !Pending(s', w, t, m);
  }

  // ---------------------------------------------------------------------------
  // Exactly when a step is safe
  // ---------------------------------------------------------------------------

  /** Whatever punctual steps follow, no wake-up is lost. */
  ghost predicate SafeEverAfter(watch: Watch, s: State) {
    forall steps | PunctualRun(watch, s, steps) :: NoLostWakeup(watch, Run(s, steps))
  }

  lemma InvIsSafeEverAfter(watch: Watch, s: State)
    requires WakeInv(watch, s) && ChannelInv(s)
    ensures SafeEverAfter(watch, s)
  {
    forall steps | PunctualRun(watch, s, steps)
      ensures NoLostWakeup(watch, Run(s, steps))
    {
      RunKeepsWake(watch, s, steps);
      WakeInvMeansNoLostWakeup(watch, Run(s, steps));
    }
  }

  lemma LostAtOnce(watch: Watch, s: State)
    requires !NoLostWakeup(watch, s)
    ensures !SafeEverAfter(watch, s)
  {
    assert PunctualRun(watch, s, []) && Run(s, []) == s;
  }

  /** A publish that goes through is safe for all that may follow exactly when it knows the patterns that matter:
      those it read before it enqueued are all its push will ever look at, however long the message is delayed. */
  lemma PublishIsSafeExactlyWhenKnown(watch: Watch, s: State, j: JobId, t: TopicId, m: Message, priority: string,
                                      broadcast: bool, wild: seq<TopicId>, maxMessages: nat, policy: Policy)
    requires WakeInv(watch, s) && ChannelInv(s)
    ensures (Accepts(s, j, t, m, priority, wild, maxMessages, policy) ==> Knows(watch, s, t, m, wild)) <==>
            SafeEverAfter(watch, ApplyPublish(s, j, t, m, priority, broadcast, wild, maxMessages, policy))
  {
    var s' := ApplyPublish(s, j, t, m, priority, broadcast, wild, maxMessages, policy);
    if Accepts(s, j, t, m, priority, wild, maxMessages, policy) && !Knows(watch, s, t, m, wild) {
      var w :| (w, t) in watch && w in s.topics && w != t && w !in wild
               && (Due(m, s.now) ==> s.topics[w].waiting != []);
      UnknownIsMissed(watch, s, j, t, m, priority, broadcast, wild, maxMessages, policy, w);
    } else {
      PublishKeeps(watch, s, j, t, m, priority, broadcast, wild, maxMessages, policy);
      PublishKeepsChannels(s, j, t, m, priority, broadcast, wild, maxMessages, policy);
      InvIsSafeEverAfter(watch, s');
    }
  }

  lemma UnknownIsMissed(watch: Watch, s: State, j: JobId, t: TopicId, m: Message, priority: string, broadcast: bool,
                        wild: seq<TopicId>, maxMessages: nat, policy: Policy, w: TopicId)
    requires WakeInv(watch, s) && Accepts(s, j, t, m, priority, wild, maxMessages, policy) && Hopeful(m, s.now)
    requires (w, t) in watch && w in s.topics && w != t && w !in wild && (Due(m, s.now) ==> s.topics[w].waiting != [])
    ensures !SafeEverAfter(watch, ApplyPublish(s, j, t, m, priority, broadcast, wild, maxMessages, policy))
  {
    var s' := ApplyPublish(s, j, t, m, priority, broadcast, wild, maxMessages, policy);
    EnqueueConserves(s.topics[t].queues, m, priority, maxMessages, policy, HasId(""));
    assert m in All(s'.topics[t].queues) && !Pending(s', w, t, m) && Watches(watch, w, t);
    if Due(m, s.now) {
      LostAtOnce(watch, s');
    } else {
      EarlyOkAfterPublish(s, j, t, m, priority, broadcast, wild, maxMessages, policy);
      var steps := EarlyIsMissed(watch, s', w, t, m);
    }
  }

  lemma EarlyOkAfterPublish(s: State, j: JobId, t: TopicId, m: Message, priority: string, broadcast: bool,
                            wild: seq<TopicId>, maxMessages: nat, policy: Policy)
    requires Accepts(s, j, t, m, priority, wild, maxMessages, policy) && EarlyOk(s, t)
    ensures EarlyOk(ApplyPublish(s, j, t, m, priority, broadcast, wild, maxMessages, policy), t)
  {
    EnqueueAdds(s.topics[t].queues, m, priority, maxMessages, policy);
    EarlyGrows({}, s, ApplyPublish(s, j, t, m, priority, broadcast, wild, maxMessages, policy), j, t);
  }

  /** A requeue that is safe for all that may follow is taken at once or attended; without twins that is enough,
      and a due message is safe in any case while nobody is parked on a pattern. */
  lemma RequeueIsSafeExactlyWhenAttended(watch: Watch, s: State, t: TopicId, m: Message)
    requires WakeInv(watch, s) && ChannelInv(s) && t in s.topics
    ensures NoTwin(s.topics[t].queues, m, s.now) ==>
              (s.topics[t].waiting != [] || Attended(watch, s, t, m) <==> SafeEverAfter(watch, ApplyRequeue(s, t, m)))
    ensures SafeEverAfter(watch, ApplyRequeue(s, t, m)) ==> s.topics[t].waiting != [] || Attended(watch, s, t, m)
    ensures s.topics[t].waiting != [] || MayQueue(watch, s, t, m) ==> SafeEverAfter(watch, ApplyRequeue(s, t, m))
  {
    var s' := ApplyRequeue(s, t, m);
    if s.topics[t].waiting != [] || MayQueue(watch, s, t, m) {
      RequeueKeepsWake(watch, s, t, m);
      RequeueKeeps(s, t, m);
      InvIsSafeEverAfter(watch, s');
    }
    if s.topics[t].waiting == [] && !Attended(watch, s, t, m) {
      UnattendedIsMissed(watch, s, t, m);
    }
  }

  lemma UnattendedIsMissed(watch: Watch, s: State, t: TopicId, m: Message)
    requires t in s.topics && s.topics[t].waiting == [] && !Attended(watch, s, t, m)
    ensures !SafeEverAfter(watch, ApplyRequeue(s, t, m))
  {
    var s' := ApplyRequeue(s, t, m);
    assert m in All(s'.topics[t].queues) && s'.jobs == s.jobs;
    if Due(m, s.now) {
      var w :| (w, t) in watch && w in s.topics && s.topics[w].waiting != [] && !Pending(s, w, t, m);
      assert !Pending(s', w, t, m) && Watches(watch, w, t) && s'.topics[w].waiting != [];
      LostAtOnce(watch, s');
    } else {
      assert !Pending(s', t, t, m);
      var steps := EarlyIsMissed(watch, s', t, t, m);
    }
  }

  /** A restart is safe for all that may follow exactly when no recovered message is delayed beyond it: the
      timers of delayed messages do not survive. */
  lemma RecoveryIsSafeExactlyWhenNoneDelayed(watch: Watch, now: Time, recovered: map<TopicId, Queues>)
    ensures NoneDelayed(now, recovered) <==> SafeEverAfter(watch, Init(now, recovered))
  {
    var s := Init(now, recovered);
    if NoneDelayed(now, recovered) {
      InitWake(watch, now, recovered);
      InitChannels(now, recovered);
      InvIsSafeEverAfter(watch, s);
    } else {
      var t, m :| t in recovered && m in All(recovered[t]) && !Due(m, now) && Deliverable(m);
      assert !Pending(s, t, t, m);
      var steps := EarlyIsMissed(watch, s, t, t, m);
    }
  }

  /** Every ready message of the topics that match pattern `w` has its push to `w` still to come. */
  ghost predicate ReadyAreComing(watch: Watch, s: State, w: TopicId) {
    forall t, m | (w, t) in watch && t in s.topics && t != w && m in All(s.topics[t].queues) ::
      FateOf(m, s.now) == Ready ==> Pending(s, w, t, m)
  }

  /** What may be ready in those topics shares its id with no other message. */
  ghost predicate NoTwinsFor(watch: Watch, s: State, w: TopicId) {
    forall t, m | (w, t) in watch && t in s.topics && t != w && m in All(s.topics[t].queues) && Hopeful(m, s.now) ::
      CountAll(s.topics[t].queues, HasId(m.id)) <= 1
  }

  /** A consumer of a pattern that finds nothing parks safely for all that may follow only if every ready message of
      the topics it matches has its push to the pattern still to come; without twins that is enough. One published
      between the visit to its topic and the parking, whose push is over, is missed. */
  lemma ParkingIsSafeExactlyWhenReadyAreComing(watch: Watch, s: State, w: TopicId, limit: int, ch: Channel)
    requires WakeInv(watch, s) && ChannelInv(s) && w in s.topics && limit >= 1 && ch !in s.used
    requires Extract(s.topics[w].queues, limit, s.now).results == []
    ensures NoTwinsFor(watch, s, w) ==>
              (ReadyAreComing(watch, s, w) <==> SafeEverAfter(watch, ApplyConsume(s, w, limit, ch)))
    ensures SafeEverAfter(watch, ApplyConsume(s, w, limit, ch)) ==> ReadyAreComing(watch, s, w)
  {
    var s' := ApplyConsume(s, w, limit, ch);
    if !ReadyAreComing(watch, s, w) {
      var t, m :| (w, t) in watch && t in s.topics && t != w && m in All(s.topics[t].queues)
                  && FateOf(m, s.now) == Ready && !Pending(s, w, t, m);
      assert !Pending(s', w, t, m) && Watches(watch, w, t) && s'.topics[w].waiting != [];
      LostAtOnce(watch, s');
    } else if NoTwinsFor(watch, s, w) {
      forall t | (w, t) in watch && t in s.topics && t != w
        ensures Unmissed(s, w, t)
      {
      }
      ConsumeKeepsWake(watch, s, w, limit, ch);
      ConsumeKeeps(s, w, limit, ch);
      InvIsSafeEverAfter(watch, s');
    }
  }

  /** A scan that leaves only messages not yet due in the topics of the pattern is followed safely by parking. */
  lemma CleanScanMayPark(watch: Watch, s: State, w: TopicId, limit: int)
    requires WakeInv(watch, s)
    requires forall t, m | (w, t) in watch && t in s.topics && m in All(s.topics[t].queues) ::
               FateOf(m, s.now) == Waiting
    ensures MayPark(watch, s, w, limit)
  {
    forall t | (w, t) in watch && t in s.topics && t != w
      ensures Unmissed(s, w, t)
    {
      assert EarlyOk(s, t);
      NothingReadyIsUnmissed(s, w, t);
    }
  }

  // ---------------------------------------------------------------------------
  // Examples
  // ---------------------------------------------------------------------------

  lemma EmptyHanded(now: Time)
    ensures Extract(EMPTY, 1, now) == Extraction([], EMPTY, [])
  {
  }

  lemma RunTwo(s: State, a: Step, b: Step)
    ensures Run(s, [a, b]) == Apply(Apply(s, a), b)
  {
    RunSnoc({}, s, [], a);
    RunSnoc({}, s, [a], b);
    assert [] + [a] == [a] && [a] + [b] == [a, b];
  }

  /** Nothing queued, nobody parked and no push under way. */
  function Idle(topics: map<TopicId, TopicState>): State {
    State(0, topics, map[], {}, {}, map[], 0, map[])
  }

  const NOTHING := TopicState(EMPTY, [])

  /** What a publish does while nothing is queued and no push is under way. */
  lemma PublishIntoEmpty(s: State, t: TopicId, m: Message, priority: string, wild: seq<TopicId>)
    requires t in s.topics && (forall w | w in wild :: w in s.topics) && s.jobs == map[]
    requires forall x | x in s.topics :: s.topics[x].queues == EMPTY
    ensures Apply(s, Publish(0, t, m, priority, false, wild, 10, Reject)) ==
            s.(topics := s.topics[t := s.topics[t].(queues := Append(EMPTY, m, priority))],
               jobs := map[0 := Job(t, m, false, wild, [], Offering)])
  {
    assert NewId(s, m.id);
  }

  lemma VisitWhenIdle(topics: map<TopicId, TopicState>, t: TopicId)
    requires t in topics && topics[t] == NOTHING
    ensures Apply(Idle(topics), Visit(t, 1)) == Idle(topics)
  {
    EmptyHanded(0);
    assert topics[t := topics[t].(queues := EMPTY)] == topics;
  }

  /** Topic 1 holds `m`, whose push is under way; pattern 0 and topic 1 have nobody parked. */
  function Published(m: Message): State {
    Idle(map[0 := NOTHING, 1 := TopicState(Queues([], [m], []), [])]).(
      jobs := map[0 := Job(1, m, false, [0], [], Offering)])
  }

  lemma VisitThenPublish(m: Message)
    ensures Run(Init(0, map[0 := EMPTY, 1 := EMPTY]), [Visit(1, 1), Publish(0, 1, m, "normal", false, [0], 10, Reject)])
            == Published(m)
  {
    var topics := map[0 := NOTHING, 1 := NOTHING];
    assert Init(0, map[0 := EMPTY, 1 := EMPTY]) == Idle(topics);
    RunTwo(Idle(topics), Visit(1, 1), Publish(0, 1, m, "normal", false, [0], 10, Reject));
    VisitWhenIdle(topics, 1);
    PublishIntoEmpty(Idle(topics), 1, m, "normal", [0]);
    assert EMPTY.normal + [m] == [m];
    assert topics[1 := TopicState(Queues([], [m], []), [])] == Published(m).topics;
  }

  lemma PushFindsNobody(m: Message)
    requires Due(m, 0)
    ensures Run(Published(m), [Push(0), Push(0)]) == Published(m).(jobs := map[])
  {
    var s := Published(m);
    assert [0][1..] == [];
    assert Apply(s, Push(0)) == s.(jobs := map[0 := Job(1, m, false, [], [], Offering)]);
    RunTwo(s, Push(0), Push(0));
  }

  lemma LateConsumerParks(m: Message)
    ensures var s := Apply(Published(m).(jobs := map[]), Consume(0, 1, 7));
            && s.topics == map[0 := TopicState(EMPTY, [7]), 1 := TopicState(Queues([], [m], []), [])]
            && s.jobs == map[] && s.now == 0
  {
    EmptyHanded(0);
    assert NOTHING.waiting + [7] == [7];
  }

  /** A consumer of pattern 0 visits topic 1, which is empty; a message is published there and its push finds
      nobody, on the pattern or on the topic; then the consumer parks on the pattern. */
  lemma LateParkingExample(m: Message)
    requires FateOf(m, 0) == Ready
    ensures var s := Init(0, map[0 := EMPTY, 1 := EMPTY]);
            var published := Run(s, [Visit(1, 1), Publish(0, 1, m, "normal", false, [0], 10, Reject)]);
            !NoLostWakeup({(0, 1)}, Apply(Run(published, [Push(0), Push(0)]), Consume(0, 1, 7)))
  {
    VisitThenPublish(m);
    PushFindsNobody(m);
    LateConsumerParks(m);
    MissedOnPattern(Apply(Published(m).(jobs := map[]), Consume(0, 1, 7)), m);
  }

  lemma MissedOnPattern(s: State, m: Message)
    requires s.topics == map[0 := TopicState(EMPTY, [7]), 1 := TopicState(Queues([], [m], []), [])]
    requires (forall j | j in s.jobs :: !Visits(s.jobs[j], 0)) && FateOf(m, s.now) == Ready
    ensures !NoLostWakeup({(0, 1)}, s)
  {
    assert m in All(s.topics[1].queues) && Watches({(0, 1)}, 0, 1) && !Pending(s, 0, 1, m);
  }

  /** Topic 1 holds `m`, whose push knows no pattern. */
  function PublishedUnknown(m: Message): State {
    Published(m).(jobs := map[0 := Job(1, m, false, [], [], Offering)])
  }

  lemma PublishBeforePattern(m: Message)
    ensures Apply(Init(0, map[0 := EMPTY, 1 := EMPTY]), Publish(0, 1, m, "normal", false, [], 10, Reject))
            == PublishedUnknown(m)
  {
    var topics := map[0 := NOTHING, 1 := NOTHING];
    assert Init(0, map[0 := EMPTY, 1 := EMPTY]) == Idle(topics);
    PublishIntoEmpty(Idle(topics), 1, m, "normal", []);
    assert EMPTY.normal + [m] == [m];
    assert topics[1 := TopicState(Queues([], [m], []), [])] == Published(m).topics;
  }

  lemma ScanFindsItEarly(m: Message)
    requires FateOf(m, 0) == Waiting
    ensures Apply(PublishedUnknown(m), Visit(1, 1)) == PublishedUnknown(m)
  {
    var s, q := PublishedUnknown(m), Queues([], [m], []);
    assert [m][..0] == [];
    assert Extract(q, 1, 0) == Extraction([], q, []);
    assert s.topics[1 := s.topics[1].(queues := q)] == s.topics;
  }

  lemma PatternConsumerParks(m: Message)
    ensures var s := Apply(PublishedUnknown(m), Consume(0, 1, 7));
            && s.topics == map[0 := TopicState(EMPTY, [7]), 1 := TopicState(Queues([], [m], []), [])]
            && s.jobs == PublishedUnknown(m).jobs && s.now == 0
  {
    EmptyHanded(0);
    assert NOTHING.waiting + [7] == [7];
  }

  /** A message delayed until `at` is published on topic 1 before anybody asks for pattern 0. The first consumer of
      the pattern scans the topic, finds nothing due and parks. When the message is due, its push looks at topic 1
      only. */
  lemma DelayedPatternExample(m: Message, at: Time)
    requires FateOf(m, 0) == Waiting && FateOf(m, at) == Ready && at >= 0
    ensures var s := Init(0, map[0 := EMPTY, 1 := EMPTY]);
            var published := Apply(s, Publish(0, 1, m, "normal", false, [], 10, Reject));
            var parked := Apply(Apply(published, Visit(1, 1)), Consume(0, 1, 7));
            !NoLostWakeup({(0, 1)}, Apply(parked, Tick(at)))
  {
    PublishBeforePattern(m);
    ScanFindsItEarly(m);
    PatternConsumerParks(m);
    MissedOnPattern(Apply(Apply(PublishedUnknown(m), Consume(0, 1, 7)), Tick(at)), m);
  }

  lemma OldObjectParked()
    ensures Apply(Init(0, map[0 := EMPTY, 1 := EMPTY]), Consume(0, 1, 7)) ==
            Idle(map[0 := TopicState(EMPTY, [7]), 1 := NOTHING]).(used := {7}, place := map[7 := ParkedAt(0)])
  {
    assert Init(0, map[0 := EMPTY, 1 := EMPTY]) == Idle(map[0 := NOTHING, 1 := NOTHING]);
    EmptyHanded(0);
    assert NOTHING.waiting + [7] == [7];
  }

  /** A consumer is parked on object 0 of a topic; the topic is deleted and created again as object 1, for whose
      messages the consumer still waits. A publish knows object 1 only. */
  lemma StrandedExample(m: Message)
    requires FateOf(m, 0) == Ready
    ensures var s := Apply(Init(0, map[0 := EMPTY, 1 := EMPTY]), Consume(0, 1, 7));
            !NoLostWakeup({(0, 1)}, Apply(s, Publish(0, 1, m, "normal", false, [], 10, Reject)))
  {
    OldObjectParked();
    var s := Apply(Init(0, map[0 := EMPTY, 1 := EMPTY]), Consume(0, 1, 7));
    PublishIntoEmpty(s, 1, m, "normal", []);
    assert EMPTY.normal + [m] == [m];
    MissedOnPattern(Apply(s, Publish(0, 1, m, "normal", false, [], 10, Reject)), m);
  }

  function Offered(x: Message): Job { Job(0, x, false, [], [], Offering) }

  function TwinQueues(x: Message, y: Message): Queues { Queues([], [y], [x]) }

  /** Message `x` in the low queue with its push to come, and `y` before it without one. */
  function Twins(x: Message, y: Message): State {
    Idle(map[0 := TopicState(TwinQueues(x, y), [])]).(jobs := map[0 := Offered(x)])
  }

  function TwinsParked(x: Message, y: Message): State {
    Twins(x, y).(topics := map[0 := TopicState(TwinQueues(x, y), [7, 8])], used := {7, 8},
                 place := map[7 := ParkedAt(0), 8 := ParkedAt(0)])
  }

  function TwinsHeld(x: Message, y: Message): State {
    State(10, map[0 := TopicState(TwinQueues(x, y), [8])], map[0 := Offered(x).(held := [7], phase := Sending)],
          {7, 8}, {}, map[], 0, map[7 := HeldBy(0), 8 := ParkedAt(0)])
  }

  function TwinsSent(x: Message, y: Message): State {
    State(10, map[0 := TopicState(TwinQueues(x, y), [8])], map[0 := Offered(x).(phase := Removing)],
          {7, 8}, {7}, map[7 := [x]], 0, map[8 := ParkedAt(0)])
  }

  lemma TwinsQueued(x: Message, y: Message)
    ensures Run(Init(0, map[0 := EMPTY]), [Publish(0, 0, x, "low", false, [], 10, Reject), Requeue(0, y)])
            == Twins(x, y)
  {
    var topics := map[0 := NOTHING];
    assert Init(0, map[0 := EMPTY]) == Idle(topics);
    RunTwo(Idle(topics), Publish(0, 0, x, "low", false, [], 10, Reject), Requeue(0, y));
    PublishIntoEmpty(Idle(topics), 0, x, "low", []);
    assert EMPTY.low + [x] == [x];
    assert topics[0 := TopicState(Append(EMPTY, x, "low"), [])] == map[0 := TopicState(Queues([], [], [x]), [])];
    TwinRequeued(x, y);
  }

  lemma TwinRequeued(x: Message, y: Message)
    ensures var s := Idle(map[0 := TopicState(Queues([], [], [x]), [])]).(jobs := map[0 := Offered(x)]);
            Apply(s, Requeue(0, y)) == Twins(x, y)
  {
    var s := Idle(map[0 := TopicState(Queues([], [], [x]), [])]).(jobs := map[0 := Offered(x)]);
    assert EMPTY.normal + [y] == [y];
    assert s.topics[0 := TopicState(TwinQueues(x, y), [])] == Twins(x, y).topics;
  }

  lemma TwinsWait(x: Message, y: Message)
    requires FateOf(x, 0) == Waiting && FateOf(y, 0) == Waiting
    ensures Extract(TwinQueues(x, y), 1, 0) == Extraction([], TwinQueues(x, y), [])
  {
    assert [x][..0] == [] && [y][..0] == [];
  }

  lemma ParksThere(s: State, q: Queues, waiting: seq<Channel>, ch: Channel)
    requires s.topics == map[0 := TopicState(q, waiting)] && ch !in s.used
    requires Extract(q, 1, s.now) == Extraction([], q, [])
    ensures Apply(s, Consume(0, 1, ch)) ==
            s.(topics := map[0 := TopicState(q, waiting + [ch])], used := s.used + {ch},
               place := s.place[ch := ParkedAt(0)])
  {
    assert |waiting + [ch]| == |waiting| + 1;
    assert s.topics[0 := TopicState(q, waiting + [ch])] == map[0 := TopicState(q, waiting + [ch])];
  }

  lemma TwoPark(x: Message, y: Message)
    requires FateOf(x, 0) == Waiting && FateOf(y, 0) == Waiting
    ensures Run(Twins(x, y), [Consume(0, 1, 7), Consume(0, 1, 8)]) == TwinsParked(x, y)
  {
    var s := Twins(x, y);
    var none: seq<Channel> := [];
    TwinsWait(x, y);
    RunTwo(s, Consume(0, 1, 7), Consume(0, 1, 8));
    ParksThere(s, TwinQueues(x, y), none, 7);
    assert none + [7] == [7];
    ParksThere(Apply(s, Consume(0, 1, 7)), TwinQueues(x, y), [7], 8);
    assert [7] + [8] == [7, 8] && {7} + {8} == {7, 8};
  }

  lemma PushTakesFirst(x: Message, y: Message)
    requires Due(x, 10)
    ensures Run(TwinsParked(x, y), [Tick(10), Push(0)]) == TwinsHeld(x, y)
  {
    RunTwo(TwinsParked(x, y), Tick(10), Push(0));
    assert [7, 8][1..] == [8];
  }

  lemma PushSends(x: Message, y: Message)
    requires Due(x, 10)
    ensures Apply(TwinsHeld(x, y), Push(0)) == TwinsSent(x, y)
  {
    var s := TwinsHeld(x, y);
    var none: seq<Message> := [];
    assert none + [x] == [x] && s.place - {7} == map[8 := ParkedAt(0)];
    assert Send(s, 7, x) == s.(occupied := {7}, inbox := map[7 := [x]], place := map[8 := ParkedAt(0)]);
  }

  function TwinsEnd(x: Message, y: Message): State {
    TwinsSent(x, y).(topics := map[0 := TopicState(Queues([], [], [x]), [8])], jobs := map[])
  }

  lemma RemovalTakesTwin(x: Message, y: Message)
    requires x.id == y.id
    ensures Remove(TwinQueues(x, y), x.id) == Queues([], [], [x])
  {
    assert Has([y], x.id) by { assert [y][0].id == x.id; }
    assert RemoveFirst([y], x.id) == [];
  }

  lemma PushRemovesTwin(x: Message, y: Message)
    requires x.id == y.id && Due(x, 10)
    ensures Run(TwinsHeld(x, y), [Push(0), Push(0)]) == TwinsEnd(x, y)
  {
    RunTwo(TwinsHeld(x, y), Push(0), Push(0));
    PushSends(x, y);
    RemovalTakesTwin(x, y);
  }

  /** Message `x` waits in the low queue for its push; `y`, which will expire before it is due, is requeued with
      the same id and lies before it. Two consumers park, the push hands `x` to the first, and the removal by id
      takes `y` instead: `x` is ready, the second consumer is parked, and nothing is to come. */
  lemma TwinExample(x: Message, y: Message)
    requires x.id == y.id && FateOf(x, 0) == Waiting && FateOf(x, 10) == Ready
    requires FateOf(y, 0) == Waiting && !Deliverable(y)
    ensures var s := Init(0, map[0 := EMPTY]);
            var queued := Run(s, [Publish(0, 0, x, "low", false, [], 10, Reject), Requeue(0, y)]);
            var parked := Run(queued, [Consume(0, 1, 7), Consume(0, 1, 8)]);
            !NoLostWakeup({}, Run(Run(parked, [Tick(10), Push(0)]), [Push(0), Push(0)]))
  {
    TwinsQueued(x, y);
    TwoPark(x, y);
    PushTakesFirst(x, y);
    PushRemovesTwin(x, y);
    var s' := TwinsEnd(x, y);
    assert x in All(s'.topics[0].queues) && Watches({}, 0, 0) && !Pending(s', 0, 0, x);
  }
}
