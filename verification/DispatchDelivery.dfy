/** Who gets what: no consumer taken off a list is forgotten, a broadcast reaches everybody parked where it looks, and
    an ordinary push, like a requeue, hands its message to the consumer that is first in line. */
module DispatchDelivery {
  import opened Messages
  import opened Queueing
  import opened Dispatch
  import opened DispatchChannels
  import opened DispatchWakeups

  // ---------------------------------------------------------------------------
  // Places
  // ---------------------------------------------------------------------------

  /** A channel is on the list on which it is recorded to be. */
  ghost predicate PlaceOk(s: State, ch: Channel)
    requires ch in s.place
  {
    match s.place[ch]
    case ParkedAt(t) => t in s.topics && ch in s.topics[t].waiting
    case HeldBy(j) => j in s.jobs && ch in s.jobs[j].held
  }

  ghost predicate PlacesOk(s: State) {
    && (forall ch | ch in s.place :: PlaceOk(s, ch))
    && (forall j | j in s.jobs :: s.jobs[j].broadcast ==> s.jobs[j].phase != Removing)
  }

  lemma TailKeeps(s: seq<Channel>, ch: Channel)
    requires s != [] && ch in s && ch != s[0]
    ensures ch in s[1..]
  {
    assert s == [s[0]] + s[1..];
  }

  lemma SweepKeepsPlaces(s: State, j: JobId)
    requires ChannelInv(s) && PlacesOk(s) && j in s.jobs && Next(s.jobs[j]) in s.topics
    ensures PlacesOk(Sweep(s, j))
  {
    var s', at := Sweep(s, j), Next(s.jobs[j]);
    forall ch | ch in s'.place
      ensures PlaceOk(s', ch)
    {
      assert PlaceOk(s, ch);
      assert AllAt(s.place, s.topics[at].waiting, ParkedAt(at));
    }
  }

  lemma OfferKeepsPlaces(s: State, j: JobId)
    requires ChannelInv(s) && PlacesOk(s) && j in s.jobs && Next(s.jobs[j]) in s.topics
    requires !s.jobs[j].broadcast && s.jobs[j].phase == Offering
    ensures PlacesOk(Offer(s, j))
  {
    var s', at := Offer(s, j), Next(s.jobs[j]);
    assert JobShape(s.jobs[j]) && AllAt(s.place, s.topics[at].waiting, ParkedAt(at));
    forall ch | ch in s'.place
      ensures PlaceOk(s', ch)
    {
      if ch in s.place { assert PlaceOk(s, ch); }
      if s.topics[at].waiting != [] && ch in s.topics[at].waiting && ch != s.topics[at].waiting[0] {
        TailKeeps(s.topics[at].waiting, ch);
      }
    }
  }

  lemma SendKeepsPlaces(s: State, j: JobId)
    requires ChannelInv(s) && PlacesOk(s) && j in s.jobs && s.jobs[j].held != []
    ensures PlacesOk(SendHeld(s, j))
  {
    var s', held := SendHeld(s, j), s.jobs[j].held;
    assert AllAt(s.place, held, HeldBy(j)) && JobShape(s.jobs[j]);
    SendGoesThrough(s, held[0], s.jobs[j].msg);
    forall ch | ch in s'.place
      ensures PlaceOk(s', ch)
    {
      assert PlaceOk(s, ch) && ch != held[0];
      if ch in held { TailKeeps(held, ch); }
    }
  }

  lemma FinishKeepsPlaces(s: State, j: JobId)
    requires PlacesOk(s) && j in s.jobs && s.jobs[j].held == []
    ensures PlacesOk(Finish(s, j))
  {
    forall ch | ch in Finish(s, j).place
      ensures PlaceOk(Finish(s, j), ch)
    {
      assert PlaceOk(s, ch);
    }
  }

  lemma QueuesKeepPlaces(s: State, t: TopicId, q: Queues)
    requires PlacesOk(s) && t in s.topics
    ensures PlacesOk(SetQueues(s, t, q))
  {
    forall ch | ch in s.place
      ensures PlaceOk(SetQueues(s, t, q), ch)
    {
      assert PlaceOk(s, ch);
    }
  }

  lemma PushKeepsPlaces(s: State, j: JobId)
    requires ChannelInv(s) && PlacesOk(s)
    ensures PlacesOk(ApplyPush(s, j))
  {
    if j in s.jobs && Due(s.jobs[j].msg, s.now) {
      var job := s.jobs[j];
      assert JobShape(job);
      match job.phase
      case Offering =>
        if Next(job) in s.topics {
          if job.broadcast { SweepKeepsPlaces(s, j); } else { OfferKeepsPlaces(s, j); }
        }
      case Sending => if job.held == [] { FinishKeepsPlaces(s, j); } else { SendKeepsPlaces(s, j); }
      case Removing =>
        if job.topic in s.topics {
          var q := Remove(s.topics[job.topic].queues, job.msg.id);
          QueuesKeepPlaces(s, job.topic, q);
          FinishKeepsPlaces(SetQueues(s, job.topic, q), j);
        }
    }
  }

  lemma ConsumeKeepsPlaces(s: State, t: TopicId, limit: int, ch: Channel)
    requires PlacesOk(s)
    ensures PlacesOk(ApplyConsume(s, t, limit, ch))
  {
    var s' := ApplyConsume(s, t, limit, ch);
    if t in s.topics && limit >= 1 && ch !in s.used {
      assert |s.topics[t].waiting + [ch]| == |s.topics[t].waiting| + 1;
      forall x | x in s'.place
        ensures PlaceOk(s', x)
      {
        if x in s.place { assert PlaceOk(s, x); }
      }
    }
  }

  lemma GiveUpKeepsPlaces(s: State, t: TopicId, ch: Channel)
    requires ChannelInv(s) && PlacesOk(s)
    ensures PlacesOk(ApplyGiveUp(s, t, ch))
  {
    var s' := ApplyGiveUp(s, t, ch);
    if t in s.topics && ch in s.topics[t].waiting {
      assert AllAt(s.place, s.topics[t].waiting, ParkedAt(t));
      UnparkSound(s.topics[t].waiting, ch);
      forall x | x in s'.place
        ensures PlaceOk(s', x)
      {
        assert PlaceOk(s, x);
      }
    }
  }

  lemma RequeueKeepsPlaces(s: State, t: TopicId, m: Message)
    requires ChannelInv(s) && PlacesOk(s)
    ensures PlacesOk(ApplyRequeue(s, t, m))
  {
    var s' := ApplyRequeue(s, t, m);
    if t in s.topics {
      var waiting := s.topics[t].waiting;
      assert AllAt(s.place, waiting, ParkedAt(t));
      if waiting != [] { SendGoesThrough(s, waiting[0], m); }
      forall x | x in s'.place
        ensures PlaceOk(s', x)
      {
        assert PlaceOk(s, x);
        if waiting != [] && x in waiting && x != waiting[0] { TailKeeps(waiting, x); }
      }
    }
  }

  lemma PublishKeepsPlaces(s: State, j: JobId, t: TopicId, m: Message, priority: string, broadcast: bool,
                           wild: seq<TopicId>, maxMessages: nat, policy: Policy)
    requires PlacesOk(s)
    ensures PlacesOk(ApplyPublish(s, j, t, m, priority, broadcast, wild, maxMessages, policy))
  {
    var s' := ApplyPublish(s, j, t, m, priority, broadcast, wild, maxMessages, policy);
    forall x | x in s'.place
      ensures PlaceOk(s', x)
    {
      assert PlaceOk(s, x);
    }
  }

  lemma SameListsKeepPlaces(s: State, s': State)
    requires PlacesOk(s) && s'.jobs == s.jobs && s'.place == s.place && s'.topics == s.topics
    ensures PlacesOk(s')
  {
    forall x | x in s'.place
      ensures PlaceOk(s', x)
    {
      assert PlaceOk(s, x);
    }
  }

  /** The steps that change the clock, the buffers or a queue only. */
  lemma QueueStepKeepsPlaces(s: State, step: Step)
    requires PlacesOk(s) && !step.Publish? && !step.Push? && !step.Consume? && !step.GiveUp? && !step.Requeue?
    ensures PlacesOk(Apply(s, step))
  {
    match step
    case Tick(_) => SameListsKeepPlaces(s, Apply(s, step));
    case Receive(_) => SameListsKeepPlaces(s, Apply(s, step));
    case Visit(t, _) => if t in s.topics { QueuesKeepPlaces(s, t, Apply(s, step).topics[t].queues); }
    case Acknowledge(t, _) => if t in s.topics { QueuesKeepPlaces(s, t, Apply(s, step).topics[t].queues); }
    case PurgeExpired(t) => if t in s.topics { QueuesKeepPlaces(s, t, Apply(s, step).topics[t].queues); }
    case Clear(t) => if t in s.topics { QueuesKeepPlaces(s, t, Apply(s, step).topics[t].queues); }
    case DrainNormal(t) => if t in s.topics { QueuesKeepPlaces(s, t, Apply(s, step).topics[t].queues); }
  }

  lemma StepKeepsPlaces(s: State, step: Step)
    requires ChannelInv(s) && PlacesOk(s)
    ensures PlacesOk(Apply(s, step))
  {
    match step
    case Publish(j, t, m, priority, broadcast, wild, maxMessages, policy) =>
      PublishKeepsPlaces(s, j, t, m, priority, broadcast, wild, maxMessages, policy);
    case Push(j) => PushKeepsPlaces(s, j);
    case Consume(t, limit, ch) => ConsumeKeepsPlaces(s, t, limit, ch);
    case GiveUp(t, ch) => GiveUpKeepsPlaces(s, t, ch);
    case Requeue(t, m) => RequeueKeepsPlaces(s, t, m);
    case _ => QueueStepKeepsPlaces(s, step);
  }

  /** In every state of every run a live channel is on the list on which it is recorded to be, so that whoever is
      taken off a waiting list is held by a push that is still under way. */
  lemma {:induction false} PlacesAreReal(now: Time, recovered: map<TopicId, Queues>, steps: seq<Step>)
    ensures ChannelInv(Run(Init(now, recovered), steps)) && PlacesOk(Run(Init(now, recovered), steps))
  {
    InitChannels(now, recovered);
    RunKeepsChannels(Init(now, recovered), steps);
    RunKeepsPlaces(Init(now, recovered), steps);
  }

  lemma {:induction false} RunKeepsPlaces(s: State, steps: seq<Step>)
    requires ChannelInv(s) && PlacesOk(s)
    ensures PlacesOk(Run(s, steps))
  {
    if steps == [] {
    } else {
      var shorter := steps[..|steps| - 1];
      RunKeepsPlaces(s, shorter);
      RunKeepsChannels(s, shorter);
      StepKeepsPlaces(Run(s, shorter), steps[|steps| - 1]);
    }
  }

  // ---------------------------------------------------------------------------
  // Nobody is forgotten
  // ---------------------------------------------------------------------------

  /** The channel is still in the hands of push `j`, which has `m` for it, or has got `m`. */
  ghost predicate HasOrGets(s: State, ch: Channel, j: JobId, m: Message) {
    || (ch in s.place && s.place[ch] == HeldBy(j) && j in s.jobs && s.jobs[j].msg == m)
    || (ch in s.inbox && s.inbox[ch] == [m])
  }

  lemma PushServes(s: State, k: JobId, ch: Channel, j: JobId, m: Message)
    requires ChannelInv(s) && PlacesOk(s) && HasOrGets(s, ch, j, m)
    ensures HasOrGets(ApplyPush(s, k), ch, j, m)
  {
    if ch in s.place { assert PlaceOk(s, ch); }
    if k in s.jobs {
      assert AllAt(s.place, s.jobs[k].held, HeldBy(k)) && JobShape(s.jobs[k]);
      var at := Next(s.jobs[k]);
      if at in s.topics { assert AllAt(s.place, s.topics[at].waiting, ParkedAt(at)); }
      if s.jobs[k].held != [] { SendGoesThrough(s, s.jobs[k].held[0], s.jobs[k].msg); }
    }
  }

  lemma RequeueServes(s: State, t: TopicId, x: Message, ch: Channel, j: JobId, m: Message)
    requires ChannelInv(s) && PlacesOk(s) && HasOrGets(s, ch, j, m)
    ensures HasOrGets(ApplyRequeue(s, t, x), ch, j, m)
  {
    if ch in s.place { assert PlaceOk(s, ch); }
    if t in s.topics {
      assert AllAt(s.place, s.topics[t].waiting, ParkedAt(t));
      if s.topics[t].waiting != [] { SendGoesThrough(s, s.topics[t].waiting[0], x); }
    }
  }

  lemma OtherStepServes(s: State, step: Step, ch: Channel, j: JobId, m: Message)
    requires ChannelInv(s) && PlacesOk(s) && HasOrGets(s, ch, j, m) && !step.Push? && !step.Requeue?
    ensures HasOrGets(Apply(s, step), ch, j, m)
  {
    if ch in s.place { assert PlaceOk(s, ch); }
    if step.GiveUp? && step.topic in s.topics {
      assert AllAt(s.place, s.topics[step.topic].waiting, ParkedAt(step.topic));
    }
  }

  /** Whoever a push has taken off a list stays with it until it has got the very message of that push, whatever else
      happens. */
  lemma {:induction false} HeldIsServed(s: State, steps: seq<Step>, ch: Channel, j: JobId, m: Message)
    requires ChannelInv(s) && PlacesOk(s) && HasOrGets(s, ch, j, m)
    ensures HasOrGets(Run(s, steps), ch, j, m)
  {
    if steps == [] {
    } else {
      var shorter, last := steps[..|steps| - 1], steps[|steps| - 1];
      var mid := Run(s, shorter);
      HeldIsServed(s, shorter, ch, j, m);
      RunKeepsChannels(s, shorter);
      RunKeepsPlaces(s, shorter);
      match last
      case Push(k) => PushServes(mid, k, ch, j, m);
      case Requeue(t, x) => RequeueServes(mid, t, x, ch, j, m);
      case _ => OtherStepServes(mid, last, ch, j, m);
    }
  }

  /** Whoever is parked where a broadcast looks next is in its hands afterwards and gets its message: as soon as the
      broadcast is over, everybody has it. */
  lemma BroadcastForgetsNobody(s: State, j: JobId, ch: Channel, steps: seq<Step>)
    requires ChannelInv(s) && PlacesOk(s) && j in s.jobs && s.jobs[j].broadcast && s.jobs[j].phase == Offering
    requires Due(s.jobs[j].msg, s.now) && Next(s.jobs[j]) in s.topics && ch in s.topics[Next(s.jobs[j])].waiting
    ensures var s', m := Run(Apply(s, Push(j)), steps), s.jobs[j].msg;
            && HasOrGets(s', ch, j, m)
            && (j !in s'.jobs ==> ch in s'.inbox && s'.inbox[ch] == [m])
  {
    var s1 := Apply(s, Push(j));
    assert AllAt(s.place, s.topics[Next(s.jobs[j])].waiting, ParkedAt(Next(s.jobs[j])));
    assert s1.place[ch] == HeldBy(j);
    StepKeepsChannels(s, Push(j));
    StepKeepsPlaces(s, Push(j));
    HeldIsServed(s1, steps, ch, j, s.jobs[j].msg);
  }

  // ---------------------------------------------------------------------------
  // Deliveries
  // ---------------------------------------------------------------------------

  lemma {:induction false} RunConcat(s: State, a: seq<Step>, b: seq<Step>)
    ensures Run(s, a + b) == Run(Run(s, a), b)
  {
    if b == [] {
      assert a + b == a;
    } else {
      assert (a + b)[..|a + b| - 1] == a + b[..|b| - 1];
      RunConcat(s, a, b[..|b| - 1]);
    }
  }

  lemma RunOne(s: State, step: Step)
    ensures Run(s, [step]) == Apply(s, step)
  {
    assert [step][..0] == [];
  }

  lemma RunFirst(s: State, first: Step, more: seq<Step>)
    ensures Run(s, [first] + more) == Run(Apply(s, first), more)
  {
    RunOne(s, first);
    RunConcat(s, [first], more);
  }

  /** The lists a push looks at, in order. */
  function Lists(job: Job): seq<TopicId> { job.wild + [job.topic] }

  ghost predicate HasGot(s: State, ch: Channel, m: Message) { ch in s.inbox && s.inbox[ch] == [m] }

  /** What was received stays received. */
  ghost predicate KeepsInboxes(s: State, s': State) {
    forall ch | ch in s.inbox :: ch in s'.inbox && s'.inbox[ch] == s.inbox[ch]
  }

  lemma SendHeldReceives(s: State, j: JobId)
    requires ChannelInv(s) && j in s.jobs && s.jobs[j].held != []
    ensures HasGot(SendHeld(s, j), s.jobs[j].held[0], s.jobs[j].msg) && KeepsInboxes(s, SendHeld(s, j))
  {
    assert AllAt(s.place, s.jobs[j].held, HeldBy(j));
    SendGoesThrough(s, s.jobs[j].held[0], s.jobs[j].msg);
  }

  ghost predicate Only(steps: seq<Step>, step: Step) { forall i | 0 <= i < |steps| :: steps[i] == step }

  lemma FirstAndRest(s1: State, s': State, held: seq<Channel>, m: Message)
    requires held != [] && HasGot(s1, held[0], m) && KeepsInboxes(s1, s')
    requires forall ch | ch in held[1..] :: HasGot(s', ch, m)
    ensures forall ch | ch in held :: HasGot(s', ch, m)
  {
    assert held == [held[0]] + held[1..];
  }

  /** A broadcast that has looked everywhere sends to all it holds, and ends. */
  lemma BroadcastSends(s: State, j: JobId) returns (steps: seq<Step>)
    requires ChannelInv(s) && j in s.jobs && s.jobs[j].broadcast && s.jobs[j].phase == Sending
    requires Due(s.jobs[j].msg, s.now)
    ensures var s' := Run(s, steps);
            && j !in s'.jobs && s'.topics == s.topics && KeepsInboxes(s, s')
            && forall ch | ch in s.jobs[j].held :: HasGot(s', ch, s.jobs[j].msg)
    ensures Only(steps, Push(j))
    decreases |s.jobs[j].held|
  {
    var held := s.jobs[j].held;
    if held == [] {
      steps := [Push(j)];
      RunOne(s, Push(j));
    } else {
      var s1 := ApplyPush(s, j);
      StepKeepsChannels(s, Push(j));
      SendHeldReceives(s, j);
      var more := BroadcastSends(s1, j);
      RunFirst(s, Push(j), more);
      steps := [Push(j)] + more;
      FirstAndRest(s1, Run(s1, more), held, s.jobs[j].msg);
    }
  }

  /** Everybody in `held` and everybody parked on one of the lists in `s` has got `m` in `s'`; those lists are empty,
      and nothing else about the topics has changed. */
  ghost predicate HasReached(s: State, s': State, lists: seq<TopicId>, held: seq<Channel>, m: Message) {
    && KeepsInboxes(s, s') && s'.topics.Keys == s.topics.Keys
    && (forall ch | ch in held :: HasGot(s', ch, m))
    && (forall w, ch | w in lists && w in s.topics && ch in s.topics[w].waiting :: HasGot(s', ch, m))
    && (forall w | w in s.topics ::
          s'.topics[w] == if w in lists then s.topics[w].(waiting := []) else s.topics[w])
  }

  /** One look of the broadcast, followed by the rest of it. */
  lemma SweepThenRest(s: State, j: JobId, s': State, rest: seq<TopicId>)
    requires j in s.jobs && Next(s.jobs[j]) in s.topics
    requires HasReached(Sweep(s, j), s', rest, s.jobs[j].held + s.topics[Next(s.jobs[j])].waiting, s.jobs[j].msg)
    ensures HasReached(s, s', [Next(s.jobs[j])] + rest, s.jobs[j].held, s.jobs[j].msg)
  {
    var s1, at, held, m := Sweep(s, j), Next(s.jobs[j]), s.jobs[j].held, s.jobs[j].msg;
    assert s1.topics[at].waiting == [] && s1.inbox == s.inbox;
    forall w, ch | w in [at] + rest && w in s.topics && ch in s.topics[w].waiting
      ensures HasGot(s', ch, m)
    {
      if w == at {
        assert ch in held + s.topics[at].waiting;
      } else {
        assert w in rest && ch in s1.topics[w].waiting;
      }
    }
    forall w | w in s.topics
      ensures s'.topics[w] == if w in [at] + rest then s.topics[w].(waiting := []) else s.topics[w]
    {
      assert w in [at] + rest <==> w == at || w in rest;
    }
  }

  /** A broadcast left to itself reaches everybody who is parked on one of its lists, and leaves those lists empty. */
  lemma BroadcastReachesAll(s: State, j: JobId) returns (steps: seq<Step>)
    requires ChannelInv(s) && j in s.jobs && s.jobs[j].broadcast && s.jobs[j].phase == Offering
    requires Due(s.jobs[j].msg, s.now) && forall w | w in Lists(s.jobs[j]) :: w in s.topics
    ensures j !in Run(s, steps).jobs && HasReached(s, Run(s, steps), Lists(s.jobs[j]), s.jobs[j].held, s.jobs[j].msg)
    ensures Only(steps, Push(j))
    decreases |s.jobs[j].wild|
  {
    var job, at := s.jobs[j], Next(s.jobs[j]);
    var s1 := Apply(s, Push(j));
    assert at in Lists(job) && s1 == Sweep(s, j);
    StepKeepsChannels(s, Push(j));
    var more, rest;
    if job.wild == [] {
      rest := [];
      more := BroadcastSends(s1, j);
    } else {
      rest := Lists(s1.jobs[j]);
      assert Lists(job) == [at] + rest;
      more := BroadcastReachesAll(s1, j);
    }
    RunFirst(s, Push(j), more);
    steps := [Push(j)] + more;
    SweepThenRest(s, j, Run(s1, more), rest);
    assert Lists(job) == [at] + rest;
  }

  /** List `i` is the first on which anybody is parked. */
  ghost predicate FirstInLine(s: State, lists: seq<TopicId>, i: nat) {
    && i < |lists| && lists[i] in s.topics && s.topics[lists[i]].waiting != []
    && forall k | 0 <= k < i :: lists[k] in s.topics && s.topics[lists[k]].waiting == []
  }

  /** The topics after the first consumer parked on `w` has got a message of topic `t`. */
  ghost function TopicsAfter(s: State, w: TopicId, t: TopicId, id: string): map<TopicId, TopicState>
    requires w in s.topics && t in s.topics && s.topics[w].waiting != []
  {
    var rest := s.topics[w].waiting[1..];
    s.topics[w := s.topics[w].(waiting := rest)]
            [t := TopicState(Remove(s.topics[t].queues, id), if w == t then rest else s.topics[t].waiting)]
  }

  ghost predicate HandsOver(s: State, s': State, lists: seq<TopicId>, t: TopicId, m: Message)
    requires t in s.topics
  {
    && KeepsInboxes(s, s')
    && (forall i: nat | FirstInLine(s, lists, i) ::
          HasGot(s', s.topics[lists[i]].waiting[0], m) && s'.topics == TopicsAfter(s, lists[i], t, m.id))
    && ((forall w | w in lists && w in s.topics :: s.topics[w].waiting == []) ==> s'.topics == s.topics)
  }

  /** An empty list makes no difference. */
  lemma SkipEmptyList(s: State, s1: State, s': State, at: TopicId, rest: seq<TopicId>, t: TopicId, m: Message)
    requires t in s.topics && at in s.topics && s.topics[at].waiting == []
    requires s1.topics == s.topics && s1.inbox == s.inbox
    requires HandsOver(s1, s', rest, t, m)
    ensures HandsOver(s, s', [at] + rest, t, m)
  {
    var lists := [at] + rest;
    forall i: nat | FirstInLine(s, lists, i)
      ensures HasGot(s', s.topics[lists[i]].waiting[0], m) && s'.topics == TopicsAfter(s, lists[i], t, m.id)
    {
      assert i > 0 && lists[i] == rest[i - 1];
      assert FirstInLine(s1, rest, i - 1) by {
        assert forall k | 0 <= k < i - 1 :: rest[k] == lists[k + 1];
      }
    }
    if forall w | w in lists && w in s.topics :: s.topics[w].waiting == [] {
      assert forall w | w in rest :: w in lists;
    }
  }

  lemma FirstListDecides(s: State, s': State, lists: seq<TopicId>, t: TopicId, m: Message)
    requires t in s.topics && lists != [] && lists[0] in s.topics && s.topics[lists[0]].waiting != []
    requires KeepsInboxes(s, s') && HasGot(s', s.topics[lists[0]].waiting[0], m)
    requires s'.topics == TopicsAfter(s, lists[0], t, m.id)
    ensures HandsOver(s, s', lists, t, m)
  {
    forall i: nat | FirstInLine(s, lists, i)
      ensures i == 0
    {
    }
  }

  lemma NobodyDecides(s: State, s': State, at: TopicId, t: TopicId, m: Message)
    requires t in s.topics && at in s.topics && s.topics[at].waiting == []
    requires s'.topics == s.topics && s'.inbox == s.inbox
    ensures HandsOver(s, s', [at], t, m)
  {
    forall i: nat
      ensures !FirstInLine(s, [at], i)
    {
    }
  }

  /** A push goes on to its next list when nobody is parked on this one. */
  lemma MovesOn(s: State, j: JobId)
    requires j in s.jobs && !s.jobs[j].broadcast && s.jobs[j].phase == Offering && s.jobs[j].wild != []
    requires Due(s.jobs[j].msg, s.now) && s.jobs[j].wild[0] in s.topics && s.topics[s.jobs[j].wild[0]].waiting == []
    ensures var s1, job := ApplyPush(s, j), s.jobs[j];
            && s1 == s.(jobs := s.jobs[j := job.(wild := job.wild[1..])])
            && Lists(job) == [job.wild[0]] + Lists(s1.jobs[j])
  {
  }

  lemma AfterEmptyList(s: State, j: JobId, more: seq<Step>)
    requires j in s.jobs && !s.jobs[j].broadcast && s.jobs[j].phase == Offering && s.jobs[j].wild != []
    requires Due(s.jobs[j].msg, s.now) && s.jobs[j].wild[0] in s.topics && s.topics[s.jobs[j].wild[0]].waiting == []
    requires s.jobs[j].topic in s.topics
    requires HandsOver(ApplyPush(s, j), Run(ApplyPush(s, j), more), Lists(ApplyPush(s, j).jobs[j]),
                       s.jobs[j].topic, s.jobs[j].msg)
    ensures Run(s, [Push(j)] + more) == Run(ApplyPush(s, j), more)
    ensures HandsOver(s, Run(ApplyPush(s, j), more), Lists(s.jobs[j]), s.jobs[j].topic, s.jobs[j].msg)
  {
    MovesOn(s, j);
    RunFirst(s, Push(j), more);
    SkipEmptyList(s, ApplyPush(s, j), Run(ApplyPush(s, j), more), s.jobs[j].wild[0], Lists(ApplyPush(s, j).jobs[j]),
                  s.jobs[j].topic, s.jobs[j].msg);
  }

  lemma NobodyAtAll(s: State, j: JobId)
    requires j in s.jobs && !s.jobs[j].broadcast && s.jobs[j].phase == Offering && s.jobs[j].wild == []
    requires Due(s.jobs[j].msg, s.now) && s.jobs[j].topic in s.topics && s.topics[s.jobs[j].topic].waiting == []
    ensures j !in Run(s, [Push(j)]).jobs
    ensures HandsOver(s, Run(s, [Push(j)]), Lists(s.jobs[j]), s.jobs[j].topic, s.jobs[j].msg)
  {
    RunOne(s, Push(j));
    assert Lists(s.jobs[j]) == [s.jobs[j].topic];
    NobodyDecides(s, Run(s, [Push(j)]), s.jobs[j].topic, s.jobs[j].topic, s.jobs[j].msg);
  }

  /** An ordinary push left to itself hands its message to the consumer that is first on the first of its lists with
      anybody parked, and takes the message off its queue; with nobody parked it leaves all topics alone. */
  lemma PushHandsOver(s: State, j: JobId) returns (steps: seq<Step>)
    requires ChannelInv(s) && j in s.jobs && !s.jobs[j].broadcast && s.jobs[j].phase == Offering
    requires Due(s.jobs[j].msg, s.now) && forall w | w in Lists(s.jobs[j]) :: w in s.topics
    ensures s.jobs[j].topic in s.topics && j !in Run(s, steps).jobs && Only(steps, Push(j))
    ensures HandsOver(s, Run(s, steps), Lists(s.jobs[j]), s.jobs[j].topic, s.jobs[j].msg)
    decreases |s.jobs[j].wild|
  {
    var job, at := s.jobs[j], Next(s.jobs[j]);
    assert Lists(job)[0] == at && at in Lists(job) && job.topic in Lists(job);
    if s.topics[at].waiting != [] {
      steps := HandOver(s, j);
      FirstListDecides(s, Run(s, steps), Lists(job), job.topic, job.msg);
    } else if job.wild == [] {
      steps := [Push(j)];
      NobodyAtAll(s, j);
    } else {
      StepKeepsChannels(s, Push(j));
      MovesOn(s, j);
      var more := PushHandsOver(ApplyPush(s, j), j);
      AfterEmptyList(s, j, more);
      steps := [Push(j)] + more;
    }
  }

  lemma SendsTheHeld(s: State, j: JobId)
    requires ChannelInv(s) && j in s.jobs && !s.jobs[j].broadcast && s.jobs[j].phase == Sending
    requires Due(s.jobs[j].msg, s.now) && s.jobs[j].held != []
    ensures var s1, job := ApplyPush(s, j), s.jobs[j];
            && s1.jobs == s.jobs[j := job.(held := [], phase := Removing)] && s1.topics == s.topics && s1.now == s.now
            && KeepsInboxes(s, s1) && HasGot(s1, job.held[0], job.msg)
  {
    assert AllAt(s.place, s.jobs[j].held, HeldBy(j));
    SendGoesThrough(s, s.jobs[j].held[0], s.jobs[j].msg);
    SendHeldReceives(s, j);
  }

  lemma RunThree(s: State, step: Step)
    ensures Run(s, [step, step, step]) == Apply(Apply(Apply(s, step), step), step)
  {
    assert [step, step, step][..2] == [step, step] && [step, step][..1] == [step];
    RunOne(s, step);
  }

  lemma HandOver(s: State, j: JobId) returns (steps: seq<Step>)
    requires ChannelInv(s) && j in s.jobs && !s.jobs[j].broadcast && s.jobs[j].phase == Offering
    requires Due(s.jobs[j].msg, s.now) && s.jobs[j].topic in s.topics
    requires Next(s.jobs[j]) in s.topics && s.topics[Next(s.jobs[j])].waiting != []
    ensures var s', job, w := Run(s, steps), s.jobs[j], Next(s.jobs[j]);
            && j !in s'.jobs && KeepsInboxes(s, s') && HasGot(s', s.topics[w].waiting[0], job.msg)
            && s'.topics == TopicsAfter(s, w, job.topic, job.msg.id)
    ensures steps == [Push(j), Push(j), Push(j)]
  {
    steps := [Push(j), Push(j), Push(j)];
    RunThree(s, Push(j));
    StepKeepsChannels(s, Push(j));
    SendsTheHeld(Apply(s, Push(j)), j);
  }

  /** A publish of a due message that goes through reaches, if it is a broadcast, everybody parked on its topic or on a
      pattern it knows, and otherwise whoever is first in line there, the patterns before the topic. */
  lemma PublishReachesConsumers(s: State, j: JobId, t: TopicId, m: Message, priority: string, broadcast: bool,
                                wild: seq<TopicId>, maxMessages: nat, policy: Policy) returns (steps: seq<Step>)
    requires ChannelInv(s) && Due(m, s.now) && Accepts(s, j, t, m, priority, wild, maxMessages, policy)
    ensures var s1 := ApplyPublish(s, j, t, m, priority, broadcast, wild, maxMessages, policy);
            && t in s1.topics && s1.inbox == s.inbox && s1.topics.Keys == s.topics.Keys
            && (forall x | x in s.topics :: s1.topics[x].waiting == s.topics[x].waiting)
            && m in All(s1.topics[t].queues)
            && (broadcast ==> HasReached(s1, Run(s1, steps), wild + [t], [], m))
            && (!broadcast ==> HandsOver(s1, Run(s1, steps), wild + [t], t, m))
  {
    var s1 := ApplyPublish(s, j, t, m, priority, broadcast, wild, maxMessages, policy);
    EnqueueConserves(s.topics[t].queues, m, priority, maxMessages, policy, HasId(""));
    PublishKeepsChannels(s, j, t, m, priority, broadcast, wild, maxMessages, policy);
    assert s1.jobs[j] == Job(t, m, broadcast, wild, [], Offering) && Lists(s1.jobs[j]) == wild + [t];
    if broadcast {
      steps := BroadcastReachesAll(s1, j);
    } else {
      steps := PushHandsOver(s1, j);
    }
  }

  /** A requeue hands its message to the consumer that is first in line, or queues it behind the others of normal
      priority when nobody is. */
  lemma RequeueHandsOver(s: State, t: TopicId, m: Message)
    requires ChannelInv(s) && t in s.topics
    ensures var s', waiting, q := ApplyRequeue(s, t, m), s.topics[t].waiting, s.topics[t].queues;
            && KeepsInboxes(s, s') && s'.jobs == s.jobs
            && (waiting != [] ==> HasGot(s', waiting[0], m) && s'.topics == s.topics[t := TopicState(q, waiting[1..])])
            && (waiting == [] ==> s'.topics == s.topics[t := TopicState(q.(normal := q.normal + [m]), [])])
  {
    if s.topics[t].waiting != [] {
      assert AllAt(s.place, s.topics[t].waiting, ParkedAt(t));
      SendGoesThrough(s, s.topics[t].waiting[0], m);
    }
  }


  // ---------------------------------------------------------------------------
  // What goes without being pushed
  // ---------------------------------------------------------------------------

  /** A consumer of a pattern takes the first ready messages of a topic and drops expired ones, nothing else. */
  lemma VisitTakes(s: State, t: TopicId, limit: int, p: Message -> bool) returns (expired: seq<Message>)
    requires t in s.topics
    ensures var q, q' := s.topics[t].queues, Apply(s, Visit(t, limit)).topics[t].queues;
            Accounts(q, Extraction(Take(Select(All(q), Ready, s.now), limit), q', expired), p)
    ensures forall m | m in expired :: Expired(m, s.now)
  {
    var q := s.topics[t].queues;
    expired := Extract(q, limit, s.now).expired;
    ExtractTakesFirstReady(q, limit, s.now);
    ExtractPartitions(q, limit, s.now, p);
    ExtractSound(q, limit, s.now);
  }

  /** An acknowledgement takes one message with its id, if there is any. */
  lemma AcknowledgeTakes(s: State, t: TopicId, id: string)
    requires t in s.topics
    ensures var q, q' := s.topics[t].queues, Apply(s, Acknowledge(t, id)).topics[t].queues;
            CountAll(q', HasId(id)) == if CountAll(q, HasId(id)) == 0 then 0 else CountAll(q, HasId(id)) - 1
  {
    var q := s.topics[t].queues;
    RemoveTakesOne(q, id, HasId(id));
    if CountAll(q, HasId(id)) > 0 {
      if Count(q.high, HasId(id)) > 0 { CountedIsThere(q.high, id); }
      else if Count(q.normal, HasId(id)) > 0 { CountedIsThere(q.normal, id); }
      else { CountedIsThere(q.low, id); }
    }
  }

  lemma {:induction false} CountedIsThere(s: seq<Message>, id: string)
    requires Count(s, HasId(id)) > 0
    ensures Has(s, id)
  {
    if s[|s| - 1].id == id {
    } else {
      CountedIsThere(s[..|s| - 1], id);
      var i :| 0 <= i < |s| - 1 && s[..|s| - 1][i].id == id;
      assert s[i].id == id;
    }
  }

  /** A purge takes the expired messages, a clearing everything, and a draining what has normal priority. */
  lemma CleaningTakes(s: State, t: TopicId, m: Message)
    requires t in s.topics
    ensures var q := s.topics[t].queues;
            && (m in All(Apply(s, PurgeExpired(t)).topics[t].queues) <==> m in All(q) && !Expired(m, s.now))
            && Apply(s, Clear(t)).topics[t].queues == Queues([], [], [])
            && Apply(s, DrainNormal(t)).topics[t].queues == Queues(q.high, [], q.low)
  {
    PurgePartitions(s.topics[t].queues, s.now, HasId(""));
  }
}
