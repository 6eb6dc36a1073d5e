/** Parked channels are always empty: as every consumer brings a channel of its own, every channel on a waiting
    list or in the hands of a push is in one place only and has never been sent to. */
module DispatchChannels {
  import opened Messages
  import opened Queueing
  import opened Dispatch

  ghost predicate Distinct(s: seq<Channel>) {
    forall i, k | 0 <= i < k < |s| :: s[i] != s[k]
  }

  /** Every channel of the list is recorded to be at `p`. */
  ghost predicate AllAt(place: map<Channel, Place>, s: seq<Channel>, p: Place) {
    Distinct(s) && forall ch | ch in s :: ch in place && place[ch] == p
  }

  ghost predicate InboxOk(s: State) {
    && s.place.Keys <= s.used && s.inbox.Keys <= s.used
    && s.place.Keys !! s.inbox.Keys && s.occupied <= s.inbox.Keys
    && s.missed == 0
    && forall ch | ch in s.inbox :: |s.inbox[ch]| == 1
  }

  /** An ordinary push holds a channel exactly while it sends. */
  ghost predicate JobShape(job: Job) {
    !job.broadcast ==> |job.held| == if job.phase == Sending then 1 else 0
  }

  ghost predicate TopicsOk(s: State) {
    forall t | t in s.topics :: AllAt(s.place, s.topics[t].waiting, ParkedAt(t))
  }

  ghost predicate JobsOk(s: State) {
    forall j | j in s.jobs :: AllAt(s.place, s.jobs[j].held, HeldBy(j)) && JobShape(s.jobs[j])
  }

  ghost predicate ChannelInv(s: State) {
    InboxOk(s) && TopicsOk(s) && JobsOk(s)
  }

  lemma InitChannels(now: Time, recovered: map<TopicId, Queues>)
    ensures ChannelInv(Init(now, recovered))
  {
  }

  /** Sections that change queues only do not matter here. */
  lemma QueuesDoNotMatter(s: State, t: TopicId, q: Queues)
    requires ChannelInv(s) && t in s.topics
    ensures ChannelInv(SetQueues(s, t, q))
  {
  }

  /** A first send to a live channel goes through. */
  lemma SendGoesThrough(s: State, ch: Channel, m: Message)
    requires InboxOk(s) && ch in s.place
    ensures ch !in s.occupied && InboxOk(Send(s, ch, m))
  {
  }

  lemma DistinctConcat(a: seq<Channel>, b: seq<Channel>)
    requires Distinct(a) && Distinct(b) && forall ch | ch in a :: ch !in b
    ensures Distinct(a + b)
  {
    forall i, k | 0 <= i < k < |a + b|
      ensures (a + b)[i] != (a + b)[k]
    {
      if i < |a| <= k {
        assert a[i] in a && b[k - |a|] in b;
      }
    }
  }

  lemma SweepKeeps(s: State, j: JobId)
    requires ChannelInv(s) && j in s.jobs && Next(s.jobs[j]) in s.topics && s.jobs[j].broadcast
    ensures ChannelInv(Sweep(s, j))
  {
    var s', at := Sweep(s, j), Next(s.jobs[j]);
    var taken := s.topics[at].waiting;
    assert AllAt(s.place, taken, ParkedAt(at)) && AllAt(s.place, s.jobs[j].held, HeldBy(j));
    DistinctConcat(s.jobs[j].held, taken);
    assert AllAt(s'.place, s.jobs[j].held + taken, HeldBy(j));
    forall t | t in s'.topics
      ensures AllAt(s'.place, s'.topics[t].waiting, ParkedAt(t))
    {
      assert AllAt(s.place, s.topics[t].waiting, ParkedAt(t));
    }
    forall k | k in s'.jobs && k != j
      ensures AllAt(s'.place, s'.jobs[k].held, HeldBy(k))
    {
      assert AllAt(s.place, s.jobs[k].held, HeldBy(k));
    }
  }

  lemma OfferKeeps(s: State, j: JobId)
    requires ChannelInv(s) && j in s.jobs && Next(s.jobs[j]) in s.topics
    requires !s.jobs[j].broadcast && s.jobs[j].phase == Offering
    ensures ChannelInv(Offer(s, j))
  {
    assert AllAt(s.place, s.jobs[j].held, HeldBy(j)) && JobShape(s.jobs[j]);
    if s.topics[Next(s.jobs[j])].waiting != [] {
      OfferTakes(s, j);
    }
  }

  lemma OfferTakes(s: State, j: JobId)
    requires ChannelInv(s) && j in s.jobs && Next(s.jobs[j]) in s.topics && s.topics[Next(s.jobs[j])].waiting != []
    requires !s.jobs[j].broadcast && s.jobs[j].phase == Offering
    ensures ChannelInv(Offer(s, j))
  {
    var s', at := Offer(s, j), Next(s.jobs[j]);
    var ch := s.topics[at].waiting[0];
    assert AllAt(s.place, s.topics[at].waiting, ParkedAt(at));
    assert AllAt(s'.place, [ch], HeldBy(j));
    forall t | t in s'.topics
      ensures AllAt(s'.place, s'.topics[t].waiting, ParkedAt(t))
    {
      assert AllAt(s.place, s.topics[t].waiting, ParkedAt(t));
    }
    forall k | k in s'.jobs && k != j
      ensures AllAt(s'.place, s'.jobs[k].held, HeldBy(k))
    {
      assert AllAt(s.place, s.jobs[k].held, HeldBy(k));
    }
  }

  lemma SendHeldKeeps(s: State, j: JobId)
    requires ChannelInv(s) && j in s.jobs && s.jobs[j].held != []
    ensures ChannelInv(SendHeld(s, j))
  {
    var s', ch := SendHeld(s, j), s.jobs[j].held[0];
    assert AllAt(s.place, s.jobs[j].held, HeldBy(j));
    SendGoesThrough(s, ch, s.jobs[j].msg);
    forall t | t in s'.topics
      ensures AllAt(s'.place, s'.topics[t].waiting, ParkedAt(t))
    {
      assert AllAt(s.place, s.topics[t].waiting, ParkedAt(t));
    }
    forall k | k in s'.jobs
      ensures AllAt(s'.place, s'.jobs[k].held, HeldBy(k))
    {
      assert AllAt(s.place, s.jobs[k].held, HeldBy(k));
    }
  }

  lemma PushKeeps(s: State, j: JobId)
    requires ChannelInv(s)
    ensures ChannelInv(ApplyPush(s, j))
  {
    if j in s.jobs && Due(s.jobs[j].msg, s.now) {
      var job := s.jobs[j];
      match job.phase
      case Offering =>
        if Next(job) in s.topics {
          if job.broadcast { SweepKeeps(s, j); } else { OfferKeeps(s, j); }
        }
      case Sending => if job.held != [] { SendHeldKeeps(s, j); }
      case Removing =>
    }
  }

  lemma ConsumeKeeps(s: State, t: TopicId, limit: int, ch: Channel)
    requires ChannelInv(s)
    ensures ChannelInv(ApplyConsume(s, t, limit, ch))
  {
    if t in s.topics && limit >= 1 && ch !in s.used {
      var s' := ApplyConsume(s, t, limit, ch);
      assert s.topics[t].waiting + [ch] != s.topics[t].waiting by {
        assert |s.topics[t].waiting + [ch]| == |s.topics[t].waiting| + 1;
      }
      forall x | x in s'.topics
        ensures AllAt(s'.place, s'.topics[x].waiting, ParkedAt(x))
      {
        assert AllAt(s.place, s.topics[x].waiting, ParkedAt(x));
      }
      forall k | k in s'.jobs
        ensures AllAt(s'.place, s'.jobs[k].held, HeldBy(k))
      {
        assert AllAt(s.place, s.jobs[k].held, HeldBy(k));
      }
    }
  }

  lemma {:induction false} UnparkSound(waiting: seq<Channel>, ch: Channel)
    requires Distinct(waiting)
    ensures Distinct(Unpark(waiting, ch))
    ensures forall c :: c in Unpark(waiting, ch) <==> c in waiting && c != ch
  {
    if waiting == [] {
    } else {
      assert waiting == [waiting[0]] + waiting[1..];
      if waiting[0] != ch {
        UnparkSound(waiting[1..], ch);
        DistinctConcat([waiting[0]], Unpark(waiting[1..], ch));
      }
    }
  }

  lemma GiveUpKeeps(s: State, t: TopicId, ch: Channel)
    requires ChannelInv(s)
    ensures ChannelInv(ApplyGiveUp(s, t, ch))
  {
    if t in s.topics && ch in s.topics[t].waiting {
      var s' := ApplyGiveUp(s, t, ch);
      assert AllAt(s.place, s.topics[t].waiting, ParkedAt(t));
      UnparkSound(s.topics[t].waiting, ch);
      forall x | x in s'.topics
        ensures AllAt(s'.place, s'.topics[x].waiting, ParkedAt(x))
      {
        assert AllAt(s.place, s.topics[x].waiting, ParkedAt(x));
      }
      forall k | k in s'.jobs
        ensures AllAt(s'.place, s'.jobs[k].held, HeldBy(k))
      {
        assert AllAt(s.place, s.jobs[k].held, HeldBy(k));
      }
    }
  }

  lemma RequeueKeeps(s: State, t: TopicId, m: Message)
    requires ChannelInv(s)
    ensures ChannelInv(ApplyRequeue(s, t, m))
  {
    if t in s.topics && s.topics[t].waiting != [] {
      var s', ch := ApplyRequeue(s, t, m), s.topics[t].waiting[0];
      assert AllAt(s.place, s.topics[t].waiting, ParkedAt(t));
      SendGoesThrough(s, ch, m);
      forall x | x in s'.topics
        ensures AllAt(s'.place, s'.topics[x].waiting, ParkedAt(x))
      {
        assert AllAt(s.place, s.topics[x].waiting, ParkedAt(x));
      }
      forall k | k in s'.jobs
        ensures AllAt(s'.place, s'.jobs[k].held, HeldBy(k))
      {
        assert AllAt(s.place, s.jobs[k].held, HeldBy(k));
      }
    }
  }

  lemma PublishKeepsChannels(s: State, j: JobId, t: TopicId, m: Message, priority: string, broadcast: bool,
                             wild: seq<TopicId>, maxMessages: nat, policy: Policy)
    requires ChannelInv(s)
    ensures ChannelInv(ApplyPublish(s, j, t, m, priority, broadcast, wild, maxMessages, policy))
  {
  }

  lemma StepKeepsChannels(s: State, step: Step)
    requires ChannelInv(s)
    ensures ChannelInv(Apply(s, step))
  {
    match step
    case Publish(j, t, m, priority, broadcast, wild, maxMessages, policy) =>
      PublishKeepsChannels(s, j, t, m, priority, broadcast, wild, maxMessages, policy);
    case Push(j) => PushKeeps(s, j);
    case Consume(t, limit, ch) => ConsumeKeeps(s, t, limit, ch);
    case GiveUp(t, ch) => GiveUpKeeps(s, t, ch);
    case Requeue(t, m) => RequeueKeeps(s, t, m);
    case Tick(_) =>
    case Receive(_) =>
    case _ => if step.topic in s.topics { QueuesDoNotMatter(s, step.topic, Apply(s, step).topics[step.topic].queues); }
  }

  lemma {:induction false} RunKeepsChannels(s: State, steps: seq<Step>)
    requires ChannelInv(s)
    ensures ChannelInv(Run(s, steps))
  {
    if steps == [] {
    } else {
      RunKeepsChannels(s, steps[..|steps| - 1]);
      StepKeepsChannels(Run(s, steps[..|steps| - 1]), steps[|steps| - 1]);
    }
  }

  /** Over every run: no hand-off ever finds its channel full, every consumer gets at most one message, and no
      channel is in two places at once, or twice in one. */
  lemma HandOffsNeverMiss(now: Time, recovered: map<TopicId, Queues>, steps: seq<Step>)
    ensures var s := Run(Init(now, recovered), steps);
            && s.missed == 0
            && (forall ch | ch in s.inbox :: |s.inbox[ch]| == 1)
            && (forall t | t in s.topics ::
                  forall ch | ch in s.topics[t].waiting :: ch !in s.occupied && ch !in s.inbox)
            && (forall j | j in s.jobs :: forall ch | ch in s.jobs[j].held :: ch !in s.occupied && ch !in s.inbox)
            && (forall t, t' | t in s.topics && t' in s.topics && t != t' ::
                  forall ch | ch in s.topics[t].waiting :: ch !in s.topics[t'].waiting)
            && (forall t, j | t in s.topics && j in s.jobs ::
                  forall ch | ch in s.topics[t].waiting :: ch !in s.jobs[j].held)
            && (forall j, k | j in s.jobs && k in s.jobs && j != k ::
                  forall ch | ch in s.jobs[j].held :: ch !in s.jobs[k].held)
            && (forall t | t in s.topics :: Distinct(s.topics[t].waiting))
            && (forall j | j in s.jobs :: Distinct(s.jobs[j].held))
  {
    InitChannels(now, recovered);
    RunKeepsChannels(Init(now, recovered), steps);
    var s := Run(Init(now, recovered), steps);
    assert forall t | t in s.topics :: AllAt(s.place, s.topics[t].waiting, ParkedAt(t));
    assert forall j | j in s.jobs :: AllAt(s.place, s.jobs[j].held, HeldBy(j));
  }
}
