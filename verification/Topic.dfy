/** A topic object: three message queues and a list of parked consumers, changed in place by the sections
    of the broker that hold the topic's lock. */
module TopicObject {
  import opened Messages
  import opened Queueing

  class Topic {
    const policy: Policy
    var highMessages: seq<Message>
    var messages: seq<Message>
    var lowMessages: seq<Message>
    var waitingConsumers: seq<Channel>
    var deleted: bool

    constructor (policy: Policy)
      ensures StartsWith(policy, [])
    {
      this.policy := policy;
      highMessages, messages, lowMessages, waitingConsumers := [], [], [], [];
      deleted := false;
    }

    ghost function Contents(): Queues
      reads this
    {
      Queues(highMessages, messages, lowMessages)
    }

    ghost function State(): TopicState
      reads this
    {
      TopicState(Contents(), waitingConsumers)
    }

    /** The object of a topic just made with these messages. */
    ghost predicate StartsWith(policy: Policy, msgs: seq<Message>)
      reads this
    {
      this.policy == policy && !deleted && State() == TopicState(Queues([], msgs, []), [])
    }

    /** The pass over one queue by a consumer that already has `have` messages. */
    static method ExtractFrom(queue: seq<Message>, have: nat, limit: int, now: Time)
      returns (keep: seq<Message>, taken: seq<Message>, expiredIDs: seq<string>)
      ensures var r := ScanQueue(queue, have, limit, now);
              keep == r.kept && taken == r.taken && expiredIDs == Ids(r.expired)
    {
      keep, taken, expiredIDs := [], [], [];
      for i := 0 to |queue|
        invariant var r := ScanQueue(queue[..i], have, limit, now);
                  keep == r.kept && taken == r.taken && expiredIDs == Ids(r.expired)
      {
        var msg := queue[i];
        assert queue[..i + 1][..i] == queue[..i];
        if have + |taken| >= limit {
          keep := keep + [msg];
          continue;
        }
        if msg.expiresAt.Some? && now > msg.expiresAt.value {
          expiredIDs := expiredIDs + [msg.id];
          continue;
        }
        if msg.deliverAt.Some? && now < msg.deliverAt.value {
          keep := keep + [msg];
          continue;
        }
        taken := taken + [msg];
      }
      assert queue[..|queue|] == queue;
    }

    /** The pass over a later queue, made only while the consumer still wants messages. */
    static method ExtractFurther(queue: seq<Message>, have: nat, limit: int, now: Time)
      returns (keep: seq<Message>, taken: seq<Message>, expiredIDs: seq<string>)
      ensures var r := ScanQueue(queue, have, limit, now);
              keep == r.kept && taken == r.taken && expiredIDs == Ids(r.expired)
    {
      keep, taken, expiredIDs := queue, [], [];
      if have < limit {
        keep, taken, expiredIDs := ExtractFrom(queue, have, limit, now);
      } else {
        ScanSated(queue, have, limit, now);
      }
    }

    method ExtractMessages(limit: int, now: Time) returns (results: seq<Message>, expiredIDs: seq<string>)
      modifies this`highMessages, this`messages, this`lowMessages
      ensures var e := Extract(old(Contents()), limit, now);
              results == e.results && Contents() == e.left && expiredIDs == Ids(e.expired)
      ensures results == Take(Select(All(old(Contents())), Ready, now), limit)
    {
      ghost var q := Contents();
      ghost var h, n, l := PassesOf(q, limit, now);
      var fromHigh, goneHigh;
      highMessages, fromHigh, goneHigh := ExtractFrom(highMessages, 0, limit, now);
      assert fromHigh == h.taken && messages == q.normal;
      var fromNormal, goneNormal;
      messages, fromNormal, goneNormal := ExtractFurther(messages, |fromHigh|, limit, now);
      assert fromNormal == n.taken && lowMessages == q.low;
      var fromLow, goneLow;
      lowMessages, fromLow, goneLow := ExtractFurther(lowMessages, |fromHigh| + |fromNormal|, limit, now);
      assert Contents() == Queues(h.kept, n.kept, l.kept) && fromLow == l.taken;
      results := fromHigh + fromNormal + fromLow;
      expiredIDs := goneHigh + goneNormal + goneLow;
      ExtractInPasses(q, limit, now, h, n, l);
    }

    /** The last section of a `Consume`. */
    method ConsumeHere(limit: int, now: Time, ch: Channel) returns (results: seq<Message>, expiredIDs: seq<string>)
      modifies this`highMessages, this`messages, this`lowMessages, this`waitingConsumers
      ensures State() == ConsumeOrPark(old(State()), limit, now, ch)
      ensures waitingConsumers == old(waitingConsumers) + if results == [] then [ch] else []
      ensures results == Take(Select(All(old(Contents())), Ready, now), limit)
      ensures expiredIDs == Ids(Extract(old(Contents()), limit, now).expired)
    {
      results, expiredIDs := ExtractMessages(limit, now);
      if |results| == 0 {
        waitingConsumers := waitingConsumers + [ch];
      }
    }

    /** The enqueueing section of a publish, up to the eviction it may cause. */
    method EnqueueMessage(msg: Message, priority: string, maxMessages: nat) returns (r: Enqueued)
      requires maxMessages > 0
      modifies this`highMessages, this`messages, this`lowMessages
      ensures r == Enqueue(old(Contents()), msg, priority, maxMessages, policy)
      ensures Contents() == if r.Accepted? then r.queues else old(Contents())
    {
      var evicted: Option<Message> := None;
      if |highMessages| + |messages| + |lowMessages| >= maxMessages {
        if policy == DropOldest {
          if |lowMessages| > 0 {
            evicted := Some(lowMessages[0]);
            lowMessages := lowMessages[1..];
          } else if |messages| > 0 {
            evicted := Some(messages[0]);
            messages := messages[1..];
          } else {
            evicted := Some(highMessages[0]);
            highMessages := highMessages[1..];
          }
        } else {
          return Full;
        }
      }
      match priority {
        case "high" => highMessages := highMessages + [msg];
        case "low" => lowMessages := lowMessages + [msg];
        case _ => messages := messages + [msg];
      }
      r := Accepted(Queues(highMessages, messages, lowMessages), evicted);
    }

    /** A publish that comes after the topic's deletion, with the object still in hand, leaves no trace. */
    method PublishHere(msg: Message, priority: string, maxMessages: nat) returns (r: Option<Enqueued>)
      requires maxMessages > 0
      modifies this`highMessages, this`messages, this`lowMessages
      ensures r == if deleted then None else Some(Enqueue(old(Contents()), msg, priority, maxMessages, policy))
      ensures Contents() == if r.Some? && r.value.Accepted? then r.value.queues else old(Contents())
    {
      if deleted { return None; }
      var enqueued := EnqueueMessage(msg, priority, maxMessages);
      return Some(enqueued);
    }

    static method RemoveFrom(queue: seq<Message>, id: string) returns (rest: seq<Message>, found: bool)
      ensures rest == RemoveFirst(queue, id) && found == Has(queue, id)
    {
      for i := 0 to |queue|
        invariant forall j | 0 <= j < i :: queue[j].id != id
      {
        if queue[i].id == id {
          return queue[..i] + queue[i + 1..], true;
        }
      }
      return queue, false;
    }

    /** Shared by `Ack`, which also logs the id when it is found, and by a push after its hand-off. */
    method RemoveMessageByID(id: string) returns (found: bool)
      modifies this`highMessages, this`messages, this`lowMessages
      ensures Contents() == Remove(old(Contents()), id)
      ensures found <==> exists m | m in All(old(Contents())) :: m.id == id
    {
      ghost var q := Contents();
      highMessages, found := RemoveFrom(highMessages, id);
      if found { return; }
      RemoveFirstRemoves(q.high, id, HasId(id));
      messages, found := RemoveFrom(messages, id);
      if found { return; }
      RemoveFirstRemoves(q.normal, id, HasId(id));
      lowMessages, found := RemoveFrom(lowMessages, id);
    }

    static method PurgeQueue(queue: seq<Message>, now: Time) returns (active: seq<Message>, expiredIDs: seq<string>)
      ensures active == Unexpired(queue, now) && expiredIDs == Ids(Select(queue, Stale, now))
    {
      active, expiredIDs := [], [];
      for i := 0 to |queue|
        invariant active == Unexpired(queue[..i], now) && expiredIDs == Ids(Select(queue[..i], Stale, now))
      {
        assert queue[..i + 1][..i] == queue[..i];
        if queue[i].expiresAt.Some? && queue[i].expiresAt.value < now {
          expiredIDs := expiredIDs + [queue[i].id];
        } else {
          active := active + [queue[i]];
        }
      }
      assert queue[..|queue|] == queue;
    }

    method PurgeExpired(now: Time) returns (allExpired: seq<string>)
      modifies this`highMessages, this`messages, this`lowMessages
      ensures Contents() == Purge(old(Contents()), now) && allExpired == Ids(Purged(old(Contents()), now))
      ensures forall m :: m in All(Contents()) <==> m in All(old(Contents())) && !Expired(m, now)
    {
      ghost var q := Contents();
      var h, n, l;
      highMessages, h := PurgeQueue(highMessages, now);
      messages, n := PurgeQueue(messages, now);
      lowMessages, l := PurgeQueue(lowMessages, now);
      allExpired := h + n + l;
      IdsConcat(Select(q.high, Stale, now), Select(q.normal, Stale, now));
      IdsConcat(Select(q.high, Stale, now) + Select(q.normal, Stale, now), Select(q.low, Stale, now));
      PurgePartitions(q, now, HasId(""));
    }

    /** The locked section of a `Requeue`; `channelTakes` says whether a send to the first parked consumer
        goes through. */
    method RequeueHere(msg: Message, channelTakes: bool) returns (handedTo: Option<Channel>)
      modifies this`messages, this`waitingConsumers
      ensures State() == RequeueInto(old(State()), msg, channelTakes)
      ensures handedTo == if old(waitingConsumers) != [] && channelTakes then Some(old(waitingConsumers)[0]) else None
    {
      if |waitingConsumers| > 0 {
        var consumerChan := waitingConsumers[0];
        waitingConsumers := waitingConsumers[1..];
        if channelTakes {
          return Some(consumerChan);
        }
      }
      messages := messages + [msg];
      return None;
    }

    method RemoveWaitingConsumer(ch: Channel)
      modifies this`waitingConsumers
      ensures waitingConsumers == Unpark(old(waitingConsumers), ch)
    {
      for i := 0 to |waitingConsumers|
        invariant waitingConsumers == old(waitingConsumers)
        invariant Unpark(waitingConsumers, ch) == waitingConsumers[..i] + Unpark(waitingConsumers[i..], ch)
      {
        if waitingConsumers[i] == ch {
          waitingConsumers := waitingConsumers[..i] + waitingConsumers[i + 1..];
          break;
        }
        assert waitingConsumers[..i + 1] == waitingConsumers[..i] + [waitingConsumers[i]];
      }
    }
  }
}
