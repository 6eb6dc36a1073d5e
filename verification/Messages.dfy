/** Messages and the three priority queues of a topic. */
module Messages {

  datatype Option<+T> = None | Some(value: T)

  newtype Byte = x: int | 0 <= x < 256

  type Time = int

  datatype Message = Message(
    id: string, topic: string, payload: seq<Byte>, timestamp: Time,
    expiresAt: Option<Time>, deliverAt: Option<Time>, retryCount: int, headers: map<string, string>)

  predicate Expired(m: Message, now: Time) {
    m.expiresAt.Some? && now > m.expiresAt.value
  }

  predicate Due(m: Message, now: Time) {
    !(m.deliverAt.Some? && now < m.deliverAt.value)
  }

  /** What a consumer arriving at `now` finds a queued message to be. */
  datatype Fate = Ready | Stale | Waiting

  function FateOf(m: Message, now: Time): Fate {
    if Expired(m, now) then Stale else if Due(m, now) then Ready else Waiting
  }

  /** A message is kept waiting until its delivery time, ready from then up to and including its expiry time, and
      stale from then on; without a delivery time it never waits, without an expiry time it never goes stale. */
  lemma FateTimeline(m: Message, now: Time)
    ensures m.expiresAt.None? && m.deliverAt.None? ==> FateOf(m, now) == Ready
    ensures m.expiresAt.None? && m.deliverAt.Some? ==>
              (FateOf(m, now) == Waiting <==> now <= m.deliverAt.value - 1) && FateOf(m, now) != Stale
    ensures m.expiresAt.Some? ==> (FateOf(m, now) == Stale <==> now - 1 >= m.expiresAt.value)
    ensures m.expiresAt.Some? && m.deliverAt.None? ==> FateOf(m, now) != Waiting
    ensures m.expiresAt.Some? && m.deliverAt.Some? && m.deliverAt.value <= m.expiresAt.value ==>
              FateOf(m, m.deliverAt.value) == Ready == FateOf(m, m.expiresAt.value)
  {
  }

  /** The messages of `s` with the given fate, in order. */
  function Select(s: seq<Message>, fate: Fate, now: Time): seq<Message> {
    if s == [] then []
    else if FateOf(s[|s| - 1], now) == fate then Select(s[..|s| - 1], fate, now) + [s[|s| - 1]]
    else Select(s[..|s| - 1], fate, now)
  }

  /** At most the first `k` elements. */
  function Take<T>(s: seq<T>, k: int): seq<T> {
    if k <= 0 then [] else if k <= |s| then s[..k] else s
  }

  function Ids(s: seq<Message>): seq<string> {
    if s == [] then [] else Ids(s[..|s| - 1]) + [s[|s| - 1].id]
  }

  datatype Queues = Queues(high: seq<Message>, normal: seq<Message>, low: seq<Message>)

  /** The queues in the order in which they are served. */
  function All(q: Queues): seq<Message> {
    q.high + q.normal + q.low
  }

  function Size(q: Queues): nat {
    |q.high| + |q.normal| + |q.low|
  }

  /** How many elements of `s` satisfy `p`. */
  function Count(s: seq<Message>, p: Message -> bool): nat {
    if s == [] then 0 else Count(s[..|s| - 1], p) + if p(s[|s| - 1]) then 1 else 0
  }

  function CountAll(q: Queues, p: Message -> bool): nat {
    Count(q.high, p) + Count(q.normal, p) + Count(q.low, p)
  }

  function HasId(id: string): Message -> bool { (m: Message) => m.id == id }

  /** No two queued messages share an id. */
  ghost predicate UniqueIds(q: Queues) {
    forall id :: CountAll(q, HasId(id)) <= 1
  }

  lemma {:induction false} CountConcat(a: seq<Message>, b: seq<Message>, p: Message -> bool)
    ensures Count(a + b, p) == Count(a, p) + Count(b, p)
  {
    if b == [] {
      assert a + b == a;
    } else {
      assert (a + b)[..|a + b| - 1] == a + b[..|b| - 1];
      CountConcat(a, b[..|b| - 1], p);
    }
  }

  lemma {:induction false} CountMember(s: seq<Message>, p: Message -> bool, m: Message)
    requires m in s && p(m)
    ensures Count(s, p) >= 1
  {
    if m != s[|s| - 1] {
      CountMember(s[..|s| - 1], p, m);
    }
  }

  lemma CountAllMember(q: Queues, p: Message -> bool, m: Message)
    requires m in All(q) && p(m)
    ensures CountAll(q, p) >= 1
  {
    if m in q.high { CountMember(q.high, p, m); }
    else if m in q.normal { CountMember(q.normal, p, m); }
    else { CountMember(q.low, p, m); }
  }

  lemma {:induction false} SelectConcat(a: seq<Message>, b: seq<Message>, fate: Fate, now: Time)
    ensures Select(a + b, fate, now) == Select(a, fate, now) + Select(b, fate, now)
  {
    if b == [] {
      assert a + b == a;
    } else {
      assert (a + b)[..|a + b| - 1] == a + b[..|b| - 1];
      SelectConcat(a, b[..|b| - 1], fate, now);
    }
  }

  lemma {:induction false} SelectNone(s: seq<Message>, fate: Fate, now: Time)
    requires forall m | m in s :: FateOf(m, now) != fate
    ensures Select(s, fate, now) == []
  {
    if s == [] {
    } else {
      SelectNone(s[..|s| - 1], fate, now);
    }
  }

  /** Every element has exactly one fate. */
  lemma {:induction false} SelectPartitions(s: seq<Message>, now: Time, p: Message -> bool)
    ensures Count(s, p) ==
            Count(Select(s, Ready, now), p) + Count(Select(s, Stale, now), p) + Count(Select(s, Waiting, now), p)
  {
    if s == [] {
    } else {
      var fate := FateOf(s[|s| - 1], now);
      SelectPartitions(s[..|s| - 1], now, p);
      CountConcat(Select(s[..|s| - 1], fate, now), [s[|s| - 1]], p);
    }
  }

  lemma {:induction false} IdsConcat(a: seq<Message>, b: seq<Message>)
    ensures Ids(a + b) == Ids(a) + Ids(b)
  {
    if b == [] {
      assert a + b == a;
    } else {
      assert (a + b)[..|a + b| - 1] == a + b[..|b| - 1];
      IdsConcat(a, b[..|b| - 1]);
    }
  }
}
