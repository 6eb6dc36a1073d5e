/** What each locked section does to the three queues of a topic, as functions, with what they promise. */
module Queueing {
  import opened Messages

  // ---------------------------------------------------------------------------
  // Extraction
  // ---------------------------------------------------------------------------

  datatype Scan = Scan(taken: seq<Message>, kept: seq<Message>, expired: seq<Message>)

  /** One pass over a queue with `have` messages already taken. */
  function ScanQueue(s: seq<Message>, have: nat, limit: int, now: Time): Scan {
    if s == [] then Scan([], [], [])
    else
      var r := ScanQueue(s[..|s| - 1], have, limit, now);
      var m := s[|s| - 1];
      if have + |r.taken| >= limit then r.(kept := r.kept + [m])
      else if Expired(m, now) then r.(expired := r.expired + [m])
      else if !Due(m, now) then r.(kept := r.kept + [m])
      else r.(taken := r.taken + [m])
  }

  datatype Extraction = Extraction(results: seq<Message>, left: Queues, expired: seq<Message>)

  /** The three passes of an extraction, high priority first. */
  function Extract(q: Queues, limit: int, now: Time): Extraction {
    var h := ScanQueue(q.high, 0, limit, now);
    var n := ScanQueue(q.normal, |h.taken|, limit, now);
    var l := ScanQueue(q.low, |h.taken| + |n.taken|, limit, now);
    ThreePasses(h, n, l)
  }

  /** A consumer that has enough leaves a queue as it is. */
  lemma {:induction false} ScanSated(s: seq<Message>, have: nat, limit: int, now: Time)
    requires have >= limit
    ensures ScanQueue(s, have, limit, now) == Scan([], s, [])
  {
    if s == [] {
    } else {
      ScanSated(s[..|s| - 1], have, limit, now);
    }
  }

  /** How far a consumer that still wants `want` messages looks into a queue: up to and including the
      message that satisfies it. */
  function Examined(s: seq<Message>, want: int, now: Time): (k: nat)
    ensures k <= |s|
  {
    if s == [] then 0
    else
      var k := Examined(s[..|s| - 1], want, now);
      if k < |s| - 1 || |Select(s[..|s| - 1], Ready, now)| >= want then k else |s|
  }

  /** What a pass makes of a queue of which it examines the first `k` messages: ready ones are taken, stale
      ones dropped and waiting ones kept in order; the rest is not touched. */
  function ScanOf(s: seq<Message>, k: nat, now: Time): Scan
    requires k <= |s|
  {
    Scan(Select(s[..k], Ready, now), Select(s[..k], Waiting, now) + s[k..], Select(s[..k], Stale, now))
  }

  lemma ScanOfMore(s: seq<Message>, k: nat, now: Time)
    requires s != [] && k < |s|
    ensures var r := ScanOf(s[..|s| - 1], k, now); ScanOf(s, k, now) == r.(kept := r.kept + [s[|s| - 1]])
  {
    var prefix, last := s[..|s| - 1], s[|s| - 1];
    assert s[..k] == prefix[..k] && s[k..] == prefix[k..] + [last];
  }

  lemma ScanOfWhole(s: seq<Message>, now: Time)
    ensures ScanOf(s, |s|, now) == Scan(Select(s, Ready, now), Select(s, Waiting, now), Select(s, Stale, now))
  {
    assert s[..|s|] == s;
  }

  /** One pass, without the loop. */
  lemma {:induction false} ScanSpec(s: seq<Message>, have: nat, limit: int, now: Time)
    ensures ScanQueue(s, have, limit, now) == ScanOf(s, Examined(s, limit - have, now), now)
  {
    if s == [] {
    } else {
      var prefix := s[..|s| - 1];
      var k0, k := Examined(prefix, limit - have, now), Examined(s, limit - have, now);
      ScanSpec(prefix, have, limit, now);
      ExaminedReady(prefix, limit - have, now);
      if k == |s| {
        ScanOfWhole(s, now);
        ScanOfWhole(prefix, now);
      } else {
        ScanOfMore(s, k, now);
      }
    }
  }

  /** The part examined holds exactly the ready messages wanted, as far as there are any. */
  lemma {:induction false} ExaminedReady(s: seq<Message>, want: int, now: Time)
    ensures var k := Examined(s, want, now);
            && Select(s[..k], Ready, now) == Take(Select(s, Ready, now), want)
            && (k < |s| ==> |Select(s[..k], Ready, now)| >= want)
  {
    if s == [] {
    } else {
      var p := s[..|s| - 1];
      var k := Examined(s, want, now);
      ExaminedReady(p, want, now);
      if k == |s| {
        assert s[..k] == s;
      } else {
        assert s[..k] == p[..Examined(p, want, now)];
      }
    }
  }

  lemma TakeAppend<T>(a: seq<T>, b: seq<T>, k: int)
    ensures Take(a + b, k) == Take(a, k) + Take(b, k - |Take(a, k)|)
  {
  }

  lemma ScanTakes(s: seq<Message>, have: nat, limit: int, now: Time)
    ensures ScanQueue(s, have, limit, now).taken == Take(Select(s, Ready, now), limit - have)
  {
    ScanSpec(s, have, limit, now);
    ExaminedReady(s, limit - have, now);
  }

  lemma TakeThree<T>(a: seq<T>, b: seq<T>, c: seq<T>, k: int)
    ensures var x := Take(a, k);
            var y := Take(b, k - |x|);
            Take(a + b + c, k) == x + y + Take(c, k - |x| - |y|)
  {
    TakeAppend(a, b, k);
    TakeAppend(a + b, c, k);
  }

  lemma SelectAll(q: Queues, fate: Fate, now: Time)
    ensures Select(All(q), fate, now) ==
            Select(q.high, fate, now) + Select(q.normal, fate, now) + Select(q.low, fate, now)
  {
    SelectConcat(q.high + q.normal, q.low, fate, now);
    SelectConcat(q.high, q.normal, fate, now);
  }

  /** The three passes over the queues. */
  ghost predicate ArePasses(q: Queues, limit: int, now: Time, h: Scan, n: Scan, l: Scan) {
    && h == ScanQueue(q.high, 0, limit, now)
    && n == ScanQueue(q.normal, |h.taken|, limit, now)
    && l == ScanQueue(q.low, |h.taken| + |n.taken|, limit, now)
  }

  lemma PassesOf(q: Queues, limit: int, now: Time) returns (h: Scan, n: Scan, l: Scan)
    ensures ArePasses(q, limit, now, h, n, l) && Extract(q, limit, now) == ThreePasses(h, n, l)
  {
    h := ScanQueue(q.high, 0, limit, now);
    n := ScanQueue(q.normal, |h.taken|, limit, now);
    l := ScanQueue(q.low, |h.taken| + |n.taken|, limit, now);
  }

  lemma TakenInThree(q: Queues, limit: int, now: Time, h: seq<Message>, n: seq<Message>, l: seq<Message>)
    requires h == Take(Select(q.high, Ready, now), limit)
    requires n == Take(Select(q.normal, Ready, now), limit - |h|)
    requires l == Take(Select(q.low, Ready, now), limit - |h| - |n|)
    ensures h + n + l == Take(Select(All(q), Ready, now), limit)
  {
    SelectAll(q, Ready, now);
    TakeThree(Select(q.high, Ready, now), Select(q.normal, Ready, now), Select(q.low, Ready, now), limit);
  }

  lemma PassesTakeFirstReady(q: Queues, limit: int, now: Time, h: Scan, n: Scan, l: Scan)
    requires ArePasses(q, limit, now, h, n, l)
    ensures h.taken + n.taken + l.taken == Take(Select(All(q), Ready, now), limit)
  {
    ScanTakes(q.high, 0, limit, now);
    ScanTakes(q.normal, |h.taken|, limit, now);
    ScanTakes(q.low, |h.taken| + |n.taken|, limit, now);
    TakenInThree(q, limit, now, h.taken, n.taken, l.taken);
  }

  /** An extraction hands out exactly the first `limit` ready messages of the queues in service order. */
  lemma ExtractTakesFirstReady(q: Queues, limit: int, now: Time)
    ensures Extract(q, limit, now).results == Take(Select(All(q), Ready, now), limit)
  {
    var h, n, l := PassesOf(q, limit, now);
    PassesTakeFirstReady(q, limit, now, h, n, l);
  }

  /** An extraction put together from its three passes. */
  lemma ExtractInPasses(q: Queues, limit: int, now: Time, h: Scan, n: Scan, l: Scan)
    requires ArePasses(q, limit, now, h, n, l)
    ensures var e := Extract(q, limit, now);
            && e.results == h.taken + n.taken + l.taken == Take(Select(All(q), Ready, now), limit)
            && e.left == Queues(h.kept, n.kept, l.kept)
            && Ids(e.expired) == Ids(h.expired) + Ids(n.expired) + Ids(l.expired)
  {
    var h', n', l' := PassesOf(q, limit, now);
    PassesTakeFirstReady(q, limit, now, h, n, l);
    IdsConcat(h.expired, n.expired);
    IdsConcat(h.expired + n.expired, l.expired);
  }

  /** Of the messages of one queue with property `p`, each is taken, kept or dropped. */
  predicate ScanAccounts(s: seq<Message>, r: Scan, p: Message -> bool) {
    Count(s, p) == Count(r.taken, p) + Count(r.kept, p) + Count(r.expired, p)
  }

  lemma SplitAccounts(a: seq<Message>, b: seq<Message>, now: Time, p: Message -> bool)
    ensures Count(a + b, p) ==
            Count(Select(a, Ready, now), p) + Count(Select(a, Waiting, now) + b, p) + Count(Select(a, Stale, now), p)
  {
    SelectPartitions(a, now, p);
    CountConcat(a, b, p);
    CountConcat(Select(a, Waiting, now), b, p);
  }

  lemma ScanOfAccounts(s: seq<Message>, k: nat, now: Time, p: Message -> bool)
    requires k <= |s|
    ensures ScanAccounts(s, ScanOf(s, k, now), p)
  {
    assert s[..k] + s[k..] == s;
    SplitAccounts(s[..k], s[k..], now, p);
  }

  lemma ScanPartitions(s: seq<Message>, have: nat, limit: int, now: Time, p: Message -> bool)
    ensures ScanAccounts(s, ScanQueue(s, have, limit, now), p)
  {
    ScanSpec(s, have, limit, now);
    ScanOfAccounts(s, Examined(s, limit - have, now), now, p);
  }

  lemma CountThree(a: seq<Message>, b: seq<Message>, c: seq<Message>, p: Message -> bool)
    ensures Count(a + b + c, p) == Count(a, p) + Count(b, p) + Count(c, p)
  {
    CountConcat(a, b, p);
    CountConcat(a + b, c, p);
  }

  function ThreePasses(h: Scan, n: Scan, l: Scan): Extraction {
    Extraction(h.taken + n.taken + l.taken, Queues(h.kept, n.kept, l.kept), h.expired + n.expired + l.expired)
  }

  /** Of the queued messages with property `p`, each is handed out, still queued, or dropped. */
  predicate Accounts(q: Queues, e: Extraction, p: Message -> bool) {
    CountAll(q, p) == Count(e.results, p) + CountAll(e.left, p) + Count(e.expired, p)
  }

  lemma PassesPartition(q: Queues, h: Scan, n: Scan, l: Scan, p: Message -> bool)
    requires ScanAccounts(q.high, h, p) && ScanAccounts(q.normal, n, p) && ScanAccounts(q.low, l, p)
    ensures Accounts(q, ThreePasses(h, n, l), p)
  {
    CountThree(h.taken, n.taken, l.taken, p);
    CountThree(h.expired, n.expired, l.expired, p);
  }

  lemma PassesAccount(q: Queues, limit: int, now: Time, h: Scan, n: Scan, l: Scan, p: Message -> bool)
    requires ArePasses(q, limit, now, h, n, l)
    ensures Accounts(q, ThreePasses(h, n, l), p)
  {
    ScanPartitions(q.high, 0, limit, now, p);
    ScanPartitions(q.normal, |h.taken|, limit, now, p);
    ScanPartitions(q.low, |h.taken| + |n.taken|, limit, now, p);
    PassesPartition(q, h, n, l, p);
  }

  /** Every queued message ends up in exactly one place: handed out, still queued, or dropped. */
  lemma ExtractPartitions(q: Queues, limit: int, now: Time, p: Message -> bool)
    ensures Accounts(q, Extract(q, limit, now), p)
  {
    var h, n, l := PassesOf(q, limit, now);
    PassesAccount(q, limit, now, h, n, l, p);
  }

  lemma {:induction false} ScanSound(s: seq<Message>, have: nat, limit: int, now: Time)
    ensures var r := ScanQueue(s, have, limit, now);
            && (forall m | m in r.taken :: m in s && FateOf(m, now) == Ready)
            && (forall m | m in r.kept :: m in s)
            && (forall m | m in r.expired :: m in s && Expired(m, now))
  {
    if s == [] {
    } else {
      ScanSound(s[..|s| - 1], have, limit, now);
      assert forall m | m in s[..|s| - 1] :: m in s;
    }
  }

  /** What is handed out is ready, what is dropped has expired, and nothing appears from nowhere. */
  lemma ExtractSound(q: Queues, limit: int, now: Time)
    ensures var e := Extract(q, limit, now);
            && (forall m | m in e.results :: m in All(q) && FateOf(m, now) == Ready)
            && (forall m | m in All(e.left) :: m in All(q))
            && (forall m | m in e.expired :: m in All(q) && Expired(m, now))
  {
    var h := ScanQueue(q.high, 0, limit, now);
    var n := ScanQueue(q.normal, |h.taken|, limit, now);
    ScanSound(q.high, 0, limit, now);
    ScanSound(q.normal, |h.taken|, limit, now);
    ScanSound(q.low, |h.taken| + |n.taken|, limit, now);
  }

  lemma {:induction false} ScanEmptyHanded(s: seq<Message>, have: nat, limit: int, now: Time)
    requires ScanQueue(s, have, limit, now).taken == [] && have < limit
    ensures forall m | m in ScanQueue(s, have, limit, now).kept :: FateOf(m, now) == Waiting
  {
    if s == [] {
    } else {
      ScanEmptyHanded(s[..|s| - 1], have, limit, now);
    }
  }

  /** A consumer that wants something and leaves empty-handed leaves only messages not yet due behind. */
  lemma EmptyHandedLeavesWaiting(q: Queues, limit: int, now: Time)
    requires limit >= 1 && Extract(q, limit, now).results == []
    ensures forall m | m in All(Extract(q, limit, now).left) :: FateOf(m, now) == Waiting
  {
    ScanEmptyHanded(q.high, 0, limit, now);
    ScanEmptyHanded(q.normal, 0, limit, now);
    ScanEmptyHanded(q.low, 0, limit, now);
  }

  // ---------------------------------------------------------------------------
  // Enqueueing, with eviction
  // ---------------------------------------------------------------------------

  datatype Policy = Reject | DropOldest

  datatype Enqueued = Accepted(queues: Queues, evicted: Option<Message>) | Full

  function Append(q: Queues, m: Message, priority: string): Queues {
    if priority == "high" then q.(high := q.high + [m])
    else if priority == "low" then q.(low := q.low + [m])
    else q.(normal := q.normal + [m])
  }

  /** The message that gives way in a full topic: the oldest of the lowest priority present. */
  function Victim(q: Queues): Message
    requires Size(q) > 0
  {
    if |q.low| > 0 then q.low[0] else if |q.normal| > 0 then q.normal[0] else q.high[0]
  }

  function Evict(q: Queues): Queues
    requires Size(q) > 0
  {
    if |q.low| > 0 then q.(low := q.low[1..])
    else if |q.normal| > 0 then q.(normal := q.normal[1..])
    else q.(high := q.high[1..])
  }

  function Enqueue(q: Queues, m: Message, priority: string, maxMessages: nat, policy: Policy): Enqueued
    requires maxMessages > 0
  {
    if Size(q) < maxMessages then Accepted(Append(q, m, priority), None)
    else if policy == DropOldest then Accepted(Append(Evict(q), m, priority), Some(Victim(q)))
    else Full
  }

  /** What gives way is the oldest message of its queue, and nothing of a lower priority is queued. */
  lemma VictimIsOldestOfLowest(q: Queues)
    requires Size(q) > 0
    ensures exists k | 0 <= k < 3 ::
              var lowestFirst := [q.low, q.normal, q.high];
              && lowestFirst[k] != [] && Victim(q) == lowestFirst[k][0]
              && (forall i | 0 <= i < k :: lowestFirst[i] == [])
              && [Evict(q).low, Evict(q).normal, Evict(q).high] == lowestFirst[k := lowestFirst[k][1..]]
  {
    var lowestFirst := [q.low, q.normal, q.high];
    var k := if |q.low| > 0 then 0 else if |q.normal| > 0 then 1 else 2;
    assert lowestFirst[k] != [] && Victim(q) == lowestFirst[k][0];
  }

  lemma CountHead(s: seq<Message>, p: Message -> bool)
    requires |s| > 0
    ensures Count(s, p) == Count(s[1..], p) + if p(s[0]) then 1 else 0
  {
    CountConcat([s[0]], s[1..], p);
    assert s == [s[0]] + s[1..];
  }

  lemma EvictRemovesVictim(q: Queues, p: Message -> bool)
    requires Size(q) > 0
    ensures Victim(q) in All(q) && (forall m | m in All(Evict(q)) :: m in All(q))
    ensures CountAll(q, p) == CountAll(Evict(q), p) + if p(Victim(q)) then 1 else 0
  {
    if |q.low| > 0 { CountHead(q.low, p); }
    else if |q.normal| > 0 { CountHead(q.normal, p); }
    else { CountHead(q.high, p); }
  }

  lemma CountSnoc(s: seq<Message>, m: Message, p: Message -> bool)
    ensures Count(s + [m], p) == Count(s, p) + if p(m) then 1 else 0
  {
    assert (s + [m])[..|s|] == s;
  }

  lemma AppendAddsOne(q: Queues, m: Message, priority: string, p: Message -> bool)
    ensures CountAll(Append(q, m, priority), p) == CountAll(q, p) + if p(m) then 1 else 0
    ensures forall x :: x in All(Append(q, m, priority)) <==> x in All(q) || x == m
  {
    if priority == "high" { CountSnoc(q.high, m, p); }
    else if priority == "low" { CountSnoc(q.low, m, p); }
    else { CountSnoc(q.normal, m, p); }
  }

  /** An accepted message is queued once; nothing is lost but the victim, and only when the topic was full. */
  lemma EnqueueConserves(q: Queues, m: Message, priority: string, maxMessages: nat, policy: Policy, p: Message -> bool)
    requires maxMessages > 0
    ensures match Enqueue(q, m, priority, maxMessages, policy)
            case Full => Size(q) >= maxMessages && policy == Reject
            case Accepted(q', None) =>
              Size(q) < maxMessages && CountAll(q', p) == CountAll(q, p) + if p(m) then 1 else 0
            case Accepted(q', Some(victim)) =>
              && Size(q) >= maxMessages && policy == DropOldest && Size(q') == Size(q) && victim in All(q)
              && CountAll(q', p) + (if p(victim) then 1 else 0) == CountAll(q, p) + if p(m) then 1 else 0
    ensures var r := Enqueue(q, m, priority, maxMessages, policy);
            r.Accepted? ==> m in All(r.queues) && forall x | x in All(r.queues) :: x == m || x in All(q)
  {
    if Size(q) >= maxMessages {
      EvictRemovesVictim(q, p);
      AppendAddsOne(Evict(q), m, priority, p);
    } else {
      AppendAddsOne(q, m, priority, p);
    }
  }

  /** How many of the queued messages have at least the priority given. */
  function Ahead(q: Queues, priority: string): (k: nat)
    ensures k <= |All(q)|
  {
    if priority == "high" then |q.high| else if priority == "low" then |All(q)| else |q.high| + |q.normal|
  }

  lemma AppendPlacesLast(q: Queues, m: Message, priority: string)
    ensures var k := Ahead(q, priority); All(Append(q, m, priority)) == All(q)[..k] + [m] + All(q)[k..]
  {
    if priority == "high" {
      assert All(q)[..|q.high|] == q.high && All(q)[|q.high|..] == q.normal + q.low;
    } else if priority != "low" {
      assert All(q)[..|q.high| + |q.normal|] == q.high + q.normal && All(q)[|q.high| + |q.normal|..] == q.low;
    }
  }

  /** An accepted message is served after everything of its own or a higher priority and before the rest. */
  lemma EnqueuePlacesLast(q: Queues, m: Message, priority: string, maxMessages: nat, policy: Policy)
    requires maxMessages > 0 && (Size(q) < maxMessages || policy == DropOldest)
    ensures var r := Enqueue(q, m, priority, maxMessages, policy);
            var kept := if Size(q) < maxMessages then q else Evict(q);
            var k := Ahead(kept, priority);
            r.Accepted? && All(r.queues) == All(kept)[..k] + [m] + All(kept)[k..]
  {
    AppendPlacesLast(if Size(q) < maxMessages then q else Evict(q), m, priority);
  }

  // ---------------------------------------------------------------------------
  // Removal by id, and purging
  // ---------------------------------------------------------------------------

  function IndexOf(s: seq<Message>, id: string): (i: nat)
    ensures i <= |s| && (forall j | 0 <= j < i :: s[j].id != id) && (i < |s| ==> s[i].id == id)
  {
    if s == [] then 0 else if s[0].id == id then 0 else 1 + IndexOf(s[1..], id)
  }

  function RemoveFirst(s: seq<Message>, id: string): seq<Message> {
    var i := IndexOf(s, id);
    if i < |s| then s[..i] + s[i + 1..] else s
  }

  predicate Has(s: seq<Message>, id: string) { exists i | 0 <= i < |s| :: s[i].id == id }

  /** The first message with the id is removed, looking through the queues in service order. */
  function Remove(q: Queues, id: string): Queues {
    if Has(q.high, id) then q.(high := RemoveFirst(q.high, id))
    else if Has(q.normal, id) then q.(normal := RemoveFirst(q.normal, id))
    else q.(low := RemoveFirst(q.low, id))
  }

  lemma CountMiddle(a: seq<Message>, x: Message, b: seq<Message>, p: Message -> bool)
    ensures Count(a + [x] + b, p) == Count(a + b, p) + if p(x) then 1 else 0
  {
    CountConcat(a, b, p);
    CountConcat(a + [x], b, p);
    CountSnoc(a, x, p);
  }

  lemma SplitAt(s: seq<Message>, i: nat)
    requires i < |s|
    ensures s == s[..i] + [s[i]] + s[i + 1..]
  {
  }

  lemma HasIndex(s: seq<Message>, id: string)
    ensures Has(s, id) <==> IndexOf(s, id) < |s|
  {
  }

  lemma RemoveFirstSound(s: seq<Message>, id: string)
    ensures forall m | m in RemoveFirst(s, id) :: m in s
    ensures Has(s, id) <==> IndexOf(s, id) < |s|
    ensures !Has(s, id) ==> RemoveFirst(s, id) == s
  {
  }

  lemma RemoveFirstRemoves(s: seq<Message>, id: string, p: Message -> bool)
    ensures forall m | m in RemoveFirst(s, id) :: m in s
    ensures Has(s, id) ==>
              && IndexOf(s, id) < |s|
              && Count(s, p) == Count(RemoveFirst(s, id), p) + if p(s[IndexOf(s, id)]) then 1 else 0
    ensures !Has(s, id) ==> RemoveFirst(s, id) == s
  {
    RemoveFirstSound(s, id);
    var i := IndexOf(s, id);
    if i < |s| {
      SplitAt(s, i);
      CountMiddle(s[..i], s[i], s[i + 1..], p);
    }
  }

  /** Looking through the queues one after the other removes the first message with the id in service order,
      and leaves everything else where it was. */
  lemma RemoveInServiceOrder(q: Queues, id: string)
    ensures All(Remove(q, id)) == RemoveFirst(All(q), id)
    ensures Has(All(q), id) <==> Has(q.high, id) || Has(q.normal, id) || Has(q.low, id)
  {
    RemoveFirstOfTwo(q.high, q.normal, id);
    RemoveFirstOfTwo(q.high + q.normal, q.low, id);
  }

  lemma IndexOfIs(s: seq<Message>, id: string, i: nat)
    requires i <= |s| && (forall j | 0 <= j < i :: s[j].id != id) && (i < |s| ==> s[i].id == id)
    ensures IndexOf(s, id) == i
  {
  }

  lemma IndexOfTwo(a: seq<Message>, b: seq<Message>, id: string)
    ensures IndexOf(a + b, id) == if Has(a, id) then IndexOf(a, id) else |a| + IndexOf(b, id)
  {
    var i, j := IndexOf(a, id), IndexOf(b, id);
    HasIndex(a, id);
    if Has(a, id) {
      IndexOfIs(a + b, id, i);
    } else {
      forall x | 0 <= x < |a| + j
        ensures (a + b)[x].id != id
      {
        if x >= |a| { assert (a + b)[x] == b[x - |a|]; }
      }
      IndexOfIs(a + b, id, |a| + j);
    }
  }

  lemma CutOfTwo<T>(a: seq<T>, b: seq<T>, i: nat)
    requires i < |a| + |b|
    ensures (a + b)[..i] + (a + b)[i + 1..] ==
            if i < |a| then a[..i] + a[i + 1..] + b else a + (b[..i - |a|] + b[i - |a| + 1..])
  {
  }

  lemma HasInTwo(a: seq<Message>, b: seq<Message>, id: string)
    ensures Has(a + b, id) <==> Has(a, id) || Has(b, id)
  {
    IndexOfTwo(a, b, id);
    HasIndex(a, id);
    HasIndex(b, id);
    HasIndex(a + b, id);
  }

  lemma RemoveFirstOfTwo(a: seq<Message>, b: seq<Message>, id: string)
    ensures Has(a + b, id) <==> Has(a, id) || Has(b, id)
    ensures RemoveFirst(a + b, id) == if Has(a, id) then RemoveFirst(a, id) + b else a + RemoveFirst(b, id)
  {
    HasInTwo(a, b, id);
    HasIndex(a, id);
    HasIndex(b, id);
    IndexOfTwo(a, b, id);
    if Has(a, id) || Has(b, id) { CutOfTwo(a, b, IndexOf(a + b, id)); }
  }

  /** One message goes if the id is queued, and none otherwise. */
  lemma RemoveTakesOne(q: Queues, id: string, p: Message -> bool)
    ensures forall m | m in All(Remove(q, id)) :: m in All(q)
    ensures CountAll(Remove(q, id), p) <= CountAll(q, p)
    ensures Has(q.high, id) || Has(q.normal, id) || Has(q.low, id) ==>
              CountAll(Remove(q, id), HasId(id)) == CountAll(q, HasId(id)) - 1
  {
    RemoveFirstRemoves(q.high, id, p);
    RemoveFirstRemoves(q.normal, id, p);
    RemoveFirstRemoves(q.low, id, p);
    RemoveFirstRemoves(q.high, id, HasId(id));
    RemoveFirstRemoves(q.normal, id, HasId(id));
    RemoveFirstRemoves(q.low, id, HasId(id));
  }

  /** With unique ids, removing an id leaves nobody with that id behind. */
  lemma RemoveIsExact(q: Queues, id: string)
    requires UniqueIds(q)
    ensures forall m | m in All(Remove(q, id)) :: m in All(q) && m.id != id
  {
    var q' := Remove(q, id);
    RemoveTakesOne(q, id, HasId(id));
    forall m | m in All(q')
      ensures m.id != id
    {
      if m.id == id {
        CountAllMember(q', HasId(id), m);
        CountAllMember(q, HasId(id), m);
      }
    }
  }

  /** The purge of one queue: expired messages go, the others stay in order. */
  function Unexpired(s: seq<Message>, now: Time): seq<Message> {
    if s == [] then []
    else if Expired(s[|s| - 1], now) then Unexpired(s[..|s| - 1], now)
    else Unexpired(s[..|s| - 1], now) + [s[|s| - 1]]
  }

  function Purge(q: Queues, now: Time): Queues {
    Queues(Unexpired(q.high, now), Unexpired(q.normal, now), Unexpired(q.low, now))
  }

  function Purged(q: Queues, now: Time): seq<Message> {
    Select(q.high, Stale, now) + Select(q.normal, Stale, now) + Select(q.low, Stale, now)
  }

  lemma {:induction false} UnexpiredPartitions(s: seq<Message>, now: Time, p: Message -> bool)
    ensures Count(s, p) == Count(Unexpired(s, now), p) + Count(Select(s, Stale, now), p)
  {
    if s == [] {
    } else {
      var prefix, last := s[..|s| - 1], s[|s| - 1];
      UnexpiredPartitions(prefix, now, p);
      assert Count(s, p) == Count(prefix, p) + if p(last) then 1 else 0;
      if Expired(last, now) {
        assert Unexpired(s, now) == Unexpired(prefix, now);
        assert Select(s, Stale, now) == Select(prefix, Stale, now) + [last];
        CountSnoc(Select(prefix, Stale, now), last, p);
      } else {
        assert Unexpired(s, now) == Unexpired(prefix, now) + [last];
        assert Select(s, Stale, now) == Select(prefix, Stale, now);
        CountSnoc(Unexpired(prefix, now), last, p);
      }
    }
  }

  lemma {:induction false} UnexpiredSound(s: seq<Message>, now: Time)
    ensures forall m :: m in Unexpired(s, now) <==> m in s && !Expired(m, now)
  {
    if s == [] {
    } else {
      UnexpiredSound(s[..|s| - 1], now);
      assert s == s[..|s| - 1] + [s[|s| - 1]];
    }
  }

  /** A purge drops exactly the expired messages. */
  lemma PurgePartitions(q: Queues, now: Time, p: Message -> bool)
    ensures CountAll(q, p) == CountAll(Purge(q, now), p) + Count(Purged(q, now), p)
    ensures forall m :: m in All(Purge(q, now)) <==> m in All(q) && !Expired(m, now)
  {
    UnexpiredPartitions(q.high, now, p);
    UnexpiredPartitions(q.normal, now, p);
    UnexpiredPartitions(q.low, now, p);
    UnexpiredSound(q.high, now);
    UnexpiredSound(q.normal, now);
    UnexpiredSound(q.low, now);
    var h, n, l := Select(q.high, Stale, now), Select(q.normal, Stale, now), Select(q.low, Stale, now);
    CountConcat(h, n, p);
    CountConcat(h + n, l, p);
  }

  // ---------------------------------------------------------------------------
  // Consumers
  // ---------------------------------------------------------------------------

  /** The identity of a consumer's notification channel. */
  type Channel = nat

  datatype TopicState = TopicState(queues: Queues, waiting: seq<Channel>)

  /** A consumer that finds nothing ready is parked. */
  function ConsumeOrPark(t: TopicState, limit: int, now: Time, ch: Channel): TopicState {
    var e := Extract(t.queues, limit, now);
    TopicState(e.left, if e.results == [] then t.waiting + [ch] else t.waiting)
  }

  /** A requeued message goes to the first parked consumer if its channel takes it, and is queued otherwise. */
  function RequeueInto(t: TopicState, m: Message, channelTakes: bool): TopicState {
    if t.waiting != [] && channelTakes then t.(waiting := t.waiting[1..])
    else TopicState(Append(t.queues, m, "normal"), if t.waiting == [] then [] else t.waiting[1..])
  }

  /** The parked consumers without the first occurrence of `ch`. */
  function Unpark(waiting: seq<Channel>, ch: Channel): seq<Channel> {
    if waiting == [] then []
    else if waiting[0] == ch then waiting[1..]
    else [waiting[0]] + Unpark(waiting[1..], ch)
  }
}
