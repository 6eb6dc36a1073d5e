/** Memory and disk together: whatever the broker does, every message it still holds in memory would be
    recovered from disk with the same content. Each operation is one step here; a run is any sequence of them. */
module Durability {
  import opened Messages
  import opened Queueing
  import opened Wal
  import opened Filenames
  import opened Storage

  /** `ram` are the queues of every topic; `unlogged` are the (topic, id) pairs queued by a broadcast, which is
      never written to disk. */
  datatype State = State(ram: map<string, Queues>, files: Files, unlogged: set<(string, string)>)

  datatype Step =
    | Publish(topic: string, msg: Message, priority: string, broadcast: bool, maxMessages: nat, policy: Policy)
    | Consume(topic: string, limit: int)
    | Acknowledge(topic: string, id: string)
    | Requeue(msg: Message, handedOver: bool)
    | HandOff(topic: string, id: string)
    | PurgeExpired(topic: string)
    | DrainForRedrive(topic: string)
    | Purge(topic: string)
    | DeleteTopic(topic: string)
    | CompactTopic(topic: string)
    | Restart

  /** A fresh broker over an empty store; `names` are the topics that will ever be used. */
  function Init(names: set<string>): State {
    State(map t | t in names :: Queues([], [], []), map[], {})
  }

  function AckAll(crc: Crc, files: Files, topic: string, ids: seq<string>, now: Time): Files {
    if ids == [] then files
    else Write(crc, AckAll(crc, files, topic, ids[..|ids| - 1], now), topic, AckRecord(ids[|ids| - 1], now))
  }

  predicate Queued(q: Queues, id: string) {
    Has(q.high, id) || Has(q.normal, id) || Has(q.low, id)
  }

  /** A redelivery counts one more attempt; the third moves the message to the dead letter queue. */
  function Retried(m: Message): Message {
    var n := (if m.retryCount < 0 then 0 else m.retryCount) + 1;
    m.(retryCount := n, topic := if n >= 3 then m.topic + ".dlq" else m.topic)
  }

  /** The message after `k` failed deliveries, each requeued. */
  function RetriedTimes(m: Message, k: nat): Message {
    if k == 0 then m else Retried(RetriedTimes(m, k - 1))
  }

  function DlqSuffix(k: nat): string {
    if k == 0 then "" else DlqSuffix(k - 1) + ".dlq"
  }

  /** A message that never failed before stays on its topic through two failures and is on the dead letter
      queue after the third; every further failure adds another suffix. Nothing else about it changes. */
  lemma {:induction false} ThirdFailureReachesDlq(m: Message, k: nat)
    requires m.retryCount <= 0
    ensures var suffix := DlqSuffix(if k < 3 then 0 else k - 2);
            RetriedTimes(m, k) == m.(topic := m.topic + suffix, retryCount := if k == 0 then m.retryCount else k)
  {
    if k == 0 {
      assert m.topic + "" == m.topic;
    } else {
      ThirdFailureReachesDlq(m, k - 1);
      if k >= 3 {
        var before := DlqSuffix(if k - 1 < 3 then 0 else k - 3);
        assert (m.topic + before) + ".dlq" == m.topic + (before + ".dlq");
      }
    }
  }

  function ApplyPublish(crc: Crc, s: State, now: Time, t: string, m: Message, priority: string, broadcast: bool,
                        maxMessages: nat, policy: Policy): State {
    if t in s.ram && maxMessages > 0 && !Queued(s.ram[t], m.id) then
      var files := if broadcast then s.files else Write(crc, s.files, t, PutRecord(m, now));
      match Enqueue(s.ram[t], m, priority, maxMessages, policy)
      case Full => s.(files := files)
      case Accepted(q, evicted) =>
        State(s.ram[t := q],
              if evicted.Some? then Write(crc, files, t, AckRecord(evicted.value.id, now)) else files,
              if broadcast then s.unlogged + {(t, m.id)} else s.unlogged - {(t, m.id)})
    else s
  }

  function ApplyRequeue(crc: Crc, s: State, now: Time, m: Message, handedOver: bool): State {
    var m' := Retried(m);
    if m'.topic in s.ram then
      State(if handedOver then s.ram else s.ram[m'.topic := Append(s.ram[m'.topic], m', "normal")],
            Write(crc, s.files, m'.topic, PutRecord(m', now)),
            s.unlogged - {(m'.topic, m.id)})
    else s
  }

  /** The topic is left with `q`, and the dropped ids are acknowledged on disk. */
  function Drop(crc: Crc, s: State, now: Time, t: string, q: Queues, ids: seq<string>): State {
    s.(ram := s.ram[t := q], files := AckAll(crc, s.files, t, ids, now))
  }

  /** What recovery returns for a topic. */
  function Recovered(crc: Crc, files: Files, t: string): seq<Message> {
    if IsSafePath(t) then Load(crc, LogFor(files, t)) else []
  }

  /** The name under which startup finds the topic's log file. */
  predicate KeepsItsName(t: string) { RecoveredName(TopicToFilename(t)) == t }

  /** After a restart memory holds what recovery returns, for the topics whose files are found under their names. */
  function Restarted(crc: Crc, s: State): State {
    State(map t | t in s.ram :: Queues([], if KeepsItsName(t) then Recovered(crc, s.files, t) else [], []), s.files, {})
  }

  function Apply(crc: Crc, s: State, now: Time, step: Step): State {
    match step
    case Publish(t, m, priority, broadcast, maxMessages, policy) =>
      ApplyPublish(crc, s, now, t, m, priority, broadcast, maxMessages, policy)
    case Consume(t, limit) =>
      if t !in s.ram then s
      else var e := Extract(s.ram[t], limit, now); Drop(crc, s, now, t, e.left, Ids(e.expired))
    case Acknowledge(t, id) =>
      if t in s.ram && Queued(s.ram[t], id) then Drop(crc, s, now, t, Remove(s.ram[t], id), [id]) else s
    case Requeue(m, handedOver) => ApplyRequeue(crc, s, now, m, handedOver)
    case HandOff(t, id) => if t in s.ram then s.(ram := s.ram[t := Remove(s.ram[t], id)]) else s
    case PurgeExpired(t) =>
      if t in s.ram then Drop(crc, s, now, t, Queueing.Purge(s.ram[t], now), Ids(Purged(s.ram[t], now))) else s
    case DrainForRedrive(t) =>
      if t in s.ram then Drop(crc, s, now, t, s.ram[t].(normal := []), Ids(s.ram[t].normal)) else s
    case Purge(t) =>
      if t in s.ram then s.(ram := s.ram[t := Queues([], [], [])], files := Clear(s.files, t)) else s
    case DeleteTopic(t) =>
      if t in s.ram then s.(ram := s.ram[t := Queues([], [], [])], files := Delete(s.files, t)) else s
    case CompactTopic(t) => s.(files := CompactFile(crc, s.files, t))
    case Restart => Restarted(crc, s)
  }

  /** A run: each step happens at its own time. */
  function Run(crc: Crc, s: State, steps: seq<(Time, Step)>): State {
    if steps == [] then s
    else var (now, step) := steps[|steps| - 1]; Apply(crc, Run(crc, s, steps[..|steps| - 1]), now, step)
  }

  /** Every message in memory that was not a broadcast is recovered if and only if the storage accepts the
      topic's name. */
  ghost predicate Durable(crc: Crc, s: State) {
    forall t, m | t in s.ram && m in All(s.ram[t]) && (t, m.id) !in s.unlogged ::
      m in Recovered(crc, s.files, t) <==> IsSafePath(t)
  }

  // ---------------------------------------------------------------------------
  // Invariant
  // ---------------------------------------------------------------------------

  function LogOf(files: Files, t: string): Log { LogAt(files, LogFile(t)) }

  /** The topic's messages are on disk, and no two share an id. */
  ghost predicate TopicOk(crc: Crc, q: Queues, log: Log, t: string, unlogged: set<(string, string)>) {
    UniqueIds(q) && forall m | m in All(q) && (t, m.id) !in unlogged :: m in Load(crc, log)
  }

  /** No two names that the storage accepts have the same log file. */
  ghost predicate NoFileShared(names: set<string>) {
    forall a, b | a in names && b in names && a != b && IsSafePath(a) && IsSafePath(b) :: LogFile(a) != LogFile(b)
  }

  /** Of topics whose names the storage refuses nothing is asked. There are no legacy files. */
  ghost predicate Inv(crc: Crc, s: State) {
    && NoFileShared(s.ram.Keys) && (forall f | f in s.files :: '@' !in f)
    && forall t | t in s.ram && IsSafePath(t) :: TopicOk(crc, s.ram[t], LogOf(s.files, t), t, s.unlogged)
  }

  lemma InvMeansDurable(crc: Crc, s: State)
    requires Inv(crc, s)
    ensures Durable(crc, s)
  {
    forall t, m | t in s.ram && m in All(s.ram[t]) && (t, m.id) !in s.unlogged
      ensures m in Recovered(crc, s.files, t) <==> IsSafePath(t)
    {
      if IsSafePath(t) {
        assert TopicOk(crc, s.ram[t], LogOf(s.files, t), t, s.unlogged);
        LoadEmpty(crc);
      }
    }
  }

  lemma LoadEmpty(crc: Crc)
    ensures Load(crc, []) == []
  {
  }

  lemma InitInv(crc: Crc, names: set<string>)
    requires NoFileShared(names)
    ensures Inv(crc, Init(names))
  {
    assert Init(names).ram.Keys == names;
  }

  /** At most the file of `t` has changed, and that only if the storage accepts the name. */
  ghost predicate OnlyFileOf(files: Files, files': Files, t: string) {
    && (forall f | f != LogFile(t) || !IsSafePath(t) :: LogAt(files', f) == LogAt(files, f))
    && files'.Keys <= files.Keys + {LogFile(t)}
  }

  lemma LogFileIsNotLegacy(t: string)
    ensures '@' !in LogFile(t)
  {
    DecodeFilename(t);
    assert '@' !in ".log";
  }

  /** A step that concerns one topic leaves the others alone, as no two topics share a file. */
  lemma OneTopic(crc: Crc, s: State, t: string, q': Queues, files': Files, unlogged': set<(string, string)>)
    requires Inv(crc, s) && t in s.ram && OnlyFileOf(s.files, files', t)
    requires forall k | k in s.unlogged && k !in unlogged' :: k.0 == t
    requires IsSafePath(t) ==> TopicOk(crc, q', LogOf(files', t), t, unlogged')
    ensures Inv(crc, State(s.ram[t := q'], files', unlogged'))
  {
    var s' := State(s.ram[t := q'], files', unlogged');
    assert s'.ram.Keys == s.ram.Keys;
    LogFileIsNotLegacy(t);
    forall x | x in s'.ram && IsSafePath(x)
      ensures TopicOk(crc, s'.ram[x], LogOf(s'.files, x), x, s'.unlogged)
    {
      if x != t {
        assert TopicOk(crc, s.ram[x], LogOf(s.files, x), x, s.unlogged);
        assert LogOf(files', x) == LogOf(s.files, x);
        assert forall m :: (x, m) !in unlogged' ==> (x, m) !in s.unlogged;
      }
    }
  }

  /** The same, for a step that leaves the queues alone. */
  lemma OneFile(crc: Crc, s: State, t: string, files': Files, unlogged': set<(string, string)>)
    requires Inv(crc, s) && t in s.ram && OnlyFileOf(s.files, files', t)
    requires forall k | k in s.unlogged && k !in unlogged' :: k.0 == t
    requires IsSafePath(t) ==> TopicOk(crc, s.ram[t], LogOf(files', t), t, unlogged')
    ensures Inv(crc, State(s.ram, files', unlogged'))
  {
    OneTopic(crc, s, t, s.ram[t], files', unlogged');
    assert s.ram[t := s.ram[t]] == s.ram;
  }

  lemma WriteOnDisk(crc: Crc, files: Files, t: string, rec: LogRecord)
    ensures OnlyFileOf(files, Write(crc, files, t, rec), t)
    ensures IsSafePath(t) ==> LogOf(Write(crc, files, t, rec), t) == LogOf(files, t) + [Parsed(Seal(crc, rec))]
  {
  }

  // ---------------------------------------------------------------------------
  // Acknowledgements
  // ---------------------------------------------------------------------------

  lemma {:induction false} AckAllElsewhere(crc: Crc, files: Files, t: string, ids: seq<string>, now: Time)
    ensures OnlyFileOf(files, AckAll(crc, files, t, ids, now), t)
  {
    if ids == [] {
    } else {
      AckAllElsewhere(crc, files, t, ids[..|ids| - 1], now);
      WriteOnDisk(crc, AckAll(crc, files, t, ids[..|ids| - 1], now), t, AckRecord(ids[|ids| - 1], now));
    }
  }

  lemma {:induction false} LoadAfterAckAll(crc: Crc, files: Files, t: string, ids: seq<string>, now: Time, x: Message)
    requires IsSafePath(t)
    ensures x in Load(crc, LogOf(AckAll(crc, files, t, ids, now), t)) <==>
              x.id !in ids && x in Load(crc, LogOf(files, t))
  {
    if ids == [] {
    } else {
      var shorter, last := ids[..|ids| - 1], ids[|ids| - 1];
      assert ids == shorter + [last];
      LoadAfterAckAll(crc, files, t, shorter, now, x);
      LoadAfterAck(crc, LogOf(AckAll(crc, files, t, shorter, now), t), last, now, x);
    }
  }

  lemma {:induction false} IdsMember(s: seq<Message>, id: string)
    requires id in Ids(s)
    ensures exists m :: m in s && m.id == id
  {
    if s[|s| - 1].id == id {
      assert s[|s| - 1] in s;
    } else {
      IdsMember(s[..|s| - 1], id);
      var m :| m in s[..|s| - 1] && m.id == id;
      assert m in s;
    }
  }

  /** The messages of `q'` are among those of `q`, and together with those dropped they are no more. */
  ghost predicate Splits(q: Queues, q': Queues, dropped: seq<Message>) {
    && (forall m | m in All(q') :: m in All(q))
    && (forall p: Message -> bool :: CountAll(q', p) + Count(dropped, p) <= CountAll(q, p))
  }

  /** What was dropped shares no id with what is left. */
  lemma DroppedIsGone(q: Queues, q': Queues, dropped: seq<Message>, m: Message)
    requires UniqueIds(q) && Splits(q, q', dropped) && m in All(q')
    ensures m.id !in Ids(dropped)
  {
    assert CountAll(q', HasId(m.id)) + Count(dropped, HasId(m.id)) <= CountAll(q, HasId(m.id)) <= 1;
    CountAllMember(q', HasId(m.id), m);
    if m.id in Ids(dropped) {
      IdsMember(dropped, m.id);
      var d :| d in dropped && d.id == m.id;
      CountMember(dropped, HasId(m.id), d);
    }
  }

  lemma DropKeepsTopic(crc: Crc, files: Files, t: string, q: Queues, q': Queues, dropped: seq<Message>, now: Time,
                       unlogged: set<(string, string)>)
    requires IsSafePath(t) && TopicOk(crc, q, LogOf(files, t), t, unlogged) && Splits(q, q', dropped)
    ensures TopicOk(crc, q', LogOf(AckAll(crc, files, t, Ids(dropped), now), t), t, unlogged)
  {
    forall id
      ensures CountAll(q', HasId(id)) <= 1
    {
      assert CountAll(q', HasId(id)) + Count(dropped, HasId(id)) <= CountAll(q, HasId(id)) <= 1;
    }
    forall m | m in All(q') && (t, m.id) !in unlogged
      ensures m in Load(crc, LogOf(AckAll(crc, files, t, Ids(dropped), now), t))
    {
      DroppedIsGone(q, q', dropped, m);
      LoadAfterAckAll(crc, files, t, Ids(dropped), now, m);
    }
  }

  lemma DropKeepsInv(crc: Crc, s: State, now: Time, t: string, q': Queues, dropped: seq<Message>)
    requires Inv(crc, s) && t in s.ram && Splits(s.ram[t], q', dropped)
    ensures Inv(crc, Drop(crc, s, now, t, q', Ids(dropped)))
  {
    AckAllElsewhere(crc, s.files, t, Ids(dropped), now);
    if IsSafePath(t) {
      DropKeepsTopic(crc, s.files, t, s.ram[t], q', dropped, now, s.unlogged);
    }
    OneTopic(crc, s, t, q', AckAll(crc, s.files, t, Ids(dropped), now), s.unlogged);
  }

  lemma ExtractSplits(q: Queues, limit: int, now: Time)
    ensures Splits(q, Extract(q, limit, now).left, Extract(q, limit, now).expired)
  {
    ExtractSound(q, limit, now);
    forall p: Message -> bool
      ensures CountAll(Extract(q, limit, now).left, p) + Count(Extract(q, limit, now).expired, p) <= CountAll(q, p)
    {
      ExtractPartitions(q, limit, now, p);
    }
  }

  lemma PurgeSplits(q: Queues, now: Time)
    ensures Splits(q, Queueing.Purge(q, now), Purged(q, now))
  {
    PurgePartitions(q, now, HasId(""));
    forall p: Message -> bool
      ensures CountAll(Queueing.Purge(q, now), p) + Count(Purged(q, now), p) <= CountAll(q, p)
    {
      PurgePartitions(q, now, p);
    }
  }

  /** Removing a queued id drops one message, with that id. */
  lemma RemoveSplits(q: Queues, id: string) returns (gone: Message)
    requires Queued(q, id)
    ensures gone.id == id && Splits(q, Remove(q, id), [gone])
  {
    var source := if Has(q.high, id) then q.high else if Has(q.normal, id) then q.normal else q.low;
    RemoveFirstRemoves(source, id, HasId(id));
    gone := source[IndexOf(source, id)];
    RemoveTakesOne(q, id, HasId(id));
    forall p: Message -> bool
      ensures CountAll(Remove(q, id), p) + Count([gone], p) <= CountAll(q, p)
    {
      RemoveFirstRemoves(source, id, p);
      CountOne(gone, p);
    }
  }

  lemma AcknowledgeKeepsInv(crc: Crc, s: State, now: Time, t: string, id: string)
    requires Inv(crc, s) && t in s.ram && Queued(s.ram[t], id)
    ensures Inv(crc, Drop(crc, s, now, t, Remove(s.ram[t], id), [id]))
  {
    var gone := RemoveSplits(s.ram[t], id);
    assert Ids([gone]) == [id] by { assert [gone][..0] == []; }
    DropKeepsInv(crc, s, now, t, Remove(s.ram[t], id), [gone]);
  }

  /** A message taken off the queue by the push that handed it over, with nothing written to disk. */
  lemma HandOffKeepsInv(crc: Crc, s: State, t: string, id: string)
    requires Inv(crc, s) && t in s.ram
    ensures Inv(crc, s.(ram := s.ram[t := Remove(s.ram[t], id)]))
  {
    var q := s.ram[t];
    RemoveTakesOne(q, id, HasId(id));
    if IsSafePath(t) {
      assert TopicOk(crc, q, LogOf(s.files, t), t, s.unlogged);
      forall x
        ensures CountAll(Remove(q, id), HasId(x)) <= 1
      {
        RemoveTakesOne(q, id, HasId(x));
        assert CountAll(q, HasId(x)) <= 1;
      }
    }
    OneTopic(crc, s, t, Remove(q, id), s.files, s.unlogged);
  }

  // ---------------------------------------------------------------------------
  // New messages
  // ---------------------------------------------------------------------------

  lemma NotQueuedCountsZero(q: Queues, id: string)
    requires !Queued(q, id)
    ensures CountAll(q, HasId(id)) == 0 && forall m | m in All(q) :: m.id != id
  {
    NotHasCountsZero(q.high, id);
    NotHasCountsZero(q.normal, id);
    NotHasCountsZero(q.low, id);
  }

  lemma {:induction false} NotHasCountsZero(s: seq<Message>, id: string)
    requires !Has(s, id)
    ensures Count(s, HasId(id)) == 0
  {
    if s == [] {
    } else {
      assert forall i | 0 <= i < |s| - 1 :: s[..|s| - 1][i] == s[i];
      NotHasCountsZero(s[..|s| - 1], id);
    }
  }

  lemma AppendStaysUnique(q: Queues, m: Message, priority: string)
    requires UniqueIds(q) && !Queued(q, m.id)
    ensures UniqueIds(Append(q, m, priority))
  {
    forall id
      ensures CountAll(Append(q, m, priority), HasId(id)) <= 1
    {
      assert CountAll(q, HasId(id)) <= 1;
      AppendAddsOne(q, m, priority, HasId(id));
      NotQueuedCountsZero(q, m.id);
    }
  }

  /** A message put on disk, and appended to the queue. */
  lemma PutAndAppend(crc: Crc, q: Queues, log: Log, t: string, unlogged: set<(string, string)>, m: Message, now: Time,
                     priority: string)
    requires TopicOk(crc, q, log, t, unlogged) && !Queued(q, m.id)
    ensures var log' := log + [Parsed(Seal(crc, PutRecord(m, now)))];
            && TopicOk(crc, q, log', t, unlogged)
            && TopicOk(crc, Append(q, m, priority), log', t, unlogged - {(t, m.id)})
  {
    var log' := log + [Parsed(Seal(crc, PutRecord(m, now)))];
    NotQueuedCountsZero(q, m.id);
    AppendStaysUnique(q, m, priority);
    AppendAddsOne(q, m, priority, HasId(""));
    forall x | x in All(q) || x == m
      ensures x in Load(crc, log') <==> x == m || x in Load(crc, log)
    {
      LoadAfterPut(crc, log, m, now, x);
    }
  }

  /** A broadcast message, queued but not put on disk. */
  lemma AppendUnlogged(crc: Crc, q: Queues, log: Log, t: string, unlogged: set<(string, string)>, m: Message,
                       priority: string)
    requires TopicOk(crc, q, log, t, unlogged) && !Queued(q, m.id)
    ensures TopicOk(crc, Append(q, m, priority), log, t, unlogged + {(t, m.id)})
  {
    AppendStaysUnique(q, m, priority);
    AppendAddsOne(q, m, priority, HasId(""));
  }

  /** The victim of an eviction is taken off the queue and acknowledged. */
  lemma EvictAndAck(crc: Crc, q: Queues, log: Log, t: string, unlogged: set<(string, string)>, now: Time)
    requires TopicOk(crc, q, log, t, unlogged) && Size(q) > 0
    ensures TopicOk(crc, Evict(q), log + [Parsed(Seal(crc, AckRecord(Victim(q).id, now)))], t, unlogged)
  {
    var log' := log + [Parsed(Seal(crc, AckRecord(Victim(q).id, now)))];
    forall id
      ensures CountAll(Evict(q), HasId(id)) <= 1
    {
      assert CountAll(q, HasId(id)) <= 1;
      EvictRemovesVictim(q, HasId(id));
    }
    forall x | x in All(Evict(q))
      ensures x in All(q) && x.id != Victim(q).id
      ensures x in Load(crc, log') <==> x in Load(crc, log)
    {
      EvictRemovesVictim(q, HasId(x.id));
      assert CountAll(q, HasId(x.id)) <= 1;
      CountAllMember(Evict(q), HasId(x.id), x);
      LoadAfterAck(crc, log, Victim(q).id, now, x);
    }
  }

  /** On disk the PUT of the new message comes before the ACK of the victim; for recovery the order of the two
      does not matter, as they concern different ids. */
  lemma PutThenAck(crc: Crc, log: Log, m: Message, id: string, now: Time, x: Message)
    requires id != m.id
    ensures var put, ack := Parsed(Seal(crc, PutRecord(m, now))), Parsed(Seal(crc, AckRecord(id, now)));
            x in Load(crc, log + [put] + [ack]) <==> x in Load(crc, log + [ack] + [put])
  {
    var put, ack := Parsed(Seal(crc, PutRecord(m, now))), Parsed(Seal(crc, AckRecord(id, now)));
    LoadAfterPut(crc, log, m, now, x);
    LoadAfterAck(crc, log + [put], id, now, x);
    LoadAfterAck(crc, log, id, now, x);
    LoadAfterPut(crc, log + [ack], m, now, x);
  }

  lemma EvictedStaysOut(q: Queues, id: string)
    requires Size(q) > 0 && !Queued(q, id)
    ensures !Queued(Evict(q), id) && Victim(q).id != id
  {
  }

  lemma SameLoads(crc: Crc, q: Queues, log: Log, log': Log, t: string, unlogged: set<(string, string)>)
    requires TopicOk(crc, q, log, t, unlogged)
    requires forall x | x in All(q) :: x in Load(crc, log) ==> x in Load(crc, log')
    ensures TopicOk(crc, q, log', t, unlogged)
  {
  }

  /** A publish that evicts, seen from its topic. */
  lemma EvictingPublish(crc: Crc, q: Queues, log: Log, t: string, unlogged: set<(string, string)>, m: Message,
                        now: Time, priority: string, broadcast: bool)
    requires TopicOk(crc, q, log, t, unlogged) && Size(q) > 0 && !Queued(q, m.id)
    ensures var put, ack := Parsed(Seal(crc, PutRecord(m, now))), Parsed(Seal(crc, AckRecord(Victim(q).id, now)));
            if broadcast then TopicOk(crc, Append(Evict(q), m, priority), log + [ack], t, unlogged + {(t, m.id)})
            else TopicOk(crc, Append(Evict(q), m, priority), log + [put] + [ack], t, unlogged - {(t, m.id)})
  {
    var put, ack := Parsed(Seal(crc, PutRecord(m, now))), Parsed(Seal(crc, AckRecord(Victim(q).id, now)));
    EvictAndAck(crc, q, log, t, unlogged, now);
    EvictedStaysOut(q, m.id);
    if broadcast {
      AppendUnlogged(crc, Evict(q), log + [ack], t, unlogged, m, priority);
    } else {
      PutAndAppend(crc, Evict(q), log + [ack], t, unlogged, m, now, priority);
      forall x
        ensures x in Load(crc, log + [ack] + [put]) <==> x in Load(crc, log + [put] + [ack])
      {
        PutThenAck(crc, log, m, Victim(q).id, now, x);
      }
      SameLoads(crc, Append(Evict(q), m, priority), log + [ack] + [put], log + [put] + [ack], t,
                unlogged - {(t, m.id)});
    }
  }

  /** The log after the PUT of a publish. */
  function FilesAfterPut(crc: Crc, s: State, now: Time, t: string, m: Message, broadcast: bool): Files {
    if broadcast then s.files else Write(crc, s.files, t, PutRecord(m, now))
  }

  function UnloggedAfter(unlogged: set<(string, string)>, t: string, id: string, broadcast: bool)
    : set<(string, string)>
  {
    if broadcast then unlogged + {(t, id)} else unlogged - {(t, id)}
  }

  lemma PutOnDisk(crc: Crc, s: State, now: Time, t: string, m: Message, broadcast: bool)
    ensures OnlyFileOf(s.files, FilesAfterPut(crc, s, now, t, m, broadcast), t)
    ensures IsSafePath(t) ==>
              LogOf(FilesAfterPut(crc, s, now, t, m, broadcast), t) ==
              if broadcast then LogOf(s.files, t) else LogOf(s.files, t) + [Parsed(Seal(crc, PutRecord(m, now)))]
  {
    WriteOnDisk(crc, s.files, t, PutRecord(m, now));
  }

  /** A publish turned away by a full topic: its PUT stays. */
  lemma RefusedPublishKeepsInv(crc: Crc, s: State, now: Time, t: string, m: Message, broadcast: bool)
    requires Inv(crc, s) && t in s.ram && !Queued(s.ram[t], m.id)
    ensures Inv(crc, s.(files := FilesAfterPut(crc, s, now, t, m, broadcast)))
  {
    PutOnDisk(crc, s, now, t, m, broadcast);
    if IsSafePath(t) {
      assert TopicOk(crc, s.ram[t], LogOf(s.files, t), t, s.unlogged);
      PutAndAppend(crc, s.ram[t], LogOf(s.files, t), t, s.unlogged, m, now, "normal");
    }
    OneFile(crc, s, t, FilesAfterPut(crc, s, now, t, m, broadcast), s.unlogged);
  }

  /** A publish into a topic with room. */
  lemma PlainPublishKeepsInv(crc: Crc, s: State, now: Time, t: string, m: Message, priority: string, broadcast: bool)
    requires Inv(crc, s) && t in s.ram && !Queued(s.ram[t], m.id)
    ensures Inv(crc, State(s.ram[t := Append(s.ram[t], m, priority)], FilesAfterPut(crc, s, now, t, m, broadcast),
                           UnloggedAfter(s.unlogged, t, m.id, broadcast)))
  {
    var q, log := s.ram[t], LogOf(s.files, t);
    PutOnDisk(crc, s, now, t, m, broadcast);
    if IsSafePath(t) {
      assert TopicOk(crc, q, log, t, s.unlogged);
      if broadcast {
        AppendUnlogged(crc, q, log, t, s.unlogged, m, priority);
      } else {
        PutAndAppend(crc, q, log, t, s.unlogged, m, now, priority);
      }
    }
    OneTopic(crc, s, t, Append(q, m, priority), FilesAfterPut(crc, s, now, t, m, broadcast),
             UnloggedAfter(s.unlogged, t, m.id, broadcast));
  }

  /** What a PUT, unless the message is a broadcast, and an ACK leave on disk. */
  function FilesAfterEviction(crc: Crc, s: State, now: Time, t: string, m: Message, id: string, broadcast: bool)
    : Files
  {
    Write(crc, FilesAfterPut(crc, s, now, t, m, broadcast), t, AckRecord(id, now))
  }

  lemma PutAckOnDisk(crc: Crc, s: State, now: Time, t: string, m: Message, id: string, broadcast: bool)
    ensures var files := FilesAfterEviction(crc, s, now, t, m, id, broadcast);
            var put, ack := Parsed(Seal(crc, PutRecord(m, now))), Parsed(Seal(crc, AckRecord(id, now)));
            && OnlyFileOf(s.files, files, t)
            && (IsSafePath(t) ==> LogOf(files, t) == if broadcast then LogOf(s.files, t) + [ack]
                                                     else LogOf(s.files, t) + [put] + [ack])
  {
    PutOnDisk(crc, s, now, t, m, broadcast);
    WriteOnDisk(crc, FilesAfterPut(crc, s, now, t, m, broadcast), t, AckRecord(id, now));
  }

  lemma EvictingPublishKeepsInv(crc: Crc, s: State, now: Time, t: string, m: Message, priority: string, broadcast: bool)
    requires Inv(crc, s) && t in s.ram && Size(s.ram[t]) > 0 && !Queued(s.ram[t], m.id)
    ensures Inv(crc, State(s.ram[t := Append(Evict(s.ram[t]), m, priority)],
                           FilesAfterEviction(crc, s, now, t, m, Victim(s.ram[t]).id, broadcast),
                           UnloggedAfter(s.unlogged, t, m.id, broadcast)))
  {
    var q := s.ram[t];
    PutAckOnDisk(crc, s, now, t, m, Victim(q).id, broadcast);
    if IsSafePath(t) {
      assert TopicOk(crc, q, LogOf(s.files, t), t, s.unlogged);
      EvictingPublish(crc, q, LogOf(s.files, t), t, s.unlogged, m, now, priority, broadcast);
    }
    OneTopic(crc, s, t, Append(Evict(q), m, priority), FilesAfterEviction(crc, s, now, t, m, Victim(q).id, broadcast),
             UnloggedAfter(s.unlogged, t, m.id, broadcast));
  }

  lemma PublishKeepsInv(crc: Crc, s: State, now: Time, t: string, m: Message, priority: string, broadcast: bool,
                        maxMessages: nat, policy: Policy)
    requires Inv(crc, s)
    ensures Inv(crc, ApplyPublish(crc, s, now, t, m, priority, broadcast, maxMessages, policy))
  {
    if t in s.ram && maxMessages > 0 && !Queued(s.ram[t], m.id) {
      if Size(s.ram[t]) < maxMessages {
        PlainPublishKeepsInv(crc, s, now, t, m, priority, broadcast);
      } else if policy == DropOldest {
        EvictingPublishKeepsInv(crc, s, now, t, m, priority, broadcast);
      } else {
        RefusedPublishKeepsInv(crc, s, now, t, m, broadcast);
      }
    }
  }

  /** A requeue is careful when no message with its id is queued on the target topic, or when the message is handed
      over and only itself is queued there. Topics that are not on disk do not matter. */
  predicate CarefulRequeue(s: State, m: Message, handedOver: bool) {
    var m' := Retried(m);
    m'.topic in s.ram && IsSafePath(m'.topic) ==>
      forall x | x in All(s.ram[m'.topic]) && x.id == m.id :: handedOver && x == m'
  }

  lemma AbsentIsNotQueued(q: Queues, id: string)
    requires forall x | x in All(q) :: x.id != id
    ensures !Queued(q, id)
  {
    if Queued(q, id) {
      var m := QueuedMember(q, id);
    }
  }

  /** A message put on disk and handed to a consumer without being queued. */
  lemma PutForgotten(crc: Crc, q: Queues, log: Log, t: string, unlogged: set<(string, string)>, m: Message, now: Time)
    requires TopicOk(crc, q, log, t, unlogged) && forall x | x in All(q) && x.id == m.id :: x == m
    ensures TopicOk(crc, q, log + [Parsed(Seal(crc, PutRecord(m, now)))], t, unlogged - {(t, m.id)})
  {
    forall x | x in All(q) && (t, x.id) !in unlogged - {(t, m.id)}
      ensures x in Load(crc, log + [Parsed(Seal(crc, PutRecord(m, now)))])
    {
      LoadAfterPut(crc, log, m, now, x);
    }
  }

  lemma RequeueKeepsInv(crc: Crc, s: State, now: Time, m: Message, handedOver: bool)
    requires Inv(crc, s) && CarefulRequeue(s, m, handedOver)
    ensures Inv(crc, ApplyRequeue(crc, s, now, m, handedOver))
  {
    var m' := Retried(m);
    var t := m'.topic;
    if t in s.ram {
      var files, unlogged := Write(crc, s.files, t, PutRecord(m', now)), s.unlogged - {(t, m.id)};
      WriteOnDisk(crc, s.files, t, PutRecord(m', now));
      if handedOver {
        if IsSafePath(t) {
          assert TopicOk(crc, s.ram[t], LogOf(s.files, t), t, s.unlogged);
          PutForgotten(crc, s.ram[t], LogOf(s.files, t), t, s.unlogged, m', now);
        }
        OneFile(crc, s, t, files, unlogged);
      } else {
        if IsSafePath(t) {
          assert TopicOk(crc, s.ram[t], LogOf(s.files, t), t, s.unlogged);
          AbsentIsNotQueued(s.ram[t], m.id);
          PutAndAppend(crc, s.ram[t], LogOf(s.files, t), t, s.unlogged, m', now, "normal");
        }
        OneTopic(crc, s, t, Append(s.ram[t], m', "normal"), files, unlogged);
      }
    }
  }

  // ---------------------------------------------------------------------------
  // Runs
  // ---------------------------------------------------------------------------

  lemma EmptyTopicKeepsInv(crc: Crc, s: State, t: string, files: Files)
    requires Inv(crc, s) && t in s.ram && OnlyFileOf(s.files, files, t)
    ensures Inv(crc, s.(ram := s.ram[t := Queues([], [], [])], files := files))
  {
    OneTopic(crc, s, t, Queues([], [], []), files, s.unlogged);
  }

  lemma CompactKeepsInv(crc: Crc, s: State, t: string)
    requires Inv(crc, s)
    ensures Inv(crc, s.(files := CompactFile(crc, s.files, t)))
  {
    var s' := s.(files := CompactFile(crc, s.files, t));
    CompactionIsTransparent(crc, LogOf(s.files, t));
    forall x | x in s'.ram && IsSafePath(x)
      ensures TopicOk(crc, s'.ram[x], LogOf(s'.files, x), x, s'.unlogged)
    {
      assert TopicOk(crc, s.ram[x], LogOf(s.files, x), x, s.unlogged);
      assert Load(crc, LogOf(s'.files, x)) == Load(crc, LogOf(s.files, x));
    }
  }

  /** Without legacy files recovery reads the topic's own log or nothing. */
  lemma NoLegacyLog(files: Files, t: string)
    requires forall f | f in files :: '@' !in f
    ensures LogFor(files, t) == LogOf(files, t)
  {
    if LogFile(t) !in files && LegacyFile(t) in files {
      assert '@' !in ReplaceAll(t, "/", "@") by {
        assert forall ch | ch in ReplaceAll(t, "/", "@") :: ch in LegacyFile(t);
      }
      SameLegacyName(t);
    }
  }

  lemma RecoveredOnce(crc: Crc, log: Log, t: string)
    requires OncePut(crc, log)
    ensures TopicOk(crc, Queues([], Load(crc, log), []), log, t, {})
  {
    var q := Queues([], Load(crc, log), []);
    forall id
      ensures CountAll(q, HasId(id)) <= 1
    {
      LoadOncePerPut(crc, log, id);
    }
    assert All(q) == Load(crc, log);
  }

  lemma RestartKeepsInv(crc: Crc, s: State)
    requires Inv(crc, s) && CarefulRestart(crc, s)
    ensures Inv(crc, Restarted(crc, s))
  {
    var s' := Restarted(crc, s);
    assert s'.ram.Keys == s.ram.Keys;
    forall t | t in s'.ram && IsSafePath(t)
      ensures TopicOk(crc, s'.ram[t], LogOf(s'.files, t), t, {})
    {
      NoLegacyLog(s.files, t);
      if KeepsItsName(t) { RecoveredOnce(crc, LogOf(s.files, t), t); }
    }
  }

  lemma DrainSplits(q: Queues)
    ensures Splits(q, q.(normal := []), q.normal)
  {
  }

  /** Every live id has one PUT in the log. */
  ghost predicate OncePut(crc: Crc, log: Log) {
    forall id | id in Replay(crc, log).live :: Occurrences(PutIds(crc, log), id) <= 1
  }

  /** No message that a restart would recover has been put twice. */
  ghost predicate CarefulRestart(crc: Crc, s: State) {
    forall t | t in s.ram && IsSafePath(t) && KeepsItsName(t) :: OncePut(crc, LogOf(s.files, t))
  }

  ghost predicate Careful(crc: Crc, s: State, step: Step) {
    && (step.Requeue? ==> CarefulRequeue(s, step.msg, step.handedOver))
    && (step.Restart? ==> CarefulRestart(crc, s))
  }

  ghost predicate CarefulRun(crc: Crc, s: State, steps: seq<(Time, Step)>) {
    steps == [] ||
    (CarefulRun(crc, s, steps[..|steps| - 1]) &&
     Careful(crc, Run(crc, s, steps[..|steps| - 1]), steps[|steps| - 1].1))
  }

  /** Steps that drop messages and acknowledge them. */
  lemma DropStepKeepsInv(crc: Crc, s: State, now: Time, step: Step)
    requires step.Consume? || step.Acknowledge? || step.PurgeExpired? || step.DrainForRedrive?
    requires Inv(crc, s) && step.topic in s.ram
    ensures Inv(crc, Apply(crc, s, now, step))
  {
    var t := step.topic;
    var q := s.ram[t];
    match step
    case Consume(_, limit) =>
      ExtractSplits(q, limit, now);
      DropKeepsInv(crc, s, now, t, Extract(q, limit, now).left, Extract(q, limit, now).expired);
    case Acknowledge(_, id) => if Queued(q, id) { AcknowledgeKeepsInv(crc, s, now, t, id); }
    case PurgeExpired(_) =>
      PurgeSplits(q, now);
      DropKeepsInv(crc, s, now, t, Queueing.Purge(q, now), Purged(q, now));
    case DrainForRedrive(_) =>
      DrainSplits(q);
      DropKeepsInv(crc, s, now, t, q.(normal := []), q.normal);
  }

  lemma StepKeepsInv(crc: Crc, s: State, now: Time, step: Step)
    requires Inv(crc, s) && Careful(crc, s, step)
    ensures Inv(crc, Apply(crc, s, now, step))
  {
    match step
    case Publish(t, m, priority, broadcast, maxMessages, policy) =>
      PublishKeepsInv(crc, s, now, t, m, priority, broadcast, maxMessages, policy);
    case Requeue(m, handedOver) => RequeueKeepsInv(crc, s, now, m, handedOver);
    case HandOff(t, id) => if t in s.ram { HandOffKeepsInv(crc, s, t, id); }
    case Purge(t) => if t in s.ram { EmptyTopicKeepsInv(crc, s, t, Clear(s.files, t)); }
    case DeleteTopic(t) => if t in s.ram { EmptyTopicKeepsInv(crc, s, t, Delete(s.files, t)); }
    case CompactTopic(t) => CompactKeepsInv(crc, s, t);
    case Restart => RestartKeepsInv(crc, s);
    case _ => if step.topic in s.ram { DropStepKeepsInv(crc, s, now, step); }
  }

  lemma {:induction false} RunKeepsInv(crc: Crc, s: State, steps: seq<(Time, Step)>)
    requires Inv(crc, s) && CarefulRun(crc, s, steps)
    ensures Inv(crc, Run(crc, s, steps))
  {
    if steps == [] {
    } else {
      var shorter, last := steps[..|steps| - 1], steps[|steps| - 1];
      RunKeepsInv(crc, s, shorter);
      StepKeepsInv(crc, Run(crc, s, shorter), last.0, last.1);
    }
  }

  /** Whatever careful steps follow, memory stays within disk. */
  ghost predicate DurableEverAfter(crc: Crc, s: State) {
    forall steps | CarefulRun(crc, s, steps) :: Durable(crc, Run(crc, s, steps))
  }

  lemma InvIsDurableEverAfter(crc: Crc, s: State)
    requires Inv(crc, s)
    ensures DurableEverAfter(crc, s)
  {
    forall steps | CarefulRun(crc, s, steps)
      ensures Durable(crc, Run(crc, s, steps))
    {
      RunKeepsInv(crc, s, steps);
      InvMeansDurable(crc, Run(crc, s, steps));
    }
  }

  lemma NotDurableAfter(crc: Crc, s: State, now: Time, step: Step)
    requires !step.Requeue? && !step.Restart? && !Durable(crc, Apply(crc, s, now, step))
    ensures !DurableEverAfter(crc, s)
  {
    RunOne(crc, s, now, step);
  }

  /** Durability: from an empty store, through publishes, hand-offs, evictions, expiry, acknowledgements, purges,
      redrives, compactions, careful requeues and careful restarts, every message in memory is recovered from disk
      with the same content. */
  lemma EveryRunIsDurable(crc: Crc, names: set<string>, steps: seq<(Time, Step)>)
    requires NoFileShared(names) && CarefulRun(crc, Init(names), steps)
    ensures Durable(crc, Run(crc, Init(names), steps))
  {
    InitInv(crc, names);
    RunKeepsInv(crc, Init(names), steps);
    InvMeansDurable(crc, Run(crc, Init(names), steps));
  }

  /** Faithful names share no file. */
  lemma FaithfulNamesShareNoFile(names: set<string>)
    requires forall t | t in names :: Faithful(t)
    ensures NoFileShared(names)
  {
    forall a, b | a in names && b in names && LogFile(a) == LogFile(b)
      ensures a == b
    {
      assert TopicToFilename(a) == LogFile(a)[..|LogFile(a)| - 4];
      assert TopicToFilename(b) == LogFile(b)[..|LogFile(b)| - 4];
      NoSharedFiles(a, b);
    }
  }

  /** Of two topics with one file, purging one loses the messages of the other. */
  lemma SharedFileIsNotDurable(crc: Crc, names: set<string>, a: string, b: string) returns (steps: seq<(Time, Step)>)
    requires a in names && b in names && a != b && IsSafePath(a) && IsSafePath(b) && LogFile(a) == LogFile(b)
    ensures CarefulRun(crc, Init(names), steps) && !Durable(crc, Run(crc, Init(names), steps))
  {
    var m := Message("m", a, [], 0, None, None, 0, map[]);
    var publish, purge := (0, Publish(a, m, "normal", false, 1, Reject)), (0, Step.Purge(b));
    steps := [publish, purge];
    var s := Init(names);
    var s1 := Apply(crc, s, publish.0, publish.1);
    assert steps[..1] == [publish] && [publish][..0] == [];
    RunOne(crc, s, publish.0, publish.1);
    assert [publish] == [(0, publish.1)];
    var s2 := Apply(crc, s1, purge.0, purge.1);
    assert Run(crc, s, steps) == s2 && CarefulRun(crc, s, steps);
    assert m in s2.ram[a].normal && m in All(s2.ram[a]) && (a, m.id) !in s2.unlogged;
    LoadEmpty(crc);
    assert Recovered(crc, s2.files, a) == [];
  }

  /** Every careful run from an empty store is durable exactly when no two of its topics share a log file. */
  lemma DurableExactlyWhenNoFileIsShared(crc: Crc, names: set<string>)
    ensures NoFileShared(names) <==> DurableEverAfter(crc, Init(names))
  {
    if NoFileShared(names) {
      InitInv(crc, names);
      InvIsDurableEverAfter(crc, Init(names));
    } else {
      var a, b :| a in names && b in names && a != b && IsSafePath(a) && IsSafePath(b) && LogFile(a) == LogFile(b);
      var steps := SharedFileIsNotDurable(crc, names, a, b);
    }
  }

  // ---------------------------------------------------------------------------
  // Requeues of ids still queued
  // ---------------------------------------------------------------------------

  lemma QueuedMember(q: Queues, id: string) returns (m: Message)
    requires Queued(q, id)
    ensures m in All(q) && m.id == id
  {
    var source := if Has(q.high, id) then q.high else if Has(q.normal, id) then q.normal else q.low;
    var i :| 0 <= i < |source| && source[i].id == id;
    m := source[i];
    assert m in source;
  }

  /** With two messages of one id queued, acknowledging the id leaves one behind that is not on disk. */
  lemma DoubleIsNotDurable(crc: Crc, s: State, now: Time, t: string, id: string)
    requires t in s.ram && IsSafePath(t) && LogFile(t) in s.files && (t, id) !in s.unlogged
    requires CountAll(s.ram[t], HasId(id)) >= 2
    ensures Queued(s.ram[t], id) && !Durable(crc, Apply(crc, s, now, Acknowledge(t, id)))
  {
    if !Queued(s.ram[t], id) {
      NotQueuedCountsZero(s.ram[t], id);
    }
    var s' := Apply(crc, s, now, Acknowledge(t, id));
    RemoveTakesOne(s.ram[t], id, HasId(id));
    assert CountAll(s'.ram[t], HasId(id)) >= 1;
    if !Queued(s'.ram[t], id) {
      NotQueuedCountsZero(s'.ram[t], id);
    }
    var m := QueuedMember(s'.ram[t], id);
    LoadAfterAckAll(crc, s.files, t, [id], now, m);
    AckKeepsFile(crc, s.files, t, id, now);
    assert m !in Recovered(crc, s'.files, t);
  }

  lemma AckKeepsFile(crc: Crc, files: Files, t: string, id: string, now: Time)
    requires IsSafePath(t)
    ensures LogFile(t) in AckAll(crc, files, t, [id], now)
  {
    assert [id][..0] == [];
  }

  lemma RequeueOfQueuedIsNotDurable(crc: Crc, s: State, now: Time, m: Message)
    requires var t := Retried(m).topic; t in s.ram && IsSafePath(t) && Queued(s.ram[t], m.id)
    ensures var s' := ApplyRequeue(crc, s, now, m, false);
            !Durable(crc, Apply(crc, s', now, Acknowledge(Retried(m).topic, m.id)))
  {
    var s', t := ApplyRequeue(crc, s, now, m, false), Retried(m).topic;
    var x := QueuedMember(s.ram[t], m.id);
    CountAllMember(s.ram[t], HasId(m.id), x);
    AppendAddsOne(s.ram[t], Retried(m), "normal", HasId(m.id));
    DoubleIsNotDurable(crc, s', now, t, m.id);
  }

  lemma RunOne(crc: Crc, s: State, now: Time, step: Step)
    requires !step.Requeue? && !step.Restart?
    ensures Run(crc, s, [(now, step)]) == Apply(crc, s, now, step) && CarefulRun(crc, s, [(now, step)])
  {
    assert [(now, step)][..0] == [];
  }

  /** A requeue handed over while a different message with its id is queued leaves that one without a copy on
      disk. */
  lemma HandOverOfOtherIsNotDurable(crc: Crc, s: State, now: Time, m: Message, x: Message)
    requires var t := Retried(m).topic; t in s.ram && IsSafePath(t) && x in All(s.ram[t])
    requires x.id == m.id && x != Retried(m)
    ensures !Durable(crc, ApplyRequeue(crc, s, now, m, true))
  {
    var s', m' := ApplyRequeue(crc, s, now, m, true), Retried(m);
    LoadAfterPut(crc, LogOf(s.files, m'.topic), m', now, x);
    assert x !in Recovered(crc, s'.files, m'.topic);
  }

  /** A requeue keeps all that may follow durable exactly when it is careful. */
  lemma RequeueIsDurableExactlyWhenCareful(crc: Crc, s: State, now: Time, m: Message, handedOver: bool)
    requires Inv(crc, s)
    ensures CarefulRequeue(s, m, handedOver) <==> DurableEverAfter(crc, ApplyRequeue(crc, s, now, m, handedOver))
  {
    var s', t := ApplyRequeue(crc, s, now, m, handedOver), Retried(m).topic;
    if CarefulRequeue(s, m, handedOver) {
      RequeueKeepsInv(crc, s, now, m, handedOver);
      InvIsDurableEverAfter(crc, s');
    } else {
      var x :| x in All(s.ram[t]) && x.id == m.id && !(handedOver && x == Retried(m));
      if handedOver {
        HandOverOfOtherIsNotDurable(crc, s, now, m, x);
        assert CarefulRun(crc, s', []) && Run(crc, s', []) == s';
      } else {
        MemberIsQueued(s.ram[t], x);
        RequeueOfQueuedIsNotDurable(crc, s, now, m);
        NotDurableAfter(crc, s', now, Acknowledge(t, m.id));
      }
    }
  }

  lemma MemberIsQueued(q: Queues, m: Message)
    requires m in All(q)
    ensures Queued(q, m.id)
  {
    if !Queued(q, m.id) {
      NotQueuedCountsZero(q, m.id);
    }
  }

  // ---------------------------------------------------------------------------
  // Restarts
  // ---------------------------------------------------------------------------

  /** A restart of a topic with an id put twice puts two copies into memory, of which an acknowledgement leaves one
      that is not on disk. */
  lemma TwicePutIsNotDurable(crc: Crc, s: State, t: string, id: string)
    requires Inv(crc, s) && t in s.ram && IsSafePath(t) && KeepsItsName(t)
    requires id in Replay(crc, LogOf(s.files, t)).live && Occurrences(PutIds(crc, LogOf(s.files, t)), id) >= 2
    ensures !Durable(crc, Apply(crc, Restarted(crc, s), 0, Acknowledge(t, id)))
  {
    NoLegacyLog(s.files, t);
    LoadOncePerPut(crc, LogOf(s.files, t), id);
    DoubleIsNotDurable(crc, Restarted(crc, s), 0, t, id);
  }

  /** A restart keeps all that may follow durable exactly when no live id of a recovered topic has been put more than
      once. */
  lemma RestartIsDurableExactlyWhenOncePut(crc: Crc, s: State)
    requires Inv(crc, s)
    ensures CarefulRestart(crc, s) <==> DurableEverAfter(crc, Restarted(crc, s))
  {
    if CarefulRestart(crc, s) {
      RestartKeepsInv(crc, s);
      InvIsDurableEverAfter(crc, Restarted(crc, s));
    } else {
      var t :| t in s.ram && IsSafePath(t) && KeepsItsName(t) && !OncePut(crc, LogOf(s.files, t));
      var id :| id in Replay(crc, LogOf(s.files, t)).live && Occurrences(PutIds(crc, LogOf(s.files, t)), id) > 1;
      TwicePutIsNotDurable(crc, s, t, id);
      NotDurableAfter(crc, Restarted(crc, s), 0, Acknowledge(t, id));
    }
  }

  // ---------------------------------------------------------------------------
  // What comes back and what does not
  // ---------------------------------------------------------------------------

  lemma {:induction false} AckedFileExists(crc: Crc, files: Files, t: string, ids: seq<string>, now: Time)
    requires IsSafePath(t) && ids != []
    ensures LogFile(t) in AckAll(crc, files, t, ids, now)
  {
  }

  /** What a step drops and acknowledges is not recovered afterwards; everything else is, as before. */
  lemma DropDecidesRecovery(crc: Crc, s: State, now: Time, t: string, q': Queues, ids: seq<string>, x: Message)
    requires Inv(crc, s) && t in s.ram && IsSafePath(t)
    ensures x in Recovered(crc, Drop(crc, s, now, t, q', ids).files, t) <==>
              x.id !in ids && x in Recovered(crc, s.files, t)
  {
    NoLegacyLog(s.files, t);
    LoadAfterAckAll(crc, s.files, t, ids, now, x);
    if ids != [] { AckedFileExists(crc, s.files, t, ids, now); }
  }

  /** The messages that a step takes out of memory for good. */
  function Discarded(s: State, now: Time, step: Step): seq<Message>
    requires step.Consume? || step.PurgeExpired? || step.DrainForRedrive? || step.Purge? || step.DeleteTopic?
    requires step.topic in s.ram
  {
    var q := s.ram[step.topic];
    match step
    case Consume(_, limit) => Extract(q, limit, now).expired
    case PurgeExpired(_) => Purged(q, now)
    case DrainForRedrive(_) => q.normal
    case _ => All(q)
  }

  /** Messages expired, purged, drained for a redrive, or gone with their topic, are not recovered afterwards. */
  lemma DiscardedIsNotRecovered(crc: Crc, s: State, now: Time, step: Step, m: Message)
    requires step.Consume? || step.PurgeExpired? || step.DrainForRedrive? || step.Purge? || step.DeleteTopic?
    requires Inv(crc, s) && step.topic in s.ram && IsSafePath(step.topic) && m in Discarded(s, now, step)
    ensures m !in Recovered(crc, Apply(crc, s, now, step).files, step.topic)
  {
    var t := step.topic;
    var q := s.ram[t];
    LoadEmpty(crc);
    match step
    case Consume(_, limit) =>
      var e := Extract(q, limit, now);
      IdOfMember(e.expired, m);
      DropDecidesRecovery(crc, s, now, t, e.left, Ids(e.expired), m);
    case PurgeExpired(_) =>
      IdOfMember(Purged(q, now), m);
      DropDecidesRecovery(crc, s, now, t, Queueing.Purge(q, now), Ids(Purged(q, now)), m);
    case DrainForRedrive(_) =>
      IdOfMember(q.normal, m);
      DropDecidesRecovery(crc, s, now, t, q.(normal := []), Ids(q.normal), m);
    case Purge(_) =>
    case DeleteTopic(_) => NoLegacyLog(Delete(s.files, t), t);
  }

  lemma {:induction false} IdOfMember(s: seq<Message>, m: Message)
    requires m in s
    ensures m.id in Ids(s)
  {
    if m == s[|s| - 1] {
    } else {
      IdOfMember(s[..|s| - 1], m);
    }
  }

  /** The message that gives way to a publish is not recovered afterwards. */
  lemma EvictedIsNotRecovered(crc: Crc, s: State, now: Time, t: string, m: Message, priority: string, broadcast: bool,
                              maxMessages: nat)
    requires Inv(crc, s) && t in s.ram && IsSafePath(t) && !Queued(s.ram[t], m.id)
    requires 0 < maxMessages <= Size(s.ram[t])
    ensures Victim(s.ram[t]) !in
              Recovered(crc, ApplyPublish(crc, s, now, t, m, priority, broadcast, maxMessages, DropOldest).files, t)
  {
    var files, id := FilesAfterPut(crc, s, now, t, m, broadcast), Victim(s.ram[t]).id;
    LoadAfterAck(crc, LogOf(files, t), id, now, Victim(s.ram[t]));
    WriteOnDisk(crc, files, t, AckRecord(id, now));
  }

  /** A message handed to a consumer stays on disk until it is acknowledged. */
  lemma ConsumedStaysOnDisk(crc: Crc, s: State, now: Time, t: string, limit: int, m: Message)
    requires Inv(crc, s) && t in s.ram && IsSafePath(t) && (t, m.id) !in s.unlogged
    requires m in Extract(s.ram[t], limit, now).results
    ensures m in Recovered(crc, Apply(crc, s, now, Consume(t, limit)).files, t)
  {
    var q, e := s.ram[t], Extract(s.ram[t], limit, now);
    assert TopicOk(crc, q, LogOf(s.files, t), t, s.unlogged);
    ExtractSound(q, limit, now);
    ExtractPartitions(q, limit, now, HasId(m.id));
    CountMember(e.results, HasId(m.id), m);
    assert CountAll(q, HasId(m.id)) <= 1;
    if m.id in Ids(e.expired) {
      IdsMember(e.expired, m.id);
      var x :| x in e.expired && x.id == m.id;
      CountMember(e.expired, HasId(m.id), x);
    }
    NoLegacyLog(s.files, t);
    DropDecidesRecovery(crc, s, now, t, e.left, Ids(e.expired), m);
  }


  /** A message that a push takes out of memory stays on disk too. */
  lemma HandedOffStaysOnDisk(crc: Crc, s: State, now: Time, t: string, m: Message)
    requires Inv(crc, s) && t in s.ram && IsSafePath(t) && m in All(s.ram[t]) && (t, m.id) !in s.unlogged
    ensures var s' := Apply(crc, s, now, HandOff(t, m.id));
            m !in All(s'.ram[t]) && m in Recovered(crc, s'.files, t)
  {
    assert TopicOk(crc, s.ram[t], LogOf(s.files, t), t, s.unlogged);
    NoLegacyLog(s.files, t);
    RemoveIsExact(s.ram[t], m.id);
  }

  /** A publish that a full topic refuses leaves memory as it is, yet its message, if it is not a broadcast, is
      recovered afterwards, exactly when the storage accepts the topic's name. */
  lemma RefusedIsRecovered(crc: Crc, s: State, now: Time, t: string, m: Message, priority: string, maxMessages: nat)
    requires Inv(crc, s) && t in s.ram && !Queued(s.ram[t], m.id) && 0 < maxMessages <= Size(s.ram[t])
    ensures var s' := ApplyPublish(crc, s, now, t, m, priority, false, maxMessages, Reject);
            s'.ram == s.ram && (m in Recovered(crc, s'.files, t) <==> IsSafePath(t))
  {
    LoadAfterPut(crc, LogOf(s.files, t), m, now, m);
    WriteOnDisk(crc, s.files, t, PutRecord(m, now));
  }
}
