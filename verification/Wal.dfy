/** The write-ahead log of one topic: PUT and ACK records with checksums, recovery by replay, and compaction. */
module Wal {
  import opened Messages

  const RECORD_PUT := "PUT"
  const RECORD_ACK := "ACK"

  newtype UInt32 = x: int | 0 <= x < 0x1_0000_0000

  datatype LogRecord = LogRecord(
    kind: string, message: Option<Message>, messageId: string, timestamp: Time, checksum: UInt32)

  /** A line of a log file: one that parses as a record, or one that does not. */
  datatype Line = Garbled | Parsed(rec: LogRecord)

  type Log = seq<Line>

  /** The checksum of a record's serialised form; any function will do. */
  type Crc = LogRecord -> UInt32

  function ChecksumFor(crc: Crc, rec: LogRecord): UInt32 {
    crc(rec.(checksum := 0))
  }

  /** Records without a checksum are taken at their word. */
  predicate ValidateRecord(crc: Crc, rec: LogRecord) {
    rec.checksum == 0 || ChecksumFor(crc, rec) == rec.checksum
  }

  function Seal(crc: Crc, rec: LogRecord): LogRecord {
    rec.(checksum := ChecksumFor(crc, rec))
  }

  function PutRecord(m: Message, now: Time): LogRecord { LogRecord(RECORD_PUT, Some(m), "", now, 0) }

  function AckRecord(id: string, now: Time): LogRecord { LogRecord(RECORD_ACK, None, id, now, 0) }

  // ---------------------------------------------------------------------------
  // Replay
  // ---------------------------------------------------------------------------

  /** The records not yet acknowledged, by message id, and the ids of all PUTs in order. */
  datatype Replayed = Replayed(live: map<string, LogRecord>, ids: seq<string>)

  function ReplayLine(crc: Crc, r: Replayed, line: Line): Replayed {
    if line.Garbled? || !ValidateRecord(crc, line.rec) then r
    else if line.rec.kind == RECORD_PUT then
      if line.rec.message.None? then r
      else Replayed(r.live[line.rec.message.value.id := line.rec], r.ids + [line.rec.message.value.id])
    else if line.rec.kind == RECORD_ACK then r.(live := r.live - {line.rec.messageId})
    else r
  }

  function ReplayFrom(crc: Crc, r: Replayed, log: Log): Replayed {
    if log == [] then r else ReplayLine(crc, ReplayFrom(crc, r, log[..|log| - 1]), log[|log| - 1])
  }

  function Replay(crc: Crc, log: Log): Replayed {
    ReplayFrom(crc, Replayed(map[], []), log)
  }

  /** The live records in the order of their PUTs; an id put more than once appears as often. */
  function Pick(ids: seq<string>, live: map<string, LogRecord>): seq<LogRecord> {
    if ids == [] then []
    else if ids[|ids| - 1] in live then Pick(ids[..|ids| - 1], live) + [live[ids[|ids| - 1]]]
    else Pick(ids[..|ids| - 1], live)
  }

  function MessagesOf(recs: seq<LogRecord>): seq<Message> {
    if recs == [] then []
    else MessagesOf(recs[..|recs| - 1])
         + if recs[|recs| - 1].message.Some? then [recs[|recs| - 1].message.value] else []
  }

  /** What recovery returns. */
  function Load(crc: Crc, log: Log): seq<Message> {
    var r := Replay(crc, log);
    MessagesOf(Pick(r.ids, r.live))
  }

  function SealAll(crc: Crc, recs: seq<LogRecord>): Log {
    if recs == [] then [] else SealAll(crc, recs[..|recs| - 1]) + [Parsed(Seal(crc, recs[|recs| - 1]))]
  }

  /** What compaction writes. */
  function Compact(crc: Crc, log: Log): Log {
    var r := Replay(crc, log);
    SealAll(crc, Pick(r.ids, r.live))
  }

  // ---------------------------------------------------------------------------
  // Facts about replay
  // ---------------------------------------------------------------------------

  /** A live record is a PUT of a message with that id, and the id is among those put. */
  ghost predicate WellFormed(r: Replayed) {
    forall id | id in r.live ::
      id in r.ids && r.live[id].kind == RECORD_PUT && r.live[id].message.Some? && r.live[id].message.value.id == id
  }

  lemma {:induction false} ReplayWellFormed(crc: Crc, r: Replayed, log: Log)
    requires WellFormed(r)
    ensures WellFormed(ReplayFrom(crc, r, log))
  {
    if log == [] {
    } else {
      ReplayWellFormed(crc, r, log[..|log| - 1]);
    }
  }

  lemma {:induction false} ReplayAppend(crc: Crc, r: Replayed, a: Log, b: Log)
    ensures ReplayFrom(crc, r, a + b) == ReplayFrom(crc, ReplayFrom(crc, r, a), b)
  {
    if b == [] {
      assert a + b == a;
    } else {
      assert (a + b)[..|a + b| - 1] == a + b[..|b| - 1];
      ReplayAppend(crc, r, a, b[..|b| - 1]);
    }
  }

  /** The two replays hold the same messages live. */
  ghost predicate SameLive(a: map<string, LogRecord>, b: map<string, LogRecord>) {
    a.Keys == b.Keys && forall id | id in a :: a[id].message == b[id].message
  }

  /** The ids put by a log on its own. */
  function PutIds(crc: Crc, log: Log): seq<string> {
    Replay(crc, log).ids
  }

  lemma {:induction false} IdsAccumulate(crc: Crc, r: Replayed, log: Log)
    ensures ReplayFrom(crc, r, log).ids == r.ids + PutIds(crc, log)
  {
    if log == [] {
    } else {
      IdsAccumulate(crc, r, log[..|log| - 1]);
    }
  }

  lemma {:induction false} SameLiveStaysSame(crc: Crc, a: Replayed, b: Replayed, log: Log)
    requires SameLive(a.live, b.live)
    ensures SameLive(ReplayFrom(crc, a, log).live, ReplayFrom(crc, b, log).live)
  {
    if log == [] {
    } else {
      SameLiveStaysSame(crc, a, b, log[..|log| - 1]);
    }
  }

  lemma {:induction false} PickConcat(a: seq<string>, b: seq<string>, live: map<string, LogRecord>)
    ensures Pick(a + b, live) == Pick(a, live) + Pick(b, live)
  {
    if b == [] {
      assert a + b == a;
    } else {
      assert (a + b)[..|a + b| - 1] == a + b[..|b| - 1];
      PickConcat(a, b[..|b| - 1], live);
    }
  }

  lemma {:induction false} MessagesConcat(a: seq<LogRecord>, b: seq<LogRecord>)
    ensures MessagesOf(a + b) == MessagesOf(a) + MessagesOf(b)
  {
    if b == [] {
      assert a + b == a;
    } else {
      assert (a + b)[..|a + b| - 1] == a + b[..|b| - 1];
      MessagesConcat(a, b[..|b| - 1]);
    }
  }

  lemma {:induction false} PickSameMessages(ids: seq<string>, a: map<string, LogRecord>, b: map<string, LogRecord>)
    requires SameLive(a, b)
    ensures MessagesOf(Pick(ids, a)) == MessagesOf(Pick(ids, b))
  {
    if ids == [] {
    } else {
      var shorter, last := ids[..|ids| - 1], ids[|ids| - 1];
      PickSameMessages(shorter, a, b);
      if last in a {
        MessagesConcat(Pick(shorter, a), [a[last]]);
        MessagesConcat(Pick(shorter, b), [b[last]]);
      }
    }
  }

  lemma MessagesSnoc(ids: seq<string>, id: string, live: map<string, LogRecord>)
    ensures MessagesOf(Pick(ids + [id], live)) == MessagesOf(Pick(ids, live)) +
            if id in live && live[id].message.Some? then [live[id].message.value] else []
  {
    assert (ids + [id])[..|ids|] == ids;
    if id in live {
      assert (Pick(ids, live) + [live[id]])[..|Pick(ids, live)|] == Pick(ids, live);
    }
  }

  // ---------------------------------------------------------------------------
  // Compaction
  // ---------------------------------------------------------------------------

  /** The ids that are live, in order. */
  function LiveIds(ids: seq<string>, live: map<string, LogRecord>): seq<string> {
    if ids == [] then []
    else if ids[|ids| - 1] in live then LiveIds(ids[..|ids| - 1], live) + [ids[|ids| - 1]]
    else LiveIds(ids[..|ids| - 1], live)
  }

  function SealLive(crc: Crc, ids: seq<string>, live: map<string, LogRecord>): map<string, LogRecord> {
    map id | id in ids && id in live :: Seal(crc, live[id])
  }

  lemma SealLiveStep(crc: Crc, ids: seq<string>, live: map<string, LogRecord>)
    requires ids != []
    ensures var shorter, last := SealLive(crc, ids[..|ids| - 1], live), ids[|ids| - 1];
            SealLive(crc, ids, live) == if last in live then shorter[last := Seal(crc, live[last])] else shorter
  {
    assert ids == ids[..|ids| - 1] + [ids[|ids| - 1]];
  }

  /** A sealed PUT at the end of a log. */
  lemma ReplaySealedPut(crc: Crc, log: Log, rec: LogRecord, id: string)
    requires rec.kind == RECORD_PUT && rec.message.Some? && rec.message.value.id == id
    ensures var r := Replay(crc, log);
            Replay(crc, log + [Parsed(Seal(crc, rec))]) == Replayed(r.live[id := Seal(crc, rec)], r.ids + [id])
  {
    assert (log + [Parsed(Seal(crc, rec))])[..|log|] == log;
  }

  lemma SealAllSnoc(crc: Crc, recs: seq<LogRecord>, rec: LogRecord)
    ensures SealAll(crc, recs + [rec]) == SealAll(crc, recs) + [Parsed(Seal(crc, rec))]
  {
    assert (recs + [rec])[..|recs|] == recs;
  }

  /** Replaying what compaction wrote gives the live records back, sealed, and the live ids only. */
  lemma {:induction false} ReplaySealed(crc: Crc, ids: seq<string>, live: map<string, LogRecord>)
    requires forall id | id in live ::
               live[id].kind == RECORD_PUT && live[id].message.Some? && live[id].message.value.id == id
    ensures Replay(crc, SealAll(crc, Pick(ids, live))) == Replayed(SealLive(crc, ids, live), LiveIds(ids, live))
  {
    if ids == [] {
    } else {
      var shorter, last := ids[..|ids| - 1], ids[|ids| - 1];
      ReplaySealed(crc, shorter, live);
      SealLiveStep(crc, ids, live);
      if last in live {
        SealAllSnoc(crc, Pick(shorter, live), live[last]);
        ReplaySealedPut(crc, SealAll(crc, Pick(shorter, live)), live[last], last);
      }
    }
  }

  lemma ReplayCompacted(crc: Crc, log: Log)
    ensures var r := Replay(crc, log);
            var r' := Replay(crc, Compact(crc, log));
            r'.ids == LiveIds(r.ids, r.live) && SameLive(r.live, r'.live)
            && r'.live == SealLive(crc, r.ids, r.live)
  {
    ReplayWellFormed(crc, Replayed(map[], []), log);
    var r := Replay(crc, log);
    ReplaySealed(crc, r.ids, r.live);
  }

  lemma {:induction false} PickLiveIds(ids: seq<string>, live: map<string, LogRecord>)
    ensures Pick(LiveIds(ids, live), live) == Pick(ids, live)
  {
    if ids == [] {
    } else {
      PickLiveIds(ids[..|ids| - 1], live);
      var l := LiveIds(ids, live);
      if ids[|ids| - 1] in live {
        assert l[..|l| - 1] == LiveIds(ids[..|ids| - 1], live);
      }
    }
  }

  /** Compaction is invisible to recovery, whatever the log holds: unparsable lines, bad checksums, repeated
      PUTs, stray ACKs. */
  lemma CompactionIsTransparent(crc: Crc, log: Log)
    ensures Load(crc, Compact(crc, log)) == Load(crc, log)
  {
    var r, r' := Replay(crc, log), Replay(crc, Compact(crc, log));
    ReplayCompacted(crc, log);
    PickSameMessages(r'.ids, r.live, r'.live);
    PickLiveIds(r.ids, r.live);
  }

  lemma {:induction false} PickSealed(crc: Crc, ids: seq<string>, live: map<string, LogRecord>,
                                      sealed: map<string, LogRecord>)
    requires sealed.Keys == live.Keys && forall id | id in live :: sealed[id] == Seal(crc, live[id])
    ensures SealAll(crc, Pick(ids, sealed)) == SealAll(crc, Pick(ids, live))
  {
    if ids == [] {
    } else {
      PickSealed(crc, ids[..|ids| - 1], live, sealed);
      var a, b := Pick(ids, sealed), Pick(ids, live);
      if ids[|ids| - 1] in live {
        assert a[..|a| - 1] == Pick(ids[..|ids| - 1], sealed) && b[..|b| - 1] == Pick(ids[..|ids| - 1], live);
      }
    }
  }

  /** Compacting again changes nothing, byte for byte. */
  lemma CompactionIsIdempotent(crc: Crc, log: Log)
    ensures Compact(crc, Compact(crc, log)) == Compact(crc, log)
  {
    var r, r' := Replay(crc, log), Replay(crc, Compact(crc, log));
    ReplayCompacted(crc, log);
    ReplayWellFormed(crc, Replayed(map[], []), log);
    PickSealed(crc, r'.ids, r.live, r'.live);
    PickLiveIds(r.ids, r.live);
  }

  // ---------------------------------------------------------------------------
  // Compaction, with more to come
  // ---------------------------------------------------------------------------

  /** No id that `log` put and no longer holds live comes back to life in `more`. */
  ghost predicate NoRevival(crc: Crc, log: Log, more: Log) {
    forall id | id in PutIds(crc, log) && id !in Replay(crc, log).live :: id !in Replay(crc, log + more).live
  }

  lemma {:induction false} PickLength(ids: seq<string>, live: map<string, LogRecord>)
    requires forall id | id in live :: live[id].message.Some?
    ensures |MessagesOf(Pick(ids, live))| == |LiveIds(ids, live)|
  {
    if ids == [] {
    } else {
      PickLength(ids[..|ids| - 1], live);
      if ids[|ids| - 1] in live {
        MessagesConcat(Pick(ids[..|ids| - 1], live), [live[ids[|ids| - 1]]]);
      }
    }
  }

  /** Filtering by what was live first loses something exactly when an id has been revived. */
  lemma {:induction false} FilterTwice(ids: seq<string>, before: map<string, LogRecord>, after: map<string, LogRecord>)
    ensures |LiveIds(LiveIds(ids, before), after)| <= |LiveIds(ids, after)|
    ensures (forall id | id in ids && id !in before :: id !in after) ==>
              LiveIds(LiveIds(ids, before), after) == LiveIds(ids, after)
    ensures !(forall id | id in ids && id !in before :: id !in after) ==>
              |LiveIds(LiveIds(ids, before), after)| < |LiveIds(ids, after)|
  {
    if ids == [] {
    } else {
      var shorter, last := ids[..|ids| - 1], ids[|ids| - 1];
      assert ids == shorter + [last];
      FilterTwice(shorter, before, after);
      var l := LiveIds(ids, before);
      if last in before {
        assert l[..|l| - 1] == LiveIds(shorter, before);
      }
    }
  }

  /** What a log that goes on after `r` recovers: what is left of `r`, then the PUTs of the rest. */
  lemma LoadFrom(crc: Crc, log: Log, more: Log)
    ensures var end := Replay(crc, log + more);
            && end.ids == PutIds(crc, log) + PutIds(crc, more)
            && Load(crc, log + more) ==
               MessagesOf(Pick(PutIds(crc, log), end.live)) + MessagesOf(Pick(PutIds(crc, more), end.live))
  {
    var end := Replay(crc, log + more);
    ReplayAppend(crc, Replayed(map[], []), log, more);
    IdsAccumulate(crc, Replay(crc, log), more);
    PickConcat(PutIds(crc, log), PutIds(crc, more), end.live);
    MessagesConcat(Pick(PutIds(crc, log), end.live), Pick(PutIds(crc, more), end.live));
  }

  lemma SameLiveAfterCompaction(crc: Crc, log: Log, more: Log)
    ensures SameLive(Replay(crc, log + more).live, Replay(crc, Compact(crc, log) + more).live)
  {
    ReplayCompacted(crc, log);
    ReplayAppend(crc, Replayed(map[], []), log, more);
    ReplayAppend(crc, Replayed(map[], []), Compact(crc, log), more);
    SameLiveStaysSame(crc, Replay(crc, log), Replay(crc, Compact(crc, log)), more);
  }

  /** Compacting first makes no difference to what is recovered later, exactly when no dead id is revived.
      (An id that is put again after its ACK is recovered once per PUT still in the log.) */
  lemma CompactionIsTransparentLater(crc: Crc, log: Log, more: Log)
    ensures Load(crc, Compact(crc, log) + more) == Load(crc, log + more) <==> NoRevival(crc, log, more)
  {
    var ids, before := PutIds(crc, log), Replay(crc, log).live;
    var after, after' := Replay(crc, log + more).live, Replay(crc, Compact(crc, log) + more).live;
    ReplayCompacted(crc, log);
    SameLiveAfterCompaction(crc, log, more);
    LoadFrom(crc, log, more);
    LoadFrom(crc, Compact(crc, log), more);
    PickSameMessages(LiveIds(ids, before), after, after');
    PickSameMessages(PutIds(crc, more), after, after');
    FilterTwice(ids, before, after);
    ReplayWellFormed(crc, Replayed(map[], []), log + more);
    PickLength(ids, after);
    PickLength(LiveIds(ids, before), after);
    PickLiveIds(ids, after);
    PickLiveIds(LiveIds(ids, before), after);
  }

  /** Revival does happen: put, acknowledge, put again. */
  lemma RevivalExample(crc: Crc, m: Message)
    ensures var put, ack := Parsed(Seal(crc, PutRecord(m, 0))), Parsed(Seal(crc, AckRecord(m.id, 1)));
            Load(crc, Compact(crc, [put, ack]) + [put]) != Load(crc, [put, ack] + [put])
  {
    var put, ack := Parsed(Seal(crc, PutRecord(m, 0))), Parsed(Seal(crc, AckRecord(m.id, 1)));
    var start := Replayed(map[], []);
    assert [put][..0] == [] && [put, ack][..1] == [put] && ([put, ack] + [put])[..2] == [put, ack];
    assert ReplayFrom(crc, start, [put]) == Replayed(map[m.id := put.rec], [m.id]);
    assert ReplayFrom(crc, start, [put, ack]) == Replayed(map[], [m.id]);
    assert m.id in Replay(crc, [put, ack] + [put]).live && m.id in PutIds(crc, [put, ack]);
    CompactionIsTransparentLater(crc, [put, ack], [put]);
  }

  // ---------------------------------------------------------------------------
  // What recovery returns
  // ---------------------------------------------------------------------------

  lemma {:induction false} PickMember(ids: seq<string>, live: map<string, LogRecord>, m: Message)
    requires forall id | id in live :: live[id].message.Some? && live[id].message.value.id == id
    ensures m in MessagesOf(Pick(ids, live)) <==> m.id in ids && m.id in live && live[m.id].message.value == m
  {
    if ids == [] {
    } else {
      var shorter, last := ids[..|ids| - 1], ids[|ids| - 1];
      assert ids == shorter + [last];
      PickMember(shorter, live, m);
      if last in live {
        MessagesConcat(Pick(shorter, live), [live[last]]);
      }
    }
  }

  /** Recovery returns exactly the messages of the live records. */
  lemma LoadMember(crc: Crc, log: Log, m: Message)
    ensures m in Load(crc, log) <==> m.id in Replay(crc, log).live && Replay(crc, log).live[m.id].message == Some(m)
  {
    ReplayWellFormed(crc, Replayed(map[], []), log);
    PickMember(Replay(crc, log).ids, Replay(crc, log).live, m);
  }

  predicate Valid(crc: Crc, line: Line) { line.Parsed? && ValidateRecord(crc, line.rec) }

  predicate Puts(crc: Crc, line: Line, m: Message) {
    Valid(crc, line) && line.rec.kind == RECORD_PUT && line.rec.message == Some(m)
  }

  predicate Concerns(crc: Crc, line: Line, id: string) {
    Valid(crc, line) &&
    ((line.rec.kind == RECORD_PUT && line.rec.message.Some? && line.rec.message.value.id == id) ||
     (line.rec.kind == RECORD_ACK && line.rec.messageId == id))
  }

  /** Line `i` puts `m`, and no valid line after it puts or acknowledges the id again. */
  predicate LastWord(crc: Crc, log: Log, m: Message, i: nat) {
    i < |log| && Puts(crc, log[i], m) && forall j | i < j < |log| :: !Concerns(crc, log[j], m.id)
  }

  lemma LastWordStep(crc: Crc, log: Log, m: Message)
    requires log != []
    ensures var shorter, last := log[..|log| - 1], log[|log| - 1];
            (exists i :: LastWord(crc, log, m, i)) <==>
              Puts(crc, last, m) || (!Concerns(crc, last, m.id) && exists i :: LastWord(crc, shorter, m, i))
  {
    var shorter, last := log[..|log| - 1], log[|log| - 1];
    if Puts(crc, last, m) {
      assert LastWord(crc, log, m, |log| - 1);
    } else if exists i :: LastWord(crc, log, m, i) {
      var i: nat :| LastWord(crc, log, m, i);
      assert i < |log| - 1 && LastWord(crc, shorter, m, i);
    } else if !Concerns(crc, last, m.id) && exists i :: LastWord(crc, shorter, m, i) {
      var i: nat :| LastWord(crc, shorter, m, i);
      assert LastWord(crc, log, m, i);
    }
  }

  /** Recovery, without the replay: a message comes back exactly when some line has the last word on its id by
      putting it. */
  lemma {:induction false} LoadIsLastWord(crc: Crc, log: Log, m: Message)
    ensures m in Load(crc, log) <==> exists i :: LastWord(crc, log, m, i)
  {
    LoadMember(crc, log, m);
    if log == [] {
    } else {
      var shorter := log[..|log| - 1];
      LoadIsLastWord(crc, shorter, m);
      LoadMember(crc, shorter, m);
      LastWordStep(crc, log, m);
    }
  }

  /** A sealed record is always accepted. */
  lemma SealedIsValid(crc: Crc, rec: LogRecord)
    ensures ValidateRecord(crc, Seal(crc, rec)) && Seal(crc, Seal(crc, rec)) == Seal(crc, rec)
  {
  }

  /** After a PUT exactly that message is live under its id; every other message is recovered as before. */
  lemma LoadAfterPut(crc: Crc, log: Log, m: Message, now: Time, x: Message)
    ensures x in Load(crc, log + [Parsed(Seal(crc, PutRecord(m, now)))]) <==>
              x == m || (x.id != m.id && x in Load(crc, log))
  {
    var log' := log + [Parsed(Seal(crc, PutRecord(m, now)))];
    assert log'[..|log'| - 1] == log;
    LoadMember(crc, log, x);
    LoadMember(crc, log', x);
  }

  /** After an ACK exactly the messages with that id are gone. */
  lemma LoadAfterAck(crc: Crc, log: Log, id: string, now: Time, x: Message)
    ensures x in Load(crc, log + [Parsed(Seal(crc, AckRecord(id, now)))]) <==> x.id != id && x in Load(crc, log)
  {
    var log' := log + [Parsed(Seal(crc, AckRecord(id, now)))];
    assert log'[..|log'| - 1] == log;
    LoadMember(crc, log, x);
    LoadMember(crc, log', x);
  }

  function Occurrences(ids: seq<string>, id: string): nat {
    if ids == [] then 0 else Occurrences(ids[..|ids| - 1], id) + if ids[|ids| - 1] == id then 1 else 0
  }

  lemma CountOne(m: Message, p: Message -> bool)
    ensures Count([m], p) == if p(m) then 1 else 0
  {
    assert [m][..0] == [];
  }

  lemma {:induction false} PickCounts(ids: seq<string>, live: map<string, LogRecord>, id: string)
    requires forall x | x in live :: live[x].message.Some? && live[x].message.value.id == x
    ensures Count(MessagesOf(Pick(ids, live)), HasId(id)) == if id in live then Occurrences(ids, id) else 0
  {
    if ids == [] {
    } else {
      var shorter, last := ids[..|ids| - 1], ids[|ids| - 1];
      PickCounts(shorter, live, id);
      if last in live {
        var m := live[last].message.value;
        MessagesConcat(Pick(shorter, live), [live[last]]);
        assert MessagesOf([live[last]]) == [m];
        CountConcat(MessagesOf(Pick(shorter, live)), [m], HasId(id));
        CountOne(m, HasId(id));
      }
    }
  }

  /** Recovery returns a live message once for every PUT of its id, and a dead one not at all. */
  lemma LoadOncePerPut(crc: Crc, log: Log, id: string)
    ensures Count(Load(crc, log), HasId(id)) ==
            if id in Replay(crc, log).live then Occurrences(PutIds(crc, log), id) else 0
  {
    ReplayWellFormed(crc, Replayed(map[], []), log);
    PickCounts(PutIds(crc, log), Replay(crc, log).live, id);
  }

  // ---------------------------------------------------------------------------
  // Which lines count
  // ---------------------------------------------------------------------------

  /** A line that does not parse, or whose checksum is there and does not match, is as if it were not there. */
  lemma CorruptIsSkipped(crc: Crc, log: Log, line: Line, more: Log)
    requires line.Garbled? || (line.rec.checksum != 0 && line.rec.checksum != crc(line.rec.(checksum := 0)))
    ensures Load(crc, log + [line] + more) == Load(crc, log + more)
    ensures Compact(crc, log + [line] + more) == Compact(crc, log + more)
  {
    assert (log + [line])[..|log|] == log;
    assert Replay(crc, log + [line]) == Replay(crc, log);
    ReplayAppend(crc, Replayed(map[], []), log + [line], more);
    ReplayAppend(crc, Replayed(map[], []), log, more);
  }

  /** A PUT whose checksum is missing or matches counts, whoever wrote it: its message replaces what had its id. */
  lemma IntactPutCounts(crc: Crc, log: Log, rec: LogRecord, m: Message, x: Message)
    requires rec.checksum == 0 || rec.checksum == crc(rec.(checksum := 0))
    requires rec.kind == "PUT" && rec.message == Some(m)
    ensures x in Load(crc, log + [Parsed(rec)]) <==> x == m || (x.id != m.id && x in Load(crc, log))
  {
    assert (log + [Parsed(rec)])[..|log|] == log;
    LoadMember(crc, log, x);
    LoadMember(crc, log + [Parsed(rec)], x);
  }

  /** An ACK whose checksum is missing or matches removes the messages with its id. */
  lemma IntactAckCounts(crc: Crc, log: Log, rec: LogRecord, x: Message)
    requires rec.checksum == 0 || rec.checksum == crc(rec.(checksum := 0))
    requires rec.kind == "ACK"
    ensures x in Load(crc, log + [Parsed(rec)]) <==> x.id != rec.messageId && x in Load(crc, log)
  {
    assert (log + [Parsed(rec)])[..|log|] == log;
    LoadMember(crc, log, x);
    LoadMember(crc, log + [Parsed(rec)], x);
  }

  /** What is written carries the checksum of the record without one, and is otherwise the record. */
  lemma WrittenCarriesChecksum(crc: Crc, rec: LogRecord)
    ensures Seal(crc, rec).checksum == crc(rec.(checksum := 0)) && Seal(crc, rec).(checksum := rec.checksum) == rec
  {
  }

  lemma {:induction false} PickedIds(ids: seq<string>, live: map<string, LogRecord>)
    requires forall id | id in live :: live[id].message.Some? && live[id].message.value.id == id
    ensures Ids(MessagesOf(Pick(ids, live))) == LiveIds(ids, live)
  {
    if ids == [] {
    } else {
      var shorter, last := ids[..|ids| - 1], ids[|ids| - 1];
      PickedIds(shorter, live);
      assert ids == shorter + [last];
      MessagesSnoc(shorter, last, live);
      if last in live {
        var ms, m := MessagesOf(Pick(shorter, live)), live[last].message.value;
        assert (ms + [m])[..|ms|] == ms;
      }
    }
  }

  /** Messages come back in the order in which their ids were put, the dead ones left out. */
  lemma RecoveredInPutOrder(crc: Crc, log: Log)
    ensures Ids(Load(crc, log)) == LiveIds(PutIds(crc, log), Replay(crc, log).live)
  {
    ReplayWellFormed(crc, Replayed(map[], []), log);
    PickedIds(PutIds(crc, log), Replay(crc, log).live);
  }

  /** The ids put are those of the PUT lines that count, in the order of the lines. */
  lemma PutIdsFollowLines(crc: Crc, log: Log, line: Line)
    ensures PutIds(crc, log + [line]) == PutIds(crc, log) +
            if line.Parsed? && (line.rec.checksum == 0 || line.rec.checksum == crc(line.rec.(checksum := 0)))
               && line.rec.kind == "PUT" && line.rec.message.Some?
            then [line.rec.message.value.id] else []
  {
    assert (log + [line])[..|log|] == log;
  }


  /** The lines are one PUT for each of the messages, in order, each with its checksum. */
  ghost predicate OnePutEach(crc: Crc, log: Log, msgs: seq<Message>) {
    |log| == |msgs| && forall i | 0 <= i < |log| ::
      && log[i].Parsed? && log[i].rec.kind == "PUT" && log[i].rec.message == Some(msgs[i])
      && log[i].rec.checksum == crc(log[i].rec.(checksum := 0))
  }

  lemma {:induction false} PickedPuts(crc: Crc, ids: seq<string>, live: map<string, LogRecord>)
    requires forall id | id in live :: live[id].kind == RECORD_PUT && live[id].message.Some?
    ensures OnePutEach(crc, SealAll(crc, Pick(ids, live)), MessagesOf(Pick(ids, live)))
  {
    if ids == [] {
    } else {
      var shorter, last := ids[..|ids| - 1], ids[|ids| - 1];
      PickedPuts(crc, shorter, live);
      assert ids == shorter + [last];
      MessagesSnoc(shorter, last, live);
      if last in live {
        assert (Pick(shorter, live) + [live[last]])[..|Pick(shorter, live)|] == Pick(shorter, live);
      }
    }
  }

  /** A compacted log holds nothing but one PUT for each message that recovery returns. */
  lemma CompactedIsMinimal(crc: Crc, log: Log)
    ensures OnePutEach(crc, Compact(crc, log), Load(crc, log))
  {
    ReplayWellFormed(crc, Replayed(map[], []), log);
    PickedPuts(crc, Replay(crc, log).ids, Replay(crc, log).live);
  }
}
