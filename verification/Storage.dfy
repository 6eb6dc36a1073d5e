/** The disk storage: one log file per topic, appended to, recovered from, compacted, cleared and deleted. */
module Storage {
  import opened Messages
  import opened Wal
  import opened Filenames

  type Files = map<string, Log>

  /** A topic the storage refuses is `Unsafe`. */
  datatype Result<+T> = Ok(value: T) | Unsafe

  function LogFile(topic: string): string { TopicToFilename(topic) + ".log" }

  function LegacyFile(topic: string): string { ReplaceAll(topic, "/", "@") + ".log" }

  function LogAt(files: Files, file: string): Log {
    if file in files then files[file] else []
  }

  /** The log a recovery reads: the topic's own, or else one under its legacy name. */
  function LogFor(files: Files, topic: string): Log {
    if LogFile(topic) in files then files[LogFile(topic)] else LogAt(files, LegacyFile(topic))
  }

  function Write(crc: Crc, files: Files, topic: string, rec: LogRecord): Files {
    if IsSafePath(topic)
    then files[LogFile(topic) := LogAt(files, LogFile(topic)) + [Parsed(Seal(crc, rec))]]
    else files
  }

  function CompactFile(crc: Crc, files: Files, topic: string): Files {
    if IsSafePath(topic) && LogFile(topic) in files
    then files[LogFile(topic) := Compact(crc, files[LogFile(topic)])]
    else files
  }

  function Clear(files: Files, topic: string): Files {
    if IsSafePath(topic) then files[LogFile(topic) := []] else files
  }

  function Delete(files: Files, topic: string): Files {
    if IsSafePath(topic) then files - {LogFile(topic)} else files
  }

  /** The first record written to a topic hides its legacy log from recovery: only the new message comes back. */
  lemma LegacyIsShadowed(crc: Crc, files: Files, topic: string, m: Message, now: Time, x: Message)
    requires IsSafePath(topic) && LogFile(topic) !in files
    ensures LogFor(files, topic) == LogAt(files, LegacyFile(topic))
    ensures x in Load(crc, LogFor(Write(crc, files, topic, PutRecord(m, now)), topic)) <==> x == m
  {
    LoadAfterPut(crc, [], m, now, x);
    assert LogFor(Write(crc, files, topic, PutRecord(m, now)), topic) == [] + [Parsed(Seal(crc, PutRecord(m, now)))];
  }

  class DiskStorage {
    const crc: Crc
    var files: Files

    constructor (crc: Crc)
      ensures this.crc == crc && files == map[]
    {
      this.crc := crc;
      files := map[];
    }

    method WriteRecord(topic: string, record: LogRecord) returns (ok: bool)
      modifies this`files
      ensures ok == IsSafePath(topic) && files == Write(crc, old(files), topic, record)
      ensures ok ==> LogAt(files, LogFile(topic)) ==
                     LogAt(old(files), LogFile(topic)) + [Parsed(record.(checksum := crc(record.(checksum := 0))))]
      ensures forall f | f != LogFile(topic) :: LogAt(files, f) == LogAt(old(files), f)
    {
      if !IsSafePath(topic) { return false; }
      var rec := record.(checksum := ChecksumFor(crc, record));
      var file := LogFile(topic);
      if file !in files { files := files[file := []]; }
      files := files[file := files[file] + [Parsed(rec)]];
      return true;
    }

    method AppendPut(topic: string, msg: Message, now: Time) returns (ok: bool)
      modifies this`files
      ensures ok == IsSafePath(topic) && files == Write(crc, old(files), topic, PutRecord(msg, now))
      ensures ok ==> forall x :: x in Load(crc, LogAt(files, LogFile(topic))) <==>
                x == msg || (x.id != msg.id && x in Load(crc, LogAt(old(files), LogFile(topic))))
    {
      ok := WriteRecord(topic, LogRecord(RECORD_PUT, Some(msg), "", now, 0));
      forall x
        ensures ok ==> (x in Load(crc, LogAt(files, LogFile(topic))) <==>
                x == msg || (x.id != msg.id && x in Load(crc, LogAt(old(files), LogFile(topic)))))
      {
        LoadAfterPut(crc, LogAt(old(files), LogFile(topic)), msg, now, x);
      }
    }

    method AppendAck(topic: string, id: string, now: Time) returns (ok: bool)
      modifies this`files
      ensures ok == IsSafePath(topic) && files == Write(crc, old(files), topic, AckRecord(id, now))
      ensures ok ==> forall x :: x in Load(crc, LogAt(files, LogFile(topic))) <==>
                x.id != id && x in Load(crc, LogAt(old(files), LogFile(topic)))
    {
      ok := WriteRecord(topic, LogRecord(RECORD_ACK, None, id, now, 0));
      forall x
        ensures ok ==> (x in Load(crc, LogAt(files, LogFile(topic))) <==>
                x.id != id && x in Load(crc, LogAt(old(files), LogFile(topic))))
      {
        LoadAfterAck(crc, LogAt(old(files), LogFile(topic)), id, now, x);
      }
    }

    method LoadMessages(topic: string) returns (r: Result<seq<Message>>)
      ensures r == if IsSafePath(topic) then Ok(Load(crc, LogFor(files, topic))) else Unsafe
    {
      if !IsSafePath(topic) { return Unsafe; }
      var filename := LogFile(topic);
      if filename !in files {
        var legacy := LegacyFile(topic);
        if legacy !in files { return Ok([]); }
        filename := legacy;
      }
      var log := files[filename];
      var msgMap: map<string, Message> := map[];
      var orderedIDs: seq<string> := [];
      for i := 0 to |log|
        invariant var r := Replay(crc, log[..i]);
                  orderedIDs == r.ids && Mirrors(msgMap, r.live) && WellFormed(r)
      {
        assert log[..i + 1][..i] == log[..i];
        if log[i].Garbled? { continue; }
        var rec := log[i].rec;
        if !ValidateRecord(crc, rec) { continue; }
        if rec.kind == RECORD_PUT {
          if rec.message.Some? {
            msgMap := msgMap[rec.message.value.id := rec.message.value];
            orderedIDs := orderedIDs + [rec.message.value.id];
          }
        } else if rec.kind == RECORD_ACK {
          msgMap := msgMap - {rec.messageId};
        }
      }
      assert log[..|log|] == log;
      var active := CollectMessages(orderedIDs, msgMap, Replay(crc, log).live);
      return Ok(active);
    }

    /** `msgs` holds the message of every record in `live`. */
    static ghost predicate Mirrors(msgs: map<string, Message>, live: map<string, LogRecord>) {
      msgs.Keys == live.Keys && forall id | id in live :: live[id].message == Some(msgs[id])
    }

    static method CollectMessages(ids: seq<string>, msgs: map<string, Message>, ghost live: map<string, LogRecord>)
      returns (active: seq<Message>)
      requires Mirrors(msgs, live)
      ensures active == MessagesOf(Pick(ids, live))
    {
      active := [];
      for i := 0 to |ids|
        invariant active == MessagesOf(Pick(ids[..i], live))
      {
        assert ids[..i + 1] == ids[..i] + [ids[i]];
        MessagesSnoc(ids[..i], ids[i], live);
        if ids[i] in msgs {
          active := active + [msgs[ids[i]]];
        }
      }
      assert ids[..|ids|] == ids;
    }

    method CompactLog(topic: string) returns (ok: bool)
      modifies this`files
      ensures ok == IsSafePath(topic) && files == CompactFile(crc, old(files), topic)
      ensures Load(crc, LogAt(files, LogFile(topic))) == Load(crc, LogAt(old(files), LogFile(topic)))
      ensures ok ==> OnePutEach(crc, LogAt(files, LogFile(topic)), Load(crc, LogAt(files, LogFile(topic))))
    {
      if !IsSafePath(topic) { return false; }
      var filename := LogFile(topic);
      if filename !in files { return true; }
      var log := files[filename];
      var msgMap: map<string, LogRecord> := map[];
      var orderedIDs: seq<string> := [];
      for i := 0 to |log|
        invariant Replay(crc, log[..i]) == Replayed(msgMap, orderedIDs)
      {
        assert log[..i + 1][..i] == log[..i];
        if log[i].Garbled? { continue; }
        var rec := log[i].rec;
        if !ValidateRecord(crc, rec) { continue; }
        if rec.kind == RECORD_PUT {
          if rec.message.Some? {
            msgMap := msgMap[rec.message.value.id := rec];
            orderedIDs := orderedIDs + [rec.message.value.id];
          }
        } else if rec.kind == RECORD_ACK {
          msgMap := msgMap - {rec.messageId};
        }
      }
      assert log[..|log|] == log;
      var tmp := WriteCompacted(crc, orderedIDs, msgMap);
      files := files[filename := tmp];
      CompactionIsTransparent(crc, log);
      CompactedIsMinimal(crc, log);
      return true;
    }

    static method WriteCompacted(crc: Crc, ids: seq<string>, live: map<string, LogRecord>) returns (tmp: Log)
      ensures tmp == SealAll(crc, Pick(ids, live))
    {
      tmp := [];
      for i := 0 to |ids|
        invariant tmp == SealAll(crc, Pick(ids[..i], live))
      {
        assert ids[..i + 1][..i] == ids[..i];
        if ids[i] in live {
          ghost var recs := Pick(ids[..i + 1], live);
          assert recs[..|recs| - 1] == Pick(ids[..i], live);
          var rec := live[ids[i]];
          tmp := tmp + [Parsed(rec.(checksum := ChecksumFor(crc, rec)))];
        }
      }
      assert ids[..|ids|] == ids;
    }

    method ClearLog(topic: string) returns (ok: bool)
      modifies this`files
      ensures ok == IsSafePath(topic) && files == Clear(old(files), topic)
    {
      if !IsSafePath(topic) { return false; }
      files := files[LogFile(topic) := []];
      return true;
    }

    method DeleteLog(topic: string) returns (ok: bool)
      modifies this`files
      ensures ok == IsSafePath(topic) && files == Delete(old(files), topic)
    {
      if !IsSafePath(topic) { return false; }
      files := files - {LogFile(topic)};
      return true;
    }
  }
}
