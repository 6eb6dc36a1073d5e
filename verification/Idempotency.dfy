/** The table of idempotency keys: each key is remembered for five minutes, in a table of bounded size. Times
    are in nanoseconds and never run backwards. */
module Idempotency {
  import opened Messages

  const WINDOW: Time := 300_000_000_000
  const PURGE_ABOVE := 5000
  const MAX_KEYS := 20000

  type Table = map<string, Time>

  function Purge(keys: Table, now: Time): Table {
    map k | k in keys && !(now > keys[k]) :: keys[k]
  }

  function PurgeIfLarge(keys: Table, now: Time): Table {
    if |keys| > PURGE_ABOVE then Purge(keys, now) else keys
  }

  /** The key is remembered and its time has not run out. */
  predicate Known(keys: Table, key: string, now: Time) {
    key in keys && now < keys[key]
  }

  /** A call with `key` would find room for it. */
  predicate Records(keys: Table, key: string, now: Time) {
    key != "" && !Known(keys, key, now) && |PurgeIfLarge(keys, now)| < MAX_KEYS
  }

  /** The table after a call. */
  function After(keys: Table, key: string, now: Time): Table {
    if key == "" || Known(keys, key, now) then keys
    else if Records(keys, key, now) then PurgeIfLarge(keys, now)[key := now + WINDOW]
    else PurgeIfLarge(keys, now)
  }

  /** Whether a call reports a duplicate. */
  predicate IsDuplicate(keys: Table, key: string, now: Time) {
    key != "" && Known(keys, key, now)
  }

  /** The keys whose time has not passed. */
  function Current(keys: Table, now: Time): set<string> {
    set k | k in keys && now <= keys[k]
  }

  /** A call with a new key records it, for five minutes, exactly when fewer than 20000 keys are still current. */
  lemma RecordedExactlyWhenRoom(keys: Table, key: string, now: Time)
    requires key != "" && !IsDuplicate(keys, key, now)
    ensures Records(keys, key, now) <==> |Current(keys, now)| < 20000
    ensures Records(keys, key, now) ==>
              key in After(keys, key, now) && After(keys, key, now)[key] == now + 300_000_000_000
  {
    assert Purge(keys, now).Keys == Current(keys, now);
    assert |Purge(keys, now)| == |Current(keys, now)|;
    SmallerMap(Purge(keys, now), keys);
  }

  class KeyTable {
    var idempotencyKeys: Table

    constructor ()
      ensures idempotencyKeys == map[]
    {
      idempotencyKeys := map[];
    }

    method IsIdempotent(key: string, now: Time) returns (duplicate: bool)
      modifies this
      ensures duplicate == IsDuplicate(old(idempotencyKeys), key, now)
      ensures idempotencyKeys == After(old(idempotencyKeys), key, now)
    {
      if key == "" { return false; }
      if key in idempotencyKeys {
        var exp := idempotencyKeys[key];
        if now < exp { return true; }
      }
      if |idempotencyKeys| > PURGE_ABOVE {
        PurgeExpired(now);
      }
      if |idempotencyKeys| >= MAX_KEYS {
        return false;
      }
      idempotencyKeys := idempotencyKeys[key := now + WINDOW];
      return false;
    }

    method PurgeExpired(now: Time)
      modifies this
      ensures idempotencyKeys == Purge(old(idempotencyKeys), now)
    {
      var todo := idempotencyKeys.Keys;
      while todo != {}
        invariant todo <= idempotencyKeys.Keys <= old(idempotencyKeys).Keys
        invariant forall k | k in idempotencyKeys :: idempotencyKeys[k] == old(idempotencyKeys)[k]
        invariant forall k | k in old(idempotencyKeys) && k !in todo ::
                    k in idempotencyKeys <==> !(now > old(idempotencyKeys)[k])
        decreases todo
      {
        var k :| k in todo;
        if now > idempotencyKeys[k] {
          idempotencyKeys := idempotencyKeys - {k};
        }
        todo := todo - {k};
      }
    }
  }

  // ---------------------------------------------------------------------------
  // Runs
  // ---------------------------------------------------------------------------

  datatype Call = Call(key: string, now: Time)

  ghost predicate Ordered(from: Time, calls: seq<Call>) {
    && (forall i | 0 <= i < |calls| :: from <= calls[i].now)
    && (forall i, j | 0 <= i < j < |calls| :: calls[i].now <= calls[j].now)
  }

  function Run(keys: Table, calls: seq<Call>): Table {
    if calls == [] then keys
    else After(Run(keys, calls[..|calls| - 1]), calls[|calls| - 1].key, calls[|calls| - 1].now)
  }

  lemma SmallerMap(a: Table, b: Table)
    requires a.Keys <= b.Keys
    ensures |a| <= |b|
  {
    assert |a| == |a.Keys| && |b| == |b.Keys|;
    assert b.Keys == a.Keys + (b.Keys - a.Keys);
  }

  lemma InsertSize(keys: Table, key: string, until: Time)
    ensures |keys[key := until]| <= |keys| + 1
  {
    assert keys[key := until].Keys == keys.Keys + {key};
    assert |keys[key := until]| == |keys[key := until].Keys| && |keys| == |keys.Keys|;
  }

  lemma AfterIsBounded(keys: Table, key: string, now: Time)
    requires |keys| <= MAX_KEYS
    ensures |After(keys, key, now)| <= MAX_KEYS
  {
    SmallerMap(PurgeIfLarge(keys, now), keys);
    InsertSize(PurgeIfLarge(keys, now), key, now + WINDOW);
  }

  /** The table never outgrows its cap. */
  lemma {:induction false} TableIsBounded(calls: seq<Call>)
    ensures |Run(map[], calls)| <= 20000
  {
    if calls == [] {
    } else {
      TableIsBounded(calls[..|calls| - 1]);
      AfterIsBounded(Run(map[], calls[..|calls| - 1]), calls[|calls| - 1].key, calls[|calls| - 1].now);
    }
  }

  /** A key stays remembered until its time, whatever other calls come and whatever is purged. */
  lemma {:induction false} KeyIsRemembered(keys: Table, calls: seq<Call>, key: string)
    requires key in keys && forall i | 0 <= i < |calls| :: calls[i].now < keys[key]
    ensures key in Run(keys, calls) && Run(keys, calls)[key] == keys[key]
  {
    if calls == [] {
    } else {
      KeyIsRemembered(keys, calls[..|calls| - 1], key);
    }
  }

  /** Once a call has recorded its key, every later call with that key within the window is reported as a
      duplicate, whatever comes in between. */
  lemma DuplicatesAreCaught(before: seq<Call>, first: Call, between: seq<Call>, again: Time)
    requires Records(Run(map[], before), first.key, first.now)
    requires Ordered(first.now, between + [Call(first.key, again)]) && again < first.now + 300_000_000_000
    ensures IsDuplicate(Run(After(Run(map[], before), first.key, first.now), between), first.key, again)
  {
    var all := between + [Call(first.key, again)];
    assert forall i | 0 <= i < |between| :: between[i] == all[i];
    assert all[|between|].now == again;
    KeyIsRemembered(After(Run(map[], before), first.key, first.now), between, first.key);
  }

  /** The key was recorded by the `i`-th call, and that is what the table says about it. */
  ghost predicate RecordedBy(calls: seq<Call>, i: nat, key: string, until: Time)
    requires i < |calls|
  {
    calls[i].key == key && Records(Run(map[], calls[..i]), key, calls[i].now) && until == calls[i].now + WINDOW
  }

  lemma {:induction false} EntriesHaveCause(calls: seq<Call>, key: string) returns (i: nat)
    requires key in Run(map[], calls)
    ensures i < |calls| && RecordedBy(calls, i, key, Run(map[], calls)[key])
  {
    var shorter, last := calls[..|calls| - 1], calls[|calls| - 1];
    var keys := Run(map[], shorter);
    if last.key == key && Records(keys, key, last.now) {
      i := |calls| - 1;
    } else {
      i := EntriesHaveCause(shorter, key);
      assert calls[..i] == shorter[..i];
    }
  }

  /** A duplicate is reported only of a key that an earlier call recorded, within the window before. */
  lemma DuplicatesAreReal(calls: seq<Call>, key: string, now: Time) returns (i: nat)
    requires IsDuplicate(Run(map[], calls), key, now)
    ensures i < |calls| && calls[i].key == key && now < calls[i].now + 300_000_000_000
    ensures Records(Run(map[], calls[..i]), key, calls[i].now)
  {
    i := EntriesHaveCause(calls, key);
  }
}
