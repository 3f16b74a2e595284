/**
 * The process-wide volume-key cache (luks.rs): a table from canonical device path to key and
 * insertion time, evicted lazily, entries living 120 seconds.
 */
module VolumeKeyCache {
  import opened Common

  /** VOLUME_KEY_CACHE_TTL, in nanoseconds. */
  const TTL: nat := 120 * 1_000_000_000

  datatype Entry = Entry(key: Bytes, at: nat)
  type Table = map<string, Entry>

  /** `fs::canonicalize`, falling back to the spelling the caller used. */
  function Realpath(links: map<string, string>, device: string): string {
    if device in links then links[device] else device
  }

  function At(t: Table, path: string): Option<Entry> {
    if path in t then Some(t[path]) else None
  }

  predicate Live(e: Option<Entry>, now: nat) {
    e.Some? && now - e.value.at < TTL
  }

  /** `cached_volume_key` on one path: what remains after lazy eviction, and the answer. */
  function Peek(e: Option<Entry>, now: nat): (r: (Option<Entry>, Option<Bytes>))
    ensures r.1.Some? <==> Live(e, now)
    ensures r.1.Some? ==> r.0 == e && r.1.value == e.value.key
    ensures forall later :: later >= now ==> (Live(r.0, later) <==> Live(e, later))
  {
    if e.None? then (None, None)
    else if now - e.value.at < TTL then (e, Some(e.value.key))
    else (None, None)
  }

  /** The same on the whole table. */
  function LookUp(t: Table, path: string, now: nat): (r: (Table, Option<Bytes>))
    ensures At(r.0, path) == Peek(At(t, path), now).0 && r.1 == Peek(At(t, path), now).1
    ensures forall p :: p != path ==> At(r.0, p) == At(t, p)
  {
    if path !in t then (t, None)
    else if now - t[path].at < TTL then (t, Some(t[path].key))
    else (t - {path}, None)
  }

  /** One call on the cache, as the outside world sees it. */
  datatype CacheCall =
    | Insert(path: string, key: Bytes, at: nat)
    | Clear(path: string, at: nat)
    | Read(path: string, at: nat)

  function Apply(t: Table, e: CacheCall): Table {
    match e
    case Insert(path, key, at) => t[path := Entry(key, at)]
    case Clear(path, _) => t - {path}
    case Read(path, at) => LookUp(t, path, at).0
  }

  /** The table after a whole history of calls. */
  function Replay(log: seq<CacheCall>): Table {
    if log == [] then map[] else Apply(Replay(log[..|log| - 1]), log[|log| - 1])
  }

  /** The reference: the last write to the path, with no table, no eviction, and reads ignored. */
  function LastWrite(log: seq<CacheCall>, path: string): Option<CacheCall> {
    if log == [] then None
    else
      var e := log[|log| - 1];
      if e.Read? || e.path != path then LastWrite(log[..|log| - 1], path) else Some(e)
  }

  function Expected(log: seq<CacheCall>, path: string, now: nat): Option<Bytes> {
    match LastWrite(log, path)
    case Some(Insert(_, key, at)) => if now - at < TTL then Some(key) else None
    case _ => None
  }

  /** The clock is monotone: calls are logged in time order and none lies after `now`. */
  predicate Chronological(log: seq<CacheCall>, now: nat) {
    log == [] || (log[|log| - 1].at <= now && Chronological(log[..|log| - 1], log[|log| - 1].at))
  }

  /** One more call, made now. */
  lemma {:induction false} LogOne(log: seq<CacheCall>, e: CacheCall, before: nat)
    requires Chronological(log, before) && before <= e.at
    ensures Replay(log + [e]) == Apply(Replay(log), e) && Chronological(log + [e], e.at)
  {
    assert (log + [e])[..|log|] == log;
  }

  lemma LookUpLeavesOthers(t: Table, path: string, now: nat)
    ensures LookUp(t, path, now).0 - {path} == t - {path}
  {
  }

  /**
   * The cache refines its log: after any history, a lookup returns a key exactly when the last
   * write to that path inserted that key less than 120 s ago.
   */
  lemma {:induction false} RefinesLog(log: seq<CacheCall>, path: string, now: nat)
    requires Chronological(log, now)
    ensures LookUp(Replay(log), path, now).1 == Expected(log, path, now)
  {
    if log != [] {
      var init, e := log[..|log| - 1], log[|log| - 1];
      RefinesLog(init, path, now);
    }
  }

  /** What one more lookup answers, and what it leaves. */
  lemma {:induction false} Answered(log: seq<CacheCall>, path: string, before: nat, now: nat)
    requires Chronological(log, before) && before <= now
    ensures LookUp(Replay(log), path, now).1 == Expected(log, path, now)
    ensures Replay(log + [Read(path, now)]) == LookUp(Replay(log), path, now).0
    ensures Chronological(log + [Read(path, now)], now)
  {
    RefinesLog(log, path, now);
    LogOne(log, Read(path, now), before);
  }

  /** The history with the lookups erased. */
  function Writes(log: seq<CacheCall>): seq<CacheCall> {
    if log == [] then []
    else
      var e := log[|log| - 1];
      if e.Read? then Writes(log[..|log| - 1]) else Writes(log[..|log| - 1]) + [e]
  }

  /** Lookups are unobservable: they neither extend a lifetime nor cut one short. */
  lemma {:induction false} ReadsAreUnobservable(log: seq<CacheCall>, path: string, now: nat)
    requires Chronological(log, now)
    ensures LookUp(Replay(Writes(log)), path, now).1 == LookUp(Replay(log), path, now).1
  {
    WritesAreChronological(log, now);
    WritesKeepLastWrite(log, path);
    RefinesLog(log, path, now);
    RefinesLog(Writes(log), path, now);
  }

  lemma {:induction false} WritesAreChronological(log: seq<CacheCall>, now: nat)
    requires Chronological(log, now)
    ensures Chronological(Writes(log), now)
  {
    if log != [] {
      WritesAreChronological(log[..|log| - 1], log[|log| - 1].at);
    }
  }

  lemma {:induction false} WritesKeepLastWrite(log: seq<CacheCall>, path: string)
    ensures LastWrite(Writes(log), path) == LastWrite(log, path)
  {
    if log != [] {
      var init, e := log[..|log| - 1], log[|log| - 1];
      WritesKeepLastWrite(init, path);
      if !e.Read? {
        assert Writes(log)[..|Writes(init)|] == Writes(init);
      }
    }
  }

  /** By the clock, in nanoseconds: a key is served for less than two minutes, however often it is asked for. */
  lemma ServedForTwoMinutes(t: Table, path: string, key: Bytes, at: nat, now: nat)
    ensures var r := LookUp(t[path := Entry(key, at)], path, now);
            r.1 == if now < at + 120_000_000_000 then Some(key) else None
  {
  }

  /** Two spellings of one device share its entry, and a spelling that cannot be resolved stands for itself. */
  lemma SpellingsShareTheEntry(t: Table, links: map<string, string>, a: string, b: string, e: Entry)
    ensures a in links && b in links ==>
              (At(t[Realpath(links, a) := e], Realpath(links, b)) == Some(e)
               <==> links[a] == links[b] || At(t, links[b]) == Some(e))
    ensures a !in links && b in links && links[b] == a ==> At(t[Realpath(links, a) := e], Realpath(links, b)) == Some(e)
    ensures a !in links ==> a in t[Realpath(links, a) := e]
  {
  }

  /** VOLUME_KEY_CACHE and the functions around it. */
  class VkCache {
    var entries: Table
    const links: map<string, string>
    ghost var log: seq<CacheCall>

    ghost predicate Valid(now: nat)
      reads this
    {
      entries == Replay(log) && Chronological(log, now)
    }

    constructor (links: map<string, string>)
      ensures Valid(0) && entries == map[] && log == [] && this.links == links
    {
      this.links := links;
      entries := map[];
      log := [];
    }

    /** `cache_volume_key`. */
    method CacheVolumeKey(device: string, key: Bytes, ghost before: nat, now: nat)
      requires Valid(before) && before <= now
      modifies this
      ensures Valid(now)
      ensures log == old(log) + [CacheCall.Insert(Realpath(links, device), key, now)]
      ensures entries == old(entries)[Realpath(links, device) := Entry(key, now)]
    {
      LogOne(log, CacheCall.Insert(Realpath(links, device), key, now), before);
      entries := entries[Realpath(links, device) := Entry(key, now)];
      log := log + [CacheCall.Insert(Realpath(links, device), key, now)];
    }

    /** `clear_volume_key_cache`. */
    method ClearVolumeKey(device: string, ghost before: nat, ghost now: nat)
      requires Valid(before) && before <= now
      modifies this
      ensures Valid(now)
      ensures log == old(log) + [CacheCall.Clear(Realpath(links, device), now)]
      ensures entries == old(entries) - {Realpath(links, device)}
    {
      LogOne(log, CacheCall.Clear(Realpath(links, device), now), before);
      entries := entries - {Realpath(links, device)};
      log := log + [CacheCall.Clear(Realpath(links, device), now)];
    }

    /** `cached_volume_key`: the answer is the one the log alone dictates. */
    method CachedVolumeKey(device: string, ghost before: nat, now: nat) returns (r: Option<Bytes>)
      requires Valid(before) && before <= now
      modifies this
      ensures Valid(now)
      ensures log == old(log) + [Read(Realpath(links, device), now)]
      ensures r == Expected(old(log), Realpath(links, device), now)
      ensures (entries, r) == LookUp(old(entries), Realpath(links, device), now)
      ensures entries - {Realpath(links, device)} == old(entries) - {Realpath(links, device)}
    {
      var path := Realpath(links, device);
      Answered(log, path, before, now);
      LookUpLeavesOthers(entries, path, now);
      if path !in entries {
        r := None;
      } else if now - entries[path].at < TTL {
        r := Some(entries[path].key);
      } else {
        entries := entries - {path};
        r := None;
      }
      log := log + [Read(path, now)];
    }

    /** `is_volume_key_cached`. */
    method IsVolumeKeyCached(device: string, ghost before: nat, now: nat) returns (cached: bool)
      requires Valid(before) && before <= now
      modifies this
      ensures Valid(now)
      ensures cached <==> Live(At(old(entries), Realpath(links, device)), now)
      ensures entries == LookUp(old(entries), Realpath(links, device), now).0
    {
      var r := CachedVolumeKey(device, before, now);
      cached := r.Some?;
    }
  }
}
