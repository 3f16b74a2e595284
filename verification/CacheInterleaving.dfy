/**
 * The volume-key cache under interleaved calls. Between extracting a key and caching it an operation holds
 * it, and no lock keeps a format out of that gap: what it caches then may no longer be the header's key.
 */
module CacheInterleaving {
  import opened Common
  import opened Luks2
  import opened VolumeKeyCache
  import opened Lifecycle
  import opened Invariants

  /** One volume: its header, its cache entry, the time, and the keys held by operations about to cache them. */
  datatype Shared = Shared(h: Header, cached: Option<Entry>, now: nat, held: map<nat, Bytes>)

  /** One call of one operation. */
  datatype Step =
    | Extract(pid: nat, slot: Option<int>, pw: string)   // any unlock or verification, on one slot or all
    | FormatKeyless(pid: nat, key: Bytes)                // will cache the generated key
    | FormatSeeded(key: Bytes)                           // its keyslot is a later AddSlot
    | CacheKey(pid: nat)
    | GiveUp(pid: nat)
    | AddKeyslot(key: Bytes, secret: string, pick: nat)
    | WipeKeyslot(target: int)
    | Consult
    | Wait(time: nat)

  function Next(s: Shared, e: Step): Shared {
    match e
    case Extract(pid, slot, pw) =>
      var u := VolumeKeyGet(s.h, slot, pw);
      if pid in s.held || u.None? then s else s.(held := s.held[pid := u.value.key])
    case FormatKeyless(pid, key) =>
      if pid in s.held then s else s.(h := Fresh(key), held := s.held[pid := key])
    case FormatSeeded(key) => s.(h := Fresh(key))
    case CacheKey(pid) =>
      if pid !in s.held then s
      else s.(cached := Some(Entry(s.held[pid], s.now)), held := s.held - {pid})
    case GiveUp(pid) => s.(held := s.held - {pid})
    case AddKeyslot(key, secret, pick) =>
      var added := AddByKey(s.h, key, secret, pick);
      if added.None? then s else s.(h := added.value)
    case WipeKeyslot(slot) =>
      var destroyed := DestroySlot(s.h, slot);
      if destroyed.None? then s else s.(h := destroyed.value)
    case Consult => s.(cached := Peek(s.cached, s.now).0)
    case Wait(time) => s.(now := s.now + time)
  }

  function Run(s: Shared, steps: seq<Step>): Shared {
    if steps == [] then s else Next(Run(s, steps[..|steps| - 1]), steps[|steps| - 1])
  }

  /** A live entry is the header's key. */
  ghost predicate Agrees(s: Shared) {
    Live(s.cached, s.now) ==> s.cached.value.key == s.h.digest
  }

  // ----- which calls can break it --------------------------------------------------------------

  /** Caching leaves agreement exactly when the key held is still the header's. */
  lemma CacheAgreesIff(s: Shared, pid: nat)
    requires pid in s.held
    ensures Agrees(Next(s, CacheKey(pid))) <==> s.held[pid] == s.h.digest
  {
  }

  /** Writing a new header leaves agreement exactly when a live entry, should there be one, holds its key. */
  lemma FormatAgreesIff(s: Shared, e: Step)
    requires e.FormatSeeded? || (e.FormatKeyless? && e.pid !in s.held)
    ensures Agrees(Next(s, e)) <==> (Live(s.cached, s.now) ==> s.cached.value.key == e.key)
  {
  }

  /** No other call breaks it. */
  lemma OthersAgree(s: Shared, e: Step)
    requires Agrees(s) && !e.CacheKey? && !e.FormatSeeded? && !e.FormatKeyless?
    ensures Agrees(Next(s, e))
  {
  }

  // ----- the discipline that rules it out ------------------------------------------------------

  ghost predicate InStep(s: Shared) {
    && Agrees(s)
    && (forall pid :: pid in s.held ==> s.held[pid] == s.h.digest)
    && (forall k :: k in s.h.slots ==> s.h.slots[k].wrapped == s.h.digest)
  }

  /** A header is formatted only while nobody holds its key and no entry lives. */
  ghost predicate Orderly(s: Shared, e: Step) {
    e.FormatSeeded? || e.FormatKeyless? ==> s.held == map[] && !Live(s.cached, s.now)
  }

  lemma StepInStep(s: Shared, e: Step)
    requires InStep(s) && Orderly(s, e)
    ensures InStep(Next(s, e))
  {
  }

  /**
   * Cache coherence under interleaving: with any number of unlocks, verifications, enrollments, wipes and
   * formats taken apart into calls, every live entry is the header's key after every prefix, if formats
   * wait until no key is held and no entry lives.
   */
  lemma {:induction false} AgreesThroughout(s: Shared, steps: seq<Step>)
    requires InStep(s)
    requires forall i :: 0 <= i < |steps| ==> Orderly(Run(s, steps[..i]), steps[i])
    ensures InStep(Run(s, steps))
  {
    if steps != [] {
      var init, e := steps[..|steps| - 1], steps[|steps| - 1];
      assert forall i :: 0 <= i < |init| ==> init[..i] == steps[..i] && init[i] == steps[i];
      AgreesThroughout(s, init);
      assert Orderly(Run(s, steps[..|steps| - 1]), e);
      StepInStep(Run(s, init), e);
    }
  }

  // ----- what is in flight decides -------------------------------------------------------------

  predicate OnlyCaching(steps: seq<Step>) {
    forall i :: 0 <= i < |steps| ==> steps[i].CacheKey?
  }

  ghost predicate AllCurrent(s: Shared) {
    forall pid :: pid in s.held ==> s.held[pid] == s.h.digest
  }

  lemma {:induction false} CurrentKeysAgree(s: Shared, steps: seq<Step>)
    requires Agrees(s) && AllCurrent(s) && OnlyCaching(steps)
    ensures Agrees(Run(s, steps)) && AllCurrent(Run(s, steps))
  {
    if steps != [] {
      CurrentKeysAgree(s, steps[..|steps| - 1]);
    }
  }

  /**
   * The exact condition: from a state in agreement, the operations in flight can, by caching what they
   * hold, leave a live entry that is not the header's key if and only if one of them holds such a key.
   */
  lemma {:induction false} CanDisagreeIff(s: Shared)
    requires Agrees(s)
    ensures (exists steps :: OnlyCaching(steps) && !Agrees(Run(s, steps))) <==> !AllCurrent(s)
  {
    if AllCurrent(s) {
      forall steps | OnlyCaching(steps)
        ensures Agrees(Run(s, steps))
      {
        CurrentKeysAgree(s, steps);
      }
    } else {
      var pid :| pid in s.held && s.held[pid] != s.h.digest;
      var steps := [CacheKey(pid)];
      assert steps[..0] == [] && Run(s, steps) == Next(s, CacheKey(pid));
      assert OnlyCaching(steps) && !Agrees(Run(s, steps));
    }
  }

  // ----- a schedule that loses a key -----------------------------------------------------------

  /** The volume as the sequential operations find it once nothing is in flight. */
  function Settled(s: Shared): Volume {
    Volume(Some(Disk(s.h, [s.h])), s.cached, map[], {}, s.now)
  }

  /**
   * A verification extracts the old key, a keyless format replaces the header and caches the new one, and
   * the verification caches the old key over it: the generated key is gone inside its two minutes, and no
   * operation but another format ever gives the volume a keyslot.
   */
  lemma {:induction false} LateVerifyLosesTheKey(s: Shared, slot: Option<int>, pw: string, key: Bytes, s': Shared,
                                                 events: seq<Event>, w: Volume)
    requires s.held == map[] && VolumeKeyGet(s.h, slot, pw).Some? && s.h.digest != key
    requires s' == Next(Next(Next(Next(s, Extract(1, slot, pw)), FormatKeyless(2, key)), CacheKey(2)), CacheKey(1))
    requires w == Lifecycle.Run(Settled(s'), events) && forall i :: 0 <= i < |events| ==> !events[i].op.Format?
    ensures s'.h == Fresh(key) && s'.cached == Some(Entry(s.h.digest, s.now)) && s'.held == map[]
    ensures Lost(w) && w.disk.value.header.digest == key
  {
    LateVerifyState(s, slot, pw, key, s');
    LostIsAbsorbing(Settled(s'), events, w);
  }

  lemma LateVerifyState(s: Shared, slot: Option<int>, pw: string, key: Bytes, s': Shared)
    requires s.held == map[] && VolumeKeyGet(s.h, slot, pw).Some?
    requires s' == Next(Next(Next(Next(s, Extract(1, slot, pw)), FormatKeyless(2, key)), CacheKey(2)), CacheKey(1))
    ensures s'.h == Fresh(key) && s'.cached == Some(Entry(s.h.digest, s.now)) && s'.held == map[]
  {
    var s1 := Next(s, Extract(1, slot, pw));
    assert s1 == s.(held := map[1 := s.h.digest]);
    var s2 := Next(s1, FormatKeyless(2, key));
    assert s2 == s.(h := Fresh(key), held := map[1 := s.h.digest, 2 := key]);
    var s3 := Next(s2, CacheKey(2));
    assert s3.held == map[1 := s.h.digest];
  }

  // ----- an operation run alone ----------------------------------------------------------------

  /** The calls of a verification, one after the other with nothing between, are the verification. */
  lemma SoloVerify(v: Volume, held: map<nat, Bytes>, pid: nat, passphrase: string, s: Schedule)
    requires v.disk.Some? && pid !in held && !s.fails(OpenForKey) && !s.keyGet(0)
    requires VerifyPassphrase(v, passphrase, s).1.Some?
    ensures var s1 := Next(Shared(v.disk.value.header, v.cached, v.now, held), Extract(pid, None, passphrase));
            var s2 := Next(Next(s1, Wait(s.work)), CacheKey(pid));
            var w := VerifyPassphrase(v, passphrase, s).0;
            s2 == Shared(v.disk.value.header, w.cached, w.now, held) && w.disk == v.disk
  {
    var key := VolumeKeyGet(v.disk.value.header, None, passphrase).value.key;
    assert held[pid := key] - {pid} == held;
  }

  /** The same of a keyless format. */
  lemma SoloFormat(v: Volume, held: map<nat, Bytes>, pid: nat, key: Bytes, s: Schedule)
    requires v.disk.Some? && pid !in held && !s.fails(InitFormat) && !s.fails(WriteFormat)
    ensures var s1 := Next(Shared(v.disk.value.header, v.cached, v.now, held), Step.FormatKeyless(pid, key));
            var s2 := Next(Next(s1, Wait(s.work)), CacheKey(pid));
            var w := FormatContainer(v, "", key, s).0;
            w.disk.Some? && s2 == Shared(w.disk.value.header, w.cached, w.now, held)
  {
    assert held[pid := key] - {pid} == held;
  }

  /** An operation that gives up between extracting and caching leaves nothing behind. */
  lemma SoloGivesUp(s: Shared, pid: nat, slot: Option<int>, pw: string)
    requires pid !in s.held
    ensures Next(Next(s, Extract(pid, slot, pw)), GiveUp(pid)) == s
  {
    assert s.held - {pid} == s.held;
    if VolumeKeyGet(s.h, slot, pw).Some? {
      var key := VolumeKeyGet(s.h, slot, pw).value.key;
      assert s.held[pid := key] - {pid} == s.held;
    }
  }

  /** The calls that add and destroy a slot are those of the whole operations. */
  lemma SoloCalls(v: Volume, held: map<nat, Bytes>, secret: string, key: Bytes, target: int, s: Schedule)
    requires v.disk.Some? && !s.fails(AddSlot) && !s.fails(DropSlot)
    ensures var start := Shared(v.disk.value.header, v.cached, v.now, held);
            && Some(Next(start, AddKeyslot(key, secret, s.slot)).h)
               == HeaderOf(Lifecycle.AddKeyslot(v, key, secret, s).0)
            && Some(Next(start, WipeKeyslot(target)).h) == HeaderOf(DestroyKeyslot(v, target, s).0)
  {
  }

  /** Consulting the cache after some time is asking whether a key is cached. */
  lemma SoloConsult(h: Header, held: map<nat, Bytes>, v: Volume, s: Schedule)
    ensures var end := Next(Next(Shared(h, v.cached, v.now, held), Wait(s.wait)), Consult);
            end.cached == Perform(v, AskCached, s).cached && end.now == Perform(v, AskCached, s).now
  {
  }

  function HeaderOf(v: Volume): Option<Header> {
    ReadHeader(v, false)
  }
}
