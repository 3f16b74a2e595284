/**
 * What every run of the service keeps, whichever calls fail along the way: keyslots wrap their
 * volume's key, the cache agrees with the header, stuck volumes stay stuck, nobody is locked out,
 * and no token dangles.
 */
module Invariants {
  import opened Common
  import opened Luks2
  import opened VolumeKeyCache
  import opened Lifecycle

  // ----- every header version an operation writes ---------------------------------------------

  /** Every header version from number `n` on satisfies `p`, and the last one is current. */
  ghost predicate History(v: Volume, n: nat, p: Header -> bool) {
    match v.disk
    case None => n == 0
    case Some(disk) =>
      && n < |disk.written| && disk.header == disk.written[|disk.written| - 1]
      && forall i :: n <= i < |disk.written| ==> p(disk.written[i])
  }

  /** Both headers an enrollment may write, with the slot and then with the token. */
  ghost predicate EnrollOk(h: Header, key: Bytes, p: Prepared, s: Schedule, ok: Header -> bool) {
    match AddByKey(h, key, p.secret, s.slot)
    case None => true
    case Some(h1) =>
      && ok(h1)
      && match AddToken(h1, Stamped(p.token, s.slot), s.token)
         case None => true
         case Some(h2) => ok(h2)
  }

  ghost predicate AddOk(h: Header, key: Bytes, secret: string, s: Schedule, ok: Header -> bool) {
    match AddByKey(h, key, secret, s.slot)
    case None => true
    case Some(h1) => ok(h1)
  }

  ghost predicate DestroyOk(h: Header, slot: int, ok: Header -> bool) {
    match Luks2.DestroySlot(h, slot)
    case None => true
    case Some(h1) => ok(h1)
  }

  /** Both headers a wipe may write, without the token and then without the slot. */
  ghost predicate WipeOk(h: Header, slot: int, id: int, ok: Header -> bool) {
    if id < 0 then DestroyOk(h, slot, ok)
    else
      match Luks2.RemoveToken(h, id)
      case None => true
      case Some(h1) => ok(h1) && DestroyOk(h1, slot, ok)
  }

  /** The keyslots and the token a wipe sees. */
  function SeenSlots(h: Header, s: Schedule): set<int> {
    if s.fails(GuardRead) then {} else h.slots.Keys
  }

  function SeenToken(h: Header, slot: int, s: Schedule): int {
    if s.fails(FindRead) then -1 else FirstNaming(Tokens(h), slot)
  }

  /** Whatever an operation writes over `h`, with any key and any prepared token, satisfies `ok`. */
  ghost predicate Closed(h: Header, op: Op, s: Schedule, ok: Header -> bool) {
    match op
    case Format(passphrase, key) => ok(Fresh(key)) && AddOk(Fresh(key), key, passphrase, s, ok)
    case EnrollWith(_, _) => forall key, p :: EnrollOk(h, key, p, s, ok)
    case EnrollP(_, passphrase) => forall key :: AddOk(h, key, passphrase, s, ok)
    case Wipe(_, slot) =>
      !(|SeenSlots(h, s)| <= 1 && slot in SeenSlots(h, s)) ==> WipeOk(h, slot, SeenToken(h, slot, s), ok)
    case _ => true
  }

  lemma CommitHistory(v: Volume, h: Header, n: nat, ok: Header -> bool)
    requires History(v, n, ok) && ok(h)
    ensures History(Commit(v, h), n, ok)
    ensures v.disk.Some? ==> Commit(v, h).disk.Some?
  {
  }

  lemma AddHistory(v: Volume, key: Bytes, secret: string, s: Schedule, n: nat, ok: Header -> bool)
    requires History(v, n, ok) && (v.disk.Some? ==> AddOk(v.disk.value.header, key, secret, s, ok))
    ensures History(AddKeyslot(v, key, secret, s).0, n, ok)
    ensures v.disk.Some? ==> AddKeyslot(v, key, secret, s).0.disk.Some?
  {
    if AddKeyslot(v, key, secret, s).1.Ok? {
      CommitHistory(v, AddByKey(v.disk.value.header, key, secret, s.slot).value, n, ok);
    }
  }

  lemma EnrollHistory(v: Volume, key: Bytes, p: Prepared, s: Schedule, n: nat, ok: Header -> bool)
    requires History(v, n, ok) && (v.disk.Some? ==> EnrollOk(v.disk.value.header, key, p, s, ok))
    ensures History(EnrollWithKey(v, key, p, s).0, n, ok)
    ensures v.disk.Some? ==> EnrollWithKey(v, key, p, s).0.disk.Some?
  {
    AddHistory(v, key, p.secret, s, n, ok);
    var (v1, slot) := AddKeyslot(v, key, p.secret, s);
    if slot.Ok? && WriteTokenJson(v1, Stamped(p.token, slot.value), s).1.Ok? {
      CommitHistory(v1, AddToken(v1.disk.value.header, Stamped(p.token, slot.value), s.token).value, n, ok);
    }
  }

  lemma DestroyHistory(v: Volume, slot: int, s: Schedule, n: nat, ok: Header -> bool)
    requires History(v, n, ok) && (v.disk.Some? ==> DestroyOk(v.disk.value.header, slot, ok))
    ensures History(DestroyKeyslot(v, slot, s).0, n, ok)
    ensures v.disk.Some? ==> DestroyKeyslot(v, slot, s).0.disk.Some?
  {
    if DestroyKeyslot(v, slot, s).1 {
      CommitHistory(v, Luks2.DestroySlot(v.disk.value.header, slot).value, n, ok);
    }
  }

  lemma WipeHistory(v: Volume, slot: int, s: Schedule, n: nat, ok: Header -> bool)
    requires History(v, n, ok)
    requires v.disk.Some? ==> WipeOk(v.disk.value.header, slot, SeenToken(v.disk.value.header, slot, s), ok)
    ensures History(WipeTokenThenSlot(v, slot, s).0, n, ok)
    ensures v.disk.Some? ==> WipeTokenThenSlot(v, slot, s).0.disk.Some?
  {
    var id := FindToken(v, slot, s.fails(FindRead));
    if id < 0 {
      DestroyHistory(v, slot, s, n, ok);
    } else if RemoveTokenJson(v, id, s).1 {
      CommitHistory(v, Luks2.RemoveToken(v.disk.value.header, id).value, n, ok);
      DestroyHistory(RemoveTokenJson(v, id, s).0, slot, s, n, ok);
    }
  }

  lemma FormatHistory(v: Volume, passphrase: string, key: Bytes, s: Schedule, n: nat, ok: Header -> bool)
    requires History(v, n, ok) && ok(Fresh(key)) && AddOk(Fresh(key), key, passphrase, s, ok)
    ensures History(FormatContainer(v, passphrase, key, s).0, n, ok)
    ensures v.disk.Some? ==> FormatContainer(v, passphrase, key, s).0.disk.Some?
  {
    CommitHistory(v, Fresh(key), n, ok);
    var v1 := Commit(v, Fresh(key));
    if AddByKey(Fresh(key), key, passphrase, s.slot).Some? {
      CommitHistory(v1, AddByKey(Fresh(key), key, passphrase, s.slot).value, n, ok);
    }
  }

  lemma EnrollTokenHistory(v: Volume, a: Auth, p: Result<Prepared>, s: Schedule, n: nat, ok: Header -> bool)
    requires History(v, n, ok)
    requires v.disk.Some? && p.Ok? ==> forall key :: EnrollOk(v.disk.value.header, key, p.value, s, ok)
    ensures History(EnrollToken(v, a, p, s).0, n, ok)
    ensures v.disk.Some? ==> EnrollToken(v, a, p, s).0.disk.Some?
  {
    var (v1, key) := GetVolumeKey(v, a, s);
    if p.Ok? && key.Ok? {
      EnrollHistory(v1, key.value, p.value, s, n, ok);
    }
  }

  lemma EnrollPreparedHistory(v: Volume, a: Auth, prepared: (Volume, Result<Prepared>), s: Schedule, n: nat,
                              ok: Header -> bool)
    requires History(v, n, ok) && prepared.0 == v.(objects := prepared.0.objects)
    requires v.disk.Some? ==> forall key, p :: EnrollOk(v.disk.value.header, key, p, s, ok)
    ensures History(EnrollToken(prepared.0, a, prepared.1, s).0, n, ok)
    ensures v.disk.Some? ==> EnrollToken(prepared.0, a, prepared.1, s).0.disk.Some?
  {
    EnrollTokenHistory(prepared.0, a, prepared.1, s, n, ok);
  }

  lemma EnrollOpHistory(v: Volume, a: Auth, m: Modality, s: Schedule, n: nat, ok: Header -> bool)
    requires History(v, n, ok)
    requires v.disk.Some? ==> forall key, p :: EnrollOk(v.disk.value.header, key, p, s, ok)
    ensures History(Enroll(v, a, m, s).0, n, ok)
    ensures v.disk.Some? ==> Enroll(v, a, m, s).0.disk.Some?
  {
    if !(m.ByFido2? && AlreadyEnrolled(v, m.check, m.dev, s)) {
      EnrollPreparedHistory(v, a, Prepare(v, m, s), s, n, ok);
    }
  }

  lemma EnrollPassphraseHistory(v: Volume, a: Auth, passphrase: string, s: Schedule, n: nat, ok: Header -> bool)
    requires History(v, n, ok)
    requires v.disk.Some? ==> forall key :: AddOk(v.disk.value.header, key, passphrase, s, ok)
    ensures History(EnrollPassphrase(v, a, passphrase, s).0, n, ok)
    ensures v.disk.Some? ==> EnrollPassphrase(v, a, passphrase, s).0.disk.Some?
  {
    var (v1, key) := GetVolumeKey(v, a, s);
    if key.Ok? {
      AddHistory(v1, key.value, passphrase, s, n, ok);
    }
  }

  lemma WipeOpHistory(v: Volume, a: Auth, slot: int, s: Schedule, n: nat, ok: Header -> bool)
    requires History(v, n, ok)
    requires v.disk.Some? ==> Closed(v.disk.value.header, Wipe(a, slot), s, ok)
    ensures History(WipeSlot(v, a, slot, s).0, n, ok)
    ensures v.disk.Some? ==> WipeSlot(v, a, slot, s).0.disk.Some?
  {
    var (v1, key) := GetVolumeKey(v, a, s);
    if key.Ok? {
      var slots := ListKeyslots(v1, s.fails(GuardRead));
      if !(|slots| <= 1 && slot in slots) {
        WipeHistory(v1, slot, s, n, ok);
      }
    }
  }

  lemma PerformHistory(v: Volume, op: Op, s: Schedule, n: nat, ok: Header -> bool)
    requires History(v, n, ok)
    requires v.disk.Some? ==> Closed(v.disk.value.header, op, s, ok)
    requires op.Format? ==> Closed(Fresh(op.key), op, s, ok)
    ensures History(Perform(v, op, s), n, ok)
    ensures v.disk.Some? ==> Perform(v, op, s).disk.Some?
  {
    match op
    case Format(passphrase, key) => FormatHistory(v, passphrase, key, s, n, ok);
    case EnrollWith(a, m) => EnrollOpHistory(v, a, m, s, n, ok);
    case EnrollP(a, passphrase) => EnrollPassphraseHistory(v, a, passphrase, s, n, ok);
    case Wipe(a, slot) => WipeOpHistory(v, a, slot, s, n, ok);
    case _ =>
  }

  lemma {:induction false} RunHistoryTo(v: Volume, events: seq<Event>, k: nat, n: nat, ok: Header -> bool)
    requires History(v, n, ok) && k <= |events|
    requires forall h, i {:trigger Closed(h, events[i].op, events[i].s, ok)} ::
               0 <= i < |events| && (ok(h) || events[i].op.Format?) ==> Closed(h, events[i].op, events[i].s, ok)
    ensures History(Run(v, events[..k]), n, ok)
    ensures v.disk.Some? ==> Run(v, events[..k]).disk.Some?
  {
    if k > 0 {
      var e := events[k - 1];
      RunHistoryTo(v, events, k - 1, n, ok);
      assert events[..k][..k - 1] == events[..k - 1];
      var v1 := Run(v, events[..k - 1]);
      if v1.disk.Some? {
        assert ok(v1.disk.value.header);
        assert Closed(v1.disk.value.header, events[k - 1].op, events[k - 1].s, ok);
      }
      if e.op.Format? {
        assert Closed(Fresh(e.op.key), events[k - 1].op, events[k - 1].s, ok);
      }
      PerformHistory(v1, e.op, e.s, n, ok);
    }
  }

  /** A header property that every event of a run keeps holds of every version the run writes. */
  lemma {:induction false} RunHistory(v: Volume, events: seq<Event>, n: nat, ok: Header -> bool)
    requires History(v, n, ok)
    requires forall h, i {:trigger Closed(h, events[i].op, events[i].s, ok)} ::
               0 <= i < |events| && (ok(h) || events[i].op.Format?) ==> Closed(h, events[i].op, events[i].s, ok)
    ensures History(Run(v, events), n, ok)
    ensures v.disk.Some? ==> Run(v, events).disk.Some?
  {
    RunHistoryTo(v, events, |events|, n, ok);
    assert events[..|events|] == events;
  }

  // ----- every keyslot wraps its volume's key --------------------------------------------------

  ghost predicate Wraps(h: Header) {
    WellFormed(h) && forall k :: k in h.slots ==> h.slots[k].wrapped == h.digest
  }

  lemma WrapsEnroll(h: Header, key: Bytes, p: Prepared, s: Schedule)
    requires Wraps(h)
    ensures EnrollOk(h, key, p, s, Wraps)
  {
  }

  lemma WrapsAdd(h: Header, key: Bytes, secret: string, s: Schedule)
    requires Wraps(h)
    ensures AddOk(h, key, secret, s, Wraps)
  {
  }

  lemma WrapsWipe(h: Header, slot: int, id: int)
    requires Wraps(h)
    ensures WipeOk(h, slot, id, Wraps)
  {
  }

  lemma WrapsClosed(h: Header, op: Op, s: Schedule)
    requires Wraps(h) || op.Format?
    ensures Closed(h, op, s, Wraps)
  {
    match op
    case Format(passphrase, key) => WrapsAdd(Fresh(key), key, passphrase, s);
    case EnrollWith(_, _) =>
      forall key, p ensures EnrollOk(h, key, p, s, Wraps) { WrapsEnroll(h, key, p, s); }
    case EnrollP(_, passphrase) =>
      forall key ensures AddOk(h, key, passphrase, s, Wraps) { WrapsAdd(h, key, passphrase, s); }
    case Wipe(_, slot) => WrapsWipe(h, slot, SeenToken(h, slot, s));
    case _ =>
  }

  /**
   * Every keyslot of every header version in every reachable state wraps that header's volume key,
   * with no hypothesis about the cache: a stale key never passes the digest check.
   */
  lemma {:induction false} SlotsAlwaysWrap(v: Volume, events: seq<Event>)
    requires History(v, 0, Wraps)
    ensures History(Run(v, events), 0, Wraps)
  {
    forall h, i | 0 <= i < |events| && (Wraps(h) || events[i].op.Format?)
      ensures Closed(h, events[i].op, events[i].s, Wraps)
    {
      WrapsClosed(h, events[i].op, events[i].s);
    }
    RunHistory(v, events, 0, Wraps);
  }

  // ----- nobody is locked out ------------------------------------------------------------------

  /** More than one element, or another element: removing one leaves some. */
  lemma RemovingLeavesSome(slots: map<nat, Keyslot>, slot: int)
    requires slots != map[] && !(|slots.Keys| <= 1 && slot in slots.Keys)
    ensures slots - {slot} != map[]
  {
    var k :| k in slots;
    if k == slot {
      var rest := slots.Keys - {k};
      assert |rest| == |slots.Keys| - 1;
      var j :| j in rest;
      assert j in slots - {slot};
    } else {
      assert k in slots - {slot};
    }
  }

  /** An event that may not lock out: no reformat, and a wipe whose guard could read the keyslots. */
  ghost predicate Guarded(e: Event) {
    !e.op.Format? && (e.op.Wipe? ==> !e.s.fails(GuardRead))
  }

  ghost predicate Openable(h: Header, key: Bytes) {
    h.slots != map[] && h.digest == key
  }

  lemma OpenableClosed(h: Header, e: Event, key: Bytes)
    requires Openable(h, key) && Guarded(e)
    ensures Closed(h, e.op, e.s, (x: Header) => Openable(x, key))
  {
    var ok := (x: Header) => Openable(x, key);
    var s := e.s;
    assert s.slot in h.slots[s.slot := Keyslot("", key)];
    match e.op
    case EnrollWith(_, _) =>
      forall k, p
        ensures EnrollOk(h, k, p, s, ok)
      {
        AddingLeavesSome(h, k, p.secret, s.slot);
      }
    case EnrollP(_, passphrase) =>
      forall k
        ensures AddOk(h, k, passphrase, s, ok)
      {
        AddingLeavesSome(h, k, passphrase, s.slot);
      }
    case Wipe(_, slot) =>
      if !(|h.slots.Keys| <= 1 && slot in h.slots.Keys) {
        RemovingLeavesSome(h.slots, slot);
      }
    case _ =>
  }

  lemma AddingLeavesSome(h: Header, key: Bytes, secret: string, pick: nat)
    ensures AddByKey(h, key, secret, pick).Some? ==> AddByKey(h, key, secret, pick).value.slots != map[]
  {
    if AddByKey(h, key, secret, pick).Some? {
      assert pick in AddByKey(h, key, secret, pick).value.slots;
    }
  }

  lemma {:induction false} StaysOpenable(v: Volume, events: seq<Event>, n: nat, key: Bytes)
    requires History(v, n, x => Openable(x, key))
    requires forall i :: 0 <= i < |events| ==> Guarded(events[i])
    ensures History(Run(v, events), n, x => Openable(x, key))
    ensures v.disk.Some? ==> Run(v, events).disk.Some?
  {
    var ok := (x: Header) => Openable(x, key);
    forall h, i | 0 <= i < |events| && (ok(h) || events[i].op.Format?)
      ensures Closed(h, events[i].op, events[i].s, ok)
    {
      assert Guarded(events[i]);
      OpenableClosed(h, events[i], key);
    }
    RunHistory(v, events, n, ok);
  }

  /** The header commits to `key` and one of its keyslots wraps it. */
  ghost predicate Unlockable(h: Header, key: Bytes) {
    h.digest == key && exists k :: k in h.slots && h.slots[k].wrapped == key
  }

  lemma OpenableAndWraps(v: Volume, n: nat, key: Bytes)
    requires History(v, n, x => Openable(x, key)) && History(v, 0, Wraps)
    ensures History(v, n, x => Unlockable(x, key))
  {
    if v.disk.Some? {
      var written := v.disk.value.written;
      forall i | n <= i < |written|
        ensures Unlockable(written[i], key)
      {
        assert Openable(written[i], key) && Wraps(written[i]);
        var k :| k in written[i].slots;
      }
    }
  }

  /**
   * No lock-out: a volume that has a keyslot keeps, after every sequence of enroll, wipe, verify,
   * open and foreign operations failing wherever they may, a keyslot that wraps its volume key; and
   * so does every header version written on the way.
   */
  lemma {:induction false} NoLockOut(v: Volume, events: seq<Event>)
    requires History(v, 0, Wraps) && v.disk.Some? && v.disk.value.header.slots != map[]
    requires forall i :: 0 <= i < |events| ==> Guarded(events[i])
    ensures var disk := v.disk.value;
            && Run(v, events).disk.Some?
            && History(Run(v, events), |disk.written| - 1, x => Unlockable(x, disk.header.digest))
  {
    var key := v.disk.value.header.digest;
    var n := |v.disk.value.written| - 1;
    StaysOpenable(v, events, n, key);
    SlotsAlwaysWrap(v, events);
    OpenableAndWraps(Run(v, events), n, key);
  }

  lemma DropOutcome(v: Volume, id: int, s: Schedule)
    requires v.disk.Some?
    ensures var h, r := v.disk.value.header, RemoveTokenJson(v, id, s);
            && (r.1 <==> id >= 0 && id in h.tokens && !s.fails(DropToken))
            && r.0.disk.Some? && r.0.disk.value.header == if r.1 then h.(tokens := h.tokens - {id}) else h
  {
  }

  lemma DestroyOutcome(v: Volume, slot: int, s: Schedule)
    requires v.disk.Some?
    ensures var h, r := v.disk.value.header, DestroyKeyslot(v, slot, s);
            && (r.1 <==> slot in h.slots.Keys && !s.fails(DropSlot))
            && r.0.disk.Some? && r.0.disk.value.header == if r.1 then h.(slots := h.slots - {slot}) else h
  {
  }

  /** When both steps of a wipe go through: the token step, if there is a token, and the slot step. */
  predicate GoesThrough(h: Header, slot: int, s: Schedule) {
    var id := SeenToken(h, slot, s);
    && (id < 0 || (id in h.tokens && !s.fails(DropToken)))
    && slot in h.slots.Keys && !s.fails(DropSlot)
  }

  /** What a wipe reports, and what is gone; a wipe that stops halfway has removed at most a token. */
  lemma WipeOutcome(v: Volume, slot: int, s: Schedule)
    requires v.disk.Some?
    ensures var h, r := v.disk.value.header, WipeTokenThenSlot(v, slot, s); var id := SeenToken(h, slot, s);
            && r.0.disk.Some? && (r.1.ok <==> GoesThrough(h, slot, s))
            && (r.1.ok ==> r.0.disk.value.header
                           == h.(slots := h.slots - {slot}, tokens := if id < 0 then h.tokens else h.tokens - {id}))
            && (!r.1.ok ==> r.0.disk.value.header.slots == h.slots && r.0.disk.value.header.digest == h.digest)
  {
    var id := SeenToken(v.disk.value.header, slot, s);
    assert id == FindToken(v, slot, s.fails(FindRead));
    DropOutcome(v, id, s);
    DestroyOutcome(v, slot, s);
    DestroyOutcome(RemoveTokenJson(v, id, s).0, slot, s);
  }

  /** The guard refuses exactly the last slot it sees, and then nothing changes. */
  lemma GuardOutcome(v: Volume, slot: int, s: Schedule)
    requires v.disk.Some?
    ensures var r := WipeGuarded(v, slot, s);
            if SeenSlots(v.disk.value.header, s) == {slot} then r.0 == v && !r.1.ok
            else r == WipeTokenThenSlot(v, slot, s)
  {
    var sees := SeenSlots(v.disk.value.header, s);
    assert sees == ListKeyslots(v, s.fails(GuardRead));
    assert |{slot}| == 1;
    if |sees| <= 1 && slot in sees {
      OnlyElement(sees, slot);
    }
  }

  /**
   * Exactly when a wipe by a caller who could unlock does lock out: the guard's own metadata read
   * failed (and so looked like an empty keyslot list), the slot was the only one, and every later
   * call went through.
   */
  lemma WipeLocksOutIff(v: Volume, slot: int, s: Schedule)
    requires v.disk.Some? && v.disk.value.header.slots != map[]
    ensures var h, r := v.disk.value.header, WipeGuarded(v, slot, s);
            r.0.disk.Some? && (r.0.disk.value.header.slots == map[]
                               <==> h.slots.Keys == {slot} && s.fails(GuardRead) && GoesThrough(h, slot, s))
  {
    var slots := v.disk.value.header.slots;
    GuardOutcome(v, slot, s);
    WipeOutcome(v, slot, s);
    if slots.Keys == {slot} {
      assert slots - {slot} == map[];
    } else if slot in slots.Keys {
      var k :| k in slots && k != slot;
      assert k in slots - {slot};
    }
  }

  lemma OnlyElement(xs: set<int>, x: int)
    requires x in xs && |xs| <= 1
    ensures xs == {x}
  {
    assert |xs - {x}| == 0;
  }

  // ----- stuck volumes stay stuck --------------------------------------------------------------

  /** Zero keyslots and no live cache entry. */
  ghost predicate Stuck(v: Volume) {
    v.disk.Some? && v.disk.value.header.slots == map[] && !Live(v.cached, v.now)
  }

  /** Nobody obtains the key of a stuck volume, by any method. */
  lemma StuckHasNoKey(v: Volume, a: Auth, s: Schedule)
    requires Stuck(v)
    ensures var r := GetVolumeKey(v, a, s); r.1.Err? && Stuck(r.0) && r.0.disk == v.disk
  {
  }

  lemma EnrollKeepsStuck(v: Volume, a: Auth, m: Modality, s: Schedule)
    requires Stuck(v)
    ensures var r := Enroll(v, a, m, s); !r.1.ok && Stuck(r.0) && r.0.disk == v.disk
  {
    StuckHasNoKey(Prepare(v, m, s).0, a, s);
  }

  lemma PerformStuck(v: Volume, op: Op, s: Schedule)
    requires Stuck(v) && !op.Format?
    ensures Stuck(Perform(v, op, s)) && Perform(v, op, s).disk == v.disk
  {
    match op
    case EnrollWith(a, m) => EnrollKeepsStuck(v, a, m, s);
    case EnrollP(a, _) => StuckHasNoKey(v, a, s);
    case Wipe(a, _) => StuckHasNoKey(v, a, s);
    case Open(_, a) => StuckHasNoKey(v, a, s);
    case _ =>
  }

  /**
   * A stuck volume is absorbing: under every sequence of completed operations that do not format it,
   * it stays without keyslots and without a live cache entry, and its header is never rewritten.
   */
  lemma {:induction false} StuckIsAbsorbing(v: Volume, events: seq<Event>)
    requires Stuck(v)
    requires forall i :: 0 <= i < |events| ==> !events[i].op.Format?
    ensures Stuck(Run(v, events)) && Run(v, events).disk == v.disk
  {
    if events != [] {
      var init, e := events[..|events| - 1], events[|events| - 1];
      StuckIsAbsorbing(v, init);
      PerformStuck(Run(v, init), e.op, e.s);
    }
  }

  // ----- the cache agrees with the header ------------------------------------------------------

  ghost predicate Coherent(v: Volume) {
    Live(v.cached, v.now) ==> v.disk.Some? && v.cached.value.key == v.disk.value.header.digest
  }

  /** The one operation that may contradict the cache: seeding a passphrase over a live entry. */
  ghost predicate CacheSafe(v: Volume, op: Op) {
    op.Format? && op.passphrase != "" ==> !Live(v.cached, v.now)
  }

  /** With a coherent cache every unlock yields the header's own key. */
  lemma CoherentKey(v: Volume, a: Auth, s: Schedule)
    requires Coherent(v)
    ensures var r := GetVolumeKey(v, a, s);
            Coherent(r.0) && (r.1.Ok? ==> v.disk.Some? && r.1.value == v.disk.value.header.digest)
  {
  }

  lemma EnrollTokenCoherent(v: Volume, a: Auth, p: Result<Prepared>, s: Schedule)
    requires Coherent(v)
    ensures Coherent(EnrollToken(v, a, p, s).0)
  {
    CoherentKey(v, a, s);
    var (v1, key) := GetVolumeKey(v, a, s);
    if p.Ok? && key.Ok? {
      EnrollWithKeyCoherent(v1, key.value, p.value, s);
    }
  }

  lemma EnrollWithKeyCoherent(v: Volume, key: Bytes, p: Prepared, s: Schedule)
    requires Coherent(v)
    ensures Coherent(EnrollWithKey(v, key, p, s).0)
  {
  }

  lemma EnrollCoherent(v: Volume, a: Auth, m: Modality, s: Schedule)
    requires Coherent(v)
    ensures Coherent(Enroll(v, a, m, s).0)
  {
    var (v1, p) := Prepare(v, m, s);
    EnrollTokenCoherent(v1, a, p, s);
  }

  lemma PerformCoherent(v: Volume, op: Op, s: Schedule)
    requires Coherent(v) && CacheSafe(v, op)
    ensures Coherent(Perform(v, op, s))
  {
    match op
    case EnrollWith(a, m) => EnrollCoherent(v, a, m, s);
    case EnrollP(a, _) => CoherentKey(v, a, s);
    case Wipe(a, slot) =>
      CoherentKey(v, a, s);
      WipeCoherent(GetVolumeKey(v, a, s).0, slot, s);
    case Open(_, a) => CoherentKey(v, a, s);
    case _ =>
  }

  lemma WipeCoherent(v: Volume, slot: int, s: Schedule)
    requires Coherent(v)
    ensures Coherent(WipeGuarded(v, slot, s).0)
  {
    if v.disk.Some? {
      GuardOutcome(v, slot, s);
      WipeOutcome(v, slot, s);
      var w := WipeGuarded(v, slot, s).0;
      assert w.(disk := v.disk) == v;
    }
  }

  /** No passphrase-seeded format hits a live entry anywhere in the run. */
  ghost predicate CacheSafeRun(v: Volume, events: seq<Event>) {
    forall i :: 0 <= i < |events| ==> CacheSafe(Run(v, events[..i]), events[i].op)
  }

  /** Cache coherence over runs: every live entry is the header's current volume key. */
  lemma {:induction false} CacheStaysCoherent(v: Volume, events: seq<Event>)
    requires Coherent(v) && CacheSafeRun(v, events)
    ensures Coherent(Run(v, events))
  {
    if events != [] {
      var init, e := events[..|events| - 1], events[|events| - 1];
      forall i | 0 <= i < |init|
        ensures CacheSafe(Run(v, init[..i]), init[i].op)
      {
        assert init[..i] == events[..i];
      }
      CacheStaysCoherent(v, init);
      assert CacheSafe(Run(v, events[..|events| - 1]), events[|events| - 1].op);
      PerformCoherent(Run(v, init), e.op, e.s);
    }
  }

  /**
   * The hypothesis is needed, exactly: a passphrase-seeded format that gets past writing the new
   * header breaks coherence if and only if a live entry holds a different key.
   */
  lemma FormatKeepsCoherenceIff(v: Volume, passphrase: string, key: Bytes, s: Schedule)
    requires passphrase != "" && !s.fails(InitFormat) && !s.fails(WriteFormat)
    ensures Coherent(FormatContainer(v, passphrase, key, s).0)
       <==> (Live(v.cached, v.now) ==> v.cached.value.key == key)
    ensures Stale(FormatContainer(v, passphrase, key, s).0) <==> Live(v.cached, v.now) && v.cached.value.key != key
  {
  }

  // ----- a stale entry -------------------------------------------------------------------------

  lemma TimeFlows(v: Volume, op: Op, s: Schedule)
    ensures Perform(v, op, s).now >= v.now
  {
  }

  /** What a passphrase format over a live entry leaves: the cache holds a key the header does not commit to. */
  ghost predicate Stale(v: Volume) {
    v.disk.Some? && Live(v.cached, v.now) && v.cached.value.key != v.disk.value.header.digest
  }

  /** An operation that neither formats nor verifies, so neither replaces the header nor re-primes the cache. */
  predicate LeavesCache(op: Op) {
    !op.Format? && !op.Verify? && !op.UnlockWithToken?
  }

  /** The operation needs the volume key for something, and fails. */
  ghost predicate Refused(v: Volume, op: Op, s: Schedule) {
    match op
    case EnrollWith(a, m) => !Enroll(v, a, m, s).1.ok
    case EnrollP(a, passphrase) => !EnrollPassphrase(v, a, passphrase, s).1.ok
    case Open(name, a) => name !in v.active ==> !OpenVolume(v, name, a, s).1.ok
    case _ => true
  }

  /** What survives of the header: it commits to the same key, and has no keyslot it did not have. */
  ghost predicate NothingAdded(before: Header, h: Header) {
    h.digest == before.digest && forall k :: k in h.slots ==> k in before.slots && h.slots[k] == before.slots[k]
  }

  lemma StaleKey(v: Volume, a: Auth, s: Schedule)
    requires Stale(v)
    ensures var r := GetVolumeKey(v, a, s);
            Live(v.cached, r.0.now) ==> r.0.disk == v.disk && r.0.cached == v.cached
                                        && (r.1.Ok? ==> r.1.value != v.disk.value.header.digest)
  {
  }

  lemma StaleEnroll(v: Volume, a: Auth, p: Result<Prepared>, s: Schedule)
    requires Stale(v)
    ensures var r := EnrollToken(v, a, p, s);
            Live(v.cached, r.0.now) ==> !r.1.ok && r.0.disk == v.disk && r.0.cached == v.cached
  {
    StaleKey(v, a, s);
  }

  lemma StaleWipe(v: Volume, slot: int, s: Schedule)
    requires v.disk.Some?
    ensures var r := WipeGuarded(v, slot, s).0; r.disk.Some? && NothingAdded(v.disk.value.header, r.disk.value.header)
  {
    GuardOutcome(v, slot, s);
    WipeOutcome(v, slot, s);
  }

  lemma StaleStep(v: Volume, op: Op, s: Schedule)
    requires Stale(v) && LeavesCache(op) && Live(v.cached, Perform(v, op, s).now)
    ensures Refused(v, op, s)
    ensures var w := Perform(v, op, s);
            && w.cached == v.cached && w.disk.Some?
            && NothingAdded(v.disk.value.header, w.disk.value.header)
            && (!op.Wipe? ==> w.disk == v.disk)
  {
    match op
    case EnrollWith(a, m) =>
      var prepared := Prepare(v, m, s);
      StaleEnroll(prepared.0, a, prepared.1, s);
    case EnrollP(a, _) => StaleKey(v, a, s);
    case Wipe(a, slot) => StaleWipeOp(v, a, slot, s);
    case Open(_, a) => StaleKey(v, a, s);
    case _ =>
  }

  lemma StaleWipeOp(v: Volume, a: Auth, slot: int, s: Schedule)
    requires Stale(v) && Live(v.cached, WipeSlot(v, a, slot, s).0.now)
    ensures var w := WipeSlot(v, a, slot, s).0;
            w.cached == v.cached && w.disk.Some? && NothingAdded(v.disk.value.header, w.disk.value.header)
  {
    StaleKey(v, a, s);
    var (v1, key) := GetVolumeKey(v, a, s);
    if key.Ok? {
      StaleWipe(v1, slot, s);
      var w := WipeGuarded(v1, slot, s).0;
      assert w.(disk := v1.disk) == v1;
    }
  }

  lemma {:induction false} StaleStays(v: Volume, events: seq<Event>, w: Volume)
    requires Stale(v) && w == Run(v, events) && Live(v.cached, w.now)
    requires forall i :: 0 <= i < |events| ==> LeavesCache(events[i].op)
    ensures Stale(w) && w.cached == v.cached && NothingAdded(v.disk.value.header, w.disk.value.header)
  {
    if events != [] {
      var init, e := events[..|events| - 1], events[|events| - 1];
      var u := Run(v, init);
      TimeFlows(u, e.op, e.s);
      StaleStays(v, init, u);
      StaleStep(u, e.op, e.s);
    }
  }

  /**
   * The consequence of breaking coherence: while the stale entry lives, and no verification replaces it,
   * every enrollment and every open fails and no keyslot is ever added. Wipes alone still go through,
   * because they ask for the key without using it.
   */
  lemma {:induction false} StaleEntryBlocks(v: Volume, events: seq<Event>, w: Volume, op: Op, s: Schedule)
    requires Stale(v) && w == Run(v, events) && LeavesCache(op) && Live(v.cached, Perform(w, op, s).now)
    requires forall i :: 0 <= i < |events| ==> LeavesCache(events[i].op)
    ensures Refused(w, op, s) && w.disk.Some? && NothingAdded(v.disk.value.header, w.disk.value.header)
  {
    TimeFlows(w, op, s);
    StaleStays(v, events, w);
    StaleStep(w, op, s);
  }

  // ----- a lost key ----------------------------------------------------------------------------

  /** No keyslot, and not the header's key in the cache: stuck, or about to be once a stale entry dies. */
  ghost predicate Lost(v: Volume) {
    && v.disk.Some? && v.disk.value.header.slots == map[]
    && (Live(v.cached, v.now) ==> v.cached.value.key != v.disk.value.header.digest)
  }

  lemma LostKey(v: Volume, a: Auth, s: Schedule)
    requires Lost(v)
    ensures var r := GetVolumeKey(v, a, s);
            && Lost(r.0) && r.0.disk == v.disk && (r.1.Ok? ==> r.1.value != v.disk.value.header.digest)
  {
  }

  lemma LostEnroll(v: Volume, a: Auth, p: Result<Prepared>, s: Schedule)
    requires Lost(v)
    ensures var w := EnrollToken(v, a, p, s).0; Lost(w) && w.disk == v.disk
  {
    LostKey(v, a, s);
  }

  lemma LostWipe(v: Volume, a: Auth, slot: int, s: Schedule)
    requires Lost(v)
    ensures var w := WipeSlot(v, a, slot, s).0;
            Lost(w) && w.disk.value.header.digest == v.disk.value.header.digest
  {
    LostKey(v, a, s);
    var (v1, key) := GetVolumeKey(v, a, s);
    if key.Ok? {
      GuardOutcome(v1, slot, s);
      WipeOutcome(v1, slot, s);
      var w := WipeGuarded(v1, slot, s).0;
      assert w.(disk := v1.disk) == v1;
    }
  }

  lemma PerformLost(v: Volume, op: Op, s: Schedule)
    requires Lost(v) && !op.Format?
    ensures var w := Perform(v, op, s); Lost(w) && w.disk.value.header.digest == v.disk.value.header.digest
  {
    match op
    case EnrollWith(a, m) =>
      var prepared := Prepare(v, m, s);
      LostEnroll(prepared.0, a, prepared.1, s);
    case EnrollP(a, _) => LostKey(v, a, s);
    case Wipe(a, slot) => LostWipe(v, a, slot, s);
    case Open(_, a) => LostKey(v, a, s);
    case _ =>
  }

  /** Nothing but a format brings a lost volume back: no operation ever gives it a keyslot. */
  lemma {:induction false} LostIsAbsorbing(v: Volume, events: seq<Event>, w: Volume)
    requires Lost(v) && w == Run(v, events)
    requires forall i :: 0 <= i < |events| ==> !events[i].op.Format?
    ensures Lost(w) && w.disk.value.header.digest == v.disk.value.header.digest
  {
    if events != [] {
      var init, e := events[..|events| - 1], events[|events| - 1];
      LostIsAbsorbing(v, init, Run(v, init));
      PerformLost(Run(v, init), e.op, e.s);
    }
  }
}
