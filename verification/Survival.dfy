/**
 * What an enrollment leaves behind stays until its own slot is wiped or the volume formatted: the
 * keyslot, the token that names it, and so the recovery key or passphrase that opens it.
 */
module Survival {
  import opened Common
  import opened Text
  import opened Luks2
  import opened VolumeKeyCache
  import opened Lifecycle
  import opened Invariants
  import opened TokenInvariants
  import RecoveryKey

  /** An event that neither formats the volume nor asks for this slot to be wiped. */
  predicate Spares(e: Event, slot: nat) {
    !e.op.Format? && (e.op.Wipe? ==> e.op.slot != slot)
  }

  predicate HasSlot(h: Header, slot: nat, k: Keyslot) {
    slot in h.slots && h.slots[slot] == k
  }

  predicate HasToken(h: Header, id: nat, token: Token) {
    id in h.tokens && h.tokens[id] == token
  }

  ghost predicate NamesOnly(token: Token, slot: nat) {
    forall k :: Names(token, k) <==> k == slot
  }

  lemma SlotClosed(h: Header, e: Event, slot: nat, k: Keyslot)
    requires HasSlot(h, slot, k) && Spares(e, slot)
    ensures Closed(h, e.op, e.s, x => HasSlot(x, slot, k))
  {
  }

  lemma CurrentHeader(v: Volume, n: nat, p: Header -> bool)
    requires History(v, n, p) && v.disk.Some?
    ensures p(v.disk.value.header)
  {
  }

  lemma FromCurrent(v: Volume, n: nat, p: Header -> bool)
    requires v.disk.Some? && n == |v.disk.value.written| - 1
    requires v.disk.value.header == v.disk.value.written[n] && p(v.disk.value.header)
    ensures History(v, n, p)
  {
  }

  /** The keyslot survives, with its secret and the key it wraps. */
  lemma {:induction false} SlotSurvives(v: Volume, events: seq<Event>, w: Volume, slot: nat, k: Keyslot)
    requires History(v, 0, Wraps) && v.disk.Some? && HasSlot(v.disk.value.header, slot, k)
    requires w == Run(v, events)
    requires forall i :: 0 <= i < |events| ==> Spares(events[i], slot)
    ensures w.disk.Some? && HasSlot(w.disk.value.header, slot, k)
  {
    var n: nat := |v.disk.value.written| - 1;
    var ok := (x: Header) => HasSlot(x, slot, k);
    forall h, i | 0 <= i < |events| && (ok(h) || events[i].op.Format?)
      ensures Closed(h, events[i].op, events[i].s, ok)
    {
      SlotClosed(h, events[i], slot, k);
    }
    FromCurrent(v, n, ok);
    RunHistory(v, events, n, ok);
    CurrentHeader(w, n, ok);
  }

  lemma TokenEnrollOk(h: Header, key: Bytes, p: Prepared, s: Schedule, id: nat, token: Token)
    requires HasToken(h, id, token)
    ensures EnrollOk(h, key, p, s, x => HasToken(x, id, token))
  {
  }

  /** A wipe removes the token naming its own slot, hence not this one. */
  lemma TokenWipeOk(h: Header, target: int, s: Schedule, id: nat, token: Token, slot: nat)
    requires HasToken(h, id, token) && NamesOnly(token, slot) && target != slot
    ensures WipeOk(h, target, SeenToken(h, target, s), x => HasToken(x, id, token))
  {
    if SeenToken(h, target, s) >= 0 {
      var l :| l in Tokens(h) && l.id == SeenToken(h, target, s) && Names(l.token, target);
      assert l.id != id;
    }
  }

  lemma TokenClosed(h: Header, e: Event, id: nat, token: Token, slot: nat)
    requires HasToken(h, id, token) && Spares(e, slot) && NamesOnly(token, slot)
    ensures Closed(h, e.op, e.s, x => HasToken(x, id, token))
  {
    var ok := (x: Header) => HasToken(x, id, token);
    match e.op
    case EnrollWith(_, _) =>
      forall key, p
        ensures EnrollOk(h, key, p, e.s, ok)
      {
        TokenEnrollOk(h, key, p, e.s, id, token);
      }
    case Wipe(_, target) => TokenWipeOk(h, target, e.s, id, token, slot);
    case _ =>
  }

  lemma {:induction false} TokenSurvives(v: Volume, events: seq<Event>, w: Volume, id: nat, token: Token, slot: nat)
    requires History(v, 0, Wraps) && v.disk.Some? && HasToken(v.disk.value.header, id, token) && NamesOnly(token, slot)
    requires w == Run(v, events)
    requires forall i :: 0 <= i < |events| ==> Spares(events[i], slot)
    ensures w.disk.Some? && HasToken(w.disk.value.header, id, token)
  {
    var n: nat := |v.disk.value.written| - 1;
    var ok := (x: Header) => HasToken(x, id, token);
    forall h, i | 0 <= i < |events| && (ok(h) || events[i].op.Format?)
      ensures Closed(h, events[i].op, events[i].s, ok)
    {
      TokenClosed(h, events[i], id, token, slot);
    }
    FromCurrent(v, n, ok);
    RunHistory(v, events, n, ok);
    CurrentHeader(w, n, ok);
  }

  // ----- what an enrollment wrote --------------------------------------------------------------

  /** The header after an enrollment that was unlocked: both writes, the first alone, or neither. */
  lemma EnrollOutcome(v: Volume, key: Bytes, p: Prepared, s: Schedule)
    requires v.disk.Some?
    ensures var h, r := v.disk.value.header, EnrollWithKey(v, key, p, s);
            var added := key == h.digest && s.slot < SLOTS_MAX && s.slot !in h.slots && !s.fails(AddSlot);
            var named := s.token < TOKENS_MAX && s.token !in h.tokens && !s.fails(WriteToken);
            && (r.1.ok <==> added && named) && (r.1.ok ==> r.1.stdout == p.stdout)
            && r.0.disk.Some? && r.0.disk.value.header
               == h.(slots := if added then h.slots[s.slot := Keyslot(p.secret, h.digest)] else h.slots,
                     tokens := if added && named then h.tokens[s.token := Stamped(p.token, s.slot)] else h.tokens)
  {
  }

  // ----- a typed secret opens its slot until that slot is wiped --------------------------------

  lemma TypedUnlocks(v: Volume, slot: nat, secret: string, s: Schedule)
    requires v.disk.Some? && Wraps(v.disk.value.header) && !Live(v.cached, v.now + s.wait)
    requires HasSlot(v.disk.value.header, slot, Keyslot(secret, v.disk.value.header.digest))
    requires !s.fails(OpenForKey) && !s.keyGet(0)
    ensures GetVolumeKey(v, Auth("passphrase", secret, ""), s).1 == Ok(v.disk.value.header.digest)
  {
    var h := v.disk.value.header;
    assert Opens(h, slot, secret);
    var u := VolumeKeyGet(h, None, secret);
    assert u.Some? && u.value.key == h.digest;
  }

  lemma {:induction false} StillWraps(v: Volume, events: seq<Event>, w: Volume)
    requires History(v, 0, Wraps) && w == Run(v, events) && w.disk.Some?
    ensures Wraps(w.disk.value.header)
  {
    SlotsAlwaysWrap(v, events);
    CurrentHeader(w, 0, Wraps);
  }

  /** Whatever happened since, short of a format or a wipe of this slot, its secret yields the same key. */
  lemma {:induction false} SurvivorUnlocks(v: Volume, slot: nat, secret: string, after: seq<Event>, w: Volume,
                                           s: Schedule)
    requires w == Run(v, after)
    requires History(v, 0, Wraps) && v.disk.Some?
    requires HasSlot(v.disk.value.header, slot, Keyslot(secret, v.disk.value.header.digest))
    requires forall i :: 0 <= i < |after| ==> Spares(after[i], slot)
    requires !s.fails(OpenForKey) && !s.keyGet(0) && !Live(w.cached, w.now + s.wait)
    ensures GetVolumeKey(w, Auth("passphrase", secret, ""), s).1 == Ok(v.disk.value.header.digest)
  {
    SlotSurvives(v, after, w, slot, Keyslot(secret, v.disk.value.header.digest));
    StillWraps(v, after, w);
    TypedUnlocks(w, slot, secret, s);
  }

  lemma EnrolledSlot(v: Volume, a: Auth, p: Result<Prepared>, s: Schedule)
    requires EnrollToken(v, a, p, s).1.ok
    ensures v.disk.Some? && p.Ok? && EnrollToken(v, a, p, s).1.stdout == p.value.stdout
    ensures var w, digest := EnrollToken(v, a, p, s).0, v.disk.value.header.digest;
            && w.disk.Some? && w.disk.value.header.digest == digest
            && HasSlot(w.disk.value.header, s.slot, Keyslot(p.value.secret, digest))
  {
    EnrollOutcome(GetVolumeKey(v, a, s).0, GetVolumeKey(v, a, s).1.value, p.value, s);
  }

  /**
   * The recovery key reported by a successful enrollment, typed as a passphrase in any later state in
   * which its slot has not been wiped, yields the volume key the header had then.
   */
  lemma {:induction false} RecoveryKeyUnlocks(v0: Volume, a: Auth, raw: Bytes, enrolling: Schedule, v1: Volume,
                                              outcome: Triple, after: seq<Event>, v: Volume, s: Schedule)
    requires History(v0, 0, Wraps) && (v1, outcome) == Enroll(v0, a, ByRecoveryKey(raw), enrolling) && outcome.ok
    requires (forall i :: 0 <= i < |after| ==> Spares(after[i], enrolling.slot)) && v == Run(v1, after)
    requires !s.fails(OpenForKey) && !s.keyGet(0) && !Live(v.cached, v.now + s.wait)
    ensures outcome.stdout == RecoveryKey.MakeRecoveryKey(raw) && v0.disk.Some?
    ensures GetVolumeKey(v, Auth("passphrase", outcome.stdout, ""), s).1 == Ok(v0.disk.value.header.digest)
  {
    EnrolledSlot(v0, a, Prepare(v0, ByRecoveryKey(raw), enrolling).1, enrolling);
    EnrollWraps(v0, a, ByRecoveryKey(raw), enrolling);
    SurvivorUnlocks(v1, enrolling.slot, outcome.stdout, after, v, s);
  }

  lemma EnrollWraps(v: Volume, a: Auth, m: Modality, s: Schedule)
    requires History(v, 0, Wraps)
    ensures History(Enroll(v, a, m, s).0, 0, Wraps)
  {
    if v.disk.Some? {
      CurrentHeader(v, 0, Wraps);
      forall key, p ensures EnrollOk(v.disk.value.header, key, p, s, Wraps) {
        WrapsEnroll(v.disk.value.header, key, p, s);
      }
    }
    EnrollOpHistory(v, a, m, s, 0, Wraps);
  }
}
