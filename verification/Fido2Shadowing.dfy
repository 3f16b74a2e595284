/**
 * When a FIDO2 unlock fails although a sound credential is there. The chosen device is asked for one
 * credential after the other and the first answer is taken, so a credential whose keyslot is gone
 * shadows those behind it on the same device.
 */
module Fido2Shadowing {
  import opened Common
  import opened Luks2
  import opened VolumeKeyCache
  import opened Lifecycle
  import opened Invariants
  import opened TokenInvariants
  import opened Survival
  import opened EndToEnd
  import opened Fido2EndToEnd
  import opened Shadowing
  import Base64
  import Fido2

  /** The first answer of the chosen device opens a keyslot. */
  ghost predicate FirstAnswerOpens(h: Header, a: Answers, devices: nat, creds: nat) {
    var candidates := Fido2.Candidates(a, devices, creds);
    && candidates != []
    && var c := Fido2.Chosen(a, candidates); var k := Fido2.FirstSecret(a, c, 0);
       k < |c.creds| && OpensSome(h, a.secret(c.dev, c.creds[k]).value)
  }

  lemma DerivedIsAsserted(v: Volume, pin: string, s: Schedule)
    requires v.disk.Some? && NoFailure(s) && Honest(v, FIDO2, pin, s)
    ensures var refs := Fido2Refs(Tokens(v.disk.value.header));
            && (refs.Err? ==> s.derived.None?)
            && (refs.Ok? ==> var got := Fido2.Asserted(s.keys, s.devices, |refs.value|, pin);
                             s.derived == if got.None? then None else Some(Base64.Encode(got.value)))
  {
  }

  /**
   * The exact condition: with no failing call, an uncached FIDO2 unlock of any well-formed header succeeds
   * iff its FIDO2 tokens parse, the PIN can be sent, and the first answer of the device chosen opens a
   * keyslot.
   */
  lemma UnlocksIffFirstAnswerOpens(v: Volume, pin: string, s: Schedule)
    requires v.disk.Some? && WellFormed(v.disk.value.header) && NoFailure(s) && Honest(v, FIDO2, pin, s)
    requires !Live(v.cached, v.now + s.wait)
    ensures GetVolumeKey(v, Auth(FIDO2, "", pin), s).1.Ok?
       <==> var refs := Fido2Refs(Tokens(v.disk.value.header));
            && refs.Ok? && Fido2.Sendable(pin)
            && FirstAnswerOpens(v.disk.value.header, s.keys, s.devices, |refs.value|)
  {
    UnlocksIffDerivedOpens(v, FIDO2, pin, s);
    DerivedIsAsserted(v, pin, s);
  }

  // ----- a run that leads to a failing unlock --------------------------------------------------

  function Written(e: Fido2Enrollment, slot: nat): Token {
    Stamped(Fido2Token(e.credential, e.salt), slot)
  }

  /** While the volume key is cached, an enrollment whose calls go through adds exactly its slot and its token. */
  lemma CachedKeyEnrollment(v: Volume, at: nat, a: Auth, check: Answers, dev: nat, e: Fido2Enrollment, s: Schedule,
                            w: Volume)
    requires v.disk.Some? && v.cached == Some(Entry(v.disk.value.header.digest, at)) && v.now + s.wait < at + TTL
    requires ValidMethod(a.unlock) && w == Enroll(v, a, ByFido2(check, dev, Ok(e)), s).0
    requires !AlreadyEnrolled(v, check, dev, s)
    requires !s.fails(AddSlot) && s.slot < SLOTS_MAX && s.slot !in v.disk.value.header.slots
    requires !s.fails(WriteToken) && s.token < TOKENS_MAX && s.token !in v.disk.value.header.tokens
    ensures var h := v.disk.value.header;
            && w.cached == v.cached && w.now == v.now + s.wait && w.disk.Some?
            && w.disk.value.header
               == h.(slots := h.slots[s.slot := Keyslot(Base64.Encode(e.hmacSecret), h.digest)],
                     tokens := h.tokens[s.token := Written(e, s.slot)])
  {
    CachedPrepared(v, at, a, PrepareFido2(Ok(e)).value, s);
  }

  lemma {:induction false} RefFirst(l: Listed, rest: seq<Listed>, x: Fido2Ref, xs: seq<Fido2Ref>)
    requires l.token.kind == FIDO2 && Fido2RefOf(l.token) == Ok(x) && Fido2Refs(rest) == Ok(xs)
    ensures Fido2Refs([l] + rest) == Ok([x] + xs)
  {
    assert ([l] + rest)[1..] == rest;
  }

  lemma TwoKeysListed(h: Header, eA: Fido2Enrollment, slotA: nat, eB: Fido2Enrollment, slotB: nat)
    requires h.tokens.Keys == {0, 1} && h.tokens[0] == Written(eA, slotA) && h.tokens[1] == Written(eB, slotB)
    ensures Fido2Refs(Tokens(h)).Ok? && |Fido2Refs(Tokens(h)).value| == 2
  {
    var a, b := Listed(0, h.tokens[0]), Listed(1, h.tokens[1]);
    var x, y := Fido2Ref(eA.credential, eA.salt), Fido2Ref(eB.credential, eB.salt);
    Fido2EndToEnd.TokenReadsBack(eA.credential, eA.salt, h.tokens[0]);
    Fido2EndToEnd.TokenReadsBack(eB.credential, eB.salt, h.tokens[1]);
    TwoListed(h);
    RefFirst(b, [], y, []);
    assert [b] + [] == [b] && [y] + [] == [y];
    RefFirst(a, [b], x, [y]);
  }

  /** Of two credentials, the first answered first: if its secret opens nothing, the second is shadowed. */
  lemma {:induction false} FirstAnswerShadows(h: Header, a: Answers, devices: nat, secretA: Bytes)
    requires Fido2.Candidates(a, devices, 2) != []
    requires var c := Fido2.Chosen(a, Fido2.Candidates(a, devices, 2));
             0 in c.creds && a.secret(c.dev, 0) == Ok(secretA)
    requires !OpensSome(h, secretA)
    ensures !FirstAnswerOpens(h, a, devices, 2)
  {
    var c := Fido2.Chosen(a, Fido2.Candidates(a, devices, 2));
    var i :| 0 <= i < |c.creds| && c.creds[i] == 0;
    assert c.creds == Fido2.MatchingCreds(a, c.dev, 2);
    assert c.creds[0] <= c.creds[i];
  }

  lemma OrphanedKeyFails(v: Volume, slotA: nat, eA: Fido2Enrollment, slotB: nat, eB: Fido2Enrollment, pin: string,
                         s: Schedule)
    requires v.disk.Some? && WellFormed(v.disk.value.header) && eA.hmacSecret != eB.hmacSecret
    requires var h := v.disk.value.header;
             && h.slots == map[slotB := Keyslot(Base64.Encode(eB.hmacSecret), h.digest)]
             && h.tokens.Keys == {0, 1} && h.tokens[0] == Written(eA, slotA) && h.tokens[1] == Written(eB, slotB)
    requires Fido2.Candidates(s.keys, s.devices, 2) != []
    requires var c := Fido2.Chosen(s.keys, Fido2.Candidates(s.keys, s.devices, 2));
             0 in c.creds && s.keys.secret(c.dev, 0) == Ok(eA.hmacSecret)
    requires NoFailure(s) && Honest(v, FIDO2, pin, s) && !Live(v.cached, v.now + s.wait)
    ensures OpensSome(v.disk.value.header, eB.hmacSecret)
    ensures GetVolumeKey(v, Auth(FIDO2, "", pin), s).1.Err?
  {
    var h := v.disk.value.header;
    TwoKeysListed(h, eA, slotA, eB, slotB);
    OnlyOwnSecretOpens(h, slotB, eA.hmacSecret, eB.hmacSecret);
    FirstAnswerShadows(h, s.keys, s.devices, eA.hmacSecret);
    UnlocksIffFirstAnswerOpens(v, pin, s);
  }

  lemma TwoKeysEnrolled(v1: Volume, key: Bytes, a: Auth, checkA: Answers, devA: nat, eA: Fido2Enrollment, sA: Schedule,
                        v2: Volume, checkB: Answers, devB: nat, eB: Fido2Enrollment, sB: Schedule, v3: Volume)
    requires v1.disk.Some? && v1.disk.value.header == Fresh(key) && v1.cached == Some(Entry(key, v1.now))
    requires v2 == Enroll(v1, a, ByFido2(checkA, devA, Ok(eA)), sA).0 && !AlreadyEnrolled(v1, checkA, devA, sA)
    requires v3 == Enroll(v2, a, ByFido2(checkB, devB, Ok(eB)), sB).0 && !AlreadyEnrolled(v2, checkB, devB, sB)
    requires ValidMethod(a.unlock) && sA.wait + sB.wait < TTL
    requires !sA.fails(AddSlot) && !sA.fails(WriteToken) && !sB.fails(AddSlot) && !sB.fails(WriteToken)
    requires sA.slot < SLOTS_MAX && sB.slot < SLOTS_MAX && sA.slot != sB.slot && sA.token == 0 && sB.token == 1
    ensures BothEnrolled(v3, v1.now, key, sA.slot, eA.hmacSecret, Written(eA, sA.slot),
                         sB.slot, eB.hmacSecret, Written(eB, sB.slot))
    ensures v3.now == v1.now + sA.wait + sB.wait
  {
    CachedKeyEnrollment(v1, v1.now, a, checkA, devA, eA, sA, v2);
    CachedKeyEnrollment(v2, v1.now, a, checkB, devB, eB, sB, v3);
  }

  /**
   * A run that leads there, whatever came before: format without a keyslot, enroll two credentials of one
   * device - the second time it does not confirm the first - and wipe the first while its token cannot be
   * looked up. The second's token and keyslot are intact, and no call fails; but the device answers for
   * the first, and the unlock fails.
   */
  lemma {:induction false} Fido2ShadowingIsReachable(before: seq<Event>, key: Bytes, f: Schedule, v1: Volume, a: Auth,
                                                     checkA: Answers, devA: nat, eA: Fido2Enrollment, sA: Schedule,
                                                     v2: Volume, checkB: Answers, devB: nat, eB: Fido2Enrollment,
                                                     sB: Schedule, v3: Volume, w: Schedule, v: Volume, pin: string,
                                                     s: Schedule)
    requires !f.fails(InitFormat) && !f.fails(WriteFormat) && v1 == FormatContainer(Run(START, before), "", key, f).0
    requires v2 == Enroll(v1, a, ByFido2(checkA, devA, Ok(eA)), sA).0 && !AlreadyEnrolled(v1, checkA, devA, sA)
    requires v3 == Enroll(v2, a, ByFido2(checkB, devB, Ok(eB)), sB).0 && !AlreadyEnrolled(v2, checkB, devB, sB)
    requires v == WipeSlot(v3, a, sA.slot, w).0
    requires ValidMethod(a.unlock) && sA.wait + sB.wait + w.wait < TTL && eA.hmacSecret != eB.hmacSecret
    requires !sA.fails(AddSlot) && !sA.fails(WriteToken) && !sB.fails(AddSlot) && !sB.fails(WriteToken)
    requires sA.slot < SLOTS_MAX && sB.slot < SLOTS_MAX && sA.slot != sB.slot && sA.token == 0 && sB.token == 1
    requires w.fails(FindRead) && !w.fails(GuardRead) && !w.fails(DropSlot)
    requires Fido2.Candidates(s.keys, s.devices, 2) != []
    requires var c := Fido2.Chosen(s.keys, Fido2.Candidates(s.keys, s.devices, 2));
             0 in c.creds && s.keys.secret(c.dev, 0) == Ok(eA.hmacSecret)
    requires NoFailure(s) && Honest(v, FIDO2, pin, s) && s.wait >= TTL
    ensures v.disk.Some? && HasToken(v.disk.value.header, 1, Written(eB, sB.slot))
    ensures OpensSome(v.disk.value.header, eB.hmacSecret)
    ensures GetVolumeKey(v, Auth(FIDO2, "", pin), s).1.Err?
  {
    var tA, tB := Written(eA, sA.slot), Written(eB, sB.slot);
    KeylessFormat(Run(START, before), key, f);
    TwoKeysEnrolled(v1, key, a, checkA, devA, eA, sA, v2, checkB, devB, eB, sB, v3);
    WipedAlone(v3, v1.now, key, sA.slot, eA.hmacSecret, tA, sB.slot, eB.hmacSecret, tB, a, w, v);
    SmallHeader(v.disk.value.header, key, sB.slot, eB.hmacSecret, tA, tB);
    OrphanedKeyFails(v, sA.slot, eA, sB.slot, eB, pin, s);
  }
}
