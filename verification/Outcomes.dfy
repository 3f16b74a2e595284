/**
 * What each operation on a volume answers and leaves, in terms of the header, the cache entry and the
 * mapping table alone: when it succeeds, and exactly what a success or a failure did.
 */
module Outcomes {
  import opened Common
  import opened Text
  import opened Luks2
  import opened VolumeKeyCache
  import opened Lifecycle
  import opened Mappings
  import opened Tpm2
  import opened Invariants
  import opened Survival
  import RecoveryKey
  import Base64
  import Pcrs
  import Metadata
  import Fido2

  // ----- formatting ----------------------------------------------------------------------------

  /** A format with a passphrase leaves a header with that one keyslot, or says that it did not. */
  lemma PassphraseFormatOutcome(v: Volume, passphrase: string, key: Bytes, s: Schedule)
    requires passphrase != ""
    ensures var r := FormatContainer(v, passphrase, key, s);
            && (r.1.Ok? <==> && !s.fails(InitFormat) && !s.fails(WriteFormat) && !s.fails(FormatSlot) && s.slot < 32)
            && (r.1.Ok? ==> && r.1.value == s.slot && r.0.disk.Some?
                            && r.0.disk.value.header == Header(key, map[s.slot := Keyslot(passphrase, key)], map[]))
            && (s.fails(InitFormat) || s.fails(WriteFormat) ==> r.0 == v)
            && (r.1.Err? && !s.fails(InitFormat) && !s.fails(WriteFormat) ==>
                  r.0.disk.Some? && r.0.disk.value.header == Header(key, map[], map[]))
            && r.0.(disk := v.disk) == v
  {
  }

  /** A keyless one leaves no keyslot, and its key in the cache, stamped with the present. */
  lemma KeylessFormatOutcome(v: Volume, key: Bytes, s: Schedule)
    ensures var r := FormatContainer(v, "", key, s);
            && (r.1.Ok? <==> !s.fails(InitFormat) && !s.fails(WriteFormat))
            && (r.1.Ok? ==> && r.1.value == -1 && r.0.now >= v.now && r.0.cached == Some(Entry(key, r.0.now))
                            && r.0.disk.Some? && r.0.disk.value.header == Header(key, map[], map[]))
            && (r.1.Err? ==> r.0 == v)
            && r.0.objects == v.objects && r.0.active == v.active
  {
  }

  lemma FormatWraps(v: Volume, passphrase: string, key: Bytes, s: Schedule)
    requires History(v, 0, Wraps)
    ensures History(FormatContainer(v, passphrase, key, s).0, 0, Wraps)
  {
    WrapsClosed(Fresh(key), Format(passphrase, key), s);
    FormatHistory(v, passphrase, key, s, 0, Wraps);
  }

  /**
   * From format to unlock: whatever came before, the passphrase of a successful format, typed in any later
   * state in which its slot was not wiped, yields the volume key.
   */
  lemma {:induction false} FormattedPassphraseUnlocks(before: seq<Event>, passphrase: string, key: Bytes,
                                                      formatting: Schedule, v0: Volume, after: seq<Event>, v: Volume,
                                                      s: Schedule)
    requires passphrase != "" && FormatContainer(Run(START, before), passphrase, key, formatting).1.Ok?
    requires v0 == FormatContainer(Run(START, before), passphrase, key, formatting).0 && v == Run(v0, after)
    requires forall i :: 0 <= i < |after| ==> Spares(after[i], formatting.slot)
    requires !s.fails(OpenForKey) && !s.keyGet(0) && !Live(v.cached, v.now + s.wait)
    ensures GetVolumeKey(v, Auth("passphrase", passphrase, ""), s).1 == Ok(key)
  {
    PassphraseFormatOutcome(Run(START, before), passphrase, key, formatting);
    SlotsAlwaysWrap(START, before);
    FormatWraps(Run(START, before), passphrase, key, formatting);
    SurvivorUnlocks(v0, formatting.slot, passphrase, after, v, s);
  }

  // ----- unlocking and verifying ---------------------------------------------------------------

  /** A live entry answers, whatever the method and the secret, and nothing is asked of the header. */
  lemma HitOutcome(v: Volume, a: Auth, s: Schedule)
    requires a.unlock in {"passphrase", "systemd-fido2", "systemd-tpm2"} && Live(v.cached, v.now + s.wait)
    ensures GetVolumeKey(v, a, s) == (v.(now := v.now + s.wait), Ok(v.cached.value.key))
  {
  }

  /** Without one, a passphrase unlocks exactly if it opens a keyslot, and the key is then cached. */
  lemma PassphraseOutcome(v: Volume, passphrase: string, pin: string, s: Schedule)
    requires v.disk.Some? && WellFormed(v.disk.value.header) && !Live(v.cached, v.now + s.wait)
    ensures var h, r := v.disk.value.header, GetVolumeKey(v, Auth("passphrase", passphrase, pin), s);
            && (r.1.Ok? <==> !s.fails(OpenForKey) && !s.keyGet(0) && exists k: nat :: Opens(h, k, passphrase))
            && (r.1.Ok? ==> r.1.value == h.digest && r.0.now == v.now + s.wait + s.work
                            && r.0.cached == Some(Entry(h.digest, r.0.now)))
            && (r.1.Err? ==> r.0.now == v.now + s.wait && r.0.cached.None?)
            && r.0.disk == v.disk && r.0.objects == v.objects && r.0.active == v.active
  {
    GetVolumeKeyOnMiss(v, Auth("passphrase", passphrase, pin), s);
    var u := VolumeKeyGet(v.disk.value.header, None, passphrase);
    assert u.Some? ==> Opens(v.disk.value.header, u.value.slot, passphrase);
  }

  /** Through a token, once its secret is derived: whatever slots the tokens record, it is enough that one opens. */
  lemma TokenOutcome(v: Volume, kind: string, passphrase: string, pin: string, s: Schedule)
    requires v.disk.Some? && WellFormed(v.disk.value.header) && !Live(v.cached, v.now + s.wait)
    requires kind == "systemd-fido2" || kind == "systemd-tpm2"
    requires forall call :: !s.fails(call)
    requires forall i :: !s.keyGet(i)
    ensures var h, r := v.disk.value.header, GetVolumeKey(v, Auth(kind, passphrase, pin), s);
            && (r.1.Ok? <==> s.derived.Some? && exists k: nat :: Opens(h, k, s.derived.value))
            && (r.1.Ok? ==> r.1.value == h.digest && r.0.now == v.now + s.wait + s.work
                            && r.0.cached == Some(Entry(h.digest, r.0.now)))
            && (r.1.Err? ==> r.0.now == v.now + s.wait && r.0.cached.None?)
            && r.0.disk == v.disk && r.0.objects == v.objects && r.0.active == v.active
  {
    GetVolumeKeyOnMiss(v, Auth(kind, passphrase, pin), s);
    if s.derived.Some? {
      TargetedNeverWorse(v.disk.value.header, kind, s.derived.value, true, s.keyGet);
    }
  }

  /** A verified passphrase reports a slot it opens and leaves the key in the cache; another changes nothing. */
  lemma VerifyPassphraseOutcome(v: Volume, passphrase: string, s: Schedule)
    requires v.disk.Some? && WellFormed(v.disk.value.header)
    ensures var h, r := v.disk.value.header, VerifyPassphrase(v, passphrase, s);
            && (r.1.Some? <==> !s.fails(OpenForKey) && !s.keyGet(0) && exists k: nat :: Opens(h, k, passphrase))
            && (r.1.Some? ==> && Opens(h, r.1.value, passphrase) && r.0.now == v.now + s.work
                              && r.0 == v.(cached := Some(Entry(h.digest, r.0.now)), now := r.0.now))
            && (r.1.None? ==> r.0 == v)
  {
  }

  /** The same through a token, once its secret is derived. */
  lemma VerifyTokenOutcome(v: Volume, kind: string, s: Schedule)
    requires v.disk.Some? && WellFormed(v.disk.value.header)
    requires forall call :: !s.fails(call)
    requires forall i :: !s.keyGet(i)
    ensures var h, r := v.disk.value.header, VerifyToken(v, kind, s);
            && (r.1.Some? <==> && kind in {"systemd-fido2", "systemd-tpm2"} && s.derived.Some?
                               && exists k: nat :: Opens(h, k, s.derived.value))
            && (r.1.Some? ==> && Opens(h, r.1.value, s.derived.value) && r.0.now == v.now + s.work
                              && r.0 == v.(cached := Some(Entry(h.digest, r.0.now)), now := r.0.now))
            && (r.1.None? ==> r.0 == v)
  {
    if s.derived.Some? && kind in {FIDO2, TPM2} {
      var h, pw := v.disk.value.header, s.derived.value;
      TargetedNeverWorse(h, kind, pw, true, s.keyGet);
      assert TokenUnlock(v, kind, s) == Extracted(h, kind, pw, true, s.keyGet);
    }
  }

  /**
   * One verification serves what follows: for two minutes by the clock every method gets the header's key,
   * whatever its secret, so that no second touch or unseal is needed.
   */
  lemma VerifiedServes(v: Volume, passphrase: string, s: Schedule, a: Auth, next: Schedule)
    requires v.disk.Some? && WellFormed(v.disk.value.header) && !s.fails(OpenForKey) && !s.keyGet(0)
    requires exists k: nat :: Opens(v.disk.value.header, k, passphrase)
    requires a.unlock in {"passphrase", "systemd-fido2", "systemd-tpm2"} && next.wait < 120_000_000_000
    ensures GetVolumeKey(Perform(v, Verify(passphrase), s), a, next).1 == Ok(v.disk.value.header.digest)
  {
    VerifyPassphraseOutcome(v, passphrase, s);
    HitOutcome(Perform(v, Verify(passphrase), s), a, next);
  }

  /** So does one through a token. */
  lemma VerifiedTokenServes(v: Volume, kind: string, pin: string, s: Schedule, a: Auth, next: Schedule)
    requires v.disk.Some? && WellFormed(v.disk.value.header) && kind in {"systemd-fido2", "systemd-tpm2"}
    requires forall call :: !s.fails(call)
    requires forall i :: !s.keyGet(i)
    requires s.derived.Some? && exists k: nat :: Opens(v.disk.value.header, k, s.derived.value)
    requires a.unlock in {"passphrase", "systemd-fido2", "systemd-tpm2"} && next.wait < 120_000_000_000
    ensures GetVolumeKey(Perform(v, UnlockWithToken(kind, pin), s), a, next).1 == Ok(v.disk.value.header.digest)
  {
    VerifyTokenOutcome(v, kind, s);
    HitOutcome(Perform(v, UnlockWithToken(kind, pin), s), a, next);
  }

  // ----- enrolling -----------------------------------------------------------------------------

  /** A passphrase is enrolled exactly if the header's own key is at hand and a free slot can be written. */
  lemma PassphraseEnrollmentOutcome(v: Volume, a: Auth, passphrase: string, s: Schedule)
    ensures var r, key := EnrollPassphrase(v, a, passphrase, s), GetVolumeKey(v, a, s).1;
            && (r.1.ok <==> && key.Ok? && v.disk.Some? && key.value == v.disk.value.header.digest
                            && !s.fails(AddSlot) && s.slot < 32 && s.slot !in v.disk.value.header.slots)
            && (r.1.ok ==> var h := v.disk.value.header;
                           && r.0.disk.Some?
                           && r.0.disk.value.header == h.(slots := h.slots[s.slot := Keyslot(passphrase, h.digest)]))
            && (!r.1.ok ==> r.0.disk == v.disk)
            && r.0.objects == v.objects && r.0.active == v.active
  {
  }

  lemma EnrollPassphraseWraps(v: Volume, a: Auth, passphrase: string, s: Schedule)
    requires History(v, 0, Wraps)
    ensures History(EnrollPassphrase(v, a, passphrase, s).0, 0, Wraps)
  {
    if v.disk.Some? {
      CurrentHeader(v, 0, Wraps);
      forall key ensures AddOk(v.disk.value.header, key, passphrase, s, Wraps) {
        WrapsAdd(v.disk.value.header, key, passphrase, s);
      }
    }
    EnrollPassphraseHistory(v, a, passphrase, s, 0, Wraps);
  }

  /** From enrollment to unlock: the new passphrase, typed while its slot is spared, yields the volume key. */
  lemma {:induction false} EnrolledPassphraseUnlocks(v0: Volume, a: Auth, passphrase: string, enrolling: Schedule,
                                                     v1: Volume, after: seq<Event>, v: Volume, s: Schedule)
    requires History(v0, 0, Wraps) && v1 == EnrollPassphrase(v0, a, passphrase, enrolling).0
    requires EnrollPassphrase(v0, a, passphrase, enrolling).1.ok && v == Run(v1, after)
    requires forall i :: 0 <= i < |after| ==> Spares(after[i], enrolling.slot)
    requires !s.fails(OpenForKey) && !s.keyGet(0) && !Live(v.cached, v.now + s.wait)
    ensures v0.disk.Some?
    ensures GetVolumeKey(v, Auth("passphrase", passphrase, ""), s).1 == Ok(v0.disk.value.header.digest)
  {
    PassphraseEnrollmentOutcome(v0, a, passphrase, enrolling);
    EnrollPassphraseWraps(v0, a, passphrase, enrolling);
    SurvivorUnlocks(v1, enrolling.slot, passphrase, after, v, s);
  }

  /** The steps all three modalities with a token share: when they succeed, and the header they leave. */
  lemma TokenEnrollmentOutcome(v: Volume, a: Auth, p: Prepared, s: Schedule)
    ensures var r, key := EnrollToken(v, a, Ok(p), s), GetVolumeKey(v, a, s).1;
            && (r.1.ok <==> && key.Ok? && v.disk.Some? && key.value == v.disk.value.header.digest
                            && !s.fails(AddSlot) && s.slot < 32 && s.slot !in v.disk.value.header.slots
                            && !s.fails(WriteToken) && s.token < 32 && s.token !in v.disk.value.header.tokens)
            && (r.1.ok ==> var h := v.disk.value.header;
                           && r.1.stdout == p.stdout && r.0.disk.Some?
                           && r.0.disk.value.header.digest == h.digest
                           && r.0.disk.value.header.slots == h.slots[s.slot := Keyslot(p.secret, h.digest)]
                           && r.0.disk.value.header.tokens
                              == h.tokens[s.token := Token(p.token.kind, [Show(s.slot)], p.token.fields)])
            && (key.Err? ==> r.0.disk == v.disk)
            && r.0.objects == v.objects && r.0.active == v.active
  {
  }

  /** A recovery key: a slot made of the reported text, and a token that carries its type and slot and nothing else. */
  lemma RecoveryEnrollmentOutcome(v: Volume, a: Auth, raw: Bytes, s: Schedule)
    ensures var r, key := Enroll(v, a, ByRecoveryKey(raw), s), RecoveryKey.MakeRecoveryKey(raw);
            && (r.1.ok <==> EnrollToken(v, a, Ok(Prepared(key, key, Token("systemd-recovery", [], map[]))), s).1.ok)
            && (r.1.ok ==> && r.1.stdout == key && r.0.disk.Some?
                           && s.slot in r.0.disk.value.header.slots && s.token in r.0.disk.value.header.tokens
                           && r.0.disk.value.header.slots[s.slot].secret == key
                           && r.0.disk.value.header.tokens[s.token]
                              == Token("systemd-recovery", [Show(s.slot)], map[]))
  {
    TokenEnrollmentOutcome(v, a, Prepared(RecoveryKey.MakeRecoveryKey(raw), RecoveryKey.MakeRecoveryKey(raw),
                                          Token("systemd-recovery", [], map[])), s);
  }

  /** A security key: a slot made of the encoded secret, and a token that holds the encoded credential and salt. */
  lemma KeyEnrollmentOutcome(v: Volume, a: Auth, check: Answers, dev: nat, e: Fido2Enrollment, s: Schedule)
    requires !AlreadyEnrolled(v, check, dev, s)
    requires Enroll(v, a, ByFido2(check, dev, Ok(e)), s).1.ok
    ensures var w := Enroll(v, a, ByFido2(check, dev, Ok(e)), s).0;
            && w.disk.Some? && s.slot in w.disk.value.header.slots && s.token in w.disk.value.header.tokens
            && w.disk.value.header.slots[s.slot].secret == Base64.Encode(e.hmacSecret)
            && var t := w.disk.value.header.tokens[s.token];
               && t.kind == "systemd-fido2" && t.keyslots == [Show(s.slot)]
               && Fido2RefOf(t) == Ok(Fido2Ref(e.credential, e.salt))
  {
    EnrollKeyIsToken(v, a, check, dev, Ok(e), s);
    var p := PrepareFido2(Ok(e)).value;
    TokenEnrollmentOutcome(v, a, p, s);
    Metadata.Fido2RefIff(Stamped(p.token, s.slot), Fido2Ref(e.credential, e.salt));
  }

  /** What a TPM2 token holds: the blob under both spellings, the registers, the SHA-256 bank and the PIN flag. */
  lemma {:induction false} Tpm2TokenFields(blob: Bytes, pcrs: seq<int>, pin: bool)
    ensures var t := Tpm2Token(blob, pcrs, pin); var f := t.fields;
            && t.kind == "systemd-tpm2"
            && Tpm2BlobDash in f && f[Tpm2BlobDash] == String(Base64.Encode(blob))
            && Tpm2BlobUnderscore in f && f[Tpm2BlobUnderscore] == String(Base64.Encode(blob))
            && Tpm2PcrBank in f && f[Tpm2PcrBank] == String("sha256") && Tpm2Pin in f && f[Tpm2Pin] == Bool(pin)
            && Tpm2Pcrs in f && f[Tpm2Pcrs].Array? && |f[Tpm2Pcrs].items| == |pcrs|
            && forall i :: 0 <= i < |pcrs| ==> f[Tpm2Pcrs].items[i] == Number(pcrs[i])
  {
  }

  /** A TPM2 enrollment: a slot made of the encoded secret, and the token of the sealed blob and its registers. */
  lemma {:induction false} Tpm2EnrollmentOutcome(v: Volume, a: Auth, pcrs: string, pin: string, secret: Bytes,
                                                 s: Schedule)
    requires Enroll(v, a, ByTpm2(pcrs, pin, secret), s).1.ok
    ensures var w, sealed := Enroll(v, a, ByTpm2(pcrs, pin, secret), s).0,
                             Sealing(v.objects, secret, pcrs, pin, s.pcr, s.seal, s.priv, s.pub);
            && sealed.1.Ok? && Pcrs.Indices(Pcrs.Segments(pcrs)).Ok? && w.objects == sealed.0
            && w.disk.Some? && s.slot in w.disk.value.header.slots && s.token in w.disk.value.header.tokens
            && w.disk.value.header.slots[s.slot].secret == Base64.Encode(secret)
            && w.disk.value.header.tokens[s.token]
               == Stamped(Tpm2Token(sealed.1.value, Pcrs.Indices(Pcrs.Segments(pcrs)).value, pin != ""), s.slot)
  {
    SealingFacts(v.objects, secret, pcrs, pin, s.pcr, s.seal, s.priv, s.pub);
    Pcrs.TokenListAgrees(Pcrs.Segments(pcrs));
    var prepared := Prepare(v, ByTpm2(pcrs, pin, secret), s);
    TokenEnrollmentOutcome(prepared.0, a, prepared.1.value, s);
  }

  /** A security key is refused as enrolled exactly if it opens and confirms a listed credential, by return code. */
  lemma AlreadyEnrolledIff(v: Volume, check: Answers, dev: nat, s: Schedule)
    ensures AlreadyEnrolled(v, check, dev, s)
       <==> && !s.fails(ProbeRead) && v.disk.Some? && Fido2Refs(Tokens(v.disk.value.header)).Ok?
            && check.opens(dev)
            && exists c: nat :: && c < |Fido2Refs(Tokens(v.disk.value.header)).value|
                                && Fido2.ConfirmingCode(check.probe(dev, c))
  {
    if v.disk.Some? && Fido2Refs(Tokens(v.disk.value.header)).Ok? {
      Fido2.EnrolledByCode(check, dev, |Fido2Refs(Tokens(v.disk.value.header)).value|);
    }
  }

  lemma KeyRefusedIff(v: Volume, a: Auth, check: Answers, dev: nat, e: Result<Fido2Enrollment>, s: Schedule)
    ensures var r := Enroll(v, a, ByFido2(check, dev, e), s);
            && (r.1.stderr == "This FIDO2 token is already enrolled on this volume"
                <==> AlreadyEnrolled(v, check, dev, s))
            && (AlreadyEnrolled(v, check, dev, s) ==> r.0 == v && !r.1.ok)
  {
    EnrollKeyIsToken(v, a, check, dev, e, s);
    var t := EnrollToken(v, a, PrepareFido2(e), s).1;
    assert |t.stderr| < 20;
  }

  /** Setting a token adds it under the library's id, replaces the one named, or removes it, and nothing else. */
  lemma SetTokenOutcome(v: Volume, id: int, token: Option<Token>, s: Schedule)
    requires v.disk.Some? && !s.fails(WriteToken) && !s.fails(DropToken)
    ensures var h, r := v.disk.value.header, SetToken(v, id, token, s);
            && (token.Some? && id < 0 ==> (r.1.Ok? <==> s.token < 32 && s.token !in h.tokens))
            && (token.Some? && id >= 0 ==> (r.1.Ok? <==> id < 32))
            && (token.None? ==> (r.1.Ok? <==> id >= 0 && id in h.tokens))
            && (r.1.Ok? ==> && r.1.value == (if token.Some? && id < 0 then s.token else id) && r.1.value >= 0
                            && r.0.disk.Some?
                            && r.0.disk.value.header
                               == h.(tokens := if token.Some? then h.tokens[r.1.value := token.value]
                                               else h.tokens - {r.1.value}))
            && (r.1.Err? ==> r.0 == v)
            && r.0.(disk := v.disk) == v
  {
  }

  // ----- wiping --------------------------------------------------------------------------------

  /**
   * A wipe whose calls go through succeeds exactly if the caller unlocks and the slot exists besides another;
   * then that slot is gone, and the first token naming it, and nothing else.
   */
  lemma {:induction false} WipeSlotOutcome(v: Volume, a: Auth, slot: int, s: Schedule)
    requires v.disk.Some? && forall call :: !s.fails(call)
    ensures var h, r, key := v.disk.value.header, WipeSlot(v, a, slot, s), GetVolumeKey(v, a, s).1;
            var id := FirstNaming(Tokens(h), slot);
            && (r.1.ok <==> key.Ok? && slot >= 0 && slot in h.slots && exists k :: k in h.slots && k != slot)
            && (r.1.ok ==> && r.0.disk.Some?
                           && r.0.disk.value.header
                              == h.(slots := h.slots - {slot}, tokens := if id < 0 then h.tokens else h.tokens - {id}))
            && (key.Err? || h.slots.Keys == {slot} ==> r.0.disk == v.disk)
            && r.0.objects == v.objects && r.0.active == v.active
  {
    var h, key := v.disk.value.header, GetVolumeKey(v, a, s);
    if key.1.Ok? {
      GuardOutcome(key.0, slot, s);
      WipeOutcome(key.0, slot, s);
      SlotBesides(h, slot);
      FirstNamingIsListed(h, slot);
    }
  }

  lemma SlotBesides(h: Header, slot: int)
    ensures slot >= 0 && slot in h.slots ==> (h.slots.Keys != {slot} <==> exists k :: k in h.slots && k != slot)
  {
    if slot >= 0 && slot in h.slots && forall k :: k in h.slots ==> k == slot {
      assert h.slots.Keys == {slot as nat};
    }
  }

  lemma {:induction false} FirstNamingIsListed(h: Header, slot: int)
    ensures var id := FirstNaming(Tokens(h), slot); id >= 0 ==> id in h.tokens
  {
  }

  // ----- opening -------------------------------------------------------------------------------

  /** When an open succeeds, and that a success means an active mapping. */
  lemma OpenOutcome(v: Volume, name: string, a: Auth, s: Schedule)
    ensures var r, key := OpenVolume(v, name, a, s), GetVolumeKey(v, a, s).1;
            && (r.1.ok <==> && ValidMapperName(name)
                            && ((name in v.active && !s.fails(StatusQuery))
                                || (&& key.Ok? && v.disk.Some? && key.value == v.disk.value.header.digest
                                    && !s.fails(ActivateCall) && name !in v.active)))
            && (r.1.ok ==> name in r.0.active && r.0.active == v.active + {name} && r.1.stdout == name)
            && (!r.1.ok ==> r.0.active == v.active)
            && r.0.disk == v.disk && r.0.objects == v.objects
  {
  }
}
