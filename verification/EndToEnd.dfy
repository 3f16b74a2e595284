/**
 * End-to-end TPM2 unlock: what an enrollment writes - a PCR string turned into JSON, a sealed blob in
 * base64, a keyslot named in decimal - reads back, in every later state, to the volume key.
 */
module EndToEnd {
  import opened Common
  import opened Text
  import opened Luks2
  import opened Tpm2
  import opened VolumeKeyCache
  import opened Lifecycle
  import opened Invariants
  import opened TokenInvariants
  import opened Survival
  import Base64
  import Pcrs

  /** The TPM's registry only grows. */
  ghost predicate Grows(objects: Objects, later: Objects) {
    forall o :: o in objects ==> o in later && later[o] == objects[o]
  }

  // ----- a token reads back as what was enrolled -----------------------------------------------

  lemma {:induction false} FieldsReadBack(blob: Bytes, list: seq<int>, pin: bool)
    ensures var t := Tpm2Token(blob, list, pin);
            && BlobField(t) == Some(String(Base64.Encode(blob)))
            && PcrField(t) == Join(Pcrs.ShowAll(list))
            && StringField(t, Tpm2PcrBank) == Some("sha256")
            && t.fields[Tpm2Pin] == Bool(pin)
  {
    var token := Tpm2Token(blob, list, pin);
    assert PcrTexts(token.fields[Tpm2Pcrs].items) == Pcrs.ShowAll(list);
  }

  /** The token's JSON parses to the blob, the PCR string joined from its list, and its PIN flag. */
  lemma TokenReadsBack(blob: Bytes, list: seq<int>, pin: bool, id: nat, token: Token)
    requires token == Tpm2Token(blob, list, pin).(keyslots := token.keyslots)
    ensures Tpm2RefOf(Listed(id, token)) == Ok(Tpm2Ref(id, blob, Join(Pcrs.ShowAll(list)), "sha256", pin))
  {
    FieldsReadBack(blob, list, pin);
    Base64.RoundTrip(blob);
    var plain := Tpm2Token(blob, list, pin);
    assert BlobField(token) == BlobField(plain) && PcrField(token) == PcrField(plain);
    assert DecodeBlob(String(Base64.Encode(blob))) == Ok(blob);
  }

  /** Seal, then unseal with the same PIN and the same values in the selected registers. */
  lemma SealThenUnseal(objects: Objects, secret: Bytes, pcrs: string, pin: string, pcr: PcrValues, fails: Faults,
                       priv: Bytes, pub: Bytes, later: Objects, id: nat, pcr': PcrValues, fails': Faults)
    requires var sealing := Sealing(objects, secret, pcrs, pin, pcr, fails, priv, pub);
             sealing.1.Ok? && Grows(sealing.0, later)
    requires Pcrs.Parsed(pcrs).Ok? ==> SamePcrs(Sha256, Pcrs.Parsed(pcrs).value, pcr, pcr')
    requires Quiet(fails')
    ensures Pcrs.TokenList(Pcrs.Segments(pcrs)).Ok?
    ensures var blob := Sealing(objects, secret, pcrs, pin, pcr, fails, priv, pub).1.value;
            var list := Pcrs.TokenList(Pcrs.Segments(pcrs)).value;
            && Unsealing(later, Tpm2Ref(id, blob, Join(Pcrs.ShowAll(list)), "sha256", pin != ""), pin, pcr', fails')
               == Ok(secret)
            && UnmarshalBlob(blob) == Some((priv, pub)) && (priv, pub) in later && later[(priv, pub)].secret == secret
  {
    SealingFacts(objects, secret, pcrs, pin, pcr, fails, priv, pub);
    Pcrs.RoundTrip(pcrs);
    BlobRoundTrip(priv, pub);
    var r, sel := Sealing(objects, secret, pcrs, pin, pcr, fails, priv, pub), Pcrs.Parsed(pcrs).value;
    assert (priv, pub) in r.0;
    PolicyInjective(Sha256, Sha256, sel, sel, pin != "", pin != "", pcr, pcr');
    var list := Pcrs.TokenList(Pcrs.Segments(pcrs)).value;
    UnsealingFacts(later, Tpm2Ref(id, r.1.value, Join(Pcrs.ShowAll(list)), "sha256", pin != ""), pin, pcr', fails',
                   sel, (priv, pub));
  }

  /** The registers selected by two strings are the same. */
  ghost predicate SameSelection(a: string, b: string) {
    && Pcrs.Parsed(a).Ok? && Pcrs.Parsed(b).Ok?
    && forall n :: n in Pcrs.Parsed(a).value <==> n in Pcrs.Parsed(b).value
  }

  /**
   * And only then: a sealed blob unseals through a token exactly when the token selects the same
   * registers of the SHA-256 bank, they hold the values they held at sealing, the token asks for a PIN
   * exactly if one was given then, and if so it is given again. The secret is then the one sealed.
   */
  lemma SealedOpensIff(objects: Objects, secret: Bytes, pcrs: string, pin: string, pcr: PcrValues, fails: Faults,
                       priv: Bytes, pub: Bytes, later: Objects, ref: Tpm2Ref, pin': string, pcr': PcrValues,
                       fails': Faults)
    requires var sealing := Sealing(objects, secret, pcrs, pin, pcr, fails, priv, pub);
             sealing.1 == Ok(ref.blob) && Grows(sealing.0, later)
    requires Quiet(fails')
    ensures Pcrs.Parsed(pcrs).Ok?
    ensures var r := Unsealing(later, ref, pin', pcr', fails');
            && (r.Ok? <==> && SameSelection(pcrs, ref.pcrs) && BankOf(ref.bank) == Sha256
                           && SamePcrs(Sha256, Pcrs.Parsed(pcrs).value, pcr, pcr')
                           && ref.pinRequired == (pin != "") && (pin != "" ==> pin' == pin))
            && (r.Ok? ==> r.value == secret)
  {
    SealingFacts(objects, secret, pcrs, pin, pcr, fails, priv, pub);
    BlobRoundTrip(priv, pub);
    assert (priv, pub) in Sealing(objects, secret, pcrs, pin, pcr, fails, priv, pub).0;
    QuietUnsealing(later, ref, pin', pcr', fails', (priv, pub));
    if Pcrs.Parsed(ref.pcrs).Ok? {
      PolicyInjective(Sha256, BankOf(ref.bank), Pcrs.Parsed(pcrs).value, Pcrs.Parsed(ref.pcrs).value, pin != "",
                      ref.pinRequired, pcr, pcr');
    }
  }

  /** With no failing call, what decides is the TPM's comparison of policies and PIN digests. */
  lemma QuietUnsealing(objects: Objects, ref: Tpm2Ref, pin: string, pcr: PcrValues, fails: Faults,
                       parts: (Bytes, Bytes))
    requires Quiet(fails) && UnmarshalBlob(ref.blob) == Some(parts) && parts in objects
    ensures var r := Unsealing(objects, ref, pin, pcr, fails);
            && (r.Ok? ==> r.value == objects[parts].secret)
            && (r.Ok? <==> && Pcrs.Parsed(ref.pcrs).Ok?
                           && objects[parts].policy
                              == Policy(BankOf(ref.bank), Pcrs.Parsed(ref.pcrs).value, ref.pinRequired, pcr)
                           && (ref.pinRequired ==> objects[parts].auth == AuthOf(pin)))
  {
    assert !fails(Connect) && !SrkFails(fails) && !fails(Load) && !fails(StartSession) && !fails(PolicyPcr);
    assert !fails(PolicyAuthValue) && !fails(SetAuth) && !fails(Unseal);
    match Pcrs.Parsed(ref.pcrs)
    case Err(_) =>
    case Ok(sel) =>
      var item := objects[parts];
      if item.policy != Policy(BankOf(ref.bank), sel, ref.pinRequired, pcr) {
        assert Unsealing(objects, ref, pin, pcr, fails).Err?;
      } else if ref.pinRequired && item.auth != AuthOf(pin) {
        assert Unsealing(objects, ref, pin, pcr, fails).Err?;
      } else {
        assert Unsealing(objects, ref, pin, pcr, fails) == Ok(item.secret);
      }
  }

  // ----- every TPM2 token is backed by a slot and a sealed object ------------------------------

  /** The text a TPM2 token unseals to, if its blob is known to the TPM. */
  function BackingSecret(t: Token, objects: Objects): Option<string> {
    match Tpm2RefOf(Listed(0, t))
    case Err(_) => None
    case Ok(ref) =>
      match UnmarshalBlob(ref.blob)
      case None => None
      case Some(parts) => if parts in objects then Some(Base64.Encode(objects[parts].secret)) else None
  }

  /** A slot the token names opens with the secret it unseals to. */
  ghost predicate Backed(t: Token, h: Header, objects: Objects) {
    t.kind == TPM2 ==>
      && BackingSecret(t, objects).Some?
      && exists k: nat :: Names(t, k) && k in h.slots && h.slots[k].secret == BackingSecret(t, objects).value
  }

  ghost predicate Good(h: Header, objects: Objects) {
    Wraps(h) && Tidy(h) && forall t :: t in h.tokens ==> Backed(h.tokens[t], h, objects)
  }

  lemma GrowthKeepsGood(h: Header, objects: Objects, later: Objects)
    requires Good(h, objects) && Grows(objects, later)
    ensures Good(h, later)
  {
    forall t | t in h.tokens
      ensures Backed(h.tokens[t], h, later)
    {
      assert Backed(h.tokens[t], h, objects);
    }
  }

  lemma GoodAdd(h: Header, key: Bytes, secret: string, s: Schedule, objects: Objects)
    requires Good(h, objects)
    ensures AddOk(h, key, secret, s, x => Good(x, objects))
  {
    TidyAdd(h, key, secret, s);
    WrapsAdd(h, key, secret, s);
    if AddByKey(h, key, secret, s.slot).Some? {
      var h1 := AddByKey(h, key, secret, s.slot).value;
      forall t | t in h1.tokens
        ensures Backed(h1.tokens[t], h1, objects)
      {
        assert Backed(h.tokens[t], h, objects);
      }
    }
  }

  /** Prepared for a token that will be backed by the slot made from its own secret. */
  ghost predicate PreparedBacked(p: Prepared, objects: Objects) {
    p.token.kind == TPM2 ==> BackingSecret(p.token, objects) == Some(p.secret)
  }

  lemma GoodEnroll(h: Header, key: Bytes, p: Prepared, s: Schedule, objects: Objects)
    requires Good(h, objects) && PreparedBacked(p, objects)
    ensures EnrollOk(h, key, p, s, x => Good(x, objects))
  {
    GoodAdd(h, key, p.secret, s, objects);
    TidyEnroll(h, key, p, s);
    WrapsEnroll(h, key, p, s);
    if AddByKey(h, key, p.secret, s.slot).Some? {
      var h1 := AddByKey(h, key, p.secret, s.slot).value;
      var token := Stamped(p.token, s.slot);
      assert Good(h1, objects);
      if AddToken(h1, token, s.token).Some? {
        var h2 := AddToken(h1, token, s.token).value;
        StampNames(p.token, s.slot);
        forall t | t in h2.tokens
          ensures Backed(h2.tokens[t], h2, objects)
        {
          if t == s.token {
            assert BackingSecret(token, objects) == BackingSecret(p.token, objects);
            assert Names(token, s.slot);
          } else {
            assert Backed(h1.tokens[t], h1, objects);
          }
        }
      }
    }
  }

  lemma GoodDestroy(h: Header, slot: int, objects: Objects)
    requires Good(h, objects) && forall t :: t in h.tokens ==> !Names(h.tokens[t], slot)
    ensures DestroyOk(h, slot, x => Good(x, objects))
  {
    DestroyUnnamed(h, slot);
    if Luks2.DestroySlot(h, slot).Some? {
      var h1 := Luks2.DestroySlot(h, slot).value;
      forall t | t in h1.tokens
        ensures Backed(h1.tokens[t], h1, objects)
      {
        assert Backed(h.tokens[t], h, objects);
      }
    }
  }

  lemma {:induction false} GoodWipe(h: Header, slot: int, objects: Objects)
    requires Good(h, objects)
    ensures WipeOk(h, slot, FirstNaming(Tokens(h), slot), x => Good(x, objects))
  {
    var id := FirstNaming(Tokens(h), slot);
    TokensAreAll(h);
    if id < 0 {
      forall t | t in h.tokens
        ensures !Names(h.tokens[t], slot)
      {
        assert Listed(t, h.tokens[t]) in Tokens(h);
      }
      GoodDestroy(h, slot, objects);
    } else {
      var l :| l in Tokens(h) && l.id == id && Names(l.token, slot);
      RemoveNaming(h, slot, id);
      var h1 := Luks2.RemoveToken(h, id).value;
      forall t | t in h1.tokens
        ensures Backed(h1.tokens[t], h1, objects)
      {
        assert Backed(h.tokens[t], h, objects);
      }
      GoodDestroy(h1, slot, objects);
    }
  }

  lemma GoodClosed(h: Header, op: Op, s: Schedule, objects: Objects)
    requires !op.EnrollWith? && (Good(h, objects) || op.Format?) && (op.Wipe? ==> !s.fails(FindRead))
    ensures Closed(h, op, s, x => Good(x, objects))
  {
    var ok := (x: Header) => Good(x, objects);
    match op
    case Format(passphrase, key) => GoodAdd(Fresh(key), key, passphrase, s, objects);
    case EnrollP(_, passphrase) =>
      forall key ensures AddOk(h, key, passphrase, s, ok) { GoodAdd(h, key, passphrase, s, objects); }
    case Wipe(_, slot) => GoodWipe(h, slot, objects);
    case _ =>
  }

  lemma {:induction false} Tpm2PrepareIsBacked(objects: Objects, secret: Bytes, pcrs: string, pin: string,
                                               pcr: PcrValues, fails: Faults, priv: Bytes, pub: Bytes, blob: Bytes,
                                               list: seq<int>)
    requires var r := Sealing(objects, secret, pcrs, pin, pcr, fails, priv, pub); r.1 == Ok(blob)
    ensures BackingSecret(Tpm2Token(blob, list, pin != ""),
                          Sealing(objects, secret, pcrs, pin, pcr, fails, priv, pub).0)
         == Some(Base64.Encode(secret))
  {
    SealingFacts(objects, secret, pcrs, pin, pcr, fails, priv, pub);
    BlobRoundTrip(priv, pub);
    TokenReadsBack(blob, list, pin != "", 0, Tpm2Token(blob, list, pin != ""));
  }

  /** What each modality prepares is backed; for TPM2 by the object just sealed. */
  lemma PrepareIsBacked(v: Volume, m: Modality, s: Schedule)
    ensures var (v1, p) := Prepare(v, m, s);
            p.Ok? ==> PreparedBacked(p.value, v1.objects)
  {
    var (v1, p) := Prepare(v, m, s);
    if m.ByTpm2? && p.Ok? {
      var (objects, sealed) := Sealing(v.objects, m.secret, m.pcrs, m.pin, s.pcr, s.seal, s.priv, s.pub);
      Tpm2PrepareIsBacked(v.objects, m.secret, m.pcrs, m.pin, s.pcr, s.seal, s.priv, s.pub, sealed.value,
                          Pcrs.TokenList(Pcrs.Segments(m.pcrs)).value);
    }
  }

  /** Every header version of the volume is good for the registry as it is now. */
  ghost predicate GoodVolume(v: Volume) {
    History(v, 0, x => Good(x, v.objects))
  }

  lemma GrowthKeepsHistory(v: Volume, objects: Objects)
    requires GoodVolume(v) && Grows(v.objects, objects)
    ensures GoodVolume(v.(objects := objects))
  {
    if v.disk.Some? {
      forall i | 0 <= i < |v.disk.value.written|
        ensures Good(v.disk.value.written[i], objects)
      {
        GrowthKeepsGood(v.disk.value.written[i], v.objects, objects);
      }
    }
  }

  lemma EnrollGood(v: Volume, a: Auth, m: Modality, s: Schedule)
    requires GoodVolume(v)
    ensures GoodVolume(Enroll(v, a, m, s).0)
  {
    var (v1, p) := Prepare(v, m, s);
    GrowthKeepsHistory(v, v1.objects);
    PrepareIsBacked(v, m, s);
    EnrollTokenGood(v1, a, p, s);
  }

  lemma EnrollTokenGood(v: Volume, a: Auth, p: Result<Prepared>, s: Schedule)
    requires GoodVolume(v) && (p.Ok? ==> PreparedBacked(p.value, v.objects))
    ensures GoodVolume(EnrollToken(v, a, p, s).0) && EnrollToken(v, a, p, s).0.objects == v.objects
  {
    var ok := (x: Header) => Good(x, v.objects);
    if v.disk.Some? && p.Ok? {
      assert ok(v.disk.value.header);
      forall key
        ensures EnrollOk(v.disk.value.header, key, p.value, s, ok)
      {
        GoodEnroll(v.disk.value.header, key, p.value, s, v.objects);
      }
    }
    EnrollTokenHistory(v, a, p, s, 0, ok);
    EnrollKeepsObjects(v, a, p, s);
  }

  lemma EnrollKeepsObjects(v: Volume, a: Auth, p: Result<Prepared>, s: Schedule)
    ensures EnrollToken(v, a, p, s).0.objects == v.objects
  {
  }

  /** Only sealing and the world outside change the registry, and they only add to it. */
  lemma ObjectsGrow(v: Volume, op: Op, s: Schedule)
    ensures Grows(v.objects, Perform(v, op, s).objects)
    ensures !op.EnrollWith? && !op.Elsewhere? ==> Perform(v, op, s).objects == v.objects
  {
    match op
    case EnrollWith(a, m) => EnrollGrows(v, a, m, s);
    case _ =>
  }

  lemma EnrollGrows(v: Volume, a: Auth, m: Modality, s: Schedule)
    ensures Grows(v.objects, Enroll(v, a, m, s).0.objects)
  {
    var prepared := Prepare(v, m, s);
    EnrollKeepsObjects(prepared.0, a, prepared.1, s);
  }

  lemma PerformGood(v: Volume, e: Event)
    requires GoodVolume(v) && SeesToken(e)
    ensures GoodVolume(Perform(v, e.op, e.s))
  {
    var ok := (x: Header) => Good(x, v.objects);
    ObjectsGrow(v, e.op, e.s);
    if e.op.EnrollWith? {
      EnrollGood(v, e.op.a, e.op.m, e.s);
    } else {
      if v.disk.Some? {
        assert ok(v.disk.value.header);
        GoodClosed(v.disk.value.header, e.op, e.s, v.objects);
      }
      if e.op.Format? {
        GoodClosed(Fresh(e.op.key), e.op, e.s, v.objects);
      }
      PerformHistory(v, e.op, e.s, 0, ok);
      var v1 := Perform(v, e.op, e.s);
      GrowthKeepsHistory(v1.(objects := v.objects), v1.objects);
      assert v1.(objects := v.objects).(objects := v1.objects) == v1;
    }
  }

  lemma {:induction false} RunGood(v: Volume, events: seq<Event>)
    requires GoodVolume(v)
    requires forall i :: 0 <= i < |events| ==> SeesToken(events[i])
    ensures GoodVolume(Run(v, events)) && Grows(v.objects, Run(v, events).objects)
  {
    if events != [] {
      var init, e := events[..|events| - 1], events[|events| - 1];
      RunGood(v, init);
      PerformGood(Run(v, init), e);
      ObjectsGrow(Run(v, init), e.op, e.s);
    }
  }

  // ----- unlock --------------------------------------------------------------------------------

  /** No call fails during the unlock; the TPM may hold no persistent storage key. */
  ghost predicate NoFailure(s: Schedule) {
    && (forall call :: !s.fails(call)) && (forall i :: !s.keyGet(i))
    && forall i :: Quiet(s.unseal(i))
  }

  /** Every TPM2 token of a good header parses. */
  lemma GoodTokensParse(h: Header, objects: Objects)
    requires Good(h, objects)
    ensures Tpm2Refs(Tokens(h)).Ok?
  {
    TokensAreAll(h);
    forall l | l in Tokens(h) && l.token.kind == TPM2
      ensures Tpm2RefOf(l).Ok?
    {
      assert Backed(h.tokens[l.id], h, objects);
      assert Tpm2RefOf(Listed(0, l.token)).Ok?;
    }
  }

  /** Whatever object a reference of a good header points at, its secret opens a keyslot. */
  lemma RegisteredOpens(h: Header, objects: Objects, ref: Tpm2Ref, parts: (Bytes, Bytes))
    requires Good(h, objects) && Tpm2Refs(Tokens(h)).Ok? && ref in Tpm2Refs(Tokens(h)).value
    requires UnmarshalBlob(ref.blob) == Some(parts) && parts in objects
    ensures exists k: nat :: Opens(h, k, Base64.Encode(objects[parts].secret))
  {
    TokensAreAll(h);
    var l :| l in Tokens(h) && l.token.kind == TPM2 && Tpm2RefOf(l) == Ok(ref);
    assert Backed(h.tokens[l.id], h, objects);
    assert Tpm2RefOf(Listed(0, l.token)).Ok? && Tpm2RefOf(Listed(0, l.token)).value.blob == ref.blob;
    var k: nat :| Names(l.token, k) && k in h.slots && h.slots[k].secret == BackingSecret(l.token, objects).value;
    assert Opens(h, k, h.slots[k].secret);
  }

  /** If one eligible reference unseals, some candidate does, and the first one's secret is returned. */
  lemma FirstUnsealed(objects: Objects, refs: seq<Tpm2Ref>, pin: string, pcr: PcrValues, fails: AttemptFaults,
                      ref: Tpm2Ref)
    returns (i: nat)
    requires ref in refs && (ref.pinRequired ==> pin != "")
    requires forall i :: Unsealing(objects, ref, pin, pcr, fails(i)).Ok?
    ensures i < |Preferred(refs, pin != "")| && Preferred(refs, pin != "")[i] in refs
    ensures var r := Unsealing(objects, Preferred(refs, pin != "")[i], pin, pcr, fails(i));
            r.Ok? && UnsealedFrom(objects, refs, pin, pcr, fails) == Some(r.value)
  {
    var cands := Preferred(refs, pin != "");
    var results := Attempts(objects, cands, pin, pcr, fails);
    var j :| 0 <= j < |cands| && cands[j] == ref;
    assert results[j].Ok?;
    i := FirstOk(results, 0);
    assert cands[i] in cands;
  }

  /** Whichever token is unsealed first, its secret opens a keyslot. */
  lemma FirstUnsealedOpens(h: Header, objects: Objects, refs: seq<Tpm2Ref>, pin: string, pcr: PcrValues,
                           fails: AttemptFaults, ref: Tpm2Ref) returns (secret: Bytes, k: nat)
    requires Good(h, objects) && Tpm2Refs(Tokens(h)) == Ok(refs) && ref in refs
    requires ref.pinRequired ==> pin != ""
    requires forall i :: Unsealing(objects, ref, pin, pcr, fails(i)).Ok?
    ensures UnsealedFrom(objects, refs, pin, pcr, fails) == Some(secret) && Opens(h, k, Base64.Encode(secret))
  {
    var i := FirstUnsealed(objects, refs, pin, pcr, fails, ref);
    var first := Preferred(refs, pin != "")[i];
    UnsealedIsRegistered(objects, first, pin, pcr, fails(i));
    secret := objects[UnmarshalBlob(first.blob).value].secret;
    RegisteredOpens(h, objects, first, UnmarshalBlob(first.blob).value);
    k :| Opens(h, k, Base64.Encode(secret));
  }

  /** A derived secret that opens some keyslot yields the header's key. */
  lemma OpeningTokenUnlocks(v: Volume, kind: string, s: Schedule, pw: string, k: nat)
    requires v.disk.Some? && WellFormed(v.disk.value.header) && NoFailure(s) && s.derived == Some(pw)
    requires Opens(v.disk.value.header, k, pw)
    ensures TokenUnlock(v, kind, s).Some?
  {
    var h := v.disk.value.header;
    TargetedNeverWorse(h, kind, pw, true, s.keyGet);
    assert VolumeKeyGet(h, None, pw).Some?;
    assert !s.fails(DumpForKey) && !s.fails(OpenForKey);
  }

  lemma OpeningUnlocks(v: Volume, kind: string, pin: string, s: Schedule, pw: string, k: nat)
    requires v.disk.Some? && WellFormed(v.disk.value.header) && NoFailure(s) && s.derived == Some(pw)
    requires Opens(v.disk.value.header, k, pw) && !Live(v.cached, v.now + s.wait) && (kind == TPM2 || kind == FIDO2)
    ensures GetVolumeKey(v, Auth(kind, "", pin), s).1 == Ok(v.disk.value.header.digest)
  {
    GetVolumeKeyOnMiss(v, Auth(kind, "", pin), s);
    OpeningTokenUnlocks(v.(cached := Peek(v.cached, v.now + s.wait).0, now := v.now + s.wait), kind, s, pw, k);
  }

  /**
   * With no failure an uncached unlock through a token succeeds iff the secret derived opens some keyslot.
   * Which secret that is, in terms of the header's tokens, is the subject of the modules on shadowing.
   */
  lemma UnlocksIffDerivedOpens(v: Volume, kind: string, pin: string, s: Schedule)
    requires v.disk.Some? && WellFormed(v.disk.value.header) && NoFailure(s) && !Live(v.cached, v.now + s.wait)
    requires kind == TPM2 || kind == FIDO2
    ensures GetVolumeKey(v, Auth(kind, "", pin), s).1.Ok?
            <==> s.derived.Some? && exists k: nat :: Opens(v.disk.value.header, k, s.derived.value)
  {
    GetVolumeKeyOnMiss(v, Auth(kind, "", pin), s);
    if s.derived.Some? {
      if k: nat :| Opens(v.disk.value.header, k, s.derived.value) {
        OpeningUnlocks(v, kind, pin, s, s.derived.value, k);
      }
    }
  }

  /** The token a successful TPM2 enrollment leaves in the header. */
  lemma EnrolledToken(v: Volume, a: Auth, pcrs: string, pin: string, secret: Bytes, s: Schedule) returns (blob: Bytes)
    requires Enroll(v, a, ByTpm2(pcrs, pin, secret), s).1.ok
    ensures var v1 := Enroll(v, a, ByTpm2(pcrs, pin, secret), s).0;
            && Sealing(v.objects, secret, pcrs, pin, s.pcr, s.seal, s.priv, s.pub) == (v1.objects, Ok(blob))
            && Pcrs.TokenList(Pcrs.Segments(pcrs)).Ok?
            && v.disk.Some? && v1.disk.Some? && v1.disk.value.header.digest == v.disk.value.header.digest
            && s.token in v1.disk.value.header.tokens
            && v1.disk.value.header.tokens[s.token]
               == Stamped(Tpm2Token(blob, Pcrs.TokenList(Pcrs.Segments(pcrs)).value, pin != ""), s.slot)
  {
    var (v1, p) := Prepare(v, ByTpm2(pcrs, pin, secret), s);
    blob := Sealing(v.objects, secret, pcrs, pin, s.pcr, s.seal, s.priv, s.pub).1.value;
    EnrollKeepsObjects(v1, a, p, s);
    WrittenToken(v1, a, p, s);
  }

  lemma WrittenToken(v: Volume, a: Auth, p: Result<Prepared>, s: Schedule)
    requires EnrollToken(v, a, p, s).1.ok
    ensures p.Ok?
    ensures var v1 := EnrollToken(v, a, p, s).0;
            && v.disk.Some? && v1.disk.Some? && v1.disk.value.header.digest == v.disk.value.header.digest
            && s.token in v1.disk.value.header.tokens
            && v1.disk.value.header.tokens[s.token] == Stamped(p.value.token, s.slot)
  {
  }

  /**
   * End-to-end TPM2 unlock. Take any run from nothing, a TPM2 enrollment that succeeds in it, and any
   * run after it, with calls failing anywhere except the token lookups of wipes. While the header
   * still holds the enrolled token - under whatever id - an uncached unlock with the same PIN, with
   * the selected registers as they were at enrollment and no failure during this unlock, returns the
   * header's volume key, whichever other TPM2 tokens are tried first.
   */
  lemma {:induction false} Tpm2UnlockEndToEnd(before: seq<Event>, v0: Volume, a: Auth, pcrs: string, pin: string,
                                              secret: Bytes, enrolling: Schedule, v1: Volume, after: seq<Event>,
                                              v: Volume, id: nat, s: Schedule)
    requires (forall i :: 0 <= i < |before| ==> SeesToken(before[i])) && v0 == Run(START, before)
    requires v1 == Enroll(v0, a, ByTpm2(pcrs, pin, secret), enrolling).0
    requires Enroll(v0, a, ByTpm2(pcrs, pin, secret), enrolling).1.ok
    requires (forall i :: 0 <= i < |after| ==> SeesToken(after[i])) && v == Run(v1, after)
    requires v1.disk.Some? && enrolling.token in v1.disk.value.header.tokens
    requires v.disk.Some? && id in v.disk.value.header.tokens
    requires v.disk.value.header.tokens[id] == v1.disk.value.header.tokens[enrolling.token]
    requires !Live(v.cached, v.now + s.wait) && Honest(v, TPM2, pin, s) && NoFailure(s)
    requires Pcrs.Parsed(pcrs).Ok? ==> SamePcrs(Sha256, Pcrs.Parsed(pcrs).value, enrolling.pcr, s.pcr)
    ensures GetVolumeKey(v, Auth(TPM2, "", pin), s).1 == Ok(v.disk.value.header.digest)
  {
    ReachableIsGood(before);
    RunGoodAfter(v0, a, ByTpm2(pcrs, pin, secret), enrolling, v1, after, v);
    EnrolledTokenUnlocks(v0, a, pcrs, pin, secret, enrolling, v1, v, id, s);
  }

  /** For any good later volume that still holds the token an enrollment wrote. */
  lemma EnrolledTokenUnlocks(v0: Volume, a: Auth, pcrs: string, pin: string, secret: Bytes, enrolling: Schedule,
                             v1: Volume, v: Volume, id: nat, s: Schedule)
    requires v1 == Enroll(v0, a, ByTpm2(pcrs, pin, secret), enrolling).0
    requires Enroll(v0, a, ByTpm2(pcrs, pin, secret), enrolling).1.ok
    requires GoodVolume(v) && Grows(v1.objects, v.objects)
    requires v1.disk.Some? && enrolling.token in v1.disk.value.header.tokens
    requires v.disk.Some? && id in v.disk.value.header.tokens
    requires v.disk.value.header.tokens[id] == v1.disk.value.header.tokens[enrolling.token]
    requires Honest(v, TPM2, pin, s) && NoFailure(s) && !Live(v.cached, v.now + s.wait)
    requires Pcrs.Parsed(pcrs).Ok? ==> SamePcrs(Sha256, Pcrs.Parsed(pcrs).value, enrolling.pcr, s.pcr)
    ensures GetVolumeKey(v, Auth(TPM2, "", pin), s).1 == Ok(v.disk.value.header.digest)
  {
    var blob := EnrolledToken(v0, a, pcrs, pin, secret, enrolling);
    var pw, k := SurvivingTokenDerives(v0.objects, pcrs, pin, secret, enrolling, blob, v, id, s);
    OpeningUnlocks(v, TPM2, pin, s, pw, k);
  }

  /**
   * The same in terms of what was done: while no run event has formatted the volume or wiped that slot,
   * the token is still there, under its own id, and unlocks.
   */
  lemma {:induction false} Tpm2UnlocksUntilWiped(before: seq<Event>, v0: Volume, a: Auth, pcrs: string, pin: string,
                                                 secret: Bytes, enrolling: Schedule, v1: Volume, after: seq<Event>,
                                                 v: Volume, s: Schedule)
    requires (forall i :: 0 <= i < |before| ==> SeesToken(before[i])) && v0 == Run(START, before)
    requires v1 == Enroll(v0, a, ByTpm2(pcrs, pin, secret), enrolling).0
    requires Enroll(v0, a, ByTpm2(pcrs, pin, secret), enrolling).1.ok
    requires forall i :: 0 <= i < |after| ==> SeesToken(after[i]) && Spares(after[i], enrolling.slot)
    requires v == Run(v1, after) && !Live(v.cached, v.now + s.wait)
    requires Honest(v, TPM2, pin, s) && NoFailure(s)
    requires Pcrs.Parsed(pcrs).Ok? ==> SamePcrs(Sha256, Pcrs.Parsed(pcrs).value, enrolling.pcr, s.pcr)
    ensures v.disk.Some? && GetVolumeKey(v, Auth(TPM2, "", pin), s).1 == Ok(v.disk.value.header.digest)
  {
    ReachableIsGood(before);
    EnrolledSurvives(v0, a, pcrs, pin, secret, enrolling, v1, after, v);
    EnrolledTokenUnlocks(v0, a, pcrs, pin, secret, enrolling, v1, v, enrolling.token, s);
  }

  lemma {:induction false} EnrolledSurvives(v0: Volume, a: Auth, pcrs: string, pin: string, secret: Bytes,
                                            enrolling: Schedule, v1: Volume, after: seq<Event>, v: Volume)
    requires GoodVolume(v0) && v1 == Enroll(v0, a, ByTpm2(pcrs, pin, secret), enrolling).0
    requires Enroll(v0, a, ByTpm2(pcrs, pin, secret), enrolling).1.ok
    requires forall i :: 0 <= i < |after| ==> SeesToken(after[i]) && Spares(after[i], enrolling.slot)
    requires v == Run(v1, after)
    ensures GoodVolume(v) && Grows(v1.objects, v.objects) && v1.disk.Some? && v.disk.Some?
    ensures enrolling.token in v1.disk.value.header.tokens && enrolling.token in v.disk.value.header.tokens
    ensures v.disk.value.header.tokens[enrolling.token] == v1.disk.value.header.tokens[enrolling.token]
  {
    RunGoodAfter(v0, a, ByTpm2(pcrs, pin, secret), enrolling, v1, after, v);
    EnrollGood(v0, a, ByTpm2(pcrs, pin, secret), enrolling);
    GoodWraps(v1);
    EnrolledStays(v0, a, pcrs, pin, secret, enrolling, v1, after, v);
  }

  lemma {:induction false} EnrolledStays(v0: Volume, a: Auth, pcrs: string, pin: string, secret: Bytes,
                                         enrolling: Schedule, v1: Volume, after: seq<Event>, v: Volume)
    requires History(v1, 0, Wraps) && v1 == Enroll(v0, a, ByTpm2(pcrs, pin, secret), enrolling).0
    requires Enroll(v0, a, ByTpm2(pcrs, pin, secret), enrolling).1.ok
    requires forall i :: 0 <= i < |after| ==> Spares(after[i], enrolling.slot)
    requires v == Run(v1, after)
    ensures v1.disk.Some? && enrolling.token in v1.disk.value.header.tokens
    ensures v.disk.Some? && HasToken(v.disk.value.header, enrolling.token, v1.disk.value.header.tokens[enrolling.token])
  {
    var blob := EnrolledToken(v0, a, pcrs, pin, secret, enrolling);
    var written := Tpm2Token(blob, Pcrs.TokenList(Pcrs.Segments(pcrs)).value, pin != "");
    EnrolledNamesOnly(v0, a, pcrs, pin, secret, enrolling, written);
    TokenSurvives(v1, after, v, enrolling.token, Stamped(written, enrolling.slot), enrolling.slot);
  }

  lemma EnrolledNamesOnly(v: Volume, a: Auth, pcrs: string, pin: string, secret: Bytes, s: Schedule, written: Token)
    requires Enroll(v, a, ByTpm2(pcrs, pin, secret), s).1.ok
    ensures NamesOnly(Stamped(written, s.slot), s.slot)
  {
    var prepared := Prepare(v, ByTpm2(pcrs, pin, secret), s);
    EnrolledSlot(prepared.0, a, prepared.1, s);
    StampNames(written, s.slot);
  }

  lemma GoodWraps(v: Volume)
    requires GoodVolume(v)
    ensures History(v, 0, Wraps)
  {
  }

  lemma {:induction false} ReachableIsGood(events: seq<Event>)
    requires forall i :: 0 <= i < |events| ==> SeesToken(events[i])
    ensures GoodVolume(Run(START, events))
  {
    RunGood(START, events);
  }

  lemma {:induction false} RunGoodAfter(v0: Volume, a: Auth, m: Modality, enrolling: Schedule, v1: Volume,
                                        after: seq<Event>, v: Volume)
    requires GoodVolume(v0) && v1 == Enroll(v0, a, m, enrolling).0 && v == Run(v1, after)
    requires forall i :: 0 <= i < |after| ==> SeesToken(after[i])
    ensures GoodVolume(v) && Grows(v1.objects, v.objects)
  {
    EnrollGood(v0, a, m, enrolling);
    RunGood(v1, after);
  }

  /** For any good volume that holds the token and whose TPM remembers the sealing. */
  lemma SurvivingTokenDerives(objects: Objects, pcrs: string, pin: string, secret: Bytes, enrolling: Schedule,
                              blob: Bytes, v: Volume, id: nat, s: Schedule) returns (pw: string, k: nat)
    requires GoodVolume(v) && v.disk.Some? && id in v.disk.value.header.tokens
    requires var sealing := Sealing(objects, secret, pcrs, pin, enrolling.pcr, enrolling.seal, enrolling.priv,
                                    enrolling.pub);
             sealing.1 == Ok(blob) && Grows(sealing.0, v.objects)
    requires Pcrs.TokenList(Pcrs.Segments(pcrs)).Ok?
    requires v.disk.value.header.tokens[id]
          == Stamped(Tpm2Token(blob, Pcrs.TokenList(Pcrs.Segments(pcrs)).value, pin != ""), enrolling.slot)
    requires Honest(v, TPM2, pin, s) && NoFailure(s)
    requires Pcrs.Parsed(pcrs).Ok? ==> SamePcrs(Sha256, Pcrs.Parsed(pcrs).value, enrolling.pcr, s.pcr)
    ensures Good(v.disk.value.header, v.objects) && s.derived == Some(pw) && Opens(v.disk.value.header, k, pw)
  {
    var h, list := v.disk.value.header, Pcrs.TokenList(Pcrs.Segments(pcrs)).value;
    var ref := Tpm2Ref(id, blob, Join(Pcrs.ShowAll(list)), "sha256", pin != "");
    assert Good(v.disk.value.written[|v.disk.value.written| - 1], v.objects);
    SurvivingTokenUnseals(objects, pcrs, pin, secret, enrolling, blob, v.objects, ref, s);
    TokenIsListed(h, v.objects, blob, list, pin != "", id, enrolling.slot);
    var refs := Tpm2Refs(Tokens(h)).value;
    var unsealed;
    unsealed, k := FirstUnsealedOpens(h, v.objects, refs, pin, s.pcr, s.unseal, ref);
    pw := Base64.Encode(unsealed);
    DerivedIs(v, pin, s, refs, unsealed);
  }

  lemma SurvivingTokenUnseals(objects: Objects, pcrs: string, pin: string, secret: Bytes, enrolling: Schedule,
                              blob: Bytes, later: Objects, ref: Tpm2Ref, s: Schedule)
    requires var sealing := Sealing(objects, secret, pcrs, pin, enrolling.pcr, enrolling.seal, enrolling.priv,
                                    enrolling.pub);
             sealing.1 == Ok(blob) && Grows(sealing.0, later)
    requires Pcrs.TokenList(Pcrs.Segments(pcrs)).Ok? && NoFailure(s)
    requires ref.blob == blob && ref.bank == "sha256" && ref.pinRequired == (pin != "")
    requires ref.pcrs == Join(Pcrs.ShowAll(Pcrs.TokenList(Pcrs.Segments(pcrs)).value))
    requires Pcrs.Parsed(pcrs).Ok? ==> SamePcrs(Sha256, Pcrs.Parsed(pcrs).value, enrolling.pcr, s.pcr)
    ensures forall i :: Unsealing(later, ref, pin, s.pcr, s.unseal(i)) == Ok(secret)
  {
    forall i
      ensures Unsealing(later, ref, pin, s.pcr, s.unseal(i)) == Ok(secret)
    {
      SealThenUnseal(objects, secret, pcrs, pin, enrolling.pcr, enrolling.seal, enrolling.priv, enrolling.pub,
                     later, ref.id, s.pcr, s.unseal(i));
    }
  }

  lemma TokenIsListed(h: Header, objects: Objects, blob: Bytes, list: seq<int>, pin: bool, id: nat, slot: nat)
    requires Good(h, objects) && id in h.tokens && h.tokens[id] == Stamped(Tpm2Token(blob, list, pin), slot)
    ensures Tpm2Refs(Tokens(h)).Ok?
    ensures Tpm2Ref(id, blob, Join(Pcrs.ShowAll(list)), "sha256", pin) in Tpm2Refs(Tokens(h)).value
  {
    TokenReadsBack(blob, list, pin, id, h.tokens[id]);
    GoodTokensParse(h, objects);
    TokensAreAll(h);
    assert Listed(id, h.tokens[id]) in Tokens(h);
  }

  lemma {:induction false} DerivedIs(v: Volume, pin: string, s: Schedule, refs: seq<Tpm2Ref>, secret: Bytes)
    requires v.disk.Some? && !s.fails(ReadRefs) && Honest(v, TPM2, pin, s)
    requires Tpm2Refs(Tokens(v.disk.value.header)) == Ok(refs)
    requires UnsealedFrom(v.objects, refs, pin, s.pcr, s.unseal) == Some(secret)
    ensures s.derived == Some(Base64.Encode(secret))
  {
  }

  // ----- a keyless volume comes to life --------------------------------------------------------

  /** A TPM2 enrollment succeeds exactly when it seals, unlocks, and finds a free slot and token for that key. */
  lemma EnrollmentSucceedsIff(v: Volume, a: Auth, pcrs: string, pin: string, secret: Bytes, s: Schedule)
    ensures var sealing := Sealing(v.objects, secret, pcrs, pin, s.pcr, s.seal, s.priv, s.pub);
            var key := GetVolumeKey(v.(objects := sealing.0), a, s).1;
            Enroll(v, a, ByTpm2(pcrs, pin, secret), s).1.ok
            <==> && sealing.1.Ok? && key.Ok? && v.disk.Some? && key.value == v.disk.value.header.digest
                 && !s.fails(AddSlot) && s.slot < SLOTS_MAX && s.slot !in v.disk.value.header.slots
                 && !s.fails(WriteToken) && s.token < TOKENS_MAX && s.token !in v.disk.value.header.tokens
  {
    var sealing := Sealing(v.objects, secret, pcrs, pin, s.pcr, s.seal, s.priv, s.pub);
    if sealing.1.Ok? {
      SealingFacts(v.objects, secret, pcrs, pin, s.pcr, s.seal, s.priv, s.pub);
      Pcrs.TokenListAgrees(Pcrs.Segments(pcrs));
      PreparedSucceedsIff(v.(objects := sealing.0), a, PrepareTpm2(sealing.1, pcrs, pin, secret).value, s);
    }
  }

  lemma PreparedSucceedsIff(v: Volume, a: Auth, p: Prepared, s: Schedule)
    ensures var key := GetVolumeKey(v, a, s).1;
            EnrollToken(v, a, Ok(p), s).1.ok
            <==> && key.Ok? && v.disk.Some? && key.value == v.disk.value.header.digest
                 && !s.fails(AddSlot) && s.slot < SLOTS_MAX && s.slot !in v.disk.value.header.slots
                 && !s.fails(WriteToken) && s.token < TOKENS_MAX && s.token !in v.disk.value.header.tokens
  {
  }

  lemma KeylessFormat(v: Volume, key: Bytes, s: Schedule)
    requires !s.fails(InitFormat) && !s.fails(WriteFormat)
    ensures var w := FormatContainer(v, "", key, s).0;
            w.disk.Some? && w.disk.value.header == Fresh(key) && w.cached == Some(Entry(key, w.now))
  {
  }

  lemma FormatGood(v: Volume, key: Bytes, s: Schedule)
    requires GoodVolume(v)
    ensures GoodVolume(FormatContainer(v, "", key, s).0)
  {
    PerformGood(v, Event(Format("", key), s));
  }

  /** Within the cache's lifetime of a keyless format, any unlock method enrolls: the key is the cached one. */
  lemma KeylessEnrollment(v: Volume, key: Bytes, a: Auth, pcrs: string, pin: string, secret: Bytes, s: Schedule)
    requires v.disk.Some? && v.disk.value.header == Fresh(key) && v.cached == Some(Entry(key, v.now))
    requires ValidMethod(a.unlock) && s.wait < TTL
    requires Sealing(v.objects, secret, pcrs, pin, s.pcr, s.seal, s.priv, s.pub).1.Ok?
    requires !s.fails(AddSlot) && s.slot < SLOTS_MAX && !s.fails(WriteToken) && s.token < TOKENS_MAX
    ensures var (w, outcome) := Enroll(v, a, ByTpm2(pcrs, pin, secret), s);
            && outcome.ok && w.cached == v.cached && w.now == v.now + s.wait
            && w.disk.Some? && w.disk.value.header.digest == key && s.token in w.disk.value.header.tokens
  {
    EnrollmentSucceedsIff(v, a, pcrs, pin, secret, s);
    var blob := EnrolledToken(v, a, pcrs, pin, secret, s);
  }

  lemma KeylessUnlocks(v0: Volume, key: Bytes, a: Auth, pcrs: string, pin: string, secret: Bytes, enrolling: Schedule,
                       v: Volume, outcome: Triple, s: Schedule)
    requires GoodVolume(v0) && v0.disk.Some? && v0.disk.value.header == Fresh(key)
    requires v0.cached == Some(Entry(key, v0.now))
    requires ValidMethod(a.unlock) && enrolling.wait < TTL
    requires Sealing(v0.objects, secret, pcrs, pin, enrolling.pcr, enrolling.seal, enrolling.priv, enrolling.pub).1.Ok?
    requires !enrolling.fails(AddSlot) && enrolling.slot < SLOTS_MAX
    requires !enrolling.fails(WriteToken) && enrolling.token < TOKENS_MAX
    requires (v, outcome) == Enroll(v0, a, ByTpm2(pcrs, pin, secret), enrolling)
    requires s.wait >= TTL && Honest(v, TPM2, pin, s) && NoFailure(s)
    requires Pcrs.Parsed(pcrs).Ok? ==> SamePcrs(Sha256, Pcrs.Parsed(pcrs).value, enrolling.pcr, s.pcr)
    ensures outcome.ok && GetVolumeKey(v, Auth(TPM2, "", pin), s).1 == Ok(key)
  {
    KeylessEnrollment(v0, key, a, pcrs, pin, secret, enrolling);
    EnrollGood(v0, a, ByTpm2(pcrs, pin, secret), enrolling);
    EnrolledTokenUnlocks(v0, a, pcrs, pin, secret, enrolling, v, v, enrolling.token, s);
  }

  /**
   * A keyless volume comes to life, whatever happened before: format without a keyslot, enroll a TPM2
   * token within two minutes by any unlock method, and from the moment the cache has expired the token
   * alone, with the same PIN and registers, recovers the generated volume key.
   */
  lemma {:induction false} KeylessComesToLife(before: seq<Event>, key: Bytes, formatting: Schedule, v0: Volume,
                                              a: Auth, pcrs: string, pin: string, secret: Bytes, enrolling: Schedule,
                                              v: Volume, outcome: Triple, s: Schedule)
    requires (forall i :: 0 <= i < |before| ==> SeesToken(before[i]))
    requires !formatting.fails(InitFormat) && !formatting.fails(WriteFormat)
    requires v0 == FormatContainer(Run(START, before), "", key, formatting).0
    requires ValidMethod(a.unlock) && enrolling.wait < TTL
    requires Sealing(v0.objects, secret, pcrs, pin, enrolling.pcr, enrolling.seal, enrolling.priv, enrolling.pub).1.Ok?
    requires !enrolling.fails(AddSlot) && enrolling.slot < SLOTS_MAX
    requires !enrolling.fails(WriteToken) && enrolling.token < TOKENS_MAX
    requires (v, outcome) == Enroll(v0, a, ByTpm2(pcrs, pin, secret), enrolling)
    requires s.wait >= TTL && Honest(v, TPM2, pin, s) && NoFailure(s)
    requires Pcrs.Parsed(pcrs).Ok? ==> SamePcrs(Sha256, Pcrs.Parsed(pcrs).value, enrolling.pcr, s.pcr)
    ensures outcome.ok && GetVolumeKey(v, Auth(TPM2, "", pin), s).1 == Ok(key)
  {
    ReachableIsGood(before);
    FormatGood(Run(START, before), key, formatting);
    KeylessFormat(Run(START, before), key, formatting);
    KeylessUnlocks(v0, key, a, pcrs, pin, secret, enrolling, v, outcome, s);
  }
}
