/**
 * End-to-end FIDO2 unlock: what an enrollment writes - a credential and a salt in base64, a keyslot made
 * of the authenticator's answer - leads back, through probing, selection and assertion, to the volume key.
 */
module Fido2EndToEnd {
  import opened Common
  import opened Luks2
  import opened VolumeKeyCache
  import opened Lifecycle
  import opened Invariants
  import opened TokenInvariants
  import opened Survival
  import opened EndToEnd
  import Base64
  import Fido2

  /** What authenticators answer for a credential and a salt: each credential lives in one device. */
  type Secrets = map<(Bytes, Bytes), Bytes>

  /** An enrollment, if it is one, recorded what its authenticator will answer again. */
  predicate Truthful(e: Event, secrets: Secrets) {
    e.op.EnrollWith? && e.op.m.ByFido2? && e.op.m.e.Ok? ==> Answered(e.op.m.e.value, secrets)
  }

  predicate Answered(e: Fido2Enrollment, secrets: Secrets) {
    (e.credential, e.salt) in secrets && secrets[(e.credential, e.salt)] == e.hmacSecret
  }

  /** The text a FIDO2 token leads to. */
  function KeyText(t: Token, secrets: Secrets): Option<string> {
    match Fido2RefOf(t)
    case Err(_) => None
    case Ok(ref) =>
      if (ref.credential, ref.salt) in secrets then Some(Base64.Encode(secrets[(ref.credential, ref.salt)])) else None
  }

  /** A slot the token names opens with that text. */
  ghost predicate Keyed(t: Token, h: Header, secrets: Secrets) {
    t.kind == FIDO2 ==>
      && KeyText(t, secrets).Some?
      && exists k: nat :: Names(t, k) && k in h.slots && h.slots[k].secret == KeyText(t, secrets).value
  }

  ghost predicate AllKeyed(h: Header, secrets: Secrets) {
    Wraps(h) && Tidy(h) && forall t :: t in h.tokens ==> Keyed(h.tokens[t], h, secrets)
  }

  lemma TokenReadsBack(credential: Bytes, salt: Bytes, token: Token)
    requires token == Fido2Token(credential, salt).(keyslots := token.keyslots)
    ensures Fido2RefOf(token) == Ok(Fido2Ref(credential, salt))
  {
    Base64.RoundTrip(credential);
    Base64.RoundTrip(salt);
  }

  lemma KeyedAdd(h: Header, key: Bytes, secret: string, s: Schedule, secrets: Secrets)
    requires AllKeyed(h, secrets)
    ensures AddOk(h, key, secret, s, x => AllKeyed(x, secrets))
  {
    TidyAdd(h, key, secret, s);
    WrapsAdd(h, key, secret, s);
    if AddByKey(h, key, secret, s.slot).Some? {
      var h1 := AddByKey(h, key, secret, s.slot).value;
      forall t | t in h1.tokens
        ensures Keyed(h1.tokens[t], h1, secrets)
      {
        assert Keyed(h.tokens[t], h, secrets);
      }
    }
  }

  lemma KeyedEnroll(h: Header, key: Bytes, p: Prepared, s: Schedule, secrets: Secrets)
    requires AllKeyed(h, secrets) && (p.token.kind == FIDO2 ==> KeyText(p.token, secrets) == Some(p.secret))
    ensures EnrollOk(h, key, p, s, x => AllKeyed(x, secrets))
  {
    KeyedAdd(h, key, p.secret, s, secrets);
    TidyEnroll(h, key, p, s);
    WrapsEnroll(h, key, p, s);
    if AddByKey(h, key, p.secret, s.slot).Some? {
      var h1 := AddByKey(h, key, p.secret, s.slot).value;
      var token := Stamped(p.token, s.slot);
      assert AllKeyed(h1, secrets);
      if AddToken(h1, token, s.token).Some? {
        var h2 := AddToken(h1, token, s.token).value;
        StampNames(p.token, s.slot);
        forall t | t in h2.tokens
          ensures Keyed(h2.tokens[t], h2, secrets)
        {
          if t == s.token {
            assert KeyText(token, secrets) == KeyText(p.token, secrets) && Names(token, s.slot);
          } else {
            assert Keyed(h1.tokens[t], h1, secrets);
          }
        }
      }
    }
  }

  lemma KeyedDestroy(h: Header, slot: int, secrets: Secrets)
    requires AllKeyed(h, secrets) && forall t :: t in h.tokens ==> !Names(h.tokens[t], slot)
    ensures DestroyOk(h, slot, x => AllKeyed(x, secrets))
  {
    DestroyUnnamed(h, slot);
    if Luks2.DestroySlot(h, slot).Some? {
      var h1 := Luks2.DestroySlot(h, slot).value;
      forall t | t in h1.tokens
        ensures Keyed(h1.tokens[t], h1, secrets)
      {
        assert Keyed(h.tokens[t], h, secrets);
      }
    }
  }

  lemma {:induction false} KeyedWipe(h: Header, slot: int, secrets: Secrets)
    requires AllKeyed(h, secrets)
    ensures WipeOk(h, slot, FirstNaming(Tokens(h), slot), x => AllKeyed(x, secrets))
  {
    var id := FirstNaming(Tokens(h), slot);
    TokensAreAll(h);
    if id < 0 {
      forall t | t in h.tokens
        ensures !Names(h.tokens[t], slot)
      {
        assert Listed(t, h.tokens[t]) in Tokens(h);
      }
      KeyedDestroy(h, slot, secrets);
    } else {
      var l :| l in Tokens(h) && l.id == id && Names(l.token, slot);
      RemoveNaming(h, slot, id);
      var h1 := Luks2.RemoveToken(h, id).value;
      forall t | t in h1.tokens
        ensures Keyed(h1.tokens[t], h1, secrets)
      {
        assert Keyed(h.tokens[t], h, secrets);
      }
      KeyedDestroy(h1, slot, secrets);
    }
  }

  lemma KeyedClosed(h: Header, op: Op, s: Schedule, secrets: Secrets)
    requires !op.EnrollWith? && (AllKeyed(h, secrets) || op.Format?) && (op.Wipe? ==> !s.fails(FindRead))
    ensures Closed(h, op, s, x => AllKeyed(x, secrets))
  {
    var ok := (x: Header) => AllKeyed(x, secrets);
    match op
    case Format(passphrase, key) => KeyedAdd(Fresh(key), key, passphrase, s, secrets);
    case EnrollP(_, passphrase) =>
      forall key ensures AddOk(h, key, passphrase, s, ok) { KeyedAdd(h, key, passphrase, s, secrets); }
    case Wipe(_, slot) => KeyedWipe(h, slot, secrets);
    case _ =>
  }

  ghost predicate KeyedVolume(v: Volume, secrets: Secrets) {
    History(v, 0, x => AllKeyed(x, secrets))
  }

  /** What each modality prepares; for FIDO2 the slot is made of the answer the token leads to. */
  lemma PrepareIsKeyed(v: Volume, m: Modality, s: Schedule, secrets: Secrets)
    requires m.ByFido2? && m.e.Ok? ==> Answered(m.e.value, secrets)
    ensures var p := Prepare(v, m, s).1;
            p.Ok? && p.value.token.kind == FIDO2 ==> KeyText(p.value.token, secrets) == Some(p.value.secret)
  {
    if m.ByFido2? && m.e.Ok? {
      TokenReadsBack(m.e.value.credential, m.e.value.salt, Fido2Token(m.e.value.credential, m.e.value.salt));
    }
  }

  lemma EnrollTokenKeyed(v: Volume, a: Auth, p: Result<Prepared>, s: Schedule, secrets: Secrets)
    requires KeyedVolume(v, secrets)
    requires p.Ok? && p.value.token.kind == FIDO2 ==> KeyText(p.value.token, secrets) == Some(p.value.secret)
    ensures KeyedVolume(EnrollToken(v, a, p, s).0, secrets)
  {
    var ok := (x: Header) => AllKeyed(x, secrets);
    if v.disk.Some? && p.Ok? {
      assert ok(v.disk.value.header);
      forall key
        ensures EnrollOk(v.disk.value.header, key, p.value, s, ok)
      {
        KeyedEnroll(v.disk.value.header, key, p.value, s, secrets);
      }
    }
    EnrollTokenHistory(v, a, p, s, 0, ok);
  }

  lemma EnrollKeyed(v: Volume, a: Auth, m: Modality, s: Schedule, secrets: Secrets)
    requires KeyedVolume(v, secrets) && (m.ByFido2? && m.e.Ok? ==> Answered(m.e.value, secrets))
    ensures KeyedVolume(Enroll(v, a, m, s).0, secrets)
  {
    PrepareIsKeyed(v, m, s, secrets);
    var prepared := Prepare(v, m, s);
    EnrollTokenKeyed(prepared.0, a, prepared.1, s, secrets);
  }

  lemma PerformKeyed(v: Volume, e: Event, secrets: Secrets)
    requires KeyedVolume(v, secrets) && SeesToken(e) && Truthful(e, secrets)
    ensures KeyedVolume(Perform(v, e.op, e.s), secrets)
  {
    var ok := (x: Header) => AllKeyed(x, secrets);
    if e.op.EnrollWith? {
      EnrollKeyed(v, e.op.a, e.op.m, e.s, secrets);
    } else {
      if v.disk.Some? {
        assert ok(v.disk.value.header);
        KeyedClosed(v.disk.value.header, e.op, e.s, secrets);
      }
      if e.op.Format? {
        KeyedClosed(Fresh(e.op.key), e.op, e.s, secrets);
      }
      PerformHistory(v, e.op, e.s, 0, ok);
    }
  }

  /** Every FIDO2 token any run writes names a slot made of what its credential answers. */
  lemma {:induction false} RunKeyed(v: Volume, events: seq<Event>, secrets: Secrets)
    requires KeyedVolume(v, secrets)
    requires forall i :: 0 <= i < |events| ==> SeesToken(events[i]) && Truthful(events[i], secrets)
    ensures KeyedVolume(Run(v, events), secrets)
  {
    if events != [] {
      RunKeyed(v, events[..|events| - 1], secrets);
      PerformKeyed(Run(v, events[..|events| - 1]), events[|events| - 1], secrets);
    }
  }

  // ----- unlock --------------------------------------------------------------------------------

  /** The devices connected now answer assertions with the secrets of their credentials. */
  ghost predicate Answering(a: Answers, refs: seq<Fido2Ref>, secrets: Secrets) {
    forall d: nat, c: nat :: c < |refs| && a.secret(d, c).Ok? ==>
      (refs[c].credential, refs[c].salt) in secrets
      && a.secret(d, c).value == secrets[(refs[c].credential, refs[c].salt)]
  }

  /** The one device chosen holds credential `c`, does not deny it and asserts it. */
  ghost predicate ChosenAsserts(a: Answers, devices: nat, creds: nat, c: nat) {
    var candidates := Fido2.Candidates(a, devices, creds);
    && candidates != []
    && var d := Fido2.Chosen(a, candidates).dev; Fido2.MayHold(a, d, c) && a.secret(d, c).Ok?
  }

  /** Then some credential of the header is asserted, and its answer is what unlock derives. */
  lemma SomethingAsserted(a: Answers, devices: nat, creds: nat, pin: string, c: nat) returns (k: nat)
    requires c < creds && ChosenAsserts(a, devices, creds, c) && Fido2.Sendable(pin)
    ensures k < creds
    ensures exists d: nat ::
              a.secret(d, k).Ok? && Fido2.Asserted(a, devices, creds, pin) == Some(a.secret(d, k).value)
  {
    var chosen := Fido2.Chosen(a, Fido2.Candidates(a, devices, creds));
    assert c in Fido2.MatchingCreds(a, chosen.dev, creds);
    var i :| 0 <= i < |chosen.creds| && chosen.creds[i] == c;
    var n := Fido2.FirstSecret(a, chosen, 0);
    k := chosen.creds[n];
    assert k in chosen.creds;
  }

  /** The answer of any listed credential opens a keyslot. */
  lemma AnswerOpens(h: Header, ref: Fido2Ref, secrets: Secrets) returns (k: nat)
    requires AllKeyed(h, secrets) && Fido2Refs(Tokens(h)).Ok? && ref in Fido2Refs(Tokens(h)).value
    ensures (ref.credential, ref.salt) in secrets && Opens(h, k, Base64.Encode(secrets[(ref.credential, ref.salt)]))
  {
    TokensAreAll(h);
    var l :| l in Tokens(h) && l.token.kind == FIDO2 && Fido2RefOf(l.token) == Ok(ref);
    assert Keyed(h.tokens[l.id], h, secrets);
    k :| Names(l.token, k) && k in h.slots && h.slots[k].secret == KeyText(l.token, secrets).value;
  }

  lemma KeyedParses(h: Header, secrets: Secrets)
    requires AllKeyed(h, secrets)
    ensures Fido2Refs(Tokens(h)).Ok?
  {
    TokensAreAll(h);
    forall l | l in Tokens(h) && l.token.kind == FIDO2
      ensures Fido2RefOf(l.token).Ok?
    {
      assert Keyed(h.tokens[l.id], h, secrets);
    }
  }

  lemma {:induction false} DerivedAnswer(v: Volume, pin: string, s: Schedule, refs: seq<Fido2Ref>, secret: Bytes)
    requires v.disk.Some? && !s.fails(ReadRefs) && Honest(v, FIDO2, pin, s)
    requires Fido2Refs(Tokens(v.disk.value.header)) == Ok(refs)
    requires Fido2.Asserted(s.keys, s.devices, |refs|, pin) == Some(secret)
    ensures s.derived == Some(Base64.Encode(secret))
  {
  }

  /** On any keyed volume: if the chosen device asserts one listed credential, the unlock succeeds. */
  lemma KeyedUnlocks(v: Volume, secrets: Secrets, pin: string, s: Schedule, c: nat)
    requires KeyedVolume(v, secrets) && v.disk.Some?
    requires Fido2Refs(Tokens(v.disk.value.header)).Ok?
    requires var refs := Fido2Refs(Tokens(v.disk.value.header)).value;
             c < |refs| && Answering(s.keys, refs, secrets) && ChosenAsserts(s.keys, s.devices, |refs|, c)
    requires Fido2.Sendable(pin) && NoFailure(s) && Honest(v, FIDO2, pin, s) && !Live(v.cached, v.now + s.wait)
    ensures GetVolumeKey(v, Auth(FIDO2, "", pin), s).1 == Ok(v.disk.value.header.digest)
  {
    var h := v.disk.value.header;
    var refs := Fido2Refs(Tokens(h)).value;
    CurrentHeader(v, 0, x => AllKeyed(x, secrets));
    var n := SomethingAsserted(s.keys, s.devices, |refs|, pin, c);
    var d: nat :| s.keys.secret(d, n).Ok?
                  && Fido2.Asserted(s.keys, s.devices, |refs|, pin) == Some(s.keys.secret(d, n).value);
    var k := AnswerOpens(h, refs[n], secrets);
    DerivedAnswer(v, pin, s, refs, s.keys.secret(d, n).value);
    OpeningUnlocks(v, FIDO2, pin, s, Base64.Encode(s.keys.secret(d, n).value), k);
  }

  /** The token an enrollment wrote is still listed, as long as its slot was not wiped. */
  lemma EnrolledIsListed(v0: Volume, a: Auth, check: Answers, dev: nat, e: Fido2Enrollment, enrolling: Schedule,
                         v1: Volume, after: seq<Event>, v: Volume, secrets: Secrets) returns (c: nat)
    requires KeyedVolume(v0, secrets) && Answered(e, secrets)
    requires v1 == Enroll(v0, a, ByFido2(check, dev, Ok(e)), enrolling).0
    requires Enroll(v0, a, ByFido2(check, dev, Ok(e)), enrolling).1.ok
    requires forall i :: 0 <= i < |after| ==> Spares(after[i], enrolling.slot)
    requires forall i :: 0 <= i < |after| ==> SeesToken(after[i]) && Truthful(after[i], secrets)
    requires v == Run(v1, after)
    ensures KeyedVolume(v, secrets) && v.disk.Some? && Fido2Refs(Tokens(v.disk.value.header)).Ok?
    ensures var refs := Fido2Refs(Tokens(v.disk.value.header)).value;
            c < |refs| && refs[c] == Fido2Ref(e.credential, e.salt)
  {
    var m, token := ByFido2(check, dev, Ok(e)), Stamped(Fido2Token(e.credential, e.salt), enrolling.slot);
    EnrollKeyed(v0, a, m, enrolling, secrets);
    RunKeyed(v1, after, secrets);
    WrittenToken(v0, a, Prepare(v0, m, enrolling).1, enrolling);
    StampNames(Fido2Token(e.credential, e.salt), enrolling.slot);
    KeyedWraps(v1, secrets);
    TokenSurvives(v1, after, v, enrolling.token, token, enrolling.slot);
    CurrentHeader(v, 0, x => AllKeyed(x, secrets));
    c := ListedAt(v.disk.value.header, enrolling.token, token, e, secrets);
  }

  lemma KeyedWraps(v: Volume, secrets: Secrets)
    requires KeyedVolume(v, secrets)
    ensures History(v, 0, Wraps)
  {
  }

  lemma ListedAt(h: Header, id: nat, token: Token, e: Fido2Enrollment, secrets: Secrets) returns (c: nat)
    requires AllKeyed(h, secrets) && HasToken(h, id, token)
    requires token == Fido2Token(e.credential, e.salt).(keyslots := token.keyslots)
    ensures Fido2Refs(Tokens(h)).Ok?
    ensures c < |Fido2Refs(Tokens(h)).value| && Fido2Refs(Tokens(h)).value[c] == Fido2Ref(e.credential, e.salt)
  {
    KeyedParses(h, secrets);
    TokensAreAll(h);
    TokenReadsBack(e.credential, e.salt, token);
    assert Listed(id, token) in Tokens(h);
    assert Fido2Ref(e.credential, e.salt) in Fido2Refs(Tokens(h)).value;
    c :| 0 <= c < |Fido2Refs(Tokens(h)).value| && Fido2Refs(Tokens(h)).value[c] == Fido2Ref(e.credential, e.salt);
  }

  /**
   * End-to-end FIDO2 unlock. Take any run from nothing, a FIDO2 enrollment that succeeds in it, and any
   * run after it that neither formats the volume nor wipes that slot. If the device chosen now asserts
   * the enrolled credential, an uncached unlock returns the header's volume key, whichever of the
   * header's credentials that device asserts first.
   */
  lemma {:induction false} Fido2UnlockEndToEnd(before: seq<Event>, v0: Volume, a: Auth, check: Answers, dev: nat,
                                               e: Fido2Enrollment, enrolling: Schedule, v1: Volume, after: seq<Event>,
                                               v: Volume, secrets: Secrets, pin: string, s: Schedule)
    requires forall i :: 0 <= i < |before| ==> SeesToken(before[i]) && Truthful(before[i], secrets)
    requires v0 == Run(START, before) && Answered(e, secrets)
    requires v1 == Enroll(v0, a, ByFido2(check, dev, Ok(e)), enrolling).0
    requires Enroll(v0, a, ByFido2(check, dev, Ok(e)), enrolling).1.ok
    requires forall i :: 0 <= i < |after| ==> Spares(after[i], enrolling.slot)
    requires forall i :: 0 <= i < |after| ==> SeesToken(after[i]) && Truthful(after[i], secrets)
    requires v == Run(v1, after) && v.disk.Some?
    requires Fido2Refs(Tokens(v.disk.value.header)).Ok? ==>
               var refs := Fido2Refs(Tokens(v.disk.value.header)).value;
               && Answering(s.keys, refs, secrets)
               && forall c: nat :: c < |refs| && refs[c] == Fido2Ref(e.credential, e.salt) ==>
                    ChosenAsserts(s.keys, s.devices, |refs|, c)
    requires Fido2.Sendable(pin) && NoFailure(s) && Honest(v, FIDO2, pin, s) && !Live(v.cached, v.now + s.wait)
    ensures GetVolumeKey(v, Auth(FIDO2, "", pin), s).1 == Ok(v.disk.value.header.digest)
  {
    RunKeyed(START, before, secrets);
    var c := EnrolledIsListed(v0, a, check, dev, e, enrolling, v1, after, v, secrets);
    KeyedUnlocks(v, secrets, pin, s, c);
  }
}
