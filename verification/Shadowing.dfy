/**
 * When a TPM2 unlock fails although a sound token is there. Unlock takes the first candidate that
 * unseals and never looks further, so a token whose keyslot is gone shadows every sound token behind
 * it. The condition is stated on the header alone, and a run that meets it is given.
 */
module Shadowing {
  import opened Common
  import opened Text
  import opened Luks2
  import opened Tpm2
  import opened VolumeKeyCache
  import opened Lifecycle
  import opened Invariants
  import opened TokenInvariants
  import opened Survival
  import opened EndToEnd
  import Base64
  import Pcrs

  const QUIET: Faults := _ => false

  /** What each token would answer, were it tried and did no call fail. */
  function AnswersOf(objects: Objects, refs: seq<Tpm2Ref>, pin: string, pcr: PcrValues): (r: seq<Result<Bytes>>)
    ensures |r| == |refs|
  {
    seq(|refs|, i requires 0 <= i < |refs| => Unsealing(objects, refs[i], pin, pcr, QUIET))
  }

  /** A TPM2 token and its answer. */
  datatype Tried = Tried(ref: Tpm2Ref, answer: Result<Bytes>)

  /** The token can be tried with or without a PIN, and unseals. */
  predicate Unseals(t: Tried, pinProvided: bool) {
    (t.ref.pinRequired ==> pinProvided) && t.answer.Ok?
  }

  ghost predicate OpensSome(h: Header, secret: Bytes) {
    exists k: nat :: Opens(h, k, Base64.Encode(secret))
  }

  /** The secret opens a keyslot of the header. */
  ghost predicate Sound(h: Header, t: Tried, pinProvided: bool) {
    Unseals(t, pinProvided) && OpensSome(h, t.answer.value)
  }

  /** The token unseals, and its secret opens nothing. */
  ghost predicate Orphan(h: Header, t: Tried, pinProvided: bool) {
    Unseals(t, pinProvided) && !OpensSome(h, t.answer.value)
  }

  /** Tokens that match the PIN come first; within a class, metadata order. */
  predicate Ahead(refs: seq<Tpm2Ref>, i: nat, j: nat, pinProvided: bool)
    requires i < |refs| && j < |refs|
  {
    var a, b := refs[i].pinRequired == pinProvided, refs[j].pinRequired == pinProvided;
    if a == b then i < j else a
  }

  /** Some sound token is ahead of every orphan. */
  ghost predicate Unshadowed(h: Header, refs: seq<Tpm2Ref>, answers: seq<Result<Bytes>>, p: bool)
    requires |answers| == |refs|
  {
    exists i: nat :: i < |refs| && Sound(h, Tried(refs[i], answers[i]), p) && AheadOfOrphans(h, refs, answers, p, i)
  }

  ghost predicate AheadOfOrphans(h: Header, refs: seq<Tpm2Ref>, answers: seq<Result<Bytes>>, p: bool, i: nat)
    requires |answers| == |refs| && i < |refs|
  {
    forall j: nat :: j < |refs| && Orphan(h, Tried(refs[j], answers[j]), p) ==> Ahead(refs, i, j, p)
  }

  // ----- the first success, in header terms ----------------------------------------------------

  lemma {:induction false} RetainSnoc(ts: seq<Tpm2Ref>, x: Tpm2Ref, keep: Tpm2Ref -> bool)
    ensures Retain(ts + [x], keep) == Retain(ts, keep) + if keep(x) then [x] else []
  {
    assert (ts + [x])[..|ts|] == ts;
  }

  /** Where a retained element stood: what was kept before it stood before it. */
  lemma {:induction false} RetainedAt(ts: seq<Tpm2Ref>, keep: Tpm2Ref -> bool, m: nat) returns (j: nat)
    requires m < |Retain(ts, keep)|
    ensures j < |ts| && ts[j] == Retain(ts, keep)[m] && keep(ts[j])
    ensures forall i :: 0 <= i < j && keep(ts[i]) ==> ts[i] in Retain(ts, keep)[..m]
  {
    var init, x, r := ts[..|ts| - 1], ts[|ts| - 1], Retain(ts[..|ts| - 1], keep);
    assert ts == init + [x];
    RetainSnoc(init, x, keep);
    if m < |r| {
      j := RetainedAt(init, keep, m);
      assert Retain(ts, keep)[..m] == r[..m];
    } else {
      j := |ts| - 1;
      assert Retain(ts, keep)[..m] == r;
      forall i | 0 <= i < j && keep(ts[i])
        ensures ts[i] in r
      {
        assert ts[i] == init[i] && init[i] in init;
      }
    }
  }

  /** The same for the preference order. */
  lemma PreferredAt(refs: seq<Tpm2Ref>, p: bool, m: nat) returns (j: nat)
    requires m < |Preferred(refs, p)|
    ensures j < |refs| && refs[j] == Preferred(refs, p)[m]
    ensures forall i: nat :: i < |refs| && Ahead(refs, i, j, p) && (refs[i].pinRequired ==> p) ==>
              refs[i] in Preferred(refs, p)[..m]
  {
    var a := Retain(refs, (t: Tpm2Ref) => t.pinRequired == p);
    if m < |a| {
      j := RetainedAt(refs, (t: Tpm2Ref) => t.pinRequired == p, m);
      assert Preferred(refs, p)[..m] == a[..m];
    } else {
      var b := Retain(refs, (t: Tpm2Ref) => !t.pinRequired);
      j := RetainedAt(refs, (t: Tpm2Ref) => !t.pinRequired, m - |a|);
      assert Preferred(refs, p)[..m] == a + b[..m - |a|];
      forall i: nat | i < |refs| && Ahead(refs, i, j, p) && (refs[i].pinRequired ==> p)
        ensures refs[i] in Preferred(refs, p)[..m]
      {
        if refs[i].pinRequired == p { assert refs[i] in a; }
      }
    }
  }

  /** The results, in preference order, are the answers of the tokens tried. */
  predicate Match(refs: seq<Tpm2Ref>, answers: seq<Result<Bytes>>, cands: seq<Tpm2Ref>, results: seq<Result<Bytes>>) {
    && |answers| == |refs| && |results| == |cands|
    && forall n, i :: 0 <= n < |cands| && 0 <= i < |refs| && cands[n] == refs[i] ==> results[n] == answers[i]
  }

  lemma TriedInVain(refs: seq<Tpm2Ref>, answers: seq<Result<Bytes>>, cands: seq<Tpm2Ref>, results: seq<Result<Bytes>>,
                    m: nat, i: nat)
    requires Match(refs, answers, cands, results) && m <= |cands| && i < |refs| && refs[i] in cands[..m]
    requires forall n :: 0 <= n < m ==> results[n].Err?
    ensures answers[i].Err?
  {
    var n :| 0 <= n < m && cands[n] == refs[i];
  }

  /** The first success is the answer of a token ahead of which none unseals. */
  lemma FirstIsForemost(refs: seq<Tpm2Ref>, answers: seq<Result<Bytes>>, p: bool, results: seq<Result<Bytes>>, m: nat)
    returns (j: nat)
    requires Match(refs, answers, Preferred(refs, p), results)
    requires m < |results| && results[m].Ok? && forall n :: 0 <= n < m ==> results[n].Err?
    ensures j < |refs| && Unseals(Tried(refs[j], answers[j]), p) && answers[j] == results[m]
    ensures forall i: nat :: i < |refs| && Unseals(Tried(refs[i], answers[i]), p) ==> !Ahead(refs, i, j, p)
  {
    var cands := Preferred(refs, p);
    j := PreferredAt(refs, p, m);
    assert refs[j] in cands && answers[j] == results[m];
    forall i: nat | i < |refs| && Ahead(refs, i, j, p)
      ensures !Unseals(Tried(refs[i], answers[i]), p)
    {
      if refs[i].pinRequired ==> p {
        TriedInVain(refs, answers, cands, results, m, i);
      }
    }
  }

  lemma {:induction false} SomethingUnseals(refs: seq<Tpm2Ref>, answers: seq<Result<Bytes>>, p: bool,
                                            results: seq<Result<Bytes>>, i: nat)
    requires Match(refs, answers, Preferred(refs, p), results)
    requires i < |refs| && Unseals(Tried(refs[i], answers[i]), p)
    ensures FirstOk(results, 0) < |results|
  {
    var cands := Preferred(refs, p);
    assert refs[i] in cands;
    var n :| 0 <= n < |cands| && cands[n] == refs[i];
    assert results[n].Ok?;
  }

  lemma ForemostDecides(h: Header, refs: seq<Tpm2Ref>, answers: seq<Result<Bytes>>, p: bool, j: nat)
    requires |answers| == |refs| && j < |refs| && Unseals(Tried(refs[j], answers[j]), p)
    requires forall i: nat :: i < |refs| && Unseals(Tried(refs[i], answers[i]), p) ==> !Ahead(refs, i, j, p)
    ensures OpensSome(h, answers[j].value) <==> Unshadowed(h, refs, answers, p)
  {
    if OpensSome(h, answers[j].value) {
      forall i: nat | i < |refs| && Orphan(h, Tried(refs[i], answers[i]), p)
        ensures Ahead(refs, j, i, p)
      {
        assert i != j && !Ahead(refs, i, j, p);
      }
      assert Sound(h, Tried(refs[j], answers[j]), p) && AheadOfOrphans(h, refs, answers, p, j);
    } else {
      assert Orphan(h, Tried(refs[j], answers[j]), p);
    }
  }

  /** The first success opens a keyslot exactly when no orphan shadows the sound tokens. */
  lemma {:induction false} FirstOpensIff(h: Header, refs: seq<Tpm2Ref>, answers: seq<Result<Bytes>>, p: bool,
                                         results: seq<Result<Bytes>>)
    requires Match(refs, answers, Preferred(refs, p), results)
    ensures FirstOk(results, 0) < |results| && OpensSome(h, results[FirstOk(results, 0)].value)
       <==> Unshadowed(h, refs, answers, p)
  {
    if FirstOk(results, 0) < |results| {
      var j := FirstIsForemost(refs, answers, p, results, FirstOk(results, 0));
      ForemostDecides(h, refs, answers, p, j);
    } else if Unshadowed(h, refs, answers, p) {
      var i: nat :| i < |refs| && Sound(h, Tried(refs[i], answers[i]), p);
      SomethingUnseals(refs, answers, p, results, i);
      assert false;
    }
  }

  lemma QuietAttempt(objects: Objects, ref: Tpm2Ref, pin: string, pcr: PcrValues, fails: Faults, fails': Faults)
    requires Quiet(fails) && Quiet(fails')
    ensures Unsealing(objects, ref, pin, pcr, fails) == Unsealing(objects, ref, pin, pcr, fails')
  {
    assert !fails(Connect) && !SrkFails(fails) && !fails'(Connect) && !SrkFails(fails');
    var parts := UnmarshalBlob(ref.blob);
    if parts.Some? && parts.value in objects {
      QuietUnsealing(objects, ref, pin, pcr, fails, parts.value);
      QuietUnsealing(objects, ref, pin, pcr, fails', parts.value);
      QuietErrors(objects, ref, pin, pcr, fails);
      QuietErrors(objects, ref, pin, pcr, fails');
    }
  }

  lemma QuietErrors(objects: Objects, ref: Tpm2Ref, pin: string, pcr: PcrValues, fails: Faults)
    requires Quiet(fails) && UnmarshalBlob(ref.blob).Some? && UnmarshalBlob(ref.blob).value in objects
    ensures var r := Unsealing(objects, ref, pin, pcr, fails);
            r.Err? ==> r.message == if Pcrs.Parsed(ref.pcrs).Err? then Pcrs.Parsed(ref.pcrs).message
                                    else "Esys_Unseal failed"
  {
    assert !fails(Connect) && !SrkFails(fails) && !fails(Load) && !fails(StartSession) && !fails(PolicyPcr);
    assert !fails(PolicyAuthValue) && !fails(Unseal);
  }

  lemma AttemptsMatch(objects: Objects, refs: seq<Tpm2Ref>, cands: seq<Tpm2Ref>, pin: string, pcr: PcrValues,
                      fails: AttemptFaults)
    requires forall i :: Quiet(fails(i))
    ensures Match(refs, AnswersOf(objects, refs, pin, pcr), cands, Attempts(objects, cands, pin, pcr, fails))
  {
    forall n: nat, i: nat | n < |cands| && i < |refs| && cands[n] == refs[i]
      ensures Attempts(objects, cands, pin, pcr, fails)[n] == AnswersOf(objects, refs, pin, pcr)[i]
    {
      QuietAttempt(objects, cands[n], pin, pcr, fails(n), QUIET);
    }
  }

  /**
   * The exact condition: with no failing call, an uncached TPM2 unlock of any well-formed header
   * succeeds iff its TPM2 tokens parse and some sound one is ahead of every orphan.
   */
  lemma UnlocksIffUnshadowed(v: Volume, pin: string, s: Schedule)
    requires v.disk.Some? && WellFormed(v.disk.value.header) && NoFailure(s) && Honest(v, TPM2, pin, s)
    requires !Live(v.cached, v.now + s.wait)
    ensures GetVolumeKey(v, Auth(TPM2, "", pin), s).1.Ok?
       <==> var refs := Tpm2Refs(Tokens(v.disk.value.header));
            && refs.Ok?
            && Unshadowed(v.disk.value.header, refs.value, AnswersOf(v.objects, refs.value, pin, s.pcr), pin != "")
  {
    var h, refs := v.disk.value.header, Tpm2Refs(Tokens(v.disk.value.header));
    UnlocksIffDerivedOpens(v, TPM2, pin, s);
    DerivedUnsealed(v, pin, s);
    if refs.Ok? {
      var cands := Preferred(refs.value, pin != "");
      AttemptsMatch(v.objects, refs.value, cands, pin, s.pcr, s.unseal);
      FirstOpensIff(h, refs.value, AnswersOf(v.objects, refs.value, pin, s.pcr), pin != "",
                    Attempts(v.objects, cands, pin, s.pcr, s.unseal));
    }
  }

  lemma DerivedUnsealed(v: Volume, pin: string, s: Schedule)
    requires v.disk.Some? && NoFailure(s) && Honest(v, TPM2, pin, s)
    ensures var refs := Tpm2Refs(Tokens(v.disk.value.header));
            && (refs.Err? ==> s.derived.None?)
            && (refs.Ok? ==>
                  var results := Attempts(v.objects, Preferred(refs.value, pin != ""), pin, s.pcr, s.unseal);
                  var first := FirstOk(results, 0);
                  s.derived == if first == |results| then None else Some(Base64.Encode(results[first].value)))
  {
  }

  // ----- a run that leads there ----------------------------------------------------------------

  lemma {:induction false} NoneListed(tokens: map<nat, Token>, order: seq<nat>)
    requires forall n :: n in order ==> n !in tokens
    ensures ListedIn(tokens, order) == []
  {
    if order != [] {
      assert order[0] in order && forall n :: n in order[1..] ==> n in order;
      NoneListed(tokens, order[1..]);
    }
  }

  lemma {:induction false} ListedFirst(tokens: map<nat, Token>, id: nat, rest: seq<nat>)
    requires id in tokens
    ensures ListedIn(tokens, [id] + rest) == [Listed(id, tokens[id])] + ListedIn(tokens, rest)
  {
    assert ([id] + rest)[1..] == rest;
  }

  lemma {:induction false} TwoListedIn(tokens: map<nat, Token>, order: seq<nat>, rest: seq<nat>)
    requires tokens.Keys == {0, 1} && order == [0] + ([1] + rest) && forall n :: n in rest ==> n > 1
    ensures ListedIn(tokens, order) == [Listed(0, tokens[0])] + [Listed(1, tokens[1])]
  {
    ListedFirst(tokens, 0, [1] + rest);
    ListedFirst(tokens, 1, rest);
    NoneListed(tokens, rest);
  }

  lemma TwoListed(h: Header)
    requires h.tokens.Keys == {0, 1}
    ensures Tokens(h) == [Listed(0, h.tokens[0])] + [Listed(1, h.tokens[1])]
  {
    assert forall n :: n in JSON_TAIL ==> n > 1;
    TwoListedIn(h.tokens, JSON_ORDER, JSON_TAIL);
  }

  lemma {:induction false} RefFirst(l: Listed, rest: seq<Listed>, x: Tpm2Ref, xs: seq<Tpm2Ref>)
    requires l.token.kind == TPM2 && Tpm2RefOf(l) == Ok(x) && Tpm2Refs(rest) == Ok(xs)
    ensures Tpm2Refs([l] + rest) == Ok([x] + xs)
  {
    assert ([l] + rest)[1..] == rest;
  }

  lemma TwoRefs(a: Listed, b: Listed, x: Tpm2Ref, y: Tpm2Ref)
    requires a.token.kind == TPM2 && b.token.kind == TPM2 && Tpm2RefOf(a) == Ok(x) && Tpm2RefOf(b) == Ok(y)
    ensures Tpm2Refs([a] + [b]) == Ok([x, y])
  {
    RefFirst(b, [], y, []);
    assert [b] + [] == [b] && [y] + [] == [y];
    RefFirst(a, [b], x, [y]);
    assert [x] + [y] == [x, y];
  }

  /** Of two tokens of the same PIN class, the first in metadata order an orphan: the second is shadowed. */
  lemma OrphanShadows(h: Header, x: Tpm2Ref, y: Tpm2Ref, answers: seq<Result<Bytes>>, p: bool)
    requires |answers| == 2 && x.pinRequired == y.pinRequired && Orphan(h, Tried(x, answers[0]), p)
    ensures !Unshadowed(h, [x, y], answers, p)
  {
    var refs := [x, y];
    forall i: nat | i < 2 && Sound(h, Tried(refs[i], answers[i]), p)
      ensures !AheadOfOrphans(h, refs, answers, p, i)
    {
      assert Orphan(h, Tried(refs[0], answers[0]), p) && !Ahead(refs, i, 0, p);
    }
  }

  /** The token a TPM2 enrollment writes. */
  function Written(sealed: Result<Bytes>, pcrs: string, pin: string, slot: nat): Token
    requires sealed.Ok? && Pcrs.TokenList(Pcrs.Segments(pcrs)).Ok?
  {
    Stamped(Tpm2Token(sealed.value, Pcrs.TokenList(Pcrs.Segments(pcrs)).value, pin != ""), slot)
  }

  lemma CachedPrepared(v: Volume, at: nat, a: Auth, p: Prepared, s: Schedule)
    requires v.disk.Some? && v.cached == Some(Entry(v.disk.value.header.digest, at)) && v.now + s.wait < at + TTL
    requires ValidMethod(a.unlock)
    requires !s.fails(AddSlot) && s.slot < SLOTS_MAX && s.slot !in v.disk.value.header.slots
    requires !s.fails(WriteToken) && s.token < TOKENS_MAX && s.token !in v.disk.value.header.tokens
    ensures var h, w := v.disk.value.header, EnrollToken(v, a, Ok(p), s).0;
            && w.cached == v.cached && w.now == v.now + s.wait && w.objects == v.objects
            && w.disk.Some? && w.disk.value.header
               == h.(slots := h.slots[s.slot := Keyslot(p.secret, h.digest)],
                     tokens := h.tokens[s.token := Stamped(p.token, s.slot)])
  {
    var v1 := v.(now := v.now + s.wait);
    assert GetVolumeKey(v, a, s) == (v1, Ok(v.disk.value.header.digest));
    EnrollOutcome(v1, v.disk.value.header.digest, p, s);
  }

  /** While the volume key is cached, an enrollment whose calls go through adds exactly its slot and its token. */
  lemma {:induction false} CachedEnrollment(v: Volume, at: nat, a: Auth, pcrs: string, pin: string, secret: Bytes,
                                            s: Schedule, w: Volume)
    requires v.disk.Some? && v.cached == Some(Entry(v.disk.value.header.digest, at)) && v.now + s.wait < at + TTL
    requires ValidMethod(a.unlock) && w == Enroll(v, a, ByTpm2(pcrs, pin, secret), s).0
    requires Sealing(v.objects, secret, pcrs, pin, s.pcr, s.seal, s.priv, s.pub).1.Ok?
    requires !s.fails(AddSlot) && s.slot < SLOTS_MAX && s.slot !in v.disk.value.header.slots
    requires !s.fails(WriteToken) && s.token < TOKENS_MAX && s.token !in v.disk.value.header.tokens
    ensures Pcrs.TokenList(Pcrs.Segments(pcrs)).Ok?
    ensures var h, sealing := v.disk.value.header, Sealing(v.objects, secret, pcrs, pin, s.pcr, s.seal, s.priv, s.pub);
            && w.cached == v.cached && w.now == v.now + s.wait && w.objects == sealing.0
            && w.disk.Some? && w.disk.value.header
               == h.(slots := h.slots[s.slot := Keyslot(Base64.Encode(secret), h.digest)],
                     tokens := h.tokens[s.token := Written(sealing.1, pcrs, pin, s.slot)])
  {
    var sealing := Sealing(v.objects, secret, pcrs, pin, s.pcr, s.seal, s.priv, s.pub);
    SealingFacts(v.objects, secret, pcrs, pin, s.pcr, s.seal, s.priv, s.pub);
    Pcrs.TokenListAgrees(Pcrs.Segments(pcrs));
    CachedPrepared(v.(objects := sealing.0), at, a, PrepareTpm2(sealing.1, pcrs, pin, secret).value, s);
  }

  /** What the token of a sealed secret answers in any later registry, under the same PIN and registers. */
  lemma WrittenAnswers(objects: Objects, pcrs: string, pin: string, secret: Bytes, e: Schedule, later: Objects,
                       id: nat, pcr: PcrValues) returns (ref: Tpm2Ref)
    requires var sealing := Sealing(objects, secret, pcrs, pin, e.pcr, e.seal, e.priv, e.pub);
             sealing.1.Ok? && Grows(sealing.0, later)
    requires Pcrs.Parsed(pcrs).Ok? ==> SamePcrs(Sha256, Pcrs.Parsed(pcrs).value, e.pcr, pcr)
    ensures Pcrs.TokenList(Pcrs.Segments(pcrs)).Ok? && ref.pinRequired == (pin != "")
    ensures var sealed := Sealing(objects, secret, pcrs, pin, e.pcr, e.seal, e.priv, e.pub).1;
            Tpm2RefOf(Listed(id, Written(sealed, pcrs, pin, e.slot))) == Ok(ref)
    ensures Unsealing(later, ref, pin, pcr, QUIET) == Ok(secret)
  {
    var sealed := Sealing(objects, secret, pcrs, pin, e.pcr, e.seal, e.priv, e.pub).1;
    SealThenUnseal(objects, secret, pcrs, pin, e.pcr, e.seal, e.priv, e.pub, later, id, pcr, QUIET);
    var list := Pcrs.TokenList(Pcrs.Segments(pcrs)).value;
    ref := Tpm2Ref(id, sealed.value, Join(Pcrs.ShowAll(list)), "sha256", pin != "");
    TokenReadsBack(sealed.value, list, pin != "", id, Written(sealed, pcrs, pin, e.slot));
  }

  /** A wipe whose token lookup alone fails takes the slot and leaves the token. */
  lemma SilentWipe(v: Volume, at: nat, a: Auth, slot: nat, s: Schedule)
    requires v.disk.Some? && v.cached == Some(Entry(v.disk.value.header.digest, at)) && v.now + s.wait < at + TTL
    requires ValidMethod(a.unlock) && slot in v.disk.value.header.slots && v.disk.value.header.slots.Keys != {slot}
    requires s.fails(FindRead) && !s.fails(GuardRead) && !s.fails(DropSlot)
    ensures var h, w := v.disk.value.header, WipeSlot(v, a, slot, s).0;
            && w.cached == v.cached && w.now == v.now + s.wait && w.objects == v.objects
            && w.disk.Some? && w.disk.value.header == h.(slots := h.slots - {slot})
  {
    var v1 := v.(now := v.now + s.wait);
    assert GetVolumeKey(v, a, s) == (v1, Ok(v.disk.value.header.digest));
    GuardOutcome(v1, slot, s);
    WipeOutcome(v1, slot, s);
    var r := WipeGuarded(v1, slot, s).0;
    assert r.(disk := v1.disk) == v1;
  }

  lemma {:induction false} OnlyOwnSecretOpens(h: Header, slot: nat, secretA: Bytes, secretB: Bytes)
    requires h.slots == map[slot := Keyslot(Base64.Encode(secretB), h.digest)] && secretA != secretB
    ensures OpensSome(h, secretB) && !OpensSome(h, secretA)
  {
    Base64.RoundTrip(secretA);
    Base64.RoundTrip(secretB);
    assert Opens(h, slot, Base64.Encode(secretB));
  }

  /** A header left with one slot and both tokens, the first token's secret gone. */
  lemma {:induction false} OrphanedIsShadowed(h: Header, slot: nat, secretA: Bytes, secretB: Bytes, x: Tpm2Ref,
                                              y: Tpm2Ref, answers: seq<Result<Bytes>>, p: bool)
    requires h.slots == map[slot := Keyslot(Base64.Encode(secretB), h.digest)] && secretA != secretB
    requires h.tokens.Keys == {0, 1} && h.tokens[0].kind == TPM2 && h.tokens[1].kind == TPM2
    requires Tpm2RefOf(Listed(0, h.tokens[0])) == Ok(x) && Tpm2RefOf(Listed(1, h.tokens[1])) == Ok(y)
    requires answers == [Ok(secretA), Ok(secretB)] && x.pinRequired == p && y.pinRequired == p
    ensures Tpm2Refs(Tokens(h)) == Ok([x, y])
    ensures Sound(h, Tried(y, answers[1]), p) && !Unshadowed(h, [x, y], answers, p)
  {
    TwoListed(h);
    TwoRefs(Listed(0, h.tokens[0]), Listed(1, h.tokens[1]), x, y);
    OnlyOwnSecretOpens(h, slot, secretA, secretB);
    OrphanShadows(h, x, y, answers, p);
  }

  /** Two tokens enrolled with the same PCRs and PIN, while the cached key lasts. */
  ghost predicate BothEnrolled(v: Volume, at: nat, key: Bytes, slotA: nat, secretA: Bytes, tA: Token,
                               slotB: nat, secretB: Bytes, tB: Token)
  {
    && v.disk.Some? && v.cached == Some(Entry(key, at)) && slotA != slotB
    && v.disk.value.header
       == Header(key, map[slotA := Keyslot(Base64.Encode(secretA), key), slotB := Keyslot(Base64.Encode(secretB), key)],
                 map[0 := tA, 1 := tB])
  }

  /** Wiping the first while its token cannot be looked up takes its keyslot alone. */
  lemma {:induction false} WipedAlone(v: Volume, at: nat, key: Bytes, slotA: nat, secretA: Bytes, tA: Token,
                                      slotB: nat, secretB: Bytes, tB: Token, a: Auth, s: Schedule, w: Volume)
    requires BothEnrolled(v, at, key, slotA, secretA, tA, slotB, secretB, tB)
    requires ValidMethod(a.unlock) && v.now + s.wait < at + TTL && w == WipeSlot(v, a, slotA, s).0
    requires s.fails(FindRead) && !s.fails(GuardRead) && !s.fails(DropSlot)
    ensures w.cached == v.cached && w.now == v.now + s.wait && w.objects == v.objects && w.disk.Some?
    ensures w.disk.value.header
         == Header(key, map[slotB := Keyslot(Base64.Encode(secretB), key)], map[0 := tA, 1 := tB])
  {
    TwoLessOne(slotA, Keyslot(Base64.Encode(secretA), key), slotB, Keyslot(Base64.Encode(secretB), key));
    SilentWipe(v, at, a, slotA, s);
  }

  lemma TwoLessOne(a: nat, x: Keyslot, b: nat, y: Keyslot)
    requires a != b
    ensures var m: map<nat, Keyslot> := map[a := x, b := y];
            a in m && m.Keys != {a} && m - {a} == map[b := y]
  {
    var m: map<nat, Keyslot> := map[a := x, b := y];
    assert b in m.Keys && b !in {a};
  }

  lemma ShadowedUnlockFails(v: Volume, pin: string, s: Schedule, refs: seq<Tpm2Ref>, answers: seq<Result<Bytes>>)
    requires v.disk.Some? && WellFormed(v.disk.value.header) && NoFailure(s) && Honest(v, TPM2, pin, s)
    requires !Live(v.cached, v.now + s.wait)
    requires Tpm2Refs(Tokens(v.disk.value.header)) == Ok(refs) && answers == AnswersOf(v.objects, refs, pin, s.pcr)
    requires !Unshadowed(v.disk.value.header, refs, answers, pin != "")
    ensures GetVolumeKey(v, Auth(TPM2, "", pin), s).1.Err?
  {
    UnlocksIffUnshadowed(v, pin, s);
  }

  lemma TwoAnswers(objects: Objects, x: Tpm2Ref, y: Tpm2Ref, pin: string, pcr: PcrValues)
    ensures AnswersOf(objects, [x, y], pin, pcr)
         == [Unsealing(objects, x, pin, pcr, QUIET), Unsealing(objects, y, pin, pcr, QUIET)]
  {
  }

  /** What is left is shadowed in the registry and under the registers of the unlock. */
  lemma LeftIsShadowed(h: Header, objects: Objects, slot: nat, secretA: Bytes, secretB: Bytes, x: Tpm2Ref, y: Tpm2Ref,
                       pin: string, pcr: PcrValues) returns (refs: seq<Tpm2Ref>)
    requires h.slots == map[slot := Keyslot(Base64.Encode(secretB), h.digest)] && secretA != secretB
    requires h.tokens.Keys == {0, 1} && h.tokens[0].kind == TPM2 && h.tokens[1].kind == TPM2
    requires Tpm2RefOf(Listed(0, h.tokens[0])) == Ok(x) && Tpm2RefOf(Listed(1, h.tokens[1])) == Ok(y)
    requires Unsealing(objects, x, pin, pcr, QUIET) == Ok(secretA) && x.pinRequired == (pin != "")
    requires Unsealing(objects, y, pin, pcr, QUIET) == Ok(secretB) && y.pinRequired == (pin != "")
    ensures Tpm2Refs(Tokens(h)) == Ok(refs) && Sound(h, Tried(y, Ok(secretB)), pin != "")
    ensures !Unshadowed(h, refs, AnswersOf(objects, refs, pin, pcr), pin != "")
  {
    refs := [x, y];
    var answers := AnswersOf(objects, refs, pin, pcr);
    TwoAnswers(objects, x, y, pin, pcr);
    OrphanedIsShadowed(h, slot, secretA, secretB, x, y, answers, pin != "");
  }

  lemma TwoEnrollments(v1: Volume, key: Bytes, a: Auth, pcrs: string, pin: string, secretA: Bytes, sA: Schedule,
                       v2: Volume, secretB: Bytes, sB: Schedule, v3: Volume) returns (tA: Token, tB: Token)
    requires v1.disk.Some? && v1.disk.value.header == Fresh(key) && v1.cached == Some(Entry(key, v1.now))
    requires v2 == Enroll(v1, a, ByTpm2(pcrs, pin, secretA), sA).0
    requires v3 == Enroll(v2, a, ByTpm2(pcrs, pin, secretB), sB).0
    requires ValidMethod(a.unlock) && sA.wait + sB.wait < TTL
    requires Sealing(v1.objects, secretA, pcrs, pin, sA.pcr, sA.seal, sA.priv, sA.pub).1.Ok?
    requires Sealing(v2.objects, secretB, pcrs, pin, sB.pcr, sB.seal, sB.priv, sB.pub).1.Ok?
    requires !sA.fails(AddSlot) && !sA.fails(WriteToken) && !sB.fails(AddSlot) && !sB.fails(WriteToken)
    requires sA.slot < SLOTS_MAX && sB.slot < SLOTS_MAX && sA.slot != sB.slot && sA.token == 0 && sB.token == 1
    ensures BothEnrolled(v3, v1.now, key, sA.slot, secretA, tA, sB.slot, secretB, tB)
    ensures v3.now == v1.now + sA.wait + sB.wait && Pcrs.TokenList(Pcrs.Segments(pcrs)).Ok?
    ensures var sealA := Sealing(v1.objects, secretA, pcrs, pin, sA.pcr, sA.seal, sA.priv, sA.pub);
            var sealB := Sealing(v2.objects, secretB, pcrs, pin, sB.pcr, sB.seal, sB.priv, sB.pub);
            && Grows(sealA.0, v3.objects) && v3.objects == sealB.0
            && tA == Written(sealA.1, pcrs, pin, sA.slot) && tB == Written(sealB.1, pcrs, pin, sB.slot)
  {
    CachedEnrollment(v1, v1.now, a, pcrs, pin, secretA, sA, v2);
    CachedEnrollment(v2, v1.now, a, pcrs, pin, secretB, sB, v3);
    SealingGrows(v2.objects, secretB, pcrs, pin, sB.pcr, sB.seal, sB.priv, sB.pub);
    tA, tB := v3.disk.value.header.tokens[0], v3.disk.value.header.tokens[1];
  }

  lemma {:induction false} SmallHeader(h: Header, key: Bytes, slot: nat, secret: Bytes, tA: Token, tB: Token)
    requires slot < SLOTS_MAX
    requires h == Header(key, map[slot := Keyslot(Base64.Encode(secret), key)], map[0 := tA, 1 := tB])
    ensures WellFormed(h) && h.slots == map[slot := Keyslot(Base64.Encode(secret), h.digest)]
    ensures h.tokens.Keys == {0, 1} && h.tokens[0] == tA && h.tokens[1] == tB
  {
  }

  lemma {:induction false} LeftUnlockFails(v: Volume, slotB: nat, secretA: Bytes, secretB: Bytes, pin: string,
                                           s: Schedule, x: Tpm2Ref, y: Tpm2Ref)
    requires v.disk.Some? && WellFormed(v.disk.value.header) && secretA != secretB
    requires var h := v.disk.value.header;
             && h.slots == map[slotB := Keyslot(Base64.Encode(secretB), h.digest)]
             && h.tokens.Keys == {0, 1} && h.tokens[0].kind == TPM2 && h.tokens[1].kind == TPM2
             && Tpm2RefOf(Listed(0, h.tokens[0])) == Ok(x) && Tpm2RefOf(Listed(1, h.tokens[1])) == Ok(y)
    requires Unsealing(v.objects, x, pin, s.pcr, QUIET) == Ok(secretA) && x.pinRequired == (pin != "")
    requires Unsealing(v.objects, y, pin, s.pcr, QUIET) == Ok(secretB) && y.pinRequired == (pin != "")
    requires NoFailure(s) && Honest(v, TPM2, pin, s) && !Live(v.cached, v.now + s.wait)
    ensures Sound(v.disk.value.header, Tried(y, Ok(secretB)), pin != "")
    ensures GetVolumeKey(v, Auth(TPM2, "", pin), s).1.Err?
  {
    var refs := LeftIsShadowed(v.disk.value.header, v.objects, slotB, secretA, secretB, x, y, pin, s.pcr);
    ShadowedUnlockFails(v, pin, s, refs, AnswersOf(v.objects, refs, pin, s.pcr));
  }

  /**
   * A run that leads there, whatever came before: format without a keyslot, enroll A, enroll B with the
   * same PCRs and PIN, wipe A while its token cannot be looked up. B's token and keyslot are intact and
   * its secret unseals, yet with no call failing the unlock does.
   */
  lemma ShadowingIsReachable(before: seq<Event>, key: Bytes, f: Schedule, v1: Volume, a: Auth, pcrs: string,
                             pin: string, secretA: Bytes, sA: Schedule, v2: Volume, secretB: Bytes, sB: Schedule,
                             v3: Volume, w: Schedule, v: Volume, s: Schedule) returns (tB: Token, y: Tpm2Ref)
    requires !f.fails(InitFormat) && !f.fails(WriteFormat) && v1 == FormatContainer(Run(START, before), "", key, f).0
    requires v2 == Enroll(v1, a, ByTpm2(pcrs, pin, secretA), sA).0
    requires v3 == Enroll(v2, a, ByTpm2(pcrs, pin, secretB), sB).0
    requires v == WipeSlot(v3, a, sA.slot, w).0
    requires ValidMethod(a.unlock) && sA.wait + sB.wait + w.wait < TTL && secretA != secretB
    requires Sealing(v1.objects, secretA, pcrs, pin, sA.pcr, sA.seal, sA.priv, sA.pub).1.Ok?
    requires Sealing(v2.objects, secretB, pcrs, pin, sB.pcr, sB.seal, sB.priv, sB.pub).1.Ok?
    requires !sA.fails(AddSlot) && !sA.fails(WriteToken) && !sB.fails(AddSlot) && !sB.fails(WriteToken)
    requires sA.slot < SLOTS_MAX && sB.slot < SLOTS_MAX && sA.slot != sB.slot && sA.token == 0 && sB.token == 1
    requires w.fails(FindRead) && !w.fails(GuardRead) && !w.fails(DropSlot)
    requires Pcrs.Parsed(pcrs).Ok? ==> SamePcrs(Sha256, Pcrs.Parsed(pcrs).value, sA.pcr, s.pcr)
    requires Pcrs.Parsed(pcrs).Ok? ==> SamePcrs(Sha256, Pcrs.Parsed(pcrs).value, sB.pcr, s.pcr)
    requires NoFailure(s) && Honest(v, TPM2, pin, s) && s.wait >= TTL
    ensures v.disk.Some? && HasToken(v.disk.value.header, 1, tB) && Tpm2RefOf(Listed(1, tB)) == Ok(y)
    ensures Sound(v.disk.value.header, Tried(y, Ok(secretB)), pin != "")
    ensures GetVolumeKey(v, Auth(TPM2, "", pin), s).1.Err?
  {
    KeylessFormat(Run(START, before), key, f);
    var tA;
    tA, tB := TwoEnrollments(v1, key, a, pcrs, pin, secretA, sA, v2, secretB, sB, v3);
    WipedAlone(v3, v1.now, key, sA.slot, secretA, tA, sB.slot, secretB, tB, a, w, v);
    var x := WrittenAnswers(v1.objects, pcrs, pin, secretA, sA, v.objects, 0, s.pcr);
    y := WrittenAnswers(v2.objects, pcrs, pin, secretB, sB, v.objects, 1, s.pcr);
    SmallHeader(v.disk.value.header, key, sB.slot, secretB, tA, tB);
    LeftUnlockFails(v, sB.slot, secretA, secretB, pin, s, x, y);
  }
}
