/**
 * `seal_inner` and `unseal_inner` as the step sequences they are, on a TPM that counts its transient
 * handles: every path computes what the functions of Tpm2 say, and every handle that came back from
 * the TPM is flushed exactly once before the context is finalized - with one exception, stated exactly.
 */
module Esys {
  import opened Common
  import opened Luks2
  import opened Tpm2
  import Pcrs

  /** ESYS handles: the persistent storage root key, or a transient object or session. */
  datatype Handle = PersistentSrk | Transient(id: nat)

  /** The context's TPM. Transient handles are numbered as they are handed out. */
  class Tpm {
    var objects: Objects
    var live: set<Handle>
    var flushed: seq<Handle>
    var next: nat
    var sessions: map<Handle, Digest>
    var loaded: map<Handle, Sealed>
    var auths: map<Handle, ObjectAuth>

    constructor ()
      ensures live == {} && flushed == [] && objects == map[] && next == 0
    {
      objects, live, flushed, next, sessions, loaded, auths := map[], {}, [], 0, map[], map[], map[];
    }

    ghost predicate Valid()
      reads this
    {
      forall h :: h in live ==> h.Transient? && h.id < next
    }

    method Allot() returns (h: Handle)
      requires Valid()
      modifies this`live, this`next
      ensures Valid() && h == Transient(old(next)) && next == old(next) + 1 && live == old(live) + {h}
    {
      h := Transient(next);
      live, next := live + {h}, next + 1;
    }

    /** `Esys_FlushContext`. */
    method FlushContext(h: Handle)
      requires Valid()
      modifies this`live, this`flushed
      ensures Valid() && live == old(live) - {h} && flushed == old(flushed) + [h]
    {
      live, flushed := live - {h}, flushed + [h];
    }

    method StartAuthSession(fails: bool) returns (h: Option<Handle>)
      requires Valid()
      modifies this`live, this`next, this`sessions
      ensures Valid() && (h.None? <==> fails)
      ensures fails ==> live == old(live) && next == old(next)
      ensures !fails ==> h.value == Transient(old(next)) && next == old(next) + 1 && live == old(live) + {h.value}
                         && h.value in sessions && sessions[h.value] == Initial
    {
      if fails {
        return None;
      }
      var s := Allot();
      sessions := sessions[s := Initial];
      return Some(s);
    }

    /** The policy commands of a session, `PolicyPCR` and then, with a PIN, `PolicyAuthValue`. */
    method ReplayPolicy(session: Handle, bank: Bank, sel: seq<nat>, withPin: bool, pcr: PcrValues, fails: Faults)
      returns (ok: bool)
      requires session in sessions && sessions[session] == Initial
      modifies this`sessions
      ensures ok <==> !fails(PolicyPcr) && !(withPin && fails(PolicyAuthValue))
      ensures session in sessions && (ok ==> sessions[session] == Policy(bank, sel, withPin, pcr))
    {
      if fails(PolicyPcr) {
        return false;
      }
      sessions := sessions[session := AfterPcr(sessions[session], bank, Selected(bank, sel, pcr))];
      if withPin {
        if fails(PolicyAuthValue) {
          return false;
        }
        sessions := sessions[session := AfterAuthValue(sessions[session])];
      }
      return true;
    }
  }

  /** The storage root key was created but its serialization failed, before anybody could track it. */
  predicate Leaks(fails: Faults) {
    fails(FromTpmPublic) && !fails(CreatePrimary) && fails(SerializeSrk)
  }

  /** `get_srk`: the persistent key if the TPM has it, else a transient primary the caller must flush. */
  method GetSrk(tpm: Tpm, fails: Faults) returns (srk: Option<Handle>)
    requires tpm.Valid()
    modifies tpm`live, tpm`next
    ensures tpm.Valid() && (srk.Some? <==> !SrkFails(fails))
    ensures srk.Some? && !fails(FromTpmPublic) ==>
      srk.value == PersistentSrk && tpm.live == old(tpm.live) && tpm.next == old(tpm.next)
    ensures (srk.Some? && fails(FromTpmPublic)) || Leaks(fails) ==>
      tpm.next == old(tpm.next) + 1 && tpm.live == old(tpm.live) + {Transient(old(tpm.next))}
    ensures srk.Some? && fails(FromTpmPublic) ==> srk.value == Transient(old(tpm.next))
    ensures srk.None? && !Leaks(fails) ==> tpm.live == old(tpm.live) && tpm.next == old(tpm.next)
  {
    if !fails(FromTpmPublic) {
      return if fails(SerializeSrk) then None else Some(PersistentSrk);
    }
    if fails(CreatePrimary) {
      return None;
    }
    var h := tpm.Allot();
    return if fails(SerializeSrk) then None else Some(h);
  }

  /** `HandleFlusher`. */
  class HandleFlusher {
    var handles: seq<Handle>

    constructor ()
      ensures handles == []
    {
      handles := [];
    }

    /**
     * The books balance: since the context was opened with `base` live and `from` handles ever
     * allotted, every handle allotted is either tracked, once, and live, or has been flushed, once.
     */
    ghost predicate Balanced(tpm: Tpm, base: set<Handle>, from: nat, added: seq<Handle>)
      reads this, tpm
    {
      && from <= tpm.next
      && (forall h :: h in base ==> h.Transient? && h.id < from)
      && (forall h :: h in tpm.live <==> h in base || h in handles)
      && NoRepeats(handles + added)
      && forall h :: (h in handles || h in added) <==> h.Transient? && from <= h.id < tpm.next
    }

    method Track(h: Handle)
      modifies this
      ensures handles == old(handles) + [h]
    {
      handles := handles + [h];
    }

    /** Flush now and stop tracking. */
    method FlushNow(tpm: Tpm, h: Handle, ghost base: set<Handle>, ghost from: nat, ghost added: seq<Handle>)
      requires tpm.Valid() && Balanced(tpm, base, from, added) && h in handles
      modifies this, tpm`live, tpm`flushed
      ensures tpm.Valid() && Balanced(tpm, base, from, added + [h]) && tpm.flushed == old(tpm.flushed) + [h]
      ensures handles == Without(old(handles), h)
    {
      FlushingOne(handles, added, h);
      tpm.FlushContext(h);
      handles := Without(handles, h);
    }

    /** Dropping the flusher: everything still tracked is flushed. */
    method Drop(tpm: Tpm, ghost base: set<Handle>, ghost from: nat, ghost added: seq<Handle>)
      requires tpm.Valid() && Balanced(tpm, base, from, added)
      modifies tpm`live, tpm`flushed
      ensures tpm.Valid() && tpm.live == base && tpm.flushed == old(tpm.flushed) + handles
    {
      for i := 0 to |handles|
        invariant tpm.Valid()
        invariant forall h :: h in tpm.live <==> h in base || h in handles[i..]
        invariant tpm.flushed == old(tpm.flushed) + handles[..i]
      {
        assert handles[i..] == [handles[i]] + handles[i + 1..];
        assert handles[i] !in handles[i + 1..] && handles[i] !in base by {
          assert (handles + added)[i] == handles[i];
          assert forall j :: i < j < |handles| ==> (handles + added)[j] == handles[j];
          assert handles[i] in handles;
        }
        tpm.FlushContext(handles[i]);
      }
    }
  }

  predicate NoRepeats(hs: seq<Handle>) {
    forall i, j :: 0 <= i < j < |hs| ==> hs[i] != hs[j]
  }

  /** `retain(|h| h != handle)`. */
  function Without(hs: seq<Handle>, h: Handle): (r: seq<Handle>)
    ensures forall x :: x in r <==> x in hs && x != h
  {
    if hs == [] then []
    else
      assert hs == [hs[0]] + hs[1..];
      (if hs[0] == h then [] else [hs[0]]) + Without(hs[1..], h)
  }

  lemma {:induction false} WithoutAbsent(hs: seq<Handle>, h: Handle)
    requires h !in hs
    ensures Without(hs, h) == hs
  {
    if hs != [] {
      assert hs[0] in hs;
      WithoutAbsent(hs[1..], h);
    }
  }

  lemma {:induction false} FlushingOne(handles: seq<Handle>, added: seq<Handle>, h: Handle)
    requires NoRepeats(handles + added) && h in handles
    ensures NoRepeats(Without(handles, h) + (added + [h]))
  {
    var k :| 0 <= k < |handles| && handles[k] == h;
    SplitAt(handles, added, h, k);
    var rest := handles[..k] + handles[k + 1..] + (added + [h]);
    var all := handles + added;
    forall i, j | 0 <= i < j < |rest|
      ensures rest[i] != rest[j]
    {
      var i' := if i < k then i else i + 1;
      var j' := if j == |rest| - 1 then k else if j < k then j else j + 1;
      assert rest[i] == all[i'] && rest[j] == all[j'];
    }
  }

  lemma {:induction false} SplitAt(handles: seq<Handle>, added: seq<Handle>, h: Handle, k: nat)
    requires k < |handles| && handles[k] == h && NoRepeats(handles + added)
    ensures Without(handles, h) == handles[..k] + handles[k + 1..]
  {
    var all := handles + added;
    assert forall i :: 0 <= i < |handles| ==> all[i] == handles[i];
    if k == 0 {
      assert h !in handles[1..];
      WithoutAbsent(handles[1..], h);
    } else {
      assert handles[0] != h;
      forall i, j | 0 <= i < j < |handles[1..] + added|
        ensures (handles[1..] + added)[i] != (handles[1..] + added)[j]
      {
        assert (handles[1..] + added)[i] == all[i + 1] && (handles[1..] + added)[j] == all[j + 1];
      }
      SplitAt(handles[1..], added, h, k - 1);
      assert handles[..k] == [handles[0]] + handles[1..][..k - 1];
    }
  }

  /** Tracking a handle that was just allotted keeps the books balanced. */
  lemma TrackedBalances(handles: seq<Handle>, added: seq<Handle>, h: Handle)
    requires NoRepeats(handles + added) && h !in handles && h !in added
    ensures NoRepeats(handles + [h] + added)
  {
    var all, more := handles + added, handles + [h] + added;
    forall i, j | 0 <= i < j < |more|
      ensures more[i] != more[j]
    {
      var i' := if i < |handles| then i else i - 1;
      var j' := if j < |handles| then j else j - 1;
      if i == |handles| {
        assert more[j] == added[j - |handles| - 1];
      } else if j == |handles| {
        assert more[i] == handles[i];
      } else {
        assert more[i] == all[i'] && more[j] == all[j'];
      }
    }
  }

  /** The first lines of both inner functions: get the storage root key, and track it if it is transient. */
  method AcquireSrk(tpm: Tpm, flusher: HandleFlusher, fails: Faults) returns (srk: Option<Handle>)
    requires tpm.Valid() && flusher.handles == []
    modifies tpm`live, tpm`next, flusher
    ensures tpm.Valid() && (srk.Some? <==> !SrkFails(fails))
    ensures !Leaks(fails) ==> flusher.Balanced(tpm, old(tpm.live), old(tpm.next), [])
    ensures Leaks(fails) ==> flusher.handles == [] && srk.None?
                             && tpm.live == old(tpm.live) + {Transient(old(tpm.next))} && tpm.next == old(tpm.next) + 1
    ensures srk.Some? && srk.value != PersistentSrk ==> srk.value in flusher.handles
  {
    srk := GetSrk(tpm, fails);
    if srk.Some? && srk.value != PersistentSrk {
      flusher.Track(srk.value);
    }
  }

  /** A session that is tracked from the moment it exists. */
  method OpenSession(tpm: Tpm, flusher: HandleFlusher, fails: bool,
                     ghost base: set<Handle>, ghost from: nat, ghost added: seq<Handle>) returns (h: Option<Handle>)
    requires tpm.Valid() && flusher.Balanced(tpm, base, from, added)
    modifies tpm`live, tpm`next, tpm`sessions, flusher
    ensures tpm.Valid() && flusher.Balanced(tpm, base, from, added) && (h.None? <==> fails)
    ensures h.Some? ==> flusher.handles == old(flusher.handles) + [h.value]
                        && h.value in tpm.sessions && tpm.sessions[h.value] == Initial
    ensures h.None? ==> flusher.handles == old(flusher.handles)
  {
    h := tpm.StartAuthSession(fails);
    if h.Some? {
      TrackedBalances(flusher.handles, added, h.value);
      flusher.Track(h.value);
    }
  }

  /** The policy digest of a trial session, which is flushed at once. */
  method TrialPolicy(tpm: Tpm, flusher: HandleFlusher, sel: seq<nat>, withPin: bool, pcr: PcrValues, fails: Faults,
                     ghost base: set<Handle>, ghost from: nat)
    returns (policy: Option<Digest>, ghost added: seq<Handle>)
    requires tpm.Valid() && flusher.Balanced(tpm, base, from, [])
    modifies tpm`live, tpm`next, tpm`sessions, tpm`flushed, flusher
    ensures tpm.Valid() && flusher.Balanced(tpm, base, from, added) && tpm.flushed == old(tpm.flushed) + added
    ensures policy.Some? <==> && !fails(StartSession) && !fails(PolicyPcr)
                              && !(withPin && fails(PolicyAuthValue)) && !fails(GetDigest)
    ensures policy.Some? ==> policy.value == Policy(Sha256, sel, withPin, pcr)
    ensures policy.Some? ==> forall h :: h in old(flusher.handles) ==> h in flusher.handles
  {
    added := [];
    var trial := OpenSession(tpm, flusher, fails(StartSession), base, from, added);
    if trial.None? {
      return None, added;
    }
    var ok := tpm.ReplayPolicy(trial.value, Sha256, sel, withPin, pcr, fails);
    if !ok || fails(GetDigest) {
      return None, added;
    }
    policy := Some(tpm.sessions[trial.value]);
    ghost var tracked := flusher.handles;
    flusher.FlushNow(tpm, trial.value, base, from, added);
    added := added + [trial.value];
    forall h | h in old(flusher.handles)
      ensures h in flusher.handles
    {
      var i :| 0 <= i < |old(flusher.handles)| && old(flusher.handles)[i] == h;
      assert (tracked + [])[i] == h && (tracked + [])[|tracked| - 1] == trial.value;
    }
  }

  /** `Esys_Create` and the marshaling of what it returned. */
  method CreateSealed(tpm: Tpm, secret: Bytes, policy: Digest, pin: string, fails: Faults, priv: Bytes, pub: Bytes)
    returns (r: Result<Bytes>)
    modifies tpm`objects
    ensures fails(Create) || (priv, pub) in old(tpm.objects) ==>
      tpm.objects == old(tpm.objects) && r == Err("Esys_Create (seal) failed")
    ensures !fails(Create) && (priv, pub) !in old(tpm.objects) ==>
      && tpm.objects == old(tpm.objects)[(priv, pub) := Sealed(policy, AuthOf(pin), secret)]
      && r == if fails(MarshalPrivate) || fails(MarshalPublic) || Marshal(priv).Err? || Marshal(pub).Err?
              then Err("Marshal failed") else Ok(Marshal(priv).value + Marshal(pub).value)
  {
    if fails(Create) || (priv, pub) in tpm.objects {
      return Err("Esys_Create (seal) failed");
    }
    tpm.objects := tpm.objects[(priv, pub) := Sealed(policy, AuthOf(pin), secret)];
    var wirePrivate, wirePublic := Marshal(priv), Marshal(pub);
    if fails(MarshalPrivate) || fails(MarshalPublic) || wirePrivate.Err? || wirePublic.Err? {
      return Err("Marshal failed");
    }
    return Ok(wirePrivate.value + wirePublic.value);
  }

  /** The rest of `seal_inner`, under the storage key acquired. */
  method SealUnder(tpm: Tpm, flusher: HandleFlusher, srk: Handle, secret: Bytes, ghost pcrs: string, sel: seq<nat>,
                   pin: string, pcr: PcrValues, fails: Faults, priv: Bytes, pub: Bytes,
                   ghost base: set<Handle>, ghost from: nat) returns (r: Result<Bytes>, ghost added: seq<Handle>)
    requires tpm.Valid() && flusher.Balanced(tpm, base, from, []) && (srk != PersistentSrk ==> srk in flusher.handles)
    requires Pcrs.Parsed(pcrs) == Ok(sel) && !fails(Connect) && !SrkFails(fails)
    modifies tpm, flusher
    ensures tpm.Valid() && flusher.Balanced(tpm, base, from, added) && tpm.flushed == old(tpm.flushed) + added
    ensures (tpm.objects, r) == Sealing(old(tpm.objects), secret, pcrs, pin, pcr, fails, priv, pub)
  {
    var policy;
    policy, added := TrialPolicy(tpm, flusher, sel, pin != "", pcr, fails, base, from);
    if policy.None? {
      return Err("Esys call failed"), added;
    }
    if |secret| > SENSITIVE_MAX {
      return Err("Secret too large to seal"), added;
    }
    r := CreateSealed(tpm, secret, policy.value, pin, fails, priv, pub);
    if r.Ok? && srk != PersistentSrk {
      flusher.FlushNow(tpm, srk, base, from, added);
      added := added + [srk];
    }
  }

  /** `seal_inner`. */
  method SealInner(tpm: Tpm, flusher: HandleFlusher, secret: Bytes, ghost pcrs: string, sel: seq<nat>, pin: string,
                   pcr: PcrValues, fails: Faults, priv: Bytes, pub: Bytes)
    returns (r: Result<Bytes>, ghost added: seq<Handle>)
    requires tpm.Valid() && flusher.handles == [] && Pcrs.Parsed(pcrs) == Ok(sel) && !fails(Connect)
    modifies tpm, flusher
    ensures tpm.Valid() && tpm.flushed == old(tpm.flushed) + added
    ensures !Leaks(fails) ==> flusher.Balanced(tpm, old(tpm.live), old(tpm.next), added)
    ensures Leaks(fails) ==> flusher.handles == [] && added == []
                             && tpm.live == old(tpm.live) + {Transient(old(tpm.next))} && tpm.next == old(tpm.next) + 1
    ensures (tpm.objects, r) == Sealing(old(tpm.objects), secret, pcrs, pin, pcr, fails, priv, pub)
  {
    added := [];
    ghost var base, from := tpm.live, tpm.next;
    var srk := AcquireSrk(tpm, flusher, fails);
    if srk.None? {
      return Err("Esys call failed"), added;
    }
    r, added := SealUnder(tpm, flusher, srk.value, secret, pcrs, sel, pin, pcr, fails, priv, pub, base, from);
  }

  /** `Esys_Load` of a sealed object, tracked, with the PIN's digest set as its authorization. */
  method LoadSealed(tpm: Tpm, flusher: HandleFlusher, ref: Tpm2Ref, parts: (Bytes, Bytes), pin: string, fails: Faults,
                    ghost base: set<Handle>, ghost from: nat) returns (item: Option<Handle>)
    requires tpm.Valid() && flusher.Balanced(tpm, base, from, [])
    modifies tpm`live, tpm`next, tpm`loaded, tpm`auths, flusher
    ensures tpm.Valid() && flusher.Balanced(tpm, base, from, [])
    ensures item.Some? <==> !fails(Load) && parts in tpm.objects
    ensures item.Some? ==>
      && item.value in tpm.loaded && tpm.loaded[item.value] == tpm.objects[parts] && item.value in tpm.auths
      && tpm.auths[item.value] == if ref.pinRequired && !fails(SetAuth) then AuthOf(pin) else EmptyAuth
  {
    if fails(Load) || parts !in tpm.objects {
      return None;
    }
    var h := tpm.Allot();
    TrackedBalances(flusher.handles, [], h);
    flusher.Track(h);
    tpm.loaded, tpm.auths := tpm.loaded[h := tpm.objects[parts]], tpm.auths[h := EmptyAuth];
    if ref.pinRequired && pin != "" && !fails(SetAuth) {
      tpm.auths := tpm.auths[h := AuthOf(pin)];
    }
    return Some(h);
  }

  /** The policy session of an unseal, with the token's policy replayed in it. */
  method ReplayInSession(tpm: Tpm, flusher: HandleFlusher, ref: Tpm2Ref, sel: seq<nat>, pcr: PcrValues, fails: Faults,
                         ghost base: set<Handle>, ghost from: nat) returns (policy: Option<Digest>)
    requires tpm.Valid() && flusher.Balanced(tpm, base, from, [])
    modifies tpm`live, tpm`next, tpm`sessions, flusher
    ensures tpm.Valid() && flusher.Balanced(tpm, base, from, [])
    ensures policy.Some? <==> !fails(StartSession) && !fails(PolicyPcr) && !(ref.pinRequired && fails(PolicyAuthValue))
    ensures policy.Some? ==> policy.value == Policy(BankOf(ref.bank), sel, ref.pinRequired, pcr)
  {
    var session := OpenSession(tpm, flusher, fails(StartSession), base, from, []);
    if session.None? {
      return None;
    }
    var ok := tpm.ReplayPolicy(session.value, BankOf(ref.bank), sel, ref.pinRequired, pcr, fails);
    return if ok then Some(tpm.sessions[session.value]) else None;
  }

  /** `unseal_inner`. */
  method UnsealInner(tpm: Tpm, flusher: HandleFlusher, ref: Tpm2Ref, sel: seq<nat>, pin: string, pcr: PcrValues,
                     fails: Faults) returns (r: Result<Bytes>)
    requires tpm.Valid() && flusher.handles == [] && Pcrs.Parsed(ref.pcrs) == Ok(sel) && !fails(Connect)
    modifies tpm`live, tpm`next, tpm`sessions, tpm`loaded, tpm`auths, flusher
    ensures tpm.Valid()
    ensures !Leaks(fails) ==> flusher.Balanced(tpm, old(tpm.live), old(tpm.next), [])
    ensures Leaks(fails) ==> flusher.handles == []
                             && tpm.live == old(tpm.live) + {Transient(old(tpm.next))} && tpm.next == old(tpm.next) + 1
    ensures r == Unsealing(tpm.objects, ref, pin, pcr, fails)
  {
    ghost var base, from := tpm.live, tpm.next;
    var srk := AcquireSrk(tpm, flusher, fails);
    if srk.None? {
      return Err("Esys call failed");
    }
    var parts := UnmarshalBlob(ref.blob);
    var item, policy := OpenItem(tpm, flusher, ref, parts, sel, pin, pcr, fails, base, from);
    VerdictIsUnsealing(tpm.objects, ref, pin, pcr, fails, sel, item, policy);
    return Verdict(ref, parts, fails, item, policy);
  }

  /** The object and the auth value the TPM holds for it once it is loaded. */
  datatype Loaded = Loaded(item: Sealed, auth: ObjectAuth)

  /** Loading the object and replaying its policy, with the books kept. */
  method OpenItem(tpm: Tpm, flusher: HandleFlusher, ref: Tpm2Ref, parts: Option<(Bytes, Bytes)>, sel: seq<nat>,
                  pin: string, pcr: PcrValues, fails: Faults, ghost base: set<Handle>, ghost from: nat)
    returns (item: Option<Loaded>, policy: Option<Digest>)
    requires tpm.Valid() && flusher.Balanced(tpm, base, from, [])
    modifies tpm`live, tpm`next, tpm`sessions, tpm`loaded, tpm`auths, flusher
    ensures tpm.Valid() && flusher.Balanced(tpm, base, from, [])
    ensures item == LoadedAs(tpm.objects, ref, parts, pin, fails)
    ensures item.Some? ==> policy == ReplayedAs(ref, sel, pcr, fails)
  {
    item, policy := None, None;
    if parts.None? {
      return;
    }
    var handle := LoadSealed(tpm, flusher, ref, parts.value, pin, fails, base, from);
    if handle.None? {
      return;
    }
    item := Some(Loaded(tpm.loaded[handle.value], tpm.auths[handle.value]));
    policy := ReplayInSession(tpm, flusher, ref, sel, pcr, fails, base, from);
  }

  function LoadedAs(objects: Objects, ref: Tpm2Ref, parts: Option<(Bytes, Bytes)>, pin: string, fails: Faults)
    : Option<Loaded>
  {
    if parts.None? || fails(Load) || parts.value !in objects then None
    else Some(Loaded(objects[parts.value], if ref.pinRequired && !fails(SetAuth) then AuthOf(pin) else EmptyAuth))
  }

  function ReplayedAs(ref: Tpm2Ref, sel: seq<nat>, pcr: PcrValues, fails: Faults): Option<Digest> {
    if fails(StartSession) || fails(PolicyPcr) || (ref.pinRequired && fails(PolicyAuthValue)) then None
    else Some(Policy(BankOf(ref.bank), sel, ref.pinRequired, pcr))
  }

  /** What `unseal_inner` answers from there on. */
  function Verdict(ref: Tpm2Ref, parts: Option<(Bytes, Bytes)>, fails: Faults, item: Option<Loaded>,
                   policy: Option<Digest>): Result<Bytes>
  {
    if parts.None? then Err("Unmarshal failed")
    else if item.None? then Err("Esys_Load failed")
    else if policy.None? then Err("Esys call failed")
    else if fails(Unseal) || item.value.item.policy != policy.value
         || (ref.pinRequired && item.value.item.auth != item.value.auth) then Err("Esys_Unseal failed")
    else Ok(item.value.item.secret)
  }

  lemma VerdictIsUnsealing(objects: Objects, ref: Tpm2Ref, pin: string, pcr: PcrValues, fails: Faults, sel: seq<nat>,
                           item: Option<Loaded>, policy: Option<Digest>)
    requires Pcrs.Parsed(ref.pcrs) == Ok(sel) && !fails(Connect) && !SrkFails(fails)
    requires item == LoadedAs(objects, ref, UnmarshalBlob(ref.blob), pin, fails)
    requires item.Some? ==> policy == ReplayedAs(ref, sel, pcr, fails)
    ensures Unsealing(objects, ref, pin, pcr, fails) == Verdict(ref, UnmarshalBlob(ref.blob), fails, item, policy)
  {
  }

  /** The handles allotted between two readings of the counter, each flushed exactly once; no other was. */
  ghost predicate EachFlushedOnce(flushed: seq<Handle>, from: nat, next: nat) {
    NoRepeats(flushed) && forall h :: h in flushed <==> h.Transient? && from <= h.id < next
  }

  /** Dropping the flusher of a run that got past `get_srk`. */
  method DropTracked(tpm: Tpm, flusher: HandleFlusher, ghost base: set<Handle>, ghost from: nat,
                     ghost before: seq<Handle>, ghost added: seq<Handle>)
    returns (ghost flushed: seq<Handle>)
    requires tpm.Valid() && flusher.Balanced(tpm, base, from, added) && tpm.flushed == before + added
    modifies tpm`live, tpm`flushed
    ensures tpm.Valid() && tpm.live == base && tpm.flushed == before + flushed
    ensures EachFlushedOnce(flushed, from, tpm.next)
  {
    flusher.Drop(tpm, base, from, added);
    flushed := added + flusher.handles;
    assert before + added + flusher.handles == before + flushed;
    AllFlushedOnce(flusher.handles, added, from, tpm.next);
  }

  /** Dropping a flusher that tracks nothing, although `get_srk` may have left a handle behind. */
  method DropUntracked(tpm: Tpm, flusher: HandleFlusher)
    requires tpm.Valid() && flusher.handles == []
    modifies tpm`live, tpm`flushed
    ensures tpm.Valid() && tpm.live == old(tpm.live) && tpm.flushed == old(tpm.flushed)
  {
    flusher.Drop(tpm, tpm.live, tpm.next, []);
  }

  /**
   * `seal`. On every path that gets past `get_srk` each handle the TPM handed out is flushed exactly
   * once, the persistent key never, and the TPM holds what it held before. A handle is lost exactly
   * when the primary was created but could not be serialized.
   */
  method Seal(tpm: Tpm, secret: Bytes, pcrs: string, pin: string, pcr: PcrValues, fails: Faults,
              priv: Bytes, pub: Bytes)
    returns (r: Result<Bytes>, ghost flushed: seq<Handle>)
    requires tpm.Valid()
    modifies tpm
    ensures (tpm.objects, r) == Sealing(old(tpm.objects), secret, pcrs, pin, pcr, fails, priv, pub)
    ensures tpm.Valid() && tpm.flushed == old(tpm.flushed) + flushed
    ensures var lost := Pcrs.Parsed(pcrs).Ok? && !fails(Connect) && Leaks(fails);
            && tpm.live == old(tpm.live) + (if lost then {Transient(old(tpm.next))} else {})
            && EachFlushedOnce(flushed, old(tpm.next), if lost then old(tpm.next) else tpm.next)
  {
    flushed := [];
    var sel := Pcrs.ParsePcrIndices(pcrs);
    if sel.Err? {
      return Err(sel.message), flushed;
    }
    if fails(Connect) {
      return Err("Esys call failed"), flushed;
    }
    r, flushed := SealConnected(tpm, secret, pcrs, sel.value, pin, pcr, fails, priv, pub);
  }

  /** The part of `seal` that holds a context: the flusher is dropped at its end, however it ends. */
  method SealConnected(tpm: Tpm, secret: Bytes, ghost pcrs: string, sel: seq<nat>, pin: string, pcr: PcrValues,
                       fails: Faults, priv: Bytes, pub: Bytes) returns (r: Result<Bytes>, ghost flushed: seq<Handle>)
    requires tpm.Valid() && Pcrs.Parsed(pcrs) == Ok(sel) && !fails(Connect)
    modifies tpm
    ensures (tpm.objects, r) == Sealing(old(tpm.objects), secret, pcrs, pin, pcr, fails, priv, pub)
    ensures tpm.Valid() && tpm.flushed == old(tpm.flushed) + flushed
    ensures tpm.live == old(tpm.live) + (if Leaks(fails) then {Transient(old(tpm.next))} else {})
    ensures EachFlushedOnce(flushed, old(tpm.next), if Leaks(fails) then old(tpm.next) else tpm.next)
  {
    var flusher := new HandleFlusher();
    ghost var base, from, before := tpm.live, tpm.next, tpm.flushed;
    ghost var added;
    r, added := SealInner(tpm, flusher, secret, pcrs, sel, pin, pcr, fails, priv, pub);
    if Leaks(fails) {
      DropUntracked(tpm, flusher);
      flushed := [];
    } else {
      flushed := DropTracked(tpm, flusher, base, from, before, added);
    }
  }

  /** Balanced books plus the final flush: every handle once, whether flushed early or at the end. */
  lemma AllFlushedOnce(a: seq<Handle>, b: seq<Handle>, from: nat, next: nat)
    requires NoRepeats(a + b) && forall h :: (h in a || h in b) <==> h.Transient? && from <= h.id < next
    ensures EachFlushedOnce(b + a, from, next)
  {
    var x, y := a + b, b + a;
    forall i, j | 0 <= i < j < |y|
      ensures y[i] != y[j]
    {
      var i' := if i < |b| then i + |a| else i - |b|;
      var j' := if j < |b| then j + |a| else j - |b|;
      assert y[i] == x[i'] && y[j] == x[j'] && i' != j';
    }
  }

  /** `try_unseal_token`, with the same discipline. */
  method TryUnsealToken(tpm: Tpm, ref: Tpm2Ref, pin: string, pcr: PcrValues, fails: Faults)
    returns (r: Result<Bytes>, ghost flushed: seq<Handle>)
    requires tpm.Valid()
    modifies tpm
    ensures r == Unsealing(tpm.objects, ref, pin, pcr, fails) && tpm.objects == old(tpm.objects)
    ensures tpm.Valid() && tpm.flushed == old(tpm.flushed) + flushed
    ensures var lost := Pcrs.Parsed(ref.pcrs).Ok? && !fails(Connect) && Leaks(fails);
            && tpm.live == old(tpm.live) + (if lost then {Transient(old(tpm.next))} else {})
            && EachFlushedOnce(flushed, old(tpm.next), if lost then old(tpm.next) else tpm.next)
  {
    flushed := [];
    var sel := Pcrs.ParsePcrIndices(ref.pcrs);
    if sel.Err? {
      return Err(sel.message), flushed;
    }
    if fails(Connect) {
      return Err("Esys call failed"), flushed;
    }
    var flusher := new HandleFlusher();
    ghost var base, from := tpm.live, tpm.next;
    r := UnsealInner(tpm, flusher, ref, sel.value, pin, pcr, fails);
    if Leaks(fails) {
      DropUntracked(tpm, flusher);
    } else {
      flushed := DropTracked(tpm, flusher, base, from, tpm.flushed, []);
    }
  }
}
