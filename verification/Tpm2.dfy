/**
 * Sealing and unsealing as functions (tpm2.rs). The TPM is ideal: a policy digest is the chain of
 * assertions it was extended with (TPM 2.0 Library, Part 3, sections 23.7 and 23.17), the digest of a
 * PIN is the PIN itself behind a constructor, and an object wrapped under the storage root key is an
 * entry of a registry only the TPM can look up.
 */
module Tpm2 {
  import opened Common
  import opened Luks2
  import Pcrs
  import opened Text

  datatype Bank = Sha1 | Sha256 | Sha384 | Sha512

  /** `pcr_bank_to_alg`: unknown names mean SHA-256. */
  function BankOf(name: string): Bank {
    if name == "sha1" then Sha1
    else if name == "sha384" then Sha384
    else if name == "sha512" then Sha512
    else Sha256
  }

  /** The four banks by name; any other name reads as SHA-256. */
  lemma BankNames(name: string)
    ensures BankOf("sha1") == Sha1 && BankOf("sha256") == Sha256
    ensures BankOf("sha384") == Sha384 && BankOf("sha512") == Sha512
    ensures name !in {"sha1", "sha384", "sha512"} ==> BankOf(name) == Sha256
  {
  }

  /** The values of the platform configuration registers. */
  type PcrValues = (Bank, nat) -> Bytes

  datatype Digest =
    | Initial
    | AfterPcr(prev: Digest, bank: Bank, selected: map<nat, Bytes>)
    | AfterAuthValue(prev: Digest)

  datatype ObjectAuth = EmptyAuth | PinDigest(pin: string)

  datatype Sealed = Sealed(policy: Digest, auth: ObjectAuth, secret: Bytes)

  /** Sealed objects by their wire form: the private and public parts. */
  type Objects = map<(Bytes, Bytes), Sealed>

  /** The ESYS and marshaling calls, each of which may fail. */
  datatype Step =
    | Connect | FromTpmPublic | CreatePrimary | SerializeSrk | StartSession | PolicyPcr | PolicyAuthValue | GetDigest
    | Create | MarshalPrivate | MarshalPublic | Load | SetAuth | Unseal

  type Faults = Step -> bool

  function Selected(bank: Bank, sel: seq<nat>, pcr: PcrValues): map<nat, Bytes> {
    map n | n in sel :: pcr(bank, n)
  }

  function Policy(bank: Bank, sel: seq<nat>, withPin: bool, pcr: PcrValues): Digest {
    var afterPcr := AfterPcr(Initial, bank, Selected(bank, sel, pcr));
    if withPin then AfterAuthValue(afterPcr) else afterPcr
  }

  function AuthOf(pin: string): ObjectAuth {
    if pin == "" then EmptyAuth else PinDigest(pin)
  }

  // ----- wire form ----------------------------------------------------------------------------

  /** MARSHAL_BUF_MAX. */
  const MARSHAL_MAX := 4096

  /** A TPM2B structure: a big-endian 16-bit size, then the contents. */
  function Marshal(part: Bytes): Result<Bytes> {
    if |part| + 2 > MARSHAL_MAX then Err("Marshal failed") else Ok([|part| / 256, |part| % 256] + part)
  }

  /** Reads one TPM2B at an offset; returns its contents and the offset behind it. */
  function Unmarshal(blob: Bytes, offset: nat): Option<(Bytes, nat)> {
    if offset + 2 > |blob| then None
    else
      var size: nat := blob[offset] as int * 256 + blob[offset + 1];
      if offset + 2 + size > |blob| then None else Some((blob[offset + 2..offset + 2 + size], offset + 2 + size))
  }

  function UnmarshalBlob(blob: Bytes): Option<(Bytes, Bytes)> {
    match Unmarshal(blob, 0)
    case None => None
    case Some((priv, offset)) =>
      match Unmarshal(blob, offset)
      case None => None
      case Some((pub, _)) => Some((priv, pub))
  }

  /** The token blob splits back into the two parts `seal` concatenated. */
  lemma BlobRoundTrip(priv: Bytes, pub: Bytes)
    requires Marshal(priv).Ok? && Marshal(pub).Ok?
    ensures UnmarshalBlob(Marshal(priv).value + Marshal(pub).value) == Some((priv, pub))
  {
    var a, b := Marshal(priv).value, Marshal(pub).value;
    var blob := a + b;
    assert blob[0] == |priv| / 256 && blob[1] == |priv| % 256;
    assert blob[2..2 + |priv|] == priv;
    assert blob[|a|] == |pub| / 256 && blob[|a| + 1] == |pub| % 256;
    assert blob[|a| + 2..|a| + 2 + |pub|] == pub;
  }

  /** The size comes first, its high byte first: 300 bytes are announced by 1 and 44. */
  lemma BigEndianSize(part: Bytes)
    requires |part| == 300
    ensures Marshal(part) == Ok([1, 44] + part)
  {
  }

  // ----- seal and unseal ----------------------------------------------------------------------

  /** No call fails, except that the TPM may hold no persistent storage key and need a transient one. */
  ghost predicate Quiet(fails: Faults) {
    forall step :: fails(step) ==> step == FromTpmPublic
  }

  predicate SrkFails(fails: Faults) {
    (fails(FromTpmPublic) && fails(CreatePrimary)) || fails(SerializeSrk)
  }

  /** The data buffer of a TPM2B_SENSITIVE_CREATE. */
  const SENSITIVE_MAX := 256

  /** `seal`: the registry afterwards, and the blob. `priv` and `pub` are the TPM's fresh wire form. */
  function Sealing(objects: Objects, secret: Bytes, pcrs: string, pin: string, pcr: PcrValues,
                   fails: Faults, priv: Bytes, pub: Bytes): (Objects, Result<Bytes>)
  {
    match Pcrs.Parsed(pcrs)
    case Err(e) => (objects, Err(e))
    case Ok(sel) =>
      if fails(Connect) || SrkFails(fails) || fails(StartSession) || fails(PolicyPcr)
         || (pin != "" && fails(PolicyAuthValue)) || fails(GetDigest) then (objects, Err("Esys call failed"))
      else if |secret| > SENSITIVE_MAX then (objects, Err("Secret too large to seal"))
      else if fails(Create) || (priv, pub) in objects then (objects, Err("Esys_Create (seal) failed"))
      else
        var sealedObjects := objects[(priv, pub) := Sealed(Policy(Sha256, sel, pin != "", pcr), AuthOf(pin), secret)];
        if fails(MarshalPrivate) || fails(MarshalPublic) || Marshal(priv).Err? || Marshal(pub).Err?
        then (sealedObjects, Err("Marshal failed"))
        else (sealedObjects, Ok(Marshal(priv).value + Marshal(pub).value))
  }

  /** `try_unseal_token`. */
  function Unsealing(objects: Objects, ref: Tpm2Ref, pin: string, pcr: PcrValues, fails: Faults): Result<Bytes> {
    match Pcrs.Parsed(ref.pcrs)
    case Err(e) => Err(e)
    case Ok(sel) =>
      if fails(Connect) || SrkFails(fails) then Err("Esys call failed")
      else
        match UnmarshalBlob(ref.blob)
        case None => Err("Unmarshal failed")
        case Some(parts) =>
          if fails(Load) || parts !in objects then Err("Esys_Load failed")
          else if fails(StartSession) || fails(PolicyPcr) || (ref.pinRequired && fails(PolicyAuthValue))
          then Err("Esys call failed")
          else
            var sealed := objects[parts];
            var auth := if ref.pinRequired && !fails(SetAuth) then AuthOf(pin) else EmptyAuth;
            if fails(Unseal)
               || sealed.policy != Policy(BankOf(ref.bank), sel, ref.pinRequired, pcr)
               || (ref.pinRequired && sealed.auth != auth)
            then Err("Esys_Unseal failed")
            else Ok(sealed.secret)
  }

  /** The registers a policy over `sel` looks at hold the same values in both readings. */
  predicate SamePcrs(bank: Bank, sel: seq<nat>, a: PcrValues, b: PcrValues) {
    forall n :: n in sel ==> a(bank, n) == b(bank, n)
  }

  /**
   * Two policies are equal exactly when bank, registers, their values and the PIN requirement agree;
   * order and repetition in the selections do not matter.
   */
  lemma PolicyInjective(bank: Bank, bank': Bank, sel: seq<nat>, sel': seq<nat>, p: bool, p': bool,
                        a: PcrValues, b: PcrValues)
    ensures Policy(bank, sel, p, a) == Policy(bank', sel', p', b)
       <==> bank == bank' && p == p' && (forall n :: n in sel <==> n in sel') && SamePcrs(bank, sel, a, b)
  {
    var x, y := Selected(bank, sel, a), Selected(bank', sel', b);
    if bank == bank' && p == p' && (forall n :: n in sel <==> n in sel') && SamePcrs(bank, sel, a, b) {
      assert x == y;
    }
    if bank == bank' && x == y {
      assert x.Keys == y.Keys;
      assert forall n :: n in sel <==> n in x.Keys;
      assert forall n :: n in sel' <==> n in y.Keys;
      assert forall n :: n in sel ==> x[n] == a(bank, n) && y[n] == b(bank, n);
    }
  }

  /** A storage key is at hand: the persistent one, or a transient one made instead, and it can be serialized. */
  predicate StorageKeyAvailable(fails: Faults) {
    (!fails(FromTpmPublic) || !fails(CreatePrimary)) && !fails(SerializeSrk)
  }

  /**
   * When sealing succeeds, step by step: without a persistent storage key it goes on with a transient one,
   * and secrets of up to 256 bytes are sealed.
   */
  lemma SealSucceedsIff(objects: Objects, secret: Bytes, pcrs: string, pin: string, pcr: PcrValues,
                        fails: Faults, priv: Bytes, pub: Bytes)
    ensures var r := Sealing(objects, secret, pcrs, pin, pcr, fails, priv, pub);
            && (r.1.Ok? <==> && Pcrs.Parsed(pcrs).Ok? && !fails(Connect) && StorageKeyAvailable(fails)
                             && !fails(StartSession) && !fails(PolicyPcr) && (pin != "" ==> !fails(PolicyAuthValue))
                             && !fails(GetDigest) && |secret| <= 256 && !fails(Create) && (priv, pub) !in objects
                             && !fails(MarshalPrivate) && !fails(MarshalPublic) && |priv| <= 4094 && |pub| <= 4094)
            && (r.0 == objects || ((priv, pub) !in objects && r.0 - {(priv, pub)} == objects
                                   && (priv, pub) in r.0 && r.0[(priv, pub)].secret == secret))
            && (r.1.Ok? ==> r.0 != objects)
  {
    var r := Sealing(objects, secret, pcrs, pin, pcr, fails, priv, pub);
    assert SrkFails(fails) <==> !StorageKeyAvailable(fails);
    assert Marshal(priv).Ok? <==> |priv| <= 4094;
    assert Marshal(pub).Ok? <==> |pub| <= 4094;
    if (priv, pub) in r.0 && (priv, pub) !in objects {
      assert r.0 - {(priv, pub)} == objects;
    }
  }

  /** Every step of an unseal goes through, and the token's blob is one of the objects. */
  predicate ReachesObject(objects: Objects, ref: Tpm2Ref, fails: Faults) {
    && Pcrs.Parsed(ref.pcrs).Ok? && !fails(Connect) && StorageKeyAvailable(fails)
    && UnmarshalBlob(ref.blob).Some? && !fails(Load) && UnmarshalBlob(ref.blob).value in objects
    && !fails(StartSession) && !fails(PolicyPcr) && (ref.pinRequired ==> !fails(PolicyAuthValue)) && !fails(Unseal)
  }

  lemma UnsealNeedsObject(objects: Objects, ref: Tpm2Ref, pin: string, pcr: PcrValues, fails: Faults)
    requires !ReachesObject(objects, ref, fails)
    ensures Unsealing(objects, ref, pin, pcr, fails).Err?
  {
    if Pcrs.Parsed(ref.pcrs).Ok? && !fails(Connect) && StorageKeyAvailable(fails) {
      if UnmarshalBlob(ref.blob).Some? {
        var parts := UnmarshalBlob(ref.blob).value;
        if !fails(Load) && parts in objects {
          assert fails(StartSession) || fails(PolicyPcr) || fails(Unseal)
              || (ref.pinRequired && fails(PolicyAuthValue));
        }
      }
    }
  }

  /**
   * When a token unseals: its object is reached, and policy and PIN agree. A failing SetAuth goes unnoticed
   * until the TPM compares with the empty value.
   */
  lemma UnsealSucceedsIff(objects: Objects, ref: Tpm2Ref, pin: string, pcr: PcrValues, fails: Faults)
    ensures var r, parts := Unsealing(objects, ref, pin, pcr, fails), UnmarshalBlob(ref.blob);
            && (r.Ok? <==> && ReachesObject(objects, ref, fails)
                           && objects[parts.value].policy
                              == Policy(BankOf(ref.bank), Pcrs.Parsed(ref.pcrs).value, ref.pinRequired, pcr)
                           && (ref.pinRequired ==>
                                 objects[parts.value].auth == (if fails(SetAuth) then EmptyAuth else AuthOf(pin))))
            && (r.Ok? ==> r.value == objects[parts.value].secret)
  {
    if !ReachesObject(objects, ref, fails) {
      UnsealNeedsObject(objects, ref, pin, pcr, fails);
    }
  }

  /** What a successful `seal` did. */
  lemma SealingFacts(objects: Objects, secret: Bytes, pcrs: string, pin: string, pcr: PcrValues,
                     fails: Faults, priv: Bytes, pub: Bytes)
    requires Sealing(objects, secret, pcrs, pin, pcr, fails, priv, pub).1.Ok?
    ensures Pcrs.Parsed(pcrs).Ok? && Marshal(priv).Ok? && Marshal(pub).Ok?
    ensures var r, sel := Sealing(objects, secret, pcrs, pin, pcr, fails, priv, pub), Pcrs.Parsed(pcrs).value;
            && r.0 == objects[(priv, pub) := Sealed(Policy(Sha256, sel, pin != "", pcr), AuthOf(pin), secret)]
            && r.1.value == Marshal(priv).value + Marshal(pub).value
  {
  }

  /** Sealing, successful or not, only adds to the registry. */
  lemma SealingGrows(objects: Objects, secret: Bytes, pcrs: string, pin: string, pcr: PcrValues,
                     fails: Faults, priv: Bytes, pub: Bytes)
    ensures forall o :: o in objects ==>
      var later := Sealing(objects, secret, pcrs, pin, pcr, fails, priv, pub).0; o in later && later[o] == objects[o]
  {
  }

  /** Enough for an unseal to return the secret. */
  lemma UnsealingFacts(objects: Objects, ref: Tpm2Ref, pin: string, pcr: PcrValues, fails: Faults,
                       sel: seq<nat>, parts: (Bytes, Bytes))
    requires Quiet(fails)
    requires Pcrs.Parsed(ref.pcrs) == Ok(sel) && UnmarshalBlob(ref.blob) == Some(parts) && parts in objects
    requires objects[parts].policy == Policy(BankOf(ref.bank), sel, ref.pinRequired, pcr)
    requires ref.pinRequired ==> objects[parts].auth == AuthOf(pin)
    ensures Unsealing(objects, ref, pin, pcr, fails) == Ok(objects[parts].secret)
  {
  }

  /** What a successful unseal says about the registry. */
  lemma UnsealedIsRegistered(objects: Objects, ref: Tpm2Ref, pin: string, pcr: PcrValues, fails: Faults)
    requires Unsealing(objects, ref, pin, pcr, fails).Ok?
    ensures UnmarshalBlob(ref.blob).Some? && UnmarshalBlob(ref.blob).value in objects
    ensures Unsealing(objects, ref, pin, pcr, fails).value == objects[UnmarshalBlob(ref.blob).value].secret
  {
  }

  // ----- candidates ---------------------------------------------------------------------------

  /** The sort key: false sorts first. */
  predicate Later(t: Tpm2Ref, pinProvided: bool) {
    t.pinRequired != pinProvided
  }

  /** Stable insertion: behind everything that does not sort strictly after it. */
  function InsertStable(ts: seq<Tpm2Ref>, t: Tpm2Ref, pinProvided: bool): seq<Tpm2Ref> {
    if ts != [] && Later(ts[|ts| - 1], pinProvided) && !Later(t, pinProvided)
    then InsertStable(ts[..|ts| - 1], t, pinProvided) + [ts[|ts| - 1]]
    else ts + [t]
  }

  function StableSort(ts: seq<Tpm2Ref>, pinProvided: bool): seq<Tpm2Ref> {
    if ts == [] then [] else InsertStable(StableSort(ts[..|ts| - 1], pinProvided), ts[|ts| - 1], pinProvided)
  }

  function Retain(ts: seq<Tpm2Ref>, keep: Tpm2Ref -> bool): (r: seq<Tpm2Ref>)
    ensures forall t :: t in r <==> t in ts && keep(t)
  {
    if ts == [] then []
    else
      assert ts == ts[..|ts| - 1] + [ts[|ts| - 1]];
      if keep(ts[|ts| - 1]) then Retain(ts[..|ts| - 1], keep) + [ts[|ts| - 1]] else Retain(ts[..|ts| - 1], keep)
  }

  /** `candidate_tokens`: sort a copy in place, then drop what cannot be tried. */
  method CandidateTokens(tokens: seq<Tpm2Ref>, pinProvided: bool) returns (candidates: seq<Tpm2Ref>)
    ensures candidates == Preferred(tokens, pinProvided)
  {
    candidates := tokens;
    candidates := StableSort(candidates, pinProvided);
    candidates := Retain(candidates, (t: Tpm2Ref) => !t.pinRequired || pinProvided);
    OrderIsPreference(tokens, pinProvided);
  }

  /**
   * The order unlock promises: the tokens whose PIN requirement matches, in header order, then,
   * if a PIN was given, the rest in header order. PIN tokens are dropped when no PIN was given.
   */
  function Preferred(ts: seq<Tpm2Ref>, pinProvided: bool): (r: seq<Tpm2Ref>)
    ensures forall t :: t in r <==> t in ts && (t.pinRequired ==> pinProvided)
  {
    Retain(ts, (t: Tpm2Ref) => t.pinRequired == pinProvided)
    + if pinProvided then Retain(ts, (t: Tpm2Ref) => !t.pinRequired) else []
  }

  /** One step of the insertion, seen from the end. */
  lemma {:induction false} InsertBehind(ts: seq<Tpm2Ref>, last: Tpm2Ref, t: Tpm2Ref, p: bool)
    ensures InsertStable(ts + [last], t, p)
         == if Later(last, p) && !Later(t, p) then InsertStable(ts, t, p) + [last] else ts + [last] + [t]
  {
    assert (ts + [last])[..|ts|] == ts;
  }

  lemma {:induction false} InsertIntoPartition(a: seq<Tpm2Ref>, b: seq<Tpm2Ref>, t: Tpm2Ref, p: bool)
    requires forall x :: x in a ==> !Later(x, p)
    requires forall x :: x in b ==> Later(x, p)
    ensures InsertStable(a + b, t, p) == if Later(t, p) then a + b + [t] else a + [t] + b
  {
    if b == [] {
      assert a + b == a && a + [t] + b == a + [t];
      if a != [] {
        assert a == a[..|a| - 1] + [a[|a| - 1]] && a[|a| - 1] in a;
        InsertBehind(a[..|a| - 1], a[|a| - 1], t, p);
      }
    } else {
      var init, last := b[..|b| - 1], b[|b| - 1];
      assert b == init + [last] && last in b && forall x :: x in init ==> x in b;
      assert a + b == a + init + [last] && a + [t] + init + [last] == a + [t] + b;
      InsertBehind(a + init, last, t, p);
      InsertIntoPartition(a, init, t, p);
    }
  }

  /** The stable sort by a boolean key is the partition by that key. */
  lemma {:induction false} SortIsPartition(ts: seq<Tpm2Ref>, p: bool)
    ensures StableSort(ts, p)
         == Retain(ts, (t: Tpm2Ref) => t.pinRequired == p) + Retain(ts, (t: Tpm2Ref) => t.pinRequired != p)
  {
    if ts != [] {
      var init, t := ts[..|ts| - 1], ts[|ts| - 1];
      SortIsPartition(init, p);
      InsertIntoPartition(Retain(init, (x: Tpm2Ref) => x.pinRequired == p),
                          Retain(init, (x: Tpm2Ref) => x.pinRequired != p), t, p);
    }
  }

  lemma {:induction false} RetainAll(ts: seq<Tpm2Ref>, keep: Tpm2Ref -> bool)
    requires forall t :: t in ts ==> keep(t)
    ensures Retain(ts, keep) == ts
  {
    if ts != [] {
      assert ts[|ts| - 1] in ts && ts == ts[..|ts| - 1] + [ts[|ts| - 1]];
      RetainAll(ts[..|ts| - 1], keep);
    }
  }

  lemma {:induction false} RetainNone(ts: seq<Tpm2Ref>, keep: Tpm2Ref -> bool)
    requires forall t :: t in ts ==> !keep(t)
    ensures Retain(ts, keep) == []
  {
    if ts != [] {
      assert ts[|ts| - 1] in ts && forall t :: t in ts[..|ts| - 1] ==> t in ts;
      RetainNone(ts[..|ts| - 1], keep);
    }
  }

  lemma {:induction false} RetainConcat(a: seq<Tpm2Ref>, b: seq<Tpm2Ref>, keep: Tpm2Ref -> bool)
    ensures Retain(a + b, keep) == Retain(a, keep) + Retain(b, keep)
  {
    if b == [] {
      assert a + b == a;
    } else {
      assert (a + b)[..|a + b| - 1] == a + b[..|b| - 1];
      RetainConcat(a, b[..|b| - 1], keep);
    }
  }

  lemma {:induction false} RetainMatching(ts: seq<Tpm2Ref>)
    ensures Retain(ts, (t: Tpm2Ref) => t.pinRequired != true) == Retain(ts, (t: Tpm2Ref) => !t.pinRequired)
  {
    if ts != [] {
      RetainMatching(ts[..|ts| - 1]);
    }
  }

  /** Sorting then dropping is the preference order. */
  lemma {:induction false} OrderIsPreference(ts: seq<Tpm2Ref>, p: bool)
    ensures Retain(StableSort(ts, p), (t: Tpm2Ref) => !t.pinRequired || p) == Preferred(ts, p)
  {
    var keep := (t: Tpm2Ref) => !t.pinRequired || p;
    var a, b := Retain(ts, (t: Tpm2Ref) => t.pinRequired == p), Retain(ts, (t: Tpm2Ref) => t.pinRequired != p);
    SortIsPartition(ts, p);
    RetainConcat(a, b, keep);
    RetainAll(a, keep);
    if p {
      RetainAll(b, keep);
      RetainMatching(ts);
    } else {
      RetainNone(b, keep);
    }
  }

  // ----- unlock from tokens -------------------------------------------------------------------

  /** Per-attempt faults: every candidate opens its own context. */
  type AttemptFaults = nat -> Faults

  /** What each candidate would answer, were it tried. */
  function Attempts(objects: Objects, cands: seq<Tpm2Ref>, pin: string, pcr: PcrValues, fails: AttemptFaults)
    : (r: seq<Result<Bytes>>)
    ensures |r| == |cands|
  {
    seq(|cands|, i requires 0 <= i < |cands| => Unsealing(objects, cands[i], pin, pcr, fails(i)))
  }

  function FirstOk(results: seq<Result<Bytes>>, i: nat): (r: nat)
    requires i <= |results|
    ensures i <= r <= |results|
    ensures r < |results| ==> results[r].Ok?
    ensures forall j :: i <= j < r ==> results[j].Err?
    decreases |results| - i
  {
    if i == |results| || results[i].Ok? then i else FirstOk(results, i + 1)
  }

  /** What `unseal_from_tokens` answers: the first success in preference order. */
  function UnsealedFrom(objects: Objects, refs: seq<Tpm2Ref>, pin: string, pcr: PcrValues, fails: AttemptFaults)
    : Option<Bytes>
  {
    var results := Attempts(objects, Preferred(refs, pin != ""), pin, pcr, fails);
    var i := FirstOk(results, 0);
    if i == |results| then None else Some(results[i].value)
  }

  /** `unseal_from_tokens`. */
  method UnsealFromTokens(objects: Objects, refs: seq<Tpm2Ref>, pin: string, pcr: PcrValues, fails: AttemptFaults)
    returns (r: Result<Bytes>)
    ensures r.Ok? <==> UnsealedFrom(objects, refs, pin, pcr, fails).Some?
    ensures r.Ok? ==> Some(r.value) == UnsealedFrom(objects, refs, pin, pcr, fails)
    ensures refs == [] ==> r == Err("No systemd-tpm2 token found")
    ensures refs != [] && Preferred(refs, pin != "") == [] ==> r == Err("No systemd-tpm2 token could be unsealed")
  {
    if refs == [] {
      return Err("No systemd-tpm2 token found");
    }
    var lastError := "No systemd-tpm2 token could be unsealed";
    var cands := CandidateTokens(refs, pin != "");
    ghost var results := Attempts(objects, cands, pin, pcr, fails);
    for i := 0 to |cands|
      invariant FirstOk(results, 0) == FirstOk(results, i)
      invariant i == 0 ==> lastError == "No systemd-tpm2 token could be unsealed"
    {
      var attempt := Unsealing(objects, cands[i], pin, pcr, fails(i));
      assert attempt == results[i];
      match attempt {
        case Ok(secret) => return Ok(secret);
        case Err(e) => lastError := "Token " + Show(cands[i].id) + ": " + e;
      }
    }
    return Err(lastError);
  }

  /**
   * First success: unlock succeeds exactly when some eligible token unseals, and no token that
   * requires a PIN is ever attempted with an empty one.
   */
  lemma UnlockIffSomeUnseals(objects: Objects, refs: seq<Tpm2Ref>, pin: string, pcr: PcrValues, fails: AttemptFaults)
    ensures var results := Attempts(objects, Preferred(refs, pin != ""), pin, pcr, fails);
            UnsealedFrom(objects, refs, pin, pcr, fails).Some? <==> exists i :: 0 <= i < |results| && results[i].Ok?
    ensures forall t :: t in Preferred(refs, pin != "") ==> t in refs && (t.pinRequired ==> pin != "")
  {
    var results := Attempts(objects, Preferred(refs, pin != ""), pin, pcr, fails);
    var i := FirstOk(results, 0);
    assert i == |results| || results[i].Ok?;
  }
}
