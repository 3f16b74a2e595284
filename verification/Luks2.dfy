/**
 * A LUKS2 header as libcryptsetup presents it, the library calls the service makes on it, and the
 * metadata queries of luks.rs. Keyslots open by an ideal key-derivation function: a slot opens with
 * exactly the secret it was made from, and the key it yields must match the header's digest.
 */
module Luks2 {
  import opened Common
  import opened Text
  import Base64

  /** Limits of the on-disk format: at most 32 keyslots and 32 tokens. */
  const SLOTS_MAX: nat := 32
  const TOKENS_MAX: nat := 32

  const FIDO2 := "systemd-fido2"
  const TPM2 := "systemd-tpm2"
  const RECOVERY := "systemd-recovery"

  /** The JSON values the token readers distinguish. */
  datatype Json = Null | Bool(b: bool) | Number(n: int) | String(s: string) | Array(items: seq<Json>)

  /** The token members the service reads back, besides "type" and "keyslots". */
  datatype Field = Tpm2BlobUnderscore | Tpm2BlobDash | Tpm2Pcrs | Tpm2PcrBank | Tpm2Pin | Fido2Credential | Fido2Salt

  datatype Token = Token(kind: string, keyslots: seq<string>, fields: map<Field, Json>)

  datatype Keyslot = Keyslot(secret: string, wrapped: Bytes)

  /** `digest` stands for the volume key the header's digest commits to. */
  datatype Header = Header(digest: Bytes, slots: map<nat, Keyslot>, tokens: map<nat, Token>)

  predicate WellFormed(h: Header) {
    (forall k :: k in h.slots ==> k < SLOTS_MAX) && (forall t :: t in h.tokens ==> t < TOKENS_MAX)
  }

  // ----- metadata queries ---------------------------------------------------------------------

  /** The order in which a JSON object keyed by decimal strings is iterated. */
  const JSON_ORDER: seq<nat> := [0] + ([1] + JSON_TAIL)

  const JSON_TAIL: seq<nat> :=
    [10, 11, 12, 13, 14, 15, 16, 17, 18, 19, 2, 20, 21, 22, 23, 24, 25, 26, 27, 28, 29, 3, 30, 31, 4, 5, 6, 7, 8, 9]

  datatype Listed = Listed(id: nat, token: Token)

  function ListedIn(tokens: map<nat, Token>, order: seq<nat>): (r: seq<Listed>)
    ensures forall l :: l in r <==> l.id in order && l.id in tokens && tokens[l.id] == l.token
  {
    if order == [] then []
    else
      assert order == [order[0]] + order[1..];
      if order[0] in tokens then
        [Listed(order[0], tokens[order[0]])] + ListedIn(tokens, order[1..])
      else
        ListedIn(tokens, order[1..])
  }

  /** The "tokens" object of the dumped metadata. */
  function Tokens(h: Header): seq<Listed> {
    ListedIn(h.tokens, JSON_ORDER)
  }

  lemma TokensAreAll(h: Header)
    requires WellFormed(h)
    ensures forall l :: l in Tokens(h) <==> l.id in h.tokens && h.tokens[l.id] == l.token
  {
    forall n: nat | n < TOKENS_MAX
      ensures n in JSON_ORDER
    {
      InJsonOrder(n);
    }
  }

  lemma InJsonOrder(n: nat)
    requires n < TOKENS_MAX
    ensures n in JSON_ORDER
  {
    var at := [10, 21, 24, 25, 26, 27, 28, 29, 0, 1, 2, 3, 4, 5, 6, 7, 8, 9, 11, 12, 13, 14, 15, 16, 17, 18, 19, 20,
               22, 23];
    if n < 2 {
      assert n in [0] + [1];
    } else {
      assert JSON_TAIL[at[n - 2]] == n;
    }
  }

  /** `token_keyslots`: the recorded slots that parse as integers. */
  function TokenKeyslots(t: Token): seq<int> {
    ParsedSlots(t.keyslots)
  }

  function ParsedSlots(names: seq<string>): seq<int> {
    if names == [] then []
    else
      match ParseI32(names[0])
      case Some(k) => [k] + ParsedSlots(names[1..])
      case None => ParsedSlots(names[1..])
  }

  predicate Names(t: Token, slot: int) {
    slot in TokenKeyslots(t)
  }

  /** All slots recorded by the tokens of one type, in metadata order. */
  function RecordedSlots(tokens: seq<Listed>, kind: string): seq<int> {
    if tokens == [] then []
    else
      var last := tokens[|tokens| - 1].token;
      RecordedSlots(tokens[..|tokens| - 1], kind) + if last.kind == kind then TokenKeyslots(last) else []
  }

  lemma {:induction false} RecordedSnoc(tokens: seq<Listed>, i: nat, kind: string)
    requires i < |tokens|
    ensures RecordedSlots(tokens[..i + 1], kind)
         == RecordedSlots(tokens[..i], kind)
            + if tokens[i].token.kind == kind then TokenKeyslots(tokens[i].token) else []
  {
    assert tokens[..i + 1][..i] == tokens[..i];
  }

  /** Walking through `named` behind `seen`, element by element. */
  lemma PrefixesBehind(seen: seq<int>, named: seq<int>)
    ensures seen + named[..0] == seen && seen + named[..|named|] == seen + named
    ensures forall j :: 0 <= j < |named| ==> seen + named[..j + 1] == seen + named[..j] + [named[j]]
  {
  }

  /** The inner loop of `token_type_keyslots`: push the slots not seen yet. */
  method PushNew(slots: seq<int>, named: seq<int>, ghost seen: seq<int>) returns (out: seq<int>)
    requires slots == Distinct(seen)
    ensures out == Distinct(seen + named)
  {
    out := slots;
    ghost var all := seen;
    PrefixesBehind(seen, named);
    for j := 0 to |named|
      invariant all == seen + named[..j]
      invariant out == Distinct(all)
    {
      DistinctPush(all, named[j]);
      if named[j] !in out {
        out := out + [named[j]];
      }
      all := all + [named[j]];
    }
  }

  /** `token_type_keyslots`: ordered, de-duplicated. */
  method TokenTypeKeyslots(tokens: seq<Listed>, kind: string) returns (slots: seq<int>)
    ensures slots == Distinct(RecordedSlots(tokens, kind))
  {
    slots := [];
    ghost var seen: seq<int> := [];
    for i := 0 to |tokens|
      invariant seen == RecordedSlots(tokens[..i], kind)
      invariant slots == Distinct(seen)
    {
      RecordedSnoc(tokens, i, kind);
      if tokens[i].token.kind == kind {
        slots := PushNew(slots, TokenKeyslots(tokens[i].token), seen);
        seen := seen + TokenKeyslots(tokens[i].token);
      }
    }
    assert tokens[..|tokens|] == tokens;
  }

  /** `find_token_for_keyslot` on metadata that was read: the first token naming the slot, or -1. */
  method FindTokenForKeyslot(tokens: seq<Listed>, slot: int) returns (id: int)
    ensures id == FirstNaming(tokens, slot)
  {
    for i := 0 to |tokens|
      invariant FirstNaming(tokens, slot) == FirstNaming(tokens[i..], slot)
    {
      if Names(tokens[i].token, slot) {
        return tokens[i].id;
      }
      assert tokens[i..][1..] == tokens[i + 1..];
    }
    id := -1;
  }

  function FirstNaming(tokens: seq<Listed>, slot: int): (id: int)
    ensures id < 0 ==> id == -1 && forall l :: l in tokens ==> !Names(l.token, slot)
    ensures id >= 0 ==> exists l :: l in tokens && l.id == id && Names(l.token, slot)
  {
    if tokens == [] then -1
    else if Names(tokens[0].token, slot) then
      assert tokens[0] in tokens;
      tokens[0].id
    else
      assert tokens == [tokens[0]] + tokens[1..];
      FirstNaming(tokens[1..], slot)
  }

  // ----- token references used by unlock ------------------------------------------------------

  datatype Tpm2Ref = Tpm2Ref(id: nat, blob: Bytes, pcrs: string, bank: string, pinRequired: bool)
  datatype Fido2Ref = Fido2Ref(credential: Bytes, salt: Bytes)

  function StringField(t: Token, f: Field): Option<string> {
    if f in t.fields && t.fields[f].String? then Some(t.fields[f].s) else None
  }

  /** The blob, "tpm2_blob" before "tpm2-blob", as one string or as an array of chunks. */
  function BlobField(t: Token): Option<Json> {
    if Tpm2BlobUnderscore in t.fields && !t.fields[Tpm2BlobUnderscore].Null? then Some(t.fields[Tpm2BlobUnderscore])
    else if Tpm2BlobDash in t.fields then Some(t.fields[Tpm2BlobDash])
    else None
  }

  function DecodeChunks(parts: seq<Json>): Result<Bytes> {
    if parts == [] then Ok([])
    else if !parts[0].String? then Err("bad tpm2-blob entry")
    else
      match Base64.Decode(parts[0].s)
      case None => Err("bad base64")
      case Some(chunk) =>
        match DecodeChunks(parts[1..])
        case Err(e) => Err(e)
        case Ok(rest) => Ok(chunk + rest)
  }

  function DecodeBlob(j: Json): Result<Bytes> {
    match j
    case Array(parts) => DecodeChunks(parts)
    case String(s) => if Base64.Decode(s).Some? then Ok(Base64.Decode(s).value) else Err("bad base64")
    case _ => Err("bad tpm2-blob field")
  }

  function PcrText(j: Json): string {
    match j
    case Number(n) => Show(n)
    case String(s) => s
    case _ => ""
  }

  /** `to_string` on a non-string scalar. */
  function ScalarText(j: Json): string {
    match j
    case Null => "null"
    case Bool(b) => if b then "true" else "false"
    case Number(n) => Show(n)
    case String(s) => s
    case Array(_) => ""
  }

  function PcrTexts(items: seq<Json>): seq<string> {
    seq(|items|, i requires 0 <= i < |items| => PcrText(items[i]))
  }

  /** The PCR list as the "7+11" string the TPM code parses. */
  function PcrField(t: Token): string {
    if Tpm2Pcrs !in t.fields then ""
    else
      match t.fields[Tpm2Pcrs]
      case Array(items) => Join(PcrTexts(items))
      case other => ScalarText(other)
  }

  function Tpm2RefOf(l: Listed): Result<Tpm2Ref> {
    match BlobField(l.token)
    case None => Err("tpm2 token missing tpm2-blob")
    case Some(j) =>
      match DecodeBlob(j)
      case Err(e) => Err(e)
      case Ok(blob) =>
        Ok(Tpm2Ref(l.id, blob, PcrField(l.token),
                   if StringField(l.token, Tpm2PcrBank).Some? then StringField(l.token, Tpm2PcrBank).value
                   else "sha256",
                   Tpm2Pin in l.token.fields && l.token.fields[Tpm2Pin] == Bool(true)))
  }

  /** `tpm2_refs_from_meta`: one malformed token fails the whole read. */
  function Tpm2Refs(tokens: seq<Listed>): (r: Result<seq<Tpm2Ref>>)
    ensures r.Ok? <==> forall l :: l in tokens && l.token.kind == TPM2 ==> Tpm2RefOf(l).Ok?
    ensures r.Ok? ==> forall ref :: ref in r.value <==>
      exists l :: l in tokens && l.token.kind == TPM2 && Tpm2RefOf(l) == Ok(ref)
  {
    if tokens == [] then Ok([])
    else
      assert tokens == [tokens[0]] + tokens[1..];
      if tokens[0].token.kind != TPM2 then Tpm2Refs(tokens[1..])
      else
        assert tokens[0] in tokens;
        match Tpm2RefOf(tokens[0])
        case Err(e) => Err(e)
        case Ok(ref) =>
          match Tpm2Refs(tokens[1..])
          case Err(e) => Err(e)
          case Ok(rest) => Ok([ref] + rest)
  }

  function Fido2RefOf(t: Token): Result<Fido2Ref> {
    match (StringField(t, Fido2Credential), StringField(t, Fido2Salt))
    case (None, _) => Err("fido2 token missing fido2-credential")
    case (_, None) => Err("fido2 token missing fido2-salt")
    case (Some(c), Some(s)) =>
      if Base64.Decode(c).Some? && Base64.Decode(s).Some?
      then Ok(Fido2Ref(Base64.Decode(c).value, Base64.Decode(s).value))
      else Err("bad base64")
  }

  /** `fido2_refs_from_meta`. */
  function Fido2Refs(tokens: seq<Listed>): (r: Result<seq<Fido2Ref>>)
    ensures r.Ok? <==> forall l :: l in tokens && l.token.kind == FIDO2 ==> Fido2RefOf(l.token).Ok?
    ensures r.Ok? ==> forall ref :: ref in r.value <==>
      exists l :: l in tokens && l.token.kind == FIDO2 && Fido2RefOf(l.token) == Ok(ref)
  {
    if tokens == [] then Ok([])
    else
      assert tokens == [tokens[0]] + tokens[1..];
      if tokens[0].token.kind != FIDO2 then Fido2Refs(tokens[1..])
      else
        assert tokens[0] in tokens;
        match Fido2RefOf(tokens[0].token)
        case Err(e) => Err(e)
        case Ok(ref) =>
          match Fido2Refs(tokens[1..])
          case Err(e) => Err(e)
          case Ok(rest) => Ok([ref] + rest)
  }

  // ----- libcryptsetup ------------------------------------------------------------------------

  predicate Opens(h: Header, slot: int, pw: string) {
    slot >= 0 && slot in h.slots && h.slots[slot].secret == pw && h.slots[slot].wrapped == h.digest
  }

  function LowestOpening(h: Header, pw: string, from: nat): (r: Option<nat>)
    requires from <= SLOTS_MAX
    ensures r.Some? ==> Opens(h, r.value, pw) && forall k :: from <= k < r.value ==> !Opens(h, k, pw)
    ensures r.None? ==> forall k :: from <= k < SLOTS_MAX ==> !Opens(h, k, pw)
    decreases SLOTS_MAX - from
  {
    if from == SLOTS_MAX then None
    else if Opens(h, from, pw) then Some(from)
    else LowestOpening(h, pw, from + 1)
  }

  datatype Unlocked = Unlocked(slot: nat, key: Bytes)

  /** `crypt_volume_key_get` on one slot, or on every slot in turn (None). */
  function VolumeKeyGet(h: Header, slot: Option<int>, pw: string): (r: Option<Unlocked>)
    ensures r.Some? ==> Opens(h, r.value.slot, pw) && r.value.key == h.digest
    ensures slot.Some? ==> (r.Some? <==> Opens(h, slot.value, pw)) && (r.Some? ==> r.value.slot == slot.value)
    ensures slot.None? && WellFormed(h) ==> (r.Some? <==> exists k: nat :: Opens(h, k, pw))
    ensures slot.None? && r.Some? ==> forall k: nat :: k < r.value.slot ==> !Opens(h, k, pw)
  {
    match slot
    case Some(k) => if Opens(h, k, pw) then Some(Unlocked(k, h.slots[k].wrapped)) else None
    case None =>
      match LowestOpening(h, pw, 0)
      case None => None
      case Some(k) => Some(Unlocked(k, h.slots[k].wrapped))
  }

  /** `crypt_keyslot_add_by_key` into a free slot of the library's choosing; the key must match the digest. */
  function AddByKey(h: Header, key: Bytes, secret: string, pick: nat): Option<Header> {
    if key == h.digest && pick < SLOTS_MAX && pick !in h.slots
    then Some(h.(slots := h.slots[pick := Keyslot(secret, key)]))
    else None
  }

  function AddToken(h: Header, token: Token, pick: nat): Option<Header> {
    if pick < TOKENS_MAX && pick !in h.tokens then Some(h.(tokens := h.tokens[pick := token])) else None
  }

  function ReplaceToken(h: Header, token: Token, id: int): Option<Header> {
    if 0 <= id < TOKENS_MAX then Some(h.(tokens := h.tokens[id := token])) else None
  }

  function RemoveToken(h: Header, id: int): Option<Header> {
    if id >= 0 && id in h.tokens then Some(h.(tokens := h.tokens - {id})) else None
  }

  function DestroySlot(h: Header, slot: int): Option<Header> {
    if slot >= 0 && slot in h.slots then Some(h.(slots := h.slots - {slot})) else None
  }

  // ----- targeted unlock ----------------------------------------------------------------------

  /** CRYPT_ANY_SLOT: a recorded "-1", cast to an unsigned number and back, addresses every slot. */
  const ANY_SLOT := -1

  function Address(recorded: int): Option<int> {
    if recorded == ANY_SLOT then None else Some(recorded)
  }

  /** The addresses tried, in order: the token type's slots, then "every slot". */
  function Candidates(h: Header, kind: string, dumped: bool): (r: seq<Option<int>>)
    ensures r != [] && r[|r| - 1] == None
  {
    var slots := if dumped then Distinct(RecordedSlots(Tokens(h), kind)) else [];
    seq(|slots|, i requires 0 <= i < |slots| => Address(slots[i])) + [None]
  }

  const NO_FAILURE: nat -> bool := _ => false

  /** The first candidate whose call does not fail and whose slot opens. */
  function FirstHit(h: Header, cands: seq<Option<int>>, pw: string, fails: nat -> bool, i: nat): (r: nat)
    requires i <= |cands|
    ensures i <= r <= |cands|
    ensures r < |cands| ==> !fails(r) && VolumeKeyGet(h, cands[r], pw).Some?
    ensures forall j :: i <= j < r ==> fails(j) || VolumeKeyGet(h, cands[j], pw).None?
    decreases |cands| - i
  {
    if i == |cands| || (!fails(i) && VolumeKeyGet(h, cands[i], pw).Some?) then i
    else FirstHit(h, cands, pw, fails, i + 1)
  }

  /** What `extract_token_volume_key` answers on a header it could open. */
  function Extracted(h: Header, kind: string, pw: string, dumped: bool, fails: nat -> bool): (r: Option<Unlocked>)
    ensures r.Some? ==> Opens(h, r.value.slot, pw) && r.value.key == h.digest
  {
    var cands := Candidates(h, kind, dumped);
    var i := FirstHit(h, cands, pw, fails, 0);
    if i == |cands| then None else VolumeKeyGet(h, cands[i], pw)
  }

  /** `extract_token_volume_key`; `tries` counts the library calls made. */
  method ExtractTokenVolumeKey(h: Header, kind: string, pw: string, dumped: bool, fails: nat -> bool)
    returns (r: Option<Unlocked>, tries: nat)
    ensures r == Extracted(h, kind, pw, dumped, fails)
    ensures r.Some? ==> tries == FirstHit(h, Candidates(h, kind, dumped), pw, fails, 0) + 1
  {
    var slots := [];
    if dumped {
      slots := TokenTypeKeyslots(Tokens(h), kind);
    }
    var cands := seq(|slots|, i requires 0 <= i < |slots| => Address(slots[i])) + [None];
    tries := 0;
    while tries < |cands|
      invariant tries <= |cands|
      invariant FirstHit(h, cands, pw, fails, 0) == FirstHit(h, cands, pw, fails, tries)
    {
      tries := tries + 1;
      if !fails(tries - 1) {
        r := VolumeKeyGet(h, cands[tries - 1], pw);
        if r.Some? {
          return;
        }
      }
    }
    r := None;
  }

  /**
   * Targeted unlock refines try-all: with no failing call it succeeds exactly when trying every
   * slot does and yields the same key, whatever the tokens record.
   */
  lemma TargetedRefinesTryAll(h: Header, kind: string, pw: string, dumped: bool)
    requires WellFormed(h)
    ensures var got := Extracted(h, kind, pw, dumped, NO_FAILURE);
            var all := VolumeKeyGet(h, None, pw);
            (got.Some? <==> all.Some?) && (got.Some? ==> got.value.key == all.value.key)
  {
    var cands := Candidates(h, kind, dumped);
    var i := FirstHit(h, cands, pw, NO_FAILURE, 0);
    if i == |cands| {
      assert cands[|cands| - 1] == None;
    }
  }

  /** It is never worse than try-all even when targeted calls fail: only the last call matters. */
  lemma TargetedNeverWorse(h: Header, kind: string, pw: string, dumped: bool, fails: nat -> bool)
    requires WellFormed(h)
    requires !fails(|Candidates(h, kind, dumped)| - 1)
    ensures Extracted(h, kind, pw, dumped, fails).Some? <==> VolumeKeyGet(h, None, pw).Some?
  {
    var cands := Candidates(h, kind, dumped);
    var i := FirstHit(h, cands, pw, fails, 0);
    assert cands[|cands| - 1] == None;
  }

  /** Every single slot addressed is a recorded slot of the type. */
  lemma {:induction false} TargetsAreRecorded(h: Header, kind: string)
    ensures var cands := Candidates(h, kind, true);
            forall j :: 0 <= j < |cands| && cands[j].Some? ==> cands[j].value in RecordedSlots(Tokens(h), kind)
  {
    var slots, cands := Distinct(RecordedSlots(Tokens(h), kind)), Candidates(h, kind, true);
    forall j | 0 <= j < |cands| && cands[j].Some?
      ensures cands[j].value in RecordedSlots(Tokens(h), kind)
    {
      assert cands[j] == Address(slots[j]) && slots[j] in slots;
    }
  }

  /** Up to and including attempt `hit`, single slots are addressed. */
  predicate SinglesUpTo(cands: seq<Option<int>>, hit: nat) {
    forall j :: 0 <= j < |cands| && j <= hit ==> cands[j].Some?
  }

  /** Some recorded slot opens, and no "-1", which libcryptsetup takes for every slot, is recorded ahead of it. */
  ghost predicate OpensBeforeAny(h: Header, slots: seq<int>, pw: string) {
    exists k :: 0 <= k < |slots| && Opens(h, slots[k], pw) && ANY_SLOT !in slots[..k]
  }

  /** The slow scan of every slot is avoided exactly when one of the type's recorded slots opens before any "-1". */
  lemma {:induction false} TargetedStaysInTypeIff(h: Header, kind: string, pw: string)
    ensures var slots, cands := Distinct(RecordedSlots(Tokens(h), kind)), Candidates(h, kind, true);
            SinglesUpTo(cands, FirstHit(h, cands, pw, NO_FAILURE, 0)) <==> OpensBeforeAny(h, slots, pw)
  {
    var slots, cands := Distinct(RecordedSlots(Tokens(h), kind)), Candidates(h, kind, true);
    assert forall j :: 0 <= j < |slots| ==> cands[j] == Address(slots[j]);
    HitStaysInTypeIff(h, slots, cands, pw, FirstHit(h, cands, pw, NO_FAILURE, 0));
  }

  lemma {:induction false} HitStaysInTypeIff(h: Header, slots: seq<int>, cands: seq<Option<int>>, pw: string, hit: nat)
    requires |cands| == |slots| + 1 && cands[|slots|] == None && hit <= |cands|
    requires forall j :: 0 <= j < |slots| ==> cands[j] == Address(slots[j])
    requires hit < |cands| ==> VolumeKeyGet(h, cands[hit], pw).Some?
    requires forall j :: 0 <= j < hit ==> VolumeKeyGet(h, cands[j], pw).None?
    ensures SinglesUpTo(cands, hit) <==> OpensBeforeAny(h, slots, pw)
  {
    if OpensBeforeAny(h, slots, pw) {
      var k :| 0 <= k < |slots| && Opens(h, slots[k], pw) && ANY_SLOT !in slots[..k];
      assert VolumeKeyGet(h, cands[k], pw).Some? && hit <= k;
      assert forall j :: 0 <= j < k ==> slots[j] == slots[..k][j];
    }
    if SinglesUpTo(cands, hit) {
      assert hit < |slots| && cands[hit].Some?;
      assert forall j :: 0 <= j < hit ==> cands[j].Some? && slots[j] != ANY_SLOT;
      assert ANY_SLOT !in slots[..hit];
    }
  }
}
