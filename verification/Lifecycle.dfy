/**
 * The LUKS2 volume lifecycle: what each operation of the service does to the world, as functions.
 * A `Schedule` fixes everything outside the service's control during one operation: which calls
 * fail, what the libraries and the TPM choose, how much time passes. Quantifying over schedules
 * quantifies over every way an operation can stop halfway.
 */
module Lifecycle {
  import opened Common
  import opened Luks2
  import opened Tpm2
  import opened VolumeKeyCache
  import Base64
  import Pcrs
  import RecoveryKey
  import Fido2
  import opened Mappings
  import opened Text

  /** A formatted volume, with every header version ever committed to it, oldest first. */
  datatype Disk = Disk(header: Header, written: seq<Header>)

  /**
   * The service as one volume sees it: its header on disk, its entry in the volume-key cache, the
   * objects the TPM has sealed, the active device-mapper names, and the time.
   */
  datatype Volume = Volume(disk: Option<Disk>, cached: Option<Entry>, objects: Objects, active: set<string>, now: nat)

  type Answers = Fido2.Answers

  /** The calls that can fail, by call site; each site is reached at most once per operation. */
  datatype Call =
    | ReadRefs | OpenForKey | DumpForKey | AddSlot | WriteToken | GuardRead | FindRead | DropToken | DropSlot
    | InitFormat | WriteFormat | FormatSlot | ProbeRead | StatusQuery | ActivateCall

  datatype Schedule = Schedule(
    fails: Call -> bool,
    keyGet: nat -> bool,          // failures of the volume-key calls, by candidate
    seal: Faults,                 // failures of the TPM calls while sealing
    unseal: AttemptFaults,        // and while unsealing, by candidate token
    wait: nat, work: nat,         // time before the cache is consulted, and until a key is cached
    slot: nat, token: nat,        // libcryptsetup's choice of free keyslot and token
    priv: Bytes, pub: Bytes,      // the TPM's wrapping of a sealed object
    pcr: PcrValues,               // the register values during the operation
    keys: Fido2.Session, devices: nat,  // the connected authenticators, as a FIDO2 unlock finds them
    derived: Option<string>)      // the secret a token unlock derives; see Honest

  /** How the caller proposes to unlock: "passphrase", "systemd-fido2" or "systemd-tpm2". */
  datatype Auth = Auth(unlock: string, passphrase: string, pin: string)

  datatype Triple = Triple(ok: bool, stdout: string, stderr: string)

  function ReadHeader(v: Volume, fails: bool): Option<Header> {
    if fails || v.disk.None? then None else Some(v.disk.value.header)
  }

  /** Committing a header version. */
  function Commit(v: Volume, h: Header): Volume {
    v.(disk := Some(Disk(h, (if v.disk.Some? then v.disk.value.written else []) + [h])))
  }

  // ----- obtaining the volume key -------------------------------------------------------------

  /** `derive_passphrase_from_token`: the base64 text of the unsealed or asserted secret. */
  function Derive(v: Volume, kind: string, pin: string, s: Schedule): Option<string> {
    match ReadHeader(v, s.fails(ReadRefs))
    case None => None
    case Some(h) =>
      if kind == FIDO2 then
        match Fido2Refs(Tokens(h))
        case Err(_) => None
        case Ok(refs) =>
          match Fido2.Asserted(s.keys, s.devices, |refs|, pin)
          case None => None
          case Some(secret) => Some(Base64.Encode(secret))
      else if kind == TPM2 then
        match Tpm2Refs(Tokens(h))
        case Err(_) => None
        case Ok(refs) =>
          match UnsealedFrom(v.objects, refs, pin, s.pcr, s.unseal)
          case None => None
          case Some(secret) => Some(Base64.Encode(secret))
      else None
  }

  /**
   * Operations take the derived secret from the schedule, so what is proved of every schedule holds
   * whatever a token answers; an honest schedule is one where it is the secret the service derives.
   */
  predicate Honest(v: Volume, kind: string, pin: string, s: Schedule) {
    s.derived == Derive(v, kind, pin, s)
  }

  /** Unlocking through a token: target the token's slots with the derived secret. */
  function TokenUnlock(v: Volume, kind: string, s: Schedule): (r: Option<Unlocked>)
    ensures r.Some? ==> v.disk.Some? && r.value.key == v.disk.value.header.digest
                        && r.value.slot in v.disk.value.header.slots
  {
    match s.derived
    case None => None
    case Some(pw) =>
      match ReadHeader(v, s.fails(OpenForKey))
      case None => None
      case Some(h) => Extracted(h, kind, pw, !s.fails(DumpForKey), s.keyGet)
  }

  function PassphraseUnlock(v: Volume, passphrase: string, s: Schedule): (r: Option<Unlocked>)
    ensures r.Some? ==> v.disk.Some? && r.value.key == v.disk.value.header.digest
                        && r.value.slot in v.disk.value.header.slots
  {
    match ReadHeader(v, s.fails(OpenForKey))
    case Some(h) => if s.keyGet(0) then None else VolumeKeyGet(h, None, passphrase)
    case None => None
  }

  predicate ValidMethod(unlock: string) {
    unlock == "passphrase" || unlock == FIDO2 || unlock == TPM2
  }

  function Unlock(v: Volume, a: Auth, s: Schedule): (r: Option<Unlocked>)
    ensures r.Some? ==> v.disk.Some? && r.value.key == v.disk.value.header.digest
                        && r.value.slot in v.disk.value.header.slots
  {
    if a.unlock == "passphrase" then PassphraseUnlock(v, a.passphrase, s) else TokenUnlock(v, a.unlock, s)
  }

  /** Priming the cache after `work` time. */
  function Remember(v: Volume, key: Bytes, s: Schedule): (r: Volume)
    ensures Live(r.cached, r.now)
  {
    v.(cached := Some(Entry(key, v.now + s.work)), now := v.now + s.work)
  }

  /**
   * `get_volume_key`. Whoever gets a key either found it live in the cache or opened a keyslot; and
   * the volume has a live cache entry afterwards exactly when a key was returned.
   */
  function GetVolumeKey(v: Volume, a: Auth, s: Schedule): (r: (Volume, Result<Bytes>))
    ensures r.0.(cached := v.cached, now := v.now) == v && r.0.now >= v.now
    ensures r.1.Ok? ==>
      || (Live(v.cached, v.now + s.wait) && r.1.value == v.cached.value.key)
      || (v.disk.Some? && v.disk.value.header.slots != map[] && r.1.value == v.disk.value.header.digest)
    ensures ValidMethod(a.unlock) ==> (Live(r.0.cached, r.0.now) <==> r.1.Ok?)
    ensures !ValidMethod(a.unlock) ==> r.0 == v && r.1.Err?
    ensures r.1.Ok? ==> r.0.cached.value.key == r.1.value
  {
    if !ValidMethod(a.unlock) then (v, Err("Invalid unlock method"))
    else
      var start := v.now + s.wait;
      var (cached, hit) := Peek(v.cached, start);
      var v1 := v.(cached := cached, now := start);
      if hit.Some? then (v1, Ok(hit.value))
      else
        match Unlock(v1, a, s)
        case None => (v1, Err("Failed to get volume key"))
        case Some(u) => (Remember(v1, u.key, s), Ok(u.key))
  }

  /** Behind a cache miss, it is the unlock that decides. */
  lemma GetVolumeKeyOnMiss(v: Volume, a: Auth, s: Schedule)
    requires ValidMethod(a.unlock) && !Live(v.cached, v.now + s.wait)
    ensures var start := v.now + s.wait;
            var v1 := v.(cached := Peek(v.cached, start).0, now := start);
            var u := Unlock(v1, a, s);
            GetVolumeKey(v, a, s) == if u.None? then (v1, Err("Failed to get volume key"))
                                     else (Remember(v1, u.value.key, s), Ok(u.value.key))
  {
  }

  /** `verify_passphrase` and `verify_token` share their shape: unlock, ignore the cache, prime it. */
  function Verified(v: Volume, u: Option<Unlocked>, s: Schedule): (Volume, Option<nat>) {
    match u
    case None => (v, None)
    case Some(u) => (Remember(v, u.key, s), Some(u.slot))
  }

  function VerifyPassphrase(v: Volume, passphrase: string, s: Schedule): (Volume, Option<nat>) {
    Verified(v, PassphraseUnlock(v, passphrase, s), s)
  }

  function VerifyToken(v: Volume, kind: string, s: Schedule): (Volume, Option<nat>) {
    Verified(v, if kind == FIDO2 || kind == TPM2 then TokenUnlock(v, kind, s) else None, s)
  }

  // ----- header mutations ---------------------------------------------------------------------

  function AddKeyslot(v: Volume, key: Bytes, secret: string, s: Schedule): (r: (Volume, Result<nat>))
    ensures r.0.(disk := v.disk) == v
  {
    match ReadHeader(v, s.fails(AddSlot))
    case None => (v, Err("crypt_keyslot_add_by_key failed"))
    case Some(h) =>
      match AddByKey(h, key, secret, s.slot)
      case None => (v, Err("crypt_keyslot_add_by_key failed"))
      case Some(h') => (Commit(v, h'), Ok(s.slot))
  }

  function WriteTokenJson(v: Volume, token: Token, s: Schedule): (r: (Volume, Result<nat>))
    ensures r.0.(disk := v.disk) == v
  {
    match ReadHeader(v, s.fails(WriteToken))
    case None => (v, Err("crypt_token_json_set failed"))
    case Some(h) =>
      match AddToken(h, token, s.token)
      case None => (v, Err("crypt_token_json_set failed"))
      case Some(h') => (Commit(v, h'), Ok(s.token))
  }

  function RemoveTokenJson(v: Volume, id: int, s: Schedule): (r: (Volume, bool))
    ensures r.0.(disk := v.disk) == v
  {
    match ReadHeader(v, s.fails(DropToken))
    case None => (v, false)
    case Some(h) =>
      match Luks2.RemoveToken(h, id)
      case None => (v, false)
      case Some(h') => (Commit(v, h'), true)
  }

  /** `set_token`: no operation replaces a token, but the call could. */
  function SetToken(v: Volume, id: int, token: Option<Token>, s: Schedule): (r: (Volume, Result<int>))
    ensures r.0.(disk := v.disk) == v
  {
    match token
    case None =>
      var (v1, ok) := RemoveTokenJson(v, id, s);
      (v1, if ok then Ok(id) else Err("crypt_token_json_set failed"))
    case Some(t) =>
      if id < 0 then
        var (v1, r) := WriteTokenJson(v, t, s);
        (v1, if r.Ok? then Ok(r.value) else Err("crypt_token_json_set failed"))
      else
        match ReadHeader(v, s.fails(WriteToken))
        case None => (v, Err("crypt_token_json_set failed"))
        case Some(h) =>
          match ReplaceToken(h, t, id)
          case None => (v, Err("crypt_token_json_set failed"))
          case Some(h') => (Commit(v, h'), Ok(id))
  }

  function DestroyKeyslot(v: Volume, slot: int, s: Schedule): (r: (Volume, bool))
    ensures r.0.(disk := v.disk) == v
  {
    match ReadHeader(v, s.fails(DropSlot))
    case None => (v, false)
    case Some(h) =>
      match Luks2.DestroySlot(h, slot)
      case None => (v, false)
      case Some(h') => (Commit(v, h'), true)
  }

  // ----- enrollment ---------------------------------------------------------------------------

  /** What a modality prepares before the volume is touched; the token lacks its keyslots. */
  datatype Prepared = Prepared(secret: string, stdout: string, token: Token)

  function Failed(): Triple {
    Triple(false, "", "Operation failed")
  }

  function Stamped(token: Token, slot: nat): Token {
    token.(keyslots := [Show(slot)])
  }

  /** `enroll_token`: unlock, add the slot, then persist the token that names it. */
  function EnrollToken(v: Volume, a: Auth, p: Result<Prepared>, s: Schedule): (Volume, Triple) {
    match p
    case Err(_) => (v, Failed())
    case Ok(p) =>
      var (v1, key) := GetVolumeKey(v, a, s);
      if key.Err? then (v1, Failed()) else EnrollWithKey(v1, key.value, p, s)
  }

  /** The mutating half of `enroll_token`. */
  function EnrollWithKey(v: Volume, key: Bytes, p: Prepared, s: Schedule): (r: (Volume, Triple))
    ensures r.0.(disk := v.disk) == v
  {
    var (v1, slot) := AddKeyslot(v, key, p.secret, s);
    if slot.Err? then (v1, Failed())
    else
      var (v2, id) := WriteTokenJson(v1, Stamped(p.token, slot.value), s);
      (v2, if id.Err? then Failed() else Triple(true, p.stdout, ""))
  }

  function Tpm2Token(blob: Bytes, pcrs: seq<int>, pin: bool): Token {
    Token(TPM2, [], map[
      Tpm2BlobDash := String(Base64.Encode(blob)),
      Tpm2BlobUnderscore := String(Base64.Encode(blob)),
      Tpm2Pcrs := Array(seq(|pcrs|, i requires 0 <= i < |pcrs| => Number(pcrs[i]))),
      Tpm2PcrBank := String("sha256"),
      Tpm2Pin := Bool(pin)])
  }

  function PrepareTpm2(sealed: Result<Bytes>, pcrs: string, pin: string, secret: Bytes): Result<Prepared> {
    match sealed
    case Err(e) => Err(e)
    case Ok(blob) =>
      match Pcrs.TokenList(Pcrs.Segments(pcrs))
      case Err(e) => Err(e)
      case Ok(list) => Ok(Prepared(Base64.Encode(secret), "", Tpm2Token(blob, list, pin != "")))
  }

  datatype Fido2Enrollment = Fido2Enrollment(credential: Bytes, salt: Bytes, hmacSecret: Bytes)

  function Fido2Token(credential: Bytes, salt: Bytes): Token {
    Token(FIDO2, [], map[
      Fido2Credential := String(Base64.Encode(credential)),
      Fido2Salt := String(Base64.Encode(salt))])
  }

  function PrepareFido2(e: Result<Fido2Enrollment>): Result<Prepared> {
    match e
    case Err(m) => Err(m)
    case Ok(e) => Ok(Prepared(Base64.Encode(e.hmacSecret), "", Fido2Token(e.credential, e.salt)))
  }

  /**
   * The three modalities with a token: a new FIDO2 credential made by device `dev` (`check` is what the
   * devices answer when probed for known ones), a secret sealed by the TPM, a recovery key made of
   * random bytes.
   */
  datatype Modality =
    | ByFido2(check: Answers, dev: nat, e: Result<Fido2Enrollment>)
    | ByTpm2(pcrs: string, pin: string, secret: Bytes)
    | ByRecoveryKey(raw: Bytes)

  const ALREADY_ENROLLED := "This FIDO2 token is already enrolled on this volume"

  /** The device strictly confirms a credential of the volume; unreadable tokens count as none. */
  predicate AlreadyEnrolled(v: Volume, check: Answers, dev: nat, s: Schedule) {
    match ReadHeader(v, s.fails(ProbeRead))
    case None => false
    case Some(h) => Fido2Refs(Tokens(h)).Ok? && Fido2.Enrolled(check, [dev], |Fido2Refs(Tokens(h)).value|) != []
  }

  /** What happens before the volume is unlocked: only the TPM's registry can change, and only grow. */
  function Prepare(v: Volume, m: Modality, s: Schedule): (r: (Volume, Result<Prepared>))
    ensures r.0 == v.(objects := r.0.objects)
    ensures forall o :: o in v.objects ==> o in r.0.objects && r.0.objects[o] == v.objects[o]
  {
    match m
    case ByFido2(_, _, e) => (v, PrepareFido2(e))
    case ByTpm2(pcrs, pin, secret) =>
      SealingGrows(v.objects, secret, pcrs, pin, s.pcr, s.seal, s.priv, s.pub);
      var (objects, sealed) := Sealing(v.objects, secret, pcrs, pin, s.pcr, s.seal, s.priv, s.pub);
      (v.(objects := objects), PrepareTpm2(sealed, pcrs, pin, secret))
    case ByRecoveryKey(raw) =>
      var key := RecoveryKey.MakeRecoveryKey(raw);
      (v, Ok(Prepared(key, key, Token(RECOVERY, [], map[]))))
  }

  /** `op_enroll_fido2`, `op_enroll_tpm2`, `op_enroll_recovery_key`. */
  function Enroll(v: Volume, a: Auth, m: Modality, s: Schedule): (Volume, Triple) {
    if m.ByFido2? && AlreadyEnrolled(v, m.check, m.dev, s) then (v, Triple(false, "", ALREADY_ENROLLED))
    else
      var (v1, p) := Prepare(v, m, s);
      EnrollToken(v1, a, p, s)
  }

  /** An enrollment of a security key is refused at once, or is the shared steps. */
  lemma EnrollKeyIsToken(v: Volume, a: Auth, check: Answers, dev: nat, e: Result<Fido2Enrollment>, s: Schedule)
    ensures Enroll(v, a, ByFido2(check, dev, e), s)
         == if AlreadyEnrolled(v, check, dev, s) then (v, Triple(false, "", ALREADY_ENROLLED))
            else EnrollToken(v, a, PrepareFido2(e), s)
  {
  }

  /** `op_enroll_passphrase`: a slot without a token. */
  function EnrollPassphrase(v: Volume, a: Auth, passphrase: string, s: Schedule): (Volume, Triple) {
    var (v1, key) := GetVolumeKey(v, a, s);
    if key.Err? then (v1, Failed())
    else
      var (v2, slot) := AddKeyslot(v1, key.value, passphrase, s);
      (v2, if slot.Err? then Failed() else Triple(true, "", ""))
  }

  // ----- wiping -------------------------------------------------------------------------------

  /** `list_keyslots`: a failed read is an empty map. */
  function ListKeyslots(v: Volume, fails: bool): set<int> {
    match ReadHeader(v, fails)
    case None => {}
    case Some(h) => h.slots.Keys
  }

  /** `find_token_for_keyslot`: a failed read finds nothing. */
  function FindToken(v: Volume, slot: int, fails: bool): int {
    match ReadHeader(v, fails)
    case None => -1
    case Some(h) => FirstNaming(Tokens(h), slot)
  }

  /** `op_wipe_slot`: unlock, refuse the last slot, drop the token, then the slot. */
  function WipeSlot(v: Volume, a: Auth, slot: int, s: Schedule): (Volume, Triple) {
    var (v1, key) := GetVolumeKey(v, a, s);
    if key.Err? then (v1, Failed()) else WipeGuarded(v1, slot, s)
  }

  /** The guard of `op_wipe_slot`, after the caller has proved it can unlock. */
  function WipeGuarded(v: Volume, slot: int, s: Schedule): (r: (Volume, Triple))
    ensures r.0.(disk := v.disk) == v
  {
    var slots := ListKeyslots(v, s.fails(GuardRead));
    if |slots| <= 1 && slot in slots then (v, Triple(false, "", "Cannot wipe the last remaining keyslot"))
    else WipeTokenThenSlot(v, slot, s)
  }

  /** The mutating half of `op_wipe_slot`. */
  function WipeTokenThenSlot(v: Volume, slot: int, s: Schedule): (r: (Volume, Triple))
    ensures r.0.(disk := v.disk) == v
  {
    var id := FindToken(v, slot, s.fails(FindRead));
    var (v1, dropped) := if id >= 0 then RemoveTokenJson(v, id, s) else (v, true);
    if !dropped then (v1, Failed())
    else
      var (v2, gone) := DestroyKeyslot(v1, slot, s);
      (v2, if gone then Triple(true, "", "") else Failed())
  }

  // ----- formatting ---------------------------------------------------------------------------

  /** `crypt_format`: a header committed to `key`, with no keyslots and no tokens. */
  function Fresh(key: Bytes): Header {
    Header(key, map[], map[])
  }

  /** `format_luks2`: format, then seed a passphrase slot. The cache is not touched. */
  function FormatPassphrase(v: Volume, passphrase: string, key: Bytes, s: Schedule): (Volume, Result<int>) {
    if s.fails(InitFormat) || s.fails(WriteFormat) then (v, Err("crypt_format failed"))
    else
      var v1 := Commit(v, Fresh(key));
      match AddByKey(v1.disk.value.header, key, passphrase, s.slot)
      case Some(h) =>
        if s.fails(FormatSlot) then (v1, Err("crypt_keyslot_add_by_key failed")) else (Commit(v1, h), Ok(s.slot))
      case None => (v1, Err("crypt_keyslot_add_by_key failed"))
  }

  /** `format_luks2_keyless`: format with a generated key, and cache it. */
  function FormatKeyless(v: Volume, key: Bytes, s: Schedule): (Volume, Result<int>) {
    if s.fails(InitFormat) || s.fails(WriteFormat) then (v, Err("crypt_format failed"))
    else (Remember(Commit(v, Fresh(key)), key, s), Ok(-1))
  }

  /** `format_container`: an empty passphrase means no passphrase slot. */
  function FormatContainer(v: Volume, passphrase: string, key: Bytes, s: Schedule): (Volume, Result<int>) {
    if passphrase == "" then FormatKeyless(v, key, s) else FormatPassphrase(v, passphrase, key, s)
  }

  // ----- mappings -----------------------------------------------------------------------------

  /**
   * `op_open_volume`: idempotent on a name seen to be active; the key must match the header's digest. A
   * failed status query reads as inactive, and then the activation of an existing name fails.
   */
  function OpenVolume(v: Volume, name: string, a: Auth, s: Schedule): (Volume, Triple) {
    if !ValidMapperName(name) then (v, Triple(false, "", "Invalid mapper name"))
    else if name in v.active && !s.fails(StatusQuery) then (v, Triple(true, name, ""))
    else
      var (v1, key) := GetVolumeKey(v, a, s);
      if key.Err? then (v1, Triple(false, "", key.message))
      else
        match ReadHeader(v1, s.fails(ActivateCall))
        case Some(h) =>
          if key.value == h.digest && name !in v1.active
          then (v1.(active := v1.active + {name}), Triple(true, name, ""))
          else (v1, Triple(false, "", "crypt_activate_by_volume_key failed"))
        case None => (v1, Triple(false, "", "crypt_activate_by_volume_key failed"))
  }

  // ----- whole runs ---------------------------------------------------------------------------

  /**
   * What can happen to a volume. `Elsewhere` is everything the process does that does not address
   * it: time passes, the TPM seals more objects, mappings come and go.
   */
  datatype Op =
    | Format(passphrase: string, key: Bytes)
    | Verify(passphrase: string)
    | UnlockWithToken(kind: string, pin: string)
    | EnrollWith(a: Auth, m: Modality)
    | EnrollP(a: Auth, passphrase: string)
    | Wipe(a: Auth, slot: int)
    | Open(name: string, a: Auth)
    | AskCached
    | Close(name: string, e: Surroundings)
    | CloseFile(dev: nat, ino: nat, loops: seq<LoopSnapshot>, e: Surroundings)
    | Elsewhere(time: nat, more: Objects, active: set<string>)

  function Perform(v: Volume, op: Op, s: Schedule): Volume {
    match op
    case Format(passphrase, key) => FormatContainer(v, passphrase, key, s).0
    case Verify(passphrase) => VerifyPassphrase(v, passphrase, s).0
    case UnlockWithToken(kind, _) => VerifyToken(v, kind, s).0
    case EnrollWith(a, m) => Enroll(v, a, m, s).0
    case EnrollP(a, passphrase) => EnrollPassphrase(v, a, passphrase, s).0
    case Wipe(a, slot) => WipeSlot(v, a, slot, s).0
    case Open(name, a) => OpenVolume(v, name, a, s).0
    case AskCached => v.(cached := Peek(v.cached, v.now + s.wait).0, now := v.now + s.wait)
    case Close(name, e) => v.(active := Deactivated(v.active, name, e).0)
    case CloseFile(dev, ino, loops, e) => v.(active := AfterClose(v.active, dev, ino, loops, e))
    case Elsewhere(time, more, active) => v.(now := v.now + time, objects := more + v.objects, active := active)
  }

  lemma PerformEnroll(v: Volume, a: Auth, m: Modality, s: Schedule)
    ensures Perform(v, EnrollWith(a, m), s) == Enroll(v, a, m, s).0
  {
  }

  datatype Event = Event(op: Op, s: Schedule)

  function Run(v: Volume, events: seq<Event>): Volume {
    if events == [] then v
    else Perform(Run(v, events[..|events| - 1]), events[|events| - 1].op, events[|events| - 1].s)
  }

  /** Nothing formatted, nothing cached, nothing sealed. */
  const START := Volume(None, None, map[], {}, 0)
}
