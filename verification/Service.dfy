/**
 * The operations as the service runs them: step by step on shared state - the headers on disk, the
 * process-wide volume-key cache, the TPM, the device-mapper table - each proved to do to its own
 * volume exactly what the lifecycle functions say, and nothing to any other volume.
 */
module Service {
  import opened Common
  import opened Luks2
  import opened Tpm2
  import opened VolumeKeyCache
  import opened Mappings
  import L = Lifecycle
  import Base64
  import Pcrs
  import RecoveryKey
  import Fido2
  import W = Worlds
  import I = Invariants
  import T = TokenInvariants

  /** The schedule in which a token unlock derives what the tokens of the volume really yield. */
  function Honestly(v: L.Volume, kind: string, pin: string, s: L.Schedule): (r: L.Schedule)
    ensures L.Honest(v, kind, pin, r)
  {
    s.(derived := L.Derive(v, kind, pin, s))
  }

  /** The same for a whole operation; a TPM2 enrollment unlocks after it has sealed. */
  function HonestFor(v: L.Volume, op: L.Op, s: L.Schedule): L.Schedule {
    match op
    case EnrollWith(a, m) => Honestly(L.Prepare(v, m, s).0, a.unlock, a.pin, s)
    case EnrollP(a, _) => Honestly(v, a.unlock, a.pin, s)
    case Wipe(a, _) => Honestly(v, a.unlock, a.pin, s)
    case Open(_, a) => Honestly(v, a.unlock, a.pin, s)
    case UnlockWithToken(kind, pin) => Honestly(v, kind, pin, s)
    case _ => s
  }

  class LuksService {
    ghost var served: seq<W.Request>
    var disks: map<string, L.Disk>
    const cache: VkCache
    const table: DmTable
    var objects: Objects
    var now: nat

    constructor (links: map<string, string>)
      ensures Valid() && Reached() && served == []
    {
      served, disks, objects, now := [], map[], map[], 0;
      cache := new VkCache(links);
      table := new DmTable({});
    }

    ghost predicate Valid()
      reads this, cache
    {
      cache.Valid(now)
    }

    function Real(device: string): string {
      Realpath(cache.links, device)
    }

    /** The state is the one that serving all the requests so far, in order, leads to. */
    ghost predicate Reached()
      reads this, cache, table
    {
      World() == W.RunAll(W.EMPTY, served)
    }

    function World(): W.World
      reads this, cache, table
    {
      W.World(disks, cache.entries, objects, table.active, now)
    }

    /** The service as the volume at a canonical path sees it. */
    function View(path: string): L.Volume
      reads this, cache, table
    {
      W.View(World(), path)
    }

    /** Everything that belongs to the other volumes. */
    function Others(path: string): (map<string, L.Disk>, Table)
      reads this, cache, table
    {
      W.Others(World(), path)
    }

    /** `open_luks2` and the header it loads. */
    method OpenLuks2(device: string, fails: bool) returns (h: Option<Header>)
      ensures h == L.ReadHeader(View(Real(device)), fails)
    {
      if fails || Real(device) !in disks {
        return None;
      }
      return Some(disks[Real(device)].header);
    }

    method Commit(device: string, h: Header)
      requires Valid()
      modifies this`disks
      ensures Valid() && View(Real(device)) == L.Commit(old(View(Real(device))), h)
      ensures Others(Real(device)) == old(Others(Real(device)))
    {
      var path := Real(device);
      var written := if path in disks then disks[path].written else [];
      ghost var w := World();
      disks := disks[path := L.Disk(h, written + [h])];
      assert World() == w.(disks := w.disks[path := L.Disk(h, written + [h])]);
      W.DiskIsLocal(w, path, L.Disk(h, written + [h]));
    }

    /** `cache_volume_key` after `work` time. */
    method Remember(device: string, key: Bytes, s: L.Schedule)
      requires Valid()
      modifies this`now, cache
      ensures Valid() && View(Real(device)) == L.Remember(old(View(Real(device))), key, s)
      ensures Others(Real(device)) == old(Others(Real(device)))
    {
      ghost var before, w, path := now, World(), Real(device);
      now := now + s.work;
      cache.CacheVolumeKey(device, key, before, now);
      assert World() == w.(entries := w.entries[path := Entry(key, now)], now := now);
      W.CachedIsLocal(w, path, Entry(key, now), now);
    }

    // ----- unlock -------------------------------------------------------------------------------

    /** `derive_passphrase_from_token`. */
    method DerivePassphraseFromToken(device: string, kind: string, pin: string, s: L.Schedule)
      returns (r: Option<string>)
      ensures r == L.Derive(View(Real(device)), kind, pin, s)
    {
      var h := OpenLuks2(device, s.fails(L.ReadRefs));
      if h.None? {
        return None;
      }
      if kind == FIDO2 {
        var refs := Fido2Refs(Tokens(h.value));
        if refs.Err? {
          return None;
        }
        var bus := new Fido2.Bus();
        var secret := bus.UnlockFromTokens(s.keys, s.devices, |refs.value|, pin);
        if secret.Err? {
          return None;
        }
        return Some(Base64.Encode(secret.value));
      } else if kind == TPM2 {
        var refs := Tpm2Refs(Tokens(h.value));
        if refs.Err? {
          return None;
        }
        var secret := UnsealFromTokens(objects, refs.value, pin, s.pcr, s.unseal);
        if secret.Err? {
          return None;
        }
        return Some(Base64.Encode(secret.value));
      }
      return None;
    }

    /** Deriving the secret, then the targeted extraction. */
    method TokenUnlock(device: string, kind: string, pin: string, s: L.Schedule) returns (r: Option<Unlocked>)
      ensures r == L.TokenUnlock(View(Real(device)), kind, Honestly(View(Real(device)), kind, pin, s))
    {
      var pw := DerivePassphraseFromToken(device, kind, pin, s);
      if pw.None? {
        return None;
      }
      var h := OpenLuks2(device, s.fails(L.OpenForKey));
      if h.None? {
        return None;
      }
      var tries;
      r, tries := ExtractTokenVolumeKey(h.value, kind, pw.value, !s.fails(L.DumpForKey), s.keyGet);
    }

    method PassphraseUnlock(device: string, passphrase: string, s: L.Schedule) returns (r: Option<Unlocked>)
      ensures r == L.PassphraseUnlock(View(Real(device)), passphrase, s)
    {
      var h := OpenLuks2(device, s.fails(L.OpenForKey));
      if h.None? || s.keyGet(0) {
        return None;
      }
      return VolumeKeyGet(h.value, None, passphrase);
    }

    /** Unlocking by whichever method the caller proposes. */
    method Unlock(device: string, a: L.Auth, s: L.Schedule) returns (u: Option<Unlocked>)
      ensures u == L.Unlock(View(Real(device)), a, Honestly(View(Real(device)), a.unlock, a.pin, s))
    {
      if a.unlock == "passphrase" {
        u := PassphraseUnlock(device, a.passphrase, s);
      } else {
        u := TokenUnlock(device, a.unlock, a.pin, s);
      }
    }

    /** Consulting the cache after `wait` time. */
    method ConsultCache(device: string, s: L.Schedule) returns (hit: Option<Bytes>)
      requires Valid()
      modifies this`now, cache
      ensures Valid() && Others(Real(device)) == old(Others(Real(device)))
      ensures var v := old(View(Real(device))); var start := v.now + s.wait;
              && View(Real(device)) == v.(cached := Peek(v.cached, start).0, now := start)
              && hit == Peek(v.cached, start).1
    {
      ghost var before, w, path := now, World(), Real(device);
      now := now + s.wait;
      hit := cache.CachedVolumeKey(device, before, now);
      assert World() == w.(entries := LookUp(w.entries, path, now).0, now := now);
      W.LookUpIsLocal(w, path, now);
    }

    /** `get_volume_key`: the cache first, whatever the method; a fresh key is cached. */
    method GetVolumeKey(device: string, a: L.Auth, s: L.Schedule) returns (r: Result<Bytes>)
      requires Valid()
      modifies this`now, cache
      ensures Valid() && Others(Real(device)) == old(Others(Real(device)))
      ensures var v := old(View(Real(device)));
              (View(Real(device)), r) == L.GetVolumeKey(v, a, Honestly(v, a.unlock, a.pin, s))
    {
      if !L.ValidMethod(a.unlock) {
        return Err("Invalid unlock method");
      }
      var hit := ConsultCache(device, s);
      if hit.Some? {
        return Ok(hit.value);
      }
      ghost var v := old(View(Real(device)));
      HonestyIgnoresTheCache(v, View(Real(device)), a.unlock, a.pin, s);
      L.GetVolumeKeyOnMiss(v, a, Honestly(v, a.unlock, a.pin, s));
      r := Extract(device, a, s);
    }

    /** The part of `get_volume_key` behind a cache miss. */
    method Extract(device: string, a: L.Auth, s: L.Schedule) returns (r: Result<Bytes>)
      requires Valid()
      modifies this`now, cache
      ensures Valid() && Others(Real(device)) == old(Others(Real(device)))
      ensures var v := old(View(Real(device))); var u := L.Unlock(v, a, Honestly(v, a.unlock, a.pin, s));
              (View(Real(device)), r) == if u.None? then (v, Err("Failed to get volume key"))
                                         else (L.Remember(v, u.value.key, s), Ok(u.value.key))
    {
      var u := Unlock(device, a, s);
      if u.None? {
        return Err("Failed to get volume key");
      }
      Remember(device, u.value.key, s);
      return Ok(u.value.key);
    }

    /** Caching the key a verification extracted. */
    method Verified(device: string, u: Option<Unlocked>, s: L.Schedule) returns (slot: Option<nat>)
      requires Valid()
      modifies this`now, cache
      ensures Valid() && Others(Real(device)) == old(Others(Real(device)))
      ensures (View(Real(device)), slot) == L.Verified(old(View(Real(device))), u, s)
    {
      if u.None? {
        return None;
      }
      Remember(device, u.value.key, s);
      return Some(u.value.slot);
    }

    /** `verify_passphrase`. */
    method VerifyPassphrase(device: string, passphrase: string, s: L.Schedule) returns (slot: Option<nat>)
      requires Valid()
      modifies this`now, cache
      ensures Valid() && Others(Real(device)) == old(Others(Real(device)))
      ensures (View(Real(device)), slot) == L.VerifyPassphrase(old(View(Real(device))), passphrase, s)
    {
      var u := PassphraseUnlock(device, passphrase, s);
      slot := Verified(device, u, s);
    }

    /** `verify_token`. */
    method VerifyToken(device: string, kind: string, pin: string, s: L.Schedule) returns (slot: Option<nat>)
      requires Valid()
      modifies this`now, cache
      ensures Valid() && Others(Real(device)) == old(Others(Real(device)))
      ensures var v := old(View(Real(device)));
              (View(Real(device)), slot) == L.VerifyToken(v, kind, Honestly(v, kind, pin, s))
    {
      var u := None;
      if kind == FIDO2 || kind == TPM2 {
        u := TokenUnlock(device, kind, pin, s);
      }
      VerifiedIgnoresDerived(View(Real(device)), u, s, L.Derive(View(Real(device)), kind, pin, s));
      slot := Verified(device, u, s);
    }

    // ----- mutations ----------------------------------------------------------------------------

    /** `add_keyslot_by_volume_key`. */
    method AddKeyslotByVolumeKey(device: string, key: Bytes, secret: string, s: L.Schedule) returns (r: Result<nat>)
      requires Valid()
      modifies this`disks
      ensures Valid() && Others(Real(device)) == old(Others(Real(device)))
      ensures (View(Real(device)), r) == L.AddKeyslot(old(View(Real(device))), key, secret, s)
    {
      var h := OpenLuks2(device, s.fails(L.AddSlot));
      if h.None? {
        return Err("crypt_keyslot_add_by_key failed");
      }
      var h1 := AddByKey(h.value, key, secret, s.slot);
      if h1.None? {
        return Err("crypt_keyslot_add_by_key failed");
      }
      Commit(device, h1.value);
      return Ok(s.slot);
    }

    /** `set_token`: remove without JSON; with it, add under a free id or replace the one given. */
    method SetToken(device: string, id: int, token: Option<Token>, s: L.Schedule) returns (r: Result<int>)
      requires Valid()
      modifies this`disks
      ensures Valid() && Others(Real(device)) == old(Others(Real(device)))
      ensures (View(Real(device)), r) == L.SetToken(old(View(Real(device))), id, token, s)
    {
      var h := OpenLuks2(device, s.fails(if token.Some? then L.WriteToken else L.DropToken));
      if h.None? {
        return Err("crypt_token_json_set failed");
      }
      var h1 := match token
                case None => RemoveToken(h.value, id)
                case Some(t) => if id < 0 then AddToken(h.value, t, s.token) else ReplaceToken(h.value, t, id);
      if h1.None? {
        return Err("crypt_token_json_set failed");
      }
      Commit(device, h1.value);
      return Ok(if id < 0 then s.token else id);
    }

    /** `destroy_keyslot`. */
    method DestroyKeyslot(device: string, slot: int, s: L.Schedule) returns (ok: bool)
      requires Valid()
      modifies this`disks
      ensures Valid() && Others(Real(device)) == old(Others(Real(device)))
      ensures (View(Real(device)), ok) == L.DestroyKeyslot(old(View(Real(device))), slot, s)
    {
      var h := OpenLuks2(device, s.fails(L.DropSlot));
      if h.None? {
        return false;
      }
      var h1 := DestroySlot(h.value, slot);
      if h1.None? {
        return false;
      }
      Commit(device, h1.value);
      return true;
    }

    // ----- operations ---------------------------------------------------------------------------

    /** `enroll_token`: the slot first, then the token that names it. */
    method EnrollToken(device: string, a: L.Auth, p: Result<L.Prepared>, s: L.Schedule) returns (r: L.Triple)
      requires Valid()
      modifies this`disks, this`now, cache
      ensures Valid() && Others(Real(device)) == old(Others(Real(device)))
      ensures var v := old(View(Real(device)));
              (View(Real(device)), r) == L.EnrollToken(v, a, p, Honestly(v, a.unlock, a.pin, s))
    {
      if p.Err? {
        return L.Failed();
      }
      var key := GetVolumeKey(device, a, s);
      if key.Err? {
        return L.Failed();
      }
      var slot := AddKeyslotByVolumeKey(device, key.value, p.value.secret, s);
      if slot.Err? {
        return L.Failed();
      }
      var id := SetToken(device, -1, Some(L.Stamped(p.value.token, slot.value)), s);
      if id.Err? {
        return L.Failed();
      }
      return L.Triple(true, p.value.stdout, "");
    }

    /** `op_enroll_tpm2`: seal before anything touches the volume. */
    method OpEnrollTpm2(device: string, a: L.Auth, pcrs: string, pin: string, secret: Bytes, s: L.Schedule)
      returns (r: L.Triple)
      requires Valid()
      modifies this`disks, this`now, this`objects, cache
      ensures Valid() && Others(Real(device)) == old(Others(Real(device)))
      ensures var v := old(View(Real(device))); var m := L.ByTpm2(pcrs, pin, secret);
              (View(Real(device)), r)
              == L.Enroll(v, a, m, Honestly(L.Prepare(v, m, s).0, a.unlock, a.pin, s))
    {
      var sealing := Sealing(objects, secret, pcrs, pin, s.pcr, s.seal, s.priv, s.pub);
      objects := sealing.0;
      var p := L.PrepareTpm2(sealing.1, pcrs, pin, secret);
      r := EnrollToken(device, a, p, s);
    }

    /** `op_enroll_recovery_key`. */
    method OpEnrollRecoveryKey(device: string, a: L.Auth, raw: Bytes, s: L.Schedule) returns (r: L.Triple)
      requires Valid()
      modifies this`disks, this`now, cache
      ensures Valid() && Others(Real(device)) == old(Others(Real(device)))
      ensures var v := old(View(Real(device)));
              (View(Real(device)), r) == L.Enroll(v, a, L.ByRecoveryKey(raw), Honestly(v, a.unlock, a.pin, s))
      ensures r.ok ==> r.stdout == RecoveryKey.MakeRecoveryKey(raw)
    {
      var key := RecoveryKey.MakeRecoveryKey(raw);
      r := EnrollToken(device, a, Ok(L.Prepared(key, key, Token(RECOVERY, [], map[]))), s);
    }

    /** `op_enroll_fido2`: an authenticator that already holds one of the credentials is refused. */
    method OpEnrollFido2(device: string, a: L.Auth, check: Fido2.Answers, dev: nat, e: Result<L.Fido2Enrollment>,
                         s: L.Schedule)
      returns (r: L.Triple)
      requires Valid()
      modifies this`disks, this`now, cache
      ensures Valid() && Others(Real(device)) == old(Others(Real(device)))
      ensures var v := old(View(Real(device)));
              (View(Real(device)), r) == L.Enroll(v, a, L.ByFido2(check, dev, e), Honestly(v, a.unlock, a.pin, s))
    {
      ghost var v := View(Real(device));
      L.EnrollKeyIsToken(v, a, check, dev, e, Honestly(v, a.unlock, a.pin, s));
      var h := OpenLuks2(device, s.fails(L.ProbeRead));
      if h.Some? && Fido2Refs(Tokens(h.value)).Ok? {
        var enrolled := Fido2.EnrolledPaths(check, [dev], |Fido2Refs(Tokens(h.value)).value|);
        if enrolled != [] {
          return L.Triple(false, "", L.ALREADY_ENROLLED);
        }
      }
      r := EnrollToken(device, a, L.PrepareFido2(e), s);
    }

    /** `op_enroll_passphrase`. */
    method OpEnrollPassphrase(device: string, a: L.Auth, passphrase: string, s: L.Schedule) returns (r: L.Triple)
      requires Valid()
      modifies this`disks, this`now, cache
      ensures Valid() && Others(Real(device)) == old(Others(Real(device)))
      ensures var v := old(View(Real(device)));
              (View(Real(device)), r) == L.EnrollPassphrase(v, a, passphrase, Honestly(v, a.unlock, a.pin, s))
    {
      var key := GetVolumeKey(device, a, s);
      if key.Err? {
        return L.Failed();
      }
      var slot := AddKeyslotByVolumeKey(device, key.value, passphrase, s);
      if slot.Err? {
        return L.Failed();
      }
      return L.Triple(true, "", "");
    }

    /** `op_wipe_slot`: the last slot is refused; the token goes first, then the slot. */
    method OpWipeSlot(device: string, a: L.Auth, slot: int, s: L.Schedule) returns (r: L.Triple)
      requires Valid()
      modifies this`disks, this`now, cache
      ensures Valid() && Others(Real(device)) == old(Others(Real(device)))
      ensures var v := old(View(Real(device)));
              (View(Real(device)), r) == L.WipeSlot(v, a, slot, Honestly(v, a.unlock, a.pin, s))
    {
      var key := GetVolumeKey(device, a, s);
      if key.Err? {
        return L.Failed();
      }
      DerivedMattersOnlyToUnlock(View(Real(device)), slot, s, L.Derive(old(View(Real(device))), a.unlock, a.pin, s));
      r := WipeGuarded(device, slot, s);
    }

    /** The guard of `op_wipe_slot`. */
    method WipeGuarded(device: string, slot: int, s: L.Schedule) returns (r: L.Triple)
      requires Valid()
      modifies this`disks
      ensures Valid() && Others(Real(device)) == old(Others(Real(device)))
      ensures (View(Real(device)), r) == L.WipeGuarded(old(View(Real(device))), slot, s)
    {
      var listed := OpenLuks2(device, s.fails(L.GuardRead));
      var slots: set<int> := if listed.Some? then listed.value.slots.Keys else {};
      if |slots| <= 1 && slot in slots {
        return L.Triple(false, "", "Cannot wipe the last remaining keyslot");
      }
      r := WipeTokenThenSlot(device, slot, s);
    }

    /** The mutating half of `op_wipe_slot`. */
    method WipeTokenThenSlot(device: string, slot: int, s: L.Schedule) returns (r: L.Triple)
      requires Valid()
      modifies this`disks
      ensures Valid() && Others(Real(device)) == old(Others(Real(device)))
      ensures (View(Real(device)), r) == L.WipeTokenThenSlot(old(View(Real(device))), slot, s)
    {
      var read := OpenLuks2(device, s.fails(L.FindRead));
      var id := -1;
      if read.Some? {
        id := FindTokenForKeyslot(Tokens(read.value), slot);
      }
      if id >= 0 {
        var dropped := SetToken(device, id, None, s);
        if dropped.Err? {
          return L.Failed();
        }
      }
      var gone := DestroyKeyslot(device, slot, s);
      return if gone then L.Triple(true, "", "") else L.Failed();
    }

    /** `format_luks2`: the cache is neither cleared nor updated. */
    method FormatLuks2(device: string, passphrase: string, key: Bytes, s: L.Schedule) returns (r: Result<int>)
      requires Valid()
      modifies this`disks
      ensures Valid() && Others(Real(device)) == old(Others(Real(device)))
      ensures (View(Real(device)), r) == L.FormatPassphrase(old(View(Real(device))), passphrase, key, s)
    {
      if s.fails(L.InitFormat) || s.fails(L.WriteFormat) {
        return Err("crypt_format failed");
      }
      Commit(device, L.Fresh(key));
      var h := AddByKey(L.Fresh(key), key, passphrase, s.slot);
      if h.None? || s.fails(L.FormatSlot) {
        return Err("crypt_keyslot_add_by_key failed");
      }
      Commit(device, h.value);
      return Ok(s.slot);
    }

    /** `format_luks2_keyless`. */
    method FormatLuks2Keyless(device: string, key: Bytes, s: L.Schedule) returns (r: Result<int>)
      requires Valid()
      modifies this`disks, this`now, cache
      ensures Valid() && Others(Real(device)) == old(Others(Real(device)))
      ensures (View(Real(device)), r) == L.FormatKeyless(old(View(Real(device))), key, s)
    {
      if s.fails(L.InitFormat) || s.fails(L.WriteFormat) {
        return Err("crypt_format failed");
      }
      Commit(device, L.Fresh(key));
      Remember(device, key, s);
      return Ok(-1);
    }

    /** `op_open_volume`: additive, and idempotent on an active name. */
    method OpOpenVolume(device: string, name: string, a: L.Auth, s: L.Schedule) returns (r: L.Triple)
      requires Valid()
      modifies table, this`now, cache
      ensures Valid() && Others(Real(device)) == old(Others(Real(device)))
      ensures var v := old(View(Real(device)));
              (View(Real(device)), r) == L.OpenVolume(v, name, a, Honestly(v, a.unlock, a.pin, s))
    {
      if !ValidMapperName(name) {
        return L.Triple(false, "", "Invalid mapper name");
      }
      if name in table.active && !s.fails(L.StatusQuery) {
        return L.Triple(true, name, "");
      }
      var key := GetVolumeKey(device, a, s);
      if key.Err? {
        return L.Triple(false, "", key.message);
      }
      var h := OpenLuks2(device, s.fails(L.ActivateCall));
      if h.None? || key.value != h.value.digest || name in table.active {
        return L.Triple(false, "", "crypt_activate_by_volume_key failed");
      }
      table.active := table.active + {name};
      return L.Triple(true, name, "");
    }

    /** `is_volume_key_cached`: asking evicts at most a dead entry. */
    method IsVolumeKeyCached(device: string, s: L.Schedule) returns (cached: bool)
      requires Valid()
      modifies this`now, cache
      ensures Valid() && Others(Real(device)) == old(Others(Real(device)))
      ensures View(Real(device)) == L.Perform(old(View(Real(device))), L.AskCached, s)
      ensures cached <==> Live(old(View(Real(device))).cached, old(now) + s.wait)
    {
      var hit := ConsultCache(device, s);
      cached := hit.Some?;
    }

    /** `op_close_volume`. */
    method OpCloseVolume(name: string, e: Surroundings) returns (r: Result<()>)
      modifies table
      ensures (table.active, r) == Deactivated(old(table.active), name, e)
    {
      r := table.DeactivateVolume(name, e);
    }

    /** `op_close_volume_fd`. */
    method OpCloseVolumeFd(dev: nat, ino: nat, loops: seq<LoopSnapshot>, e: Surroundings)
      returns (r: Result<seq<string>>)
      modifies table
      ensures table.active == AfterClose(old(table.active), dev, ino, loops, e)
      ensures var names := Discovered(dev, ino, loops);
              r.Ok? <==> FirstStuck(old(table.active), names, e, 0) == |names|
    {
      r := table.DeactivateVolumesBackedBy(dev, ino, loops, e);
    }

    // ----- requests -----------------------------------------------------------------------------

    /** What the service has served so far has locked nobody out, of any volume. */
    lemma {:induction false} NobodyLockedOut(earlier: seq<W.Request>, later: seq<W.Request>, path: string, v: L.Volume)
      requires Reached() && served == earlier + later && v == W.View(W.RunAll(W.EMPTY, earlier), path)
      requires v.disk.Some? && v.disk.value.header.slots != map[] && W.AllOn(later, path, I.Guarded)
      ensures View(path).disk.Some? && I.Unlockable(View(path).disk.value.header, v.disk.value.header.digest)
    {
      W.OnceOpenable(earlier, later, path, v, View(path));
    }

    /** And left no dangling token in any header, if its wipes could look their tokens up. */
    lemma NoTokenDangles(path: string)
      requires Reached() && W.AllOn(served, path, T.SeesToken)
      ensures I.History(View(path), 0, T.Tidy)
    {
      W.EmptyView(path);
      W.TokensNeverDangle(W.EMPTY, served, path);
    }

    /** One request of the D-Bus interface, of any kind, is one step of the world. */
    method Serve(device: string, op: L.Op, s: L.Schedule)
      requires Valid() && Reached() && !op.Elsewhere?
      modifies this, cache, table
      ensures Valid() && Reached()
      ensures var path := Real(device);
              served == old(served) + [W.Request(path, op, HonestFor(old(View(path)), op, s))]
    {
      Dispatch(device, op, s);
      ghost var path := Real(device);
      ghost var r := W.Request(path, op, HonestFor(old(View(path)), op, s));
      W.FramedIsWith(old(World()), World(), path, View(path));
      W.RunSnoc(W.EMPTY, old(served), r);
      served := served + [r];
    }

    /** `format_container`. */
    method FormatContainer(device: string, passphrase: string, key: Bytes, s: L.Schedule)
      requires Valid()
      modifies this`disks, this`now, cache
      ensures Valid() && Others(Real(device)) == old(Others(Real(device)))
      ensures View(Real(device)) == L.FormatContainer(old(View(Real(device))), passphrase, key, s).0
    {
      if passphrase == "" {
        var _ := FormatLuks2Keyless(device, key, s);
      } else {
        var _ := FormatLuks2(device, passphrase, key, s);
      }
    }

    method EnrollBy(device: string, a: L.Auth, m: L.Modality, s: L.Schedule)
      requires Valid()
      modifies this`disks, this`objects, this`now, cache
      ensures Valid() && Others(Real(device)) == old(Others(Real(device)))
      ensures var v := old(View(Real(device)));
              View(Real(device)) == L.Enroll(v, a, m, Honestly(L.Prepare(v, m, s).0, a.unlock, a.pin, s)).0
    {
      match m {
        case ByFido2(check, dev, e) => var _ := OpEnrollFido2(device, a, check, dev, e, s);
        case ByTpm2(pcrs, pin, secret) => var _ := OpEnrollTpm2(device, a, pcrs, pin, secret, s);
        case ByRecoveryKey(raw) => var _ := OpEnrollRecoveryKey(device, a, raw, s);
      }
    }

    method Dispatch(device: string, op: L.Op, s: L.Schedule)
      requires Valid() && !op.Elsewhere?
      modifies this`disks, this`objects, this`now, cache, table
      ensures Valid() && Others(Real(device)) == old(Others(Real(device)))
      ensures var v := old(View(Real(device))); View(Real(device)) == L.Perform(v, op, HonestFor(v, op, s))
    {
      if op.Format? || op.EnrollWith? || op.EnrollP? || op.Wipe? {
        DispatchWriting(device, op, s);
      } else if op.Verify? || op.UnlockWithToken? || op.AskCached? {
        DispatchUnlocking(device, op, s);
      } else {
        DispatchMapping(device, op, s);
      }
    }

    /** The requests that may write the header. */
    method DispatchWriting(device: string, op: L.Op, s: L.Schedule)
      requires Valid() && (op.Format? || op.EnrollWith? || op.EnrollP? || op.Wipe?)
      modifies this`disks, this`objects, this`now, cache
      ensures Valid() && Others(Real(device)) == old(Others(Real(device)))
      ensures var v := old(View(Real(device))); View(Real(device)) == L.Perform(v, op, HonestFor(v, op, s))
    {
      match op {
        case Format(passphrase, key) => FormatContainer(device, passphrase, key, s);
        case EnrollWith(a, m) => EnrollBy(device, a, m, s);
        case EnrollP(a, passphrase) => var _ := OpEnrollPassphrase(device, a, passphrase, s);
        case Wipe(a, slot) => var _ := OpWipeSlot(device, a, slot, s);
      }
    }

    /** The requests that only unlock, or ask whether it is needed. */
    method DispatchUnlocking(device: string, op: L.Op, s: L.Schedule)
      requires Valid() && (op.Verify? || op.UnlockWithToken? || op.AskCached?)
      modifies this`now, cache
      ensures Valid() && Others(Real(device)) == old(Others(Real(device)))
      ensures var v := old(View(Real(device))); View(Real(device)) == L.Perform(v, op, HonestFor(v, op, s))
    {
      match op {
        case Verify(passphrase) => var _ := VerifyPassphrase(device, passphrase, s);
        case UnlockWithToken(kind, pin) => var _ := VerifyToken(device, kind, pin, s);
        case AskCached => var _ := IsVolumeKeyCached(device, s);
      }
    }

    /** The requests that change the mapping table. */
    method DispatchMapping(device: string, op: L.Op, s: L.Schedule)
      requires Valid() && (op.Open? || op.Close? || op.CloseFile?)
      modifies this`now, cache, table
      ensures Valid() && Others(Real(device)) == old(Others(Real(device)))
      ensures var v := old(View(Real(device))); View(Real(device)) == L.Perform(v, op, HonestFor(v, op, s))
    {
      match op {
        case Open(name, a) => var _ := OpOpenVolume(device, name, a, s);
        case Close(name, e) => var _ := OpCloseVolume(name, e);
        case CloseFile(dev, ino, loops, e) => var _ := OpCloseVolumeFd(dev, ino, loops, e);
      }
    }
  }

  /** What a token yields does not depend on the cache or the time. */
  lemma HonestyIgnoresTheCache(v: L.Volume, w: L.Volume, kind: string, pin: string, s: L.Schedule)
    requires v.disk == w.disk && v.objects == w.objects
    ensures Honestly(v, kind, pin, s) == Honestly(w, kind, pin, s)
  {
  }

  /** Only unlocking looks at the derived secret. */
  lemma DerivedMattersOnlyToUnlock(v: L.Volume, slot: int, s: L.Schedule, derived: Option<string>)
    ensures L.WipeGuarded(v, slot, s) == L.WipeGuarded(v, slot, s.(derived := derived))
  {
  }

  lemma VerifiedIgnoresDerived(v: L.Volume, u: Option<Unlocked>, s: L.Schedule, derived: Option<string>)
    ensures L.Verified(v, u, s) == L.Verified(v, u, s.(derived := derived))
  {
  }
}
