# The LUKS enrollment service: a verified model

The service enrolls, verifies, wipes and opens LUKS2 volumes on behalf of a desktop client. A volume is a
header (keyslots that wrap the volume key, tokens that tell how to derive a keyslot's secret), an entry in
a volume-key cache that lives 120 seconds, and a set of device-mapper mappings. Every operation is several
separate header writes, any of which can fail, and no lock spans an operation. The model states what the
service promises over all that: the user is never locked out, a token never points at a missing slot, a
stuck volume stays stuck, the cache never contradicts the header, and a TPM2, FIDO2 or recovery-key
enrollment can be used to unlock in every later state.

Check it with `dafny verify dfyconfig.toml` (Dafny 4.11).

## How the model is built

- `Luks2` is the header, its JSON tokens and the library calls on it, each of which may fail. `Tpm2` is an
  ideal TPM: policy digests as chains over register values and the PIN requirement, and a registry of the
  objects sealed so far. `Esys` is the handle-level protocol of sealing and unsealing with that TPM.
  `Fido2` is the three-phase choice of a security key.
- `VolumeKeyCache` is the time-limited cache, as a class and as a function of its log.
- `Lifecycle` specifies every operation on one volume; a `Schedule` says which of its calls fail, what the
  clock does and what the libraries and devices answer. A volume records every header version written, so a
  statement about its history covers the states that operations leave behind when they stop halfway.
- `Outcomes` says of each operation on a volume exactly when it succeeds and what a success or a failure
  leaves, in terms of header, cache entry and mapping table alone; `Metadata` says how tokens written by
  other tools read back.
- `Invariants`, `TokenInvariants`, `Survival`, `EndToEnd`, `Fido2EndToEnd`, `Shadowing` and `Fido2Shadowing`
  prove theorems about every run of one volume.
- `Worlds` lifts them to several volumes that share the TPM, the mapping table and the clock. `Service` is
  the mutable form: a class over all volumes whose requests are each proved to be one step of that world.
- `Interleaving` and `TidyInterleaving` take the header writes apart into single calls of concurrent
  processes, `CacheInterleaving` the gap between extracting a key and caching it.
- `Mappings`, `AuthGate`, `DeviceNames`, `RecoveryKey`, `Pcrs`, `Base64` and `Text` are the close-by-file
  path, the authorization cache, the name scanners and the encodings.

## Where a promise needs a hypothesis

Each of these is a promise of the service that holds under a condition. Where the name ends in `Iff` the
condition is proved exact.

- The guard against wiping the last keyslot reads the metadata, and a failed read looks like an empty
  header. `Invariants.NoLockOut` assumes the read succeeds; `WipeLocksOutIff` says when it matters.
- A wipe whose token lookup fails removes the slot and leaves its token (`WipeLeavesDanglingIff`). Such a
  token can shadow a sound one at unlock: `UnlocksIffUnshadowed` gives the condition on the header, and
  `ShadowingIsReachable` a run that violates it; `UnlocksIffFirstAnswerOpens` and `Fido2ShadowingIsReachable`
  do so for security keys. A dangling token is here one left by the calls modelled;
  libcryptsetup may itself take a destroyed slot out of the tokens, or refuse a token that names a missing
  slot, and where it does these states do not arise.
- Formatting with a passphrase leaves a live cache entry of the old volume in place
  (`FormatKeepsCoherenceIff`). Until that entry dies or is replaced, enrollments and opens fail
  (`StaleEntryBlocks`); the new header is never given the old key.
- A verification still in flight when a volume is formatted can cache the old key over the new one, and then
  the generated key of a keyless format is lost (`LateVerifyLosesTheKey`). `CanDisagreeIff` says when what
  is in flight can do that, `AgreesThroughout` gives a discipline that rules it out.
- Wipes in flight together can remove every keyslot exactly when they reach every live one
  (`CanLockOutIff`); `NeverLockedOut` and `SpareNeverLocksOut` give disciplines that rule it out.
- A wipe between the two writes of an enrollment leaves its token dangling (`WipeBetweenCallsDangles`).
  `TidyThroughout` gives a discipline under which no interleaving does; `TokenDanglesIff` and
  `DestroyDanglesIff` say exactly which calls break it, and when.
- The storage key leaks a handle exactly when it was created but could not be serialized (`Esys.Seal`); the
  context is finalized right afterwards.
- The partition naming of the formatter and the parent naming of the device list agree exactly on nvme
  whole disks and all-letter names (`PartitionNamesItsDiskIff`); `/dev/mmcblk0` is outside
  (`SdCardPartitionIsNotItsOwn`).
- A mapping whose status query fails counts as closed: `CloseIsIdempotent` assumes working queries, and
  `ActiveAfterCloseIff` says what stays active without them.
- A token that records keyslot "-1" makes the targeted unlock try every slot (`TargetedStaysInTypeIff`).

## Model

| member | source | states |
|---|---|---|
| `EndToEnd.Tpm2UnlockEndToEnd` | rust/service/src/luks.rs:506-548 | After any run from nothing, a TPM2 enrollment that succeeds, and any further run (calls failing anywhere but in the token lookup of wipes), as long as the header still holds the enrolled token under any id, an uncached unlock with the same PIN and unchanged selected registers returns the header's volume key, whichever other TPM2 tokens come first. |
| `EndToEnd.KeylessComesToLife` | rust/service/src/luks.rs:945-979 | After any run, format without a keyslot and enroll a TPM2 token within two minutes by any unlock method: the enrollment succeeds, and once the cache has expired the token alone, with the same PIN and registers, recovers the generated volume key. |
| `EndToEnd.EnrollmentSucceedsIff` | rust/service/src/service.rs:355-374 | A TPM2 enrollment succeeds exactly when sealing succeeds, the unlock yields the key of the header's digest, and a free slot and a free token id can be written. |
| `EndToEnd.Tpm2UnlocksUntilWiped` | rust/service/src/service.rs:414-452 | The same in terms of what was done: after any run, a TPM2 enrollment that succeeds and any further run that neither formats the volume nor wipes that slot, the token is still there under its own id and the unlock yields the volume key. |
| `EndToEnd.SealedOpensIff` | rust/service/src/tpm2.rs:588-784 | With no failing call a sealed blob unseals through a token exactly when the token selects the same registers of the SHA-256 bank, they hold the values they held at sealing, the token asks for a PIN exactly if one was given then, and if so the same one is given now; the secret is then the one sealed. |
| `Shadowing.UnlocksIffUnshadowed` | rust/service/src/luks.rs:418-476 | On any well-formed header, with no failing call and no cache hit, a TPM2 unlock succeeds exactly when its TPM2 tokens parse and some token whose unsealed secret opens a keyslot comes - PIN class first, then metadata order - ahead of every token that unseals to a secret opening nothing. |
| `Shadowing.ShadowingIsReachable` | rust/service/src/service.rs:512-517 | A run that meets the failing case, whatever came before: format, enroll A, enroll B with the same PCRs and PIN, wipe A while its token cannot be looked up; B's token and keyslot are intact and its secret unseals, yet with no call failing the unlock does. |
| `Fido2EndToEnd.Fido2UnlockEndToEnd` | rust/service/src/luks.rs:418-476 | After any run, a FIDO2 enrollment that succeeds and any further run that neither formats the volume nor wipes that slot: if the one device chosen now asserts the enrolled credential, an uncached unlock yields the volume key, whichever of the header's credentials the device asserts first. |
| `Fido2Shadowing.UnlocksIffFirstAnswerOpens` | rust/service/src/luks.rs:418-476 | On any well-formed header, with no failing call and no cache hit, a FIDO2 unlock succeeds exactly when its FIDO2 tokens parse, the PIN can be sent, and the first credential the chosen device asserts has an answer that opens a keyslot. |
| `Fido2Shadowing.Fido2ShadowingIsReachable` | rust/service/src/service.rs:512-517 | A run that meets the failing case: two credentials of one device are enrolled, the first is wiped while its token cannot be looked up, and with no call failing the device answers for the first although the second's token and keyslot are intact. |
| `Fido2EndToEnd.RunKeyed` | rust/service/src/service.rs:376-412 | Over every run, every FIDO2 token of every header version parses and names a live slot made of what its credential answers for its salt. |
| `Survival.RecoveryKeyUnlocks` | rust/service/src/service.rs:454-475 | The key reported by a successful recovery-key enrollment, typed as a passphrase in any later state in which its slot was not wiped, yields the volume key. |
| `Survival.SurvivorUnlocks` | rust/service/src/luks.rs:531-542 | The secret of any keyslot, typed, yields the header's key after every run that neither formats the volume nor wipes that slot. |
| `Survival.TokenSurvives` | rust/service/src/service.rs:512-517 | A token that names one slot stays, under its id, through every run that neither formats the volume nor wipes that slot: wipes of other slots take other tokens. |
| `Survival.EnrollOutcome` | rust/service/src/service.rs:364-373 | Exactly which header an unlocked enrollment leaves: slot and token, the slot alone, or neither; success exactly in the first case, and only with the key of the header's digest. |
| `EndToEnd.SealThenUnseal` | rust/service/src/service.rs:414-452 | A secret sealed under a PCR string and PIN unseals through the token written for it (the integer list rejoined with "+", bank sha256, PIN flag) whenever the selected registers are as they were, in any registry grown from the sealing one. |
| `EndToEnd.TokenReadsBack` | rust/service/src/service.rs:708-729 | The token JSON enrollment writes is parsed back by the TPM2 token parser to the very blob, joined PCR string, bank and PIN flag, whatever keyslots were stamped into it. |
| `EndToEnd.RunGood` | rust/service/src/service.rs:355-374 | Over every run whose wipes see their token, every header version written keeps: each TPM2 token parses, names a live slot, and that slot opens with the secret the token unseals to; the TPM's registry only grows. |
| `EndToEnd.GoodEnroll` | rust/service/src/service.rs:363-372 | Both headers an enrollment writes (slot only, then slot and token) keep every token backed by a slot that opens with the secret it unseals to. |
| `EndToEnd.FirstUnsealedOpens` | rust/service/src/tpm2.rs:105-118 | If some listed token surely unseals, unlock derives a secret, and the one derived, perhaps another token's, opens some keyslot. |
| `Invariants.NoLockOut` | rust/service/src/service.rs:491-520 | From a header with a keyslot, every header version written by any sequence of non-format operations, with calls failing anywhere except the wipe guard's metadata read, still has a keyslot that wraps that same volume key. |
| `Invariants.WipeLocksOutIff` | rust/service/src/service.rs:502-517 | One wipe empties the header exactly when its guard's read failed silently, the slot was the only one, and every later call went through: the guard's hypothesis cannot be dropped and nothing more is needed. |
| `Invariants.StuckIsAbsorbing` | rust/service/src/luks.rs:506-548 | A volume with no keyslot and no live cache entry stays so, its header unwritten, under every finite sequence of operations other than a format. |
| `Invariants.StuckHasNoKey` | rust/service/src/luks.rs:133-139 | No unlock method yields the key of a volume without keyslots and without a live cache entry, and trying leaves it stuck. |
| `Invariants.LostIsAbsorbing` | rust/service/src/luks.rs:506-548 | A volume with no keyslot whose key is not in the cache, even if a stale entry is, never gets a keyslot from any operation but a format. |
| `Invariants.CacheStaysCoherent` | rust/service/src/luks.rs:95-131 | Along every run in which no passphrase format hits a live entry, every live cache entry equals the header's current volume key. |
| `Invariants.StaleEntryBlocks` | rust/service/src/luks.rs:518-522 | After a passphrase format over a live entry with another key, in every run without a format or a verification, every enrollment and every open fails for as long as the entry lives, and no keyslot is ever added; only wipes go through. |
| `Invariants.FormatKeepsCoherenceIff` | rust/service/src/luks.rs:925-943 | A passphrase format that writes its header leaves cache and header in agreement exactly if the live entry, should there be one, already holds the new key, and otherwise leaves a stale entry. |
| `Invariants.SlotsAlwaysWrap` | rust/service/src/luks.rs:823-855 | With no hypothesis on the cache, every keyslot of every header version any run writes wraps that header's own volume key: a stale key never gets into a header. |
| `Invariants.RunHistory` | rust/service/src/service.rs:355-520 | The induction principle for runs: a header property preserved by each single header write of each operation holds of every version a run writes, including those left by operations that stopped halfway. |
| `Invariants.WipeOutcome` | rust/service/src/service.rs:512-518 | What a wipe reports is what it did: success exactly when the token step (if any) and the slot step went through, and then exactly that slot and that token are gone; on failure no slot is. |
| `Invariants.GuardOutcome` | rust/service/src/service.rs:502-510 | The guard refuses exactly when the slot is the only one it sees, and then nothing changes; otherwise the wipe goes on. |
| `Invariants.CoherentKey` | rust/service/src/luks.rs:518-547 | With a coherent cache, whatever method unlocks, the key obtained is the header's. |
| `TokenInvariants.NoTokenEverDangles` | rust/service/src/service.rs:355-374 | If every token names only live slots and no slot is named twice, both hold of every header version any run writes, even where an operation stopped between its writes. |
| `TokenInvariants.TidyEnroll` | rust/service/src/service.rs:364-372 | Slot before token: neither of the two headers an enrollment writes has a token naming a missing or already named slot. |
| `TokenInvariants.TidyWipe` | rust/service/src/service.rs:512-517 | Token before slot: neither of the two headers a wipe writes has a token naming a missing slot. |
| `TokenInvariants.WipeLeavesDanglingIff` | rust/service/src/luks.rs:265-279 | A wipe that succeeds leaves a dangling token exactly when its token lookup failed silently (read as "no token") while some token named the slot. Dangling is meant of the calls modelled: the library's own clean-up is not. |
| `TokenInvariants.StampNames` | rust/service/src/service.rs:370-371 | The `keyslots` field stamped into a token reads back as exactly the slot added. |
| `Interleaving.NeverLockedOut` | rust/service/src/service.rs:499-518 | With steps of single library calls, any number of enrollments in flight, at most one wipe in flight and the guard's reads succeeding, the keyslot count never reaches zero and every slot wraps the volume key, after every prefix of steps. |
| `Interleaving.SpareNeverLocksOut` | rust/service/src/service.rs:499-518 | With any number of wipes in flight: as long as each that passes its guard leaves a live slot that none of them targets, the keyslot count never reaches zero; two wipes of one slot, or of two slots out of three, are covered. |
| `Interleaving.CanLockOutIff` | rust/service/src/service.rs:502-517 | The wipes already past their guards can, in some order of their remaining calls, leave no keyslot exactly when between them they still reach every live slot. |
| `Interleaving.TwoWipesLockOut` | rust/service/src/service.rs:502-517 | The smallest case: two wipes in flight on a two-slot volume can each pass the guard and leave no keyslot. |
| `TidyInterleaving.TidyThroughout` | rust/service/src/service.rs:355-374 | After every prefix of steps of any number of interleaved enrollments and wipes every token names only live slots and no slot is named twice, if one wipe is in flight at a time, its token lookup succeeds, it is not started on a slot added and not yet named, and no enrollment is given its slot. |
| `TidyInterleaving.TidyFromRest` | rust/service/src/service.rs:355-374 | In particular from a tidy header with nothing in flight, every header on the way is tidy. |
| `TidyInterleaving.TokenDanglesIff` | rust/service/src/service.rs:370-372 | Persisting a token leaves it dangling exactly when the slot added for it is gone. |
| `TidyInterleaving.DestroyDanglesIff` | rust/service/src/service.rs:517 | Destroying a slot leaves a dangling token exactly when some token still names it. |
| `TidyInterleaving.OthersNeverDangle` | rust/service/src/service.rs:499-516 | No other call of an enrollment or a wipe can leave a dangling token. |
| `Interleaving.WipeBetweenCallsDangles` | rust/service/src/service.rs:364-372 | A schedule outside that discipline: a wipe of the new slot between an enrollment's two writes leaves its token naming a missing slot. |
| `CacheInterleaving.AgreesThroughout` | rust/service/src/luks.rs:95-131 | With unlocks, verifications, enrollments, wipes and formats taken apart into calls and interleaved, every live cache entry is the header's key after every prefix, if formats wait until no operation holds a key and no entry lives. |
| `CacheInterleaving.CanDisagreeIff` | rust/service/src/luks.rs:403-411 | The operations in flight can, by caching what they hold, leave a live entry that is not the header's key exactly when one of them holds such a key. |
| `CacheInterleaving.CacheAgreesIff` | rust/service/src/luks.rs:543-547 | Caching leaves the entry in agreement exactly when the key held is still the header's. |
| `CacheInterleaving.FormatAgreesIff` | rust/service/src/luks.rs:959-979 | Writing a new header leaves agreement exactly when a live entry, should there be one, already holds its key. |
| `CacheInterleaving.OthersAgree` | rust/service/src/luks.rs:120-131 | No other call can break the agreement. |
| `CacheInterleaving.LateVerifyLosesTheKey` | rust/service/src/luks.rs:395-414 | A schedule outside that discipline: a verification that extracted the old key caches it after a keyless format cached the new one; the generated key is lost inside its two minutes and no operation but a format ever gives the volume a keyslot. |
| `Outcomes.PassphraseFormatOutcome` | rust/service/src/luks.rs:925-943 | A format with a passphrase succeeds exactly when none of its three calls fails and the library's slot is below 32; the answer is that slot and the header has exactly that keyslot, made of the passphrase and wrapping the new key. A failed slot step leaves an empty header, an earlier failure the old one. |
| `Outcomes.KeylessFormatOutcome` | rust/service/src/luks.rs:945-979 | A format without a passphrase succeeds exactly when its two calls do; the header is empty and its key is in the cache, stamped with the present. |
| `Outcomes.FormattedPassphraseUnlocks` | rust/service/src/service.rs:635-644 | From format to unlock: after any run and a successful format with a passphrase, that passphrase, typed in any later state in which its slot was not wiped, yields the volume key. |
| `Outcomes.OpenOutcome` | rust/service/src/luks.rs:608-628 | An open succeeds exactly when the name is valid and either is seen to be active, or the key obtained is the header's, the activation does not fail and the name is free; then the name is active and nothing else changed in the table; a failure changes no mapping; headers are never written. |
| `Worlds.ClosedNameUntilOpened` | rust/service/src/service.rs:551-559 | A name closed with a readable status stays inactive through every run that does not open it. |
| `Worlds.OpenedUntilClosed` | rust/service/src/luks.rs:608-655 | After a successful open the name stays active through every run over all volumes that does not close it, by name or through its file. |
| `Outcomes.PassphraseEnrollmentOutcome` | rust/service/src/service.rs:477-489 | A passphrase enrollment succeeds exactly when the unlock yields the key of the header's digest and a free slot can be written; the header then has exactly that slot more, made of the new passphrase; otherwise it is as before. |
| `Outcomes.EnrolledPassphraseUnlocks` | rust/service/src/service.rs:477-489 | From enrollment to unlock: the new passphrase, typed in any later state in which its slot was not wiped, yields the volume key. |
| `Outcomes.TokenEnrollmentOutcome` | rust/service/src/service.rs:355-374 | The steps that enroll a token: success exactly when the key obtained is the header's and a free slot and a free token id can be written; the header then has exactly one slot and one token more, the token stamped with that slot. |
| `Outcomes.RecoveryEnrollmentOutcome` | rust/service/src/service.rs:454-475 | A recovery-key enrollment reports the text its slot is made of, and its token carries its type and slot and nothing else. |
| `Outcomes.Tpm2EnrollmentOutcome` | rust/service/src/service.rs:414-452 | A TPM2 enrollment leaves a slot made of the encoded secret and the token of the sealed blob and the parsed registers, with a PIN flag exactly if a PIN was given. |
| `Outcomes.Tpm2TokenFields` | rust/service/src/service.rs:705-729 | That token holds the encoded blob under both spellings, the registers as numbers, the bank "sha256" and the PIN flag. |
| `Outcomes.KeyEnrollmentOutcome` | rust/service/src/service.rs:396-411 | A security-key enrollment leaves a slot made of the encoded secret and a token that reads back as the new credential and salt. |
| `Outcomes.AlreadyEnrolledIff` | rust/service/src/service.rs:384-390 | A device counts as enrolled exactly when the tokens can be read, it opens, and for some credential of the header it answers with one of the five confirming return codes. |
| `Outcomes.KeyRefusedIff` | rust/service/src/service.rs:384-395 | The "already enrolled" answer is given exactly to such a device, and then nothing changes. |
| `Outcomes.WipeSlotOutcome` | rust/service/src/service.rs:491-520 | A wipe whose calls go through succeeds exactly when the caller unlocks and the slot exists besides another; exactly that slot and the first token naming it are then gone. |
| `Outcomes.PassphraseOutcome` | rust/service/src/luks.rs:506-548 | Without a live entry a passphrase unlocks exactly if it opens a keyslot; the key is the header's, and it is cached with the present time; a failure leaves no entry. |
| `Outcomes.TokenOutcome` | rust/service/src/luks.rs:506-548 | The same through a token once its secret is derived: it unlocks exactly if that secret opens some keyslot, whatever slots the tokens record. |
| `Outcomes.HitOutcome` | rust/service/src/luks.rs:518-522 | A live entry answers at once for every valid method, whatever the secret, and keeps its time. |
| `Outcomes.VerifyPassphraseOutcome` | rust/service/src/luks.rs:395-414 | A passphrase verifies exactly if it opens a keyslot, a cached key notwithstanding; the slot reported opens with it and the key is cached; otherwise nothing changes. |
| `Outcomes.VerifyTokenOutcome` | rust/service/src/luks.rs:481-497 | The same through a token; types other than the two are refused. |
| `Outcomes.VerifiedServes` | rust/service/src/luks.rs:395-414 | One verification serves what follows: for two minutes every method gets the header's key, whatever its secret. |
| `Outcomes.VerifiedTokenServes` | rust/service/src/luks.rs:478-497 | So does a verification through a token. |
| `Outcomes.SetTokenOutcome` | rust/service/src/luks.rs:859-882 | A token is added under a free id below 32, replaces the one under a given id, or is removed; nothing else of the header changes. |
| `Metadata.VisitedInStringOrder` | rust/service/src/luks.rs:267-278 | Tokens are visited by id as decimal strings, strictly ascending: 10 before 2. |
| `Metadata.SlotsSpelled` | rust/service/src/luks.rs:206-217 | A token names exactly the slots its entries spell as integers; other entries are skipped. |
| `Metadata.RecordedIff` | rust/service/src/luks.rs:222-237 | A type records exactly the slots named by some token of that type. |
| `Metadata.FirstNamingIsFirst` | rust/service/src/luks.rs:265-279 | The token reported for a slot is the first visited that names it. |
| `Metadata.BlobPrecedence` | rust/service/src/luks.rs:339-355 | The blob is read from "tpm2_blob" unless that is absent or null, then from "tpm2-blob"; without either, or with a number or flag there, the token fails. |
| `Metadata.ChunksConcatenate` | rust/service/src/luks.rs:345-352 | A blob given in chunks is their concatenation. |
| `Metadata.ChunksAllDecode` | rust/service/src/luks.rs:345-352 | Such a blob decodes exactly if every chunk is a base64 string. |
| `Metadata.ReferenceFields` | rust/service/src/luks.rs:356-387 | The bank is the string given, else "sha256"; a PIN is required exactly on a true flag; a scalar register list is read as its text, an absent one as none. |
| `Metadata.RegisterListText` | rust/service/src/luks.rs:356-368 | A register list is the "+"-joined texts of its numbers and strings, anything else reading as empty. |
| `Metadata.Tpm2RefsAppend` | rust/service/src/luks.rs:332-388 | References come in the order of their tokens, and one malformed token fails the whole read. |
| `Metadata.Fido2RefIff` | rust/service/src/luks.rs:300-312 | A FIDO2 token reads as a credential and salt exactly if both fields are strings and are their base64 forms. |
| `Metadata.TypesAsSpelled` | rust/service/src/luks.rs:294-338 | Only tokens of type "systemd-tpm2" give TPM2 references, only those of type "systemd-fido2" FIDO2 ones. |
| `Interleaving.SoloEnroll` | rust/service/src/service.rs:363-372 | The calls of an enrollment, one after the other with nothing between, leave the header of the whole operation, under every choice of failing calls. |
| `Interleaving.SoloWipe` | rust/service/src/service.rs:502-517 | So do the four calls of a wipe: guard, lookup, token, slot. |
| `CacheInterleaving.SoloVerify` | rust/service/src/luks.rs:395-414 | The calls of a verification, alone, leave its cache entry and time. |
| `CacheInterleaving.SoloFormat` | rust/service/src/luks.rs:959-979 | The calls of a keyless format, alone, leave its header, cache entry and time. |
| `CacheInterleaving.SoloGivesUp` | rust/service/src/luks.rs:443-476 | An operation that gives up between extracting and caching leaves nothing behind. |
| `CacheInterleaving.SoloCalls` | rust/service/src/luks.rs:823-890 | Adding a slot and destroying one are, alone, what the whole operations do. |
| `CacheInterleaving.SoloConsult` | rust/service/src/luks.rs:120-139 | So is consulting the cache. |
| `Luks2.TargetedRefinesTryAll` | rust/service/src/luks.rs:433-476 | Trying the token type's slots first succeeds exactly when trying every keyslot does, with the same volume key, for any header and any recorded slots, missing, foreign or duplicate ones included. |
| `Luks2.TargetedNeverWorse` | rust/service/src/luks.rs:433-442 | The same with individual attempts failing arbitrarily, as long as the last, try-all one does not. |
| `Luks2.TargetedStaysInTypeIff` | rust/service/src/luks.rs:455-472 | The scan of every slot is avoided exactly when one of the type's recorded slots opens with the secret and no "-1", which the cast turns into "every slot", is recorded ahead of it. |
| `Luks2.TargetsAreRecorded` | rust/service/src/luks.rs:455-460 | Every single slot addressed is one the type's tokens record. |
| `Luks2.ExtractTokenVolumeKey` | rust/service/src/luks.rs:443-476 | The candidate loop returns what the first hit of the candidate list gives and has then made exactly that many library calls. |
| `Luks2.TokenTypeKeyslots` | rust/service/src/luks.rs:222-237 | The nested push-if-absent loops yield the recorded slots of the type, in order, each once. |
| `Luks2.FindTokenForKeyslot` | rust/service/src/luks.rs:265-279 | The early-return loop yields the first token, in the library's key order, that names the slot, or -1. |
| `Luks2.FirstNaming` | rust/service/src/luks.rs:265-279 | A negative answer is -1 and means no token names the slot; any other is the id of one that does. |
| `Luks2.VolumeKeyGet` | rust/service/src/luks.rs:462-471 | An addressed slot answers exactly if it opens with the secret; with none addressed, exactly if some slot does; the key is the header's. |
| `Luks2.Tpm2Refs` | rust/service/src/luks.rs:332-388 | Parsing succeeds exactly when every TPM2 token parses, and then lists exactly the tokens of that type; tokens of other types cannot make it fail. |
| `Luks2.TokensAreAll` | rust/service/src/luks.rs:267-278 | Walking the tokens in the string order of their ids misses none and invents none. |
| `Tpm2.PolicyInjective` | rust/service/src/tpm2.rs:601-609 | Two policies are equal exactly when they agree on the bank, the PIN requirement, the set of selected registers and those registers' values: order and repetition of the selection do not matter. |
| `Tpm2.OrderIsPreference` | rust/service/src/tpm2.rs:182-193 | Stable sort, then retain, is the PIN-matching tokens in order followed by the remaining PIN-less ones in order. |
| `Tpm2.SortIsPartition` | rust/service/src/tpm2.rs:187-189 | The stable sort by "PIN requirement differs from PIN given" is the concatenation of the two classes, each in its original order. |
| `Tpm2.CandidateTokens` | rust/service/src/tpm2.rs:187-193 | The candidate list is the preference order, and holds a PIN-required token only if a PIN was given. |
| `Tpm2.UnlockIffSomeUnseals` | rust/service/src/tpm2.rs:105-118 | Some secret is returned exactly when some candidate unseals, and no PIN-required token is attempted with an empty PIN. |
| `Tpm2.UnsealFromTokens` | rust/service/src/tpm2.rs:105-118 | The loop over the last error returns the first success, and its own messages for no token at all and for tokens all skipped. |
| `Tpm2.BlobRoundTrip` | rust/service/src/tpm2.rs:650-725 | Private and public parts marshalled one after the other are read back, at a running offset, as the same two parts. |
| `Tpm2.SealSucceedsIff` | rust/service/src/tpm2.rs:404-674 | Sealing succeeds exactly when the PCR string parses, a persistent storage key or, failing that, a transient one is at hand and serializes, every later step goes through, the secret has at most 256 bytes and both parts fit the buffer; it registers exactly one fresh object holding the secret, or none. |
| `Tpm2.UnsealSucceedsIff` | rust/service/src/tpm2.rs:690-784 | Unsealing succeeds exactly when the registers parse, a storage key is at hand, the blob splits into a sealed object, every step goes through, and the object's policy and PIN agree; a failed SetAuth goes unnoticed until the TPM compares with the empty value. |
| `Tpm2.BigEndianSize` | rust/service/src/tpm2.rs:650-674 | A part is preceded by its size in two bytes, the high one first. |
| `Tpm2.BankNames` | rust/service/src/tpm2.rs:155-163 | Each of the four banks by its name; any other name is SHA-256. |
| `Esys.Seal` | rust/service/src/tpm2.rs:93-98 | The mutable form of sealing, whose success conditions are `Tpm2.SealSucceedsIff`: on every path each transient handle handed out is flushed exactly once and the persistent key never, so the TPM holds what it held before; exactly one handle is lost exactly when the primary was created but not serialized; the outcome and the registry are those of sealing. |
| `Esys.TryUnsealToken` | rust/service/src/tpm2.rs:683-688 | The same handle discipline on every unseal path, with the outcome of unsealing. |
| `Esys.SealInner` | rust/service/src/tpm2.rs:588-674 | Wherever a call fails after the storage key is acquired, the tracked handles are exactly those live beyond what the TPM held before, and each handle flushed early is flushed once and no longer tracked. |
| `Esys.UnsealInner` | rust/service/src/tpm2.rs:690-784 | On every path after the storage key is acquired, the tracked handles are exactly those handed out and none is flushed before the end. |
| `Esys.GetSrk` | rust/service/src/tpm2.rs:404-468 | A returned key is the persistent one, with nothing created, or, where the TPM holds none, a fresh transient one (when there is one to return is part of `Tpm2.SealSucceedsIff`); a failure leaves a live handle exactly when the primary was created and then not serialized. |
| `Esys.HandleFlusher.FlushNow` | rust/service/src/tpm2.rs:365-368 | The handle is flushed once and tracked no more; all others stay tracked. |
| `Esys.HandleFlusher.Drop` | rust/service/src/tpm2.rs:371-377 | Dropping flushes each tracked handle once, in order, and restores the TPM's live set. |
| `Pcrs.RoundTrip` | rust/service/src/service.rs:433-441 | For every string sealing accepts, the integer list written to the token, joined with "+", selects the same registers in the same order, all in 0..23, none repeated. |
| `Pcrs.ParsePcrIndices` | rust/service/src/tpm2.rs:129-151 | The push-if-absent loop with its three errors answers with the first error of the first bad segment, else the indices in order of first occurrence. |
| `Pcrs.TokenListAgrees` | rust/service/src/service.rs:433-441 | Where every segment is a valid index, enrollment's second parse, without range check, yields the same numbers. |
| `Pcrs.OneRegister` | rust/service/src/tpm2.rs:129-151 | The registers are numbered 0 to 23; any greater index is refused by its range. |
| `Pcrs.RegistersRead` | rust/service/src/tpm2.rs:129-151 | A "+"-separated list of registers is read back with each register once, and just as it is where none repeats. |
| `Pcrs.NothingSelected` | rust/service/src/tpm2.rs:129-151 | A selection of nothing is refused, however many empty segments it has. |
| `Text.TrimCuts` | rust/service/src/tpm2.rs:132 | Trimming cuts white space off both ends and all of it. |
| `Text.SignsAndJunk` | rust/service/src/tpm2.rs:136-138 | What the integer parser takes besides digits is one sign; it refuses blanks, letters and a bare sign. |
| `Text.ParsedIffFits` | rust/service/src/luks.rs:207-217 | A number written in decimal is parsed exactly if it fits the signed 32-bit, or 64-bit, range. |
| `Text.ParseOfShow` | rust/service/src/luks.rs:207-217 | A number written in decimal is parsed back to itself by the ranged integer parser. |
| `Text.SplitOfJoin` | rust/service/src/luks.rs:356-364 | Joining non-empty lists of pieces without "+" and splitting again yields the same pieces. |
| `Base64.RoundTrip` | rust/service/src/luks.rs:287-291 | Standard base64 (RFC 4648, section 4) decodes what it encodes, for all byte strings, as the token fields and the derived passphrase need. |
| `Base64.DecodeOnlyEncodings` | rust/service/src/luks.rs:289-291 | The decoder accepts nothing but encodings: what decodes encodes back to the same text, so two texts of one secret cannot differ. |
| `Base64.StandardAlphabet` | rust/service/src/luks.rs:289-291 | The sixty-four digits are those of RFC 4648, section 4, by character code. |
| `VolumeKeyCache.ServedForTwoMinutes` | rust/service/src/luks.rs:98-131 | By the clock: a key is served for less than 120 s after it was cached. |
| `VolumeKeyCache.SpellingsShareTheEntry` | rust/service/src/luks.rs:103-107 | Two spellings of a device share an entry exactly if they resolve to one path; a spelling that cannot be resolved stands for itself. |
| `VolumeKeyCache.RefinesLog` | rust/service/src/luks.rs:98-131 | For every chronological log of inserts, clears and lookups, a lookup returns a key exactly if the last write for that path was an insert of that key less than 120 s ago. |
| `VolumeKeyCache.ReadsAreUnobservable` | rust/service/src/luks.rs:120-131 | Removing all lookups from a log changes no later answer: lazy eviction cannot be observed and a hit never extends a lifetime. |
| `VolumeKeyCache.VkCache.CachedVolumeKey` | rust/service/src/luks.rs:120-131 | On the mutable table: the answer is the log's, and only the entry of that canonical path can change. |
| `VolumeKeyCache.VkCache.CacheVolumeKey` | rust/service/src/luks.rs:113-118 | Replaces the entry of the canonical path, stamped with the present, and no other. |
| `VolumeKeyCache.VkCache.ClearVolumeKey` | rust/service/src/luks.rs:109-111 | Removes the entry of the canonical path and no other. |
| `VolumeKeyCache.VkCache.IsVolumeKeyCached` | rust/service/src/luks.rs:137-139 | True exactly if a live entry existed; asking evicts at most a dead one. |
| `Lifecycle.GetVolumeKey` | rust/service/src/luks.rs:506-548 | A key comes only from a live cache entry or from a header with keyslots, and is then that entry's or that header's; with a valid method the entry is live afterwards exactly on success; an invalid method changes nothing. |
| `Lifecycle.Prepare` | rust/service/src/service.rs:350-362 | What precedes the unlock touches nothing but the TPM's registry, and only adds to it. |
| `Service.LuksService.GetVolumeKey` | rust/service/src/luks.rs:506-548 | On the shared state: cache first, then extraction, then priming, and no other volume's header, entry or mapping changes. |
| `Service.LuksService.DerivePassphraseFromToken` | rust/service/src/luks.rs:418-431 | The derived secret is the one specified: through parsing, probing, selection and assertion on the security keys, or through parsing, ordering and unsealing in the TPM. |
| `Service.LuksService.TokenUnlock` | rust/service/src/luks.rs:443-476 | Derivation followed by targeted extraction is the specified token unlock. |
| `Service.LuksService.VerifyPassphrase` | rust/service/src/luks.rs:395-414 | On the shared state: the verification that `Outcomes.VerifyPassphraseOutcome` characterises; other volumes unchanged. |
| `Service.LuksService.VerifyToken` | rust/service/src/luks.rs:481-497 | The same through a token, refusing other token types before anything is read. |
| `Service.LuksService.EnrollToken` | rust/service/src/service.rs:355-374 | The shared enrollment steps, each with its own failure, leave the volume as specified and every other volume unchanged. |
| `Service.LuksService.OpEnrollTpm2` | rust/service/src/service.rs:414-452 | Seal, parse the list again, unlock, add, write: outcome, header, cache and TPM registry are as specified after any failure; other volumes unchanged. |
| `Service.LuksService.OpEnrollFido2` | rust/service/src/service.rs:376-412 | A device that strictly confirms a credential of the volume is refused before anything changes, unreadable tokens counting as none; otherwise the shared steps with the new credential. |
| `Service.LuksService.OpEnrollRecoveryKey` | rust/service/src/service.rs:454-475 | On success the key reported is the modhex form of the random bytes, the same text the new slot opens with. |
| `Service.LuksService.OpEnrollPassphrase` | rust/service/src/service.rs:477-489 | On the shared state: the enrollment that `Outcomes.PassphraseEnrollmentOutcome` characterises, and no other volume changes. |
| `Service.LuksService.OpWipeSlot` | rust/service/src/service.rs:491-520 | Unlock, guard, token, slot, stopping at the first failure: the state is the specified one at every stop; other volumes unchanged. |
| `Service.LuksService.SetToken` | rust/service/src/luks.rs:859-882 | Without JSON the token is removed; with it, it appears under a free id or replaces the one given; a failed call leaves the header as before. |
| `Service.LuksService.AddKeyslotByVolumeKey` | rust/service/src/luks.rs:823-855 | Only a key matching the header's digest gets a slot, and a free one. |
| `Service.LuksService.DestroyKeyslot` | rust/service/src/luks.rs:885-890 | Exactly that slot is gone, or the header is as before. |
| `Service.LuksService.FormatLuks2` | rust/service/src/luks.rs:925-943 | On the shared state: the format that `Outcomes.PassphraseFormatOutcome` characterises, the cache untouched. |
| `Service.LuksService.FormatLuks2Keyless` | rust/service/src/luks.rs:959-979 | On the shared state: the format that `Outcomes.KeylessFormatOutcome` characterises, its key cached with the present time. |
| `Service.LuksService.OpOpenVolume` | rust/service/src/service.rs:532-546 | On the shared state: the open that `Outcomes.OpenOutcome` characterises; a name whose status could not be read is not activated twice, and no header is written. |
| `Service.LuksService.IsVolumeKeyCached` | rust/service/src/luks.rs:137-139 | True exactly if a live entry existed; asking changes nothing else of the volume and nothing of others. |
| `Service.LuksService.OpCloseVolume` | rust/service/src/service.rs:551-559 | Closing a name changes the mapping table as specified and nothing else. |
| `Service.LuksService.OpCloseVolumeFd` | rust/service/src/service.rs:567-575 | Closing by file does so for everything over the file, and succeeds exactly if nothing over it is stuck. |
| `Service.LuksService.Serve` | rust/service/src/service.rs:758-1115 | Serving any request that formats, verifies, unlocks, enrolls, wipes, opens, closes or asks about the cache is one step of the world of all volumes: the service's state is always the one its requests, in order, lead to from nothing. |
| `Service.LuksService.NobodyLockedOut` | rust/service/src/service.rs:491-520 | In every state the service reaches, a volume that had a keyslot after some of the requests still has one that wraps the key it had then, if the guards of its own later wipes could read the metadata. |
| `Service.LuksService.NoTokenDangles` | rust/service/src/service.rs:355-374 | In every state the service reaches, every header version of a volume is tidy, if that volume's wipes could look their tokens up. |
| `Worlds.RunSeen` | rust/service/src/service.rs:758-1150 | A run over several volumes that share a TPM, a mapping table and a clock is, for each of them, a run of its own requests with time, sealing and mappings passing elsewhere. |
| `Worlds.NobodyIsLockedOut` | rust/service/src/service.rs:491-520 | Whatever is done to it and to the others, a volume with a keyslot keeps one wrapping its key in every header version, under a hypothesis on its own wipes alone. |
| `Worlds.TokensNeverDangle` | rust/service/src/service.rs:355-374 | No token of a volume dangles, whatever is done to the others. |
| `Worlds.StuckStaysStuck` | rust/service/src/luks.rs:506-548 | A stuck volume stays stuck until it is formatted, whatever is done to the others. |
| `Worlds.CloseChangesTableOnly` | rust/service/src/service.rs:561-575 | Closing by file leaves every header, cache entry, sealed object and the clock alone, and every mapping that is mounted or not over the file. |
| `Worlds.ClosedUntilOpened` | rust/service/src/service.rs:561-575 | After a close that succeeds and can read a mapping's status, that mapping stays inactive through every run that does not open its name. |
| `Worlds.Tpm2UnlocksAmongVolumes` | rust/service/src/service.rs:414-452 | The end-to-end TPM2 unlock, from an empty world, with other volumes enrolled, wiped and formatted in between in the same TPM and under the same clock. |
| `Mappings.DmTable.DeactivateVolumesBackedBy` | rust/service/src/luks.rs:805-812 | Success returns every discovered name; failure names the first that cannot be closed, and exactly the names before it were torn down; no mapping that is mounted or not held on that file is touched. |
| `Mappings.DmTable.DeactivateVolume` | rust/service/src/luks.rs:634-655 | Invalid names, inactive, mounted and refused mappings each end as specified, and no other mapping changes. |
| `Mappings.DiscoveryIsExact` | rust/service/src/luks.rs:674-692 | The discovered names are strictly sorted and are exactly the names of CRYPT-LUKS holders on loops backed by that device and inode. |
| `Mappings.DiscoveryUnderPermutation` | rust/service/src/luks.rs:678-692 | Any permutation of the loop snapshots gives the same list. |
| `Mappings.DiscoveryUnderHolderPermutation` | rust/service/src/luks.rs:678-692 | So does any permutation of the holders within each loop. |
| `Mappings.DiscoveryIgnoresOrder` | rust/service/src/luks.rs:678-692 | So does any rearrangement, merging or repetition of loops and holders that leaves the same backing holders. |
| `Mappings.CryptMappingsBackedBy` | rust/service/src/luks.rs:681-692 | The filter, sort and dedup pipeline returns a strictly sorted list of exactly the names of CRYPT-LUKS holders on loops backed by that device and inode. |
| `Mappings.CloseIsIdempotent` | rust/service/src/luks.rs:796-812 | After a successful close with working status queries none of the file's mappings is active, and closing again succeeds and changes nothing, whatever is then mounted or refused. |
| `Mappings.ActiveAfterCloseIff` | rust/service/src/luks.rs:634-655 | After a successful close a mapping over the file is active exactly if it was and its status could not be read. |
| `Mappings.CloseOutcome` | rust/service/src/luks.rs:634-655 | Closing a name succeeds exactly if the name is valid and is absent, unreadable, or neither mounted nor refused; its mapping goes exactly if it was there, readable, unmounted and not refused; no other does. |
| `Mappings.MapperNames` | rust/service/src/luks.rs:559-565 | A mapper name is valid exactly with 1 to 128 characters, each an ASCII letter, digit, dash or underscore by its code. |
| `Fido2.Bus.UnlockFromTokens` | rust/service/src/fido2.rs:147-211 | The mutable form of the three phases: all PIN-bearing assertions go to the one device chosen by the return codes of `Fido2.ProbeTable`, up to its first success, which is returned; without candidates none is sent. |
| `Fido2.PinContainment` | rust/service/src/fido2.rs:168-207 | Every assertion made goes to the chosen device, for a credential it did not definitively deny, each credential at most once. |
| `Fido2.ProbeTable` | rust/service/src/fido2.rs:279-290 | By return code: only 0x2e rules a credential out, and exactly 0, 0x31, 0x35, 0x36 and 0x3b confirm it. |
| `Fido2.NoPinForDenied` | rust/service/src/fido2.rs:168-207 | No assertion goes to a device for a credential whose probe returned 0x2e, nor to a device that did not open; an empty PIN is sent as none. |
| `Fido2.ConfirmingIsCandidate` | rust/service/src/fido2.rs:168-182 | A device that opens and answers a probe with a confirming code is a candidate, with that credential. |
| `Fido2.EnrolledByCode` | rust/service/src/fido2.rs:216-251 | A device is reported as enrolled exactly when it opens and some probe returned a confirming code. |
| `Fido2.ChosenIsTouched` | rust/service/src/fido2.rs:384-407 | Of several candidates the one of the first touched poll is chosen. |
| `Fido2.SoleDeviceAnswers` | rust/service/src/fido2.rs:147-211 | If one device alone opens, unlocking answers with the first credential that its probe does not deny and that it asserts, on no other condition than that the PIN can be sent. |
| `Fido2.ConfirmedSurvives` | rust/service/src/fido2.rs:168-182 | A credential that an opened device strictly confirms is always among that device's candidates. |
| `Fido2.Bus.TouchSelect` | rust/service/src/fido2.rs:384-407 | The device of the first poll that reports a touch is chosen; every other candidate is cancelled and the chosen one is not. |
| `Fido2.EnrolledPaths` | rust/service/src/fido2.rs:216-251 | The nested loops list, in the caller's order, the devices that open and strictly confirm a credential. |
| `Fido2.EnrolledDevicesAreCandidates` | rust/service/src/fido2.rs:213-251 | A device reported as enrolled is also a candidate for unlocking with the same credentials: the strict filter implies the optimistic one. |
| `AuthGate.GrantsAreJustified` | rust/service/src/service.rs:104-173 | With lookups and full checks of any calls interleaved, every granted call lies within its kind's TTL of a full check passed by the same sender for the same kind; the recorded times never decrease. |
| `AuthGate.CachedIffChecked` | rust/service/src/service.rs:114-121 | A call is let through without a full check exactly when such a check lies within the TTL, and being let through changes neither table. |
| `AuthGate.HitIffChecked` | rust/service/src/service.rs:114-121 | Each table answers as the history of full checks does; a read check never answers for manage. |
| `AuthGate.Gate.Authorize` | rust/service/src/service.rs:104-173 | Uninterrupted, a call is allowed exactly if cached, owned or approved by polkit, and the table of its kind is written exactly when a full check passed. |
| `AuthGate.Windows` | rust/service/src/service.rs:37-38 | The windows are thirty seconds for reading and five minutes for managing. |
| `AuthGate.FullCheckOutcome` | rust/service/src/service.rs:122-173 | A full check lets its call through exactly if the caller owns the file or polkit agrees; exactly then it is recorded, in the table of its own kind. |
| `DeviceNames.ParentIsByPattern` | rust/service/src/devices.rs:192-206 | The parent is given by the two patterns on the base name, and is the base name itself exactly if neither matches. |
| `DeviceNames.BasenameFollowsLastSlash` | rust/service/src/devices.rs:303-305 | The base name is what follows the last slash, or the whole path if there is none. |
| `DeviceNames.PartitionNameIs` | rust/service/src/format.rs:296-302 | The partition of an nvme whole disk gets "p1", that of any other device "1". |
| `DeviceNames.PartitionParentIff` | rust/service/src/devices.rs:338-368 | The scanner accepts exactly `nvme[0-9]+n[0-9]+p[0-9]+` and cuts before the `p`. |
| `DeviceNames.LettersParentIff` | rust/service/src/devices.rs:370-389 | The scanner accepts exactly `[a-z]+[0-9]+` and returns the letters. |
| `DeviceNames.IsNvmeWholeDisk` | rust/service/src/format.rs:400-420 | Accepts exactly `nvme[0-9]+n[0-9]+`. |
| `DeviceNames.NvmePartitionParent` | rust/service/src/devices.rs:339-368 | The three-run byte loop computes the specified cut. |
| `DeviceNames.LettersThenDigitsParent` | rust/service/src/devices.rs:372-389 | The two-run byte loop computes the specified cut. |
| `DeviceNames.ParentIsIdempotent` | rust/service/src/devices.rs:192-206 | The parent of a parent is itself, for all strings. |
| `DeviceNames.PartitionNamesItsDiskIff` | rust/service/src/format.rs:296-302 | The partition name built for a device has that device as its parent exactly when the base name is an nvme whole disk or all lower-case letters. |
| `DeviceNames.SdCardPartitionIsNotItsOwn` | rust/service/src/format.rs:296-302 | At `/dev/mmcblk0` the two naming functions disagree. |
| `RecoveryKey.ModhexDigits` | rust/service/src/recovery.rs:3-15 | The sixteen modhex digits by value, high nibble first. |
| `RecoveryKey.RoundTrip` | rust/service/src/recovery.rs:10-23 | Dropping the dashes and reading digit pairs returns the random bytes: the encoding loses nothing. |
| `RecoveryKey.KeysAreDistinct` | rust/service/src/recovery.rs:10-23 | Different bytes give different keys. |
| `RecoveryKey.KeyShape` | rust/service/src/recovery.rs:5-23 | 32 bytes give 71 characters, a dash at exactly every ninth place, every other character modhex. |

## Left out

- D-Bus plumbing, polkit itself, bus-name handling and the idle timer: their answers are parameters of `AuthGate`.
- Cryptography: digests, key derivation and the PIN hash are injective constructors, sealed objects live in an ideal registry, the storage key is the same whether persistent or transient, and a credential answers a salt the same way each time.
- The TPM's dictionary-attack lockout: the end-to-end theorems assume that no TPM call fails during the unlock, except that the TPM may hold no persistent storage key.
- Randomness, the clock, library choices and call failures are parameters (`Schedule`); a fresh secret or volume key may be any bytes.
- Making a FIDO2 credential: its credential, salt and secret are the enrollment's input.
- Erasing signatures, partitioning, waiting for device nodes, image creation and the reading of sysfs, loop attachments and mounts: I/O, their results are inputs.
- Crypttab discovery, settings, size formatting, listings for the client (`password_keyslots`, `tokens_by_type`, the JSON output) and changelog and packaging scripts: only easy statements.
- Headers with unbound or reencryption keyslots, non-numeric object names or more than the 32 keyslots and tokens of the LUKS2 format: outside the well-formedness assumed of a header.
- Keyslot names below -1 or above 31 in a foreign token address no slot here.
- Token fields that are written but never read back (policy hash, storage key, user-presence flags).
- Destroying a keyslot removes that slot alone, and a token may name any slot; edits libcryptsetup makes to a token's slot list, or refusals of such a token, are not modelled.
- The keyslots-area size, pbkdf parameters and the error texts that only wrap a library error.
- In-place `sort`, `dedup` and `retain` act on a local vector and are functions on sequences here.
- Fido2.Bus.TouchSelect: some poll reports a touch, because the source polls without end and has no outcome otherwise.
- Lifecycle.FormatPassphrase: a format that fails leaves the old header; on removable media the signatures have been erased by then, so the source may leave no header at all under a live cache entry.
- Esys.HandleFlusher.FlushNow: takes the flush itself to succeed, as the source ignores its result.
- Interleaving.NeverLockedOut: covers enrollments and wipes; verifications and opens write no header and appear only as the unlock they start with.
- Interleaving.CanLockOutIff: assumes that wipes which found the same token wipe the same slot, as when each token names one.
- AuthGate.Gate.Authorize: runs the lookup and the record of one call together; the interleaved form is `AuthGate.GrantsAreJustified`.
- Service.LuksService.Serve: serves one request at a time; requests on one volume interleaved call by call are `Interleaving`, `TidyInterleaving` and `CacheInterleaving`. Listings, device detection and settings are not served.
- CacheInterleaving.AgreesThroughout: a format over a live entry, which the service allows, is outside the discipline; `FormatAgreesIff` says what it leaves.
