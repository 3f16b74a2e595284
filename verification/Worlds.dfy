/**
 * All volumes at once. They share the TPM's registry, the mapping table and the clock; an operation on
 * one is, for every other, something that happens elsewhere. So what is proved of every run of one
 * volume holds of each volume in every run over several.
 */
module Worlds {
  import opened Luks2
  import opened Tpm2
  import opened VolumeKeyCache
  import opened Common
  import opened Lifecycle
  import opened Invariants
  import opened TokenInvariants
  import opened Survival
  import opened EndToEnd
  import opened Mappings
  import opened Outcomes
  import Pcrs

  datatype World = World(disks: map<string, Disk>, entries: Table, objects: Objects, active: set<string>, now: nat)

  /** The world as the volume at a canonical path sees it. */
  function View(w: World, path: string): Volume {
    Volume(if path in w.disks then Some(w.disks[path]) else None, At(w.entries, path), w.objects, w.active, w.now)
  }

  /** Everything that belongs to the other volumes alone. */
  function Others(w: World, path: string): (map<string, Disk>, Table) {
    (w.disks - {path}, w.entries - {path})
  }

  /** The world in which the volume at `path` is `v`. */
  function With(w: World, path: string, v: Volume): World {
    World(if v.disk.Some? then w.disks[path := v.disk.value] else w.disks - {path},
          if v.cached.Some? then w.entries[path := v.cached.value] else w.entries - {path},
          v.objects, v.active, v.now)
  }

  /** Caching a key, looking one up and committing a header, as the volume and as the others see it. */
  lemma CachedIsLocal(w: World, path: string, e: Entry, now: nat)
    ensures var w' := w.(entries := w.entries[path := e], now := now);
            && View(w', path) == View(w, path).(cached := Some(e), now := now) && Others(w', path) == Others(w, path)
  {
    assert w.entries[path := e] - {path} == w.entries - {path};
  }

  lemma LookUpIsLocal(w: World, path: string, now: nat)
    ensures var w' := w.(entries := LookUp(w.entries, path, now).0, now := now);
            && View(w', path) == View(w, path).(cached := Peek(View(w, path).cached, now).0, now := now)
            && Others(w', path) == Others(w, path)
  {
    LookUpLeavesOthers(w.entries, path, now);
  }

  lemma DiskIsLocal(w: World, path: string, d: Disk)
    ensures var w' := w.(disks := w.disks[path := d]);
            && View(w', path) == View(w, path).(disk := Some(d)) && Others(w', path) == Others(w, path)
  {
    assert w.disks[path := d] - {path} == w.disks - {path};
  }

  datatype Request = Request(path: string, op: Op, s: Schedule)

  function Step(w: World, r: Request): World {
    With(w, r.path, Perform(View(w, r.path), r.op, r.s))
  }

  function RunAll(w: World, rs: seq<Request>): World {
    if rs == [] then w else Step(RunAll(w, rs[..|rs| - 1]), rs[|rs| - 1])
  }

  const EMPTY := World(map[], map[], map[], {}, 0)

  /** Changing one volume and nothing that belongs to the others is exactly a step. */
  lemma FramedIsWith(w: World, w': World, path: string, v: Volume)
    requires View(w', path) == v && Others(w', path) == Others(w, path)
    ensures w' == With(w, path, v)
  {
    assert w'.disks == if v.disk.Some? then (w'.disks - {path})[path := v.disk.value] else w'.disks - {path};
    assert w'.entries == if v.cached.Some? then (w'.entries - {path})[path := v.cached.value] else w'.entries - {path};
    assert v.disk.Some? ==> (w.disks - {path})[path := v.disk.value] == w.disks[path := v.disk.value];
    assert v.cached.Some? ==> (w.entries - {path})[path := v.cached.value] == w.entries[path := v.cached.value];
  }

  lemma {:induction false} RunSnoc(w: World, rs: seq<Request>, r: Request)
    ensures RunAll(w, rs + [r]) == Step(RunAll(w, rs), r)
  {
    assert (rs + [r])[..|rs|] == rs;
  }

  lemma {:induction false} RunConcat(w: World, a: seq<Request>, b: seq<Request>)
    ensures RunAll(w, a + b) == RunAll(RunAll(w, a), b)
  {
    if b == [] {
      assert a + b == a;
    } else {
      var init, r := b[..|b| - 1], b[|b| - 1];
      RunConcat(w, a, init);
      assert a + b == (a + init) + [r];
      RunSnoc(w, a + init, r);
    }
  }

  /** What an operation on one volume is to another: time passes, the TPM seals, mappings come and go. */
  function Seen(w: World, r: Request, path: string): Event {
    if r.path == path then Event(r.op, r.s)
    else
      var w' := Step(w, r);
      TimeFlows(View(w, r.path), r.op, r.s);
      Event(Elsewhere(w'.now - w.now, w'.objects, w'.active), r.s)
  }

  lemma WithAsSeen(w: World, path: string, v: Volume, other: string)
    ensures View(With(w, path, v), path) == v
    ensures other != path ==>
              View(With(w, path, v), other) == View(w, other).(objects := v.objects, active := v.active, now := v.now)
  {
  }

  /** What becomes of one volume is, for another, something that happens elsewhere. */
  lemma WithIsElsewhere(w: World, path: string, v: Volume, other: string, s: Schedule)
    requires other != path && v.now >= w.now
    requires forall o :: o in w.objects ==> o in v.objects && v.objects[o] == w.objects[o]
    ensures View(With(w, path, v), other)
         == Perform(View(w, other), Elsewhere(v.now - w.now, v.objects, v.active), s)
  {
    WithAsSeen(w, path, v, other);
    assert v.objects + w.objects == v.objects;
  }

  lemma StepSeen(w: World, r: Request, path: string)
    ensures View(Step(w, r), path) == Perform(View(w, path), Seen(w, r, path).op, Seen(w, r, path).s)
  {
    var v := Perform(View(w, r.path), r.op, r.s);
    if r.path == path {
      WithAsSeen(w, path, v, path);
    } else {
      TimeFlows(View(w, r.path), r.op, r.s);
      ObjectsGrow(View(w, r.path), r.op, r.s);
      WithIsElsewhere(w, r.path, v, path, r.s);
    }
  }

  /** A whole run as one volume sees it. */
  function SeenRun(w: World, rs: seq<Request>, path: string): (events: seq<Event>)
    ensures |events| == |rs|
    ensures forall i :: 0 <= i < |rs| ==>
              if rs[i].path == path then events[i] == Event(rs[i].op, rs[i].s) else events[i].op.Elsewhere?
  {
    if rs == [] then []
    else
      var init := rs[..|rs| - 1];
      SeenRun(w, init, path) + [Seen(RunAll(w, init), rs[|rs| - 1], path)]
  }

  /** Runs over several volumes refine runs of each. */
  lemma {:induction false} RunSeen(w: World, rs: seq<Request>, path: string)
    ensures View(RunAll(w, rs), path) == Run(View(w, path), SeenRun(w, rs, path))
  {
    if rs != [] {
      var init, events := rs[..|rs| - 1], SeenRun(w, rs, path);
      RunSeen(w, init, path);
      assert events[..|events| - 1] == SeenRun(w, init, path);
      StepSeen(RunAll(w, init), rs[|rs| - 1], path);
    }
  }

  // ----- the whole-run theorems, for each of several volumes -----------------------------------

  lemma EmptyView(path: string)
    ensures View(EMPTY, path) == START
  {
  }

  /** Every request to this volume satisfies what `ok` asks of an event. */
  ghost predicate AllOn(rs: seq<Request>, path: string, ok: Event -> bool) {
    forall i :: 0 <= i < |rs| && rs[i].path == path ==> ok(Event(rs[i].op, rs[i].s))
  }

  /**
   * Nobody is locked out of any volume: whatever is done to it and to the others, a volume that has a
   * keyslot keeps one wrapping its volume key in every header version written, if only the guards of
   * its own wipes can read the metadata.
   */
  lemma {:induction false} NobodyIsLockedOut(w: World, rs: seq<Request>, path: string, v: Volume, v': Volume)
    requires v == View(w, path) && v' == View(RunAll(w, rs), path)
    requires History(v, 0, Wraps) && v.disk.Some? && v.disk.value.header.slots != map[]
    requires AllOn(rs, path, Guarded)
    ensures v'.disk.Some? && History(v', |v.disk.value.written| - 1, x => Unlockable(x, v.disk.value.header.digest))
  {
    RunSeen(w, rs, path);
    NoLockOut(v, SeenRun(w, rs, path));
  }

  /** The same from an empty world: whoever once had a keyslot still has one that opens. */
  lemma {:induction false} OnceOpenable(earlier: seq<Request>, later: seq<Request>, path: string, v: Volume, v': Volume)
    requires v == View(RunAll(EMPTY, earlier), path) && v' == View(RunAll(EMPTY, earlier + later), path)
    requires v.disk.Some? && v.disk.value.header.slots != map[] && AllOn(later, path, Guarded)
    ensures v'.disk.Some? && Unlockable(v'.disk.value.header, v.disk.value.header.digest)
  {
    EmptyView(path);
    RunSeen(EMPTY, earlier, path);
    SlotsAlwaysWrap(START, SeenRun(EMPTY, earlier, path));
    RunConcat(EMPTY, earlier, later);
    NobodyIsLockedOut(RunAll(EMPTY, earlier), later, path, v, v');
    CurrentHeader(v', |v.disk.value.written| - 1, x => Unlockable(x, v.disk.value.header.digest));
  }

  /** No token of any volume dangles, whatever is done to the others. */
  lemma {:induction false} TokensNeverDangle(w: World, rs: seq<Request>, path: string)
    requires History(View(w, path), 0, Tidy) && AllOn(rs, path, SeesToken)
    ensures History(View(RunAll(w, rs), path), 0, Tidy)
  {
    RunSeen(w, rs, path);
    NoTokenEverDangles(View(w, path), SeenRun(w, rs, path), 0);
  }

  /** Whatever is done to the others, a stuck volume stays stuck until it is formatted. */
  lemma {:induction false} StuckStaysStuck(w: World, rs: seq<Request>, path: string)
    requires Stuck(View(w, path))
    requires forall i :: 0 <= i < |rs| && rs[i].path == path ==> !rs[i].op.Format?
    ensures Stuck(View(RunAll(w, rs), path)) && View(RunAll(w, rs), path).disk == View(w, path).disk
  {
    RunSeen(w, rs, path);
    StuckIsAbsorbing(View(w, path), SeenRun(w, rs, path));
  }

  // ----- the mapping table, shared by all volumes ----------------------------------------------

  /** Closing everything over a file leaves headers, cache, TPM and clock alone, and all mappings not over it. */
  lemma CloseChangesTableOnly(w: World, path: string, dev: nat, ino: nat, loops: seq<LoopSnapshot>, e: Surroundings,
                              s: Schedule, n: string)
    requires n in w.active && (!Backs(dev, ino, loops, n) || e.mounted(n))
    ensures var w' := Step(w, Request(path, CloseFile(dev, ino, loops, e), s));
            w' == w.(active := w'.active) && n in w'.active
  {
    var v := View(w, path);
    CloseSpares(dev, ino, loops, w.active, e, n);
    FramedIsWith(w, w.(active := AfterClose(w.active, dev, ino, loops, e)), path,
                 v.(active := AfterClose(w.active, dev, ino, loops, e)));
  }

  /** Only opening a name makes it active. */
  lemma OnlyOpenActivates(v: Volume, op: Op, s: Schedule, n: string)
    requires n !in v.active && !op.Elsewhere? && !(op.Open? && op.name == n)
    ensures n !in Perform(v, op, s).active
  {
  }

  lemma {:induction false} StaysInactive(w: World, rs: seq<Request>, n: string)
    requires n !in w.active
    requires forall i :: 0 <= i < |rs| ==> !rs[i].op.Elsewhere? && !(rs[i].op.Open? && rs[i].op.name == n)
    ensures n !in RunAll(w, rs).active
  {
    if rs != [] {
      var init, r := rs[..|rs| - 1], rs[|rs| - 1];
      StaysInactive(w, init, n);
      OnlyOpenActivates(View(RunAll(w, init), r.path), r.op, r.s, n);
    }
  }

  lemma CloseFileStep(w: World, path: string, dev: nat, ino: nat, loops: seq<LoopSnapshot>, e: Surroundings,
                      s: Schedule)
    ensures Step(w, Request(path, CloseFile(dev, ino, loops, e), s)).active == AfterClose(w.active, dev, ino, loops, e)
  {
  }

  /**
   * A file closed stays closed: after a close that succeeds and can read the status of the mapping,
   * nothing but opening that name makes a mapping over the file active again, whatever else is served.
   */
  lemma {:induction false} ClosedUntilOpened(w: World, path: string, dev: nat, ino: nat, loops: seq<LoopSnapshot>,
                                             e: Surroundings, s: Schedule, n: string, rs: seq<Request>)
    requires FirstStuck(w.active, Discovered(dev, ino, loops), e, 0) == |Discovered(dev, ino, loops)|
    requires Backs(dev, ino, loops, n) && !e.statusFails(n)
    requires forall i :: 0 <= i < |rs| ==> !rs[i].op.Elsewhere? && !(rs[i].op.Open? && rs[i].op.name == n)
    ensures n !in RunAll(Step(w, Request(path, CloseFile(dev, ino, loops, e), s)), rs).active
  {
    ActiveAfterCloseIff(dev, ino, loops, w.active, e, n);
    CloseFileStep(w, path, dev, ino, loops, e, s);
    StaysInactive(Step(w, Request(path, CloseFile(dev, ino, loops, e), s)), rs, n);
  }

  /** A single name that was closed stays closed likewise. */
  lemma {:induction false} ClosedNameUntilOpened(w: World, path: string, e: Surroundings, s: Schedule, n: string,
                                                 rs: seq<Request>)
    requires Deactivated(w.active, n, e).1.Ok? && !e.statusFails(n)
    requires forall i :: 0 <= i < |rs| ==> !rs[i].op.Elsewhere? && !(rs[i].op.Open? && rs[i].op.name == n)
    ensures n !in RunAll(Step(w, Request(path, Close(n, e), s)), rs).active
  {
    CloseOutcome(w.active, n, e);
    StaysInactive(Step(w, Request(path, Close(n, e), s)), rs, n);
  }

  /** Only a close that concerns a name makes it inactive. */
  lemma OnlyCloseDeactivates(v: Volume, op: Op, s: Schedule, n: string)
    requires n in v.active && !op.Elsewhere? && !(op.Close? && op.name == n)
    requires op.CloseFile? ==> !Backs(op.dev, op.ino, op.loops, n)
    ensures n in Perform(v, op, s).active
  {
    if op.CloseFile? {
      CloseSpares(op.dev, op.ino, op.loops, v.active, op.e, n);
    }
  }

  /** A request that does not close this name, directly or as a mapping over a file. */
  ghost predicate KeepsOpen(r: Request, n: string) {
    && !r.op.Elsewhere? && !(r.op.Close? && r.op.name == n)
    && (r.op.CloseFile? ==> !Backs(r.op.dev, r.op.ino, r.op.loops, n))
  }

  lemma {:induction false} StaysActive(w: World, rs: seq<Request>, n: string)
    requires n in w.active && forall i :: 0 <= i < |rs| ==> KeepsOpen(rs[i], n)
    ensures n in RunAll(w, rs).active
  {
    if rs != [] {
      var init, r := rs[..|rs| - 1], rs[|rs| - 1];
      assert KeepsOpen(rs[|rs| - 1], n);
      StaysActive(w, init, n);
      OnlyCloseDeactivates(View(RunAll(w, init), r.path), r.op, r.s, n);
    }
  }

  /** A volume opened stays open: after a successful open its name is active until a close concerns it. */
  lemma {:induction false} OpenedUntilClosed(w: World, path: string, name: string, a: Auth, s: Schedule,
                                             rs: seq<Request>)
    requires OpenVolume(View(w, path), name, a, s).1.ok
    requires forall i :: 0 <= i < |rs| ==> KeepsOpen(rs[i], name)
    ensures name in RunAll(Step(w, Request(path, Open(name, a), s)), rs).active
  {
    OpenOutcome(View(w, path), name, a, s);
    StaysActive(Step(w, Request(path, Open(name, a), s)), rs, name);
  }

  /** The events a volume sees of such a run: its own requests, and time passing. */
  lemma {:induction false} SeenSpares(w: World, rs: seq<Request>, path: string, slot: nat)
    requires AllOn(rs, path, SeesToken)
    requires forall i :: 0 <= i < |rs| && rs[i].path == path ==> Spares(Event(rs[i].op, rs[i].s), slot)
    ensures var events := SeenRun(w, rs, path);
            forall i :: 0 <= i < |events| ==> SeesToken(events[i]) && Spares(events[i], slot)
  {
  }

  lemma ReachedView(rs: seq<Request>, path: string) returns (events: seq<Event>)
    requires AllOn(rs, path, SeesToken)
    ensures forall i :: 0 <= i < |events| ==> SeesToken(events[i])
    ensures View(RunAll(EMPTY, rs), path) == Run(START, events)
  {
    EmptyView(path);
    RunSeen(EMPTY, rs, path);
    events := SeenRun(EMPTY, rs, path);
  }

  lemma LaterView(w: World, rs: seq<Request>, path: string, slot: nat, v: Volume) returns (events: seq<Event>)
    requires AllOn(rs, path, SeesToken)
    requires forall i :: 0 <= i < |rs| && rs[i].path == path ==> Spares(Event(rs[i].op, rs[i].s), slot)
    requires v == View(RunAll(w, rs), path)
    ensures forall i :: 0 <= i < |events| ==> SeesToken(events[i]) && Spares(events[i], slot)
    ensures v == Run(View(w, path), events)
  {
    SeenSpares(w, rs, path, slot);
    RunSeen(w, rs, path);
    events := SeenRun(w, rs, path);
  }

  lemma StepView(w: World, r: Request)
    ensures View(Step(w, r), r.path) == Perform(View(w, r.path), r.op, r.s)
  {
    StepSeen(w, r, r.path);
  }

  /** A successful enrollment request, as the volume it addresses sees it. */
  lemma EnrollStepView(w: World, path: string, a: Auth, m: Modality, s: Schedule)
    ensures View(Step(w, Request(path, EnrollWith(a, m), s)), path) == Enroll(View(w, path), a, m, s).0
  {
    StepView(w, Request(path, EnrollWith(a, m), s));
    PerformEnroll(View(w, path), a, m, s);
  }

  lemma {:induction false} UnlocksFromView(before: seq<Request>, path: string, v0: Volume, a: Auth, pcrs: string,
                                           pin: string, secret: Bytes, enrolling: Schedule, w1: World, v1: Volume,
                                           after: seq<Request>, v: Volume, s: Schedule)
    requires AllOn(before, path, SeesToken) && v0 == View(RunAll(EMPTY, before), path)
    requires v1 == Enroll(v0, a, ByTpm2(pcrs, pin, secret), enrolling).0 && v1 == View(w1, path)
    requires Enroll(v0, a, ByTpm2(pcrs, pin, secret), enrolling).1.ok
    requires AllOn(after, path, SeesToken)
    requires forall i :: 0 <= i < |after| && after[i].path == path ==>
               Spares(Event(after[i].op, after[i].s), enrolling.slot)
    requires v == View(RunAll(w1, after), path) && !Live(v.cached, v.now + s.wait)
    requires Honest(v, TPM2, pin, s) && NoFailure(s)
    requires Pcrs.Parsed(pcrs).Ok? ==> SamePcrs(Sha256, Pcrs.Parsed(pcrs).value, enrolling.pcr, s.pcr)
    ensures v.disk.Some? && GetVolumeKey(v, Auth(TPM2, "", pin), s).1 == Ok(v.disk.value.header.digest)
  {
    var earlier := ReachedView(before, path);
    var later := LaterView(w1, after, path, enrolling.slot, v);
    Tpm2UnlocksUntilWiped(earlier, v0, a, pcrs, pin, secret, enrolling, v1, later, v, s);
  }

  /**
   * End-to-end TPM2 unlock among several volumes, from an empty world on: a token enrolled on one volume
   * unlocks it until its slot is wiped or that volume formatted, whatever is enrolled, wiped or formatted
   * on the others meanwhile, in the same TPM and under the same clock.
   */
  lemma {:induction false} Tpm2UnlocksAmongVolumes(before: seq<Request>, path: string, v0: Volume, a: Auth,
                                                   pcrs: string, pin: string, secret: Bytes, enrolling: Schedule,
                                                   w1: World, after: seq<Request>, v: Volume, s: Schedule)
    requires AllOn(before, path, SeesToken) && v0 == View(RunAll(EMPTY, before), path)
    requires w1 == Step(RunAll(EMPTY, before), Request(path, EnrollWith(a, ByTpm2(pcrs, pin, secret)), enrolling))
    requires Enroll(v0, a, ByTpm2(pcrs, pin, secret), enrolling).1.ok
    requires AllOn(after, path, SeesToken)
    requires forall i :: 0 <= i < |after| && after[i].path == path ==>
               Spares(Event(after[i].op, after[i].s), enrolling.slot)
    requires v == View(RunAll(w1, after), path) && !Live(v.cached, v.now + s.wait)
    requires Honest(v, TPM2, pin, s) && NoFailure(s)
    requires Pcrs.Parsed(pcrs).Ok? ==> SamePcrs(Sha256, Pcrs.Parsed(pcrs).value, enrolling.pcr, s.pcr)
    ensures v.disk.Some? && GetVolumeKey(v, Auth(TPM2, "", pin), s).1 == Ok(v.disk.value.header.digest)
  {
    EnrollStepView(RunAll(EMPTY, before), path, a, ByTpm2(pcrs, pin, secret), enrolling);
    UnlocksFromView(before, path, v0, a, pcrs, pin, secret, enrolling, w1, View(w1, path), after, v, s);
  }
}
