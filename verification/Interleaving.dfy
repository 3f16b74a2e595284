/**
 * Enrollments and wipes on one volume, interleaved call by call: no lock spans an operation, only
 * single libcryptsetup calls are serialized. Verifications and opens write no header, so between the
 * calls below they change nothing.
 */
module Interleaving {
  import opened Common
  import opened Luks2
  import opened Lifecycle
  import opened TokenInvariants

  /** An operation in flight, between two of its calls. */
  datatype Process =
    | HasKey(key: Bytes, p: Prepared)         // enrollment: has a key, will add the slot
    | SlotAdded(added: nat, token: Token)       // enrollment: will persist the token
    | Wiping(slot: int)                         // wipe: has unlocked, will list the keyslots
    | PassedGuard(slot: int, list: set<nat>)    // wipe: passed the guard on this list
    | Found(slot: int, list: set<nat>, id: int) // wipe: knows the token to remove
    | Dropped(slot: int, list: set<nat>)        // wipe: token gone or never found, will destroy

  datatype Shared = Shared(h: Header, procs: map<nat, Process>)

  /** One call of one process. Starting a process is a step of its own. */
  datatype Step =
    | StartEnroll(pid: nat, key: Bytes, p: Prepared)
    | CallAdd(pid: nat, pick: nat, fails: bool)
    | CallToken(pid: nat, pick: nat, fails: bool)
    | StartWipe(pid: nat, slot: int)
    | CallList(pid: nat, fails: bool)
    | CallFind(pid: nat, fails: bool)
    | CallDrop(pid: nat, fails: bool)
    | CallDestroy(pid: nat, fails: bool)

  function End(s: Shared, pid: nat): Shared {
    s.(procs := s.procs - {pid})
  }

  /** The effect of a step; a step its process is not ready for does nothing. */
  function Next(s: Shared, e: Step): Shared {
    match e
    case StartEnroll(pid, key, p) => if pid in s.procs then s else s.(procs := s.procs[pid := HasKey(key, p)])
    case StartWipe(pid, slot) => if pid in s.procs then s else s.(procs := s.procs[pid := Wiping(slot)])
    case CallAdd(pid, pick, fails) =>
      if pid !in s.procs || !s.procs[pid].HasKey? then s
      else
        var proc := s.procs[pid];
        var added := AddByKey(s.h, proc.key, proc.p.secret, pick);
        if fails || added.None? then End(s, pid)
        else Shared(added.value, s.procs[pid := SlotAdded(pick, Stamped(proc.p.token, pick))])
    case CallToken(pid, pick, fails) =>
      if pid !in s.procs || !s.procs[pid].SlotAdded? then s
      else
        var written := AddToken(s.h, s.procs[pid].token, pick);
        if fails || written.None? then End(s, pid) else End(s.(h := written.value), pid)
    case CallList(pid, fails) =>
      if pid !in s.procs || !s.procs[pid].Wiping? then s
      else
        var slot := s.procs[pid].slot;
        var list: set<nat> := if fails then {} else s.h.slots.Keys;
        if |list| <= 1 && slot in list then End(s, pid) else s.(procs := s.procs[pid := PassedGuard(slot, list)])
    case CallFind(pid, fails) =>
      if pid !in s.procs || !s.procs[pid].PassedGuard? then s
      else
        var proc := s.procs[pid];
        var id := if fails then -1 else FirstNaming(Tokens(s.h), proc.slot);
        s.(procs := s.procs[pid := if id < 0 then Dropped(proc.slot, proc.list) else Found(proc.slot, proc.list, id)])
    case CallDrop(pid, fails) =>
      if pid !in s.procs || !s.procs[pid].Found? then s
      else
        var proc := s.procs[pid];
        var removed := RemoveToken(s.h, proc.id);
        if fails || removed.None? then End(s, pid)
        else Shared(removed.value, s.procs[pid := Dropped(proc.slot, proc.list)])
    case CallDestroy(pid, fails) =>
      if pid !in s.procs || !s.procs[pid].Dropped? then s
      else
        var destroyed := DestroySlot(s.h, s.procs[pid].slot);
        if fails || destroyed.None? then End(s, pid) else End(s.(h := destroyed.value), pid)
  }

  function Run(s: Shared, steps: seq<Step>): Shared {
    if steps == [] then s else Next(Run(s, steps[..|steps| - 1]), steps[|steps| - 1])
  }

  predicate IsWipe(p: Process) {
    p.Wiping? || p.PassedGuard? || p.Found? || p.Dropped?
  }

  predicate BeyondGuard(p: Process) {
    p.PassedGuard? || p.Found? || p.Dropped?
  }

  /** The hypotheses: a wipe starts only when none is in flight, and the guard's read succeeds. */
  ghost predicate Permitted(s: Shared, e: Step) {
    && (e.StartWipe? ==> forall pid :: pid in s.procs ==> !IsWipe(s.procs[pid]))
    && (e.CallList? ==> !e.fails)
  }

  /** What the guard saw still stands, and leaves a slot besides the one to be destroyed. */
  ghost predicate GuardHolds(h: Header, p: Process) {
    BeyondGuard(p) ==>
      && p.list <= h.slots.Keys && exists k :: k in p.list && k != p.slot
  }

  ghost predicate Safe(s: Shared) {
    && s.h.slots != map[]
    && (forall a, b :: a in s.procs && b in s.procs && IsWipe(s.procs[a]) && IsWipe(s.procs[b]) ==> a == b)
    && (forall pid :: pid in s.procs ==> GuardHolds(s.h, s.procs[pid]))
    && (forall k :: k in s.h.slots ==> s.h.slots[k].wrapped == s.h.digest)
  }

  lemma GuardedList(list: set<nat>, slot: int)
    requires |list| > 0 && !(|list| <= 1 && slot in list)
    ensures exists k :: k in list && k != slot
  {
    var others := list - {slot};
    if slot in list {
      assert |others| == |list| - 1;
    } else {
      assert others == list;
    }
    var k :| k in others;
  }

  lemma DestroyKeepsSafe(s: Shared, e: Step)
    requires Safe(s) && e.CallDestroy?
    ensures Safe(Next(s, e))
  {
    var s' := Next(s, e);
    if s'.h != s.h {
      var proc := s.procs[e.pid];
      assert GuardHolds(s.h, proc);
      var k :| k in proc.list && k != proc.slot;
      assert k in s'.h.slots;
      forall pid | pid in s'.procs
        ensures GuardHolds(s'.h, s'.procs[pid])
      {
        assert IsWipe(proc) && pid != e.pid;
      }
    }
  }

  lemma AddKeepsSafe(s: Shared, e: Step)
    requires Safe(s) && e.CallAdd?
    ensures Safe(Next(s, e))
  {
    var s' := Next(s, e);
    assert s.h.slots.Keys <= s'.h.slots.Keys;
    forall pid | pid in s'.procs
      ensures GuardHolds(s'.h, s'.procs[pid])
    {
      if pid != e.pid { assert GuardHolds(s.h, s.procs[pid]); }
    }
  }

  lemma ListKeepsSafe(s: Shared, e: Step)
    requires Safe(s) && e.CallList? && !e.fails
    ensures Safe(Next(s, e))
  {
    var s' := Next(s, e);
    var k :| k in s.h.slots;
    assert k in s.h.slots.Keys && |s.h.slots.Keys| > 0;
    if e.pid in s'.procs && s'.procs[e.pid].PassedGuard? && !s.procs[e.pid].PassedGuard? {
      GuardedList(s.h.slots.Keys, s.procs[e.pid].slot);
    }
    forall pid | pid in s'.procs
      ensures GuardHolds(s'.h, s'.procs[pid])
    {
      if pid != e.pid { assert GuardHolds(s.h, s.procs[pid]); }
    }
  }

  lemma StepKeepsSafe(s: Shared, e: Step)
    requires Safe(s) && Permitted(s, e)
    ensures Safe(Next(s, e))
  {
    match e
    case CallDestroy(_, _) => DestroyKeepsSafe(s, e);
    case CallAdd(_, _, _) => AddKeepsSafe(s, e);
    case CallList(_, _) => ListKeepsSafe(s, e);
    case _ =>
  }

  lemma {:induction false} StaysSafe(s: Shared, steps: seq<Step>)
    requires Safe(s)
    requires forall i :: 0 <= i < |steps| ==> Permitted(Run(s, steps[..i]), steps[i])
    ensures Safe(Run(s, steps))
  {
    if steps != [] {
      var init, e := steps[..|steps| - 1], steps[|steps| - 1];
      assert forall i :: 0 <= i < |init| ==> init[..i] == steps[..i] && init[i] == steps[i];
      StaysSafe(s, init);
      assert Permitted(Run(s, steps[..|steps| - 1]), e);
      StepKeepsSafe(Run(s, init), e);
    }
  }

  /**
   * No lock-out under interleaving: with any number of concurrent enrollments, at most one wipe in
   * flight, and a volume that starts with a keyslot, the keyslot count never reaches zero, and every
   * slot wraps the volume key throughout.
   */
  lemma {:induction false} NeverLockedOut(s: Shared, steps: seq<Step>)
    requires Safe(s)
    requires forall i :: 0 <= i < |steps| ==> Permitted(Run(s, steps[..i]), steps[i])
    ensures forall i :: 0 <= i <= |steps| ==> Run(s, steps[..i]).h.slots != map[]
    ensures Safe(Run(s, steps))
  {
    forall i | 0 <= i <= |steps|
      ensures Safe(Run(s, steps[..i]))
    {
      assert forall j :: 0 <= j < i ==> steps[..i][..j] == steps[..j] && steps[..i][j] == steps[j];
      StaysSafe(s, steps[..i]);
    }
    assert steps[..|steps|] == steps;
  }

  // ----- any number of wipes -------------------------------------------------------------------

  /** A live slot that no wipe past its guard is about to destroy. */
  ghost predicate Spare(s: Shared, k: nat) {
    k in s.h.slots && forall pid :: pid in s.procs && BeyondGuard(s.procs[pid]) ==> s.procs[pid].slot != k
  }

  lemma SpareStays(s: Shared, e: Step, k: nat)
    requires Spare(s, k) && !e.CallList?
    ensures Spare(Next(s, e), k)
  {
    var s' := Next(s, e);
    forall pid | pid in s'.procs && BeyondGuard(s'.procs[pid])
      ensures s'.procs[pid].slot != k
    {
      assert pid in s.procs && BeyondGuard(s.procs[pid]);
    }
  }

  ghost predicate HasSpare(s: Shared) {
    exists k :: Spare(s, k)
  }

  lemma HasSpareStays(s: Shared, e: Step)
    requires HasSpare(s) && !e.CallList?
    ensures HasSpare(Next(s, e))
  {
    var k :| Spare(s, k);
    SpareStays(s, e, k);
  }

  /**
   * With any number of wipes in flight: as long as each wipe that passes its guard leaves a live slot
   * that none of them targets - two wipes of one slot do, or of two slots out of three - the keyslot
   * count never reaches zero.
   */
  lemma {:induction false} SpareNeverLocksOut(s: Shared, steps: seq<Step>)
    requires HasSpare(s)
    requires forall i :: 0 <= i < |steps| && steps[i].CallList? ==> HasSpare(Next(Run(s, steps[..i]), steps[i]))
    ensures HasSpare(Run(s, steps)) && Run(s, steps).h.slots != map[]
  {
    if steps != [] {
      var init, e := steps[..|steps| - 1], steps[|steps| - 1];
      assert forall i :: 0 <= i < |init| ==> init[..i] == steps[..i];
      SpareNeverLocksOut(s, init);
      if !e.CallList? {
        HasSpareStays(Run(s, init), e);
      } else {
        assert HasSpare(Next(Run(s, steps[..|steps| - 1]), e));
      }
    }
    var k :| Spare(Run(s, steps), k);
  }

  /** A wipe past its guard that can still get to destroying: the token it found has not been removed. */
  ghost predicate CanDestroy(h: Header, p: Process) {
    BeyondGuard(p) && (p.Found? ==> p.id >= 0 && p.id in h.tokens)
  }

  ghost predicate Doomed(s: Shared, k: nat) {
    exists pid :: pid in s.procs && CanDestroy(s.h, s.procs[pid]) && s.procs[pid].slot == k
  }

  /** Wipes that found the same token wipe the same slot, as when each token names one. */
  ghost predicate FoundAgree(s: Shared) {
    forall a, b :: (&& a in s.procs && b in s.procs && s.procs[a].Found? && s.procs[b].Found?
                    && s.procs[a].id == s.procs[b].id) ==> s.procs[a].slot == s.procs[b].slot
  }

  /** Only wipes already past their guards go on. */
  predicate Remaining(steps: seq<Step>) {
    forall i :: 0 <= i < |steps| ==> steps[i].CallFind? || steps[i].CallDrop? || steps[i].CallDestroy?
  }

  lemma NotDoomedStays(s: Shared, e: Step, k: nat)
    requires k in s.h.slots && !Doomed(s, k) && (e.CallFind? || e.CallDrop? || e.CallDestroy?)
    ensures k in Next(s, e).h.slots && !Doomed(Next(s, e), k)
  {
    var s' := Next(s, e);
    if e.pid in s.procs && IsWipe(s.procs[e.pid]) && s.procs[e.pid].slot == k {
      assert !CanDestroy(s.h, s.procs[e.pid]);
    }
    forall pid | pid in s'.procs && CanDestroy(s'.h, s'.procs[pid])
      ensures s'.procs[pid].slot != k
    {
      assert pid in s.procs && CanDestroy(s.h, s.procs[pid]);
    }
  }

  lemma {:induction false} NotDoomedSurvives(s: Shared, steps: seq<Step>, k: nat)
    requires k in s.h.slots && !Doomed(s, k) && Remaining(steps)
    ensures k in Run(s, steps).h.slots && !Doomed(Run(s, steps), k)
  {
    if steps != [] {
      NotDoomedSurvives(s, steps[..|steps| - 1], k);
      NotDoomedStays(Run(s, steps[..|steps| - 1]), steps[|steps| - 1], k);
    }
  }

  lemma {:induction false} RunConcat(s: Shared, a: seq<Step>, b: seq<Step>)
    ensures Run(s, a + b) == Run(Run(s, a), b)
  {
    if b == [] {
      assert a + b == a;
    } else {
      assert (a + b)[..|a + b| - 1] == a + b[..|b| - 1];
      RunConcat(s, a, b[..|b| - 1]);
    }
  }

  /** One doomed slot's wipe runs to its end. */
  lemma Finish(s: Shared, pid: nat, k: nat) returns (steps: seq<Step>)
    requires pid in s.procs && CanDestroy(s.h, s.procs[pid]) && s.procs[pid].slot == k && k in s.h.slots
    ensures Remaining(steps)
    ensures var s', p := Run(s, steps), s.procs[pid];
            && s'.h.slots == s.h.slots - {k} && s'.procs == s.procs - {pid}
            && s'.h.tokens == if p.Found? then s.h.tokens - {p.id} else s.h.tokens
  {
    var p := s.procs[pid];
    var last := CallDestroy(pid, false);
    if p.Dropped? {
      steps := [last];
      RunOne(s, last);
    } else {
      var first := if p.PassedGuard? then CallFind(pid, true) else CallDrop(pid, false);
      steps := [first] + [last];
      RunOne(s, first);
      RunOne(Next(s, first), last);
      RunConcat(s, [first], [last]);
      var s1 := Next(s, first);
      assert s1.procs == s.procs[pid := Dropped(k, p.list)];
      assert s1.procs - {pid} == s.procs - {pid};
    }
  }

  lemma {:induction false} RunOne(s: Shared, e: Step)
    ensures Run(s, [e]) == Next(s, e)
  {
    assert [e][..0] == [];
  }

  /** When every live slot is doomed, the wipes in flight can finish so that nothing is left. */
  lemma {:induction false} DoomedEmpties(s: Shared) returns (steps: seq<Step>)
    requires FoundAgree(s) && forall k :: k in s.h.slots ==> Doomed(s, k)
    ensures Remaining(steps) && Run(s, steps).h.slots == map[]
    decreases |s.h.slots|
  {
    if s.h.slots == map[] {
      steps := [];
    } else {
      var k :| k in s.h.slots;
      var pid :| pid in s.procs && CanDestroy(s.h, s.procs[pid]) && s.procs[pid].slot == k;
      var first := Finish(s, pid, k);
      var s' := Run(s, first);
      forall m | m in s'.h.slots
        ensures Doomed(s', m)
      {
        var q :| q in s.procs && CanDestroy(s.h, s.procs[q]) && s.procs[q].slot == m;
        assert q in s'.procs && s'.procs[q] == s.procs[q];
      }
      assert |s'.h.slots| == |s.h.slots| - 1;
      var rest := DoomedEmpties(s');
      RunConcat(s, first, rest);
      steps := first + rest;
    }
  }

  /**
   * The exact condition: the wipes already past their guards can, in some order of their remaining
   * calls, leave no keyslot if and only if between them they still reach every live slot.
   */
  lemma {:induction false} CanLockOutIff(s: Shared)
    requires FoundAgree(s)
    ensures (exists steps :: Remaining(steps) && Run(s, steps).h.slots == map[])
       <==> forall k :: k in s.h.slots ==> Doomed(s, k)
  {
    if forall k :: k in s.h.slots ==> Doomed(s, k) {
      var steps := DoomedEmpties(s);
    } else {
      var k :| k in s.h.slots && !Doomed(s, k);
      forall steps | Remaining(steps)
        ensures Run(s, steps).h.slots != map[]
      {
        NotDoomedSurvives(s, steps, k);
      }
    }
  }

  // ----- the hypotheses are needed -------------------------------------------------------------

  lemma {:induction false} NoTokens(h: Header, slot: int)
    requires h.tokens == map[]
    ensures FirstNaming(Tokens(h), slot) == -1
  {
    assert forall l :: l !in Tokens(h);
  }

  lemma ListStep(s: Shared, pid: nat, slot: int)
    requires pid in s.procs && s.procs[pid] == Wiping(slot) && |s.h.slots.Keys| > 1
    ensures Next(s, CallList(pid, false)) == s.(procs := s.procs[pid := PassedGuard(slot, s.h.slots.Keys)])
  {
  }

  lemma FindStep(s: Shared, pid: nat, slot: int, list: set<nat>)
    requires pid in s.procs && s.procs[pid] == PassedGuard(slot, list) && s.h.tokens == map[]
    ensures Next(s, CallFind(pid, false)) == s.(procs := s.procs[pid := Dropped(slot, list)])
  {
    NoTokens(s.h, slot);
  }

  lemma DestroyStep(s: Shared, pid: nat, slot: int, list: set<nat>)
    requires pid in s.procs && s.procs[pid] == Dropped(slot, list) && slot >= 0 && slot in s.h.slots
    ensures Next(s, CallDestroy(pid, false)) == Shared(s.h.(slots := s.h.slots - {slot}), s.procs - {pid})
  {
  }

  /** Listing and finding, on a header without tokens, bring a wipe to the point of destroying its slot. */
  lemma WipeReachesDestroy(s: Shared, pid: nat, slot: int)
    requires pid in s.procs && s.procs[pid] == Wiping(slot) && |s.h.slots.Keys| > 1 && s.h.tokens == map[]
    ensures Next(Next(s, CallList(pid, false)), CallFind(pid, false))
         == s.(procs := s.procs[pid := Dropped(slot, s.h.slots.Keys)])
  {
    ListStep(s, pid, slot);
    var s1 := s.(procs := s.procs[pid := PassedGuard(slot, s.h.slots.Keys)]);
    FindStep(s1, pid, slot, s.h.slots.Keys);
    assert s1.procs[pid := Dropped(slot, s.h.slots.Keys)] == s.procs[pid := Dropped(slot, s.h.slots.Keys)];
  }

  /** Two wipes in flight lock any two-slot volume out: both guards pass before either slot is gone. */
  lemma TwoWipesLockOut(h: Header, a: nat, b: nat, s0: Shared, s1: Shared, s2: Shared)
    requires h.slots.Keys == {a, b} && a != b && h.tokens == map[]
    requires s0 == Shared(h, map[1 := Wiping(a), 2 := Wiping(b)])
    requires s1 == Next(Next(s0, CallList(1, false)), CallFind(1, false))
    requires s2 == Next(Next(s1, CallList(2, false)), CallFind(2, false))
    ensures Next(Next(s2, CallDestroy(1, false)), CallDestroy(2, false)).h.slots == map[]
  {
    TwoElements(h.slots.Keys, a, b);
    WipeReachesDestroy(s0, 1, a);
    WipeReachesDestroy(s1, 2, b);
    DestroyStep(s2, 1, a, h.slots.Keys);
    var s3 := Shared(h.(slots := h.slots - {a}), s2.procs - {1});
    DestroyStep(s3, 2, b, h.slots.Keys);
    assert h.slots - {a} - {b} == map[];
  }

  /**
   * Without a lock, slot-before-token does not prevent dangling across operations: a wipe of the new
   * slot between the two calls of its enrollment leaves the token naming a dead slot - unless the library
   * refuses such a token, which the calls modelled here do not.
   */
  lemma WipeBetweenCallsDangles(h: Header, p: Prepared, pick: nat, id: nat, s0: Shared, s1: Shared, s2: Shared,
                                s3: Shared)
    requires h.slots != map[] && h.tokens == map[] && pick < SLOTS_MAX && pick !in h.slots && id < TOKENS_MAX
    requires s0 == Shared(h, map[1 := HasKey(h.digest, p)])
    requires s1 == Next(Next(s0, CallAdd(1, pick, false)), StartWipe(2, pick))
    requires s2 == Next(Next(s1, CallList(2, false)), CallFind(2, false))
    requires s3 == Next(Next(s2, CallDestroy(2, false)), CallToken(1, id, false))
    ensures NoDangling(s0.h) && !NoDangling(s3.h)
  {
    var token := Stamped(p.token, pick);
    var h1 := h.(slots := h.slots[pick := Keyslot(p.secret, h.digest)]);
    var k :| k in h.slots;
    TwoElements(h1.slots.Keys, k, pick);
    AddThenStart(h, p, pick, s0, s1);
    WipeReachesDestroy(s1, 2, pick);
    DestroyStep(s2, 2, pick, h1.slots.Keys);
    var h2 := h1.(slots := h1.slots - {pick});
    TokenStep(Next(s2, CallDestroy(2, false)), h2, token, id);
    StampNames(p.token, pick);
    assert Names(s3.h.tokens[id], pick) && pick !in s3.h.slots;
  }

  lemma AddThenStart(h: Header, p: Prepared, pick: nat, s0: Shared, s1: Shared)
    requires pick < SLOTS_MAX && pick !in h.slots && s0 == Shared(h, map[1 := HasKey(h.digest, p)])
    requires s1 == Next(Next(s0, CallAdd(1, pick, false)), StartWipe(2, pick))
    ensures s1 == Shared(h.(slots := h.slots[pick := Keyslot(p.secret, h.digest)]),
                         map[1 := SlotAdded(pick, Stamped(p.token, pick)), 2 := Wiping(pick)])
  {
    var s := Next(s0, CallAdd(1, pick, false));
    assert s.procs == map[1 := SlotAdded(pick, Stamped(p.token, pick))];
  }

  lemma TokenStep(s: Shared, h: Header, token: Token, id: nat)
    requires s.h == h && h.tokens == map[] && id < TOKENS_MAX
    requires 1 in s.procs && s.procs[1].SlotAdded? && s.procs[1].token == token
    ensures Next(s, CallToken(1, id, false)).h == h.(tokens := map[id := token])
  {
  }

  lemma TwoElements(xs: set<int>, a: int, b: int)
    requires a in xs && b in xs && a != b
    ensures |xs| > 1
  {
    assert |xs - {a}| == |xs| - 1;
    assert b in xs - {a};
  }

  // ----- an operation run alone ----------------------------------------------------------------

  /** The calls of an enrollment, one after the other with nothing between, are the enrollment. */
  lemma SoloEnroll(v: Volume, procs: map<nat, Process>, pid: nat, key: Bytes, p: Prepared, s: Schedule)
    requires v.disk.Some? && pid !in procs
    ensures var s1 := Next(Shared(v.disk.value.header, procs), StartEnroll(pid, key, p));
            var s2 := Next(s1, CallAdd(pid, s.slot, s.fails(AddSlot)));
            var s3 := Next(s2, CallToken(pid, s.token, s.fails(WriteToken)));
            var w := EnrollWithKey(v, key, p, s).0;
            w.disk.Some? && s3 == Shared(w.disk.value.header, procs)
  {
    var s1 := Next(Shared(v.disk.value.header, procs), StartEnroll(pid, key, p));
    EndsAlone(procs, pid, s1.procs[pid]);
    var s2 := Next(s1, CallAdd(pid, s.slot, s.fails(AddSlot)));
    if pid in s2.procs {
      assert s2.procs == procs[pid := s2.procs[pid]];
      EndsAlone(procs, pid, s2.procs[pid]);
    }
  }

  lemma EndsAlone(procs: map<nat, Process>, pid: nat, p: Process)
    requires pid !in procs
    ensures procs[pid := p] - {pid} == procs
  {
  }

  /** The calls of a wipe behind its unlock, likewise: the guard, the lookup, and the two destructive calls. */
  lemma SoloWipe(v: Volume, procs: map<nat, Process>, pid: nat, slot: int, s: Schedule)
    requires v.disk.Some? && pid !in procs
    ensures var s1 := Next(Shared(v.disk.value.header, procs), StartWipe(pid, slot));
            var s2 := Next(s1, CallList(pid, s.fails(GuardRead)));
            var s3 := Next(s2, CallFind(pid, s.fails(FindRead)));
            var s4 := Next(s3, CallDrop(pid, s.fails(DropToken)));
            var s5 := Next(s4, CallDestroy(pid, s.fails(DropSlot)));
            var w := WipeGuarded(v, slot, s).0;
            w.disk.Some? && s5 == Shared(w.disk.value.header, procs)
  {
    var h := v.disk.value.header;
    var s2 := Next(Next(Shared(h, procs), StartWipe(pid, slot)), CallList(pid, s.fails(GuardRead)));
    var list: set<nat> := if s.fails(GuardRead) then {} else h.slots.Keys;
    ListSize(v, s.fails(GuardRead), list);
    if |list| <= 1 && slot in list {
      EndsAlone(procs, pid, Wiping(slot));
    } else {
      assert s2 == Shared(h, procs[pid := PassedGuard(slot, list)]);
      SoloWipeCalls(v, procs, pid, slot, list, s);
    }
  }

  /** The guard of a whole wipe reads the same list, as integers. */
  lemma ListSize(v: Volume, fails: bool, list: set<nat>)
    requires v.disk.Some? && list == if fails then {} else v.disk.value.header.slots.Keys
    ensures |ListKeyslots(v, fails)| == |list| && forall k: int :: k in list <==> k in ListKeyslots(v, fails)
  {
  }

  lemma SoloWipeCalls(v: Volume, procs: map<nat, Process>, pid: nat, slot: int, list: set<nat>, s: Schedule)
    requires v.disk.Some? && pid !in procs
    ensures var s2 := Shared(v.disk.value.header, procs[pid := PassedGuard(slot, list)]);
            var s3 := Next(s2, CallFind(pid, s.fails(FindRead)));
            var s4 := Next(s3, CallDrop(pid, s.fails(DropToken)));
            var s5 := Next(s4, CallDestroy(pid, s.fails(DropSlot)));
            var w := WipeTokenThenSlot(v, slot, s).0;
            w.disk.Some? && s5 == Shared(w.disk.value.header, procs)
  {
    var id := FindToken(v, slot, s.fails(FindRead));
    SoloFind(v, procs, pid, slot, list, s);
    if id < 0 {
      NothingToDrop(v.disk.value.header, procs, pid, slot, list, s.fails(DropToken));
      SoloDestroy(v, procs, pid, slot, list, s);
    } else {
      SoloDrop(v, procs, pid, slot, list, id, s);
      var (v1, dropped) := RemoveTokenJson(v, id, s);
      if dropped {
        SoloDestroy(v1, procs, pid, slot, list, s);
      }
    }
  }

  lemma SoloFind(v: Volume, procs: map<nat, Process>, pid: nat, slot: int, list: set<nat>, s: Schedule)
    requires v.disk.Some? && pid !in procs
    ensures var id := FindToken(v, slot, s.fails(FindRead));
            var found := if id < 0 then Dropped(slot, list) else Found(slot, list, id);
            var s3 := Next(Shared(v.disk.value.header, procs[pid := PassedGuard(slot, list)]),
                           CallFind(pid, s.fails(FindRead)));
            s3 == Shared(v.disk.value.header, procs[pid := found])
  {
  }

  /** With no token to remove, that call is not made. */
  lemma NothingToDrop(h: Header, procs: map<nat, Process>, pid: nat, slot: int, list: set<nat>, fails: bool)
    ensures var s3 := Shared(h, procs[pid := Dropped(slot, list)]);
            Next(s3, CallDrop(pid, fails)) == s3
  {
  }

  lemma SoloDrop(v: Volume, procs: map<nat, Process>, pid: nat, slot: int, list: set<nat>, id: int, s: Schedule)
    requires v.disk.Some? && pid !in procs
    ensures var (w, dropped) := RemoveTokenJson(v, id, s);
            var s4 := Next(Shared(v.disk.value.header, procs[pid := Found(slot, list, id)]),
                           CallDrop(pid, s.fails(DropToken)));
            && w.disk.Some?
            && (dropped ==> s4 == Shared(w.disk.value.header, procs[pid := Dropped(slot, list)]))
            && (!dropped ==> w == v && s4 == Shared(v.disk.value.header, procs)
                             && Next(s4, CallDestroy(pid, s.fails(DropSlot))) == s4)
  {
    EndsAlone(procs, pid, Found(slot, list, id));
  }

  lemma SoloDestroy(v: Volume, procs: map<nat, Process>, pid: nat, slot: int, list: set<nat>, s: Schedule)
    requires v.disk.Some? && pid !in procs
    ensures var end := Next(Shared(v.disk.value.header, procs[pid := Dropped(slot, list)]),
                            CallDestroy(pid, s.fails(DropSlot)));
            var w := DestroyKeyslot(v, slot, s).0;
            w.disk.Some? && end == Shared(w.disk.value.header, procs)
  {
    EndsAlone(procs, pid, Dropped(slot, list));
  }
}
