/**
 * When interleaved enrollments and wipes do keep every token on a live slot: the discipline a scheduler
 * would have to enforce, since the service takes no lock across the calls of an operation.
 */
module TidyInterleaving {
  import opened Common
  import opened Luks2
  import opened Lifecycle
  import opened Invariants
  import opened TokenInvariants
  import opened Survival
  import opened Interleaving

  /** An enrollment between its two calls: its slot is live, nobody names it, its token will name only it. */
  ghost predicate AddedWell(s: Shared, p: Process) {
    p.SlotAdded? ==>
      && p.added < SLOTS_MAX && p.added in s.h.slots && NamesOnly(p.token, p.added)
      && forall t {:trigger Names(s.h.tokens[t], p.added)} :: t in s.h.tokens ==> !Names(s.h.tokens[t], p.added)
  }

  /** A wipe in flight: it knows the token to remove, or no token names its slot any more. */
  ghost predicate WipesWell(s: Shared, p: Process) {
    && (p.Found? ==> p.id >= 0 && p.id in s.h.tokens && Names(s.h.tokens[p.id], p.slot))
    && (p.Dropped? ==>
          forall t {:trigger Names(s.h.tokens[t], p.slot)} :: t in s.h.tokens ==> !Names(s.h.tokens[t], p.slot))
  }

  /** Two processes that do not get in each other's way. */
  ghost predicate Apart(p: Process, q: Process) {
    && !(IsWipe(p) && IsWipe(q))
    && (p.SlotAdded? && q.SlotAdded? ==> p.added != q.added)
    && (p.SlotAdded? && IsWipe(q) ==> p.added != q.slot)
    && (IsWipe(p) && q.SlotAdded? ==> p.slot != q.added)
  }

  ghost predicate InOrder(s: Shared) {
    && Tidy(s.h)
    && (forall a :: a in s.procs ==> AddedWell(s, s.procs[a]) && WipesWell(s, s.procs[a]))
    && forall a, b :: a in s.procs && b in s.procs && a != b ==> Apart(s.procs[a], s.procs[b])
  }

  /**
   * What the scheduler checks: a wipe starts only when none is in flight and not on a slot that an
   * enrollment has added and not yet named; the token lookup succeeds; no enrollment is given the slot
   * of the wipe in flight.
   */
  ghost predicate Orderly(s: Shared, e: Step) {
    && (e.StartWipe? ==> forall a :: a in s.procs ==> Apart(s.procs[a], Wiping(e.slot)))
    && (e.CallFind? ==> !e.fails)
    && (e.CallAdd? ==> forall a :: a in s.procs && IsWipe(s.procs[a]) ==> s.procs[a].slot != e.pick)
  }

  lemma AddInOrder(s: Shared, e: Step)
    requires InOrder(s) && Orderly(s, e) && e.CallAdd?
    ensures InOrder(Next(s, e))
  {
    var s' := Next(s, e);
    if s'.h != s.h {
      var p := s.procs[e.pid];
      StampNames(p.p.token, e.pick);
      assert NamesOnly(Stamped(p.p.token, e.pick), e.pick);
      assert s'.h == s.h.(slots := s'.h.slots) && s.h.slots.Keys <= s'.h.slots.Keys;
      forall a | a in s'.procs
        ensures AddedWell(s', s'.procs[a]) && WipesWell(s', s'.procs[a])
      {
        if a != e.pid { assert AddedWell(s, s.procs[a]) && WipesWell(s, s.procs[a]); }
      }
      forall a | a in s'.procs && a != e.pid
        ensures Apart(s'.procs[a], s'.procs[e.pid])
      {
        assert AddedWell(s, s.procs[a]);
      }
    }
  }

  lemma TokenInOrder(s: Shared, e: Step)
    requires InOrder(s) && e.CallToken?
    ensures InOrder(Next(s, e))
  {
    var s' := Next(s, e);
    if s'.h != s.h {
      var p := s.procs[e.pid];
      assert AddedWell(s, p);
      assert forall t :: t in s'.h.tokens <==> t in s.h.tokens || t == e.pick;
      assert s'.h.tokens[e.pick] == p.token;
    }
  }

  lemma FindInOrder(s: Shared, e: Step)
    requires InOrder(s) && Orderly(s, e) && e.CallFind?
    ensures InOrder(Next(s, e))
  {
    var s' := Next(s, e);
    if e.pid in s.procs && s.procs[e.pid].PassedGuard? {
      var slot := s.procs[e.pid].slot;
      TokensAreAll(s.h);
      var id := FirstNaming(Tokens(s.h), slot);
      if id < 0 {
        forall t | t in s.h.tokens
          ensures !Names(s.h.tokens[t], slot)
        {
          assert Listed(t, s.h.tokens[t]) in Tokens(s.h);
        }
      }
    }
  }

  lemma DropInOrder(s: Shared, e: Step)
    requires InOrder(s) && e.CallDrop?
    ensures InOrder(Next(s, e))
  {
    var s' := Next(s, e);
    if s'.h != s.h {
      var p := s.procs[e.pid];
      assert WipesWell(s, p);
      RemoveNaming(s.h, p.slot, p.id);
      assert forall t :: t in s'.h.tokens ==> t in s.h.tokens && s'.h.tokens[t] == s.h.tokens[t];
    }
  }

  lemma DestroyInOrder(s: Shared, e: Step)
    requires InOrder(s) && e.CallDestroy?
    ensures InOrder(Next(s, e))
  {
    var s' := Next(s, e);
    if s'.h != s.h {
      var p := s.procs[e.pid];
      assert WipesWell(s, p);
      DestroyUnnamed(s.h, p.slot);
      forall a | a in s'.procs
        ensures AddedWell(s', s'.procs[a]) && WipesWell(s', s'.procs[a])
      {
        assert a != e.pid && Apart(s.procs[a], p) && AddedWell(s, s.procs[a]);
      }
    }
  }

  /** The calls that write no header. */
  lemma QuietInOrder(s: Shared, e: Step)
    requires InOrder(s) && Orderly(s, e) && (e.StartEnroll? || e.StartWipe? || e.CallList?)
    ensures InOrder(Next(s, e))
  {
    var s' := Next(s, e);
    assert s'.h == s.h;
    forall a | a in s'.procs
      ensures AddedWell(s', s'.procs[a]) && WipesWell(s', s'.procs[a])
    {
      if a in s.procs && s'.procs[a] == s.procs[a] { assert AddedWell(s, s.procs[a]) && WipesWell(s, s.procs[a]); }
    }
    forall a, b | a in s'.procs && b in s'.procs && a != b
      ensures Apart(s'.procs[a], s'.procs[b])
    {
      if a in s.procs && b in s.procs { assert Apart(s.procs[a], s.procs[b]); }
    }
  }

  lemma StepInOrder(s: Shared, e: Step)
    requires InOrder(s) && Orderly(s, e)
    ensures InOrder(Next(s, e))
  {
    match e
    case CallAdd(_, _, _) => AddInOrder(s, e);
    case CallToken(_, _, _) => TokenInOrder(s, e);
    case CallFind(_, _) => FindInOrder(s, e);
    case CallDrop(_, _) => DropInOrder(s, e);
    case CallDestroy(_, _) => DestroyInOrder(s, e);
    case _ => QuietInOrder(s, e);
  }

  /**
   * No dangling token under orderly interleaving: after every prefix of steps of any number of
   * enrollments and wipes, every token names only live slots and no slot is named twice.
   */
  lemma {:induction false} TidyThroughout(s: Shared, steps: seq<Step>)
    requires InOrder(s)
    requires forall i :: 0 <= i < |steps| ==> Orderly(Interleaving.Run(s, steps[..i]), steps[i])
    ensures InOrder(Interleaving.Run(s, steps))
  {
    if steps != [] {
      var init, e := steps[..|steps| - 1], steps[|steps| - 1];
      assert forall i :: 0 <= i < |init| ==> init[..i] == steps[..i] && init[i] == steps[i];
      TidyThroughout(s, init);
      assert Orderly(Interleaving.Run(s, steps[..|steps| - 1]), e);
      StepInOrder(Interleaving.Run(s, init), e);
    }
  }

  lemma NothingInFlight(h: Header)
    requires Tidy(h)
    ensures InOrder(Shared(h, map[]))
  {
  }

  /** From a tidy header with nothing in flight, every header on the way is tidy. */
  lemma {:induction false} TidyFromRest(h: Header, steps: seq<Step>)
    requires Tidy(h)
    requires forall i :: 0 <= i < |steps| ==> Orderly(Interleaving.Run(Shared(h, map[]), steps[..i]), steps[i])
    ensures forall i :: 0 <= i <= |steps| ==> Tidy(Interleaving.Run(Shared(h, map[]), steps[..i]).h)
  {
    NothingInFlight(h);
    forall i | 0 <= i <= |steps|
      ensures Tidy(Interleaving.Run(Shared(h, map[]), steps[..i]).h)
    {
      assert forall j :: 0 <= j < i ==> steps[..i][..j] == steps[..j] && steps[..i][j] == steps[j];
      TidyThroughout(Shared(h, map[]), steps[..i]);
    }
  }

  // ----- the two calls that can break it -------------------------------------------------------

  /** Persisting a token leaves a dangling one exactly when the slot it names is gone. */
  lemma TokenDanglesIff(s: Shared, pid: nat, pick: nat)
    requires NoDangling(s.h) && pid in s.procs && s.procs[pid].SlotAdded?
    requires NamesOnly(s.procs[pid].token, s.procs[pid].added) && pick < TOKENS_MAX && pick !in s.h.tokens
    ensures NoDangling(Next(s, CallToken(pid, pick, false)).h) <==> s.procs[pid].added in s.h.slots
  {
    var p, h' := s.procs[pid], Next(s, CallToken(pid, pick, false)).h;
    assert h' == s.h.(tokens := s.h.tokens[pick := p.token]);
    assert Names(h'.tokens[pick], p.added);
  }

  /** Destroying a slot leaves a dangling token exactly when some token still names it. */
  lemma DestroyDanglesIff(s: Shared, pid: nat)
    requires NoDangling(s.h) && pid in s.procs && s.procs[pid].Dropped?
    requires var slot := s.procs[pid].slot; slot >= 0 && slot in s.h.slots
    ensures NoDangling(Next(s, CallDestroy(pid, false)).h)
       <==> forall t :: t in s.h.tokens ==> !Names(s.h.tokens[t], s.procs[pid].slot)
  {
    var slot, h' := s.procs[pid].slot, Next(s, CallDestroy(pid, false)).h;
    assert h' == s.h.(slots := s.h.slots - {slot});
    if t :| t in s.h.tokens && Names(s.h.tokens[t], slot) {
      assert Names(h'.tokens[t], slot) && slot !in h'.slots;
    } else {
      forall t, k | t in h'.tokens && Names(h'.tokens[t], k)
        ensures k >= 0 && k in h'.slots
      {
        assert Names(s.h.tokens[t], k) && k != slot;
      }
    }
  }

  /** No other call can: it writes no header, or takes a token away, or adds a slot. */
  lemma OthersNeverDangle(s: Shared, e: Step)
    requires NoDangling(s.h) && !e.CallToken? && !e.CallDestroy?
    ensures NoDangling(Next(s, e).h)
  {
    var h' := Next(s, e).h;
    forall t, k | t in h'.tokens && Names(h'.tokens[t], k)
      ensures k >= 0 && k in h'.slots
    {
      assert t in s.h.tokens && Names(s.h.tokens[t], k);
    }
  }
}
