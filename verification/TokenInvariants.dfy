/**
 * Tokens and the keyslots they name: no token dangles at any intermediate point of a run, and when
 * exactly a wipe breaks that.
 */
module TokenInvariants {
  import opened Common
  import opened Text
  import opened Luks2
  import opened Lifecycle
  import opened Invariants

  /** Every token names only live slots. */
  ghost predicate NoDangling(h: Header) {
    forall t, k {:trigger Names(h.tokens[t], k)} :: t in h.tokens && Names(h.tokens[t], k) ==> k >= 0 && k in h.slots
  }

  /** No slot is named by two tokens. */
  ghost predicate NoSharing(h: Header) {
    forall t, u, k {:trigger Names(h.tokens[t], k), Names(h.tokens[u], k)} ::
      t in h.tokens && u in h.tokens && Names(h.tokens[t], k) && Names(h.tokens[u], k) ==> t == u
  }

  ghost predicate Tidy(h: Header) {
    WellFormed(h) && NoDangling(h) && NoSharing(h)
  }

  /** The stamp of `enroll_token` reads back as exactly the slot it names. */
  lemma StampNames(token: Token, slot: nat)
    requires slot < SLOTS_MAX
    ensures TokenKeyslots(Stamped(token, slot)) == [slot]
  {
    ParseOfShow(slot, -0x8000_0000, 0x7fff_ffff);
    var names := [Show(slot)];
    assert names[1..] == [] && ParsedSlots(names) == [slot] + ParsedSlots(names[1..]);
  }

  lemma TidyAdd(h: Header, key: Bytes, secret: string, s: Schedule)
    requires Tidy(h)
    ensures AddOk(h, key, secret, s, Tidy)
  {
  }

  /** Slot before token: when the token appears its slot is live, and nobody else names it. */
  lemma TidyEnroll(h: Header, key: Bytes, p: Prepared, s: Schedule)
    requires Tidy(h)
    ensures EnrollOk(h, key, p, s, Tidy)
  {
    TidyAdd(h, key, p.secret, s);
    if AddByKey(h, key, p.secret, s.slot).Some? {
      var h1 := AddByKey(h, key, p.secret, s.slot).value;
      var token := Stamped(p.token, s.slot);
      StampNames(p.token, s.slot);
      if AddToken(h1, token, s.token).Some? {
        var h2 := AddToken(h1, token, s.token).value;
        assert forall k :: Names(token, k) <==> k == s.slot;
        assert forall t :: t in h2.tokens <==> t in h1.tokens || t == s.token;
      }
    }
  }

  lemma DestroyUnnamed(h: Header, slot: int)
    requires Tidy(h) && forall t :: t in h.tokens ==> !Names(h.tokens[t], slot)
    ensures DestroyOk(h, slot, Tidy)
  {
    if Luks2.DestroySlot(h, slot).Some? {
      var h1 := Luks2.DestroySlot(h, slot).value;
      assert h1.tokens == h.tokens;
      forall t, k | t in h1.tokens && Names(h1.tokens[t], k)
        ensures k >= 0 && k in h1.slots
      {
        assert Names(h.tokens[t], k) && k != slot;
      }
    }
  }

  /** Without the one token that names it, no token names the slot. */
  lemma RemoveNaming(h: Header, slot: int, id: nat)
    requires Tidy(h) && id in h.tokens && Names(h.tokens[id], slot)
    ensures var h1 := Luks2.RemoveToken(h, id).value;
            Tidy(h1) && forall t :: t in h1.tokens ==> !Names(h1.tokens[t], slot)
  {
    var h1 := Luks2.RemoveToken(h, id).value;
    assert forall t :: t in h1.tokens ==> t in h.tokens && t != id && h1.tokens[t] == h.tokens[t];
  }

  /** Token before slot: when the slot goes, the only token that named it is gone. */
  lemma {:induction false} TidyWipe(h: Header, slot: int)
    requires Tidy(h)
    ensures WipeOk(h, slot, FirstNaming(Tokens(h), slot), Tidy)
  {
    var id := FirstNaming(Tokens(h), slot);
    TokensAreAll(h);
    if id < 0 {
      forall t | t in h.tokens
        ensures !Names(h.tokens[t], slot)
      {
        assert Listed(t, h.tokens[t]) in Tokens(h);
      }
      DestroyUnnamed(h, slot);
    } else {
      var l :| l in Tokens(h) && l.id == id && Names(l.token, slot);
      RemoveNaming(h, slot, id);
      DestroyUnnamed(Luks2.RemoveToken(h, id).value, slot);
    }
  }

  /** An event whose wipe, if it is one, could read which token names the slot. */
  ghost predicate SeesToken(e: Event) {
    e.op.Wipe? ==> !e.s.fails(FindRead)
  }

  lemma TidyClosed(h: Header, e: Event)
    requires (Tidy(h) || e.op.Format?) && SeesToken(e)
    ensures Closed(h, e.op, e.s, Tidy)
  {
    match e.op
    case Format(passphrase, key) => TidyAdd(Fresh(key), key, passphrase, e.s);
    case EnrollWith(_, _) =>
      forall key, p ensures EnrollOk(h, key, p, e.s, Tidy) { TidyEnroll(h, key, p, e.s); }
    case EnrollP(_, passphrase) =>
      forall key ensures AddOk(h, key, passphrase, e.s, Tidy) { TidyAdd(h, key, passphrase, e.s); }
    case Wipe(_, slot) => TidyWipe(h, slot);
    case _ =>
  }

  /**
   * No dangling token at any intermediate point: from a tidy header on, every header version written
   * by any sequence of operations is tidy, including the ones left behind by operations that stopped
   * halfway.
   */
  lemma {:induction false} NoTokenEverDangles(v: Volume, events: seq<Event>, n: nat)
    requires History(v, n, Tidy)
    requires forall i :: 0 <= i < |events| ==> SeesToken(events[i])
    ensures History(Run(v, events), n, Tidy)
  {
    forall h, i | 0 <= i < |events| && (Tidy(h) || events[i].op.Format?)
      ensures Closed(h, events[i].op, events[i].s, Tidy)
    {
      TidyClosed(h, events[i]);
    }
    RunHistory(v, events, n, Tidy);
  }

  /**
   * The hypothesis is needed, exactly: a wipe that goes through leaves a dangling token if and only
   * if its token lookup failed silently while some token named the slot. Dangling is relative to the
   * calls modelled: a library that unassigns a destroyed slot from its tokens would clean up here.
   */
  lemma WipeLeavesDanglingIff(v: Volume, slot: int, s: Schedule, n: nat)
    requires v.disk.Some? && History(v, n, Tidy) && WipeTokenThenSlot(v, slot, s).1.ok
    ensures !NoDangling(WipeTokenThenSlot(v, slot, s).0.disk.value.header)
       <==> && s.fails(FindRead)
            && exists t :: t in v.disk.value.header.tokens && Names(v.disk.value.header.tokens[t], slot)
  {
    var h := v.disk.value.header;
    assert Tidy(h);
    if s.fails(FindRead) {
      var h' := h.(slots := h.slots - {slot});
      assert WipeTokenThenSlot(v, slot, s).0.disk.value.header == h';
      if t :| t in h.tokens && Names(h.tokens[t], slot) {
        assert t in h'.tokens && Names(h'.tokens[t], slot) && slot !in h'.slots;
      } else {
        DestroyUnnamed(h, slot);
      }
    } else {
      TidyWipe(h, slot);
      WipeHistory(v, slot, s, n, Tidy);
      var w := WipeTokenThenSlot(v, slot, s).0;
      assert Tidy(w.disk.value.written[|w.disk.value.written| - 1]);
    }
  }
}
