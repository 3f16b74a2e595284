/**
 * The authorization gate of the service (service.rs): a cache of full checks per sender, one table for
 * reads and one for changes. The check itself awaits the bus, so other calls run between a call's
 * cache lookup and the recording of its full check.
 */
module AuthGate {
  import opened Common

  datatype Kind = Read | Manage

  /** AUTH_CACHE_TTL and MANAGE_AUTH_CACHE_TTL, in nanoseconds. */
  function Ttl(kind: Kind): nat {
    match kind
    case Read => 30 * 1_000_000_000
    case Manage => 300 * 1_000_000_000
  }

  type Times = map<string, nat>

  predicate Fresh(times: Times, sender: string, kind: Kind, now: nat) {
    sender in times && now - times[sender] < Ttl(kind)
  }

  /** A passed full check: the caller owned the file, or polkit agreed. */
  datatype Check = Check(sender: string, kind: Kind, at: nat)

  /** `LuksEnrollService`, as far as authorization goes. */
  class Gate {
    var readAuth: Times
    var manageAuth: Times

    constructor ()
      ensures readAuth == map[] && manageAuth == map[]
    {
      readAuth, manageAuth := map[], map[];
    }

    function Tables(): (Times, Times)
      reads this
    {
      (readAuth, manageAuth)
    }

    /** The lookup at the top of `gate`. */
    method IsCached(sender: string, kind: Kind, now: nat) returns (hit: bool)
      ensures hit <==> Fresh(if kind.Read? then readAuth else manageAuth, sender, kind, now)
    {
      var times := match kind case Read => readAuth case Manage => manageAuth;
      hit := sender in times && now - times[sender] < Ttl(kind);
    }

    /** The insertion at its end, after a full check that passed. */
    method Record(sender: string, kind: Kind, now: nat)
      modifies this
      ensures Tables() == Recorded(old(Tables()), Check(sender, kind, now))
    {
      if kind.Read? {
        readAuth := readAuth[sender := now];
      } else {
        manageAuth := manageAuth[sender := now];
      }
    }

    /** `gate` when no other call intervenes: cache, else ownership, else polkit. */
    method Authorize(sender: string, kind: Kind, owns: bool, polkit: bool, now: nat, later: nat) returns (allowed: bool)
      modifies this
      ensures var cached := Fresh(if kind.Read? then old(readAuth) else old(manageAuth), sender, kind, now);
              && (allowed <==> cached || owns || polkit)
              && Tables() == if !cached && allowed then Recorded(old(Tables()), Check(sender, kind, later))
                             else old(Tables())
    {
      var hit := IsCached(sender, kind, now);
      if hit {
        return true;
      }
      var needsPolkit := !owns;
      if needsPolkit && !polkit {
        return false;
      }
      Record(sender, kind, later);
      return true;
    }
  }

  function Recorded(tables: (Times, Times), c: Check): (Times, Times) {
    if c.kind.Read? then (tables.0[c.sender := c.at], tables.1) else (tables.0, tables.1[c.sender := c.at])
  }

  // ----- interleaved calls ---------------------------------------------------------------------

  /** A call's two atomic moments: its lookup, and the end of its full check. */
  datatype Moment =
    | Lookup(id: nat, sender: string, kind: Kind, at: nat)
    | FullCheck(id: nat, owns: bool, polkit: bool, at: nat)

  datatype Pending = Pending(sender: string, kind: Kind)

  datatype Grant = Grant(sender: string, kind: Kind, at: nat)

  /** The tables, the calls between their two moments, and the two logs. */
  datatype State = State(tables: (Times, Times), pending: map<nat, Pending>, checks: seq<Check>, grants: seq<Grant>)

  function Table(s: State, kind: Kind): Times {
    if kind.Read? then s.tables.0 else s.tables.1
  }

  function Next(s: State, m: Moment): State {
    match m
    case Lookup(id, sender, kind, at) =>
      if id in s.pending then s
      else if Fresh(Table(s, kind), sender, kind, at) then s.(grants := s.grants + [Grant(sender, kind, at)])
      else s.(pending := s.pending[id := Pending(sender, kind)])
    case FullCheck(id, owns, polkit, at) =>
      if id !in s.pending then s
      else
        var p := s.pending[id];
        var s1 := s.(pending := s.pending - {id});
        if !owns && !polkit then s1
        else
          var c := Check(p.sender, p.kind, at);
          s1.(tables := Recorded(s.tables, c), checks := s.checks + [c],
              grants := s.grants + [Grant(p.sender, p.kind, at)])
  }

  const START := State((map[], map[]), map[], [], [])

  function Run(ms: seq<Moment>): State {
    if ms == [] then START else Next(Run(ms[..|ms| - 1]), ms[|ms| - 1])
  }

  ghost predicate Chronological(ms: seq<Moment>) {
    forall i, j :: 0 <= i < j < |ms| ==> ms[i].at <= ms[j].at
  }

  /** The reference, without tables: some full check of this sender and kind lies less than a TTL back. */
  ghost predicate CheckedWithin(checks: seq<Check>, sender: string, kind: Kind, now: nat) {
    exists c :: c in checks && c.sender == sender && c.kind == kind && c.at <= now && now - c.at < Ttl(kind)
  }

  /** Each entry of one kind's table is the last full check of its sender, and every full check left one. */
  ghost predicate FaithfulTable(times: Times, kind: Kind, checks: seq<Check>) {
    && (forall sender :: sender in times ==> Check(sender, kind, times[sender]) in checks)
    && (forall c :: c in checks && c.kind == kind ==> c.sender in times && c.at <= times[c.sender])
  }

  ghost predicate Faithful(s: State) {
    FaithfulTable(s.tables.0, Read, s.checks) && FaithfulTable(s.tables.1, Manage, s.checks)
  }

  /** The recorded times never decrease, and none lies after `now`. */
  ghost predicate Ordered(checks: seq<Check>, now: nat) {
    && (forall i, j :: 0 <= i < j < |checks| ==> checks[i].at <= checks[j].at)
    && forall i :: 0 <= i < |checks| ==> checks[i].at <= now
  }

  ghost predicate GrantsJustified(s: State) {
    forall g :: g in s.grants ==> CheckedWithin(s.checks, g.sender, g.kind, g.at)
  }

  lemma OrderedMembers(checks: seq<Check>, now: nat)
    requires Ordered(checks, now)
    ensures forall c :: c in checks ==> c.at <= now
  {
  }

  /** A lookup hits exactly when the reference says so: hits extend nothing, and kinds do not mix. */
  lemma HitIffChecked(s: State, sender: string, kind: Kind, now: nat)
    requires Faithful(s) && Ordered(s.checks, now)
    ensures Fresh(Table(s, kind), sender, kind, now) <==> CheckedWithin(s.checks, sender, kind, now)
  {
    OrderedMembers(s.checks, now);
    if Fresh(Table(s, kind), sender, kind, now) {
      assert Check(sender, kind, Table(s, kind)[sender]) in s.checks;
    }
  }

  lemma RecordKeepsFaithful(times: Times, kind: Kind, checks: seq<Check>, c: Check)
    requires FaithfulTable(times, kind, checks) && Ordered(checks, c.at)
    ensures FaithfulTable(if c.kind == kind then times[c.sender := c.at] else times, kind, checks + [c])
  {
    OrderedMembers(checks, c.at);
    assert c in checks + [c];
  }

  /** A later full check takes no justification away. */
  lemma MoreChecksJustify(checks: seq<Check>, c: Check, grants: seq<Grant>)
    requires forall g :: g in grants ==> CheckedWithin(checks, g.sender, g.kind, g.at)
    ensures forall g :: g in grants ==> CheckedWithin(checks + [c], g.sender, g.kind, g.at)
  {
    forall g | g in grants
      ensures CheckedWithin(checks + [c], g.sender, g.kind, g.at)
    {
      var x :| x in checks && x.sender == g.sender && x.kind == g.kind && x.at <= g.at && g.at - x.at < Ttl(g.kind);
      assert x in checks + [c];
    }
  }

  lemma RecordKeepsOrdered(checks: seq<Check>, c: Check)
    requires Ordered(checks, c.at)
    ensures Ordered(checks + [c], c.at)
  {
  }

  lemma FullCheckKeepsInvariants(s: State, m: Moment)
    requires m.FullCheck? && Faithful(s) && Ordered(s.checks, m.at) && GrantsJustified(s)
    ensures var s' := Next(s, m); Faithful(s') && Ordered(s'.checks, m.at) && GrantsJustified(s')
  {
    if m.id in s.pending && (m.owns || m.polkit) {
      var p := s.pending[m.id];
      var c := Check(p.sender, p.kind, m.at);
      RecordKeepsOrdered(s.checks, c);
      assert Faithful(Next(s, m)) by {
        RecordKeepsFaithful(s.tables.0, Read, s.checks, c);
        RecordKeepsFaithful(s.tables.1, Manage, s.checks, c);
      }
      assert GrantsJustified(Next(s, m)) by {
        MoreChecksJustify(s.checks, c, s.grants);
        assert c in s.checks + [c];
        assert CheckedWithin(s.checks + [c], p.sender, p.kind, m.at);
      }
    }
  }

  lemma LookupKeepsInvariants(s: State, m: Moment)
    requires m.Lookup? && Faithful(s) && Ordered(s.checks, m.at) && GrantsJustified(s)
    ensures var s' := Next(s, m); Faithful(s') && Ordered(s'.checks, m.at) && GrantsJustified(s')
  {
    HitIffChecked(s, m.sender, m.kind, m.at);
  }

  /**
   * Authorization over interleaved calls: every allowed call lies within its kind's TTL of a recorded
   * full check by the same sender and of the same kind, and recorded times never decrease.
   */
  lemma {:induction false} GrantsAreJustified(ms: seq<Moment>, now: nat)
    requires Chronological(ms) && forall i :: 0 <= i < |ms| ==> ms[i].at <= now
    ensures var s := Run(ms); Faithful(s) && Ordered(s.checks, now) && GrantsJustified(s)
  {
    if ms != [] {
      var init, m := ms[..|ms| - 1], ms[|ms| - 1];
      GrantsAreJustified(init, m.at);
      match m
      case Lookup(_, _, _, _) => LookupKeepsInvariants(Run(init), m);
      case FullCheck(_, _, _, _) => FullCheckKeepsInvariants(Run(init), m);
    }
  }

  /** And a call is let through without a full check exactly when such a check lies within the TTL. */
  lemma {:induction false} CachedIffChecked(ms: seq<Moment>, id: nat, sender: string, kind: Kind, now: nat)
    requires Chronological(ms) && (forall i :: 0 <= i < |ms| ==> ms[i].at <= now) && id !in Run(ms).pending
    ensures var s := Run(ms); var s' := Next(s, Lookup(id, sender, kind, now));
            && (s'.grants == s.grants + [Grant(sender, kind, now)] <==> CheckedWithin(s.checks, sender, kind, now))
            && s'.tables == s.tables && s'.checks == s.checks
  {
    GrantsAreJustified(ms, now);
    HitIffChecked(Run(ms), sender, kind, now);
  }

  /** The windows, in nanoseconds: thirty seconds for reading, five minutes for managing. */
  lemma Windows(times: Times, sender: string, kind: Kind, now: nat)
    ensures Fresh(times, sender, kind, now)
       <==> sender in times && now - times[sender] < (if kind.Read? then 30_000_000_000 else 300_000_000_000)
  {
  }

  /** A full check lets its call through exactly if the caller owns the file or polkit agrees, and is then recorded. */
  lemma FullCheckOutcome(s: State, id: nat, owns: bool, polkit: bool, at: nat)
    requires id in s.pending
    ensures var s', p := Next(s, FullCheck(id, owns, polkit, at)), s.pending[id];
            && s'.pending == s.pending - {id}
            && (owns || polkit ==> && s'.grants == s.grants + [Grant(p.sender, p.kind, at)]
                                   && s'.checks == s.checks + [Check(p.sender, p.kind, at)]
                                   && Table(s', p.kind) == Table(s, p.kind)[p.sender := at]
                                   && (forall k :: k != p.kind ==> Table(s', k) == Table(s, k)))
            && (!owns && !polkit ==> s'.grants == s.grants && s'.checks == s.checks && s'.tables == s.tables)
  {
  }
}
