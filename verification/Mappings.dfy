/**
 * Closing every dm-crypt mapping over a container file: discovery from the kernel's loop attach
 * records, then a teardown loop that stops at the first failure (luks.rs).
 */
module Mappings {
  import opened Common

  datatype DmHolder = DmHolder(uuid: string, name: string)
  datatype LoopSnapshot = LoopSnapshot(dev: nat, ino: nat, holders: seq<DmHolder>)

  // ----- string order --------------------------------------------------------------------------

  /** Rust's order on strings: lexicographic by code point. */
  predicate Less(a: string, b: string) {
    b != [] && (a == [] || a[0] < b[0] || (a[0] == b[0] && Less(a[1..], b[1..])))
  }

  lemma {:induction false} LessTotal(a: string, b: string)
    ensures a == b || Less(a, b) || Less(b, a)
  {
    if a != [] && b != [] && a[0] == b[0] {
      LessTotal(a[1..], b[1..]);
      assert a == [a[0]] + a[1..] && b == [b[0]] + b[1..];
    }
  }

  lemma {:induction false} LessTransitive(a: string, b: string, c: string)
    requires Less(a, b) && Less(b, c)
    ensures Less(a, c)
  {
    if a != [] && a[0] == b[0] && b[0] == c[0] {
      LessTransitive(a[1..], b[1..], c[1..]);
    }
  }

  lemma {:induction false} LessIrreflexive(a: string)
    ensures !Less(a, a)
  {
    if a != [] {
      LessIrreflexive(a[1..]);
    }
  }

  predicate Sorted(ns: seq<string>) {
    forall i, j :: 0 <= i < j < |ns| ==> ns[i] == ns[j] || Less(ns[i], ns[j])
  }

  predicate StrictlySorted(ns: seq<string>) {
    forall i, j :: 0 <= i < j < |ns| ==> Less(ns[i], ns[j])
  }

  // ----- discovery -----------------------------------------------------------------------------

  /** The names of LUKS mappings held over one loop device. */
  function LuksNames(holders: seq<DmHolder>): (r: seq<string>)
    ensures forall n :: n in r <==> exists h :: h in holders && "CRYPT-LUKS" <= h.uuid && h.name == n
  {
    if holders == [] then []
    else
      assert holders == [holders[0]] + holders[1..];
      (if "CRYPT-LUKS" <= holders[0].uuid then [holders[0].name] else []) + LuksNames(holders[1..])
  }

  /** A LUKS mapping of this name sits on a loop device backed by the file `(dev, ino)`. */
  ghost predicate Backs(dev: nat, ino: nat, loops: seq<LoopSnapshot>, name: string) {
    exists l, h :: && l in loops && l.dev == dev && l.ino == ino
                   && h in l.holders && "CRYPT-LUKS" <= h.uuid && h.name == name
  }

  function HolderNames(dev: nat, ino: nat, loops: seq<LoopSnapshot>): (r: seq<string>)
    ensures forall n :: n in r <==> Backs(dev, ino, loops, n)
  {
    if loops == [] then []
    else
      assert loops == [loops[0]] + loops[1..];
      BacksSplits(dev, ino, loops);
      (if loops[0].dev == dev && loops[0].ino == ino then LuksNames(loops[0].holders) else [])
      + HolderNames(dev, ino, loops[1..])
  }

  lemma BacksSplits(dev: nat, ino: nat, loops: seq<LoopSnapshot>)
    requires loops != []
    ensures forall n :: Backs(dev, ino, loops, n) <==>
              (loops[0].dev == dev && loops[0].ino == ino && n in LuksNames(loops[0].holders))
              || Backs(dev, ino, loops[1..], n)
  {
    assert loops == [loops[0]] + loops[1..];
    assert forall l :: l in loops <==> l == loops[0] || l in loops[1..];
  }

  function InsertSorted(ns: seq<string>, n: string): (r: seq<string>)
    requires Sorted(ns)
    ensures Sorted(r)
    ensures forall x :: x in r <==> x in ns || x == n
  {
    if ns == [] then [n]
    else
      var init, last := ns[..|ns| - 1], ns[|ns| - 1];
      assert ns == init + [last];
      if Less(n, last) then
        var r := InsertSorted(init, n);
        assert forall x :: x in r ==> x == last || Less(x, last) by {
          forall x | x in r ensures x == last || Less(x, last) {
            if x != n { var i :| 0 <= i < |init| && init[i] == x; assert ns[i] == x; }
          }
        }
        r + [last]
      else
        LessTotal(n, last);
        assert forall i :: 0 <= i < |ns| ==> ns[i] == n || Less(ns[i], n) by {
          forall i | 0 <= i < |ns| ensures ns[i] == n || Less(ns[i], n) {
            if ns[i] != last && last != n { LessTransitive(ns[i], last, n); }
          }
        }
        ns + [n]
  }

  /** `sort`. */
  function Sort(ns: seq<string>): (r: seq<string>)
    ensures Sorted(r)
    ensures forall x :: x in r <==> x in ns
  {
    if ns == [] then []
    else
      assert ns == ns[..|ns| - 1] + [ns[|ns| - 1]];
      InsertSorted(Sort(ns[..|ns| - 1]), ns[|ns| - 1])
  }

  /** `dedup`: drops consecutive repeats. */
  function Dedup(ns: seq<string>): seq<string> {
    if |ns| <= 1 then ns
    else if ns[|ns| - 1] == ns[|ns| - 2] then Dedup(ns[..|ns| - 1])
    else Dedup(ns[..|ns| - 1]) + [ns[|ns| - 1]]
  }

  /** On sorted names, dropping consecutive repeats leaves a strictly sorted list of the same names. */
  lemma {:induction false} DedupSorted(ns: seq<string>)
    requires Sorted(ns)
    ensures StrictlySorted(Dedup(ns))
    ensures forall x :: x in Dedup(ns) <==> x in ns
    ensures ns != [] ==> Dedup(ns) != [] && Dedup(ns)[|Dedup(ns)| - 1] == ns[|ns| - 1]
  {
    if |ns| > 1 {
      var init, last := ns[..|ns| - 1], ns[|ns| - 1];
      assert ns == init + [last];
      DedupSorted(init);
      if last != ns[|ns| - 2] {
        var d := Dedup(init);
        assert Less(ns[|ns| - 2], last);
        forall i | 0 <= i < |d|
          ensures Less(d[i], last)
        {
          if i < |d| - 1 {
            LessTransitive(d[i], d[|d| - 1], last);
          }
        }
      } else {
        assert last in init;
      }
    }
  }

  /** `crypt_mappings_backed_by`: collect, sort in place, drop repeats in place. */
  method CryptMappingsBackedBy(dev: nat, ino: nat, loops: seq<LoopSnapshot>) returns (names: seq<string>)
    ensures names == Discovered(dev, ino, loops)
    ensures StrictlySorted(names) && forall n :: n in names <==> Backs(dev, ino, loops, n)
  {
    names := HolderNames(dev, ino, loops);
    names := Sort(names);
    names := Dedup(names);
    DiscoveryIsExact(dev, ino, loops);
  }

  function Discovered(dev: nat, ino: nat, loops: seq<LoopSnapshot>): seq<string> {
    Dedup(Sort(HolderNames(dev, ino, loops)))
  }

  /** Discovery is exact: strictly sorted, and exactly the LUKS mappings over the file. */
  lemma DiscoveryIsExact(dev: nat, ino: nat, loops: seq<LoopSnapshot>)
    ensures StrictlySorted(Discovered(dev, ino, loops))
    ensures forall n :: n in Discovered(dev, ino, loops) <==> Backs(dev, ino, loops, n)
  {
    DedupSorted(Sort(HolderNames(dev, ino, loops)));
  }

  /** A strictly sorted list is determined by its elements. */
  lemma {:induction false} StrictlySortedUnique(a: seq<string>, b: seq<string>)
    requires StrictlySorted(a) && StrictlySorted(b) && forall x :: x in a <==> x in b
    ensures a == b
  {
    assert a == [] || a[0] in b;
    assert b == [] || b[0] in a;
    if a != [] && b != [] {
      var x, y := a[|a| - 1], b[|b| - 1];
      assert y in a && x in b;
      LastIsGreatest(a, y);
      LastIsGreatest(b, x);
      if x != y {
        LessTransitive(x, y, x);
        LessIrreflexive(x);
      }
      WithoutLast(a);
      WithoutLast(b);
      StrictlySortedUnique(a[..|a| - 1], b[..|b| - 1]);
      assert a == a[..|a| - 1] + [x] && b == b[..|b| - 1] + [y];
    }
  }

  /** Nothing occurs twice, so dropping the last element drops exactly its name. */
  lemma WithoutLast(a: seq<string>)
    requires a != [] && StrictlySorted(a)
    ensures var init, x := a[..|a| - 1], a[|a| - 1];
            StrictlySorted(init) && forall n :: n in init <==> n in a && n != x
  {
    var init, x := a[..|a| - 1], a[|a| - 1];
    LessIrreflexive(x);
    assert a == init + [x] && forall i :: 0 <= i < |init| ==> init[i] == a[i];
  }

  lemma {:induction false} LastIsGreatest(a: seq<string>, y: string)
    requires a != [] && StrictlySorted(a)
    ensures y in a ==> y == a[|a| - 1] || Less(y, a[|a| - 1])
  {
    if y in a {
      var i :| 0 <= i < |a| && a[i] == y;
    }
  }

  /**
   * The discovered list does not depend on the order of the loop devices or of their holders, nor on
   * repeats: two snapshots with the same mappings over the file yield the same list.
   */
  lemma DiscoveryIgnoresOrder(dev: nat, ino: nat, loops: seq<LoopSnapshot>, loops': seq<LoopSnapshot>)
    requires forall n :: Backs(dev, ino, loops, n) <==> Backs(dev, ino, loops', n)
    ensures Discovered(dev, ino, loops) == Discovered(dev, ino, loops')
  {
    DiscoveryIsExact(dev, ino, loops);
    DiscoveryIsExact(dev, ino, loops');
    StrictlySortedUnique(Discovered(dev, ino, loops), Discovered(dev, ino, loops'));
  }

  /** In particular, permuting the loop devices changes nothing. */
  lemma DiscoveryUnderPermutation(dev: nat, ino: nat, loops: seq<LoopSnapshot>, loops': seq<LoopSnapshot>)
    requires multiset(loops) == multiset(loops')
    ensures Discovered(dev, ino, loops) == Discovered(dev, ino, loops')
  {
    assert forall l :: l in loops <==> l in multiset(loops);
    assert forall l :: l in loops' <==> l in multiset(loops');
    assert forall l :: l in loops <==> l in loops';
    DiscoveryIgnoresOrder(dev, ino, loops, loops');
  }

  /** The same loops in the same order, each with its holders in any order. */
  predicate HoldersPermuted(loops: seq<LoopSnapshot>, loops': seq<LoopSnapshot>) {
    && |loops| == |loops'|
    && forall i :: 0 <= i < |loops| ==>
         && loops[i].dev == loops'[i].dev && loops[i].ino == loops'[i].ino
         && multiset(loops[i].holders) == multiset(loops'[i].holders)
  }

  lemma BacksUnderHolders(dev: nat, ino: nat, loops: seq<LoopSnapshot>, loops': seq<LoopSnapshot>, n: string)
    requires HoldersPermuted(loops, loops') && Backs(dev, ino, loops, n)
    ensures Backs(dev, ino, loops', n)
  {
    var l, h :| l in loops && l.dev == dev && l.ino == ino && h in l.holders && "CRYPT-LUKS" <= h.uuid && h.name == n;
    var i :| 0 <= i < |loops| && loops[i] == l;
    assert h in multiset(loops[i].holders);
    assert h in loops'[i].holders && loops'[i] in loops';
  }

  /** Neither does the order in which the kernel lists the holders of a loop device. */
  lemma DiscoveryUnderHolderPermutation(dev: nat, ino: nat, loops: seq<LoopSnapshot>, loops': seq<LoopSnapshot>)
    requires HoldersPermuted(loops, loops')
    ensures Discovered(dev, ino, loops) == Discovered(dev, ino, loops')
  {
    forall n
      ensures Backs(dev, ino, loops, n) <==> Backs(dev, ino, loops', n)
    {
      if Backs(dev, ino, loops, n) { BacksUnderHolders(dev, ino, loops, loops', n); }
      if Backs(dev, ino, loops', n) { BacksUnderHolders(dev, ino, loops', loops, n); }
    }
    DiscoveryIgnoresOrder(dev, ino, loops, loops');
  }

  // ----- teardown ------------------------------------------------------------------------------

  /** What the teardown meets: failing status queries, mounted filesystems, failing deactivations. */
  datatype Surroundings = Surroundings(statusFails: string -> bool, mounted: string -> bool, fails: string -> bool)

  predicate ValidMapperName(name: string) {
    name != "" && |name| <= 128
    && forall c :: c in name ==> 'a' <= c <= 'z' || 'A' <= c <= 'Z' || '0' <= c <= '9' || c == '-' || c == '_'
  }

  /** Mapper names: 1 to 128 ASCII letters, digits, dashes and underscores, by their codes. */
  predicate MapperCode(n: int) {
    48 <= n <= 57 || 65 <= n <= 90 || 97 <= n <= 122 || n == 45 || n == 95
  }

  lemma MapperNames(name: string)
    ensures ValidMapperName(name) <==> 1 <= |name| <= 128 && forall i :: 0 <= i < |name| ==> MapperCode(name[i] as int)
  {
    if ValidMapperName(name) {
      forall i | 0 <= i < |name|
        ensures MapperCode(name[i] as int)
      {
        assert name[i] in name;
      }
    }
    if forall i :: 0 <= i < |name| ==> MapperCode(name[i] as int) {
      forall c | c in name
        ensures 'a' <= c <= 'z' || 'A' <= c <= 'Z' || '0' <= c <= '9' || c == '-' || c == '_'
      {
        var i :| 0 <= i < |name| && name[i] == c;
        assert MapperCode(name[i] as int);
      }
    }
  }

  /** `deactivate_volume`: a mapping that is absent - or whose status cannot be read - counts as closed. */
  function Deactivated(active: set<string>, name: string, e: Surroundings): (set<string>, Result<()>) {
    if !ValidMapperName(name) then (active, Err("Invalid mapper name"))
    else if name !in active || e.statusFails(name) then (active, Ok(()))
    else if e.mounted(name) then (active, Err("The volume's filesystem is mounted; unmount it before closing"))
    else if e.fails(name) then (active, Err("crypt_deactivate failed"))
    else (active - {name}, Ok(()))
  }

  /** Whether one mapping can be closed, judged before anything is torn down. */
  predicate Closable(active: set<string>, name: string, e: Surroundings) {
    ValidMapperName(name) && (name !in active || e.statusFails(name) || (!e.mounted(name) && !e.fails(name)))
  }

  /** The first name that cannot be closed, or their number. */
  function FirstStuck(active: set<string>, names: seq<string>, e: Surroundings, i: nat): (r: nat)
    requires i <= |names|
    ensures i <= r <= |names|
    ensures r < |names| ==> !Closable(active, names[r], e)
    ensures forall j :: i <= j < r ==> Closable(active, names[j], e)
    decreases |names| - i
  {
    if i == |names| || !Closable(active, names[i], e) then i else FirstStuck(active, names, e, i + 1)
  }

  /** The names among the first `k` that are torn down. */
  function TornDown(names: seq<string>, k: nat, e: Surroundings): set<string>
    requires k <= |names|
  {
    set n | n in names[..k] && !e.statusFails(n)
  }

  /** The table after a close of everything over a file, successful or not. */
  function AfterClose(active: set<string>, dev: nat, ino: nat, loops: seq<LoopSnapshot>, e: Surroundings): set<string> {
    var names := Discovered(dev, ino, loops);
    active - TornDown(names, FirstStuck(active, names, e, 0), e)
  }

  /**
   * Closing one name: it succeeds exactly if the name is valid and is absent, unreadable, or neither mounted
   * nor refused; the mapping goes exactly if it was there, readable, unmounted and not refused; no other does.
   */
  lemma CloseOutcome(active: set<string>, name: string, e: Surroundings)
    ensures var r := Deactivated(active, name, e);
            && (r.1.Ok? <==> && ValidMapperName(name)
                             && (name !in active || e.statusFails(name) || (!e.mounted(name) && !e.fails(name))))
            && (r.1.Ok? <==> Closable(active, name, e))
            && (name in r.0 <==> name in active && (!ValidMapperName(name) || e.statusFails(name) || e.mounted(name)
                                                    || e.fails(name)))
            && forall n :: n != name ==> (n in r.0 <==> n in active)
  {
  }

  /** The device-mapper table. */
  class DmTable {
    var active: set<string>

    constructor (active: set<string>)
      ensures this.active == active
    {
      this.active := active;
    }

    /** `deactivate_volume`. */
    method DeactivateVolume(name: string, e: Surroundings) returns (r: Result<()>)
      modifies this
      ensures (active, r) == Deactivated(old(active), name, e)
    {
      if !ValidMapperName(name) {
        return Err("Invalid mapper name");
      }
      if name !in active || e.statusFails(name) {
        return Ok(());
      }
      if e.mounted(name) {
        return Err("The volume's filesystem is mounted; unmount it before closing");
      }
      if e.fails(name) {
        return Err("crypt_deactivate failed");
      }
      active := active - {name};
      return Ok(());
    }

    /**
     * `deactivate_volumes_backed_by`: success exactly when every discovered mapping could be closed;
     * otherwise exactly the names before the first that could not are gone. Mounted mappings and
     * mappings that are not over the file are never touched.
     */
    method DeactivateVolumesBackedBy(dev: nat, ino: nat, loops: seq<LoopSnapshot>, e: Surroundings)
      returns (r: Result<seq<string>>)
      modifies this
      ensures var names := Discovered(dev, ino, loops); var k := FirstStuck(old(active), names, e, 0);
              && active == AfterClose(old(active), dev, ino, loops, e)
              && (r.Ok? <==> k == |names|) && (r.Ok? ==> r.value == names)
              && (r.Err? ==> names[k] + ": " <= r.message)
      ensures forall n :: n in old(active) && n !in active ==> Backs(dev, ino, loops, n) && !e.mounted(n)
    {
      var names := CryptMappingsBackedBy(dev, ino, loops);
      ghost var before := active;
      for i := 0 to |names|
        invariant active == before - TornDown(names, i, e)
        invariant FirstStuck(before, names, e, 0) == FirstStuck(before, names, e, i)
      {
        OnlyClosableGone(names, i, before, e);
        NotTornDownYet(names, i, e);
        var closed := DeactivateVolume(names[i], e);
        if closed.Err? {
          return Err(names[i] + ": " + closed.message);
        }
        TornDownNext(names, i, e);
      }
      OnlyClosableGone(names, |names|, before, e);
      return Ok(names);
    }
  }

  lemma TornDownNext(names: seq<string>, i: nat, e: Surroundings)
    requires i < |names|
    ensures TornDown(names, i + 1, e) == TornDown(names, i, e) + if e.statusFails(names[i]) then {} else {names[i]}
  {
    assert names[..i + 1] == names[..i] + [names[i]];
  }

  /** Whatever the first `k` steps took out of the table could be closed. */
  lemma {:induction false} OnlyClosableGone(names: seq<string>, k: nat, active: set<string>, e: Surroundings)
    requires k <= |names| && FirstStuck(active, names, e, 0) >= k
    ensures forall n :: n in active && n in TornDown(names, k, e) ==> n in names && !e.mounted(n)
  {
    forall n | n in active && n in TornDown(names, k, e)
      ensures n in names && !e.mounted(n)
    {
      var j :| 0 <= j < k && names[j] == n;
      assert Closable(active, names[j], e);
    }
  }

  lemma NotTornDownYet(names: seq<string>, i: nat, e: Surroundings)
    requires StrictlySorted(names) && i < |names|
    ensures names[i] !in TornDown(names, i, e)
  {
    if names[i] in names[..i] {
      var j :| 0 <= j < i && names[j] == names[i];
      LessIrreflexive(names[i]);
    }
  }

  /**
   * After a success with readable statuses nothing over the file is active, and closing again - in
   * whatever surroundings - succeeds and changes nothing.
   */
  lemma {:induction false} CloseIsIdempotent(dev: nat, ino: nat, loops: seq<LoopSnapshot>, active: set<string>,
                                             e: Surroundings, e': Surroundings)
    requires var names := Discovered(dev, ino, loops); FirstStuck(active, names, e, 0) == |names|
    requires forall n :: n in Discovered(dev, ino, loops) ==> !e.statusFails(n)
    ensures var names := Discovered(dev, ino, loops); var after := active - TornDown(names, |names|, e);
            && (forall n :: Backs(dev, ino, loops, n) ==> n !in after)
            && FirstStuck(after, names, e', 0) == |names| && after - TornDown(names, |names|, e') == after
  {
    var names := Discovered(dev, ino, loops);
    DiscoveryIsExact(dev, ino, loops);
    assert names[..|names|] == names;
    var after := active - TornDown(names, |names|, e);
    forall j | 0 <= j < |names|
      ensures Closable(after, names[j], e')
    {
      assert Closable(active, names[j], e) && names[j] in names;
    }
  }

  /**
   * Without that hypothesis, exactly: after a success a mapping over the file is active iff it was and
   * its status could not be read.
   */
  lemma {:induction false} ActiveAfterCloseIff(dev: nat, ino: nat, loops: seq<LoopSnapshot>, active: set<string>,
                                               e: Surroundings, n: string)
    requires FirstStuck(active, Discovered(dev, ino, loops), e, 0) == |Discovered(dev, ino, loops)|
    requires Backs(dev, ino, loops, n)
    ensures var names := Discovered(dev, ino, loops);
            n in active - TornDown(names, |names|, e) <==> n in active && e.statusFails(n)
  {
    var names := Discovered(dev, ino, loops);
    DiscoveryIsExact(dev, ino, loops);
    assert names[..|names|] == names && n in names;
  }

  /** Successful or not, a close takes out of the table only unmounted mappings over the file. */
  lemma CloseSpares(dev: nat, ino: nat, loops: seq<LoopSnapshot>, active: set<string>, e: Surroundings, n: string)
    requires n in active && (!Backs(dev, ino, loops, n) || e.mounted(n))
    ensures n in AfterClose(active, dev, ino, loops, e)
  {
    var names := Discovered(dev, ino, loops);
    DiscoveryIsExact(dev, ino, loops);
    OnlyClosableGone(names, FirstStuck(active, names, e, 0), active, e);
  }
}
