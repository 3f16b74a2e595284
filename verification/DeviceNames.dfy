/**
 * The hand-rolled scanners over kernel device names (devices.rs, format.rs), against the patterns
 * they stand for, and the naming of the partition a whole-disk format creates.
 */
module DeviceNames {
  import opened Common
  import opened Text

  predicate IsLower(c: char) {
    'a' <= c <= 'z'
  }

  predicate AllLower(s: string) {
    forall i :: 0 <= i < |s| ==> IsLower(s[i])
  }

  // ----- the patterns --------------------------------------------------------------------------

  predicate Digits(s: string) {
    s != [] && AllDigits(s)
  }

  /** `^(nvme[0-9]+n[0-9]+)p[0-9]+$` with group 1 equal to `parent`. */
  ghost predicate NvmePartition(name: string, parent: string) {
    exists a, b, c :: Digits(a) && Digits(b) && Digits(c) && parent == "nvme" + a + "n" + b && name == parent + "p" + c
  }

  /** `^nvme[0-9]+n[0-9]+$`. */
  ghost predicate NvmeDisk(name: string) {
    exists a, b :: Digits(a) && Digits(b) && name == "nvme" + a + "n" + b
  }

  /** `^([a-z]+)[0-9]+$` with group 1 equal to `letters`. */
  ghost predicate LettersDigits(name: string, letters: string) {
    letters != [] && AllLower(letters) && exists d :: Digits(d) && name == letters + d
  }

  // ----- the scanners --------------------------------------------------------------------------

  /** Where the run of digits starting at `i` ends. */
  function DigitRun(b: string, i: nat): (r: nat)
    requires i <= |b|
    ensures i <= r <= |b|
    ensures forall j :: i <= j < r ==> IsDigit(b[j])
    ensures r < |b| ==> !IsDigit(b[r])
    decreases |b| - i
  {
    if i < |b| && IsDigit(b[i]) then DigitRun(b, i + 1) else i
  }

  function LowerRun(b: string, i: nat): (r: nat)
    requires i <= |b|
    ensures i <= r <= |b|
    ensures forall j :: i <= j < r ==> IsLower(b[j])
    ensures r < |b| ==> !IsLower(b[r])
    decreases |b| - i
  {
    if i < |b| && IsLower(b[i]) then LowerRun(b, i + 1) else i
  }

  method ScanDigits(b: string, start: nat) returns (i: nat)
    requires start <= |b|
    ensures i == DigitRun(b, start)
  {
    i := start;
    while i < |b| && IsDigit(b[i])
      invariant start <= i <= |b| && DigitRun(b, start) == DigitRun(b, i)
    {
      i := i + 1;
    }
  }

  /** The end of `nvme[0-9]+n[0-9]+` at the front of the name. */
  function DiskEnd(name: string): (r: Option<nat>)
    ensures r.Some? ==> r.value <= |name|
  {
    if !("nvme" <= name) then None
    else
      var i := DigitRun(name, 4);
      if i == 4 || i >= |name| || name[i] != 'n' then None
      else
        var j := DigitRun(name, i + 1);
        if j == i + 1 then None else Some(j)
  }

  function PartitionParent(name: string): Option<string> {
    match DiskEnd(name)
    case None => None
    case Some(j) =>
      if j >= |name| || name[j] != 'p' then None
      else
        var k := DigitRun(name, j + 1);
        if k == j + 1 || k != |name| then None else Some(name[..j])
  }

  function LettersParent(name: string): Option<string> {
    var i := LowerRun(name, 0);
    if i == 0 || i == |name| || DigitRun(name, i) != |name| then None else Some(name[..i])
  }

  /** `nvme_partition_parent`. */
  method NvmePartitionParent(name: string) returns (r: Option<string>)
    ensures r == PartitionParent(name)
  {
    if !("nvme" <= name) {
      return None;
    }
    var i := ScanDigits(name, 4);
    if i == 4 || i >= |name| || name[i] != 'n' {
      return None;
    }
    var j := ScanDigits(name, i + 1);
    if j == i + 1 || j >= |name| || name[j] != 'p' {
      return None;
    }
    var k := ScanDigits(name, j + 1);
    if k == j + 1 || k != |name| {
      return None;
    }
    return Some(name[..j]);
  }

  /** `letters_then_digits_parent`. */
  method LettersThenDigitsParent(name: string) returns (r: Option<string>)
    ensures r == LettersParent(name)
  {
    var i := 0;
    while i < |name| && IsLower(name[i])
      invariant i <= |name| && LowerRun(name, 0) == LowerRun(name, i)
    {
      i := i + 1;
    }
    if i == 0 || i == |name| {
      return None;
    }
    var end := ScanDigits(name, i);
    if end != |name| {
      return None;
    }
    return Some(name[..i]);
  }

  /** `is_nvme_whole_disk`. */
  method IsNvmeWholeDisk(name: string) returns (r: bool)
    ensures r <==> NvmeDisk(name)
  {
    DiskIff(name);
    if !("nvme" <= name) {
      return false;
    }
    var i := ScanDigits(name, 4);
    if i == 4 || i >= |name| || name[i] != 'n' {
      return false;
    }
    var j := ScanDigits(name, i + 1);
    return j > i + 1 && j == |name|;
  }

  // ----- the scanners accept exactly the patterns ----------------------------------------------

  /** The scan ends where the digits end. */
  lemma {:induction false} DigitRunEnds(b: string, i: nat, end: nat)
    requires i <= end <= |b| && (forall j :: i <= j < end ==> IsDigit(b[j])) && (end < |b| ==> !IsDigit(b[end]))
    ensures DigitRun(b, i) == end
    decreases end - i
  {
    if i < end {
      DigitRunEnds(b, i + 1, end);
    }
  }

  lemma {:induction false} LowerRunEnds(b: string, i: nat, end: nat)
    requires i <= end <= |b| && (forall j :: i <= j < end ==> IsLower(b[j])) && (end < |b| ==> !IsLower(b[end]))
    ensures LowerRun(b, i) == end
    decreases end - i
  {
    if i < end {
      LowerRunEnds(b, i + 1, end);
    }
  }

  /** On `nvme<a>n<b>` followed by a non-digit or nothing, the scan stops right behind `b`. */
  lemma DiskEndAt(a: string, b: string, rest: string)
    requires Digits(a) && Digits(b) && (rest != [] ==> !IsDigit(rest[0]))
    ensures DiskEnd("nvme" + a + "n" + b + rest) == Some(4 + |a| + 1 + |b|)
  {
    var name := "nvme" + a + "n" + b + rest;
    var i := 4 + |a|;
    assert name[..4] == "nvme";
    assert forall j :: 4 <= j < i ==> name[j] == a[j - 4];
    assert name[i] == 'n';
    DigitRunEnds(name, 4, i);
    assert forall j :: i + 1 <= j < i + 1 + |b| ==> name[j] == b[j - i - 1];
    assert rest != [] ==> name[i + 1 + |b|] == rest[0];
    DigitRunEnds(name, i + 1, i + 1 + |b|);
  }

  /** Where the scan stops, `nvme<a>n<b>` lies in front. */
  lemma DiskEndParts(name: string) returns (a: string, b: string)
    requires DiskEnd(name).Some?
    ensures Digits(a) && Digits(b) && name[..DiskEnd(name).value] == "nvme" + a + "n" + b
  {
    var i := DigitRun(name, 4);
    var j := DigitRun(name, i + 1);
    a, b := name[4..i], name[i + 1..j];
    assert name[..j] == name[..4] + a + [name[i]] + b;
  }

  lemma DiskIff(name: string)
    ensures NvmeDisk(name) <==> DiskEnd(name) == Some(|name|)
  {
    if DiskEnd(name) == Some(|name|) {
      var a, b := DiskEndParts(name);
      assert name[..|name|] == name;
    }
    if NvmeDisk(name) {
      var a, b :| Digits(a) && Digits(b) && name == "nvme" + a + "n" + b;
      DiskEndAt(a, b, []);
      assert "nvme" + a + "n" + b + [] == name;
    }
  }

  lemma PartitionMatches(a: string, b: string, c: string)
    requires Digits(a) && Digits(b) && Digits(c)
    ensures PartitionParent("nvme" + a + "n" + b + "p" + c) == Some("nvme" + a + "n" + b)
  {
    var parent := "nvme" + a + "n" + b;
    var name := parent + "p" + c;
    DiskEndAt(a, b, "p" + c);
    assert name == parent + ("p" + c);
    var j := |parent|;
    assert name[j] == 'p' && forall k :: j + 1 <= k < |name| ==> name[k] == c[k - j - 1];
    DigitRunEnds(name, j + 1, |name|);
    assert name[..j] == parent;
  }

  lemma MatchesArePartitions(name: string)
    requires PartitionParent(name).Some?
    ensures NvmePartition(name, PartitionParent(name).value)
  {
    var j := DiskEnd(name).value;
    var a, b := DiskEndParts(name);
    var c := name[j + 1..];
    assert name == name[..j] + [name[j]] + c;
    assert Digits(c);
  }

  /** `nvme_partition_parent` accepts exactly its pattern and cuts at group 1. */
  lemma PartitionParentIff(name: string, parent: string)
    ensures PartitionParent(name) == Some(parent) <==> NvmePartition(name, parent)
  {
    if PartitionParent(name) == Some(parent) {
      MatchesArePartitions(name);
    }
    if NvmePartition(name, parent) {
      var a, b, c :| Digits(a) && Digits(b) && Digits(c) && parent == "nvme" + a + "n" + b && name == parent + "p" + c;
      PartitionMatches(a, b, c);
    }
  }

  /** `letters_then_digits_parent` accepts exactly its pattern and cuts at group 1. */
  lemma LettersParentIff(name: string, letters: string)
    ensures LettersParent(name) == Some(letters) <==> LettersDigits(name, letters)
  {
    if LettersParent(name) == Some(letters) {
      var i := LowerRun(name, 0);
      assert name == name[..i] + name[i..] && Digits(name[i..]);
    }
    if LettersDigits(name, letters) {
      var d :| Digits(d) && name == letters + d;
      assert forall j :: |letters| <= j < |name| ==> name[j] == d[j - |letters|];
      LowerRunEnds(name, 0, |letters|);
      DigitRunEnds(name, |letters|, |name|);
      assert name[..|letters|] == letters;
    }
  }

  // ----- parents -------------------------------------------------------------------------------

  /** The part behind the last slash. */
  function Basename(device: string): (r: string)
    ensures '/' !in r
  {
    if device == [] || device[|device| - 1] == '/' then []
    else Basename(device[..|device| - 1]) + [device[|device| - 1]]
  }

  /** `parent_device_name`. */
  function ParentDeviceName(device: string): string {
    var base := Basename(device);
    if PartitionParent(base).Some? then PartitionParent(base).value
    else if LettersParent(base).Some? then LettersParent(base).value
    else base
  }

  lemma {:induction false} BasenameOfName(s: string)
    requires '/' !in s
    ensures Basename(s) == s
  {
    if s != [] {
      assert s[|s| - 1] in s;
      BasenameOfName(s[..|s| - 1]);
    }
  }

  /** The base name is what follows the last slash, or the whole path if it holds none. */
  lemma {:induction false} BasenameFollowsLastSlash(device: string)
    ensures '/' in device <==>
      exists dir :: device == dir + "/" + Basename(device)
    ensures '/' !in Basename(device)
    ensures '/' !in device ==> Basename(device) == device
  {
    if '/' !in device {
      BasenameOfName(device);
    } else {
      var dir := Directory(device);
      assert device == dir + "/" + Basename(device);
    }
  }

  /** The part in front of the last slash. */
  lemma {:induction false} Directory(device: string) returns (dir: string)
    requires '/' in device
    ensures device == dir + "/" + Basename(device)
  {
    var n := |device| - 1;
    if device[n] == '/' {
      dir := device[..n];
      assert device == dir + "/" + [];
    } else {
      assert device == device[..n] + [device[n]];
      dir := Directory(device[..n]);
      assert device == dir + "/" + (Basename(device[..n]) + [device[n]]);
    }
  }

  lemma {:induction false} BasenameOfSuffixed(device: string, suffix: string)
    requires '/' !in suffix
    ensures Basename(device + suffix) == Basename(device) + suffix
  {
    if suffix == [] {
      assert device + suffix == device;
    } else {
      var init := suffix[..|suffix| - 1];
      BasenameOfSuffixed(device, init);
      assert suffix[|suffix| - 1] in suffix;
      assert (device + suffix)[..|device + suffix| - 1] == device + init;
      assert suffix == init + [suffix[|suffix| - 1]];
    }
  }

  /** The parent of a device, by the two patterns on its base name; a name matching neither is its own parent. */
  lemma {:induction false} ParentIsByPattern(device: string, parent: string)
    ensures ParentDeviceName(device) == parent <==>
      var base := Basename(device);
      NvmePartition(base, parent) || LettersDigits(base, parent) ||
      (parent == base && (forall p :: !NvmePartition(base, p)) && (forall p :: !LettersDigits(base, p)))
  {
    var base := Basename(device);
    forall p
      ensures PartitionParent(base) == Some(p) <==> NvmePartition(base, p)
      ensures LettersParent(base) == Some(p) <==> LettersDigits(base, p)
    {
      PartitionParentIff(base, p);
      LettersParentIff(base, p);
    }
    if PartitionParent(base).Some? {
      var p := PartitionParent(base).value;
      assert NvmePartition(base, p);
      PartitionIsNotLetters(base, p);
    }
    if LettersParent(base).Some? {
      assert LettersDigits(base, LettersParent(base).value);
    }
  }

  /** No name matches both patterns. */
  lemma PartitionIsNotLetters(name: string, parent: string)
    requires NvmePartition(name, parent)
    ensures LettersParent(name).None?
  {
    var a, b, c :| Digits(a) && Digits(b) && Digits(c) && parent == "nvme" + a + "n" + b && name == parent + "p" + c;
    assert forall j :: 0 <= j < 4 ==> name[j] == "nvme"[j];
    assert IsDigit(name[4]) by { assert name[4] == a[0]; }
    LowerRunEnds(name, 0, 4);
    var i := 4 + |a|;
    assert name[i] == 'n' && forall j :: 4 <= j < i ==> name[j] == a[j - 4];
    DigitRunEnds(name, 4, i);
  }

  /** Names that are already a disk: `nvme<a>n<b>` has no parent. */
  lemma NvmeDiskHasNoParent(name: string)
    requires NvmeDisk(name)
    ensures PartitionParent(name).None? && LettersParent(name).None?
  {
    DiskIff(name);
    var a, b := DiskEndParts(name);
    assert name[..|name|] == name;
    assert IsDigit(name[4]) by { assert name[4] == a[0]; }
    assert forall j :: 0 <= j < 4 ==> name[j] == "nvme"[j];
    LowerRunEnds(name, 0, 4);
    var i := 4 + |a|;
    assert name[i] == 'n' && forall j :: 4 <= j < i ==> name[j] == a[j - 4];
    DigitRunEnds(name, 4, i);
  }

  lemma LettersHaveNoParent(name: string)
    requires AllLower(name)
    ensures PartitionParent(name).None? && LettersParent(name).None?
  {
    LowerRunEnds(name, 0, |name|);
  }

  /** Taking the parent twice is taking it once, on every string. */
  lemma ParentIsIdempotent(device: string)
    ensures ParentDeviceName(ParentDeviceName(device)) == ParentDeviceName(device)
  {
    var base := Basename(device);
    var parent := ParentDeviceName(device);
    assert '/' !in parent;
    BasenameOfName(parent);
    if PartitionParent(base).Some? {
      PartitionParentIff(base, parent);
      NvmeDiskHasNoParent(parent);
    } else if LettersParent(base).Some? {
      LettersParentIff(base, parent);
      LettersHaveNoParent(parent);
    }
  }

  /** The partition a whole-disk format creates: nvme disks get a "p" separator. */
  function PartitionName(device: string): string {
    if DiskEnd(Basename(device)) == Some(|Basename(device)|) then device + "p1" else device + "1"
  }

  /** The partition's path is the disk's, with "p1" behind an nvme disk and "1" behind any other. */
  lemma {:induction false} PartitionNameIs(device: string)
    ensures NvmeDisk(Basename(device)) ==> PartitionName(device) == device + "p1"
    ensures !NvmeDisk(Basename(device)) ==> PartitionName(device) == device + "1"
  {
    DiskIff(Basename(device));
  }

  /**
   * The created partition names its disk as parent exactly for nvme whole disks and all-letters disk
   * names; for any other name - "mmcblk0" is one - it does not.
   */
  lemma {:induction false} PartitionNamesItsDiskIff(device: string)
    ensures var base := Basename(device);
            ParentDeviceName(PartitionName(device)) == base <==> NvmeDisk(base) || (base != "" && AllLower(base))
  {
    var base := Basename(device);
    DiskIff(base);
    if NvmeDisk(base) {
      BasenameOfSuffixed(device, "p1");
      var a, b :| Digits(a) && Digits(b) && base == "nvme" + a + "n" + b;
      assert Digits("1") && base + "p1" == base + "p" + "1";
      assert NvmePartition(base + "p1", base);
      PartitionParentIff(base + "p1", base);
    } else {
      BasenameOfSuffixed(device, "1");
      var name := base + "1";
      LettersParentIff(name, base);
      if base != "" && AllLower(base) {
        assert Digits("1");
        assert LettersDigits(name, base);
        NoPartitionAmongLetters(base);
      } else {
        assert LettersParent(name) != Some(base);
        assert PartitionParent(name).Some? ==> |PartitionParent(name).value| < |base|;
      }
    }
  }

  lemma NoPartitionAmongLetters(base: string)
    requires AllLower(base)
    ensures PartitionParent(base + "1").None?
  {
    var name := base + "1";
    if "nvme" <= name {
      DigitRunEnds(name, 4, if |base| == 4 then 5 else 4);
    }
  }

  lemma NvmeStartsWithN(name: string)
    requires NvmeDisk(name)
    ensures name != "" && name[0] == 'n'
  {
    var a, b :| Digits(a) && Digits(b) && name == "nvme" + a + "n" + b;
    assert name[..4] == "nvme";
  }

  /** A name on which the two naming functions disagree: that of an SD card slot. */
  lemma SdCardPartitionIsNotItsOwn()
    ensures PartitionName("/dev/mmcblk0") == "/dev/mmcblk01"
    ensures ParentDeviceName(PartitionName("/dev/mmcblk0")) != "mmcblk0"
  {
    var base := "mmcblk0";
    BasenameOfSuffixed("/dev/", base);
    assert "/dev/" + base == "/dev/mmcblk0";
    assert base[6] == '0' && !IsLower(base[6]) && base[0] == 'm';
    if NvmeDisk(base) {
      NvmeStartsWithN(base);
    }
    PartitionNamesItsDiskIff("/dev/mmcblk0");
  }
}
