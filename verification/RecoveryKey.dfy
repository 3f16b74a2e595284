/** Recovery keys in systemd's modhex format (recovery.rs), as a function of the 32 random bytes. */
module RecoveryKey {
  import opened Common

  const MODHEX := "cbdefghijklnrtuv"

  predicate IsModhex(c: char) {
    c in MODHEX
  }

  /** Two characters a byte, high nibble first. */
  function Chars(raw: Bytes): (s: string)
    ensures |s| == 2 * |raw|
  {
    if raw == [] then [] else Pair(raw[0]) + Chars(raw[1..])
  }

  function Pair(b: Byte): (s: string)
    ensures |s| == 2
  {
    [MODHEX[b / 16], MODHEX[b % 16]]
  }

  /** `chunks(8)` joined with dashes. */
  function Grouped(chars: string): string {
    if |chars| <= 8 then chars else chars[..8] + ['-'] + Grouped(chars[8..])
  }

  /** `make_recovery_key` for given random bytes. */
  function MakeRecoveryKey(raw: Bytes): string {
    Grouped(Chars(raw))
  }

  /** Reading a key back: drop the dashes, then pair up nibbles. */
  function WithoutDashes(key: string): string {
    if key == [] then [] else (if key[0] == '-' then [] else [key[0]]) + WithoutDashes(key[1..])
  }

  ghost function Nibble(c: char): (n: nat)
    requires IsModhex(c)
    ensures n < 16 && MODHEX[n] == c
  {
    var n: nat :| n < 16 && MODHEX[n] == c;
    n
  }

  ghost function ReadPair(hi: char, lo: char): Option<Byte> {
    if IsModhex(hi) && IsModhex(lo) then Some(Nibble(hi) * 16 + Nibble(lo)) else None
  }

  /** Characters as nibble pairs; anything that is not modhex reads as no key at all. */
  ghost function Unpaired(chars: string): Option<Bytes> {
    if chars == [] then Some([])
    else if |chars| == 1 || ReadPair(chars[0], chars[1]).None? then None
    else
      match Unpaired(chars[2..])
      case None => None
      case Some(rest) => Some([ReadPair(chars[0], chars[1]).value] + rest)
  }

  lemma NibbleOfDigit(n: nat)
    requires n < 16
    ensures IsModhex(MODHEX[n]) && MODHEX[n] != '-' && Nibble(MODHEX[n]) == n
  {
    Distinct16(n, Nibble(MODHEX[n]));
  }

  /** The sixteen modhex characters are distinct. */
  lemma Distinct16(i: nat, j: nat)
    requires i < 16 && j < 16 && MODHEX[i] == MODHEX[j]
    ensures i == j
  {
    assert MODHEX == ['c', 'b', 'd', 'e', 'f', 'g', 'h', 'i', 'j', 'k', 'l', 'n', 'r', 't', 'u', 'v'];
  }

  lemma {:induction false} CharsAreModhex(raw: Bytes)
    ensures forall c :: c in Chars(raw) ==> IsModhex(c) && c != '-'
  {
    if raw != [] {
      NibbleOfDigit(raw[0] / 16);
      NibbleOfDigit(raw[0] % 16);
      CharsAreModhex(raw[1..]);
    }
  }

  lemma ReadPairOfByte(b: Byte)
    ensures ReadPair(MODHEX[b / 16], MODHEX[b % 16]) == Some(b)
  {
    ReadPairOfDigits(b / 16, b % 16);
  }

  lemma ReadPairOfDigits(hi: nat, lo: nat)
    requires hi < 16 && lo < 16
    ensures ReadPair(MODHEX[hi], MODHEX[lo]) == Some(hi * 16 + lo)
  {
    NibbleOfDigit(hi);
    NibbleOfDigit(lo);
    ReadPairOfNibbles(MODHEX[hi], MODHEX[lo], hi, lo);
  }

  lemma ReadPairOfNibbles(c: char, d: char, hi: nat, lo: nat)
    requires IsModhex(c) && IsModhex(d) && Nibble(c) == hi && Nibble(d) == lo
    ensures ReadPair(c, d) == Some(hi * 16 + lo)
  {
  }

  lemma {:induction false} UnpairedStep(b: Byte, hi: char, lo: char, chars: string, rest: Bytes)
    requires ReadPair(hi, lo) == Some(b) && Unpaired(chars) == Some(rest)
    ensures Unpaired([hi, lo] + chars) == Some([b] + rest)
  {
    var s := [hi, lo] + chars;
    assert s[2..] == chars;
  }

  lemma {:induction false} UnpairedOfPair(b: Byte, chars: string, rest: Bytes)
    requires Unpaired(chars) == Some(rest)
    ensures Unpaired(Pair(b) + chars) == Some([b] + rest)
  {
    ReadPairOfByte(b);
    UnpairedStep(b, MODHEX[b / 16], MODHEX[b % 16], chars, rest);
  }

  lemma {:induction false} UnpairedOfChars(raw: Bytes)
    ensures Unpaired(Chars(raw)) == Some(raw)
  {
    if raw != [] {
      UnpairedOfChars(raw[1..]);
      UnpairedOfPair(raw[0], Chars(raw[1..]), raw[1..]);
      assert [raw[0]] + raw[1..] == raw;
    }
  }

  lemma {:induction false} DashesDrop(a: string, rest: string)
    requires '-' !in a
    ensures WithoutDashes(a + rest) == a + WithoutDashes(rest)
  {
    if a == [] {
      assert a + rest == rest;
    } else {
      assert a[0] in a && (a + rest)[1..] == a[1..] + rest;
      DashesDrop(a[1..], rest);
    }
  }

  lemma {:induction false} WithoutDashesOfGrouped(chars: string)
    requires '-' !in chars
    ensures WithoutDashes(Grouped(chars)) == chars
  {
    if |chars| <= 8 {
      DashesDrop(chars, []);
      assert chars + [] == chars;
    } else {
      WithoutDashesOfGrouped(chars[8..]);
      DashesDrop(chars[..8], ['-'] + Grouped(chars[8..]));
      assert chars[..8] + (['-'] + Grouped(chars[8..])) == Grouped(chars);
      assert (['-'] + Grouped(chars[8..]))[1..] == Grouped(chars[8..]);
      assert chars[..8] + chars[8..] == chars;
    }
  }

  /** Nothing is lost: dropping the dashes and pairing the nibbles gives the random bytes back. */
  lemma RoundTrip(raw: Bytes)
    ensures Unpaired(WithoutDashes(MakeRecoveryKey(raw))) == Some(raw)
  {
    UnpairedOfChars(raw);
    CharsAreModhex(raw);
    WithoutDashesOfGrouped(Chars(raw));
  }

  /** So distinct random bytes give distinct keys. */
  lemma KeysAreDistinct(raw: Bytes, raw': Bytes)
    ensures MakeRecoveryKey(raw) == MakeRecoveryKey(raw') ==> raw == raw'
  {
    RoundTrip(raw);
    RoundTrip(raw');
  }

  lemma {:induction false} GroupedShape(chars: string)
    requires chars != [] && |chars| % 8 == 0
    ensures |Grouped(chars)| == |chars| + |chars| / 8 - 1
    ensures forall i :: 0 <= i < |Grouped(chars)| ==>
              if i % 9 == 8 then Grouped(chars)[i] == '-'
              else i - i / 9 < |chars| && Grouped(chars)[i] == chars[i - i / 9]
  {
    if |chars| > 8 {
      var rest := chars[8..];
      GroupedShape(rest);
      forall i | 0 <= i < |Grouped(chars)|
        ensures if i % 9 == 8 then Grouped(chars)[i] == '-'
                else i - i / 9 < |chars| && Grouped(chars)[i] == chars[i - i / 9]
      {
        if i >= 9 {
          assert Grouped(chars)[i] == Grouped(rest)[i - 9];
          assert (i - 9) % 9 == i % 9 && (i - 9) / 9 == i / 9 - 1;
        }
      }
    }
  }

  /** 32 bytes make 71 characters: dashes exactly between groups of eight, all others modhex. */
  lemma KeyShape(raw: Bytes)
    requires |raw| == 32
    ensures var key := MakeRecoveryKey(raw);
            && |key| == 71
            && forall i :: 0 <= i < 71 ==> (key[i] == '-' <==> i % 9 == 8) && (key[i] != '-' ==> IsModhex(key[i]))
  {
    CharsAreModhex(raw);
    GroupedShape(Chars(raw));
    var key := MakeRecoveryKey(raw);
    forall i | 0 <= i < 71
      ensures (key[i] == '-' <==> i % 9 == 8) && (key[i] != '-' ==> IsModhex(key[i]))
    {
      if i % 9 != 8 { assert key[i] in Chars(raw); }
    }
  }

  /** The sixteen digits, as systemd writes them, the high half of the byte first. */
  lemma ModhexDigits(b: Byte)
    ensures MakeRecoveryKey([b]) == ["cbdefghijklnrtuv"[b / 16], "cbdefghijklnrtuv"[b % 16]]
  {
    assert [b][1..] == [] && Chars([b]) == Pair(b) + Chars([]);
  }
}
