/**
 * The string primitives the service borrows from Rust's standard library: decimal printing and
 * parsing of signed integers, trimming, and splitting and joining on '+'.
 */
module Text {
  import opened Common

  predicate IsDigit(c: char) {
    '0' <= c <= '9'
  }

  predicate AllDigits(s: string) {
    forall i :: 0 <= i < |s| ==> IsDigit(s[i])
  }

  function DigitOf(n: nat): (c: char)
    requires n < 10
    ensures IsDigit(c)
  {
    ('0' as int + n) as char
  }

  function ShowNat(n: nat): (s: string)
    ensures s != [] && AllDigits(s)
  {
    if n < 10 then [DigitOf(n)] else ShowNat(n / 10) + [DigitOf(n % 10)]
  }

  function Show(n: int): (s: string)
    ensures s != []
    ensures '+' !in s
  {
    if n < 0 then
      assert '+' !in ShowNat(-n);
      "-" + ShowNat(-n)
    else
      ShowNat(n)
  }

  function NatValue(s: string): nat
    requires AllDigits(s)
  {
    if s == [] then 0 else 10 * NatValue(s[..|s| - 1]) + (s[|s| - 1] as int - '0' as int)
  }

  /** An optional sign, then one or more digits, then a range check: `str::parse` for integers. */
  function ParseInt(s: string, low: int, high: int): Option<int> {
    var negative := s != [] && s[0] == '-';
    var digits := if s != [] && (s[0] == '-' || s[0] == '+') then s[1..] else s;
    if digits == [] || !AllDigits(digits) then
      None
    else
      var magnitude: int := NatValue(digits);
      var n := if negative then -magnitude else magnitude;
      if low <= n <= high then Some(n) else None
  }

  function ParseI64(s: string): Option<int> {
    ParseInt(s, -0x8000_0000_0000_0000, 0x7fff_ffff_ffff_ffff)
  }

  function ParseI32(s: string): Option<int> {
    ParseInt(s, -0x8000_0000, 0x7fff_ffff)
  }

  lemma {:induction false} NatValueOfShowNat(n: nat)
    ensures NatValue(ShowNat(n)) == n
  {
    if n < 10 {
      assert ShowNat(n)[..0] == [];
    } else {
      NatValueOfShowNat(n / 10);
      assert ShowNat(n)[..|ShowNat(n)| - 1] == ShowNat(n / 10);
    }
  }

  /** Printing then parsing gives the number back, for every value the range allows. */
  lemma ParseOfShow(n: int, low: int, high: int)
    requires low <= n <= high
    ensures ParseInt(Show(n), low, high) == Some(n)
  {
    if n < 0 { ParseOfMinus(-n, low, high); } else { ParseOfNat(n, low, high); }
  }

  lemma {:induction false} ParseOfNat(n: nat, low: int, high: int)
    requires low <= n <= high
    ensures ParseInt(ShowNat(n), low, high) == Some(n)
  {
    NatValueOfShowNat(n);
    assert IsDigit(ShowNat(n)[0]);
  }

  lemma {:induction false} ParseOfMinus(n: int, low: int, high: int)
    requires n >= 0 && low <= -n <= high
    ensures var r := ParseInt(['-'] + ShowNat(n), low, high); r.Some? && r.value == -n
  {
    NatValueOfShowNat(n);
    var s := ['-'] + ShowNat(n);
    assert s[1..] == ShowNat(n);
  }

  /** `char::is_whitespace`: the Unicode White_Space property. */
  predicate IsSpace(c: char) {
    var n := c as int;
    || 0x09 <= n <= 0x0d || n == 0x20 || n == 0x85 || n == 0xa0 || n == 0x1680
    || 0x2000 <= n <= 0x200a || n == 0x2028 || n == 0x2029 || n == 0x202f || n == 0x205f || n == 0x3000
  }

  function TrimStart(s: string): string {
    if s != [] && IsSpace(s[0]) then TrimStart(s[1..]) else s
  }

  function TrimEnd(s: string): string {
    if s != [] && IsSpace(s[|s| - 1]) then TrimEnd(s[..|s| - 1]) else s
  }

  function Trim(s: string): string {
    TrimEnd(TrimStart(s))
  }

  lemma TrimNumber(n: int)
    ensures Trim(Show(n)) == Show(n)
  {
    var s := Show(n);
    var digits := if n < 0 then ShowNat(-n) else ShowNat(n);
    assert s[|s| - 1] == digits[|digits| - 1];
    assert IsDigit(s[|s| - 1]);
    assert s[0] == '-' || IsDigit(s[0]);
  }

  /** Trimming cuts white space off both ends, and all of it. */
  lemma {:induction false} TrimCuts(s: string) returns (front: string, back: string)
    ensures s == front + Trim(s) + back
    ensures (forall c :: c in front + back ==> IsSpace(c))
    ensures Trim(s) != [] ==> !IsSpace(Trim(s)[0]) && !IsSpace(Trim(s)[|Trim(s)| - 1])
  {
    front := StartCut(s);
    back := EndCut(TrimStart(s));
  }

  lemma {:induction false} StartCut(s: string) returns (front: string)
    ensures s == front + TrimStart(s) && forall c :: c in front ==> IsSpace(c)
    ensures TrimStart(s) != [] ==> !IsSpace(TrimStart(s)[0])
  {
    front := [];
    if s != [] && IsSpace(s[0]) {
      front := StartCut(s[1..]);
      front := [s[0]] + front;
      assert s == [s[0]] + s[1..];
    }
  }

  lemma {:induction false} EndCut(s: string) returns (back: string)
    ensures s == TrimEnd(s) + back && forall c :: c in back ==> IsSpace(c)
    ensures TrimEnd(s) != [] ==> !IsSpace(TrimEnd(s)[|TrimEnd(s)| - 1]) && TrimEnd(s)[0] == s[0]
  {
    back := [];
    if s != [] && IsSpace(s[|s| - 1]) {
      back := EndCut(s[..|s| - 1]);
      back := back + [s[|s| - 1]];
      assert s == s[..|s| - 1] + [s[|s| - 1]];
    }
  }

  /** Space, the ASCII controls from tab to carriage return, and the no-break and ideographic spaces are such. */
  lemma WhiteSpace(c: char)
    ensures c in " \t\n\r" || c as int in {0x0b, 0x0c, 0x85, 0xa0, 0x1680, 0x2028, 0x2029, 0x202f, 0x205f, 0x3000} ==>
              IsSpace(c)
    ensures '!' <= c <= '~' ==> !IsSpace(c)
  {
    assert " \t\n\r" == [' ', '\t', '\n', '\r'];
  }

  /** `str::split('+')`: always at least one piece. */
  function Split(s: string): (parts: seq<string>)
    ensures parts != []
  {
    if s == [] then [[]]
    else
      var rest := Split(s[1..]);
      if s[0] == '+' then [[]] + rest else [[s[0]] + rest[0]] + rest[1..]
  }

  /** `[..].join("+")`. */
  function Join(parts: seq<string>): string {
    if parts == [] then []
    else if |parts| == 1 then parts[0]
    else parts[0] + ['+'] + Join(parts[1..])
  }

  lemma {:induction false} SplitPiece(p: string)
    requires '+' !in p
    ensures Split(p) == [p]
  {
    if p != [] {
      assert p[0] in p;
      SplitPiece(p[1..]);
      assert [p[0]] + p[1..] == p;
    }
  }

  lemma {:induction false} SplitFirst(p: string, rest: string)
    requires '+' !in p
    ensures Split(p + ['+'] + rest) == [p] + Split(rest)
  {
    if p == [] {
      assert (p + ['+'] + rest)[1..] == rest;
    } else {
      assert p[0] in p;
      SplitFirst(p[1..], rest);
      assert (p + ['+'] + rest)[1..] == p[1..] + ['+'] + rest;
      assert [p[0]] + p[1..] == p;
    }
  }

  /** Splitting undoes joining when no piece holds the separator. */
  lemma {:induction false} SplitOfJoin(parts: seq<string>)
    requires parts != []
    requires forall i :: 0 <= i < |parts| ==> '+' !in parts[i]
    ensures Split(Join(parts)) == parts
  {
    if |parts| == 1 {
      SplitPiece(parts[0]);
    } else {
      SplitOfJoin(parts[1..]);
      SplitFirst(parts[0], Join(parts[1..]));
    }
  }

  /** A number outside the range is not parsed to anything. */
  lemma {:induction false} ParseOutOfRange(n: nat, low: int, high: int)
    requires n > high
    ensures ParseInt(ShowNat(n), low, high) == None
  {
    NatValueOfShowNat(n);
    assert IsDigit(ShowNat(n)[0]);
  }

  lemma {:induction false} ParseBelowRange(n: int, low: int, high: int)
    requires n >= 0 && -n < low
    ensures ParseInt(['-'] + ShowNat(n), low, high) == None
  {
    NatValueOfShowNat(n);
    var s := ['-'] + ShowNat(n);
    assert s[1..] == ShowNat(n);
  }

  /** A written number is parsed exactly if it fits into 32, or 64, bits with sign. */
  lemma {:induction false} ParsedIffFits(n: int)
    ensures ParseI32(Show(n)) == if -2_147_483_648 <= n <= 2_147_483_647 then Some(n) else None
    ensures ParseI64(Show(n))
         == if -9_223_372_036_854_775_808 <= n <= 9_223_372_036_854_775_807 then Some(n) else None
  {
    FitsIff(n, -2_147_483_648, 2_147_483_647);
    FitsIff(n, -9_223_372_036_854_775_808, 9_223_372_036_854_775_807);
  }

  lemma FitsIff(n: int, low: int, high: int)
    requires low <= 0 <= high
    ensures ParseInt(Show(n), low, high) == if low <= n <= high then Some(n) else None
  {
    if low <= n <= high {
      ParseOfShow(n, low, high);
    } else if n < 0 {
      ParseBelowRange(-n, low, high);
    } else {
      ParseOutOfRange(n, low, high);
    }
  }

  /** What `str::parse` takes besides decimal digits: one sign. */
  lemma {:induction false} SignsAndJunk()
    ensures ParseI32("") == None && ParseI32("+") == None && ParseI32("-") == None && ParseI32("x") == None
    ensures ParseI32("7x") == None && ParseI32(" 7") == None && ParseI32("--7") == None
    ensures ParseI32("+7") == Some(7) && ParseI32("-7") == Some(-7) && ParseI32("007") == Some(7)
  {
    assert "+7"[1..] == "7" && "-7"[1..] == "7" && "--7"[1..] == "-7" && "+"[1..] == "" && "-"[1..] == "";
    assert NatValue("7") == 7 by { assert "7"[..0] == ""; }
    assert NatValue("007") == 7 by { assert "007"[..2] == "00" && "00"[..1] == "0" && "0"[..0] == ""; }
    assert !IsDigit("x"[0]) && !IsDigit("7x"[1]) && !IsDigit(" 7"[0]) && !IsDigit("-7"[0]);
  }
}
