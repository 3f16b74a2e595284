/**
 * Standard base64 with padding (section 4 of RFC 4648), as the systemd token plug-ins expect it:
 * secrets, credential ids, salts and sealed blobs all pass through it.
 */
module Base64 {
  import opened Common

  function Digit(n: nat): char
    requires n < 64
  {
    if n < 26 then ('A' as int + n) as char
    else if n < 52 then ('a' as int + n - 26) as char
    else if n < 62 then ('0' as int + n - 52) as char
    else if n == 62 then '+'
    else '/'
  }

  function Value(c: char): (r: Option<nat>)
    ensures r.Some? ==> r.value < 64
  {
    if 'A' <= c <= 'Z' then Some(c as int - 'A' as int)
    else if 'a' <= c <= 'z' then Some(c as int - 'a' as int + 26)
    else if '0' <= c <= '9' then Some(c as int - '0' as int + 52)
    else if c == '+' then Some(62)
    else if c == '/' then Some(63)
    else None
  }

  /** The four characters of a full quantum. */
  function Group(b0: Byte, b1: Byte, b2: Byte): (s: string)
    ensures |s| == 4
  {
    [Digit(b0 / 4), Digit(b0 % 4 * 16 + b1 / 16), Digit(b1 % 16 * 4 + b2 / 64), Digit(b2 % 64)]
  }

  /** The last one or two bytes, padded. */
  function Tail(b: Bytes): (s: string)
    requires 1 <= |b| <= 2
    ensures |s| == 4
  {
    if |b| == 1 then [Digit(b[0] / 4), Digit(b[0] % 4 * 16), '=', '=']
    else [Digit(b[0] / 4), Digit(b[0] % 4 * 16 + b[1] / 16), Digit(b[1] % 16 * 4), '=']
  }

  function Encode(b: Bytes): string {
    if b == [] then []
    else if |b| < 3 then Tail(b)
    else Group(b[0], b[1], b[2]) + Encode(b[3..])
  }

  /** One quantum; padding is accepted only in the last one, and only over zero bits. */
  function Quantum(c0: char, c1: char, c2: char, c3: char, last: bool): Option<Bytes> {
    if Value(c0).None? || Value(c1).None? then None
    else
      var v0, v1 := Value(c0).value, Value(c1).value;
      if last && c2 == '=' && c3 == '=' then
        if v1 % 16 == 0 then Some([v0 * 4 + v1 / 16]) else None
      else if Value(c2).None? then None
      else
        var v2 := Value(c2).value;
        if last && c3 == '=' then
          if v2 % 4 == 0 then Some([v0 * 4 + v1 / 16, v1 % 16 * 16 + v2 / 4]) else None
        else if Value(c3).None? then None
        else Some([v0 * 4 + v1 / 16, v1 % 16 * 16 + v2 / 4, v2 % 4 * 64 + Value(c3).value])
  }

  /** Strict decoding: whole quanta, padding only at the end, unused bits zero. */
  function Decode(s: string): Option<Bytes> {
    if s == [] then Some([])
    else if |s| < 4 then None
    else
      match Quantum(s[0], s[1], s[2], s[3], |s| == 4)
      case None => None
      case Some(bytes) =>
        match Decode(s[4..])
        case None => None
        case Some(rest) => Some(bytes + rest)
  }

  lemma ValueOfDigit(n: nat)
    requires n < 64
    ensures Value(Digit(n)) == Some(n) && Digit(n) != '='
  {
  }

  lemma QuantumOfValues(v0: nat, v1: nat, v2: nat, v3: nat, last: bool)
    requires v0 < 64 && v1 < 64 && v2 < 64 && v3 < 64
    ensures Quantum(Digit(v0), Digit(v1), Digit(v2), Digit(v3), last)
         == Some([v0 * 4 + v1 / 16, v1 % 16 * 16 + v2 / 4, v2 % 4 * 64 + v3])
    ensures v2 % 4 == 0 ==>
      Quantum(Digit(v0), Digit(v1), Digit(v2), '=', true) == Some([v0 * 4 + v1 / 16, v1 % 16 * 16 + v2 / 4])
    ensures v1 % 16 == 0 ==> Quantum(Digit(v0), Digit(v1), '=', '=', true) == Some([v0 * 4 + v1 / 16])
  {
    ValueOfDigit(v0);
    ValueOfDigit(v1);
    ValueOfDigit(v2);
    ValueOfDigit(v3);
  }

  lemma Recombine(b0: Byte, b1: Byte, b2: Byte)
    ensures b0 / 4 * 4 + (b0 % 4 * 16 + b1 / 16) / 16 == b0
    ensures (b0 % 4 * 16 + b1 / 16) % 16 * 16 + (b1 % 16 * 4 + b2 / 64) / 4 == b1
    ensures (b1 % 16 * 4 + b2 / 64) % 4 * 64 + b2 % 64 == b2
  {
  }

  /** Each shape `Encode` emits decodes to the bytes it came from. */
  lemma QuantumOfGroup(b0: Byte, b1: Byte, b2: Byte, last: bool)
    ensures var s := Group(b0, b1, b2); Quantum(s[0], s[1], s[2], s[3], last) == Some([b0, b1, b2])
  {
    QuantumOfValues(b0 / 4, b0 % 4 * 16 + b1 / 16, b1 % 16 * 4 + b2 / 64, b2 % 64, last);
    Recombine(b0, b1, b2);
  }

  lemma QuantumOfOne(b0: Byte)
    ensures Quantum(Digit(b0 / 4), Digit(b0 % 4 * 16), '=', '=', true) == Some([b0])
  {
    QuantumOfValues(b0 / 4, b0 % 4 * 16, 0, 0, true);
    Recombine(b0, 0, 0);
  }

  lemma QuantumOfTwo(b0: Byte, b1: Byte)
    ensures Quantum(Digit(b0 / 4), Digit(b0 % 4 * 16 + b1 / 16), Digit(b1 % 16 * 4), '=', true) == Some([b0, b1])
  {
    QuantumOfValues(b0 / 4, b0 % 4 * 16 + b1 / 16, b1 % 16 * 4, 0, true);
    Recombine(b0, b1, 0);
  }

  lemma QuantumOfTail(b: Bytes)
    requires 1 <= |b| <= 2
    ensures var s := Tail(b); Quantum(s[0], s[1], s[2], s[3], true) == Some(b)
  {
    if |b| == 1 {
      QuantumOfOne(b[0]);
      assert b == [b[0]];
    } else {
      QuantumOfTwo(b[0], b[1]);
      assert b == [b[0], b[1]];
    }
  }

  /** One step of `Decode`. */
  lemma {:induction false} DecodeStep(head: string, bytes: Bytes, tail: string, rest: Bytes)
    requires |head| == 4 && Quantum(head[0], head[1], head[2], head[3], tail == []) == Some(bytes)
    requires Decode(tail) == Some(rest)
    ensures Decode(head + tail) == Some(bytes + rest)
  {
    assert (head + tail)[4..] == tail;
  }

  lemma {:induction false} RoundTripGroup(b0: Byte, b1: Byte, b2: Byte, tail: Bytes, e: string)
    requires Decode(e) == Some(tail)
    ensures Decode(Group(b0, b1, b2) + e) == Some([b0, b1, b2] + tail)
  {
    QuantumOfGroup(b0, b1, b2, e == []);
    DecodeStep(Group(b0, b1, b2), [b0, b1, b2], e, tail);
  }

  lemma RoundTripTail(b: Bytes)
    requires 1 <= |b| <= 2
    ensures Decode(Tail(b)) == Some(b)
  {
    QuantumOfTail(b);
    DecodeStep(Tail(b), b, [], []);
    assert Tail(b) + [] == Tail(b) && b + [] == b;
  }

  /** Decoding undoes encoding, so the encoding is injective. */
  lemma {:induction false} RoundTrip(b: Bytes)
    ensures Decode(Encode(b)) == Some(b)
  {
    if b == [] {
    } else if |b| < 3 {
      RoundTripTail(b);
    } else {
      RoundTrip(b[3..]);
      RoundTripGroup(b[0], b[1], b[2], b[3..], Encode(b[3..]));
      assert [b[0], b[1], b[2]] + b[3..] == b;
    }
  }

  // ----- nothing else decodes ------------------------------------------------------------------

  lemma DigitOfValue(c: char)
    ensures Value(c).Some? ==> Digit(Value(c).value) == c
  {
  }

  lemma Split24(v0: nat, v1: nat, v2: nat, v3: nat)
    requires v0 < 64 && v1 < 64 && v2 < 64 && v3 < 64
    ensures var b0, b1, b2 := v0 * 4 + v1 / 16, v1 % 16 * 16 + v2 / 4, v2 % 4 * 64 + v3;
            b0 / 4 == v0 && b0 % 4 * 16 + b1 / 16 == v1 && b1 % 16 * 4 + b2 / 64 == v2 && b2 % 64 == v3
  {
    assert (v1 % 16 * 16 + v2 / 4) / 16 == v1 % 16 && (v1 % 16 * 16 + v2 / 4) % 16 == v2 / 4;
    assert (v2 % 4 * 64 + v3) / 64 == v2 % 4;
  }

  lemma GroupOfValues(v0: nat, v1: nat, v2: nat, v3: nat)
    requires v0 < 64 && v1 < 64 && v2 < 64 && v3 < 64
    ensures Group(v0 * 4 + v1 / 16, v1 % 16 * 16 + v2 / 4, v2 % 4 * 64 + v3)
         == [Digit(v0), Digit(v1), Digit(v2), Digit(v3)]
  {
    Split24(v0, v1, v2, v3);
  }

  lemma TailOfValues(v0: nat, v1: nat, v2: nat)
    requires v0 < 64 && v1 < 64 && v2 < 64
    ensures v2 % 4 == 0 ==>
              Tail([v0 * 4 + v1 / 16, v1 % 16 * 16 + v2 / 4]) == [Digit(v0), Digit(v1), Digit(v2), '=']
    ensures v1 % 16 == 0 ==> Tail([v0 * 4 + v1 / 16]) == [Digit(v0), Digit(v1), '=', '=']
  {
    Split24(v0, v1, v2, 0);
    Split24(v0, v1, 0, 0);
  }

  /** The characters a quantum was read from are the ones its bytes are written as. */
  predicate WrittenAs(q: Bytes, s: string, last: bool) {
    if |q| == 3 then s == Group(q[0], q[1], q[2]) else 1 <= |q| <= 2 && last && s == Tail(q)
  }

  lemma ThreeInverse(c0: char, c1: char, c2: char, c3: char, last: bool)
    requires Quantum(c0, c1, c2, c3, last).Some? && !(last && c3 == '=')
    ensures WrittenAs(Quantum(c0, c1, c2, c3, last).value, [c0, c1, c2, c3], last)
  {
    FourDigits(c0, c1, c2, c3, last);
    GroupOfValues(Value(c0).value, Value(c1).value, Value(c2).value, Value(c3).value);
  }

  lemma FourDigits(c0: char, c1: char, c2: char, c3: char, last: bool)
    requires Quantum(c0, c1, c2, c3, last).Some? && !(last && c3 == '=')
    ensures Value(c0).Some? && Value(c1).Some? && Value(c2).Some? && Value(c3).Some?
    ensures var v0, v1, v2, v3 := Value(c0).value, Value(c1).value, Value(c2).value, Value(c3).value;
            && Quantum(c0, c1, c2, c3, last).value == [v0 * 4 + v1 / 16, v1 % 16 * 16 + v2 / 4, v2 % 4 * 64 + v3]
            && [c0, c1, c2, c3] == [Digit(v0), Digit(v1), Digit(v2), Digit(v3)]
  {
    DigitOfValue(c0);
    DigitOfValue(c1);
    DigitOfValue(c2);
    DigitOfValue(c3);
  }

  lemma TwoInverse(c0: char, c1: char, c2: char)
    requires Quantum(c0, c1, c2, '=', true).Some? && c2 != '='
    ensures WrittenAs(Quantum(c0, c1, c2, '=', true).value, [c0, c1, c2, '='], true)
  {
    var v0, v1, v2 := Value(c0).value, Value(c1).value, Value(c2).value;
    var q := [v0 * 4 + v1 / 16, v1 % 16 * 16 + v2 / 4];
    assert Quantum(c0, c1, c2, '=', true).value == q && v2 % 4 == 0;
    DigitOfValue(c0);
    DigitOfValue(c1);
    DigitOfValue(c2);
    TailOfValues(v0, v1, v2);
  }

  lemma OneInverse(c0: char, c1: char)
    requires Quantum(c0, c1, '=', '=', true).Some?
    ensures WrittenAs(Quantum(c0, c1, '=', '=', true).value, [c0, c1, '=', '='], true)
  {
    var v0, v1 := Value(c0).value, Value(c1).value;
    assert Quantum(c0, c1, '=', '=', true).value == [v0 * 4 + v1 / 16] && v1 % 16 == 0;
    DigitOfValue(c0);
    DigitOfValue(c1);
    TailOfValues(v0, v1, 0);
  }

  lemma QuantumInverse(c0: char, c1: char, c2: char, c3: char, last: bool)
    requires Quantum(c0, c1, c2, c3, last).Some?
    ensures WrittenAs(Quantum(c0, c1, c2, c3, last).value, [c0, c1, c2, c3], last)
  {
    if !(last && c3 == '=') { ThreeInverse(c0, c1, c2, c3, last); }
    else if c2 == '=' { OneInverse(c0, c1); }
    else { TwoInverse(c0, c1, c2); }
  }

  lemma {:induction false} EncodeGroup(b0: Byte, b1: Byte, b2: Byte, rest: Bytes)
    ensures Encode([b0, b1, b2] + rest) == Group(b0, b1, b2) + Encode(rest)
  {
    assert ([b0, b1, b2] + rest)[3..] == rest;
  }

  lemma {:induction false} EncodeWritten(q: Bytes, head: string, last: bool, rest: Bytes)
    requires WrittenAs(q, head, last) && (last ==> rest == [])
    ensures Encode(q + rest) == head + Encode(rest)
  {
    if |q| == 3 {
      assert q == [q[0], q[1], q[2]];
      EncodeGroup(q[0], q[1], q[2], rest);
    } else {
      assert q + rest == q && Encode(rest) == [] && head + [] == head;
    }
  }

  lemma {:induction false} FirstQuantum(s: string) returns (q: Bytes, rest: Bytes)
    requires s != [] && Decode(s).Some?
    ensures |s| >= 4 && Decode(s[4..]) == Some(rest) && Decode(s).value == q + rest
    ensures WrittenAs(q, s[..4], |s| == 4) && (|s| == 4 ==> rest == [])
  {
    q, rest := Quantum(s[0], s[1], s[2], s[3], |s| == 4).value, Decode(s[4..]).value;
    QuantumInverse(s[0], s[1], s[2], s[3], |s| == 4);
    assert s[..4] == [s[0], s[1], s[2], s[3]];
  }

  /** Decoding accepts nothing but encodings: strict padding makes the two exact inverses. */
  lemma {:induction false} DecodeOnlyEncodings(s: string)
    requires Decode(s).Some?
    ensures Encode(Decode(s).value) == s
  {
    if s != [] {
      var q, rest := FirstQuantum(s);
      DecodeOnlyEncodings(s[4..]);
      EncodeWritten(q, s[..4], |s| == 4, rest);
      assert s[..4] + s[4..] == s;
    }
  }

  /** The standard alphabet by character codes, most significant bits first, and its padding (RFC 4648, section 10). */
  lemma StandardAlphabet(n: nat)
    requires n < 64
    ensures Encode([n * 4, 0, 0])[0] as int
         == if n < 26 then 65 + n else if n < 52 then 71 + n else if n < 62 then n - 4 else if n == 62 then 43 else 47
    ensures Encode([102]) == "Zg==" && Encode([102, 111]) == "Zm8=" && Encode([102, 111, 111]) == "Zm9v"
  {
    EncodeGroup(n * 4, 0, 0, []);
    assert [n * 4, 0, 0] + [] == [n * 4, 0, 0];
    EncodeGroup(102, 111, 111, []);
    assert [102, 111, 111] + [] == [102, 111, 111];
  }
}
