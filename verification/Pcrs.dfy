/**
 * PCR selections as text. `seal` parses the caller's string (tpm2.rs), enrollment parses it again
 * into the integer list of the token (service.rs), and unlock joins that list back into a string
 * and parses it a third time (luks.rs). All three must select the same registers.
 */
module Pcrs {
  import opened Common
  import opened Text

  const LAST_PCR := 23

  /** The trimmed, non-empty segments both parsers work on. */
  function Segments(pcrs: string): seq<string> {
    NonEmpty(Split(pcrs))
  }

  function NonEmpty(pieces: seq<string>): seq<string> {
    if pieces == [] then []
    else
      var p := Trim(pieces[|pieces| - 1]);
      if p == [] then NonEmpty(pieces[..|pieces| - 1]) else NonEmpty(pieces[..|pieces| - 1]) + [p]
  }

  /** One segment as an index, or the error of the first check it fails. */
  function Index(part: string): Result<nat> {
    match ParseI64(part)
    case None => Err("Invalid PCR index '" + part + "'")
    case Some(n) =>
      if 0 <= n <= LAST_PCR then Ok(n) else Err("PCR index " + Show(n) + " out of range (0-23)")
  }

  /** Every segment's index in order, duplicates kept; the error of the first bad segment otherwise. */
  function Indices(parts: seq<string>): Result<seq<nat>> {
    if parts == [] then Ok([])
    else
      match Indices(parts[..|parts| - 1])
      case Err(e) => Err(e)
      case Ok(init) =>
        match Index(parts[|parts| - 1])
        case Err(e) => Err(e)
        case Ok(n) => Ok(init + [n])
  }

  /** What `parse_pcr_indices` answers. */
  function Parsed(pcrs: string): (r: Result<seq<nat>>)
    ensures r.Ok? ==> r.value != [] && Indices(Segments(pcrs)).Ok?
  {
    match Indices(Segments(pcrs))
    case Err(e) => Err(e)
    case Ok(ns) => if ns == [] then Err("PCR selection must not be empty") else Ok(Distinct(ns))
  }

  /** Appending one segment to each of the two folds. */
  lemma {:induction false} NonEmptySnoc(pieces: seq<string>, p: string)
    ensures NonEmpty(pieces + [p]) == if Trim(p) == [] then NonEmpty(pieces) else NonEmpty(pieces) + [Trim(p)]
  {
    assert (pieces + [p])[..|pieces|] == pieces;
  }

  lemma {:induction false} IndicesSnoc(parts: seq<string>, p: string)
    ensures Indices(parts).Err? ==> Indices(parts + [p]) == Indices(parts)
    ensures Indices(parts).Ok? && Index(p).Err? ==> Indices(parts + [p]) == Err(Index(p).message)
    ensures Indices(parts).Ok? && Index(p).Ok? ==> Indices(parts + [p]) == Ok(Indices(parts).value + [Index(p).value])
  {
    assert (parts + [p])[..|parts|] == parts;
  }

  lemma {:induction false} ErrorSticksOnce(pieces: seq<string>, p: string)
    requires Indices(NonEmpty(pieces)).Err?
    ensures Indices(NonEmpty(pieces + [p])) == Indices(NonEmpty(pieces))
  {
    NonEmptySnoc(pieces, p);
    IndicesSnoc(NonEmpty(pieces), Trim(p));
  }

  /** Later segments cannot repair a bad one: the first error is the answer. */
  lemma {:induction false} ErrorSticks(pieces: seq<string>, i: nat)
    requires i <= |pieces| && Indices(NonEmpty(pieces[..i])).Err?
    ensures Indices(NonEmpty(pieces)) == Indices(NonEmpty(pieces[..i]))
    decreases |pieces| - i
  {
    if i == |pieces| {
      assert pieces[..i] == pieces;
    } else {
      assert pieces[..i + 1] == pieces[..i] + [pieces[i]];
      ErrorSticksOnce(pieces[..i], pieces[i]);
      ErrorSticks(pieces, i + 1);
    }
  }

  /** `parse_pcr_indices`: one pass over the pieces, pushing each new index. */
  method ParsePcrIndices(pcrs: string) returns (r: Result<seq<nat>>)
    ensures r == Parsed(pcrs)
  {
    var pieces := Split(pcrs);
    var out: seq<nat> := [];
    ghost var seen: seq<nat> := [];
    Prefixes(pieces);
    for i := 0 to |pieces|
      invariant Indices(NonEmpty(pieces[..i])) == Ok(seen)
      invariant out == Distinct(seen)
    {
      NonEmptySnoc(pieces[..i], pieces[i]);
      var part := Trim(pieces[i]);
      if part != [] {
        IndicesSnoc(NonEmpty(pieces[..i]), part);
        match Index(part) {
          case Err(e) =>
            ErrorSticks(pieces, i + 1);
            return Err(e);
          case Ok(n) =>
            DistinctPush(seen, n);
            seen := seen + [n];
            if n !in out {
              out := out + [n];
            }
        }
      }
    }
    if out == [] {
      return Err("PCR selection must not be empty");
    }
    return Ok(out);
  }

  /** The integer list enrollment writes into the token: the same segments, no range check, duplicates kept. */
  function TokenList(parts: seq<string>): Result<seq<int>> {
    if parts == [] then Ok([])
    else
      match TokenList(parts[..|parts| - 1])
      case Err(e) => Err(e)
      case Ok(init) =>
        match ParseI64(parts[|parts| - 1])
        case None => Err("bad PCR: " + parts[|parts| - 1])
        case Some(n) => Ok(init + [n])
  }

  function ShowAll(ns: seq<int>): (r: seq<string>)
    ensures |r| == |ns|
    ensures forall i :: 0 <= i < |ns| ==> r[i] == Show(ns[i])
  {
    seq(|ns|, i requires 0 <= i < |ns| => Show(ns[i]))
  }

  predicate InRange(ns: seq<nat>) {
    forall i :: 0 <= i < |ns| ==> ns[i] <= LAST_PCR
  }

  /** Where `seal` accepts every segment, enrollment writes the very indices `seal` selected from. */
  lemma {:induction false} TokenListAgrees(parts: seq<string>)
    requires Indices(parts).Ok?
    ensures TokenList(parts).Ok? && TokenList(parts).value == Indices(parts).value
    ensures InRange(Indices(parts).value)
  {
    if parts != [] {
      TokenListAgrees(parts[..|parts| - 1]);
    }
  }

  lemma ShowAllSnoc(ns: seq<nat>, n: nat)
    ensures ShowAll(ns + [n]) == ShowAll(ns) + [Show(n)]
  {
  }

  /** Written out, the list is read back as it is: nothing is trimmed, dropped or refused. */
  predicate ReadsBack(ns: seq<nat>) {
    NonEmpty(ShowAll(ns)) == ShowAll(ns) && Indices(ShowAll(ns)) == Ok(ns)
  }

  lemma ShownSnoc(ns: seq<nat>, n: nat)
    requires n <= LAST_PCR && ReadsBack(ns)
    ensures ReadsBack(ns + [n])
  {
    ShownIndex(n);
    ShowAllSnoc(ns, n);
    NonEmptySnoc(ShowAll(ns), Show(n));
    IndicesSnoc(ShowAll(ns), Show(n));
  }

  lemma {:induction false} IndicesOfShown(ns: seq<nat>)
    requires InRange(ns)
    ensures ReadsBack(ns)
  {
    if ns == [] {
      assert ShowAll(ns) == [];
    } else {
      var init, n := ns[..|ns| - 1], ns[|ns| - 1];
      assert init + [n] == ns;
      IndicesOfShown(init);
      ShownSnoc(init, n);
    }
  }

  lemma ShownIndex(n: nat)
    requires n <= LAST_PCR
    ensures Trim(Show(n)) == Show(n) && Index(Show(n)) == Ok(n)
  {
    TrimNumber(n);
    ParseOfShow(n, -0x8000_0000_0000_0000, 0x7fff_ffff_ffff_ffff);
  }

  /**
   * The PCR round trip: every string `seal` accepts is written to the token as a list that, joined
   * with "+", selects exactly the same registers in the same order, all of them 0..23, none twice.
   */
  lemma RoundTrip(pcrs: string)
    requires Parsed(pcrs).Ok?
    ensures TokenList(Segments(pcrs)).Ok?
    ensures Parsed(Join(ShowAll(TokenList(Segments(pcrs)).value))) == Parsed(pcrs)
    ensures var sel := Parsed(pcrs).value;
            && (forall n :: n in sel ==> n <= LAST_PCR)
            && NoneTwice(sel)
  {
    TokenListAgrees(Segments(pcrs));
    var ns := Indices(Segments(pcrs)).value;
    IndicesOfShown(ns);
    assert ns != [];
    DistinctHasNoneTwice(ns);
    SplitOfJoin(ShowAll(ns));
  }

  /** The registers are numbered 0 to 23. */
  lemma OneRegister(n: nat)
    ensures Parsed(Show(n))
         == if n <= 23 then Ok([n])
            else if n <= 0x7fff_ffff_ffff_ffff then Err("PCR index " + Show(n) + " out of range (0-23)")
            else Err("Invalid PCR index '" + Show(n) + "'")
  {
    var text := Show(n);
    SplitPiece(text);
    TrimNumber(n);
    NonEmptySnoc([], text);
    assert [] + [text] == [text];
    IndicesSnoc([], text);
    if n <= 0x7fff_ffff_ffff_ffff {
      ParseOfShow(n, -0x8000_0000_0000_0000, 0x7fff_ffff_ffff_ffff);
    } else {
      ParseOutOfRange(n, -0x8000_0000_0000_0000, 0x7fff_ffff_ffff_ffff);
    }
    DistinctPush([], n);
  }

  /** A written-out list of registers is read back: each once, and, where none repeats, just as it is. */
  lemma RegistersRead(ns: seq<nat>)
    requires ns != [] && forall i :: 0 <= i < |ns| ==> ns[i] <= 23
    ensures var r := Parsed(Join(ShowAll(ns)));
            && r.Ok? && (forall n :: n in r.value <==> n in ns) && NoneTwice(r.value)
            && (NoneTwice(ns) ==> r.value == ns)
  {
    IndicesOfShown(ns);
    SplitOfJoin(ShowAll(ns));
    DistinctHasNoneTwice(ns);
    if NoneTwice(ns) {
      DistinctOfDistinct(ns);
    }
  }

  /** An empty string, or one of nothing but separators and blanks, selects nothing and is refused. */
  lemma NothingSelected()
    ensures Parsed("") == Err("PCR selection must not be empty")
    ensures Parsed(" + ") == Err("PCR selection must not be empty")
  {
    SplitPiece("");
    SplitPiece(" ");
    SplitFirst(" ", " ");
    assert " " + ['+'] + " " == " + " && [" "] + [" "] == [" ", " "];
    assert Trim(" ") == [] && Trim("") == [];
    NonEmptySnoc([], "");
    NonEmptySnoc([], " ");
    NonEmptySnoc([" "], " ");
    assert [] + [""] == [""] && [] + [" "] == [" "] && [" "] + [" "] == [" ", " "];
  }
}
