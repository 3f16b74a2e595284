/**
 * How the tokens of a header read back: which are visited and in what order, which slots they name, and
 * what each reference makes of the fields other tools may have written in several shapes.
 */
module Metadata {
  import opened Common
  import opened Text
  import opened Luks2
  import Base64
  import Mappings

  // ----- order ---------------------------------------------------------------------------------

  /** Tokens are visited in the order of their ids as decimal strings: 10 comes before 2. */
  lemma VisitedInStringOrder()
    ensures |JSON_ORDER| == 32
    ensures forall i :: 0 <= i < 31 ==> Mappings.Less(Show(JSON_ORDER[i]), Show(JSON_ORDER[i + 1]))
  {
    forall i | 0 <= i < 31
      ensures Mappings.Less(Show(JSON_ORDER[i]), Show(JSON_ORDER[i + 1]))
    {
      StringOrderStep(JSON_ORDER[i], JSON_ORDER[i + 1]);
    }
  }

  /** Two decimal strings below 100, by tens and units. */
  lemma StringOrderStep(m: nat, n: nat)
    requires m < 100 && n < 100
    requires m < 10 && n >= 10 ==> m <= n / 10
    requires m >= 10 && n < 10 ==> m / 10 < n
    requires (m < 10 <==> n < 10) ==> m < n
    ensures Mappings.Less(Show(m), Show(n))
  {
    TwoDigits(m);
    TwoDigits(n);
    assert [DigitOf(n / 10), DigitOf(n % 10)][1..] == [DigitOf(n % 10)];
    assert [DigitOf(m / 10), DigitOf(m % 10)][1..] == [DigitOf(m % 10)];
  }

  lemma TwoDigits(n: nat)
    requires n < 100
    ensures Show(n) == if n < 10 then [DigitOf(n)] else [DigitOf(n / 10), DigitOf(n % 10)]
  {
    if n >= 10 {
      assert ShowNat(n / 10) == [DigitOf(n / 10)];
    }
  }

  lemma {:induction false} TokensInOrder(tokens: map<nat, Token>, order: seq<nat>, more: seq<nat>)
    ensures ListedIn(tokens, order + more) == ListedIn(tokens, order) + ListedIn(tokens, more)
  {
    if order == [] {
      assert order + more == more;
    } else {
      assert (order + more)[1..] == order[1..] + more;
      TokensInOrder(tokens, order[1..], more);
    }
  }

  // ----- the slots tokens name -----------------------------------------------------------------

  /** A token names the slots its "keyslots" entries spell; entries that spell none are skipped. */
  lemma {:induction false} SlotsSpelled(names: seq<string>, slot: int)
    ensures slot in ParsedSlots(names) <==> exists i :: 0 <= i < |names| && ParseI32(names[i]) == Some(slot)
  {
    if names != [] {
      SlotsSpelled(names[1..], slot);
      if slot in ParsedSlots(names[1..]) {
        var i :| 0 <= i < |names[1..]| && ParseI32(names[1..][i]) == Some(slot);
        assert ParseI32(names[i + 1]) == Some(slot);
      }
      if i :| 0 <= i < |names| && ParseI32(names[i]) == Some(slot) {
        if i > 0 {
          assert names[1..][i - 1] == names[i];
        }
      }
    }
  }

  /** A type records exactly the slots named by its tokens. */
  lemma {:induction false} RecordedIff(tokens: seq<Listed>, kind: string, slot: int)
    ensures slot in RecordedSlots(tokens, kind)
       <==> exists l :: l in tokens && l.token.kind == kind && Names(l.token, slot)
  {
    if tokens != [] {
      var init, last := tokens[..|tokens| - 1], tokens[|tokens| - 1];
      RecordedIff(init, kind, slot);
      assert tokens == init + [last];
    }
  }

  /** The token reported for a slot is the first one that names it. */
  lemma {:induction false} FirstNamingIsFirst(tokens: seq<Listed>, slot: int, i: nat)
    requires i < |tokens| && Names(tokens[i].token, slot)
    requires forall j :: 0 <= j < i ==> !Names(tokens[j].token, slot)
    ensures FirstNaming(tokens, slot) == tokens[i].id
  {
    if i > 0 {
      assert forall j :: 0 <= j < i - 1 ==> tokens[1..][j] == tokens[j + 1];
      FirstNamingIsFirst(tokens[1..], slot, i - 1);
    }
  }

  // ----- reading list by list ------------------------------------------------------------------

  /** Two reads make a third: it fails if one of them does, and else lists what they list, one behind the other. */
  predicate Joined<T(==)>(front: Result<seq<T>>, back: Result<seq<T>>, both: Result<seq<T>>) {
    && (both.Ok? <==> front.Ok? && back.Ok?)
    && (both.Ok? ==> both.value == front.value + back.value)
  }

  /** The same for one item in front; None is an item that is passed over. */
  predicate Prefixed<T(==)>(first: Option<Result<T>>, rest: Result<seq<T>>, all: Result<seq<T>>) {
    match first
    case None => all == rest
    case Some(r) => (all.Ok? <==> r.Ok? && rest.Ok?) && (all.Ok? ==> all.value == [r.value] + rest.value)
  }

  lemma JoinedStep<T>(first: Option<Result<T>>, rest: Result<seq<T>>, back: Result<seq<T>>, joined: Result<seq<T>>,
                      front: Result<seq<T>>, both: Result<seq<T>>)
    requires Joined(rest, back, joined) && Prefixed(first, rest, front) && Prefixed(first, joined, both)
    ensures Joined(front, back, both)
  {
  }

  // ----- TPM2 references -----------------------------------------------------------------------

  /** The blob is read from "tpm2_blob", unless that is absent or null, and then from "tpm2-blob". */
  lemma {:induction false} BlobPrecedence(l: Listed, blob: Bytes)
    ensures var f, r := l.token.fields, Tpm2RefOf(l);
            var underscore := Tpm2BlobUnderscore in f && f[Tpm2BlobUnderscore] != Null;
            && (underscore && f[Tpm2BlobUnderscore] == String(Base64.Encode(blob)) ==> r.Ok? && r.value.blob == blob)
            && (!underscore && Tpm2BlobDash in f && f[Tpm2BlobDash] == String(Base64.Encode(blob)) ==>
                  r.Ok? && r.value.blob == blob)
            && (!underscore && Tpm2BlobDash !in f ==> r == Err("tpm2 token missing tpm2-blob"))
            && (underscore && !f[Tpm2BlobUnderscore].String? && !f[Tpm2BlobUnderscore].Array? ==>
                  r == Err("bad tpm2-blob field"))
  {
    Base64.RoundTrip(blob);
  }

  /** A blob in chunks is their concatenation; a chunk that is no base64 string fails the token. */
  lemma {:induction false} ChunksConcatenate(parts: seq<Json>, chunks: seq<Bytes>)
    requires |parts| == |chunks|
    ensures (forall i :: 0 <= i < |parts| ==> parts[i] == String(Base64.Encode(chunks[i]))) ==>
              DecodeBlob(Array(parts)) == Ok(Concatenated(chunks))
  {
    if parts != [] && forall i :: 0 <= i < |parts| ==> parts[i] == String(Base64.Encode(chunks[i])) {
      Base64.RoundTrip(chunks[0]);
      assert forall i :: 0 <= i < |parts| - 1 ==> parts[1..][i] == parts[i + 1] && chunks[1..][i] == chunks[i + 1];
      ChunksConcatenate(parts[1..], chunks[1..]);
    }
  }

  function Concatenated(chunks: seq<Bytes>): Bytes {
    if chunks == [] then [] else chunks[0] + Concatenated(chunks[1..])
  }

  lemma {:induction false} ChunksAllDecode(parts: seq<Json>)
    ensures DecodeBlob(Array(parts)).Ok?
       <==> forall i :: 0 <= i < |parts| ==> parts[i].String? && Base64.Decode(parts[i].s).Some?
  {
    if parts != [] {
      ChunksAllDecode(parts[1..]);
      assert forall i :: 0 <= i < |parts| - 1 ==> parts[1..][i] == parts[i + 1];
      assert forall i :: 1 <= i < |parts| ==> parts[i] == parts[1..][i - 1];
    }
  }

  /** The other fields: the bank defaults to "sha256", the PIN to not required, the registers to none. */
  lemma ReferenceFields(l: Listed)
    requires Tpm2RefOf(l).Ok?
    ensures var f, ref := l.token.fields, Tpm2RefOf(l).value;
            && ref.id == l.id
            && (forall s :: Tpm2PcrBank in f && f[Tpm2PcrBank] == String(s) ==> ref.bank == s)
            && (Tpm2PcrBank !in f || !f[Tpm2PcrBank].String? ==> ref.bank == "sha256")
            && (ref.pinRequired <==> Tpm2Pin in f && f[Tpm2Pin] == Bool(true))
            && (Tpm2Pcrs !in f ==> ref.pcrs == "")
            && (forall s :: Tpm2Pcrs in f && f[Tpm2Pcrs] == String(s) ==> ref.pcrs == s)
            && (forall n :: Tpm2Pcrs in f && f[Tpm2Pcrs] == Number(n) ==> ref.pcrs == Show(n))
            && (Tpm2Pcrs in f && f[Tpm2Pcrs] == Bool(true) ==> ref.pcrs == "true")
            && (Tpm2Pcrs in f && f[Tpm2Pcrs] == Bool(false) ==> ref.pcrs == "false")
            && (Tpm2Pcrs in f && f[Tpm2Pcrs] == Null ==> ref.pcrs == "null")
  {
  }

  /** A list of registers is read as the "+"-joined texts of its numbers and strings. */
  lemma {:induction false} RegisterListText(t: Token, items: seq<Json>, texts: seq<string>)
    requires Tpm2Pcrs in t.fields && t.fields[Tpm2Pcrs] == Array(items) && |texts| == |items|
    requires forall i :: 0 <= i < |items| ==>
      match items[i]
      case Number(n) => texts[i] == Show(n)
      case String(s) => texts[i] == s
      case _ => texts[i] == ""
    ensures PcrField(t) == Join(texts)
  {
    assert PcrTexts(items) == texts;
  }

  lemma {:induction false} Tpm2RefsStep(tokens: seq<Listed>)
    requires tokens != []
    ensures Prefixed(if tokens[0].token.kind == TPM2 then Some(Tpm2RefOf(tokens[0])) else None,
                     Tpm2Refs(tokens[1..]), Tpm2Refs(tokens))
  {
  }

  /** References come in the order of their tokens, and one malformed token fails the whole read. */
  lemma {:induction false} Tpm2RefsAppend(front: seq<Listed>, back: seq<Listed>)
    ensures Joined(Tpm2Refs(front), Tpm2Refs(back), Tpm2Refs(front + back))
  {
    if front == [] {
      assert front + back == back;
    } else {
      var all := front + back;
      assert all[1..] == front[1..] + back && all[0] == front[0];
      Tpm2RefsAppend(front[1..], back);
      Tpm2RefsStep(front);
      Tpm2RefsStep(all);
      JoinedStep(if front[0].token.kind == TPM2 then Some(Tpm2RefOf(front[0])) else None,
                 Tpm2Refs(front[1..]), Tpm2Refs(back), Tpm2Refs(all[1..]), Tpm2Refs(front), Tpm2Refs(all));
    }
  }

  // ----- FIDO2 references ----------------------------------------------------------------------

  /** A FIDO2 token reads exactly if both fields are base64 strings. */
  lemma Fido2RefIff(t: Token, ref: Fido2Ref)
    ensures Fido2RefOf(t) == Ok(ref)
       <==> && Fido2Credential in t.fields && Fido2Salt in t.fields
            && t.fields[Fido2Credential] == String(Base64.Encode(ref.credential))
            && t.fields[Fido2Salt] == String(Base64.Encode(ref.salt))
  {
    Base64.RoundTrip(ref.credential);
    Base64.RoundTrip(ref.salt);
    forall s, b | Base64.Decode(s) == Some(b)
      ensures s == Base64.Encode(b)
    {
      Base64.DecodeOnlyEncodings(s);
    }
  }

  lemma {:induction false} Fido2RefsStep(tokens: seq<Listed>)
    requires tokens != []
    ensures Prefixed(if tokens[0].token.kind == FIDO2 then Some(Fido2RefOf(tokens[0].token)) else None,
                     Fido2Refs(tokens[1..]), Fido2Refs(tokens))
  {
  }

  lemma {:induction false} Fido2RefsAppend(front: seq<Listed>, back: seq<Listed>)
    ensures Joined(Fido2Refs(front), Fido2Refs(back), Fido2Refs(front + back))
  {
    if front == [] {
      assert front + back == back;
    } else {
      var all := front + back;
      assert all[1..] == front[1..] + back && all[0] == front[0];
      Fido2RefsAppend(front[1..], back);
      Fido2RefsStep(front);
      Fido2RefsStep(all);
      JoinedStep(if front[0].token.kind == FIDO2 then Some(Fido2RefOf(front[0].token)) else None,
                 Fido2Refs(front[1..]), Fido2Refs(back), Fido2Refs(all[1..]), Fido2Refs(front), Fido2Refs(all));
    }
  }

  /** The token types, as the systemd plug-ins spell them. */
  lemma TypesAsSpelled(l: Listed)
    ensures l.token.kind !in {"systemd-tpm2"} ==> Tpm2Refs([l]) == Ok([])
    ensures l.token.kind !in {"systemd-fido2"} ==> Fido2Refs([l]) == Ok([])
    ensures l.token.kind == "systemd-tpm2" && Tpm2RefOf(l).Ok? ==> Tpm2Refs([l]) == Ok([Tpm2RefOf(l).value])
    ensures l.token.kind == "systemd-fido2" && Fido2RefOf(l.token).Ok? ==>
              Fido2Refs([l]) == Ok([Fido2RefOf(l.token).value])
  {
    assert [l][1..] == [] && Tpm2Refs([]) == Ok([]) && Fido2Refs([]) == Ok([]);
    if l.token.kind == TPM2 && Tpm2RefOf(l).Ok? {
      assert [Tpm2RefOf(l).value] + [] == [Tpm2RefOf(l).value];
    }
    if l.token.kind == FIDO2 && Fido2RefOf(l.token).Ok? {
      assert [Fido2RefOf(l.token).value] + [] == [Fido2RefOf(l.token).value];
    }
  }
}
