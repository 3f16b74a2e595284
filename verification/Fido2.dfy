/**
 * FIDO2 unlock in three phases (fido2.rs): probe every device without a PIN, let the user touch one if
 * several qualify, then assert with the PIN on that device only. A wrong PIN costs a retry, so what
 * matters is which device ever sees it, and for which credentials.
 */
module Fido2 {
  import opened Common

  const FIDO_OK := 0
  const FIDO_ERR_NO_CREDENTIALS := 0x2e
  const FIDO_ERR_PIN_INVALID := 0x31
  const FIDO_ERR_PIN_NOT_SET := 0x35
  const FIDO_ERR_PIN_REQUIRED := 0x36
  const FIDO_ERR_UP_REQUIRED := 0x3b

  /** `classify_probe_ret`: absent, present, or no definite answer. */
  function ClassifyProbe(ret: int): Option<bool> {
    if ret == FIDO_ERR_NO_CREDENTIALS then Some(false)
    else if ret == FIDO_OK || ret == FIDO_ERR_UP_REQUIRED || ret == FIDO_ERR_PIN_NOT_SET
         || ret == FIDO_ERR_PIN_REQUIRED || ret == FIDO_ERR_PIN_INVALID then Some(true)
    else None
  }

  /** What the connected authenticators answer, by device and credential number. */
  datatype Answers = Answers(
    opens: nat -> bool,
    probe: (nat, nat) -> int,
    secret: (nat, nat) -> Result<Bytes>,  // the real assertion
    touched: nat -> bool,                 // what each touch poll in turn reports
    last: nat)                            // a poll by which some device has been touched, if any ever is

  /** Answers of a session in which somebody touches a device in the end. */
  type Session = a: Answers | a.touched(a.last)
    witness Answers(d => false, (d, c) => FIDO_OK, (d, c) => Err("no device"), n => true, 0)

  /** The first poll, from `from` on, that reports a touch. */
  function FirstTouch(touched: nat -> bool, from: nat, last: nat): (n: nat)
    requires from <= last
    ensures from <= n <= last
    ensures forall m :: from <= m < n ==> !touched(m)
    ensures touched(last) ==> touched(n)
    decreases last - from
  {
    if from == last || touched(from) then from else FirstTouch(touched, from + 1, last)
  }

  /** A probe that does not definitely deny the credential. */
  predicate MayHold(a: Answers, dev: nat, cred: nat) {
    ClassifyProbe(a.probe(dev, cred)) != Some(false)
  }

  /** A probe that definitely confirms it. */
  predicate Confirms(a: Answers, dev: nat, cred: nat) {
    ClassifyProbe(a.probe(dev, cred)) == Some(true)
  }

  /** A device in the running, with the credentials it may hold, in header order. */
  datatype Candidate = Candidate(dev: nat, creds: seq<nat>)

  function MatchingCreds(a: Answers, dev: nat, creds: nat): (r: seq<nat>)
    ensures forall c: nat :: c in r <==> c < creds && MayHold(a, dev, c)
    ensures forall i, j :: 0 <= i < j < |r| ==> r[i] < r[j]
  {
    if creds == 0 then []
    else
      var init := MatchingCreds(a, dev, creds - 1);
      assert forall i :: 0 <= i < |init| ==> init[i] in init;
      if MayHold(a, dev, creds - 1) then init + [creds - 1] else init
  }

  /** The outcome of opening and probing every device. */
  function Candidates(a: Answers, devs: nat, creds: nat): (r: seq<Candidate>)
    ensures forall c :: c in r ==>
              c.dev < devs && a.opens(c.dev) && c.creds == MatchingCreds(a, c.dev, creds) && c.creds != []
    ensures forall d: nat :: d < devs && a.opens(d) && MatchingCreds(a, d, creds) != [] ==>
              Candidate(d, MatchingCreds(a, d, creds)) in r
    ensures forall i, j :: 0 <= i < j < |r| ==> r[i].dev < r[j].dev
  {
    if devs == 0 then []
    else
      var init := Candidates(a, devs - 1, creds);
      var matching := MatchingCreds(a, devs - 1, creds);
      if a.opens(devs - 1) && matching != [] then init + [Candidate(devs - 1, matching)] else init
  }

  /** A real assertion with the PIN, as an authenticator sees it. */
  datatype Assertion = Assertion(dev: nat, cred: nat, pin: Option<string>)

  function PinOf(pin: string): Option<string> {
    if pin == "" then None else Some(pin)
  }

  /** A PIN with an embedded NUL never reaches a device. */
  predicate Sendable(pin: string) {
    '\0' !in pin
  }

  function FirstSecret(a: Answers, c: Candidate, i: nat): (r: nat)
    requires i <= |c.creds|
    ensures i <= r <= |c.creds|
    ensures r < |c.creds| ==> a.secret(c.dev, c.creds[r]).Ok?
    ensures forall j :: i <= j < r ==> a.secret(c.dev, c.creds[j]).Err?
    decreases |c.creds| - i
  {
    if i == |c.creds| || a.secret(c.dev, c.creds[i]).Ok? then i else FirstSecret(a, c, i + 1)
  }

  /** The assertions sent when candidate `c` is tried up to its first success. */
  function Tried(a: Answers, c: Candidate, pin: string): seq<Assertion> {
    var k := FirstSecret(a, c, 0);
    Sent(c, if k < |c.creds| then k + 1 else k, pin)
  }

  function Sent(c: Candidate, k: nat, pin: string): seq<Assertion>
    requires k <= |c.creds|
  {
    seq(k, i requires 0 <= i < k => Assertion(c.dev, c.creds[i], PinOf(pin)))
  }

  /** The device that is unlocked on: the only candidate, or the one touched first. */
  function Chosen(a: Answers, candidates: seq<Candidate>): (c: Candidate)
    requires candidates != []
    ensures c in candidates
  {
    if |candidates| == 1 then candidates[0] else candidates[FirstTouch(a.touched, 0, a.last) % |candidates|]
  }

  /** What the three phases yield: the first secret the chosen device asserts. */
  function Asserted(a: Answers, devs: nat, creds: nat, pin: string): Option<Bytes> {
    var candidates := Candidates(a, devs, creds);
    if candidates == [] || !Sendable(pin) then None
    else
      var c := Chosen(a, candidates);
      var k := FirstSecret(a, c, 0);
      if k < |c.creds| then Some(a.secret(c.dev, c.creds[k]).value) else None
  }

  /** The USB side: every assertion that carried the PIN, and every pending touch that was cancelled. */
  class Bus {
    var asserted: seq<Assertion>
    var cancelled: seq<nat>

    constructor ()
      ensures asserted == [] && cancelled == []
    {
      asserted, cancelled := [], [];
    }

    /** `touch_select`: polls the candidates round robin until one is touched, and cancels the others. */
    method TouchSelect(a: Answers, candidates: seq<Candidate>) returns (pos: nat)
      requires candidates != [] && a.touched(a.last)
      requires forall i, j :: 0 <= i < j < |candidates| ==> candidates[i].dev < candidates[j].dev
      modifies this`cancelled
      ensures pos == FirstTouch(a.touched, 0, a.last) % |candidates|
      ensures exists n: nat :: a.touched(n) && pos == n % |candidates| && forall m: nat :: m < n ==> !a.touched(m)
      ensures old(cancelled) <= cancelled
      ensures forall c :: c in candidates && c != candidates[pos] ==> c.dev in cancelled[|old(cancelled)|..]
      ensures candidates[pos].dev !in cancelled[|old(cancelled)|..]
    {
      var n := 0;
      while !a.touched(n)
        invariant n <= FirstTouch(a.touched, 0, a.last)
        invariant forall m: nat :: m < n ==> !a.touched(m)
        decreases a.last - n
      {
        n := n + 1;
      }
      pos := n % |candidates|;
      for i := 0 to |candidates|
        invariant old(cancelled) <= cancelled
        invariant forall j :: 0 <= j < i && j != pos ==> candidates[j].dev in cancelled[|old(cancelled)|..]
        invariant candidates[pos].dev !in cancelled[|old(cancelled)|..]
      {
        if candidates[i].dev != candidates[pos].dev {
          var before := cancelled[|old(cancelled)|..];
          cancelled := cancelled + [candidates[i].dev];
          assert cancelled[|old(cancelled)|..] == before + [candidates[i].dev];
        }
      }
    }

    /** Phase 3: the real assertions, on one device, until the first success. */
    method UnlockOn(a: Answers, c: Candidate, pin: string) returns (r: Result<Bytes>)
      modifies this`asserted
      ensures asserted == old(asserted) + if Sendable(pin) then Tried(a, c, pin) else []
      ensures var k := FirstSecret(a, c, 0);
              r.Ok? <==> Sendable(pin) && k < |c.creds|
      ensures r.Ok? ==> r == a.secret(c.dev, c.creds[FirstSecret(a, c, 0)])
    {
      var lastError := "unknown error";
      for i := 0 to |c.creds|
        invariant asserted == old(asserted) + if Sendable(pin) then Sent(c, i, pin) else []
        invariant Sendable(pin) ==> FirstSecret(a, c, 0) == FirstSecret(a, c, i)
      {
        if Sendable(pin) {
          asserted := asserted + [Assertion(c.dev, c.creds[i], PinOf(pin))];
          assert Sent(c, i + 1, pin) == Sent(c, i, pin) + [Assertion(c.dev, c.creds[i], PinOf(pin))];
          var secret := a.secret(c.dev, c.creds[i]);
          if secret.Ok? {
            return secret;
          }
          lastError := secret.message;
        } else {
          lastError := "PIN contains a NUL byte";
        }
      }
      return Err("FIDO2 unlock failed on selected device: " + lastError);
    }

    /**
     * `unlock_from_tokens` over `devs` connected devices and `creds` credentials: the PIN goes to the
     * one chosen device; if there is none, nobody sees it.
     */
    method UnlockFromTokens(a: Answers, devs: nat, creds: nat, pin: string) returns (r: Result<Bytes>)
      requires |Candidates(a, devs, creds)| > 1 ==> a.touched(a.last)
      modifies this
      ensures (if r.Ok? then Some(r.value) else None) == Asserted(a, devs, creds, pin)
      ensures asserted == old(asserted)
                          + (if Candidates(a, devs, creds) != [] && Sendable(pin)
                             then Tried(a, Chosen(a, Candidates(a, devs, creds)), pin) else [])
    {
      if creds == 0 {
        NoCredentialsNoCandidates(a, devs);
        return Err("No systemd-fido2 token found");
      }
      var candidates: seq<Candidate> := [];
      var anyOpen := false;
      for d := 0 to devs
        invariant candidates == Candidates(a, d, creds)
      {
        if a.opens(d) {
          anyOpen := true;
          var matching := MatchingCreds(a, d, creds);
          if matching != [] {
            candidates := candidates + [Candidate(d, matching)];
          }
        }
      }
      if candidates == [] {
        return Err(if devs == 0 then "No FIDO2 device found"
                   else if !anyOpen then "No FIDO2 device could be opened"
                   else "No matching FIDO2 device/credential found");
      }
      var selected := 0;
      if |candidates| > 1 {
        selected := TouchSelect(a, candidates);
      }
      r := UnlockOn(a, candidates[selected], pin);
    }
  }

  lemma {:induction false} NoCredentialsNoCandidates(a: Answers, devs: nat)
    ensures Candidates(a, devs, 0) == []
  {
    if devs != 0 {
      NoCredentialsNoCandidates(a, devs - 1);
    }
  }

  /**
   * PIN containment: the assertions that carry the PIN all go to the one chosen device, only for
   * credentials it did not definitely deny, and to no credential twice.
   */
  lemma {:induction false} PinContainment(a: Answers, devs: nat, creds: nat, c: Candidate, pin: string)
    requires c in Candidates(a, devs, creds)
    ensures forall x :: x in Tried(a, c, pin) ==> x.dev == c.dev && x.cred < creds && MayHold(a, c.dev, x.cred)
    ensures forall x :: x in Tried(a, c, pin) ==> x.pin == if pin == "" then None else Some(pin)
    ensures var t := Tried(a, c, pin); forall i, j :: 0 <= i < j < |t| ==> t[i].cred != t[j].cred
  {
    var t := Tried(a, c, pin);
    forall x | x in t
      ensures x.dev == c.dev && x.cred < creds && MayHold(a, c.dev, x.cred)
    {
      var i :| 0 <= i < |t| && t[i] == x;
      assert x.cred == c.creds[i] && x.cred in MatchingCreds(a, c.dev, creds);
    }
    assert forall i :: 0 <= i < |t| ==> t[i].pin == PinOf(pin);
  }

  /** A strictly confirmed pair survives the optimistic filter: its device is in the running, with it. */
  lemma {:induction false} ConfirmedSurvives(a: Answers, devs: nat, creds: nat, dev: nat, cred: nat)
    requires dev < devs && a.opens(dev) && cred < creds && Confirms(a, dev, cred)
    ensures exists c :: c in Candidates(a, devs, creds) && c.dev == dev && cred in c.creds
  {
    assert cred in MatchingCreds(a, dev, creds);
    assert Candidate(dev, MatchingCreds(a, dev, creds)) in Candidates(a, devs, creds);
  }

  /** `enrolled_paths`: the devices that strictly confirm one of the credentials, in the caller's order. */
  method EnrolledPaths(a: Answers, devs: seq<nat>, creds: nat) returns (enrolled: seq<nat>)
    ensures enrolled == Enrolled(a, devs, creds)
  {
    enrolled := [];
    if devs == [] || creds == 0 {
      NoCredentialsNoneEnrolled(a, devs);
      return;
    }
    for i := 0 to |devs|
      invariant enrolled == Enrolled(a, devs[..i], creds)
    {
      assert devs[..i + 1][..i] == devs[..i];
      if a.opens(devs[i]) {
        var c := 0;
        var found := false;
        while c < creds && !found
          invariant 0 <= c <= creds
          invariant found <==> exists n: nat :: n < c && Confirms(a, devs[i], n)
        {
          found := Confirms(a, devs[i], c);
          c := c + 1;
        }
        if found {
          enrolled := enrolled + [devs[i]];
        }
      }
    }
    assert devs[..|devs|] == devs;
  }

  predicate HoldsOne(a: Answers, dev: nat, creds: nat) {
    a.opens(dev) && exists n: nat :: n < creds && Confirms(a, dev, n)
  }

  function Enrolled(a: Answers, devs: seq<nat>, creds: nat): seq<nat> {
    if devs == [] then []
    else
      var last := devs[|devs| - 1];
      Enrolled(a, devs[..|devs| - 1], creds) + if HoldsOne(a, last, creds) then [last] else []
  }

  lemma {:induction false} NoCredentialsNoneEnrolled(a: Answers, devs: seq<nat>)
    ensures Enrolled(a, devs, 0) == []
  {
    if devs != [] {
      NoCredentialsNoneEnrolled(a, devs[..|devs| - 1]);
    }
  }

  /** A device refused as already enrolled is one an unlock would consider. */
  lemma {:induction false} EnrolledDevicesAreCandidates(a: Answers, devs: seq<nat>, creds: nat, total: nat)
    requires forall i :: 0 <= i < |devs| ==> devs[i] < total
    ensures forall d :: d in Enrolled(a, devs, creds) ==> exists c :: c in Candidates(a, total, creds) && c.dev == d
  {
    if devs != [] {
      var init, last := devs[..|devs| - 1], devs[|devs| - 1];
      EnrolledDevicesAreCandidates(a, init, creds, total);
      if HoldsOne(a, last, creds) {
        var n: nat :| n < creds && Confirms(a, last, n);
        ConfirmedSurvives(a, total, creds, last, n);
      }
    }
  }

  // ----- the same by return code ---------------------------------------------------------------

  /** The codes of libfido2 that mean the credential is there: success, and what stands between it and success. */
  predicate ConfirmingCode(code: int) {
    code == 0 || code == 0x31 || code == 0x35 || code == 0x36 || code == 0x3b
  }

  /** Only "no credentials", 0x2e, rules a credential out; only those five codes confirm it. */
  lemma ProbeTable(a: Answers, dev: nat, cred: nat)
    ensures MayHold(a, dev, cred) <==> a.probe(dev, cred) != 0x2e
    ensures Confirms(a, dev, cred) <==> ConfirmingCode(a.probe(dev, cred))
  {
  }

  /** No PIN goes to a device for a credential it denied; an empty PIN is sent as none. */
  lemma {:induction false} NoPinForDenied(a: Answers, devs: nat, creds: nat, pin: string)
    requires Candidates(a, devs, creds) != []
    ensures forall x :: x in Tried(a, Chosen(a, Candidates(a, devs, creds)), pin) ==>
              && x.dev < devs && a.opens(x.dev) && x.cred < creds && a.probe(x.dev, x.cred) != 0x2e
              && x.pin == if pin == "" then None else Some(pin)
  {
    var c := Chosen(a, Candidates(a, devs, creds));
    PinContainment(a, devs, creds, c, pin);
    forall x | x in Tried(a, c, pin)
      ensures x.dev < devs && a.opens(x.dev) && x.cred < creds && a.probe(x.dev, x.cred) != 0x2e
    {
      ProbeTable(a, x.dev, x.cred);
    }
  }

  /** A device that opens and answers with one of those codes is in the running, with that credential. */
  lemma {:induction false} ConfirmingIsCandidate(a: Answers, devs: nat, creds: nat, dev: nat, cred: nat)
    requires dev < devs && a.opens(dev) && cred < creds && ConfirmingCode(a.probe(dev, cred))
    ensures exists c :: c in Candidates(a, devs, creds) && c.dev == dev && cred in c.creds
  {
    ProbeTable(a, dev, cred);
    ConfirmedSurvives(a, devs, creds, dev, cred);
  }

  /** A device counts as enrolled exactly when it opens and confirms one of the credentials. */
  lemma {:induction false} EnrolledByCode(a: Answers, dev: nat, creds: nat)
    ensures Enrolled(a, [dev], creds) != []
       <==> a.opens(dev) && exists c: nat :: c < creds && ConfirmingCode(a.probe(dev, c))
  {
    assert [dev][..0] == [];
    forall c: nat ensures Confirms(a, dev, c) <==> ConfirmingCode(a.probe(dev, c)) { ProbeTable(a, dev, c); }
    assert Enrolled(a, [dev], creds) != [] <==> HoldsOne(a, dev, creds);
  }

  /** Of several candidates the one polled when the first touch came is chosen; a single one needs no touch. */
  lemma ChosenIsTouched(a: Answers, candidates: seq<Candidate>)
    requires candidates != []
    ensures |candidates| == 1 ==> Chosen(a, candidates) == candidates[0]
    ensures |candidates| > 1 && a.touched(a.last) ==>
              exists n: nat :: && a.touched(n) && (forall m: nat :: m < n ==> !a.touched(m))
                               && Chosen(a, candidates) == candidates[n % |candidates|]
  {
    if a.touched(a.last) {
      var n := FirstTouch(a.touched, 0, a.last);
      assert a.touched(n) && forall m: nat :: m < n ==> !a.touched(m);
    }
  }

  /**
   * If one device alone opens, it is the one unlocked on, and the first credential it neither denies nor
   * fails to assert is answered.
   */
  lemma SoleDeviceAnswers(a: Answers, devs: nat, creds: nat, pin: string, dev: nat, cred: nat)
    requires dev < devs && a.opens(dev) && forall d: nat :: d < devs && d != dev ==> !a.opens(d)
    requires cred < creds && a.probe(dev, cred) != 0x2e && a.secret(dev, cred).Ok?
    requires forall c: nat :: c < cred && a.probe(dev, c) != 0x2e ==> a.secret(dev, c).Err?
    requires '\0' !in pin
    ensures Asserted(a, devs, creds, pin) == Some(a.secret(dev, cred).value)
  {
    forall c: nat ensures MayHold(a, dev, c) <==> a.probe(dev, c) != 0x2e { ProbeTable(a, dev, c); }
    var candidates, matching := Candidates(a, devs, creds), MatchingCreds(a, dev, creds);
    assert cred in matching && Candidate(dev, matching) in candidates;
    assert forall c :: c in candidates ==> c.dev == dev;
    FirstTwoDiffer(candidates);
    FirstTwoAgree(candidates, dev);
    var chosen := Chosen(a, candidates);
    assert chosen == Candidate(dev, matching);
    var i :| 0 <= i < |matching| && matching[i] == cred;
    var k := FirstSecret(a, chosen, 0);
    assert forall j :: 0 <= j < i ==> matching[j] in matching && matching[j] < matching[i];
    assert k == i;
  }

  lemma FirstTwoDiffer(candidates: seq<Candidate>)
    requires forall i, j :: 0 <= i < j < |candidates| ==> candidates[i].dev < candidates[j].dev
    ensures |candidates| > 1 ==> candidates[0].dev != candidates[1].dev
  {
  }

  lemma FirstTwoAgree(candidates: seq<Candidate>, dev: nat)
    requires forall c :: c in candidates ==> c.dev == dev
    ensures |candidates| > 1 ==> candidates[0].dev == candidates[1].dev
  {
  }

  /** A PIN that cannot be passed on as a C string is sent nowhere. */
  lemma NulNeverUnlocks(a: Answers, devs: nat, creds: nat, pin: string)
    requires '\0' in pin
    ensures Asserted(a, devs, creds, pin) == None
  {
  }
}
