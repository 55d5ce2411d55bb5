/** Job tokens: hex(mac) + ":" + expiry over the payload jobID + ":" + expiry, with one previous key.
    The MAC (HMAC-SHA256, section 2 of RFC 2104, printed as hex) is an arbitrary function `mac`; what is
    assumed about it is written in each lemma: colon-free output, and where needed no collisions. */
module JobToken {
  import opened Rows
  import opened Decimal

  type Key = string
  type Mac = (Key, string) -> string

  datatype Verdict = Valid | Invalid | Expired

  /** `ttl` in microseconds, like every other time. */
  datatype Signer = Signer(key: Key, prevKey: Option<Key>, ttl: Time) {
    function WithPreviousKey(prev: Key): Signer {
      Signer(key, Some(prev), ttl)
    }

    function Sign(mac: Mac, job: string, now: Time): string {
      Token(mac, key, job, Unix(now + ttl))
    }

    function Validate(mac: Mac, job: string, token: string, now: Time): Verdict {
      var v := ValidateWith(mac, key, job, token, Unix(now));
      if v == Valid then Valid
      else if prevKey.Some? && v == Invalid then ValidateWith(mac, prevKey.value, job, token, Unix(now))
      else v
    }

    predicate Knows(k: Key) {
      k == key || prevKey == Some(k)
    }
  }

  /** Whole seconds, rounded down. */
  function Unix(t: Time): int {
    t / 1_000_000
  }

  function Payload(job: string, expiry: int): string {
    job + ":" + Print(expiry)
  }

  function Token(mac: Mac, key: Key, job: string, expiry: int): string {
    mac(key, Payload(job, expiry)) + ":" + Print(expiry)
  }

  /** strings.SplitN(s, ":", 2), when it finds a colon. */
  function SplitAtColon(s: string): Option<(string, string)> {
    if s == "" then None
    else if s[0] == ':' then Some(("", s[1..]))
    else
      match SplitAtColon(s[1..])
      case None => None
      case Some((a, b)) => Some(([s[0]] + a, b))
  }

  function ValidateWith(mac: Mac, key: Key, job: string, token: string, now: int): Verdict {
    match SplitAtColon(token)
    case None => Invalid
    case Some((_, expiryText)) =>
      match ParseInt(expiryText)
      case None => Invalid
      case Some(expiry) =>
        if token != Token(mac, key, job, expiry) then Invalid
        else if now > expiry then Expired
        else Valid
  }

  // ----- splitting -----

  predicate NoColon(s: string) {
    forall i :: 0 <= i < |s| ==> s[i] != ':'
  }

  lemma {:induction false} SplitJoined(a: string, b: string)
    requires NoColon(a)
    ensures SplitAtColon(a + ":" + b) == Some((a, b))
  {
    var s := a + ":" + b;
    if a == "" {
      assert s[1..] == b;
    } else {
      assert s[1..] == a[1..] + ":" + b;
      SplitJoined(a[1..], b);
      assert [a[0]] + a[1..] == a;
    }
  }

  lemma NumberIsColonFree(e: int)
    ensures NoColon(Print(e))
  {
    forall k | 0 <= k < |Print(e)|
      ensures Print(e)[k] != ':'
    {
      PrintHasNoColon(e, k);
    }
  }

  /** A payload names one job and one expiry, even when job ids contain colons. */
  lemma PayloadInjective(job: string, e: int, job': string, e': int)
    requires Payload(job, e) == Payload(job', e')
    ensures job == job' && e == e'
  {
    NumberIsColonFree(e);
    NumberIsColonFree(e');
    var p, n, n' := Payload(job, e), Print(e), Print(e');
    assert p[|job|] == ':' && p[|job'|] == ':';
    assert forall i :: |job| < i < |p| ==> p[i] == n[i - |job| - 1];
    assert forall i :: |job'| < i < |p| ==> p[i] == n'[i - |job'| - 1];
    assert |job| == |job'|;
    assert job == p[..|job|] == job' && n == p[|job| + 1..] == n';
    PrintInjective(e, e');
  }

  // ----- one key -----

  ghost predicate ColonFree(mac: Mac) {
    forall k: Key, m: string :: NoColon(mac(k, m))
  }

  ghost predicate CollisionFree(mac: Mac) {
    forall k: Key, m: string, k': Key, m': string :: mac(k, m) == mac(k', m') ==> k == k' && m == m'
  }

  lemma TokenSplits(mac: Mac, key: Key, job: string, e: int)
    requires ColonFree(mac)
    ensures SplitAtColon(Token(mac, key, job, e)) == Some((mac(key, Payload(job, e)), Print(e)))
  {
    SplitJoined(mac(key, Payload(job, e)), Print(e));
  }

  // ----- the signer -----

  /** `token` is what some key of the signer gives for this job and an expiry that satisfies `now <= e` or not. */
  ghost predicate Signed(mac: Mac, s: Signer, job: string, token: string, k: Key, e: int) {
    Int64(e) && s.Knows(k) && token == Token(mac, k, job, e)
  }

  lemma AcceptedIsSigned(mac: Mac, s: Signer, job: string, token: string, now: Time) returns (k: Key, e: int)
    requires s.Validate(mac, job, token, now) != Invalid
    ensures Signed(mac, s, job, token, k, e)
    ensures s.Validate(mac, job, token, now) == if Unix(now) > e then Expired else Valid
  {
    e := ParseInt(SplitAtColon(token).value.1).value;
    k := if ValidateWith(mac, s.key, job, token, Unix(now)) != Invalid then s.key else s.prevKey.value;
  }

  lemma SignedIsAccepted(mac: Mac, s: Signer, job: string, token: string, k: Key, e: int, now: Time)
    requires ColonFree(mac) && Signed(mac, s, job, token, k, e)
    ensures s.Validate(mac, job, token, now) == if Unix(now) > e then Expired else Valid
  {
    TokenSplits(mac, k, job, e);
    ParsePrint(e);
  }

  /** A token is accepted, or refused only as expired, exactly when the current or the previous key signed
      it for this job with some 64-bit expiry; it is valid exactly when that expiry has not passed. */
  lemma ValidateIff(mac: Mac, s: Signer, job: string, token: string, now: Time)
    requires ColonFree(mac)
    ensures s.Validate(mac, job, token, now) != Invalid <==> exists k, e :: Signed(mac, s, job, token, k, e)
    ensures s.Validate(mac, job, token, now) == Valid <==>
            exists k, e :: Signed(mac, s, job, token, k, e) && Unix(now) <= e
  {
    if s.Validate(mac, job, token, now) != Invalid {
      var k, e := AcceptedIsSigned(mac, s, job, token, now);
    }
    forall k, e | Signed(mac, s, job, token, k, e)
      ensures s.Validate(mac, job, token, now) == if Unix(now) > e then Expired else Valid
    {
      SignedIsAccepted(mac, s, job, token, k, e, now);
    }
  }

  /** "+5", "05" or "-0" after the colon is refused, whatever stands before it. */
  lemma NonCanonicalExpiryRefused(mac: Mac, s: Signer, job: string, sig: string, text: string, now: Time)
    requires ColonFree(mac) && NoColon(sig) && !Canonical(text)
    ensures s.Validate(mac, job, sig + ":" + text, now) == Invalid
  {
    var token := sig + ":" + text;
    SplitJoined(sig, text);
    if s.Validate(mac, job, token, now) != Invalid {
      var k, e := AcceptedIsSigned(mac, s, job, token, now);
      TokenSplits(mac, k, job, e);
      ParsePrint(e);
      PrintParse(text);
    }
  }

  /** A fresh token holds for its whole ttl and for less than one second more. */
  lemma Lifetime(mac: Mac, s: Signer, job: string, signed: Time, now: Time)
    requires ColonFree(mac) && Int64(Unix(signed + s.ttl))
    ensures var v := s.Validate(mac, job, s.Sign(mac, job, signed), now);
      && (v == Valid || v == Expired)
      && (now <= signed + s.ttl ==> v == Valid)
      && (now >= signed + s.ttl + 1_000_000 ==> v == Expired)
  {
    SignedIsAccepted(mac, s, job, s.Sign(mac, job, signed), s.key, Unix(signed + s.ttl), now);
  }

  /** Without collisions a token is bound to its key, its job and its expiry. */
  lemma TokenBinds(mac: Mac, k: Key, job: string, e: int, k': Key, job': string, e': int)
    requires ColonFree(mac) && CollisionFree(mac)
    requires Token(mac, k, job, e) == Token(mac, k', job', e')
    ensures k == k' && job == job' && e == e'
  {
    TokenSplits(mac, k, job, e);
    TokenSplits(mac, k', job', e');
    PayloadInjective(job, e, job', e');
  }

  /** The API accepts a worker's token for exactly the job it was signed for, when it knows the key. */
  lemma AcceptedForItsJobOnly(mac: Mac, worker: Signer, api: Signer, job: string, job': string, signed: Time, now: Time)
    requires ColonFree(mac) && CollisionFree(mac) && Int64(Unix(signed + worker.ttl))
    ensures api.Validate(mac, job', worker.Sign(mac, job, signed), now) != Invalid
            <==> job == job' && api.Knows(worker.key)
  {
    var token, e := worker.Sign(mac, job, signed), Unix(signed + worker.ttl);
    if api.Validate(mac, job', token, now) != Invalid {
      var k, e' := AcceptedIsSigned(mac, api, job', token, now);
      TokenBinds(mac, worker.key, job, e, k, job', e');
    }
    if job == job' && api.Knows(worker.key) {
      SignedIsAccepted(mac, api, job, token, worker.key, e, now);
    }
  }

  // ----- key rotation -----

  /** The signer of each generation: a new key every time, the last one kept as previous. */
  function Generation(keys: nat -> Key, g: nat, ttl: Time): Signer {
    var signer := Signer(keys(g), None, ttl);
    if g == 0 then signer else signer.WithPreviousKey(keys(g - 1))
  }

  /** A token lives for exactly its own and the next generation of keys; in particular a verifier that is
      a rotation behind the signer refuses it. */
  lemma TokensLiveTwoGenerations(mac: Mac, keys: nat -> Key, ttl: Time, g: nat, h: nat, job: string, signed: Time, now: Time)
    requires ColonFree(mac) && CollisionFree(mac) && Int64(Unix(signed + ttl))
    requires forall i, k :: i != k ==> keys(i) != keys(k)
    ensures Generation(keys, h, ttl).Validate(mac, job, Generation(keys, g, ttl).Sign(mac, job, signed), now) != Invalid
            <==> h == g || h == g + 1
  {
    AcceptedForItsJobOnly(mac, Generation(keys, g, ttl), Generation(keys, h, ttl), job, job, signed, now);
    assert Generation(keys, g, ttl).key == keys(g);
    assert Generation(keys, h, ttl).Knows(keys(g)) <==> h == g || h == g + 1;
  }
}
