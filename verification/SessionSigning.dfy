/**
 * The four-segment signed session token and the two-key rotation contract: CURRENT signs, CURRENT
 * and PREVIOUS verify, and PREVIOUS is given up only after a full token lifetime since the rotation.
 */
module SessionSigning {
  import opened Options
  import opened SymbolicText

  const SESSION_TTL_MS: int := 12 * 60 * 60 * 1000

  datatype Verified<V> = Verified(payload: Text<V>, issuedAt: int, expiresAt: int)

  // ------------------------------------------------------------------ printer and verifier

  function SigningInput<V>(payload: Text<V>, issuedAt: int, expiresAt: int): Text<V> {
    Join([payload, NumberText(issuedAt), NumberText(expiresAt)])
  }

  function Token<V>(payload: Text<V>, issuedAt: int, expiresAt: int, key: string): Text<V> {
    var input := SigningInput(payload, issuedAt, expiresAt);
    Join([payload, NumberText(issuedAt), NumberText(expiresAt), Signature(input, key)])
  }

  /** CURRENT first, then PREVIOUS when it is set and differs. */
  function VerificationKeys(current: string, previous: Option<string>): seq<string> {
    if previous.Some? && previous.value != current then [current, previous.value] else [current]
  }

  function Verify<V(==)>(value: Text<V>, now: int, keys: seq<string>): Option<Verified<V>> {
    var parts := Split(value);
    if value == [] || |parts| != 4 || parts[0] == [] then None
    else
      var input := Join(parts[..3]);
      var issuedAt, expiresAt := NumberOf(parts[1]), NumberOf(parts[2]);
      if !(exists key <- keys :: parts[3] == Signature(input, key)) then None
      else if issuedAt.None? || expiresAt.None? || now >= expiresAt.value then None
      else Some(Verified(parts[0], issuedAt.value, expiresAt.value))
  }

  // ------------------------------------------------------------------ they undo each other

  lemma TokenSplits<V>(payload: Text<V>, issuedAt: int, expiresAt: int, key: string)
    requires DotFree(payload)
    ensures Split(Token(payload, issuedAt, expiresAt, key)) ==
            [payload, NumberText(issuedAt), NumberText(expiresAt),
             Signature(SigningInput(payload, issuedAt, expiresAt), key)]
  {
    NumberTextReads<V>(issuedAt);
    NumberTextReads<V>(expiresAt);
    SplitJoin([payload, NumberText(issuedAt), NumberText(expiresAt),
               Signature(SigningInput(payload, issuedAt, expiresAt), key)]);
  }

  /** A printed token verifies, to its own payload and times, iff its key is honoured and it is unexpired. */
  lemma PrintedTokenVerifies<V>(payload: Text<V>, issuedAt: int, expiresAt: int, key: string, now: int, keys: seq<string>)
    requires DotFree(payload) && payload != []
    ensures Verify(Token(payload, issuedAt, expiresAt, key), now, keys) ==
            if key in keys && now < expiresAt then Some(Verified(payload, issuedAt, expiresAt)) else None
  {
    TokenSplits(payload, issuedAt, expiresAt, key);
    NumberTextReads<V>(issuedAt);
    NumberTextReads<V>(expiresAt);
    var token := Token(payload, issuedAt, expiresAt, key);
    var input := SigningInput(payload, issuedAt, expiresAt);
    assert Split(token)[..3] == [payload, NumberText(issuedAt), NumberText(expiresAt)];
    forall k | k in keys
      ensures Signature(input, key) == Signature(input, k) <==> key == k
    {
      assert Signature(input, key)[0] == Mac(key, input);
      assert Signature(input, k)[0] == Mac(k, input);
    }
  }

  /** The only texts that verify end in the MAC, under an honoured key, of everything before it. */
  lemma VerifiedEndsInMac<V>(value: Text<V>, now: int, keys: seq<string>)
    requires Verify(value, now, keys).Some?
    ensures exists key, input ::
              key in keys && value == input + [Chr('.')] + Signature(input, key)
  {
    var parts := Split(value);
    var input := Join(parts[..3]);
    var key :| key in keys && parts[3] == Signature(input, key);
    JoinSplit(value);
    JoinFour(parts[0], parts[1], parts[2], parts[3]);
    assert parts == [parts[0], parts[1], parts[2], parts[3]];
    assert parts[..3] == [parts[0], parts[1], parts[2]];
  }

  /** The honoured keys: CURRENT, and PREVIOUS when it is set. */
  lemma KeysAre(current: string, previous: Option<string>, key: string)
    ensures key in VerificationKeys(current, previous) <==> key == current || previous == Some(key)
  {
  }

  // ------------------------------------------------------------------ rotation as a timed machine

  datatype Issued<V> = Issued(key: string, payload: Text<V>, issuedAt: int)

  function ExpiryOf<V>(t: Issued<V>): int {
    t.issuedAt + SESSION_TTL_MS
  }

  function TokenOf<V>(t: Issued<V>): Text<V> {
    Token(t.payload, t.issuedAt, ExpiryOf(t), t.key)
  }

  datatype Deployment<V> = Deployment(
    now: int, current: string, previous: Option<string>, rotatedAt: int, issued: seq<Issued<V>>)

  function KeysOf<V>(d: Deployment<V>): seq<string> {
    VerificationKeys(d.current, d.previous)
  }

  datatype KeyStep<V> = Tick(to: int) | SignPayload(payload: Text<V>) | RotateTo(key: string) | Clear

  /** The contract: while a rotation window is open, neither clear nor rotate again. */
  ghost predicate Enabled<V>(d: Deployment<V>, step: KeyStep<V>) {
    match step
    case Tick(to) => d.now <= to
    case SignPayload(payload) => payload != [] && DotFree(payload)
    case RotateTo(_) => d.previous.Some? ==> d.now >= d.rotatedAt + SESSION_TTL_MS
    case Clear => d.previous.Some? ==> d.now >= d.rotatedAt + SESSION_TTL_MS
  }

  function Advance<V>(d: Deployment<V>, step: KeyStep<V>): Deployment<V> {
    match step
    case Tick(to) => d.(now := to)
    case SignPayload(payload) => d.(issued := d.issued + [Issued(d.current, payload, d.now)])
    case RotateTo(key) => d.(current := key, previous := Some(d.current), rotatedAt := d.now)
    case Clear => d.(previous := None)
  }

  ghost predicate Follows<V>(d: Deployment<V>, steps: seq<KeyStep<V>>)
    decreases |steps|
  {
    steps == [] || (Enabled(d, steps[0]) && Follows(Advance(d, steps[0]), steps[1..]))
  }

  function AfterAll<V>(d: Deployment<V>, steps: seq<KeyStep<V>>): Deployment<V>
    decreases |steps|
  {
    if steps == [] then d else AfterAll(Advance(d, steps[0]), steps[1..])
  }

  /** The module's key material, as resolved from the environment. */
  class SigningKeys<V(==)> {
    var current: string
    var previous: Option<string>

    constructor (current: string, previous: Option<string>)
      ensures this.current == current && this.previous == previous
    {
      this.current, this.previous := current, previous;
    }

    /** The keys are those of this deployment. */
    ghost predicate Serves(d: Deployment<V>)
      reads this
    {
      d.current == current && d.previous == previous
    }

    /** signSessionCookieValue: new tokens are signed with CURRENT. */
    method Sign(payload: Text<V>, now: int) returns (token: Text<V>)
      ensures token == TokenOf(Issued(current, payload, now))
    {
      var expiresAt := now + SESSION_TTL_MS;
      var dot := [Chr('.')];
      var signingInput := payload + dot + NumberText(now) + dot + NumberText(expiresAt);
      token := signingInput + dot + Signature(signingInput, current);
      JoinFour(payload, NumberText(now), NumberText(expiresAt), Signature(signingInput, current));
    }

    /** verifySignedSessionToken: every candidate key is compared, none cuts the loop short. */
    method VerifyToken(value: Text<V>, now: int) returns (verified: Option<Verified<V>>)
      ensures verified == Verify(value, now, VerificationKeys(current, previous))
    {
      if value == [] { return None; }
      var parts := Split(value);
      if |parts| != 4 || parts[0] == [] { return None; }
      var input := Join(parts[..3]);
      var keys := VerificationKeys(current, previous);
      var signatureOk := false;
      for i := 0 to |keys|
        invariant signatureOk <==> exists j :: 0 <= j < i && parts[3] == Signature(input, keys[j])
      {
        if parts[3] == Signature(input, keys[i]) {
          signatureOk := true;
        }
      }
      if !signatureOk { return None; }
      var issuedAt, expiresAt := NumberOf(parts[1]), NumberOf(parts[2]);
      if issuedAt.None? || expiresAt.None? { return None; }
      if now >= expiresAt.value { return None; }
      verified := Some(Verified(parts[0], issuedAt.value, expiresAt.value));
    }

    /** The operator's steps 1 and 2: the deployment's rotation step, on the keys. */
    method Rotate(newest: string, ghost d: Deployment<V>)
      requires Serves(d)
      modifies this
      ensures Serves(Advance(d, RotateTo(newest)))
      ensures old(current) in VerificationKeys(current, previous)
    {
      current, previous := newest, Some(current);
    }

    /** The operator's step 4. */
    method ClearPrevious(ghost d: Deployment<V>)
      requires Serves(d)
      modifies this
      ensures Serves(Advance(d, Clear))
      ensures VerificationKeys(current, previous) == [old(current)]
    {
      previous := None;
    }
  }

  /** The cookie's layout: payload, issue time, expiry twelve hours later, and the MAC of these three under the key. */
  lemma TokenLayout<V>(t: Issued<V>)
    ensures var dot: Text<V> := [Chr('.')];
            var input := t.payload + dot + NumberText(t.issuedAt) + dot + NumberText(t.issuedAt + 43200000);
            TokenOf(t) == input + dot + [Mac(t.key, input)]
  {
    JoinFour(t.payload, NumberText(t.issuedAt), NumberText(ExpiryOf(t)), Signature(SigningInput(t.payload, t.issuedAt, ExpiryOf(t)), t.key));
  }

  /** Every issued token is under an honoured key or expired, and PREVIOUS covers its own tokens. */
  ghost predicate WindowCovers<V>(d: Deployment<V>) {
    forall t <- d.issued ::
      && t.payload != [] && DotFree(t.payload) && t.issuedAt <= d.now
      && (|| t.key == d.current
          || ExpiryOf(t) <= d.now
          || (d.previous == Some(t.key) && ExpiryOf(t) <= d.rotatedAt + SESSION_TTL_MS))
  }

  lemma {:induction false} WindowAlwaysCovers<V>(d: Deployment<V>, steps: seq<KeyStep<V>>)
    requires WindowCovers(d) && Follows(d, steps)
    ensures WindowCovers(AfterAll(d, steps))
    decreases |steps|
  {
    if steps != [] {
      WindowAlwaysCovers(Advance(d, steps[0]), steps[1..]);
    }
  }

  /**
   * Rotation safety: in every state a contract-abiding run reaches, every token ever signed
   * verifies to its own payload and timestamps exactly until its expiry.
   */
  lemma TokensLiveExactlyUntilExpiry<V>(d: Deployment<V>, steps: seq<KeyStep<V>>, t: Issued<V>)
    requires WindowCovers(d) && Follows(d, steps)
    requires t in AfterAll(d, steps).issued
    ensures var s := AfterAll(d, steps);
            Verify(TokenOf(t), s.now, KeysOf(s)) ==
            if s.now < t.issuedAt + 43200000 then Some(Verified(t.payload, t.issuedAt, t.issuedAt + 43200000)) else None
  {
    WindowAlwaysCovers(d, steps);
    var s := AfterAll(d, steps);
    PrintedTokenVerifies(t.payload, t.issuedAt, ExpiryOf(t), t.key, s.now, KeysOf(s));
  }

  /**
   * The window's length is tight: clearing PREVIOUS at any moment short of a full lifetime rejects
   * a live token, the one signed just before the rotation.
   */
  lemma ShorterWindowRejectsLiveToken<V>(payload: Text<V>, retired: string, newest: string, rotation: int, clearing: int)
    requires payload != [] && DotFree(payload) && retired != newest
    requires rotation <= clearing < rotation + SESSION_TTL_MS
    ensures var d := Deployment(rotation, retired, None, rotation, []);
            var s := AfterAll(d, [SignPayload(payload), RotateTo(newest), Tick(clearing), Clear]);
            var t := Issued(retired, payload, rotation);
            t in s.issued && s.now < ExpiryOf(t) && Verify(TokenOf(t), s.now, KeysOf(s)).None?
  {
    var d0: Deployment<V> := Deployment(rotation, retired, None, rotation, []);
    var t := Issued(retired, payload, rotation);
    var d1 := Advance(d0, SignPayload(payload));
    var d2 := Advance(d1, RotateTo(newest));
    var d3 := Advance(d2, Tick(clearing));
    var d4 := Advance(d3, Clear);
    assert d1.issued == [t];
    var last: seq<KeyStep<V>> := [Clear];
    var lastTwo: seq<KeyStep<V>> := [Tick(clearing), Clear];
    var lastThree: seq<KeyStep<V>> := [RotateTo(newest), Tick(clearing), Clear];
    assert lastTwo[1..] == last && lastThree[1..] == lastTwo;
    assert [SignPayload(payload), RotateTo(newest), Tick(clearing), Clear][1..] == lastThree;
    assert AfterAll(d3, last) == d4;
    assert AfterAll(d2, lastTwo) == d4;
    assert AfterAll(d1, lastThree) == d4;
    PrintedTokenVerifies(t.payload, t.issuedAt, ExpiryOf(t), t.key, d4.now, KeysOf(d4));
  }

  // ------------------------------------------------------------------ nothing else verifies

  /** The MACs a text shows under an honoured key are signatures of issued tokens. */
  ghost predicate OnlyIssuedSignatures<V(!new)>(value: Text<V>, d: Deployment<V>) {
    forall key, input :: Mac(key, input) in value && key in KeysOf(d) ==>
      exists t <- d.issued :: Mac(key, input) in TokenOf(t)
  }

  /** A payload is free of MACs: the base64url segment the cookie layer passes in. */
  ghost predicate Plain<V>(payload: Text<V>) {
    forall s <- payload :: !s.Mac?
  }

  lemma TokenHasOneMac<V>(t: Issued<V>, key: string, input: Text<V>)
    requires Plain(t.payload) && Mac(key, input) in TokenOf(t)
    ensures TokenOf(t) == input + [Chr('.')] + Signature(input, key)
  {
    var i := SigningInput(t.payload, t.issuedAt, ExpiryOf(t));
    JoinFour(t.payload, NumberText(t.issuedAt), NumberText(ExpiryOf(t)), Signature(i, t.key));
    assert Mac(key, input) !in i;
    assert Mac(key, input) == Mac(t.key, i);
  }

  /**
   * In every reachable state the verifier accepts issued tokens only: a text whose honoured-key
   * MACs were all seen in issued tokens verifies just when it is an issued, unexpired token.
   */
  lemma OnlyIssuedTokensVerify<V(!new)>(d: Deployment<V>, value: Text<V>)
    requires WindowCovers(d) && OnlyIssuedSignatures(value, d) && forall t <- d.issued :: Plain(t.payload)
    ensures Verify(value, d.now, KeysOf(d)).Some? <==>
            exists t <- d.issued :: value == TokenOf(t) && d.now < ExpiryOf(t)
  {
    var keys := KeysOf(d);
    if Verify(value, d.now, keys).Some? {
      VerifiedEndsInMac(value, d.now, keys);
      var key, input :| key in keys && value == input + [Chr('.')] + Signature(input, key);
      assert value[|value| - 1] == Mac(key, input);
      var t :| t in d.issued && Mac(key, input) in TokenOf(t);
      TokenHasOneMac(t, key, input);
      PrintedTokenVerifies(t.payload, t.issuedAt, ExpiryOf(t), t.key, d.now, keys);
      assert value == TokenOf(t);
    }
    if t :| t in d.issued && value == TokenOf(t) && d.now < ExpiryOf(t) {
      PrintedTokenVerifies(t.payload, t.issuedAt, ExpiryOf(t), t.key, d.now, keys);
    }
  }
}
