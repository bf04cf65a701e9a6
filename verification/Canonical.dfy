/**
 The signed envelope of agent requests: the newline-joined canonical text, the key ring and the
 checks made before the replay cache is asked.
 */
module Canonical {
  import opened Text
  import opened Timestamps

  /** A request as signed; the payload is its compact JSON text, which escapes every line break. */
  datatype Request = Request(operation: string, version: nat, requestId: string, timestamp: Instant,
                             nonce: string, keyId: string, payload: string)

  datatype KeyRing = KeyRing(currentKey: string, currentId: string, previousKey: string, previousId: string)

  function CanonicalText(r: Request): string {
    r.operation + "\n" + (Decimal(r.version) + "\n" +
    (r.requestId + "\n" + Format(r.timestamp) + "\n" + r.nonce + "\n" + r.keyId + "\n" + r.payload))
  }

  predicate NonceChar(c: char) {
    'a' <= c <= 'z' || 'A' <= c <= 'Z' || '0' <= c <= '9' || c == '-' || c == '_'
  }

  predicate ValidNonce(nonce: string) {
    16 <= |nonce| <= 256 && forall i :: 0 <= i < |nonce| ==> NonceChar(nonce[i])
  }

  /** `KeyRing.Validate`. */
  predicate ValidRing(ring: KeyRing) {
    && |ring.currentKey| >= 32 && !Blank(ring.currentId)
    && (ring.previousKey != "" ==> |ring.previousKey| >= 32 && !Blank(ring.previousId) && ring.previousId != ring.currentId)
  }

  /** The keys a key id may be verified with; `None` for an unknown id. */
  function VerificationKeys(ring: KeyRing, keyId: string): (keys: Option<seq<string>>)
    ensures keys.None? ==> keyId != "" && keyId != ring.currentId
    ensures keys.Some? ==> keys.value != [] && forall k :: k in keys.value ==> k == ring.currentKey || k == ring.previousKey
  {
    if keyId == "" then
      Some([ring.currentKey] + if ring.previousKey != "" then [ring.previousKey] else [])
    else if keyId == ring.currentId then Some([ring.currentKey])
    else if ring.previousKey != "" && keyId == ring.previousId then Some([ring.previousKey])
    else None
  }

  /** The key is the ring's current key under a name that stands for it, or its previous key under one that does. */
  predicate Stands(ring: KeyRing, keyId: string, key: string) {
    || (key == ring.currentKey && (keyId == "" || keyId == ring.currentId))
    || (key == ring.previousKey && ring.previousKey != "" && (keyId == "" || keyId == ring.previousId))
  }

  /**
    * Under a valid ring the keys tried for an id are exactly those it stands for: the empty id for both
    * keys, a name for the one key of that name, and no other id for any. All are at least 32 bytes long.
    */
  lemma KeysTried(ring: KeyRing, keyId: string)
    requires ValidRing(ring)
    ensures var keys := VerificationKeys(ring, keyId);
            && (keys.None? <==> keyId != "" && keyId != ring.currentId && (ring.previousKey == "" || keyId != ring.previousId))
            && (keys.Some? ==> forall k :: k in keys.value <==> Stands(ring, keyId, k))
            && (keys.Some? ==> forall k :: k in keys.value ==> |k| >= 32)
  {
  }

  /** `SignWithKey`. */
  method SignWithKey(r: Request, key: string, keyId: string, mac: (string, string) -> string)
    returns (signed: Request, signature: string)
    ensures signed == r.(keyId := keyId) && signature == mac(key, CanonicalText(signed))
  {
    signed := r.(keyId := keyId);
    signature := mac(key, CanonicalText(signed));
  }

  /**
    * A request signed with a key under an id, and checked inside the skew window, is verified exactly when
    * the id stands for that key, unless another key of the ring gives the same signature.
    */
  lemma SignThenVerify(signed: Request, key: string, ring: KeyRing, now: int, skew: int, mac: (string, string) -> string)
    requires ValidRing(ring) && WithinSkew(signed.timestamp, now, skew)
    requires forall k | k in {ring.currentKey, ring.previousKey} ::
               mac(k, CanonicalText(signed)) == mac(key, CanonicalText(signed)) ==> k == key
    ensures Verified(signed, mac(key, CanonicalText(signed)), ring, now, skew, mac) <==> Stands(ring, signed.keyId, key)
  {
    KeysTried(ring, signed.keyId);
    var keys, signature := VerificationKeys(ring, signed.keyId), mac(key, CanonicalText(signed));
    if Stands(ring, signed.keyId, key) {
      assert keys.Some? && key in keys.value && mac(key, CanonicalText(signed)) == signature;
    }
  }

  /** Outside the window, or under an invalid ring, nothing is verified; so the window is what the clocks may differ by. */
  lemma VerifiedInWindow(r: Request, signature: string, ring: KeyRing, now: int, skew: int, mac: (string, string) -> string)
    requires Verified(r, signature, ring, now, skew, mac)
    ensures now - skew <= r.timestamp <= now + skew && r.timestamp != ZERO_TIME && |ring.currentKey| >= 32
  {
  }

  /** Go's zero time, 0001-01-01T00:00:00Z. */
  const ZERO_TIME: int := 366 * 24 * HOUR

  predicate WithinSkew(timestamp: int, now: int, skew: int) {
    timestamp != ZERO_TIME && skew > 0 && now - skew <= timestamp <= now + skew
  }

  /** `VerifyWithKeyRing`, with the keyed hash left uninterpreted. */
  method VerifyWithKeyRing(r: Request, signature: string, ring: KeyRing, now: int, skew: int,
                           mac: (string, string) -> string) returns (ok: bool)
    ensures ok <==> Verified(r, signature, ring, now, skew, mac)
  {
    if !ValidRing(ring) || !WithinSkew(r.timestamp, now, skew) {
      return false;
    }
    var keys := VerificationKeys(ring, r.keyId);
    if keys.None? {
      return false;
    }
    for i := 0 to |keys.value|
      invariant forall j :: 0 <= j < i ==> mac(keys.value[j], CanonicalText(r)) != signature
    {
      if mac(keys.value[i], CanonicalText(r)) == signature {
        return true;
      }
    }
    return false;
  }

  predicate Verified(r: Request, signature: string, ring: KeyRing, now: int, skew: int, mac: (string, string) -> string) {
    && ValidRing(ring)
    && WithinSkew(r.timestamp, now, skew)
    && var keys := VerificationKeys(ring, r.keyId);
       keys.Some? && exists k :: k in keys.value && mac(k, CanonicalText(r)) == signature
  }

  /** What every request that reaches the replay cache has passed. Request ids may hold line breaks. */
  predicate Admitted(r: Request, ring: KeyRing, catalogue: set<string>) {
    && r.operation in catalogue
    && ValidNonce(r.nonce)
    && VerificationKeys(ring, r.keyId).Some?
    && OneLine(r.payload)
  }

  /** Catalogue names and configured key ids are single lines. */
  predicate PlainNames(ring: KeyRing, catalogue: set<string>) {
    && OneLine(ring.currentId) && OneLine(ring.previousId)
    && forall name :: name in catalogue ==> OneLine(name)
  }

  /** Reading two lines from the front and four from the back recovers every signed field. */
  lemma CanonicalInjective(a: Request, b: Request, ring: KeyRing, catalogue: set<string>)
    requires PlainNames(ring, catalogue)
    requires Admitted(a, ring, catalogue) && Admitted(b, ring, catalogue)
    requires CanonicalText(a) == CanonicalText(b)
    ensures a == b
  {
    var a4 := a.requestId + "\n" + Format(a.timestamp);
    var b4 := b.requestId + "\n" + Format(b.timestamp);
    var a3, b3 := a4 + "\n" + a.nonce, b4 + "\n" + b.nonce;
    var a2, b2 := a3 + "\n" + a.keyId, b3 + "\n" + b.keyId;
    var a1, b1 := a2 + "\n" + a.payload, b2 + "\n" + b.payload;
    FirstLine(a.operation, Decimal(a.version) + "\n" + a1, b.operation, Decimal(b.version) + "\n" + b1);
    FirstLine(Decimal(a.version), a1, Decimal(b.version), b1);
    LastLine(a2, a.payload, b2, b.payload);
    LastLine(a3, a.keyId, b3, b.keyId);
    LastLine(a4, a.nonce, b4, b.nonce);
    FormatOneLine(a.timestamp);
    FormatOneLine(b.timestamp);
    LastLine(a.requestId, Format(a.timestamp), b.requestId, Format(b.timestamp));
    DecimalRoundTrip(a.version);
    DecimalRoundTrip(b.version);
    FormatInjective(a.timestamp, b.timestamp);
  }

  /** Unless two texts and keys of the ring collide, one signature vouches for one request. */
  lemma SignatureFixesRequest(a: Request, b: Request, signature: string, ring: KeyRing, catalogue: set<string>,
                              nowA: int, nowB: int, skew: int, mac: (string, string) -> string)
    requires PlainNames(ring, catalogue)
    requires Admitted(a, ring, catalogue) && Admitted(b, ring, catalogue)
    requires Verified(a, signature, ring, nowA, skew, mac) && Verified(b, signature, ring, nowB, skew, mac)
    requires forall k, l | k in {ring.currentKey, ring.previousKey} && l in {ring.currentKey, ring.previousKey} ::
               mac(k, CanonicalText(a)) == mac(l, CanonicalText(b)) ==> CanonicalText(a) == CanonicalText(b)
    ensures a == b
  {
    var k :| k in VerificationKeys(ring, a.keyId).value && mac(k, CanonicalText(a)) == signature;
    var l :| l in VerificationKeys(ring, b.keyId).value && mac(l, CanonicalText(b)) == signature;
    assert mac(k, CanonicalText(a)) == mac(l, CanonicalText(b));
    CanonicalInjective(a, b, ring, catalogue);
  }
}
