/** The payloads an account exchanges with the server (server/src/crypto.rs): the
    registration triple, the server-auth challenge and the head of a keyset. */
module AccountPayloads {
  import opened Wrappers
  import opened ByteStrings
  import opened RecordSignatures

  // ---------- signatures over a domain ----------

  datatype Outcome = Verified | Malformed | Unauthenticated

  datatype Purpose = Registering | Authenticating | Auditing

  function PurposeDomain(p: Purpose): (d: Bytes)
    ensures |d| < 0x1_0000
  {
    match p
    case Registering => RegistrationDomain()
    case Authenticating => ServerAuthDomain()
    case Auditing => AuditDomain()
  }

  function PurposeMessage(p: Purpose, payload: Bytes): Message {
    match p
    case Registering => RegistrationMessage(payload)
    case Authenticating => ServerAuthMessage(payload)
    case Auditing => AuditMessage(payload)
  }

  /** `domain_message`: the length of the domain, the domain and the payload, refused when
      the domain does not fit its length. */
  method DomainMessage(domain: Bytes, payload: Bytes) returns (out: Option<Bytes>)
    ensures out == if |domain| < 0x1_0000 then Some(Be(2, |domain|) + domain + payload) else None
  {
    if |domain| >= 0x1_0000 {
      return None;
    }
    var b := Be(2, |domain|);
    b := b + domain;
    b := b + payload;
    out := Some(b);
  }

  /** The message a signature of this purpose is over. */
  lemma PurposeMessageInARow(p: Purpose, payload: Bytes)
    ensures MessageBytes(PurposeMessage(p, payload)) == Be(2, |PurposeDomain(p)|) + PurposeDomain(p) + payload
  {
    ShortThenRest([], PurposeDomain(p), payload);
    assert MessageBytes(PurposeMessage(p, payload)) == PutShort(PurposeDomain(p), payload);
    assert [] + Short(PurposeDomain(p)) == Short(PurposeDomain(p));
    assert [] + PutShort(PurposeDomain(p), payload) == PutShort(PurposeDomain(p), payload);
  }

  /** The key signed the message: both are well formed and the signature holds. */
  ghost predicate Holds(crypto: Crypto, key: Bytes, m: Message, sig: Bytes)
    requires Encodable(m)
  {
    exists raw: Bytes :: Presents(crypto, key, sig, raw) && crypto.verifies(key, MessageBytes(m), raw)
  }

  /** Both are well formed and the signature does not hold. */
  ghost predicate Fails(crypto: Crypto, key: Bytes, m: Message, sig: Bytes)
    requires Encodable(m)
  {
    exists raw: Bytes :: Presents(crypto, key, sig, raw) && !crypto.verifies(key, MessageBytes(m), raw)
  }

  /** What the outcome says of the signature: verified exactly when it holds, and
      unauthenticated exactly when it is well formed and does not. */
  ghost predicate Tells(o: Outcome, crypto: Crypto, key: Bytes, m: Message, sig: Bytes)
    requires Encodable(m)
  {
    (o.Verified? <==> Holds(crypto, key, m, sig)) && (o.Unauthenticated? <==> Fails(crypto, key, m, sig))
  }

  lemma HoldsIff(crypto: Crypto, key: Bytes, m: Message, sig: Bytes)
    requires Encodable(m)
    ensures var formed := |key| == 32 && crypto.isPoint(key) && ParseSigBlob(sig).Some?;
            var holds := formed && crypto.verifies(key, MessageBytes(m), ParseSigBlob(sig).value);
            (Holds(crypto, key, m, sig) <==> holds) && (Fails(crypto, key, m, sig) <==> formed && !holds)
  {
    forall raw: Bytes
      ensures Presents(crypto, key, sig, raw) <==>
              |key| == 32 && crypto.isPoint(key) && ParseSigBlob(sig) == Some(raw)
    {
      PresentsIff(crypto, key, sig, raw);
    }
    if ParseSigBlob(sig).Some? {
      PresentsIff(crypto, key, sig, ParseSigBlob(sig).value);
    }
  }

  /** `domain_verify`: a key or a signature that is not one is malformed; only a signature
      that does not hold is unauthenticated. */
  method DomainVerify(crypto: Crypto, key: Bytes, p: Purpose, payload: Bytes, sig: Bytes) returns (o: Outcome)
    ensures Tells(o, crypto, key, PurposeMessage(p, payload), sig)
  {
    HoldsIff(crypto, key, PurposeMessage(p, payload), sig);
    var raw := ParseSigBlob(sig);
    if |key| != 32 || !crypto.isPoint(key) || raw.None? {
      return Malformed;
    }
    PurposeMessageInARow(p, payload);
    var msg := DomainMessage(PurposeDomain(p), payload);
    o := if crypto.verifies(key, msg.value, raw.value) then Verified else Unauthenticated;
  }

  // ---------- registration ----------

  datatype Registration = Registration(accountId: Bytes, x25519: Key, ed25519: Key)

  function PrintRegistration(p: Registration): Bytes
    requires |p.accountId| < 0x1_0000
  {
    PutShort(p.accountId, p.x25519 + p.ed25519)
  }

  /** The length of the account id, the id, the X25519 key and the Ed25519 key. */
  lemma RegistrationInARow(p: Registration)
    requires |p.accountId| < 0x1_0000
    ensures PrintRegistration(p) == Be(2, |p.accountId|) + p.accountId + p.x25519 + p.ed25519
  {
  }

  lemma RegistrationsAreUnambiguous(p: Registration, q: Registration)
    requires |p.accountId| < 0x1_0000 && |q.accountId| < 0x1_0000 && PrintRegistration(p) == PrintRegistration(q)
    ensures p == q
  {
    var keys := p.x25519 + p.ed25519;
    assert keys == q.x25519 + q.ed25519;
    assert p.x25519 == keys[..32] && q.x25519 == keys[..32];
    assert p.ed25519 == keys[32..] && q.ed25519 == keys[32..];
  }

  /** `canonical`: refused only when the account id does not fit its length. */
  method Canonical(p: Registration) returns (out: Option<Bytes>)
    ensures out == if |p.accountId| < 0x1_0000 then Some(PrintRegistration(p)) else None
  {
    if |p.accountId| >= 0x1_0000 {
      return None;
    }
    var b := Be(2, |p.accountId|);
    b := b + p.accountId;
    b := b + p.x25519;
    b := b + p.ed25519;
    assert b == Be(2, |p.accountId|) + (p.accountId + (p.x25519 + p.ed25519)) == PrintRegistration(p);
    out := Some(b);
  }

  /** `parse_canonical`: the one triple whose canonical form this is, or an error when
      there is none. */
  method ParseCanonical(bytes: Bytes) returns (p: Option<Registration>)
    ensures p.Some? ==> |p.value.accountId| < 0x1_0000 && PrintRegistration(p.value) == bytes
    ensures p.None? ==> forall q: Registration | |q.accountId| < 0x1_0000 :: PrintRegistration(q) != bytes
    ensures forall q: Registration | |q.accountId| < 0x1_0000 && PrintRegistration(q) == bytes :: p == Some(q)
  {
    forall q: Registration | |q.accountId| < 0x1_0000 && PrintRegistration(q) == bytes
      ensures |bytes| >= 2 && |bytes| == 2 + FromBe(bytes[..2]) + 64
    {
      assert TakeShort(bytes) == Some((q.accountId, q.x25519 + q.ed25519));
    }
    if |bytes| < 2 {
      return None;
    }
    Widths();
    var n := FromBe(bytes[..2]);
    if |bytes| != 2 + n + 64 {
      return None;
    }
    var rest := bytes[2..];
    var accountId, keys := rest[..n], rest[n..];
    var r := Registration(accountId, keys[..32], keys[32..]);
    BeOfFromBe(bytes[..2]);
    assert r.x25519 + r.ed25519 == keys;
    assert PrintRegistration(r) == Be(2, n) + (accountId + keys) == bytes;
    forall q: Registration | |q.accountId| < 0x1_0000 && PrintRegistration(q) == bytes
      ensures q == r
    {
      RegistrationsAreUnambiguous(q, r);
    }
    p := Some(r);
  }

  /** A registration's message is that of this triple and of no other, and of no record,
      challenge or audit entry. */
  lemma RegistrationMessageIsItsOwn(p: Registration, m: Message)
    requires |p.accountId| < 0x1_0000 && Encodable(m)
    requires MessageBytes(m) == MessageBytes(RegistrationMessage(PrintRegistration(p)))
    ensures m.RegistrationMessage?
    ensures forall q: Registration | |q.accountId| < 0x1_0000 && m.payload == PrintRegistration(q) :: q == p
  {
    MessagesAreUnambiguous(m, RegistrationMessage(PrintRegistration(p)));
    forall q: Registration | |q.accountId| < 0x1_0000 && m.payload == PrintRegistration(q)
      ensures q == p
    {
      RegistrationsAreUnambiguous(q, p);
    }
  }

  /** `verify_registration`: self-attested, under the key the payload itself names. */
  method VerifyRegistration(crypto: Crypto, p: Registration, sig: Bytes) returns (o: Outcome)
    ensures |p.accountId| >= 0x1_0000 ==> o.Malformed?
    ensures |p.accountId| < 0x1_0000 ==> Tells(o, crypto, p.ed25519, RegistrationMessage(PrintRegistration(p)), sig)
  {
    var payload := Canonical(p);
    if payload.None? {
      return Malformed;
    }
    o := DomainVerify(crypto, p.ed25519, Registering, payload.value, sig);
  }

  // ---------- the server-auth challenge ----------

  datatype Challenge =
    Challenge(host: Bytes, accountId: Bytes, deviceId: Bytes, keyId: Bytes, nonce: Bytes, expiry: U64)

  predicate Fits(c: Challenge) {
    && |c.host| < 0x1_0000 && |c.accountId| < 0x1_0000 && |c.deviceId| < 0x1_0000
    && |c.keyId| < 0x1_0000 && |c.nonce| < 0x1_0000
  }

  function PrintChallenge(c: Challenge): Bytes
    requires Fits(c)
  {
    PutShort(c.host, PutShort(c.accountId, PutShort(c.deviceId, PutShort(c.keyId,
    PutShort(c.nonce, PutU64(c.expiry, []))))))
  }

  /** The canonical bytes determine every field of the challenge. */
  lemma ChallengesAreUnambiguous(c: Challenge, d: Challenge)
    requires Fits(c) && Fits(d)
    ensures PrintChallenge(c) == PrintChallenge(d) ==> c == d
  {
    var b1 := TakeShort(PrintChallenge(c)).value.1;
    var b2 := TakeShort(b1).value.1;
    var b3 := TakeShort(b2).value.1;
    var b4 := TakeShort(b3).value.1;
    var b5 := TakeShort(b4).value.1;
    assert TakeU64(b5) == Some((c.expiry, []));
  }

  /** The local `put`: the length and the field, after what is there. */
  method PutField(out: Bytes, f: Bytes) returns (r: Option<Bytes>)
    ensures r == if |f| < 0x1_0000 then Some(out + Short(f)) else None
  {
    if |f| >= 0x1_0000 {
      return None;
    }
    var b := out + Be(2, |f|);
    b := b + f;
    assert b == out + Short(f);
    r := Some(b);
  }

  lemma ChallengeInARow(c: Challenge)
    requires Fits(c)
    ensures [] + Short(c.host) + Short(c.accountId) + Short(c.deviceId) + Short(c.keyId) + Short(c.nonce)
            + Be(8, c.expiry)
         == PrintChallenge(c)
  {
    var b1 := [] + Short(c.host);
    var b2 := b1 + Short(c.accountId);
    var b3 := b2 + Short(c.deviceId);
    var b4 := b3 + Short(c.keyId);
    var r5 := PutU64(c.expiry, []);
    ShortThenRest(b4, c.nonce, r5);
    var r4 := PutShort(c.nonce, r5);
    ShortThenRest(b3, c.keyId, r4);
    var r3 := PutShort(c.keyId, r4);
    ShortThenRest(b2, c.deviceId, r3);
    var r2 := PutShort(c.deviceId, r3);
    ShortThenRest(b1, c.accountId, r2);
    var r1 := PutShort(c.accountId, r2);
    ShortThenRest([], c.host, r1);
    assert [] + PutShort(c.host, r1) == PrintChallenge(c);
    assert r5 == Be(8, c.expiry) + [] == Be(8, c.expiry);
  }

  /** `canonical`: refused exactly when a field does not fit its length. */
  method ChallengeCanonical(c: Challenge) returns (out: Option<Bytes>)
    ensures out.Some? <==> Fits(c)
    ensures out.Some? ==> out.value == PrintChallenge(c)
  {
    var b :- PutField([], c.host);
    b :- PutField(b, c.accountId);
    b :- PutField(b, c.deviceId);
    b :- PutField(b, c.keyId);
    b :- PutField(b, c.nonce);
    ChallengeInARow(c);
    out := Some(b + Be(8, c.expiry));
  }

  /** A challenge's message is that of these six fields and of no others, and of no record,
      registration or audit entry. */
  lemma ChallengeMessageIsItsOwn(c: Challenge, m: Message)
    requires Fits(c) && Encodable(m)
    ensures MessageBytes(m) == MessageBytes(ServerAuthMessage(PrintChallenge(c))) ==>
              m.ServerAuthMessage? && forall d: Challenge | Fits(d) && m.payload == PrintChallenge(d) :: d == c
  {
    if MessageBytes(m) == MessageBytes(ServerAuthMessage(PrintChallenge(c))) {
      MessagesAreUnambiguous(m, ServerAuthMessage(PrintChallenge(c)));
      forall d: Challenge | Fits(d) && m.payload == PrintChallenge(d)
        ensures d == c
      {
        ChallengesAreUnambiguous(d, c);
      }
    }
  }

  /** `verify_server_auth`: under the device's key. */
  method VerifyServerAuth(crypto: Crypto, key: Bytes, c: Challenge, sig: Bytes) returns (o: Outcome)
    ensures !Fits(c) ==> o.Malformed?
    ensures Fits(c) ==> Tells(o, crypto, key, ServerAuthMessage(PrintChallenge(c)), sig)
  {
    var payload := ChallengeCanonical(c);
    if payload.None? {
      return Malformed;
    }
    assert PurposeMessage(Authenticating, payload.value) == ServerAuthMessage(PrintChallenge(c));
    o := DomainVerify(crypto, key, Authenticating, payload.value, sig);
  }

  // ---------- the keyset header ----------

  datatype KeysetHeader = KeysetHeader(mode: Byte, generation: U32, x25519: Key, ed25519: Key)

  /** A whole keyset blob: the header's fields, and what stands around them. */
  datatype KeysetBlob = KeysetBlob(format: Byte, header: KeysetHeader, kdf: Bytes, wrapped: Bytes)

  /** Formats 2 and 3; a password keyset has KDF parameters, a secret-key one has none;
      something is wrapped. */
  ghost predicate WellFormed(k: KeysetBlob) {
    && (k.format == 2 || k.format == 3)
    && (k.header.mode == 1 || k.header.mode == 2)
    && (k.header.mode == 1 <==> k.kdf != [])
    && |k.kdf| < 0x1_0000
    && k.wrapped != []
  }

  function PrintKeyset(k: KeysetBlob): Bytes
    requires |k.kdf| < 0x1_0000
  {
    PutOctet(k.format, PutOctet(k.header.mode, PutU32(k.header.generation,
    PutShort(k.kdf, k.header.x25519 + (k.header.ed25519 + k.wrapped)))))
  }

  /** The blobs `parse_keyset_header` lets through, and where it finds their parts. */
  ghost predicate Accepts(b: Bytes) {
    && |b| >= 73
    && (b[0] == 2 || b[0] == 3)
    && (b[1] == 1 || b[1] == 2)
    && (b[1] == 1 <==> FromBe(b[6..8]) > 0)
    && |b| >= 73 + FromBe(b[6..8])
  }

  ghost function KeysetAt(b: Bytes): KeysetBlob
    requires Accepts(b)
  {
    Widths();
    var n := FromBe(b[6..8]);
    KeysetBlob(b[0], KeysetHeader(b[1], FromBe(b[2..6]), b[8 + n..40 + n], b[40 + n..72 + n]), b[8..8 + n], b[72 + n..])
  }

  lemma Within(b: Bytes, i: nat, j: nat)
    requires i + j <= |b|
    ensures b[i..][..j] == b[i..i + j] && b[i..][j..] == b[i + j..]
  {
  }

  lemma KeysetFront(k: KeysetBlob)
    requires |k.kdf| < 0x1_0000
    ensures var b := PrintKeyset(k);
            && |b| >= 8 && b[0] == k.format && b[1] == k.header.mode
            && FromBe(b[2..6]) == k.header.generation && FromBe(b[6..8]) == |k.kdf|
            && b[8..] == k.kdf + (k.header.x25519 + (k.header.ed25519 + k.wrapped))
  {
    var b := PrintKeyset(k);
    var b6 := PutShort(k.kdf, k.header.x25519 + (k.header.ed25519 + k.wrapped));
    var b2 := PutU32(k.header.generation, b6);
    assert TakeOctet(b) == Some((k.format, PutOctet(k.header.mode, b2)));
    Within(b, 1, 1);
    assert b[2..] == b2;
    assert TakeU32(b2) == Some((k.header.generation, b6));
    Within(b, 2, 4);
    assert b[6..] == b6;
    Within(b, 6, 2);
    assert TakeU16(b6) == Some((|k.kdf|, b6[2..]));
  }

  lemma KeysetBack(k: KeysetBlob, b: Bytes)
    requires b == k.kdf + (k.header.x25519 + (k.header.ed25519 + k.wrapped))
    ensures var n := |k.kdf|;
            && b[..n] == k.kdf && b[n..n + 32] == k.header.x25519 && b[n + 32..n + 64] == k.header.ed25519
            && b[n + 64..] == k.wrapped
  {
  }

  lemma KeysetBytes(k: KeysetBlob)
    requires |k.kdf| < 0x1_0000
    ensures var b, n := PrintKeyset(k), |k.kdf|;
            && |b| == 72 + n + |k.wrapped|
            && b[0] == k.format && b[1] == k.header.mode
            && FromBe(b[2..6]) == k.header.generation && FromBe(b[6..8]) == n
            && b[8..8 + n] == k.kdf
            && b[8 + n..40 + n] == k.header.x25519 && b[40 + n..72 + n] == k.header.ed25519
            && b[72 + n..] == k.wrapped
  {
    KeysetFront(k);
    var b, n := PrintKeyset(k), |k.kdf|;
    KeysetBack(k, b[8..]);
    Within(b, 8, n);
    assert b[8..][n..n + 32] == b[8 + n..40 + n] && b[8..][n + 32..n + 64] == b[40 + n..72 + n];
    Within(b, 8, n + 64);
  }

  lemma KeysetRelaid(b: Bytes)
    requires Accepts(b)
    ensures PrintKeyset(KeysetAt(b)) == b
  {
    var n, k := FromBe(b[6..8]), KeysetAt(b);
    BeOfFromBe(b[2..6]);
    BeOfFromBe(b[6..8]);
    assert b[8 + n..40 + n] + (b[40 + n..72 + n] + b[72 + n..]) == b[8 + n..];
    assert b[8..8 + n] + b[8 + n..] == b[8..];
    assert b[6..8] + b[8..] == b[6..];
    assert b[2..6] + b[6..] == b[2..];
    assert [b[1]] + b[2..] == b[1..];
    assert PutShort(k.kdf, b[8 + n..]) == b[6..8] + (k.kdf + b[8 + n..]);
  }

  lemma PrintIsAccepted(k: KeysetBlob)
    requires WellFormed(k)
    ensures Accepts(PrintKeyset(k)) && KeysetAt(PrintKeyset(k)) == k
  {
    KeysetBytes(k);
  }

  lemma AcceptedIsPrint(b: Bytes)
    requires Accepts(b)
    ensures WellFormed(KeysetAt(b)) && PrintKeyset(KeysetAt(b)) == b
  {
    Widths();
    KeysetRelaid(b);
  }

  /** A blob is let through exactly when it is the print of a well-formed keyset, and
      that keyset is the one whose parts are found. */
  lemma AcceptedIffKeyset(b: Bytes, k: KeysetBlob)
    ensures WellFormed(k) && PrintKeyset(k) == b <==> Accepts(b) && KeysetAt(b) == k
  {
    if WellFormed(k) {
      PrintIsAccepted(k);
    }
    if Accepts(b) {
      AcceptedIsPrint(b);
    }
  }

  /** `parse_keyset_header`: the header of the keyset the blob is, or an error when it
      is none. */
  method ParseKeysetHeader(blob: Bytes) returns (h: Option<KeysetHeader>)
    ensures h.Some? <==> Accepts(blob)
    ensures h.Some? ==> h.value == KeysetAt(blob).header
  {
    if |blob| < 8 + 64 {
      return None;
    }
    var format, mode := blob[0], blob[1];
    if format != 2 && format != 3 {
      return None;
    }
    if mode != 1 && mode != 2 {
      return None;
    }
    Widths();
    var generation := FromBe(blob[2..6]);
    var n := FromBe(blob[6..8]);
    var pos := 8;
    if n > 0 {
      var end := pos + n;
      if |blob| < end + 64 {
        return None;
      }
      pos := end;
    }
    if (mode == 1) != (n > 0) {
      return None;
    }
    if |blob| < pos + 64 + 1 {
      return None;
    }
    h := Some(KeysetHeader(mode, generation, blob[pos..pos + 32], blob[pos + 32..pos + 64]));
  }
}
