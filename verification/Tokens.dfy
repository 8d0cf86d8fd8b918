/** Signed tokens: hash method, hash, salt, signature method and signature, joined by dots. */
module Tokens {
  import opened Common
  import opened Text
  import Base64
  import LittleEndian

  type Bytes = seq<Byte>

  /** A key pair, by name. */
  type Key = string

  datatype VerifyingKey = Ed25519(der: Bytes) | RsaPss(der: Bytes)

  /** Hashing and signing are parameters of the model. */
  datatype Crypto = Crypto(
    sha256: Bytes -> Bytes,
    publicDer: Key -> Bytes,
    sign: (Key, Bytes) -> Bytes,
    verify: (VerifyingKey, Bytes, Bytes) -> bool)

  /** What a signature scheme promises. */
  ghost predicate SignaturesVerify(x: Crypto) {
    forall key, message :: x.verify(PublicKey(x, key), message, x.sign(key, message))
  }

  function PublicKey(x: Crypto, key: Key): VerifyingKey { Ed25519(x.publicDer(key)) }

  function SignatureMethod(key: VerifyingKey): string {
    match key
    case Ed25519(_) => "ed25519"
    case RsaPss(_) => "rsa-pss"
  }

  function GenerateNonce(x: Crypto, key: Key, salt: Bytes): string {
    JoinWith(TokenParts(x, key, salt), '.')
  }

  function TokenParts(x: Crypto, key: Key, salt: Bytes): (parts: seq<string>)
    ensures |parts| == 5
  {
    var digest := x.sha256(x.publicDer(key) + salt);
    ["sha256", Base64.Encode(digest), Base64.Encode(salt), "ed25519", Base64.Encode(x.sign(key, digest))]
  }

  /** The salt is the time of issue, in seconds, as eight bytes. */
  function GenerateTimestamp(x: Crypto, key: Key, now: nat): string {
    GenerateNonce(x, key, LittleEndian.ToBytes(now, 8))
  }

  function ExtractSignatureIdentifier(token: string): Option<string> {
    var parts := SplitAt(token, '.');
    if |parts| > 3 then Some(parts[3]) else None
  }

  datatype Rejection =
    | HashMethod
    | SignMethod
    | SaltEncoding
    | BadSalt
    | HashMismatch
    | SignatureEncoding
    | BadSignature

  /** `Aborted`: fewer than five parts, or an unsigned difference below zero. */
  datatype Outcome = Accepted | Rejected(reason: Rejection) | Aborted

  function VerifyWithResult(x: Crypto, key: VerifyingKey, token: string, checkSalt: Bytes -> Outcome): Outcome {
    var parts := SplitAt(token, '.');
    if |parts| < 5 then Aborted
    else if parts[0] != "sha256" then Rejected(HashMethod)
    else if parts[3] != SignatureMethod(key) then Rejected(SignMethod)
    else
      var salt := Base64.Decode(parts[2]);
      if salt.None? then Rejected(SaltEncoding)
      else if checkSalt(salt.value) != Accepted then checkSalt(salt.value)
      else
        var digest := x.sha256(key.der + salt.value);
        if Base64.Encode(digest) != parts[1] then Rejected(HashMismatch)
        else
          var signature := Base64.Decode(parts[4]);
          if signature.None? then Rejected(SignatureEncoding)
          else if !x.verify(key, digest, signature.value) then Rejected(BadSignature)
          else Accepted
  }

  function SaltIs(nonce: Bytes): Bytes -> Outcome {
    (salt: Bytes) => if salt == nonce then Accepted else Rejected(BadSalt)
  }

  const ONE_HOUR: nat := 60 * 60

  function SaltIsRecent(now: nat): Bytes -> Outcome {
    (salt: Bytes) =>
      if |salt| != 8 then Rejected(BadSalt)
      else
        var issued := LittleEndian.FromBytes(salt);
        if now < issued then Aborted
        else if now - issued > ONE_HOUR then Rejected(BadSalt)
        else Accepted
  }

  predicate VerifyNonce(x: Crypto, key: VerifyingKey, token: string, nonce: Bytes) {
    VerifyWithResult(x, key, token, SaltIs(nonce)) == Accepted
  }

  predicate VerifyTimestamp(x: Crypto, key: VerifyingKey, token: string, now: nat) {
    VerifyWithResult(x, key, token, SaltIsRecent(now)) == Accepted
  }

  /** A token splits back into the five parts it was made of, whatever the key and the salt. */
  lemma SplitsIntoParts(x: Crypto, key: Key, salt: Bytes)
    ensures SplitAt(GenerateNonce(x, key, salt), '.') == TokenParts(x, key, salt)
    ensures ExtractSignatureIdentifier(GenerateNonce(x, key, salt)) == Some("ed25519")
  {
    var parts := TokenParts(x, key, salt);
    var digest := x.sha256(x.publicDer(key) + salt);
    Base64.NoDot(digest);
    Base64.NoDot(salt);
    Base64.NoDot(x.sign(key, digest));
    assert forall i :: 0 <= i < |parts| ==> '.' !in parts[i];
    SplitJoin(parts, '.');
  }

  /** The text of a token. */
  lemma TokenText(x: Crypto, key: Key, salt: Bytes)
    ensures var digest := x.sha256(x.publicDer(key) + salt);
      GenerateNonce(x, key, salt) == "sha256." + (Base64.Encode(digest) + ("." + (Base64.Encode(salt) + (".ed25519."
        + Base64.Encode(x.sign(key, digest))))))
  {
    var digest := x.sha256(x.publicDer(key) + salt);
    var h, s, g := Base64.Encode(digest), Base64.Encode(salt), Base64.Encode(x.sign(key, digest));
    var parts := ["sha256", h, s, "ed25519", g];
    hide Base64.Encode;
    assert parts[1..] == [h, s, "ed25519", g] && parts[1..][1..] == [s, "ed25519", g];
    assert [s, "ed25519", g][1..] == ["ed25519", g] && ["ed25519", g][1..] == [g];
    assert JoinWith([g], '.') == g;
    assert JoinWith(["ed25519", g], '.') == "ed25519." + g;
    assert JoinWith([s, "ed25519", g], '.') == s + (".ed25519." + g);
    assert JoinWith([h, s, "ed25519", g], '.') == h + ("." + (s + (".ed25519." + g)));
  }

  /** The signature identifier of any text is its fourth part, if there are that many. */
  lemma IdentifierIsFourthPart(parts: seq<string>)
    requires parts != [] && forall i :: 0 <= i < |parts| ==> '.' !in parts[i]
    ensures ExtractSignatureIdentifier(JoinWith(parts, '.')) == if |parts| >= 4 then Some(parts[3]) else None
  {
    SplitJoin(parts, '.');
  }

  /** A generated token fares as its salt does. */
  lemma GeneratedFaresAsSalt(x: Crypto, key: Key, salt: Bytes, checkSalt: Bytes -> Outcome)
    requires SignaturesVerify(x)
    ensures VerifyWithResult(x, PublicKey(x, key), GenerateNonce(x, key, salt), checkSalt) == checkSalt(salt)
  {
    SplitsIntoParts(x, key, salt);
    var digest := x.sha256(x.publicDer(key) + salt);
    Base64.EncodeRoundTrip(salt);
    Base64.EncodeRoundTrip(x.sign(key, digest));
    assert x.verify(PublicKey(x, key), digest, x.sign(key, digest));
  }

  /** A nonce token verifies with the matching key exactly for the nonce it was made for. */
  lemma NonceTokenVerifiesIff(x: Crypto, key: Key, salt: Bytes, nonce: Bytes)
    requires SignaturesVerify(x)
    ensures VerifyNonce(x, PublicKey(x, key), GenerateNonce(x, key, salt), nonce) <==> nonce == salt
  {
    GeneratedFaresAsSalt(x, key, salt, SaltIs(nonce));
  }

  /** A timestamp token verifies with the matching key exactly from its issue to one hour later,
      both included. */
  lemma TimestampTokenVerifiesIff(x: Crypto, key: Key, issued: nat, now: nat)
    requires SignaturesVerify(x) && issued < LittleEndian.Pow256(8)
    ensures VerifyTimestamp(x, PublicKey(x, key), GenerateTimestamp(x, key, issued), now)
      <==> issued <= now <= issued + 3600
  {
    GeneratedFaresAsSalt(x, key, LittleEndian.ToBytes(issued, 8), SaltIsRecent(now));
    LittleEndian.NumberRoundTrip(issued, 8);
  }

  /** What the verifier accepts, for any text at all: five parts, further ones being ignored, of
      which the salt and the hash are fixed by the nonce and the key. */
  lemma AcceptedNonceIff(x: Crypto, key: VerifyingKey, token: string, nonce: Bytes)
    ensures VerifyNonce(x, key, token, nonce) <==>
      var parts, digest := SplitAt(token, '.'), x.sha256(key.der + nonce);
      && |parts| >= 5 && parts[0] == "sha256" && parts[1] == Base64.Encode(digest) && parts[2] == Base64.Encode(nonce)
      && parts[3] == SignatureMethod(key)
      && exists signature :: parts[4] == Base64.Encode(signature) && x.verify(key, digest, signature)
  {
    var parts, digest := SplitAt(token, '.'), x.sha256(key.der + nonce);
    if |parts| >= 5 {
      Base64.DecodeRoundTrip(parts[2], nonce);
      forall signature ensures Base64.Decode(parts[4]) == Some(signature) <==> parts[4] == Base64.Encode(signature) {
        Base64.DecodeRoundTrip(parts[4], signature);
      }
    }
  }

  /** The token is accepted for the nonce that spells a time at most an hour before. */
  ghost predicate IssuedAt(x: Crypto, key: VerifyingKey, token: string, now: nat, issued: nat) {
    && issued < LittleEndian.Pow256(8) && issued <= now <= issued + 3600
    && VerifyNonce(x, key, token, LittleEndian.ToBytes(issued, 8))
  }

  /** The same for time, for any text: the salt is the spelling of a time at most an hour ago. */
  lemma AcceptedTimestampIff(x: Crypto, key: VerifyingKey, token: string, now: nat)
    ensures VerifyTimestamp(x, key, token, now) <==> exists issued :: IssuedAt(x, key, token, now, issued)
  {
    var parts := SplitAt(token, '.');
    if VerifyTimestamp(x, key, token, now) {
      var salt := Base64.Decode(parts[2]).value;
      LittleEndian.BytesRoundTrip(salt);
      var issued := LittleEndian.FromBytes(salt);
      assert IssuedAt(x, key, token, now, issued);
    }
    if issued :| IssuedAt(x, key, token, now, issued) {
      LittleEndian.NumberRoundTrip(issued, 8);
    }
  }

  /** The text spells a time still to come. */
  ghost predicate SpellsLater(text: string, now: nat) {
    exists issued :: now < issued < LittleEndian.Pow256(8) && text == Base64.Encode(LittleEndian.ToBytes(issued, 8))
  }

  lemma LaterSaltAborts(text: string, now: nat)
    ensures SpellsLater(text, now) <==>
      Base64.Decode(text).Some? && SaltIsRecent(now)(Base64.Decode(text).value) == Aborted
  {
    hide Base64.Encode, Base64.Decode, LittleEndian.ToBytes, LittleEndian.FromBytes, LittleEndian.Pow256;
    var decoded := Base64.Decode(text);
    if decoded.Some? && SaltIsRecent(now)(decoded.value) == Aborted {
      LittleEndian.BytesRoundTrip(decoded.value);
      Base64.DecodeRoundTrip(text, decoded.value);
    }
    if issued :| now < issued < LittleEndian.Pow256(8) && text == Base64.Encode(LittleEndian.ToBytes(issued, 8)) {
      Base64.EncodeRoundTrip(LittleEndian.ToBytes(issued, 8));
      LittleEndian.NumberRoundTrip(issued, 8);
    }
  }

  /** Verification breaks off without an answer if and only if parts are missing or, with the first
      and the fourth part in order, the salt spells a time still to come. */
  lemma AbortedIff(x: Crypto, key: VerifyingKey, token: string, nonce: Bytes, now: nat)
    ensures VerifyWithResult(x, key, token, SaltIs(nonce)) == Aborted <==> |SplitAt(token, '.')| < 5
    ensures VerifyWithResult(x, key, token, SaltIsRecent(now)) == Aborted <==>
      var parts := SplitAt(token, '.');
      |parts| >= 5 ==>
        parts[0] == "sha256" && parts[3] == SignatureMethod(key) && SpellsLater(parts[2], now)
  {
    var parts := SplitAt(token, '.');
    if |parts| >= 5 { LaterSaltAborts(parts[2], now); }
    hide Base64.Encode, Base64.Decode, SplitAt, SpellsLater, SignatureMethod;
  }

  /** No token serves for two nonces, or for keys of two kinds. */
  lemma TokenBindsNonce(x: Crypto, k1: VerifyingKey, k2: VerifyingKey, token: string, n1: Bytes, n2: Bytes)
    requires VerifyNonce(x, k1, token, n1) && VerifyNonce(x, k2, token, n2)
    ensures n1 == n2 && (k1.Ed25519? <==> k2.Ed25519?)
    ensures x.sha256(k1.der + n1) == x.sha256(k2.der + n2)
  {
    AcceptedNonceIff(x, k1, token, n1);
    AcceptedNonceIff(x, k2, token, n2);
    Base64.EncodeRoundTrip(n1);
    Base64.EncodeRoundTrip(n2);
    Base64.EncodeRoundTrip(x.sha256(k1.der + n1));
    Base64.EncodeRoundTrip(x.sha256(k2.der + n2));
  }
}

/** The tokens of a transfer session. */
module HandshakeTokens {
  import opened Common
  import H = Handshake
  import D = HandshakeDialogue
  import R = HandshakeTrust
  import T = Tokens

  /** The session signs and verifies with nonce tokens. */
  ghost predicate UsesNonceTokens(c: H.Config, x: T.Crypto) {
    && (forall key, nonce :: c.sign(key, nonce) == T.GenerateNonce(x, key, nonce))
    && (forall key, token, nonce ::
          c.verify(key, token, nonce) == T.VerifyNonce(x, T.PublicKey(x, key), token, nonce))
  }

  /** Peers that expect each other's keys, or none, never fail on a token. */
  lemma MatchingKeysPass(c: H.Config, x: T.Crypto)
    requires UsesNonceTokens(c, x) && T.SignaturesVerify(x)
    requires c.senderExpects.Some? ==> c.senderExpects.value == c.receiverKey
    requires c.receiverExpects.Some? ==> c.receiverExpects.value == c.senderKey
    requires H.Generated(c)
    ensures D.BothTokensGood(c) && forall es :: !R.TokenRejected(H.RunTo(c, es))
  {
    T.NonceTokenVerifiesIff(x, c.senderKey, H.Agreed(c), H.Agreed(c));
    T.NonceTokenVerifiesIff(x, c.receiverKey, H.Agreed(c), H.Agreed(c));
    R.TokenRejectedIff(c);
  }
}
