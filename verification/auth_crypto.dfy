/** The secret codec of the authentication module: one-way token digests,
    random reset tokens and OTPs, and the `iv.tag.ciphertext` wire format of
    two-factor secrets encrypted at rest.

    SHA-256 and AES-256-GCM are not computed here. A digest is a value of a
    datatype whose only constructor takes the digested text (so equal digests
    mean equal inputs, the idealised collision resistance of SHA-256), and
    the authenticated cipher is a parameter `Aead` about which the lemmas
    assume `IdealAead`: decryption succeeds on a ciphertext that encryption
    produced under the same key and nonce, presented with a prefix of its
    tag of 4, 8 or 12 to 16 bytes, and on nothing else. The wrong-key lemma
    also assumes `SeparatesKeys` of the one payload it decrypts. */
module AuthCrypto {
  import opened Wrappers
  import opened Text
  import opened NodeBuffer

  /** Bytes of nonce drawn for every encryption (IV_LENGTH). */
  const IvLength: nat := 12

  const InvalidPayloadMessage := "Invalid encrypted payload"
  /** The message Node's GCM decipher throws when the tag does not verify. */
  const AuthFailureMessage := "Unsupported state or unable to authenticate data"

  // ---------------------------------------------------------------------
  // Digests
  // ---------------------------------------------------------------------

  /** The 32-byte key `deriveKey` computes: SHA-256 of the configured key text. */
  datatype DerivedKey = Sha256Key(material: string)

  function DeriveKey(key: string): (k: DerivedKey)
    ensures k.material == key
  {
    Sha256Key(key)
  }

  /** The hex SHA-256 digest `hashToken` stores in place of a token. */
  datatype TokenDigest = Sha256Hex(preimage: string)

  function HashToken(value: string): (d: TokenDigest)
    ensures d.preimage == value
  {
    Sha256Hex(value)
  }

  /** Equal digests come from equal tokens, and the digest is deterministic. */
  lemma HashTokenInjective(a: string, b: string)
    ensures HashToken(a) == HashToken(b) <==> a == b
  {
  }

  // ---------------------------------------------------------------------
  // Random tokens and OTPs (the randomness is an input)
  // ---------------------------------------------------------------------

  /** `randomToken(bytes)`, given the `bytes` random bytes drawn. */
  function RandomToken(drawn: seq<byte>): (r: string)
    ensures |r| == 2 * |drawn| && IsLowerHex(r)
    ensures HexDecode(r) == drawn
  {
    HexRoundTrip(drawn);
    HexEncode(drawn)
  }

  /** `randomOtp(length)`, given the integer `drawn` below `10^length` that
      `Math.floor(Math.random() * 10 ** length)` produced. From 10^21 on,
      JavaScript prints a number in exponent form, so only lengths up to 21
      give a string of digits. */
  function RandomOtp(length: nat, drawn: nat): (r: string)
    requires length <= 21 && drawn < Pow10(length)
    ensures |r| == if length == 0 then 1 else length
    ensures AllDigits(r) && DecimalValue(r) == drawn
  {
    var digits := DecimalString(drawn);
    DigitsFit(drawn, length);
    PaddedValue(digits, length);
    PadStart(digits, length, '0')
  }

  lemma DigitsFit(n: nat, length: nat)
    requires n < Pow10(length)
    ensures length >= 1 ==> |DecimalString(n)| <= length
    ensures length == 0 ==> DecimalString(n) == "0"
  {
    if length >= 1 { DecimalStringLength(n, length); }
  }

  lemma {:induction false} LeadingZero(s: string)
    requires AllDigits(s)
    ensures AllDigits(['0'] + s) && DecimalValue(['0'] + s) == DecimalValue(s)
  {
    if s != [] {
      var t := ['0'] + s;
      assert t[..|t| - 1] == ['0'] + s[..|s| - 1];
      LeadingZero(s[..|s| - 1]);
    }
  }

  /** Padding with zeros keeps the digits and their value. */
  lemma PaddedValue(s: string, len: nat)
    requires AllDigits(s)
    ensures AllDigits(PadStart(s, len, '0'))
    ensures DecimalValue(PadStart(s, len, '0')) == DecimalValue(s)
  {
    var padded := PadStart(s, len, '0');
    var k := |padded| - |s|;
    assert padded == padded[..k] + s;
    LeadingZeros(padded[..k], s);
  }

  lemma {:induction false} LeadingZeros(zeros: string, s: string)
    requires forall i :: 0 <= i < |zeros| ==> zeros[i] == '0'
    requires AllDigits(s)
    ensures AllDigits(zeros + s) && DecimalValue(zeros + s) == DecimalValue(s)
  {
    if zeros != [] {
      LeadingZeros(zeros[1..], s);
      LeadingZero(zeros[1..] + s);
      assert zeros + s == ['0'] + (zeros[1..] + s);
    } else {
      assert zeros + s == s;
    }
  }

  // ---------------------------------------------------------------------
  // Authenticated encryption
  // ---------------------------------------------------------------------

  datatype Sealed = Sealed(ciphertext: seq<byte>, tag: seq<byte>)

  /** An authenticated cipher: `seal(key, iv, plaintext)` and
      `open(key, iv, ciphertext, tag)`, which yields None where the GCM
      decipher throws. */
  datatype Aead = Aead(
    seal: (DerivedKey, seq<byte>, seq<byte>) -> Sealed,
    open: (DerivedKey, seq<byte>, seq<byte>, seq<byte>) -> Option<seq<byte>>)

  /** The length of the tag `getAuthTag` returns. */
  const TagLength: nat := 16

  /** The tag lengths a GCM decipher created without `authTagLength`
      accepts in `setAuthTag`. */
  predicate AcceptedTagLength(n: nat) {
    n == 4 || n == 8 || 12 <= n <= 16
  }

  /** What the codec relies on: the ciphertext is as long as the plaintext
      and the tag is 16 bytes; `open` yields a plaintext exactly when the
      given tag has an accepted length and is a prefix of the tag `seal`
      gives that plaintext, whose ciphertext is the one presented, under the
      same key and nonce. */
  ghost predicate IdealAead(c: Aead) {
    && (forall k, iv, pt :: |c.seal(k, iv, pt).ciphertext| == |pt| && |c.seal(k, iv, pt).tag| == TagLength)
    && (forall k, iv, ct, tag, pt ::
          c.open(k, iv, ct, tag) == Some(pt) <==>
            AcceptedTagLength(|tag|) && c.seal(k, iv, pt).ciphertext == ct && tag <= c.seal(k, iv, pt).tag)
  }

  /** No message sealed under `k2` gives the same output as `p1` sealed
      under `k1` with the same nonce. GCM is not key-committing: for any two
      keys some pair of messages seals alike, so this is asked only of the
      one payload at hand, and GCM meets it for an honestly drawn secret
      except with negligible probability. */
  ghost predicate SeparatesKeys(c: Aead, k1: DerivedKey, k2: DerivedKey, iv: seq<byte>, p1: seq<byte>) {
    forall p2 :: c.seal(k2, iv, p2) != c.seal(k1, iv, p1)
  }

  /** With a full-length tag, what `open` yields is what `seal` produced. */
  lemma OpenedFullTag(c: Aead, k: DerivedKey, iv: seq<byte>, ct: seq<byte>, tag: seq<byte>)
    requires IdealAead(c) && |tag| == TagLength
    ensures c.open(k, iv, ct, tag).Some? ==> c.seal(k, iv, c.open(k, iv, ct, tag).value) == Sealed(ct, tag)
  {
    if c.open(k, iv, ct, tag).Some? {
      var pt := c.open(k, iv, ct, tag).value;
      var s := c.seal(k, iv, pt);
      assert s.ciphertext == ct && tag <= s.tag && |s.tag| == |tag|;
      assert s.tag == tag;
    }
  }

  /** A cipher meeting IdealAead and separating a given pair of keys for
      every plaintext exists,
      so the lemmas below do not rest on an inconsistent hypothesis. */
  function WitnessTag(k: DerivedKey, marked: DerivedKey): seq<byte> {
    [if k == marked then 1 else 0] + seq(15, i => 0)
  }

  function WitnessAead(marked: DerivedKey): Aead {
    Aead(
      (k: DerivedKey, iv: seq<byte>, pt: seq<byte>) => Sealed(pt, WitnessTag(k, marked)),
      (k: DerivedKey, iv: seq<byte>, ct: seq<byte>, tag: seq<byte>) =>
        if AcceptedTagLength(|tag|) && tag <= WitnessTag(k, marked) then Some(ct) else None)
  }

  lemma IdealAeadSatisfiable(k1: DerivedKey, k2: DerivedKey, iv: seq<byte>, p1: seq<byte>)
    requires k1 != k2
    ensures IdealAead(WitnessAead(k1)) && SeparatesKeys(WitnessAead(k1), k1, k2, iv, p1)
  {
    var c := WitnessAead(k1);
    forall p2 ensures c.seal(k2, iv, p2) != c.seal(k1, iv, p1) {
      assert c.seal(k1, iv, p1).tag[0] == 1 && c.seal(k2, iv, p2).tag[0] == 0;
    }
  }

  // ---------------------------------------------------------------------
  // Wire format
  // ---------------------------------------------------------------------

  /** `ivHex.tagHex.ciphertextHex`. */
  function WireFormat(iv: seq<byte>, s: Sealed): (r: string)
    ensures Split(r, '.') == [HexEncode(iv), HexEncode(s.tag), HexEncode(s.ciphertext)]
  {
    var parts := [HexEncode(iv), HexEncode(s.tag), HexEncode(s.ciphertext)];
    SplitJoin(parts, '.');
    Join(parts, ".")
  }

  /** `encryptSecret(value, key)`, given the 12 random nonce bytes drawn. */
  function EncryptSecret(value: string, key: string, iv: seq<byte>, aead: Aead): (r: string)
    requires |iv| == IvLength
    ensures |Split(r, '.')| == 3
    ensures |Split(r, '.')[0]| == 2 * IvLength && HexDecode(Split(r, '.')[0]) == iv
    ensures var sealed := aead.seal(DeriveKey(key), iv, Utf8Encode(value));
            Split(r, '.') == [HexEncode(iv), HexEncode(sealed.tag), HexEncode(sealed.ciphertext)]
  {
    HexRoundTrip(iv);
    WireFormat(iv, aead.seal(DeriveKey(key), iv, Utf8Encode(value)))
  }

  /** `decryptSecret(payload, key)`: Err carries the thrown message. */
  function DecryptSecret(payload: string, key: string, aead: Aead): (r: Result<string, string>)
    ensures var f := Split(payload, '.');
            (|f| < 3 || f[0] == "" || f[1] == "" || f[2] == "") <==> r == Err(InvalidPayloadMessage)
  {
    var f := Split(payload, '.');
    if |f| < 3 then Err(InvalidPayloadMessage) else DecryptFields(f[0], f[1], f[2], key, aead)
  }

  /** The part of `decryptSecret` after the payload is split. */
  function DecryptFields(ivHex: string, tagHex: string, ctHex: string, key: string, aead: Aead)
    : (r: Result<string, string>)
    ensures (ivHex == "" || tagHex == "" || ctHex == "") <==> r == Err(InvalidPayloadMessage)
  {
    if ivHex == "" || tagHex == "" || ctHex == "" then
      Err(InvalidPayloadMessage)
    else
      match aead.open(DeriveKey(key), HexDecode(ivHex), HexDecode(ctHex), HexDecode(tagHex))
      case None => Err(AuthFailureMessage)
      case Some(pt) => Ok(Utf8Decode(pt))
  }

  /** Decryption with the same key recovers every non-empty secret. */
  lemma EncryptDecryptRoundTrip(value: string, key: string, iv: seq<byte>, aead: Aead)
    requires IdealAead(aead) && |iv| == IvLength && value != ""
    ensures DecryptSecret(EncryptSecret(value, key, iv, aead), key, aead) == Ok(value)
  {
    var k, pt := DeriveKey(key), Utf8Encode(value);
    var s := aead.seal(k, iv, pt);
    var f := Split(EncryptSecret(value, key, iv, aead), '.');
    assert |s.ciphertext| == |pt| && |s.tag| > 0;
    HexRoundTrip(iv);
    HexRoundTrip(s.tag);
    HexRoundTrip(s.ciphertext);
    assert aead.open(k, HexDecode(f[0]), HexDecode(f[2]), HexDecode(f[1])) == Some(pt);
    assert DecryptFields(f[0], f[1], f[2], key, aead) == Ok(Utf8Decode(pt));
    Utf8RoundTrip(value);
  }

  /** The empty secret encrypts to an empty ciphertext field, which
      decryption rejects as malformed. */
  lemma EmptySecretNotRecoverable(key: string, iv: seq<byte>, aead: Aead)
    requires IdealAead(aead) && |iv| == IvLength
    ensures DecryptSecret(EncryptSecret("", key, iv, aead), key, aead) == Err(InvalidPayloadMessage)
  {
    assert Utf8Encode("") == [];
    assert |aead.seal(DeriveKey(key), iv, []).ciphertext| == 0;
  }

  /** A payload encrypted under one key does not decrypt under another key,
      provided no message under that other key seals to the same output. */
  lemma WrongKeyRejected(value: string, key: string, other: string, iv: seq<byte>, aead: Aead)
    requires IdealAead(aead) && |iv| == IvLength && key != other
    requires SeparatesKeys(aead, DeriveKey(key), DeriveKey(other), iv, Utf8Encode(value))
    ensures DecryptSecret(EncryptSecret(value, key, iv, aead), other, aead).Err?
  {
    var s := aead.seal(DeriveKey(key), iv, Utf8Encode(value));
    HexRoundTrip(iv);
    HexRoundTrip(s.tag);
    HexRoundTrip(s.ciphertext);
    OpenedFullTag(aead, DeriveKey(other), iv, s.ciphertext, s.tag);
  }

  /** Integrity: whatever payload is presented, decryption succeeds only when
      its fields decode to a nonce and ciphertext that `seal` produced under
      this key, with an accepted prefix of that seal's tag, and it then
      yields that plaintext. */
  lemma DecryptOnlyGenuine(payload: string, key: string, aead: Aead)
    requires IdealAead(aead)
    requires DecryptSecret(payload, key, aead).Ok?
    ensures var f := Split(payload, '.');
            |f| >= 3 &&
            exists pt :: var s := aead.seal(DeriveKey(key), HexDecode(f[0]), pt);
                         && s.ciphertext == HexDecode(f[2])
                         && AcceptedTagLength(|HexDecode(f[1])|) && HexDecode(f[1]) <= s.tag
                         && DecryptSecret(payload, key, aead) == Ok(Utf8Decode(pt))
  {
    var f := Split(payload, '.');
    var pt := aead.open(DeriveKey(key), HexDecode(f[0]), HexDecode(f[2]), HexDecode(f[1])).value;
    var s := aead.seal(DeriveKey(key), HexDecode(f[0]), pt);
    assert s.ciphertext == HexDecode(f[2]) && AcceptedTagLength(|HexDecode(f[1])|) && HexDecode(f[1]) <= s.tag;
  }

  /** A genuine payload whose tag is cut to 4, 8 or 12 to 15 bytes still
      decrypts to the secret, as no `authTagLength` is fixed. */
  lemma TruncatedTagAccepted(value: string, key: string, iv: seq<byte>, aead: Aead, n: nat)
    requires IdealAead(aead) && |iv| == IvLength && value != "" && AcceptedTagLength(n)
    ensures var s := aead.seal(DeriveKey(key), iv, Utf8Encode(value));
            DecryptSecret(HexEncode(iv) + "." + HexEncode(s.tag[..n]) + "." + HexEncode(s.ciphertext), key, aead)
            == Ok(value)
  {
    var pt := Utf8Encode(value);
    var s := aead.seal(DeriveKey(key), iv, pt);
    var a, b, c := HexEncode(iv), HexEncode(s.tag[..n]), HexEncode(s.ciphertext);
    ThreeFields(a, b, c);
    ShortTagOpens(key, iv, pt, aead, n);
    assert DecryptSecret(a + "." + b + "." + c, key, aead) == Ok(Utf8Decode(pt));
    Utf8RoundTrip(value);
  }

  lemma ShortTagOpens(key: string, iv: seq<byte>, pt: seq<byte>, aead: Aead, n: nat)
    requires IdealAead(aead) && |iv| == IvLength && pt != [] && AcceptedTagLength(n)
    ensures var s := aead.seal(DeriveKey(key), iv, pt);
            DecryptFields(HexEncode(iv), HexEncode(s.tag[..n]), HexEncode(s.ciphertext), key, aead) == Ok(Utf8Decode(pt))
  {
    var k := DeriveKey(key);
    var s := aead.seal(k, iv, pt);
    var short := s.tag[..n];
    HexRoundTrip(iv);
    HexRoundTrip(short);
    HexRoundTrip(s.ciphertext);
    assert |s.ciphertext| == |pt| && |short| == n && short <= s.tag;
    assert aead.open(k, iv, s.ciphertext, short) == Some(pt);
  }

  /** Only the first three dot-separated fields are read. */
  lemma {:induction false} ExtraFieldsIgnored(a: string, b: string, c: string, rest: string, key: string, aead: Aead)
    requires '.' !in a && '.' !in b && '.' !in c
    ensures DecryptSecret(a + "." + b + "." + c + "." + rest, key, aead)
            == DecryptSecret(a + "." + b + "." + c, key, aead)
  {
    ThreeFieldsThenRest(a, b, c, rest);
    ThreeFields(a, b, c);
  }

  lemma ThreeFieldsThenRest(a: string, b: string, c: string, rest: string)
    requires '.' !in a && '.' !in b && '.' !in c
    ensures var f := Split(a + "." + b + "." + c + "." + rest, '.');
            |f| >= 3 && f[0] == a && f[1] == b && f[2] == c
  {
    var t2 := c + "." + rest;
    var t1 := b + "." + t2;
    SplitAtSeparator(c, rest, '.');
    SplitAtSeparator(b, t2, '.');
    SplitAtSeparator(a, t1, '.');
    Reassociate(a, b, c, rest);
  }

  lemma Reassociate(a: string, b: string, c: string, rest: string)
    ensures a + "." + (b + "." + (c + "." + rest)) == a + "." + b + "." + c + "." + rest
  {
  }

  lemma ThreeFields(a: string, b: string, c: string)
    requires '.' !in a && '.' !in b && '.' !in c
    ensures Split(a + "." + b + "." + c, '.') == [a, b, c]
  {
    SplitNoSeparator(c, '.');
    SplitAtSeparator(b, c, '.');
    SplitAtSeparator(a, b + "." + c, '.');
    assert a + "." + (b + "." + c) == a + "." + b + "." + c;
  }
}
