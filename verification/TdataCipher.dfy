/** AES in IGE mode over an abstract block permutation, and the descriptor envelope around it. */
module TdataCipher {
  import opened Common
  import opened TdataBytes

  /** The foreign primitives. Nothing is assumed of the hashes but their output lengths, and of the
      block cipher only that decryption and encryption under a key undo each other. */
  datatype Crypto = Crypto(
    md5: Bytes -> Bytes,
    sha1: Bytes -> Bytes,
    sha512: Bytes -> Bytes,
    pbkdf2: (Bytes, Bytes, nat) -> Bytes,
    aesEncrypt: (Bytes, Bytes) -> Bytes,
    aesDecrypt: (Bytes, Bytes) -> Bytes)
  {
    ghost predicate Lawful() {
      && (forall x {:trigger md5(x)} :: |md5(x)| == 16)
      && (forall x {:trigger sha1(x)} :: |sha1(x)| == 20)
      && (forall m, s, n {:trigger pbkdf2(m, s, n)} :: |pbkdf2(m, s, n)| == 256)
      && (forall k, b {:trigger aesEncrypt(k, b)} :: |b| == 16 ==>
            |aesEncrypt(k, b)| == 16 && aesDecrypt(k, aesEncrypt(k, b)) == b)
      && (forall k, b {:trigger aesDecrypt(k, b)} :: |b| == 16 ==>
            |aesDecrypt(k, b)| == 16 && aesEncrypt(k, aesDecrypt(k, b)) == b)
    }
  }

  datatype ParseError = Rejected | PasscodeRejected | FileError | LengthOverflow

  datatype Result<+T> = Ok(value: T) | Err(error: ParseError)
  {
    predicate IsFailure() {
      Err?
    }

    function PropagateFailure<U>(): Result<U>
      requires Err?
    {
      Err(error)
    }

    function Extract(): T
      requires Ok?
    {
      value
    }
  }

  const BLOCK := 16
  const LOCAL_KEY := 256

  // ---- IGE chaining ----

  predicate Aligned(b: Bytes) {
    |b| % BLOCK == 0
  }

  /** The plaintext after the chaining state (previous ciphertext block, previous plaintext block). */
  function IgeDecrypt(c: Crypto, key: Bytes, ciphertext: Bytes, previousCiphertext: Bytes, previousPlaintext: Bytes)
    : (r: Bytes)
    requires c.Lawful() && Aligned(ciphertext) && |previousCiphertext| == |previousPlaintext| == BLOCK
    ensures |r| == |ciphertext|
    decreases |ciphertext|
  {
    if ciphertext == [] then []
    else
      var block := ciphertext[..BLOCK];
      var current := XorBytes(c.aesDecrypt(key, XorBytes(block, previousPlaintext)), previousCiphertext);
      current + IgeDecrypt(c, key, ciphertext[BLOCK..], block, current)
  }

  function IgeEncrypt(c: Crypto, key: Bytes, plaintext: Bytes, previousCiphertext: Bytes, previousPlaintext: Bytes)
    : (r: Bytes)
    requires c.Lawful() && Aligned(plaintext) && |previousCiphertext| == |previousPlaintext| == BLOCK
    ensures |r| == |plaintext|
    decreases |plaintext|
  {
    if plaintext == [] then []
    else
      var block := plaintext[..BLOCK];
      var current := XorBytes(c.aesEncrypt(key, XorBytes(block, previousCiphertext)), previousPlaintext);
      current + IgeEncrypt(c, key, plaintext[BLOCK..], current, block)
  }

  /** Decryption undoes encryption, whatever the key, the initial chaining state and the permutation. */
  lemma {:induction false} IgeDecryptsEncryption(c: Crypto, key: Bytes, plaintext: Bytes, prevC: Bytes, prevP: Bytes)
    requires c.Lawful() && Aligned(plaintext) && |prevC| == |prevP| == BLOCK
    ensures IgeDecrypt(c, key, IgeEncrypt(c, key, plaintext, prevC, prevP), prevC, prevP) == plaintext
    decreases |plaintext|
  {
    if plaintext != [] {
      var block := plaintext[..BLOCK];
      var inner := XorBytes(block, prevC);
      var sealed := c.aesEncrypt(key, inner);
      var current := XorBytes(sealed, prevP);
      var ciphertext := IgeEncrypt(c, key, plaintext, prevC, prevP);
      assert ciphertext[..BLOCK] == current &&
          ciphertext[BLOCK..] == IgeEncrypt(c, key, plaintext[BLOCK..], current, block);
      XorBytesTwice(sealed, prevP);
      XorBytesTwice(block, prevC);
      IgeDecryptsEncryption(c, key, plaintext[BLOCK..], current, block);
      assert plaintext == block + plaintext[BLOCK..];
    }
  }

  /** And encryption undoes decryption: the two are inverse permutations of aligned strings. */
  lemma {:induction false} IgeEncryptsDecryption(c: Crypto, key: Bytes, ciphertext: Bytes, prevC: Bytes, prevP: Bytes)
    requires c.Lawful() && Aligned(ciphertext) && |prevC| == |prevP| == BLOCK
    ensures IgeEncrypt(c, key, IgeDecrypt(c, key, ciphertext, prevC, prevP), prevC, prevP) == ciphertext
    decreases |ciphertext|
  {
    if ciphertext != [] {
      var block := ciphertext[..BLOCK];
      var inner := XorBytes(block, prevP);
      var opening := c.aesDecrypt(key, inner);
      var current := XorBytes(opening, prevC);
      var plaintext := IgeDecrypt(c, key, ciphertext, prevC, prevP);
      assert plaintext[..BLOCK] == current &&
          plaintext[BLOCK..] == IgeDecrypt(c, key, ciphertext[BLOCK..], block, current);
      XorBytesTwice(opening, prevC);
      XorBytesTwice(block, prevP);
      IgeEncryptsDecryption(c, key, ciphertext[BLOCK..], block, current);
      assert ciphertext == block + ciphertext[BLOCK..];
    }
  }

  function AesIgeDecrypted(c: Crypto, ciphertext: Bytes, key: Bytes, iv: Bytes): (r: Result<Bytes>)
    requires c.Lawful()
    ensures r.Ok? ==> |r.value| == |ciphertext|
  {
    if !Aligned(ciphertext) || |iv| != 2 * BLOCK then Err(Rejected)
    else Ok(IgeDecrypt(c, key, ciphertext, iv[..BLOCK], iv[BLOCK..]))
  }

  /** The chaining loop of `_aes_ige_decrypt`. */
  method AesIgeDecrypt(c: Crypto, ciphertext: Bytes, key: Bytes, iv: Bytes) returns (r: Result<Bytes>)
    requires c.Lawful()
    ensures r == AesIgeDecrypted(c, ciphertext, key, iv)
  {
    if |ciphertext| % BLOCK != 0 || |iv| != BLOCK * 2 {
      return Err(Rejected);
    }
    var previousCiphertext, previousPlaintext := iv[..BLOCK], iv[BLOCK..];
    var plaintext: Bytes := [];
    var offset := 0;
    while offset < |ciphertext|
      invariant 0 <= offset <= |ciphertext| && offset % BLOCK == 0 && |ciphertext| % BLOCK == 0
      invariant |previousCiphertext| == |previousPlaintext| == BLOCK
      invariant IgeDecrypt(c, key, ciphertext, iv[..BLOCK], iv[BLOCK..])
             == plaintext + IgeDecrypt(c, key, ciphertext[offset..], previousCiphertext, previousPlaintext)
    {
      hide XorBytes;
      var block := ciphertext[offset..offset + BLOCK];
      var decrypted := c.aesDecrypt(key, XorBytes(block, previousPlaintext));
      var current := XorBytes(decrypted, previousCiphertext);
      assert ciphertext[offset..][..BLOCK] == block && ciphertext[offset..][BLOCK..] == ciphertext[offset + BLOCK..];
      plaintext := plaintext + current;
      previousCiphertext, previousPlaintext := block, current;
      offset := offset + BLOCK;
    }
    assert ciphertext[offset..] == [] && plaintext + [] == plaintext;
    return Ok(plaintext);
  }

  // ---- the descriptor envelope ----

  /** The AES key and IV for a message key; defined for a 256-byte key and a 16-byte message key. */
  function DeriveAesKeyAndIv(c: Crypto, authKey: Bytes, messageKey: Bytes): (r: Result<(Bytes, Bytes)>)
    requires c.Lawful()
    ensures r.Ok? ==> |r.value.0| == 32 && |r.value.1| == 32
    ensures r.Ok? <==> |authKey| == LOCAL_KEY && |messageKey| == BLOCK
  {
    if |authKey| != LOCAL_KEY || |messageKey| != BLOCK then Err(Rejected)
    else
      var offset := 8;
      var a := c.sha1(messageKey + authKey[offset..offset + 32]);
      var b := c.sha1(authKey[offset + 32..offset + 48] + messageKey + authKey[offset + 48..offset + 64]);
      var d := c.sha1(authKey[offset + 64..offset + 96] + messageKey);
      var e := c.sha1(messageKey + authKey[offset + 96..offset + 128]);
      Ok((a[..8] + b[8..20] + d[4..16], a[8..20] + b[..8] + d[16..20] + e[..8]))
  }

  function DescriptorPayload(c: Crypto, plaintext: Bytes, messageKey: Bytes): Result<Bytes>
    requires c.Lawful() && |plaintext| >= 4
  {
    if c.sha1(plaintext)[..BLOCK] != messageKey then Err(PasscodeRejected)
    else
      var size := FromLittle(plaintext[..4]);
      if size < 4 || size > |plaintext| then Err(Rejected) else Ok(plaintext[4..size])
  }

  function DecryptDescriptor(c: Crypto, encrypted: Bytes, authKey: Bytes): Result<Bytes>
    requires c.Lawful()
  {
    if |encrypted| <= BLOCK || |encrypted| % BLOCK != 0 then Err(Rejected)
    else
      var messageKey := encrypted[..BLOCK];
      var keyAndIv :- DeriveAesKeyAndIv(c, authKey, messageKey);
      var plaintext :- AesIgeDecrypted(c, encrypted[BLOCK..], keyAndIv.0, keyAndIv.1);
      DescriptorPayload(c, plaintext, messageKey)
  }

  /** Zero bytes up to the next block boundary. */
  function Padding(size: nat): (r: Bytes)
    ensures (size + |r|) % BLOCK == 0
  {
    seq((BLOCK - size % BLOCK) % BLOCK, _ => 0)
  }

  /** The writer's envelope: little-endian size, payload, padding. */
  function Enveloped(payload: Bytes): (r: Bytes)
    ensures Aligned(r) && |r| >= |payload| + 4
  {
    var body := ToLittle(|payload| + 4, 4) + payload;
    body + Padding(|body|)
  }

  /** The key schedule as Telegram Desktop writes with it: four digests over the message key and five consecutive
      pieces of the key's bytes from the ninth on. */
  function WritersKeyAndIv(c: Crypto, authKey: Bytes, messageKey: Bytes): (r: (Bytes, Bytes))
    requires c.Lawful() && |authKey| == 256
    ensures |r.0| == 32 && |r.1| == 32
  {
    var pieces := authKey[8..136];
    var first := c.sha1(messageKey + pieces[..32]);
    var second := c.sha1(pieces[32..48] + (messageKey + pieces[48..64]));
    var third := c.sha1(pieces[64..96] + messageKey);
    var fourth := c.sha1(messageKey + pieces[96..]);
    var key := first[0..8] + (second[8..20] + third[4..16]);
    var iv := first[8..20] + (second[0..8] + (third[16..20] + fourth[0..8]));
    (key, iv)
  }

  /** The reader derives what the writer used. */
  lemma SchedulesAgree(c: Crypto, authKey: Bytes, messageKey: Bytes)
    requires c.Lawful() && |authKey| == 256 && |messageKey| == 16
    ensures DeriveAesKeyAndIv(c, authKey, messageKey) == Ok(WritersKeyAndIv(c, authKey, messageKey))
  {
    var pieces := authKey[8..136];
    assert pieces[..32] == authKey[8..40] && pieces[32..48] == authKey[40..56] && pieces[48..64] == authKey[56..72];
    assert pieces[64..96] == authKey[72..104] && pieces[96..] == authKey[104..136];
    assert authKey[40..56] + messageKey + authKey[56..72] == authKey[40..56] + (messageKey + authKey[56..72]);
    var r := DeriveAesKeyAndIv(c, authKey, messageKey).value;
    assert r.0 == WritersKeyAndIv(c, authKey, messageKey).0;
    assert r.1 == WritersKeyAndIv(c, authKey, messageKey).1;
  }

  /** An aligned plaintext under the key that its own SHA-1 selects. */
  function Sealed(c: Crypto, plaintext: Bytes, authKey: Bytes): Bytes
    requires c.Lawful() && |authKey| == LOCAL_KEY && Aligned(plaintext)
  {
    var messageKey := c.sha1(plaintext)[..BLOCK];
    var keyAndIv := WritersKeyAndIv(c, authKey, messageKey);
    messageKey + IgeEncrypt(c, keyAndIv.0, plaintext, keyAndIv.1[..BLOCK], keyAndIv.1[BLOCK..])
  }

  function EncryptDescriptor(c: Crypto, payload: Bytes, authKey: Bytes): Bytes
    requires c.Lawful() && |authKey| == LOCAL_KEY
  {
    Sealed(c, Enveloped(payload), authKey)
  }

  lemma EnvelopeRoundTrip(c: Crypto, payload: Bytes)
    requires c.Lawful() && |payload| + 4 < 0x1_0000_0000
    ensures DescriptorPayload(c, Enveloped(payload), c.sha1(Enveloped(payload))[..BLOCK]) == Ok(payload)
  {
    var plaintext := Enveloped(payload);
    Widths();
    LittleRoundTrip(|payload| + 4, 4);
    assert plaintext[..4] == ToLittle(|payload| + 4, 4);
    assert plaintext[4..|payload| + 4] == payload;
  }

  lemma DecryptsFrom(c: Crypto, messageKey: Bytes, ciphertext: Bytes, authKey: Bytes, keyAndIv: (Bytes, Bytes),
                     plaintext: Bytes)
    requires c.Lawful() && |messageKey| == BLOCK && Aligned(ciphertext) && |ciphertext| >= 4
    requires DeriveAesKeyAndIv(c, authKey, messageKey) == Ok(keyAndIv)
    requires AesIgeDecrypted(c, ciphertext, keyAndIv.0, keyAndIv.1) == Ok(plaintext)
    ensures DecryptDescriptor(c, messageKey + ciphertext, authKey) == DescriptorPayload(c, plaintext, messageKey)
  {
    hide DeriveAesKeyAndIv, AesIgeDecrypted, DescriptorPayload;
    var encrypted := messageKey + ciphertext;
    assert encrypted[..BLOCK] == messageKey && encrypted[BLOCK..] == ciphertext;
  }

  /** What is sealed is opened again. */
  lemma SealedOpens(c: Crypto, plaintext: Bytes, authKey: Bytes)
    requires c.Lawful() && |authKey| == LOCAL_KEY && Aligned(plaintext) && |plaintext| >= 4
    ensures DecryptDescriptor(c, Sealed(c, plaintext, authKey), authKey)
         == DescriptorPayload(c, plaintext, c.sha1(plaintext)[..BLOCK])
  {
    hide DeriveAesKeyAndIv, WritersKeyAndIv, IgeEncrypt, IgeDecrypt, DescriptorPayload, DecryptDescriptor;
    var messageKey := c.sha1(plaintext)[..BLOCK];
    SchedulesAgree(c, authKey, messageKey);
    var keyAndIv := WritersKeyAndIv(c, authKey, messageKey);
    var iv := keyAndIv.1;
    var ciphertext := IgeEncrypt(c, keyAndIv.0, plaintext, iv[..BLOCK], iv[BLOCK..]);
    IgeDecryptsEncryption(c, keyAndIv.0, plaintext, iv[..BLOCK], iv[BLOCK..]);
    DecryptsFrom(c, messageKey, ciphertext, authKey, keyAndIv, plaintext);
  }

  lemma DescriptorRoundTrip(c: Crypto, payload: Bytes, authKey: Bytes)
    requires c.Lawful() && |authKey| == LOCAL_KEY && |payload| + 4 < 0x1_0000_0000
    ensures DecryptDescriptor(c, EncryptDescriptor(c, payload, authKey), authKey) == Ok(payload)
  {
    SealedOpens(c, Enveloped(payload), authKey);
    EnvelopeRoundTrip(c, payload);
  }

  /** What is behind an aligned descriptor: the only plaintext that could have been sealed as it. */
  lemma OnlySealing(c: Crypto, encrypted: Bytes, authKey: Bytes, plaintext: Bytes)
    requires c.Lawful() && |authKey| == LOCAL_KEY && |encrypted| > BLOCK && Aligned(encrypted)
    requires
      var keyAndIv := WritersKeyAndIv(c, authKey, encrypted[..BLOCK]);
      AesIgeDecrypted(c, encrypted[BLOCK..], keyAndIv.0, keyAndIv.1) == Ok(plaintext)
    ensures Aligned(plaintext)
    ensures encrypted == Sealed(c, plaintext, authKey) <==> c.sha1(plaintext)[..BLOCK] == encrypted[..BLOCK]
    ensures forall p: Bytes :: Aligned(p) && encrypted == Sealed(c, p, authKey) ==> p == plaintext
  {
    var messageKey := encrypted[..BLOCK];
    var (key, iv) := WritersKeyAndIv(c, authKey, messageKey);
    IgeEncryptsDecryption(c, key, encrypted[BLOCK..], iv[..BLOCK], iv[BLOCK..]);
    assert encrypted == messageKey + encrypted[BLOCK..];
    forall p: Bytes | Aligned(p) && encrypted == Sealed(c, p, authKey)
      ensures p == plaintext
    {
      assert c.sha1(p)[..BLOCK] == messageKey;
      IgeDecryptsEncryption(c, key, p, iv[..BLOCK], iv[BLOCK..]);
      assert encrypted[BLOCK..] == IgeEncrypt(c, key, p, iv[..BLOCK], iv[BLOCK..]);
    }
    if c.sha1(plaintext)[..BLOCK] == messageKey {
      assert encrypted == Sealed(c, plaintext, authKey);
    }
  }

  ghost predicate IsSealing(c: Crypto, encrypted: Bytes, authKey: Bytes)
    requires c.Lawful() && |authKey| == LOCAL_KEY
  {
    exists plaintext: Bytes :: Aligned(plaintext) && encrypted == Sealed(c, plaintext, authKey)
  }

  lemma DecryptionStarts(c: Crypto, encrypted: Bytes, authKey: Bytes) returns (plaintext: Bytes)
    requires c.Lawful() && |authKey| == LOCAL_KEY && |encrypted| > BLOCK && Aligned(encrypted)
    ensures
      var keyAndIv := WritersKeyAndIv(c, authKey, encrypted[..BLOCK]);
      AesIgeDecrypted(c, encrypted[BLOCK..], keyAndIv.0, keyAndIv.1) == Ok(plaintext)
    ensures DecryptDescriptor(c, encrypted, authKey) == DescriptorPayload(c, plaintext, encrypted[..BLOCK])
  {
    hide WritersKeyAndIv, DeriveAesKeyAndIv, IgeDecrypt, DescriptorPayload;
    var keyAndIv := WritersKeyAndIv(c, authKey, encrypted[..BLOCK]);
    SchedulesAgree(c, authKey, encrypted[..BLOCK]);
    plaintext := AesIgeDecrypted(c, encrypted[BLOCK..], keyAndIv.0, keyAndIv.1).value;
  }

  /** A whole number of blocks is rejected as encrypted under another passcode exactly when nothing at all could have
      been sealed as it under this key. Anything else is malformed, whatever the key. */
  lemma PasscodeRejectedExactly(c: Crypto, encrypted: Bytes, authKey: Bytes)
    requires c.Lawful() && |authKey| == LOCAL_KEY
    ensures DecryptDescriptor(c, encrypted, authKey) == Err(PasscodeRejected) <==>
      |encrypted| > BLOCK && Aligned(encrypted) && !IsSealing(c, encrypted, authKey)
    ensures !(|encrypted| > BLOCK && Aligned(encrypted)) ==> DecryptDescriptor(c, encrypted, authKey) == Err(Rejected)
  {
    hide WritersKeyAndIv, DeriveAesKeyAndIv, AesIgeDecrypted, Sealed;
    if |encrypted| > BLOCK && Aligned(encrypted) {
      var plaintext := DecryptionStarts(c, encrypted, authKey);
      OnlySealing(c, encrypted, authKey, plaintext);
    }
  }

  /** A descriptor is accepted only if it is some sealed plaintext. */
  lemma DescriptorImage(c: Crypto, encrypted: Bytes, authKey: Bytes)
    requires c.Lawful() && DecryptDescriptor(c, encrypted, authKey).Ok?
    ensures |authKey| == LOCAL_KEY
    ensures exists plaintext: Bytes :: Aligned(plaintext) && encrypted == Sealed(c, plaintext, authKey)
  {
    hide WritersKeyAndIv, AesIgeDecrypted, Sealed;
    PasscodeRejectedExactly(c, encrypted, authKey);
  }

  // ---- which bytes of the key count ----

  /** Two keys that agree on bytes 8 to 135 derive the same, whatever the hashes are. */
  lemma OnlyTheseBytesCount(c: Crypto, a: Bytes, b: Bytes, messageKey: Bytes)
    requires c.Lawful() && |a| == |b| == 256 && |messageKey| == 16 && a[8..136] == b[8..136]
    ensures DeriveAesKeyAndIv(c, a, messageKey) == DeriveAesKeyAndIv(c, b, messageKey)
  {
    hide DeriveAesKeyAndIv;
    SchedulesAgree(c, a, messageKey);
    SchedulesAgree(c, b, messageKey);
  }

  /** Primitives whose digest is one byte of the input, over and over. */
  function Probe(position: nat): Crypto {
    Crypto(x => seq(16, i => 0), x => seq(20, i => if position < |x| then x[position] else 0), x => seq(64, i => 0),
           (m, s, n) => seq(256, i => 0), (k, b) => b, (k, b) => b)
  }

  /** Where byte `i` of the key lies in the digest's input, and which byte of the outcome then shows it. */
  function ProbeAt(i: nat): (nat, nat)
    requires 8 <= i < 136
  {
    if i < 40 then (16 + i - 8, 0)
    else if i < 56 then (i - 40, 8)
    else if i < 72 then (i - 24, 8)
    else if i < 104 then (i - 72, 20)
    else (16 + i - 104, 56)
  }

  lemma ProbeShows(key: Bytes, messageKey: Bytes, i: nat)
    requires |key| == 256 && |messageKey| == 16 && 8 <= i < 136
    requires Probe(ProbeAt(i).0).Lawful()
    ensures
      var r := DeriveAesKeyAndIv(Probe(ProbeAt(i).0), key, messageKey);
      r.Ok? && (r.value.0 + r.value.1)[ProbeAt(i).1] == key[i]
  {
    var c := Probe(ProbeAt(i).0);
    var at := ProbeAt(i).0;
    if i < 40 {
      assert (messageKey + key[8..40])[at] == key[i];
    } else if i < 72 {
      assert (key[40..56] + messageKey + key[56..72])[at] == key[i];
    } else if i < 104 {
      assert (key[72..104] + messageKey)[at] == key[i];
    } else {
      assert (messageKey + key[104..136])[at] == key[i];
    }
  }

  lemma ProbeIsLawful(position: nat)
    ensures Probe(position).Lawful()
  {
  }

  /** Each of those bytes counts: for some primitives, another value of it derives another key or vector. */
  lemma EveryByteCounts(key: Bytes, messageKey: Bytes, i: nat, value: Byte)
    requires |key| == 256 && |messageKey| == 16 && 8 <= i < 136 && value != key[i]
    ensures exists c: Crypto ::
      && c.Lawful()
      && DeriveAesKeyAndIv(c, key, messageKey) != DeriveAesKeyAndIv(c, key[i := value], messageKey)
  {
    var c := Probe(ProbeAt(i).0);
    ProbeIsLawful(ProbeAt(i).0);
    ProbeShows(key, messageKey, i);
    ProbeShows(key[i := value], messageKey, i);
    assert c.Lawful() && DeriveAesKeyAndIv(c, key, messageKey) != DeriveAesKeyAndIv(c, key[i := value], messageKey);
  }
}
