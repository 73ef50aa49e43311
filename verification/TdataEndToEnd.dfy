/** Whole files: what a Telegram Desktop installation writes for an account is what parse_tdata returns. */
module TdataEndToEnd {
  import opened Common
  import opened TdataBytes
  import opened TdataCipher
  import opened TdataParser
  import opened TdataRoundTrip

  /** The values behind the files. `active` is the optional trailing index of the account list. */
  datatype Desktop = Desktop(
    salt: Bytes,
    passcode: Bytes,
    localKey: Bytes,
    accounts: seq<int>,
    active: Option<int>,
    account: Account)

  predicate ValidDesktop(d: Desktop) {
    && d.salt != []
    && |d.localKey| == LOCAL_KEY
    && 1 <= |d.accounts| <= 3
    && (forall i :: 0 <= i < |d.accounts| ==> 0 <= d.accounts[i] <= 2)
    && (d.active.Some? ==> d.active.value == -1 || d.active.value in d.accounts)
    && ValidAccount(d.account)
  }

  /** The selected account, or the first one when none is selected. */
  function Selected(d: Desktop): (r: int)
    requires ValidDesktop(d)
    ensures 0 <= r <= 2
  {
    if d.active.Some? && d.active.value in d.accounts then d.active.value else d.accounts[0]
  }

  function WriteIndices(indices: seq<int>): (r: Bytes)
    requires forall i :: 0 <= i < |indices| ==> 0 <= indices[i] <= 2
    ensures |r| == 4 * |indices|
  {
    if indices == [] then [] else Int32(indices[0]) + WriteIndices(indices[1..])
  }

  function WriteInfo(d: Desktop): (r: Bytes)
    requires ValidDesktop(d)
    ensures |r| <= 20
  {
    Int32(|d.accounts|) + (WriteIndices(d.accounts) + if d.active.Some? then Int32(d.active.value) else [])
  }

  function WriteQByteArrays(values: seq<Bytes>): Bytes {
    if values == [] then [] else ToBig(|values[0]|, 4) + values[0] + WriteQByteArrays(values[1..])
  }

  function Ascii(text: string): (r: Bytes)
    requires forall i :: 0 <= i < |text| ==> text[i] < 128 as char
    ensures |r| == |text|
  {
    seq(|text|, i requires 0 <= i < |text| => text[i] as int)
  }

  /** A container: the checksum covers the payload, its length, the version and the magic. */
  function WriteTdf(c: Crypto, payload: Bytes, version: nat): Bytes {
    var magic := Ascii("TDF$");
    var sizes := ToLittle(|payload|, 4) + ToLittle(version, 4);
    magic + ToLittle(version, 4) + payload + c.md5(payload + (sizes + magic))
  }

  /** The key that the passcode stands for. An empty passcode is not worth more than one iteration. */
  function PasscodeKey(c: Crypto, salt: Bytes, passcode: Bytes): Bytes {
    var material := c.sha512(salt + (passcode + salt));
    if passcode == [] then c.pbkdf2(material, salt, 1) else c.pbkdf2(material, salt, 100000)
  }

  function HexDigit(n: nat): char
    requires n < 16
  {
    if n < 10 then '0' + n as char else 'A' + (n - 10) as char
  }

  /** The low digit of each byte comes before the high one. */
  function FileName(digest: Bytes): string {
    seq(2 * |digest|, i requires 0 <= i < 2 * |digest| =>
      HexDigit(if i % 2 == 0 then digest[i / 2] % 16 else digest[i / 2] / 16))
  }

  /** The file of an account, without its suffix. */
  function AccountFile(c: Crypto, index: nat): string
    requires c.Lawful() && index <= 2
  {
    FileName(c.md5(Ascii(if index == 0 then "data" else if index == 1 then "data#2" else "data#3"))[..8])
  }

  function KeyData(c: Crypto, d: Desktop): Bytes
    requires c.Lawful() && ValidDesktop(d)
  {
    WriteQByteArrays([
      d.salt,
      EncryptDescriptor(c, d.localKey, PasscodeKey(c, d.salt, d.passcode)),
      EncryptDescriptor(c, WriteInfo(d), d.localKey)])
  }

  function AccountInner(d: Desktop): Bytes
    requires ValidDesktop(d)
  {
    Int32(75) + WriteQByteArrays([WriteAuthorization(d.account)])
  }

  function AccountData(c: Crypto, d: Desktop): Bytes
    requires c.Lawful() && ValidDesktop(d)
  {
    WriteQByteArrays([EncryptDescriptor(c, AccountInner(d), d.localKey)])
  }

  /** The snapshot holds the two files, in versions of its own; other files are arbitrary. */
  predicate Wrote(c: Crypto, files: Files, d: Desktop, keyVersion: nat, accountVersion: nat)
    requires c.Lawful() && ValidDesktop(d)
  {
    && keyVersion < 0x1_0000_0000 && accountVersion < 0x1_0000_0000
    && "key_datas" in files && files["key_datas"] == WriteTdf(c, KeyData(c, d), keyVersion)
    && var name := AccountFile(c, Selected(d)) + "s";
       name in files && files[name] == WriteTdf(c, AccountData(c, d), accountVersion)
  }

  // ---- layer by layer ----

  lemma ContainersAgree(c: Crypto, payload: Bytes, version: nat)
    ensures WriteTdf(c, payload, version) == MAGIC + ToLittle(version, 4) + payload + TdfChecksum(c, payload, version)
  {
    var magic := Ascii("TDF$");
    var length := ToLittle(|payload|, 4);
    assert magic == MAGIC;
    assert payload + ((length + ToLittle(version, 4)) + magic) == payload + length + ToLittle(version, 4) + MAGIC;
  }

  lemma PasscodeKeysAgree(c: Crypto, salt: Bytes, passcode: Bytes)
    ensures DeriveLocalKey(c, salt, passcode) == PasscodeKey(c, salt, passcode)
  {
    assert salt + passcode + salt == salt + (passcode + salt);
  }

  lemma HexDigitsAgree(n: nat)
    requires n < 16
    ensures HEX[n] == HexDigit(n)
  {
  }

  lemma FileNameShifts(digest: Bytes)
    requires digest != []
    ensures FileName(digest)[..2] == [HexDigit(digest[0] % 16), HexDigit(digest[0] / 16)]
    ensures FileName(digest)[2..] == FileName(digest[1..])
  {
    hide HexDigit;
    var tail := FileName(digest[1..]);
    forall i | 2 <= i < 2 * |digest|
      ensures FileName(digest)[i] == tail[i - 2]
    {
      assert digest[1..][(i - 2) / 2] == digest[i / 2];
    }
  }

  lemma {:induction false} FileNamesAgree(digest: Bytes)
    ensures HexSwapped(digest) == FileName(digest)
    decreases |digest|
  {
    if digest != [] {
      FileNamesAgree(digest[1..]);
      HexDigitsAgree(digest[0] % 16);
      HexDigitsAgree(digest[0] / 16);
      FileNameShifts(digest);
      hide FileName, HexDigit;
      assert FileName(digest) == FileName(digest)[..2] + FileName(digest)[2..];
    }
  }

  lemma AccountFilesAgree(c: Crypto, index: nat)
    requires c.Lawful() && index <= 2
    ensures AccountFileName(c, index) == AccountFile(c, index)
  {
    var data: Bytes := [100, 97, 116, 97];
    assert Ascii("data") == data;
    assert Ascii("data#2") == data + [35, 48 + 1 + 1] && Ascii("data#3") == data + [35, 48 + 2 + 1];
    FileNamesAgree(c.md5(if index == 0 then data else data + [35, 48 + index + 1])[..8]);
  }

  lemma TdfReadBack(c: Crypto, files: Files, name: string, payload: Bytes, version: nat)
    requires c.Lawful() && version < 0x1_0000_0000 && 0 < |payload| < 0x1_0000_0000
    requires name in files && files[name] == WriteTdf(c, payload, version)
    ensures ReadTdf(c, files, name) == Ok(payload)
  {
    var data := files[name];
    ContainersAgree(c, payload, version);
    Widths();
    LittleRoundTrip(version, 4);
    assert data[..4] == MAGIC && data[4..8] == ToLittle(version, 4);
    assert data[8..|data| - 16] == payload && data[|data| - 16..] == TdfChecksum(c, payload, version);
  }

  predicate FitsPrefix(values: seq<Bytes>) {
    forall i :: 0 <= i < |values| ==> |values[i]| < 0xFFFF_FFFF
  }

  lemma Reassociate<T>(a: seq<T>, b: seq<T>, c: seq<T>)
    ensures (a + b) + c == a + (b + c)
  {
  }

  lemma {:induction false} QByteArraysReadBack(values: seq<Bytes>, before: seq<Bytes>)
    requires FitsPrefix(values)
    ensures QByteArrays(WriteQByteArrays(values), |values|, before) == Some(before + values)
    decreases |values|
  {
    if values == [] {
      assert before + [] == before;
    } else {
      var head := values[0];
      var tail := WriteQByteArrays(values[1..]);
      var data := WriteQByteArrays(values);
      Widths();
      BigRoundTrip(|head|, 4);
      assert data[..4] == ToBig(|head|, 4) && data[4..4 + |head|] == head && data[4 + |head|..] == tail;
      QByteArraysReadBack(values[1..], before + [head]);
      Reassociate(before, [head], values[1..]);
      assert [head] + values[1..] == values;
    }
  }

  lemma IndexReadBack(index: int, tail: Bytes, more: nat, before: seq<int>)
    requires 0 <= index <= 2
    ensures TakeIndices(Int32(index) + tail, more + 1, before) == TakeIndices(tail, more, before + [index])
  {
    Take32(index, tail);
  }

  lemma {:induction false} IndicesReadBack(indices: seq<int>, rest: Bytes, before: seq<int>)
    requires forall i :: 0 <= i < |indices| ==> 0 <= indices[i] <= 2
    ensures TakeIndices(WriteIndices(indices) + rest, |indices|, before) == Some((before + indices, rest))
    decreases |indices|
  {
    if indices == [] {
      assert [] + rest == rest && before + [] == before;
    } else {
      hide TakeIndices, Int32;
      var tail := WriteIndices(indices[1..]) + rest;
      Reassociate(Int32(indices[0]), WriteIndices(indices[1..]), rest);
      IndexReadBack(indices[0], tail, |indices| - 1, before);
      IndicesReadBack(indices[1..], rest, before + [indices[0]]);
      Reassociate(before, [indices[0]], indices[1..]);
      assert [indices[0]] + indices[1..] == indices;
    }
  }

  lemma InfoReadBack(d: Desktop)
    requires ValidDesktop(d)
    ensures ActiveAccountIndex(WriteInfo(d)) == Some(Selected(d))
  {
    var active := if d.active.Some? then Int32(d.active.value) else [];
    hide Int32, TakeSigned, TakeIndices, WriteIndices;
    Take32(|d.accounts|, WriteIndices(d.accounts) + active);
    IndicesReadBack(d.accounts, active, []);
    assert [] + d.accounts == d.accounts;
    if d.active.Some? {
      Take32(d.active.value, []);
      assert Int32(d.active.value) + [] == Int32(d.active.value);
    }
  }

  lemma EncryptedSize(c: Crypto, payload: Bytes, key: Bytes)
    requires c.Lawful() && |key| == LOCAL_KEY
    ensures |payload| + 20 <= |EncryptDescriptor(c, payload, key)| <= |payload| + 35
  {
  }

  lemma KeyDataFrom(c: Crypto, payload: Bytes, passcode: Bytes, parts: seq<Bytes>, localKey: Bytes, info: Bytes,
                    index: int)
    requires c.Lawful() && QByteArrays(payload, 3, []) == Some(parts) && parts[0] != [] && parts[1] != []
    requires |localKey| == LOCAL_KEY
    requires DecryptDescriptor(c, parts[1], DeriveLocalKey(c, parts[0], passcode)) == Ok(localKey)
    requires DecryptDescriptor(c, parts[2], localKey) == Ok(info) && ActiveAccountIndex(info) == Some(index)
    ensures ReadKeyData(c, payload, passcode) == Ok((localKey, index))
  {
  }

  lemma ThreeParts(a: Bytes, b: Bytes, d: Bytes)
    requires |a| < 0xFFFF_FFFF && |b| < 0xFFFF_FFFF && |d| < 0xFFFF_FFFF
    ensures QByteArrays(WriteQByteArrays([a, b, d]), 3, []) == Some([a, b, d])
  {
    QByteArraysReadBack([a, b, d], []);
    assert [] + [a, b, d] == [a, b, d];
  }

  lemma KeyDataReadBack(c: Crypto, d: Desktop)
    requires c.Lawful() && ValidDesktop(d) && |d.salt| < 0xFFFF_FFFF
    ensures ReadKeyData(c, KeyData(c, d), d.passcode) == Ok((d.localKey, Selected(d)))
  {
    var derived := PasscodeKey(c, d.salt, d.passcode);
    PasscodeKeysAgree(c, d.salt, d.passcode);
    var lockedKey := EncryptDescriptor(c, d.localKey, derived);
    var lockedInfo := EncryptDescriptor(c, WriteInfo(d), d.localKey);
    EncryptedSize(c, d.localKey, derived);
    EncryptedSize(c, WriteInfo(d), d.localKey);
    ThreeParts(d.salt, lockedKey, lockedInfo);
    DescriptorRoundTrip(c, d.localKey, derived);
    DescriptorRoundTrip(c, WriteInfo(d), d.localKey);
    InfoReadBack(d);
    KeyDataFrom(c, KeyData(c, d), d.passcode, [d.salt, lockedKey, lockedInfo], d.localKey, WriteInfo(d), Selected(d));
  }

  lemma OnePart(a: Bytes)
    requires |a| < 0xFFFF_FFFF
    ensures QByteArrays(WriteQByteArrays([a]), 1, []) == Some([a])
    ensures |WriteQByteArrays([a])| == |a| + 4
  {
    QByteArraysReadBack([a], []);
    assert [] + [a] == [a];
    assert WriteQByteArrays([a]) == ToBig(|a|, 4) + a + [];
  }

  lemma AccountDataFrom(c: Crypto, payload: Bytes, localKey: Bytes, locked: Bytes, inner: Bytes, rest: Bytes,
                        serialized: Bytes,
                        auth: (int, int, Bytes))
    requires c.Lawful() && QByteArrays(payload, 1, []) == Some([locked])
    requires DecryptDescriptor(c, locked, localKey) == Ok(inner)
    requires TakeSigned(inner, 4) == Some((75, rest)) && QByteArrays(rest, 1, []) == Some([serialized])
    requires Authorization(serialized) == Some(auth)
    ensures ReadAccountData(c, payload, localKey) == Ok(auth)
  {
    hide QByteArrays, TakeSigned, Authorization, DecryptDescriptor;
  }

  lemma AccountDataReadBack(c: Crypto, d: Desktop)
    requires c.Lawful() && ValidDesktop(d)
    ensures LastKey(d.account.keys, d.account.dcId, None).Some?
    ensures ReadAccountData(c, AccountData(c, d), d.localKey)
         == Ok((d.account.userId, d.account.dcId, LastKey(d.account.keys, d.account.dcId, None).value))
    ensures 0 < |AccountData(c, d)| < 0x1_0000
  {
    var serialized := WriteAuthorization(d.account);
    var inner := AccountInner(d);
    var locked := EncryptDescriptor(c, inner, d.localKey);
    AuthorizationReadBack(d.account);
    hide WriteAuthorization, WriteQByteArrays, EncryptDescriptor, QByteArrays, DecryptDescriptor, Authorization,
        TakeSigned, LastKey;
    OnePart(serialized);
    Take32(75, WriteQByteArrays([serialized]));
    EncryptedSize(c, inner, d.localKey);
    DescriptorRoundTrip(c, inner, d.localKey);
    OnePart(locked);
    AccountDataFrom(c, AccountData(c, d), d.localKey, locked, inner, WriteQByteArrays([serialized]), serialized,
      (d.account.userId, d.account.dcId, LastKey(d.account.keys, d.account.dcId, None).value));
  }

  lemma ParsedFrom(c: Crypto, files: Files, passcode: Bytes, payload: Bytes, localKey: Bytes, index: int,
                   account: Bytes, auth: (int, int, Bytes))
    requires c.Lawful() && 0 <= index <= 2
    requires ReadTdf(c, files, "key_datas") == Ok(payload)
    requires ReadKeyData(c, payload, passcode) == Ok((localKey, index))
    requires ReadTdfWithSuffixes(c, files, AccountFileName(c, index), SUFFIXES) == Ok(account)
    requires ReadAccountData(c, account, localKey) == Ok(auth)
    ensures Parsed(c, files, passcode) == Ok(ParsedTdata(localKey, auth.0, auth.1, auth.2))
  {
  }

  lemma FirstSuffixRead(c: Crypto, files: Files, name: string, payload: Bytes)
    requires c.Lawful() && ReadTdf(c, files, name + "s") == Ok(payload)
    ensures ReadTdfWithSuffixes(c, files, name, SUFFIXES) == Ok(payload)
  {
    assert name + [SUFFIXES[0]] == name + "s";
  }

  /** End to end: whatever salt, passcode, local key, account list, layout and key list were written,
      the reader returns the local key, the user id, the data centre and the last key for it. The only
      size condition is the container's own: the key file's payload length fits in four bytes. */
  lemma ParseReadsWhatDesktopWrote(c: Crypto, files: Files, d: Desktop, keyVersion: nat, accountVersion: nat)
    requires c.Lawful() && ValidDesktop(d) && |KeyData(c, d)| < 0x1_0000_0000
    requires Wrote(c, files, d, keyVersion, accountVersion)
    ensures LastKey(d.account.keys, d.account.dcId, None).Some?
    ensures Parsed(c, files, d.passcode)
         == Ok(ParsedTdata(d.localKey, d.account.userId, d.account.dcId,
             LastKey(d.account.keys, d.account.dcId, None).value))
  {
    KeyDataSize(c, d);
    TdfReadBack(c, files, "key_datas", KeyData(c, d), keyVersion);
    KeyDataReadBack(c, d);
    AccountDataReadBack(c, d);
    var name := AccountFile(c, Selected(d));
    AccountFilesAgree(c, Selected(d));
    TdfReadBack(c, files, name + "s", AccountData(c, d), accountVersion);
    FirstSuffixRead(c, files, name, AccountData(c, d));
    ParsedFrom(c, files, d.passcode, KeyData(c, d), d.localKey, Selected(d), AccountData(c, d),
      (d.account.userId, d.account.dcId, LastKey(d.account.keys, d.account.dcId, None).value));
  }

  lemma KeyDataSize(c: Crypto, d: Desktop)
    requires c.Lawful() && ValidDesktop(d)
    ensures |KeyData(c, d)| > |d.salt| + 4
  {
    var lockedKey := EncryptDescriptor(c, d.localKey, PasscodeKey(c, d.salt, d.passcode));
    EncryptedSize(c, d.localKey, PasscodeKey(c, d.salt, d.passcode));
    var lockedInfo := EncryptDescriptor(c, WriteInfo(d), d.localKey);
    var parts := [d.salt, lockedKey, lockedInfo];
    assert parts[1..] == [lockedKey, lockedInfo];
    assert WriteQByteArrays(parts) == ToBig(|d.salt|, 4) + d.salt + WriteQByteArrays([lockedKey, lockedInfo]);
    assert |WriteQByteArrays([lockedKey, lockedInfo])| >= 4 + |lockedKey|;
  }

  lemma SealedAligned(c: Crypto, payload: Bytes, key: Bytes)
    requires c.Lawful() && |key| == LOCAL_KEY
    ensures Aligned(EncryptDescriptor(c, payload, key)) && |EncryptDescriptor(c, payload, key)| > BLOCK
  {
  }

  lemma RejectedKeyData(c: Crypto, payload: Bytes, passcode: Bytes, parts: seq<Bytes>)
    requires c.Lawful() && QByteArrays(payload, 3, []) == Some(parts) && parts[0] != [] && parts[1] != []
    requires DecryptDescriptor(c, parts[1], DeriveLocalKey(c, parts[0], passcode)) == Err(PasscodeRejected)
    ensures ReadKeyData(c, payload, passcode) == Err(PasscodeRejected)
  {
  }

  lemma WrongPasscodeKeyData(c: Crypto, d: Desktop, passcode: Bytes)
    requires c.Lawful() && ValidDesktop(d) && |d.salt| < 0xFFFF_FFFF
    requires !IsSealing(c, EncryptDescriptor(c, d.localKey, PasscodeKey(c, d.salt, d.passcode)),
                        PasscodeKey(c, d.salt, passcode))
    ensures ReadKeyData(c, KeyData(c, d), passcode) == Err(PasscodeRejected)
  {
    var lockedKey := EncryptDescriptor(c, d.localKey, PasscodeKey(c, d.salt, d.passcode));
    var lockedInfo := EncryptDescriptor(c, WriteInfo(d), d.localKey);
    EncryptedSize(c, d.localKey, PasscodeKey(c, d.salt, d.passcode));
    EncryptedSize(c, WriteInfo(d), d.localKey);
    SealedAligned(c, d.localKey, PasscodeKey(c, d.salt, d.passcode));
    hide EncryptDescriptor, IsSealing, WriteQByteArrays, QByteArrays, DecryptDescriptor, ReadKeyData, PasscodeKey;
    ThreeParts(d.salt, lockedKey, lockedInfo);
    PasscodeKeysAgree(c, d.salt, passcode);
    PasscodeRejectedExactly(c, lockedKey, PasscodeKey(c, d.salt, passcode));
    RejectedKeyData(c, KeyData(c, d), passcode, [d.salt, lockedKey, lockedInfo]);
  }

  /** With another passcode, under whose key the stored local key is not the sealing of anything, the reader says that
      the passcode is wrong, and not that the data are malformed. */
  lemma WrongPasscodeIsReported(c: Crypto, files: Files, d: Desktop, keyVersion: nat, accountVersion: nat,
                                passcode: Bytes)
    requires c.Lawful() && ValidDesktop(d) && |KeyData(c, d)| < 0x1_0000_0000
    requires Wrote(c, files, d, keyVersion, accountVersion)
    requires !IsSealing(c, EncryptDescriptor(c, d.localKey, PasscodeKey(c, d.salt, d.passcode)),
                        PasscodeKey(c, d.salt, passcode))
    ensures Parsed(c, files, passcode) == Err(PasscodeRejected)
  {
    KeyDataSize(c, d);
    hide EncryptDescriptor, IsSealing, WriteTdf, KeyData, ReadTdf, ReadKeyData, PasscodeKey;
    TdfReadBack(c, files, "key_datas", KeyData(c, d), keyVersion);
    WrongPasscodeKeyData(c, d, passcode);
  }

  /** Whole blocks that nothing could have been sealed as under the key. */
  ghost predicate WrongKey(c: Crypto, encrypted: Bytes, key: Bytes)
    requires c.Lawful() && |key| == LOCAL_KEY
  {
    |encrypted| > BLOCK && Aligned(encrypted) && !IsSealing(c, encrypted, key)
  }

  /** The passcode is blamed exactly when the stored local key, or the account list under the local key, was sealed
      under another key. Without a salt or a stored local key, or with a local key of another size, the data are
      malformed. */
  lemma PasscodeBlamedExactly(c: Crypto, payload: Bytes, passcode: Bytes)
    requires c.Lawful()
    ensures
      var parts := QByteArrays(payload, 3, []);
      var r := ReadKeyData(c, payload, passcode);
      if parts.None? || parts.value[0] == [] || parts.value[1] == [] then r == Err(Rejected)
      else
        var key := PasscodeKey(c, parts.value[0], passcode);
        var unlocked := DecryptDescriptor(c, parts.value[1], key);
        && |key| == LOCAL_KEY
        && (r == Err(PasscodeRejected) <==>
              || WrongKey(c, parts.value[1], key)
              || (unlocked.Ok? && |unlocked.value| == LOCAL_KEY && WrongKey(c, parts.value[2], unlocked.value)))
        && (r.Ok? || r == Err(Rejected) || r == Err(PasscodeRejected))
  {
    var parts := QByteArrays(payload, 3, []);
    if parts.Some? && parts.value[0] != [] && parts.value[1] != [] {
      var key := PasscodeKey(c, parts.value[0], passcode);
      PasscodeKeysAgree(c, parts.value[0], passcode);
      PasscodeRejectedExactly(c, parts.value[1], key);
      DescriptorErrors(c, parts.value[1], key);
      var unlocked := DecryptDescriptor(c, parts.value[1], key);
      if unlocked.Ok? && |unlocked.value| == LOCAL_KEY {
        PasscodeRejectedExactly(c, parts.value[2], unlocked.value);
        DescriptorErrors(c, parts.value[2], unlocked.value);
      }
    }
  }

  lemma DescriptorErrors(c: Crypto, encrypted: Bytes, key: Bytes)
    requires c.Lawful() && |key| == LOCAL_KEY
    ensures
      var r := DecryptDescriptor(c, encrypted, key);
      r.Ok? || r == Err(Rejected) || r == Err(PasscodeRejected)
  {
  }

  /** For the account's data likewise: the passcode is blamed exactly for a descriptor sealed under another key, and
      whatever else is wrong is one rejection. */
  lemma AccountDataBlamedExactly(c: Crypto, payload: Bytes, localKey: Bytes)
    requires c.Lawful() && |localKey| == LOCAL_KEY
    ensures
      var parts := QByteArrays(payload, 1, []);
      var r := ReadAccountData(c, payload, localKey);
      && (r == Err(PasscodeRejected) <==> parts.Some? && WrongKey(c, parts.value[0], localKey))
      && (r.Ok? || r == Err(Rejected) || r == Err(PasscodeRejected))
  {
    var parts := QByteArrays(payload, 1, []);
    if parts.Some? {
      PasscodeRejectedExactly(c, parts.value[0], localKey);
      DescriptorErrors(c, parts.value[0], localKey);
    }
  }

  /** A missing key file, and a missing account file behind an intact one, are rejections like any other. */
  lemma MissingFilesAreRejected(c: Crypto, files: Files, d: Desktop, keyVersion: nat)
    requires c.Lawful() && ValidDesktop(d) && |KeyData(c, d)| < 0x1_0000_0000 && keyVersion < 0x1_0000_0000
    requires "key_datas" in files ==>
      files["key_datas"] == WriteTdf(c, KeyData(c, d), keyVersion) && AccountFile(c, Selected(d)) + "s" !in files
    ensures Parsed(c, files, d.passcode) == Err(Rejected)
  {
    if "key_datas" in files {
      KeyDataSize(c, d);
      AccountFilesAgree(c, Selected(d));
      hide KeyData, WriteTdf, ReadKeyData, AccountFile, AccountFileName;
      TdfReadBack(c, files, "key_datas", KeyData(c, d), keyVersion);
      KeyDataReadBack(c, d);
      MissingFirstCopyEndsSearch(c, files, AccountFile(c, Selected(d)));
    }
  }

  /** A rejected copy makes way for the next: first "s", then "1", then "0". */
  lemma RejectedCopiesAreSkipped(c: Crypto, files: Files, name: string)
    requires c.Lawful()
    ensures
      var newest, older, oldest := ReadTdf(c, files, name + "s"), ReadTdf(c, files, name + "1"),
        ReadTdf(c, files, name + "0");
      ReadTdfWithSuffixes(c, files, name, SUFFIXES)
      == if newest != Err(Rejected) then newest else if older != Err(Rejected) then older else oldest
  {
    hide ReadTdf;
    var rest := SUFFIXES[1..];
    assert rest == ['1', '0'] && rest[1..] == ['0'] && ['0'][1..] == [];
    assert name + [SUFFIXES[0]] == name + "s" && name + [rest[0]] == name + "1" && name + [rest[1..][0]] == name + "0";
  }

  /** A file whose first-suffix copy is intact is read from it whatever the other copies hold; a
      missing first copy ends the search even when an older one is intact. */
  lemma MissingFirstCopyEndsSearch(c: Crypto, files: Files, name: string)
    requires c.Lawful() && name + "s" !in files
    ensures ReadTdfWithSuffixes(c, files, name, SUFFIXES) == Err(FileError)
  {
    assert name + [SUFFIXES[0]] == name + "s";
  }

  /** The reader never accepts a file whose checksum is not that of its payload and version. */
  lemma AcceptedContainersAreWritten(c: Crypto, files: Files, name: string)
    requires c.Lawful() && ReadTdf(c, files, name).Ok?
    ensures exists version: nat ::
      version < 0x1_0000_0000 && files[name] == WriteTdf(c, ReadTdf(c, files, name).value, version)
  {
    var data := files[name];
    var payload := ReadTdf(c, files, name).value;
    var version := FromLittle(data[4..8]);
    Widths();
    LittleImage(data[4..8]);
    assert data == data[..4] + data[4..8] + data[8..|data| - 16] + data[|data| - 16..];
    ContainersAgree(c, payload, version);
    assert data == WriteTdf(c, payload, version);
  }

  /** What is made of a file: a missing one is a file error; a payload too long for its length field overflows; what
      the writer writes for a payload that is not empty is accepted, and nothing else; all the rest is rejected. */
  lemma ContainersAreReadExactly(c: Crypto, files: Files, name: string, payload: Bytes)
    requires c.Lawful()
    ensures ReadTdf(c, files, name) == Err(FileError) <==> name !in files
    ensures ReadTdf(c, files, name) == Err(LengthOverflow) <==>
      name in files && |files[name]| >= 24 + 0x1_0000_0000 && files[name][..4] == Ascii("TDF$")
    ensures ReadTdf(c, files, name) == Ok(payload) <==>
      && name in files && 0 < |payload| < 0x1_0000_0000
      && exists version: nat :: version < 0x1_0000_0000 && files[name] == WriteTdf(c, payload, version)
    ensures ReadTdf(c, files, name) != Err(PasscodeRejected)
  {
    Widths();
    assert Ascii("TDF$") == MAGIC;
    if ReadTdf(c, files, name) == Ok(payload) {
      AcceptedContainersAreWritten(c, files, name);
    }
    if name in files && 0 < |payload| < 0x1_0000_0000 {
      forall version: nat | version < 0x1_0000_0000 && files[name] == WriteTdf(c, payload, version)
        ensures ReadTdf(c, files, name) == Ok(payload)
      {
        TdfReadBack(c, files, name, payload, version);
      }
    }
  }

  // ---- the premises can be met ----

  lemma NamesApart(c: Crypto, index: nat)
    requires c.Lawful() && index <= 2
    ensures AccountFile(c, index) + "s" != "key_datas"
  {
    assert |AccountFile(c, index) + "s"| == 17;
  }

  /** Every installation has files: the two names never clash. */
  lemma EveryDesktopCanBeWritten(c: Crypto, d: Desktop, keyVersion: nat, accountVersion: nat)
    requires c.Lawful() && ValidDesktop(d) && keyVersion < 0x1_0000_0000 && accountVersion < 0x1_0000_0000
    ensures exists files: Files :: Wrote(c, files, d, keyVersion, accountVersion)
  {
    hide ValidDesktop, WriteTdf, KeyData, AccountData, AccountFile, Selected;
    NamesApart(c, Selected(d));
    var name := AccountFile(c, Selected(d)) + "s";
    var keys, account := WriteTdf(c, KeyData(c, d), keyVersion), WriteTdf(c, AccountData(c, d), accountVersion);
    var files: Files := map["key_datas" := keys, name := account];
    assert Wrote(c, files, d, keyVersion, accountVersion);
  }

  /** The laws asked of the foreign primitives are consistent. */
  lemma SomeCryptoIsLawful() returns (c: Crypto)
    ensures c.Lawful()
  {
    c := Crypto(x => seq(16, i => 0), x => seq(20, i => 0), x => seq(64, i => 0), (m, s, n) => seq(256, i => 0),
        (k, b) => b, (k, b) => b);
  }
}
