/** What Telegram Desktop writes is what the reader reads, and the reader accepts nothing else as an
    account authorization. */
module TdataRoundTrip {
  import opened Common
  import opened TdataBytes
  import opened TdataCipher
  import opened TdataParser

  // ---- the writer ----

  datatype KeyEntry = KeyEntry(dcId: int, key: Bytes)

  /** An account as serialized: narrow (32-bit) or wide (64-bit) user id, the authorization keys, and
      the raw entries of keys to destroy. */
  datatype Account = Account(wide: bool, userId: int, dcId: int, keys: seq<KeyEntry>, destroyed: Bytes)

  const ENTRY := 260

  predicate ValidKey(k: KeyEntry) {
    0 < k.dcId < 0x8000_0000 && |k.key| == LOCAL_KEY
  }

  predicate ValidKeys(keys: seq<KeyEntry>) {
    forall i :: 0 <= i < |keys| ==> ValidKey(keys[i])
  }

  predicate ValidAccount(a: Account) {
    && 0 < a.userId < (if a.wide then 0x8000_0000_0000_0000 else 0x8000_0000)
    && 0 < a.dcId < 0x8000_0000
    && 1 <= |a.keys| <= 20
    && ValidKeys(a.keys)
    && (exists k <- a.keys :: k.dcId == a.dcId)
    && |a.destroyed| % ENTRY == 0 && |a.destroyed| / ENTRY <= 20
  }

  function Int32(v: int): (r: Bytes)
    requires -0x8000_0000 <= v < 0x8000_0000
    ensures |r| == 4
  {
    Widths();
    ToSigned(v, 4)
  }

  function Int64(v: int): (r: Bytes)
    requires -0x8000_0000_0000_0000 <= v < 0x8000_0000_0000_0000
    ensures |r| == 8
  {
    Widths();
    ToSigned(v, 8)
  }

  function WriteKeys(keys: seq<KeyEntry>): (r: Bytes)
    requires ValidKeys(keys)
    ensures |r| == ENTRY * |keys|
  {
    if keys == [] then [] else Int32(keys[0].dcId) + keys[0].key + WriteKeys(keys[1..])
  }

  function WriteIdentity(a: Account): (r: Bytes)
    requires ValidAccount(a)
    ensures |r| <= 20
  {
    if a.wide then Int32(-1) + Int32(-1) + Int64(a.userId) + Int32(a.dcId)
    else Int32(a.userId) + Int32(a.dcId)
  }

  function WriteAuthorization(a: Account): (r: Bytes)
    requires ValidAccount(a)
    ensures |r| <= 28 + 40 * ENTRY
  {
    WriteIdentity(a) + (Int32(|a.keys|) + (WriteKeys(a.keys) + (Int32(|a.destroyed| / ENTRY) + a.destroyed)))
  }

  /** The key written last for the data centre. */
  function LastKey(keys: seq<KeyEntry>, dc: int, main: Option<Bytes>): Option<Bytes> {
    if keys == [] then main
    else LastKey(keys[1..], dc, if keys[0].dcId == dc then Some(keys[0].key) else main)
  }

  lemma {:induction false} LastKeyFound(keys: seq<KeyEntry>, dc: int, main: Option<Bytes>)
    ensures LastKey(keys, dc, main).Some? <==> main.Some? || exists k <- keys :: k.dcId == dc
    decreases |keys|
  {
    if keys != [] {
      LastKeyFound(keys[1..], dc, if keys[0].dcId == dc then Some(keys[0].key) else main);
      assert keys == [keys[0]] + keys[1..];
    }
  }

  /** LastKey is what its name says: the key at some position after which the data centre does not
      occur again. */
  lemma {:induction false} LastKeyIsLast(keys: seq<KeyEntry>, dc: int, i: nat)
    requires i < |keys| && keys[i].dcId == dc && forall j :: i < j < |keys| ==> keys[j].dcId != dc
    ensures forall main :: LastKey(keys, dc, main) == Some(keys[i].key)
    decreases |keys|
  {
    if i > 0 {
      LastKeyIsLast(keys[1..], dc, i - 1);
    } else {
      LastKeyAbsent(keys[1..], dc, Some(keys[0].key));
    }
  }

  lemma {:induction false} LastKeyAbsent(keys: seq<KeyEntry>, dc: int, main: Option<Bytes>)
    requires forall k <- keys :: k.dcId != dc
    ensures LastKey(keys, dc, main) == main
    decreases |keys|
  {
    if keys != [] {
      LastKeyAbsent(keys[1..], dc, main);
    }
  }

  // ---- reading back an authorization ----

  lemma Take32(v: int, rest: Bytes)
    requires -0x8000_0000 <= v < 0x8000_0000
    ensures TakeSigned(Int32(v) + rest, 4) == Some((v, rest))
  {
    Widths();
    SignedRoundTrip(v, 4);
    assert (Int32(v) + rest)[..4] == Int32(v) && (Int32(v) + rest)[4..] == rest;
  }

  lemma Take64(v: int, rest: Bytes)
    requires -0x8000_0000_0000_0000 <= v < 0x8000_0000_0000_0000
    ensures TakeSigned(Int64(v) + rest, 8) == Some((v, rest))
  {
    Widths();
    SignedRoundTrip(v, 8);
    assert (Int64(v) + rest)[..8] == Int64(v) && (Int64(v) + rest)[8..] == rest;
  }

  lemma {:induction false} KeysReadBack(keys: seq<KeyEntry>, rest: Bytes, dc: int, main: Option<Bytes>)
    requires ValidKeys(keys)
    ensures TakeKeys(WriteKeys(keys) + rest, |keys|, dc, main) == Some((LastKey(keys, dc, main), rest))
    decreases |keys|
  {
    if keys == [] {
      assert [] + rest == rest;
    } else {
      var k := keys[0];
      var tail := WriteKeys(keys[1..]) + rest;
      assert WriteKeys(keys) + rest == Int32(k.dcId) + (k.key + tail);
      Take32(k.dcId, k.key + tail);
      assert (k.key + tail)[..LOCAL_KEY] == k.key && (k.key + tail)[LOCAL_KEY..] == tail;
      KeysReadBack(keys[1..], rest, dc, if k.dcId == dc then Some(k.key) else main);
    }
  }

  lemma IdentityReadBack(a: Account, rest: Bytes)
    requires ValidAccount(a)
    ensures TakeIdentity(WriteIdentity(a) + rest) == Some((a.userId, a.dcId, rest))
  {
    if a.wide {
      var wideRest := Int64(a.userId) + (Int32(a.dcId) + rest);
      assert WriteIdentity(a) + rest == Int32(-1) + (Int32(-1) + wideRest);
      Take32(-1, Int32(-1) + wideRest);
      Take32(-1, wideRest);
      Take64(a.userId, Int32(a.dcId) + rest);
      Take32(a.dcId, rest);
    } else {
      assert WriteIdentity(a) + rest == Int32(a.userId) + (Int32(a.dcId) + rest);
      Take32(a.userId, Int32(a.dcId) + rest);
      Take32(a.dcId, rest);
    }
  }

  /** Both layouts read back to the user id, the data centre and the last key written for it. */
  lemma AuthorizationReadBack(a: Account)
    requires ValidAccount(a)
    ensures LastKey(a.keys, a.dcId, None).Some?
    ensures Authorization(WriteAuthorization(a)) == Some((a.userId, a.dcId, LastKey(a.keys, a.dcId, None).value))
  {
    LastKeyFound(a.keys, a.dcId, None);
    var end := Int32(|a.destroyed| / ENTRY) + a.destroyed;
    IdentityReadBack(a, Int32(|a.keys|) + (WriteKeys(a.keys) + end));
    Take32(|a.keys|, WriteKeys(a.keys) + end);
    KeysReadBack(a.keys, end, a.dcId, None);
    Take32(|a.destroyed| / ENTRY, a.destroyed);
  }

  // ---- nothing else is accepted ----

  lemma Taken32(data: Bytes)
    requires TakeSigned(data, 4).Some?
    ensures var (v, rest) := TakeSigned(data, 4).value;
            -0x8000_0000 <= v < 0x8000_0000 && data == Int32(v) + rest
  {
    Widths();
    SignedImage(data[..4]);
    assert data == data[..4] + data[4..];
  }

  lemma Taken64(data: Bytes)
    requires TakeSigned(data, 8).Some?
    ensures var (v, rest) := TakeSigned(data, 8).value;
            -0x8000_0000_0000_0000 <= v < 0x8000_0000_0000_0000 && data == Int64(v) + rest
  {
    Widths();
    SignedImage(data[..8]);
    assert data == data[..8] + data[8..];
  }

  lemma Regroup(head: Bytes, key: Bytes, after: Bytes, tail: Bytes, rest: Bytes)
    requires |key| <= |after| && key == after[..|key|] && after[|key|..] == tail + rest
    ensures head + after == head + key + tail + rest
  {
    assert after == key + after[|key|..];
  }

  lemma {:induction false} KeysImage(data: Bytes, count: nat, dc: int, main: Option<Bytes>)
    returns (keys: seq<KeyEntry>)
    requires TakeKeys(data, count, dc, main).Some?
    ensures |keys| == count && ValidKeys(keys)
    ensures var (last, rest) := TakeKeys(data, count, dc, main).value;
            data == WriteKeys(keys) + rest && last == LastKey(keys, dc, main)
    decreases count
  {
    if count == 0 {
      keys := [];
      assert [] + data == data;
    } else {
      var (keyDc, after) := TakeSigned(data, 4).value;
      Taken32(data);
      var key := after[..LOCAL_KEY];
      var tail := KeysImage(after[LOCAL_KEY..], count - 1, dc, if keyDc == dc then Some(key) else main);
      keys := [KeyEntry(keyDc, key)] + tail;
      var rest := TakeKeys(data, count, dc, main).value.1;
      assert keys[1..] == tail;
      Regroup(Int32(keyDc), key, after, WriteKeys(tail), rest);
    }
  }

  lemma IdentityImage(data: Bytes) returns (wide: bool)
    requires TakeIdentity(data).Some? && TakeIdentity(data).value.0 > 0 && TakeIdentity(data).value.1 > 0
    ensures var (user, dc, rest) := TakeIdentity(data).value;
            && user < (if wide then 0x8000_0000_0000_0000 else 0x8000_0000) && dc < 0x8000_0000
            && data == (if wide then Int32(-1) + Int32(-1) + Int64(user) + Int32(dc) else Int32(user) + Int32(dc)) +
                rest
  {
    var (user, afterUser) := TakeSigned(data, 4).value;
    var (dc, afterDc) := TakeSigned(afterUser, 4).value;
    Taken32(data);
    Taken32(afterUser);
    wide := user == -1 && dc == -1;
    if wide {
      var (wideUser, afterWide) := TakeSigned(afterDc, 8).value;
      var (wideDc, rest) := TakeSigned(afterWide, 4).value;
      Taken64(afterDc);
      Taken32(afterWide);
      assert data == Int32(-1) + (Int32(-1) + (Int64(wideUser) + (Int32(wideDc) + rest)));
      assert data == Int32(-1) + Int32(-1) + Int64(wideUser) + Int32(wideDc) + rest;
    } else {
      assert data == Int32(user) + Int32(dc) + afterDc;
    }
  }

  /** Whatever is accepted was written by the serializer, for an account that this constructs. */
  lemma AuthorizationImage(payload: Bytes) returns (a: Account)
    requires Authorization(payload).Some?
    ensures ValidAccount(a) && payload == WriteAuthorization(a)
  {
    var (user, dc, afterIdentity) := TakeIdentity(payload).value;
    var wide := IdentityImage(payload);
    var (count, afterCount) := TakeSigned(afterIdentity, 4).value;
    Taken32(afterIdentity);
    var keys := KeysImage(afterCount, count, dc, None);
    LastKeyFound(keys, dc, None);
    var afterKeys := TakeKeys(afterCount, count, dc, None).value.1;
    var (destroy, destroyed) := TakeSigned(afterKeys, 4).value;
    Taken32(afterKeys);
    a := Account(wide, user, dc, keys, destroyed);
    assert |destroyed| == destroy * ENTRY;
    assert |destroyed| % ENTRY == 0 && |destroyed| / ENTRY == destroy;
  }

  /** The reader accepts exactly the images of the serializer. */
  lemma AuthorizationAcceptsExactlyImages(payload: Bytes)
    ensures Authorization(payload).Some? <==> exists a: Account :: ValidAccount(a) && payload == WriteAuthorization(a)
  {
    if Authorization(payload).Some? {
      var a := AuthorizationImage(payload);
    }
    if a: Account :| ValidAccount(a) && payload == WriteAuthorization(a) {
      AuthorizationReadBack(a);
    }
  }
}
