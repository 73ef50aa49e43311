/** The reader of Telegram Desktop's tdata files: container, length-prefixed arrays, account list and
    account authorization.

    The functions read from the front of what is left; the methods walk offsets, as the source does. */
module TdataParser {
  import opened Common
  import opened TdataBytes
  import opened TdataCipher

  /** The bytes of each file of the snapshot. */
  type Files = map<string, Bytes>

  const MAGIC: Bytes := [84, 68, 70, 36]

  /** The first integer of the input and what follows it. */
  function TakeSigned(data: Bytes, width: nat): Option<(int, Bytes)> {
    if |data| < width then None else Some((FromSigned(data[..width]), data[width..]))
  }

  // ---- the TDF container ----

  function TdfChecksum(c: Crypto, payload: Bytes, version: nat): Bytes {
    c.md5(payload + ToLittle(|payload|, 4) + ToLittle(version, 4) + MAGIC)
  }

  /** A missing file is an OSError; a payload whose length needs more than four bytes overflows. */
  function ReadTdf(c: Crypto, files: Files, name: string): Result<Bytes>
    requires c.Lawful()
  {
    if name !in files then Err(FileError)
    else
      var data := files[name];
      if |data| < 8 + 16 || data[..4] != MAGIC then Err(Rejected)
      else
        var version := FromLittle(data[4..8]);
        var payload := data[8..|data| - 16];
        if |payload| >= Range(4) then Err(LengthOverflow)
        else if payload == [] || data[|data| - 16..] != TdfChecksum(c, payload, version) then Err(Rejected)
        else Ok(payload)
  }

  /** A rejected file sends the search on to the next suffix; any other error ends it. */
  function ReadTdfWithSuffixes(c: Crypto, files: Files, name: string, suffixes: seq<char>): Result<Bytes>
    requires c.Lawful()
    decreases |suffixes|
  {
    if suffixes == [] then Err(Rejected)
    else
      var r := ReadTdf(c, files, name + [suffixes[0]]);
      if r == Err(Rejected) then ReadTdfWithSuffixes(c, files, name, suffixes[1..]) else r
  }

  const SUFFIXES := ['s', '1', '0']

  method ReadTdfFirst(c: Crypto, files: Files, name: string) returns (r: Result<Bytes>)
    requires c.Lawful()
    ensures r == ReadTdfWithSuffixes(c, files, name, SUFFIXES)
  {
    var i := 0;
    while i < |SUFFIXES|
      invariant 0 <= i <= |SUFFIXES|
      invariant ReadTdfWithSuffixes(c, files, name, SUFFIXES) == ReadTdfWithSuffixes(c, files, name, SUFFIXES[i..])
    {
      assert SUFFIXES[i..][1..] == SUFFIXES[i + 1..];
      r := ReadTdf(c, files, name + [SUFFIXES[i]]);
      if r != Err(Rejected) {
        return;
      }
      i := i + 1;
    }
    r := Err(Rejected);
  }

  // ---- length-prefixed arrays ----

  /** `count` more arrays after those already read, and nothing after them; None is a rejection. */
  function QByteArrays(data: Bytes, count: nat, values: seq<Bytes>): (r: Option<seq<Bytes>>)
    ensures r.Some? ==> |r.value| == |values| + count
    decreases count
  {
    if count == 0 then (if data == [] then Some(values) else None)
    else if |data| < 4 then None
    else
      var length := FromBig(data[..4]);
      if length == 0xFFFF_FFFF || length > |data| - 4 then None
      else QByteArrays(data[4 + length..], count - 1, values + [data[4..4 + length]])
  }

  method ReadQByteArrays(data: Bytes, count: nat) returns (r: Option<seq<Bytes>>)
    ensures r == QByteArrays(data, count, [])
  {
    var values: seq<Bytes> := [];
    var offset: nat := 0;
    var i := 0;
    assert data[0..] == data;
    while i < count
      invariant 0 <= i <= count && 0 <= offset <= |data|
      invariant QByteArrays(data, count, []) == QByteArrays(data[offset..], count - i, values)
    {
      hide FromBig;
      ghost var rest := data[offset..];
      if |data| - offset < 4 {
        return None;
      }
      var length := FromBig(data[offset..offset + 4]);
      assert rest[..4] == data[offset..offset + 4];
      offset := offset + 4;
      if length == 0xFFFF_FFFF || length > |data| - offset {
        return None;
      }
      assert rest[4..4 + length] == data[offset..offset + length] && rest[4 + length..] == data[offset + length..];
      values := values + [data[offset..offset + length]];
      offset := offset + length;
      i := i + 1;
    }
    if offset != |data| {
      return None;
    }
    return Some(values);
  }

  // ---- the account list ----

  function TakeIndices(data: Bytes, count: nat, indices: seq<int>): (r: Option<(seq<int>, Bytes)>)
    ensures r.Some? ==> |r.value.0| == |indices| + count
    ensures r.Some? && (forall i <- indices :: 0 <= i <= 2) ==> forall i <- r.value.0 :: 0 <= i <= 2
    decreases count
  {
    if count == 0 then Some((indices, data))
    else
      var first := TakeSigned(data, 4);
      if first.None? || first.value.0 < 0 || first.value.0 > 2 then None
      else TakeIndices(first.value.1, count - 1, indices + [first.value.0])
  }

  /** The listed accounts, then optionally the active one, where -1 stands for "none selected". */
  function ActiveAccountIndex(info: Bytes): (r: Option<int>)
    ensures r.Some? ==> 0 <= r.value <= 2
  {
    var count := TakeSigned(info, 4);
    if count.None? || count.value.0 < 1 || count.value.0 > 3 then None
    else
      var listed := TakeIndices(count.value.1, count.value.0, []);
      if listed.None? then None
      else
        var indices := listed.value.0;
        if listed.value.1 == [] then Some(indices[0])
        else
          var active := TakeSigned(listed.value.1, 4);
          if active.None? || active.value.1 != [] then None
          else if active.value.0 in indices then Some(active.value.0)
          else if active.value.0 == -1 then Some(indices[0])
          else None
  }

  /** `_read_i32` and `_read_i64`: the integer at the offset and the offset after it. */
  method ReadSigned(data: Bytes, offset: nat, width: nat) returns (r: Option<(int, nat)>)
    requires offset <= |data|
    ensures r.Some? <==> TakeSigned(data[offset..], width).Some?
    ensures r.Some? ==>
      r.value.1 == offset + width <= |data| && TakeSigned(data[offset..], width) == Some((r.value.0, data[r.value.1..]))
  {
    if |data| - offset < width {
      return None;
    }
    assert data[offset..][..width] == data[offset..offset + width] && data[offset..][width..] == data[offset + width..];
    return Some((FromSigned(data[offset..offset + width]), offset + width));
  }

  method ReadActiveAccountIndex(info: Bytes) returns (r: Option<int>)
    ensures r == ActiveAccountIndex(info)
  {
    assert info[0..] == info;
    var head := ReadSigned(info, 0, 4);
    if head.None? || head.value.0 < 1 || head.value.0 > 3 {
      return None;
    }
    var count: nat, offset: nat := head.value.0, head.value.1;
    var indices: seq<int> := [];
    var i := 0;
    ghost var list := info[offset..];
    while i < count
      invariant 0 <= i <= count && offset <= |info| && |indices| == i
      invariant TakeIndices(list, count, []) == TakeIndices(info[offset..], count - i, indices)
    {
      var next := ReadSigned(info, offset, 4);
      if next.None? || next.value.0 < 0 || next.value.0 > 2 {
        return None;
      }
      indices := indices + [next.value.0];
      offset := next.value.1;
      i := i + 1;
    }
    var active := indices[0];
    if offset < |info| {
      var last := ReadSigned(info, offset, 4);
      if last.None? {
        return None;
      }
      active, offset := last.value.0, last.value.1;
    }
    if offset != |info| || (active !in indices && active != -1) {
      return None;
    }
    return Some(if active in indices then active else indices[0]);
  }

  const HEX := "0123456789ABCDEF"

  function HexSwapped(bytes: Bytes): string {
    if bytes == [] then "" else [HEX[bytes[0] % 16], HEX[bytes[0] / 16]] + HexSwapped(bytes[1..])
  }

  /** The name is "data", or "data#2" and "data#3" for the second and third account. */
  function AccountFileName(c: Crypto, index: int): string
    requires c.Lawful() && 0 <= index <= 2
  {
    var data: Bytes := [100, 97, 116, 97];
    HexSwapped(c.md5(if index == 0 then data else data + [35, 48 + index + 1])[..8])
  }

  // ---- the account authorization ----

  /** `count` keys of 256 bytes, each after its data centre; the last one for `dc` is kept. */
  function TakeKeys(data: Bytes, count: nat, dc: int, main: Option<Bytes>): Option<(Option<Bytes>, Bytes)>
    decreases count
  {
    if count == 0 then Some((main, data))
    else
      var head := TakeSigned(data, 4);
      if head.None? || head.value.0 <= 0 || |head.value.1| < LOCAL_KEY then None
      else TakeKeys(head.value.1[LOCAL_KEY..], count - 1, dc,
          if head.value.0 == dc then Some(head.value.1[..LOCAL_KEY]) else main)
  }

  /** User id, data centre and what follows, in the narrow or the wide layout. */
  function TakeIdentity(payload: Bytes): Option<(int, int, Bytes)> {
    var user := TakeSigned(payload, 4);
    if user.None? then None
    else
      var dc := TakeSigned(user.value.1, 4);
      if dc.None? then None
      else if user.value.0 == -1 && dc.value.0 == -1 then
        var wideUser := TakeSigned(dc.value.1, 8);
        if wideUser.None? then None
        else
          var wideDc := TakeSigned(wideUser.value.1, 4);
          if wideDc.None? then None else Some((wideUser.value.0, wideDc.value.0, wideDc.value.1))
      else Some((user.value.0, dc.value.0, dc.value.1))
  }

  function Authorization(payload: Bytes): Option<(int, int, Bytes)> {
    var identity := TakeIdentity(payload);
    if identity.None? || identity.value.0 <= 0 || identity.value.1 <= 0 then None
    else
      var count := TakeSigned(identity.value.2, 4);
      if count.None? || count.value.0 < 1 || count.value.0 > 20 then None
      else
        var keys := TakeKeys(count.value.1, count.value.0, identity.value.1, None);
        if keys.None? then None
        else
          var destroy := TakeSigned(keys.value.1, 4);
          if destroy.None? || destroy.value.0 < 0 || destroy.value.0 > 20 then None
          else if |destroy.value.1| != destroy.value.0 * (4 + LOCAL_KEY) || keys.value.0.None? then None
          else Some((identity.value.0, identity.value.1, keys.value.0.value))
  }

  /** The header of `_read_authorization`, by offsets. */
  method ReadIdentity(payload: Bytes) returns (r: Option<(int, int, nat)>)
    ensures r.Some? <==> TakeIdentity(payload).Some?
    ensures r.Some? ==>
      r.value.2 <= |payload| && TakeIdentity(payload) == Some((r.value.0, r.value.1, payload[r.value.2..]))
  {
    assert payload[0..] == payload;
    var user := ReadSigned(payload, 0, 4);
    if user.None? {
      return None;
    }
    var dc := ReadSigned(payload, user.value.1, 4);
    if dc.None? {
      return None;
    }
    if user.value.0 == -1 && dc.value.0 == -1 {
      var wideUser := ReadSigned(payload, dc.value.1, 8);
      if wideUser.None? {
        return None;
      }
      var wideDc := ReadSigned(payload, wideUser.value.1, 4);
      if wideDc.None? {
        return None;
      }
      return Some((wideUser.value.0, wideDc.value.0, wideDc.value.1));
    }
    return Some((user.value.0, dc.value.0, dc.value.1));
  }

  /** The loop over the first key list, by offsets. */
  method ReadKeys(payload: Bytes, start: nat, keyCount: nat, dcId: int) returns (r: Option<(Option<Bytes>, nat)>)
    requires start <= |payload|
    ensures r.Some? <==> TakeKeys(payload[start..], keyCount, dcId, None).Some?
    ensures r.Some? ==>
      r.value.1 <= |payload| && TakeKeys(payload[start..], keyCount, dcId, None)
        == Some((r.value.0, payload[r.value.1..]))
  {
    var offset: nat := start;
    var mainKey: Option<Bytes> := None;
    var i := 0;
    while i < keyCount
      invariant 0 <= i <= keyCount && offset <= |payload|
      invariant TakeKeys(payload[start..], keyCount, dcId, None)
        == TakeKeys(payload[offset..], keyCount - i, dcId, mainKey)
    {
      hide TakeSigned;
      var keyDc := ReadSigned(payload, offset, 4);
      if keyDc.None? {
        return None;
      }
      offset := keyDc.value.1;
      if keyDc.value.0 <= 0 || |payload| - offset < LOCAL_KEY {
        return None;
      }
      var key := payload[offset..offset + LOCAL_KEY];
      assert payload[offset..][..LOCAL_KEY] == key && payload[offset..][LOCAL_KEY..] == payload[offset + LOCAL_KEY..];
      offset := offset + LOCAL_KEY;
      if keyDc.value.0 == dcId {
        mainKey := Some(key);
      }
      i := i + 1;
    }
    return Some((mainKey, offset));
  }

  method ReadAuthorization(payload: Bytes) returns (r: Option<(int, int, Bytes)>)
    ensures r == Authorization(payload)
  {
    hide TakeIdentity, TakeSigned, TakeKeys;
    var identity := ReadIdentity(payload);
    if identity.None? || identity.value.0 <= 0 || identity.value.1 <= 0 {
      return None;
    }
    var userId, dcId := identity.value.0, identity.value.1;
    var head := ReadSigned(payload, identity.value.2, 4);
    if head.None? || head.value.0 < 1 || head.value.0 > 20 {
      return None;
    }
    var keys := ReadKeys(payload, head.value.1, head.value.0, dcId);
    if keys.None? {
      return None;
    }
    var destroy := ReadSigned(payload, keys.value.1, 4);
    if destroy.None? || destroy.value.0 < 0 || destroy.value.0 > 20 {
      return None;
    }
    var remaining := destroy.value.0 * (4 + LOCAL_KEY);
    if |payload| - destroy.value.1 != remaining || keys.value.0.None? {
      return None;
    }
    return Some((userId, dcId, keys.value.0.value));
  }

  // ---- the whole reader ----

  datatype ParsedTdata = ParsedTdata(localKey: Bytes, userId: int, dcId: int, authKey: Bytes)

  function OrReject<T>(o: Option<T>): Result<T> {
    if o.None? then Err(Rejected) else Ok(o.value)
  }

  /** One PBKDF2 iteration without a passcode, 100000 with one. */
  function DeriveLocalKey(c: Crypto, salt: Bytes, passcode: Bytes): Bytes {
    c.pbkdf2(c.sha512(salt + passcode + salt), salt, if passcode != [] then 100_000 else 1)
  }

  /** The local key and the active account's index, from the key_datas payload. */
  function ReadKeyData(c: Crypto, payload: Bytes, passcode: Bytes): (r: Result<(Bytes, int)>)
    requires c.Lawful()
    ensures r.Ok? ==> |r.value.0| == LOCAL_KEY && 0 <= r.value.1 <= 2
    ensures r != Err(FileError)
  {
    var parts :- OrReject(QByteArrays(payload, 3, []));
    if parts[0] == [] || parts[1] == [] then Err(Rejected)
    else
      var localKey :- DecryptDescriptor(c, parts[1], DeriveLocalKey(c, parts[0], passcode));
      if |localKey| != LOCAL_KEY then Err(Rejected)
      else
        var info :- DecryptDescriptor(c, parts[2], localKey);
        var index :- OrReject(ActiveAccountIndex(info));
        Ok((localKey, index))
  }

  /** The account's authorization, from the payload of its file. */
  function ReadAccountData(c: Crypto, payload: Bytes, localKey: Bytes): (r: Result<(int, int, Bytes)>)
    requires c.Lawful()
    ensures r != Err(FileError)
  {
    var parts :- OrReject(QByteArrays(payload, 1, []));
    var inner :- DecryptDescriptor(c, parts[0], localKey);
    var blockId :- OrReject(TakeSigned(inner, 4));
    if blockId.0 != 75 then Err(Rejected)
    else
      var serialized :- OrReject(QByteArrays(blockId.1, 1, []));
      OrReject(Authorization(serialized[0]))
  }

  /** Every failure but a wrong passcode (and a length overflow) is one safe rejection. */
  function Safe<T>(r: Result<T>): Result<T> {
    if r == Err(FileError) then Err(Rejected) else r
  }

  function Parsed(c: Crypto, files: Files, passcode: Bytes): Result<ParsedTdata>
    requires c.Lawful()
  {
    var payload :- Safe(ReadTdf(c, files, "key_datas"));
    var key :- ReadKeyData(c, payload, passcode);
    var account :- Safe(ReadTdfWithSuffixes(c, files, AccountFileName(c, key.1), SUFFIXES));
    var auth :- ReadAccountData(c, account, key.0);
    Ok(ParsedTdata(key.0, auth.0, auth.1, auth.2))
  }

  /** `parse_tdata`, on a snapshot that the guards accepted. */
  method ParseTdata(c: Crypto, files: Files, passcode: Bytes) returns (r: Result<ParsedTdata>)
    requires c.Lawful()
    ensures r == Parsed(c, files, passcode)
    ensures r != Err(FileError)
  {
    hide ReadTdf, ReadTdfWithSuffixes, AccountFileName, ReadKeyData, ReadAccountData;
    var payload :- Safe(ReadTdf(c, files, "key_datas"));
    var key :- ReadKeyData(c, payload, passcode);
    var found := ReadTdfFirst(c, files, AccountFileName(c, key.1));
    var account :- Safe(found);
    var auth :- ReadAccountData(c, account, key.0);
    return Ok(ParsedTdata(key.0, auth.0, auth.1, auth.2));
  }
}
