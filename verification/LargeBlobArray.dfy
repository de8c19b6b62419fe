/** The serialized large-blob array and its entries (sections 6.10.2 and 6.10.3 of CTAP 2.2). */
module LargeBlobArray {
  import opened Wrappers
  import opened Bytes
  import opened Cbor
  import opened CborEncode
  import opened ByteCursor
  import opened LargeBlobDevice
  import opened LargeBlobTransfer

  /** One array element kept as its exact bytes, with its decoded form for the ownership test. */
  datatype RawEntry = RawEntry(raw: seq<byte>, value: Option<Value>)

  /** A well-formed entry, as the reader sees it. */
  datatype BlobEntry = BlobEntry(ciphertext: seq<byte>, nonce: seq<byte>, origSize: nat)

  // ---------------------------------------------------------------------------
  // Trailer
  // ---------------------------------------------------------------------------

  function StripArrayTrailer(c: Crypto, s: seq<byte>): (r: Result<seq<byte>, BlobError>)
    ensures r.Success? <==> TrailerHolds(c, s)
    ensures r.Success? ==> s == r.value + Trailer(c, r.value)
  {
    if |s| < HASH_LEN then Failure(Corrupted(TruncatedArray)) else
    var split := |s| - HASH_LEN;
    assert s == s[..split] + s[split..];
    if Trailer(c, s[..split]) != s[split..] then Failure(Corrupted(TrailerMismatch)) else Success(s[..split])
  }

  lemma TrailerAppended(c: Crypto, body: seq<byte>)
    ensures StripArrayTrailer(c, body + Trailer(c, body)) == Success(body)
  {
    var s := body + Trailer(c, body);
    assert s[..|s| - HASH_LEN] == body && s[|s| - HASH_LEN..] == Trailer(c, body);
  }

  // ---------------------------------------------------------------------------
  // Array header
  // ---------------------------------------------------------------------------

  datatype Header = Header(count: nat, used: nat)

  /** A definite-length array header at the front of `s`. */
  function ReadArrayHeader(s: seq<byte>): (r: Result<Header, BlobError>)
    ensures r.Success? ==> 1 <= r.value.used <= |s|
    ensures r.Success? ==> ReadHead(s) == Parsed(Head(4, s[0] % 32, r.value.count), r.value.used) && s[0] % 32 != 31
    ensures r.Failure? ==> ReadHead(s).Malformed? || ReadHead(s).value.major != 4 || ReadHead(s).value.info == 31
  {
    if s == [] then Failure(Corrupted(TruncatedArray))
    else if s[0] / 32 != 4 then Failure(Corrupted(NotAnArray))
    else if s[0] % 32 > 27 then Failure(Corrupted(UnsupportedLength))
    else
      var h := ReadHead(s);
      if h.Malformed? then Failure(Corrupted(TruncatedArray)) else Success(Header(h.value.arg, h.used))
  }

  /** The header the platform writes. It has no 8-byte form: a count of 2^32 or more is truncated. */
  function EncodeArrayHeader(n: nat): (s: seq<byte>)
    ensures 1 <= |s| <= 5
  {
    if n <= 23 then [0x80 + n]
    else if n <= 0xff then [0x98, n]
    else if n <= 0xffff then [0x99] + BigEndian(n, 2)
    else [0x9a] + BigEndian(n, 4)
  }

  /** The header survives being read back exactly when the count is below 2^32. */
  lemma ArrayHeaderRoundTrip(n: nat, rest: seq<byte>)
    ensures var s := EncodeArrayHeader(n);
            ReadArrayHeader(s + rest) == Success(Header(if n <= 0xffff then n else n % U32, |s|))
    ensures ReadArrayHeader(EncodeArrayHeader(n) + rest) == Success(Header(n, |EncodeArrayHeader(n)|)) <==> n < U32
  {
    Limits();
    if n < U32 {
      if n > 0xff {
        HeadRoundTrip(4, n, rest);
      } else {
        assert BigEndian(n, 1) == [n % 256] by { assert BigEndian(n / 256, 0) == []; }
        HeadRoundTrip(4, n, rest);
      }
    } else {
      var s := EncodeArrayHeader(n) + rest;
      assert s[1..5] == BigEndian(n, 4);
      BigEndianRoundTrip(n, 4);
    }
  }

  // ---------------------------------------------------------------------------
  // Raw elements
  // ---------------------------------------------------------------------------

  datatype Elements = Elements(entries: seq<RawEntry>, used: nat)

  function ToOption<T>(r: Parsed<T>): Option<T> {
    if r.Parsed? then Some(r.value) else None
  }

  /** An element kept with its bytes, decoded if it can be. */
  function Raw(bytes: seq<byte>): RawEntry {
    RawEntry(bytes, ToOption(Decode(bytes)))
  }

  /** How many bytes the element at the front of `s` spans. */
  function ElementSpan(s: seq<byte>): (n: Option<nat>)
    ensures n.Some? ==> 1 <= n.value <= |s|
  {
    var item := NextItem(s);
    if item.Malformed? then None else Some(item.used)
  }

  /** `count` elements from the front of `s`, each kept with the bytes it spans. */
  function RawElements(s: seq<byte>, count: nat): (r: Result<Elements, BlobError>)
    ensures r.Success? ==> r.value.used <= |s| && |r.value.entries| == count
    decreases |s|, count
  {
    if count == 0 then Success(Elements([], 0)) else
    match ElementSpan(s)
    case None => Failure(Corrupted(MalformedCbor))
    case Some(n) =>
      var rest := RawElements(s[n..], count - 1);
      if rest.Failure? then rest
      else Success(Elements([Raw(s[..n])] + rest.value.entries, n + rest.value.used))
  }

  function ParseArrayRawEntries(bytes: seq<byte>): Result<seq<RawEntry>, BlobError> {
    if bytes == [] then Success([]) else
    var h := ReadArrayHeader(bytes);
    if h.Failure? then Failure(h.error) else
    var es := RawElements(bytes[h.value.used..], h.value.count);
    if es.Failure? then Failure(es.error)
    else if h.value.used + es.value.used != |bytes| then Failure(Corrupted(TrailingBytes))
    else Success(es.value.entries)
  }

  /** The header at the cursor. */
  method ReadHeader(cursor: Cursor) returns (r: Result<nat, BlobError>)
    requires cursor.Valid()
    modifies cursor
    ensures cursor.Valid()
    ensures var h := ReadArrayHeader(old(cursor.Rest()));
            r == (if h.Failure? then Failure(h.error) else Success(h.value.count))
    ensures r.Success? ==> cursor.pos == old(cursor.pos) + ReadArrayHeader(old(cursor.Rest())).value.used
  {
    ghost var s := cursor.Rest();
    var initial := cursor.ReadByte();
    if initial.None? { return Failure(Corrupted(TruncatedArray)); }
    if initial.value / 32 != 4 { return Failure(Corrupted(NotAnArray)); }
    var info := initial.value % 32;
    if info <= 23 { return Success(info); }
    if info > 27 { return Failure(Corrupted(UnsupportedLength)); }
    var w := if info == 24 then 1 else if info == 25 then 2 else if info == 26 then 4 else 8;
    assert w + 1 <= |s| ==> s[1..][..w] == s[1..1 + w];
    var count := cursor.ReadUint(w);
    if count.None? { return Failure(Corrupted(TruncatedArray)); }
    r := Success(count.value);
  }

  datatype Collected = Broken | Collected(entries: seq<RawEntry>, rest: seq<byte>)

  /** Collecting elements at the cursor, `acc` being those collected before. */
  function Collect(s: seq<byte>, count: nat, acc: seq<RawEntry>): Collected
    decreases count
  {
    if count == 0 then Collected(acc, s) else
    match ElementSpan(s)
    case None => Broken
    case Some(n) => Collect(s[n..], count - 1, acc + [Raw(s[..n])])
  }

  lemma {:induction false} CollectIsRawElements(s: seq<byte>, count: nat, acc: seq<RawEntry>)
    ensures var es := RawElements(s, count);
            && (es.Failure? ==> es.error == Corrupted(MalformedCbor))
            && Collect(s, count, acc)
               == if es.Failure? then Broken else Collected(acc + es.value.entries, s[es.value.used..])
    decreases count
  {
    hide Raw, ElementSpan;
    if count == 0 {
      assert acc + [] == acc && s[0..] == s;
    } else if ElementSpan(s).Some? {
      var n := ElementSpan(s).value;
      var e, t := Raw(s[..n]), s[n..];
      CollectIsRawElements(t, count - 1, acc + [e]);
      var rest := RawElements(t, count - 1);
      if rest.Success? {
        assert acc + [e] + rest.value.entries == acc + ([e] + rest.value.entries);
        assert t[rest.value.used..] == s[n + rest.value.used..];
      }
    }
  }

  /** The next `count` elements at the cursor. */
  method ReadElements(cursor: Cursor, count: nat) returns (r: Result<seq<RawEntry>, BlobError>)
    requires cursor.Valid()
    modifies cursor
    ensures cursor.Valid()
    ensures var c := Collect(old(cursor.Rest()), count, []);
            r == (if c.Broken? then Failure(Corrupted(MalformedCbor)) else Success(c.entries))
    ensures r.Success? ==> cursor.Rest() == Collect(old(cursor.Rest()), count, []).rest
  {
    hide NextItem, Raw;
    var i := 0;
    var entries: seq<RawEntry> := [];
    ghost var goal := Collect(cursor.Rest(), count, []);
    while i < count
      invariant i <= count && cursor.Valid()
      invariant Collect(cursor.Rest(), count - i, entries) == goal
    {
      var start := cursor.pos;
      ghost var rest := cursor.Rest();
      var skipped := cursor.ReadItem();
      if skipped.None? { return Failure(Corrupted(MalformedCbor)); }
      var raw := cursor.bytes[start..cursor.pos];
      assert raw == rest[..cursor.pos - start] && cursor.Rest() == rest[cursor.pos - start..];
      entries := entries + [Raw(raw)];
      i := i + 1;
    }
    r := Success(entries);
  }

  lemma FromCollected(bytes: seq<byte>)
    requires bytes != [] && ReadArrayHeader(bytes).Success?
    ensures var h := ReadArrayHeader(bytes).value;
            var c := Collect(bytes[h.used..], h.count, []);
            ParseArrayRawEntries(bytes) == if c.Broken? then Failure(Corrupted(MalformedCbor))
                                           else if c.rest != [] then Failure(Corrupted(TrailingBytes))
                                           else Success(c.entries)
  {
    var h := ReadArrayHeader(bytes).value;
    var s := bytes[h.used..];
    CollectIsRawElements(s, h.count, []);
    var es := RawElements(s, h.count);
    if es.Success? {
      assert [] + es.value.entries == es.value.entries;
      assert |s[es.value.used..]| == |bytes| - h.used - es.value.used;
    }
  }

  method ParseRaw(bytes: seq<byte>) returns (r: Result<seq<RawEntry>, BlobError>)
    ensures r == ParseArrayRawEntries(bytes)
  {
    hide Collect, ReadArrayHeader;
    if bytes == [] { return Success([]); }
    var cursor := new Cursor(bytes);
    assert cursor.Rest() == bytes;
    var header := ReadHeader(cursor);
    if header.Failure? { return Failure(header.error); }
    FromCollected(bytes);
    r := ReadElements(cursor, header.value);
    if r.Success? && cursor.pos != |bytes| {
      r := Failure(Corrupted(TrailingBytes));
    }
  }

  // ---------------------------------------------------------------------------
  // Entries
  // ---------------------------------------------------------------------------

  /** A decoded map as the platform keeps it: a repeated key takes its last value. */
  function MapOf(flat: seq<Value>): map<Value, Value> {
    if |flat| < 2 then map[] else MapOf(flat[..|flat| - 2])[flat[|flat| - 2] := flat[|flat| - 1]]
  }

  function BytesAt(m: map<Value, Value>, key: int): Option<seq<byte>> {
    if Integer(key) in m && m[Integer(key)].Bytes? then Some(m[Integer(key)].b) else None
  }

  function UnsignedAt(m: map<Value, Value>, key: int): Option<nat> {
    if Integer(key) in m && m[Integer(key)].Integer? && m[Integer(key)].i >= 0 then Some(m[Integer(key)].i) else None
  }

  /** Ciphertext (1), nonce (2) and original size (3) of an element; anything else is not an entry. */
  function ReadEntry(v: Value): Option<BlobEntry> {
    if !v.Map? then None else
    var m := MapOf(v.flat);
    match (BytesAt(m, 1), BytesAt(m, 2), UnsignedAt(m, 3))
    case (Some(ct), Some(n), Some(size)) => Some(BlobEntry(ct, n, size))
    case _ => None
  }

  /** Associated data: "blob" and the original size, little-endian in eight bytes. */
  function AssociatedData(origSize: nat): seq<byte> {
    [0x62, 0x6c, 0x6f, 0x62] + LittleEndian(origSize, 8)
  }

  /** The reader's test of one entry: `None` to go on to the next one, failure if it authenticates but is damaged. */
  function TryDecrypt(c: Crypto, e: BlobEntry, key: BlobKey): Result<Option<seq<byte>>, BlobError> {
    if |e.nonce| != NONCE_LEN || e.origSize > MAX_ORIG_SIZE then Success(None) else
    match c.open(key, e.nonce, AssociatedData(e.origSize), e.ciphertext)
    case None => Success(None)
    case Some(compressed) =>
      match c.inflate(compressed, e.origSize + 1)
      case None => Failure(Corrupted(DecompressionFailed))
      case Some(blob) => if |blob| != e.origSize then Failure(Corrupted(WrongOrigSize)) else Success(Some(blob))
  }

  /** The writer's test: an entry belongs to the key under which it authenticates. */
  predicate Owned(c: Crypto, v: Value, key: BlobKey) {
    match ReadEntry(v)
    case None => false
    case Some(e) => |e.nonce| == NONCE_LEN && c.open(key, e.nonce, AssociatedData(e.origSize), e.ciphertext).Some?
  }

  predicate OwnedEntry(c: Crypto, e: RawEntry, key: BlobKey) {
    e.value.Some? && Owned(c, e.value.value, key)
  }

  /** Reader and writer agree on ownership: the reader stops at an element, with a blob or an error, exactly when the
      writer would drop it, except that it passes over one whose announced size is beyond its cap. */
  lemma OwnershipAgrees(c: Crypto, v: Value, key: BlobKey)
    ensures ReadEntry(v).Some? && TryDecrypt(c, ReadEntry(v).value, key) != Success(None)
       <==> Owned(c, v, key) && ReadEntry(v).value.origSize <= MAX_ORIG_SIZE
  {
  }

  /** The map an entry is stored as, in canonical form. */
  function EntryValue(e: BlobEntry): Value {
    Map([Integer(1), Bytes(e.ciphertext), Integer(2), Bytes(e.nonce), Integer(3), Integer(e.origSize)])
  }

  function SealedEntry(c: Crypto, key: BlobKey, nonce: seq<byte>, blob: seq<byte>): BlobEntry {
    BlobEntry(c.seal(key, nonce, AssociatedData(|blob|), c.deflate(blob)), nonce, |blob|)
  }

  function EncryptEntry(c: Crypto, key: BlobKey, nonce: seq<byte>, blob: seq<byte>): Result<seq<byte>, BlobError> {
    if |nonce| != NONCE_LEN then Failure(Corrupted(BadNonce))
    else Success(Encode(EntryValue(SealedEntry(c, key, nonce, blob))))
  }

  lemma EntryValueReads(e: BlobEntry)
    ensures ReadEntry(EntryValue(e)) == Some(e)
  {
    var flat := EntryValue(e).flat;
    assert flat[..4][..2] == flat[..2];
    assert MapOf(flat[..2]) == MapOf([])[Integer(1) := Bytes(e.ciphertext)];
    assert MapOf(flat[..4]) == MapOf(flat[..2])[Integer(2) := Bytes(e.nonce)];
    assert MapOf(flat) == MapOf(flat[..4])[Integer(3) := Integer(e.origSize)];
  }

  /** A new entry is one item at any nesting the array leaves it, is read back under its key as the blob it holds,
      and is owned by no other key. */
  lemma EncryptThenDecrypt(c: Crypto, key: BlobKey, nonce: seq<byte>, blob: seq<byte>)
    requires Ideal(c) && |nonce| == NONCE_LEN && |blob| <= MAX_ORIG_SIZE
    ensures var e := SealedEntry(c, key, nonce, blob);
      && ShallowItem(Encode(EntryValue(e)), EntryValue(e))
      && TryDecrypt(c, e, key) == Success(Some(blob))
      && forall k: BlobKey :: Owned(c, EntryValue(e), k) <==> k == key
  {
    var e := SealedEntry(c, key, nonce, blob);
    var v := EntryValue(e);
    EntryValueReads(e);
    assert Encodable(v, MAX_DEPTH - 1);
    EncodeThenParse(v, [], MAX_DEPTH - 1);
    assert Encode(v) + [] == Encode(v);
  }

  /** `raw` is exactly the item `v`, also when it is read one level inside an array. */
  predicate ShallowItem(raw: seq<byte>, v: Value) {
    ParseItem(raw, MAX_DEPTH - 1) == Parsed(v, |raw|)
  }

  lemma ShallowDecodes(raw: seq<byte>, v: Value)
    requires ShallowItem(raw, v)
    ensures Decode(raw) == Parsed(v, |raw|) && ParseItem(raw, MAX_DEPTH) == Parsed(v, |raw|)
  {
    ItemDeeper(raw, MAX_DEPTH - 1, MAX_DEPTH);
  }
}
