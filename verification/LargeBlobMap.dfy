/**
 The serialized array as a map from key to blob: what a write or a delete does to what each key reads.
 */
module LargeBlobMap {
  import opened Wrappers
  import opened Bytes
  import opened Cbor
  import opened CborEncode
  import opened LargeBlobDevice
  import opened LargeBlobTransfer
  import opened LargeBlobArray
  import opened LargeBlobStore

  // ---------------------------------------------------------------------------
  // The writer's parser inverts the writer's printer
  // ---------------------------------------------------------------------------

  ghost predicate AllItems(raws: seq<seq<byte>>) {
    forall raw | raw in raws :: IsItem(raw)
  }

  function RawsOf(es: seq<RawEntry>): seq<seq<byte>> {
    if es == [] then [] else [es[0].raw] + RawsOf(es[1..])
  }

  function RawAll(raws: seq<seq<byte>>): (es: seq<RawEntry>)
    ensures |es| == |raws|
  {
    if raws == [] then [] else [Raw(raws[0])] + RawAll(raws[1..])
  }

  lemma {:induction false} FlattenParses(raws: seq<seq<byte>>, rest: seq<byte>)
    requires AllItems(raws)
    ensures RawElements(Flatten(raws) + rest, |raws|) == Success(Elements(RawAll(raws), |Flatten(raws)|))
  {
    hide ParseItem, ElementSpan, Raw, Decode;
    if raws != [] {
      var raw, tail := raws[0], Flatten(raws[1..]) + rest;
      assert Flatten(raws) + rest == raw + tail;
      assert IsItem(raw);
      SpanOfFirst(raw, tail);
      FlattenParses(raws[1..], rest);
    }
  }

  lemma SpanOfFirst(raw: seq<byte>, tail: seq<byte>)
    requires IsItem(raw)
    ensures ElementSpan(raw + tail) == Some(|raw|) && (raw + tail)[..|raw|] == raw && (raw + tail)[|raw|..] == tail
  {
    hide ParseItem;
    ItemLocal(raw, raw + tail, MAX_DEPTH);
  }

  /** What the writer prints, its parser reads back, byte for byte and in order: exactly when there are fewer than 2^32
      elements. */
  lemma BodyParses(raws: seq<seq<byte>>)
    requires AllItems(raws)
    ensures ParseArrayRawEntries(ArrayBody(raws)) == Success(RawAll(raws)) <==> |raws| < U32
  {
    hide ParseArrayRawEntries, ArrayBody, AllItems;
    if |raws| < U32 {
      BodyParsesBack(raws);
    } else {
      CountTruncated(raws);
    }
  }

  lemma BodyParsesBack(raws: seq<seq<byte>>)
    requires AllItems(raws) && |raws| < U32
    ensures ParseArrayRawEntries(ArrayBody(raws)) == Success(RawAll(raws))
  {
    hide RawElements, EncodeArrayHeader, ReadArrayHeader, AllItems;
    var header, body := EncodeArrayHeader(|raws|), ArrayBody(raws);
    ArrayHeaderRoundTrip(|raws|, Flatten(raws));
    FlattenParses(raws, []);
    assert body[|header|..] == Flatten(raws) == Flatten(raws) + [];
  }

  lemma CountTruncated(raws: seq<seq<byte>>)
    requires |raws| >= U32
    ensures ParseArrayRawEntries(ArrayBody(raws)) != Success(RawAll(raws))
  {
    hide RawElements, EncodeArrayHeader, ReadArrayHeader, ParseArrayRawEntries;
    ArrayHeaderRoundTrip(|raws|, Flatten(raws));
    CountKept(ArrayBody(raws));
  }

  lemma CountKept(body: seq<byte>)
    ensures body != [] && ParseArrayRawEntries(body).Success? ==>
              ReadArrayHeader(body).Success? && |ParseArrayRawEntries(body).value| == ReadArrayHeader(body).value.count
  {
    hide RawElements, ReadArrayHeader;
  }

  /** A rebuilt array carries a valid trailer, and its elements are the kept ones followed by the new one. */
  lemma RebuildRoundTrip(c: Crypto, existing: seq<RawEntry>, key: BlobKey, newEntry: Option<seq<byte>>)
    requires AllItems(RawsOf(existing)) && (newEntry.Some? ==> IsItem(newEntry.value))
    ensures var raws := Kept(c, existing, key) + OneOrNone(newEntry);
            var body := StripArrayTrailer(c, Rebuilt(c, existing, key, newEntry));
      && body == Success(ArrayBody(raws))
      && (ParseArrayRawEntries(body.value) == Success(RawAll(raws)) <==> |raws| < U32)
  {
    hide ParseArrayRawEntries, ArrayBody, IsItem;
    var raws := Kept(c, existing, key) + OneOrNone(newEntry);
    TrailerAppended(c, ArrayBody(raws));
    KeptAmong(c, existing, key);
    BodyParses(raws);
  }

  lemma {:induction false} KeptAmong(c: Crypto, existing: seq<RawEntry>, key: BlobKey)
    ensures forall raw :: raw in Kept(c, existing, key) ==> raw in RawsOf(existing)
  {
    hide OwnedEntry;
    if existing != [] {
      KeptAmong(c, existing[1..], key);
    }
  }

  /** Elements are judged one by one, and what is kept stays in order. */
  lemma {:induction false} KeptInOrder(c: Crypto, a: seq<RawEntry>, b: seq<RawEntry>, key: BlobKey)
    ensures Kept(c, a + b, key) == Kept(c, a, key) + Kept(c, b, key)
  {
    hide OwnedEntry;
    if a == [] {
      assert a + b == b;
    } else {
      assert (a + b)[1..] == a[1..] + b;
      KeptInOrder(c, a[1..], b, key);
    }
  }

  /** An element is dropped exactly when the key owns it. */
  lemma {:induction false} KeptExactly(c: Crypto, existing: seq<RawEntry>, key: BlobKey, raw: seq<byte>)
    ensures raw in Kept(c, existing, key) <==> exists e :: e in existing && e.raw == raw && !OwnedEntry(c, e, key)
  {
    hide OwnedEntry;
    if existing != [] {
      KeptExactly(c, existing[1..], key, raw);
      assert forall e :: e in existing <==> e == existing[0] || e in existing[1..];
    }
  }

  // ---------------------------------------------------------------------------
  // Reader and writer see the same elements
  // ---------------------------------------------------------------------------

  /** The raw elements `es` are the decoded elements `vs`, also one level inside an array. */
  ghost predicate Matches(raws: seq<seq<byte>>, vs: seq<Value>) {
    |raws| == |vs| && forall i :: 0 <= i < |raws| ==> ShallowItem(raws[i], vs[i])
  }

  lemma {:induction false} SameElements(s: seq<byte>, count: nat)
    requires RawElements(s, count).Success? && ParseItems(s, false, count, MAX_DEPTH - 1).Parsed?
    ensures var es, vs := RawElements(s, count).value, ParseItems(s, false, count, MAX_DEPTH - 1);
      && es.used == vs.used
      && Matches(RawsOf(es.entries), vs.value)
      && es.entries == RawAll(RawsOf(es.entries))
    decreases count
  {
    hide ParseItem, Decode, Raw, ShallowItem;
    if count > 0 {
      var first := ParseItem(s, MAX_DEPTH - 1);
      var n := first.used;
      var raw := s[..n];
      ItemDeeper(s, MAX_DEPTH - 1, MAX_DEPTH);
      ItemLocal(s, raw, MAX_DEPTH - 1);
      IsShallow(raw, first.value);
      assert ElementSpan(s) == Some(n);
      SameElements(s[n..], count - 1);
      RawKeeps(raw);
      var es := RawElements(s[n..], count - 1).value.entries;
      assert ([Raw(raw)] + es)[1..] == es;
      assert RawsOf([Raw(raw)] + es) == [raw] + RawsOf(es);
      assert ([raw] + RawsOf(es))[1..] == RawsOf(es);
    }
  }

  lemma IsShallow(raw: seq<byte>, v: Value)
    requires ParseItem(raw, MAX_DEPTH - 1) == Parsed(v, |raw|)
    ensures ShallowItem(raw, v)
  {
  }

  lemma RawKeeps(bytes: seq<byte>)
    ensures Raw(bytes).raw == bytes
  {
  }

  lemma ReaderMatchesWriter(bytes: seq<byte>)
    requires ParseArrayRawEntries(bytes).Success? && ArrayValues(bytes).Success?
    ensures var es := ParseArrayRawEntries(bytes).value;
            Matches(RawsOf(es), ArrayValues(bytes).value) && es == RawAll(RawsOf(es))
  {
    hide ParseItems, RawElements, Decode, ReadArrayHeader;
    if bytes == [] {
      assert RawAll([]) == [];
    } else {
      hide Matches;
      var h := ReadArrayHeader(bytes).value;
      ItemsOfArray(bytes, h.count, h.used);
      SameElements(bytes[h.used..], h.count);
    }
  }

  lemma ItemsOfArray(bytes: seq<byte>, count: nat, used: nat)
    requires ReadArrayHeader(bytes) == Success(Header(count, used))
    requires Decode(bytes).Parsed? && Decode(bytes).value.Array?
    ensures ParseItems(bytes[used..], false, count, MAX_DEPTH - 1).Parsed?
    ensures ParseItems(bytes[used..], false, count, MAX_DEPTH - 1).value == Decode(bytes).value.items
  {
    hide ParseItems, ReadHead, ReadArrayHeader;
    assert ReadHead(bytes) == Parsed(Head(4, bytes[0] % 32, count), used);
    assert ParseItem(bytes, MAX_DEPTH) == Decode(bytes);
  }

  lemma {:induction false} FlattenReads(raws: seq<seq<byte>>, vs: seq<Value>, rest: seq<byte>)
    requires Matches(raws, vs)
    ensures ParseItems(Flatten(raws) + rest, false, |raws|, MAX_DEPTH - 1) == Parsed(vs, |Flatten(raws)|)
    decreases |raws|
  {
    hide ParseItem;
    if raws != [] {
      var raw, tail := raws[0], Flatten(raws[1..]) + rest;
      var s := raw + tail;
      assert Flatten(raws) + rest == s;
      assert ShallowItem(raw, vs[0]);
      ItemLocal(raw, s, MAX_DEPTH - 1);
      assert s[|raw|..] == tail && [vs[0]] + vs[1..] == vs;
      FlattenReads(raws[1..], vs[1..], rest);
    }
  }

  lemma BodyReads(raws: seq<seq<byte>>, vs: seq<Value>)
    requires Matches(raws, vs) && |raws| < U32
    ensures ArrayValues(ArrayBody(raws)) == Success(vs)
  {
    hide ParseItems, ReadHead, EncodeArrayHeader, Matches;
    var header, body := EncodeArrayHeader(|raws|), ArrayBody(raws);
    ArrayHeaderRoundTrip(|raws|, Flatten(raws));
    FlattenReads(raws, vs, []);
    assert body[|header|..] == Flatten(raws) && Flatten(raws) == Flatten(raws) + [];
    assert ParseItem(body, MAX_DEPTH) == Parsed(Array(vs), |body|);
  }

  // ---------------------------------------------------------------------------
  // What each key reads
  // ---------------------------------------------------------------------------

  /** The reader's verdict on one decoded element. */
  function Verdict(c: Crypto, v: Value, key: BlobKey): Result<Option<seq<byte>>, BlobError> {
    match ReadEntry(v)
    case None => Success(None)
    case Some(e) => TryDecrypt(c, e, key)
  }

  function Scan(c: Crypto, vs: seq<Value>, key: BlobKey): Result<Option<seq<byte>>, BlobError> {
    if vs == [] then Success(None) else
    var first := Verdict(c, vs[0], key);
    if first != Success(None) then first else Scan(c, vs[1..], key)
  }

  lemma {:induction false} ScanIsDecryptFirst(c: Crypto, vs: seq<Value>, key: BlobKey)
    ensures DecryptFirst(c, EntriesOf(vs), key) == Scan(c, vs, key)
  {
    hide ReadEntry, TryDecrypt;
    if vs != [] {
      ScanIsDecryptFirst(c, vs[1..], key);
      var rest := EntriesOf(vs[1..]);
      assert EntriesOf(vs) == EntryOf(vs[0]) + rest && [] + rest == rest;
      if ReadEntry(vs[0]).Some? {
        assert ([ReadEntry(vs[0]).value] + rest)[1..] == rest;
      }
    }
  }

  /** A foreign element does not stop the reader. */
  lemma ForeignVerdict(c: Crypto, v: Value, key: BlobKey)
    ensures !Owned(c, v, key) ==> Verdict(c, v, key) == Success(None)
  {
    OwnershipAgrees(c, v, key);
  }

  lemma OneOwner(c: Crypto, v: Value, key: BlobKey, other: BlobKey)
    requires Ideal(c) && Owned(c, v, key) && key != other
    ensures !Owned(c, v, other)
  {
    hide ReadEntry;
  }

  function KeptValues(c: Crypto, vs: seq<Value>, key: BlobKey): seq<Value> {
    if vs == [] then []
    else if Owned(c, vs[0], key) then KeptValues(c, vs[1..], key)
    else [vs[0]] + KeptValues(c, vs[1..], key)
  }

  /** Dropping what `key` owns changes nothing for another key, whatever is appended. */
  lemma {:induction false} OthersUnaffected(c: Crypto, vs: seq<Value>, extra: seq<Value>, key: BlobKey, other: BlobKey)
    requires Ideal(c) && key != other
    requires forall v | v in extra :: Owned(c, v, key)
    ensures Scan(c, KeptValues(c, vs, key) + extra, other) == Scan(c, vs, other)
  {
    hide Owned, Verdict, Ideal;
    if vs == [] {
      NothingForOthers(c, extra, key, other);
      assert KeptValues(c, vs, key) + extra == extra;
    } else {
      OthersUnaffected(c, vs[1..], extra, key, other);
      var rest := KeptValues(c, vs[1..], key) + extra;
      if Owned(c, vs[0], key) {
        OneOwner(c, vs[0], key, other);
        ForeignVerdict(c, vs[0], other);
        assert KeptValues(c, vs, key) + extra == rest;
      } else {
        assert KeptValues(c, vs, key) + extra == [vs[0]] + rest;
        assert ([vs[0]] + rest)[1..] == rest;
      }
    }
  }

  lemma {:induction false} NothingForOthers(c: Crypto, extra: seq<Value>, key: BlobKey, other: BlobKey)
    requires Ideal(c) && key != other
    requires forall v | v in extra :: Owned(c, v, key)
    ensures Scan(c, extra, other) == Success(None)
  {
    hide Owned, Verdict, Ideal;
    if extra != [] {
      OneOwner(c, extra[0], key, other);
      ForeignVerdict(c, extra[0], other);
      NothingForOthers(c, extra[1..], key, other);
    }
  }

  /** The key itself finds only what was appended. */
  lemma {:induction false} OnlyTheAppended(c: Crypto, vs: seq<Value>, extra: seq<Value>, key: BlobKey)
    ensures Scan(c, KeptValues(c, vs, key) + extra, key) == Scan(c, extra, key)
  {
    hide Owned, Verdict;
    if vs == [] {
      assert KeptValues(c, vs, key) + extra == extra;
    } else {
      OnlyTheAppended(c, vs[1..], extra, key);
      if !Owned(c, vs[0], key) {
        ForeignVerdict(c, vs[0], key);
        var rest := KeptValues(c, vs[1..], key) + extra;
        assert KeptValues(c, vs, key) + extra == [vs[0]] + rest;
        assert ([vs[0]] + rest)[1..] == rest;
      }
    }
  }

  /** Dropping from the raw elements and dropping from the decoded ones is the same thing. */
  lemma {:induction false} KeptMatches(c: Crypto, raws: seq<seq<byte>>, vs: seq<Value>, key: BlobKey)
    requires Matches(raws, vs)
    ensures Matches(Kept(c, RawAll(raws), key), KeptValues(c, vs, key))
    ensures |Kept(c, RawAll(raws), key)| <= |raws|
    decreases |raws|
  {
    hide Owned, ShallowItem;
    if raws != [] {
      assert ShallowItem(raws[0], vs[0]);
      RawOfShallow(raws[0], vs[0]);
      assert Matches(raws[1..], vs[1..]);
      KeptMatches(c, raws[1..], vs[1..], key);
      assert RawAll(raws)[1..] == RawAll(raws[1..]);
    }
  }

  lemma RawOfShallow(raw: seq<byte>, v: Value)
    requires ShallowItem(raw, v)
    ensures Raw(raw) == RawEntry(raw, Some(v)) && IsItem(raw)
  {
    ShallowDecodes(raw, v);
  }

  // ---------------------------------------------------------------------------
  // Write and delete as map operations
  // ---------------------------------------------------------------------------

  /** What a read-modify-write starts from: an array with a bad trailer counts as empty. */
  function Existing(c: Crypto, stored: seq<byte>): Result<seq<RawEntry>, BlobError> {
    match StripArrayTrailer(c, stored)
    case Failure(_) => Success([])
    case Success(body) => ParseArrayRawEntries(body)
  }

  /** The array a write of `blob` uploads, over a device that stores `stored`. */
  function Written(c: Crypto, stored: seq<byte>, key: BlobKey, nonce: seq<byte>, blob: seq<byte>): Result<seq<byte>, BlobError> {
    var existing := Existing(c, stored);
    if existing.Failure? then Failure(existing.error) else
    var entry := EncryptEntry(c, key, nonce, blob);
    if entry.Failure? then Failure(entry.error) else Success(Rebuilt(c, existing.value, key, Some(entry.value)))
  }

  /** The array a delete uploads. */
  function Erased(c: Crypto, stored: seq<byte>, key: BlobKey): Result<seq<byte>, BlobError> {
    var existing := Existing(c, stored);
    if existing.Failure? then Failure(existing.error)
    else if !(exists e :: e in existing.value && OwnedEntry(c, e, key)) then Failure(NoMatch)
    else Success(Rebuilt(c, existing.value, key, None))
  }

  /** The stored array decodes, or its trailer is wrong and it counts as the initial empty array. */
  predicate Readable(c: Crypto, stored: seq<byte>) {
    StripArrayTrailer(c, stored).Success? ==> ArrayValues(StripArrayTrailer(c, stored).value).Success?
  }

  /** What `key` reads, an array with a bad trailer counting as empty. */
  function Lookup(c: Crypto, stored: seq<byte>, key: BlobKey): Result<Option<seq<byte>>, BlobError> {
    if StripArrayTrailer(c, stored).Success? then ReadBlob(c, stored, key) else Success(None)
  }

  /** The decoded elements of a readable array that the writer also accepts. */
  lemma ExistingValues(c: Crypto, stored: seq<byte>) returns (vs: seq<Value>)
    requires Readable(c, stored) && Existing(c, stored).Success?
    ensures var es := Existing(c, stored).value;
            Matches(RawsOf(es), vs) && es == RawAll(RawsOf(es))
    ensures forall k :: Lookup(c, stored, k) == Scan(c, vs, k)
  {
    var body := StripArrayTrailer(c, stored);
    if body.Failure? {
      vs := [];
      assert RawAll([]) == [];
    } else {
      hide ParseArrayRawEntries, ArrayValues, Matches, EntriesOf, DecryptFirst, Scan, StripArrayTrailer;
      ReaderMatchesWriter(body.value);
      vs := ArrayValues(body.value).value;
      forall k ensures Lookup(c, stored, k) == Scan(c, vs, k) {
        ScanIsDecryptFirst(c, vs, k);
      }
    }
  }

  /** Reading a rebuilt array. */
  lemma RebuiltReads(c: Crypto, existing: seq<RawEntry>, vs: seq<Value>, key: BlobKey,
                     newEntry: Option<seq<byte>>, extra: seq<Value>, k: BlobKey)
    requires Matches(RawsOf(existing), vs) && existing == RawAll(RawsOf(existing))
    requires Matches(OneOrNone(newEntry), extra)
    requires |Rebuilt(c, existing, key, newEntry)| < U32
    ensures ReadBlob(c, Rebuilt(c, existing, key, newEntry), k) == Scan(c, KeptValues(c, vs, key) + extra, k)
  {
    hide ShallowItem, EncodeArrayHeader, Trailer, StripArrayTrailer, ArrayValues, EntriesOf, DecryptFirst, Scan, Owned;
    KeptMatches(c, RawsOf(existing), vs, key);
    var raws, values := Kept(c, existing, key) + OneOrNone(newEntry), KeptValues(c, vs, key) + extra;
    assert Matches(raws, values);
    AtLeastOneByteEach(raws, values);
    BodyReads(raws, values);
    TrailerAppended(c, ArrayBody(raws));
    ScanIsDecryptFirst(c, values, k);
  }

  lemma {:induction false} AtLeastOneByteEach(raws: seq<seq<byte>>, vs: seq<Value>)
    requires Matches(raws, vs)
    ensures |raws| <= |Flatten(raws)|
    decreases |raws|
  {
    if raws != [] {
      hide ParseItem;
      assert ShallowItem(raws[0], vs[0]);
      AtLeastOneByteEach(raws[1..], vs[1..]);
    }
  }

  /** A write makes its key read the blob, and leaves what every other key reads as it was. */
  lemma WriteRefinesMap(c: Crypto, stored: seq<byte>, key: BlobKey, nonce: seq<byte>, blob: seq<byte>, k: BlobKey)
    requires Ideal(c) && Readable(c, stored) && |blob| <= MAX_ORIG_SIZE
    requires Written(c, stored, key, nonce, blob).Success? && |Written(c, stored, key, nonce, blob).value| < U32
    ensures ReadBlob(c, Written(c, stored, key, nonce, blob).value, k)
         == if k == key then Success(Some(blob)) else Lookup(c, stored, k)
  {
    hide ReadBlob, Rebuilt, Existing, Lookup, Owned, Scan, KeptValues, ParseItem, Encode, Readable, TryDecrypt, Ideal, Verdict;
    var vs := ExistingValues(c, stored);
    var e := SealedEntry(c, key, nonce, blob);
    var v := EntryValue(e);
    EncryptThenDecrypt(c, key, nonce, blob);
    RebuiltReads(c, Existing(c, stored).value, vs, key, Some(Encode(v)), [v], k);
    if k == key {
      OnlyTheAppended(c, vs, [v], key);
      ScanOne(c, e, key);
    } else {
      OthersUnaffected(c, vs, [v], key, k);
    }
  }

  lemma ScanOne(c: Crypto, e: BlobEntry, key: BlobKey)
    ensures Scan(c, [EntryValue(e)], key) == TryDecrypt(c, e, key)
  {
    hide TryDecrypt;
    EntryValueReads(e);
    assert Scan(c, [EntryValue(e)][1..], key) == Success(None);
  }

  /** A delete makes its key read nothing, however many entries it owned, and changes nothing for any other key. */
  lemma DeleteRefinesMap(c: Crypto, stored: seq<byte>, key: BlobKey, k: BlobKey)
    requires Ideal(c) && Readable(c, stored)
    requires Erased(c, stored, key).Success? && |Erased(c, stored, key).value| < U32
    ensures ReadBlob(c, Erased(c, stored, key).value, k) == if k == key then Success(None) else Lookup(c, stored, k)
  {
    hide ReadBlob, Rebuilt, Existing, Lookup, Owned, Scan, KeptValues, Readable, OwnedEntry, Ideal;
    var vs := ExistingValues(c, stored);
    RebuiltReads(c, Existing(c, stored).value, vs, key, None, [], k);
    if k == key {
      OnlyTheAppended(c, vs, [], key);
      ScanNothing(c, key);
    } else {
      OthersUnaffected(c, vs, [], key, k);
    }
  }

  lemma ScanNothing(c: Crypto, key: BlobKey)
    ensures Scan(c, [], key) == Success(None)
  {
  }

  /** Whatever a key can read it can also delete: the delete does not answer that there is no entry. */
  lemma ReadableIsDeletable(c: Crypto, stored: seq<byte>, key: BlobKey)
    requires Readable(c, stored) && Existing(c, stored).Success? && Lookup(c, stored, key) != Success(None)
    ensures Erased(c, stored, key).Success?
  {
    hide Existing, Lookup, Owned, Scan, Readable, Rebuilt;
    var vs := ExistingValues(c, stored);
    var i := Stopper(c, vs, key);
    var es := Existing(c, stored).value;
    MatchedOwner(c, RawsOf(es), vs, key, i);
  }

  lemma {:induction false} Stopper(c: Crypto, vs: seq<Value>, key: BlobKey) returns (i: nat)
    requires Scan(c, vs, key) != Success(None)
    ensures i < |vs| && Owned(c, vs[i], key)
  {
    hide Owned, Verdict;
    ForeignVerdict(c, vs[0], key);
    if Owned(c, vs[0], key) {
      i := 0;
    } else {
      i := Stopper(c, vs[1..], key);
      i := i + 1;
    }
  }

  lemma {:induction false} MatchedOwner(c: Crypto, raws: seq<seq<byte>>, vs: seq<Value>, key: BlobKey, i: nat)
    requires Matches(raws, vs) && i < |vs| && Owned(c, vs[i], key)
    ensures exists e :: e in RawAll(raws) && OwnedEntry(c, e, key)
    decreases i
  {
    hide Owned, ShallowItem;
    if i == 0 {
      RawOfShallow(raws[0], vs[0]);
      assert RawAll(raws)[0] == Raw(raws[0]);
      assert OwnedEntry(c, RawAll(raws)[0], key);
    } else {
      MatchedOwner(c, raws[1..], vs[1..], key, i - 1);
      assert RawAll(raws)[1..] == RawAll(raws[1..]);
    }
  }
}
