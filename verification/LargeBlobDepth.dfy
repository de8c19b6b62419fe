/**
 The nesting budget. The reader decodes elements one level inside the array, the writer on their own; what that does to the
 map laws, for every array that the writer accepts.
 */
module LargeBlobDepth {
  import opened Wrappers
  import opened Bytes
  import opened Cbor
  import opened CborEncode
  import opened LargeBlobDevice
  import opened LargeBlobTransfer
  import opened LargeBlobArray
  import opened LargeBlobStore
  import opened LargeBlobMap

  // ---------------------------------------------------------------------------
  // Arrays that the writer accepts and the reader does not
  // ---------------------------------------------------------------------------

  /** One item that also fits where an array element is decoded, one level inside the array. */
  predicate Shallow(raw: seq<byte>) {
    ParseItem(raw, MAX_DEPTH - 1).Parsed? && ParseItem(raw, MAX_DEPTH - 1).used == |raw|
  }

  ghost predicate AllShallow(raws: seq<seq<byte>>) {
    forall raw | raw in raws :: Shallow(raw)
  }

  /** What the raw parser collects are whole items, each with its own decoding. */
  lemma {:induction false} RawFacts(s: seq<byte>, count: nat)
    requires RawElements(s, count).Success?
    ensures var es := RawElements(s, count).value.entries; es == RawAll(RawsOf(es)) && AllItems(RawsOf(es))
    decreases count
  {
    hide ParseItem, Raw;
    if count == 0 {
      assert RawAll([]) == [];
    } else {
      var n := ElementSpan(s).value;
      var raw := s[..n];
      ItemLocal(s, raw, MAX_DEPTH);
      RawKeeps(raw);
      RawFacts(s[n..], count - 1);
      RawsOfMore(raw, RawElements(s[n..], count - 1).value.entries);
    }
  }

  lemma RawsOfMore(raw: seq<byte>, es: seq<RawEntry>)
    requires es == RawAll(RawsOf(es))
    ensures RawsOf([Raw(raw)] + es) == [raw] + RawsOf(es)
    ensures [Raw(raw)] + es == RawAll(RawsOf([Raw(raw)] + es))
  {
    RawKeeps(raw);
    assert ([Raw(raw)] + es)[1..] == es && ([raw] + RawsOf(es))[1..] == RawsOf(es);
  }

  lemma {:induction false} ItemsDecodeIff(s: seq<byte>, count: nat)
    requires RawElements(s, count).Success?
    ensures ParseItems(s, false, count, MAX_DEPTH - 1).Parsed? <==> AllShallow(RawsOf(RawElements(s, count).value.entries))
    decreases count
  {
    hide ParseItem, Raw, Shallow;
    if count > 0 {
      var n := ElementSpan(s).value;
      SpanShallow(s, n);
      RawFacts(s[n..], count - 1);
      RawsOfMore(s[..n], RawElements(s[n..], count - 1).value.entries);
      ItemsDecodeIff(s[n..], count - 1);
    }
  }

  /** The first element is read inside the array, and then to the same end, exactly if it is shallow. */
  lemma SpanShallow(s: seq<byte>, n: nat)
    requires ElementSpan(s) == Some(n)
    ensures ParseItem(s, MAX_DEPTH - 1).Parsed? <==> Shallow(s[..n])
    ensures ParseItem(s, MAX_DEPTH - 1).Parsed? ==> ParseItem(s, MAX_DEPTH - 1).used == n
  {
    hide ParseItem;
    if ParseItem(s, MAX_DEPTH - 1).Parsed? {
      ItemDeeper(s, MAX_DEPTH - 1, MAX_DEPTH);
      ItemLocal(s, s[..n], MAX_DEPTH - 1);
    } else if Shallow(s[..n]) {
      ItemLocal(s[..n], s, MAX_DEPTH - 1);
    }
  }

  /** Of the arrays that the writer accepts, the reader accepts exactly those whose elements are all shallow. */
  lemma DecodesIff(bytes: seq<byte>)
    requires ParseArrayRawEntries(bytes).Success?
    ensures var es := ParseArrayRawEntries(bytes).value;
      && es == RawAll(RawsOf(es)) && AllItems(RawsOf(es))
      && (ArrayValues(bytes).Success? <==> AllShallow(RawsOf(es)))
      && (ArrayValues(bytes).Failure? ==> ArrayValues(bytes) == Failure(Corrupted(MalformedCbor)))
  {
    hide RawElements, ParseItems, ReadArrayHeader, Raw, ReadHead, Shallow, ParseItem;
    if bytes == [] {
      assert RawAll([]) == [];
    } else {
      var h := ReadArrayHeader(bytes).value;
      var s := bytes[h.used..];
      RawFacts(s, h.count);
      ItemsDecodeIff(s, h.count);
      ArrayDecodes(bytes, h.count, h.used);
      if ParseItems(s, false, h.count, MAX_DEPTH - 1).Parsed? {
        SameElements(s, h.count);
      }
    }
  }

  lemma ArrayDecodes(bytes: seq<byte>, count: nat, used: nat)
    requires ReadArrayHeader(bytes) == Success(Header(count, used))
    ensures var items := ParseItems(bytes[used..], false, count, MAX_DEPTH - 1);
            ParseItem(bytes, MAX_DEPTH) == if items.Malformed? then Malformed else Parsed(Array(items.value), used + items.used)
  {
    hide ParseItems, ReadHead, ReadArrayHeader;
    assert ReadHead(bytes) == Parsed(Head(4, bytes[0] % 32, count), used);
  }

  // ---------------------------------------------------------------------------
  // The map laws, for every array that the writer accepts
  // ---------------------------------------------------------------------------

  /** Every element that a rebuild under `key` keeps can be read. */
  ghost predicate KeptReadable(c: Crypto, stored: seq<byte>, key: BlobKey) {
    Existing(c, stored).Success? && AllShallow(Kept(c, Existing(c, stored).value, key))
  }

  lemma ExistingFacts(c: Crypto, stored: seq<byte>)
    requires Existing(c, stored).Success?
    ensures var es := Existing(c, stored).value;
      && es == RawAll(RawsOf(es)) && AllItems(RawsOf(es))
      && (Readable(c, stored) <==> AllShallow(RawsOf(es)))
      && (!Readable(c, stored) ==> forall k :: Lookup(c, stored, k) == Failure(Corrupted(MalformedCbor)))
  {
    hide ParseArrayRawEntries, ArrayValues, StripArrayTrailer, EntriesOf, DecryptFirst, Shallow, AllItems;
    var body := StripArrayTrailer(c, stored);
    if body.Success? {
      DecodesIff(body.value);
    } else {
      assert RawAll([]) == [] && AllItems([]) by { NothingIsItems(); }
    }
  }

  lemma NothingIsItems()
    ensures AllItems([])
  {
  }

  function ValuesOf(raws: seq<seq<byte>>): seq<Value>
    requires AllShallow(raws)
  {
    if raws == [] then [] else
    assert Shallow(raws[0]);
    [ParseItem(raws[0], MAX_DEPTH - 1).value] + ValuesOf(raws[1..])
  }

  lemma {:induction false} ValuesMatch(raws: seq<seq<byte>>)
    requires AllShallow(raws)
    ensures Matches(raws, ValuesOf(raws))
  {
    hide ParseItem;
    if raws != [] {
      assert Shallow(raws[0]);
      ValuesMatch(raws[1..]);
    }
  }

  /** A kept element belongs to others. */
  lemma {:induction false} KeptIsForeign(c: Crypto, raws: seq<seq<byte>>, key: BlobKey)
    requires AllShallow(Kept(c, RawAll(raws), key))
    ensures forall v | v in ValuesOf(Kept(c, RawAll(raws), key)) :: !Owned(c, v, key)
  {
    hide Owned, ParseItem;
    if raws != [] {
      var kept := Kept(c, RawAll(raws), key);
      assert RawAll(raws)[1..] == RawAll(raws[1..]) && RawAll(raws)[0] == Raw(raws[0]);
      var rest := Kept(c, RawAll(raws[1..]), key);
      if OwnedEntry(c, Raw(raws[0]), key) {
        assert kept == rest;
      } else {
        RawKeeps(raws[0]);
        assert kept == [raws[0]] + rest && kept[1..] == rest;
        assert Shallow(kept[0]);
        RawOfShallow(raws[0], ParseItem(raws[0], MAX_DEPTH - 1).value);
      }
      assert AllShallow(rest);
      KeptIsForeign(c, raws[1..], key);
    }
  }

  lemma {:induction false} ForeignPrefix(c: Crypto, vs: seq<Value>, extra: seq<Value>, key: BlobKey)
    requires forall v | v in vs :: !Owned(c, v, key)
    ensures Scan(c, vs + extra, key) == Scan(c, extra, key)
  {
    hide Owned, Verdict;
    if vs == [] {
      assert vs + extra == extra;
    } else {
      ForeignVerdict(c, vs[0], key);
      assert (vs + extra)[1..] == vs[1..] + extra;
      ForeignPrefix(c, vs[1..], extra, key);
    }
  }

  /** Reading a rebuilt array under any key: impossible if something kept is too deep; otherwise the key that was rebuilt
      for finds only what is new. */
  lemma RebuiltReadable(c: Crypto, existing: seq<RawEntry>, key: BlobKey, newEntry: Option<seq<byte>>, extra: seq<Value>, k: BlobKey)
    requires existing == RawAll(RawsOf(existing)) && AllItems(RawsOf(existing)) && Matches(OneOrNone(newEntry), extra)
    requires |Rebuilt(c, existing, key, newEntry)| < U32
    ensures var kept, r := Kept(c, existing, key), ReadBlob(c, Rebuilt(c, existing, key, newEntry), k);
      && (!AllShallow(kept) ==> r == Failure(Corrupted(MalformedCbor)))
      && (AllShallow(kept) ==> r == Scan(c, ValuesOf(kept) + extra, k))
      && (AllShallow(kept) && k == key ==> r == Scan(c, extra, k))
    ensures StripArrayTrailer(c, Rebuilt(c, existing, key, newEntry)).Success?
    ensures Readable(c, Rebuilt(c, existing, key, newEntry)) <==> AllShallow(Kept(c, existing, key))
  {
    hide EncodeArrayHeader, Trailer, StripArrayTrailer, ArrayValues, EntriesOf, DecryptFirst, Scan, Owned, Shallow,
      ParseArrayRawEntries, ShallowItem, IsItem;
    var kept := Kept(c, existing, key);
    var raws := kept + OneOrNone(newEntry);
    KeptAmong(c, existing, key);
    NewIsItem(newEntry, extra);
    assert AllItems(raws);
    FewerThanBytes(raws);
    TrailerAppended(c, ArrayBody(raws));
    BodyParsesBack(raws);
    DecodesIff(ArrayBody(raws));
    RawsBack(raws);
    if AllShallow(kept) {
      ValuesMatch(kept);
      var values := ValuesOf(kept) + extra;
      assert Matches(raws, values);
      BodyReads(raws, values);
      ScanIsDecryptFirst(c, values, k);
      KeptIsForeign(c, RawsOf(existing), key);
      if k == key {
        ForeignPrefix(c, ValuesOf(kept), extra, k);
      }
    } else {
      var raw :| raw in kept && !Shallow(raw);
      assert raw in raws;
    }
  }

  lemma NewIsItem(newEntry: Option<seq<byte>>, extra: seq<Value>)
    requires Matches(OneOrNone(newEntry), extra)
    ensures forall raw | raw in OneOrNone(newEntry) :: IsItem(raw)
  {
    if newEntry.Some? {
      assert ShallowItem(OneOrNone(newEntry)[0], extra[0]);
      ShallowDecodes(newEntry.value, extra[0]);
    }
  }

  lemma {:induction false} RawsBack(raws: seq<seq<byte>>)
    ensures RawsOf(RawAll(raws)) == raws
  {
    hide Raw;
    if raws != [] {
      RawKeeps(raws[0]);
      RawsBack(raws[1..]);
      assert RawAll(raws)[1..] == RawAll(raws[1..]);
    }
  }

  lemma {:induction false} FewerThanBytes(raws: seq<seq<byte>>)
    requires AllItems(raws)
    ensures |raws| <= |Flatten(raws)|
  {
    hide ParseItem;
    if raws != [] {
      assert IsItem(raws[0]);
      FewerThanBytes(raws[1..]);
    }
  }

  /** What a key reads is never malformed CBOR once the array decodes. */
  lemma {:induction false} ScanIsWellFormed(c: Crypto, vs: seq<Value>, k: BlobKey)
    ensures Scan(c, vs, k) != Failure(Corrupted(MalformedCbor))
  {
    hide ReadEntry;
    if vs != [] {
      ScanIsWellFormed(c, vs[1..], k);
    }
  }

  /** An array that can be read keeps only elements that can be read. */
  lemma KeptOfReadable(c: Crypto, stored: seq<byte>, key: BlobKey)
    requires Existing(c, stored).Success?
    ensures Readable(c, stored) ==> KeptReadable(c, stored, key)
  {
    hide Existing, Readable, Shallow, OwnedEntry;
    ExistingFacts(c, stored);
    KeptAmong(c, Existing(c, stored).value, key);
  }

  lemma LookupIsRead(c: Crypto, stored: seq<byte>, k: BlobKey)
    ensures StripArrayTrailer(c, stored).Success? ==> Lookup(c, stored, k) == ReadBlob(c, stored, k)
  {
    hide ReadBlob, StripArrayTrailer;
  }

  /** After a write its key reads the blob exactly if every kept element can be read. Another key reads what it read before
      exactly if the array could be read before, or still cannot. */
  lemma WriteReads(c: Crypto, stored: seq<byte>, key: BlobKey, nonce: seq<byte>, blob: seq<byte>, k: BlobKey)
    requires Ideal(c) && |blob| <= MAX_ORIG_SIZE
    requires Written(c, stored, key, nonce, blob).Success? && |Written(c, stored, key, nonce, blob).value| < U32
    ensures Readable(c, Written(c, stored, key, nonce, blob).value) <==> KeptReadable(c, stored, key)
    ensures StripArrayTrailer(c, Written(c, stored, key, nonce, blob).value).Success?
    ensures Lookup(c, Written(c, stored, key, nonce, blob).value, k) == ReadBlob(c, Written(c, stored, key, nonce, blob).value, k)
    ensures Readable(c, stored) ==> KeptReadable(c, stored, key)
    ensures var r := ReadBlob(c, Written(c, stored, key, nonce, blob).value, k);
      && (!KeptReadable(c, stored, key) ==> r == Failure(Corrupted(MalformedCbor)))
      && (k == key ==> (r == Success(Some(blob)) <==> KeptReadable(c, stored, key)))
      && (k != key ==> (r == Lookup(c, stored, k) <==> Readable(c, stored) || !KeptReadable(c, stored, key)))
  {
    hide ReadBlob, Rebuilt, Existing, Lookup, Owned, Scan, ParseItem, Encode, Readable, TryDecrypt, Ideal, Verdict, AllItems, AllShallow;
    var es := Existing(c, stored).value;
    ExistingFacts(c, stored);
    KeptOfReadable(c, stored, key);
    LookupIsRead(c, Written(c, stored, key, nonce, blob).value, k);
    EncryptThenDecrypt(c, key, nonce, blob);
    var e := SealedEntry(c, key, nonce, blob);
    var v := EntryValue(e);
    RebuiltReadable(c, es, key, Some(Encode(v)), [v], k);
    if k == key {
      ScanOne(c, e, key);
    } else if Readable(c, stored) {
      WriteRefinesMap(c, stored, key, nonce, blob, k);
    } else if KeptReadable(c, stored, key) {
      ScanIsWellFormed(c, ValuesOf(Kept(c, es, key)) + [v], k);
    }
  }

  /** The same for a delete, whose key then reads nothing. */
  lemma DeleteReads(c: Crypto, stored: seq<byte>, key: BlobKey, k: BlobKey)
    requires Ideal(c)
    requires Erased(c, stored, key).Success? && |Erased(c, stored, key).value| < U32
    ensures Readable(c, Erased(c, stored, key).value) <==> KeptReadable(c, stored, key)
    ensures StripArrayTrailer(c, Erased(c, stored, key).value).Success?
    ensures Lookup(c, Erased(c, stored, key).value, k) == ReadBlob(c, Erased(c, stored, key).value, k)
    ensures Readable(c, stored) ==> KeptReadable(c, stored, key)
    ensures var r := ReadBlob(c, Erased(c, stored, key).value, k);
      && (!KeptReadable(c, stored, key) ==> r == Failure(Corrupted(MalformedCbor)))
      && (k == key ==> (r == Success(None) <==> KeptReadable(c, stored, key)))
      && (k != key ==> (r == Lookup(c, stored, k) <==> Readable(c, stored) || !KeptReadable(c, stored, key)))
  {
    hide ReadBlob, Rebuilt, Existing, Lookup, OwnedEntry, Scan, ParseItem, Readable, Ideal, AllItems, AllShallow;
    var es := Existing(c, stored).value;
    ExistingFacts(c, stored);
    KeptOfReadable(c, stored, key);
    LookupIsRead(c, Erased(c, stored, key).value, k);
    RebuiltReadable(c, es, key, None, [], k);
    if k == key {
      ScanNothing(c, key);
    } else if Readable(c, stored) {
      DeleteRefinesMap(c, stored, key, k);
    } else if KeptReadable(c, stored, key) {
      ScanIsWellFormed(c, ValuesOf(Kept(c, es, key)) + [], k);
    }
  }

  // ---------------------------------------------------------------------------
  // Such an array
  // ---------------------------------------------------------------------------

  /** Zero inside `k` arrays of one element each. */
  function Nest(k: nat): (s: seq<byte>)
    ensures |s| == k + 1
  {
    if k == 0 then [0] else [0x81] + Nest(k - 1)
  }

  lemma {:induction false} NestParses(k: nat, depth: nat)
    ensures var r := ParseItem(Nest(k), depth);
      && (r.Parsed? <==> k == 0 || k < depth)
      && (r.Parsed? ==> r.used == k + 1 && !r.value.Map?)
    decreases k
  {
    var s := Nest(k);
    if k == 0 {
      assert ReadHead(s) == Parsed(Head(0, 0, 0), 1);
    } else {
      assert ReadHead(s) == Parsed(Head(4, 1, 1), 1);
      assert s[1..] == Nest(k - 1);
      if depth > 1 {
        NestParses(k - 1, depth - 1);
        OneItem(Nest(k - 1), depth - 1);
      }
    }
  }

  lemma OneItem(s: seq<byte>, depth: nat)
    ensures var item, items := ParseItem(s, depth), ParseItems(s, false, 1, depth);
            items == if item.Malformed? then Malformed else Parsed([item.value], item.used)
  {
    hide ParseItem;
    var item := ParseItem(s, depth);
    if item.Parsed? {
      assert ParseItems(s[item.used..], false, 0, depth) == Parsed([], 0);
      assert [item.value] + [] == [item.value];
    }
  }

  lemma DeepParses(body: seq<byte>, deep: seq<byte>)
    requires body == [0x81] + deep && IsItem(deep)
    ensures ParseArrayRawEntries(body) == Success([Raw(deep)])
  {
    hide ParseItem, Raw;
    assert ReadHead(body) == Parsed(Head(4, 1, 1), 1);
    var s := body[1..];
    assert s == deep && s[..|deep|] == deep && s[|deep|..] == [];
    assert RawElements([], 0) == Success(Elements([], 0));
    assert RawElements(s, 1) == Success(Elements([Raw(deep)] + [], |deep|));
    assert [Raw(deep)] + [] == [Raw(deep)];
    assert ReadArrayHeader(body) == Success(Header(1, 1));
  }

  lemma KeptOne(c: Crypto, raw: seq<byte>, key: BlobKey)
    requires Decode(raw).Parsed? && !Decode(raw).value.Map?
    ensures Kept(c, [Raw(raw)], key) == [raw]
  {
    hide Decode;
    assert Kept(c, [Raw(raw)][1..], key) == [];
  }

  /** An array whose one element takes the decoder's whole nesting budget: the writer accepts it, no key owns the element,
      so that every write keeps it, and afterwards no key reads anything. */
  lemma TooDeep(c: Crypto, key: BlobKey, nonce: seq<byte>, blob: seq<byte>, k: BlobKey)
    requires Ideal(c) && |blob| <= MAX_ORIG_SIZE && |nonce| == NONCE_LEN
    ensures var stored := Nest(MAX_DEPTH) + Trailer(c, Nest(MAX_DEPTH));
      && Existing(c, stored) == Success([Raw(Nest(MAX_DEPTH - 1))]) && !Readable(c, stored)
      && Kept(c, Existing(c, stored).value, key) == [Nest(MAX_DEPTH - 1)]
      && Written(c, stored, key, nonce, blob).Success?
      && (|Written(c, stored, key, nonce, blob).value| < U32 ==>
            ReadBlob(c, Written(c, stored, key, nonce, blob).value, k) == Failure(Corrupted(MalformedCbor)))
  {
    hide Trailer, ReadBlob, Rebuilt, ParseItem, Lookup, Encode, Ideal, ReadArrayHeader, StripArrayTrailer;
    var body, deep := Nest(MAX_DEPTH), Nest(MAX_DEPTH - 1);
    var stored := body + Trailer(c, body);
    TrailerAppended(c, body);
    NestParses(MAX_DEPTH - 1, MAX_DEPTH);
    NestParses(MAX_DEPTH - 1, MAX_DEPTH - 1);
    DeepParses(body, deep);
    assert Kept(c, [Raw(deep)], key) == [deep] by { KeptOne(c, deep, key); }
    ExistingFacts(c, stored);
    assert deep in RawsOf(Existing(c, stored).value);
    if |Written(c, stored, key, nonce, blob).value| < U32 {
      assert !Shallow(deep) && deep in Kept(c, Existing(c, stored).value, key);
      WriteReads(c, stored, key, nonce, blob, k);
    }
  }
}
