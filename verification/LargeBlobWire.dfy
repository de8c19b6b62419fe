/**
 The bytes on the wire, spelled out: what the platform writes, and what it makes of what another platform wrote
 (sections 6.10.2 and 6.10.3 of CTAP 2.2, section 3 of RFC 8949).
 */
module LargeBlobWire {
  import opened Wrappers
  import opened Bytes
  import opened Cbor
  import opened CborEncode
  import opened CborForms
  import opened LargeBlobDevice
  import opened LargeBlobTransfer
  import opened LargeBlobArray
  import opened LargeBlobStore
  import opened LargeBlobMap
  import opened LargeBlobDepth

  // ---------------------------------------------------------------------------
  // One entry
  // ---------------------------------------------------------------------------

  /** "blob" and the length as an unsigned 64-bit little-endian number. */
  function Tag(n: nat): seq<byte> {
    [0x62, 0x6c, 0x6f, 0x62,
     n % 0x100, n / 0x100 % 0x100, n / 0x1_0000 % 0x100, n / 0x100_0000 % 0x100, n / 0x1_0000_0000 % 0x100,
     n / 0x100_0000_0000 % 0x100, n / 0x1_0000_0000_0000 % 0x100, n / 0x100_0000_0000_0000 % 0x100]
  }

  /** The ciphertext of a blob that is announced with the length `n`. */
  function Ciphertext(c: Crypto, key: BlobKey, nonce: seq<byte>, blob: seq<byte>, n: nat): seq<byte> {
    c.seal(key, nonce, Tag(n), c.deflate(blob))
  }

  lemma TagIs(n: nat)
    ensures AssociatedData(n) == Tag(n)
  {
    EightLittleEndian(n);
  }

  /** What the reader makes of an entry that any platform sealed for a key: the blob if it was announced with its length, an
      error if with another one of at most 1 MiB, whether longer or shorter, and nothing if that is longer still, if the nonce
      does not have 12 bytes, or for any other key. The writer takes it for that key's, if the nonce has 12 bytes, and for no
      other's. */
  lemma SealedReads(c: Crypto, key: BlobKey, nonce: seq<byte>, blob: seq<byte>, n: nat, k: BlobKey)
    requires Ideal(c)
    ensures var e := BlobEntry(Ciphertext(c, key, nonce, blob, n), nonce, n);
      && TryDecrypt(c, e, k) == (if k != key || n > 1048576 || |nonce| != 12 then Success(None)
                                 else if n == |blob| then Success(Some(blob))
                                 else Failure(Corrupted(WrongOrigSize)))
      && (Owned(c, EntryValue(e), k) <==> k == key && |nonce| == 12)
  {
    TagIs(n);
    EntryValueReads(BlobEntry(Ciphertext(c, key, nonce, blob, n), nonce, n));
  }

  /** Major type and argument of a CBOR item, in the shortest form. */
  function HeadBytes(major: nat, n: nat): seq<byte>
    requires major < 8 && n < 0x1_0000_0000
  {
    HeadForm(if n < 24 then Inline else if n < 0x100 then OneByte else if n < 0x1_0000 then TwoBytes else FourBytes, major, n)
  }

  /** A map of three: 1 to the ciphertext, 2 to the nonce, both byte strings, and 3 to the length. */
  function EntryBytes(ciphertext: seq<byte>, nonce: seq<byte>, n: nat): seq<byte>
    requires |ciphertext| < 0x1_0000_0000 && |nonce| < 0x1_0000_0000 && n < 0x1_0000_0000
  {
    [0xa3, 0x01] + HeadBytes(2, |ciphertext|) + ciphertext + [0x02] + HeadBytes(2, |nonce|) + nonce + [0x03] + HeadBytes(0, n)
  }

  lemma HeadIs(major: nat, n: nat)
    requires major < 8 && n < 0x1_0000_0000
    ensures EncodeHead(major, n) == HeadBytes(major, n)
  {
    hide BigEndian;
    if n < 0x1_0000 {
      TwoBigEndian(n);
    } else {
      FourBigEndian(n);
      assert n / 0x100_0000 % 0x100 == n / 0x100_0000;
    }
  }

  lemma EntryIs(e: BlobEntry)
    requires |e.ciphertext| < 0x1_0000_0000 && e.origSize < 0x1_0000_0000 && |e.nonce| < 0x1_0000_0000
    ensures Encode(EntryValue(e)) == EntryBytes(e.ciphertext, e.nonce, e.origSize)
  {
    hide EncodeHead, HeadBytes, EncodeItems;
    HeadIs(2, |e.ciphertext|);
    HeadIs(2, |e.nonce|);
    HeadIs(0, e.origSize);
    SmallHeads();
    var vs := EntryValue(e).flat;
    SixItems(vs);
    assert Encode(EntryValue(e)) == [0xa3] + EncodeItems(vs);
    assert Encode(vs[1]) == HeadBytes(2, |e.ciphertext|) + e.ciphertext && Encode(vs[3]) == HeadBytes(2, |e.nonce|) + e.nonce;
    SameBytes(HeadBytes(2, |e.ciphertext|), e.ciphertext, HeadBytes(2, |e.nonce|), e.nonce, HeadBytes(0, e.origSize));
  }

  lemma SameBytes(a: seq<byte>, b: seq<byte>, d: seq<byte>, e: seq<byte>, f: seq<byte>)
    ensures [0xa3] + ([0x01] + (a + b) + [0x02] + (d + e) + [0x03] + f) == [0xa3, 0x01] + a + b + [0x02] + d + e + [0x03] + f
  {
  }

  lemma SixItems(vs: seq<Value>)
    requires |vs| == 6
    ensures EncodeItems(vs) == Encode(vs[0]) + Encode(vs[1]) + Encode(vs[2]) + Encode(vs[3]) + Encode(vs[4]) + Encode(vs[5])
  {
    hide Encode;
    assert vs[6..] == [] && EncodeItems(vs[6..]) == [];
    assert vs[5..][1..] == vs[6..] && EncodeItems(vs[5..]) == Encode(vs[5]);
    assert vs[4..][1..] == vs[5..] && EncodeItems(vs[4..]) == Encode(vs[4]) + EncodeItems(vs[5..]);
    assert vs[3..][1..] == vs[4..] && EncodeItems(vs[3..]) == Encode(vs[3]) + EncodeItems(vs[4..]);
    assert vs[2..][1..] == vs[3..] && EncodeItems(vs[2..]) == Encode(vs[2]) + EncodeItems(vs[3..]);
    assert vs[1..][1..] == vs[2..] && EncodeItems(vs[1..]) == Encode(vs[1]) + EncodeItems(vs[2..]);
  }

  lemma SmallHeads()
    ensures EncodeHead(0, 1) == [0x01] && EncodeHead(0, 2) == [0x02] && EncodeHead(0, 3) == [0x03]
    ensures EncodeHead(5, 3) == [0xa3]
  {
  }

  // ---------------------------------------------------------------------------
  // Whole arrays
  // ---------------------------------------------------------------------------

  /** An array element of whatever origin: an entry, with what was sealed in it, or an item that is no map, or one without
      all of the keys 1, 2 and 3. */
  datatype Element =
    | Sealed(key: BlobKey, nonce: seq<byte>, blob: seq<byte>, announced: nat)
    | Other(raw: seq<byte>, value: Value)

  predicate IsElement(c: Crypto, e: Element) {
    match e
    case Sealed(key, nonce, blob, n) =>
      |nonce| < 0x1_0000_0000 && n < 0x1_0000_0000 && |Ciphertext(c, key, nonce, blob, n)| < 0x1_0000_0000
    case Other(raw, v) => ShallowItem(raw, v) && (v.Map? ==> Lacks(v.flat, 1) || Lacks(v.flat, 2) || Lacks(v.flat, 3))
  }

  /** No key of the map is this one. */
  predicate Lacks(flat: seq<Value>, key: int) {
    |flat| % 2 == 0 && forall i :: 0 <= i < |flat| && i % 2 == 0 ==> flat[i] != Integer(key)
  }

  ghost predicate AreElements(c: Crypto, es: seq<Element>) {
    |es| < 0x1_0000_0000 && forall e | e in es :: IsElement(c, e)
  }

  function ElementBytes(c: Crypto, e: Element): seq<byte>
    requires IsElement(c, e)
  {
    match e
    case Sealed(key, nonce, blob, n) => EntryBytes(Ciphertext(c, key, nonce, blob, n), nonce, n)
    case Other(raw, _) => raw
  }

  function AllBytes(c: Crypto, es: seq<Element>): seq<byte>
    requires forall e | e in es :: IsElement(c, e)
  {
    if es == [] then [] else ElementBytes(c, es[0]) + AllBytes(c, es[1..])
  }

  /** The array, closed by the first sixteen bytes of its hash. */
  function Serialized(c: Crypto, es: seq<Element>): seq<byte>
    requires AreElements(c, es)
  {
    var body := HeadBytes(4, |es|) + AllBytes(c, es);
    body + c.sha256(body)[..16]
  }

  /** The element is an entry of the key that can be opened. */
  predicate Belongs(e: Element, k: BlobKey) {
    e.Sealed? && e.key == k && |e.nonce| == 12
  }

  /** What is to be read under a key: what its first entry says that is announced with at most 1 MiB. */
  function Meant(es: seq<Element>, k: BlobKey): Result<Option<seq<byte>>, BlobError> {
    if es == [] then Success(None)
    else if Belongs(es[0], k) && es[0].announced <= 1048576 then
      (if es[0].announced == |es[0].blob| then Success(Some(es[0].blob)) else Failure(Corrupted(WrongOrigSize)))
    else Meant(es[1..], k)
  }

  /** All elements but the key's entries. */
  function Without(es: seq<Element>, key: BlobKey): seq<Element> {
    if es == [] then []
    else if Belongs(es[0], key) then Without(es[1..], key)
    else [es[0]] + Without(es[1..], key)
  }

  function Raws(c: Crypto, es: seq<Element>): seq<seq<byte>>
    requires forall e | e in es :: IsElement(c, e)
  {
    if es == [] then [] else [ElementBytes(c, es[0])] + Raws(c, es[1..])
  }

  function Values(c: Crypto, es: seq<Element>): seq<Value> {
    if es == [] then [] else [ValueOf(c, es[0])] + Values(c, es[1..])
  }

  function ValueOf(c: Crypto, e: Element): Value {
    match e
    case Sealed(key, nonce, blob, n) => EntryValue(BlobEntry(Ciphertext(c, key, nonce, blob, n), nonce, n))
    case Other(_, v) => v
  }

  lemma ElementIs(c: Crypto, e: Element, k: BlobKey)
    requires Ideal(c) && IsElement(c, e)
    ensures ShallowItem(ElementBytes(c, e), ValueOf(c, e))
    ensures Verdict(c, ValueOf(c, e), k) == Meant([e], k)
    ensures Owned(c, ValueOf(c, e), k) <==> Belongs(e, k)
  {
    hide ParseItem, EntryBytes, Encode, Ideal, TryDecrypt, Ciphertext, ReadEntry, Owned;
    assert Meant([e][1..], k) == Success(None);
    match e {
      case Sealed(key, nonce, blob, n) =>
        var entry := BlobEntry(Ciphertext(c, key, nonce, blob, n), nonce, n);
        SealedReads(c, key, nonce, blob, n, k);
        EntryValueReads(entry);
        EntryIs(entry);
        EntryShallow(entry);
      case Other(_, v) => NoEntry(c, v, k);
    }
  }

  lemma NoEntry(c: Crypto, v: Value, k: BlobKey)
    requires v.Map? ==> Lacks(v.flat, 1) || Lacks(v.flat, 2) || Lacks(v.flat, 3)
    ensures ReadEntry(v).None? && !Owned(c, v, k)
  {
    if v.Map? {
      var key :| key in {1, 2, 3} && Lacks(v.flat, key);
      LacksIn(v.flat, key);
    }
  }

  lemma {:induction false} LacksIn(flat: seq<Value>, key: int)
    requires Lacks(flat, key)
    ensures Integer(key) !in MapOf(flat)
  {
    if |flat| >= 2 {
      LacksIn(flat[..|flat| - 2], key);
    }
  }

  lemma EntryShallow(e: BlobEntry)
    requires |e.ciphertext| < 0x1_0000_0000 && e.origSize < 0x1_0000_0000 && |e.nonce| < 0x1_0000_0000
    ensures ShallowItem(Encode(EntryValue(e)), EntryValue(e))
  {
    hide ParseItem, Encode;
    var v := EntryValue(e);
    assert Encodable(v, MAX_DEPTH - 1);
    EncodeThenParse(v, [], MAX_DEPTH - 1);
    assert Encode(v) + [] == Encode(v);
  }

  lemma {:induction false} ElementsAre(c: Crypto, es: seq<Element>, k: BlobKey)
    requires Ideal(c) && forall e | e in es :: IsElement(c, e)
    ensures Matches(Raws(c, es), Values(c, es)) && |Raws(c, es)| == |es| && Flatten(Raws(c, es)) == AllBytes(c, es)
    ensures Scan(c, Values(c, es), k) == Meant(es, k)
  {
    hide IsElement, ElementBytes, ValueOf, ShallowItem, Verdict, Owned, Ideal;
    if es != [] {
      var e := es[0];
      ElementIs(c, e, k);
      ElementsAre(c, es[1..], k);
      assert Raws(c, es)[1..] == Raws(c, es[1..]) && Values(c, es)[1..] == Values(c, es[1..]);
      assert Meant([e][1..], k) == Success(None);
      forall i | 0 <= i < |es| ensures ShallowItem(Raws(c, es)[i], Values(c, es)[i]) {
        if i > 0 {
          assert ShallowItem(Raws(c, es[1..])[i - 1], Values(c, es[1..])[i - 1]);
        }
      }
    }
  }

  lemma SerializedIs(c: Crypto, es: seq<Element>)
    requires Ideal(c) && AreElements(c, es)
    ensures Serialized(c, es) == ArrayBody(Raws(c, es)) + Trailer(c, ArrayBody(Raws(c, es))) && |Raws(c, es)| == |es|
  {
    hide EncodeHead, HeadBytes;
    var k: BlobKey := seq(32, _ => 0);
    ElementsAre(c, es, k);
    HeadIs(4, |es|);
    ArrayHeadIs(|es|);
  }

  lemma ArrayHeadIs(n: nat)
    requires n < 0x1_0000_0000
    ensures EncodeArrayHeader(n) == EncodeHead(4, n)
  {
    TwoBigEndian(n);
  }

  /** Reading an array that any platform wrote. */
  lemma SerializedReads(c: Crypto, es: seq<Element>, k: BlobKey)
    requires Ideal(c) && AreElements(c, es)
    ensures ReadBlob(c, Serialized(c, es), k) == Meant(es, k)
  {
    hide StripArrayTrailer, ArrayValues, EntriesOf, DecryptFirst, Scan, Meant, Serialized, ArrayBody, Trailer, Ideal, Matches;
    SerializedIs(c, es);
    ElementsAre(c, es, k);
    TrailerAppended(c, ArrayBody(Raws(c, es)));
    BodyReads(Raws(c, es), Values(c, es));
    ScanIsDecryptFirst(c, Values(c, es), k);
  }

  lemma {:induction false} KeptAre(c: Crypto, es: seq<Element>, key: BlobKey)
    requires Ideal(c) && forall e | e in es :: IsElement(c, e)
    ensures (forall e | e in Without(es, key) :: IsElement(c, e)) && |Without(es, key)| <= |es|
    ensures Kept(c, RawAll(Raws(c, es)), key) == Raws(c, Without(es, key))
    ensures (exists e :: e in RawAll(Raws(c, es)) && OwnedEntry(c, e, key)) <==> exists e :: e in es && Belongs(e, key)
  {
    hide IsElement, ElementBytes, ValueOf, ShallowItem, Owned, OwnedEntry, Ideal, Raw;
    if es != [] {
      var e, raws := es[0], Raws(c, es);
      ElementIs(c, e, key);
      RawOwned(c, ElementBytes(c, e), ValueOf(c, e), key);
      RawKeeps(ElementBytes(c, e));
      KeptAre(c, es[1..], key);
      assert raws[1..] == Raws(c, es[1..]) && RawAll(raws) == [Raw(raws[0])] + RawAll(raws[1..]);
      assert forall x :: x in RawAll(raws) <==> x == Raw(raws[0]) || x in RawAll(raws[1..]);
      assert forall x :: x in es <==> x == e || x in es[1..];
      if !Belongs(e, key) {
        assert ([e] + Without(es[1..], key))[1..] == Without(es[1..], key);
      }
    }
  }

  lemma RawOwned(c: Crypto, raw: seq<byte>, v: Value, key: BlobKey)
    requires ShallowItem(raw, v)
    ensures OwnedEntry(c, Raw(raw), key) <==> Owned(c, v, key)
  {
    hide ParseItem, Owned;
    ShallowDecodes(raw, v);
  }

  lemma {:induction false} RawsTogether(c: Crypto, a: seq<Element>, b: seq<Element>)
    requires forall e | e in a + b :: IsElement(c, e)
    ensures (forall e | e in a :: IsElement(c, e)) && (forall e | e in b :: IsElement(c, e))
    ensures Raws(c, a + b) == Raws(c, a) + Raws(c, b)
  {
    hide IsElement, ElementBytes;
    assert forall e :: e in a || e in b ==> e in a + b;
    if a == [] {
      assert a + b == b;
    } else {
      assert (a + b)[1..] == a[1..] + b;
      RawsTogether(c, a[1..], b);
    }
  }

  lemma {:induction false} ElementsAreItems(c: Crypto, es: seq<Element>)
    requires Ideal(c) && forall e | e in es :: IsElement(c, e)
    ensures AllItems(Raws(c, es))
  {
    hide IsElement, ElementBytes, ValueOf, ShallowItem, IsItem, Ideal;
    if es != [] {
      ElementIs(c, es[0], seq(32, _ => 0));
      RawOfShallow(ElementBytes(c, es[0]), ValueOf(c, es[0]));
      ElementsAreItems(c, es[1..]);
    }
  }

  /** The device stores these elements, or something without a valid trailer, which counts as none. */
  ghost predicate Stores(c: Crypto, stored: seq<byte>, es: seq<Element>) {
    && AreElements(c, es)
    && (stored == Serialized(c, es)
        || (es == [] && (|stored| < 16 || stored[|stored| - 16..] != c.sha256(stored[..|stored| - 16])[..16])))
  }

  lemma StartsFrom(c: Crypto, stored: seq<byte>, es: seq<Element>)
    requires Ideal(c) && Stores(c, stored, es)
    ensures Existing(c, stored) == Success(RawAll(Raws(c, es)))
  {
    hide ParseArrayRawEntries, ArrayBody, Serialized, Ideal, IsElement, ElementBytes;
    if stored == Serialized(c, es) {
      SerializedIs(c, es);
      ElementsAreItems(c, es);
      TrailerAppended(c, ArrayBody(Raws(c, es)));
      BodyParsesBack(Raws(c, es));
    } else {
      assert Raws(c, es) == [] && RawAll([]) == [];
    }
  }

  /** Writing over an array that any platform wrote, or over one without a valid trailer: the write succeeds with a nonce of
      the right length, and what it uploads are the others' elements, in order, and then the new entry. */
  lemma WriteUploads(c: Crypto, stored: seq<byte>, es: seq<Element>, key: BlobKey, nonce: seq<byte>, blob: seq<byte>)
    requires Ideal(c) && Stores(c, stored, es) && |es| + 1 < 0x1_0000_0000 && |blob| <= 1048576
    ensures |nonce| != 12 ==> Written(c, stored, key, nonce, blob) == Failure(Corrupted(BadNonce))
    ensures |nonce| == 12 ==>
      var after := Without(es, key) + [Sealed(key, nonce, blob, |blob|)];
      AreElements(c, after) && Written(c, stored, key, nonce, blob) == Success(Serialized(c, after))
  {
    hide Existing, Kept, ArrayBody, Serialized, Trailer, ElementBytes, Encode, EntryBytes, Raws, RawAll, OwnedEntry;
    StartsFrom(c, stored, es);
    KeptAre(c, es, key);
    if |nonce| == 12 {
      var entry := Sealed(key, nonce, blob, |blob|);
      var after := Without(es, key) + [entry];
      TagIs(|blob|);
      assert IsElement(c, entry);
      OneRaw(c, entry);
      EntryIs(SealedEntry(c, key, nonce, blob));
      RawsTogether(c, Without(es, key), [entry]);
      SerializedIs(c, after);
      ElementIsEntry(c, entry);
    }
  }

  lemma OneRaw(c: Crypto, e: Element)
    requires IsElement(c, e)
    ensures Raws(c, [e]) == [ElementBytes(c, e)]
  {
    assert [e][1..] == [];
  }

  lemma ElementIsEntry(c: Crypto, e: Element)
    requires e.Sealed? && IsElement(c, e)
    ensures ElementBytes(c, e) == EntryBytes(Ciphertext(c, e.key, e.nonce, e.blob, e.announced), e.nonce, e.announced)
  {
  }

  /** Deleting from one: an error if the key has no entry, and otherwise an upload of the others' elements. */
  lemma DeleteUploads(c: Crypto, stored: seq<byte>, es: seq<Element>, key: BlobKey)
    requires Ideal(c) && Stores(c, stored, es)
    ensures AreElements(c, Without(es, key))
    ensures Erased(c, stored, key) == if exists e :: e in es && Belongs(e, key) then Success(Serialized(c, Without(es, key)))
                                      else Failure(NoMatch)
  {
    hide Existing, Kept, ArrayBody, Serialized, Trailer, ElementBytes, Raws, RawAll, OwnedEntry, IsElement;
    StartsFrom(c, stored, es);
    KeptAre(c, es, key);
    SerializedIs(c, Without(es, key));
    assert Raws(c, Without(es, key)) + [] == Raws(c, Without(es, key));
  }

  // ---------------------------------------------------------------------------
  // When a write finds something to start from
  // ---------------------------------------------------------------------------

  /** The head of an array of `n` elements, in any of its definite-length forms. */
  predicate IsArrayHead(head: seq<byte>, n: nat) {
    exists w: Width :: Fits(w, n) && head == HeadForm(w, 4, n)
  }

  /** Nothing at all, or an array head and as many whole items as it says. */
  ghost predicate IsRawArray(body: seq<byte>) {
    body == [] || exists head, raws :: IsArrayHead(head, |raws|) && AllItems(raws) && body == head + Flatten(raws)
  }

  lemma ArrayHeadReads(head: seq<byte>, n: nat, rest: seq<byte>)
    requires IsArrayHead(head, n)
    ensures ReadArrayHeader(head + rest) == Success(Header(n, |head|))
  {
    hide HeadForm, ReadHead;
    var w: Width :| Fits(w, n) && head == HeadForm(w, 4, n);
    HeadReads(w, 4, n, rest);
    HeadFacts(head + rest);
  }

  lemma ArrayHeadRead(s: seq<byte>)
    requires ReadArrayHeader(s).Success?
    ensures IsArrayHead(s[..ReadArrayHeader(s).value.used], ReadArrayHeader(s).value.count)
  {
    hide HeadForm, ReadHead;
    HeadHasForm(s);
  }

  lemma {:induction false} RawsSpan(s: seq<byte>, count: nat)
    requires RawElements(s, count).Success?
    ensures var es := RawElements(s, count).value; s[..es.used] == Flatten(RawsOf(es.entries)) && |RawsOf(es.entries)| == count
    decreases count
  {
    hide ElementSpan, Raw;
    if count > 0 {
      var n := ElementSpan(s).value;
      var rest := RawElements(s[n..], count - 1).value;
      RawsSpan(s[n..], count - 1);
      RawKeeps(s[..n]);
      var es := RawElements(s, count).value.entries;
      assert es[1..] == rest.entries && RawsOf(es) == [s[..n]] + RawsOf(rest.entries);
      assert RawsOf(es)[1..] == RawsOf(rest.entries);
      assert s[..n + rest.used] == s[..n] + s[n..][..rest.used];
    }
  }

  /** The raw parser takes exactly such bytes. */
  lemma RawArrayIff(body: seq<byte>)
    ensures ParseArrayRawEntries(body).Success? <==> IsRawArray(body)
  {
    hide ReadArrayHeader, RawElements, AllItems, IsArrayHead;
    if body != [] && ParseArrayRawEntries(body).Success? {
      var h := ReadArrayHeader(body).value;
      var rest := body[h.used..];
      ArrayHeadRead(body);
      RawFacts(rest, h.count);
      RawsSpan(rest, h.count);
      var raws := RawsOf(RawElements(rest, h.count).value.entries);
      assert rest[..RawElements(rest, h.count).value.used] == rest && body == body[..h.used] + Flatten(raws);
      assert IsArrayHead(body[..h.used], |raws|) && AllItems(raws);
    }
    if body != [] && IsRawArray(body) {
      var head, raws :| IsArrayHead(head, |raws|) && AllItems(raws) && body == head + Flatten(raws);
      ArrayHeadReads(head, |raws|, Flatten(raws));
      FlattenParses(raws, []);
      assert body[|head|..] == Flatten(raws) == Flatten(raws) + [];
    }
  }

  /** A write finds something to start from, and a nonce that it can use. */
  ghost predicate Writable(c: Crypto, stored: seq<byte>, nonce: seq<byte>) {
    |nonce| == 12 && (TrailerHolds(c, stored) ==> IsRawArray(stored[..|stored| - 16]))
  }

  lemma WrittenIff(c: Crypto, stored: seq<byte>, key: BlobKey, nonce: seq<byte>, blob: seq<byte>)
    ensures Written(c, stored, key, nonce, blob).Success? <==> Writable(c, stored, nonce)
  {
    hide ParseArrayRawEntries, IsRawArray, Rebuilt, Trailer;
    if TrailerHolds(c, stored) {
      RawArrayIff(stored[..|stored| - 16]);
    }
  }
}
