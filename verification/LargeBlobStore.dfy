/** Reading, replacing and erasing one credential's blob in the device-wide array (section 6.10.6 of CTAP 2.2). */
module LargeBlobStore {
  import opened Wrappers
  import opened Bytes
  import opened Cbor
  import opened LargeBlobDevice
  import opened LargeBlobTransfer
  import opened LargeBlobArray

  // ---------------------------------------------------------------------------
  // Reading
  // ---------------------------------------------------------------------------

  /** The entries among decoded elements; anything that is not an entry is passed over. */
  function EntriesOf(vs: seq<Value>): seq<BlobEntry> {
    if vs == [] then [] else EntryOf(vs[0]) + EntriesOf(vs[1..])
  }

  function EntryOf(v: Value): seq<BlobEntry> {
    match ReadEntry(v) case Some(e) => [e] case None => []
  }

  lemma EntriesStep(entries: seq<BlobEntry>, vs: seq<Value>, i: nat)
    requires i < |vs|
    ensures entries + EntriesOf(vs[i..]) == entries + EntryOf(vs[i]) + EntriesOf(vs[i + 1..])
  {
    hide EntryOf;
    assert vs[i..][1..] == vs[i + 1..];
    var first, rest := EntryOf(vs[i]), EntriesOf(vs[i + 1..]);
    assert entries + (first + rest) == entries + first + rest;
  }

  /** The elements of an array as the reader decodes it. */
  function ArrayValues(bytes: seq<byte>): Result<seq<Value>, BlobError> {
    if bytes == [] then Success([]) else
    match Decode(bytes)
    case Malformed => Failure(Corrupted(MalformedCbor))
    case Parsed(v, _) => if v.Array? then Success(v.items) else Failure(Corrupted(NotAnArray))
  }

  lemma NoEntries(vs: seq<Value>, entries: seq<BlobEntry>)
    ensures entries + EntriesOf(vs[|vs|..]) == entries && vs[0..] == vs && [] + EntriesOf(vs) == EntriesOf(vs)
  {
  }

  method ParseLargeBlobArray(bytes: seq<byte>) returns (r: Result<seq<BlobEntry>, BlobError>)
    ensures r == match ArrayValues(bytes) case Success(vs) => Success(EntriesOf(vs)) case Failure(e) => Failure(e)
  {
    hide ReadEntry, ArrayValues, EntriesOf;
    var values := ArrayValues(bytes);
    if values.Failure? { return Failure(values.error); }
    var vs, i := values.value, 0;
    var entries: seq<BlobEntry> := [];
    NoEntries(vs, []);
    while i < |vs|
      invariant i <= |vs|
      invariant entries + EntriesOf(vs[i..]) == EntriesOf(vs)
    {
      EntriesStep(entries, vs, i);
      match ReadEntry(vs[i]) {
        case Some(e) => entries := entries + [e];
        case None => assert entries + [] == entries;
      }
      i := i + 1;
    }
    NoEntries(vs, entries);
    r := Success(entries);
  }

  /** The first entry that authenticates under `key` decides. */
  function DecryptFirst(c: Crypto, entries: seq<BlobEntry>, key: BlobKey): Result<Option<seq<byte>>, BlobError> {
    if entries == [] then Success(None) else
    var first := TryDecrypt(c, entries[0], key);
    if first != Success(None) then first else DecryptFirst(c, entries[1..], key)
  }

  method DecryptFirstMatching(c: Crypto, entries: seq<BlobEntry>, key: BlobKey)
    returns (r: Result<Option<seq<byte>>, BlobError>)
    ensures r == DecryptFirst(c, entries, key)
  {
    hide TryDecrypt;
    var i := 0;
    while i < |entries|
      invariant i <= |entries|
      invariant DecryptFirst(c, entries[i..], key) == DecryptFirst(c, entries, key)
    {
      var t := TryDecrypt(c, entries[i], key);
      if t != Success(None) { return t; }
      assert entries[i..][1..] == entries[i + 1..];
      i := i + 1;
    }
    r := Success(None);
  }

  /** What reading `key` returns on a device that stores `stored`. */
  function ReadBlob(c: Crypto, stored: seq<byte>, key: BlobKey): Result<Option<seq<byte>>, BlobError> {
    var body := StripArrayTrailer(c, stored);
    if body.Failure? then Failure(body.error) else
    var vs := ArrayValues(body.value);
    if vs.Failure? then Failure(vs.error) else DecryptFirst(c, EntriesOf(vs.value), key)
  }

  /** What reading `key` returns after the requests `h`. */
  ghost function ReadExchange(c: Crypto, answers: Answers, h: seq<Request>, max: Fragment, key: BlobKey): Result<Option<seq<byte>>, BlobError> {
    var f := Fetch(answers, h, max, []);
    if f.result.Failure? then Failure(f.result.error) else ReadBlob(c, f.result.value, key)
  }

  method ReadAuthenticatorLargeBlob(d: Device, c: Crypto, key: BlobKey, max: Fragment)
    returns (r: Result<Option<seq<byte>>, BlobError>)
    modifies d
    ensures d.sent == Fetch(d.answers, old(d.sent), max, []).sent && r == ReadExchange(c, d.answers, old(d.sent), max, key)
  {
    hide Fetch, StripArrayTrailer, ArrayValues, EntriesOf, DecryptFirst;
    var serialized := FetchSerializedArray(d, max);
    if serialized.Failure? { return Failure(serialized.error); }
    var body := StripArrayTrailer(c, serialized.value);
    if body.Failure? { return Failure(body.error); }
    var entries := ParseLargeBlobArray(body.value);
    if entries.Failure? { return Failure(entries.error); }
    r := DecryptFirstMatching(c, entries.value, key);
  }

  // ---------------------------------------------------------------------------
  // Rebuilding
  // ---------------------------------------------------------------------------

  /** The bytes of the elements that `key` does not own, in order. */
  function Kept(c: Crypto, existing: seq<RawEntry>, key: BlobKey): seq<seq<byte>> {
    if existing == [] then []
    else if OwnedEntry(c, existing[0], key) then Kept(c, existing[1..], key)
    else [existing[0].raw] + Kept(c, existing[1..], key)
  }

  function Flatten(raws: seq<seq<byte>>): seq<byte> {
    if raws == [] then [] else raws[0] + Flatten(raws[1..])
  }

  function OneOrNone(raw: Option<seq<byte>>): seq<seq<byte>> {
    match raw case Some(bytes) => [bytes] case None => []
  }

  /** An array of the given elements, before its trailer. */
  function ArrayBody(raws: seq<seq<byte>>): (s: seq<byte>)
    ensures |s| >= 1
  {
    EncodeArrayHeader(|raws|) + Flatten(raws)
  }

  /** Every element the key does not own, byte for byte and in order, then the new one, then the trailer. */
  function Rebuilt(c: Crypto, existing: seq<RawEntry>, key: BlobKey, newEntry: Option<seq<byte>>): seq<byte> {
    var body := ArrayBody(Kept(c, existing, key) + OneOrNone(newEntry));
    body + Trailer(c, body)
  }

  method RebuildSerializedArray(c: Crypto, existing: seq<RawEntry>, dropKey: BlobKey, newEntry: Option<seq<byte>>)
    returns (r: seq<byte>)
    ensures r == Rebuilt(c, existing, dropKey, newEntry)
  {
    hide OwnedEntry, Trailer, EncodeArrayHeader;
    var kept: seq<seq<byte>> := [];
    var i := 0;
    while i < |existing|
      invariant i <= |existing|
      invariant kept + Kept(c, existing[i..], dropKey) == Kept(c, existing, dropKey)
    {
      assert existing[i..][1..] == existing[i + 1..];
      if !OwnedEntry(c, existing[i], dropKey) {
        kept := kept + [existing[i].raw];
      }
      i := i + 1;
    }
    assert kept + [] == kept;
    if newEntry.Some? {
      kept := kept + [newEntry.value];
    }
    r := Splice(EncodeArrayHeader(|kept|), kept);
    r := r + Trailer(c, r);
  }

  /** `bytes` extended by each element in turn. */
  method Splice(header: seq<byte>, elements: seq<seq<byte>>) returns (bytes: seq<byte>)
    ensures bytes == header + Flatten(elements)
  {
    bytes := header;
    var i := 0;
    while i < |elements|
      invariant i <= |elements|
      invariant bytes + Flatten(elements[i..]) == header + Flatten(elements)
    {
      assert elements[i..][1..] == elements[i + 1..];
      bytes := bytes + elements[i];
      i := i + 1;
    }
    assert bytes + [] == bytes;
  }
}
