/** Read, write and delete against a device: the map laws carried over whole exchanges. */
module LargeBlobOperations {
  import opened Wrappers
  import opened Bytes
  import opened LargeBlobDevice
  import opened LargeBlobTransfer
  import opened LargeBlobArray
  import opened LargeBlobStore
  import opened LargeBlobMap
  import opened LargeBlobDepth
  import opened LargeBlobWire

  /** The read-modify-write exchange: fetch, decide on the new array, upload it. */
  ghost function Exchange(answers: Answers, h: seq<Request>, max: Fragment, sign: Signer,
                          change: seq<byte> -> Result<seq<byte>, BlobError>): Delivered
  {
    var f := Fetch(answers, h, max, []);
    if f.result.Failure? then Delivered(Failure(f.result.error), f.sent) else
    var s := change(f.result.value);
    if s.Failure? then Delivered(Failure(s.error), f.sent) else
    match UploadRefusal(s.value)
    case Some(why) => Delivered(Failure(Corrupted(why)), f.sent)
    case None => Deliver(answers, f.sent, Plan(s.value, 0, max, sign))
  }

  ghost function WriteChange(c: Crypto, key: BlobKey, nonce: seq<byte>, blob: seq<byte>): seq<byte> -> Result<seq<byte>, BlobError> {
    stored => Written(c, stored, key, nonce, blob)
  }

  ghost function EraseChange(c: Crypto, key: BlobKey): seq<byte> -> Result<seq<byte>, BlobError> {
    stored => Erased(c, stored, key)
  }

  method FetchOrInitial(d: Device, c: Crypto, max: Fragment) returns (r: Result<seq<RawEntry>, BlobError>)
    modifies d
    ensures var f := Fetch(d.answers, old(d.sent), max, []);
            d.sent == f.sent && r == (if f.result.Failure? then Failure(f.result.error) else Existing(c, f.result.value))
    ensures var f := Fetch(d.answers, old(d.sent), max, []).result;
            f.Success? && !TrailerHolds(c, f.value) ==> r == Success([])
  {
    hide Fetch, StripArrayTrailer, ParseArrayRawEntries;
    var serialized := FetchSerializedArray(d, max);
    if serialized.Failure? { return Failure(serialized.error); }
    var body := StripArrayTrailer(c, serialized.value);
    if body.Failure? { return Success([]); }
    r := ParseRaw(body.value);
  }

  method WriteAuthenticatorLargeBlob(d: Device, c: Crypto, key: BlobKey, nonce: seq<byte>, blob: seq<byte>,
                                     max: Fragment, auth: Option<Credential>) returns (r: Result<(), BlobError>)
    modifies d
    ensures |blob| > 1048576 ==> r == Failure(Corrupted(BlobTooLong)) && d.sent == old(d.sent)
    ensures |blob| <= 1048576 ==>
              Delivered(r, d.sent)
              == Exchange(d.answers, old(d.sent), max, ChunkSigner(c, auth), WriteChange(c, key, nonce, blob))
  {
    hide Fetch, Existing, EncryptEntry, Rebuilt, Plan, Deliver, ChunkSigner, UploadRefusal;
    if |blob| > MAX_ORIG_SIZE { return Failure(Corrupted(BlobTooLong)); }
    var existing := FetchOrInitial(d, c, max);
    if existing.Failure? { return Failure(existing.error); }
    var entry := EncryptEntry(c, key, nonce, blob);
    if entry.Failure? { return Failure(entry.error); }
    var serialized := RebuildSerializedArray(c, existing.value, key, Some(entry.value));
    r := UploadSerializedArray(d, c, serialized, max, auth);
  }

  method DeleteAuthenticatorLargeBlob(d: Device, c: Crypto, key: BlobKey, max: Fragment, auth: Option<Credential>)
    returns (r: Result<(), BlobError>)
    modifies d
    ensures Delivered(r, d.sent) == Exchange(d.answers, old(d.sent), max, ChunkSigner(c, auth), EraseChange(c, key))
  {
    hide Fetch, Existing, OwnedEntry, Rebuilt, Plan, Deliver, ChunkSigner, UploadRefusal;
    var existing := FetchOrInitial(d, c, max);
    if existing.Failure? { return Failure(existing.error); }
    if !(exists e :: e in existing.value && OwnedEntry(c, e, key)) { return Failure(NoMatch); }
    var serialized := RebuildSerializedArray(c, existing.value, key, None);
    r := UploadSerializedArray(d, c, serialized, max, auth);
  }

  // ---------------------------------------------------------------------------
  // On a compliant device
  // ---------------------------------------------------------------------------

  /** What the device stores after the exchange, given what it stored before. */
  ghost predicate AtomicChange(before: seq<byte>, r: Result<(), BlobError>, after: seq<byte>,
                               change: seq<byte> -> Result<seq<byte>, BlobError>)
  {
    || (r.Failure? && after == before)
    || ((r.Success? || r == Failure(DeviceError(Lost(true))))
        && change(before).Success? && after == change(before).value && 17 <= |after| <= MAX_ARRAY_BYTES)
  }

  /** A read-modify-write is atomic: the device ends up with the changed array when it succeeds, and with the old one when it
      fails, or, only if an exchange was lost after the device had acted, with the changed one; never with a mixture. */
  lemma ExchangeAtomic(c: Crypto, p: Policy, answers: Answers, initial: Storage, h: seq<Request>, max: Fragment, sign: Signer,
                       change: seq<byte> -> Result<seq<byte>, BlobError>)
    requires Compliant(c, p, answers, initial)
    ensures var x := Exchange(answers, h, max, sign, change);
            AtomicChange(StorageAfter(answers, initial, h).committed, x.result,
                         StorageAfter(answers, initial, x.sent).committed, change)
  {
    hide Fetch, StorageAfter, Plan, Deliver, Compliant;
    FetchExact(c, p, answers, initial, h, max, []);
    var f := Fetch(answers, h, max, []);
    if f.result.Success? && change(f.result.value).Success? {
      var s := change(f.result.value).value;
      if UploadRefusal(s).None? {
        UploadAtomic(c, p, answers, initial, f.sent, s, 0, max, sign);
      }
    }
  }

  /** Requests that set nothing. */
  ghost predicate OnlyGets(qs: seq<Request>) {
    forall q | q in qs :: q.set_.None?
  }

  lemma {:induction false} GetsKeep(answers: Answers, initial: Storage, h: seq<Request>, gets: seq<Request>)
    requires OnlyGets(gets)
    ensures StorageAfter(answers, initial, h + gets) == StorageAfter(answers, initial, h)
    decreases |gets|
  {
    if gets == [] {
      assert h + gets == h;
    } else {
      var front, q := gets[..|gets| - 1], gets[|gets| - 1];
      GetsKeep(answers, initial, h, front);
      assert (h + gets)[..|h + gets| - 1] == h + front;
      assert q in gets;
    }
  }

  /** A read returns what the stored bytes say, unless an exchange fails or the stored array is beyond the cap. */
  lemma ReadsStored(c: Crypto, p: Policy, answers: Answers, initial: Storage, h: seq<Request>, gets: seq<Request>, max: Fragment, k: BlobKey)
    requires Compliant(c, p, answers, initial) && OnlyGets(gets)
    ensures var stored, r := StorageAfter(answers, initial, h).committed, ReadExchange(c, answers, h + gets, max, k);
      || (r.Failure? && r.error.DeviceError?)
      || (LastBoundary(|stored|, max) > MAX_ARRAY_BYTES && r == Failure(Corrupted(ExceedsCap)))
      || r == ReadBlob(c, stored, k)
  {
    hide Fetch, StorageAfter, Compliant, ReadBlob, LastBoundary;
    GetsKeep(answers, initial, h, gets);
    FetchExact(c, p, answers, initial, h + gets, max, []);
  }

  lemma BoundaryWithin(len: nat, max: Fragment)
    ensures LastBoundary(len, max) <= len
  {
    assert len == len / max * max + len % max;
  }

  /** What reading `k` gives once `key` was made to read `value` over a device that stored `before`. If every kept element
      can be read, `key` reads `value`, and, if the array could be read before, every other key reads what it did. */
  ghost predicate Outcome(c: Crypto, before: seq<byte>, key: BlobKey, value: Option<seq<byte>>, k: BlobKey,
                          r: Result<Option<seq<byte>>, BlobError>)
  {
    && (Readable(c, before) ==> r == if k == key then Success(value) else Lookup(c, before, k))
    && (k == key ==> (r == Success(value) <==> KeptReadable(c, before, key)))
    && (k != key ==> (r == Lookup(c, before, k) <==> Readable(c, before) || !KeptReadable(c, before, key)))
    && (!KeptReadable(c, before, key) ==> r == Failure(Corrupted(MalformedCbor)))
  }

  /** A write, then a read of any key in fragments of any size, however many other reads come in between, on one compliant
      device. If the write succeeded, the read has the outcome, or an exchange of its own fails. If the write failed, nothing
      has changed, unless an exchange was lost after the device had acted, and then the read may have that outcome, too. */
  lemma WriteThenRead(c: Crypto, p: Policy, answers: Answers, initial: Storage, h: seq<Request>, max: Fragment, sign: Signer,
                      key: BlobKey, nonce: seq<byte>, blob: seq<byte>, gets: seq<Request>, max': Fragment, k: BlobKey)
    requires Ideal(c) && Compliant(c, p, answers, initial) && |blob| <= MAX_ORIG_SIZE && OnlyGets(gets)
    ensures var before := StorageAfter(answers, initial, h).committed;
            var x := Exchange(answers, h, max, sign, WriteChange(c, key, nonce, blob));
            var after := StorageAfter(answers, initial, x.sent).committed;
            var r := ReadExchange(c, answers, x.sent + gets, max', k);
            var done := (r.Failure? && r.error.DeviceError?) || Outcome(c, before, key, Some(blob), k, r);
      && (x.result.Success? ==> done)
      && (x.result.Failure? ==> after == before || (x.result == Failure(DeviceError(Lost(true))) && done))
  {
    hide Exchange, StorageAfter, ReadBlob, Written, Lookup, Compliant, Readable, Ideal, KeptReadable, LastBoundary, ReadExchange, OnlyGets;
    ExchangeAtomic(c, p, answers, initial, h, max, sign, WriteChange(c, key, nonce, blob));
    var before := StorageAfter(answers, initial, h).committed;
    var after := Written(c, before, key, nonce, blob);
    if after.Success? && |after.value| <= MAX_ARRAY_BYTES {
      WriteReads(c, before, key, nonce, blob, k);
      ReadableWrite(c, before, key, nonce, blob, k);
      BoundaryWithin(|after.value|, max');
      ReadsStored(c, p, answers, initial, Exchange(answers, h, max, sign, WriteChange(c, key, nonce, blob)).sent, gets, max', k);
    }
  }

  lemma ReadableWrite(c: Crypto, before: seq<byte>, key: BlobKey, nonce: seq<byte>, blob: seq<byte>, k: BlobKey)
    requires Ideal(c) && |blob| <= MAX_ORIG_SIZE
    requires Written(c, before, key, nonce, blob).Success? && |Written(c, before, key, nonce, blob).value| < U32
    ensures Readable(c, before) ==>
              ReadBlob(c, Written(c, before, key, nonce, blob).value, k) == if k == key then Success(Some(blob)) else Lookup(c, before, k)
  {
    hide ReadBlob, Written, Lookup, Readable, Ideal;
    if Readable(c, before) {
      WriteRefinesMap(c, before, key, nonce, blob, k);
    }
  }

  /** The same for a delete. */
  lemma DeleteThenRead(c: Crypto, p: Policy, answers: Answers, initial: Storage, h: seq<Request>, max: Fragment, sign: Signer,
                       key: BlobKey, gets: seq<Request>, max': Fragment, k: BlobKey)
    requires Ideal(c) && Compliant(c, p, answers, initial) && OnlyGets(gets)
    ensures var before := StorageAfter(answers, initial, h).committed;
            var x := Exchange(answers, h, max, sign, EraseChange(c, key));
            var after := StorageAfter(answers, initial, x.sent).committed;
            var r := ReadExchange(c, answers, x.sent + gets, max', k);
            var done := (r.Failure? && r.error.DeviceError?) || Outcome(c, before, key, None, k, r);
      && (x.result.Success? ==> done)
      && (x.result.Failure? ==> after == before || (x.result == Failure(DeviceError(Lost(true))) && done))
  {
    hide Exchange, StorageAfter, ReadBlob, Erased, Lookup, Compliant, Readable, Ideal, KeptReadable, LastBoundary, ReadExchange, OnlyGets;
    ExchangeAtomic(c, p, answers, initial, h, max, sign, EraseChange(c, key));
    var before := StorageAfter(answers, initial, h).committed;
    var after := Erased(c, before, key);
    if after.Success? && |after.value| <= MAX_ARRAY_BYTES {
      DeleteReads(c, before, key, k);
      ReadableErase(c, before, key, k);
      BoundaryWithin(|after.value|, max');
      ReadsStored(c, p, answers, initial, Exchange(answers, h, max, sign, EraseChange(c, key)).sent, gets, max', k);
    }
  }

  lemma ReadableErase(c: Crypto, before: seq<byte>, key: BlobKey, k: BlobKey)
    requires Ideal(c)
    requires Erased(c, before, key).Success? && |Erased(c, before, key).value| < U32
    ensures Readable(c, before) ==>
              ReadBlob(c, Erased(c, before, key).value, k) == if k == key then Success(None) else Lookup(c, before, k)
  {
    hide ReadBlob, Erased, Lookup, Readable, Ideal;
    if Readable(c, before) {
      DeleteRefinesMap(c, before, key, k);
    }
  }

  /** How long the array is that a write uploads, if there is one. */
  function WrittenLength(c: Crypto, stored: seq<byte>, key: BlobKey, nonce: seq<byte>, blob: seq<byte>): nat {
    var s := Written(c, stored, key, nonce, blob);
    if s.Success? then |s.value| else 0
  }

  /** A write to a device that refuses only what it has to, in fragments that fit, with the token that the device insists on,
      if any, and leaving an array that the device can store, succeeds if and only if the stored array is within the cap and is
      one that the raw parser takes, or has a bad trailer, the nonce is one, and the new array is within the cap, too. */
  lemma WriteSucceeds(c: Crypto, p: Policy, answers: Answers, initial: Storage, h: seq<Request>, max: Fragment,
                      auth: Option<Credential>, key: BlobKey, nonce: seq<byte>, blob: seq<byte>)
    requires Compliant(c, p, answers, initial) && Obedient(c, p, answers, initial)
    requires Within(max, p.fragment) && (p.protection.Some? ==> auth == p.protection)
    requires Within(WrittenLength(c, StorageAfter(answers, initial, h).committed, key, nonce, blob), p.capacity)
    ensures var stored := StorageAfter(answers, initial, h).committed;
      Exchange(answers, h, max, ChunkSigner(c, auth), WriteChange(c, key, nonce, blob)).result.Success? <==>
        LastBoundary(|stored|, max) <= 4194304 && Writable(c, stored, nonce) && WrittenLength(c, stored, key, nonce, blob) <= 4194304
  {
    hide Fetch, StorageAfter, Plan, Deliver, Compliant, Obedient, Trailer, ArrayBody, LastBoundary, ChunkSigner, Writable, Existing, EncryptEntry;
    var stored := StorageAfter(answers, initial, h).committed;
    FetchExact(c, p, answers, initial, h, max, []);
    FetchAnswered(c, p, answers, initial, h, max, []);
    WrittenIff(c, stored, key, nonce, blob);
    var f := Fetch(answers, h, max, []);
    if f.result.Success? && Writable(c, stored, nonce) {
      var s := Written(c, stored, key, nonce, blob).value;
      assert exists body :: s == body + Trailer(c, body) && |body| >= 1;
      var body :| s == body + Trailer(c, body) && |body| >= 1;
      TrailerAppended(c, body);
      if |s| <= MAX_ARRAY_BYTES {
        UploadSucceeds(c, p, answers, initial, f.sent, s, 0, max, auth);
      }
    }
  }
}
