/** Whole histories of large-blob operations on one compliant device: what is read at the end is the fold of the updates. */
module LargeBlobHistory {
  import opened Wrappers
  import opened Bytes
  import opened LargeBlobDevice
  import opened LargeBlobTransfer
  import opened LargeBlobArray
  import opened LargeBlobStore
  import opened LargeBlobMap
  import opened LargeBlobDepth
  import opened LargeBlobOperations

  /** A write or a delete, with the fragment length and the token it goes by, or requests that only read. */
  datatype Operation =
    | Write(key: BlobKey, nonce: seq<byte>, blob: seq<byte>, max: Fragment, auth: Option<Credential>)
    | Delete(key: BlobKey, max: Fragment, auth: Option<Credential>)
    | Look(gets: seq<Request>)

  ghost function Perform(c: Crypto, answers: Answers, h: seq<Request>, op: Operation): Delivered {
    match op
    case Write(key, nonce, blob, max, auth) =>
      if |blob| > MAX_ORIG_SIZE then Delivered(Failure(Corrupted(BlobTooLong)), h)
      else Exchange(answers, h, max, ChunkSigner(c, auth), WriteChange(c, key, nonce, blob))
    case Delete(key, max, auth) => Exchange(answers, h, max, ChunkSigner(c, auth), EraseChange(c, key))
    case Look(gets) => Delivered(Success(()), h + gets)
  }

  /** The requests sent once all operations are through, one after the other. */
  ghost function SentBy(c: Crypto, answers: Answers, h: seq<Request>, ops: seq<Operation>): seq<Request> {
    if ops == [] then h
    else Perform(c, answers, SentBy(c, answers, h, ops[..|ops| - 1]), ops[|ops| - 1]).sent
  }

  ghost function ResultAt(c: Crypto, answers: Answers, h: seq<Request>, ops: seq<Operation>, i: nat): Result<(), BlobError>
    requires i < |ops|
  {
    Perform(c, answers, SentBy(c, answers, h, ops[..i]), ops[i]).result
  }

  /** No answer is lost after the device has acted on the request. Operations may fail in any other way. */
  ghost predicate NoneLost(c: Crypto, answers: Answers, h: seq<Request>, ops: seq<Operation>) {
    forall i: nat | i < |ops| :: ResultAt(c, answers, h, ops, i) != Failure(DeviceError(Lost(true)))
  }

  /** What a key holds after the operation, as a map update. */
  function Update(op: Operation, r: Result<(), BlobError>, k: BlobKey, value: Result<Option<seq<byte>>, BlobError>)
    : Result<Option<seq<byte>>, BlobError>
  {
    match op
    case Write(key, _, blob, _, _) => if r.Success? && key == k then Success(Some(blob)) else value
    case Delete(key, _, _) => if r.Success? && key == k then Success(None) else value
    case Look(_) => value
  }

  /** The fold of the updates of all successful operations. */
  ghost function Folded(c: Crypto, answers: Answers, h: seq<Request>, ops: seq<Operation>, k: BlobKey, value: Result<Option<seq<byte>>, BlobError>)
    : Result<Option<seq<byte>>, BlobError>
  {
    if ops == [] then value
    else
      var front := ops[..|ops| - 1];
      Update(ops[|ops| - 1], ResultAt(c, answers, h, ops, |ops| - 1), k, Folded(c, answers, h, front, k, value))
  }

  lemma OneOperation(c: Crypto, p: Policy, answers: Answers, initial: Storage, h: seq<Request>, op: Operation, k: BlobKey)
    requires Ideal(c) && Compliant(c, p, answers, initial) && (op.Look? ==> OnlyGets(op.gets))
    requires Perform(c, answers, h, op).result != Failure(DeviceError(Lost(true)))
    requires Readable(c, StorageAfter(answers, initial, h).committed)
    ensures var before, x := StorageAfter(answers, initial, h).committed, Perform(c, answers, h, op);
            var after := StorageAfter(answers, initial, x.sent).committed;
      && Readable(c, after) && Lookup(c, after, k) == Update(op, x.result, k, Lookup(c, before, k))
      && (x.result.Failure? || op.Look? ==> after == before)
      && (x.result.Success? && !op.Look? ==> StripArrayTrailer(c, after).Success? && |after| <= MAX_ARRAY_BYTES)
  {
    hide Exchange, StorageAfter, ReadBlob, Written, Erased, Lookup, Compliant, Readable, Ideal, KeptReadable, OnlyGets, ChunkSigner, StripArrayTrailer;
    var before := StorageAfter(answers, initial, h).committed;
    match op {
      case Look(gets) => GetsKeep(answers, initial, h, gets);
      case Write(key, nonce, blob, max, auth) =>
        if |blob| <= MAX_ORIG_SIZE {
          ExchangeAtomic(c, p, answers, initial, h, max, ChunkSigner(c, auth), WriteChange(c, key, nonce, blob));
          var after := Written(c, before, key, nonce, blob);
          if after.Success? && |after.value| <= MAX_ARRAY_BYTES {
            WriteReads(c, before, key, nonce, blob, k);
            ReadableWrite(c, before, key, nonce, blob, k);
          }
        }
      case Delete(key, max, auth) =>
        ExchangeAtomic(c, p, answers, initial, h, max, ChunkSigner(c, auth), EraseChange(c, key));
        var after := Erased(c, before, key);
        if after.Success? && |after.value| <= MAX_ARRAY_BYTES {
          DeleteReads(c, before, key, k);
          ReadableErase(c, before, key, k);
        }
    }
  }

  /** After any history of writes, deletes and reads on one compliant device, in which no answer was lost after the device had
      acted, every key holds what the fold of the successful operations says, provided the array could be read at first. It
      then still can. */
  lemma {:induction false} HistoryReads(c: Crypto, p: Policy, answers: Answers, initial: Storage, h: seq<Request>, ops: seq<Operation>, k: BlobKey)
    requires Ideal(c) && Compliant(c, p, answers, initial) && NoneLost(c, answers, h, ops)
    requires forall op | op in ops && op.Look? :: OnlyGets(op.gets)
    requires Readable(c, StorageAfter(answers, initial, h).committed)
    ensures var before := StorageAfter(answers, initial, h).committed;
            var after := StorageAfter(answers, initial, SentBy(c, answers, h, ops)).committed;
      && Readable(c, after) && Lookup(c, after, k) == Folded(c, answers, h, ops, k, Lookup(c, before, k))
      && (after == before || (StripArrayTrailer(c, after).Success? && |after| <= MAX_ARRAY_BYTES))
    decreases |ops|
  {
    hide StorageAfter, Lookup, Compliant, Readable, Ideal, OnlyGets, Perform, StripArrayTrailer, Update;
    if ops != [] {
      var front, last := ops[..|ops| - 1], ops[|ops| - 1];
      assert NoneLost(c, answers, h, front) by {
        forall i: nat | i < |front| ensures ResultAt(c, answers, h, front, i) == ResultAt(c, answers, h, ops, i) {
          assert front[..i] == ops[..i];
        }
      }
      HistoryReads(c, p, answers, initial, h, front, k);
      assert ops[..|ops| - 1] == front && ResultAt(c, answers, h, ops, |ops| - 1) == Perform(c, answers, SentBy(c, answers, h, front), last).result;
      OneOperation(c, p, answers, initial, SentBy(c, answers, h, front), last, k);
    }
  }

  /** The same for a read exchange after the history: it returns what the fold says, unless an exchange of its own fails, or
      the array has never changed and is beyond the cap or has a bad trailer. */
  lemma HistoryThenRead(c: Crypto, p: Policy, answers: Answers, initial: Storage, h: seq<Request>, ops: seq<Operation>, max: Fragment, k: BlobKey)
    requires Ideal(c) && Compliant(c, p, answers, initial) && NoneLost(c, answers, h, ops)
    requires forall op | op in ops && op.Look? :: OnlyGets(op.gets)
    requires Readable(c, StorageAfter(answers, initial, h).committed)
    ensures var before := StorageAfter(answers, initial, h).committed;
            var r := ReadExchange(c, answers, SentBy(c, answers, h, ops), max, k);
      || (r.Failure? && r.error.DeviceError?)
      || r == Folded(c, answers, h, ops, k, Lookup(c, before, k))
      || (StorageAfter(answers, initial, SentBy(c, answers, h, ops)).committed == before
          && ((LastBoundary(|before|, max) > MAX_ARRAY_BYTES && r == Failure(Corrupted(ExceedsCap)))
              || StripArrayTrailer(c, before).Failure?))
  {
    hide StorageAfter, Lookup, ReadBlob, Compliant, Readable, Ideal, OnlyGets, SentBy, StripArrayTrailer, Folded, LastBoundary, ReadExchange, NoneLost;
    var sent := SentBy(c, answers, h, ops);
    var after := StorageAfter(answers, initial, sent).committed;
    HistoryReads(c, p, answers, initial, h, ops, k);
    NoGets();
    assert sent + [] == sent;
    ReadsStored(c, p, answers, initial, sent, [], max, k);
    BoundaryWithin(|after|, max);
    LookupIsRead(c, after, k);
  }

  lemma NoGets()
    ensures OnlyGets([])
  {
  }
}
