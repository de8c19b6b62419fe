/** Chunked fetch and upload of the serialized large-blob array (section 6.10.2 of CTAP 2.2). */
module LargeBlobTransfer {
  import opened Wrappers
  import opened Bytes
  import opened LargeBlobDevice

  const DEFAULT_FRAGMENT: nat := 960
  const U32: nat := 0x1_0000_0000

  datatype Corruption =
    | ExceedsCap | OffsetOverflow | TooLongForU32 | BelowMinimum
    | TruncatedArray | TrailerMismatch | MalformedCbor | NotAnArray | UnsupportedLength | TrailingBytes
    | BlobTooLong | BadNonce | DecompressionFailed | WrongOrigSize

  datatype BlobError = Corrupted(why: Corruption) | NoMatch | DeviceError(answer: Answer)

  type Fragment = n: nat | 1 <= n < U32 witness 1

  /** Fragment size for a device's `maxMsgSize`: 64 bytes less, and at least one byte. */
  function MaxFragmentLength(maxMsgSize: Option<nat>): (n: Fragment)
    requires maxMsgSize.Some? ==> maxMsgSize.value < U32
    ensures maxMsgSize.Some? && maxMsgSize.value > 64 ==> n + 64 == maxMsgSize.value
    ensures maxMsgSize.Some? && maxMsgSize.value <= 64 ==> n == 1
    ensures maxMsgSize.None? ==> n == 960
  {
    match maxMsgSize
    case Some(m) => if m <= 65 then 1 else m - 64
    case None => DEFAULT_FRAGMENT
  }

  // ---------------------------------------------------------------------------
  // Fetch
  // ---------------------------------------------------------------------------

  datatype Fetched = Fetched(result: Result<seq<byte>, BlobError>, sent: seq<Request>)

  /** What fetching does once `out` has been collected and `h` has been sent. */
  ghost function Fetch(answers: Answers, h: seq<Request>, max: Fragment, out: seq<byte>): Fetched
    requires |out| <= MAX_ARRAY_BYTES
    decreases MAX_ARRAY_BYTES - |out|
  {
    var h' := h + [NewGet(|out|, max)];
    var a := answers(h');
    if !a.Config? then Fetched(Failure(DeviceError(a)), h') else
    var chunk := match a.config case Some(bytes) => bytes case None => [];
    if |chunk| < max then Fetched(Success(out + chunk), h')
    else if |out + chunk| > MAX_ARRAY_BYTES then Fetched(Failure(Corrupted(ExceedsCap)), h')
    else Fetch(answers, h', max, out + chunk)
  }

  /** The offset counter is a `u32` advanced by a checked addition; it never leaves step with the bytes collected,
      so the overflow error cannot happen. */
  method FetchSerializedArray(d: Device, max: Fragment) returns (r: Result<seq<byte>, BlobError>)
    modifies d
    ensures Fetched(r, d.sent) == Fetch(d.answers, old(d.sent), max, [])
    ensures r != Failure(Corrupted(OffsetOverflow))
  {
    var out: seq<byte> := [];
    var offset := 0;
    var done := false;
    r := Success([]);
    ghost var goal := Fetch(d.answers, d.sent, max, []);
    while !done
      invariant done ==> Fetched(r, d.sent) == goal
      invariant !done ==> |out| <= MAX_ARRAY_BYTES && offset == |out|
      invariant !done ==> Fetch(d.answers, d.sent, max, out) == goal
      invariant r != Failure(Corrupted(OffsetOverflow))
      decreases !done, MAX_ARRAY_BYTES - |out|
    {
      var a := d.LargeBlobs(NewGet(offset, max));
      if !a.Config? {
        r, done := Failure(DeviceError(a)), true;
      } else {
        var chunk := match a.config case Some(bytes) => bytes case None => [];
        out := out + chunk;
        if |chunk| < max {
          r, done := Success(out), true;
        } else if |out| > MAX_ARRAY_BYTES {
          r, done := Failure(Corrupted(ExceedsCap)), true;
        } else {
          var next := offset + |chunk| % U32;
          if next >= U32 {
            r, done := Failure(Corrupted(OffsetOverflow)), true;
          } else {
            offset := next;
          }
        }
      }
    }
  }

  /** The bytes that a device answered to a request. */
  function Chunk(a: Answer): seq<byte> {
    if a.Config? && a.config.Some? then a.config.value else []
  }

  /** The bytes that came back for requests `from` up to `to`. */
  function Gathered(answers: Answers, sent: seq<Request>, from: nat, to: nat): seq<byte>
    requires to <= |sent|
    decreases if from < to then to - from else 0
  {
    if from >= to then [] else Chunk(answers(sent[..from + 1])) + Gathered(answers, sent, from + 1, to)
  }

  /** Against any device, fetching stops after at most one request more than the cap holds full fragments, collects
      less than a fragment beyond the cap, and asks each time for the bytes after all those it has. */
  lemma {:induction false} FetchBounded(answers: Answers, h: seq<Request>, max: Fragment, out: seq<byte>)
    requires |out| <= MAX_ARRAY_BYTES
    ensures var f := Fetch(answers, h, max, out);
      && h < f.sent
      && (|f.sent| - |h| - 1) * max <= MAX_ARRAY_BYTES - |out|
      && (f.result.Success? ==> |f.result.value| < MAX_ARRAY_BYTES + max
                                && f.result.value == out + Gathered(answers, f.sent, |h|, |f.sent|))
      && (forall i :: |h| <= i < |f.sent| ==> f.sent[i] == NewGet(|out + Gathered(answers, f.sent, |h|, i)|, max))
    decreases MAX_ARRAY_BYTES - |out|
  {
    var q := NewGet(|out|, max);
    var h' := h + [q];
    var a, f := answers(h'), Fetch(answers, h, max, out);
    if a.Config? && |Chunk(a)| >= max && |out + Chunk(a)| <= MAX_ARRAY_BYTES {
      FetchBounded(answers, h', max, out + Chunk(a));
      OneMoreCall(|f.sent| - |h'| - 1, max, MAX_ARRAY_BYTES - |out + Chunk(a)|);
      GatheredStep(answers, f.sent, h, q, out);
    } else {
      assert f.sent[..|h| + 1] == h';
      assert Gathered(answers, f.sent, |h| + 1, |h| + 1) == [];
    }
  }

  lemma GatheredStep(answers: Answers, sent: seq<Request>, h: seq<Request>, q: Request, out: seq<byte>)
    requires h + [q] <= sent
    ensures forall i :: |h| < i <= |sent| ==>
              out + Gathered(answers, sent, |h|, i) == out + Chunk(answers(h + [q])) + Gathered(answers, sent, |h| + 1, i)
  {
    assert sent[..|h| + 1] == h + [q];
    var x := Chunk(answers(h + [q]));
    forall i | |h| < i <= |sent|
      ensures out + Gathered(answers, sent, |h|, i) == out + x + Gathered(answers, sent, |h| + 1, i)
    {
      Regroup(out, x, Gathered(answers, sent, |h| + 1, i));
    }
  }

  lemma Regroup(a: seq<byte>, b: seq<byte>, c: seq<byte>)
    ensures a + (b + c) == a + b + c
  {
  }

  lemma OneMoreCall(n: nat, max: nat, left: nat)
    requires n * max <= left
    ensures (n + 1) * max <= left + max
  {
  }

  lemma FetchCallBound(answers: Answers, h: seq<Request>, max: Fragment)
    ensures |Fetch(answers, h, max, []).sent| - |h| <= MAX_ARRAY_BYTES / max + 1
  {
    FetchBounded(answers, h, max, []);
    var n := |Fetch(answers, h, max, []).sent| - |h| - 1;
    Quotient(n, max, MAX_ARRAY_BYTES);
  }

  lemma Quotient(n: nat, m: nat, k: nat)
    requires m > 0 && n * m <= k
    ensures n <= k / m
  {
    var d := n - k / m;
    AtLeast(d, m);
    assert d * m == n * m - k / m * m;
  }

  /** Against a compliant device that answers, fetching returns exactly the stored array, unless the array has a
      fragment boundary beyond the cap, which is the only other outcome. */
  lemma {:induction false} FetchExact(c: Crypto, p: Policy, answers: Answers, initial: Storage, h: seq<Request>, max: Fragment, out: seq<byte>)
    requires Compliant(c, p, answers, initial)
    requires |out| <= MAX_ARRAY_BYTES && |out| % max == 0
    requires out <= StorageAfter(answers, initial, h).committed
    ensures var f, st := Fetch(answers, h, max, out), StorageAfter(answers, initial, h);
      && StorageAfter(answers, initial, f.sent) == st
      && (f.result.Success? ==> f.result.value == st.committed && LastBoundary(|st.committed|, max) <= MAX_ARRAY_BYTES)
      && (f.result.Failure? ==> f.result.error.DeviceError? || f.result.error == Corrupted(ExceedsCap))
      && (f.result == Failure(Corrupted(ExceedsCap)) ==> LastBoundary(|st.committed|, max) > MAX_ARRAY_BYTES)
    decreases MAX_ARRAY_BYTES - |out|
  {
    hide StorageAfter, Compliant, PermittedAt, Permitted, LastBoundary;
    var stored := StorageAfter(answers, initial, h).committed;
    var h' := h + [NewGet(|out|, max)];
    GetAnswered(c, p, answers, initial, h, |out|, max);
    if answers(h').Config? {
      var chunk := Chunk(answers(h'));
      StoredChunk(stored, out, max, chunk);
      if |chunk| < max {
        BoundaryOf(|out|, max, |chunk|);
      } else {
        BoundaryStep(|out|, max, |stored|);
        if |out + chunk| <= MAX_ARRAY_BYTES {
          FetchExact(c, p, answers, initial, h', max, out + chunk);
        }
      }
    }
  }

  /** A `get` changes nothing, and is answered with what is stored from its offset on. */
  lemma GetAnswered(c: Crypto, p: Policy, answers: Answers, initial: Storage, h: seq<Request>, offset: nat, max: Fragment)
    requires Compliant(c, p, answers, initial)
    ensures var st, h' := StorageAfter(answers, initial, h), h + [NewGet(offset, max)];
      && StorageAfter(answers, initial, h') == st
      && (answers(h').Config? ==>
            offset <= |st.committed| && Chunk(answers(h')) == st.committed[offset..Min(offset + max, |st.committed|)])
  {
    hide StorageAfter, Compliant, PermittedAt, Acceptable, Applied;
    AfterOneMore(c, p, answers, initial, h, NewGet(offset, max));
  }

  lemma StoredChunk(stored: seq<byte>, out: seq<byte>, max: Fragment, chunk: seq<byte>)
    requires out <= stored && chunk == stored[|out|..Min(|out| + max, |stored|)]
    ensures |chunk| <= max && out + chunk <= stored
    ensures |chunk| < max ==> out + chunk == stored
    ensures |chunk| == max ==> |out| + max <= |stored|
  {
  }

  /** The last fragment boundary in an array of `len` bytes. */
  function LastBoundary(len: nat, max: Fragment): nat {
    len / max * max
  }

  lemma BoundaryOf(full: nat, max: Fragment, rest: nat)
    requires full % max == 0 && rest < max
    ensures LastBoundary(full + rest, max) == full
  {
    assert full == full / max * max;
    Remainder(full + rest, full / max, max, rest);
    assert full + rest == (full + rest) / max * max + rest;
  }

  lemma BoundaryStep(full: nat, max: Fragment, len: nat)
    requires full % max == 0 && full + max <= len
    ensures (full + max) % max == 0
    ensures full + max <= LastBoundary(len, max)
  {
    assert full == full / max * max;
    Remainder(full + max, full / max + 1, max, 0);
    Quotient(full / max + 1, max, len);
    var gap := len / max - (full / max + 1);
    assert gap * max >= 0;
  }

  // ---------------------------------------------------------------------------
  // Upload
  // ---------------------------------------------------------------------------

  /** How a chunk is authenticated, given its offset. */
  type Signer = (nat, seq<byte>) -> Option<Auth>

  /** `pinUvAuthParam` of a chunk, over 32 0xff bytes, the command code, the offset and the chunk's hash. */
  function ChunkSigner(c: Crypto, auth: Option<Credential>): Signer {
    (offset: nat, chunk: seq<byte>) =>
      match auth
      case None => None
      case Some(cred) =>
        var message := seq(32, _ => 0xff) + [0x0c, 0x00] + LittleEndian(offset, 4) + c.sha256(chunk);
        Some(Auth(c.authenticate(cred.version, cred.token, message), cred.version))
  }

  function ChunkAt(s: seq<byte>, offset: nat, max: Fragment): (chunk: seq<byte>)
    requires offset < |s|
    ensures 1 <= |chunk| <= max
  {
    s[offset..Min(offset + max, |s|)]
  }

  /** The request that carries the chunk at `offset`; only the one at offset 0 announces the total length. */
  function ChunkRequest(s: seq<byte>, offset: nat, max: Fragment, sign: Signer): Request
    requires offset < |s|
  {
    var chunk := ChunkAt(s, offset, max);
    var param := sign(offset, chunk);
    if offset == 0 then NewSetFirst(chunk, |s|, param) else NewSetContinuation(chunk, offset, param)
  }

  /** The requests that upload `s` from `offset` on. */
  function Plan(s: seq<byte>, offset: nat, max: Fragment, sign: Signer): seq<Request>
    requires offset <= |s|
    decreases |s| - offset
  {
    if offset == |s| then []
    else [ChunkRequest(s, offset, max, sign)] + Plan(s, offset + |ChunkAt(s, offset, max)|, max, sign)
  }

  lemma PlanStep(answers: Answers, h: seq<Request>, s: seq<byte>, offset: nat, max: Fragment, sign: Signer)
    requires offset < |s|
    ensures var plan, q, end := Plan(s, offset, max, sign), ChunkRequest(s, offset, max, sign), offset + |ChunkAt(s, offset, max)|;
      && |plan| > 0 && plan[0] == q && plan[1..] == Plan(s, end, max, sign)
      && Deliver(answers, h, plan) == (if answers(h + [q]).Config? then Deliver(answers, h + [q], Plan(s, end, max, sign))
                                       else Delivered(Failure(DeviceError(answers(h + [q]))), h + [q]))
  {
  }

  datatype Delivered = Delivered(result: Result<(), BlobError>, sent: seq<Request>)

  /** Sending a plan, stopping at the first request the device does not accept. */
  function Deliver(answers: Answers, h: seq<Request>, plan: seq<Request>): Delivered
    decreases |plan|
  {
    if plan == [] then Delivered(Success(()), h) else
    var h' := h + [plan[0]];
    var a := answers(h');
    if a.Config? then Deliver(answers, h', plan[1..]) else Delivered(Failure(DeviceError(a)), h')
  }

  /** Why an array is refused before anything is sent. */
  function UploadRefusal(s: seq<byte>): Option<Corruption> {
    if |s| >= U32 then Some(TooLongForU32)
    else if |s| < 17 then Some(BelowMinimum)
    else if |s| > MAX_ARRAY_BYTES then Some(ExceedsCap)
    else None
  }

  method UploadSerializedArray(d: Device, c: Crypto, s: seq<byte>, max: Fragment, auth: Option<Credential>)
    returns (r: Result<(), BlobError>)
    modifies d
    ensures match UploadRefusal(s)
            case Some(why) => r == Failure(Corrupted(why)) && d.sent == old(d.sent)
            case None => Delivered(r, d.sent) == Deliver(d.answers, old(d.sent), Plan(s, 0, max, ChunkSigner(c, auth)))
  {
    hide Deliver, Plan;
    if |s| >= U32 { return Failure(Corrupted(TooLongForU32)); }
    var total := |s|;
    if total < 17 { return Failure(Corrupted(BelowMinimum)); }
    if total > MAX_ARRAY_BYTES { return Failure(Corrupted(ExceedsCap)); }
    var offset := 0;
    var sign := ChunkSigner(c, auth);
    r := Success(());
    ghost var goal := Deliver(d.answers, d.sent, Plan(s, 0, max, sign));
    while offset < |s|
      invariant offset <= |s| && r.Success?
      invariant Deliver(d.answers, d.sent, Plan(s, offset, max, sign)) == goal
    {
      var end := if offset + max < |s| then offset + max else |s|;
      var chunk := s[offset..end];
      assert chunk == ChunkAt(s, offset, max);
      var param := sign(offset, chunk);
      var q := if offset == 0 then NewSetFirst(chunk, total, param) else NewSetContinuation(chunk, offset, param);
      assert q == ChunkRequest(s, offset, max, sign);
      PlanStep(d.answers, d.sent, s, offset, max, sign);
      var a := d.LargeBlobs(q);
      if !a.Config? {
        return Failure(DeviceError(a));
      }
      offset := end;
    }
    PlanEnds(d.answers, d.sent, s, max, sign);
  }

  /** The plan cuts `s` into ceil(|s|/max) chunks … */
  lemma {:induction false} PlanLength(s: seq<byte>, offset: nat, max: Fragment, sign: Signer)
    requires offset <= |s|
    ensures |Plan(s, offset, max, sign)| == (|s| - offset + max - 1) / max
    decreases |s| - offset
  {
    var left := |s| - offset;
    if left == 0 {
      SmallQuotient(max - 1, max);
    } else {
      OneMore(left - 1, max);
      var end := offset + |ChunkAt(s, offset, max)|;
      PlanLength(s, end, max, sign);
      if left < max {
        SmallQuotient(left - 1, max);
        SmallQuotient(max - 1, max);
      }
    }
  }

  /** … at consecutive offsets. */
  lemma {:induction false} PlanAt(s: seq<byte>, offset: nat, max: Fragment, sign: Signer, i: nat)
    requires offset <= |s| && i < |Plan(s, offset, max, sign)|
    ensures offset + i * max < |s|
    ensures Plan(s, offset, max, sign)[i] == ChunkRequest(s, offset + i * max, max, sign)
    decreases i
  {
    if i > 0 {
      FullChunk(s, offset, max, sign);
      PlanAt(s, offset + max, max, sign, i - 1);
      Times(offset, i, max);
    }
  }

  lemma FullChunk(s: seq<byte>, offset: nat, max: Fragment, sign: Signer)
    requires offset <= |s| && |Plan(s, offset, max, sign)| > 1
    ensures offset + max < |s| && |ChunkAt(s, offset, max)| == max
    ensures Plan(s, offset, max, sign)[1..] == Plan(s, offset + max, max, sign)
  {
    var end := offset + |ChunkAt(s, offset, max)|;
    assert Plan(s, end, max, sign) != [];
  }

  lemma Times(offset: nat, i: nat, max: nat)
    requires i > 0
    ensures offset + max + (i - 1) * max == offset + i * max
  {
  }

  lemma SmallQuotient(n: nat, m: nat)
    requires n < m
    ensures n / m == 0
  {
    var q := n / m;
    assert n == q * m + n % m;
    AtLeast(q, m);
  }

  lemma OneMore(n: nat, m: nat)
    requires m > 0
    ensures (n + m) / m == n / m + 1
  {
    assert n == n / m * m + n % m;
    Remainder(n + m, n / m + 1, m, n % m);
    var d := (n + m) / m - (n / m + 1);
    assert (n + m) / m * m == n / m * m + m;
    assert d * m == 0;
    Apart(d, m, 0);
  }

  /** On a compliant device an upload is one atomic write: it succeeds and the device then stores exactly `s`, or it
      fails and the device stores what it stored before or, only if the last exchange was lost after the device had acted,
      `s`. */
  lemma {:induction false} UploadAtomic(c: Crypto, p: Policy, answers: Answers, initial: Storage, h: seq<Request>,
                                        s: seq<byte>, offset: nat, max: Fragment, sign: Signer)
    requires Compliant(c, p, answers, initial) && offset < |s|
    requires offset > 0 ==>
               StorageAfter(answers, initial, h).pending == s[..offset] && StorageAfter(answers, initial, h).expected == |s|
    ensures var before := StorageAfter(answers, initial, h).committed;
            var sent := Deliver(answers, h, Plan(s, offset, max, sign));
            var after := StorageAfter(answers, initial, sent.sent).committed;
      && (sent.result.Success? ==> after == s)
      && (sent.result.Failure? ==> after == before || (after == s && sent.result == Failure(DeviceError(Lost(true)))))
    decreases |s| - offset
  {
    hide StorageAfter, Compliant, PermittedAt, Acceptable, Plan, Deliver, TrailerHolds;
    var q, end := ChunkRequest(s, offset, max, sign), offset + |ChunkAt(s, offset, max)|;
    PlanStep(answers, h, s, offset, max, sign);
    AfterOneMore(c, p, answers, initial, h, q);
    var st, h' := StorageAfter(answers, initial, h), h + [q];
    ChunkReceived(st, s, offset, max, sign);
    if answers(h').Config? {
      if end < |s| {
        UploadAtomic(c, p, answers, initial, h', s, end, max, sign);
      } else {
        PlanEnds(answers, h', s, max, sign);
      }
    }
  }

  lemma PlanEnds(answers: Answers, h: seq<Request>, s: seq<byte>, max: Fragment, sign: Signer)
    ensures Plan(s, |s|, max, sign) == []
    ensures Deliver(answers, h, Plan(s, |s|, max, sign)) == Delivered(Success(()), h)
  {
  }

  lemma ChunkReceived(st: Storage, s: seq<byte>, offset: nat, max: Fragment, sign: Signer)
    requires offset < |s|
    requires offset > 0 ==> st.pending == s[..offset] && st.expected == |s|
    ensures var q, end := ChunkRequest(s, offset, max, sign), offset + |ChunkAt(s, offset, max)|;
      && Received(st, q) == s[..end] && Announced(st, q) == |s|
      && Applied(st, q) == (if end == |s| then Storage(s, [], 0) else Storage(st.committed, s[..end], |s|))
  {
    assert s[..|s|] == s;
  }

  /** What signs a chunk is what the device recomputes. */
  lemma SignerAgrees(c: Crypto, p: Policy, cred: Credential, offset: nat, q: Request)
    requires p.protection == Some(cred) && q.set_.Some? && q.offset == offset
    requires q.auth == ChunkSigner(c, Some(cred))(offset, q.set_.value)
    ensures Authorized(c, p, q)
  {
    FourLittleEndian(offset);
  }

  /** The upload keeps to what the device insists on: it fits, in fragments that fit, and is authenticated with its token. */
  predicate Respects(p: Policy, len: nat, max: Fragment, auth: Option<Credential>) {
    Within(len, p.capacity) && Within(max, p.fragment) && (p.protection.Some? ==> auth == p.protection)
  }

  /** The platform never sends a chunk that a compliant device has to refuse … */
  lemma ChunkAcceptable(c: Crypto, p: Policy, st: Storage, s: seq<byte>, offset: nat, max: Fragment, auth: Option<Credential>)
    requires TrailerHolds(c, s) && |s| >= 17 && offset < |s| && Respects(p, |s|, max, auth)
    requires offset > 0 ==> st.pending == s[..offset] && st.expected == |s|
    ensures Acceptable(c, p, st, ChunkRequest(s, offset, max, ChunkSigner(c, auth)))
  {
    hide ChunkSigner, Authorized, TrailerHolds;
    var sign := ChunkSigner(c, auth);
    ChunkReceived(st, s, offset, max, sign);
    assert s[..|s|] == s;
    if p.protection.Some? {
      SignerAgrees(c, p, p.protection.value, offset, ChunkRequest(s, offset, max, sign));
    } else {
      Unprotected(c, p, ChunkRequest(s, offset, max, sign));
    }
  }

  lemma Unprotected(c: Crypto, p: Policy, q: Request)
    requires p.protection.None? && q.set_.Some?
    ensures Authorized(c, p, q)
  {
  }

  /** … so against a compliant device that refuses only what it has to, an upload succeeds. */
  lemma {:induction false} UploadSucceeds(c: Crypto, p: Policy, answers: Answers, initial: Storage, h: seq<Request>,
                                          s: seq<byte>, offset: nat, max: Fragment, auth: Option<Credential>)
    requires Compliant(c, p, answers, initial) && Obedient(c, p, answers, initial)
    requires TrailerHolds(c, s) && |s| >= 17 && offset < |s| && Respects(p, |s|, max, auth)
    requires offset > 0 ==>
               StorageAfter(answers, initial, h).pending == s[..offset] && StorageAfter(answers, initial, h).expected == |s|
    ensures Deliver(answers, h, Plan(s, offset, max, ChunkSigner(c, auth))).result.Success?
    decreases |s| - offset
  {
    hide StorageAfter, Compliant, Obedient, Acceptable, Plan, Deliver, TrailerHolds, ChunkSigner, Respects;
    var sign := ChunkSigner(c, auth);
    var q, end := ChunkRequest(s, offset, max, sign), offset + |ChunkAt(s, offset, max)|;
    PlanStep(answers, h, s, offset, max, sign);
    AfterOneMore(c, p, answers, initial, h, q);
    var st, h' := StorageAfter(answers, initial, h), h + [q];
    ChunkReceived(st, s, offset, max, sign);
    ChunkAcceptable(c, p, st, s, offset, max, auth);
    if end < |s| {
      UploadSucceeds(c, p, answers, initial, h', s, end, max, auth);
    } else {
      PlanEnds(answers, h', s, max, sign);
    }
  }

  /** An array that is too large for the device, or goes in fragments that are, is never stored: the first chunk has to be
      refused. */
  lemma UploadTooLarge(c: Crypto, p: Policy, answers: Answers, initial: Storage, h: seq<Request>,
                       s: seq<byte>, max: Fragment, sign: Signer)
    requires Compliant(c, p, answers, initial) && s != []
    requires !Within(|s|, p.capacity) || !Within(Min(max, |s|), p.fragment)
    ensures var sent := Deliver(answers, h, Plan(s, 0, max, sign));
      sent.result.Failure? && StorageAfter(answers, initial, sent.sent).committed == StorageAfter(answers, initial, h).committed
  {
    hide StorageAfter, Compliant, Plan, Deliver, TrailerHolds, Authorized;
    PlanStep(answers, h, s, 0, max, sign);
    AfterOneMore(c, p, answers, initial, h, ChunkRequest(s, 0, max, sign));
  }

  /** Such a device answers every request of a fetch. */
  lemma {:induction false} FetchAnswered(c: Crypto, p: Policy, answers: Answers, initial: Storage, h: seq<Request>, max: Fragment, out: seq<byte>)
    requires Compliant(c, p, answers, initial) && Obedient(c, p, answers, initial) && Within(max, p.fragment)
    requires |out| <= MAX_ARRAY_BYTES && out <= StorageAfter(answers, initial, h).committed
    ensures Fetch(answers, h, max, out).result.Failure? ==>
              Fetch(answers, h, max, out).result.error == Corrupted(ExceedsCap)
    decreases MAX_ARRAY_BYTES - |out|
  {
    hide StorageAfter, Compliant, Obedient, Acceptable, Applied;
    var st := StorageAfter(answers, initial, h);
    var h' := h + [NewGet(|out|, max)];
    AfterOneMore(c, p, answers, initial, h, NewGet(|out|, max));
    var a := answers(h');
    var chunk := match a.config case Some(bytes) => bytes case None => [];
    StoredChunk(st.committed, out, max, chunk);
    if |chunk| >= max && |out + chunk| <= MAX_ARRAY_BYTES {
      FetchAnswered(c, p, answers, initial, h', max, out + chunk);
    }
  }

  /** What reaches the device is the plan, or the plan cut after the first request that was not accepted. */
  lemma {:induction false} DeliverPrefix(answers: Answers, h: seq<Request>, plan: seq<Request>)
    ensures var d := Deliver(answers, h, plan);
      && h <= d.sent <= h + plan
      && (d.result.Success? ==> d.sent == h + plan)
      && (d.result.Failure? ==> !answers(d.sent).Config? && d.result == Failure(DeviceError(answers(d.sent))))
    decreases |plan|
  {
    if plan != [] {
      var h' := h + [plan[0]];
      DeliverPrefix(answers, h', plan[1..]);
      assert h' + plan[1..] == h + plan;
    }
  }
}
