/**
 The authenticator's side of `authenticatorLargeBlobs`, and the cryptography both sides rely on.

 A device is anything that answers requests: an arbitrary function of the requests sent so far. A compliant
 device is one whose answers an authenticator following section 6.10.2 of CTAP 2.2 could give.
 */
module LargeBlobDevice {
  import opened Wrappers
  import opened Bytes

  type Digest = d: seq<byte> | |d| == 32 witness seq(32, _ => 0)

  type BlobKey = k: seq<byte> | |k| == 32 witness seq(32, _ => 0)

  const HASH_LEN: nat := 16
  const NONCE_LEN: nat := 12

  /** Cap on one blob, and on the whole array. */
  const MAX_ORIG_SIZE: nat := 1024 * 1024
  const MAX_ARRAY_BYTES: nat := 4 * 1024 * 1024

  /** Library cryptography: AES-256-GCM, raw deflate, SHA-256, and the PIN/UV protocol's `authenticate`. */
  datatype Crypto = Crypto(
    sha256: seq<byte> -> Digest,
    seal: (BlobKey, seq<byte>, seq<byte>, seq<byte>) -> seq<byte>,
    open: (BlobKey, seq<byte>, seq<byte>, seq<byte>) -> Option<seq<byte>>,
    deflate: seq<byte> -> seq<byte>,
    // the first bytes of the inflated stream, at most as many as asked for; None if the stream breaks before that
    inflate: (seq<byte>, nat) -> Option<seq<byte>>,
    authenticate: (nat, seq<byte>, seq<byte>) -> seq<byte>
  )

  /** What the proofs assume of the cryptography. */
  ghost predicate Ideal(c: Crypto) {
    && (forall k, n, ad, p :: c.open(k, n, ad, c.seal(k, n, ad, p)) == Some(p))
    && (forall k, k', n, ad, ct :: c.open(k, n, ad, ct).Some? && c.open(k', n, ad, ct).Some? ==> k == k')
    && (forall p, limit: nat :: c.inflate(c.deflate(p), limit) == Some(if |p| <= limit then p else p[..limit]))
    && (forall k, n, ad, p :: |p| <= MAX_ORIG_SIZE ==> |c.seal(k, n, ad, c.deflate(p))| < 0x1_0000_0000)
  }

  /** The assumptions are consistent: a toy cipher that writes its key in front meets them. */
  lemma IdealCryptoExists() returns (c: Crypto)
    ensures Ideal(c)
  {
    c := Crypto(
      (s: seq<byte>) => seq(32, _ => 0),
      (k: BlobKey, n: seq<byte>, ad: seq<byte>, p: seq<byte>) => k + p,
      (k: BlobKey, n: seq<byte>, ad: seq<byte>, ct: seq<byte>) =>
        if |ct| >= 32 && ct[..32] == k then Some(ct[32..]) else None,
      (p: seq<byte>) => p,
      (p: seq<byte>, limit: nat) => Some(if |p| <= limit then p else p[..limit]),
      (v: nat, t: seq<byte>, m: seq<byte>) => m
    );
    forall k: BlobKey, p: seq<byte> ensures (k + p)[..32] == k && (k + p)[32..] == p {}
  }

  /** The trailer that closes a serialized array: the first half of its hash. */
  function Trailer(c: Crypto, data: seq<byte>): (t: seq<byte>)
    ensures |t| == HASH_LEN
  {
    c.sha256(data)[..HASH_LEN]
  }

  predicate TrailerHolds(c: Crypto, s: seq<byte>) {
    |s| >= HASH_LEN && Trailer(c, s[..|s| - HASH_LEN]) == s[|s| - HASH_LEN..]
  }

  // ---------------------------------------------------------------------------
  // Requests and answers
  // ---------------------------------------------------------------------------

  datatype Auth = Auth(param: seq<byte>, version: nat)

  datatype Request = Request(
    get: Option<nat>, set_: Option<seq<byte>>, offset: nat, length: Option<nat>, auth: Option<Auth>)

  function NewGet(offset: nat, length: nat): Request {
    Request(Some(length), None, offset, None, None)
  }

  function NewSetFirst(chunk: seq<byte>, total: nat, auth: Option<Auth>): Request {
    Request(None, Some(chunk), 0, Some(total), auth)
  }

  function NewSetContinuation(chunk: seq<byte>, offset: nat, auth: Option<Auth>): Request {
    Request(None, Some(chunk), offset, None, auth)
  }

  /** A device answers, refuses, or the exchange is lost, in which case it may or may not have acted on the request. */
  datatype Answer = Config(config: Option<seq<byte>>) | Refused(code: nat) | Lost(applied: bool)

  type Answers = seq<Request> -> Answer

  class Device {
    /** The answer to the last of the requests sent so far: an arbitrary adversary unless said otherwise. */
    const answers: Answers
    var sent: seq<Request>

    constructor (answers: Answers)
      ensures this.answers == answers && sent == []
    {
      this.answers := answers;
      sent := [];
    }

    method LargeBlobs(q: Request) returns (a: Answer)
      modifies this
      ensures sent == old(sent) + [q] && a == answers(sent)
    {
      sent := sent + [q];
      a := answers(sent);
    }
  }

  // ---------------------------------------------------------------------------
  // A compliant device (section 6.10.2 of CTAP 2.2)
  // ---------------------------------------------------------------------------

  /** A pinUvAuthToken, and the PIN/UV auth protocol it came by. */
  datatype Credential = Credential(token: seq<byte>, version: nat)

  /** What a device insists on besides: how many bytes it can store, how many it moves at a time, and the token that a `set`
      has to be authenticated with. */
  datatype Policy = Policy(capacity: Option<nat>, fragment: Option<nat>, protection: Option<Credential>)

  predicate Within(n: nat, limit: Option<nat>) {
    limit.Some? ==> n <= limit.value
  }

  /** The bytes that the `pinUvAuthParam` of a `set` has to authenticate: 32 times 0xff, the command and subcommand, the
      offset as an unsigned 32-bit little-endian number, and the hash of the chunk. */
  function ToAuthenticate(c: Crypto, offset: nat, chunk: seq<byte>): seq<byte> {
    seq(32, _ => 0xff) + [0x0c, 0x00]
    + [offset % 256, offset / 0x100 % 256, offset / 0x1_0000 % 256, offset / 0x100_0000 % 256]
    + c.sha256(chunk)
  }

  predicate Authorized(c: Crypto, p: Policy, q: Request)
    requires q.set_.Some?
  {
    match p.protection
    case None => true
    case Some(cred) =>
      q.auth == Some(Auth(c.authenticate(cred.version, cred.token, ToAuthenticate(c, q.offset, q.set_.value)), cred.version))
  }

  /** The stored array, and the array being received: its bytes so far and its announced length. */
  datatype Storage = Storage(committed: seq<byte>, pending: seq<byte>, expected: nat)

  /** Whether a `set` may be accepted: it is authenticated and within the limits, chunks arrive in order, the first
      announces the length, and a complete array carries a valid trailer. */
  predicate Acceptable(c: Crypto, p: Policy, st: Storage, q: Request) {
    && q.get.None? && q.set_.Some? && Authorized(c, p, q)
    && Within(|q.set_.value|, p.fragment) && Within(Announced(st, q), p.capacity)
    && (if q.offset == 0 then q.length.Some? && q.length.value >= 17
        else q.length.None? && q.offset == |st.pending|)
    && |Received(st, q)| <= Announced(st, q)
    && (|Received(st, q)| == Announced(st, q) ==> TrailerHolds(c, Received(st, q)))
  }

  function Received(st: Storage, q: Request): seq<byte>
    requires q.set_.Some?
  {
    if q.offset == 0 then q.set_.value else st.pending + q.set_.value
  }

  function Announced(st: Storage, q: Request): nat {
    if q.offset == 0 && q.length.Some? then q.length.value else st.expected
  }

  /** The storage after an accepted `set`. A complete array replaces the stored one. */
  function Applied(st: Storage, q: Request): Storage
    requires q.set_.Some?
  {
    var received, announced := Received(st, q), Announced(st, q);
    if |received| == announced then Storage(received, [], 0) else st.(pending := received, expected := announced)
  }

  /** Whether the device acted on a request that it answered with `a`. */
  predicate ActedOn(a: Answer) {
    a.Config? || (a.Lost? && a.applied)
  }

  function Step(st: Storage, q: Request, a: Answer): Storage {
    if q.set_.Some? && ActedOn(a) then Applied(st, q) else st
  }

  function StorageAfter(answers: Answers, initial: Storage, h: seq<Request>): Storage {
    if h == [] then initial
    else Step(StorageAfter(answers, initial, h[..|h| - 1]), h[|h| - 1], answers(h))
  }

  function Min(a: nat, b: nat): nat {
    if a < b then a else b
  }

  predicate Permitted(c: Crypto, p: Policy, st: Storage, q: Request, a: Answer) {
    && (q.set_.Some? && ActedOn(a) ==> Acceptable(c, p, st, q))
    && (q.get.Some? && a.Config? ==>
          && q.offset <= |st.committed| && Within(q.get.value, p.fragment)
          && (match a.config
              case Some(bytes) => bytes
              case None => []) == st.committed[q.offset..Min(q.offset + q.get.value, |st.committed|)])
  }

  predicate PermittedAt(c: Crypto, p: Policy, answers: Answers, initial: Storage, h: seq<Request>)
    requires h != []
  {
    Permitted(c, p, StorageAfter(answers, initial, h[..|h| - 1]), h[|h| - 1], answers(h))
  }

  ghost predicate Compliant(c: Crypto, p: Policy, answers: Answers, initial: Storage) {
    forall h :: h != [] ==> PermittedAt(c, p, answers, initial, h)
  }

  /** A device that accepts every `set` it may accept and answers every `get` within its array and its limit. */
  predicate Accommodating(c: Crypto, p: Policy, st: Storage, q: Request, a: Answer) {
    && (q.set_.Some? && Acceptable(c, p, st, q) ==> a.Config?)
    && (q.get.Some? && q.set_.None? && q.offset <= |st.committed| && Within(q.get.value, p.fragment) ==> a.Config?)
  }

  predicate AccommodatingAt(c: Crypto, p: Policy, answers: Answers, initial: Storage, h: seq<Request>)
    requires h != []
  {
    Accommodating(c, p, StorageAfter(answers, initial, h[..|h| - 1]), h[|h| - 1], answers(h))
  }

  ghost predicate Obedient(c: Crypto, p: Policy, answers: Answers, initial: Storage) {
    forall h :: h != [] ==> AccommodatingAt(c, p, answers, initial, h)
  }

  /** What a device that follows the specification to the letter answers, and the storage it reaches. */
  function Reply(c: Crypto, p: Policy, st: Storage, q: Request): Answer {
    if q.set_.Some? then (if Acceptable(c, p, st, q) && q.get.None? then Config(None) else Refused(1))
    else if q.get.Some? && q.offset <= |st.committed| && Within(q.get.value, p.fragment) then
      Config(Some(st.committed[q.offset..Min(q.offset + q.get.value, |st.committed|)]))
    else Refused(2)
  }

  function ReferenceStorage(c: Crypto, p: Policy, initial: Storage, h: seq<Request>): Storage {
    if h == [] then initial
    else
      var st := ReferenceStorage(c, p, initial, h[..|h| - 1]);
      Step(st, h[|h| - 1], Reply(c, p, st, h[|h| - 1]))
  }

  function ReferenceDevice(c: Crypto, p: Policy, initial: Storage): Answers {
    (h: seq<Request>) =>
      if h == [] then Refused(0) else Reply(c, p, ReferenceStorage(c, p, initial, h[..|h| - 1]), h[|h| - 1])
  }

  /** Compliant and obedient devices exist, whatever they store at first and insist on. */
  lemma ReferenceIsCompliant(c: Crypto, p: Policy, initial: Storage)
    ensures Compliant(c, p, ReferenceDevice(c, p, initial), initial) && Obedient(c, p, ReferenceDevice(c, p, initial), initial)
  {
    hide Acceptable, Applied, Within;
    var answers := ReferenceDevice(c, p, initial);
    forall h: seq<Request> | h != []
      ensures PermittedAt(c, p, answers, initial, h) && AccommodatingAt(c, p, answers, initial, h)
    {
      hide StorageAfter, ReferenceStorage, Step, Reply, Permitted, Accommodating;
      ReferenceStorageIs(c, p, initial, h[..|h| - 1]);
      ReplyComplies(c, p, ReferenceStorage(c, p, initial, h[..|h| - 1]), h[|h| - 1]);
    }
  }

  lemma ReplyComplies(c: Crypto, p: Policy, st: Storage, q: Request)
    ensures Permitted(c, p, st, q, Reply(c, p, st, q)) && Accommodating(c, p, st, q, Reply(c, p, st, q))
  {
    hide Authorized, Received, Announced, TrailerHolds, Within;
  }

  lemma {:induction false} ReferenceStorageIs(c: Crypto, p: Policy, initial: Storage, h: seq<Request>)
    ensures StorageAfter(ReferenceDevice(c, p, initial), initial, h) == ReferenceStorage(c, p, initial, h)
  {
    hide Reply, Step;
    if h != [] {
      ReferenceStorageIs(c, p, initial, h[..|h| - 1]);
    }
  }

  lemma AfterOneMore(c: Crypto, p: Policy, answers: Answers, initial: Storage, h: seq<Request>, q: Request)
    ensures StorageAfter(answers, initial, h + [q])
         == Step(StorageAfter(answers, initial, h), q, answers(h + [q]))
    ensures Compliant(c, p, answers, initial) ==>
              Permitted(c, p, StorageAfter(answers, initial, h), q, answers(h + [q]))
    ensures Obedient(c, p, answers, initial) ==>
              Accommodating(c, p, StorageAfter(answers, initial, h), q, answers(h + [q]))
  {
    var h' := h + [q];
    assert h'[..|h'| - 1] == h && h'[|h'| - 1] == q;
    assert Compliant(c, p, answers, initial) ==> PermittedAt(c, p, answers, initial, h');
    assert Obedient(c, p, answers, initial) ==> AccommodatingAt(c, p, answers, initial, h');
  }
}
