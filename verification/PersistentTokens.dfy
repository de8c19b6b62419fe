/** Tokens kept across sessions, and recognizing which of them belongs to a connected authenticator. */
module PersistentTokens {
  import opened Wrappers
  import opened Bytes
  import opened AuthenticatorInfo

  type RecordId = nat

  type Identifier = s: seq<byte> | |s| == 16 witness seq(16, _ => 0)

  datatype Record = Record(token: seq<byte>, protocol: Protocol, device: Identifier, aaguid: Identifier)

  type Records = map<RecordId, Record>

  /** One block of AES-128-CBC under the key derived from a token: decryption, given the initialization vector. */
  type IdentifierCipher = (seq<byte>, seq<byte>, seq<byte>) -> Identifier

  function DecryptEncIdentifier(c: IdentifierCipher, token: seq<byte>, enc: seq<byte>): Result<Identifier, UvError> {
    if |enc| != 32 then Failure(InvalidDeviceResponse) else Success(c(token, enc[..16], enc[16..]))
  }

  /** Whether a record's token recovers the record's identifier from what the device sent. */
  predicate Recognizes(c: IdentifierCipher, r: Record, info: Info) {
    info.encIdentifier.Some? && DecryptEncIdentifier(c, r.token, info.encIdentifier.value) == Success(r.device)
  }

  /** `l` lists every record once, in some order. */
  ghost predicate Lists(l: seq<(RecordId, Record)>, records: Records) {
    && (forall i :: 0 <= i < |l| ==> l[i].0 in records && records[l[i].0] == l[i].1)
    && (forall id :: id in records ==> exists i :: 0 <= i < |l| && l[i].0 == id)
  }

  // ---------------------------------------------------------------------------
  // The store's contents as a value
  // ---------------------------------------------------------------------------

  predicate OnePerDevice(records: Records) {
    forall i, j :: i in records && j in records && records[i].device == records[j].device ==> i == j
  }

  function Without(records: Records, id: RecordId): Records {
    map k | k in records && k != id :: records[k]
  }

  function Reaped(records: Records, device: Identifier): Records {
    map k | k in records && records[k].device != device :: records[k]
  }

  /** A fresh record in place of all those for its device. */
  function Minted(records: Records, id: RecordId, r: Record): Records {
    Reaped(records, r.device)[id := r]
  }

  /** What can happen to a store: a mint, the eviction of a rejected record, and a PIN change or reset, which evicts the
      record recognized beforehand, if any, once the device has reported success. */
  datatype StoreEvent = Mint(id: RecordId, record: Record) | Evict(id: RecordId) | Invalidate(recognized: Option<RecordId>, deviceOk: bool)

  function Next(records: Records, e: StoreEvent): Records {
    match e
    case Mint(id, r) => Minted(records, id, r)
    case Evict(id) => Without(records, id)
    case Invalidate(recognized, ok) => if ok && recognized.Some? then Without(records, recognized.value) else records
  }

  function History(events: seq<StoreEvent>): Records {
    if events == [] then map[] else Next(History(events[..|events| - 1]), events[|events| - 1])
  }

  /** At most one record per device, over every interleaving from an empty store, and every record is as it was minted. */
  lemma {:induction false} StoreInvariant(events: seq<StoreEvent>)
    ensures OnePerDevice(History(events))
    ensures forall id :: id in History(events) ==>
              exists i :: 0 <= i < |events| && events[i] == Mint(id, History(events)[id])
  {
    if events != [] {
      var front, e := events[..|events| - 1], events[|events| - 1];
      StoreInvariant(front);
      var before, after := History(front), History(events);
      forall id | id in after ensures exists i :: 0 <= i < |events| && events[i] == Mint(id, after[id]) {
        if e.Mint? && id == e.id {
          assert events[|events| - 1] == Mint(id, after[id]);
        } else {
          assert id in before && before[id] == after[id];
          var i :| 0 <= i < |front| && front[i] == Mint(id, before[id]);
          assert events[i] == Mint(id, after[id]);
        }
      }
    }
  }

  /** Record ids are drawn at random; they are assumed never to repeat. */
  ghost predicate FreshIds(events: seq<StoreEvent>) {
    forall i, j :: 0 <= i < j < |events| && events[i].Mint? && events[j].Mint? ==> events[i].id != events[j].id
  }

  /** What may remove a record: its eviction, a PIN change or reset that recognized it and that the device confirmed, or a
      mint for the same device. */
  predicate Removes(e: StoreEvent, id: RecordId, r: Record) {
    match e
    case Mint(_, minted) => minted.device == r.device
    case Evict(evicted) => evicted == id
    case Invalidate(recognized, ok) => ok && recognized == Some(id)
  }

  /** A record stays exactly as long as nothing removes it, whatever happens to other devices' records. */
  lemma {:induction false} SurvivesIff(events: seq<StoreEvent>, more: seq<StoreEvent>, id: RecordId)
    requires FreshIds(events + more) && id in History(events)
    ensures var r := History(events)[id];
            (id in History(events + more) && History(events + more)[id] == r) <==> forall e | e in more :: !Removes(e, id, r)
    decreases |more|
  {
    hide Next, Removes, OnePerDevice;
    var r := History(events)[id];
    if more == [] {
      assert events + more == events;
    } else {
      var front, e, all := more[..|more| - 1], more[|more| - 1], events + more;
      assert all[..|all| - 1] == events + front && all[|all| - 1] == e;
      assert forall x :: x in more <==> x in front || x == e;
      assert FreshIds(events + front) by {
        assert forall i :: 0 <= i < |events + front| ==> (events + front)[i] == all[i];
      }
      SurvivesIff(events, front, id);
      StoreInvariant(events);
      var i :| 0 <= i < |events| && events[i] == Mint(id, r);
      assert all[i] == Mint(id, r) && (e.Mint? ==> e.id != id);
      OneEvent(History(events + front), e, id, r);
    }
  }

  lemma OneEvent(records: Records, e: StoreEvent, id: RecordId, r: Record)
    requires e.Mint? ==> e.id != id
    ensures (id in Next(records, e) && Next(records, e)[id] == r) <==> (id in records && records[id] == r && !Removes(e, id, r))
  {
  }

  /** Minting leaves exactly one record for its device, the fresh one, and every other device's records as they were. */
  lemma MintReplaces(records: Records, id: RecordId, r: Record)
    requires id !in records
    ensures var after := Minted(records, id, r);
      && (forall k :: k in after && after[k].device == r.device <==> k == id)
      && (forall k :: k in after && after[k].device != r.device <==> k in records && records[k].device != r.device)
      && (forall k :: k in records && records[k].device != r.device ==> after[k] == records[k])
      && after[id] == r
  {
  }

  // ---------------------------------------------------------------------------
  // Recognition under an ideal cipher
  // ---------------------------------------------------------------------------

  /** `enc` is what a device with this token and identifier sends. */
  ghost predicate Sends(c: IdentifierCipher, token: seq<byte>, device: Identifier, enc: seq<byte>) {
    |enc| == 32 && c(token, enc[..16], enc[16..]) == device
  }

  /** No other token makes sense of what a device sends: it recovers no identifier of any device that exists. */
  ghost predicate Ideal(c: IdentifierCipher, devices: set<Identifier>) {
    forall token, other, enc, device: Identifier ::
      device in devices && Sends(c, token, device, enc) && other != token ==> c(other, enc[..16], enc[16..]) !in devices
  }

  /** Recognition is sound and complete: a record is recognized exactly when it holds the device's current token and its
      identifier. */
  lemma RecognizedIff(c: IdentifierCipher, devices: set<Identifier>, r: Record, info: Info, token: seq<byte>, device: Identifier)
    requires Ideal(c, devices) && device in devices && r.device in devices
    requires info.encIdentifier.Some? && Sends(c, token, device, info.encIdentifier.value)
    ensures Recognizes(c, r, info) <==> r.token == token && r.device == device
  {
    var enc := info.encIdentifier.value;
    if r.token != token {
      assert c(r.token, enc[..16], enc[16..]) !in devices;
    }
  }

  /** With one record per device, whichever record a search finds is the only one it could have found. */
  lemma RecognizedUnique(c: IdentifierCipher, devices: set<Identifier>, records: Records, info: Info,
                         token: seq<byte>, device: Identifier, i: RecordId, j: RecordId)
    requires Ideal(c, devices) && device in devices && OnePerDevice(records)
    requires forall k :: k in records ==> records[k].device in devices
    requires info.encIdentifier.Some? && Sends(c, token, device, info.encIdentifier.value)
    requires i in records && j in records && Recognizes(c, records[i], info) && Recognizes(c, records[j], info)
    ensures i == j
  {
    RecognizedIff(c, devices, records[i], info, token, device);
    RecognizedIff(c, devices, records[j], info, token, device);
  }

  /** After a PIN change made elsewhere the device has a new token and the same identifier: its record is not recognized
      any more, and the next mint leaves the fresh record as the only one for the device, and recognized. */
  lemma PinChangedElsewhere(c: IdentifierCipher, devices: set<Identifier>, records: Records, info: Info,
                            token: seq<byte>, device: Identifier, id: RecordId, r: Record)
    requires Ideal(c, devices) && device in devices && id !in records
    requires forall k :: k in records ==> records[k].device in devices && records[k].token != token
    requires info.encIdentifier.Some? && Sends(c, token, device, info.encIdentifier.value)
    requires r.token == token && DecryptEncIdentifier(c, token, info.encIdentifier.value) == Success(r.device)
    ensures forall k :: k in records ==> !Recognizes(c, records[k], info)
    ensures r.device == device
    ensures var after := Minted(records, id, r);
            forall k :: k in after ==> (after[k].device == device <==> k == id) && (Recognizes(c, after[k], info) <==> k == id)
  {
    forall k | k in records ensures !Recognizes(c, records[k], info) {
      RecognizedIff(c, devices, records[k], info, token, device);
    }
  }

  /** Such ciphers exist, as long as some identifier belongs to no device: one that recovers the second block when the
      first one is the token, and the unused identifier otherwise. Every device can then be sent for. */
  lemma IdealCipherExists(devices: set<Identifier>, unused: Identifier) returns (c: IdentifierCipher)
    requires unused !in devices
    ensures Ideal(c, devices)
    ensures forall token: Identifier, device :: Sends(c, token, device, token + device)
  {
    c := (token: seq<byte>, iv: seq<byte>, ct: seq<byte>) => if token == iv && |ct| == 16 then ct else unused;
    forall token: Identifier, device: Identifier ensures Sends(c, token, device, token + device) {
      assert (token + device)[..16] == token && (token + device)[16..] == device;
    }
  }

  // ---------------------------------------------------------------------------
  // The store
  // ---------------------------------------------------------------------------

  /** A store of records. An embedder's store may fail to delete, which `deletes` records. */
  class TokenStore {
    var records: Records
    var nextId: RecordId
    const deletes: bool

    /** Ids not handed out yet are fresh, and in a store that deletes what it is told to, no device has two records. */
    ghost predicate Valid()
      reads this
    {
      (forall id :: id in records ==> id < nextId) && (deletes ==> OnePerDevice(records))
    }

    constructor (deletes: bool)
      ensures Valid() && records == map[] && this.deletes == deletes
    {
      records, nextId := map[], 0;
      this.deletes := deletes;
    }

    method List() returns (l: seq<(RecordId, Record)>)
      ensures Lists(l, records)
    {
      l := [];
      var left := records.Keys;
      while left != {}
        invariant left <= records.Keys
        invariant forall i :: 0 <= i < |l| ==> l[i].0 in records && records[l[i].0] == l[i].1
        invariant forall id :: id in records && id !in left ==> exists i :: 0 <= i < |l| && l[i].0 == id
        decreases |left|
      {
        var id :| id in left;
        ghost var before := l;
        l := l + [(id, records[id])];
        assert l[|before|].0 == id && forall i :: 0 <= i < |before| ==> l[i] == before[i];
        left := left - {id};
      }
    }

    method Put(id: RecordId, r: Record)
      modifies this`records
      ensures records == old(records)[id := r]
    {
      records := records[id := r];
    }

    method Delete(id: RecordId)
      modifies this`records
      ensures records == if deletes then Without(old(records), id) else old(records)
      ensures old(Valid()) ==> Valid()
    {
      if deletes {
        records := Without(records, id);
      }
    }
  }

  /** The first record that recognizes the device, in whatever order the store lists them. */
  method RecognizeAuthenticator(store: TokenStore, c: IdentifierCipher, info: Info) returns (r: Option<(RecordId, Record)>)
    ensures r.Some? ==> r.value.0 in store.records && store.records[r.value.0] == r.value.1 && Recognizes(c, r.value.1, info)
    ensures r.None? ==> forall id :: id in store.records ==> !Recognizes(c, store.records[id], info)
  {
    if info.encIdentifier.None? { return None; }
    var l := store.List();
    var i := 0;
    while i < |l|
      invariant i <= |l|
      invariant forall j :: 0 <= j < i ==> !Recognizes(c, l[j].1, info)
    {
      var (id, record) := l[i];
      var device := DecryptEncIdentifier(c, record.token, info.encIdentifier.value);
      if device == Success(record.device) { return Some((id, record)); }
      i := i + 1;
    }
    r := None;
  }

  function WithoutAll(records: Records, ids: set<RecordId>): Records {
    map k | k in records && k !in ids :: records[k]
  }

  lemma OneMoreGone(records: Records, ids: set<RecordId>, id: RecordId)
    ensures Without(WithoutAll(records, ids), id) == WithoutAll(records, ids + {id})
  {
  }

  lemma AllGone(records: Records, ids: set<RecordId>, l: seq<(RecordId, Record)>, device: Identifier)
    requires Lists(l, records)
    requires forall id :: id in ids ==> id in records && records[id].device == device
    requires forall j :: 0 <= j < |l| && l[j].1.device == device ==> l[j].0 in ids
    ensures WithoutAll(records, ids) == Reaped(records, device)
  {
  }

  method ReapSupersededRecords(store: TokenStore, device: Identifier)
    requires store.Valid()
    modifies store`records
    ensures store.Valid()
    ensures store.records == if store.deletes then Reaped(old(store.records), device) else old(store.records)
  {
    hide WithoutAll, Without, Reaped, OnePerDevice;
    ghost var before, gone: set<RecordId> := store.records, {};
    var l := store.List();
    var i := 0;
    assert WithoutAll(before, {}) == before by { NoneGone(before); }
    while i < |l|
      invariant i <= |l| && store.Valid()
      invariant store.records == if store.deletes then WithoutAll(before, gone) else before
      invariant forall id :: id in gone ==> id in before && before[id].device == device
      invariant forall j :: 0 <= j < i && l[j].1.device == device ==> l[j].0 in gone
    {
      var (id, record) := l[i];
      if record.device == device {
        store.Delete(id);
        OneMoreGone(before, gone, id);
        gone := gone + {id};
      }
      i := i + 1;
    }
    AllGone(before, gone, l, device);
  }

  lemma NoneGone(records: Records)
    ensures WithoutAll(records, {}) == records
  {
  }

  /** Keep a freshly minted token for the device that sent `info`, in place of any record for the same device. */
  method StoreMintedToken(store: TokenStore, c: IdentifierCipher, info: Info, token: seq<byte>, protocol: Protocol)
    returns (r: Result<RecordId, UvError>)
    requires store.Valid()
    modifies store
    ensures store.Valid()
    ensures r.Failure? ==> store.records == old(store.records)
    ensures r.Success? <==> info.encIdentifier.Some? && |info.encIdentifier.value| == 32 && |info.aaguid| == 16
    ensures r.Success? ==>
      var device := DecryptEncIdentifier(c, token, info.encIdentifier.value).value;
      var record := Record(token, protocol, device, info.aaguid);
      && r.value !in old(store.records)
      && store.records == (if store.deletes then Minted(old(store.records), r.value, record)
                           else old(store.records)[r.value := record])
  {
    if info.encIdentifier.None? { return Failure(InvalidDeviceResponse); }
    var device := DecryptEncIdentifier(c, token, info.encIdentifier.value);
    if device.Failure? { return Failure(device.error); }
    if |info.aaguid| != 16 { return Failure(InvalidDeviceResponse); }
    ReapSupersededRecords(store, device.value);
    var id := store.nextId;
    store.nextId := id + 1;
    store.Put(id, Record(token, protocol, device.value, info.aaguid));
    r := Success(id);
  }
}
