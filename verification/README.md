# Verified models of libwebauthn

This project models the parts of libwebauthn in which state, protocols and byte formats meet, and proves what they promise.
It is written for Dafny 4.11; `dafny verify dfyconfig.toml` checks all of it.

**Large blobs** (`Cbor`, `CborEncode`, `CborForms`, `ByteCursor`, `LargeBlob*`). One device-wide byte array behaves like a map
from key to blob: it is fetched in fragments, split into raw CBOR elements, rid of one key's elements, extended, and uploaded
in chunks (sections 6.10.2 and 6.10.3 of CTAP 2.2). `LargeBlobOperations` holds the laws over whole exchanges, and
`LargeBlobHistory` those over whole histories of them, built from the laws of the array (`LargeBlobMap`, `LargeBlobDepth`), of
the two chunked protocols (`LargeBlobTransfer`) and of CBOR items (section 3 of RFC 8949). `LargeBlobWire` spells the bytes
out: arrays as any platform writes them, what a read makes of them, and what a write or a delete over them uploads. A device
is an arbitrary function of the requests sent to it. A compliant one is a predicate on such functions, under a policy: a
capacity, a limit on fragments, and a token that uploads have to be authenticated with, each of which it may or may not insist
on. Exchanges may be lost before or after the device acted.

**User verification** (`AuthenticatorInfo`, `TokenCache`, `PersistentTokens`, `PinProtocols`, `UvRequest`, `UvChannel`,
`PinChange`, `UvTokenLoop`, `UvStubborn`, `UserVerification`, `UvPreflight`, `Ceremonies`). How the platform comes by a
pinUvAuthToken (section 6.5.5.7 of CTAP 2.3) and what ceremonies do with it. Device and user answer from an arbitrary script.
A ghost trace records everything that crossed the channel, with the kind of each request and what it carries, and marks where
the platform starts verifying the user for a request. `UvChannel.Safe` says what may be sent after what:

- a token is requested with the permissions and for the relying party of the request at hand (`UvChannel.TokenServes` says
  which these are), a persistent one only to read credentials, and the command that follows is that request;
- with a PIN, only if the device's latest description demands no PIN change and allows it for these permissions, and only
  with the PIN that the user has just entered under a key agreement made since;
- with built-in verification, only right after a presence prompt, and not if that was found blocked or is not for such requests;
- a credential is made or used only right after a presence prompt, or after the built-in verification that followed one.
  Preflight's silent assertions, which ask for neither presence nor verification, are commands of their own.

`Ceremonies.Session` proves this, the genuineness of the cached token, one record per device in the store, and an account of
every record that comes or goes (`UvChannel.Accounted`), for any ceremonies in any order. `UserVerification.Verified` says what
a verification comes to and what the request then carries, as the trace tells, and `Ceremonies.Sent` that a command carries
what the verification right before it came to. The loops carry their retry bounds in their contracts: with a device that is
`WellBehaved`, one decision takes at most two token requests and one PIN change that the device demands (`UvChannel.Brief`).
The token loop is also given as a function of the script, `UvTokenLoop.LoopRun`, that its methods are proved to equal, so that
runs which fail or never end are runs of the loop itself.

`UvChannel.Blamed` says when a failure is explained by how a trace ends: the device just answered with that error or with
something unusable, the user just gave up, or what the device last said of itself leaves no way on for the permissions at
hand. Every failure of a ceremony is explained like that, but for three that are the platform's own: allowed credentials that
cannot be on the device, an update of user information in preview mode, and a new PIN of the wrong length.

**CTAPHID pipe** (`CtapHid`, `CtapHidPipe`, `CtapHidLink`, `CtapHidWire`). The virtual device's packet state machine on its shared
3072-byte buffer (section 11.2.4 of CTAP 2.1): the class is proved against a step function on values, and fragmentation,
isolation, delivery and echo are proved about that function over all runs. `CtapHidWire` spells out the packets of the first
exchange and of every error.

**Authenticator data** (`AuthData`). Printer, parser and AAGUID scrubber (section 6.1 of WebAuthn Level 3), for any way of
encoding extension outputs that is one item and reads back; `AuthData.Says` is the layout, bit by bit.

## What the code does not promise

- `EncodeArrayHeader` has no 8-byte form, so the array survives printing and parsing if and only if it has fewer than 2^32
  elements (`LargeBlobArray.ArrayHeaderRoundTrip`). The upload cap keeps such arrays from being sent.
- The reader passes over an element whose announced size is above 1 MiB although the writer would drop it
  (`LargeBlobArray.OwnershipAgrees`).
- The reader decodes elements one nesting level deeper than the raw parser. An array with an element that needs the decoder's
  whole nesting budget is accepted by writes and fails every read (`LargeBlobDepth.DecodesIff`, `TooDeep`). A write then makes
  its key readable if and only if no such element is kept, that is, if the key owns them all (`LargeBlobDepth.WriteReads`).
- `scrub_aaguid` overwrites extension outputs of data without attested credential data, and such data no longer parses
  (`AuthData.ScrubCommutesIff`, `ScrubBreaks`, `BreakingData`). Its call site only scrubs data that has attested credential
  data.
- A request being received on one channel of the pipe is not safe from all packets of others (`CtapHidLink.OthersThatSpare`).
  A continuation aborts it unless it carries the expected sequence number, because the number is looked at before the channel.
  A start of an unknown command aborts it, and an INIT of the usual length, or one that is long, takes its place. A short INIT
  is worse: the request goes on, with its first bytes replaced (`InitReplaces`, `InitCorrupts`). A continuation of nothing
  panics.
- A complete request of several packets does not always free the pipe: it stays receiving exactly after an INIT of the wrong
  length, a CANCEL, or a command that the application refuses (`CtapHidLink.StillReceivingIff`).
- Required verification can end with only a shared secret, exactly if no fitting token was cached and that is all the device
  has on offer in the end (`UvTokenLoop.OnlySecretIff`, `UserVerification.Verified`). That happens if built-in verification
  gets blocked on a device that could have a PIN but has none set (`UvStubborn.BlockedWithoutPin`), and if a device that
  demanded a PIN change afterwards says it has no PIN, because the loop does not look again whether verification is on offer
  (`UvStubborn.PinLostAfterChange`). The comment at libwebauthn/src/webauthn/pin_uv_auth_token.rs:178 reads as if neither
  could happen. A getAssertion request then still carries the deprecated `uv` option that it started out with; a
  makeCredential request carries no sign of a verification (`Ceremonies.RequiredIsShown`).
- A request that is tried again after the device rejected its pinUvAuthParam keeps that parameter unless the second
  verification makes a new one, because nothing clears it. It goes out again exactly if the second verification ends without
  a token (`Ceremonies.StaleWhen`); a device that was reset after its token was cached is enough, with verification preferred
  or discouraged (`Ceremonies.CredentialLoop`, with `TurnsAway`).
- The token loop does not end by itself with every device (`UvStubborn.NeverEnds`).

## Model

| member | source | states |
|---|---|---|
| LargeBlobOperations.WriteThenRead | libwebauthn/src/ops/webauthn/large_blob.rs:650-671 | On a compliant device: after a successful write, a read exchange of any key in fragments of any size, however many reads later, fails in one of its own exchanges or has this outcome: if the array decoded before, the written key reads the blob and every other key what it read before; for any other array the lemma says exactly when that holds. After a failed write nothing has changed, unless an exchange was lost after the device had acted |
| LargeBlobOperations.DeleteThenRead | libwebauthn/src/ops/webauthn/large_blob.rs:675-694 | The same for a delete, whose key then reads nothing, however many elements it owned |
| LargeBlobOperations.WriteSucceeds | libwebauthn/src/ops/webauthn/large_blob.rs:650-671 | On every device that accepts what section 6.10.2 of CTAP 2.2 lets it accept, in fragments within its limit, with the token it insists on, and leaving an array within its capacity: a write succeeds if and only if the stored array is within the cap, is one that the raw parser takes or has a bad trailer, the nonce has 12 bytes, and the new array is within the cap |
| LargeBlobOperations.ExchangeAtomic | libwebauthn/src/ops/webauthn/large_blob.rs:565-694 | A whole read-modify-write over a compliant device leaves the complete new array if it succeeds and the old one if it fails; the new one after a failure only if an exchange was lost after the device had acted; never a mixture |
| LargeBlobOperations.WriteAuthenticatorLargeBlob | libwebauthn/src/ops/webauthn/large_blob.rs:650-671 | Against any device, sends exactly fetch, then upload of the rebuilt array, with the size cap, nonce and fetch errors in the source's order; nothing is sent for an oversized blob |
| LargeBlobOperations.DeleteAuthenticatorLargeBlob | libwebauthn/src/ops/webauthn/large_blob.rs:675-694 | Against any device, sends the fetch, and the upload only if some element is owned by the key; otherwise answers that nothing matches |
| LargeBlobOperations.FetchOrInitial | libwebauthn/src/ops/webauthn/large_blob.rs:563-579 | An array with a bad trailer counts as empty; any other failure is passed on |
| LargeBlobOperations.ReadsStored | libwebauthn/src/ops/webauthn/large_blob.rs:86-94 | On a compliant device a read exchange, after any number of others, returns what the stored bytes say, unless an exchange fails or the array is beyond the cap |
| LargeBlobHistory.HistoryReads | libwebauthn/src/ops/webauthn/large_blob.rs:535-694 | After any history of writes, deletes and reads on one compliant device, operations failing in any way but for an answer lost after the device had acted, every key holds what the fold of the successful updates says, provided the array could be read at first; it then still can |
| LargeBlobHistory.HistoryThenRead | libwebauthn/src/ops/webauthn/large_blob.rs:69-94 | So a read exchange after the history returns what the fold says, unless one of its own exchanges fails, or the array never changed and is beyond the cap or has a bad trailer |
| LargeBlobMap.WriteRefinesMap | libwebauthn/src/ops/webauthn/large_blob.rs:535-561 | The serialized array as a map: reading any key from a rebuilt array gives the new blob for the written key and the old reading for every other |
| LargeBlobMap.DeleteRefinesMap | libwebauthn/src/ops/webauthn/large_blob.rs:675-694 | Erasing is map removal: no reading for the erased key, unchanged readings for the others |
| LargeBlobMap.ReadableIsDeletable | libwebauthn/src/ops/webauthn/large_blob.rs:487-531 | Whatever a key can read, or stumbles over as corrupt, it can delete: the delete never answers that there is no match |
| LargeBlobMap.RebuildRoundTrip | libwebauthn/src/ops/webauthn/large_blob.rs:535-561 | Stripping and parsing the rebuilt array gives the elements not owned by the dropped key, byte for byte and in order, then the new one: exactly when there are fewer than 2^32 of them |
| LargeBlobMap.BodyParses | libwebauthn/src/ops/webauthn/large_blob.rs:456-484 | The raw parser inverts the array printer, for every sequence of items, if and only if there are fewer than 2^32 |
| LargeBlobMap.BodyReads | libwebauthn/src/ops/webauthn/large_blob.rs:222-239 | The reader's decoder, too, recovers the printed elements |
| LargeBlobMap.KeptExactly | libwebauthn/src/ops/webauthn/large_blob.rs:540-551 | With KeptInOrder: exactly the elements that the key does not own are kept |
| LargeBlobMap.ReaderMatchesWriter | libwebauthn/src/ops/webauthn/large_blob.rs:222-286 | When both parsers accept the same bytes, they see the same elements in the same places |
| LargeBlobMap.ExistingValues | libwebauthn/src/ops/webauthn/large_blob.rs:565-578 | What a read-modify-write starts from is, element for element, what a reader sees |
| LargeBlobMap.OthersUnaffected | libwebauthn/src/ops/webauthn/large_blob.rs:540-551 | Dropping one key's elements and appending elements of that key changes no other key's first match |
| LargeBlobMap.OnlyTheAppended | libwebauthn/src/ops/webauthn/large_blob.rs:72-82 | After dropping its elements, a key finds only what was appended: no older blob is uncovered |
| LargeBlobMap.KeptInOrder | libwebauthn/src/ops/webauthn/large_blob.rs:540-551 | Elements are judged one by one and what is kept stays in order |
| LargeBlobDepth.DecodesIff | libwebauthn/src/ops/webauthn/large_blob.rs:222-239 | Of the arrays that the raw parser accepts, the reader decodes exactly those whose elements all fit one level below the decoder's nesting budget |
| LargeBlobDepth.WriteReads | libwebauthn/src/ops/webauthn/large_blob.rs:535-561 | For every array that the writer accepts: after a write the array can be read if and only if every kept element can be decoded inside an array, and exactly then the written key reads the blob; another key reads what it read before if and only if the array could be read before, or still cannot |
| LargeBlobDepth.DeleteReads | libwebauthn/src/ops/webauthn/large_blob.rs:675-694 | The same for a delete, whose key then reads nothing |
| LargeBlobDepth.TooDeep | libwebauthn/src/ops/webauthn/large_blob.rs:456-484 | An array that the writer accepts and nobody can read: no key owns its element, so every write keeps it, and every read after it fails |
| LargeBlobWire.SealedReads | libwebauthn/src/ops/webauthn/large_blob.rs:151-199 | An entry sealed by any platform, over the bytes of "blob" and its announced length in eight little-endian bytes: its key reads the blob if that has this length, an error if it is longer or shorter, and nothing if more than 1 MiB was announced or the nonce does not have 12 bytes; no other key reads or owns it |
| LargeBlobWire.SerializedReads | libwebauthn/src/ops/webauthn/large_blob.rs:86-94 | For every array of such entries and of items that are no entries, spelled out byte by byte with its trailer: a read returns what the first entry of the key says that is announced with at most 1 MiB |
| LargeBlobWire.WriteUploads | libwebauthn/src/ops/webauthn/large_blob.rs:650-671 | A write over such an array, or over one without a valid trailer, uploads exactly the others' elements in order and then the new entry, byte by byte; it needs a nonce of 12 bytes and nothing else |
| LargeBlobWire.DeleteUploads | libwebauthn/src/ops/webauthn/large_blob.rs:675-694 | A delete uploads exactly the others' elements, or fails if the key has no entry |
| LargeBlobWire.EntryIs | libwebauthn/src/ops/webauthn/large_blob.rs:331-347 | The bytes of an entry: a map of three, ciphertext under 1, nonce under 2, length under 3, with the shortest heads |
| LargeBlobWire.RawArrayIff | libwebauthn/src/ops/webauthn/large_blob.rs:452-484 | The raw parser takes exactly nothing at all, or a definite-length array head in any of its widths and as many whole items |
| LargeBlobWire.WrittenIff | libwebauthn/src/ops/webauthn/large_blob.rs:563-579 | A write finds an array to upload if and only if the nonce has 12 bytes and what is stored has a bad trailer or is one that the raw parser takes |
| LargeBlobStore.RebuildSerializedArray | libwebauthn/src/ops/webauthn/large_blob.rs:535-561 | The loops over elements compute header, kept bytes, new entry and trailer, as the specification function says |
| LargeBlobStore.ParseLargeBlobArray | libwebauthn/src/ops/webauthn/large_blob.rs:222-286 | Yields the well-formed entries among the decoded elements, in order, passing over the rest |
| LargeBlobStore.DecryptFirstMatching | libwebauthn/src/ops/webauthn/large_blob.rs:72-82 | The first entry that authenticates decides, with its blob or its error |
| LargeBlobStore.ReadAuthenticatorLargeBlob | libwebauthn/src/ops/webauthn/large_blob.rs:86-94 | Against any device: fetch, then the reading of the fetched bytes, with every error in the source's order |
| LargeBlobArray.StripArrayTrailer | libwebauthn/src/ops/webauthn/large_blob.rs:202-219 | Accepts exactly the byte strings that end in the trailer of the rest |
| LargeBlobArray.ArrayHeaderRoundTrip | libwebauthn/src/ops/webauthn/large_blob.rs:415-453 | The header is read back if and only if the count is below 2^32; above, the printer truncates, and the lemma says to what |
| LargeBlobArray.ReadArrayHeader | libwebauthn/src/ops/webauthn/large_blob.rs:415-435 | Succeeds exactly on definite-length array heads of RFC 8949, section 3, with their count and length |
| LargeBlobArray.ReadHeader | libwebauthn/src/ops/webauthn/large_blob.rs:415-435 | The cursor-based reader computes that function and stops right behind the head |
| LargeBlobArray.ReadElements | libwebauthn/src/ops/webauthn/large_blob.rs:463-478 | The collecting loop keeps each element with exactly the bytes it spans |
| LargeBlobArray.CollectIsRawElements | libwebauthn/src/ops/webauthn/large_blob.rs:463-478 | The accumulating loop and the recursive reading agree, failures included |
| LargeBlobArray.ParseRaw | libwebauthn/src/ops/webauthn/large_blob.rs:456-484 | The whole raw parser, empty input and trailing bytes included |
| LargeBlobArray.OwnershipAgrees | libwebauthn/src/ops/webauthn/large_blob.rs:487-531 | The reader stops at an element exactly when the writer would drop it and its announced size is within the cap |
| LargeBlobArray.EncryptThenDecrypt | libwebauthn/src/ops/webauthn/large_blob.rs:289-347 | A new entry is one shallow item, reads back as its blob under its key, and is owned by that key alone |
| LargeBlobTransfer.FetchExact | libwebauthn/src/ops/webauthn/large_blob.rs:96-136 | Against a compliant device fetching returns exactly the stored array, or fails because an exchange did, or because a fragment boundary of the array lies beyond 4 MiB; it changes nothing on the device |
| LargeBlobTransfer.FetchBounded | libwebauthn/src/ops/webauthn/large_blob.rs:96-136 | Against any device: every request asks for the bytes after exactly those gathered so far, the result is all of them and shorter than 4 MiB and one fragment, and the number of requests is bounded |
| LargeBlobTransfer.FetchCallBound | libwebauthn/src/ops/webauthn/large_blob.rs:96-136 | At most floor(4 MiB / maxFragment) + 1 requests, whatever the device answers |
| LargeBlobTransfer.FetchSerializedArray | libwebauthn/src/ops/webauthn/large_blob.rs:96-136 | The loop sends what the specification function says, and the offset-overflow error is unreachable |
| LargeBlobTransfer.FetchAnswered | libwebauthn/src/ops/webauthn/large_blob.rs:96-136 | A compliant device that refuses nothing it need not refuse is never the reason a fetch within its fragment limit fails |
| LargeBlobTransfer.MaxFragmentLength | libwebauthn/src/ops/webauthn/large_blob.rs:42-47 | 64 less than maxMsgSize when that leaves something, else 1; 960 if the device does not say |
| LargeBlobTransfer.UploadSerializedArray | libwebauthn/src/ops/webauthn/large_blob.rs:582-645 | Refuses by size before sending anything; otherwise sends the planned chunks up to the first that is not accepted |
| LargeBlobTransfer.PlanLength | libwebauthn/src/ops/webauthn/large_blob.rs:582-645 | ceil(length / maxFragment) chunks |
| LargeBlobTransfer.PlanAt | libwebauthn/src/ops/webauthn/large_blob.rs:582-645 | The i-th chunk lies at offset i * maxFragment; with ChunkRequest, only the one at offset 0 announces the total |
| LargeBlobTransfer.DeliverPrefix | libwebauthn/src/ops/webauthn/large_blob.rs:582-645 | What reaches the device is the whole plan, or the plan cut right after the first refusal, which is the error reported |
| LargeBlobTransfer.UploadAtomic | libwebauthn/src/ops/webauthn/large_blob.rs:582-645 | Upload refines one atomic write: success means the device stores exactly the array; failure that it stores the old one, or, only if the last exchange was lost after the device had acted, the new one |
| LargeBlobTransfer.ChunkAcceptable | libwebauthn/src/ops/webauthn/large_blob.rs:582-645 | No chunk of an array that fits, in fragments that fit, authenticated with the right token, gives a compliant device a reason to refuse it: order, announced length, trailer, limits and pinUvAuthParam are as it requires |
| LargeBlobTransfer.UploadSucceeds | libwebauthn/src/ops/webauthn/large_blob.rs:582-645 | So against a compliant device that refuses for no other reason, an upload succeeds |
| LargeBlobTransfer.SignerAgrees | libwebauthn/src/ops/webauthn/large_blob.rs:374-388 | The bytes that the platform authenticates for a chunk are those the device recomputes, with the offset as four little-endian bytes |
| LargeBlobTransfer.UploadTooLarge | libwebauthn/src/ops/webauthn/large_blob.rs:582-645 | An array beyond the device's capacity, or in fragments beyond its limit, is never stored, not even in part |
| Cbor.ItemLocal | libwebauthn/src/ops/webauthn/large_blob.rs:456-484 | Prefix-freeness of CBOR items: whatever follows an item cannot change how it is read (section 3 of RFC 8949) |
| Cbor.ItemDeeper | libwebauthn/src/ops/webauthn/large_blob.rs:456-484 | A larger nesting budget accepts no less and reads no differently |
| CborEncode.EncodeThenParse | libwebauthn/src/ops/webauthn/large_blob.rs:289-347 | Decoding inverts encoding, in front of anything, for every value within the nesting budget |
| CborForms.DecoderIff | libwebauthn/src/ops/webauthn/large_blob.rs:222-239 | What the decoder accepts, and what it makes of it: exactly the ways to write a data item in RFC 8949, spelled out with every width of argument, open strings, lists and dictionaries, tags, booleans, null, undefined and floats |
| CborForms.ItemIff | libwebauthn/src/ops/webauthn/large_blob.rs:452-484 | A byte string is one item exactly if it is such a form, nested within the decoder's budget of 128 |
| ByteCursor.Cursor.ReadUint | libwebauthn/src/ops/webauthn/large_blob.rs:406-412 | Shifting bytes into a 64-bit value gives the big-endian number they spell; no bits are lost |
| CtapHidLink.Echo | libwebauthn-tests/src/virt/pipe.rs:357-360 | A PING of at most 3072 bytes, however padded, fragmented and interleaved with other channels, comes back as its own packets in order, which reassemble to the same message |
| CtapHidLink.RequestDelivered | libwebauthn-tests/src/virt/pipe.rs:366-383 | An application command, however padded, fragmented and interleaved, reaches the application whole and once |
| CtapHidLink.AnswerDelivered | libwebauthn-tests/src/virt/pipe.rs:387-420 | The application's answer goes out as the packets of one message on the channel and under the command that asked |
| CtapHidLink.Isolated | libwebauthn-tests/src/virt/pipe.rs:158-219 | Any mix of polls and of known non-INIT starts on other channels leaves the request being received to complete as if alone, with one busy error queued for each |
| CtapHidLink.WholeRequest | libwebauthn-tests/src/virt/pipe.rs:137-225 | The same from the first packet on, for any known command |
| CtapHidLink.OthersThatSpare | libwebauthn-tests/src/virt/pipe.rs:158-206 | Exactly which packets of other channels leave transaction and received bytes in place: a continuation only with the expected sequence number, which is looked at before the channel; a start only of a known command; an INIT only if it is too long, or short, of no effect, and repeats what the buffer begins with |
| CtapHidLink.ReachableArithmetic | libwebauthn-tests/src/virt/pipe.rs:72-86 | In every state reachable by any events: transmitted = 57 + 59 * sequence, transmitted < length <= 3072, sequence <= 51 |
| CtapHidLink.FragmentsReassemble | libwebauthn-tests/src/virt/pipe.rs:255-308 | Cutting a message of any admissible length into packets loses nothing |
| CtapHidLink.ContinuationsNumbered | libwebauthn-tests/src/virt/pipe.rs:280-305 | Continuation packets are numbered 0, 1, 2, ... up to 51, keep the channel, and never carry the initialization bit |
| CtapHidLink.SendsFragments | libwebauthn-tests/src/virt/pipe.rs:227-308 | A response drains as the packets of its message, after what was queued |
| CtapHidLink.InitReplaces | libwebauthn-tests/src/virt/pipe.rs:158-193 | A short INIT of another channel does not stop the request: that is dispatched with the INIT's payload in place of its own first bytes |
| CtapHidLink.InitCorrupts | libwebauthn-tests/src/virt/pipe.rs:158-193 | Three concrete packets after which the application is given bytes that its owner did not send |
| CtapHidLink.StillReceivingIff | libwebauthn-tests/src/virt/pipe.rs:310-383 | Once complete, a request leaves the pipe still receiving if and only if it took more than one packet and is an INIT of the wrong length on a channel other than 0, a CANCEL, or a command that the application refuses, these two off the broadcast channel; nothing is then lost |
| CtapHidLink.LastPacketAgain | libwebauthn-tests/src/virt/pipe.rs:208-225 | A long request that the application refused is delivered whole by its last packet alone, sent again, however foreign events fill the time |
| CtapHidWire.InitAnswered | libwebauthn-tests/src/virt/pipe.rs:320-355 | INIT on any channel but 0, whatever the pipe is busy with except sending: one packet with the client's nonce, the next channel, version and capabilities, byte by byte, after what is queued |
| CtapHidWire.StartRefused | libwebauthn-tests/src/virt/pipe.rs:131-181 | How a packet that starts a message is refused, byte by byte, in every state: unknown command, busy channel, wrong start, excess length, in this order of precedence, and what becomes of the transaction |
| CtapHidWire.ContinuationRefused | libwebauthn-tests/src/virt/pipe.rs:195-203 | A continuation with the wrong number ends the transaction with an error on the owner's channel, whatever channel it came on |
| CtapHidWire.DispatchRefused | libwebauthn-tests/src/virt/pipe.rs:310-383 | How a complete request is refused, byte by byte, and otherwise handed to the application |
| CtapHidWire.AnswerRefused | libwebauthn-tests/src/virt/pipe.rs:387-420 | How the application's errors, and a message that does not fit, are passed on, byte by byte |
| CtapHidWire.FragmentsSpelled | libwebauthn-tests/src/virt/pipe.rs:255-308 | Every packet of a message, byte by byte: 57 bytes of payload first and 59 at a time after that, numbered from 0 |
| CtapHidWire.FirstContact | libwebauthn-tests/src/virt/pipe.rs:320-355 | The very first exchange, byte by byte: channel 1 for whoever asks first |
| CtapHidPipe.Pipe.Push | libwebauthn-tests/src/virt/pipe.rs:126-129 | Panics exactly on a wrong size or on a continuation of nothing; otherwise the abstract step, on the shared buffer |
| CtapHidPipe.Pipe.Pop | libwebauthn-tests/src/virt/pipe.rs:131-135 | The abstract poll and its packet |
| CtapHidPipe.Pipe.ReadAndHandlePacket | libwebauthn-tests/src/virt/pipe.rs:137-225 | The branching on packets refines the abstract step, in place, with every slice in range |
| CtapHidPipe.Pipe.SendErrorNow | libwebauthn-tests/src/virt/pipe.rs:242-253 | Detouring through the buffer's first byte and the sending state changes nothing but the queue |
| CtapHidPipe.Pipe.MaybeWritePacket | libwebauthn-tests/src/virt/pipe.rs:255-308 | At most one packet is cut off the buffer and queued |
| CtapHidPipe.Pipe.DispatchRequest | libwebauthn-tests/src/virt/pipe.rs:310-385 | What each command does once complete |
| CtapHidPipe.Pipe.HandleResponse | libwebauthn-tests/src/virt/pipe.rs:387-420 | What each kind of application answer does |
| AuthData.PrintThenParse | libwebauthn/src/fido.rs:127-176 | Parsing the printed fields recovers every one of them if and only if the flags fit the fields and the credential id's length fits 16 bits, for extension codecs that write one item which reads back |
| AuthData.ParsedIsConsistent | libwebauthn/src/fido.rs:209-313 | Every accepted input is consistent and is reprinted unchanged |
| AuthData.ParseThenPrint | libwebauthn/src/fido.rs:127-176 | Reprinting an accepted input from its fields alone gives the same bytes if and only if the extension outputs were encoded the platform's way |
| AuthData.ToResponseBytes | libwebauthn/src/fido.rs:127-176 | The appending printer, with its precedence of raw bytes |
| AuthData.VisitBytes | libwebauthn/src/fido.rs:209-313 | The cursor parser, each error in its place, trailing data included |
| AuthData.ReadAttested | libwebauthn/src/fido.rs:231-277 | Attested credential data and where it ends |
| AuthData.ScrubAaguid | libwebauthn/src/ops/webauthn/make_credential.rs:87-99 | In place: 16 bytes from offset 37 become zero, nothing else changes, and shorter data is left alone |
| AuthData.ScrubCommutesIff | libwebauthn/src/ops/webauthn/make_credential.rs:87-99 | For all data that the parser accepts, under any extension codec: scrubbing commutes with parsing if and only if the flags announce attested credential data or announce no extension outputs; otherwise scrubbing makes the data malformed |
| AuthData.ScrubCommutes | libwebauthn/src/ops/webauthn/make_credential.rs:87-99 | With such flags it commutes for rejected data, too |
| AuthData.ScrubBreaks | libwebauthn/src/ops/webauthn/make_credential.rs:87-99 | Whatever the platform itself prints with extension outputs of 16 bytes or more and no attested credential data is accepted, and malformed once it is scrubbed |
| AuthData.FaithfulCodecExists | libwebauthn/src/fido.rs:127-176 | The hypothesis on extension codecs can be met, with outputs as long as an AAGUID |
| AuthData.BreakingData | libwebauthn/src/ops/webauthn/make_credential.rs:87-99 | There is such data: an extension codec that writes one item which reads back, and bytes that are accepted, reprinted unchanged, and malformed once they are scrubbed |
| AuthData.ParseIff | libwebauthn/src/fido.rs:200-290 | The parser accepts exactly the bytes that are laid out as section 6.1 of WebAuthn Level 3 says, spelled out with bit 6 and bit 7 of the flags, and recovers what they say |
| AuthData.TooShortIff | libwebauthn/src/fido.rs:225-262 | Which data is called too short: what the header, or attested credential data up to its key, does not fit |
| Ceremonies.Session | libwebauthn/src/webauthn.rs:233-442 | Safety over whole runs: any ceremonies in any order, preflight included, against any device and user keep every request allowed, the cached token genuine, and one record per device. No record comes but of a persistent token that the device handed out since, filed under the identifier in its latest description. None goes but one that a description since was recognized by, before the device rejected its token, accepted a PIN change or was reset, and those of a device that one was made for |
| Ceremonies.CredentialLoop | libwebauthn/src/webauthn.rs:266-301 | At most two attempts, the second only after the device rejected the cached token. The last request carries what the verification right before it came to, for this requirement, with the cached token in the first attempt and none in the second; a rejected stored token is never the final word; every failure is explained by how the trace ends. If the device rejects a fitting cached token and then describes itself so that there is no verification, as after a reset, the second request goes out with the rejected parameter |
| Ceremonies.MakeCredentialFido2 | libwebauthn/src/webauthn.rs:233-305 | The ceremony around it: silent assertions first where the transport allows them, then the loop; with required verification, the first attempt's request goes out without a sign of it if and only if as in RequiredIsShown |
| Ceremonies.GetAssertionFido2 | libwebauthn/src/webauthn.rs:319-442 | The result is as many assertions as the device counts, one if it does not, within the list limit of its first description or 255, and at least one, all for the right relying party; the number of commands is bounded whatever the device claims. The main request is as the loop says, and with required verification the first attempt's always carries a sign of it. NoCredentials without a request only if none of the allowed credentials can be on the device |
| Ceremonies.HandleErrors | libwebauthn/src/webauthn.rs:103-156 | Tries again exactly on a rejected stored token; forgets the cached one, evicts only the rejected record, and notes the rejection if told to |
| Ceremonies.ManageCredentials | libwebauthn/src/management/credential_management.rs:66-254 | At most three attempts, at most two if no persistent token may be used, whatever the device answers and even if the store never deletes. The last request carries what the verification right before it came to, given the stored tokens that had not been rejected by then; a rejected stored token is never the final word; no update of user information in preview mode; every other failure is explained by how the trace ends. Records come and go as in Session, and the one made is on record in the end |
| Ceremonies.EnumerateBegin | libwebauthn/src/management/credential_management.rs:96-127 | At most three commands, each as in ManageCredentials; on success the command set it used is remembered, on failure nothing is |
| Ceremonies.EnumerateNext | libwebauthn/src/management/credential_management.rs:129-140 | One command, in the command set of the enumeration that began |
| Ceremonies.CredentialAttempt | libwebauthn/src/webauthn.rs:266-300 | One attempt: at most one command, right after a presence prompt or the built-in verification that followed one, carrying what the verification just made came to; tried again exactly on a rejected cached token, which is then gone |
| Ceremonies.AllowedOnDevice | libwebauthn/src/webauthn.rs:338-370 | With preflight, NoCredentials if and only if something was allowed and the device denied every credential that is not too long, and then exactly a prompt and a credential made for show end the trace; without it, if and only if all that were allowed are too long, and then nothing is sent |
| Ceremonies.CollectAssertions | libwebauthn/src/webauthn.rs:430-442 | Exactly the counted number of assertions in a row, or the failure of the last one sent |
| Ceremonies.ManageAttempt | libwebauthn/src/management/credential_management.rs:71-87 | One attempt: at most one command, carrying what the verification just made came to; another follows exactly on a rejected stored token, which cannot be used again |
| Ceremonies.StaleWhen | libwebauthn/src/webauthn.rs:266-300 | Which pinUvAuthParam a request carries, for every request that verifies the user: one made with a stored token if one is good for it; otherwise the one from the attempt before, or none, if and only if there is no verification, only a shared secret, or only the deprecated option to be had; otherwise one made with the token just handed out |
| Ceremonies.RequiredIsShown | libwebauthn/src/webauthn/pin_uv_auth_token.rs:178-263 | In the first attempt, a request that requires verification goes out with neither a pinUvAuthParam nor the uv option if and only if no fitting token was cached, the device has no more than a shared secret on offer in the end, and the request did not start out with the option, as getAssertion does and makeCredential does not |
| Ceremonies.TokenAuthenticates | libwebauthn/src/webauthn.rs:266-300 | In a safe run the parameter that a command carries, made with the cached token or one just handed out, is over the bytes of that request, with a token granted every permission it calls for, for its relying party; one made with a token on record only reads credentials |
| UvPreflight.Preflight | libwebauthn/src/proto/ctap2/preflight.rs:36-72 | Tests every credential under the relying party's id and, failing that, the legacy id; keeps exactly those found, in order, under the id the device gives; any error but NoCredentials ends it |
| UvPreflight.NothingFound | libwebauthn/src/proto/ctap2/preflight.rs:36-72 | Nothing is kept if and only if the device denied every credential under every id |
| UvPreflight.PreflightOne | libwebauthn/src/proto/ctap2/preflight.rs:74-123 | One silent assertion; only NoCredentials proves absence |
| UvPreflight.NotOversizedIff | libwebauthn/src/webauthn.rs:49-57 | Exactly the ids that the device could hold are kept |
| UvPreflight.NotOversizedInOrder | libwebauthn/src/webauthn.rs:49-57 | With NotOversizedIff: what is kept stays in order and as often as it occurs |
| UserVerification.VerifyUser | libwebauthn/src/webauthn/pin_uv_auth_token.rs:97-155 | A token on record comes first, exactly when one is recognized and none was rejected; then the cached one, exactly when it covers the request; then a decision, which yields only a shared secret if and only if the device has no more on offer, or verification is discouraged, a secret is needed and a token is not; a token operation or the deprecated option only if on offer. The request leaves with the parameter made with the token used and without the uv option, or without a token as it came, but with the option if that is how the user is verified; cache and store change only as accounted for; every failure is explained by the last answer, the user, or the device's description |
| UserVerification.DecideAndObtain | libwebauthn/src/webauthn/pin_uv_auth_token.rs:158-514 | No verification if and only if it is discouraged and no shared secret is needed or possible, or preferred, not on offer, and no shared secret is needed; only a shared secret if and only if that is due |
| UserVerification.ObtainAndPackage | libwebauthn/src/webauthn/pin_uv_auth_token.rs:224-514 | What was obtained is kept, and nothing else is |
| UserVerification.Prepare | libwebauthn/src/webauthn/pin_uv_auth_token.rs:169-222 | The decisions before the loop: unverified if and only if verification is discouraged and no secret is needed or possible, or preferred, not on offer, and no secret is needed; verification that is required proceeds only on a device that offers it |
| UserVerification.Package | libwebauthn/src/webauthn/pin_uv_auth_token.rs:421-514 | Fails exactly on a missing, undecryptable or ill-sized token; a token goes to the cache with protocol, permissions and relying party, a persistent one to the store only, as the record that the device's description makes of it |
| UserVerification.HitCovers | libwebauthn/src/webauthn/pin_uv_auth_token.rs:135-145 | A cache hit was granted at least the permissions asked for, for the same relying party and protocol; a persistent request never hits |
| UserVerification.TryPersistentToken | libwebauthn/src/webauthn/pin_uv_auth_token.rs:116-127 | Uses a record exactly when one is recognized, and a recognized one |
| UserVerification.TryCachedToken | libwebauthn/src/webauthn/pin_uv_auth_token.rs:135-145 | Uses the cached token exactly when it covers the request |
| UserVerification.StartVerifying | libwebauthn/src/webauthn/pin_uv_auth_token.rs:97-114 | One getInfo settles preview mode and the use of persistent tokens before anything else |
| UserVerification.TryStoredTokens | libwebauthn/src/webauthn/pin_uv_auth_token.rs:113-145 | The token on record before the cached one, and neither exactly when none is good for the request |
| UserVerification.HandedMints | libwebauthn/src/webauthn/pin_uv_auth_token.rs:443-502 | A token that was handed out in a safe run was asked for with the permissions and the relying party it is kept under, and, with built-in verification, right after a prompt |
| UserVerification.RecordIsMade | libwebauthn/src/pin/persistent_token.rs:201-227 | A record made is of a token that the device handed out to a request for the persistent permission, under the key agreement right before it |
| UserVerification.HitIff | libwebauthn/src/webauthn/pin_uv_auth_token.rs:135-145 | The cached token is used if and only if it was minted under the protocol now selected, for the relying party of the request, with every permission that the request calls for |
| UserVerification.SkippedIff | libwebauthn/src/webauthn/pin_uv_auth_token.rs:166-222 | When a request goes unverified, in terms of what the device said: never if verification is required; if it is preferred, not on offer, and no secret is wanted; if it is discouraged and no secret is wanted or can be agreed on |
| UserVerification.OnlySecretDueIff | libwebauthn/src/webauthn/pin_uv_auth_token.rs:228-263 | When only a shared secret is due, in terms of what the device said: nothing to verify the user with but a PIN to be set or tokens; or verification discouraged and nothing wanted but a secret |
| UvTokenLoop.ObtainToken | libwebauthn/src/webauthn/pin_uv_auth_token.rs:226-419 | The loop ends as LoopRun says, keeps every request allowed, ends in a pass of exactly the operation that was to be chosen or in the deprecated option, and asks a well-behaved device for at most two tokens and the user for at most one PIN change that it demands |
| UvTokenLoop.OneRound | libwebauthn/src/webauthn/pin_uv_auth_token.rs:228-418 | One pass, exactly as RoundRun says; if another follows, what its choice depends on is as the trace shows it |
| UvTokenLoop.CarryOut | libwebauthn/src/webauthn/pin_uv_auth_token.rs:265-418 | A forced PIN change comes before any PIN token request; as CarryOutRun says |
| UvTokenLoop.ForcePinChange | libwebauthn/src/webauthn/pin_uv_auth_token.rs:265-283 | After it the loop starts over from what the device now says |
| UvTokenLoop.RunPass | libwebauthn/src/webauthn/pin_uv_auth_token.rs:285-418 | Ends for good, with the grant as the last event, or with built-in verification blocked |
| UvTokenLoop.AttemptOperation | libwebauthn/src/webauthn/pin_uv_auth_token.rs:296-383 | PIN entry, key agreement, prompt and token request, in that order, and nothing else; the secret is that of the key agreement just made |
| UvTokenLoop.SetPinAndRefresh | libwebauthn/src/webauthn/pin_uv_auth_token.rs:183-192 | Sets or changes the PIN and asks the device again; stored tokens stay accounted for |
| UvTokenLoop.UvFailed | libwebauthn/src/webauthn/pin_uv_auth_token.rs:393-414 | Reports the attempts left; none left counts as blocked, and blocked never reverts within a decision |
| UvTokenLoop.ChosenIsOffered | libwebauthn/src/webauthn/pin_uv_auth_token.rs:68-94 | The next operation is what the device offers, or only a shared secret: rerouting a PIN operation to built-in verification never happens |
| UvTokenLoop.OnlySecretIff | libwebauthn/src/webauthn/pin_uv_auth_token.rs:228-263 | Unless verification is discouraged, only a shared secret is chosen if and only if the description offers no verification but a way to agree on a secret; whether it is required plays no part |
| UvTokenLoop.AnotherRoundIff | libwebauthn/src/webauthn/pin_uv_auth_token.rs:228-418 | Another pass follows if and only if a demanded PIN change was made and the device described itself anew, or a token request was answered with UvBlocked, or with UvInvalid and then no attempts left |
| UvTokenLoop.RoundAsksForPin | libwebauthn/src/webauthn/pin_uv_auth_token.rs:296-326 | A pass that takes a PIN begins by asking how many attempts are left, naming the protocol to a CTAP 2.0 device only, and then the user, telling that number and why: built-in verification is blocked, the relying party wants it, or else the device does |
| UvStubborn.BlockedWithoutPin | libwebauthn/src/webauthn/pin_uv_auth_token.rs:387-392 | Required verification that starts on offer and whose loop ends with only a shared secret: built-in verification gets blocked and no PIN is set |
| UvStubborn.PinLostAfterChange | libwebauthn/src/webauthn/pin_uv_auth_token.rs:265-283 | The same with built-in verification never out: after a demanded PIN change the device says it has no PIN, and the loop does not look again whether verification is on offer |
| UvStubborn.NeverEnds | libwebauthn/src/webauthn/pin_uv_auth_token.rs:226-419 | Three ways of a device, each against a user who never gives up, in which the loop makes as many passes as one likes and is then where it was, with that many tokens asked for, or PIN changes; for every device, user, request and state that lead to a PIN operation |
| UvStubborn.OnlyFault | libwebauthn/src/webauthn/pin_uv_auth_token.rs:226-419 | Each of them fails one clause of being well-behaved and meets the others, so none of the three can be dropped |
| UvStubborn.PassRepeats | libwebauthn/src/webauthn/pin_uv_auth_token.rs:228-418 | One such pass: with built-in verification out a PIN token request is answered with UvBlocked, or with UvInvalid and then no attempts left; or a demanded PIN change is accepted and the device describes itself as before |
| UvStubborn.BlockedForEver | libwebauthn/src/webauthn/pin_uv_auth_token.rs:385-418 | The first two from the very start, with a well-behaved device up to then: one with built-in verification and a PIN, whose own verification gets blocked |
| UvStubborn.DemandedForEver | libwebauthn/src/webauthn/pin_uv_auth_token.rs:265-283 | The third from the very start: a device with a PIN that demands a change after every change |
| UvChannel.StillMinted | libwebauthn/src/transport/channel.rs:181-198 | A genuine cached token stays genuine as the run goes on |
| UvChannel.EveryEventWasAllowed | libwebauthn/src/webauthn/pin_uv_auth_token.rs:226-419 | Whatever was sent or done in a safe run was allowed at the point where it was: a token requested with the permissions and relying party of the request at hand, with a PIN just entered and allowed for these permissions, or with built-in verification after a prompt and not found blocked; the request at hand and no other; a credential made or used after a prompt |
| UvChannel.TokenServes | libwebauthn/src/webauthn/pin_uv_auth_token.rs:337-380 | In a safe run every token request with permissions names exactly those that the request at hand calls for, mc and ga for makeCredential, ga for getAssertion and lbw with it for a large-blob write, and its relying party; the persistent permission only for read-only management |
| UvChannel.PersistentReads | libwebauthn/src/management/credential_management.rs:316-322 | In a safe run persistent tokens are considered only for management that deletes and updates nothing, on a device that said it supports them |
| UvChannel.SkipsIff | libwebauthn/src/webauthn/pin_uv_auth_token.rs:224-230 | Configuration and enrollment do without built-in verification exactly if the device's latest description does not enable it for them, unless it demanded a PIN change in between |
| TokenCache.HitIsGranted | libwebauthn/src/transport/channel.rs:133-141 | A hit has equal protocol and relying party, at least the requested permissions, a valid length, and never the persistent permission |
| AuthenticatorInfo.EnforceNoMcGaWithClientPin | libwebauthn/src/webauthn/pin_uv_auth_token.rs:68-94 | Fails exactly for a PIN operation with mc or ga on a device that rules that out and has no built-in verification to turn to; what it lets through is unchanged, or replaced by built-in verification that is there |
| AuthenticatorInfo.SelectProtocolIff | libwebauthn/src/webauthn/pin_uv_auth_token.rs:36-55 | The protocol is the first on the device's list that is 1 or 2, and there is none exactly if neither is listed |
| UvRequest.Ctap2Request.CalculateAndSetUvAuth | libwebauthn/src/management/credential_management.rs:262-280 | Authenticates the request's message with the token; the deprecated option goes |
| UvRequest.Ctap2Request.EnsureUvSet | libwebauthn/src/proto/ctap2/model/make_credential.rs:418-423 | Sets the deprecated option of makeCredential and getAssertion, and of nothing else |
| UvRequest.Ctap2Request.HandleLegacyPreview | libwebauthn/src/management/credential_management.rs:299-310 | Preview mode exactly if only the preview command set is offered, and it sticks |
| UvRequest.Ctap2Request.SetPersistentTokenUse | libwebauthn/src/management/credential_management.rs:316-322 | A persistent token is for read-only subcommands, with a store and a device that supports it |
| UvRequest.Ctap2Request.constructor | libwebauthn/src/proto/ctap2/model/get_assertion.rs:182-198 | A getAssertion request starts out with the uv option exactly if verification is required; no other request does |
| PersistentTokens.StoreInvariant | libwebauthn/src/pin/persistent_token.rs:201-244 | Over every interleaving of mints, evictions, PIN changes and resets from an empty store: at most one record per device, and every record is as it was minted |
| PersistentTokens.MintReplaces | libwebauthn/src/pin/persistent_token.rs:201-244 | Minting leaves the fresh record as the only one of its device and every other device's records as they were |
| PersistentTokens.RecognizedIff | libwebauthn/src/pin/persistent_token.rs:141-187 | Under an ideal cipher a record is recognized exactly if it holds the device's current token and its identifier |
| PersistentTokens.RecognizedUnique | libwebauthn/src/pin/persistent_token.rs:172-187 | With one record per device recognition does not depend on the order in which records are listed |
| PersistentTokens.PinChangedElsewhere | libwebauthn/src/pin/persistent_token.rs:141-187 | With a new token under the old identifier nothing is recognized, and the next mint leaves one record for the device, recognized |
| PersistentTokens.RecognizeAuthenticator | libwebauthn/src/pin/persistent_token.rs:172-187 | The search finds a recognized record if there is one, in any listing order |
| PersistentTokens.ReapSupersededRecords | libwebauthn/src/pin/persistent_token.rs:237-244 | Removes exactly the device's records, if the store deletes at all, and nothing otherwise |
| PersistentTokens.StoreMintedToken | libwebauthn/src/pin/persistent_token.rs:201-227 | Succeeds exactly with a 32-byte identifier and a 16-byte AAGUID, and then files a fresh record in place of the device's others |
| PersistentTokens.TokenStore.Delete | libwebauthn/src/pin/persistent_token.rs:120-122 | Removes one record and keeps the store's invariant |
| PersistentTokens.TokenStore.List | libwebauthn/src/pin/persistent_token.rs:105-112 | Lists every record once, in an order nobody may rely on |
| PinChange.ChangePinInternal | libwebauthn/src/pin/mod.rs:519-646 | Length errors come before anything is sent, too short before too long; success means the device accepted the padded new PIN under a fresh key agreement; only then, and only the record recognized beforehand, is evicted |
| PinChange.SendNewPin | libwebauthn/src/pin/mod.rs:562-637 | The current PIN is asked for exactly if there is one, and is what the request proves knowledge of |
| PinChange.NewPinRequest | libwebauthn/src/pin/mod.rs:596-634 | Changes a PIN if there is a current one and sets it otherwise, with the new PIN padded and encrypted, the hash of the current one encrypted, and both authenticated in that order |
| PinChange.PaddingIsInjective | libwebauthn/src/pin/mod.rs:596-598 | Padding to 64 bytes loses nothing for PINs without zero bytes |
| PinChange.SetOrChangePin | libwebauthn/src/pin/mod.rs:666-674 | A PIN change of its own, on a fresh description; safety and the cache's soundness are kept, and no record goes but a recognized one, after the device accepted the change |
| PinChange.TryToSetPin | libwebauthn/src/webauthn/pin_uv_auth_token.rs:587-652 | Asks until a PIN is accepted, given up, or refused for another reason; does nothing on a device without PIN support |
| PinChange.ObtainPin | libwebauthn/src/webauthn/pin_uv_auth_token.rs:535-585 | Retries are asked for, naming the protocol to a CTAP 2.0 device only, then the user, with that number; giving up is the only error |
| PinChange.ObtainSharedSecret | libwebauthn/src/webauthn/pin_uv_auth_token.rs:516-533 | The secret comes from the key agreement just made |
| PinChange.Reset | libwebauthn/src/management/authenticator_reset.rs:23-50 | Only the record recognized beforehand is evicted, and only after the device reported success |
| PinChange.AskedAgain | libwebauthn/src/webauthn/pin_uv_auth_token.rs:587-652 | Why the user is asked for another PIN: too short, too long, or against the device's policy, in this order; anything else ends it |
| PinChange.PromptedFirst | libwebauthn/src/webauthn/pin_uv_auth_token.rs:587-652 | A PIN is set or changed only after a prompt that says why |
| LargeBlobDevice.ReferenceIsCompliant | libwebauthn/src/ops/webauthn/large_blob.rs:96-136 | The hypotheses on devices can be met, whatever is stored |
| LargeBlobDevice.IdealCryptoExists | libwebauthn/src/ops/webauthn/large_blob.rs:289-347 | The hypotheses on the cryptography can be met |
| PersistentTokens.IdealCipherExists | libwebauthn/src/pin/persistent_token.rs:141-169 | The hypothesis on the identifier cipher can be met |
| PersistentTokens.SurvivesIff | libwebauthn/src/pin/persistent_token.rs:201-244 | With fresh ids, a record stays unchanged through any further events if and only if none of them is its eviction, a confirmed PIN change or reset that recognized it, or a mint for the same device |

## Left out

- Cryptography: AES-GCM, deflate, SHA-256, ECDH, AES-CBC, HMAC and HKDF are functions in a record. What is assumed of them is
  stated in `LargeBlobDevice.Ideal` and `PersistentTokens.Ideal`, and each is shown to be satisfiable. Errors of `encrypt` and
  `authenticate`, which the library calls return for keys of a wrong size, are not modelled.
- The CBOR library is not part of the repository. The decoder follows section 3 of RFC 8949 with a nesting budget of 128,
  transparent tags and unassigned simple values rejected. That text strings are valid UTF-8 is not checked.
- Ceremonies.Session: an aborted ceremony is one in which the script of answers has run out; cancellation in the middle of an
  exchange, timeouts and transport errors other than that are not told apart.
- Ceremonies.MakeCredentialFido2: does not model the limits on the size of lists and requests, which end the ceremony after
  preflight and before anything else is sent, or the hmac-secret computation, whose errors end it before the command.
- Ceremonies.GetAssertionFido2: does not model those either, the rule that a large-blob write names exactly one credential,
  which is looked at before anything is sent, or the large-blob step after the assertions.
- UvPreflight.Preflight: the response is the credential id in it, if any, whether on its own or in attested credential data.
- Ceremonies.ManageCredentials: does not model the payload of requests and responses; `message` stands for the bytes that the
  token authenticates. The ceremonies of bio enrollment and authenticator configuration are the same loop without persistent
  tokens; they appear as request kinds only, and the preview mode of bio enrollment does not appear.
- UvTokenLoop.ObtainToken: the number of passes is bounded for well-behaved devices only; with another device it may end only
  when the device or the user stops answering, as in the source.
- PinChange.ObtainPin: a PIN is given as its normalized UTF-8 bytes and its number of code points; the normalization is not
  modelled.
- PersistentTokens.StoreMintedToken: record ids come from a counter instead of a random generator, whose ids are assumed not
  to repeat.
- PersistentTokens.SurvivesIff: assumes fresh ids for the same reason.
- The forced PIN protocol of the `virt` feature is not part of this model.
- CtapHidPipe.Pipe.Push: the application behind the pipe is nondeterministic (`accepts`), and timestamps and the keep-alive
  flags, which no packet depends on, do not appear. The counter of channels handed out wraps, as a release build's does.
- CtapHidPipe.Pipe.Pop: the application's answer, if there is one, is an argument.
- LargeBlobOperations.WriteSucceeds: a token that expires during an upload is not modelled; a device that then refuses is
  covered by ExchangeAtomic.
- LargeBlobTransfer.FetchSerializedArray: offsets are unbounded numbers with the source's checked 32-bit addition written out.
- U2F, HID, BLE, NFC and caBLE transports, JSON and IDL parsing, client data, COSE keys and error codes: plumbing, or easy.
