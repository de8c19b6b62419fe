/** Authenticator data: its printer, its parser, and the AAGUID scrubber (section 6.1 of WebAuthn Level 3). */
module AuthData {
  import opened Wrappers
  import opened Bytes
  import opened Cbor
  import opened ByteCursor

  type RpIdHash = s: seq<byte> | |s| == 32 witness seq(32, _ => 0)
  type Aaguid = s: seq<byte> | |s| == 16 witness seq(16, _ => 0)
  type u32 = n: nat | n < 0x1_0000_0000

  const ATTESTED_CREDENTIALS: nat := 0x40
  const EXTENSION_DATA: nat := 0x80

  /** All eight flag bits are named, so reading a flag byte drops none of them. */
  predicate Has(flags: byte, bit: nat)
    requires bit > 0
  {
    flags / bit % 2 == 1
  }

  datatype AttestedCredentialData = AttestedCredentialData(aaguid: Aaguid, credentialId: seq<byte>, publicKey: seq<byte>)

  datatype AuthenticatorData<T> = AuthenticatorData(
    rpIdHash: RpIdHash, flags: byte, signatureCount: u32,
    attested: Option<AttestedCredentialData>, extensions: Option<T>, raw: Option<seq<byte>>)

  /** How extension outputs of type `T`, or their absence, are written as one item and read from one. */
  datatype ExtensionCodec<!T> = ExtensionCodec(encode: Option<T> -> seq<byte>, decode: Value -> Option<Option<T>>)

  /** Every extension output is written as one item that reads back as itself. */
  ghost predicate Faithful<T(!new)>(x: ExtensionCodec<T>) {
    forall e: Option<T> :: ReadsBack(x, e)
  }

  type Output = s: seq<byte> | |s| == 16 witness seq(16, _ => 0)

  /** Such codecs exist, and with outputs as long as an AAGUID: byte strings of that length, and null for none. */
  lemma FaithfulCodecExists() returns (x: ExtensionCodec<Output>)
    ensures Faithful(x) && forall v: Output :: |x.encode(Some(v))| >= AAGUID_LEN
  {
    x := ExtensionCodec(
      (e: Option<Output>) => match e case Some(v) => [0x50] + v case None => [0xf6],
      (v: Value) => match v case Bytes(b) => (if |b| == 16 then Some(Some(b)) else None) case Null => Some(None) case _ => None);
    forall e: Option<Output> ensures ReadsBack(x, e) {
      var s := x.encode(e);
      var body := ParseBody(ReadHead(s).value, s[1..1], s[1..], MAX_DEPTH);
      if e.Some? {
        assert s[1..] == e.value && e.value[..16] == e.value;
        assert body == Parsed(Bytes(e.value), 16);
      } else {
        assert body == Parsed(Null, 0);
      }
    }
  }

  predicate ReadsBack<T(==)>(x: ExtensionCodec<T>, e: Option<T>) {
    var item := Decode(x.encode(e));
    item.Parsed? && x.decode(item.value) == Some(e)
  }

  datatype ParseError = TooShort | BadPublicKey | BadExtensions | TrailingData

  // ---------------------------------------------------------------------------
  // Printing
  // ---------------------------------------------------------------------------

  function AttestedBytes(a: AttestedCredentialData): seq<byte> {
    a.aaguid + BigEndian(|a.credentialId|, 2) + a.credentialId + a.publicKey
  }

  function HeaderBytes<T>(a: AuthenticatorData<T>): (s: seq<byte>)
    ensures |s| == 37
  {
    a.rpIdHash + [a.flags] + BigEndian(a.signatureCount, 4)
  }

  /** The fields, re-encoded. A credential id's length is truncated to 16 bits. */
  function FieldBytes<T>(x: ExtensionCodec<T>, a: AuthenticatorData<T>): seq<byte> {
    HeaderBytes(a)
    + (match a.attested case Some(att) => AttestedBytes(att) case None => [])
    + (if a.extensions.Some? || Has(a.flags, EXTENSION_DATA) then x.encode(a.extensions) else [])
  }

  function ResponseBytes<T>(x: ExtensionCodec<T>, a: AuthenticatorData<T>): seq<byte> {
    match a.raw case Some(raw) => raw case None => FieldBytes(x, a)
  }

  method ToResponseBytes<T>(x: ExtensionCodec<T>, a: AuthenticatorData<T>) returns (res: seq<byte>)
    ensures res == ResponseBytes(x, a)
  {
    hide BigEndian;
    if a.raw.Some? { return a.raw.value; }
    res := a.rpIdHash;
    res := res + [a.flags];
    res := res + BigEndian(a.signatureCount, 4);
    if a.attested.Some? {
      var att := a.attested.value;
      ghost var header := res;
      res := res + att.aaguid;
      res := res + BigEndian(|att.credentialId|, 2);
      res := res + att.credentialId;
      res := res + att.publicKey;
      assert res == header + AttestedBytes(att);
    }
    assert res == HeaderBytes(a) + (match a.attested case Some(att) => AttestedBytes(att) case None => []);
    if a.extensions.Some? || Has(a.flags, EXTENSION_DATA) {
      res := res + x.encode(a.extensions);
    } else {
      assert res + [] == res;
    }
  }

  // ---------------------------------------------------------------------------
  // Parsing
  // ---------------------------------------------------------------------------

  datatype AttestedPart = AttestedPart(attested: Option<AttestedCredentialData>, end: nat)

  /** Attested credential data, if the flags announce it, and where it ends. */
  function ParseAttested(data: seq<byte>): (r: Result<AttestedPart, ParseError>)
    requires |data| >= 37
    ensures r.Success? ==> 37 <= r.value.end <= |data|
  {
    if !Has(data[32], ATTESTED_CREDENTIALS) then Success(AttestedPart(None, 37))
    else if |data| < 55 then Failure(TooShort)
    else
      var n := FromBigEndian(data[53..55]);
      if |data| < 55 + n then Failure(TooShort)
      else
        var key := NextItem(data[55 + n..]);
        if key.Malformed? then Failure(BadPublicKey)
        else
          var end := 55 + n + key.used;
          Success(AttestedPart(Some(AttestedCredentialData(data[37..53], data[55..55 + n], data[55 + n..end])), end))
  }

  /** Extension outputs in the bytes that follow: all of them, if the flags announce any, and none otherwise. */
  function ParseExtensions<T>(x: ExtensionCodec<T>, flags: byte, rest: seq<byte>): Result<Option<T>, ParseError> {
    if !Has(flags, EXTENSION_DATA) then (if rest == [] then Success(None) else Failure(TrailingData)) else
    var item := NextItem(rest);
    if item.Malformed? then Failure(BadExtensions) else
    match x.decode(item.value)
    case None => Failure(BadExtensions)
    case Some(e) => if item.used == |rest| then Success(e) else Failure(TrailingData)
  }

  function Parse<T>(x: ExtensionCodec<T>, data: seq<byte>): Result<AuthenticatorData<T>, ParseError> {
    if |data| < 37 then Failure(TooShort) else
    var att := ParseAttested(data);
    if att.Failure? then Failure(att.error) else
    var ext := ParseExtensions(x, data[32], data[att.value.end..]);
    if ext.Failure? then Failure(ext.error) else
    Success(AuthenticatorData(data[..32], data[32], SignatureCount(data), att.value.attested, ext.value, Some(data)))
  }

  function SignatureCount(data: seq<byte>): u32
    requires |data| >= 37
  {
    Limits();
    FromBigEndian(data[33..37])
  }

  method ReadAttested(cursor: Cursor, flags: byte) returns (r: Result<Option<AttestedCredentialData>, ParseError>)
    requires cursor.Valid() && cursor.pos == 37 && flags == cursor.bytes[32]
    modifies cursor
    ensures cursor.Valid()
    ensures var part := ParseAttested(cursor.bytes);
            r == (if part.Failure? then Failure(part.error) else Success(part.value.attested))
    ensures r.Success? ==> cursor.pos == ParseAttested(cursor.bytes).value.end
  {
    hide NextItem;
    var data := cursor.bytes;
    if !Has(flags, ATTESTED_CREDENTIALS) { return Success(None); }
    if |data| < 55 { return Failure(TooShort); }
    assert cursor.Rest()[..16] == data[37..53];
    var aaguid := cursor.ReadExact(16);
    if aaguid.None? { return Failure(TooShort); }
    assert cursor.Rest()[..2] == data[53..55];
    var length := cursor.ReadUint(2);
    if length.None? || |data| < 55 + length.value { return Failure(TooShort); }
    assert cursor.Rest()[..length.value] == data[55..55 + length.value];
    var id := cursor.ReadExact(length.value);
    if id.None? { return Failure(TooShort); }
    var start := cursor.pos;
    var key := cursor.ReadItem();
    if key.None? { return Failure(BadPublicKey); }
    r := Success(Some(AttestedCredentialData(aaguid.value, id.value, data[start..cursor.pos])));
  }

  datatype Header = Header(rpIdHash: RpIdHash, flags: byte, signatureCount: u32)

  method ReadHeader(cursor: Cursor) returns (r: Option<Header>)
    requires cursor.Valid() && cursor.pos == 0
    modifies cursor
    ensures cursor.Valid()
    ensures |cursor.bytes| >= 37 ==>
              r == Some(Header(cursor.bytes[..32], cursor.bytes[32], SignatureCount(cursor.bytes))) && cursor.pos == 37
    ensures |cursor.bytes| < 37 ==> r == None
  {
    hide FromBigEndian, Limit;
    var data := cursor.bytes;
    if |data| < 37 { return None; }
    assert cursor.Rest()[..32] == data[..32];
    var rpIdHash := cursor.ReadExact(32);
    var flags := cursor.ReadByte();
    assert cursor.Rest()[..4] == data[33..37];
    var count := cursor.ReadUint(4);
    if rpIdHash.None? || flags.None? || count.None? { return None; }
    assert count.value == SignatureCount(data);
    r := Some(Header(rpIdHash.value, flags.value, count.value));
  }

  /** Extension outputs, if the flags announce any, and then the end. */
  method ReadExtensions<T>(x: ExtensionCodec<T>, cursor: Cursor, flags: byte) returns (r: Result<Option<T>, ParseError>)
    requires cursor.Valid()
    modifies cursor
    ensures cursor.Valid() && r == ParseExtensions(x, flags, old(cursor.Rest()))
  {
    hide NextItem;
    var extensions: Option<T> := None;
    if Has(flags, EXTENSION_DATA) {
      var item := cursor.ReadItem();
      if item.None? { return Failure(BadExtensions); }
      var e := x.decode(item.value);
      if e.None? { return Failure(BadExtensions); }
      extensions := e.value;
    }
    if cursor.pos != |cursor.bytes| { return Failure(TrailingData); }
    r := Success(extensions);
  }

  method VisitBytes<T>(x: ExtensionCodec<T>, data: seq<byte>) returns (r: Result<AuthenticatorData<T>, ParseError>)
    ensures r == Parse(x, data)
  {
    hide ParseAttested, ParseExtensions, SignatureCount, Has;
    var cursor := new Cursor(data);
    var header := ReadHeader(cursor);
    if header.None? { return Failure(TooShort); }
    var attested := ReadAttested(cursor, header.value.flags);
    if attested.Failure? { return Failure(attested.error); }
    var extensions := ReadExtensions(x, cursor, header.value.flags);
    if extensions.Failure? { return Failure(extensions.error); }
    var Header(rpIdHash, flags, count) := header.value;
    r := Success(AuthenticatorData(rpIdHash, flags, count, attested.value, extensions.value, Some(data)));
  }

  // ---------------------------------------------------------------------------
  // Round trips
  // ---------------------------------------------------------------------------

  /** The fields say the same as the flags, and the length field can hold the credential id's length. */
  predicate Consistent<T>(a: AuthenticatorData<T>) {
    && (a.flags / 0x40 % 2 == 1 <==> a.attested.Some?)
    && (a.extensions.Some? ==> a.flags / 0x80 % 2 == 1)
    && (a.attested.Some? ==> |a.attested.value.credentialId| < 0x1_0000)
  }

  /** The bytes before any extension outputs: the relying party's hash, the flags, the signature counter, and, if there is
      attested credential data, the AAGUID, the credential id after its length, and the key. */
  function Front<T>(a: AuthenticatorData<T>): seq<byte>
    requires a.attested.Some? ==> |a.attested.value.credentialId| < 0x1_0000
  {
    var n := a.signatureCount;
    a.rpIdHash + [a.flags] + [n / 0x100_0000, n / 0x1_0000 % 0x100, n / 0x100 % 0x100, n % 0x100]
    + match a.attested
      case None => []
      case Some(att) =>
        att.aaguid + [|att.credentialId| / 0x100, |att.credentialId| % 0x100] + att.credentialId + att.publicKey
  }

  /** Whether `data` says `a`: bit 6 of the flags announces attested credential data, with a key that is one item, and bit 7
      extension outputs, one item that decodes to them; without that bit nothing follows. */
  predicate Says<T(==)>(x: ExtensionCodec<T>, data: seq<byte>, a: AuthenticatorData<T>) {
    && (a.attested.Some? <==> a.flags / 0x40 % 2 == 1)
    && (a.attested.Some? ==> |a.attested.value.credentialId| < 0x1_0000 && IsItem(a.attested.value.publicKey))
    && |Front(a)| <= |data| && data[..|Front(a)|] == Front(a)
    && var rest := data[|Front(a)|..];
       if a.flags / 0x80 % 2 == 1 then IsItem(rest) && x.decode(Decode(rest).value) == Some(a.extensions)
       else rest == [] && a.extensions.None?
  }

  lemma FrontIs<T>(a: AuthenticatorData<T>)
    requires a.attested.Some? ==> |a.attested.value.credentialId| < 0x1_0000
    ensures Front(a) == HeaderBytes(a) + (match a.attested case Some(att) => AttestedBytes(att) case None => [])
    ensures |Front(a)| >= 37 && Front(a)[32] == a.flags
  {
    FourBigEndian(a.signatureCount);
    assert a.signatureCount / 0x100_0000 % 0x100 == a.signatureCount / 0x100_0000;
    if a.attested.Some? {
      TwoBigEndian(|a.attested.value.credentialId|);
      assert |a.attested.value.credentialId| / 0x100 % 0x100 == |a.attested.value.credentialId| / 0x100;
    }
  }

  /** The parser accepts exactly the bytes that say something, and takes them for what they say. */
  lemma ParseIff<T>(x: ExtensionCodec<T>, data: seq<byte>, a: AuthenticatorData<T>)
    ensures Parse(x, data) == Success(a) <==> a.raw == Some(data) && Says(x, data, a)
  {
    if Parse(x, data) == Success(a) {
      AcceptedSays(x, data);
    }
    if a.raw == Some(data) && Says(x, data, a) {
      SaidIsAccepted(x, data, a);
    }
  }

  lemma AcceptedSays<T>(x: ExtensionCodec<T>, data: seq<byte>)
    requires Parse(x, data).Success?
    ensures Says(x, data, Parse(x, data).value)
  {
    hide Front, HeaderBytes, AttestedBytes, ParseItem, ParseAttested, IsItem, ResponseBytes;
    var a, end := Parse(x, data).value, ParseAttested(data).value.end;
    ParsedIsConsistent(x, data);
    FrontIs(a);
    HeaderBack(x, data);
    AttestedBack(data);
    assert data[..37] + data[37..end] == data[..end];
    ItemAlone(data[end..]);
  }

  lemma ItemAlone(s: seq<byte>)
    ensures NextItem(s).Parsed? && NextItem(s).used == |s| <==> IsItem(s)
    ensures IsItem(s) ==> NextItem(s).value == Decode(s).value
  {
    hide ParseItem;
  }

  lemma SaidIsAccepted<T>(x: ExtensionCodec<T>, data: seq<byte>, a: AuthenticatorData<T>)
    requires a.raw == Some(data) && Says(x, data, a)
    ensures Parse(x, data) == Success(a)
  {
    hide Front, HeaderBytes, AttestedBytes, ParseItem, ParseAttested, IsItem, SignatureCount;
    FrontIs(a);
    var header, rest := HeaderBytes(a), data[|Front(a)|..];
    var att := match a.attested case Some(att) => AttestedBytes(att) case None => [];
    assert data == header + (att + rest) && data == header + att + rest;
    HeaderReads(a, att + rest);
    HeaderReads(a, []);
    assert header + [] == header;
    if a.attested.Some? {
      AttestedReads(header, a.attested.value, rest);
    } else {
      NoAttested(data);
    }
    ItemAlone(rest);
  }

  /** The data is called too short exactly if the header, or what comes before the key that it announces, does not fit. */
  lemma TooShortIff<T>(x: ExtensionCodec<T>, data: seq<byte>)
    ensures Parse(x, data) == Failure(TooShort) <==>
              || |data| < 37
              || (data[32] / 0x40 % 2 == 1 && (|data| < 55 || |data| < 55 + data[53] as nat * 0x100 + data[54]))
  {
    hide NextItem;
    if |data| >= 55 {
      FromBigEndianSpelled(data[53..55]);
    }
  }

  lemma HeaderReads<T>(a: AuthenticatorData<T>, rest: seq<byte>)
    ensures var data := HeaderBytes(a) + rest;
      && data[..32] == a.rpIdHash && data[32] == a.flags && SignatureCount(data) == a.signatureCount && data[37..] == rest
  {
    hide BigEndian, FromBigEndian, Limit;
    var data := HeaderBytes(a) + rest;
    assert data[33..37] == BigEndian(a.signatureCount, 4);
    Limits();
    BigEndianRoundTrip(a.signatureCount, 4);
    Remainder(a.signatureCount, 0, Limit(4), a.signatureCount);
  }

  lemma AttestedReads(header: seq<byte>, att: AttestedCredentialData, rest: seq<byte>)
    requires |header| == 37 && Has(header[32], ATTESTED_CREDENTIALS)
    requires |att.credentialId| < 0x1_0000 && IsItem(att.publicKey)
    ensures var data := header + AttestedBytes(att) + rest;
            ParseAttested(data) == Success(AttestedPart(Some(att), |header + AttestedBytes(att)|))
  {
    hide BigEndian, FromBigEndian, Limit, ParseItem;
    var n := |att.credentialId|;
    var data := header + AttestedBytes(att) + rest;
    Limits();
    BigEndianRoundTrip(n, 2);
    Remainder(n, 0, Limit(2), n);
    assert data[32] == header[32];
    assert data[53..55] == BigEndian(n, 2);
    assert data[37..53] == att.aaguid && data[55..55 + n] == att.credentialId;
    var tail := data[55 + n..];
    assert tail == att.publicKey + rest;
    ItemLocal(att.publicKey, tail, MAX_DEPTH);
    assert data[55 + n..55 + n + |att.publicKey|] == att.publicKey;
  }

  lemma ExtensionsRead<T>(x: ExtensionCodec<T>, flags: byte, e: Option<T>)
    requires ReadsBack(x, e)
    ensures Has(flags, EXTENSION_DATA) ==> ParseExtensions(x, flags, x.encode(e)) == Success(e)
  {
    hide ParseItem;
  }

  /** Parsing the printed fields recovers every one of them exactly when the fields are consistent with the flags. */
  lemma PrintThenParse<T(!new)>(x: ExtensionCodec<T>, a: AuthenticatorData<T>)
    requires Faithful(x) && (a.attested.Some? ==> IsItem(a.attested.value.publicKey))
    ensures Parse(x, FieldBytes(x, a)) == Success(a.(raw := Some(FieldBytes(x, a)))) <==> Consistent(a)
  {
    hide IsItem, AttestedBytes, Faithful, HeaderBytes, SignatureCount;
    var data := FieldBytes(x, a);
    if Consistent(a) {
      ConsistentRoundTrip(x, a);
    } else if Parse(x, data).Success? {
      ParsedIsConsistent(x, data);
      var p := Parse(x, data).value;
      HeaderFlags(x, a);
    }
  }

  lemma HeaderFlags<T>(x: ExtensionCodec<T>, a: AuthenticatorData<T>)
    ensures |FieldBytes(x, a)| >= 37 && FieldBytes(x, a)[32] == a.flags
  {
    hide AttestedBytes;
  }

  lemma ConsistentRoundTrip<T(!new)>(x: ExtensionCodec<T>, a: AuthenticatorData<T>)
    requires Faithful(x) && Consistent(a) && (a.attested.Some? ==> IsItem(a.attested.value.publicKey))
    ensures Parse(x, FieldBytes(x, a)) == Success(a.(raw := Some(FieldBytes(x, a))))
  {
    hide IsItem, AttestedBytes, HeaderBytes, SignatureCount, ParseAttested, ParseExtensions, ReadsBack;
    var data, header := FieldBytes(x, a), HeaderBytes(a);
    var att := match a.attested case Some(att) => AttestedBytes(att) case None => [];
    var ext := if Has(a.flags, EXTENSION_DATA) then x.encode(a.extensions) else [];
    assert data == header + att + ext && data == header + (att + ext);
    HeaderReads(a, att + ext);
    HeaderReads(a, []);
    assert header + [] == header;
    assert ReadsBack(x, a.extensions);
    ExtensionsRead(x, a.flags, a.extensions);
    NoExtensions(x, a.flags);
    if a.attested.Some? {
      AttestedReads(header, a.attested.value, ext);
    } else {
      NoAttested(data);
    }
    assert data[|header + att|..] == ext;
  }

  lemma NoAttested(data: seq<byte>)
    requires |data| >= 37 && !Has(data[32], ATTESTED_CREDENTIALS)
    ensures ParseAttested(data) == Success(AttestedPart(None, 37))
  {
  }

  lemma NoExtensions<T>(x: ExtensionCodec<T>, flags: byte)
    ensures !Has(flags, EXTENSION_DATA) ==> ParseExtensions(x, flags, []) == Success(None)
  {
  }

  /** Whatever the parser accepts is consistent, and its bytes are its fields' bytes but for how extension outputs were
      encoded: the header and the attested part are reprinted unchanged. */
  lemma ParsedIsConsistent<T>(x: ExtensionCodec<T>, data: seq<byte>)
    requires Parse(x, data).Success?
    ensures var a := Parse(x, data).value;
      && Consistent(a) && ResponseBytes(x, a) == data
      && (a.attested.Some? ==> IsItem(a.attested.value.publicKey))
  {
    hide FromBigEndian, ParseItem, Limit;
    if Has(data[32], ATTESTED_CREDENTIALS) {
      Limits();
      var n := FromBigEndian(data[53..55]);
      assert n < Limit(2);
      var tail := data[55 + n..];
      var key := tail[..NextItem(tail).used];
      ItemLocal(tail, key, MAX_DEPTH);
      assert data[55 + n..55 + n + |key|] == key;
    }
  }

  /** Reprinting from the fields alone gives the accepted bytes back exactly when the extension outputs, if announced,
      were encoded the way the platform encodes them. */
  lemma ParseThenPrint<T>(x: ExtensionCodec<T>, data: seq<byte>)
    requires Parse(x, data).Success?
    ensures var a := Parse(x, data).value;
            (FieldBytes(x, a) == data
             <==> (Has(a.flags, EXTENSION_DATA) ==> x.encode(a.extensions) == data[ParseAttested(data).value.end..]))
  {
    hide ParseExtensions, HeaderBytes, AttestedBytes, ParseAttested, SignatureCount;
    var a, end := Parse(x, data).value, ParseAttested(data).value.end;
    var att := match a.attested case Some(att) => AttestedBytes(att) case None => [];
    var rest := data[end..];
    HeaderBack(x, data);
    AttestedBack(data);
    assert HeaderBytes(a) + att == data[..end];
    ExtensionsAnnounced(x, data[32], rest);
    var ext := if a.extensions.Some? || Has(a.flags, EXTENSION_DATA) then x.encode(a.extensions) else [];
    SameTail(data[..end], ext, rest);
    assert data == data[..end] + rest;
  }

  lemma SameTail(front: seq<byte>, a: seq<byte>, b: seq<byte>)
    ensures front + a == front + b <==> a == b
  {
    assert (front + a)[|front|..] == a && (front + b)[|front|..] == b;
  }

  lemma HeaderBack<T>(x: ExtensionCodec<T>, data: seq<byte>)
    requires Parse(x, data).Success?
    ensures HeaderBytes(Parse(x, data).value) == data[..37]
  {
    hide FromBigEndian, BigEndian, ParseAttested, ParseExtensions;
    FromBigEndianThenBack(data[33..37]);
  }

  lemma AttestedBack(data: seq<byte>)
    requires |data| >= 37 && ParseAttested(data).Success?
    ensures var part := ParseAttested(data).value;
            (match part.attested case Some(att) => AttestedBytes(att) case None => []) == data[37..part.end]
  {
    hide FromBigEndian, BigEndian, NextItem;
    if ParseAttested(data).value.attested.Some? {
      FromBigEndianThenBack(data[53..55]);
    }
  }

  lemma ExtensionsAnnounced<T>(x: ExtensionCodec<T>, flags: byte, rest: seq<byte>)
    requires ParseExtensions(x, flags, rest).Success?
    ensures !Has(flags, EXTENSION_DATA) ==> rest == [] && ParseExtensions(x, flags, rest) == Success(None)
  {
  }

  // ---------------------------------------------------------------------------
  // Scrubbing the AAGUID
  // ---------------------------------------------------------------------------

  const AAGUID_OFFSET: nat := 37
  const AAGUID_LEN: nat := 16

  function ZeroAaguid(): Aaguid {
    seq(16, _ => 0)
  }

  function Scrubbed(data: seq<byte>): (s: seq<byte>)
    requires |data| >= AAGUID_OFFSET + AAGUID_LEN
    ensures |s| == |data|
  {
    data[..AAGUID_OFFSET] + ZeroAaguid() + data[AAGUID_OFFSET + AAGUID_LEN..]
  }

  method ScrubAaguid(data: array<byte>) returns (ok: bool)
    modifies data
    ensures ok <==> data.Length >= AAGUID_OFFSET + AAGUID_LEN
    ensures data[..] == if ok then Scrubbed(old(data[..])) else old(data[..])
  {
    if data.Length < AAGUID_OFFSET + AAGUID_LEN { return false; }
    forall i | AAGUID_OFFSET <= i < AAGUID_OFFSET + AAGUID_LEN {
      data[i] := 0;
    }
    ok := true;
  }

  /** Parsed data with its AAGUID, if it has one, zeroed, and its raw bytes replaced. */
  function WithoutAaguid<T>(r: Result<AuthenticatorData<T>, ParseError>, raw: seq<byte>): Result<AuthenticatorData<T>, ParseError> {
    match r
    case Failure(e) => Failure(e)
    case Success(a) =>
      Success(a.(raw := Some(raw),
                 attested := match a.attested
                             case None => None
                             case Some(att) => Some(att.(aaguid := ZeroAaguid()))))
  }

  /** Scrubbing the bytes and then parsing is parsing and then zeroing only the AAGUID, rejected input included. */
  predicate Commutes<T(==)>(x: ExtensionCodec<T>, data: seq<byte>)
    requires |data| >= AAGUID_OFFSET + AAGUID_LEN
  {
    Parse(x, Scrubbed(data)) == WithoutAaguid(Parse(x, data), Scrubbed(data))
  }

  /** For data that the parser accepts, its flags decide: scrubbing commutes with parsing exactly if they announce attested
      credential data or announce no extension outputs. Otherwise scrubbing makes the data malformed. */
  lemma ScrubCommutesIff<T>(x: ExtensionCodec<T>, data: seq<byte>)
    requires |data| >= AAGUID_OFFSET + AAGUID_LEN && Parse(x, data).Success?
    ensures Commutes(x, data) <==> Has(data[32], ATTESTED_CREDENTIALS) || !Has(data[32], EXTENSION_DATA)
    ensures !Commutes(x, data) ==> Parse(x, Scrubbed(data)).Failure?
  {
    if Has(data[32], ATTESTED_CREDENTIALS) || !Has(data[32], EXTENSION_DATA) {
      ScrubCommutes(x, data);
    } else {
      ScrubWithoutAttested(x, data);
    }
  }

  /** One direction holds of rejected data, too. */
  lemma ScrubCommutes<T>(x: ExtensionCodec<T>, data: seq<byte>)
    requires |data| >= AAGUID_OFFSET + AAGUID_LEN
    requires Has(data[32], ATTESTED_CREDENTIALS) || !Has(data[32], EXTENSION_DATA)
    ensures Commutes(x, data)
  {
    hide NextItem, FromBigEndian;
    var s := Scrubbed(data);
    assert s[..32] == data[..32] && s[32] == data[32] && s[33..37] == data[33..37] && s[37..53] == ZeroAaguid();
    if Has(data[32], ATTESTED_CREDENTIALS) && |data| >= 55 {
      assert s[53..55] == data[53..55];
      var n := FromBigEndian(data[53..55]);
      if |data| >= 55 + n {
        assert s[55..55 + n] == data[55..55 + n] && s[55 + n..] == data[55 + n..];
        var key := NextItem(data[55 + n..]);
        if key.Parsed? {
          var end := 55 + n + key.used;
          assert s[55 + n..end] == data[55 + n..end] && s[end..] == data[end..];
        }
      }
    }
  }

  /** Without attested credential data the scrubbed range holds extension outputs, which then read as the integer zero with
      something after it. */
  lemma ScrubWithoutAttested<T>(x: ExtensionCodec<T>, data: seq<byte>)
    requires |data| >= AAGUID_OFFSET + AAGUID_LEN && !Has(data[32], ATTESTED_CREDENTIALS) && Has(data[32], EXTENSION_DATA)
    ensures Parse(x, Scrubbed(data)).Failure?
  {
    hide NextItem;
    var s := Scrubbed(data);
    assert s[32] == data[32] && s[37..][0] == 0;
    ZeroItem(s[37..]);
  }

  /** So what the platform itself prints with extension outputs of 16 bytes or more, and no attested credential data, is
      accepted, and malformed once it is scrubbed. */
  lemma ScrubBreaks<T(!new)>(x: ExtensionCodec<T>, a: AuthenticatorData<T>)
    requires Faithful(x) && Consistent(a) && a.attested.None? && Has(a.flags, EXTENSION_DATA)
    requires |x.encode(a.extensions)| >= AAGUID_LEN
    ensures var data := FieldBytes(x, a);
      |data| >= AAGUID_OFFSET + AAGUID_LEN && Parse(x, data).Success? && Parse(x, Scrubbed(data)).Failure?
  {
    hide Parse, HeaderBytes;
    ConsistentRoundTrip(x, a);
    HeaderFlags(x, a);
    assert |FieldBytes(x, a)| == 37 + |x.encode(a.extensions)|;
    ScrubWithoutAttested(x, FieldBytes(x, a));
  }

  /** There is such data: flags that announce extension outputs and nothing else, and one output as long as an AAGUID. */
  lemma BreakingData() returns (x: ExtensionCodec<Output>, data: seq<byte>)
    ensures |data| >= AAGUID_OFFSET + AAGUID_LEN && Parse(x, data).Success? && Parse(x, Scrubbed(data)).Failure?
    ensures Parse(x, data).value.extensions.Some? && FieldBytes(x, Parse(x, data).value) == data
  {
    hide Parse, Faithful;
    x := FaithfulCodecExists();
    var output: Output := seq(16, _ => 1);
    var a: AuthenticatorData<Output> := AuthenticatorData(seq(32, _ => 0), 0x80, 0, None, Some(output), None);
    data := FieldBytes(x, a);
    ScrubBreaks(x, a);
    ConsistentRoundTrip(x, a);
  }

  lemma ZeroItem(s: seq<byte>)
    requires s != [] && s[0] == 0
    ensures NextItem(s) == Parsed(Integer(0), 1)
  {
    assert ReadHead(s) == Parsed(Head(0, 0, 0), 1);
    assert ParseBody(Head(0, 0, 0), s[1..1], s[1..], MAX_DEPTH) == Parsed(Integer(0), 0);
  }
}
