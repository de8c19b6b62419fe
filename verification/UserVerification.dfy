/** How the platform verifies the user for a request, with a token it has or one it obtains. */
module UserVerification {
  import opened Wrappers
  import opened Bytes
  import opened AuthenticatorInfo
  import opened TokenCache
  import opened PersistentTokens
  import opened PinProtocols
  import opened UvRequest
  import opened UvChannel
  import opened UvTokenLoop

  /** How a request came to be verified. */
  datatype UsedToken =
    | FromEphemeralStorage
    | FromPersistentStorage(id: RecordId)
    | NewlyCalculated(operation: UvOperation)
    | LegacyUV
    | SharedSecretOnly
    | NoToken

  /** A token that was there before. */
  predicate FromStorage(used: UsedToken) {
    used.FromEphemeralStorage? || used.FromPersistentStorage?
  }

  predicate TokenLess(used: UsedToken) {
    used.LegacyUV? || used.SharedSecretOnly? || used.NoToken?
  }

  /** Neither a stored token nor no verification at all: what a decision with something to decide yields. */
  predicate Decided(used: UsedToken) {
    used.NewlyCalculated? || used.LegacyUV? || used.SharedSecretOnly?
  }

  function UsedIn(r: Result<UsedToken, UvError>): UsedToken {
    if r.Success? then r.value else NoToken
  }

  function SignedWith(c: PinCrypto, kind: RequestKind, protocol: Protocol, token: seq<byte>): AuthParam {
    Some((protocol, c.authenticate(protocol, token, kind.SignedMessage())))
  }

  // ---------------------------------------------------------------------------
  // Before the loop
  // ---------------------------------------------------------------------------

  /** What is settled before the loop: that there will be no verification, or what the loop starts from. */
  datatype Start = Unverified | Proceed(info: Info)

  /** The loop's task, from what the device said first and what it says after the user may have set a PIN. */
  function TaskFor(kind: RequestKind, persistent: bool, requirement: Requirement, first: Info, info: Info): Task {
    Task(kind, persistent, requirement.Discouraged?, kind.NeedsSharedSecret(first), first.CanEstablishSharedSecret(), !kind.CanUseUv(info))
  }

  /** When a request goes unverified. */
  predicate Skipped(requirement: Requirement, kind: RequestKind, first: Info) {
    || (requirement.Discouraged? && (kind.NeedsSharedSecret(first) ==> !first.CanEstablishSharedSecret()))
    || (requirement.Preferred? && !kind.NeedsSharedSecret(first) && !first.IsUvProtected())
  }

  /** The request needs a shared secret from a device that can use one. */
  predicate WantsSecret(kind: RequestKind, info: Info) {
    || (kind.MakeCredentialRequest? && kind.prf && info.Supports(HmacSecret) && info.Supports(HmacSecretMc))
    || (kind.GetAssertionRequest? && kind.hmac && info.Supports(HmacSecret))
    || WantsToken(kind, info)
  }

  /** The request writes a large blob on a device that stores them and is protected. */
  predicate WantsToken(kind: RequestKind, info: Info) {
    kind.GetAssertionRequest? && kind.largeBlobWrite && info.Enabled(LargeBlobs) && (info.Enabled(Uv) || info.Enabled(ClientPin))
  }

  /** Required verification is never skipped; preferred verification if none is on offer and no secret is wanted; discouraged
      verification unless a secret is wanted that the device can agree on. */
  lemma SkippedIff(requirement: Requirement, kind: RequestKind, first: Info)
    ensures Skipped(requirement, kind, first) <==>
      match requirement
      case Required => false
      case Preferred => !first.Enabled(Uv) && !first.Enabled(ClientPin) && !WantsSecret(kind, first)
      case Discouraged =>
        !(WantsSecret(kind, first) && (first.Exists(ClientPin) || (first.Exists(Uv) && first.Enabled(PinUvAuthToken))))
  {
  }

  /** A decision begins. */
  lemma LoopBegins(c: PinCrypto, t: Trace, info: Info, kind: RequestKind, persistent: bool, requirement: Requirement)
    requires Safe(c, t) && LatestInfo(t) == Some(info)
    requires persistent ==> info.Enabled(PerCredMgmtRO) && kind.CredentialManagementRequest? && kind.subcommand.IsReadOnly()
    ensures var u := Snoc(t, Deciding(kind, persistent));
      && LoopState(c, u, info, TaskFor(kind, persistent, requirement, info, info), false, false) && Demands(u) == 0
      && Follows(t, u) && Commands(u) == Commands(t) && Topic(u) == Some(Matter(kind, persistent, Some(info))) && Brief(u)
  {
    hide Safe, LatestInfo, Topic, UvFoundBlocked, Skips, Commands, Tokens, Demands, PinChanged, WellBehaved, Follows;
    Step(c, t, Deciding(kind, persistent));
  }

  /** Setting a PIN before the first pass leaves the loop's state as it has to be. */
  lemma AfterFirstPin(c: PinCrypto, t: Trace, u: Trace, first: Info, task: Task, info: Info)
    requires LoopState(c, t, first, task, false, false) && Demands(t) == 0 && Steady(c, t, u)
    requires UvFoundBlocked(u) == UvFoundBlocked(t) && Tokens(u) == Tokens(t) && Demands(u) == Demands(t)
    ensures Safe(c, u) && Follows(t, u) && Commands(u) == Commands(t) && Topic(u) == Topic(t) && Brief(u)
    ensures LatestInfo(u) == Some(info)
            && Skips(u) == (if Demands(u) == 0 && Topic(u).Some? then !Topic(u).value.kind.CanUseUv(info) else Skips(t)) ==>
              LoopState(c, u, info, task.(skipUv := !task.kind.CanUseUv(info)), false, false)
  {
    hide Safe, LatestInfo, Topic, UvFoundBlocked, Skips, Commands, Tokens, Demands, PinChanged, WellBehaved, Follows;
  }

  /** A verification that is required but not on offer makes the user set a PIN. There is none if it is discouraged and no
      shared secret is needed or possible, or if it is only preferred, not on offer, and no shared secret is needed. */
  method Prepare(ch: Channel, req: Ctap2Request, first: Info, requirement: Requirement) returns (r: Result<Start, UvError>)
    requires LoopState(ch.crypto, ch.trace, first, TaskFor(req.kind, req.usePersistentToken, requirement, first, first), false, false)
    requires Demands(ch.trace) == 0
    requires ch.store != null ==> ch.store.Valid()
    modifies ch`script, ch`trace, ch.store
    ensures ch.store != null ==> ch.store.Valid()
    ensures Accounted(ch.crypto, old(ch.trace), ch.trace, old(ch.Kept()), ch.Kept(), {})
    ensures Safe(ch.crypto, ch.trace) && Follows(old(ch.trace), ch.trace) && Commands(ch.trace) == Commands(old(ch.trace))
    ensures Topic(ch.trace) == Topic(old(ch.trace)) && Brief(ch.trace)
    ensures requirement.Required? && !first.IsUvProtected() && first.Exists(ClientPin) ==>
              Follows(Snoc(old(ch.trace), Ux(AskNewPin(PinNotSet))), ch.trace)
    ensures r.Success? && r.value.Proceed? ==>
              && LoopState(ch.crypto, ch.trace, r.value.info,
                           TaskFor(req.kind, req.usePersistentToken, requirement, first, r.value.info), false, false)
              && (requirement.Required? ==> r.value.info.IsUvProtected())
              && (r.value.info == first || (requirement.Required? && !first.IsUvProtected()))
    ensures r == Success(Unverified) <==> Skipped(requirement, req.kind, first)
    ensures r == Success(Unverified) ==> ch.trace == old(ch.trace) && ch.script == old(ch.script) && ch.Kept() == old(ch.Kept())
    ensures r.Failure? ==> requirement.Required? && !first.IsUvProtected() && Blamed(ch.crypto, ch.trace, r.error)
  {
    hide LoopState, LatestInfo, UvFoundBlocked, WellBehaved, Commands, Follows, Safe, Tokens, Demands, Topic, Skips, PinChanged, Steady,
      Accounted, Blamed, Brief;
    ghost var t, task := ch.trace, TaskFor(req.kind, req.usePersistentToken, requirement, first, first);
    AccountedSame(ch.crypto, t, t, ch.Kept());
    StateHas(ch.crypto, t, first, task, false, false);
    FollowsSelf(t);
    var info := first;
    var isProtected := first.IsUvProtected();
    var canEstablish := first.CanEstablishSharedSecret();
    var needsSharedSecret := req.kind.NeedsSharedSecret(first);
    var uv := !requirement.Discouraged? && (!requirement.Discouraged? || isProtected);
    if requirement.Required? && !isProtected {
      var refreshed := SetPinAndRefresh(ch, first, PinNotSet);
      AfterFirstPin(ch.crypto, t, ch.trace, first, task, if refreshed.Success? then refreshed.value else first);
      if refreshed.Failure? { return Failure(refreshed.error); }
      info := refreshed.value;
      isProtected := info.IsUvProtected();
      if !isProtected {
        DescriptionToBlame(ch.crypto, ch.trace, info, NoUvAvailable);
        return Failure(NoUvAvailable);
      }
    }
    if !needsSharedSecret {
      if !uv { return Success(Unverified); }
      if !isProtected && !requirement.Discouraged? { return Success(Unverified); }
    } else if !canEstablish && !uv {
      return Success(Unverified);
    }
    r := Success(Proceed(info));
  }

  // ---------------------------------------------------------------------------
  // After the loop
  // ---------------------------------------------------------------------------

  function OperationOf(q: ClientPinRequest): UvOperation {
    match q
    case PinToken(_, _, _) => GetPinToken
    case PinTokenWithPermissions(_, _, _, _, _) => UsingPin
    case _ => UsingUv
  }

  /** What the device handed out to the token request that `t` ends with, if that can be used, and what it was requested for. */
  function Handed(c: PinCrypto, t: Trace): Option<AuthTokenData> {
    match t
    case Snoc(b, SentClientPin(q, Success(x))) =>
      if !IsToken(q) || x.token.None? || SecretAtHand(c, b).None? || Topic(t).None? then None else
      var (publicKey, secret) := SecretAtHand(c, b).value;
      var token := c.decrypt(q.protocol, secret, x.token.value);
      if token.None? || !TokenLengthValid(q.protocol, |token.value|) then None else
      Some(AuthTokenData(q.protocol, publicKey, secret, OperationOf(q),
                         Some(TokenPermission(q.protocol, DecidingFor(t), Topic(t).value.kind.PermissionsRpid())), token))
    case _ => None
  }

  /** A token that was handed out is minted in the sense of the cache, and so never goes unaccounted for. */
  lemma HandedMints(c: PinCrypto, t: Trace)
    requires Handed(c, t).Some? && Safe(c, t)
    ensures var d := Handed(c, t).value;
      && Mints(c, t.last, d) && MintedIn(c, t, d) && d.token.Some? && TokenLengthValid(d.protocol, |d.token.value|)
      && (d.operation.UsingUv? ==> JustPrompted(t))
      && (PersistentReadOnly !in DecidingFor(t) ==> WellKept(d))
  {
  }

  /** The records made of what the device handed out: one, if that is a persistent token and the device's latest description
      identifies the device. */
  function RecordsMade(c: PinCrypto, t: Trace, used: UsedToken): set<Record> {
    if used.NewlyCalculated? && Topic(t).Some? && Topic(t).value.persistent && Handed(c, t).Some? && LatestInfo(t).Some? then
      var info, d := LatestInfo(t).value, Handed(c, t).value;
      if info.encIdentifier.Some? && |info.encIdentifier.value| == 32 && |info.aaguid| == 16 && d.token.Some? then
        {Record(d.token.value, d.protocol, DecryptEncIdentifier(c.identifierCipher, d.token.value, info.encIdentifier.value).value, info.aaguid)}
      else {}
    else {}
  }

  /** The tokens on record are accounted for, and the one just made is among them. */
  ghost predicate Filed(c: PinCrypto, start: Trace, t: Trace, before: Records, after: Records, used: UsedToken) {
    Accounted(c, start, t, before, after, RecordsMade(c, t, used)) && RecordsMade(c, t, used) <= after.Values
  }

  lemma NothingFiled(c: PinCrypto, start: Trace, t: Trace, before: Records, after: Records, used: UsedToken)
    requires Accounted(c, start, t, before, after, {}) && (used.NewlyCalculated? && Topic(t).Some? ==> !Topic(t).value.persistent)
    ensures Filed(c, start, t, before, after, used)
  {
    hide Accounted, Handed, LatestInfo, Topic;
  }

  lemma RecordIsMade(c: PinCrypto, start: Trace, t: Trace, used: UsedToken, r: Record)
    requires Safe(c, t) && r in RecordsMade(c, t, used) && Topic(t).value.kind.CredentialManagementRequest?
    requires Follows(start, t) && start != t
    ensures MadeSince(c, start, t, r)
  {
    hide Safe;
    assert Allowed(c, t.before, t.last) by { SafeAtLast(c, t); }
    assert Topic(t) == Topic(t.before) && LatestInfo(t) == LatestInfo(t.before);
  }

  lemma SafeAtLast(c: PinCrypto, t: Trace)
    requires Safe(c, t) && t.Snoc?
    ensures Allowed(c, t.before, t.last)
  {
  }

  lemma MintFiled(c: PinCrypto, start: Trace, t: Trace, info: Info, before: Records, between: Records, after: Records, deletes: bool,
                  id: Result<RecordId, UvError>, used: UsedToken)
    requires Accounted(c, start, t, before, between, {}) && Follows(start, t) && start != t && Safe(c, t)
    requires LatestInfo(t) == Some(info) && Handed(c, t).Some? && Handed(c, t).value.token.Some? && used.NewlyCalculated?
    requires Topic(t).Some? && Topic(t).value.persistent && Topic(t).value.kind.CredentialManagementRequest?
    requires id.Success? <==> info.encIdentifier.Some? && |info.encIdentifier.value| == 32 && |info.aaguid| == 16
    requires id.Failure? ==> after == between
    requires id.Success? ==>
      var d := Handed(c, t).value;
      var record := Record(d.token.value, d.protocol,
                           DecryptEncIdentifier(c.identifierCipher, d.token.value, info.encIdentifier.value).value, info.aaguid);
      id.value !in between && after == if deletes then Minted(between, id.value, record) else between[id.value := record]
    ensures Filed(c, start, t, before, after, used)
  {
    hide LatestInfo, DecryptEncIdentifier, Recognizes, Doomed, MadeSince, Handed, Topic, Safe, Follows;
    forall r | r in RecordsMade(c, t, used) ensures MadeSince(c, start, t, r) {
      RecordIsMade(c, start, t, used, r);
    }
    if id.Success? {
      assert after[id.value] in after.Values && RecordsMade(c, t, used) == {after[id.value]};
    }
  }

  /** What the loop obtained is what the device handed out, unless that cannot be used. */
  lemma GrantIsHanded(c: PinCrypto, t: Trace, o: Obtained, kind: RequestKind, persistent: bool)
    requires o.response.Some? && Granted(c, t, o, kind.Permissions(persistent), kind.PermissionsRpid()) && About(t, kind, persistent)
    requires AsksForToken(o.operation)
    ensures var token := if o.response.value.token.Some? then c.decrypt(o.protocol, o.secret, o.response.value.token.value) else None;
      if token.Some? && TokenLengthValid(o.protocol, |token.value|) then
        Handed(c, t) == Some(AuthTokenData(o.protocol, o.publicKey, o.secret, o.operation,
                                           Some(TokenPermission(o.protocol, kind.Permissions(persistent), kind.PermissionsRpid())), token))
      else Handed(c, t) == None
  {
    hide Topic;
  }

  /** A token that cannot be used explains the failure. */
  lemma GrantToBlame(c: PinCrypto, t: Trace, o: Obtained, role: Role, rpid: Option<string>, e: UvError)
    requires o.response.Some? && Granted(c, t, o, role, rpid) && AsksForToken(o.operation)
    requires TokenBlamed(c, o.protocol, Some((o.publicKey, o.secret)), o.response.value.token, e)
    ensures Blamed(c, t, e)
  {
    hide TokenBlamed, SecretAtHand, DescriptionBlamed;
  }

  /** Keep what the pass obtained and authenticate the request with the token. A persistent token goes to the store, never
      to the cache. */
  method Package(ch: Channel, req: Ctap2Request, info: Info, o: Obtained, ghost start: Trace, ghost before: Records)
    returns (r: Result<UsedToken, UvError>)
    requires AsksForToken(o.operation) <==> o.response.Some?
    requires o.response.Some? ==> Granted(ch.crypto, ch.trace, o, req.Permissions(), req.kind.PermissionsRpid())
    requires Safe(ch.crypto, ch.trace) && CacheSound(ch.crypto, ch.trace, ch.authData)
    requires LatestInfo(ch.trace) == Some(info) && About(ch.trace, req.kind, req.usePersistentToken)
    requires req.usePersistentToken ==> req.kind.CredentialManagementRequest? && ch.store != null
    requires Accounted(ch.crypto, start, ch.trace, before, ch.Kept(), {}) && Follows(start, ch.trace) && start != ch.trace
    requires ch.store != null ==> ch.store.Valid()
    modifies ch`authData, ch.store, req`auth, req`uvOption
    ensures ch.store != null ==> ch.store.Valid()
    ensures Filed(ch.crypto, start, ch.trace, before, ch.Kept(), UsedIn(r))
    ensures CacheSound(ch.crypto, ch.trace, ch.authData)
    ensures r.Failure? <==> o.response.Some? && Handed(ch.crypto, ch.trace).None?
    ensures o.response.Some? && o.response.value.token.None? ==> r == Failure(OtherCtap)
    ensures o.response.Some? && o.response.value.token.Some? ==>
              var token := ch.crypto.decrypt(o.protocol, o.secret, o.response.value.token.value);
              (r == Failure(CryptoError) <==> token.None?)
              && (r == Failure(OtherCtap) <==> token.Some? && |token.value| != 32 && !(o.protocol.One? && |token.value| == 16))
    ensures r.Failure? ==> ch.authData == old(ch.authData) && req.Carried() == old(req.Carried()) && Blamed(ch.crypto, ch.trace, r.error)
    ensures r.Success? && o.response.None? ==>
              && r.value == (if o.operation.LegacyUv? then LegacyUV else SharedSecretOnly)
              && ch.authData == Some(AuthTokenData(o.protocol, o.publicKey, o.secret, o.operation, None, None))
              && req.Carried() == old(req.Carried())
    ensures r.Success? && o.response.Some? ==>
              && r.value == NewlyCalculated(o.operation)
              && ShownBy(ch.crypto, ch.trace, old(req.Carried()), r.value, req.Carried())
              && ch.authData == (if req.usePersistentToken then old(ch.authData) else Handed(ch.crypto, ch.trace))
  {
    hide Granted, Mints, MintedIn, Filed, LatestInfo, Topic, DecryptEncIdentifier, Minted, Blamed, Accounted, Handed, Safe, Follows, About;
    ghost var c, t := ch.crypto, ch.trace;
    NothingFiled(c, start, t, before, ch.Kept(), NoToken);
    NothingFiled(c, start, t, before, ch.Kept(), LegacyUV);
    NothingFiled(c, start, t, before, ch.Kept(), SharedSecretOnly);
    if !FromPin(o.operation) && !o.operation.UsingUv? {
      ch.authData := Some(AuthTokenData(o.protocol, o.publicKey, o.secret, o.operation, None, None));
      return Success(if o.operation.LegacyUv? then LegacyUV else SharedSecretOnly);
    }
    GrantIsHanded(c, t, o, req.kind, req.usePersistentToken);
    if o.response.value.token.None? {
      GrantToBlame(c, t, o, req.Permissions(), req.kind.PermissionsRpid(), OtherCtap);
      return Failure(OtherCtap);
    }
    var decrypted := ch.crypto.decrypt(o.protocol, o.secret, o.response.value.token.value);
    if decrypted.None? {
      GrantToBlame(c, t, o, req.Permissions(), req.kind.PermissionsRpid(), CryptoError);
      return Failure(CryptoError);
    }
    var token := decrypted.value;
    if !TokenLengthValid(o.protocol, |token|) {
      GrantToBlame(c, t, o, req.Permissions(), req.kind.PermissionsRpid(), OtherCtap);
      return Failure(OtherCtap);
    }
    HandedMints(c, t);
    ghost var between := ch.Kept();
    PersistentIsNot(t, req.kind, req.usePersistentToken);
    if req.usePersistentToken {
      if ch.store != null {
        var id := StoreMintedToken(ch.store, ch.crypto.identifierCipher, info, token, o.protocol);
        MintFiled(c, start, t, info, before, between, ch.Kept(), ch.store.deletes, id, NewlyCalculated(o.operation));
      }
    } else {
      var permission := TokenPermission(o.protocol, req.kind.Permissions(req.usePersistentToken), req.kind.PermissionsRpid());
      ch.authData := Some(AuthTokenData(o.protocol, o.publicKey, o.secret, o.operation, Some(permission), Some(token)));
      NothingFiled(c, start, t, before, between, NewlyCalculated(o.operation));
    }
    req.CalculateAndSetUvAuth(ch.crypto, o.protocol, token);
    r := Success(NewlyCalculated(o.operation));
  }

  lemma PersistentIsNot(t: Trace, kind: RequestKind, persistent: bool)
    requires About(t, kind, persistent)
    ensures Topic(t).Some? && Topic(t).value.kind == kind && Topic(t).value.persistent == persistent
    ensures DecidingFor(t) == kind.Permissions(persistent)
    ensures !persistent ==> PersistentReadOnly !in kind.Permissions(persistent)
  {
    hide Topic;
  }

  // ---------------------------------------------------------------------------
  // What a verification comes to
  // ---------------------------------------------------------------------------

  /** The device's latest description offers `op`. */
  ghost predicate Offered(t: Trace, op: UvOperation) {
    LatestInfo(t).Some? && LatestInfo(t).value.Operation(UvOut(t)) == Some(op)
  }

  /** When a decision yields no more than a shared secret: the device offers no more, or verification is discouraged, a shared
      secret is needed, and a token is not. */
  ghost predicate OnlySecretDue(t: Trace, requirement: Requirement) {
    LatestInfo(t).Some? && Topic(t).Some? && Topic(t).value.first.Some? &&
    var info, matter := LatestInfo(t).value, Topic(t).value;
    || info.OnlySecretOnOffer(UvOut(t))
    || (requirement.Discouraged? && matter.kind.NeedsSharedSecret(matter.first.value) && !matter.kind.NeedsToken(info)
        && info.Operation(UvOut(t)).Some? && !info.Operation(UvOut(t)).value.LegacyUv?)
  }

  /** Only a shared secret is due if there is nothing to verify the user with, but a PIN that could be set, or tokens; or if
      verification is discouraged, on offer or not, and all that the request wants is a secret. */
  lemma OnlySecretDueIff(t: Trace, requirement: Requirement)
    requires LatestInfo(t).Some? && Topic(t).Some? && Topic(t).value.first.Some?
    ensures OnlySecretDue(t, requirement) <==>
      var info, kind, first := LatestInfo(t).value, Topic(t).value.kind, Topic(t).value.first.value;
      var builtIn, tokens := info.Enabled(Uv) && !UvOut(t), info.Enabled(PinUvAuthToken);
      || (!builtIn && !info.Enabled(ClientPin) && (info.Exists(ClientPin) || tokens))
      || (requirement.Discouraged? && WantsSecret(kind, first) && !WantsToken(kind, info)
          && if builtIn then tokens else info.Exists(ClientPin) || tokens)
  {
    hide LatestInfo, Topic, UvOut;
    OperationOffered(LatestInfo(t).value, UvOut(t));
  }

  /** The permissions that a request looks for in the cache. */
  function Sought(kind: RequestKind, permissions: Role, protocol: Protocol): TokenPermission {
    TokenPermission(protocol, permissions, kind.PermissionsRpid())
  }

  /** The cached token was granted for the request. */
  predicate Hit(cached: Option<AuthTokenData>, kind: RequestKind, permissions: Role, info: Info) {
    info.SelectProtocol().Some? && CachedToken(cached, Sought(kind, permissions, info.SelectProtocol().value)).Some?
  }

  /** The token was minted under at least these permissions, for the same relying party, and has a valid length. */
  predicate Covers(d: AuthTokenData, kind: RequestKind, permissions: Role) {
    && d.token.Some? && TokenLengthValid(d.protocol, |d.token.value|)
    && d.permission.Some? && d.permission.value.protocol == d.protocol && d.permission.value.rpid == kind.PermissionsRpid()
    && permissions <= d.permission.value.role && PersistentReadOnly !in permissions
  }

  lemma HitCovers(c: PinCrypto, t: Trace, cached: Option<AuthTokenData>, kind: RequestKind, permissions: Role, info: Info)
    requires CacheSound(c, t, cached)
    ensures Hit(cached, kind, permissions, info) <==>
              info.SelectProtocol().Some? && CachedToken(cached, Sought(kind, permissions, info.SelectProtocol().value)).Some?
    ensures Hit(cached, kind, permissions, info) ==>
              && info.SelectProtocol().Some? && cached.Some? && Covers(cached.value, kind, permissions)
              && cached.value.protocol == info.SelectProtocol().value
              && cached.value.token == CachedToken(cached, Sought(kind, permissions, cached.value.protocol))
  {
    if Hit(cached, kind, permissions, info) {
      HitIsGranted(cached.value, Sought(kind, permissions, info.SelectProtocol().value));
    }
  }

  /** The cached token is used exactly if it was minted under the protocol that the device's description selects, for the
      relying party of the request, and with every permission that the request calls for. */
  lemma HitIff(cached: Option<AuthTokenData>, kind: RequestKind, persistent: bool, info: Info)
    ensures Hit(cached, kind, kind.Permissions(persistent), info) <==>
      && cached.Some? && cached.value.token.Some? && cached.value.permission.Some?
      && info.SelectProtocol() == Some(cached.value.permission.value.protocol)
      && cached.value.permission.value.rpid == PartyOf(kind)
      && forall p: Permission :: CallsFor(kind, persistent, p) ==> p in cached.value.permission.value.role
  {
    assert forall p: Permission :: CallsFor(kind, persistent, p) <==> p in kind.Permissions(persistent);
  }

  /** Some token on record is recognized as the device's. */
  ghost predicate Known(c: PinCrypto, records: Records, info: Info) {
    exists id :: id in records && Recognizes(c.identifierCipher, records[id], info)
  }

  /** What a request carries after a decision, given what it carried before: the parameter made with the token just handed out
      and no `uv` option, or whatever parameter there was, and the option if that is how the user is verified. */
  ghost predicate ShownBy(c: PinCrypto, t: Trace, before: Proof, used: UsedToken, now: Proof)
    requires Decided(used)
  {
    Topic(t).Some? &&
    var kind := Topic(t).value.kind;
    match used
    case NewlyCalculated(op) =>
      && Handed(c, t).Some? && Handed(c, t).value.operation == op && Handed(c, t).value.token.Some?
      && now == Proof(SignedWith(c, kind, Handed(c, t).value.protocol, Handed(c, t).value.token.value), before.uvOption && !kind.NeedsPresence())
    case LegacyUV => now == Proof(before.auth, before.uvOption || kind.NeedsPresence())
    case SharedSecretOnly => now == before
  }

  /** What a decision for a request of this requirement comes to, as its trace tells. */
  ghost predicate Reached(c: PinCrypto, t: Trace, requirement: Requirement, before: Proof, used: UsedToken, now: Proof)
    requires Decided(used)
  {
    && (used.SharedSecretOnly? <==> OnlySecretDue(t, requirement))
    && (used.LegacyUV? ==> Offered(t, LegacyUv))
    && (used.NewlyCalculated? ==> Offered(t, used.operation))
    && ShownBy(c, t, before, used, now)
  }

  /** What a verification comes to, as its trace tells, given the tokens in the cache and on record and what the request
      carried before. A token on record comes first, unless one was rejected, then the cached one; otherwise it is decided
      whether and how the user is verified. Each leaves its own mark on the request. */
  ghost predicate Verified(c: PinCrypto, t: Trace, requirement: Requirement, cached: Option<AuthTokenData>, records: Records, rejected: bool,
                           before: Proof, used: UsedToken, now: Proof)
  {
    Topic(t).Some? && Topic(t).value.first.Some? &&
    var kind, persistent, first := Topic(t).value.kind, Topic(t).value.persistent, Topic(t).value.first.value;
    && (used.FromPersistentStorage? <==> persistent && !rejected && Known(c, records, first))
    && (!used.FromPersistentStorage? ==> (used.FromEphemeralStorage? <==> Hit(cached, kind, kind.Permissions(persistent), first)))
    && (!FromStorage(used) ==> (used.NoToken? <==> Skipped(requirement, kind, first)))
    && (Decided(used) ==> Reached(c, t, requirement, before, used, now))
    && (!Decided(used) ==> t.Snoc? && t.last == Deciding(kind, persistent))
    && match used
       case FromPersistentStorage(id) =>
         && id in records && Recognizes(c.identifierCipher, records[id], first)
         && now == Proof(SignedWith(c, kind, records[id].protocol, records[id].token), before.uvOption && !kind.NeedsPresence())
       case FromEphemeralStorage =>
         && cached.Some? && Covers(cached.value, kind, kind.Permissions(persistent))
         && now == Proof(SignedWith(c, kind, cached.value.protocol, cached.value.token.value), before.uvOption && !kind.NeedsPresence())
       case NoToken => now == before
       case _ => true
  }

  /** A request that requires verification goes out without any sign of it exactly if there was no fitting token in the cache,
      the device's latest description has no more than a shared secret on offer, and the request did not start out with the
      deprecated option. */
  lemma UnprovedIff(c: PinCrypto, t: Trace, cached: Option<AuthTokenData>, records: Records, rejected: bool, before: Proof, used: UsedToken,
                    now: Proof)
    requires Verified(c, t, Required, cached, records, rejected, before, used, now)
    requires before.auth.None? && Topic(t).value.kind.NeedsPresence() && records == map[]
    ensures var matter := Topic(t).value;
      now == Proof(None, false) <==>
        && !Hit(cached, matter.kind, matter.kind.Permissions(false), matter.first.value)
        && LatestInfo(t).Some? && LatestInfo(t).value.OnlySecretOnOffer(UvOut(t)) && !before.uvOption
  {
    hide LatestInfo, Topic, UvOut, Handed, Hit, Covers;
  }

  /** What the loop's end says about the outcome. */
  lemma Ends(c: PinCrypto, t: Trace, requirement: Requirement, first: Info, info: Info, task: Task, r: LoopResult)
    requires LoopEnds(c, t, task, r) && About(t, task.kind, task.persistent) && Topic(t).value.first == Some(first)
    requires task == TaskFor(task.kind, task.persistent, requirement, first, info)
    ensures r.Pass? && r.obtained.operation.OnlyForSharedSecret? <==> OnlySecretDue(t, requirement)
    ensures r.UvOptionOnly? ==> Offered(t, LegacyUv)
    ensures r.Pass? ==>
      var o := r.obtained;
      && (AsksForToken(o.operation) <==> o.response.Some?)
      && (o.response.Some? ==> Granted(c, t, o, task.Permissions(), task.Rpid()))
      && (!o.operation.OnlyForSharedSecret? ==> Offered(t, o.operation))
  {
    hide Granted, LatestInfo, UvFoundBlocked, Skips, Topic, EnforceNoMcGaWithClientPin, ChooseOperation;
    var info, uvBlocked := LatestInfo(t).value, UvFoundBlocked(t);
    OperationOffered(info, uvBlocked || task.skipUv);
    ChosenIsOffered(info, task, uvBlocked);
    SharedSecretOnlyWhen(info, task, uvBlocked);
  }

  /** The outcome that a loop's end has, once what it obtained is packaged. */
  lemma EndReaches(c: PinCrypto, t: Trace, requirement: Requirement, first: Info, info: Info, task: Task, r: LoopResult,
                   before: Proof, used: UsedToken, now: Proof)
    requires LoopEnds(c, t, task, r) && About(t, task.kind, task.persistent) && Topic(t).value.first == Some(first)
    requires task == TaskFor(task.kind, task.persistent, requirement, first, info)
    requires r.UvOptionOnly? ==> used == LegacyUV
    requires r.Pass? && r.obtained.response.None? ==> used == if r.obtained.operation.LegacyUv? then LegacyUV else SharedSecretOnly
    requires r.UvOptionOnly? || r.obtained.response.None? ==> now == Proof(before.auth, before.uvOption || UvOptionNeeded(task.kind, r))
    requires r.Pass? && r.obtained.response.Some? ==> used == NewlyCalculated(r.obtained.operation) && ShownBy(c, t, before, used, now)
    ensures Reached(c, t, requirement, before, used, now)
  {
    hide LoopEnds, Topic, Handed, OnlySecretDue, Offered, Granted;
    Ends(c, t, requirement, first, info, task, r);
  }

  // ---------------------------------------------------------------------------
  // Stored tokens first
  // ---------------------------------------------------------------------------

  /** Authenticate the request with the token on record for this device, unless one was rejected before. */
  method TryPersistentToken(ch: Channel, req: Ctap2Request, info: Info) returns (id: Option<RecordId>)
    modifies req`auth, req`uvOption
    ensures id.Some? <==>
      req.usePersistentToken && !req.persistentTokenRejected && ch.store != null && Known(ch.crypto, ch.store.records, info)
    ensures id.Some? ==>
      && id.value in ch.store.records
      && var record := ch.store.records[id.value];
         && Recognizes(ch.crypto.identifierCipher, record, info)
         && req.Carried() == Proof(SignedWith(ch.crypto, req.kind, record.protocol, record.token),
                                   old(req.uvOption) && !req.kind.NeedsPresence())
    ensures id.None? ==> req.Carried() == old(req.Carried())
  {
    if !req.usePersistentToken || req.persistentTokenRejected || ch.store == null { return None; }
    var found := RecognizeAuthenticator(ch.store, ch.crypto.identifierCipher, info);
    if found.None? { return None; }
    var (i, record) := found.value;
    req.CalculateAndSetUvAuth(ch.crypto, record.protocol, record.token);
    id := Some(i);
  }

  /** Authenticate the request with the cached token, if that was granted for it. */
  method TryCachedToken(ch: Channel, req: Ctap2Request, info: Info) returns (hit: bool)
    modifies req`auth, req`uvOption
    ensures hit <==> info.SelectProtocol().Some?
                     && CachedToken(ch.authData, Sought(req.kind, req.Permissions(), info.SelectProtocol().value)).Some?
    ensures hit ==>
      var p := info.SelectProtocol().value;
      var token := CachedToken(ch.authData, Sought(req.kind, req.Permissions(), p)).value;
      req.Carried() == Proof(SignedWith(ch.crypto, req.kind, p, token), old(req.uvOption) && !req.kind.NeedsPresence())
    ensures !hit ==> req.Carried() == old(req.Carried())
  {
    var protocol := info.SelectProtocol();
    if protocol.None? { return false; }
    var token := CachedToken(ch.authData, Sought(req.kind, req.kind.Permissions(req.usePersistentToken), protocol.value));
    if token.None? { return false; }
    req.CalculateAndSetUvAuth(ch.crypto, protocol.value, token.value);
    hit := true;
  }

  // ---------------------------------------------------------------------------
  // The whole of it
  // ---------------------------------------------------------------------------

  /** What is in the cache after a verification. */
  ghost predicate CachedAfter(c: PinCrypto, t: Trace, persistent: bool, cached: Option<AuthTokenData>, used: UsedToken, now: Option<AuthTokenData>) {
    match used
    case NewlyCalculated(_) => now == (if persistent then cached else Handed(c, t))
    case SharedSecretOnly => now.Some? && now.value.token.None?
    case LegacyUV => now == cached || (now.Some? && now.value.token.None?)
    case _ => now == cached
  }

  /** Obtain a token or a shared secret, and keep it. */
  method ObtainAndPackage(ch: Channel, req: Ctap2Request, info: Info, first: Info, requirement: Requirement, ghost start: Trace,
                          ghost before: Records)
    returns (r: Result<UsedToken, UvError>)
    requires LoopState(ch.crypto, ch.trace, info, TaskFor(req.kind, req.usePersistentToken, requirement, first, info), false, false)
    requires Topic(ch.trace) == Some(Matter(req.kind, req.usePersistentToken, Some(first)))
    requires CacheSound(ch.crypto, ch.trace, ch.authData)
    requires req.usePersistentToken ==> req.kind.CredentialManagementRequest? && ch.store != null
    requires Accounted(ch.crypto, start, ch.trace, before, ch.Kept(), {}) && Follows(start, ch.trace) && start != ch.trace
    requires ch.store != null ==> ch.store.Valid()
    modifies ch`script, ch`trace, ch`authData, ch.store, req`auth, req`uvOption
    ensures ch.store != null ==> ch.store.Valid()
    ensures Filed(ch.crypto, start, ch.trace, before, ch.Kept(), UsedIn(r))
    ensures ch.Invariant() && Follows(old(ch.trace), ch.trace) && Commands(ch.trace) == Commands(old(ch.trace))
    ensures Topic(ch.trace) == Topic(old(ch.trace))
    ensures r.Failure? ==> ch.authData == old(ch.authData) && req.auth == old(req.auth) && Blamed(ch.crypto, ch.trace, r.error)
    ensures r.Success? ==>
              && Decided(r.value) && Reached(ch.crypto, ch.trace, requirement, old(req.Carried()), r.value, req.Carried())
              && CachedAfter(ch.crypto, ch.trace, req.usePersistentToken, old(ch.authData), r.value, ch.authData)
  {
    hide LoopState, LatestInfo, UvFoundBlocked, WellBehaved, Commands, Follows, Safe, Tokens, Demands, Topic, Skips, CacheSound, Mints, Filed,
      Accounted, LoopEnds, Granted, Handed, Brief, Blamed, Reached, ShownBy;
    ghost var t, c, carried := ch.trace, ch.crypto, req.Carried();
    var task := TaskFor(req.kind, req.usePersistentToken, requirement, first, info);
    var end, latest := ObtainToken(ch, req, info, task);
    ghost var u := ch.trace;
    StillMinted(c, t, u, ch.authData);
    Continued(c, start, t, u, before, old(ch.Kept()), ch.Kept());
    NothingFiled(c, start, u, before, ch.Kept(), NoToken);
    if end.Failure? { return Failure(end.error); }
    match end.value {
      case UvOptionOnly =>
        NothingFiled(c, start, u, before, ch.Kept(), LegacyUV);
        r := Success(LegacyUV);
      case Pass(o) =>
        PassAsks(c, u, task, end.value);
        r := Package(ch, req, latest, o, start, before);
    }
    if r.Success? {
      EndReaches(c, u, requirement, first, info, task, end.value, carried, r.value, req.Carried());
    }
  }

  lemma PassAsks(c: PinCrypto, t: Trace, task: Task, r: LoopResult)
    requires LoopEnds(c, t, task, r) && r.Pass?
    ensures AsksForToken(r.obtained.operation) <==> r.obtained.response.Some?
    ensures r.obtained.response.Some? ==> Granted(c, t, r.obtained, task.Permissions(), task.Rpid())
  {
    hide Granted;
  }

  /** The tokens on record are still accounted for, and the run has grown. */
  lemma Continued(c: PinCrypto, start: Trace, t: Trace, u: Trace, before: Records, between: Records, after: Records)
    requires Accounted(c, start, t, before, between, {}) && Follows(start, t) && start != t
    requires Accounted(c, t, u, between, after, {}) && Follows(t, u)
    ensures Accounted(c, start, u, before, after, {}) && Follows(start, u) && start != u
  {
    hide Accounted, Follows;
    AccountedThen(c, start, t, u, before, between, after, {});
    FollowsTransitive(start, t, u);
    FollowsIsLonger(start, t);
    FollowsIsLonger(t, u);
  }

  /** Decide whether and how the user is verified, once that is under way. */
  method DecideAndObtain(ch: Channel, req: Ctap2Request, first: Info, requirement: Requirement, ghost start: Trace)
    returns (r: Result<UsedToken, UvError>)
    requires LoopState(ch.crypto, ch.trace, first, TaskFor(req.kind, req.usePersistentToken, requirement, first, first), false, false)
    requires Topic(ch.trace) == Some(Matter(req.kind, req.usePersistentToken, Some(first))) && Demands(ch.trace) == 0
    requires CacheSound(ch.crypto, ch.trace, ch.authData)
    requires req.usePersistentToken ==> req.kind.CredentialManagementRequest? && ch.store != null
    requires Follows(start, ch.trace) && start != ch.trace
    requires ch.store != null ==> ch.store.Valid()
    modifies ch`script, ch`trace, ch`authData, ch.store, req`auth, req`uvOption
    ensures ch.store != null ==> ch.store.Valid()
    ensures Filed(ch.crypto, start, ch.trace, old(ch.Kept()), ch.Kept(), UsedIn(r))
    ensures ch.Invariant() && Follows(old(ch.trace), ch.trace) && Commands(ch.trace) == Commands(old(ch.trace))
    ensures Topic(ch.trace) == Topic(old(ch.trace))
    ensures r == Success(NoToken) <==> Skipped(requirement, req.kind, first)
    ensures r == Success(NoToken) ==>
              && ch.trace == old(ch.trace) && ch.script == old(ch.script) && ch.Kept() == old(ch.Kept())
              && req.Carried() == old(req.Carried())
    ensures r.Failure? ==> ch.authData == old(ch.authData) && req.auth == old(req.auth) && Blamed(ch.crypto, ch.trace, r.error)
    ensures r.Success? ==> CachedAfter(ch.crypto, ch.trace, req.usePersistentToken, old(ch.authData), r.value, ch.authData)
    ensures r.Success? && !r.value.NoToken? ==>
              Decided(r.value) && Reached(ch.crypto, ch.trace, requirement, old(req.Carried()), r.value, req.Carried())
  {
    hide LoopState, LatestInfo, WellBehaved, Commands, Follows, Safe, Tokens, Demands, Topic, Skips, CacheSound, Filed, Accounted,
      Blamed, Brief, Skipped, Reached, TaskFor;
    ghost var t, before, c := ch.trace, ch.Kept(), ch.crypto;
    AccountedSame(c, start, t, before);
    var prepared := Prepare(ch, req, first, requirement);
    ghost var u := ch.trace;
    StillMinted(c, t, u, ch.authData);
    Continued(c, start, t, u, before, before, ch.Kept());
    NothingFiled(c, start, u, before, ch.Kept(), NoToken);
    if prepared.Failure? { return Failure(prepared.error); }
    if prepared.value.Unverified? { return Success(NoToken); }
    r := ObtainAndPackage(ch, req, prepared.value.info, first, requirement, start, before);
    FollowsTransitive(t, u, ch.trace);
  }

  /** The trace continues `old_` with the device's description and a decision about the request. */
  ghost predicate Begun(old_: Trace, t: Trace, kind: RequestKind, persistent: bool, first: Info) {
    && Follows(Snoc(Snoc(old_, SentGetInfo(Success(first))), Deciding(kind, persistent)), t)
    && Topic(t) == Some(Matter(kind, persistent, Some(first)))
  }

  /** Read-only credential management uses persistent tokens if there is a store and the device supports that. */
  predicate ReadsPersistently(kind: RequestKind, storeAvailable: bool, info: Info) {
    && kind.CredentialManagementRequest? && storeAvailable && info.Enabled(PerCredMgmtRO)
    && !kind.subcommand.DeleteCredential? && !kind.subcommand.UpdateUserInformation?
  }

  predicate IsPreviewOnly(info: Info) {
    !info.Enabled(CredMgmt) && info.Enabled(CredentialMgmtPreview)
  }

  /** What the device says of itself, and what that means for the request. The decision about the request starts here. */
  method StartVerifying(ch: Channel, req: Ctap2Request, ghost requirement: Requirement) returns (r: Result<Info, UvError>)
    requires ch.Invariant() && (req.usePersistentToken ==> req.kind.CredentialManagementRequest?)
    modifies ch`script, ch`trace, req`useLegacyPreview, req`usePersistentToken
    ensures ch.Invariant() && Follows(old(ch.trace), ch.trace) && old(ch.trace) != ch.trace && Commands(ch.trace) == Commands(old(ch.trace))
    ensures req.usePersistentToken ==> req.kind.CredentialManagementRequest?
    ensures r.Failure? ==> Blamed(ch.crypto, ch.trace, r.error)
    ensures r.Success? <==> old(ch.script) != [] && old(ch.script)[0].info.Success?
    ensures r.Success? ==>
              && r.value == old(ch.script)[0].info.value && ch.script == old(ch.script)[1..]
              && ch.trace == Snoc(Snoc(old(ch.trace), SentGetInfo(r)), Deciding(req.kind, req.usePersistentToken))
              && Topic(ch.trace) == Some(Matter(req.kind, req.usePersistentToken, Some(r.value))) && Demands(ch.trace) == 0
              && LoopState(ch.crypto, ch.trace, r.value, TaskFor(req.kind, req.usePersistentToken, requirement, r.value, r.value), false, false)
              && (req.usePersistentToken ==> ch.store != null)
              && (req.kind.CredentialManagementRequest? ==>
                    && req.usePersistentToken == ReadsPersistently(req.kind, ch.store != null, r.value)
                    && req.useLegacyPreview == (old(req.useLegacyPreview) || IsPreviewOnly(r.value)))
  {
    hide UvFoundBlocked, WellBehaved, Commands, Follows, Safe, Tokens, Demands, Topic, Skips, CacheSound, Brief, LoopState, LatestInfo, Blamed;
    ghost var t, c := ch.trace, ch.crypto;
    r := ch.GetInfo();
    ghost var u := ch.trace;
    InfoSeen(c, t, r);
    StillMinted(c, t, u, ch.authData);
    FollowsIsLonger(t, u);
    if r.Failure? {
      InfoToBlame(c, u, r.error);
      return;
    }
    req.HandleLegacyPreview(r.value);
    req.SetPersistentTokenUse(r.value, ch.store != null);
    ch.Note(Deciding(req.kind, req.usePersistentToken));
    ghost var v := ch.trace;
    LoopBegins(c, u, r.value, req.kind, req.usePersistentToken, requirement);
    StateHas(c, v, r.value, TaskFor(req.kind, req.usePersistentToken, requirement, r.value, r.value), false, false);
    StillMinted(c, u, v, ch.authData);
    FollowsTransitive(t, u, v);
    FollowsIsLonger(u, v);
  }

  /** The three ways to come to a verification. */
  lemma ByRecord(c: PinCrypto, t: Trace, requirement: Requirement, cached: Option<AuthTokenData>, records: Records, rejected: bool,
                 before: Proof, id: RecordId, now: Proof)
    requires t.Snoc? && t.last.Deciding? && Topic(t).Some? && Topic(t).value.first.Some?
    requires Topic(t).value.kind == t.last.kind && Topic(t).value.persistent == t.last.persistent && t.last.persistent && !rejected
    requires id in records && Recognizes(c.identifierCipher, records[id], Topic(t).value.first.value)
    requires now == Proof(SignedWith(c, t.last.kind, records[id].protocol, records[id].token), before.uvOption && !t.last.kind.NeedsPresence())
    ensures Verified(c, t, requirement, cached, records, rejected, before, FromPersistentStorage(id), now)
  {
    hide Topic, Recognizes, Hit, Covers, Skipped;
  }

  lemma ByCache(c: PinCrypto, t: Trace, requirement: Requirement, cached: Option<AuthTokenData>, records: Records, rejected: bool,
                before: Proof, first: Info, now: Proof)
    requires t.Snoc? && t.last.Deciding? && Topic(t) == Some(Matter(t.last.kind, t.last.persistent, Some(first))) && CacheSound(c, t, cached)
    requires !(t.last.persistent && !rejected && Known(c, records, first))
    requires Hit(cached, t.last.kind, t.last.kind.Permissions(t.last.persistent), first)
    requires var token := CachedToken(cached, Sought(t.last.kind, t.last.kind.Permissions(t.last.persistent), first.SelectProtocol().value));
      now == Proof(SignedWith(c, t.last.kind, first.SelectProtocol().value, token.value), before.uvOption && !t.last.kind.NeedsPresence())
    ensures Verified(c, t, requirement, cached, records, rejected, before, FromEphemeralStorage, now)
  {
    hide Topic, Recognizes, Skipped, Known, CacheSound;
    HitCovers(c, t, cached, t.last.kind, t.last.kind.Permissions(t.last.persistent), first);
  }

  lemma ByDecision(c: PinCrypto, t: Trace, requirement: Requirement, cached: Option<AuthTokenData>, records: Records, rejected: bool,
                   before: Proof, kind: RequestKind, persistent: bool, first: Info, used: UsedToken, now: Proof)
    requires Topic(t) == Some(Matter(kind, persistent, Some(first)))
    requires !(persistent && !rejected && Known(c, records, first)) && !Hit(cached, kind, kind.Permissions(persistent), first)
    requires !FromStorage(used) && (used.NoToken? <==> Skipped(requirement, kind, first))
    requires used.NoToken? ==> now == before && t.Snoc? && t.last == Deciding(kind, persistent)
    requires Decided(used) ==> Reached(c, t, requirement, before, used, now)
    ensures Verified(c, t, requirement, cached, records, rejected, before, used, now)
  {
    hide Topic, Recognizes, Skipped, Known, Hit, Reached;
  }

  /** A token on record, or else the cached one, if it is good for the request. */
  method TryStoredTokens(ch: Channel, req: Ctap2Request, first: Info, ghost requirement: Requirement) returns (used: Option<UsedToken>)
    requires ch.trace.Snoc? && ch.trace.last == Deciding(req.kind, req.usePersistentToken)
    requires Topic(ch.trace) == Some(Matter(req.kind, req.usePersistentToken, Some(first)))
    requires CacheSound(ch.crypto, ch.trace, ch.authData) && (req.usePersistentToken ==> ch.store != null)
    modifies req`auth, req`uvOption
    ensures used.Some? ==>
              && FromStorage(used.value)
              && Verified(ch.crypto, ch.trace, requirement, ch.authData, ch.Kept(), req.persistentTokenRejected, old(req.Carried()),
                          used.value, req.Carried())
    ensures used.None? ==>
              && req.Carried() == old(req.Carried())
              && !(req.usePersistentToken && !req.persistentTokenRejected && Known(ch.crypto, ch.Kept(), first))
              && !Hit(ch.authData, req.kind, req.Permissions(), first)
  {
    hide Topic, CacheSound, Recognizes, CachedToken, Hit, Covers, Known, Verified;
    ghost var carried := req.Carried();
    var id := TryPersistentToken(ch, req, first);
    if id.Some? {
      ByRecord(ch.crypto, ch.trace, requirement, ch.authData, ch.Kept(), req.persistentTokenRejected, carried, id.value, req.Carried());
      return Some(FromPersistentStorage(id.value));
    }
    var hit := TryCachedToken(ch, req, first);
    HitCovers(ch.crypto, ch.trace, ch.authData, req.kind, req.Permissions(), first);
    if hit {
      ByCache(ch.crypto, ch.trace, requirement, ch.authData, ch.Kept(), req.persistentTokenRejected, carried, first, req.Carried());
      return Some(FromEphemeralStorage);
    }
    used := None;
  }

  /** What the device says first, a stored token if there is one for the request, and failing that a decision. */
  method VerifyUser(ch: Channel, req: Ctap2Request, requirement: Requirement) returns (r: Result<UsedToken, UvError>)
    requires ch.Invariant() && (ch.store != null ==> ch.store.Valid())
    requires req.usePersistentToken ==> req.kind.CredentialManagementRequest?
    modifies ch`script, ch`trace, ch`authData, ch.store, req`auth, req`uvOption, req`useLegacyPreview, req`usePersistentToken
    ensures ch.Invariant() && (ch.store != null ==> ch.store.Valid())
    ensures Follows(old(ch.trace), ch.trace) && old(ch.trace) != ch.trace && Commands(ch.trace) == Commands(old(ch.trace))
    ensures Filed(ch.crypto, old(ch.trace), ch.trace, old(ch.Kept()), ch.Kept(), UsedIn(r))
    ensures req.usePersistentToken ==> req.kind.CredentialManagementRequest?
    ensures r.Failure? ==> ch.authData == old(ch.authData) && req.auth == old(req.auth) && Blamed(ch.crypto, ch.trace, r.error)
    ensures r.Success? ==>
              && old(ch.script) != [] && old(ch.script)[0].info.Success?
              && Begun(old(ch.trace), ch.trace, req.kind, req.usePersistentToken, old(ch.script)[0].info.value)
              && (req.kind.CredentialManagementRequest? ==>
                    && req.usePersistentToken == ReadsPersistently(req.kind, ch.store != null, old(ch.script)[0].info.value)
                    && req.useLegacyPreview == (old(req.useLegacyPreview) || IsPreviewOnly(old(ch.script)[0].info.value)))
              && Verified(ch.crypto, ch.trace, requirement, old(ch.authData), old(ch.Kept()), old(req.persistentTokenRejected),
                          old(req.Carried()), r.value, req.Carried())
              && CachedAfter(ch.crypto, ch.trace, req.usePersistentToken, old(ch.authData), r.value, ch.authData)
              && (!Decided(r.value) ==> ch.script == old(ch.script)[1..] && ch.Kept() == old(ch.Kept()))
    ensures !req.kind.CredentialManagementRequest? && old(ch.script) != [] && old(ch.script)[0].info.Success?
            && (|| Hit(old(ch.authData), req.kind, req.kind.Permissions(false), old(ch.script)[0].info.value)
                || Skipped(requirement, req.kind, old(ch.script)[0].info.value)) ==>
              r.Success?
  {
    hide UvFoundBlocked, WellBehaved, Commands, Follows, Safe, Tokens, Demands, Topic, Skips, CacheSound, Filed, Accounted, Blamed, Brief,
      Skipped, Recognizes, CachedToken, Hit, Covers, Reached, LoopState, LatestInfo, Known, TaskFor, Verified;
    ghost var cached, rejected, carried := ch.authData, req.persistentTokenRejected, req.Carried();
    ghost var t, before, c := ch.trace, ch.Kept(), ch.crypto;
    var first := StartVerifying(ch, req, requirement);
    ghost var v := ch.trace;
    AccountedSame(c, t, v, before);
    NothingFiled(c, t, v, before, before, NoToken);
    if first.Failure? { return Failure(first.error); }
    FollowsSelf(v);
    var stored := TryStoredTokens(ch, req, first.value, requirement);
    if stored.Some? {
      NothingFiled(c, t, v, before, before, stored.value);
      return Success(stored.value);
    }
    r := DecideAndObtain(ch, req, first.value, requirement, t);
    FollowsTransitive(t, v, ch.trace);
    FollowsIsLonger(t, v);
    FollowsIsLonger(v, ch.trace);
    if r.Success? {
      ByDecision(c, ch.trace, requirement, cached, before, rejected, carried, req.kind, req.usePersistentToken, first.value, r.value, req.Carried());
    }
  }
}
