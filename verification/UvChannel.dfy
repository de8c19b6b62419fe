/**
 A channel to an authenticator and to the user, and the record of everything that crossed it.

 Both ends are adversaries: whatever is asked of them, the answer is the next entry of an arbitrary script, and when the
 script has run out the ceremony is interrupted. Every claim about a run is therefore a claim about all answers that
 devices and users can give.
 */
module UvChannel {
  import opened Wrappers
  import opened Bytes
  import opened AuthenticatorInfo
  import opened TokenCache
  import opened PersistentTokens
  import opened PinProtocols
  import opened UvRequest

  datatype PinReason = FallbackFromUV | RelyingPartyRequest | AuthenticatorPolicy

  datatype PinNotSetReason = PinNotSet | PinChangeRequired | TooShort | TooLong | PolicyViolation

  datatype UxUpdate =
    | PresenceRequired
    | AskPin(reason: PinReason, attemptsLeft: Option<nat>)
    | AskNewPin(why: PinNotSetReason)
    | UvRetry(attemptsLeft: Option<nat>)

  datatype ClientPinRequest =
    | GetKeyAgreement(protocol: Protocol)
    | GetPinRetries(withProtocol: Option<Protocol>)
    | GetUvRetries
    | SetPin(protocol: Protocol, newPinEnc: seq<byte>, publicKey: seq<byte>, param: seq<byte>)
    | ChangePin(protocol: Protocol, newPinEnc: seq<byte>, pinHashEnc: seq<byte>, publicKey: seq<byte>, param: seq<byte>)
    | PinToken(protocol: Protocol, publicKey: seq<byte>, pinHashEnc: seq<byte>)
    | PinTokenWithPermissions(protocol: Protocol, publicKey: seq<byte>, pinHashEnc: seq<byte>, role: Role, rpid: Option<string>)
    | UvTokenWithPermissions(protocol: Protocol, publicKey: seq<byte>, role: Role, rpid: Option<string>)

  datatype ClientPinResponse = ClientPinResponse(
    keyAgreement: Option<seq<byte>>, token: Option<seq<byte>>, pinRetries: Option<nat>, uvRetries: Option<nat>)

  /** The requests that a ceremony is about. */
  datatype Command =
    | RequestCommand(kind: RequestKind, proof: Proof, preview: bool)
    | SilentAssertionCommand(rpid: string, credentialId: seq<byte>)   // preflight: no presence, no verification
    | DummyCredentialCommand                                          // a credential for show
    | GetNextAssertionCommand
    | EnumerateNextCommand(nextPreview: bool)
    | ResetCommand

  /** What the platform looks at in the answer to a command. */
  datatype CommandResponse = CommandResponse(rpIdHashMatches: bool, credentialsCount: Option<nat>, credentialId: Option<seq<byte>>)

  datatype Event =
    | SentGetInfo(info: Result<Info, UvError>)
    | SentClientPin(request: ClientPinRequest, response: Result<ClientPinResponse, UvError>)
    | SentCommand(command: Command, result: Result<CommandResponse, UvError>)
    | Ux(update: UxUpdate)
    | Entered(pin: Option<Pin>)
    | Deciding(kind: RequestKind, persistent: bool)   // the platform starts verifying the user for such a request

  /** Everything that happened, the latest event outermost. */
  datatype Trace = Empty | Snoc(before: Trace, last: Event)

  /** What the other side has in store for the next exchange, whichever it is. */
  datatype Reply = Reply(
    info: Result<Info, UvError>, clientPin: Result<ClientPinResponse, UvError>, command: Result<CommandResponse, UvError>, entry: Option<Pin>)

  // ---------------------------------------------------------------------------
  // Reading a trace
  // ---------------------------------------------------------------------------

  predicate IsPinToken(q: ClientPinRequest) {
    q.PinToken? || q.PinTokenWithPermissions?
  }

  predicate IsToken(q: ClientPinRequest) {
    IsPinToken(q) || q.UvTokenWithPermissions?
  }

  /** The latest description the device gave of itself. */
  function LatestInfo(t: Trace): Option<Info> {
    match t
    case Empty => None
    case Snoc(b, SentGetInfo(Success(info))) => Some(info)
    case Snoc(b, _) => LatestInfo(b)
  }

  /** What the user is verified for, whether a persistent token is to be used, and what the device said of itself first. */
  datatype Matter = Matter(kind: RequestKind, persistent: bool, first: Option<Info>)

  /** The decision under way, or the last one. */
  function Topic(t: Trace): Option<Matter> {
    match t
    case Empty => None
    case Snoc(b, Deciding(kind, persistent)) => Some(Matter(kind, persistent, LatestInfo(b)))
    case Snoc(b, _) => Topic(b)
  }

  predicate About(t: Trace, kind: RequestKind, persistent: bool) {
    Topic(t).Some? && Topic(t).value.kind == kind && Topic(t).value.persistent == persistent
  }

  /** The permissions that this takes. */
  function DecidingFor(t: Trace): Role {
    match Topic(t)
    case None => {}
    case Some(matter) => matter.kind.Permissions(matter.persistent)
  }

  /** An answer that says built-in verification is blocked. */
  predicate SaysBlocked(e: Event) {
    match e
    case SentClientPin(q, Failure(UvBlocked)) => IsToken(q)
    case SentClientPin(GetUvRetries, Success(r)) => r.uvRetries == Some(0)
    case _ => false
  }

  /** Whether built-in verification was found blocked during the decision under way. */
  predicate UvFoundBlocked(t: Trace) {
    match t
    case Empty => false
    case Snoc(b, Deciding(_, _)) => false
    case Snoc(b, e) => SaysBlocked(e) || UvFoundBlocked(b)
  }

  /** The user was just asked for presence, or was asked for it and then verified by the device itself. */
  predicate JustPrompted(t: Trace) {
    match t
    case Snoc(_, Ux(PresenceRequired)) => true
    case Snoc(Snoc(_, Ux(PresenceRequired)), SentClientPin(q, Success(_))) => q.UvTokenWithPermissions?
    case _ => false
  }

  /** How many commands were sent, not counting those that go unnoticed by the user. */
  function Commands(t: Trace): nat {
    match t
    case Empty => 0
    case Snoc(b, SentCommand(command, _)) => if command.SilentAssertionCommand? then Commands(b) else Commands(b) + 1
    case Snoc(b, _) => Commands(b)
  }

  /** How many token requests there were since the platform started deciding. */
  function Tokens(t: Trace): nat {
    match t
    case Empty => 0
    case Snoc(b, Deciding(_, _)) => 0
    case Snoc(b, SentClientPin(q, _)) => if IsToken(q) then Tokens(b) + 1 else Tokens(b)
    case Snoc(b, _) => Tokens(b)
  }

  /** How often the user was asked to change the PIN because the device demanded it, since then. */
  function Demands(t: Trace): nat {
    match t
    case Empty => 0
    case Snoc(b, Deciding(_, _)) => 0
    case Snoc(b, Ux(AskNewPin(PinChangeRequired))) => Demands(b) + 1
    case Snoc(b, _) => Demands(b)
  }

  /** Whether the request does without built-in verification: that is settled by what the device said before it demanded any
      PIN change. */
  predicate Skips(t: Trace) {
    match t
    case Empty => false
    case Snoc(b, Deciding(kind, _)) => LatestInfo(b).Some? && !kind.CanUseUv(LatestInfo(b).value)
    case Snoc(b, SentGetInfo(Success(info))) =>
      if Demands(b) > 0 || Topic(b).None? then Skips(b) else !Topic(b).value.kind.CanUseUv(info)
    case Snoc(b, _) => Skips(b)
  }

  /** Built-in verification is out. */
  predicate UvOut(t: Trace) {
    UvFoundBlocked(t) || Skips(t)
  }

  /** Whether a PIN was set or changed. */
  predicate PinChanged(t: Trace) {
    match t
    case Empty => false
    case Snoc(b, SentClientPin(q, Success(_))) => q.SetPin? || q.ChangePin? || PinChanged(b)
    case Snoc(b, _) => PinChanged(b)
  }

  /** A key agreement just made, after the user just entered a PIN when asked for one: what a PIN token request needs. */
  predicate PinFreshlyEntered(c: PinCrypto, t: Trace, q: ClientPinRequest)
    requires IsPinToken(q)
  {
    match t
    case Snoc(Snoc(Snoc(_, Ux(AskPin(_, _))), Entered(Some(pin))), SentClientPin(GetKeyAgreement(p), Success(r))) =>
      p == q.protocol && r.keyAgreement.Some? && c.encapsulate(p, r.keyAgreement.value).Some?
      && var (publicKey, secret) := c.encapsulate(p, r.keyAgreement.value).value;
         q.publicKey == publicKey && q.pinHashEnc == c.encrypt(p, secret, c.pinHash(pin.utf8))
    case _ => false
  }

  // ---------------------------------------------------------------------------
  // Safety
  // ---------------------------------------------------------------------------

  /** What the platform may send or do after `t`. A token is requested for the permissions and the relying party of the
      request that the user is being verified for, and a persistent one only to read, on a device that says it supports that;
      with a PIN only if the device's latest description allows that for these permissions, and right after the user entered
      the PIN for it; with built-in verification only right after a presence prompt, and not if that is out. What is then sent
      is that request. A credential is made or used only right after a presence prompt, or after the built-in verification
      that followed one; silent assertions use none. */
  predicate Allowed(c: PinCrypto, t: Trace, e: Event) {
    match e
    case SentClientPin(q, _) =>
      && (IsToken(q) ==> Topic(t).Some?)
      && (IsToken(q) && !q.PinToken? ==> q.role == DecidingFor(t) && q.rpid == Topic(t).value.kind.PermissionsRpid())
      && (IsPinToken(q) ==>
            && LatestInfo(t).Some? && PinTokenAllowed(LatestInfo(t).value, DecidingFor(t))
            && PinFreshlyEntered(c, t, q))
      && (q.UvTokenWithPermissions? ==> t.Snoc? && t.last == Ux(PresenceRequired) && !UvOut(t))
    case SentCommand(RequestCommand(kind, _, _), _) =>
      Topic(t).Some? && Topic(t).value.kind == kind && (kind.NeedsPresence() ==> JustPrompted(t))
    case SentCommand(DummyCredentialCommand, _) => JustPrompted(t)
    case Deciding(kind, persistent) =>
      persistent ==>
        && kind.CredentialManagementRequest? && !kind.subcommand.DeleteCredential? && !kind.subcommand.UpdateUserInformation?
        && LatestInfo(t).Some? && LatestInfo(t).value.Enabled(PerCredMgmtRO)
    case _ => true
  }

  predicate Safe(c: PinCrypto, t: Trace) {
    t.Snoc? ==> Safe(c, t.before) && Allowed(c, t.before, t.last)
  }

  /** Whatever was done in a safe run was allowed when it was done. */
  lemma {:induction false} EveryEventWasAllowed(c: PinCrypto, t: Trace, before: Trace, e: Event)
    requires Safe(c, t) && Follows(Snoc(before, e), t)
    ensures Allowed(c, before, e) && Safe(c, before)
  {
    if t != Snoc(before, e) {
      EveryEventWasAllowed(c, t.before, before, e);
    }
  }

  /** Whether a request calls for a permission. Making a credential calls for ga, too, so that the platform may look for
      credentials silently. */
  predicate CallsFor(kind: RequestKind, persistent: bool, p: Permission) {
    match p
    case MakeCredential => kind.MakeCredentialRequest?
    case GetAssertion => kind.MakeCredentialRequest? || kind.GetAssertionRequest?
    case LargeBlobWrite => kind.GetAssertionRequest? && kind.largeBlobWrite
    case CredentialManagement => kind.CredentialManagementRequest? && !persistent
    case PersistentReadOnly => kind.CredentialManagementRequest? && persistent
    case AuthenticatorConfiguration => kind.ConfigurationRequest?
    case BioEnrollment => kind.BioEnrollmentRequest?
  }

  /** The relying party that it is about, if any. */
  function PartyOf(kind: RequestKind): Option<string> {
    match kind
    case MakeCredentialRequest(rpid, _, _) => Some(rpid)
    case GetAssertionRequest(rpid, _, _, _) => Some(rpid)
    case _ => None
  }

  /** In a safe run a token is requested with exactly the permissions that the request at hand calls for, and bound to its
      relying party. Persistent permissions are for reading alone. */
  lemma TokenServes(c: PinCrypto, t: Trace, before: Trace, q: ClientPinRequest, response: Result<ClientPinResponse, UvError>)
    requires Safe(c, t) && Follows(Snoc(before, SentClientPin(q, response)), t)
    requires q.PinTokenWithPermissions? || q.UvTokenWithPermissions?
    ensures Topic(before).Some?
    ensures var matter := Topic(before).value;
      && (forall p: Permission :: p in q.role <==> CallsFor(matter.kind, matter.persistent, p)) && q.rpid == PartyOf(matter.kind)
      && (PersistentReadOnly in q.role ==>
            !matter.kind.subcommand.DeleteCredential? && !matter.kind.subcommand.UpdateUserInformation?)
  {
    hide Topic, LatestInfo;
    EveryEventWasAllowed(c, t, before, SentClientPin(q, response));
    PersistentReads(c, before);
  }

  /** In a safe run persistent tokens are only considered for reading credentials. */
  lemma {:induction false} PersistentReads(c: PinCrypto, t: Trace)
    requires Safe(c, t)
    ensures Topic(t).Some? && Topic(t).value.persistent ==>
      var kind := Topic(t).value.kind;
      && kind.CredentialManagementRequest? && !kind.subcommand.DeleteCredential? && !kind.subcommand.UpdateUserInformation?
      && Topic(t).value.first.Some? && Topic(t).value.first.value.Enabled(PerCredMgmtRO)
  {
    hide LatestInfo;
    if t.Snoc? && !t.last.Deciding? {
      PersistentReads(c, t.before);
    }
  }

  /** Unless a PIN change was demanded in between, it is the device's latest description that decides. */
  lemma {:induction false} SkipsIff(t: Trace)
    requires Topic(t).Some? && Demands(t) == 0 && LatestInfo(t).Some?
    ensures var kind, info := Topic(t).value.kind, LatestInfo(t).value;
      Skips(t) <==> (kind.ConfigurationRequest? && !info.Enabled(UvAcfg)) || (kind.BioEnrollmentRequest? && !info.Enabled(UvBioEnroll))
  {
    if !t.last.Deciding? && !(t.last.SentGetInfo? && t.last.info.Success?) {
      SkipsIff(t.before);
    }
  }

  /** Events that ask for no token, demand no PIN change, and send no command. */
  predicate Plain(e: Event) {
    match e
    case SentClientPin(q, _) => !IsToken(q) && !q.GetUvRetries?
    case Ux(u) => u != AskNewPin(PinChangeRequired)
    case Entered(_) => true
    case _ => false
  }

  /** `t` is `old` followed by plain events. */
  predicate PlainSince(old_: Trace, t: Trace) {
    t == old_ || (t.Snoc? && Plain(t.last) && PlainSince(old_, t.before))
  }

  lemma {:induction false} PlainKeeps(c: PinCrypto, old_: Trace, t: Trace)
    requires PlainSince(old_, t)
    ensures Safe(c, t) <==> Safe(c, old_)
    ensures LatestInfo(t) == LatestInfo(old_) && Topic(t) == Topic(old_)
    ensures UvFoundBlocked(t) == UvFoundBlocked(old_) && Skips(t) == Skips(old_)
    ensures Commands(t) == Commands(old_) && Tokens(t) == Tokens(old_) && Demands(t) == Demands(old_)
    ensures PinChanged(old_) ==> PinChanged(t)
    ensures WellBehaved(t) <==> WellBehaved(old_)
    ensures Follows(old_, t)
  {
    if t != old_ {
      PlainKeeps(c, old_, t.before);
    }
  }

  /** `t` continues `old_`. */
  predicate Follows(old_: Trace, t: Trace) {
    t == old_ || (t.Snoc? && Follows(old_, t.before))
  }

  lemma FollowsSelf(t: Trace)
    ensures Follows(t, t)
  {
  }

  function Length(t: Trace): nat {
    if t.Snoc? then Length(t.before) + 1 else 0
  }

  lemma {:induction false} FollowsIsLonger(a: Trace, b: Trace)
    requires Follows(a, b)
    ensures Length(a) <= Length(b) && (Length(a) == Length(b) ==> a == b)
  {
    if a != b {
      FollowsIsLonger(a, b.before);
    }
  }

  lemma {:induction false} FollowsTransitive(a: Trace, b: Trace, c: Trace)
    requires Follows(a, b) && Follows(b, c)
    ensures Follows(a, c)
  {
    if b != c {
      FollowsTransitive(a, b, c.before);
    }
  }

  // ---------------------------------------------------------------------------
  // Devices that let the token loop end
  // ---------------------------------------------------------------------------

  /** The device never answers a PIN token request with `e`. */
  predicate NeverToPin(t: Trace, e: UvError) {
    match t
    case Empty => true
    case Snoc(b, SentClientPin(q, Failure(x))) => NeverToPin(b, e) && !(IsPinToken(q) && x == e)
    case Snoc(b, _) => NeverToPin(b, e)
  }

  /** Once a PIN was set or changed the device does not demand another change. */
  predicate Content(t: Trace) {
    match t
    case Empty => true
    case Snoc(b, SentGetInfo(Success(info))) => Content(b) && (PinChanged(b) ==> !info.MustChangePin())
    case Snoc(b, _) => Content(b)
  }

  /** The device answers that built-in verification is blocked or failed only when that was asked for, and once a PIN was
      set or changed it does not demand another change. */
  predicate WellBehaved(t: Trace) {
    NeverToPin(t, UvBlocked) && NeverToPin(t, UvInvalid) && Content(t)
  }

  /** No more than two token requests, and one demand to change the PIN, in the latest decision. */
  predicate Brief(t: Trace) {
    WellBehaved(t) ==> Tokens(t) <= 2 && Demands(t) <= 1
  }

  /** What one more event does to everything that is read off a trace. */
  lemma Step(c: PinCrypto, t: Trace, e: Event)
    ensures var u := Snoc(t, e);
      && Safe(c, u) == (Safe(c, t) && Allowed(c, t, e))
      && LatestInfo(u) == (if e.SentGetInfo? && e.info.Success? then Some(e.info.value) else LatestInfo(t))
      && Topic(u) == (if e.Deciding? then Some(Matter(e.kind, e.persistent, LatestInfo(t))) else Topic(t))
      && UvFoundBlocked(u) == (!e.Deciding? && (SaysBlocked(e) || UvFoundBlocked(t)))
      && Skips(u) == (if e.Deciding? then LatestInfo(t).Some? && !e.kind.CanUseUv(LatestInfo(t).value)
                      else if e.SentGetInfo? && e.info.Success? && Demands(t) == 0 && Topic(t).Some? then !Topic(t).value.kind.CanUseUv(e.info.value)
                      else Skips(t))
      && Commands(u) == Commands(t) + (if e.SentCommand? && !e.command.SilentAssertionCommand? then 1 else 0)
      && Tokens(u) == (if e.Deciding? then 0 else Tokens(t) + (if e.SentClientPin? && IsToken(e.request) then 1 else 0))
      && Demands(u) == (if e.Deciding? then 0 else Demands(t) + (if e == Ux(AskNewPin(PinChangeRequired)) then 1 else 0))
      && PinChanged(u) == (PinChanged(t) || (e.SentClientPin? && e.response.Success? && (e.request.SetPin? || e.request.ChangePin?)))
      && WellBehaved(u) == (WellBehaved(t)
           && (e.SentClientPin? && e.response.Failure? && IsPinToken(e.request) ==> !e.response.error.UvBlocked? && !e.response.error.UvInvalid?)
           && (e.SentGetInfo? && e.info.Success? && PinChanged(t) ==> !e.info.value.MustChangePin()))
      && Follows(t, u)
  {
    hide Allowed;
  }

  // ---------------------------------------------------------------------------
  // Who is to blame
  // ---------------------------------------------------------------------------

  /** What the key agreement just made gives: a public key and the shared secret. A presence prompt may come in between. */
  function SecretAtHand(c: PinCrypto, t: Trace): Option<(seq<byte>, seq<byte>)> {
    match t
    case Snoc(_, SentClientPin(GetKeyAgreement(p), Success(r))) =>
      if r.keyAgreement.Some? then c.encapsulate(p, r.keyAgreement.value) else None
    case Snoc(b, Ux(PresenceRequired)) => SecretAtHand(c, b)
    case _ => None
  }

  /** A failure with `e` is explained by how `t` ends: the device just answered with that error or with something unusable,
      the user just gave up, or what the device last said of itself leaves no way on for the permissions at hand. */
  predicate Blamed(c: PinCrypto, t: Trace, e: UvError) {
    AnswerBlamed(c, t, e) || (LatestInfo(t).Some? && DescriptionBlamed(LatestInfo(t).value, DecidingFor(t), UvFoundBlocked(t), UvOut(t), e))
  }

  predicate AnswerBlamed(c: PinCrypto, t: Trace, e: UvError) {
    match t
    case Snoc(_, SentGetInfo(Failure(x))) => x == e
    case Snoc(_, SentClientPin(_, Failure(x))) => x == e
    case Snoc(_, SentClientPin(GetKeyAgreement(p), Success(r))) =>
      if r.keyAgreement.None? then e == OtherCtap else c.encapsulate(p, r.keyAgreement.value).None? && e == CryptoError
    case Snoc(b, SentClientPin(q, Success(r))) => IsToken(q) && TokenBlamed(c, q.protocol, SecretAtHand(c, b), r.token, e)
    case Snoc(_, SentCommand(_, Failure(x))) => x == e
    case Snoc(_, SentCommand(_, Success(x))) => !x.rpIdHashMatches && e == InvalidDeviceResponse
    case Snoc(_, Entered(None)) => e == PinRequired || e == Cancelled
    case Snoc(_, Ux(UvRetry(_))) => e == UvInvalid
    case _ => false
  }

  /** The token is missing, does not decrypt, or has an impossible length. */
  predicate TokenBlamed(c: PinCrypto, p: Protocol, secret: Option<(seq<byte>, seq<byte>)>, token: Option<seq<byte>>, e: UvError) {
    if token.None? then e == OtherCtap else
    secret.Some? &&
    match c.decrypt(p, secret.value.1, token.value)
    case None => e == CryptoError
    case Some(decrypted) => !TokenLengthValid(p, |decrypted|) && e == OtherCtap
  }

  predicate DescriptionBlamed(info: Info, permissions: Role, uvFoundBlocked: bool, uvOut: bool, e: UvError) {
    match e
    case OtherCtap => info.SelectProtocol().None?
    case NoUvAvailable =>
      || !info.IsUvProtected()
      || info.Operation(uvOut).None?
      || (FromPin(info.Operation(uvOut).value) && info.Enabled(NoMcGaPermissionsWithClientPin) && permissions * MC_GA != {})
    case UvBlocked => uvFoundBlocked && info.Operation(uvOut).None?
    case InvalidDeviceResponse => info.options.None?
    case PinNotSupported => !info.Exists(ClientPin)
    case _ => false
  }

  // ---------------------------------------------------------------------------
  // The cached token's origin
  // ---------------------------------------------------------------------------

  /** An answer that hands out the token in `d`, requested under `d`'s permissions and for its relying party. The legacy
      getPinToken request carries neither. */
  predicate Mints(c: PinCrypto, e: Event, d: AuthTokenData) {
    match e
    case SentClientPin(q, Success(r)) =>
      && IsToken(q) && r.token.Some? && d.token.Some? && d.permission.Some?
      && q.protocol == d.protocol
      && c.decrypt(d.protocol, d.sharedSecret, r.token.value) == d.token
      && (!q.PinToken? ==> q.role == d.permission.value.role && q.rpid == d.permission.value.rpid)
      && d.operation == (match q case PinToken(_, _, _) => GetPinToken
                                 case PinTokenWithPermissions(_, _, _, _, _) => UsingPin
                                 case _ => UsingUv)
    case _ => false
  }

  predicate MintedIn(c: PinCrypto, t: Trace, d: AuthTokenData) {
    t.Snoc? && (Mints(c, t.last, d) || MintedIn(c, t.before, d))
  }

  /** The cache is empty, holds no token, or holds a token the device handed out, with what it was requested under. */
  predicate CacheSound(c: PinCrypto, t: Trace, cached: Option<AuthTokenData>) {
    match cached
    case None => true
    case Some(d) => WellKept(d) && (d.token.Some? ==> MintedIn(c, t, d))
  }

  lemma {:induction false} StillMinted(c: PinCrypto, old_: Trace, t: Trace, cached: Option<AuthTokenData>)
    requires CacheSound(c, old_, cached) && Follows(old_, t)
    ensures CacheSound(c, t, cached)
  {
    if t != old_ {
      StillMinted(c, old_, t.before, cached);
    }
  }

  lemma InfoSeen(c: PinCrypto, t: Trace, reply: Result<Info, UvError>)
    ensures var u := Snoc(t, SentGetInfo(reply));
      && (Safe(c, t) ==> Safe(c, u)) && Follows(t, u) && Commands(u) == Commands(t)
      && (Brief(t) ==> Brief(u)) && Topic(u) == Topic(t) && (reply.Success? ==> LatestInfo(u) == Some(reply.value))
  {
    hide Safe, LatestInfo, Topic, UvFoundBlocked, Skips, Commands, Tokens, Demands, PinChanged, WellBehaved, Follows;
    Step(c, t, SentGetInfo(reply));
  }

  lemma CommandSent(c: PinCrypto, t: Trace, command: Command, result: Result<CommandResponse, UvError>, cached: Option<AuthTokenData>)
    requires Safe(c, t) && Brief(t) && CacheSound(c, t, cached)
    requires Allowed(c, t, SentCommand(command, result))
    ensures var u := Snoc(t, SentCommand(command, result));
      && Safe(c, u) && Brief(u) && CacheSound(c, u, cached) && Follows(t, u)
      && Commands(u) == Commands(t) + (if command.SilentAssertionCommand? then 0 else 1)
      && LatestInfo(u) == LatestInfo(t) && UvFoundBlocked(u) == UvFoundBlocked(t) && Skips(u) == Skips(t) && Topic(u) == Topic(t)
      && (WellBehaved(u) ==> WellBehaved(t)) && Tokens(u) == Tokens(t) && Demands(u) == Demands(t)
  {
    hide Safe, LatestInfo, Topic, UvFoundBlocked, Skips, Commands, Tokens, Demands, PinChanged, WellBehaved, Follows, JustPrompted, CacheSound;
    Step(c, t, SentCommand(command, result));
    StillMinted(c, t, Snoc(t, SentCommand(command, result)), cached);
  }

  // ---------------------------------------------------------------------------
  // What a ceremony does to the tokens on record
  // ---------------------------------------------------------------------------

  /** The device accepted a PIN change or a reset, or rejected a token. */
  predicate Invalidates(e: Event) {
    match e
    case SentClientPin(q, Success(_)) => q.SetPin? || q.ChangePin?
    case SentCommand(ResetCommand, Success(_)) => true
    case SentCommand(RequestCommand(_, _, _), Failure(PinAuthInvalid)) => true
    case _ => false
  }

  /** The device described itself so that the record is recognized. */
  predicate HeardOf(c: PinCrypto, t: Trace, r: Record) {
    match t
    case Empty => false
    case Snoc(b, SentGetInfo(Success(info))) => Recognizes(c.identifierCipher, r, info) || HeardOf(c, b, r)
    case Snoc(b, _) => HeardOf(c, b, r)
  }

  /** Since `start`, something invalidated the token of a device that had been recognized as the record's. */
  predicate Doomed(c: PinCrypto, start: Trace, t: Trace, r: Record) {
    t != start && t.Snoc? && ((Invalidates(t.last) && HeardOf(c, t.before, r)) || Doomed(c, start, t.before, r))
  }

  /** After `t`, `e` hands out the persistent token of the record, to the request for it, and the device's latest description
      makes the rest of the record. */
  predicate Makes(c: PinCrypto, t: Trace, e: Event, r: Record) {
    match e
    case SentClientPin(q, Success(x)) =>
      && IsToken(q) && (!q.PinToken? ==> q.role == {PersistentReadOnly})
      && x.token.Some? && SecretAtHand(c, t).Some? && c.decrypt(q.protocol, SecretAtHand(c, t).value.1, x.token.value) == Some(r.token)
      && r.protocol == q.protocol && LatestInfo(t).Some?
      && var info := LatestInfo(t).value;
         && info.encIdentifier.Some? && DecryptEncIdentifier(c.identifierCipher, r.token, info.encIdentifier.value) == Success(r.device)
         && info.aaguid == r.aaguid
    case _ => false
  }

  predicate MadeSince(c: PinCrypto, start: Trace, t: Trace, r: Record) {
    t != start && t.Snoc? && (Makes(c, t.before, t.last, r) || MadeSince(c, start, t.before, r))
  }

  lemma {:induction false} StillDoomed(c: PinCrypto, start: Trace, t: Trace, u: Trace, r: Record)
    requires Doomed(c, start, t, r) && Follows(start, t) && Follows(t, u)
    ensures Doomed(c, start, u, r)
  {
    FollowsIsLonger(start, t);
    FollowsIsLonger(t, u);
    if u != t {
      StillDoomed(c, start, t, u.before, r);
    }
  }

  lemma {:induction false} DoomedBefore(c: PinCrypto, start: Trace, t: Trace, u: Trace, r: Record)
    requires Doomed(c, t, u, r) && Follows(start, t) && Follows(t, u)
    ensures Doomed(c, start, u, r)
  {
    FollowsIsLonger(start, t);
    FollowsIsLonger(t, u);
    if !(Invalidates(u.last) && HeardOf(c, u.before, r)) {
      DoomedBefore(c, start, t, u.before, r);
    }
  }

  lemma {:induction false} StillMade(c: PinCrypto, start: Trace, t: Trace, u: Trace, r: Record)
    requires MadeSince(c, start, t, r) && Follows(start, t) && Follows(t, u)
    ensures MadeSince(c, start, u, r)
  {
    FollowsIsLonger(start, t);
    FollowsIsLonger(t, u);
    if u != t {
      StillMade(c, start, t, u.before, r);
    }
  }

  lemma {:induction false} MadeBefore(c: PinCrypto, start: Trace, t: Trace, u: Trace, r: Record)
    requires MadeSince(c, t, u, r) && Follows(start, t) && Follows(t, u)
    ensures MadeSince(c, start, u, r)
  {
    FollowsIsLonger(start, t);
    FollowsIsLonger(t, u);
    if !Makes(c, u.before, u.last, r) {
      MadeBefore(c, start, t, u.before, r);
    }
  }

  lemma {:induction false} LatestIsHeard(c: PinCrypto, t: Trace, r: Record)
    requires LatestInfo(t).Some? && Recognizes(c.identifierCipher, r, LatestInfo(t).value)
    ensures HeardOf(c, t, r)
  {
    if !(t.last.SentGetInfo? && t.last.info.Success?) {
      LatestIsHeard(c, t.before, r);
    }
  }

  /** What became of the tokens on record since `start`. Nothing was added but records made of tokens that the device handed
      out since; nothing went but what was invalidated since, and records for devices that one was made for. What stayed is
      unchanged. */
  ghost predicate Accounted(c: PinCrypto, start: Trace, t: Trace, before: Records, after: Records, made: set<Record>) {
    && (forall id :: id in after ==> (id in before && after[id] == before[id]) || after[id] in made)
    && (forall id :: id in before ==>
          || (id in after && after[id] == before[id])
          || (exists r :: r in made && r.device == before[id].device)
          || Doomed(c, start, t, before[id]))
    && (forall r :: r in made ==> MadeSince(c, start, t, r))
  }

  lemma AccountedSame(c: PinCrypto, start: Trace, t: Trace, records: Records)
    ensures Accounted(c, start, t, records, records, {})
  {
  }

  lemma AccountedTransitive(c: PinCrypto, start: Trace, t: Trace, u: Trace, before: Records, between: Records, after: Records,
                            first: set<Record>, second: set<Record>)
    requires Accounted(c, start, t, before, between, first) && Follows(start, t)
    requires Accounted(c, t, u, between, after, second) && Follows(t, u)
    ensures Accounted(c, start, u, before, after, first + second)
  {
    hide Follows, Doomed, MadeSince;
    forall id | id in before
      ensures (id in after && after[id] == before[id])
           || (exists r :: r in first + second && r.device == before[id].device)
           || Doomed(c, start, u, before[id])
    {
      if Doomed(c, start, t, before[id]) {
        StillDoomed(c, start, t, u, before[id]);
      } else if r :| r in first && r.device == before[id].device {
        assert r in first + second;
      } else if Doomed(c, t, u, before[id]) {
        DoomedBefore(c, start, t, u, before[id]);
      } else if r :| r in second && r.device == before[id].device {
        assert r in first + second;
      }
    }
    forall r | r in first + second ensures MadeSince(c, start, u, r) {
      if r in first {
        StillMade(c, start, t, u, r);
      } else {
        MadeBefore(c, start, t, u, r);
      }
    }
  }

  lemma AccountedThen(c: PinCrypto, start: Trace, t: Trace, u: Trace, before: Records, between: Records, after: Records, made: set<Record>)
    requires Accounted(c, start, t, before, between, {}) && Follows(start, t)
    requires Accounted(c, t, u, between, after, made) && Follows(t, u)
    ensures Accounted(c, start, u, before, after, made)
  {
    AccountedTransitive(c, start, t, u, before, between, after, {}, made);
    assert {} + made == made;
  }

  /** Nothing happened to the tokens on record after `t`. */
  lemma AccountedLater(c: PinCrypto, start: Trace, t: Trace, u: Trace, before: Records, after: Records, made: set<Record>)
    requires Accounted(c, start, t, before, after, made) && Follows(start, t) && Follows(t, u)
    ensures Accounted(c, start, u, before, after, made)
  {
    AccountedSame(c, t, u, after);
    AccountedTransitive(c, start, t, u, before, after, after, made, {});
    assert made + {} == made;
  }

  /** Evicting a record that was just invalidated. */
  lemma EvictionAccounted(c: PinCrypto, start: Trace, t: Trace, records: Records, id: RecordId, info: Info)
    requires t.Snoc? && t != start && Invalidates(t.last) && LatestInfo(t.before) == Some(info)
    requires id in records && Recognizes(c.identifierCipher, records[id], info)
    ensures Accounted(c, start, t, records, Without(records, id), {})
  {
    LatestIsHeard(c, t.before, records[id]);
  }

  // ---------------------------------------------------------------------------
  // Runs as values
  // ---------------------------------------------------------------------------

  /** What is left of a script, what has happened, and how it ended. */
  datatype Run<T> = Run(script: seq<Reply>, trace: Trace, result: Result<T, UvError>)

  function Rest(script: seq<Reply>): seq<Reply> {
    if script == [] then [] else script[1..]
  }

  function InfoRun(script: seq<Reply>, t: Trace): (r: Run<Info>)
    ensures |r.script| <= |script| && (r.result.Success? ==> |r.script| < |script|)
  {
    var x := if script == [] then Failure(Interrupted) else script[0].info;
    Run(Rest(script), Snoc(t, SentGetInfo(x)), x)
  }

  function AskRun(script: seq<Reply>, t: Trace, q: ClientPinRequest): (r: Run<ClientPinResponse>)
    ensures |r.script| <= |script| && (r.result != Failure(Interrupted) ==> |r.script| < |script|)
  {
    var x := if script == [] then Failure(Interrupted) else script[0].clientPin;
    Run(Rest(script), Snoc(t, SentClientPin(q, x)), x)
  }

  // ---------------------------------------------------------------------------
  // The channel
  // ---------------------------------------------------------------------------

  class Channel {
    const crypto: PinCrypto
    const store: TokenStore?
    var script: seq<Reply>
    ghost var trace: Trace
    var authData: Option<AuthTokenData>
    var credMgmtPreview: bool

    constructor (crypto: PinCrypto, store: TokenStore?, script: seq<Reply>)
      ensures this.crypto == crypto && this.store == store && this.script == script
      ensures trace == Empty && authData == None && Invariant()
    {
      this.crypto, this.store, this.script := crypto, store, script;
      trace, authData, credMgmtPreview := Empty, None, false;
    }

    /** Nothing forbidden was ever sent, the cached token is what it claims to be, and a device that lets the token loop
        end was asked for no more than two tokens, and the user for no more than one PIN change, in the latest decision. */
    ghost predicate Invariant()
      reads this`trace, this`authData
    {
      Safe(crypto, trace) && CacheSound(crypto, trace, authData) && Brief(trace)
    }

    ghost function Kept(): Records
      reads store
    {
      if store == null then map[] else store.records
    }

    /** The next answer, if the script has one. */
    method NextReply() returns (r: Option<Reply>)
      modifies this`script
      ensures r == (if old(script) == [] then None else Some(old(script)[0])) && script == Rest(old(script))
    {
      if script == [] { return None; }
      r := Some(script[0]);
      script := script[1..];
    }

    method GetInfo() returns (r: Result<Info, UvError>)
      modifies this`script, this`trace
      ensures Run(script, trace, r) == InfoRun(old(script), old(trace))
    {
      var reply := NextReply();
      r := if reply.Some? then reply.value.info else Failure(Interrupted);
      trace := Snoc(trace, SentGetInfo(r));
    }

    method ClientPin(q: ClientPinRequest) returns (r: Result<ClientPinResponse, UvError>)
      modifies this`script, this`trace
      ensures Run(script, trace, r) == AskRun(old(script), old(trace), q)
    {
      var reply := NextReply();
      r := if reply.Some? then reply.value.clientPin else Failure(Interrupted);
      trace := Snoc(trace, SentClientPin(q, r));
    }

    method Send(command: Command) returns (r: Result<CommandResponse, UvError>)
      modifies this`script, this`trace
      ensures trace == Snoc(old(trace), SentCommand(command, r)) && script == Rest(old(script))
      ensures r == if old(script) == [] then Failure(Interrupted) else old(script)[0].command
    {
      var reply := NextReply();
      r := if reply.Some? then reply.value.command else Failure(Interrupted);
      trace := Snoc(trace, SentCommand(command, r));
    }

    method SendUxUpdate(u: UxUpdate)
      modifies this`trace
      ensures trace == Snoc(old(trace), Ux(u))
    {
      trace := Snoc(trace, Ux(u));
    }

    /** Marks a point of the ceremony; nothing crosses the channel. */
    ghost method Note(e: Event)
      requires e.Deciding?
      modifies this`trace
      ensures trace == Snoc(old(trace), e)
    {
      trace := Snoc(trace, e);
    }

    /** The user's entry, or nothing if the user cancels. */
    method AwaitPin() returns (pin: Option<Pin>)
      modifies this`script, this`trace
      ensures trace == Snoc(old(trace), Entered(pin)) && script == Rest(old(script))
      ensures pin == if old(script) == [] then None else old(script)[0].entry
    {
      var reply := NextReply();
      pin := if reply.Some? then reply.value.entry else None;
      trace := Snoc(trace, Entered(pin));
    }
  }
}
