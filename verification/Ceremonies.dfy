/** The ceremonies: verify the user, send the command, and try again when a stored token was rejected. */
module Ceremonies {
  import opened Wrappers
  import opened Bytes
  import opened AuthenticatorInfo
  import opened TokenCache
  import opened PersistentTokens
  import opened PinProtocols
  import opened UvRequest
  import opened UvChannel
  import opened PinChange
  import opened UvTokenLoop
  import opened UserVerification
  import opened UvPreflight

  /** What to make of the answer to a command. */
  datatype Verdict = Retry | Conclude(result: Result<CommandResponse, UvError>)

  predicate HasToken(cached: Option<AuthTokenData>) {
    cached.Some? && cached.value.token.Some?
  }

  /** Whether credential management may still use a token on record. */
  predicate MayReuse(kind: RequestKind, rejected: bool, storeAvailable: bool) {
    kind.CredentialManagementRequest? && kind.subcommand.IsReadOnly() && storeAvailable && !rejected
  }

  /** How many stored tokens a ceremony can still find rejected. */
  function Chances(cached: Option<AuthTokenData>, mayReuse: bool): nat {
    (if HasToken(cached) then 1 else 0) + (if mayReuse then 1 else 0)
  }

  // ---------------------------------------------------------------------------
  // Commands in a trace
  // ---------------------------------------------------------------------------

  predicate EndsWithRequest(t: Trace) {
    t.Snoc? && t.last.SentCommand? && t.last.command.RequestCommand?
  }

  /** The request that the assertions at the end of `t` come from. */
  function MainRequest(t: Trace): Trace {
    if t.Snoc? && t.last.SentCommand? && t.last.command.GetNextAssertionCommand? then MainRequest(t.before) else t
  }

  /** The end of the verification that came before the request at the end of `t`; there may be a prompt in between. */
  function VerifiedAt(t: Trace): Trace
    requires EndsWithRequest(t)
  {
    if t.last.command.kind.NeedsPresence() && t.before.Snoc? && t.before.last == Ux(PresenceRequired) then t.before.before else t.before
  }

  /** `t` ends with a request that carries what a verification came to, made for just that request and just before, with one
      prompt: in between, if the request needs presence, or, if the device itself verified the user, before that. */
  ghost predicate Sent(c: PinCrypto, t: Trace, requirement: Requirement, cached: Option<AuthTokenData>, records: Records, rejected: bool,
                       before: Proof, used: UsedToken)
  {
    && EndsWithRequest(t) && Topic(VerifiedAt(t)).Some? && Topic(VerifiedAt(t)).value.kind == t.last.command.kind
    && Verified(c, VerifiedAt(t), requirement, cached, records, rejected, before, used, t.last.command.proof)
    && (t.last.command.kind.NeedsPresence() ==> (VerifiedAt(t) == t.before <==> used == NewlyCalculated(UsingUv)))
  }

  /** The verification that a request at the end of `t` was sent after. */
  lemma SentAfter(c: PinCrypto, t: Trace, u: Trace, kind: RequestKind, persistent: bool, first: Info, proof: Proof, preview: bool,
                  result: Result<CommandResponse, UvError>, requirement: Requirement, cached: Option<AuthTokenData>, records: Records,
                  rejected: bool, before: Proof, used: UsedToken)
    requires u == if kind.NeedsPresence() && used != NewlyCalculated(UsingUv) then Snoc(t, Ux(PresenceRequired)) else t
    requires kind.NeedsPresence() && used == NewlyCalculated(UsingUv) ==> t.Snoc? && !t.last.Ux?
    requires Topic(t) == Some(Matter(kind, persistent, Some(first)))
    requires Verified(c, t, requirement, cached, records, rejected, before, used, proof)
    ensures Sent(c, Snoc(u, SentCommand(RequestCommand(kind, proof, preview), result)), requirement, cached, records, rejected, before, used)
  {
    hide Topic, Verified;
  }

  lemma {:induction false} CommandsGrow(t: Trace, u: Trace)
    requires Follows(t, u)
    ensures Commands(t) <= Commands(u)
    ensures Commands(t) == Commands(u) && t != u ==> !EndsWithRequest(u) && MainRequest(u) == u
  {
    if t != u {
      CommandsGrow(t, u.before);
    }
  }

  // ---------------------------------------------------------------------------
  // Rejected tokens
  // ---------------------------------------------------------------------------

  /** The command is tried again exactly if the device rejects a stored token. The cached one is then forgotten; the one on
      record is evicted, as far as the store can, and the rejection noted on the request if `notes`. */
  method HandleErrors(ch: Channel, req: Ctap2Request, used: UsedToken, response: Result<CommandResponse, UvError>, notes: bool)
    returns (v: Verdict)
    requires ch.trace.Snoc? && ch.trace.last.SentCommand? && ch.trace.last.result == response
    requires ch.Invariant() && (ch.store != null ==> ch.store.Valid())
    modifies ch`script, ch`trace, ch`authData, ch.store, req`persistentTokenRejected
    ensures ch.Invariant() && (ch.store != null ==> ch.store.Valid())
    ensures Follows(old(ch.trace), ch.trace) && Commands(ch.trace) == Commands(old(ch.trace))
    ensures v.Retry? <==> response == Failure(PinAuthInvalid) && FromStorage(used)
    ensures v.Conclude? ==> v.result == response
    ensures v.Conclude? && response.Failure? ==> Blamed(ch.crypto, ch.trace, response.error)
    ensures response == Failure(UvInvalid) ==> ch.trace.Snoc? && ch.trace.last.Ux? && ch.trace.last.update.UvRetry?
    ensures response != Failure(UvInvalid) ==> ch.trace == old(ch.trace) && ch.script == old(ch.script)
    ensures ch.authData == if v.Retry? && used.FromEphemeralStorage? then None else old(ch.authData)
    ensures req.persistentTokenRejected == (old(req.persistentTokenRejected) || (v.Retry? && used.FromPersistentStorage? && notes))
    ensures ch.Kept() == if v.Retry? && used.FromPersistentStorage? && ch.store != null && ch.store.deletes then Without(old(ch.Kept()), used.id)
                         else old(ch.Kept())
  {
    hide Safe, Commands, Tokens, Demands, Topic, Skips, WellBehaved, Follows, LatestInfo, UvFoundBlocked, PinChanged, CacheSound,
      DescriptionBlamed;
    FollowsSelf(ch.trace);
    match response {
      case Failure(PinAuthInvalid) =>
        match used {
          case FromEphemeralStorage =>
            ch.authData := None;
            NothingCached(ch.crypto, ch.trace);
            return Retry;
          case FromPersistentStorage(id) =>
            if ch.store != null {
              ch.store.Delete(id);
            }
            if notes {
              req.persistentTokenRejected := true;
            }
            return Retry;
          case _ => return Conclude(response);
        }
      case Failure(UvInvalid) =>
        ghost var t := ch.trace;
        var attemptsLeft := UvFailed(ch);
        SteadyEnds(ch.crypto, t, ch.trace);
        StillMinted(ch.crypto, t, ch.trace, ch.authData);
        return Conclude(response);
      case _ => return Conclude(response);
    }
  }

  lemma NothingCached(c: PinCrypto, t: Trace)
    ensures CacheSound(c, t, None)
  {
  }

  // ---------------------------------------------------------------------------
  // Making and using credentials
  // ---------------------------------------------------------------------------

  /** The prompt before a command: its own, or that of the built-in verification that just ended. */
  lemma Presence(c: PinCrypto, t: Trace, cached: Option<AuthTokenData>, used: UsedToken)
    requires Safe(c, t) && Brief(t) && CacheSound(c, t, cached)
    requires used == NewlyCalculated(UsingUv) ==> Handed(c, t).Some? && Handed(c, t).value.operation.UsingUv?
    ensures var u := if used == NewlyCalculated(UsingUv) then t else Snoc(t, Ux(PresenceRequired));
      && Safe(c, u) && Brief(u) && CacheSound(c, u, cached) && Follows(t, u) && Commands(u) == Commands(t)
      && JustPrompted(u) && Topic(u) == Topic(t) && (used == NewlyCalculated(UsingUv) ==> t.Snoc? && !t.last.Ux?)
  {
    hide Safe, Commands, Tokens, Demands, Topic, Skips, WellBehaved, Follows, LatestInfo, UvFoundBlocked, CacheSound, PinChanged, DecidingFor,
      SecretAtHand;
    if used == NewlyCalculated(UsingUv) {
      HandedMints(c, t);
      FollowsSelf(t);
    } else {
      Step(c, t, Ux(PresenceRequired));
      StillMinted(c, t, Snoc(t, Ux(PresenceRequired)), cached);
    }
  }

  /** What a verification says about the token that it obtained. */
  lemma VerifiedHanded(c: PinCrypto, t: Trace, requirement: Requirement, cached: Option<AuthTokenData>, records: Records, rejected: bool,
                       before: Proof, used: UsedToken, now: Proof)
    requires Verified(c, t, requirement, cached, records, rejected, before, used, now)
    ensures used.NewlyCalculated? ==> Handed(c, t).Some? && Handed(c, t).value.operation == used.operation
    ensures used.FromEphemeralStorage? ==> HasToken(cached)
    ensures Decided(used) ==>
              && Topic(t).Some? && Topic(t).value.first.Some?
              && var matter := Topic(t).value;
                 && !Hit(cached, matter.kind, matter.kind.Permissions(matter.persistent), matter.first.value)
                 && !Skipped(requirement, matter.kind, matter.first.value)
    ensures Topic(t).Some? && !Topic(t).value.persistent ==>
              !used.FromPersistentStorage? && Verified(c, t, requirement, cached, map[], false, before, used, now)
  {
    hide Handed, Topic, Hit, Skipped, OnlySecretDue, Offered, Recognizes;
  }

  /** Ask for presence unless the device's own verification just did, and send the request. */
  method PromptAndSend(ch: Channel, req: Ctap2Request, used: UsedToken) returns (response: Result<CommandResponse, UvError>)
    requires ch.Invariant() && req.kind.NeedsPresence()
    requires Topic(ch.trace).Some? && Topic(ch.trace).value.kind == req.kind
    requires used == NewlyCalculated(UsingUv) ==> Handed(ch.crypto, ch.trace).Some? && Handed(ch.crypto, ch.trace).value.operation.UsingUv?
    modifies ch`script, ch`trace
    ensures ch.Invariant() && Follows(old(ch.trace), ch.trace) && Commands(ch.trace) == Commands(old(ch.trace)) + 1
    ensures response == (if old(ch.script) == [] then Failure(Interrupted) else old(ch.script)[0].command) && ch.script == Rest(old(ch.script))
    ensures ch.trace.Snoc? && ch.trace.last == SentCommand(RequestCommand(req.kind, req.Carried(), req.useLegacyPreview), response)
    ensures JustPrompted(ch.trace.before)
    ensures ch.trace.before == if used == NewlyCalculated(UsingUv) then old(ch.trace) else Snoc(old(ch.trace), Ux(PresenceRequired))
    ensures used == NewlyCalculated(UsingUv) ==> old(ch.trace).Snoc? && !old(ch.trace).last.Ux?
  {
    hide Safe, Commands, Tokens, Demands, Topic, Skips, WellBehaved, Follows, LatestInfo, UvFoundBlocked, CacheSound, Brief, Handed,
      JustPrompted;
    ghost var t := ch.trace;
    if used != NewlyCalculated(UsingUv) {
      ch.SendUxUpdate(PresenceRequired);
    }
    Presence(ch.crypto, t, ch.authData, used);
    ghost var u := ch.trace;
    var command := RequestCommand(req.kind, Proof(req.auth, req.uvOption), req.useLegacyPreview);
    response := ch.Send(command);
    CommandSent(ch.crypto, u, command, response, ch.authData);
    FollowsTransitive(t, u, ch.trace);
  }

  /** One attempt: verify the user, ask for presence unless the device's own verification just did, and send the command. */
  method CredentialAttempt(ch: Channel, req: Ctap2Request, requirement: Requirement) returns (v: Verdict, ghost used: UsedToken)
    requires req.kind.NeedsPresence() && !req.usePersistentToken
    requires ch.Invariant() && (ch.store != null ==> ch.store.Valid())
    modifies ch`script, ch`trace, ch`authData, ch.store, req
    ensures ch.Invariant() && (ch.store != null ==> ch.store.Valid()) && Follows(old(ch.trace), ch.trace)
    ensures !req.usePersistentToken && Commands(ch.trace) <= Commands(old(ch.trace)) + 1
    ensures Accounted(ch.crypto, old(ch.trace), ch.trace, old(ch.Kept()), ch.Kept(), {})
    ensures EndsWithRequest(ch.trace) ==>
              && Sent(ch.crypto, ch.trace, requirement, old(ch.authData), map[], false, old(req.Carried()), used)
              && ch.trace.last.command.kind == req.kind && JustPrompted(ch.trace.before)
              && Commands(ch.trace) == Commands(old(ch.trace)) + 1
              && old(ch.script) != [] && old(ch.script)[0].info.Success?
              && Topic(VerifiedAt(ch.trace)).value.first == Some(old(ch.script)[0].info.value)
    ensures v.Retry? ==>
              && EndsWithRequest(ch.trace) && ch.trace.last.result == Failure(PinAuthInvalid) && used.FromEphemeralStorage?
              && HasToken(old(ch.authData)) && ch.authData == None && req.Carried() == ch.trace.last.command.proof
    ensures v.Conclude? && v.result.Success? ==> EndsWithRequest(ch.trace)
    ensures MainRequest(ch.trace) == ch.trace
    ensures v.Conclude? && EndsWithRequest(ch.trace) ==>
              v.result == ch.trace.last.result && (v.result == Failure(PinAuthInvalid) ==> !FromStorage(used))
    ensures v.Conclude? && v.result.Failure? ==> Blamed(ch.crypto, ch.trace, v.result.error)
    ensures |old(ch.script)| >= 2 && old(ch.script)[0].info.Success? && old(ch.script)[1].command != Failure(UvInvalid)
            && (|| Hit(old(ch.authData), req.kind, req.kind.Permissions(false), old(ch.script)[0].info.value)
                || Skipped(requirement, req.kind, old(ch.script)[0].info.value)) ==>
              EndsWithRequest(ch.trace) && ch.trace.last.result == old(ch.script)[1].command && ch.script == old(ch.script)[2..]
  {
    hide Safe, Commands, Tokens, Demands, Topic, Skips, WellBehaved, Follows, LatestInfo, CacheSound, Brief, Recognizes, Hit, Filed, Accounted,
      Blamed, JustPrompted, Verified, Handed, Skipped, Sent;
    ghost var start, before, cached, carried, c := ch.trace, ch.Kept(), ch.authData, req.Carried(), ch.crypto;
    ghost var rejected := req.persistentTokenRejected;
    var verified := VerifyUser(ch, req, requirement);
    ghost var t := ch.trace;
    used := UsedIn(verified);
    if verified.Failure? {
      FailedInVerification(c, start, t, before, ch.Kept());
      return Conclude(Failure(verified.error)), used;
    }
    VerifiedHanded(c, t, requirement, cached, before, rejected, carried, used, req.Carried());
    NothingMade(c, start, t, before, ch.Kept(), used);
    var response := PromptAndSend(ch, req, verified.value);
    ghost var u := ch.trace;
    SentAfter(c, t, u.before, req.kind, req.usePersistentToken, Topic(t).value.first.value, req.Carried(), req.useLegacyPreview, response,
              requirement, cached, map[], false, carried, used);
    v := HandleErrors(ch, req, verified.value, response, false);
    FollowsTransitive(t, u, ch.trace);
    FollowsTransitive(start, t, ch.trace);
    AccountedLater(c, start, t, ch.trace, before, ch.Kept(), {});
  }

  lemma FailedInVerification(c: PinCrypto, start: Trace, t: Trace, before: Records, after: Records)
    requires Filed(c, start, t, before, after, NoToken) && Follows(start, t) && Commands(t) == Commands(start) && start != t
    ensures Accounted(c, start, t, before, after, {}) && !EndsWithRequest(t) && MainRequest(t) == t
  {
    hide Accounted, Handed, Follows, Commands;
    CommandsGrow(start, t);
  }

  lemma NothingMade(c: PinCrypto, start: Trace, t: Trace, before: Records, after: Records, used: UsedToken)
    requires Filed(c, start, t, before, after, used)
    requires !used.NewlyCalculated? || (Topic(t).Some? && !Topic(t).value.persistent)
    ensures Accounted(c, start, t, before, after, {})
  {
    hide Accounted, Handed, Topic;
  }

  /** What a request carries that was authenticated with the cached token. */
  function Stale(c: PinCrypto, kind: RequestKind, cached: Option<AuthTokenData>): Proof
    requires HasToken(cached)
  {
    Proof(SignedWith(c, kind, cached.value.protocol, cached.value.token.value), false)
  }

  /** `t` ends with a request of the first attempt, or with one of the second, after the device had rejected the cached token. */
  ghost predicate SentInLoop(c: PinCrypto, start: Trace, t: Trace, kind: RequestKind, requirement: Requirement, cached: Option<AuthTokenData>,
                             before: Proof, used: UsedToken)
  {
    && EndsWithRequest(t) && t.last.command.kind == kind && JustPrompted(t.before)
    && if Commands(t) == Commands(start) + 1 then Sent(c, t, requirement, cached, map[], false, before, used)
       else Commands(t) == Commands(start) + 2 && HasToken(cached)
            && Sent(c, t, requirement, None, map[], false, Stale(c, kind, cached), used)
  }

  /** The device rejects a cached token that fits, and then says of itself that there will be no verification, as after a reset. */
  predicate TurnsAway(script: seq<Reply>, cached: Option<AuthTokenData>, kind: RequestKind, requirement: Requirement) {
    && |script| >= 4 && script[0].info.Success? && script[2].info.Success?
    && Hit(cached, kind, kind.Permissions(false), script[0].info.value) && script[1].command == Failure(PinAuthInvalid)
    && Skipped(requirement, kind, script[2].info.value) && script[3].command != Failure(UvInvalid)
  }

  /** Attempts, again at most once, if a cached token was rejected. */
  method CredentialLoop(ch: Channel, req: Ctap2Request, requirement: Requirement) returns (r: Result<CommandResponse, UvError>, ghost used: UsedToken)
    requires req.kind.NeedsPresence() && !req.usePersistentToken
    requires ch.Invariant() && (ch.store != null ==> ch.store.Valid())
    modifies ch`script, ch`trace, ch`authData, ch.store, req
    ensures ch.Invariant() && (ch.store != null ==> ch.store.Valid()) && Follows(old(ch.trace), ch.trace)
    ensures Commands(ch.trace) <= Commands(old(ch.trace)) + 1 + (if HasToken(old(ch.authData)) then 1 else 0)
    ensures Accounted(ch.crypto, old(ch.trace), ch.trace, old(ch.Kept()), ch.Kept(), {})
    ensures EndsWithRequest(ch.trace) ==>
              && SentInLoop(ch.crypto, old(ch.trace), ch.trace, req.kind, requirement, old(ch.authData), old(req.Carried()), used)
              && r == ch.trace.last.result && (r == Failure(PinAuthInvalid) ==> !FromStorage(used))
    ensures r.Success? ==> EndsWithRequest(ch.trace)
    ensures MainRequest(ch.trace) == ch.trace
    ensures r.Failure? ==> Blamed(ch.crypto, ch.trace, r.error)
    ensures TurnsAway(old(ch.script), old(ch.authData), req.kind, requirement) ==>
              && EndsWithRequest(ch.trace) && r == old(ch.script)[3].command && HasToken(old(ch.authData))
              && Commands(ch.trace) == Commands(old(ch.trace)) + 2
              && ch.trace.last.command.proof == Stale(ch.crypto, req.kind, old(ch.authData))
  {
    hide Safe, Commands, Tokens, Demands, Topic, Skips, WellBehaved, Follows, LatestInfo, CacheSound, Brief, Accounted, Blamed, JustPrompted,
      Hit, Skipped, Sent;
    ghost var turnsAway := TurnsAway(ch.script, ch.authData, req.kind, requirement);
    ghost var start, before, cached, carried, c := ch.trace, ch.Kept(), ch.authData, req.Carried(), ch.crypto;
    ghost var again := false;
    FollowsSelf(start);
    AccountedSame(c, start, start, before);
    while true
      invariant ch.Invariant() && (ch.store != null ==> ch.store.Valid()) && Follows(start, ch.trace)
      invariant !req.usePersistentToken && Accounted(c, start, ch.trace, before, ch.Kept(), {})
      invariant Commands(ch.trace) == Commands(start) + (if again then 1 else 0)
      invariant if again then HasToken(cached) && ch.authData == None && req.Carried() == Stale(c, req.kind, cached)
                else ch.authData == cached && req.Carried() == carried
      invariant turnsAway ==> ch.script == if again then old(ch.script)[2..] else old(ch.script)
      decreases Chances(ch.authData, false)
    {
      ghost var t, kept, now := ch.trace, ch.Kept(), req.Carried();
      var verdict;
      verdict, used := CredentialAttempt(ch, req, requirement);
      FollowsTransitive(start, t, ch.trace);
      AccountedThen(c, start, t, ch.trace, before, kept, ch.Kept(), {});
      if turnsAway {
        if again {
          UnverifiedIsStale(c, ch.trace, requirement, now, used, old(ch.script)[2].info.value);
        } else {
          HitIsUsed(c, ch.trace, requirement, cached, now, used, old(ch.script)[0].info.value);
        }
      }
      if verdict.Conclude? { return verdict.result, used; }
      RejectedIsStale(c, ch.trace, requirement, cached, now);
      again := true;
    }
  }

  lemma HitIsUsed(c: PinCrypto, t: Trace, requirement: Requirement, cached: Option<AuthTokenData>, before: Proof, used: UsedToken, info: Info)
    requires Sent(c, t, requirement, cached, map[], false, before, used) && t.last.command.kind.NeedsPresence()
    requires Topic(VerifiedAt(t)).value.first == Some(info)
    requires Hit(cached, t.last.command.kind, t.last.command.kind.Permissions(false), info)
    ensures used.FromEphemeralStorage?
  {
    hide Topic, Hit, Skipped;
  }

  lemma UnverifiedIsStale(c: PinCrypto, t: Trace, requirement: Requirement, before: Proof, used: UsedToken, info: Info)
    requires Sent(c, t, requirement, None, map[], false, before, used) && t.last.command.kind.NeedsPresence()
    requires Topic(VerifiedAt(t)).value.first == Some(info)
    requires Skipped(requirement, t.last.command.kind, info)
    ensures t.last.command.proof == before
  {
    hide Topic, Skipped;
  }

  /** A stored token is good for the request: one on record is recognized and none was rejected, or the cached one fits. */
  ghost predicate StoredFits(c: PinCrypto, matter: Matter, cached: Option<AuthTokenData>, records: Records, rejected: bool)
    requires matter.first.Some?
  {
    || (matter.persistent && !rejected && Known(c, records, matter.first.value))
    || Hit(cached, matter.kind, matter.kind.Permissions(matter.persistent), matter.first.value)
  }

  /** Which parameter a request carries. One made with a stored token if one is good for it. Otherwise, exactly if by what the
      device says of itself there is no verification, only a shared secret, or only the deprecated option to be had, whatever
      the request carried before: in a second attempt, the parameter that the device has just rejected. And otherwise one made
      with the token just handed out. */
  lemma StaleWhen(c: PinCrypto, t: Trace, requirement: Requirement, cached: Option<AuthTokenData>, records: Records, rejected: bool,
                  before: Proof, used: UsedToken)
    requires Sent(c, t, requirement, cached, records, rejected, before, used)
    ensures var u, kind, auth := VerifiedAt(t), t.last.command.kind, t.last.command.proof.auth;
            var matter := Topic(u).value;
      if StoredFits(c, matter, cached, records, rejected) then
        && FromStorage(used)
        && (used.FromEphemeralStorage? ==> HasToken(cached) && auth == SignedWith(c, kind, cached.value.protocol, cached.value.token.value))
        && (used.FromPersistentStorage? ==>
              used.id in records && auth == SignedWith(c, kind, records[used.id].protocol, records[used.id].token))
      else if Skipped(requirement, kind, matter.first.value) || OnlySecretDue(u, requirement) || Offered(u, LegacyUv) then
        TokenLess(used) && auth == before.auth
      else
        && used.NewlyCalculated? && Handed(c, u).Some? && Handed(c, u).value.token.Some?
        && auth == SignedWith(c, kind, Handed(c, u).value.protocol, Handed(c, u).value.token.value)
  {
    hide Topic, Skipped, OnlySecretDue, SecretAtHand, DecidingFor, Known, Hit, Recognizes;
  }

  lemma RejectedIsStale(c: PinCrypto, t: Trace, requirement: Requirement, cached: Option<AuthTokenData>, before: Proof)
    requires Sent(c, t, requirement, cached, map[], false, before, FromEphemeralStorage) && t.last.command.kind.NeedsPresence()
    ensures HasToken(cached) && t.last.command.proof == Stale(c, t.last.command.kind, cached)
  {
    hide Topic, Hit, Skipped;
  }

  /** The bytes that the parameter of a request authenticates. */
  function SignedBy(kind: RequestKind): seq<byte> {
    match kind
    case MakeCredentialRequest(_, hash, _) => hash
    case GetAssertionRequest(_, hash, _, _) => hash
    case CredentialManagementRequest(_, message) => message
    case ConfigurationRequest(message) => message
    case BioEnrollmentRequest(message) => message
  }

  /** A token authenticates a request: the parameter is over the bytes of that request, and the token was granted every
      permission that the request calls for, for its relying party. */
  predicate Authenticates(c: PinCrypto, d: AuthTokenData, kind: RequestKind, persistent: bool, auth: AuthParam) {
    && d.token.Some? && auth == Some((d.protocol, c.authenticate(d.protocol, d.token.value, SignedBy(kind))))
    && d.permission.Some? && d.permission.value.rpid == PartyOf(kind)
    && forall p: Permission :: CallsFor(kind, persistent, p) ==> p in d.permission.value.role
  }

  /** What the parameter of a request is worth. If it was made with the cached token, or with one just handed out, that token
      authenticates the request, and was requested for no less. If it was made with a token on record, the request only reads
      credentials, and the record was recognized by the device's first description. */
  lemma TokenAuthenticates(c: PinCrypto, t: Trace, requirement: Requirement, cached: Option<AuthTokenData>, records: Records, rejected: bool,
                           before: Proof, used: UsedToken)
    requires Safe(c, t) && Sent(c, t, requirement, cached, records, rejected, before, used)
    ensures var u, kind, auth := VerifiedAt(t), t.last.command.kind, t.last.command.proof.auth;
            var persistent := Topic(u).value.persistent;
      && (used.FromEphemeralStorage? ==> cached.Some? && Authenticates(c, cached.value, kind, persistent, auth))
      && (used.NewlyCalculated? ==>
            && Handed(c, u).Some? && Authenticates(c, Handed(c, u).value, kind, persistent, auth) && Mints(c, u.last, Handed(c, u).value))
      && (used.FromPersistentStorage? ==>
            && kind.CredentialManagementRequest? && !kind.subcommand.DeleteCredential? && !kind.subcommand.UpdateUserInformation?
            && used.id in records && Recognizes(c.identifierCipher, records[used.id], Topic(u).value.first.value)
            && auth == Some((records[used.id].protocol,
                             c.authenticate(records[used.id].protocol, records[used.id].token, SignedBy(kind)))))
  {
    hide Skipped, OnlySecretDue, Offered, Recognizes, Safe, Mints;
    var u, matter := VerifiedAt(t), Topic(VerifiedAt(t)).value;
    SafeBefore(c, t);
    SafeBefore(c, t.before);
    PersistentReads(c, u);
    if used.FromEphemeralStorage? {
      HitIff(cached, matter.kind, matter.persistent, matter.first.value);
    }
    if used.NewlyCalculated? {
      HandedMints(c, u);
      assert forall p: Permission :: CallsFor(matter.kind, matter.persistent, p) ==> p in matter.kind.Permissions(matter.persistent);
    }
  }

  lemma SafeBefore(c: PinCrypto, t: Trace)
    requires Safe(c, t) && t.Snoc?
    ensures Safe(c, t.before)
  {
  }

  /** When the request of an attempt is sent without any sign of a verification, although that is required. */
  ghost predicate UnprovedWhen(t: Trace, cached: Option<AuthTokenData>, uvOption: bool)
    requires EndsWithRequest(t)
  {
    var u, kind := VerifiedAt(t), t.last.command.kind;
    Topic(u).Some? && Topic(u).value.first.Some? &&
    (t.last.command.proof == Proof(None, false) <==>
       !Hit(cached, kind, kind.Permissions(false), Topic(u).value.first.value)
       && LatestInfo(u).Some? && LatestInfo(u).value.OnlySecretOnOffer(UvOut(u)) && !uvOption)
  }

  /** In the first attempt, a request that requires verification goes out without any sign of it exactly if no fitting token was
      cached, the device has no more than a shared secret on offer, and the request makes a credential. */
  lemma RequiredIsShown(c: PinCrypto, t: Trace, cached: Option<AuthTokenData>, uvOption: bool, used: UsedToken)
    requires Sent(c, t, Required, cached, map[], false, Proof(None, uvOption), used) && t.last.command.kind.NeedsPresence()
    ensures UnprovedWhen(t, cached, uvOption)
  {
    hide Hit, LatestInfo, Topic, UvOut, Skipped, Handed;
    var u := VerifiedAt(t);
    UnprovedIff(c, u, cached, map[], false, Proof(None, uvOption), used, t.last.command.proof);
  }

  /** What the device says of itself, and, where transports allow it, which of the excluded credentials it holds. */
  method MakeCredentialFido2(ch: Channel, rpid: string, hash: seq<byte>, prf: bool, exclude: Option<seq<CredentialId>>,
                             appidExclude: Option<string>, preflights: bool, requirement: Requirement)
    returns (r: Result<CommandResponse, UvError>, ghost used: UsedToken)
    requires ch.Invariant() && (ch.store != null ==> ch.store.Valid())
    modifies ch`script, ch`trace, ch`authData, ch.store
    ensures ch.Invariant() && (ch.store != null ==> ch.store.Valid()) && Follows(old(ch.trace), ch.trace)
    ensures Commands(ch.trace) <= Commands(old(ch.trace)) + 1 + (if HasToken(old(ch.authData)) then 1 else 0)
    ensures Accounted(ch.crypto, old(ch.trace), ch.trace, old(ch.Kept()), ch.Kept(), {})
    ensures EndsWithRequest(ch.trace) ==>
              && SentInLoop(ch.crypto, old(ch.trace), ch.trace, MakeCredentialRequest(rpid, hash, prf), requirement, old(ch.authData),
                            Proof(None, false), used)
              && r == ch.trace.last.result && (r == Failure(PinAuthInvalid) ==> !FromStorage(used))
    ensures EndsWithRequest(ch.trace) && requirement.Required? && Commands(ch.trace) == Commands(old(ch.trace)) + 1 ==>
              UnprovedWhen(ch.trace, old(ch.authData), false)
    ensures r.Success? ==> EndsWithRequest(ch.trace)
    ensures r.Failure? ==> Blamed(ch.crypto, ch.trace, r.error)
  {
    hide Safe, Commands, Tokens, Demands, Topic, Skips, WellBehaved, Follows, LatestInfo, CacheSound, Brief, JustPrompted, Accounted, Blamed,
      SentInLoop, UnprovedWhen, TurnsAway, Stale, NotOversized, Tested;
    used := NoToken;
    ghost var start, before, cached, c := ch.trace, ch.Kept(), ch.authData, ch.crypto;
    var info := ch.GetInfo();
    InfoSeen(c, start, info);
    StillMinted(c, start, ch.trace, ch.authData);
    AccountedSame(c, start, ch.trace, before);
    if info.Failure? {
      InfoToBlame(c, ch.trace, info.error);
      return Failure(info.error), used;
    }
    ghost var t := ch.trace;
    if exclude.Some? && preflights {
      var found := Preflight(ch, NotOversized(info.value, exclude.value), rpid, appidExclude);
      FollowsTransitive(start, t, ch.trace);
      AccountedSame(c, start, ch.trace, before);
      FollowsIsLonger(t, ch.trace);
      CommandsGrow(start, ch.trace);
      if found.Failure? { return Failure(found.error), used; }
    }
    t := ch.trace;
    var req := new Ctap2Request(MakeCredentialRequest(rpid, hash, prf), requirement);
    r, used := CredentialLoop(ch, req, requirement);
    FollowsTransitive(start, t, ch.trace);
    AccountedThen(c, start, t, ch.trace, before, before, ch.Kept(), {});
    ShownInFirst(c, t, ch.trace, req.kind, requirement, cached, Proof(None, false), used);
    SameStart(c, t, start, ch.trace, req.kind, requirement, Proof(None, false), used);
  }

  lemma ShownInFirst(c: PinCrypto, start: Trace, t: Trace, kind: RequestKind, requirement: Requirement, cached: Option<AuthTokenData>,
                     before: Proof, used: UsedToken)
    ensures EndsWithRequest(t) && SentInLoop(c, start, t, kind, requirement, cached, before, used) && requirement.Required?
            && kind.NeedsPresence() && before.auth.None? && Commands(t) == Commands(start) + 1 ==>
              UnprovedWhen(t, cached, before.uvOption)
  {
    hide Sent, UnprovedWhen, JustPrompted, Commands;
    if EndsWithRequest(t) && SentInLoop(c, start, t, kind, requirement, cached, before, used) && requirement.Required?
       && kind.NeedsPresence() && before.auth.None? && Commands(t) == Commands(start) + 1 {
      RequiredIsShown(c, t, cached, before.uvOption, used);
    }
  }

  const DEFAULT_MAX_ASSERTIONS: nat := 255

  /** How many assertions a list can hold, as the device says. */
  function AssertionLimit(info: Info): nat {
    if info.maxCredentialCount.Some? then info.maxCredentialCount.value else DEFAULT_MAX_ASSERTIONS
  }

  /** How many assertions to collect: as many as the device counts, but no more than it lets a list hold. */
  function AssertionCount(first: CommandResponse, info: Info): nat {
    var count := if first.credentialsCount.Some? then first.credentialsCount.value else 1;
    if count < AssertionLimit(info) then count else AssertionLimit(info)
  }

  /** What the device says of itself if that is what it is asked next. */
  function SaidFirst(script: seq<Reply>): Info {
    if script != [] && script[0].info.Success? then script[0].info.value else Silent
  }

  /** `t` ends with `n` assertions in a row, all for the right relying party; `first` is the one that was asked for. */
  predicate Assertions(t: Trace, n: nat, first: CommandResponse) {
    match t
    case Snoc(_, SentCommand(RequestCommand(kind, _, _), Success(x))) => kind.GetAssertionRequest? && n == 1 && x == first && x.rpIdHashMatches
    case Snoc(b, SentCommand(GetNextAssertionCommand, Success(x))) => n > 1 && x.rpIdHashMatches && Assertions(b, n - 1, first)
    case _ => false
  }

  /** After `start` the device denied every credential, and a credential was made for show, with a prompt. */
  predicate GaveUp(start: Trace, t: Trace, ids: seq<CredentialId>, rpid: string) {
    match t
    case Snoc(Snoc(b, Ux(PresenceRequired)), SentCommand(DummyCredentialCommand, _)) => Denied(start, b, ids, rpid, None)
    case _ => false
  }

  /** The credentials to ask an assertion for. If none of those allowed can be on the device, the ceremony is over: with
      preflight exactly if the device denied all that are not too long, and then a credential is made for show. */
  method AllowedOnDevice(ch: Channel, info: Info, rpid: string, allow: seq<CredentialId>, preflights: bool)
    returns (r: Result<seq<CredentialId>, UvError>)
    requires ch.Invariant()
    modifies ch`script, ch`trace
    ensures ch.Invariant() && Follows(old(ch.trace), ch.trace)
    ensures !preflights ==>
              && ch.trace == old(ch.trace) && ch.script == old(ch.script)
              && r == if NotOversized(info, allow) == [] && allow != [] then Failure(NoCredentials) else Success(NotOversized(info, allow))
    ensures preflights && r.Success? ==>
              && Tested(old(ch.trace), ch.trace, NotOversized(info, allow), rpid, None, r.value)
              && (allow != [] ==> r.value != [] && !Denied(old(ch.trace), ch.trace, NotOversized(info, allow), rpid, None))
    ensures preflights && r == Failure(NoCredentials) ==> allow != [] && GaveUp(old(ch.trace), ch.trace, NotOversized(info, allow), rpid)
    ensures r.Failure? && r.error != NoCredentials ==>
              && Blamed(ch.crypto, ch.trace, r.error) && Fails(ch.trace, r.error)
              && !Denied(old(ch.trace), ch.trace, NotOversized(info, allow), rpid, None)
    ensures Commands(ch.trace) == Commands(old(ch.trace)) + (if r == Failure(NoCredentials) && preflights then 1 else 0)
    ensures ch.trace == old(ch.trace) || (!EndsWithRequest(ch.trace) && MainRequest(ch.trace) == ch.trace)
  {
    hide Safe, Commands, Tokens, Demands, Topic, Skips, WellBehaved, Follows, LatestInfo, CacheSound, JustPrompted, Blamed, UvFoundBlocked,
      PinChanged, Tested, Denied, NotOversized;
    ghost var start := ch.trace;
    FollowsSelf(start);
    var listed := NotOversized(info, allow);
    if !preflights {
      if listed == [] && allow != [] { return Failure(NoCredentials); }
      return Success(listed);
    }
    var found := Preflight(ch, listed, rpid, None);
    ghost var t := ch.trace;
    CommandsGrow(start, t);
    if found.Failure? {
      FailsIsNotDenied(start, t, listed, rpid, found.error);
      return Failure(found.error);
    }
    NothingFound(start, t, listed, rpid, None, found.value);
    if found.value == [] && allow != [] {
      ch.SendUxUpdate(PresenceRequired);
      Step(ch.crypto, t, Ux(PresenceRequired));
      StillMinted(ch.crypto, t, ch.trace, ch.authData);
      ghost var u := ch.trace;
      Prompted(u);
      var ignored := ch.Send(DummyCredentialCommand);
      CommandSent(ch.crypto, u, DummyCredentialCommand, ignored, ch.authData);
      FollowsTransitive(t, u, ch.trace);
      FollowsTransitive(start, t, ch.trace);
      return Failure(NoCredentials);
    }
    r := Success(found.value);
  }

  lemma FailsIsNotDenied(start: Trace, t: Trace, ids: seq<CredentialId>, rpid: string, e: UvError)
    requires Fails(t, e) && start != t
    ensures !Denied(start, t, ids, rpid, None)
  {
  }

  lemma Prompted(t: Trace)
    requires t.Snoc? && t.last == Ux(PresenceRequired)
    ensures JustPrompted(t)
  {
  }

  /** The ceremony is over because none of the allowed credentials can be on the device. */
  predicate NoneAllowed(start: Trace, t: Trace, info: Info, rpid: string, allow: seq<CredentialId>, preflights: bool) {
    && allow != []
    && var asked := Snoc(start, SentGetInfo(Success(info)));
       if preflights then GaveUp(asked, t, NotOversized(info, allow), rpid) else t == asked && NotOversized(info, allow) == []
  }

  /** What the device says of itself, which of the allowed credentials it holds, and the assertions. */
  method GetAssertionFido2(ch: Channel, rpid: string, hash: seq<byte>, hmac: bool, write: bool, allow: seq<CredentialId>,
                           preflights: bool, requirement: Requirement)
    returns (r: Result<nat, UvError>, ghost first: CommandResponse, ghost used: UsedToken)
    requires ch.Invariant() && (ch.store != null ==> ch.store.Valid())
    modifies ch`script, ch`trace, ch`authData, ch.store
    ensures ch.Invariant() && (ch.store != null ==> ch.store.Valid()) && Follows(old(ch.trace), ch.trace)
    ensures var limit := Limit(SaidFirst(old(ch.script)));
            Commands(ch.trace) <= Commands(old(ch.trace)) + (if HasToken(old(ch.authData)) then 1 else 0) + (if limit == 0 then 1 else limit)
    ensures Accounted(ch.crypto, old(ch.trace), ch.trace, old(ch.Kept()), ch.Kept(), {})
    ensures r.Failure? ==>
              || Blamed(ch.crypto, ch.trace, r.error)
              || (r.error == NoCredentials && NoneAllowed(old(ch.trace), ch.trace, SaidFirst(old(ch.script)), rpid, allow, preflights))
    ensures r.Success? ==> Collected(ch.trace, first, SaidFirst(old(ch.script)), r.value)
    ensures EndsWithRequest(MainRequest(ch.trace)) ==>
              && SentInLoop(ch.crypto, old(ch.trace), MainRequest(ch.trace), GetAssertionRequest(rpid, hash, hmac, write), requirement,
                            old(ch.authData), Proof(None, requirement.Required?), used)
              && (MainRequest(ch.trace).last.result.Failure? ==> ch.trace == MainRequest(ch.trace) && r == Failure(ch.trace.last.result.error))
              && (r == Failure(PinAuthInvalid) && ch.trace == MainRequest(ch.trace) ==> !FromStorage(used))
    ensures EndsWithRequest(MainRequest(ch.trace)) && requirement.Required?
            && Commands(MainRequest(ch.trace)) == Commands(old(ch.trace)) + 1 ==>
              UnprovedWhen(MainRequest(ch.trace), old(ch.authData), true)
  {
    hide Safe, Commands, Tokens, Demands, Topic, Skips, WellBehaved, Follows, LatestInfo, CacheSound, Brief, JustPrompted, Accounted, Blamed,
      SentInLoop, UnprovedWhen, Tested, Denied, GaveUp, NotOversized, Collected, Limit;
    first, used := CommandResponse(false, None, None), NoToken;
    ghost var start, before, c := ch.trace, ch.Kept(), ch.crypto;
    var reply := ch.GetInfo();
    InfoSeen(c, start, reply);
    StillMinted(c, start, ch.trace, ch.authData);
    AccountedSame(c, start, ch.trace, before);
    if reply.Failure? {
      InfoToBlame(c, ch.trace, reply.error);
      return Failure(reply.error), first, used;
    }
    ghost var t := ch.trace;
    var allowed := AllowedOnDevice(ch, reply.value, rpid, allow, preflights);
    FollowsTransitive(start, t, ch.trace);
    AccountedSame(c, start, ch.trace, before);
    if allowed.Failure? { return Failure(allowed.error), first, used; }
    t := ch.trace;
    var req := new Ctap2Request(GetAssertionRequest(rpid, hash, hmac, write), requirement);
    r, first, used := AssertAndCollect(ch, req, reply.value, requirement);
    FollowsTransitive(start, t, ch.trace);
    AccountedThen(c, start, t, ch.trace, before, before, ch.Kept(), {});
    SameStart(c, t, start, MainRequest(ch.trace), req.kind, requirement, Proof(None, requirement.Required?), used);
  }

  lemma SameStart(c: PinCrypto, start: Trace, earlier: Trace, t: Trace, kind: RequestKind, requirement: Requirement, before: Proof, used: UsedToken)
    requires Commands(start) == Commands(earlier)
    ensures forall cached :: SentInLoop(c, start, t, kind, requirement, cached, before, used)
                         ==> SentInLoop(c, earlier, t, kind, requirement, cached, before, used)
  {
    hide Commands, Sent, JustPrompted;
  }

  /** As many assertions as the device counts, one if it does not count, within the limit of its list, 255 if it gives none;
      and at least one. */
  predicate Collected(t: Trace, first: CommandResponse, info: Info, n: nat) {
    && Assertions(t, n, first) && n >= 1
    && (n > 1 ==> first.credentialsCount.Some? && n <= first.credentialsCount.value && n <= Limit(info))
    && (first.credentialsCount.Some? && n < first.credentialsCount.value ==> n == Limit(info) || (n == 1 && Limit(info) == 0))
  }

  function Limit(info: Info): nat {
    match info.maxCredentialCount case Some(max) => max case None => 255
  }

  method AssertAndCollect(ch: Channel, req: Ctap2Request, info: Info, requirement: Requirement)
    returns (r: Result<nat, UvError>, ghost first: CommandResponse, ghost used: UsedToken)
    requires req.kind.GetAssertionRequest? && !req.usePersistentToken && req.auth.None?
    requires ch.Invariant() && (ch.store != null ==> ch.store.Valid())
    modifies ch`script, ch`trace, ch`authData, ch.store, req
    ensures ch.Invariant() && (ch.store != null ==> ch.store.Valid()) && Follows(old(ch.trace), ch.trace)
    ensures var limit := Limit(info);
            Commands(ch.trace) <= Commands(old(ch.trace)) + (if HasToken(old(ch.authData)) then 1 else 0) + (if limit == 0 then 1 else limit)
    ensures Accounted(ch.crypto, old(ch.trace), ch.trace, old(ch.Kept()), ch.Kept(), {})
    ensures r.Failure? ==> Blamed(ch.crypto, ch.trace, r.error)
    ensures r.Success? ==> Collected(ch.trace, first, info, r.value)
    ensures EndsWithRequest(MainRequest(ch.trace)) ==>
              && SentInLoop(ch.crypto, old(ch.trace), MainRequest(ch.trace), req.kind, requirement, old(ch.authData), old(req.Carried()), used)
              && (MainRequest(ch.trace).last.result.Failure? ==> ch.trace == MainRequest(ch.trace) && r == Failure(ch.trace.last.result.error))
              && (r == Failure(PinAuthInvalid) && ch.trace == MainRequest(ch.trace) ==> !FromStorage(used))
    ensures EndsWithRequest(MainRequest(ch.trace)) && requirement.Required?
            && Commands(MainRequest(ch.trace)) == Commands(old(ch.trace)) + 1 ==>
              UnprovedWhen(MainRequest(ch.trace), old(ch.authData), old(req.uvOption))
  {
    hide Safe, Commands, Tokens, Demands, Topic, Skips, WellBehaved, Follows, LatestInfo, CacheSound, Brief, JustPrompted, Accounted, Blamed,
      SentInLoop, UnprovedWhen, TurnsAway, Stale;
    first := CommandResponse(false, None, None);
    ghost var start, before, cached, carried, c := ch.trace, ch.Kept(), ch.authData, req.Carried(), ch.crypto;
    var response;
    response, used := CredentialLoop(ch, req, requirement);
    ghost var t := ch.trace;
    if EndsWithRequest(t) { LoopSends(c, start, t, req.kind, requirement, cached, carried, used); }
    ShownInFirst(c, start, t, req.kind, requirement, cached, carried, used);
    if response.Failure? { return Failure(response.error), first, used; }
    first := response.value;
    if !response.value.rpIdHashMatches {
      MismatchToBlame(c, t);
      return Failure(InvalidDeviceResponse), first, used;
    }
    r := CollectAssertions(ch, response.value, AssertionCount(response.value, info));
    FollowsTransitive(start, t, ch.trace);
    AccountedLater(c, start, t, ch.trace, before, ch.Kept(), {});
  }

  lemma LoopSends(c: PinCrypto, start: Trace, t: Trace, kind: RequestKind, requirement: Requirement, cached: Option<AuthTokenData>,
                  before: Proof, used: UsedToken)
    requires SentInLoop(c, start, t, kind, requirement, cached, before, used)
    ensures EndsWithRequest(t) && t.last.command.kind == kind && MainRequest(t) == t
  {
    hide Sent, Commands, JustPrompted;
  }

  lemma MismatchToBlame(c: PinCrypto, t: Trace)
    requires t.Snoc? && t.last.SentCommand? && t.last.result.Success? && !t.last.result.value.rpIdHashMatches
    ensures Blamed(c, t, InvalidDeviceResponse)
  {
  }

  /** One assertion is there; collect the others. */
  method CollectAssertions(ch: Channel, first: CommandResponse, count: nat) returns (r: Result<nat, UvError>)
    requires ch.Invariant() && Assertions(ch.trace, 1, first)
    modifies ch`script, ch`trace
    ensures ch.Invariant() && Follows(old(ch.trace), ch.trace)
    ensures Commands(ch.trace) <= Commands(old(ch.trace)) + (if count == 0 then 0 else count - 1)
    ensures MainRequest(ch.trace) == old(ch.trace)
    ensures r.Failure? ==>
              && Blamed(ch.crypto, ch.trace, r.error) && ch.trace != old(ch.trace)
              && ch.trace.last.SentCommand? && AnswerBlamed(ch.crypto, ch.trace, r.error)
    ensures r.Success? ==> r.value == (if count == 0 then 1 else count) && Assertions(ch.trace, r.value, first)
  {
    hide Safe, Commands, Tokens, Demands, Topic, Skips, WellBehaved, Follows, LatestInfo, CacheSound, Brief, JustPrompted, DescriptionBlamed,
      UvFoundBlocked;
    ghost var start := ch.trace;
    FollowsSelf(start);
    var i := 1;
    while i < count
      invariant ch.Invariant() && Follows(start, ch.trace)
      invariant 1 <= i && (i <= count || i == 1) && Assertions(ch.trace, i, first)
      invariant MainRequest(ch.trace) == start
      invariant Commands(ch.trace) <= Commands(start) + i - 1
    {
      ghost var t := ch.trace;
      var next := ch.Send(GetNextAssertionCommand);
      CommandSent(ch.crypto, t, GetNextAssertionCommand, next, ch.authData);
      FollowsTransitive(start, t, ch.trace);
      if next.Failure? { return Failure(next.error); }
      if !next.value.rpIdHashMatches { return Failure(InvalidDeviceResponse); }
      i := i + 1;
    }
    r := Success(i);
  }

  // ---------------------------------------------------------------------------
  // Credential management
  // ---------------------------------------------------------------------------

  /** What the latest request carried. */
  function LatestProof(t: Trace): Option<Proof> {
    match t
    case Empty => None
    case Snoc(b, SentCommand(RequestCommand(_, proof, _), _)) => Some(proof)
    case Snoc(b, _) => LatestProof(b)
  }

  lemma {:induction false} ProofStays(t: Trace, u: Trace)
    requires Follows(t, u) && Commands(t) == Commands(u)
    ensures LatestProof(t) == LatestProof(u)
  {
    if t != u {
      CommandsGrow(t, u.before);
      CommandsGrow(t, u);
      ProofStays(t, u.before);
    }
  }

  /** Once a token on record was rejected, what else is on record does not matter. */
  lemma RecordsDoNotMatter(c: PinCrypto, t: Trace, requirement: Requirement, cached: Option<AuthTokenData>, records: Records, others: Records,
                           before: Proof, used: UsedToken)
    requires Sent(c, t, requirement, cached, records, true, before, used)
    ensures Sent(c, t, requirement, cached, others, true, before, used)
  {
    hide Topic, Hit, Skipped, Handed, OnlySecretDue, Offered, Recognizes;
  }

  lemma FiledSays(c: PinCrypto, start: Trace, t: Trace, before: Records, after: Records, used: UsedToken)
    requires Filed(c, start, t, before, after, used)
    ensures Accounted(c, start, t, before, after, RecordsMade(c, t, used)) && RecordsMade(c, t, used) <= after.Values
    ensures !used.NewlyCalculated? ==> RecordsMade(c, t, used) == {}
  {
    hide Accounted, Handed, Topic, LatestInfo;
  }

  /** A token from the store was recognized by what the device says of itself. */
  lemma StoredIs(c: PinCrypto, t: Trace, requirement: Requirement, cached: Option<AuthTokenData>, records: Records, rejected: bool,
                 before: Proof, used: UsedToken, now: Proof)
    requires Verified(c, t, requirement, cached, records, rejected, before, used, now)
    ensures used.FromPersistentStorage? ==>
      && !rejected && Topic(t).value.persistent && used.id in records && LatestInfo(t).Some?
      && Recognizes(c.identifierCipher, records[used.id], LatestInfo(t).value)
  {
    hide Handed, Hit, Skipped, OnlySecretDue, Offered, Recognizes;
  }

  /** Evicting the rejected record leaves the others accounted for. */
  lemma RejectionAccounted(c: PinCrypto, start: Trace, t: Trace, u: Trace, records: Records, id: RecordId)
    requires u.Snoc? && u.before == t && Follows(start, t) && EndsWithRequest(u) && u.last.result == Failure(PinAuthInvalid)
    requires LatestInfo(t).Some? && id in records && Recognizes(c.identifierCipher, records[id], LatestInfo(t).value)
    ensures Accounted(c, start, u, records, Without(records, id), {})
  {
    hide Recognizes, LatestInfo, Follows;
    FollowsIsLonger(start, t);
    EvictionAccounted(c, start, u, records, id, LatestInfo(t).value);
  }

  method SendManagement(ch: Channel, req: Ctap2Request) returns (response: Result<CommandResponse, UvError>)
    requires ch.Invariant() && req.kind.CredentialManagementRequest? && Topic(ch.trace).Some? && Topic(ch.trace).value.kind == req.kind
    modifies ch`script, ch`trace
    ensures ch.Invariant() && Follows(old(ch.trace), ch.trace) && Commands(ch.trace) == Commands(old(ch.trace)) + 1
    ensures ch.trace == Snoc(old(ch.trace), SentCommand(RequestCommand(req.kind, req.Carried(), req.useLegacyPreview), response))
  {
    hide Safe, Commands, Tokens, Demands, Topic, Skips, WellBehaved, Follows, LatestInfo, UvFoundBlocked, CacheSound, Brief, JustPrompted;
    ghost var t := ch.trace;
    var command := RequestCommand(req.kind, Proof(req.auth, req.uvOption), req.useLegacyPreview);
    response := ch.Send(command);
    CommandSent(ch.crypto, t, command, response, ch.authData);
  }

  /** One attempt. The record made of a persistent token is on record afterwards. */
  method ManageAttempt(ch: Channel, req: Ctap2Request) returns (v: Verdict, ghost used: UsedToken, ghost made: set<Record>)
    requires req.kind.CredentialManagementRequest?
    requires ch.Invariant() && (ch.store != null ==> ch.store.Valid())
    modifies ch`script, ch`trace, ch`authData, ch.store, req
    ensures ch.Invariant() && (ch.store != null ==> ch.store.Valid()) && Follows(old(ch.trace), ch.trace)
    ensures Commands(ch.trace) <= Commands(old(ch.trace)) + 1
    ensures Accounted(ch.crypto, old(ch.trace), ch.trace, old(ch.Kept()), ch.Kept(), made) && made <= ch.Kept().Values
    ensures EndsWithRequest(ch.trace) ==>
              && Sent(ch.crypto, ch.trace, Preferred, old(ch.authData), old(ch.Kept()), old(req.persistentTokenRejected),
                      old(req.Carried()), used)
              && ch.trace.last.command == RequestCommand(req.kind, req.Carried(), req.useLegacyPreview)
              && (req.kind.subcommand.UpdateUserInformation? ==> !req.useLegacyPreview)
              && Commands(ch.trace) == Commands(old(ch.trace)) + 1 && LatestProof(ch.trace.before) == LatestProof(old(ch.trace))
    ensures v.Retry? ==>
              && EndsWithRequest(ch.trace) && ch.trace.last.result == Failure(PinAuthInvalid) && FromStorage(used) && made == {}
              && (if used.FromEphemeralStorage?
                  then HasToken(old(ch.authData)) && ch.authData == None && req.persistentTokenRejected == old(req.persistentTokenRejected)
                       && ch.Kept() == old(ch.Kept())
                  else MayReuse(req.kind, old(req.persistentTokenRejected), ch.store != null) && ch.authData == old(ch.authData)
                       && req.persistentTokenRejected)
    ensures v.Conclude? ==> req.persistentTokenRejected == old(req.persistentTokenRejected)
    ensures v.Conclude? && v.result.Success? ==> EndsWithRequest(ch.trace)
    ensures v.Conclude? && EndsWithRequest(ch.trace) ==>
              v.result == ch.trace.last.result && (v.result == Failure(PinAuthInvalid) ==> !FromStorage(used))
    ensures v.Conclude? && v.result.Failure? ==>
              || Blamed(ch.crypto, ch.trace, v.result.error)
              || (v.result.error == InvalidCommand && req.kind.subcommand.UpdateUserInformation? && req.useLegacyPreview)
  {
    hide Safe, Commands, Tokens, Demands, Topic, Skips, WellBehaved, Follows, LatestInfo, UvFoundBlocked, CacheSound, Brief, Recognizes, Hit,
      Filed, Accounted, Blamed, Without, Verified, Handed, Skipped, Sent, Known, JustPrompted, RecordsMade, IsPreviewOnly, PinChanged, WellKept;
    ghost var start, before, cached, carried, c := ch.trace, ch.Kept(), ch.authData, req.Carried(), ch.crypto;
    ghost var rejected := req.persistentTokenRejected;
    var verified := VerifyUser(ch, req, Preferred);
    ghost var t, between := ch.trace, ch.Kept();
    used := UsedIn(verified);
    made := RecordsMade(c, t, used);
    FiledSays(c, start, t, before, between, used);
    if verified.Failure? {
      FailedInVerification(c, start, t, before, between);
      return Conclude(Failure(verified.error)), used, made;
    }
    CommandsGrow(start, t);
    ProofStays(start, t);
    if req.kind.subcommand.UpdateUserInformation? && req.useLegacyPreview { return Conclude(Failure(InvalidCommand)), used, made; }
    var response := SendManagement(ch, req);
    ghost var u := ch.trace;
    StoredIs(c, t, Preferred, cached, before, rejected, carried, used, req.Carried());
    VerifiedHanded(c, t, Preferred, cached, before, rejected, carried, used, req.Carried());
    SentAfter(c, t, t, req.kind, req.usePersistentToken, Topic(t).value.first.value, req.Carried(), req.useLegacyPreview, response,
              Preferred, cached, before, rejected, carried, used);
    v := HandleErrors(ch, req, verified.value, response, true);
    FollowsTransitive(t, u, ch.trace);
    FollowsTransitive(start, t, ch.trace);
    AccountedLater(c, start, t, ch.trace, before, between, made);
    if v.Retry? && used.FromPersistentStorage? {
      RejectionAccounted(c, start, t, u, between, used.id);
    }
  }

  /** `t` ends with a request of credential management: the first since `start`, or one sent after the stored tokens used before
      had been rejected, the cached one, the one on record, or both. */
  ghost predicate SentInManagement(c: PinCrypto, start: Trace, t: Trace, cached: Option<AuthTokenData>, records: Records, wasRejected: bool,
                                   isRejected: bool, carried: Proof, used: UsedToken)
  {
    EndsWithRequest(t) && t.last.command.kind.CredentialManagementRequest? &&
    var retries, fromRecord := Commands(t) - Commands(start) - 1, if isRejected != wasRejected then 1 else 0;
    && fromRecord <= retries <= fromRecord + 1 && (retries > fromRecord ==> HasToken(cached))
    && (fromRecord == 1 ==> MayReuse(t.last.command.kind, wasRejected, true))
    && (retries > 0 ==> LatestProof(t.before).Some?)
    && Sent(c, t, Preferred, if retries > fromRecord then None else cached, records, isRejected,
            if retries == 0 then carried else LatestProof(t.before).value, used)
  }

  /** At most three attempts, and at most two unless a token on record may be used, whatever the device answers and even if
      the store never deletes anything. */
  method ManageCredentials(ch: Channel, req: Ctap2Request)
    returns (r: Result<CommandResponse, UvError>, ghost used: UsedToken, ghost made: set<Record>)
    requires req.kind.CredentialManagementRequest?
    requires ch.Invariant() && (ch.store != null ==> ch.store.Valid())
    modifies ch`script, ch`trace, ch`authData, ch.store, req
    ensures ch.Invariant() && (ch.store != null ==> ch.store.Valid()) && Follows(old(ch.trace), ch.trace)
    ensures Commands(ch.trace) <= Commands(old(ch.trace)) + 1
              + Chances(old(ch.authData), MayReuse(req.kind, old(req.persistentTokenRejected), ch.store != null))
    ensures Accounted(ch.crypto, old(ch.trace), ch.trace, old(ch.Kept()), ch.Kept(), made) && made <= ch.Kept().Values
    ensures EndsWithRequest(ch.trace) ==>
              && SentInManagement(ch.crypto, old(ch.trace), ch.trace, old(ch.authData), old(ch.Kept()), old(req.persistentTokenRejected),
                                  req.persistentTokenRejected, old(req.Carried()), used)
              && ch.trace.last.command == RequestCommand(req.kind, req.Carried(), req.useLegacyPreview)
              && (req.kind.subcommand.UpdateUserInformation? ==> !req.useLegacyPreview)
              && r == ch.trace.last.result && (r == Failure(PinAuthInvalid) ==> !FromStorage(used))
    ensures r.Success? ==> EndsWithRequest(ch.trace)
    ensures r.Failure? ==>
              || Blamed(ch.crypto, ch.trace, r.error)
              || (r.error == InvalidCommand && req.kind.subcommand.UpdateUserInformation? && req.useLegacyPreview)
  {
    hide Safe, Commands, Tokens, Demands, Topic, Skips, WellBehaved, Follows, LatestInfo, CacheSound, Brief, Accounted, Blamed, MayReuse, HasToken,
      Sent, LatestProof;
    ghost var start, before, cached, carried, c := ch.trace, ch.Kept(), ch.authData, req.Carried(), ch.crypto;
    ghost var was, cleared := req.persistentTokenRejected, false;
    FollowsSelf(start);
    AccountedSame(c, start, start, before);
    NoChance();
    while true
      invariant ch.Invariant() && (ch.store != null ==> ch.store.Valid()) && Follows(start, ch.trace)
      invariant Accounted(c, start, ch.trace, before, ch.Kept(), {}) && (!req.persistentTokenRejected ==> ch.Kept() == before)
      invariant Commands(ch.trace) == Commands(start) + (if cleared then 1 else 0) + (if req.persistentTokenRejected != was then 1 else 0)
      invariant was ==> req.persistentTokenRejected
      invariant req.persistentTokenRejected != was ==> MayReuse(req.kind, was, ch.store != null)
      invariant ch.authData == (if cleared then None else cached) && (cleared ==> HasToken(cached))
      invariant if Commands(ch.trace) == Commands(start) then req.Carried() == carried else LatestProof(ch.trace) == Some(req.Carried())
      decreases Chances(ch.authData, MayReuse(req.kind, req.persistentTokenRejected, ch.store != null))
    {
      ghost var t, kept, now, rejected := ch.trace, ch.Kept(), req.Carried(), req.persistentTokenRejected;
      var verdict;
      verdict, used, made := ManageAttempt(ch, req);
      FollowsTransitive(start, t, ch.trace);
      AccountedThen(c, start, t, ch.trace, before, kept, ch.Kept(), made);
      if EndsWithRequest(ch.trace) {
        if rejected { RecordsDoNotMatter(c, ch.trace, Preferred, if cleared then None else cached, kept, before, now, used); }
        Reusable(req.kind, was, ch.store != null);
      }
      if verdict.Conclude? { return verdict.result, used, made; }
      LatestIsLast(ch.trace);
      Reusable(req.kind, rejected, ch.store != null);
      cleared := cleared || used.FromEphemeralStorage?;
    }
  }

  lemma NoChance()
    ensures !HasToken(None)
  {
  }

  lemma Reusable(kind: RequestKind, rejected: bool, storeAvailable: bool)
    ensures MayReuse(kind, rejected, storeAvailable) ==> MayReuse(kind, rejected, true) && !rejected
    ensures !MayReuse(kind, true, storeAvailable)
  {
  }

  lemma LatestIsLast(t: Trace)
    requires EndsWithRequest(t)
    ensures LatestProof(t) == Some(t.last.command.proof)
  {
  }

  /** Begin an enumeration; what comes after it uses the same command set. */
  method EnumerateBegin(ch: Channel, subcommand: CredentialManagementSubcommand, message: seq<byte>)
    returns (r: Result<CommandResponse, UvError>, ghost used: UsedToken, ghost made: set<Record>)
    requires subcommand.EnumerateRpsBegin? || subcommand.EnumerateCredentialsBegin?
    requires ch.Invariant() && (ch.store != null ==> ch.store.Valid())
    modifies ch`script, ch`trace, ch`authData, ch`credMgmtPreview, ch.store
    ensures ch.Invariant() && (ch.store != null ==> ch.store.Valid()) && Follows(old(ch.trace), ch.trace)
    ensures Commands(ch.trace) <= Commands(old(ch.trace)) + 3
    ensures Accounted(ch.crypto, old(ch.trace), ch.trace, old(ch.Kept()), ch.Kept(), made) && made <= ch.Kept().Values
    ensures EndsWithRequest(ch.trace) ==>
              && (exists rejected :: SentInManagement(ch.crypto, old(ch.trace), ch.trace, old(ch.authData), old(ch.Kept()), false, rejected,
                                                      Proof(None, false), used))
              && r == ch.trace.last.result && (r == Failure(PinAuthInvalid) ==> !FromStorage(used))
    ensures r.Success? ==>
              && EndsWithRequest(ch.trace) && ch.trace.last.command.kind == CredentialManagementRequest(subcommand, message)
              && ch.trace.last.command.preview == ch.credMgmtPreview
    ensures r.Failure? ==> ch.credMgmtPreview == old(ch.credMgmtPreview) && Blamed(ch.crypto, ch.trace, r.error)
  {
    hide Safe, Commands, Tokens, Demands, Topic, Skips, WellBehaved, Follows, LatestInfo, CacheSound, Brief, Accounted, Blamed, SentInManagement;
    var req := new Ctap2Request(CredentialManagementRequest(subcommand, message), Preferred);
    r, used, made := ManageCredentials(ch, req);
    if r.Success? {
      ch.credMgmtPreview := req.useLegacyPreview;
    }
  }

  method EnumerateNext(ch: Channel) returns (r: Result<CommandResponse, UvError>)
    requires ch.Invariant()
    modifies ch`script, ch`trace
    ensures ch.Invariant() && ch.trace == Snoc(old(ch.trace), SentCommand(EnumerateNextCommand(ch.credMgmtPreview), r))
  {
    ghost var t := ch.trace;
    r := ch.Send(EnumerateNextCommand(ch.credMgmtPreview));
    CommandSent(ch.crypto, t, EnumerateNextCommand(ch.credMgmtPreview), r, ch.authData);
  }

  // ---------------------------------------------------------------------------
  // Sessions
  // ---------------------------------------------------------------------------

  datatype Job =
    | Register(rpid: string, hash: seq<byte>, prf: bool, exclude: Option<seq<CredentialId>>, appidExclude: Option<string>,
               preflights: bool, requirement: Requirement)
    | Authenticate(rpid: string, hash: seq<byte>, hmac: bool, write: bool, allow: seq<CredentialId>, preflights: bool,
                   requirement: Requirement)
    | Manage(subcommand: CredentialManagementSubcommand, message: seq<byte>)
    | Begin(subcommand: CredentialManagementSubcommand, message: seq<byte>)
    | Continue
    | NewPin(pin: Pin)
    | FactoryReset
  {
    predicate Valid() {
      Begin? ==> subcommand.EnumerateRpsBegin? || subcommand.EnumerateCredentialsBegin?
    }
  }

  /** Any ceremonies, in any order, against any device and any user: nothing forbidden is ever sent, the cached token is
      always one the device handed out for what it is cached under, no device gets two records, no record comes but of a
      persistent token that the device handed out in the meantime, and none goes but what the device invalidated in the
      meantime, having been recognized, and records of devices that one was made for. */
  method Session(ch: Channel, jobs: seq<Job>) returns (ghost made: set<Record>)
    requires ch.Invariant() && (ch.store != null ==> ch.store.Valid())
    requires forall j :: 0 <= j < |jobs| ==> jobs[j].Valid()
    modifies ch, ch.store
    ensures Safe(ch.crypto, ch.trace) && CacheSound(ch.crypto, ch.trace, ch.authData) && Brief(ch.trace)
    ensures ch.store != null && ch.store.deletes ==> OnePerDevice(ch.store.records)
    ensures Accounted(ch.crypto, old(ch.trace), ch.trace, old(ch.Kept()), ch.Kept(), made)
    ensures Follows(old(ch.trace), ch.trace)
  {
    hide Safe, Commands, Tokens, Demands, Topic, Skips, WellBehaved, Follows, LatestInfo, CacheSound, Brief, OnePerDevice, Accounted;
    ghost var start, before, c := ch.trace, ch.Kept(), ch.crypto;
    made := {};
    FollowsSelf(start);
    AccountedSame(c, start, start, before);
    for i := 0 to |jobs|
      invariant ch.Invariant() && (ch.store != null ==> ch.store.Valid()) && Follows(start, ch.trace)
      invariant Accounted(c, start, ch.trace, before, ch.Kept(), made)
    {
      ghost var t, kept := ch.trace, ch.Kept();
      ghost var more := RunJob(ch, jobs[i]);
      FollowsTransitive(start, t, ch.trace);
      AccountedTransitive(c, start, t, ch.trace, before, kept, ch.Kept(), made, more);
      made := made + more;
    }
  }

  method RunJob(ch: Channel, job: Job) returns (ghost made: set<Record>)
    requires job.Valid()
    requires ch.Invariant() && (ch.store != null ==> ch.store.Valid())
    modifies ch, ch.store
    ensures ch.Invariant() && (ch.store != null ==> ch.store.Valid()) && Follows(old(ch.trace), ch.trace)
    ensures Accounted(ch.crypto, old(ch.trace), ch.trace, old(ch.Kept()), ch.Kept(), made)
  {
    hide Safe, Commands, Tokens, Demands, Topic, Skips, WellBehaved, Follows, LatestInfo, CacheSound, Brief, OnePerDevice, Accounted, JustSet,
      Invalidated, Blamed, SentInLoop, SentInManagement, UnprovedWhen, NoneAllowed, Collected;
    made := {};
    ghost var used;
    match job {
      case Register(rpid, hash, prf, exclude, appidExclude, preflights, requirement) =>
        var r;
        r, used := MakeCredentialFido2(ch, rpid, hash, prf, exclude, appidExclude, preflights, requirement);
      case Authenticate(rpid, hash, hmac, write, allow, preflights, requirement) =>
        var r;
        ghost var first;
        r, first, used := GetAssertionFido2(ch, rpid, hash, hmac, write, allow, preflights, requirement);
      case Manage(subcommand, message) =>
        var req := new Ctap2Request(CredentialManagementRequest(subcommand, message), Preferred);
        var r;
        r, used, made := ManageCredentials(ch, req);
      case Begin(subcommand, message) =>
        var r;
        r, used, made := EnumerateBegin(ch, subcommand, message);
      case Continue =>
        ghost var t := ch.trace;
        var r := EnumerateNext(ch);
        CommandSent(ch.crypto, t, ch.trace.last.command, r, ch.authData);
        AccountedSame(ch.crypto, t, ch.trace, ch.Kept());
      case NewPin(pin) =>
        var r := SetOrChangePin(ch, pin);
      case FactoryReset =>
        var r := Reset(ch);
    }
  }
}
