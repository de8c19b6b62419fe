/**
 The loop that obtains a pinUvAuthToken, or a shared secret, with whichever operation the device offers
 (section 6.5.5.7 of CTAP 2.3), against any device and any user.

 Each method is proved twice: it does exactly what a function of the script says, and what it does is safe.
 */
module UvTokenLoop {
  import opened Wrappers
  import opened Bytes
  import opened AuthenticatorInfo
  import opened PersistentTokens
  import opened PinProtocols
  import opened UvRequest
  import opened UvChannel
  import opened PinChange

  // ---------------------------------------------------------------------------
  // One pass: a PIN if needed, a shared secret, a token
  // ---------------------------------------------------------------------------

  /** What the loop is about: the request, and what was settled before. */
  datatype Task = Task(kind: RequestKind, persistent: bool, discouraged: bool, needsSharedSecret: bool, canEstablish: bool, skipUv: bool)
  {
    function Permissions(): Role {
      kind.Permissions(persistent)
    }

    function Rpid(): Option<string> {
      kind.PermissionsRpid()
    }
  }

  /** What a pass obtained: a shared secret and, for a token operation, the device's answer to the token request. */
  datatype Obtained = Obtained(
    protocol: Protocol, publicKey: seq<byte>, secret: seq<byte>, operation: UvOperation, response: Option<ClientPinResponse>)

  predicate AsksForToken(op: UvOperation) {
    FromPin(op) || op.UsingUv?
  }

  /** The token request that an operation sends. */
  predicate RequestFor(q: ClientPinRequest, op: UvOperation, protocol: Protocol, role: Role, rpid: Option<string>) {
    match op
    case GetPinToken => q.PinToken? && q.protocol == protocol
    case UsingPin => q.PinTokenWithPermissions? && q.protocol == protocol && q.role == role && q.rpid == rpid
    case UsingUv => q.UvTokenWithPermissions? && q.protocol == protocol && q.role == role && q.rpid == rpid
    case _ => false
  }

  /** `t` continues `before` with plain events and then this operation's token request, answered with `response`. */
  predicate Asked(before: Trace, t: Trace, op: UvOperation, protocol: Protocol, role: Role, rpid: Option<string>,
                  response: Result<ClientPinResponse, UvError>)
  {
    && t.Snoc? && PlainSince(before, t.before) && t.last.SentClientPin?
    && RequestFor(t.last.request, op, protocol, role, rpid) && t.last.response == response
  }

  /** The key agreement with `p` just made, after the user entered `pin` when asked for one, if there is a PIN. */
  predicate AgreedWith(t: Trace, p: Protocol, pin: Option<Pin>) {
    match t
    case Snoc(b, SentClientPin(GetKeyAgreement(protocol), Success(_))) =>
      protocol == p && (pin.None? || match b
                                     case Snoc(Snoc(_, Ux(AskPin(_, _))), Entered(entered)) => entered == pin
                                     case _ => false)
    case _ => false
  }

  datatype Agreement = Agreement(pin: Option<Pin>, publicKey: seq<byte>, secret: seq<byte>)

  /** A PIN, if the operation takes one, and a shared secret, as a run. */
  function AgreeRun(c: PinCrypto, script: seq<Reply>, t: Trace, info: Info, op: UvOperation, p: Protocol, reason: PinReason): (r: Run<Agreement>)
    ensures |r.script| <= |script| && (r.result.Success? ==> (r.result.value.pin.Some? <==> FromPin(op)))
  {
    if FromPin(op) then
      var a := PinRun(script, t, info, p, reason);
      if a.result.Failure? then Run(a.script, a.trace, Failure(a.result.error))
      else SecretAgreed(SecretRun(c, a.script, a.trace, p), Some(a.result.value))
    else SecretAgreed(SecretRun(c, script, t, p), None)
  }

  function SecretAgreed(s: Run<(seq<byte>, seq<byte>)>, pin: Option<Pin>): Run<Agreement> {
    Run(s.script, s.trace,
        if s.result.Failure? then Failure(s.result.error) else Success(Agreement(pin, s.result.value.0, s.result.value.1)))
  }

  /** The PIN comes before the shared secret, so that the secret does not expire while the user is asked. */
  method Agree(ch: Channel, info: Info, op: UvOperation, protocol: Protocol, reason: PinReason) returns (r: Result<Agreement, UvError>)
    modifies ch`script, ch`trace
    ensures Run(ch.script, ch.trace, r) == AgreeRun(ch.crypto, old(ch.script), old(ch.trace), info, op, protocol, reason)
    ensures PlainSince(old(ch.trace), ch.trace)
    ensures r.Failure? ==> Blamed(ch.crypto, ch.trace, r.error)
    ensures r.Success? ==>
              && (r.value.pin.Some? <==> FromPin(op)) && AgreedWith(ch.trace, protocol, r.value.pin)
              && SecretAtHand(ch.crypto, ch.trace) == Some((r.value.publicKey, r.value.secret))
  {
    hide Blamed, PinRun, SecretRun;
    var pin: Option<Pin> := None;
    if FromPin(op) {
      var entered := ObtainPin(ch, info, protocol, reason);
      if entered.Failure? { return Failure(entered.error); }
      pin := Some(entered.value);
    }
    ghost var t := ch.trace;
    var shared := ObtainSharedSecret(ch, protocol);
    PlainTransitive(old(ch.trace), t, ch.trace);
    if shared.Failure? { return Failure(shared.error); }
    r := Success(Agreement(pin, shared.value.0, shared.value.1));
  }

  /** The request for a token. */
  function TokenRequest(c: PinCrypto, op: UvOperation, p: Protocol, a: Agreement, role: Role, rpid: Option<string>): (q: ClientPinRequest)
    requires op.UsingUv? || (FromPin(op) && a.pin.Some?)
    ensures RequestFor(q, op, p, role, rpid) && q.publicKey == a.publicKey
    ensures FromPin(op) ==> q.pinHashEnc == c.encrypt(p, a.secret, c.pinHash(a.pin.value.utf8))
  {
    match op
    case GetPinToken => PinToken(p, a.publicKey, c.encrypt(p, a.secret, c.pinHash(a.pin.value.utf8)))
    case UsingPin => PinTokenWithPermissions(p, a.publicKey, c.encrypt(p, a.secret, c.pinHash(a.pin.value.utf8)), role, rpid)
    case UsingUv => UvTokenWithPermissions(p, a.publicKey, role, rpid)
  }

  /** A PIN token request right after the PIN and the key agreement is one that safety allows. */
  lemma PinIsFresh(c: PinCrypto, t: Trace, p: Protocol, a: Agreement, q: ClientPinRequest)
    requires AgreedWith(t, p, a.pin) && a.pin.Some? && SecretAtHand(c, t) == Some((a.publicKey, a.secret))
    requires IsPinToken(q) && q.protocol == p && q.publicKey == a.publicKey
    requires q.pinHashEnc == c.encrypt(p, a.secret, c.pinHash(a.pin.value.utf8))
    ensures PinFreshlyEntered(c, t, q)
  {
  }

  /** One attempt at an operation, as a run. */
  function AttemptRun(c: PinCrypto, script: seq<Reply>, t: Trace, info: Info, task: Task, op: UvOperation, p: Protocol, reason: PinReason)
    : (r: Run<Obtained>)
    ensures |r.script| <= |script|
  {
    var a := AgreeRun(c, script, t, info, op, p, reason);
    if a.result.Failure? then Run(a.script, a.trace, Failure(a.result.error)) else
    var x := a.result.value;
    if !AsksForToken(op) then Run(a.script, a.trace, Success(Obtained(p, x.publicKey, x.secret, op, None))) else
    var u := if op.UsingUv? then Snoc(a.trace, Ux(PresenceRequired)) else a.trace;
    var q := AskRun(a.script, u, TokenRequest(c, op, p, x, task.Permissions(), task.Rpid()));
    Run(q.script, q.trace,
        if q.result.Failure? then Failure(q.result.error)
        else Success(Obtained(p, x.publicKey, x.secret, op, Some(q.result.value))))
  }

  lemma TokenAllowed(c: PinCrypto, t: Trace, info: Info, task: Task, op: UvOperation, p: Protocol, q: ClientPinRequest,
                     response: Result<ClientPinResponse, UvError>)
    requires LatestInfo(t) == Some(info) && About(t, task.kind, task.persistent) && AsksForToken(op)
    requires RequestFor(q, op, p, task.Permissions(), task.Rpid())
    requires FromPin(op) ==> PinTokenAllowed(info, task.Permissions()) && IsPinToken(q) && PinFreshlyEntered(c, t, q)
    requires op.UsingUv? ==> !UvOut(t) && t.Snoc? && t.last == Ux(PresenceRequired)
    ensures Allowed(c, t, SentClientPin(q, response)) && IsToken(q)
  {
    hide PinTokenAllowed, LatestInfo, Topic, UvFoundBlocked, Skips, PinFreshlyEntered;
  }

  lemma ForPin(q: ClientPinRequest, op: UvOperation, p: Protocol, role: Role, rpid: Option<string>)
    requires RequestFor(q, op, p, role, rpid)
    ensures q.protocol == p && (FromPin(op) ==> IsPinToken(q))
  {
  }

  method AttemptOperation(ch: Channel, info: Info, task: Task, op: UvOperation, protocol: Protocol, reason: PinReason)
    returns (r: Result<Obtained, UvError>, asked: bool)
    requires Safe(ch.crypto, ch.trace) && LatestInfo(ch.trace) == Some(info) && About(ch.trace, task.kind, task.persistent)
    requires FromPin(op) ==> PinTokenAllowed(info, task.Permissions())
    requires op.UsingUv? ==> !UvOut(ch.trace)
    modifies ch`script, ch`trace
    ensures Run(ch.script, ch.trace, r) == AttemptRun(ch.crypto, old(ch.script), old(ch.trace), info, task, op, protocol, reason)
    ensures asked == (AgreeRun(ch.crypto, old(ch.script), old(ch.trace), info, op, protocol, reason).result.Success? && AsksForToken(op))
    ensures |ch.script| <= |old(ch.script)|
    ensures Safe(ch.crypto, ch.trace)
    ensures !asked ==> PlainSince(old(ch.trace), ch.trace)
    ensures asked && r.Success? ==>
              && r.value.response.Some?
              && Asked(old(ch.trace), ch.trace, op, protocol, task.Permissions(), task.Rpid(), Success(r.value.response.value))
              && SecretAtHand(ch.crypto, ch.trace.before) == Some((r.value.publicKey, r.value.secret))
    ensures asked && r.Failure? ==>
              Asked(old(ch.trace), ch.trace, op, protocol, task.Permissions(), task.Rpid(), Failure(r.error))
    ensures r.Failure? ==> Blamed(ch.crypto, ch.trace, r.error)
    ensures asked && r.Failure? && r.error != Interrupted ==> |ch.script| < |old(ch.script)|
    ensures r.Success? ==>
              && r.value.protocol == protocol && r.value.operation == op
              && (asked <==> AsksForToken(op))
              && (asked <==> r.value.response.Some?)
  {
    hide PinTokenAllowed, LatestInfo, Topic, UvFoundBlocked, Skips, WellBehaved, Tokens, Demands, PinChanged, Commands, DescriptionBlamed,
      AgreedWith, PinFreshlyEntered, TokenRequest, TokenBlamed, AgreeRun, Allowed, Follows, RequestFor;
    asked := false;
    ghost var start := ch.trace;
    var agreed := Agree(ch, info, op, protocol, reason);
    PlainKeeps(ch.crypto, start, ch.trace);
    if agreed.Failure? { return Failure(agreed.error), false; }
    var a := agreed.value;
    if op.LegacyUv? || op.OnlyForSharedSecret? {
      return Success(Obtained(protocol, a.publicKey, a.secret, op, None)), false;
    }
    ghost var t := ch.trace;
    if op.UsingUv? {
      ch.SendUxUpdate(PresenceRequired);
    }
    PlainTransitive(start, t, ch.trace);
    t := ch.trace;
    PlainKeeps(ch.crypto, start, t);
    var q := TokenRequest(ch.crypto, op, protocol, a, task.Permissions(), task.Rpid());
    ForPin(q, op, protocol, task.Permissions(), task.Rpid());
    if FromPin(op) {
      PinIsFresh(ch.crypto, t, protocol, a, q);
    }
    var response := ch.ClientPin(q);
    asked := true;
    TokenAllowed(ch.crypto, t, info, task, op, protocol, q, response);
    r := if response.Success? then Success(Obtained(protocol, a.publicKey, a.secret, op, Some(response.value)))
         else Failure(response.error);
  }

  // ---------------------------------------------------------------------------
  // Steps between passes
  // ---------------------------------------------------------------------------

  /** `u` continues `t` safely, within the same decision, and without a command. */
  ghost predicate Steady(c: PinCrypto, t: Trace, u: Trace) {
    && (Safe(c, t) ==> Safe(c, u)) && Follows(t, u)
    && Commands(u) == Commands(t) && Topic(u) == Topic(t)
    && (PinChanged(t) ==> PinChanged(u)) && (WellBehaved(u) ==> WellBehaved(t))
  }

  lemma SteadyTransitive(c: PinCrypto, t: Trace, u: Trace, v: Trace)
    requires Steady(c, t, u) && Steady(c, u, v)
    ensures Steady(c, t, v)
  {
    hide Safe, LatestInfo, Topic, UvFoundBlocked, Skips, Commands, Tokens, Demands, PinChanged, WellBehaved, Follows;
    FollowsTransitive(t, u, v);
  }

  lemma PlainIsSteady(c: PinCrypto, t: Trace, u: Trace)
    requires PlainSince(t, u)
    ensures Steady(c, t, u) && LatestInfo(u) == LatestInfo(t) && UvFoundBlocked(u) == UvFoundBlocked(t) && Skips(u) == Skips(t)
    ensures Tokens(u) == Tokens(t) && Demands(u) == Demands(t) && (WellBehaved(u) <==> WellBehaved(t))
  {
    hide Safe, LatestInfo, Topic, UvFoundBlocked, Skips, Commands, Tokens, Demands, PinChanged, WellBehaved, Follows;
    PlainKeeps(c, t, u);
  }

  /** One event that safety says nothing about. */
  lemma OneSteady(c: PinCrypto, t: Trace, e: Event)
    requires e.SentGetInfo? || e.Ux? || (e.SentClientPin? && !IsToken(e.request))
    ensures var u := Snoc(t, e);
      && Steady(c, t, u)
      && LatestInfo(u) == (if e.SentGetInfo? && e.info.Success? then Some(e.info.value) else LatestInfo(t))
      && UvFoundBlocked(u) == (SaysBlocked(e) || UvFoundBlocked(t))
      && Skips(u) == (if e.SentGetInfo? && e.info.Success? && Demands(t) == 0 && Topic(t).Some? then !Topic(t).value.kind.CanUseUv(e.info.value)
                      else Skips(t))
      && Tokens(u) == Tokens(t)
      && Demands(u) == Demands(t) + (if e == Ux(AskNewPin(PinChangeRequired)) then 1 else 0)
      && (WellBehaved(u) && e.SentGetInfo? && e.info.Success? && PinChanged(t) ==> !e.info.value.MustChangePin())
  {
    hide Safe, LatestInfo, Topic, UvFoundBlocked, Skips, Commands, Tokens, Demands, PinChanged, WellBehaved, Follows;
    Step(c, t, e);
  }

  /** Setting or changing the PIN and looking at what the device then says of itself, as a run. */
  function RefreshRun(c: PinCrypto, script: seq<Reply>, t: Trace, info: Info, why: PinNotSetReason): (r: Run<Info>)
    ensures |r.script| <= |script| && (r.result.Success? ==> |r.script| < |script|)
  {
    var s := SettingRun(c, script, t, info, why);
    if s.result.Failure? then Run(s.script, s.trace, Failure(s.result.error)) else InfoRun(s.script, s.trace)
  }

  /** Have the user set or change the PIN. */
  method SetPinSteadily(ch: Channel, info: Info, why: PinNotSetReason) returns (r: Result<(), UvError>)
    requires LatestInfo(ch.trace) == Some(info)
    requires ch.store != null ==> ch.store.Valid()
    modifies ch`script, ch`trace, ch.store
    ensures Run(ch.script, ch.trace, r) == SettingRun(ch.crypto, old(ch.script), old(ch.trace), info, why)
    ensures ch.store != null ==> ch.store.Valid()
    ensures Accounted(ch.crypto, old(ch.trace), ch.trace, old(ch.Kept()), ch.Kept(), {})
    ensures info.Exists(ClientPin) ==> Follows(Snoc(old(ch.trace), Ux(AskNewPin(why))), ch.trace)
    ensures Steady(ch.crypto, old(ch.trace), ch.trace) && Skips(ch.trace) == Skips(old(ch.trace))
    ensures UvFoundBlocked(ch.trace) == UvFoundBlocked(old(ch.trace)) && Tokens(ch.trace) == Tokens(old(ch.trace))
    ensures Demands(ch.trace) == Demands(old(ch.trace)) + (if info.Exists(ClientPin) && why.PinChangeRequired? then 1 else 0)
    ensures r.Failure? ==> Blamed(ch.crypto, ch.trace, r.error)
    ensures r.Success? && info.Exists(ClientPin) ==> PinChanged(ch.trace)
  {
    hide Steady, LatestInfo, UvFoundBlocked, Skips, PinChanged, WellBehaved, Accounted, Invalidated, Safe, Commands, Tokens, Demands, Topic,
      DescriptionBlamed, SettingRun, Follows, AfterDemand, Accepted, PlainSince, Blamed;
    ghost var t, before, c := ch.trace, ch.Kept(), ch.crypto;
    ghost var base := AfterDemand(t, info, why);
    DemandIsSteady(c, t, info, why);
    SteadyFollows(c, t, base);
    if info.Exists(ClientPin) { PromptedFirst(c, ch.script, t, info, why); }
    r := TryToSetPin(ch, info, why);
    PlainIsSteady(c, base, ch.trace);
    SteadyTransitive(c, t, base, ch.trace);
    AccountedSame(c, t, ch.trace, before);
    if r.Success? && info.Exists(ClientPin) && ch.store != null {
      PinAccounted(c, t, base, ch.trace, before, info, ch.store.deletes, ch.Kept());
    }
  }

  /** Have the user set or change the PIN, and look at what the device then says of itself. */
  method SetPinAndRefresh(ch: Channel, info: Info, why: PinNotSetReason) returns (r: Result<Info, UvError>)
    requires LatestInfo(ch.trace) == Some(info)
    requires ch.store != null ==> ch.store.Valid()
    modifies ch`script, ch`trace, ch.store
    ensures Run(ch.script, ch.trace, r) == RefreshRun(ch.crypto, old(ch.script), old(ch.trace), info, why)
    ensures ch.store != null ==> ch.store.Valid()
    ensures Accounted(ch.crypto, old(ch.trace), ch.trace, old(ch.Kept()), ch.Kept(), {})
    ensures info.Exists(ClientPin) ==> Follows(Snoc(old(ch.trace), Ux(AskNewPin(why))), ch.trace)
    ensures Steady(ch.crypto, old(ch.trace), ch.trace)
    ensures UvFoundBlocked(ch.trace) == UvFoundBlocked(old(ch.trace)) && Tokens(ch.trace) == Tokens(old(ch.trace))
    ensures Demands(ch.trace) == Demands(old(ch.trace)) + (if info.Exists(ClientPin) && why.PinChangeRequired? then 1 else 0)
    ensures r.Success? ==>
              && LatestInfo(ch.trace) == Some(r.value)
              && Skips(ch.trace) == (if Demands(ch.trace) == 0 && Topic(ch.trace).Some? then !Topic(ch.trace).value.kind.CanUseUv(r.value)
                                     else Skips(old(ch.trace)))
    ensures r.Failure? ==> Blamed(ch.crypto, ch.trace, r.error)
    ensures r.Success? && info.Exists(ClientPin) ==>
              PinChanged(ch.trace) && (WellBehaved(ch.trace) ==> !r.value.MustChangePin())
  {
    hide Steady, LatestInfo, UvFoundBlocked, Skips, PinChanged, WellBehaved, Accounted, Invalidated, Safe, Commands, Tokens, Demands, Topic,
      DescriptionBlamed, SettingRun, Follows, AfterDemand, Accepted, PlainSince, Blamed;
    ghost var t, before, c := ch.trace, ch.Kept(), ch.crypto;
    var done := SetPinSteadily(ch, info, why);
    ghost var u := ch.trace;
    if done.Failure? { return Failure(done.error); }
    r := ch.GetInfo();
    OneSteady(c, u, ch.trace.last);
    SteadyTransitive(c, t, u, ch.trace);
    SteadyFollows(c, t, u);
    SteadyFollows(c, u, ch.trace);
    if info.Exists(ClientPin) { FollowsTransitive(Snoc(t, Ux(AskNewPin(why))), u, ch.trace); }
    AccountedLater(c, t, u, ch.trace, before, ch.Kept(), {});
    if r.Failure? { InfoToBlame(c, ch.trace, r.error); }
  }

  lemma InfoToBlame(c: PinCrypto, t: Trace, e: UvError)
    requires t.Snoc? && t.last == SentGetInfo(Failure(e))
    ensures Blamed(c, t, e)
  {
  }

  lemma SteadyFollows(c: PinCrypto, t: Trace, u: Trace)
    requires Steady(c, t, u)
    ensures Follows(t, u)
    ensures PinChanged(t) ==> PinChanged(u)
    ensures WellBehaved(u) ==> WellBehaved(t)
    ensures Topic(u) == Topic(t)
  {
    hide Safe, LatestInfo, Topic, UvFoundBlocked, Skips, Commands, Tokens, Demands, PinChanged, WellBehaved, Follows;
  }

  lemma DemandIsSteady(c: PinCrypto, t: Trace, info: Info, why: PinNotSetReason)
    ensures var u := AfterDemand(t, info, why);
      && Steady(c, t, u) && Tokens(u) == Tokens(t) && UvFoundBlocked(u) == UvFoundBlocked(t) && Skips(u) == Skips(t)
      && LatestInfo(u) == LatestInfo(t)
      && Demands(u) == Demands(t) + (if info.Exists(ClientPin) && why.PinChangeRequired? then 1 else 0)
  {
    hide Safe, LatestInfo, Topic, UvFoundBlocked, Skips, Commands, Tokens, Demands, PinChanged, WellBehaved, Follows;
    if info.Exists(ClientPin) && why.PinChangeRequired? {
      OneSteady(c, t, Ux(AskNewPin(why)));
    } else {
      FollowsSelf(t);
    }
  }

  lemma PinAccounted(c: PinCrypto, t: Trace, base: Trace, u: Trace, before: Records, info: Info, deletes: bool, after: Records)
    requires Follows(t, base) && Accepted(base, u) && LatestInfo(base) == Some(info)
    requires Invalidated(c.identifierCipher, before, info, deletes, after)
    ensures Accounted(c, t, u, before, after, {})
  {
    hide Safe, LatestInfo, Topic, UvFoundBlocked, Skips, Commands, Tokens, Demands, PinChanged, WellBehaved, Invalidated, Invalidates;
    PlainKeeps(c, base, u.before);
    FollowsIsLonger(t, base);
    FollowsIsLonger(base, u.before);
    InvalidationAccounted(c, t, u, before, info, deletes, after);
  }

  /** Asking how many attempts are left, as a run. */
  function FailedRun(script: seq<Reply>, t: Trace): (r: Run<Option<nat>>)
    ensures |r.script| <= |script| && r.result.Success?
  {
    var a := AskRun(script, t, GetUvRetries);
    var attemptsLeft := if a.result.Success? then a.result.value.uvRetries else None;
    Run(a.script, Snoc(a.trace, Ux(UvRetry(attemptsLeft))), Success(attemptsLeft))
  }

  /** Built-in verification failed: tell the user how many attempts are left. None left means that it is blocked. */
  method UvFailed(ch: Channel) returns (attemptsLeft: Option<nat>)
    modifies ch`script, ch`trace
    ensures Run(ch.script, ch.trace, Success(attemptsLeft)) == FailedRun(old(ch.script), old(ch.trace))
    ensures Steady(ch.crypto, old(ch.trace), ch.trace)
    ensures LatestInfo(ch.trace) == LatestInfo(old(ch.trace)) && Skips(ch.trace) == Skips(old(ch.trace))
    ensures UvFoundBlocked(ch.trace) == (attemptsLeft == Some(0) || UvFoundBlocked(old(ch.trace)))
    ensures Tokens(ch.trace) == Tokens(old(ch.trace)) && Demands(ch.trace) == Demands(old(ch.trace))
    ensures Blamed(ch.crypto, ch.trace, UvInvalid)
    ensures ch.trace.Snoc? && ch.trace.last == Ux(UvRetry(attemptsLeft))
    ensures match ch.trace.before
            case Snoc(b, SentClientPin(GetUvRetries, response)) =>
              b == old(ch.trace) && attemptsLeft == (if response.Success? then response.value.uvRetries else None)
            case _ => false
  {
    hide Steady, Safe, LatestInfo, Topic, UvFoundBlocked, Skips, Commands, Tokens, Demands, PinChanged, WellBehaved, Follows, DescriptionBlamed;
    ghost var t := ch.trace;
    var retries := ch.ClientPin(GetUvRetries);
    ghost var u := ch.trace;
    OneSteady(ch.crypto, t, u.last);
    attemptsLeft := if retries.Success? then retries.value.uvRetries else None;
    ch.SendUxUpdate(UvRetry(attemptsLeft));
    OneSteady(ch.crypto, u, ch.trace.last);
    SteadyTransitive(ch.crypto, t, u, ch.trace);
  }

  // ---------------------------------------------------------------------------
  // Choosing an operation
  // ---------------------------------------------------------------------------

  /** The operation for the next pass: the one the device offers, only a shared secret if the relying party discourages
      verification and that is all the request needs, and never a PIN operation that the device rules out. */
  function ChooseOperation(info: Info, task: Task, uvBlocked: bool): Result<UvOperation, UvError> {
    var uvOut := uvBlocked || task.skipUv;
    match info.Operation(uvOut)
    case None => Failure(if uvBlocked then UvBlocked else NoUvAvailable)
    case Some(offered) =>
      var op := if !offered.LegacyUv? && task.discouraged && task.needsSharedSecret && !task.kind.NeedsToken(info) then OnlyForSharedSecret
                else offered;
      EnforceNoMcGaWithClientPin(info, op, task.Permissions(), uvOut)
  }

  /** Only-a-shared-secret is chosen exactly when the device offers no more, or when verification is discouraged, a shared
      secret is needed and a token is not. */
  lemma SharedSecretOnlyWhen(info: Info, task: Task, uvBlocked: bool)
    ensures ChooseOperation(info, task, uvBlocked) == Success(OnlyForSharedSecret) <==>
              || info.OnlySecretOnOffer(uvBlocked || task.skipUv)
              || (task.discouraged && task.needsSharedSecret && !task.kind.NeedsToken(info)
                  && info.Operation(uvBlocked || task.skipUv).Some? && !info.Operation(uvBlocked || task.skipUv).value.LegacyUv?)
  {
    OperationOffered(info, uvBlocked || task.skipUv);
  }

  /** Unless verification is discouraged, only a shared secret is chosen exactly if the device has nothing better on offer.
      That the request requires verification makes no difference. */
  lemma OnlySecretIff(info: Info, task: Task, uvBlocked: bool)
    requires !task.discouraged
    ensures ChooseOperation(info, task, uvBlocked) == Success(OnlyForSharedSecret) <==> info.OnlySecretOnOffer(uvBlocked || task.skipUv)
  {
    SharedSecretOnlyWhen(info, task, uvBlocked);
  }

  /** What chosen operations have in common. */
  lemma Chosen(info: Info, task: Task, uvBlocked: bool)
    ensures var r := ChooseOperation(info, task, uvBlocked);
            r.Success? ==>
              && (r.value.UsingUv? ==> !uvBlocked && !task.skipUv)
              && (FromPin(r.value) ==> info.Exists(ClientPin))
              && (FromPin(r.value) && !info.MustChangePin() ==> PinTokenAllowed(info, task.Permissions()))
  {
  }

  /** The next operation is the one the device offers, or only a shared secret: the detour from a PIN to built-in
      verification is never taken, because a device with built-in verification to turn to offers that in the first place. */
  lemma ChosenIsOffered(info: Info, task: Task, uvBlocked: bool)
    ensures var r := ChooseOperation(info, task, uvBlocked);
            r.Success? && !r.value.OnlyForSharedSecret? ==> info.Operation(uvBlocked || task.skipUv) == Some(r.value)
  {
    OperationOffered(info, uvBlocked || task.skipUv);
  }

  lemma DescriptionToBlame(c: PinCrypto, t: Trace, info: Info, e: UvError)
    requires LatestInfo(t) == Some(info) && DescriptionBlamed(info, DecidingFor(t), UvFoundBlocked(t), UvOut(t), e)
    ensures Blamed(c, t, e)
  {
  }

  /** Nothing is chosen only if the device's description leaves nothing to choose. */
  lemma ChoiceToBlame(c: PinCrypto, t: Trace, info: Info, task: Task, uvBlocked: bool)
    requires LatestInfo(t) == Some(info) && UvFoundBlocked(t) == uvBlocked && Skips(t) == task.skipUv
    requires About(t, task.kind, task.persistent)
    requires ChooseOperation(info, task, uvBlocked).Failure?
    ensures Blamed(c, t, ChooseOperation(info, task, uvBlocked).error)
  {
    hide LatestInfo, UvFoundBlocked, Skips, Topic, AnswerBlamed;
    OperationOffered(info, uvBlocked || task.skipUv);
  }

  // ---------------------------------------------------------------------------
  // The loop as a run
  // ---------------------------------------------------------------------------

  /** How the loop ends: with what a pass obtained, or with the deprecated `uv` option and nothing else. */
  datatype LoopResult = Pass(obtained: Obtained) | UvOptionOnly

  /** How a pass ends: for good, or because built-in verification turned out to be blocked. */
  datatype PassEnd = Done(result: Result<Obtained, UvError>) | Blocked

  datatype RoundEnd = Finished(result: Result<LoopResult, UvError>) | GoRound(next: Info, uvIsBlocked: bool)

  datatype Ran<T> = Ran(script: seq<Reply>, trace: Trace, end: T)

  function PassRun(c: PinCrypto, script: seq<Reply>, t: Trace, info: Info, task: Task, op: UvOperation, reason: PinReason): (r: Ran<PassEnd>)
    ensures |r.script| <= |script| && (r.end.Blocked? ==> |r.script| < |script|)
  {
    match info.SelectProtocol()
    case None => Ran(script, t, Done(Failure(OtherCtap)))
    case Some(p) =>
      var a := AttemptRun(c, script, t, info, task, op, p, reason);
      var asked := AgreeRun(c, script, t, info, op, p, reason).result.Success? && AsksForToken(op);
      match a.result
      case Failure(UvBlocked) => if asked then Ran(a.script, a.trace, Blocked) else Ran(a.script, a.trace, Done(a.result))
      case Failure(UvInvalid) =>
        if !asked then Ran(a.script, a.trace, Done(a.result)) else
        var f := FailedRun(a.script, a.trace);
        Ran(f.script, f.trace, if f.result == Success(Some(0)) then Blocked else Done(Failure(UvInvalid)))
      case _ => Ran(a.script, a.trace, Done(a.result))
  }

  /** Why the user is asked for the PIN. */
  function WhyPin(task: Task, uvBlocked: bool): PinReason {
    if uvBlocked then FallbackFromUV else if task.discouraged then AuthenticatorPolicy else RelyingPartyRequest
  }

  function RoundRun(c: PinCrypto, script: seq<Reply>, t: Trace, info: Info, task: Task, uvBlocked: bool): (r: Ran<RoundEnd>)
    ensures |r.script| <= |script| && (r.end.GoRound? ==> |r.script| < |script|)
  {
    match ChooseOperation(info, task, uvBlocked)
    case Failure(e) => Ran(script, t, Finished(Failure(e)))
    case Success(op) =>
      if op.LegacyUv? && (!task.needsSharedSecret || !task.canEstablish) then Ran(script, t, Finished(Success(UvOptionOnly)))
      else CarryOutRun(c, script, t, info, task, op, uvBlocked)
  }

  function CarryOutRun(c: PinCrypto, script: seq<Reply>, t: Trace, info: Info, task: Task, op: UvOperation, uvBlocked: bool): (r: Ran<RoundEnd>)
    ensures |r.script| <= |script| && (r.end.GoRound? ==> |r.script| < |script|)
  {
    if info.MustChangePin() && FromPin(op) then
      var f := RefreshRun(c, script, t, info, PinChangeRequired);
      Ran(f.script, f.trace,
          if f.result.Failure? then Finished(Failure(f.result.error)) else GoRound(f.result.value, uvBlocked))
    else
      var p := PassRun(c, script, t, info, task, op, WhyPin(task, uvBlocked));
      Ran(p.script, p.trace,
          match p.end
          case Blocked => GoRound(info, true)
          case Done(result) => Finished(if result.Success? then Success(Pass(result.value)) else Failure(result.error)))
  }

  /** The loop's result, and the description of the device that it ended with. */
  datatype Loop = Loop(result: Result<LoopResult, UvError>, info: Info)

  function LoopRun(c: PinCrypto, script: seq<Reply>, t: Trace, info: Info, task: Task, uvBlocked: bool): Ran<Loop>
    decreases |script|
  {
    var r := RoundRun(c, script, t, info, task, uvBlocked);
    match r.end
    case Finished(result) => Ran(r.script, r.trace, Loop(result, info))
    case GoRound(next, uvIsBlocked) => LoopRun(c, r.script, r.trace, next, task, uvIsBlocked)
  }

  /** A round that asks for the PIN begins with that, and tells the user why: because built-in verification turned out to be
      blocked; otherwise because the relying party wants it, or, if that discourages it, because the device does. */
  lemma RoundAsksForPin(c: PinCrypto, script: seq<Reply>, t: Trace, info: Info, task: Task, uvBlocked: bool)
    requires ChooseOperation(info, task, uvBlocked).Success? && FromPin(ChooseOperation(info, task, uvBlocked).value)
    requires !info.MustChangePin() && info.SelectProtocol().Some?
    ensures var reason := if uvBlocked then FallbackFromUV else if task.discouraged then AuthenticatorPolicy else RelyingPartyRequest;
            var entry := if |script| < 2 then None else script[1].entry;
      exists asked :: AskedForPin(t, asked, info, info.SelectProtocol().value, reason, entry)
                   && Follows(asked, RoundRun(c, script, t, info, task, uvBlocked).trace)
  {
    hide ChooseOperation, SecretRun, TokenRequest, AskedForPin, PinRun, PassRun;
    var op, p := ChooseOperation(info, task, uvBlocked).value, info.SelectProtocol().value;
    var asked := PinRun(script, t, info, p, WhyPin(task, uvBlocked));
    RunAsksForPin(script, t, info, p, WhyPin(task, uvBlocked));
    PassFollows(c, script, t, info, task, op, WhyPin(task, uvBlocked), asked);
    assert RoundRun(c, script, t, info, task, uvBlocked).trace == PassRun(c, script, t, info, task, op, WhyPin(task, uvBlocked)).trace;
    assert AskedForPin(t, asked.trace, info, p, WhyPin(task, uvBlocked), if |script| < 2 then None else script[1].entry);
  }

  lemma RunAsksForPin(script: seq<Reply>, t: Trace, info: Info, p: Protocol, reason: PinReason)
    ensures AskedForPin(t, PinRun(script, t, info, p, reason).trace, info, p, reason, if |script| < 2 then None else script[1].entry)
  {
  }

  lemma PassFollows(c: PinCrypto, script: seq<Reply>, t: Trace, info: Info, task: Task, op: UvOperation, reason: PinReason, asked: Run<Pin>)
    requires FromPin(op) && info.SelectProtocol().Some?
    requires asked == PinRun(script, t, info, info.SelectProtocol().value, reason)
    ensures Follows(asked.trace, PassRun(c, script, t, info, task, op, reason).trace)
  {
    hide PinRun, SecretRun, TokenRequest;
    var p := info.SelectProtocol().value;
    SecretRunFollows(c, asked.script, asked.trace, p);
    var s := SecretRun(c, asked.script, asked.trace, p).trace;
    FollowsSelf(asked.trace);
    var attempt := AttemptRun(c, script, t, info, task, op, p, reason);
    assert Follows(asked.trace, attempt.trace);
    assert Follows(asked.trace, FailedRun(attempt.script, attempt.trace).trace.before);
  }

  /** A token request is made and answered with UvBlocked, or with UvInvalid and then no attempts left. */
  predicate TokenSaysBlocked(c: PinCrypto, script: seq<Reply>, t: Trace, info: Info, task: Task, op: UvOperation, reason: PinReason) {
    match info.SelectProtocol()
    case None => false
    case Some(p) =>
      var a := AttemptRun(c, script, t, info, task, op, p, reason);
      AsksForToken(op) && AgreeRun(c, script, t, info, op, p, reason).result.Success?
      && (a.result == Failure(UvBlocked)
          || (a.result == Failure(UvInvalid) && FailedRun(a.script, a.trace).result == Success(Some(0))))
  }

  /** Another round follows exactly if a demanded PIN change was made and the device describes itself anew, or if a token
      request was answered with UvBlocked, or with UvInvalid and then no attempts left. */
  lemma AnotherRoundIff(c: PinCrypto, script: seq<Reply>, t: Trace, info: Info, task: Task, uvBlocked: bool)
    ensures RoundRun(c, script, t, info, task, uvBlocked).end.GoRound? <==>
              match ChooseOperation(info, task, uvBlocked)
              case Failure(_) => false
              case Success(op) =>
                if info.MustChangePin() && FromPin(op) then RefreshRun(c, script, t, info, PinChangeRequired).result.Success?
                else TokenSaysBlocked(c, script, t, info, task, op, WhyPin(task, uvBlocked))
  {
    hide RefreshRun, AttemptRun, AgreeRun, FailedRun, ChooseOperation;
  }

  // ---------------------------------------------------------------------------
  // The loop
  // ---------------------------------------------------------------------------

  /** State of the loop between passes, as its trace shows it. `forced` says that it has already made the user change
      the PIN. A well-behaved device sends it round at most once for each of the two reasons. */
  ghost predicate LoopState(c: PinCrypto, t: Trace, info: Info, task: Task, uvBlocked: bool, forced: bool) {
    && Safe(c, t) && LatestInfo(t) == Some(info) && About(t, task.kind, task.persistent)
    && UvFoundBlocked(t) == uvBlocked && Skips(t) == task.skipUv
    && (forced ==> PinChanged(t))
    && (WellBehaved(t) ==>
          && Tokens(t) == (if uvBlocked then 1 else 0) && Demands(t) == (if forced then 1 else 0)
          && (forced ==> !info.MustChangePin()))
  }

  lemma StateHas(c: PinCrypto, t: Trace, info: Info, task: Task, uvBlocked: bool, forced: bool)
    requires LoopState(c, t, info, task, uvBlocked, forced)
    ensures Safe(c, t) && LatestInfo(t) == Some(info) && About(t, task.kind, task.persistent)
    ensures UvFoundBlocked(t) == uvBlocked && Skips(t) == task.skipUv && Brief(t)
    ensures WellBehaved(t) ==> Tokens(t) <= 1
  {
    hide Safe, LatestInfo, Topic, UvFoundBlocked, Skips, Commands, Tokens, Demands, PinChanged, WellBehaved, Follows;
  }

  lemma AfterForcedChange(c: PinCrypto, t: Trace, u: Trace, info: Info, task: Task, uvBlocked: bool, forced: bool)
    requires LoopState(c, t, info, task, uvBlocked, forced) && info.MustChangePin()
    requires Steady(c, t, u) && UvFoundBlocked(u) == UvFoundBlocked(t) && Tokens(u) == Tokens(t) && Demands(u) == Demands(t) + 1
    ensures Safe(c, u) && Follows(t, u) && Commands(u) == Commands(t) && Brief(u)
    ensures forall next: Info ::
              LatestInfo(u) == Some(next) && Skips(u) == Skips(t) && PinChanged(u) && (WellBehaved(u) ==> !next.MustChangePin()) ==>
                LoopState(c, u, next, task, uvBlocked, true)
  {
    hide Safe, LatestInfo, Topic, UvFoundBlocked, Skips, Commands, Tokens, Demands, PinChanged, WellBehaved, Follows;
  }

  /** A token request ends a pass. A well-behaved device says that built-in verification failed or is blocked only if that
      was asked for. */
  lemma TokenAsked(c: PinCrypto, t: Trace, u: Trace)
    requires u.Snoc? && PlainSince(t, u.before) && u.last.SentClientPin? && IsToken(u.last.request) && Safe(c, u)
    ensures Steady(c, t, u) && LatestInfo(u) == LatestInfo(t) && Skips(u) == Skips(t)
    ensures Tokens(u) == Tokens(t) + 1 && Demands(u) == Demands(t)
    ensures UvFoundBlocked(u) == (UvFoundBlocked(t) || u.last.response == Failure(UvBlocked))
    ensures WellBehaved(u) && u.last.response.Failure? && IsPinToken(u.last.request) ==>
              !u.last.response.error.UvBlocked? && !u.last.response.error.UvInvalid?
  {
    hide Safe, LatestInfo, Topic, UvFoundBlocked, Skips, Commands, Tokens, Demands, PinChanged, WellBehaved, Follows;
    PlainKeeps(c, t, u.before);
    Step(c, u.before, u.last);
    FollowsTransitive(t, u.before, u);
  }

  /** After a token request: if built-in verification turned out to be blocked, the loop may go on. */
  lemma AfterToken(c: PinCrypto, t: Trace, u: Trace, v: Trace, info: Info, task: Task, op: UvOperation, uvBlocked: bool, forced: bool)
    requires LoopState(c, t, info, task, uvBlocked, forced) && Steady(c, t, u) && Steady(c, u, v)
    requires LatestInfo(v) == LatestInfo(t) && Skips(v) == Skips(t) && Tokens(v) == Tokens(t) + 1 && Demands(v) == Demands(t)
    requires WellBehaved(u) && FromPin(op) ==> !UvFoundBlocked(v) || UvFoundBlocked(t)
    requires op.UsingUv? ==> !uvBlocked
    requires FromPin(op) || op.UsingUv?
    ensures Safe(c, v) && Follows(t, v) && Commands(v) == Commands(t) && Brief(v)
    ensures UvFoundBlocked(v) && (WellBehaved(v) ==> op.UsingUv?) ==> LoopState(c, v, info, task, true, forced)
  {
    hide Safe, LatestInfo, Topic, UvFoundBlocked, Skips, Commands, Tokens, Demands, PinChanged, WellBehaved, Follows;
    FollowsTransitive(t, u, v);
  }

  /** `t` ends with a token request for the operation of `o` that the device granted with the answer in `o`, under the key
      agreement that came right before. */
  ghost predicate Granted(c: PinCrypto, t: Trace, o: Obtained, role: Role, rpid: Option<string>) {
    && t.Snoc? && t.last.SentClientPin? && o.response.Some? && t.last.response == Success(o.response.value)
    && RequestFor(t.last.request, o.operation, o.protocol, role, rpid)
    && SecretAtHand(c, t.before) == Some((o.publicKey, o.secret))
  }

  /** How the loop may end, given what the device last said of itself: in a pass of the operation that was to be chosen, and
      for a token operation with the device's grant as the last thing that happened; or in the deprecated option. */
  ghost predicate LoopEnds(c: PinCrypto, t: Trace, task: Task, r: LoopResult) {
    && LatestInfo(t).Some? && Skips(t) == task.skipUv
    && var chosen := ChooseOperation(LatestInfo(t).value, task, UvFoundBlocked(t));
       match r
       case UvOptionOnly => chosen == Success(LegacyUv) && (!task.needsSharedSecret || !task.canEstablish)
       case Pass(o) =>
         && chosen == Success(o.operation)
         && (o.operation.LegacyUv? ==> task.needsSharedSecret && task.canEstablish)
         && (AsksForToken(o.operation) <==> o.response.Some?)
         && (o.response.Some? ==> Granted(c, t, o, task.Permissions(), task.Rpid()))
  }

  /** The request has to carry the deprecated `uv` option. */
  predicate UvOptionNeeded(kind: RequestKind, r: LoopResult) {
    (r.UvOptionOnly? || r.obtained.operation.LegacyUv?) && kind.NeedsPresence()
  }

  /** A pass of `op` obtained `o`, with the device's grant as the last thing that happened if it asked for a token. */
  ghost predicate PassEnds(c: PinCrypto, t: Trace, info: Info, task: Task, op: UvOperation, uvBlocked: bool, o: Obtained) {
    && LatestInfo(t) == Some(info) && UvFoundBlocked(t) == uvBlocked && Skips(t) == task.skipUv
    && o.operation == op && (AsksForToken(op) <==> o.response.Some?)
    && (o.response.Some? ==> Granted(c, t, o, task.Permissions(), task.Rpid()))
  }

  method RunPass(ch: Channel, info: Info, task: Task, op: UvOperation, reason: PinReason, uvBlocked: bool, ghost forced: bool)
    returns (e: PassEnd)
    requires LoopState(ch.crypto, ch.trace, info, task, uvBlocked, forced)
    requires FromPin(op) ==> PinTokenAllowed(info, task.Permissions())
    requires op.UsingUv? ==> !uvBlocked && !task.skipUv
    modifies ch`script, ch`trace
    ensures Ran(ch.script, ch.trace, e) == PassRun(ch.crypto, old(ch.script), old(ch.trace), info, task, op, reason)
    ensures Safe(ch.crypto, ch.trace) && Follows(old(ch.trace), ch.trace) && Commands(ch.trace) == Commands(old(ch.trace))
    ensures Brief(ch.trace) && Topic(ch.trace) == Topic(old(ch.trace))
    ensures e.Blocked? ==> !op.LegacyUv? && LoopState(ch.crypto, ch.trace, info, task, true, forced)
    ensures e.Done? && e.result.Failure? ==> Blamed(ch.crypto, ch.trace, e.result.error)
    ensures e.Done? && e.result.Success? ==> PassEnds(ch.crypto, ch.trace, info, task, op, uvBlocked, e.result.value)
  {
    hide LatestInfo, UvFoundBlocked, PinChanged, WellBehaved, Steady, Commands, Follows, Safe, Tokens, Demands, Topic, Skips, PinTokenAllowed,
      Blamed, LoopState, AttemptRun, AgreeRun, FailedRun, Brief, Asked, Granted, PlainSince, SecretAtHand, SaysBlocked, IsToken, IsPinToken;
    ghost var t, c := ch.trace, ch.crypto;
    FollowsSelf(t);
    StateHas(c, t, info, task, uvBlocked, forced);
    var protocol := info.SelectProtocol();
    if protocol.None? {
      NoProtocolToBlame(c, t, info);
      return Done(Failure(OtherCtap));
    }
    var attempt, asked := AttemptOperation(ch, info, task, op, protocol.value, reason);
    ghost var u := ch.trace;
    if !asked {
      PlainIsSteady(c, t, u);
      SteadyEnds(c, t, u);
      return Done(attempt);
    }
    AskedIsToken(t, u, op, protocol.value, task, if attempt.Success? then Success(attempt.value.response.value) else Failure(attempt.error));
    TokenAsked(c, t, u);
    SteadyEnds(c, t, u);
    SteadySelf(c, u);
    AfterToken(c, t, u, u, info, task, op, uvBlocked, forced);
    if attempt.Success? {
      AskedIsGranted(c, t, u, attempt.value, task);
      return Done(attempt);
    }
    if attempt.error.UvBlocked? { return Blocked; }
    if attempt.error.UvInvalid? {
      e := AfterInvalid(ch, t, info, task, op, uvBlocked, forced);
      return;
    }
    return Done(attempt);
  }

  /** Built-in verification failed. If no attempts are left it is blocked, and the loop may go on. */
  method AfterInvalid(ch: Channel, ghost t: Trace, ghost info: Info, ghost task: Task, ghost op: UvOperation, ghost uvBlocked: bool,
                      ghost forced: bool)
    returns (e: PassEnd)
    requires LoopState(ch.crypto, t, info, task, uvBlocked, forced) && (FromPin(op) || op.UsingUv?) && (op.UsingUv? ==> !uvBlocked)
    requires Steady(ch.crypto, t, ch.trace) && LatestInfo(ch.trace) == LatestInfo(t) && Skips(ch.trace) == Skips(t)
    requires Tokens(ch.trace) == Tokens(t) + 1 && Demands(ch.trace) == Demands(t) && (FromPin(op) ==> !WellBehaved(ch.trace))
    modifies ch`script, ch`trace
    ensures var f := FailedRun(old(ch.script), old(ch.trace));
            Ran(ch.script, ch.trace, e) == Ran(f.script, f.trace, if f.result == Success(Some(0)) then Blocked else Done(Failure(UvInvalid)))
    ensures Safe(ch.crypto, ch.trace) && Follows(t, ch.trace) && Commands(ch.trace) == Commands(t)
    ensures Brief(ch.trace) && Topic(ch.trace) == Topic(t)
    ensures e.Blocked? ==> LoopState(ch.crypto, ch.trace, info, task, true, forced)
    ensures e.Done? ==> e.result == Failure(UvInvalid) && Blamed(ch.crypto, ch.trace, UvInvalid)
  {
    hide LatestInfo, UvFoundBlocked, PinChanged, WellBehaved, Steady, Commands, Follows, Safe, Tokens, Demands, Topic, Skips, Blamed, LoopState,
      FailedRun, Brief;
    ghost var u, c := ch.trace, ch.crypto;
    var attemptsLeft := UvFailed(ch);
    SteadyEnds(c, t, u);
    SteadyEnds(c, u, ch.trace);
    AfterToken(c, t, u, ch.trace, info, task, op, uvBlocked, forced);
    return if attemptsLeft == Some(0) then Blocked else Done(Failure(UvInvalid));
  }

  lemma AskedIsToken(t: Trace, u: Trace, op: UvOperation, p: Protocol, task: Task, response: Result<ClientPinResponse, UvError>)
    requires Asked(t, u, op, p, task.Permissions(), task.Rpid(), response)
    ensures u.Snoc? && PlainSince(t, u.before) && u.last.SentClientPin? && u.last.response == response
    ensures IsToken(u.last.request) && (FromPin(op) <==> IsPinToken(u.last.request))
  {
  }

  lemma AskedIsGranted(c: PinCrypto, t: Trace, u: Trace, o: Obtained, task: Task)
    requires o.response.Some? && Asked(t, u, o.operation, o.protocol, task.Permissions(), task.Rpid(), Success(o.response.value))
    requires SecretAtHand(c, u.before) == Some((o.publicKey, o.secret))
    ensures Granted(c, u, o, task.Permissions(), task.Rpid())
  {
  }

  lemma NoProtocolToBlame(c: PinCrypto, t: Trace, info: Info)
    requires LatestInfo(t) == Some(info) && info.SelectProtocol().None?
    ensures Blamed(c, t, OtherCtap)
  {
    DescriptionToBlame(c, t, info, OtherCtap);
  }

  lemma SteadySelf(c: PinCrypto, t: Trace)
    ensures Steady(c, t, t)
  {
    hide Safe, LatestInfo, Topic, UvFoundBlocked, Skips, Commands, Tokens, Demands, PinChanged, WellBehaved;
  }

  lemma SteadyEnds(c: PinCrypto, t: Trace, u: Trace)
    requires Steady(c, t, u)
    ensures Safe(c, t) ==> Safe(c, u)
    ensures Follows(t, u) && Commands(u) == Commands(t) && Topic(u) == Topic(t) && (WellBehaved(u) ==> WellBehaved(t))
    ensures Brief(t) && Tokens(u) == Tokens(t) && Demands(u) == Demands(t) ==> Brief(u)
  {
    hide Safe, LatestInfo, Topic, UvFoundBlocked, Skips, Commands, Tokens, Demands, PinChanged, WellBehaved, Follows;
  }

  /** One round of the loop: choose an operation, make the user change the PIN if the device insists, or run the pass. */
  method OneRound(ch: Channel, req: Ctap2Request, info: Info, task: Task, uvBlocked: bool, ghost forced: bool)
    returns (e: RoundEnd, ghost forcedNow: bool)
    requires LoopState(ch.crypto, ch.trace, info, task, uvBlocked, forced) && task.kind == req.kind
    requires ch.store != null ==> ch.store.Valid()
    modifies ch`script, ch`trace, ch.store, req`uvOption
    ensures Ran(ch.script, ch.trace, e) == RoundRun(ch.crypto, old(ch.script), old(ch.trace), info, task, uvBlocked)
    ensures ch.store != null ==> ch.store.Valid()
    ensures Accounted(ch.crypto, old(ch.trace), ch.trace, old(ch.Kept()), ch.Kept(), {})
    ensures Safe(ch.crypto, ch.trace) && Follows(old(ch.trace), ch.trace) && Commands(ch.trace) == Commands(old(ch.trace))
    ensures Brief(ch.trace) && Topic(ch.trace) == Topic(old(ch.trace))
    ensures e.GoRound? ==> LoopState(ch.crypto, ch.trace, e.next, task, e.uvIsBlocked, forcedNow)
    ensures e.Finished? && e.result.Failure? ==> Blamed(ch.crypto, ch.trace, e.result.error)
    ensures e.Finished? && e.result.Success? ==>
              LatestInfo(ch.trace) == Some(info) && LoopEnds(ch.crypto, ch.trace, task, e.result.value)
    ensures e.GoRound? ==> req.uvOption == old(req.uvOption)
    ensures e.Finished? && e.result.Success? ==> req.uvOption == (old(req.uvOption) || UvOptionNeeded(req.kind, e.result.value))
  {
    hide ChooseOperation, PinTokenAllowed, LatestInfo, UvFoundBlocked, WellBehaved, Commands, Follows, Safe, Tokens, Demands, Topic, Skips,
      Granted, LoopState, LoopEnds, PassEnds, FromPin, Accounted, Blamed, CarryOutRun, Brief;
    AccountedSame(ch.crypto, ch.trace, ch.trace, ch.Kept());
    forcedNow := forced;
    FollowsSelf(ch.trace);
    StateHas(ch.crypto, ch.trace, info, task, uvBlocked, forced);
    var chosen := ChooseOperation(info, task, uvBlocked);
    Chosen(info, task, uvBlocked);
    if chosen.Failure? {
      ChoiceToBlame(ch.crypto, ch.trace, info, task, uvBlocked);
      return Finished(Failure(chosen.error)), forced;
    }
    var op := chosen.value;
    if op.LegacyUv? {
      req.EnsureUvSet();
      if !task.needsSharedSecret || !task.canEstablish {
        EndsWithUvOption(ch.crypto, ch.trace, info, task);
        return Finished(Success(UvOptionOnly)), forced;
      }
    }
    e, forcedNow := CarryOut(ch, info, task, op, uvBlocked, forced);
    if e.Finished? && e.result.Success? {
      EndsWithPass(ch.crypto, ch.trace, info, task, op, uvBlocked, e.result.value.obtained);
    }
  }

  /** Make the user change the PIN if the device insists before it grants a token for one, or run the pass. */
  method CarryOut(ch: Channel, info: Info, task: Task, op: UvOperation, uvBlocked: bool, ghost forced: bool)
    returns (e: RoundEnd, ghost forcedNow: bool)
    requires LoopState(ch.crypto, ch.trace, info, task, uvBlocked, forced)
    requires FromPin(op) ==> info.Exists(ClientPin) && (!info.MustChangePin() ==> PinTokenAllowed(info, task.Permissions()))
    requires op.UsingUv? ==> !uvBlocked && !task.skipUv
    requires ch.store != null ==> ch.store.Valid()
    modifies ch`script, ch`trace, ch.store
    ensures Ran(ch.script, ch.trace, e) == CarryOutRun(ch.crypto, old(ch.script), old(ch.trace), info, task, op, uvBlocked)
    ensures ch.store != null ==> ch.store.Valid()
    ensures Accounted(ch.crypto, old(ch.trace), ch.trace, old(ch.Kept()), ch.Kept(), {})
    ensures Safe(ch.crypto, ch.trace) && Follows(old(ch.trace), ch.trace) && Commands(ch.trace) == Commands(old(ch.trace))
    ensures Brief(ch.trace) && Topic(ch.trace) == Topic(old(ch.trace))
    ensures e.GoRound? ==> !op.LegacyUv? && LoopState(ch.crypto, ch.trace, e.next, task, e.uvIsBlocked, forcedNow)
    ensures e.Finished? && e.result.Failure? ==> Blamed(ch.crypto, ch.trace, e.result.error)
    ensures e.Finished? && e.result.Success? ==>
              && e.result.value.Pass?
              && PassEnds(ch.crypto, ch.trace, info, task, op, uvBlocked, e.result.value.obtained)
  {
    hide PinTokenAllowed, LatestInfo, UvFoundBlocked, WellBehaved, Commands, Follows, Safe, Tokens, Demands, Topic, Skips, LoopState,
      PassEnds, Accounted, Blamed, PassRun, RefreshRun, Brief;
    if info.MustChangePin() && FromPin(op) {
      var refreshed := ForcePinChange(ch, info, task, uvBlocked, forced);
      if refreshed.Failure? { return Finished(Failure(refreshed.error)), forced; }
      return GoRound(refreshed.value, uvBlocked), true;
    }
    forcedNow := forced;
    ghost var before, t := ch.Kept(), ch.trace;
    var end := RunPass(ch, info, task, op, WhyPin(task, uvBlocked), uvBlocked, forced);
    AccountedSame(ch.crypto, t, ch.trace, before);
    match end {
      case Blocked => e := GoRound(info, true);
      case Done(result) => e := Finished(if result.Success? then Success(Pass(result.value)) else Failure(result.error));
    }
  }

  /** The device insists on a PIN change: have the user make one, then start over with what the device now says. */
  method ForcePinChange(ch: Channel, info: Info, ghost task: Task, uvBlocked: bool, ghost forced: bool) returns (r: Result<Info, UvError>)
    requires LoopState(ch.crypto, ch.trace, info, task, uvBlocked, forced)
    requires info.MustChangePin() && info.Exists(ClientPin)
    requires ch.store != null ==> ch.store.Valid()
    modifies ch`script, ch`trace, ch.store
    ensures Run(ch.script, ch.trace, r) == RefreshRun(ch.crypto, old(ch.script), old(ch.trace), info, PinChangeRequired)
    ensures ch.store != null ==> ch.store.Valid()
    ensures Accounted(ch.crypto, old(ch.trace), ch.trace, old(ch.Kept()), ch.Kept(), {})
    ensures Safe(ch.crypto, ch.trace) && Follows(old(ch.trace), ch.trace) && Commands(ch.trace) == Commands(old(ch.trace))
    ensures Brief(ch.trace) && Topic(ch.trace) == Topic(old(ch.trace))
    ensures r.Failure? ==> Blamed(ch.crypto, ch.trace, r.error)
    ensures r.Success? ==> LoopState(ch.crypto, ch.trace, r.value, task, uvBlocked, true)
  {
    hide LatestInfo, UvFoundBlocked, PinChanged, WellBehaved, Steady, Commands, Follows, Safe, Tokens, Demands, Topic, Skips, LoopState,
      Accounted, Blamed, RefreshRun, Brief;
    ghost var t := ch.trace;
    StateHas(ch.crypto, t, info, task, uvBlocked, forced);
    r := SetPinAndRefresh(ch, info, PinChangeRequired);
    AfterForcedChange(ch.crypto, t, ch.trace, info, task, uvBlocked, forced);
    SteadyFollows(ch.crypto, t, ch.trace);
  }

  lemma EndsWithUvOption(c: PinCrypto, t: Trace, info: Info, task: Task)
    requires LatestInfo(t) == Some(info) && Skips(t) == task.skipUv && (!task.needsSharedSecret || !task.canEstablish)
    requires ChooseOperation(info, task, UvFoundBlocked(t)) == Success(LegacyUv)
    ensures LoopEnds(c, t, task, UvOptionOnly)
  {
  }

  lemma EndsWithPass(c: PinCrypto, t: Trace, info: Info, task: Task, op: UvOperation, uvBlocked: bool, o: Obtained)
    requires PassEnds(c, t, info, task, op, uvBlocked, o) && (op.LegacyUv? ==> task.needsSharedSecret && task.canEstablish)
    requires ChooseOperation(info, task, uvBlocked) == Success(op)
    ensures LoopEnds(c, t, task, Pass(o))
    ensures LatestInfo(t) == Some(info) && o.operation == op
  {
    hide ChooseOperation, Granted, LatestInfo, UvFoundBlocked, Skips;
  }

  /** Round after round, until a pass succeeds or something fails for good. */
  method ObtainToken(ch: Channel, req: Ctap2Request, firstInfo: Info, task: Task) returns (r: Result<LoopResult, UvError>, info: Info)
    requires LoopState(ch.crypto, ch.trace, firstInfo, task, false, false) && task.kind == req.kind
    requires ch.store != null ==> ch.store.Valid()
    modifies ch`script, ch`trace, ch.store, req`uvOption
    ensures Ran(ch.script, ch.trace, Loop(r, info)) == LoopRun(ch.crypto, old(ch.script), old(ch.trace), firstInfo, task, false)
    ensures ch.store != null ==> ch.store.Valid()
    ensures Accounted(ch.crypto, old(ch.trace), ch.trace, old(ch.Kept()), ch.Kept(), {})
    ensures Safe(ch.crypto, ch.trace) && Follows(old(ch.trace), ch.trace) && Commands(ch.trace) == Commands(old(ch.trace))
    ensures Brief(ch.trace) && Topic(ch.trace) == Topic(old(ch.trace))
    ensures r.Failure? ==> Blamed(ch.crypto, ch.trace, r.error)
    ensures r.Success? ==> LatestInfo(ch.trace) == Some(info) && LoopEnds(ch.crypto, ch.trace, task, r.value)
    ensures r.Success? ==> req.uvOption == (old(req.uvOption) || UvOptionNeeded(req.kind, r.value))
  {
    hide WellBehaved, Commands, Follows, Safe, Tokens, Demands, Topic, Skips, UvFoundBlocked, LoopState, LoopEnds, LatestInfo, Accounted, Blamed,
      RoundRun, Brief;
    info := firstInfo;
    var uvBlocked := false;
    ghost var forced := false;
    ghost var start, atFirst, goal := ch.trace, ch.Kept(), LoopRun(ch.crypto, ch.script, ch.trace, firstInfo, task, false);
    FollowsSelf(start);
    AccountedSame(ch.crypto, start, start, atFirst);
    while true
      invariant LoopState(ch.crypto, ch.trace, info, task, uvBlocked, forced)
      invariant LoopRun(ch.crypto, ch.script, ch.trace, info, task, uvBlocked) == goal
      invariant Follows(start, ch.trace) && Commands(ch.trace) == Commands(start) && Topic(ch.trace) == Topic(start)
      invariant ch.store != null ==> ch.store.Valid()
      invariant Accounted(ch.crypto, start, ch.trace, atFirst, ch.Kept(), {})
      invariant req.uvOption == old(req.uvOption)
      decreases |ch.script|
    {
      ghost var t, kept := ch.trace, ch.Kept();
      var end;
      end, forced := OneRound(ch, req, info, task, uvBlocked, forced);
      FollowsTransitive(start, t, ch.trace);
      AccountedThen(ch.crypto, start, t, ch.trace, atFirst, kept, ch.Kept(), {});
      if end.Finished? { return end.result, info; }
      info, uvBlocked := end.next, end.uvIsBlocked;
    }
  }
}
