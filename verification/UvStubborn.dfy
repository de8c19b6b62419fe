/**
 Runs of the token loop that never end, for want of any one clause of `WellBehaved`, and runs that end with nobody verified
 although verification was required. All of them are runs of `LoopRun`, which is what the loop does.
 */
module UvStubborn {
  import opened Wrappers
  import opened Bytes
  import opened AuthenticatorInfo
  import opened PinProtocols
  import opened UvRequest
  import opened UvChannel
  import opened PinChange
  import opened UvTokenLoop

  // ---------------------------------------------------------------------------
  // Scripts
  // ---------------------------------------------------------------------------

  function Says(answer: Result<ClientPinResponse, UvError>): Reply {
    Reply(Failure(Interrupted), answer, Failure(Interrupted), None)
  }

  function Agrees(key: seq<byte>): Reply {
    Says(Success(ClientPinResponse(Some(key), None, None, None)))
  }

  function Enters(pin: Pin): Reply {
    Reply(Failure(Interrupted), Failure(Interrupted), Failure(Interrupted), Some(pin))
  }

  function Describes(info: Info): Reply {
    Reply(Success(info), Failure(Interrupted), Failure(Interrupted), None)
  }

  const Nothing: ClientPinResponse := ClientPinResponse(None, None, None, None)
  const NoAttempts: ClientPinResponse := ClientPinResponse(None, None, None, Some(0))

  lemma Next(a: Reply, rest: seq<Reply>)
    ensures ([a] + rest)[0] == a && Rest([a] + rest) == rest && ([a] + rest)[1..] == rest
  {
  }

  // ---------------------------------------------------------------------------
  // Passes that change nothing
  // ---------------------------------------------------------------------------

  /** The three ways of a device that keep the loop going. */
  datatype Stubborn = KeepsBlocking | KeepsInvalidating | KeepsDemanding

  /** A device, a user with a PIN, and a request with which the loop chooses a PIN operation. */
  datatype Scene = Scene(info: Info, task: Task, uvBlocked: bool, op: UvOperation, p: Protocol, pin: Pin, key: seq<byte>)

  /** The loop does choose that operation, the device supports the protocol and agrees on keys, and what `way` needs: a demand
      to change the PIN, and one that may be set; or else built-in verification that is out already. */
  predicate Leads(c: PinCrypto, s: Scene, way: Stubborn) {
    && ChooseOperation(s.info, s.task, s.uvBlocked) == Success(s.op) && FromPin(s.op)
    && s.info.SelectProtocol() == Some(s.p) && c.encapsulate(s.p, s.key).Some?
    && if way.KeepsDemanding? then s.info.MustChangePin() && PinLengthOk(s.info, s.pin) else !s.info.MustChangePin() && s.uvBlocked
  }

  /** What device and user say during a pass. */
  function Pass(s: Scene, way: Stubborn, rest: seq<Reply>): seq<Reply> {
    match way
    case KeepsBlocking => PinEntered(s, [Says(Failure(UvBlocked))] + rest)
    case KeepsInvalidating => PinEntered(s, [Says(Failure(UvInvalid))] + ([Says(Success(NoAttempts))] + rest))
    case KeepsDemanding => [Enters(s.pin)] + PinEntered(s, [Says(Success(Nothing))] + ([Describes(s.info)] + rest))
  }

  function PinEntered(s: Scene, rest: seq<Reply>): seq<Reply> {
    [Says(Failure(OtherCtap))] + ([Enters(s.pin)] + ([Agrees(s.key)] + rest))
  }

  /** What happens until the key is agreed on. */
  function PinAgreed(s: Scene, t: Trace, reason: PinReason): Trace {
    Snoc(Snoc(Snoc(Snoc(t,
      SentClientPin(GetPinRetries(if s.info.supportsFido21 then None else Some(s.p)), Failure(OtherCtap))),
      Ux(AskPin(reason, None))),
      Entered(Some(s.pin))),
      SentClientPin(GetKeyAgreement(s.p), Success(ClientPinResponse(Some(s.key), None, None, None))))
  }

  function TokenAsk(c: PinCrypto, s: Scene): ClientPinRequest
    requires c.encapsulate(s.p, s.key).Some? && FromPin(s.op)
  {
    var (publicKey, secret) := c.encapsulate(s.p, s.key).value;
    TokenRequest(c, s.op, s.p, Agreement(Some(s.pin), publicKey, secret), s.task.Permissions(), s.task.Rpid())
  }

  /** What happens during a pass. */
  function PassTrace(c: PinCrypto, s: Scene, t: Trace, way: Stubborn): Trace
    requires Leads(c, s, way)
  {
    match way
    case KeepsBlocking => Snoc(PinAgreed(s, t, WhyPin(s.task, s.uvBlocked)), SentClientPin(TokenAsk(c, s), Failure(UvBlocked)))
    case KeepsInvalidating =>
      Snoc(Snoc(Snoc(PinAgreed(s, t, WhyPin(s.task, s.uvBlocked)), SentClientPin(TokenAsk(c, s), Failure(UvInvalid))),
                SentClientPin(GetUvRetries, Success(NoAttempts))),
           Ux(UvRetry(Some(0))))
    case KeepsDemanding =>
      var (publicKey, secret) := c.encapsulate(s.p, s.key).value;
      var asked := Snoc(Snoc(t, Ux(AskNewPin(PinChangeRequired))), Entered(Some(s.pin)));
      Snoc(Snoc(PinAgreed(s, asked, AuthenticatorPolicy),
                SentClientPin(NewPinRequest(c, s.p, publicKey, secret, s.pin, Some(s.pin)), Success(Nothing))),
           SentGetInfo(Success(s.info)))
  }

  lemma PinRuns(c: PinCrypto, s: Scene, t: Trace, reason: PinReason, rest: seq<Reply>)
    ensures var a := PinRun(PinEntered(s, rest), t, s.info, s.p, reason);
      && a.result == Success(s.pin) && a.script == [Agrees(s.key)] + rest
      && a.trace == PinAgreed(s, t, reason).before
  {
    Next(Says(Failure(OtherCtap)), [Enters(s.pin)] + ([Agrees(s.key)] + rest));
    Next(Enters(s.pin), [Agrees(s.key)] + rest);
  }

  lemma SecretRuns(c: PinCrypto, p: Protocol, key: seq<byte>, t: Trace, rest: seq<Reply>)
    requires c.encapsulate(p, key).Some?
    ensures SecretRun(c, [Agrees(key)] + rest, t, p)
         == Run(rest, Snoc(t, SentClientPin(GetKeyAgreement(p), Success(ClientPinResponse(Some(key), None, None, None)))),
                Success(c.encapsulate(p, key).value))
  {
    Next(Agrees(key), rest);
  }

  /** A token request in a pass goes out as the code makes it. */
  lemma AttemptRuns(c: PinCrypto, s: Scene, t: Trace, way: Stubborn, answer: UvError, rest: seq<Reply>)
    requires Leads(c, s, way) && !way.KeepsDemanding?
    ensures var script, reason := PinEntered(s, [Says(Failure(answer))] + rest), WhyPin(s.task, s.uvBlocked);
      && AgreeRun(c, script, t, s.info, s.op, s.p, reason).result.Success?
      && AttemptRun(c, script, t, s.info, s.task, s.op, s.p, reason)
         == Run(rest, Snoc(PinAgreed(s, t, reason), SentClientPin(TokenAsk(c, s), Failure(answer))), Failure(answer))
  {
    hide PinRun, SecretRun, PinEntered;
    var reason, more := WhyPin(s.task, s.uvBlocked), [Says(Failure(answer))] + rest;
    PinRuns(c, s, t, reason, more);
    SecretRuns(c, s.p, s.key, PinAgreed(s, t, reason).before, more);
    Next(Says(Failure(answer)), rest);
  }

  lemma RefreshRuns(c: PinCrypto, s: Scene, t: Trace, rest: seq<Reply>)
    requires Leads(c, s, KeepsDemanding) && s.info.Enabled(ClientPin)
    ensures RefreshRun(c, Pass(s, KeepsDemanding, rest), t, s.info, PinChangeRequired)
         == Run(rest, PassTrace(c, s, t, KeepsDemanding), Success(s.info))
  {
    hide PinRun, SecretRun, PinEntered, NewPinRequest;
    var last := [Describes(s.info)] + rest;
    var more := [Says(Success(Nothing))] + last;
    var asked := Snoc(Snoc(t, Ux(AskNewPin(PinChangeRequired))), Entered(Some(s.pin)));
    Next(Enters(s.pin), PinEntered(s, more));
    PinRuns(c, s, asked, AuthenticatorPolicy, more);
    SecretRuns(c, s.p, s.key, PinAgreed(s, asked, AuthenticatorPolicy).before, more);
    Next(Says(Success(Nothing)), last);
    Next(Describes(s.info), rest);
  }

  /** The loop makes the pass, and is where it was. */
  lemma PassRepeats(c: PinCrypto, s: Scene, t: Trace, way: Stubborn, rest: seq<Reply>)
    requires Leads(c, s, way)
    ensures RoundRun(c, Pass(s, way, rest), t, s.info, s.task, s.uvBlocked)
         == Ran(rest, PassTrace(c, s, t, way), GoRound(s.info, s.uvBlocked))
  {
    hide ChooseOperation, AttemptRun, AgreeRun, RefreshRun, PinEntered, PinAgreed, TokenAsk;
    PinNeedsOne(s.info, s.task, s.uvBlocked);
    match way {
      case KeepsBlocking => AttemptRuns(c, s, t, way, UvBlocked, rest);
      case KeepsInvalidating =>
        AttemptRuns(c, s, t, way, UvInvalid, [Says(Success(NoAttempts))] + rest);
        Next(Says(Success(NoAttempts)), rest);
      case KeepsDemanding => RefreshRuns(c, s, t, rest);
    }
  }

  lemma PinNeedsOne(info: Info, task: Task, uvBlocked: bool)
    ensures var r := ChooseOperation(info, task, uvBlocked); r.Success? && FromPin(r.value) ==> info.Enabled(ClientPin)
  {
    OperationOffered(info, uvBlocked || task.skipUv);
  }

  // ---------------------------------------------------------------------------
  // Runs that never end
  // ---------------------------------------------------------------------------

  function Passes(s: Scene, way: Stubborn, n: nat, rest: seq<Reply>): seq<Reply> {
    if n == 0 then rest else Pass(s, way, Passes(s, way, n - 1, rest))
  }

  function PassesTrace(c: PinCrypto, s: Scene, t: Trace, way: Stubborn, n: nat): Trace
    requires Leads(c, s, way)
    decreases n
  {
    if n == 0 then t else PassesTrace(c, s, PassTrace(c, s, t, way), way, n - 1)
  }

  /** As often as one likes: after `n` such passes the loop is where it was, and has asked for that many tokens more, or PIN
      changes. */
  lemma {:induction false} NeverEnds(c: PinCrypto, s: Scene, t: Trace, way: Stubborn, n: nat, rest: seq<Reply>)
    requires Leads(c, s, way)
    ensures var u := PassesTrace(c, s, t, way, n);
      && LoopRun(c, Passes(s, way, n, rest), t, s.info, s.task, s.uvBlocked) == LoopRun(c, rest, u, s.info, s.task, s.uvBlocked)
      && Tokens(u) == Tokens(t) + (if way.KeepsDemanding? then 0 else n)
      && Demands(u) == Demands(t) + (if way.KeepsDemanding? then n else 0)
    decreases n
  {
    hide RoundRun, Pass, PassTrace, Leads, Tokens, Demands;
    if n > 0 {
      PassRepeats(c, s, t, way, Passes(s, way, n - 1, rest));
      PassCounts(c, s, t, way);
      NeverEnds(c, s, PassTrace(c, s, t, way), way, n - 1, rest);
    }
  }

  lemma PassCounts(c: PinCrypto, s: Scene, t: Trace, way: Stubborn)
    requires Leads(c, s, way)
    ensures var u := PassTrace(c, s, t, way);
      && Tokens(u) == Tokens(t) + (if way.KeepsDemanding? then 0 else 1)
      && Demands(u) == Demands(t) + (if way.KeepsDemanding? then 1 else 0)
      && (!way.KeepsBlocking? && NeverToPin(t, UvBlocked) ==> NeverToPin(u, UvBlocked))
      && (!way.KeepsInvalidating? && NeverToPin(t, UvInvalid) ==> NeverToPin(u, UvInvalid))
      && (!way.KeepsDemanding? && Content(t) ==> Content(u))
  {
    hide ChooseOperation, NewPinRequest, TokenAsk;
    AgreedCounts(s, t, WhyPin(s.task, s.uvBlocked));
    var asked := Snoc(Snoc(t, Ux(AskNewPin(PinChangeRequired))), Entered(Some(s.pin)));
    AgreedCounts(s, asked, AuthenticatorPolicy);
    var u := PassTrace(c, s, t, way);
    match way {
      case KeepsBlocking => AskIsToken(c, s);
      case KeepsInvalidating =>
        AskIsToken(c, s);
        assert Content(u.before) == Content(u.before.before) && Tokens(u.before) == Tokens(u.before.before);
        assert Demands(u.before) == Demands(u.before.before) && NeverToPin(u.before, UvBlocked) == NeverToPin(u.before.before, UvBlocked);
      case KeepsDemanding =>
        hide PinAgreed;
        assert Tokens(asked.before) == Tokens(t) && Demands(asked.before) == Demands(t) + 1;
        assert NeverToPin(asked.before, UvBlocked) == NeverToPin(t, UvBlocked) && NeverToPin(asked.before, UvInvalid) == NeverToPin(t, UvInvalid);
        assert Tokens(u.before) == Tokens(u.before.before) && Demands(u.before) == Demands(u.before.before);
    }
  }

  lemma AskIsToken(c: PinCrypto, s: Scene)
    requires c.encapsulate(s.p, s.key).Some? && FromPin(s.op)
    ensures IsPinToken(TokenAsk(c, s))
  {
  }

  lemma AgreedCounts(s: Scene, t: Trace, reason: PinReason)
    ensures var u := PinAgreed(s, t, reason);
      && Tokens(u) == Tokens(t) && Demands(u) == Demands(t) && Content(u) == Content(t)
      && NeverToPin(u, UvBlocked) == NeverToPin(t, UvBlocked) && NeverToPin(u, UvInvalid) == NeverToPin(t, UvInvalid)
  {
    var u := PinAgreed(s, t, reason);
    var v := u.before.before;
    assert Tokens(v.before) == Tokens(t) && Demands(v.before) == Demands(t) && Content(v.before) == Content(t);
    assert NeverToPin(v.before, UvBlocked) == NeverToPin(t, UvBlocked) && NeverToPin(v.before, UvInvalid) == NeverToPin(t, UvInvalid);
    assert Tokens(v) == Tokens(t) && Demands(v) == Demands(t) && Content(v) == Content(t);
    assert NeverToPin(v, UvBlocked) == NeverToPin(t, UvBlocked) && NeverToPin(v, UvInvalid) == NeverToPin(t, UvInvalid);
  }

  /** Each of these devices fails one clause of being well-behaved, and meets the others. */
  lemma OnlyFault(c: PinCrypto, s: Scene, t: Trace, way: Stubborn, n: nat)
    requires Leads(c, s, way) && WellBehaved(t)
    ensures var u := PassesTrace(c, s, t, way, n);
      && (!way.KeepsBlocking? ==> NeverToPin(u, UvBlocked))
      && (!way.KeepsInvalidating? ==> NeverToPin(u, UvInvalid))
      && (!way.KeepsDemanding? ==> Content(u))
  {
    FaultsStay(c, s, t, way, n);
  }

  lemma {:induction false} FaultsStay(c: PinCrypto, s: Scene, t: Trace, way: Stubborn, n: nat)
    requires Leads(c, s, way)
    ensures var u := PassesTrace(c, s, t, way, n);
      && (!way.KeepsBlocking? && NeverToPin(t, UvBlocked) ==> NeverToPin(u, UvBlocked))
      && (!way.KeepsInvalidating? && NeverToPin(t, UvInvalid) ==> NeverToPin(u, UvInvalid))
      && (!way.KeepsDemanding? && Content(t) ==> Content(u))
    decreases n
  {
    hide PassTrace, Leads, NeverToPin, Content;
    if n > 0 {
      PassCounts(c, s, t, way);
      FaultsStay(c, s, PassTrace(c, s, t, way), way, n - 1);
    }
  }

  // ---------------------------------------------------------------------------
  // From the very start
  // ---------------------------------------------------------------------------

  function Described(options: map<OptionId, bool>, mustChange: bool): Info {
    Silent.(options := Some(options), forcePinChange := if mustChange then Some(true) else None, pinAuthProtos := Some([1]))
  }

  /** Making a credential, with verification required. */
  const REQUIRED: Task := Task(MakeCredentialRequest("example.org", [], false), false, false, false, true, false)

  /** What happened when the loop starts. */
  function Started(info: Info): Trace {
    Snoc(Snoc(Empty, SentGetInfo(Success(info))), Deciding(REQUIRED.kind, REQUIRED.persistent))
  }

  lemma Starts(c: PinCrypto, info: Info)
    ensures LoopState(c, Started(info), info, REQUIRED, false, false) && WellBehaved(Started(info))
  {
    var s := Snoc(Empty, SentGetInfo(Success(info)));
    Step(c, Empty, s.last);
    Step(c, s, Deciding(REQUIRED.kind, REQUIRED.persistent));
  }

  /** What device and user say when the device, asked to verify the user itself, says that this is blocked. */
  function UvPass(key: seq<byte>, rest: seq<Reply>): seq<Reply> {
    [Agrees(key)] + ([Says(Failure(UvBlocked))] + rest)
  }

  function UvPassTrace(c: PinCrypto, t: Trace, key: seq<byte>): Trace
    requires c.encapsulate(One, key).Some?
  {
    var agreed := Snoc(t, SentClientPin(GetKeyAgreement(One), Success(ClientPinResponse(Some(key), None, None, None))));
    var q := UvTokenWithPermissions(One, c.encapsulate(One, key).value.0, REQUIRED.Permissions(), REQUIRED.Rpid());
    Snoc(Snoc(agreed, Ux(PresenceRequired)), SentClientPin(q, Failure(UvBlocked)))
  }

  lemma UvPassRuns(c: PinCrypto, info: Info, t: Trace, key: seq<byte>, rest: seq<Reply>)
    requires ChooseOperation(info, REQUIRED, false) == Success(UsingUv) && info.SelectProtocol() == Some(One)
    requires c.encapsulate(One, key).Some?
    ensures RoundRun(c, UvPass(key, rest), t, info, REQUIRED, false) == Ran(rest, UvPassTrace(c, t, key), GoRound(info, true))
  {
    hide ChooseOperation, SecretRun;
    SecretRuns(c, One, key, t, [Says(Failure(UvBlocked))] + rest);
    Next(Says(Failure(UvBlocked)), rest);
  }

  lemma UvPassBehaves(c: PinCrypto, t: Trace, key: seq<byte>)
    requires c.encapsulate(One, key).Some? && WellBehaved(t)
    ensures WellBehaved(UvPassTrace(c, t, key))
  {
    var u := UvPassTrace(c, t, key);
    Step(c, t, u.before.before.last);
    Step(c, u.before.before, u.before.last);
    Step(c, u.before, u.last);
  }

  /** A device that verifies users itself and has a PIN. Once it has said, as it may, that its own verification is blocked, two
      of the three ways are open to it. */
  const BOTH: Info := Described(map[Uv := true, PinUvAuthToken := true, ClientPin := true], false)

  lemma BlockedForEver(c: PinCrypto, pin: Pin, key: seq<byte>, way: Stubborn, n: nat)
    requires c.encapsulate(One, key).Some? && !way.KeepsDemanding?
    ensures var s := Scene(BOTH, REQUIRED, true, UsingPin, One, pin, key);
            var t := UvPassTrace(c, Started(BOTH), key);
      && Leads(c, s, way) && WellBehaved(t)
      && LoopRun(c, UvPass(key, Passes(s, way, n, [])), Started(BOTH), BOTH, REQUIRED, false)
         == LoopRun(c, [], PassesTrace(c, s, t, way, n), BOTH, REQUIRED, true)
  {
    hide RoundRun, Passes, PassesTrace, UvPassTrace, LoopState, WellBehaved;
    var s := Scene(BOTH, REQUIRED, true, UsingPin, One, pin, key);
    UvPassRuns(c, BOTH, Started(BOTH), key, Passes(s, way, n, []));
    NeverEnds(c, s, UvPassTrace(c, Started(BOTH), key), way, n, []);
    Starts(c, BOTH);
    UvPassBehaves(c, Started(BOTH), key);
  }

  /** A device with a PIN that demands a change, and does so again after every one. */
  const DEMANDING: Info := Described(map[PinUvAuthToken := true, ClientPin := true], true)

  lemma DemandedForEver(c: PinCrypto, pin: Pin, key: seq<byte>, n: nat)
    requires c.encapsulate(One, key).Some? && PinLengthOk(DEMANDING, pin)
    ensures var s := Scene(DEMANDING, REQUIRED, false, UsingPin, One, pin, key);
      && Leads(c, s, KeepsDemanding)
      && LoopRun(c, Passes(s, KeepsDemanding, n, []), Started(DEMANDING), DEMANDING, REQUIRED, false)
         == LoopRun(c, [], PassesTrace(c, s, Started(DEMANDING), KeepsDemanding, n), DEMANDING, REQUIRED, false)
  {
    hide Passes, PassesTrace;
    var s := Scene(DEMANDING, REQUIRED, false, UsingPin, One, pin, key);
    NeverEnds(c, s, Started(DEMANDING), KeepsDemanding, n, []);
  }

  // ---------------------------------------------------------------------------
  // Required, and yet only a shared secret
  // ---------------------------------------------------------------------------

  /** The loop, started by a request that requires verification on a device that offers it, ends with only a shared secret. */
  ghost predicate EndsWithSecret(c: PinCrypto, script: seq<Reply>, info: Info) {
    && info.IsUvProtected() && LoopState(c, Started(info), info, REQUIRED, false, false)
    && var r := LoopRun(c, script, Started(info), info, REQUIRED, false).end.result;
       r.Success? && r.value.Pass? && r.value.obtained.operation.OnlyForSharedSecret?
  }

  lemma SecretPass(c: PinCrypto, info: Info, t: Trace, uvBlocked: bool, key: seq<byte>)
    requires ChooseOperation(info, REQUIRED, uvBlocked) == Success(OnlyForSharedSecret) && info.SelectProtocol() == Some(One)
    requires c.encapsulate(One, key).Some?
    ensures var r := LoopRun(c, [Agrees(key)], t, info, REQUIRED, uvBlocked).end.result;
      r.Success? && r.value.Pass? && r.value.obtained.operation.OnlyForSharedSecret?
  {
    hide ChooseOperation, SecretRun;
    SecretRuns(c, One, key, t, []);
    assert [Agrees(key)] + [] == [Agrees(key)];
  }

  /** A device with built-in verification and no PIN blocks it. */
  lemma BlockedWithoutPin(c: PinCrypto, key: seq<byte>)
    requires c.encapsulate(One, key).Some?
    ensures EndsWithSecret(c, UvPass(key, [Agrees(key)]), Described(map[Uv := true, PinUvAuthToken := true, ClientPin := false], false))
  {
    hide RoundRun;
    var info := Described(map[Uv := true, PinUvAuthToken := true, ClientPin := false], false);
    Starts(c, info);
    UvPassRuns(c, info, Started(info), key, [Agrees(key)]);
    SecretPass(c, info, UvPassTrace(c, Started(info), key), true, key);
  }

  /** What device and user say when the device demands a PIN change, accepts one, and describes itself as `later`. */
  function Changed(pin: Pin, key: seq<byte>, later: Info, rest: seq<Reply>): seq<Reply> {
    [Enters(pin)] + ([Says(Failure(OtherCtap))] + ([Enters(pin)] + ([Agrees(key)] + ([Says(Success(Nothing))] + ([Describes(later)] + rest)))))
  }

  lemma ChangedRuns(c: PinCrypto, t: Trace, pin: Pin, key: seq<byte>, later: Info, rest: seq<Reply>)
    requires c.encapsulate(One, key).Some? && PinLengthOk(DEMANDING, pin)
    ensures var r := RoundRun(c, Changed(pin, key, later, rest), t, DEMANDING, REQUIRED, false);
      r.script == rest && r.end == GoRound(later, false)
  {
    hide PinRun, SecretRun, NewPinRequest;
    var s := Scene(DEMANDING, REQUIRED, false, UsingPin, One, pin, key);
    var last := [Describes(later)] + rest;
    var more := [Says(Success(Nothing))] + last;
    var asked := Snoc(Snoc(t, Ux(AskNewPin(PinChangeRequired))), Entered(Some(pin)));
    assert ChooseOperation(DEMANDING, REQUIRED, false) == Success(UsingPin);
    Next(Enters(pin), PinEntered(s, more));
    PinRuns(c, s, asked, AuthenticatorPolicy, more);
    SecretRuns(c, One, key, PinAgreed(s, asked, AuthenticatorPolicy).before, more);
    Next(Says(Success(Nothing)), last);
    Next(Describes(later), rest);
  }

  /** A device demands a PIN change, accepts one, and then describes itself as having no PIN. */
  lemma PinLostAfterChange(c: PinCrypto, pin: Pin, key: seq<byte>)
    requires c.encapsulate(One, key).Some? && PinLengthOk(DEMANDING, pin)
    ensures EndsWithSecret(c, Changed(pin, key, Described(map[PinUvAuthToken := true, ClientPin := false], false), [Agrees(key)]), DEMANDING)
  {
    hide RoundRun;
    var later := Described(map[PinUvAuthToken := true, ClientPin := false], false);
    Starts(c, DEMANDING);
    ChangedRuns(c, Started(DEMANDING), pin, key, later, [Agrees(key)]);
    var r := RoundRun(c, Changed(pin, key, later, [Agrees(key)]), Started(DEMANDING), DEMANDING, REQUIRED, false);
    SecretPass(c, later, r.trace, false, key);
  }
}
