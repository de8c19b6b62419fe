/** Asking the user for PINs, and setting or changing the authenticator's. */
module PinChange {
  import opened Wrappers
  import opened Bytes
  import opened AuthenticatorInfo
  import opened PersistentTokens
  import opened PinProtocols
  import opened UvChannel

  const PADDED_PIN: nat := 64
  const MAX_PIN_BYTES: nat := 63
  const DEFAULT_MIN_PIN: nat := 4

  /** A new PIN is sent padded with zero bytes to 64, of which at least one is padding. */
  function Padded(pin: seq<byte>): (s: seq<byte>)
    requires |pin| <= MAX_PIN_BYTES
    ensures |s| == PADDED_PIN
  {
    pin + seq(PADDED_PIN - |pin|, _ => 0)
  }

  /** Padding loses nothing: a PIN without zero bytes is what comes before the first one. */
  lemma PaddingIsInjective(p: seq<byte>, q: seq<byte>)
    requires |p| <= MAX_PIN_BYTES && |q| <= MAX_PIN_BYTES && 0 !in p && 0 !in q
    requires Padded(p) == Padded(q)
    ensures p == q
  {
    NoLonger(p, q);
    NoLonger(q, p);
    assert Padded(p)[..|p|] == p && Padded(q)[..|q|] == q;
  }

  lemma NoLonger(p: seq<byte>, q: seq<byte>)
    requires |p| <= MAX_PIN_BYTES && |q| <= MAX_PIN_BYTES && 0 !in q && Padded(p) == Padded(q)
    ensures |q| <= |p|
  {
    assert forall i :: 0 <= i < |q| ==> Padded(q)[i] == q[i] && q[i] in q;
    assert Padded(p)[|p|] == 0;
  }

  /** Agreeing on a key, as a run. */
  function SecretRun(c: PinCrypto, script: seq<Reply>, t: Trace, p: Protocol): (r: Run<(seq<byte>, seq<byte>)>)
    ensures |r.script| <= |script| && (r.result.Success? ==> |r.script| < |script|)
  {
    var a := AskRun(script, t, GetKeyAgreement(p));
    var result :=
      if a.result.Failure? then Failure(a.result.error)
      else if a.result.value.keyAgreement.None? then Failure(OtherCtap)
      else match c.encapsulate(p, a.result.value.keyAgreement.value)
           case None => Failure(CryptoError)
           case Some(shared) => Success(shared);
    Run(a.script, a.trace, result)
  }

  method ObtainSharedSecret(ch: Channel, protocol: Protocol) returns (r: Result<(seq<byte>, seq<byte>), UvError>)
    modifies ch`script, ch`trace
    ensures Run(ch.script, ch.trace, r) == SecretRun(ch.crypto, old(ch.script), old(ch.trace), protocol)
    ensures PlainSince(old(ch.trace), ch.trace)
    ensures r.Success? ==>
      && ch.trace.Snoc? && ch.trace.before == old(ch.trace)
      && ch.trace.last.SentClientPin? && ch.trace.last.request == GetKeyAgreement(protocol)
      && ch.trace.last.response.Success? && ch.trace.last.response.value.keyAgreement.Some?
      && ch.crypto.encapsulate(protocol, ch.trace.last.response.value.keyAgreement.value) == Some(r.value)
    ensures r.Failure? ==> Blamed(ch.crypto, ch.trace, r.error)
  {
    var response := ch.ClientPin(GetKeyAgreement(protocol));
    assert PlainSince(old(ch.trace), ch.trace.before);
    if response.Failure? { return Failure(response.error); }
    if response.value.keyAgreement.None? { return Failure(OtherCtap); }
    var shared := ch.crypto.encapsulate(protocol, response.value.keyAgreement.value);
    if shared.None? { return Failure(CryptoError); }
    r := Success(shared.value);
  }

  /** `t` is `before`, the question how many attempts are left, which names the protocol if the device supports no more than
      CTAP 2.0, and then the user's entry, asked for with `reason` and with that number, if the device told it. */
  predicate AskedForPin(before: Trace, t: Trace, info: Info, p: Protocol, reason: PinReason, pin: Option<Pin>) {
    match t
    case Snoc(Snoc(Snoc(b, SentClientPin(GetPinRetries(named), response)), Ux(AskPin(why, left))), Entered(entry)) =>
      && b == before && why == reason && entry == pin
      && (named.None? <==> info.supportsFido21) && (named.Some? ==> named.value == p)
      && left == (if response.Success? then response.value.pinRetries else None)
    case _ => false
  }

  /** Asking the user for the PIN, as a run. */
  function PinRun(script: seq<Reply>, t: Trace, info: Info, p: Protocol, reason: PinReason): (r: Run<Pin>)
    ensures |r.script| <= |script| && (r.result.Success? ==> |r.script| < |script|)
  {
    var a := AskRun(script, t, GetPinRetries(if info.supportsFido21 then None else Some(p)));
    var attemptsLeft := if a.result.Success? then a.result.value.pinRetries else None;
    var pin := if a.script == [] then None else a.script[0].entry;
    Run(Rest(a.script), Snoc(Snoc(a.trace, Ux(AskPin(reason, attemptsLeft))), Entered(pin)),
        match pin case None => Failure(PinRequired) case Some(x) => Success(x))
  }

  method ObtainPin(ch: Channel, info: Info, protocol: Protocol, reason: PinReason) returns (r: Result<Pin, UvError>)
    modifies ch`script, ch`trace
    ensures Run(ch.script, ch.trace, r) == PinRun(old(ch.script), old(ch.trace), info, protocol, reason)
    ensures PlainSince(old(ch.trace), ch.trace)
    ensures AskedForPin(old(ch.trace), ch.trace, info, protocol, reason, if r.Success? then Some(r.value) else None)
    ensures r.Failure? ==> r.error == PinRequired && Blamed(ch.crypto, ch.trace, r.error)
  {
    var retries := ch.ClientPin(GetPinRetries(if info.supportsFido21 then None else Some(protocol)));
    assert PlainSince(old(ch.trace), ch.trace.before);
    var attemptsLeft := if retries.Success? then retries.value.pinRetries else None;
    ch.SendUxUpdate(AskPin(reason, attemptsLeft));
    assert PlainSince(old(ch.trace), ch.trace.before);
    var pin := ch.AwaitPin();
    assert PlainSince(old(ch.trace), ch.trace.before);
    if pin.None? { return Failure(PinRequired); }
    r := Success(pin.value);
  }

  /** What a successful PIN change or reset does to the store: the record recognized beforehand, if any, goes; no other
      record does. */
  ghost predicate Invalidated(c: IdentifierCipher, before: Records, info: Info, deletes: bool, after: Records) {
    if !deletes || (forall id :: id in before ==> !Recognizes(c, before[id], info)) then after == before
    else exists id :: id in before && Recognizes(c, before[id], info) && after == Without(before, id)
  }

  lemma InvalidationAccounted(c: PinCrypto, start: Trace, t: Trace, before: Records, info: Info, deletes: bool, after: Records)
    requires Invalidated(c.identifierCipher, before, info, deletes, after)
    requires t.Snoc? && t != start && Invalidates(t.last) && LatestInfo(t.before) == Some(info)
    ensures Accounted(c, start, t, before, after, {})
  {
    AccountedSame(c, start, t, before);
    if !(!deletes || (forall id :: id in before ==> !Recognizes(c.identifierCipher, before[id], info))) {
      var id :| id in before && Recognizes(c.identifierCipher, before[id], info) && after == Without(before, id);
      EvictionAccounted(c, start, t, before, id, info);
    }
  }

  method RecognizedId(ch: Channel, info: Info) returns (id: Option<RecordId>)
    ensures ch.store == null ==> id == None
    ensures ch.store != null ==>
      && (id.Some? ==> id.value in ch.store.records && Recognizes(ch.crypto.identifierCipher, ch.store.records[id.value], info))
      && (id.None? ==> forall i :: i in ch.store.records ==> !Recognizes(ch.crypto.identifierCipher, ch.store.records[i], info))
  {
    if ch.store == null { return None; }
    var found := RecognizeAuthenticator(ch.store, ch.crypto.identifierCipher, info);
    id := if found.Some? then Some(found.value.0) else None;
  }

  /** The request that sets the PIN, or changes it if there is a current one. */
  function NewPinRequest(c: PinCrypto, p: Protocol, publicKey: seq<byte>, secret: seq<byte>, newPin: Pin, currentPin: Option<Pin>)
    : (q: ClientPinRequest)
    requires |newPin.utf8| <= MAX_PIN_BYTES
    ensures (q.SetPin? <==> currentPin.None?) && (q.ChangePin? <==> currentPin.Some?)
    ensures q.protocol == p && q.publicKey == publicKey && q.newPinEnc == c.encrypt(p, secret, newPin.utf8 + seq(64 - |newPin.utf8|, _ => 0))
    ensures currentPin.Some? ==> q.pinHashEnc == c.encrypt(p, secret, c.pinHash(currentPin.value.utf8))
    ensures q.param == c.authenticate(p, secret, q.newPinEnc + if currentPin.Some? then q.pinHashEnc else [])
  {
    var newPinEnc := c.encrypt(p, secret, Padded(newPin.utf8));
    match currentPin
    case Some(pin) =>
      var pinHashEnc := c.encrypt(p, secret, c.pinHash(pin.utf8));
      ChangePin(p, newPinEnc, pinHashEnc, publicKey, c.authenticate(p, secret, newPinEnc + pinHashEnc))
    case None =>
      assert newPinEnc + [] == newPinEnc;
      SetPin(p, newPinEnc, publicKey, c.authenticate(p, secret, newPinEnc))
  }

  /** What the user just entered. */
  function JustEntered(t: Trace): Option<Pin> {
    match t
    case Snoc(_, Entered(pin)) => pin
    case _ => None
  }

  /** The last events are a key agreement and, under it, a PIN set to `pin` or, if there is one, changed to it from the one
      that the user entered just before. The device accepted. */
  predicate JustSet(c: PinCrypto, t: Trace, info: Info, pin: Pin)
    requires |pin.utf8| <= MAX_PIN_BYTES
  {
    match t
    case Snoc(Snoc(b, SentClientPin(GetKeyAgreement(p), Success(r))), SentClientPin(q, Success(_))) =>
      && r.keyAgreement.Some? && c.encapsulate(p, r.keyAgreement.value).Some?
      && (info.Enabled(ClientPin) ==> JustEntered(b).Some?)
      && var (publicKey, secret) := c.encapsulate(p, r.keyAgreement.value).value;
         q == NewPinRequest(c, p, publicKey, secret, pin, if info.Enabled(ClientPin) then JustEntered(b) else None)
    case _ => false
  }

  predicate PinLengthOk(info: Info, pin: Pin) {
    pin.codePoints >= (match info.minPinLength case Some(n) => n case None => 4) && |pin.utf8| <= 63
  }

  /** Setting or changing the PIN, as a run. */
  function NewPinRun(c: PinCrypto, script: seq<Reply>, t: Trace, info: Info, p: Protocol, newPin: Pin): (r: Run<()>)
    requires |newPin.utf8| <= MAX_PIN_BYTES
    ensures |r.script| <= |script|
  {
    if info.Enabled(ClientPin) then
      var a := PinRun(script, t, info, p, AuthenticatorPolicy);
      if a.result.Failure? then Run(a.script, a.trace, Failure(a.result.error))
      else NewPinSent(c, a.script, a.trace, p, newPin, Some(a.result.value))
    else NewPinSent(c, script, t, p, newPin, None)
  }

  function NewPinSent(c: PinCrypto, script: seq<Reply>, t: Trace, p: Protocol, newPin: Pin, currentPin: Option<Pin>): (r: Run<()>)
    requires |newPin.utf8| <= MAX_PIN_BYTES
    ensures |r.script| <= |script|
  {
    var s := SecretRun(c, script, t, p);
    if s.result.Failure? then Run(s.script, s.trace, Failure(s.result.error)) else
    var a := AskRun(s.script, s.trace, NewPinRequest(c, p, s.result.value.0, s.result.value.1, newPin, currentPin));
    Run(a.script, a.trace, if a.result.Failure? then Failure(a.result.error) else Success(()))
  }

  /** The device has just accepted a new PIN. */
  predicate Accepted(start: Trace, t: Trace) {
    t.Snoc? && t != start && Invalidates(t.last) && PlainSince(start, t.before)
  }

  /** Ask for the current PIN, if there is one, agree on a key, and send the new PIN. */
  method SendNewPin(ch: Channel, info: Info, protocol: Protocol, newPin: Pin) returns (r: Result<(), UvError>)
    requires |newPin.utf8| <= MAX_PIN_BYTES
    modifies ch`script, ch`trace
    ensures Run(ch.script, ch.trace, r) == NewPinRun(ch.crypto, old(ch.script), old(ch.trace), info, protocol, newPin)
    ensures PlainSince(old(ch.trace), ch.trace)
    ensures r.Success? ==> JustSet(ch.crypto, ch.trace, info, newPin) && PinChanged(ch.trace) && Accepted(old(ch.trace), ch.trace)
    ensures r.Failure? ==> Blamed(ch.crypto, ch.trace, r.error)
  {
    hide Padded, NewPinRequest, PinRun, SecretRun, DescriptionBlamed, LatestInfo, UvFoundBlocked, Topic, Skips;
    var currentPin: Option<Pin> := None;
    if info.Enabled(ClientPin) {
      var pin := ObtainPin(ch, info, protocol, AuthenticatorPolicy);
      if pin.Failure? { return Failure(pin.error); }
      currentPin := Some(pin.value);
    }
    ghost var t := ch.trace;
    var shared := ObtainSharedSecret(ch, protocol);
    PlainTransitive(old(ch.trace), t, ch.trace);
    if shared.Failure? { return Failure(shared.error); }
    var (publicKey, secret) := shared.value;

    var q := NewPinRequest(ch.crypto, protocol, publicKey, secret, newPin, currentPin);
    t := ch.trace;
    var response := ch.ClientPin(q);
    assert PlainSince(t, ch.trace.before);
    PlainTransitive(old(ch.trace), t, ch.trace);
    if response.Failure? { return Failure(response.error); }
    PlainTransitive(old(ch.trace), t, ch.trace.before);
    FollowsIsLonger(t, ch.trace.before);
    PlainFollows(old(ch.trace), t);
    FollowsIsLonger(old(ch.trace), t);
    r := Success(());
  }

  lemma {:induction false} PlainFollows(a: Trace, b: Trace)
    requires PlainSince(a, b)
    ensures Follows(a, b)
  {
    if a != b {
      PlainFollows(a, b.before);
    }
  }

  /** Changing the PIN, as a run: lengths first, then what the device must support. */
  function ChangeRun(c: PinCrypto, script: seq<Reply>, t: Trace, info: Info, newPin: Pin): (r: Run<()>)
    ensures |r.script| <= |script|
  {
    if newPin.codePoints < (match info.minPinLength case Some(n) => n case None => DEFAULT_MIN_PIN) then
      Run(script, t, Failure(PinTooShort))
    else if |newPin.utf8| > MAX_PIN_BYTES then Run(script, t, Failure(PinTooLong))
    else match info.SelectProtocol()
         case None => Run(script, t, Failure(OtherCtap))
         case Some(p) =>
           if info.options.None? then Run(script, t, Failure(InvalidDeviceResponse))
           else if !info.Exists(ClientPin) then Run(script, t, Failure(PinNotSupported))
           else NewPinRun(c, script, t, info, p, newPin)
  }

  method ChangePinInternal(ch: Channel, info: Info, newPin: Pin) returns (r: Result<(), UvError>)
    modifies ch`script, ch`trace, ch.store
    ensures Run(ch.script, ch.trace, r) == ChangeRun(ch.crypto, old(ch.script), old(ch.trace), info, newPin)
    ensures PlainSince(old(ch.trace), ch.trace) && (r.Success? ==> Accepted(old(ch.trace), ch.trace))
    ensures !PinLengthOk(info, newPin) ==>
              && ch.trace == old(ch.trace)
              && r == Failure(if newPin.codePoints < (match info.minPinLength case Some(n) => n case None => 4) then PinTooShort else PinTooLong)
    ensures r.Failure? && LatestInfo(old(ch.trace)) == Some(info) && PinLengthOk(info, newPin) ==> Blamed(ch.crypto, ch.trace, r.error)
    ensures r.Success? ==> PinLengthOk(info, newPin) && JustSet(ch.crypto, ch.trace, info, newPin) && PinChanged(ch.trace)
    ensures ch.store != null && old(ch.store.Valid()) ==> ch.store.Valid()
    ensures r.Failure? && ch.store != null ==> ch.store.records == old(ch.store.records)
    ensures r.Success? && ch.store != null ==>
              Invalidated(ch.crypto.identifierCipher, old(ch.store.records), info, ch.store.deletes, ch.store.records)
  {
    hide Recognizes, Without, JustSet, PinChanged, NewPinRun, Accepted;
    if newPin.codePoints < (match info.minPinLength case Some(n) => n case None => DEFAULT_MIN_PIN) {
      return Failure(PinTooShort);
    }
    if |newPin.utf8| >= PADDED_PIN { return Failure(PinTooLong); }

    var recordId := RecognizedId(ch, info);
    var protocol := info.SelectProtocol();
    if protocol.None? { return Failure(OtherCtap); }
    if info.options.None? { return Failure(InvalidDeviceResponse); }
    if !info.Exists(ClientPin) { return Failure(PinNotSupported); }
    var sent := SendNewPin(ch, info, protocol.value, newPin);
    if sent.Failure? { return sent; }
    if recordId.Some? && ch.store != null {
      ch.store.Delete(recordId.value);
    }
    r := Success(sent.value);
  }

  lemma {:induction false} PlainTransitive(a: Trace, b: Trace, c: Trace)
    requires PlainSince(a, b) && PlainSince(b, c)
    ensures PlainSince(a, c)
  {
    if b != c {
      PlainTransitive(a, b, c.before);
    }
  }

  /** Asking for new PINs, as a run. */
  function SettingRun(c: PinCrypto, script: seq<Reply>, t: Trace, info: Info, why: PinNotSetReason): (r: Run<()>)
    ensures |r.script| <= |script|
    decreases |script|
  {
    if !info.Exists(ClientPin) then Run(script, t, Success(())) else
    var entry := if script == [] then None else script[0].entry;
    var u := Snoc(Snoc(t, Ux(AskNewPin(why))), Entered(entry));
    match entry
    case None => Run(Rest(script), u, Failure(Cancelled))
    case Some(pin) =>
      var x := ChangeRun(c, script[1..], u, info, pin);
      match NextReason(x.result)
      case Some(reason) => SettingRun(c, x.script, x.trace, info, reason)
      case None => x
  }

  /** Why the user is asked again, if that is so. */
  function NextReason(r: Result<(), UvError>): Option<PinNotSetReason> {
    match r
    case Failure(PinTooShort) => Some(TooShort)
    case Failure(PinTooLong) => Some(TooLong)
    case Failure(PinPolicyViolation) => Some(PolicyViolation)
    case _ => None
  }

  /** What the user is told when asked again: that the PIN was too short, too long, or against the device's policy. */
  lemma AskedAgain(c: PinCrypto, script: seq<Reply>, t: Trace, info: Info, why: PinNotSetReason)
    requires info.Exists(ClientPin) && script != [] && script[0].entry.Some?
    ensures var pin, u := script[0].entry.value, Snoc(Snoc(t, Ux(AskNewPin(why))), Entered(script[0].entry));
            var x := ChangeRun(c, script[1..], u, info, pin);
      SettingRun(c, script, t, info, why) ==
        if pin.codePoints < (match info.minPinLength case Some(n) => n case None => 4) then SettingRun(c, script[1..], u, info, TooShort)
        else if |pin.utf8| > 63 then SettingRun(c, script[1..], u, info, TooLong)
        else if x.result == Failure(PinPolicyViolation) then SettingRun(c, x.script, x.trace, info, PolicyViolation)
        else if x.result == Failure(PinTooShort) then SettingRun(c, x.script, x.trace, info, TooShort)
        else if x.result == Failure(PinTooLong) then SettingRun(c, x.script, x.trace, info, TooLong)
        else x
  {
    hide NewPinRun;
  }

  /** The first thing that happens is the prompt. */
  lemma {:induction false} PromptedFirst(c: PinCrypto, script: seq<Reply>, t: Trace, info: Info, why: PinNotSetReason)
    requires info.Exists(ClientPin)
    ensures Follows(Snoc(t, Ux(AskNewPin(why))), SettingRun(c, script, t, info, why).trace)
    decreases |script|
  {
    hide ChangeRun;
    var asked := Snoc(t, Ux(AskNewPin(why)));
    FollowsSelf(asked);
    if script != [] && script[0].entry.Some? {
      var u := Snoc(asked, Entered(script[0].entry));
      var x := ChangeRun(c, script[1..], u, info, script[0].entry.value);
      ChangeFollows(c, script[1..], u, info, script[0].entry.value);
      FollowsTransitive(asked, u, x.trace);
      if NextReason(x.result).Some? {
        var again := NextReason(x.result).value;
        PromptedFirst(c, x.script, x.trace, info, again);
        FollowsTransitive(asked, x.trace, Snoc(x.trace, Ux(AskNewPin(again))));
        FollowsTransitive(asked, Snoc(x.trace, Ux(AskNewPin(again))), SettingRun(c, x.script, x.trace, info, again).trace);
      }
    }
  }

  lemma PinRunFollows(script: seq<Reply>, t: Trace, info: Info, p: Protocol, reason: PinReason)
    ensures Follows(t, PinRun(script, t, info, p, reason).trace)
  {
    var u := PinRun(script, t, info, p, reason).trace;
    assert Follows(t, u.before.before) && Follows(t, u.before);
  }

  lemma SecretRunFollows(c: PinCrypto, script: seq<Reply>, t: Trace, p: Protocol)
    ensures Follows(t, SecretRun(c, script, t, p).trace)
  {
    FollowsSelf(t);
  }

  lemma ChangeFollows(c: PinCrypto, script: seq<Reply>, t: Trace, info: Info, pin: Pin)
    ensures Follows(t, ChangeRun(c, script, t, info, pin).trace)
  {
    hide NewPinRequest, PinRun, SecretRun;
    FollowsSelf(t);
    if info.SelectProtocol().Some? {
      var p := info.SelectProtocol().value;
      var a := PinRun(script, t, info, p, AuthenticatorPolicy);
      PinRunFollows(script, t, info, p, AuthenticatorPolicy);
      SecretRunFollows(c, a.script, a.trace, p);
      SecretRunFollows(c, script, t, p);
      FollowsTransitive(t, a.trace, SecretRun(c, a.script, a.trace, p).trace);
    }
  }

  /** The demand that a PIN change starts with, if the device made it. */
  function AfterDemand(t: Trace, info: Info, why: PinNotSetReason): Trace {
    if info.Exists(ClientPin) && why.PinChangeRequired? then Snoc(t, Ux(AskNewPin(why))) else t
  }

  /** Ask the user for a new PIN until one is accepted, the user gives up, or something else fails. */
  method TryToSetPin(ch: Channel, info: Info, why: PinNotSetReason) returns (r: Result<(), UvError>)
    modifies ch`script, ch`trace, ch.store
    ensures Run(ch.script, ch.trace, r) == SettingRun(ch.crypto, old(ch.script), old(ch.trace), info, why)
    ensures PlainSince(AfterDemand(old(ch.trace), info, why), ch.trace)
    ensures !info.Exists(ClientPin) ==> r == Success(()) && ch.trace == old(ch.trace)
    ensures r.Success? && info.Exists(ClientPin) ==> PinChanged(ch.trace) && Accepted(AfterDemand(old(ch.trace), info, why), ch.trace)
    ensures r.Failure? && LatestInfo(old(ch.trace)) == Some(info) ==> Blamed(ch.crypto, ch.trace, r.error)
    ensures ch.store != null && old(ch.store.Valid()) ==> ch.store.Valid()
    ensures (r.Failure? || !info.Exists(ClientPin)) && ch.store != null ==> ch.store.records == old(ch.store.records)
    ensures r.Success? && info.Exists(ClientPin) && ch.store != null ==>
              Invalidated(ch.crypto.identifierCipher, old(ch.store.records), info, ch.store.deletes, ch.store.records)
  {
    hide ChangeRun, Invalidated, PinChanged, Blamed, LatestInfo, Accepted, PinLengthOk, JustSet, Safe, UvFoundBlocked, Topic, Skips, Commands,
      Tokens, Demands, WellBehaved, Follows;
    if !info.Exists(ClientPin) { return Success(()); }
    var reason := why;
    ghost var goal, base := SettingRun(ch.crypto, ch.script, ch.trace, info, why), AfterDemand(ch.trace, info, why);
    ghost var first := true;
    DemandKeeps(ch.trace, info, why);
    while true
      invariant if first then ch.trace == old(ch.trace) && reason == why else PlainSince(base, ch.trace) && !reason.PinChangeRequired?
      invariant SettingRun(ch.crypto, ch.script, ch.trace, info, reason) == goal
      invariant LatestInfo(ch.trace) == LatestInfo(old(ch.trace))
      invariant ch.store != null ==> ch.store.records == old(ch.store.records)
      invariant ch.store != null && old(ch.store.Valid()) ==> ch.store.Valid()
      decreases |ch.script|
    {
      ghost var t := ch.trace;
      ch.SendUxUpdate(AskNewPin(reason));
      Asks(base, t, reason);
      var pin := ch.AwaitPin();
      ghost var u := ch.trace;
      assert PlainSince(base, u.before) && PlainSince(base, u);
      PlainKeeps(ch.crypto, base, u);
      if pin.None? {
        GivenUp(ch.crypto, u);
        return Failure(Cancelled);
      }
      r := ChangePinInternal(ch, info, pin.value);
      PlainKeeps(ch.crypto, u, ch.trace);
      PlainTransitive(base, u, ch.trace);
      if r.Success? { AcceptedEarlier(base, u, ch.trace); }
      first := false;
      match r {
        case Success(_) => return;
        case Failure(PinTooShort) => reason := TooShort;
        case Failure(PinTooLong) => reason := TooLong;
        case Failure(PinPolicyViolation) => reason := PolicyViolation;
        case Failure(_) => return;
      }
    }
  }

  lemma DemandKeeps(t: Trace, info: Info, why: PinNotSetReason)
    ensures LatestInfo(AfterDemand(t, info, why)) == LatestInfo(t)
  {
  }

  lemma GivenUp(c: PinCrypto, t: Trace)
    requires t.Snoc? && t.last == Entered(None)
    ensures Blamed(c, t, Cancelled)
  {
  }

  lemma Asks(base: Trace, t: Trace, reason: PinNotSetReason)
    requires base == Snoc(t, Ux(AskNewPin(reason))) || (PlainSince(base, t) && !reason.PinChangeRequired?)
    ensures PlainSince(base, Snoc(t, Ux(AskNewPin(reason))))
  {
  }

  lemma AcceptedEarlier(a: Trace, b: Trace, c: Trace)
    requires PlainSince(a, b) && Accepted(b, c)
    ensures Accepted(a, c)
  {
    PlainTransitive(a, b, c.before);
    PlainFollows(a, c.before);
    FollowsIsLonger(a, c.before);
  }

  method SetOrChangePin(ch: Channel, newPin: Pin) returns (r: Result<(), UvError>)
    requires ch.Invariant()
    modifies ch`script, ch`trace, ch.store
    ensures ch.store != null && old(ch.store.Valid()) ==> ch.store.Valid()
    ensures r.Failure? && ch.store != null ==> ch.store.records == old(ch.store.records)
    ensures r.Failure? ==>
              Blamed(ch.crypto, ch.trace, r.error) || (LatestInfo(ch.trace).Some? && !PinLengthOk(LatestInfo(ch.trace).value, newPin))
    ensures r.Success? ==> LatestInfo(ch.trace).Some? && JustSetWithin(ch.crypto, ch.trace, LatestInfo(ch.trace).value, newPin)
    ensures r.Success? && ch.store != null ==>
              && LatestInfo(ch.trace).Some?
              && Invalidated(ch.crypto.identifierCipher, old(ch.store.records), LatestInfo(ch.trace).value, ch.store.deletes, ch.store.records)
    ensures ch.Invariant() && Follows(old(ch.trace), ch.trace)
    ensures Accounted(ch.crypto, old(ch.trace), ch.trace, old(ch.Kept()), ch.Kept(), {})
  {
    hide Safe, Commands, Tokens, Demands, Topic, Skips, WellBehaved, Follows, LatestInfo, CacheSound, Invalidated, JustSet, PinChanged, Accounted;
    ghost var start, before := ch.trace, ch.Kept();
    var info := ch.GetInfo();
    ghost var t := ch.trace;
    InfoSeen(ch.crypto, start, info);
    StillMinted(ch.crypto, start, t, ch.authData);
    AccountedSame(ch.crypto, start, t, before);
    if info.Failure? { return Failure(info.error); }
    r := ChangePinInternal(ch, info.value, newPin);
    PlainKeeps(ch.crypto, t, ch.trace);
    AccountedSame(ch.crypto, start, ch.trace, before);
    if r.Success? && ch.store != null {
      PlainKeeps(ch.crypto, t, ch.trace.before);
      FollowsTransitive(start, t, ch.trace.before);
      FollowsIsLonger(start, ch.trace.before);
      InvalidationAccounted(ch.crypto, start, ch.trace, before, info.value, ch.store.deletes, ch.Kept());
    }
    FollowsTransitive(start, t, ch.trace);
    StillMinted(ch.crypto, start, ch.trace, ch.authData);
  }

  predicate JustSetWithin(c: PinCrypto, t: Trace, info: Info, pin: Pin) {
    |pin.utf8| <= MAX_PIN_BYTES && JustSet(c, t, info, pin)
  }

  /** Factory reset, evicting the record recognized beforehand once the device has confirmed. */
  method Reset(ch: Channel) returns (r: Result<(), UvError>)
    requires ch.Invariant()
    modifies ch`script, ch`trace, ch.store
    ensures ch.store != null && old(ch.store.Valid()) ==> ch.store.Valid()
    ensures r.Failure? && ch.store != null ==> ch.store.records == old(ch.store.records)
    ensures r.Failure? ==> Blamed(ch.crypto, ch.trace, r.error)
    ensures r.Success? ==> ch.trace.Snoc? && ch.trace.last.SentCommand? && ch.trace.last.command == ResetCommand
                           && ch.trace.last.result.Success?
    ensures r.Success? && ch.store != null ==>
              match ch.trace.before
              case Snoc(_, SentGetInfo(Success(info))) =>
                Invalidated(ch.crypto.identifierCipher, old(ch.store.records), info, ch.store.deletes, ch.store.records)
              case _ => ch.store.records == old(ch.store.records)
    ensures ch.Invariant() && Follows(old(ch.trace), ch.trace)
    ensures Accounted(ch.crypto, old(ch.trace), ch.trace, old(ch.Kept()), ch.Kept(), {})
  {
    hide Safe, Commands, Tokens, Demands, Topic, Skips, WellBehaved, Follows, LatestInfo, CacheSound, Accounted, Recognizes;
    var recordId: Option<RecordId> := None;
    ghost var start, before := ch.trace, ch.Kept();
    ghost var heard: Option<Info> := None;
    assert Follows(start, start) by { FollowsSelf(start); }
    if ch.store != null {
      var info := ch.GetInfo();
      InfoSeen(ch.crypto, start, info);
      StillMinted(ch.crypto, start, ch.trace, ch.authData);
      if info.Success? {
        heard := Some(info.value);
        recordId := RecognizedId(ch, info.value);
      }
    }
    ghost var t := ch.trace;
    var done := ch.Send(ResetCommand);
    CommandSent(ch.crypto, t, ResetCommand, done, ch.authData);
    FollowsTransitive(start, t, ch.trace);
    AccountedSame(ch.crypto, start, ch.trace, before);
    if done.Failure? { return Failure(done.error); }
    if recordId.Some? && ch.store != null {
      ch.store.Delete(recordId.value);
    }
    if heard.Some? && ch.store != null {
      FollowsIsLonger(start, t);
      InvalidationAccounted(ch.crypto, start, ch.trace, before, heard.value, ch.store.deletes, ch.Kept());
    }
    r := Success(());
  }
}
