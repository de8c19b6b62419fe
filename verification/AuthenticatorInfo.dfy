/** What an authenticator says about itself, and the user verification it thereby offers. */
module AuthenticatorInfo {
  import opened Wrappers
  import opened Bytes

  /** Option identifiers of `authenticatorGetInfo` that the platform looks at. */
  datatype OptionId =
    | Uv | ClientPin | PinUvAuthToken | NoMcGaPermissionsWithClientPin
    | CredMgmt | CredentialMgmtPreview | PerCredMgmtRO | LargeBlobs | UvAcfg | UvBioEnroll

  datatype Extension = HmacSecret | HmacSecretMc

  datatype Protocol = One | Two

  /** Permissions of a pinUvAuthToken; the last is the persistent, read-only credential management permission. */
  datatype Permission =
    | MakeCredential | GetAssertion | CredentialManagement | BioEnrollment
    | LargeBlobWrite | AuthenticatorConfiguration | PersistentReadOnly

  type Role = set<Permission>

  datatype UvOperation = UsingUv | UsingPin | GetPinToken | OnlyForSharedSecret | LegacyUv

  datatype Info = Info(
    options: Option<map<OptionId, bool>>, extensions: Option<set<Extension>>, supportsFido21: bool,
    pinAuthProtos: Option<seq<nat>>, forcePinChange: Option<bool>, minPinLength: Option<nat>,
    encIdentifier: Option<seq<byte>>, aaguid: seq<byte>, maxCredentialCount: Option<nat>,
    maxCredentialIdLength: Option<nat>)
  {
    predicate Exists(o: OptionId) {
      options.Some? && o in options.value
    }

    predicate Enabled(o: OptionId) {
      options.Some? && o in options.value && options.value[o]
    }

    predicate Supports(e: Extension) {
      extensions.Some? && e in extensions.value
    }

    predicate IsUvProtected() {
      Enabled(Uv) || Enabled(ClientPin) || (Enabled(PinUvAuthToken) && Enabled(Uv))
    }

    predicate CanEstablishSharedSecret() {
      Exists(ClientPin) || (Exists(Uv) && Enabled(PinUvAuthToken))
    }

    predicate MustChangePin() {
      forcePinChange == Some(true)
    }

    /** The operation to obtain user verification with, built-in verification being out if `uvBlocked`. */
    function Operation(uvBlocked: bool): Option<UvOperation> {
      if Enabled(Uv) && !uvBlocked then
        (if Enabled(PinUvAuthToken) then Some(UsingUv) else Some(LegacyUv))
      else if Exists(ClientPin) && !Enabled(ClientPin) then Some(OnlyForSharedSecret)
      else if !Enabled(ClientPin) && Exists(Uv) && Enabled(PinUvAuthToken) then Some(OnlyForSharedSecret)
      else if Enabled(PinUvAuthToken) then
        (if !Enabled(ClientPin) then Some(OnlyForSharedSecret) else Some(UsingPin))
      else if Enabled(ClientPin) then Some(GetPinToken)
      else None
    }

    /** There is no way to verify the user, but one to agree on a secret. */
    predicate OnlySecretOnOffer(uvOut: bool) {
      && !(Enabled(Uv) && !uvOut) && !Enabled(ClientPin)
      && (Exists(ClientPin) || Enabled(PinUvAuthToken))
    }

    /** The first protocol on the device's list that the platform knows. */
    function SelectProtocol(): Option<Protocol> {
      if pinAuthProtos.None? then None else FirstKnown(pinAuthProtos.value)
    }
  }

  /** A device that says nothing of itself. */
  const Silent: Info := Info(None, None, false, None, None, None, None, [], None, None)

  function FirstKnown(protos: seq<nat>): Option<Protocol> {
    if protos == [] then None
    else if protos[0] == 1 then Some(One)
    else if protos[0] == 2 then Some(Two)
    else FirstKnown(protos[1..])
  }

  /** The selected protocol is the first on the list that is 1 or 2. */
  lemma SelectProtocolIff(info: Info, p: Protocol)
    ensures info.SelectProtocol() == Some(p) <==>
              info.pinAuthProtos.Some? && exists i :: 0 <= i < |info.pinAuthProtos.value| && FirstAt(info.pinAuthProtos.value, i, p)
    ensures info.SelectProtocol().None? <==> info.pinAuthProtos.None? || (1 !in info.pinAuthProtos.value && 2 !in info.pinAuthProtos.value)
  {
    if info.pinAuthProtos.Some? {
      FirstKnownIff(info.pinAuthProtos.value, p);
    }
  }

  predicate FirstAt(protos: seq<nat>, i: nat, p: Protocol)
    requires i < |protos|
  {
    protos[i] == (if p.One? then 1 else 2) && 1 !in protos[..i] && 2 !in protos[..i]
  }

  lemma {:induction false} FirstKnownIff(protos: seq<nat>, p: Protocol)
    ensures FirstKnown(protos) == Some(p) <==> exists i :: 0 <= i < |protos| && FirstAt(protos, i, p)
    ensures FirstKnown(protos).None? <==> 1 !in protos && 2 !in protos
  {
    if protos != [] {
      var rest := protos[1..];
      FirstKnownIff(rest, p);
      assert protos == [protos[0]] + rest;
      assert protos[..0] == [];
      if protos[0] != 1 && protos[0] != 2 {
        forall i | 0 <= i < |rest| ensures FirstAt(rest, i, p) <==> FirstAt(protos, i + 1, p) {
          assert protos[..i + 1] == [protos[0]] + rest[..i];
        }
        if exists i :: 0 <= i < |protos| && FirstAt(protos, i, p) {
          var i :| 0 <= i < |protos| && FirstAt(protos, i, p);
          assert FirstAt(rest, i - 1, p);
        }
      } else {
        assert forall i :: 0 < i < |protos| ==> protos[0] in protos[..i];
        if FirstKnown(protos) == Some(p) {
          assert FirstAt(protos, 0, p);
        }
      }
    }
  }

  predicate FromPin(op: UvOperation) {
    op.GetPinToken? || op.UsingPin?
  }

  /** Which operation is offered when. Built-in verification comes first, then a PIN, and what is left for a device that could
      have a PIN, or supports tokens, is a shared secret. */
  lemma OperationOffered(info: Info, uvOut: bool)
    ensures var op := info.Operation(uvOut);
            var builtIn := info.Enabled(Uv) && !uvOut;
            var pin := !builtIn && info.Enabled(ClientPin);
      && (op == Some(UsingUv) <==> builtIn && info.Enabled(PinUvAuthToken))
      && (op == Some(LegacyUv) <==> builtIn && !info.Enabled(PinUvAuthToken))
      && (op == Some(UsingPin) <==> pin && info.Enabled(PinUvAuthToken))
      && (op == Some(GetPinToken) <==> pin && !info.Enabled(PinUvAuthToken))
      && (op == Some(OnlyForSharedSecret) <==> info.OnlySecretOnOffer(uvOut))
      && (op.None? <==> !builtIn && !info.Exists(ClientPin) && !info.Enabled(PinUvAuthToken))
  {
  }

  datatype UvError =
    | PinAuthInvalid | UvBlocked | UvInvalid | PinPolicyViolation | PinRequired | InvalidCommand | OtherCtap
    | NoUvAvailable | Cancelled | PinTooShort | PinTooLong | PinNotSupported | InvalidDeviceResponse | CryptoError
    | NoCredentials | Interrupted

  const MC_GA: Role := {MakeCredential, GetAssertion}

  /** Whether a token obtained with a PIN may carry these permissions on this device, now. */
  predicate PinTokenAllowed(info: Info, permissions: Role) {
    && !info.MustChangePin()
    && (permissions * MC_GA != {} ==> !info.Enabled(NoMcGaPermissionsWithClientPin))
  }

  /** Reroute to built-in verification, or refuse, a PIN operation that the device does not allow for mc or ga. */
  function EnforceNoMcGaWithClientPin(info: Info, op: UvOperation, permissions: Role, uvUnavailable: bool): (r: Result<UvOperation, UvError>)
    ensures r.Success? && FromPin(r.value) ==>
              r.value == op && (permissions * MC_GA != {} ==> !info.Enabled(NoMcGaPermissionsWithClientPin))
    ensures r.Success? && !FromPin(op) ==> r.value == op
    ensures r.Success? && r.value != op ==> r.value == UsingUv && info.Enabled(Uv) && !uvUnavailable
    ensures r.Failure? <==>
              FromPin(op) && permissions * MC_GA != {} && info.Enabled(NoMcGaPermissionsWithClientPin) && !(info.Enabled(Uv) && !uvUnavailable)
    ensures r.Failure? ==> r.error == NoUvAvailable
  {
    if !FromPin(op) || permissions * MC_GA == {} || !info.Enabled(NoMcGaPermissionsWithClientPin) then Success(op)
    else if info.Enabled(Uv) && !uvUnavailable then Success(UsingUv)
    else Failure(NoUvAvailable)
  }

  /** Lengths of a decrypted pinUvAuthToken that its protocol admits. */
  predicate TokenLengthValid(protocol: Protocol, n: nat) {
    match protocol
    case One => n == 16 || n == 32
    case Two => n == 32
  }
}
