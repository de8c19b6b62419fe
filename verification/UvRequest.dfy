/** Requests that need user verification, and what they ask of it. */
module UvRequest {
  import opened Wrappers
  import opened Bytes
  import opened AuthenticatorInfo
  import opened PinProtocols

  datatype Requirement = Required | Preferred | Discouraged

  datatype CredentialManagementSubcommand =
    | GetCredsMetadata | EnumerateRpsBegin | EnumerateRpsGetNextRp | EnumerateCredentialsBegin
    | EnumerateCredentialsGetNextCredential | DeleteCredential | UpdateUserInformation
  {
    predicate IsReadOnly() {
      !DeleteCredential? && !UpdateUserInformation?
    }
  }

  /** Requests whose user the platform verifies, with the bytes that a token authenticates. */
  datatype RequestKind =
    | MakeCredentialRequest(rpid: string, hash: seq<byte>, prf: bool)
    | GetAssertionRequest(rpid: string, hash: seq<byte>, hmac: bool, largeBlobWrite: bool)
    | CredentialManagementRequest(subcommand: CredentialManagementSubcommand, message: seq<byte>)
    | ConfigurationRequest(message: seq<byte>)
    | BioEnrollmentRequest(message: seq<byte>)
  {
    function Permissions(persistent: bool): Role {
      match this
      case MakeCredentialRequest(_, _, _) => {MakeCredential, GetAssertion}
      case GetAssertionRequest(_, _, _, write) => if write then {GetAssertion, LargeBlobWrite} else {GetAssertion}
      case CredentialManagementRequest(_, _) => if persistent then {PersistentReadOnly} else {CredentialManagement}
      case ConfigurationRequest(_) => {AuthenticatorConfiguration}
      case BioEnrollmentRequest(_) => {BioEnrollment}
    }

    function PermissionsRpid(): Option<string> {
      if MakeCredentialRequest? || GetAssertionRequest? then Some(rpid) else None
    }

    predicate CanUseUv(info: Info) {
      match this
      case ConfigurationRequest(_) => info.Enabled(UvAcfg)
      case BioEnrollmentRequest(_) => info.Enabled(UvBioEnroll)
      case _ => true
    }

    /** A full token, not just a shared secret, is needed even if the relying party discourages verification. */
    predicate NeedsToken(info: Info) {
      GetAssertionRequest? && largeBlobWrite && info.Enabled(LargeBlobs) && info.IsUvProtected()
    }

    predicate NeedsSharedSecret(info: Info) {
      match this
      case MakeCredentialRequest(_, _, prf) => prf && info.Supports(HmacSecretMc) && info.Supports(HmacSecret)
      case GetAssertionRequest(_, _, hmac, _) => (hmac && info.Supports(HmacSecret)) || NeedsToken(info)
      case _ => false
    }

    /** Requests that carry the deprecated `uv` option, and need presence. */
    predicate NeedsPresence() {
      MakeCredentialRequest? || GetAssertionRequest?
    }

    function SignedMessage(): seq<byte> {
      if MakeCredentialRequest? || GetAssertionRequest? then hash else message
    }
  }

  /** What authenticates a request: the protocol and the `pinUvAuthParam`. */
  type AuthParam = Option<(Protocol, seq<byte>)>

  /** What a request carries to show that the user was verified, or to have the device do that: the `pinUvAuthParam`, and the
      deprecated `uv` option of makeCredential and getAssertion. */
  datatype Proof = Proof(auth: AuthParam, uvOption: bool)

  class Ctap2Request {
    const kind: RequestKind
    var usePersistentToken: bool
    var persistentTokenRejected: bool
    var useLegacyPreview: bool
    var uvOption: bool
    var auth: AuthParam

    /** A getAssertion request starts out with the `uv` option if verification is required. */
    constructor (kind: RequestKind, requirement: Requirement)
      ensures this.kind == kind && !usePersistentToken && !persistentTokenRejected && !useLegacyPreview
      ensures Carried() == Proof(None, kind.GetAssertionRequest? && requirement.Required?)
    {
      this.kind := kind;
      usePersistentToken, persistentTokenRejected, useLegacyPreview := false, false, false;
      uvOption, auth := kind.GetAssertionRequest? && requirement.Required?, None;
    }

    ghost function Carried(): Proof
      reads this`auth, this`uvOption
    {
      Proof(auth, uvOption)
    }

    ghost function Permissions(): Role
      reads this`usePersistentToken
    {
      kind.Permissions(usePersistentToken)
    }

    method EnsureUvSet()
      modifies this`uvOption
      ensures uvOption == (old(uvOption) || kind.NeedsPresence())
    {
      if kind.NeedsPresence() {
        uvOption := true;
      }
    }

    method CalculateAndSetUvAuth(c: PinCrypto, protocol: Protocol, token: seq<byte>)
      modifies this`auth, this`uvOption
      ensures auth == Some((protocol, c.authenticate(protocol, token, kind.SignedMessage())))
      ensures uvOption == (old(uvOption) && !kind.NeedsPresence())
    {
      auth := Some((protocol, c.authenticate(protocol, token, kind.SignedMessage())));
      if kind.NeedsPresence() {
        uvOption := false;
      }
    }

    method HandleLegacyPreview(info: Info)
      modifies this`useLegacyPreview
      ensures useLegacyPreview == (old(useLegacyPreview)
        || (kind.CredentialManagementRequest? && !info.Enabled(CredMgmt) && info.Enabled(CredentialMgmtPreview)))
    {
      if kind.CredentialManagementRequest? && !info.Enabled(CredMgmt) && info.Enabled(CredentialMgmtPreview) {
        useLegacyPreview := true;
      }
    }

    method SetPersistentTokenUse(info: Info, storeAvailable: bool)
      modifies this`usePersistentToken
      ensures kind.CredentialManagementRequest? ==>
                usePersistentToken == (storeAvailable && info.Enabled(PerCredMgmtRO) && kind.subcommand.IsReadOnly())
      ensures !kind.CredentialManagementRequest? ==> usePersistentToken == old(usePersistentToken)
    {
      if kind.CredentialManagementRequest? {
        usePersistentToken := storeAvailable && info.Enabled(PerCredMgmtRO) && kind.subcommand.IsReadOnly();
      }
    }
  }
}
