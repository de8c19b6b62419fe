/** The in-memory token that a channel keeps between requests. */
module TokenCache {
  import opened Wrappers
  import opened Bytes
  import opened AuthenticatorInfo

  datatype TokenPermission = TokenPermission(protocol: Protocol, role: Role, rpid: Option<string>)
  {
    predicate Contains(requested: TokenPermission) {
      protocol == requested.protocol && rpid == requested.rpid && requested.role <= role
    }
  }

  datatype AuthTokenData = AuthTokenData(
    protocol: Protocol, keyAgreement: seq<byte>, sharedSecret: seq<byte>, operation: UvOperation,
    permission: Option<TokenPermission>, token: Option<seq<byte>>)

  /** The cached token, if it was granted everything that is requested. */
  function CachedToken(cached: Option<AuthTokenData>, requested: TokenPermission): Option<seq<byte>> {
    match cached
    case Some(data) =>
      if data.permission.Some? && data.permission.value.Contains(requested) then data.token else None
    case None => None
  }

  /** A token is cached together with what it was minted under, and a persistent one never is. */
  predicate WellKept(data: AuthTokenData) {
    && (data.permission.Some? <==> data.token.Some?)
    && (data.token.Some? ==>
          && data.permission.value.protocol == data.protocol
          && TokenLengthValid(data.protocol, |data.token.value|)
          && PersistentReadOnly !in data.permission.value.role)
  }

  /** A hit grants what was asked for, and a request for the persistent permission never hits. */
  lemma HitIsGranted(data: AuthTokenData, requested: TokenPermission)
    requires WellKept(data) && CachedToken(Some(data), requested).Some?
    ensures data.permission == Some(data.permission.value.(protocol := requested.protocol, rpid := requested.rpid))
    ensures requested.role <= data.permission.value.role && PersistentReadOnly !in requested.role
    ensures data.token == CachedToken(Some(data), requested)
    ensures TokenLengthValid(requested.protocol, |data.token.value|)
  {
  }
}
