/** What the library does for PINs and the PIN/UV auth protocols. */
module PinProtocols {
  import opened Wrappers
  import opened Bytes
  import opened AuthenticatorInfo
  import opened PersistentTokens

  /** A PIN in Unicode normalization form C. */
  datatype Pin = Pin(codePoints: nat, utf8: seq<byte>)

  /** The PIN/UV auth protocols, and the hash of a PIN, as library functions. */
  datatype PinCrypto = PinCrypto(
    encapsulate: (Protocol, seq<byte>) -> Option<(seq<byte>, seq<byte>)>,
    encrypt: (Protocol, seq<byte>, seq<byte>) -> seq<byte>,
    decrypt: (Protocol, seq<byte>, seq<byte>) -> Option<seq<byte>>,
    authenticate: (Protocol, seq<byte>, seq<byte>) -> seq<byte>,
    pinHash: seq<byte> -> seq<byte>,
    identifierCipher: IdentifierCipher)
}
