/** The broker's closed failure vocabulary: adapters/token-broker-core/src/error.rs. */
module BrokerErrors {
  datatype BrokerError =
    | InvalidInput
    | InvalidConfiguration
    | Unavailable
    | Busy
    | SessionUnknown
    | ProviderRejected
    | AuthorizationCodeRejected
    | Transport
    | MalformedResponse
    | InsufficientScope
    | IdentityUnverified
    | IdentityMismatch
    | MissingRefreshToken
    | ConsentRevoked
    | PersistenceFailed
    | RevokeUnconfirmed
}
