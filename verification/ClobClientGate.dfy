/** The gate in front of the authenticated trading client
    (`hooks/useClobClient.ts`): a client exists only for a signer, an owner,
    a derived Safe and a complete session that carries credentials. */
module ClobClientGate {
  import opened Base
  import opened SessionStore

  /** What the authenticated client is built from. */
  datatype ClobIdentity = ClobIdentity(credentials: UserApiCredentials, signatureType: int, funder: string)

  /** Signature type 2: orders are signed for a Safe funder. */
  const SafeSignatureType: int := 2

  predicate Ready(hasSigner: bool, eoa: Option<string>, safe: Option<string>, isComplete: bool,
                  session: Option<TradingSession>)
  {
    hasSigner && Truthy(eoa) && Truthy(safe) && isComplete
    && session.Some? && session.value.apiCredentials.Some?
  }

  /** The trading client, or `None` (`null`) when any prerequisite is
      missing. A client always uses the session's credentials, the Safe
      signature type and the derived Safe as funder. */
  function ClobClientFor(hasSigner: bool, eoa: Option<string>, safe: Option<string>, isComplete: bool,
                         session: Option<TradingSession>): (r: Option<ClobIdentity>)
    ensures !hasSigner || !Truthy(eoa) || !Truthy(safe) || !isComplete ==> r == None
    ensures session.None? || session.value.apiCredentials.None? ==> r == None
    ensures r.Some? <==> Ready(hasSigner, eoa, safe, isComplete, session)
    ensures r.Some? ==> r.value.credentials == session.value.apiCredentials.value
                        && r.value.signatureType == SafeSignatureType
                        && r.value.funder == safe.value
  {
    if !hasSigner || !Truthy(eoa) || !Truthy(safe) || !isComplete
       || session.None? || session.value.apiCredentials.None?
    then None
    else Some(ClobIdentity(session.value.apiCredentials.value, SafeSignatureType, safe.value))
  }
}
