/** Trading API credentials: derive the existing ones first, create new ones
    only when derivation gives nothing usable (`hooks/useUserApiCredentials.ts`). */
module ApiCredentials {
  import opened Base
  import opened SessionStore

  datatype CredentialCall = DeriveApiKey | CreateApiKey

  /** The credentials obtained, with the venue calls made in order. */
  datatype Provisioned = Provisioned(result: Result<UserApiCredentials>, calls: seq<CredentialCall>)

  /** All three parts present and non-empty (the truthiness test). */
  predicate Usable(c: UserApiCredentials)
  {
    c.key != "" && c.secret != "" && c.passphrase != ""
  }

  /** `createOrDeriveUserApiCredentials`. A throwing derivation counts as no
      credentials; the creation result is returned unchecked and its failure
      propagates. */
  function CreateOrDerive(eoa: Option<string>, hasSigner: bool,
                          derived: Probe<UserApiCredentials>, created: Probe<UserApiCredentials>): (r: Provisioned)
  {
    if !Truthy(eoa) || !hasSigner then Provisioned(Err(Error("Wallet not connected")), [])
    else if derived.Answered? && Usable(derived.answer) then Provisioned(Ok(derived.answer), [DeriveApiKey])
    else
      match created
      case Answered(c) => Provisioned(Ok(c), [DeriveApiKey, CreateApiKey])
      case Threw(f) => Provisioned(Err(f), [DeriveApiKey, CreateApiKey])
  }

  /** Derivation is always tried first; creation is called exactly when the
      derived credentials are missing a part or derivation threw; usable derived
      credentials are returned as they are, and otherwise creation's answer or
      failure is the result. */
  lemma DeriveBeforeCreate(eoa: Option<string>, hasSigner: bool,
                           derived: Probe<UserApiCredentials>, created: Probe<UserApiCredentials>)
    ensures var r := CreateOrDerive(eoa, hasSigner, derived, created);
            && (!Truthy(eoa) || !hasSigner ==> r == Provisioned(Err(Error("Wallet not connected")), []))
            && (Truthy(eoa) && hasSigner ==> |r.calls| > 0 && r.calls[0] == DeriveApiKey)
            && (CreateApiKey in r.calls <==>
                  Truthy(eoa) && hasSigner && !(derived.Answered? && Usable(derived.answer)))
            && (Truthy(eoa) && hasSigner && derived.Answered? && Usable(derived.answer) ==>
                  r.result == Ok(derived.answer))
            && (CreateApiKey in r.calls ==>
                  r.result == (match created case Answered(c) => Ok(c) case Threw(f) => Err(f)))
  {
  }
}
