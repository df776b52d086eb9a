/** Safe (smart account) address derivation, the deployment check and the
    deployment request (`hooks/useSafeDeployment.ts`). */
module SafeDeployment {
  import opened Base

  /** The counterfactual Safe address of the connected owner. `factory` is the
      chain configuration's Safe factory (`None` when the configuration lookup
      throws); `derive` is the SDK's address derivation (`None` when it
      throws). The answer depends on nothing but the owner and the factory. */
  function DerivedSafeAddress(eoa: Option<string>, isConnected: bool, factory: Option<string>,
                              derive: (string, string) -> Option<string>): (r: Option<string>)
    ensures !Truthy(eoa) || !isConnected ==> r == None
    ensures factory == None ==> r == None
    ensures Truthy(eoa) && isConnected && factory.Some? ==> r == derive(eoa.value, factory.value)
  {
    if !Truthy(eoa) || !isConnected then None
    else if factory.None? then None
    else derive(eoa.value, factory.value)
  }

  /** The on-chain code test: defined, not `"0x"`, longer than two
      characters. The `"0x"` test is subsumed by the length test. */
  predicate HasCode(code: Option<string>)
    ensures HasCode(code) <==> code.Some? && |code.value| > 2
  {
    code.Some? && code.value != "0x" && |code.value| > 2
  }

  /** `isSafeDeployed`: the relay's answer when it gives one; only when the
      relay throws, the bytecode at the address (if a public client exists),
      and otherwise `false`. An RPC failure on the fallback path propagates. */
  function IsSafeDeployed(relay: Probe<bool>, hasPublicClient: bool, bytecode: Probe<Option<string>>): (r: Result<bool>)
    ensures relay.Answered? ==> r == Ok(relay.answer)
    ensures relay.Threw? && !hasPublicClient ==> r == Ok(false)
    ensures relay.Threw? && hasPublicClient && bytecode.Answered? ==>
              r.Ok? && (r.value <==> bytecode.answer.Some? && |bytecode.answer.value| > 2)
    ensures r.Err? <==> relay.Threw? && hasPublicClient && bytecode.Threw?
    ensures r.Err? ==> r.failure == bytecode.thrown
  {
    match relay
    case Answered(deployed) => Ok(deployed)
    case Threw(_) =>
      if !hasPublicClient then Ok(false)
      else
        match bytecode
        case Answered(code) => Ok(HasCode(code))
        case Threw(f) => Err(f)
  }

  /** `deploySafe`: `deployment` is the outcome of `deploy()` followed by
      `wait()`; `None` means `wait()` yielded nothing. */
  function DeploySafe(deployment: Probe<Option<string>>): (r: Result<string>)
    ensures r.Ok? <==> deployment.Answered? && deployment.answer.Some?
    ensures r.Ok? ==> r.value == deployment.answer.value
    ensures deployment == Answered(None) ==> r == Err(Error("Safe deployment failed"))
    ensures deployment.Threw? ==> r == Err(deployment.thrown)
  {
    match deployment
    case Threw(f) => Err(f)
    case Answered(None) => Err(Error("Safe deployment failed"))
    case Answered(Some(proxyAddress)) => Ok(proxyAddress)
  }
}
