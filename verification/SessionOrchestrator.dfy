/** The trading-session bootstrap (`hooks/useTradingSession.ts`): derive the
    Safe, deploy it when the deployment query says it is missing, reuse stored
    credentials or provision new ones, submit the approval batch when the
    approval check says something is missing, and persist a fully flagged
    record only when every step succeeded. Every external call is an oracle
    answer in `Oracles`. */
module SessionOrchestrator {
  import opened Base
  import opened Text
  import opened SessionStore
  import opened SafeDeployment
  import opened ApiCredentials
  import opened TokenApprovals
  import opened ClobClientGate

  /** The connected wallet as the hooks see it; `inBrowser` is whether local
      storage exists. */
  datatype Wallet = Wallet(eoaAddress: Option<string>, isConnected: bool, hasSigner: bool, inBrowser: bool)

  /** The hook's React state: the session in memory, the progress step, the
      last error message and whether a relay client is held. */
  datatype HookState = HookState(session: Option<TradingSession>, step: SessionStep, error: Option<string>,
                                 hasRelayClient: bool)

  /** The answers of every collaborator one initialisation pass consults. */
  datatype Oracles = Oracles(
    safeFactory: Option<string>,
    deriveSafe: (string, string) -> Option<string>,
    relayDeployed: Probe<bool>,
    hasPublicClient: bool,
    bytecode: Probe<Option<string>>,
    deployment: Probe<Option<string>>,
    derivedCredentials: Probe<UserApiCredentials>,
    createdCredentials: Probe<UserApiCredentials>,
    approvalStatus: Probe<bool>,
    approvalTxs: seq<Tx>,
    approvalExecute: Probe<()>,
    approvalWait: Probe<()>,
    now: int)

  /** The collaborator calls a pass makes, in order. */
  datatype Call =
    | QueryDeployed(safe: string)
    | Deploy
    | Provision
    | QueryApprovals(safe: string)
    | SubmitApprovals(request: ExecRequest)
    | SaveRecord(record: TradingSession)

  /** One pass: the hook state and storage it leaves, what it returns or
      rethrows, the steps it displayed and the collaborator calls it made. */
  datatype InitOutcome = InitOutcome(state: HookState, storage: Storage, result: Result<()>,
                                     steps: seq<SessionStep>, calls: seq<Call>)

  /** Hook state and storage after an effect or a teardown. */
  datatype Snapshot = Snapshot(state: HookState, storage: Storage)

  predicate Connected(w: Wallet)
  {
    Truthy(w.eoaAddress) && w.isConnected
  }

  /** The message recorded in `sessionError` for a thrown value. */
  function ErrorMessage(f: Failure): string
  {
    match f
    case Error(m) => m
    case NonError(Some(m)) => m
    case NonError(None) => "Failed to initialize trading session"
  }

  /** The Safe address the pass works with. */
  function SafeOf(w: Wallet, o: Oracles): Option<string>
  {
    DerivedSafeAddress(w.eoaAddress, w.isConnected, o.safeFactory, o.deriveSafe)
  }

  /** The credentials a loaded record offers for reuse. */
  function StoredCredentials(loaded: Loaded): Option<UserApiCredentials>
  {
    if loaded.session.Some? then loaded.session.value.apiCredentials else None
  }

  /** The record written on success: owner, Safe, all three flags, the
      credentials used and the time of the pass. */
  function FullRecord(eoa: string, safe: string, creds: UserApiCredentials, now: int): (rec: TradingSession)
    ensures rec.isSafeDeployed && rec.hasApiCredentials && rec.hasApprovals
    ensures rec.eoaAddress == eoa && rec.safeAddress == safe
    ensures rec.apiCredentials == Some(creds) && rec.lastChecked == now
  {
    TradingSession(eoa, safe, true, true, true, Some(creds), now)
  }

  /** The branches one pass takes through lines 56-99, recorded in the order
      the code takes them: whether the relay client was created, the Safe
      address, whether each collaborator was consulted, the credentials used,
      and the failure that ended the pass (`None` when it completed). */
  datatype Path = Path(
    relayCreated: bool,
    safe: Option<string>,
    deployQueried: bool,
    deploys: bool,
    storeReread: bool,
    provisions: bool,
    credentials: Option<UserApiCredentials>,
    approvalsQueried: bool,
    submits: bool,
    failure: Option<Failure>)

  const NoBranch: Path := Path(false, None, false, false, false, false, None, false, false, None)

  /** Whether the approval check asks for the batch. */
  predicate SubmitsApprovals(o: Oracles)
  {
    o.approvalStatus == Answered(false)
  }

  /** Whether the approval stage lets the pass complete: everything was
      approved already, or the batch was executed and confirmed. */
  predicate ApprovalsSucceed(o: Oracles)
  {
    o.approvalStatus == Answered(true)
    || (SubmitsApprovals(o) && o.approvalExecute.Answered? && o.approvalWait.Answered?)
  }

  /** What the approval stage throws when it does not succeed. */
  function ApprovalFailure(o: Oracles): Failure
  {
    if o.approvalStatus.Threw? then o.approvalStatus.thrown else Error("Token approvals failed")
  }

  /** Lines 75-80 with the credentials `c` in hand. */
  function DecideApprovals(o: Oracles, p: Path, c: UserApiCredentials): (q: Path)
    requires p.failure.None? && !p.submits
    ensures q == p.(credentials := Some(c), approvalsQueried := true, submits := SubmitsApprovals(o),
                    failure := if ApprovalsSucceed(o) then None else Some(ApprovalFailure(o)))
  {
    var p1 := p.(credentials := Some(c), approvalsQueried := true);
    match o.approvalStatus
    case Threw(f) => p1.(failure := Some(f))
    case Answered(allApproved) =>
      if allApproved then p1
      else
        var sub := SetAllTokenApprovals(o.approvalTxs, o.approvalExecute, o.approvalWait);
        if !sub.ok then p1.(submits := true, failure := Some(Error("Token approvals failed")))
        else p1.(submits := true)
  }

  /** Whether the credential stage provisions: the re-read record offers no
      credentials. */
  predicate Provisions(w: Wallet, st: Storage)
    requires Truthy(w.eoaAddress)
  {
    StoredCredentials(Load(w.inBrowser, st, w.eoaAddress.value)).None?
  }

  /** The credentials the credential stage ends with, if any. */
  function ObtainedCredentials(w: Wallet, o: Oracles, st: Storage): Option<UserApiCredentials>
    requires Truthy(w.eoaAddress)
  {
    if Provisions(w, st)
    then CreateOrDerive(w.eoaAddress, w.hasSigner, o.derivedCredentials, o.createdCredentials).result.ToOption()
    else StoredCredentials(Load(w.inBrowser, st, w.eoaAddress.value))
  }

  /** Lines 69-80: credentials from the re-read record, or provisioned. */
  function DecideCredentials(w: Wallet, o: Oracles, st: Storage, p: Path): (q: Path)
    requires Truthy(w.eoaAddress) && p.failure.None? && !p.submits && !p.provisions && !p.approvalsQueried
    ensures q.relayCreated == p.relayCreated && q.safe == p.safe
    ensures q.deployQueried == p.deployQueried && q.deploys == p.deploys
    ensures q.storeReread && q.provisions == Provisions(w, st)
    ensures q.approvalsQueried <==> ObtainedCredentials(w, o, st).Some?
    ensures q.approvalsQueried ==> q.credentials == ObtainedCredentials(w, o, st)
    ensures !q.approvalsQueried ==> q.credentials == p.credentials && !q.submits
                                    && q.failure == Some(CreateOrDerive(w.eoaAddress, w.hasSigner, o.derivedCredentials,
                                                                        o.createdCredentials).result.failure)
    ensures q.approvalsQueried ==>
              && q.submits == SubmitsApprovals(o)
              && q.failure == if ApprovalsSucceed(o) then None else Some(ApprovalFailure(o))
  {
    var p1 := p.(storeReread := true);
    var stored := StoredCredentials(Load(w.inBrowser, st, w.eoaAddress.value));
    if stored.Some? then DecideApprovals(o, p1, stored.value)
    else
      match CreateOrDerive(w.eoaAddress, w.hasSigner, o.derivedCredentials, o.createdCredentials).result
      case Err(f) => p1.(provisions := true, failure := Some(f))
      case Ok(c) => DecideApprovals(o, p1.(provisions := true), c)
  }

  predicate ReachesDeploymentCheck(w: Wallet, o: Oracles)
  {
    Connected(w) && w.hasSigner && Truthy(SafeOf(w, o))
  }

  /** The deployment query's answer. */
  function DeployedAnswer(o: Oracles): Result<bool>
  {
    IsSafeDeployed(o.relayDeployed, o.hasPublicClient, o.bytecode)
  }

  /** The pass gets past deployment: the Safe is deployed, or the query said
      it was not and the deployment was confirmed. */
  predicate ReachesCredentials(w: Wallet, o: Oracles)
  {
    && ReachesDeploymentCheck(w, o)
    && (DeployedAnswer(o) == Ok(true) || (DeployedAnswer(o) == Ok(false) && DeploySafe(o.deployment).Ok?))
  }

  /** Lines 57-80 for a connected owner. */
  function Decide(w: Wallet, o: Oracles, st: Storage): (p: Path)
    requires Connected(w)
    ensures p.relayCreated == w.hasSigner
    ensures p.safe == if ReachesDeploymentCheck(w, o) then SafeOf(w, o) else None
    ensures p.deployQueried == ReachesDeploymentCheck(w, o)
    ensures p.deploys == (ReachesDeploymentCheck(w, o) && DeployedAnswer(o) == Ok(false))
    ensures p.storeReread == ReachesCredentials(w, o)
    ensures p.provisions == (ReachesCredentials(w, o) && Provisions(w, st))
    ensures p.approvalsQueried == (ReachesCredentials(w, o) && ObtainedCredentials(w, o, st).Some?)
    ensures p.approvalsQueried ==> p.credentials == ObtainedCredentials(w, o, st)
    ensures p.submits == (p.approvalsQueried && SubmitsApprovals(o))
    ensures p.failure.None? == (p.approvalsQueried && ApprovalsSucceed(o))
    ensures !w.hasSigner ==> p.failure == Some(Error("Wallet not connected"))
    ensures w.hasSigner && !Truthy(SafeOf(w, o)) ==> p.failure == Some(Error("Could not derive Safe address"))
    ensures p.deployQueried && DeployedAnswer(o).Err? ==> p.failure == Some(DeployedAnswer(o).failure)
    ensures p.deploys && DeploySafe(o.deployment).Err? ==> p.failure == Some(DeploySafe(o.deployment).failure)
    ensures p.storeReread && !p.approvalsQueried ==>
              p.failure == Some(CreateOrDerive(w.eoaAddress, w.hasSigner, o.derivedCredentials,
                                               o.createdCredentials).result.failure)
    ensures p.approvalsQueried && !ApprovalsSucceed(o) ==> p.failure == Some(ApprovalFailure(o))
  {
    if !w.hasSigner then NoBranch.(failure := Some(Error("Wallet not connected")))
    else
      var safe := SafeOf(w, o);
      if !Truthy(safe) then NoBranch.(relayCreated := true, failure := Some(Error("Could not derive Safe address")))
      else
        var p := NoBranch.(relayCreated := true, safe := safe, deployQueried := true);
        match IsSafeDeployed(o.relayDeployed, o.hasPublicClient, o.bytecode)
        case Err(f) => p.(failure := Some(f))
        case Ok(deployed) =>
          if deployed then DecideCredentials(w, o, st, p)
          else
            match DeploySafe(o.deployment)
            case Err(f) => p.(deploys := true, failure := Some(f))
            case Ok(_) => DecideCredentials(w, o, st, p.(deploys := true))
  }

  /** A one-element sequence when `b` holds, else empty. */
  function When<T>(b: bool, x: T): (r: seq<T>)
    ensures x in r <==> b
    ensures |r| <= 1
  {
    if b then [x] else []
  }

  /** The batch the approval stage submits. */
  function BatchRequest(o: Oracles): ExecRequest
  {
    SetAllTokenApprovals(o.approvalTxs, o.approvalExecute, o.approvalWait).request
  }

  /** The record a completed path saves. */
  function RecordOf(w: Wallet, o: Oracles, p: Path): TradingSession
    requires Truthy(w.eoaAddress) && p.safe.Some? && p.credentials.Some?
  {
    FullRecord(w.eoaAddress.value, p.safe.value, p.credentials.value, o.now)
  }

  /** The well-formedness a `Decide` path has. */
  predicate Coherent(p: Path)
  {
    && (p.failure.None? ==> p.safe.Some? && p.credentials.Some? && p.approvalsQueried)
    && (p.deployQueried ==> p.relayCreated && p.safe.Some?)
    && (p.deploys ==> p.deployQueried)
    && (p.storeReread ==> p.deployQueried)
    && (p.provisions ==> p.storeReread)
    && (p.approvalsQueried ==> p.storeReread && p.credentials.Some?)
    && (p.submits ==> p.approvalsQueried)
  }

  /** The hook state, storage, steps and calls a path produces. */
  function Assemble(w: Wallet, o: Oracles, st: Storage, h: HookState, p: Path): (r: InitOutcome)
    requires Truthy(w.eoaAddress) && Coherent(p)
  {
    var eoa := w.eoaAddress.value;
    var reread := if p.storeReread then Load(w.inBrowser, st, eoa).storage else st;
    var relayHeld := h.hasRelayClient || p.relayCreated;
    var steps := [Checking] + When(p.deploys, Deploying) + When(p.provisions, Credentials)
                 + When(p.submits, Approvals);
    var safe := if p.safe.Some? then p.safe.value else "";
    var calls := When(p.deployQueried, QueryDeployed(safe)) + When(p.deploys, Deploy)
                 + When(p.provisions, Provision)
                 + When(p.approvalsQueried, QueryApprovals(safe))
                 + When(p.submits, SubmitApprovals(BatchRequest(o)));
    match p.failure
    case Some(f) =>
      InitOutcome(h.(step := Idle, error := Some(ErrorMessage(f)), hasRelayClient := relayHeld),
                  reread, Err(f), steps + [Idle], calls)
    case None =>
      var rec := RecordOf(w, o, p);
      InitOutcome(h.(session := Some(rec), step := Complete, error := None, hasRelayClient := relayHeld),
                  Save(w.inBrowser, reread, eoa, rec), Ok(()), steps + [Complete], calls + [SaveRecord(rec)])
  }

  /** `initializeTradingSession`. */
  function InitializeTradingSession(w: Wallet, o: Oracles, st: Storage, h: HookState): (r: InitOutcome)
    ensures !Connected(w) ==> r == InitOutcome(h, st, Err(Error("Wallet not connected")), [], [])
  {
    if !Connected(w) then InitOutcome(h, st, Err(Error("Wallet not connected")), [], [])
    else
      Assemble(w, o, st, h, Decide(w, o, st))
  }

  /** Lines 30-36 when the wallet is gone: everything is reset, the relay
      client dropped and a remembered address's record cleared. */
  function Disconnect(w: Wallet, st: Storage): Snapshot
  {
    Snapshot(HookState(None, Idle, None, false),
             if Truthy(w.eoaAddress) then Clear(w.inBrowser, st, w.eoaAddress.value) else st)
  }

  /** The connect/disconnect effect (lines 29-46). A connected owner gets the
      stored record back, shown as complete only when it carries both the
      credentials and the approvals flag. */
  function OnWalletChange(w: Wallet, st: Storage, h: HookState): (r: Snapshot)
  {
    if !Connected(w) then Disconnect(w, st)
    else
      var loaded := Load(w.inBrowser, st, w.eoaAddress.value);
      var restored := loaded.session.Some? && loaded.session.value.hasApiCredentials
                      && loaded.session.value.hasApprovals;
      Snapshot(h.(session := loaded.session, step := if restored then Complete else Idle), loaded.storage)
  }

  /** `endTradingSession` (lines 115-120): the record is cleared, the session
      dropped, the step reset and the relay client released; the last error
      stays. */
  function EndTradingSession(w: Wallet, st: Storage, h: HookState): (r: Snapshot)
  {
    Snapshot(h.(session := None, step := Idle, hasRelayClient := false),
             if Truthy(w.eoaAddress) then Clear(w.inBrowser, st, w.eoaAddress.value) else st)
  }

  /** `isTradingSessionComplete` (line 122). */
  predicate IsTradingSessionComplete(h: HookState)
  {
    h.step == Complete && h.session.Some? && h.session.value.hasApiCredentials && h.session.value.hasApprovals
  }

  /** Lines 49-51: without a connected owner the pass throws before touching
      anything. */
  lemma InitRequiresConnection(w: Wallet, o: Oracles, st: Storage, h: HookState)
    requires !Connected(w)
    ensures var r := InitializeTradingSession(w, o, st, h);
            && r.result == Err(Error("Wallet not connected"))
            && r.state == h && r.storage == st && r.steps == [] && r.calls == []
  {
  }

  /** Lines 57-61: without a signer, or without a derivable Safe address, the
      pass fails at the checking step without querying anything; the error is
      recorded, storage is untouched, and the relay client exists only when the
      signer does. */
  lemma EarlyFailures(w: Wallet, o: Oracles, st: Storage, h: HookState)
    requires Connected(w) && !ReachesDeploymentCheck(w, o)
    ensures var r := InitializeTradingSession(w, o, st, h);
            var m := if w.hasSigner then "Could not derive Safe address" else "Wallet not connected";
            && r.result == Err(Error(m))
            && r.state == h.(step := Idle, error := Some(m), hasRelayClient := h.hasRelayClient || w.hasSigner)
            && r.storage == st && r.steps == [Checking, Idle] && r.calls == []
  {
  }

  /** Lines 63-67: the deployment is requested, and the deploying step shown,
      exactly when the deployment query was reached and answered "not
      deployed". */
  lemma DeploysOnlyWhenMissing(w: Wallet, o: Oracles, st: Storage, h: HookState)
    ensures var r := InitializeTradingSession(w, o, st, h);
            && (Deploy in r.calls <==> ReachesDeploymentCheck(w, o) && DeployedAnswer(o) == Ok(false))
            && (Deploying in r.steps <==> Deploy in r.calls)
            && (ReachesDeploymentCheck(w, o) ==> QueryDeployed(SafeOf(w, o).value) in r.calls)
            && (!ReachesDeploymentCheck(w, o) ==> forall s :: QueryDeployed(s) !in r.calls)
  {
  }

  /** Lines 69-73: credentials are provisioned, and the credentials step shown,
      exactly when the pass got past deployment and the re-read record offers
      none. */
  lemma ProvisionsOnlyWithoutStoredCredentials(w: Wallet, o: Oracles, st: Storage, h: HookState)
    requires Connected(w)
    ensures var r := InitializeTradingSession(w, o, st, h);
            && (Provision in r.calls <==> ReachesCredentials(w, o) && Provisions(w, st))
            && (Credentials in r.steps <==> Provision in r.calls)
  {
  }

  /** Lines 75-80: the approval batch is submitted, and the approvals step
      shown, exactly when the approval check was reached and reported
      something unapproved. */
  lemma ApprovalsOnlyWhenMissing(w: Wallet, o: Oracles, st: Storage, h: HookState)
    requires Connected(w)
    ensures var r := InitializeTradingSession(w, o, st, h);
            var checked := ReachesCredentials(w, o) && ObtainedCredentials(w, o, st).Some?;
            && (checked ==> QueryApprovals(SafeOf(w, o).value) in r.calls)
            && (!checked ==> forall s :: QueryApprovals(s) !in r.calls)
            && (SubmitApprovals(BatchRequest(o)) in r.calls <==> checked && o.approvalStatus == Answered(false))
            && (Approvals in r.steps <==> SubmitApprovals(BatchRequest(o)) in r.calls)
  {
  }

  /** Whether every stage of a pass succeeds. */
  predicate Completes(w: Wallet, o: Oracles, st: Storage)
  {
    Connected(w) && ReachesCredentials(w, o) && ObtainedCredentials(w, o, st).Some? && ApprovalsSucceed(o)
  }

  /** Lines 82-93: a pass succeeds exactly when every stage does; it then
      saves and shows the fully flagged record for the owner, its Safe, the
      credentials it used and the time of the pass, as its last call. */
  lemma SuccessSavesFullRecord(w: Wallet, o: Oracles, st: Storage, h: HookState)
    ensures var r := InitializeTradingSession(w, o, st, h);
            && (r.result.Ok? <==> Completes(w, o, st))
            && (r.result.Ok? ==>
                  var rec := FullRecord(w.eoaAddress.value, SafeOf(w, o).value, ObtainedCredentials(w, o, st).value, o.now);
                  && r.state == h.(session := Some(rec), step := Complete, error := None, hasRelayClient := true)
                  && r.calls[|r.calls| - 1] == SaveRecord(rec)
                  && r.steps[|r.steps| - 1] == Complete
                  && r.storage == Save(w.inBrowser, Load(w.inBrowser, st, w.eoaAddress.value).storage,
                                       w.eoaAddress.value, rec))
  {

  }

  /** Lines 94-99: a failed pass rethrows, shows the idle step and the
      failure's message, keeps the session in memory, saves nothing, and leaves
      storage as it found it except for a foreign record the re-read cleared. */
  lemma FailureSavesNothing(w: Wallet, o: Oracles, st: Storage, h: HookState)
    requires Connected(w) && !Completes(w, o, st)
    ensures var r := InitializeTradingSession(w, o, st, h);
            && r.result.Err?
            && r.state.step == Idle && r.state.error == Some(ErrorMessage(r.result.failure))
            && r.state.session == h.session
            && (forall rec :: SaveRecord(rec) !in r.calls)
            && r.steps[|r.steps| - 1] == Idle
            && (r.storage == st || r.storage == Clear(w.inBrowser, st, w.eoaAddress.value))
  {
    LoadOutcome(w.inBrowser, st, w.eoaAddress.value);
  }

  /** Lines 58-80 and 94-99: the failure a pass rethrows is the one of the
      stage that ended it: the deployment check's or the deployment's own
      throw, "Safe deployment failed" for a deployment that confirms no
      proxy, the credential provisioning's failure, the approval check's
      throw, or "Token approvals failed" for a batch that was not executed
      and confirmed. */
  lemma StageFailures(w: Wallet, o: Oracles, st: Storage, h: HookState)
    requires Connected(w) && ReachesDeploymentCheck(w, o)
    ensures var r := InitializeTradingSession(w, o, st, h);
            && (DeployedAnswer(o).Err? ==> r.result == Err(DeployedAnswer(o).failure))
            && (DeployedAnswer(o) == Ok(false) && o.deployment.Threw? ==> r.result == Err(o.deployment.thrown))
            && (DeployedAnswer(o) == Ok(false) && o.deployment == Answered(None) ==>
                  r.result == Err(Error("Safe deployment failed")))
            && (ReachesCredentials(w, o) && ObtainedCredentials(w, o, st).None? ==>
                  r.result == Err(CreateOrDerive(w.eoaAddress, w.hasSigner, o.derivedCredentials,
                                                 o.createdCredentials).result.failure))
            && (ReachesCredentials(w, o) && ObtainedCredentials(w, o, st).Some? && o.approvalStatus.Threw? ==>
                  r.result == Err(o.approvalStatus.thrown))
            && (ReachesCredentials(w, o) && ObtainedCredentials(w, o, st).Some? && SubmitsApprovals(o)
                && !(o.approvalExecute.Answered? && o.approvalWait.Answered?) ==>
                  r.result == Err(Error("Token approvals failed")))
  {
  }

  /** Line 122 after lines 82-93: a successful pass is complete, and the record
      it saved loads back for any spelling of the owner's address. */
  lemma {:induction false} SuccessIsComplete(w: Wallet, o: Oracles, st: Storage, h: HookState, b: string)
    requires w.inBrowser && InitializeTradingSession(w, o, st, h).result.Ok?
    requires Lower(b) == Lower(w.eoaAddress.value)
    ensures var r := InitializeTradingSession(w, o, st, h);
            && IsTradingSessionComplete(r.state)
            && Load(true, r.storage, b).session == r.state.session
  {
    SuccessSavesFullRecord(w, o, st, h);
    var r := InitializeTradingSession(w, o, st, h);
    var eoa := w.eoaAddress.value;
    var rec := r.state.session.value;
    LoadAfterSave(Load(true, st, eoa).storage, eoa, b, rec);
  }

  /** A second pass after a successful one reuses the saved credentials: it
      provisions nothing and saves the same credentials again. */
  lemma {:induction false} SecondPassReusesCredentials(w: Wallet, o1: Oracles, o2: Oracles, st: Storage, h: HookState)
    requires w.inBrowser && InitializeTradingSession(w, o1, st, h).result.Ok?
    ensures var r1 := InitializeTradingSession(w, o1, st, h);
            var r2 := InitializeTradingSession(w, o2, r1.storage, r1.state);
            && Provision !in r2.calls && Credentials !in r2.steps
            && (r2.result.Ok? ==>
                  r2.state.session.value.apiCredentials == r1.state.session.value.apiCredentials)
  {
    SuccessSavesFullRecord(w, o1, st, h);
    var r1 := InitializeTradingSession(w, o1, st, h);
    LowerIdempotent(w.eoaAddress.value);
    SuccessIsComplete(w, o1, st, h, w.eoaAddress.value);
    ProvisionsOnlyWithoutStoredCredentials(w, o2, r1.storage, r1.state);
    SuccessSavesFullRecord(w, o2, r1.storage, r1.state);
  }

  /** Lines 38-45 after lines 82-93: reconnecting after a successful pass
      restores the saved record and shows it complete. */
  lemma {:induction false} ReconnectRestoresSession(w: Wallet, o: Oracles, st: Storage, h: HookState, h2: HookState)
    requires w.inBrowser && InitializeTradingSession(w, o, st, h).result.Ok?
    ensures var r := InitializeTradingSession(w, o, st, h);
            var e := OnWalletChange(w, r.storage, h2);
            && e.state.session == r.state.session
            && IsTradingSessionComplete(e.state)
  {
    SuccessSavesFullRecord(w, o, st, h);
    SuccessIsComplete(w, o, st, h, w.eoaAddress.value);
  }

  /** Lines 38-45: a connected owner sees the stored record, and it is shown
      complete exactly when the record carries both the credentials and the
      approvals flag, and idle otherwise. */
  lemma EffectRestoresStoredSession(w: Wallet, st: Storage, h: HookState)
    requires Connected(w)
    ensures var r := OnWalletChange(w, st, h);
            var loaded := Load(w.inBrowser, st, w.eoaAddress.value);
            && r.state.session == loaded.session
            && r.state.step == (if loaded.session.Some? && loaded.session.value.hasApiCredentials
                                   && loaded.session.value.hasApprovals then Complete else Idle)
            && (IsTradingSessionComplete(r.state) <==>
                  loaded.session.Some? && loaded.session.value.hasApiCredentials && loaded.session.value.hasApprovals)
            && r.state.error == h.error && r.state.hasRelayClient == h.hasRelayClient
  {
  }

  /** Lines 30-36: losing the wallet resets the hook, and a remembered
      address's record no longer loads. */
  lemma DisconnectForgets(w: Wallet, st: Storage, h: HookState)
    requires !Connected(w)
    ensures var r := OnWalletChange(w, st, h);
            && r.state == HookState(None, Idle, None, false)
            && !IsTradingSessionComplete(r.state)
            && (Truthy(w.eoaAddress) && w.inBrowser ==> Load(true, r.storage, w.eoaAddress.value).session.None?)
            && (!Truthy(w.eoaAddress) ==> r.storage == st)
  {
    if Truthy(w.eoaAddress) && w.inBrowser {
      LoadAfterClear(st, w.eoaAddress.value, w.eoaAddress.value);
    }
  }

  /** Lines 115-120: ending the session drops it from memory, shows idle and
      leaves nothing to restore: it is not complete, and the owner's record no longer loads, while other owners'
      records are untouched. */
  lemma EndForgets(w: Wallet, st: Storage, h: HookState, other: string)
    requires Truthy(w.eoaAddress)
    requires Lower(other) != Lower(w.eoaAddress.value)
    ensures var r := EndTradingSession(w, st, h);
            && r.state.session.None? && r.state.step == Idle
            && !IsTradingSessionComplete(r.state) && !r.state.hasRelayClient && r.state.error == h.error
            && (w.inBrowser ==> Load(true, r.storage, w.eoaAddress.value).session.None?)
            && Load(w.inBrowser, r.storage, other).session == Load(w.inBrowser, st, other).session
  {
    if w.inBrowser {
      LoadAfterClear(st, w.eoaAddress.value, w.eoaAddress.value);
    }
    OtherAddressesIsolated(w.inBrowser, st, w.eoaAddress.value, other, TradingSession("", "", false, false, false, None, 0));
  }

  /** Line 122 with the client hook: after a successful pass the trading
      client opens with the saved credentials, signature type 2 and the Safe
      as funder. */
  lemma {:induction false} SuccessOpensClobClient(w: Wallet, o: Oracles, st: Storage, h: HookState)
    requires w.inBrowser && InitializeTradingSession(w, o, st, h).result.Ok?
    ensures var r := InitializeTradingSession(w, o, st, h);
            ClobClientFor(w.hasSigner, w.eoaAddress, SafeOf(w, o), IsTradingSessionComplete(r.state), r.state.session)
              == Some(ClobIdentity(ObtainedCredentials(w, o, st).value, SafeSignatureType, SafeOf(w, o).value))
  {
    SuccessSavesFullRecord(w, o, st, h);
    SuccessIsComplete(w, o, st, h, w.eoaAddress.value);
    LowerIdempotent(w.eoaAddress.value);
  }
}
