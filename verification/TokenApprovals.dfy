/** Token approvals for the Safe (`hooks/useTokenApprovals.ts`). The approval
    list itself and the allowance reads live in `utils/approvals`, which is not
    part of this model: its transactions are an input here. */
module TokenApprovals {
  import opened Base

  /** An opaque approval transaction built by `createAllApprovalTxs`. */
  datatype Tx = Tx(to: string, data: string)

  /** A batch handed to the relay's `execute`. */
  datatype ExecRequest = ExecRequest(txs: seq<Tx>, description: string)

  datatype ApprovalSubmission = ApprovalSubmission(ok: bool, request: ExecRequest)

  const ApprovalDescription: string := "Set all token approvals for trading"

  /** `setAllTokenApprovals`: always submits the whole batch with the fixed
      description; `true` only once `execute` and `wait()` both returned; any
      failure becomes `false` and nothing is thrown. */
  function SetAllTokenApprovals(allTxs: seq<Tx>, execute: Probe<()>, wait: Probe<()>): (r: ApprovalSubmission)
    ensures r.request.txs == allTxs
    ensures r.request.description == ApprovalDescription
    ensures r.ok <==> execute.Answered? && wait.Answered?
  {
    var request := ExecRequest(allTxs, ApprovalDescription);
    match execute
    case Threw(_) => ApprovalSubmission(false, request)
    case Answered(_) =>
      match wait
      case Threw(_) => ApprovalSubmission(false, request)
      case Answered(_) => ApprovalSubmission(true, request)
  }
}
