// Rows, conversations and the settings that the run protocol works on.
module RunTypes {
  import opened Options

  type RunId = nat
  type WorkerId = nat
  type ApprovalId = nat
  type SubmissionId = nat
  type WorkspaceId = nat
  type OperatorId = nat

  datatype Status = Queued | Running | AwaitingApproval | Succeeded | Failed | Cancelled {
    predicate Terminal() { Succeeded? || Failed? || Cancelled? }

    // Nobody works on a run that waits.
    predicate Waiting() { Queued? || AwaitingApproval? }

    // The statuses that count against a workspace's concurrency quota.
    predicate Active() { Queued? || Running? || AwaitingApproval? }
  }

  datatype ToolCall = ToolCall(id: string, name: string, arguments: string)

  // Plain stands for system, user and replayed history messages: none of them carries calls.
  datatype Message =
    | Plain(text: string)
    | Assistant(content: string, calls: seq<ToolCall>)
    | ToolResult(callId: string, content: string)

  datatype Checkpoint = Checkpoint(messages: seq<Message>, pending: seq<ToolCall>)

  datatype Run = Run(
    workspace: WorkspaceId,
    parent: Option<RunId>,
    status: Status,
    checkpoint: Option<Checkpoint>,
    stepCount: nat,
    cancelRequested: bool,
    heartbeat: Option<nat>)

  datatype Decision = Pending | Approved | Denied

  function DecisionOf(approved: bool): Decision {
    if approved then Approved else Denied
  }

  datatype Approval = Approval(run: RunId, toolName: string, arguments: string, status: Decision) {
    // The approval was asked for this very call.
    predicate For(call: ToolCall) {
      toolName == call.name && arguments == call.arguments
    }
  }

  // A resume job of an approval. The first is that of the decision which found the approval undecided; copies
  // come from repeated deliveries and from decisions that overlap.
  datatype JobId = JobId(approval: ApprovalId, copy: nat)

  // What the deployment fixes. `gated` holds the tools that need approval, by their own flag or by
  // operator policy; `window` is how many submissions of one workspace may sit between the quota
  // check and the insert at once; `publishMayFail` holds for the Redis event bus, whose publish can
  // raise, and not for the in-process one; `jobsMayRepeat` holds for a queue that may deliver a resume job
  // more than once; `deciders` and `cancellers` are how many operators may sit at once between reading and
  // writing the row of one approval they decide, or of one run they cancel.
  datatype Config = Config(
    gated: set<string>,
    maxSteps: RunId -> nat,
    limit: nat,
    window: nat,
    staleAfter: nat,
    publishMayFail: bool,
    jobsMayRepeat: bool,
    deciders: nat,
    cancellers: nat)
}
