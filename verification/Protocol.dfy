/** The vocabulary the control plane and the Agent exchange: operation kinds,
    results, control envelopes and Agent messages.  Free text the programs never
    compare is dropped; the few message texts they do compare are constructors. */
module Protocol {
  import opened Options

  type OpId = string

  datatype Kind =
    | GeminiTurnStart | GeminiTurnRewrite | GeminiThreadFork | GeminiSkillsManage | GeminiTurnInterrupt
    | ClaudeTurnStart | ClaudeThreadFork | ClaudeTurnInterrupt | ClaudeSkillsList
    | CodexTurnStart | CodexTurnRewrite
    | GitWorktreeCreate | AgentUpdate | OperationInterrupt
    | GitWorkspaceInspect | InventoryScan | WorkspaceFiles | WorkspaceChanges | WorkspaceFilePreview | WorkspaceDiffPreview
    | OtherKind(name: string)

  /** Only synchronous read-only operations whose lifetime follows their context. */
  predicate CanInterruptOperation(kind: Kind) {
    match kind
    case GitWorkspaceInspect | InventoryScan | WorkspaceFiles
       | WorkspaceChanges | WorkspaceFilePreview | WorkspaceDiffPreview => true
    case _ => false
  }

  /** The operations that run a Claude or Gemini turn to completion. */
  predicate IsTurn(kind: Kind) {
    kind.GeminiTurnStart? || kind.GeminiTurnRewrite? || kind.ClaudeTurnStart?
  }

  predicate IsGeminiTurn(kind: Kind) {
    kind.GeminiTurnStart? || kind.GeminiTurnRewrite?
  }

  predicate IsTurnInterrupt(kind: Kind) {
    kind.GeminiTurnInterrupt? || kind.ClaudeTurnInterrupt?
  }

  /** Whether an interrupt of kind `interrupt` waits for an execution of kind `target`. */
  predicate InterruptMatches(interrupt: Kind, target: Kind) {
    (interrupt.ClaudeTurnInterrupt? && target.ClaudeTurnStart?) ||
    (interrupt.GeminiTurnInterrupt? && IsGeminiTurn(target))
  }

  datatype Status = Succeeded | Failed | Cancelled | Interrupted

  /** The message texts that some branch compares against. */
  datatype Note = Plain | OwnershipLost | ContextCanceled

  /** `stopped` is the termination receipt that a turn interrupt carries as data. */
  datatype OperationResult = OperationResult(op: OpId, status: Status, note: Note, stopped: Option<OpId>)

  /** The payload of an interrupt names its target; other payloads are opaque. */
  datatype Payload = Malformed | Command(target: OpId, targetKind: Kind)

  datatype Envelope = Envelope(op: OpId, kind: Kind, payload: Payload)

  datatype Message =
    | Started(op: OpId)
    | Completed(result: OperationResult)
    | OwnedActive(op: OpId)
    | OwnedLost(op: OpId)
}
