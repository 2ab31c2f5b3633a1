/** The conversation ownership domain: one versioned record and the commands that move it. */
module Ownership {
  import opened Wrappers

  datatype State = AiActive | WaitingApproval | HumanRequested | HumanActive | AiPaused

  datatype Command =
    | ManualTakeover | RequestHandoff | WaitForApproval | ApprovalResolved
    | PauseAgent | ReleaseToAgent | ResumeAgent
    | Unsupported(name: string)

  datatype Key = Key(tenantId: string, conversationId: string)

  datatype Record = Record(tenantId: string, conversationId: string, state: State, version: nat, changedAt: int,
                           changedBy: string, reasonCode: Option<string>, transitionId: Option<string>)

  datatype Input = Input(tenantId: string, conversationId: string, command: Command, transitionId: string,
                         actor: string, reasonCode: Option<string>, expectedVersion: Option<int>)

  datatype Error =
    | TenantIdRequired | ConversationIdRequired | CommandRequired | TransitionIdRequired | ActorRequired
    | ExpectedVersionInvalid | UnsupportedCommand(name: string) | ReasonCodeRequired | VersionConflict(current: nat)

  function KeyOf(input: Input): Key {
    Key(input.tenantId, input.conversationId)
  }

  function NextState(state: State, command: Command): State {
    match command
    case ManualTakeover => HumanActive
    case RequestHandoff => if state == AiActive then HumanRequested else state
    case WaitForApproval => if state == AiActive then WaitingApproval else state
    case ApprovalResolved => if state == WaitingApproval then AiActive else state
    case PauseAgent => if state != HumanActive then AiPaused else state
    case ReleaseToAgent => if state == HumanActive then AiActive else state
    case ResumeAgent => if state == AiPaused then AiActive else state
    case Unsupported(_) => state
  }

  function Initial(key: Key, now: int): Record {
    Record(key.tenantId, key.conversationId, AiActive, 0, now, "supervisor", Some("default_ai_active"), None)
  }

  /** `assertOwnershipTransitionInput`, in the order of its checks. */
  function CheckInput(input: Input): Option<Error> {
    if input.tenantId == "" then Some(TenantIdRequired)
    else if input.conversationId == "" then Some(ConversationIdRequired)
    else if input.command == Unsupported("") then Some(CommandRequired)
    else if input.transitionId == "" then Some(TransitionIdRequired)
    else if input.actor == "" then Some(ActorRequired)
    else if input.expectedVersion.Some? && input.expectedVersion.value < 0 then Some(ExpectedVersionInvalid)
    else None
  }

  /** `transitionOwnership`. A blank reason is refused only where a new record is built. */
  function Transition(current: Record, input: Input, now: int): Result<Record, Error> {
    if input.command == Unsupported("") then Failure(CommandRequired)
    else if input.command.Unsupported? then Failure(UnsupportedCommand(input.command.name))
    else if input.transitionId == "" then Failure(TransitionIdRequired)
    else if input.actor == "" then Failure(ActorRequired)
    else if current.transitionId == Some(input.transitionId) then Success(current)
    else
      var next := NextState(current.state, input.command);
      if next == current.state then Success(current)
      else if input.reasonCode == Some("") then Failure(ReasonCodeRequired)
      else Success(current.(state := next, version := current.version + 1, changedAt := now, changedBy := input.actor,
                           reasonCode := input.reasonCode, transitionId := Some(input.transitionId)))
  }

  /** The moves of the state machine, one by one: the state left, the command, the state reached. */
  const MOVES: set<(State, Command, State)> := {
    (AiActive, RequestHandoff, HumanRequested),
    (AiActive, WaitForApproval, WaitingApproval),
    (WaitingApproval, ApprovalResolved, AiActive),
    (AiActive, PauseAgent, AiPaused), (WaitingApproval, PauseAgent, AiPaused), (HumanRequested, PauseAgent, AiPaused),
    (AiActive, ManualTakeover, HumanActive), (WaitingApproval, ManualTakeover, HumanActive),
    (HumanRequested, ManualTakeover, HumanActive), (AiPaused, ManualTakeover, HumanActive),
    (HumanActive, ReleaseToAgent, AiActive),
    (AiPaused, ResumeAgent, AiActive)
  }

  predicate Moves(state: State, command: Command) {
    exists next :: (state, command, next) in MOVES
  }

  /**
   * Under a new id every state is reached by the listed moves and by no others; a move builds a
   * record with the command's own data, and any other pair of state and command keeps the record.
   */
  lemma MovesAreThese(current: Record, input: Input, now: int)
    requires Transition(current, input, now).Success? && current.transitionId != Some(input.transitionId)
    ensures var next := Transition(current, input, now).value;
      && (forall state :: (current.state, input.command, state) in MOVES <==> next.state == state && state != current.state)
      && next == if !Moves(current.state, input.command) then current
                 else Record(current.tenantId, current.conversationId, next.state, current.version + 1, now, input.actor,
                             input.reasonCode, Some(input.transitionId))
  {
    var next := Transition(current, input, now).value;
    if next.state != current.state { assert (current.state, input.command, next.state) in MOVES; }
  }

  /** What is refused: a command, an id or an actor that is missing or unknown, or a move with a blank reason. */
  lemma RefusedIff(current: Record, input: Input, now: int)
    ensures Transition(current, input, now).Failure? <==>
      || input.command.Unsupported? || input.transitionId == "" || input.actor == ""
      || (current.transitionId != Some(input.transitionId) && Moves(current.state, input.command) && input.reasonCode == Some(""))
  {
    forall state | (current.state, input.command, state) in MOVES ensures NextState(current.state, input.command) == state { }
    if NextState(current.state, input.command) != current.state && !input.command.Unsupported? {
      assert (current.state, input.command, NextState(current.state, input.command)) in MOVES;
    }
  }

  /** A human is only ever displaced by an explicit release, and what follows is the agent. */
  lemma HumanIsLeftOnlyByRelease(current: Record, input: Input, now: int)
    requires current.state == HumanActive && Transition(current, input, now).Success?
    ensures Transition(current, input, now).value.state != HumanActive <==>
            input.command == ReleaseToAgent && current.transitionId != Some(input.transitionId)
    ensures Transition(current, input, now).value.state in {HumanActive, AiActive}
  {
  }

  /** The version counts state changes, and a call that changes no state changes nothing. */
  lemma VersionCountsChanges(current: Record, input: Input, now: int)
    requires Transition(current, input, now).Success?
    ensures var next := Transition(current, input, now).value;
      && (next.state == current.state ==> next == current)
      && (next.state != current.state ==> next.version == current.version + 1 && next.transitionId == Some(input.transitionId))
      && next.tenantId == current.tenantId && next.conversationId == current.conversationId
  {
  }

  /** Agent control is only ever reached from the state the command is meant for. */
  lemma AgentIsRestoredExplicitly(current: Record, input: Input, now: int)
    requires Transition(current, input, now).Success? && current.state != AiActive
    ensures Transition(current, input, now).value.state == AiActive <==>
      && current.transitionId != Some(input.transitionId)
      && (current.state, input.command) in
         {(WaitingApproval, ApprovalResolved), (HumanActive, ReleaseToAgent), (AiPaused, ResumeAgent)}
  {
  }
}
