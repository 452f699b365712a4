/** What the broker, the provider runtimes and the clients say to each other. */
module Protocol {
  import opened Options

  type AgentId = nat
  type ActionId = nat

  datatype Provider = Codex | Claude

  datatype HumanKind = Approval | Question

  datatype Cause = ChannelUnavailable | QueuedPromptFailed | RuntimeFailed

  datatype EventKind =
    | TurnStarted(turn: Option<string>)
    | TurnCompleted(interrupted: bool)
    | TurnFailed
    | Requested(human: HumanKind, action: ActionId)
    | Resolved(human: HumanKind, action: ActionId)
    | Notice(cancelled: nat)
    | BrokerError(cause: Cause)
    | OtherEvent

  /** The vocabulary of provider adapters, which excludes the broker's own events. */
  type ProviderKind = kind: EventKind | !kind.Notice? && !kind.BrokerError? witness OtherEvent

  datatype Event = Event(sequence: nat, agent: AgentId, kind: EventKind)

  /** A prompt with the contexts and options captured when it was accepted. */
  datatype Prompt = Prompt(text: string, contexts: seq<string>, options: string)

  /** `broker:<generation>:<number>` and `queued:<number>`. */
  datatype RuntimeId = BrokerRequest(generation: nat, number: nat) | QueuedRequest(number: nat)

  datatype Command =
    | SendPrompt(id: RuntimeId, prompt: Prompt)
    | SendSteer(id: RuntimeId, text: string, contexts: seq<string>)
    | Interrupt(id: RuntimeId)
    | History(id: RuntimeId)
    | Answer(id: RuntimeId, human: HumanKind, action: ActionId, decision: string)
    | ClientDisconnected
    | Shutdown

  datatype RuntimeEvent =
    | Started(id: RuntimeId, agent: AgentId, session: string)
    | Response(id: RuntimeId)
    | RequestFailed(id: RuntimeId, agent: AgentId, failAgent: bool)
    | ProviderEvent(agent: AgentId, kind: ProviderKind)
    | ProviderFailed(agent: AgentId)
    | Stopped(agent: AgentId)
}
