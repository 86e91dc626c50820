/** The blocked state of the tunnel state machine, from an older revision in
    which `Connect` carries the tunnel parameters: no tunnel is running and
    all network connections are blocked. Its handler is a single match; it
    reads and writes no shared values itself. */
module BlockedState {

  /** Opaque tunnel parameters, handed on to the connecting state. */
  datatype TunnelParameters = TunnelParameters(id: nat)

  /** The commands of this revision. The blocked state only looks at
      `Connect` and `Disconnect`; `Other` stands for any remaining command. */
  datatype TunnelCommand = Connect(parameters: TunnelParameters) | Disconnect | Other(id: nat)

  /** What polling the command channel delivered: a command, or an error
      (a failed or closed channel). Not-ready polls are left to the polling
      macro, which is not part of this model. */
  datatype Polled = Command(command: TunnelCommand) | ChannelError

  /** The states this handler moves to, with the arguments of their `enter`. */
  datatype NextState = Connecting(parameters: TunnelParameters) | Disconnected

  /** The transitions the state machine announces, one per state. */
  datatype TunnelStateTransition = Disconnected | Connecting | Connected | Disconnecting | Blocked

  /** The wrapper around the current state, one variant per state. */
  datatype StateWrapper =
    | DisconnectedWrapper | ConnectingWrapper | ConnectedWrapper | DisconnectingWrapper | BlockedWrapper

  /** The shared values of the state machine, which this state neither reads
      nor writes. */
  datatype SharedTunnelStateValues = SharedTunnelStateValues(id: nat)

  datatype EventConsequence = NewState(next: NextState) | SameState

  /** `enter` ignores the shared values and its (empty) bootstrap. */
  function Enter(shared: SharedTunnelStateValues, bootstrap: ()): (r: (StateWrapper, TunnelStateTransition))
    ensures r.0 == BlockedWrapper && r.1 == Blocked
  {
    (BlockedWrapper, Blocked)
  }

  /** `handle_event` for one polled command. */
  function HandleEvent(polled: Polled): (r: EventConsequence)
    ensures forall p :: r == NewState(NextState.Connecting(p)) <==> polled == Command(Connect(p))
    ensures r == NewState(NextState.Disconnected) <==> polled == Command(Disconnect) || polled == ChannelError
    ensures r == SameState <==> polled.Command? && polled.command.Other?
  {
    match polled
    case Command(Connect(parameters)) => NewState(NextState.Connecting(parameters))
    case Command(Disconnect) => NewState(NextState.Disconnected)
    case ChannelError => NewState(NextState.Disconnected)
    case _ => SameState
  }
}
