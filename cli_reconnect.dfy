/** `mullvad reconnect [--wait]`: waits, if asked, until the tunnel is
    connected or in the error state again. */
module ReconnectCmd {
  import opened Wrappers
  import opened CliState
  import opened CliRun

  /** Whether the current state is an error state with a blocking error. */
  predicate IsBlockingError(state: State) {
    state.Error? && state.errorState.Some? && state.errorState.value.blockingError.Some?
  }

  /** There is nothing to wait for when the tunnel is disconnected, or in an
      error state with a blocking error; an error state without one, and a
      connected tunnel, are waited on. */
  function ListensFrom(current: Option<State>): (r: bool)
    ensures !r <==> current == Some(Disconnected) || (current.Some? && IsBlockingError(current.value))
  {
    match current
    case Some(Disconnected) => false
    case Some(Error(Some(ErrorState(Some(_))))) => false
    case _ => true
  }

  /** The listener stops on a connected or an error state. */
  function KeepWaiting(state: State): (r: bool)
    ensures !r <==> state == Connected || state.Error?
  {
    match state
    case Connected => false
    case Error(_) => false
    case _ => true
  }

  function RunReconnect(wait: bool, rpc: RpcResults): (r: RunReport)
    ensures !wait ==> !r.listenerSpawned && r.commandSent
    ensures wait && rpc.getTunnelState.Ok? ==>
      var current := rpc.getTunnelState.value.state;
      (r.listenerSpawned <==>
        current != Some(Disconnected) && !(current.Some? && IsBlockingError(current.value)) && rpc.eventsListen.Pass?)
    // A failed reconnect is printed, and `run` still returns Ok.
    ensures r.commandSent ==> r.result == Returned(Pass) || r.result == JoinPanic
    ensures r.commandSent && rpc.command.Fail? ==> r.printedError == Some(rpc.command.error)
    ensures r.joined.Some? <==> r.listenerSpawned
    // Waiting ends on a connected or an error state, or with the stream.
    ensures r.joined.Some? && r.joined.value.end == Stopped ==>
      && r.joined.value.printed != [] && r.joined.value.printed[|r.joined.value.printed| - 1].state.Some?
      && var last := StoppedAt(r.joined.value); last == Connected || last.Error?
  {
    JoinedStopRejected(wait, rpc, ListensFrom, KeepWaiting, false);
    Run(wait, rpc, ListensFrom, KeepWaiting, false)
  }
}
