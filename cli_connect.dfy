/** `mullvad connect [--wait]`: waits, if asked, until the tunnel is
    connected or in the error state. */
module ConnectCmd {
  import opened Wrappers
  import opened CliState
  import opened CliRun

  /** There is nothing to wait for when the tunnel is already connected. */
  function ListensFrom(current: Option<State>): (r: bool)
    ensures r <==> current != Some(Connected)
  {
    match current
    case Some(Connected) => false
    case _ => true
  }

  /** The listener stops on a connected or an error state. */
  function KeepWaiting(state: State): (r: bool)
    ensures !r <==> state == Connected || state.Error?
  {
    match state
    case Connected => false
    case Error(_) => false
    case _ => true
  }

  function RunConnect(wait: bool, rpc: RpcResults): (r: RunReport)
    ensures !wait ==> !r.listenerSpawned && r.commandSent
    ensures wait && rpc.getTunnelState.Ok? ==>
      (r.listenerSpawned <==> rpc.getTunnelState.value.state != Some(Connected) && rpc.eventsListen.Pass?)
    // A failed connect is printed, and `run` still returns Ok.
    ensures r.commandSent ==> r.result == Returned(Pass) || r.result == JoinPanic
    ensures r.commandSent && rpc.command.Fail? ==> r.printedError == Some(rpc.command.error)
    ensures r.joined.Some? <==> r.listenerSpawned
    // Waiting ends on a connected or an error state, or with the stream.
    ensures r.joined.Some? && r.joined.value.end == Stopped ==>
      && r.joined.value.printed != [] && r.joined.value.printed[|r.joined.value.printed| - 1].state.Some?
      && var last := StoppedAt(r.joined.value); last == Connected || last.Error?
  {
    JoinedStopRejected(wait, rpc, ListensFrom, KeepWaiting, false);
    Run(wait, rpc, ListensFrom, KeepWaiting, false)
  }
}
