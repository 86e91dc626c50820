/** `mullvad disconnect [--wait]`: waits, if asked, until the tunnel is
    disconnected. */
module DisconnectCmd {
  import opened Wrappers
  import opened CliState
  import opened CliRun

  /** There is nothing to wait for when the tunnel is already disconnected. */
  function ListensFrom(current: Option<State>): (r: bool)
    ensures r <==> current != Some(Disconnected)
  {
    match current
    case Some(Disconnected) => false
    case _ => true
  }

  /** The listener stops only on the disconnected state; an error state does
      not stop it. */
  function KeepWaiting(state: State): (r: bool)
    ensures !r <==> state == Disconnected
  {
    match state
    case Disconnected => false
    case _ => true
  }

  function RunDisconnect(wait: bool, rpc: RpcResults): (r: RunReport)
    ensures !wait ==> !r.listenerSpawned && r.commandSent
    ensures wait && rpc.getTunnelState.Ok? ==>
      (r.listenerSpawned <==> rpc.getTunnelState.value.state != Some(Disconnected) && rpc.eventsListen.Pass?)
    // A failed disconnect is returned from `run`, before the listener is joined.
    ensures r.commandSent && rpc.command.Fail? ==>
      r.result == Returned(rpc.command) && r.printedError == None && r.joined == None
    ensures r.commandSent && rpc.command.Pass? ==> (r.result == Returned(Pass) || r.result == JoinPanic)
    ensures r.commandSent && rpc.command.Pass? ==> (r.joined.Some? <==> r.listenerSpawned)
    // Waiting ends on the disconnected state, or with the stream.
    ensures r.joined.Some? && r.joined.value.end == Stopped ==>
      && r.joined.value.printed != [] && r.joined.value.printed[|r.joined.value.printed| - 1].state.Some?
      && StoppedAt(r.joined.value) == Disconnected
  {
    JoinedStopRejected(wait, rpc, ListensFrom, KeepWaiting, true);
    Run(wait, rpc, ListensFrom, KeepWaiting, true)
  }
}
