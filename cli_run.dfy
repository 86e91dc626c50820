/** The common shape of the CLI's `connect`, `disconnect` and `reconnect`
    commands. With `--wait`, `run` fetches and prints the current tunnel
    state and, unless the command's listen decision says the wait is
    already over, spawns the state listener with the command's continue
    condition. It then sends the command and joins the listener.

    The RPC calls are not modelled: their results are the inputs in
    `RpcResults`. Making the RPC client is left out. */
module CliRun {
  import opened Wrappers
  import opened CliState

  datatype RpcError = RpcError(id: nat)

  datatype RpcResults = RpcResults(
    getTunnelState: Result<TunnelStateMessage, RpcError>,
    eventsListen: Outcome<RpcError>,
    events: seq<Received>,
    command: Outcome<RpcError>)

  /** How `run` ended: it returned, or joining a panicked listener panicked. */
  datatype RunResult = Returned(outcome: Outcome<RpcError>) | JoinPanic

  /** What `run` did: the state it printed first, whether it spawned a
      listener, the listener's run once joined, whether the command was sent
      and the command error it printed instead of returning it. */
  datatype RunReport = RunReport(
    result: RunResult,
    initialState: Option<TunnelStateMessage>,
    listenerSpawned: bool,
    joined: Option<ListenResult>,
    commandSent: bool,
    printedError: Option<RpcError>)

  /** `run` of a command with the given listen decision, continue condition
      and handling of the command's own error (returned with `?`, or
      printed). */
  function Run(wait: bool, rpc: RpcResults, listensFrom: Option<State> -> bool, keepWaiting: State -> bool,
               propagatesCommandError: bool): (r: RunReport)
    ensures !wait ==> r.initialState == None && !r.listenerSpawned && r.commandSent
    ensures r.initialState.Some? <==> wait && rpc.getTunnelState.Ok?
    ensures r.initialState.Some? ==> r.initialState.value == rpc.getTunnelState.value
    ensures r.listenerSpawned <==>
      wait && rpc.getTunnelState.Ok? && listensFrom(rpc.getTunnelState.value.state) && rpc.eventsListen.Pass?
    ensures r.commandSent <==>
      !wait || (rpc.getTunnelState.Ok? && (!listensFrom(rpc.getTunnelState.value.state) || rpc.eventsListen.Pass?))
    // A failure before the command is sent is returned.
    ensures !r.commandSent ==> r.result.Returned? && r.result.outcome.Fail? && r.printedError == None
    ensures wait && rpc.getTunnelState.Err? ==> r.result == Returned(Fail(rpc.getTunnelState.error))
    ensures wait && rpc.getTunnelState.Ok? && listensFrom(rpc.getTunnelState.value.state) && rpc.eventsListen.Fail? ==>
      r.result == Returned(rpc.eventsListen)
    // The command's own failure is returned or printed, as the command chooses.
    ensures r.commandSent && rpc.command.Fail? ==>
      if propagatesCommandError then r.result == Returned(rpc.command) && r.printedError == None
      else r.printedError == Some(rpc.command.error)
    ensures r.commandSent && rpc.command.Pass? ==> r.printedError == None
    // The listener is joined unless the command's returned error ended `run` first.
    ensures r.joined.Some? <==> r.listenerSpawned && !(propagatesCommandError && rpc.command.Fail?)
    ensures r.joined.Some? ==> r.joined.value == Listen(rpc.events, keepWaiting)
    ensures r.result == JoinPanic <==> r.joined.Some? && r.joined.value.end == Panicked
    ensures r.result.Returned? && r.commandSent && !(propagatesCommandError && rpc.command.Fail?) ==> r.result == Returned(Pass)
  {
    if !wait then
      Send(None, false, rpc, keepWaiting, propagatesCommandError)
    else
      match rpc.getTunnelState
      case Err(e) => RunReport(Returned(Fail(e)), None, false, None, false, None)
      case Ok(state) =>
        if !listensFrom(state.state) then
          Send(Some(state), false, rpc, keepWaiting, propagatesCommandError)
        else if rpc.eventsListen.Fail? then
          RunReport(Returned(rpc.eventsListen), Some(state), false, None, false, None)
        else
          Send(Some(state), true, rpc, keepWaiting, propagatesCommandError)
  }

  /** Sending the command, then joining the listener if one was spawned. */
  function Send(initialState: Option<TunnelStateMessage>, spawned: bool, rpc: RpcResults, keepWaiting: State -> bool,
                propagatesCommandError: bool): (r: RunReport)
    ensures r.commandSent && r.initialState == initialState && r.listenerSpawned == spawned
    // A returned command error ends `run` before the join.
    ensures propagatesCommandError && rpc.command.Fail? ==>
      r.result == Returned(rpc.command) && r.joined == None && r.printedError == None
    // Otherwise the error is printed, and a spawned listener is joined.
    ensures !(propagatesCommandError && rpc.command.Fail?) ==>
      && (r.printedError.Some? <==> rpc.command.Fail?)
      && (r.printedError.Some? ==> r.printedError.value == rpc.command.error)
      && (r.joined.Some? <==> spawned)
      && (r.joined.Some? ==> r.joined.value == Listen(rpc.events, keepWaiting))
      && (r.result == JoinPanic <==> r.joined.Some? && r.joined.value.end == Panicked)
      && (r.result != JoinPanic ==> r.result == Returned(Pass))
  {
    if propagatesCommandError && rpc.command.Fail? then
      RunReport(Returned(rpc.command), initialState, spawned, None, true, None)
    else
      var printedError := if rpc.command.Fail? then Some(rpc.command.error) else None;
      var joined := if spawned then Some(Listen(rpc.events, keepWaiting)) else None;
      var result := if joined.Some? && joined.value.end == Panicked then JoinPanic else Returned(Pass);
      RunReport(result, initialState, spawned, joined, true, printedError)
  }

  /** The last state a listener printed, when it stopped. */
  function StoppedAt(l: ListenResult): (s: State)
    requires l.end == Stopped && l.printed != [] && l.printed[|l.printed| - 1].state.Some?
  {
    l.printed[|l.printed| - 1].state.value
  }

  /** A joined listener that stopped did so on a state its continue
      condition rejects. */
  lemma JoinedStopRejected(wait: bool, rpc: RpcResults, listensFrom: Option<State> -> bool, keepWaiting: State -> bool,
                           propagatesCommandError: bool)
    ensures var r := Run(wait, rpc, listensFrom, keepWaiting, propagatesCommandError);
      r.joined.Some? && r.joined.value.end == Stopped ==>
      && r.joined.value.printed != [] && r.joined.value.printed[|r.joined.value.printed| - 1].state.Some?
      && !keepWaiting(StoppedAt(r.joined.value))
  {
    ListenStopsAtRejectedState(rpc.events, keepWaiting);
  }
}
