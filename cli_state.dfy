/** The CLI's state listener: it reads daemon events from the management
    interface, prints every tunnel state it receives and stops at the first
    state its continue condition rejects. The event stream is a finite
    sequence of receives; printing is a log of the messages printed. */
module CliState {
  import opened Wrappers

  datatype BlockingError = BlockingError(id: nat)

  /** Only the blocking error of the management interface's error state. */
  datatype ErrorState = ErrorState(blockingError: Option<BlockingError>)

  /** The tunnel states of the management interface; the payloads other
      than the error state are not modelled. */
  datatype State = Disconnected | Connecting | Connected | Disconnecting | Error(errorState: Option<ErrorState>)

  /** The tunnel state message, whose `state` is optional on the wire. */
  datatype TunnelStateMessage = TunnelStateMessage(state: Option<State>)

  /** A daemon event: a new tunnel state, or any other kind of event. */
  datatype EventType = TunnelStateEvent(newState: TunnelStateMessage) | OtherEvent(id: nat)

  /** A daemon event message, whose `event` is optional on the wire. */
  datatype DaemonEvent = DaemonEvent(event: Option<EventType>)

  /** One receive from the event stream: a message, or a receive error. */
  datatype Received = Message(daemonEvent: DaemonEvent) | ReceiveError

  /** How the listener ended: the stream ended (or failed, which reads as
      its end), the continue condition rejected a state, or an `unwrap` of a
      missing field panicked. */
  datatype ListenEnd = StreamEnded | Stopped | Panicked

  /** The tunnel states printed, and how many receives the listener took. */
  datatype ListenResult = ListenResult(printed: seq<TunnelStateMessage>, consumed: nat, end: ListenEnd)

  /** The tunnel state messages among some receives, in order. */
  function TunnelStateMessages(items: seq<Received>): seq<TunnelStateMessage> {
    if items == [] then []
    else
      var rest := TunnelStateMessages(items[1..]);
      match items[0]
      case Message(DaemonEvent(Some(TunnelStateEvent(m)))) => [m] + rest
      case _ => rest
  }

  /** Whether a receive lets the loop go on to the next one. */
  predicate Continues(item: Received, continueCondition: State -> bool) {
    && item.Message?
    && item.daemonEvent.event.Some?
    && match item.daemonEvent.event.value
       case OtherEvent(_) => true
       case TunnelStateEvent(m) => m.state.Some? && continueCondition(m.state.value)
  }

  /** The listener's run over a finite stream: the specification of the
      `state_listen` loop. */
  function Listen(events: seq<Received>, continueCondition: State -> bool): (r: ListenResult)
    ensures r.consumed <= |events|
    ensures events == [] ==> r == ListenResult([], 0, StreamEnded)
    ensures events != [] ==> 0 < r.consumed
    decreases |events|
  {
    if events == [] then ListenResult([], 0, StreamEnded)
    else Step(events[0], continueCondition, Listen(events[1..], continueCondition))
  }

  /** One turn of the loop on `item`, with `rest` the run that follows if
      the loop goes on. */
  function Step(item: Received, continueCondition: State -> bool, rest: ListenResult): (r: ListenResult)
    ensures 0 < r.consumed <= 1 + rest.consumed
    // The loop goes on exactly after a receive that lets it.
    ensures Continues(item, continueCondition) ==> r.consumed == 1 + rest.consumed && r.end == rest.end
    ensures !Continues(item, continueCondition) ==> r.consumed == 1 && |r.printed| <= 1
  {
    match item
    case ReceiveError => ListenResult([], 1, StreamEnded)
    case Message(DaemonEvent(None)) => ListenResult([], 1, Panicked)
    case Message(DaemonEvent(Some(OtherEvent(_)))) => Then([], 1, rest)
    case Message(DaemonEvent(Some(TunnelStateEvent(m)))) =>
      if m.state.None? then ListenResult([m], 1, Panicked)
      else if !continueCondition(m.state.value) then ListenResult([m], 1, Stopped)
      else Then([m], 1, rest)
  }

  /** A run that first printed `printed` and took `taken` receives. */
  function Then(printed: seq<TunnelStateMessage>, taken: nat, rest: ListenResult): ListenResult {
    ListenResult(printed + rest.printed, taken + rest.consumed, rest.end)
  }

  /** Printing in two goes is printing the two parts in order. */
  lemma ThenThen(a: seq<TunnelStateMessage>, i: nat, b: seq<TunnelStateMessage>, j: nat, rest: ListenResult)
    ensures Then(a, i, Then(b, j, rest)) == Then(a + b, i + j, rest)
  {
    assert a + (b + rest.printed) == (a + b) + rest.printed;
  }

  /** The `state_listen` loop: `while let Some(event)` over the stream,
      with a receive error read as the end of the stream. */
  method StateListen(events: seq<Received>, continueCondition: State -> bool)
    returns (printed: seq<TunnelStateMessage>, consumed: nat, end: ListenEnd)
    ensures ListenResult(printed, consumed, end) == Listen(events, continueCondition)
  {
    printed := [];
    var i := 0;
    while i < |events|
      invariant 0 <= i <= |events|
      invariant Listen(events, continueCondition) == Then(printed, i, Listen(events[i..], continueCondition))
    {
      ghost var rest := events[i..];
      assert rest[0] == events[i] && rest[1..] == events[i + 1..];
      ghost var next := Listen(events[i + 1..], continueCondition);
      assert Listen(rest, continueCondition) == Step(events[i], continueCondition, next);
      var item := events[i];
      if item.ReceiveError? {
        assert printed + [] == printed;
        return printed, i + 1, StreamEnded;
      }
      match item.daemonEvent.event {
      case None =>
        assert printed + [] == printed;
        return printed, i + 1, Panicked;
      case Some(TunnelStateEvent(newState)) =>
        if newState.state.None? {
          return printed + [newState], i + 1, Panicked;
        }
        if !continueCondition(newState.state.value) {
          return printed + [newState], i + 1, Stopped;
        }
        ThenThen(printed, i, [newState], 1, next);
        printed := printed + [newState];
      case Some(OtherEvent(_)) =>
        ThenThen(printed, i, [], 1, next);
        assert printed + [] == printed;
      }
      i := i + 1;
    }
    assert events[i..] == [];
    consumed, end := i, StreamEnded;
  }

  lemma {:induction false} TunnelStateMessagesAppend(a: seq<Received>, b: seq<Received>)
    ensures TunnelStateMessages(a + b) == TunnelStateMessages(a) + TunnelStateMessages(b)
    decreases |a|
  {
    if a == [] {
      assert a + b == b;
    } else {
      assert (a + b)[0] == a[0] && (a + b)[1..] == a[1..] + b;
      TunnelStateMessagesAppend(a[1..], b);
    }
  }

  /** What the listener printed is exactly the tunnel states among the
      receives it took, so a prefix of all the tunnel states in the stream. */
  lemma {:induction false} ListenPrintsTakenStates(events: seq<Received>, continueCondition: State -> bool)
    ensures var r := Listen(events, continueCondition);
      && r.printed == TunnelStateMessages(events[..r.consumed])
      && r.printed <= TunnelStateMessages(events)
    decreases |events|
  {
    var r := Listen(events, continueCondition);
    if events != [] {
      ListenPrintsTakenStates(events[1..], continueCondition);
      var rest := Listen(events[1..], continueCondition);
      assert events[..1][1..] == [];
      if r.consumed > 1 {
        assert events[..r.consumed][1..] == events[1..][..rest.consumed];
      }
    }
    TunnelStateMessagesAppend(events[..r.consumed], events[r.consumed..]);
    assert events[..r.consumed] + events[r.consumed..] == events;
  }

  /** Every receive before the last one taken let the loop go on. */
  lemma {:induction false} ListenContinuesBeforeLast(events: seq<Received>, continueCondition: State -> bool)
    ensures var r := Listen(events, continueCondition);
      forall i :: 0 <= i < r.consumed - 1 ==> Continues(events[i], continueCondition)
    decreases |events|
  {
    if events != [] {
      ListenContinuesBeforeLast(events[1..], continueCondition);
    }
  }

  /** The listener ends with the stream exactly when every receive let it
      go on, or a receive failed. */
  lemma {:induction false} ListenEndsWithStream(events: seq<Received>, continueCondition: State -> bool)
    ensures var r := Listen(events, continueCondition);
      r.end == StreamEnded <==>
      || (r.consumed == |events| && forall i :: 0 <= i < |events| ==> Continues(events[i], continueCondition))
      || (0 < r.consumed && events[r.consumed - 1] == ReceiveError)
    decreases |events|
  {
    if events != [] {
      ListenEndsWithStream(events[1..], continueCondition);
      var r := Listen(events, continueCondition);
      var rest := Listen(events[1..], continueCondition);
      if r.end == StreamEnded && r.consumed == |events| && rest.consumed == |events| - 1
         && forall i :: 0 <= i < |events| - 1 ==> Continues(events[1..][i], continueCondition) {
        assert forall i :: 1 <= i < |events| ==> events[i] == events[1..][i - 1];
      }
    }
  }

  /** A stop happens at a printed tunnel state that the continue condition
      rejects, and that state is the last one printed. */
  lemma {:induction false} ListenStopsAtRejectedState(events: seq<Received>, continueCondition: State -> bool)
    ensures var r := Listen(events, continueCondition);
      r.end == Stopped ==>
      && 0 < r.consumed && r.printed != []
      && var last := r.printed[|r.printed| - 1];
         && events[r.consumed - 1] == Message(DaemonEvent(Some(TunnelStateEvent(last))))
         && last.state.Some? && !continueCondition(last.state.value)
    decreases |events|
  {
    if events != [] {
      ListenStopsAtRejectedState(events[1..], continueCondition);
    }
  }
}
