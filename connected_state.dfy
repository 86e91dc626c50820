/** The connected state of the tunnel state machine: the tunnel is up and
    working. Each handler takes one input (a command, a tunnel event or the
    tunnel's close event), may call into the firewall, the DNS monitor and the
    route manager, and yields the consequence for the state machine.

    The firewall, DNS and route calls are not modelled: every call is
    appended to the log `SharedValues.calls`, and the result each call
    returns is given to the handler as a parameter (`EffectResults`). The
    states the machine moves to are opaque: `NextState` records only the
    arguments their `enter` functions receive. */
module ConnectedState {
  import opened Wrappers

  /** The target the daemon is built for; it selects the `#[cfg]` branches. */
  datatype Platform = Linux | Windows | MacOs | Android

  /** Opaque values the state carries around without looking inside. */
  datatype Endpoint = Endpoint(id: nat)
  datatype CloseHandle = CloseHandle(id: nat)
  datatype TunnelCloseEvent = TunnelCloseEvent(id: nat)
  datatype BoxedError = BoxedError(id: nat)
  /** The error of a cancelled close-event channel. */
  datatype Canceled = Canceled

  datatype IpAddr = V4(v4: nat) | V6(v6: nat)

  /** What the tunnel reported when it came up. */
  datatype TunnelMetadata = TunnelMetadata(interface: string, ipv4Gateway: nat, ipv6Gateway: Option<nat>)

  /** Only the two endpoints the connected state asks the parameters for. */
  datatype TunnelParameters = TunnelParameters(nextHopEndpoint: Endpoint, tunnelEndpoint: Endpoint)

  /** `Generic` is the only variant the connected state builds itself; the
      others are not distinguished here. */
  datatype FirewallPolicyError = Generic | OtherPolicyError(id: nat)

  /** The firewall's own error; only `ApplyingConnectedPolicy` carries a
      policy error through on Windows. */
  datatype FirewallError = ApplyingConnectedPolicy(policyError: FirewallPolicyError) | OtherFirewallError(id: nat)

  /** Causes of the error state; the variants this file does not build are
      not distinguished. */
  datatype ErrorStateCause =
    | IsOffline
    | SetFirewallPolicyError(policyError: FirewallPolicyError)
    | SetDnsError
    | OtherCause(id: nat)

  datatype AfterDisconnect = Nothing | Block(cause: ErrorStateCause) | Reconnect(retryAttempt: nat)

  /** The commands of this revision: `Connect` carries no parameters. */
  datatype TunnelCommand =
    | AllowLan(allowLan: bool)
    | BlockWhenDisconnected(blockWhenDisconnected: bool)
    | IsOffline(isOffline: bool)
    | Connect
    | Disconnect
    | Block(reason: ErrorStateCause)

  /** `Down` is the only tunnel event the connected state reacts to. */
  datatype TunnelEvent = Down | OtherTunnelEvent(id: nat)

  /** The connected policy; the Windows relay client and the Linux fwmark
      flag are not part of this model. */
  datatype FirewallPolicy = ConnectedPolicy(peerEndpoint: Endpoint, tunnel: TunnelMetadata, allowLan: bool)

  /** One call into the shared firewall, DNS monitor or route manager. */
  datatype Call =
    | SetAllowLan(allowLan: bool)
    | ApplyPolicy(policy: FirewallPolicy)
    | SetDns(interface: string, servers: seq<IpAddr>)
    | RouteExclusionsDns(interface: string, servers: seq<IpAddr>)
    | ResetDns
    | ClearDefaultRouteCallbacks
    | ClearRoutes

  /** What each effectful call returns when the handler makes it (each is
      made at most once per handler). The results of the DNS and route
      resets are only logged by the source, so they are not inputs. */
  datatype EffectResults = EffectResults(
    setAllowLan: Outcome<ErrorStateCause>,
    applyPolicy: Outcome<FirewallError>,
    setDns: Outcome<BoxedError>,
    routeExclusionsDns: Outcome<BoxedError>)

  datatype ConnectedState = ConnectedState(
    metadata: TunnelMetadata,
    tunnelParameters: TunnelParameters,
    tunnelCloseEvent: TunnelCloseEvent,
    closeHandle: Option<CloseHandle>)

  /** The state entered next, with the arguments its `enter` receives. */
  datatype NextState =
    | Disconnecting(closeHandle: Option<CloseHandle>, closeEvent: TunnelCloseEvent, afterDisconnect: AfterDisconnect)
    | ErrorState(cause: ErrorStateCause)
    | Connecting(retryAttempt: nat)

  datatype EventConsequence = NewState(next: NextState) | SameState(state: ConnectedState)

  datatype TunnelStateTransition = Connected(endpoint: Endpoint)

  /** What `enter` returns: a state entered through another state's `enter`,
      or the connected state itself with its transition. */
  datatype Entry = Entered(next: NextState) | EnteredConnected(state: ConnectedState, transition: TunnelStateTransition)

  /** The shared tunnel state values the handlers read and write. */
  class SharedValues {
    var allowLan: bool
    var blockWhenDisconnected: bool
    var isOffline: bool
    /** Every call made into the firewall, DNS monitor and route manager. */
    var calls: seq<Call>

    constructor (allowLan: bool, blockWhenDisconnected: bool, isOffline: bool)
      ensures this.allowLan == allowLan && this.blockWhenDisconnected == blockWhenDisconnected
      ensures this.isOffline == isOffline && calls == []
    {
      this.allowLan := allowLan;
      this.blockWhenDisconnected := blockWhenDisconnected;
      this.isOffline := isOffline;
      calls := [];
    }

    /** `set_allow_lan` is not part of this model: the model takes its result
        as a parameter and lets it store the flag. */
    method SetAllowLan(allowLan: bool, result: Outcome<ErrorStateCause>) returns (r: Outcome<ErrorStateCause>)
      modifies this`allowLan, this`calls
      ensures this.allowLan == allowLan && calls == old(calls) + [Call.SetAllowLan(allowLan)]
      ensures r == result
    {
      this.allowLan := allowLan;
      calls := calls + [Call.SetAllowLan(allowLan)];
      r := result;
    }
  }

  /** The DNS servers of the connected tunnel: the IPv4 gateway, then the
      IPv6 gateway when the tunnel has one. */
  function DnsServers(metadata: TunnelMetadata): (r: seq<IpAddr>)
    ensures 1 <= |r| <= 2 && r[0] == V4(metadata.ipv4Gateway)
    ensures |r| == 2 <==> metadata.ipv6Gateway.Some?
    ensures forall a :: a in r <==> a == V4(metadata.ipv4Gateway) || (a.V6? && metadata.ipv6Gateway == Some(a.v6))
  {
    var ipv4 := [V4(metadata.ipv4Gateway)];
    match metadata.ipv6Gateway
    case Some(ipv6) => ipv4 + [V6(ipv6)]
    case None => ipv4
  }

  /** The connected policy: the peer is the next hop, the tunnel is the
      connected tunnel, and LAN access follows the shared flag. The tunnel
      endpoint and the close event play no part in it. */
  function PolicyFor(state: ConnectedState, allowLan: bool): (p: FirewallPolicy)
    ensures p.peerEndpoint == state.tunnelParameters.nextHopEndpoint
    ensures p.tunnel == state.metadata && p.allowLan == allowLan
  {
    ConnectedPolicy(state.tunnelParameters.nextHopEndpoint, state.metadata, allowLan)
  }

  /** Two connected states with the same next hop and tunnel get the same
      policy, whatever their tunnel endpoints, close events and handles. */
  lemma PolicyIgnoresRest(a: ConnectedState, b: ConnectedState, allowLan: bool)
    requires a.tunnelParameters.nextHopEndpoint == b.tunnelParameters.nextHopEndpoint
    requires a.metadata == b.metadata
    ensures PolicyFor(a, allowLan) == PolicyFor(b, allowLan)
  {
  }

  /** The policy error reported for a firewall error: Windows passes a
      connected-policy error through, everything else becomes `Generic`. */
  function PolicyError(platform: Platform, error: FirewallError): (r: FirewallPolicyError)
    ensures r != Generic ==> platform == Windows && error == ApplyingConnectedPolicy(r)
    ensures platform == Windows && error.ApplyingConnectedPolicy? ==> r == error.policyError
  {
    if platform == Windows && error.ApplyingConnectedPolicy? then error.policyError else Generic
  }

  /** The calls `reset_routes` makes: clearing the routes comes last, after
      the default-route callbacks are cleared on Windows only. */
  function ResetRoutesCalls(platform: Platform): (r: seq<Call>)
    ensures TearsDown(r) && ResetDns !in r
    ensures ClearDefaultRouteCallbacks in r <==> platform == Windows
  {
    (if platform == Windows then [ClearDefaultRouteCallbacks] else []) + [ClearRoutes]
  }

  /** The calls `disconnect` makes: DNS first, then routes. */
  function DisconnectCalls(platform: Platform): (r: seq<Call>)
    ensures |r| >= 2 && r[0] == ResetDns && TearsDown(r)
    ensures ClearDefaultRouteCallbacks in r <==> platform == Windows
  {
    [ResetDns] + ResetRoutesCalls(platform)
  }

  /** Whether calls end by clearing the routes, as every way out of the
      connected state does. */
  predicate TearsDown(calls: seq<Call>) {
    calls != [] && calls[|calls| - 1] == ClearRoutes
  }

  /** The calls `set_dns` makes: the DNS monitor, then (on Linux, if that
      worked) the route exclusions for the same servers. */
  function SetDnsCalls(state: ConnectedState, platform: Platform, fx: EffectResults): (r: seq<Call>)
    ensures 1 <= |r| <= 2 && r[0] == SetDns(state.metadata.interface, DnsServers(state.metadata))
    ensures |r| == 2 <==> platform == Linux && fx.setDns.Pass?
    ensures |r| == 2 ==> r[1] == RouteExclusionsDns(r[0].interface, r[0].servers)
  {
    var servers := DnsServers(state.metadata);
    [SetDns(state.metadata.interface, servers)]
      + (if platform == Linux && fx.setDns.Pass? then [RouteExclusionsDns(state.metadata.interface, servers)] else [])
  }

  /** `set_dns` succeeds exactly when every call it makes succeeds, and
      otherwise reports the first failure. */
  function SetDnsResult(platform: Platform, fx: EffectResults): (r: Outcome<BoxedError>)
    ensures r.Pass? <==> fx.setDns.Pass? && (platform == Linux ==> fx.routeExclusionsDns.Pass?)
    ensures fx.setDns.Fail? ==> r == fx.setDns
    ensures fx.setDns.Pass? && r.Fail? ==> r == fx.routeExclusionsDns
  {
    if fx.setDns.Fail? then fx.setDns
    else if platform == Linux then fx.routeExclusionsDns
    else Pass
  }

  /** The consequence of `disconnect`: the disconnecting state, handed the
      close handle, the close event and what to do afterwards. */
  function DisconnectingFrom(state: ConnectedState, after: AfterDisconnect): EventConsequence {
    NewState(Disconnecting(state.closeHandle, state.tunnelCloseEvent, after))
  }

  method SetFirewallPolicy(state: ConnectedState, shared: SharedValues, platform: Platform, fx: EffectResults)
    returns (r: Outcome<FirewallPolicyError>)
    modifies shared`calls
    ensures shared.calls == old(shared.calls) + [ApplyPolicy(PolicyFor(state, shared.allowLan))]
    ensures r.Pass? <==> fx.applyPolicy.Pass?
    ensures r.Fail? ==> r.error == PolicyError(platform, fx.applyPolicy.error)
  {
    shared.calls := shared.calls + [ApplyPolicy(PolicyFor(state, shared.allowLan))];
    match fx.applyPolicy
    case Pass => r := Pass;
    case Fail(error) => r := Fail(PolicyError(platform, error));
  }

  method SetDnsServers(state: ConnectedState, shared: SharedValues, platform: Platform, fx: EffectResults)
    returns (r: Outcome<BoxedError>)
    modifies shared`calls
    ensures shared.calls == old(shared.calls) + SetDnsCalls(state, platform, fx)
    ensures r == SetDnsResult(platform, fx)
  {
    var servers := DnsServers(state.metadata);
    shared.calls := shared.calls + [SetDns(state.metadata.interface, servers)];
    if fx.setDns.Fail? {
      return fx.setDns;
    }
    if platform == Linux {
      shared.calls := shared.calls + [RouteExclusionsDns(state.metadata.interface, servers)];
      if fx.routeExclusionsDns.Fail? {
        return fx.routeExclusionsDns;
      }
    }
    r := Pass;
  }

  method ResetDnsMonitor(shared: SharedValues)
    modifies shared`calls
    ensures shared.calls == old(shared.calls) + [ResetDns]
  {
    shared.calls := shared.calls + [ResetDns];
  }

  method ResetRoutes(shared: SharedValues, platform: Platform)
    modifies shared`calls
    ensures shared.calls == old(shared.calls) + ResetRoutesCalls(platform)
  {
    if platform == Windows {
      shared.calls := shared.calls + [ClearDefaultRouteCallbacks];
    }
    shared.calls := shared.calls + [ClearRoutes];
  }

  /** Leaves the connected state: resets DNS, then routes, then enters the
      disconnecting state. */
  method Disconnect(state: ConnectedState, shared: SharedValues, platform: Platform, after: AfterDisconnect)
    returns (r: EventConsequence)
    modifies shared`calls
    ensures shared.calls == old(shared.calls) + DisconnectCalls(platform)
    ensures r == NewState(Disconnecting(state.closeHandle, state.tunnelCloseEvent, after))
  {
    ResetDnsMonitor(shared);
    ResetRoutes(shared, platform);
    r := DisconnectingFrom(state, after);
  }

  /** `handle_commands`; `None` is a closed command channel. */
  method HandleCommands(state: ConnectedState, command: Option<TunnelCommand>, shared: SharedValues,
                        platform: Platform, fx: EffectResults)
    returns (r: EventConsequence)
    modifies shared
    // A command either keeps the state as it is, or tears down and hands the
    // close handle and event to the disconnecting state.
    ensures r.SameState? ==> r.state == state
    ensures r.NewState? ==>
      && TearsDown(shared.calls) && r.next.Disconnecting?
      && r.next.closeHandle == state.closeHandle && r.next.closeEvent == state.tunnelCloseEvent
    // Only the command's own flag changes.
    ensures shared.allowLan == if command.Some? && command.value.AllowLan? then command.value.allowLan else old(shared.allowLan)
    ensures shared.blockWhenDisconnected ==
      if command.Some? && command.value.BlockWhenDisconnected? then command.value.blockWhenDisconnected
      else old(shared.blockWhenDisconnected)
    ensures shared.isOffline == if command.Some? && command.value.IsOffline? then command.value.isOffline else old(shared.isOffline)
    ensures match command
      case Some(AllowLan(allowLan)) =>
        if fx.setAllowLan.Fail? then
          && r == DisconnectingFrom(state, AfterDisconnect.Block(fx.setAllowLan.error))
          && shared.calls == old(shared.calls) + [SetAllowLan(allowLan)] + DisconnectCalls(platform)
        else if fx.applyPolicy.Pass? then
          && r == SameState(state)
          && shared.calls == old(shared.calls) + [SetAllowLan(allowLan), ApplyPolicy(PolicyFor(state, allowLan))]
        else
          && r == DisconnectingFrom(state, AfterDisconnect.Block(SetFirewallPolicyError(PolicyError(platform, fx.applyPolicy.error))))
          && shared.calls == old(shared.calls) + [SetAllowLan(allowLan), ApplyPolicy(PolicyFor(state, allowLan))] + DisconnectCalls(platform)
      case Some(BlockWhenDisconnected(_)) =>
        r == SameState(state) && shared.calls == old(shared.calls)
      case Some(IsOffline(isOffline)) =>
        if isOffline then
          r == DisconnectingFrom(state, AfterDisconnect.Block(ErrorStateCause.IsOffline))
          && shared.calls == old(shared.calls) + DisconnectCalls(platform)
        else
          r == SameState(state) && shared.calls == old(shared.calls)
      case Some(Connect) =>
        r == DisconnectingFrom(state, Reconnect(0)) && shared.calls == old(shared.calls) + DisconnectCalls(platform)
      case Some(Disconnect) =>
        r == DisconnectingFrom(state, Nothing) && shared.calls == old(shared.calls) + DisconnectCalls(platform)
      case None =>
        r == DisconnectingFrom(state, Nothing) && shared.calls == old(shared.calls) + DisconnectCalls(platform)
      case Some(Block(reason)) =>
        r == DisconnectingFrom(state, AfterDisconnect.Block(reason)) && shared.calls == old(shared.calls) + DisconnectCalls(platform)
  {
    match command
    case Some(AllowLan(allowLan)) =>
      var allowed := shared.SetAllowLan(allowLan, fx.setAllowLan);
      if allowed.Fail? {
        r := Disconnect(state, shared, platform, AfterDisconnect.Block(allowed.error));
      } else {
        var applied := SetFirewallPolicy(state, shared, platform, fx);
        match applied
        case Pass =>
          r := SameState(state);
        case Fail(error) =>
          r := Disconnect(state, shared, platform, AfterDisconnect.Block(SetFirewallPolicyError(error)));
      }
    case Some(BlockWhenDisconnected(blockWhenDisconnected)) =>
      shared.blockWhenDisconnected := blockWhenDisconnected;
      r := SameState(state);
    case Some(IsOffline(isOffline)) =>
      shared.isOffline := isOffline;
      if isOffline {
        r := Disconnect(state, shared, platform, AfterDisconnect.Block(ErrorStateCause.IsOffline));
      } else {
        r := SameState(state);
      }
    case Some(Connect) =>
      r := Disconnect(state, shared, platform, Reconnect(0));
    case Some(Disconnect) =>
      r := Disconnect(state, shared, platform, Nothing);
    case None =>
      r := Disconnect(state, shared, platform, Nothing);
    case Some(Block(reason)) =>
      r := Disconnect(state, shared, platform, AfterDisconnect.Block(reason));
  }

  /** `handle_tunnel_events`; `None` is the end of the tunnel's event stream. */
  method HandleTunnelEvents(state: ConnectedState, event: Option<TunnelEvent>, shared: SharedValues, platform: Platform)
    returns (r: EventConsequence)
    modifies shared`calls
    ensures event == Some(Down) || event == None ==>
      r == DisconnectingFrom(state, Reconnect(0)) && shared.calls == old(shared.calls) + DisconnectCalls(platform)
    ensures event.Some? && event.value != Down ==> r == SameState(state) && shared.calls == old(shared.calls)
  {
    match event
    case Some(OtherTunnelEvent(_)) =>
      r := SameState(state);
    case _ =>
      r := Disconnect(state, shared, platform, Reconnect(0));
  }

  /** `handle_tunnel_close_event`: with a block reason only the routes are
      reset and the error state is entered; without one DNS and routes are
      reset and the machine reconnects from attempt 0. */
  method HandleTunnelCloseEvent(state: ConnectedState, blockReason: Option<ErrorStateCause>, shared: SharedValues,
                                platform: Platform)
    returns (r: EventConsequence)
    modifies shared`calls
    ensures blockReason.Some? ==>
      r == NewState(ErrorState(blockReason.value)) && shared.calls == old(shared.calls) + ResetRoutesCalls(platform)
    ensures blockReason.None? ==>
      r == NewState(Connecting(0)) && shared.calls == old(shared.calls) + DisconnectCalls(platform)
    // Either way the routes are cleared last, and DNS is reset only without a reason.
    ensures TearsDown(shared.calls)
    ensures ResetDns in shared.calls[|old(shared.calls)|..] <==> blockReason.None?
  {
    if blockReason.Some? {
      ResetRoutes(shared, platform);
      return NewState(ErrorState(blockReason.value));
    }
    ResetDnsMonitor(shared);
    ResetRoutes(shared, platform);
    r := NewState(Connecting(0));
  }

  /** The block reason the close event delivers: a cancelled close channel
      counts as a close without a reason. */
  function CloseBlockReason(result: Result<Option<ErrorStateCause>, Canceled>): (r: Option<ErrorStateCause>)
    ensures r.Some? <==> result.Ok? && result.value.Some?
    ensures r.Some? ==> result == Ok(r)
  {
    match result
    case Ok(reason) => reason
    case Err(_) => None
  }

  /** Entering the connected state applies the firewall policy and then sets
      DNS; the first failure sends the machine to the disconnecting state,
      blocking with the matching cause. */
  method Enter(shared: SharedValues, bootstrap: ConnectedState, platform: Platform, fx: EffectResults)
    returns (e: Entry)
    modifies shared`calls
    ensures var policyCall := [ApplyPolicy(PolicyFor(bootstrap, shared.allowLan))];
      if fx.applyPolicy.Fail? then
        && e == Entered(Disconnecting(bootstrap.closeHandle, bootstrap.tunnelCloseEvent,
                                      AfterDisconnect.Block(SetFirewallPolicyError(PolicyError(platform, fx.applyPolicy.error)))))
        && shared.calls == old(shared.calls) + policyCall
      else if SetDnsResult(platform, fx).Fail? then
        && e == Entered(Disconnecting(bootstrap.closeHandle, bootstrap.tunnelCloseEvent, AfterDisconnect.Block(SetDnsError)))
        && shared.calls == old(shared.calls) + policyCall + SetDnsCalls(bootstrap, platform, fx)
      else
        && e == EnteredConnected(bootstrap, Connected(bootstrap.tunnelParameters.tunnelEndpoint))
        && shared.calls == old(shared.calls) + policyCall + SetDnsCalls(bootstrap, platform, fx)
  {
    var tunnelEndpoint := bootstrap.tunnelParameters.tunnelEndpoint;
    var policy := SetFirewallPolicy(bootstrap, shared, platform, fx);
    if policy.Fail? {
      return Entered(Disconnecting(bootstrap.closeHandle, bootstrap.tunnelCloseEvent,
                                   AfterDisconnect.Block(SetFirewallPolicyError(policy.error))));
    }
    var dns := SetDnsServers(bootstrap, shared, platform, fx);
    if dns.Fail? {
      return Entered(Disconnecting(bootstrap.closeHandle, bootstrap.tunnelCloseEvent, AfterDisconnect.Block(SetDnsError)));
    }
    e := EnteredConnected(bootstrap, Connected(tunnelEndpoint));
  }
}
