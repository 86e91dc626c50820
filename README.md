# Mullvad VPN: tunnel states, settings cells and CLI wait commands

This project models three parts of the Mullvad VPN app in Dafny and proves
properties of each model.

- **The connected and blocked states of the daemon's tunnel state machine.**
  The connected state reacts to commands, tunnel events and the tunnel's
  close event. It calls the firewall, the DNS monitor and the route manager
  in a fixed order, and it passes the close handle on when it disconnects.
  The blocked state is modelled as a single pure match.
- **The Android settings input cells.**
  - The generic `InputCell` holds the text field. Its validity check only
    colours the text. Losing focus submits the text.
  - In the app, the MTU cell and the custom DNS cell inherit from
    `InputCell`. The model uses composition instead: each of them holds an
    `InputCell` and installs its own check and submit handler on it.
  - The custom DNS service persists the chosen address in shared preferences
    and loads it again.
- **The CLI's `connect`, `disconnect` and `reconnect` commands with `--wait`.**
  With `--wait`, each command fetches the current tunnel state and may spawn
  the state listener. It then sends the command and joins the listener.

How effects are modelled:
- Calls into code that is not part of the core are recorded in a log (`calls`,
  `submitted`, `effects`). The values those calls return are parameters.
- The connected state's firewall, DNS and route results come in
  `EffectResults`.
- The CLI's RPC results come in `RpcResults`. The event stream is a finite
  sequence of receives.
- The address library (`InetAddressValidator.isValid`,
  `InetAddress.getByName` and `InetAddress.toString`) is a record of three
  function values, `Inet.AddressLibrary`.
- Kotlin's `trim`, `toIntOrNull` and `Int.toString` are written out in
  `KotlinText`. There, a 32-bit `Int` is the subset type `Int32`.
- The `#[cfg]` branches of the Rust code depend on a `Platform` parameter.

Modules, one per core file: `ConnectedState`, `BlockedState`,
`InputCellWidget`, `MtuCellWidget`, `CustomDnsCellWidget`,
`CustomDnsService`, `CliState`, `ConnectCmd`, `DisconnectCmd` and
`ReconnectCmd`. The shared helpers are `Wrappers`, `KotlinText`, `Inet` and
`CliRun`, the common shape of the three CLI commands.

Two details of the custom DNS service that the model keeps as the code has
them:
- Assigning the custom DNS address notifies the `onChange` listener first and
  persists second (`CustomDns.kt:18-21`).
- Loading the stored address validates the stored string as it is. It does
  not strip a leading '/' (`CustomDns.kt:34-42`). A stored "/::1" therefore
  loads as whatever the validator makes of "/::1", not as "::1".

## Model

| member | source | states |
|---|---|---|
| ConnectedState.SharedValues.SetAllowLan | talpid-core/src/tunnel_state_machine/connected_state.rs:151 | logs the call, stores the new allow-LAN flag and returns the given result |
| ConnectedState.DnsServers | talpid-core/src/tunnel_state_machine/connected_state.rs:95-98 | the IPv4 gateway comes first; the IPv6 gateway is second exactly when the tunnel has one; nothing else is listed |
| ConnectedState.PolicyError | talpid-core/src/tunnel_state_machine/connected_state.rs:62-76 | the result is `Generic` unless the platform is Windows and the error is a connected-policy error, whose policy error is passed through |
| ConnectedState.PolicyFor | talpid-core/src/tunnel_state_machine/connected_state.rs:79-92 | the peer is the next-hop endpoint, the tunnel is the connected tunnel's metadata, and LAN access follows the shared flag |
| ConnectedState.PolicyIgnoresRest | talpid-core/src/tunnel_state_machine/connected_state.rs:79-92 | two states with the same next hop and tunnel get the same policy, whatever their tunnel endpoint, close event and close handle |
| ConnectedState.SetDnsCalls | talpid-core/src/tunnel_state_machine/connected_state.rs:94-112 | the DNS monitor is set first with the gateway servers; the route exclusions for the same interface and servers follow exactly on Linux after a successful set |
| ConnectedState.SetDnsResult | talpid-core/src/tunnel_state_machine/connected_state.rs:94-112 | `set_dns` succeeds exactly when every call it makes succeeds, and otherwise reports the first failure |
| ConnectedState.ResetRoutesCalls | talpid-core/src/tunnel_state_machine/connected_state.rs:120-126 | clearing the routes comes last; the default-route callbacks are cleared only on Windows; DNS is not touched |
| ConnectedState.DisconnectCalls | talpid-core/src/tunnel_state_machine/connected_state.rs:128-135 | DNS is reset first and the routes are cleared last; the Windows-only call appears exactly on Windows |
| ConnectedState.SetFirewallPolicy | talpid-core/src/tunnel_state_machine/connected_state.rs:54-92 | applies the connected policy (next-hop endpoint, tunnel metadata, current allow-LAN flag); fails exactly when the firewall fails, with the platform's policy error |
| ConnectedState.SetDnsServers | talpid-core/src/tunnel_state_machine/connected_state.rs:94-112 | sets the gateways as DNS servers on the tunnel interface; on Linux, and only if that worked, excludes them from routing; returns the first failure |
| ConnectedState.ResetDnsMonitor | talpid-core/src/tunnel_state_machine/connected_state.rs:114-118 | resets DNS, whatever the result |
| ConnectedState.ResetRoutes | talpid-core/src/tunnel_state_machine/connected_state.rs:120-126 | makes exactly the route-reset calls for the platform |
| ConnectedState.Disconnect | talpid-core/src/tunnel_state_machine/connected_state.rs:128-140 | resets DNS, then routes, then enters the disconnecting state with the close handle, the close event and what follows |
| ConnectedState.HandleCommands | talpid-core/src/tunnel_state_machine/connected_state.rs:142-188 | per command: a failed allow-LAN change or a failed policy blocks with its cause; going offline blocks as offline; connect reconnects from attempt 0; disconnect and a closed channel disconnect; block blocks with its reason; otherwise the state is kept. Only the command's own flag changes; every departure clears the routes last |
| ConnectedState.HandleTunnelEvents | talpid-core/src/tunnel_state_machine/connected_state.rs:190-203 | a `Down` event or the end of the event stream disconnects and reconnects from attempt 0; any other event keeps the state and makes no call |
| ConnectedState.HandleTunnelCloseEvent | talpid-core/src/tunnel_state_machine/connected_state.rs:205-221 | with a block reason, only the routes are reset and the error state is entered; without one, DNS and routes are reset and the machine connects from attempt 0 |
| ConnectedState.CloseBlockReason | talpid-core/src/tunnel_state_machine/connected_state.rs:275-280 | a cancelled close channel counts as a close without a block reason |
| ConnectedState.Enter | talpid-core/src/tunnel_state_machine/connected_state.rs:229-261 | a policy failure goes to disconnecting with the policy error, skipping DNS; a DNS failure goes to disconnecting with the DNS error; otherwise the state is entered with a connected transition to the tunnel endpoint |
| BlockedState.Enter | talpid-core/src/tunnel_state_machine/blocked_state.rs:15-23 | entering yields the blocked wrapper and the blocked transition, not those of any other state, whatever the shared values |
| BlockedState.HandleEvent | talpid-core/src/tunnel_state_machine/blocked_state.rs:25-41 | connect goes to connecting with its parameters exactly; disconnect or a channel error goes to disconnected exactly; any other command keeps the state exactly |
| KotlinText.WhitespaceChars | android/src/main/kotlin/net/mullvad/mullvadvpn/ui/widget/MtuCell.kt:14 | `Char.isWhitespace`, as `trim` uses it, accepts exactly 28 listed characters; no digit or sign is whitespace |
| KotlinText.Trim | android/src/main/kotlin/net/mullvad/mullvadvpn/ui/widget/MtuCell.kt:14 | the result is the substring between a leading and a trailing run of whitespace, and it neither starts nor ends with whitespace |
| KotlinText.ToIntOrNull | android/src/main/kotlin/net/mullvad/mullvadvpn/ui/widget/MtuCell.kt:14 | a parsed value fits in a 32-bit `Int`; "", "-" and "+" are null |
| KotlinText.NatToString | android/src/main/kotlin/net/mullvad/mullvadvpn/ui/widget/MtuCell.kt:16 | a non-negative number prints as a non-empty string of decimal digits |
| KotlinText.IntToString | android/src/main/kotlin/net/mullvad/mullvadvpn/ui/widget/MtuCell.kt:16 | a printed `Int` is non-empty, starts with '-' exactly when negative, has only digits after the sign and no leading zero, neither for a non-negative value nor after the minus sign |
| KotlinText.DigitsOfNat | android/src/main/kotlin/net/mullvad/mullvadvpn/ui/widget/MtuCell.kt:16 | the printed digits of a number read back as that number |
| KotlinText.ParseIntToString | android/src/main/kotlin/net/mullvad/mullvadvpn/ui/widget/MtuCell.kt:13-17 | parsing the printed form of any `Int` gives that `Int` back |
| KotlinText.TrimUnchanged | android/src/main/kotlin/net/mullvad/mullvadvpn/ui/widget/MtuCell.kt:14 | a text that neither starts nor ends with whitespace trims to itself |
| KotlinText.TrimIntToString | android/src/main/kotlin/net/mullvad/mullvadvpn/ui/widget/MtuCell.kt:13-17 | the printed form of any `Int` trims to itself |
| KotlinText.IntToStringRoundTrip | android/src/main/kotlin/net/mullvad/mullvadvpn/ui/widget/MtuCell.kt:13-17 | printing any `Int` and parsing it back, trimmed or not, gives the same `Int` |
| InputCellWidget.Invocations | android/src/main/kotlin/net/mullvad/mullvadvpn/ui/widget/MtuCell.kt:57-61 | an optional callback is invoked at most once, and only when it is registered and the handler invokes it |
| InputCellWidget.InputCell.constructor | android/src/main/kotlin/net/mullvad/mullvadvpn/ui/widget/InputCell.kt:28-40 | a new cell has no focus, no validity check and no submit callback |
| InputCellWidget.InputCell.ColorFor | android/src/main/kotlin/net/mullvad/mullvadvpn/ui/widget/InputCell.kt:78-84 | the text is coloured valid exactly when there is no check or the check accepts it |
| InputCellWidget.InputCell.AfterTextChanged | android/src/main/kotlin/net/mullvad/mullvadvpn/ui/widget/InputCell.kt:78-84 | the text watcher sets the colour for the current text |
| InputCellWidget.InputCell.SetText | android/src/main/kotlin/net/mullvad/mullvadvpn/ui/widget/InputCell.kt:35-37 | setting the text runs the text watcher on the new text |
| InputCellWidget.InputCell.TypeKey | android/src/main/kotlin/net/mullvad/mullvadvpn/ui/widget/MtuCell.kt:43-46 | with the key listeners the cells install (digits here, and the address characters at CustomDnsCell.kt:41-43), a key is kept exactly when the key listener accepts it, and only a kept key changes the text and the colour |
| InputCellWidget.InputCell.SetIsValidInput | android/src/main/kotlin/net/mullvad/mullvadvpn/ui/widget/InputCell.kt:39 | sets the validity check |
| InputCellWidget.InputCell.SetSubmitHandler | android/src/main/kotlin/net/mullvad/mullvadvpn/ui/widget/InputCell.kt:40 | registers or clears the submit callback |
| InputCellWidget.InputCell.OnFocusChange | android/src/main/kotlin/net/mullvad/mullvadvpn/ui/widget/InputCell.kt:25-33 | the current text is submitted exactly when focus goes from true to false and a callback is registered |
| MtuCellWidget.MtuOf | android/src/main/kotlin/net/mullvad/mullvadvpn/ui/widget/MtuCell.kt:14 | the value getter yields an `Int` only for text that is not blank once trimmed |
| MtuCellWidget.TextOf | android/src/main/kotlin/net/mullvad/mullvadvpn/ui/widget/MtuCell.kt:15-17 | the value setter writes "" exactly for null, and a leading '-' exactly for a negative value |
| MtuCellWidget.IsValidMtuInput | android/src/main/kotlin/net/mullvad/mullvadvpn/ui/widget/MtuCell.kt:48-52 | an input is valid exactly when it trims to an `Int` in [1280, 1420] |
| MtuCellWidget.MtuSubmission | android/src/main/kotlin/net/mullvad/mullvadvpn/ui/widget/MtuCell.kt:54-62 | a valid input submits its MTU; exactly the empty input submits null; any other input submits nothing |
| MtuCellWidget.ValidIffInRange | android/src/main/kotlin/net/mullvad/mullvadvpn/ui/widget/MtuCell.kt:48-52 | a printed `Int` is valid exactly when it lies in [1280, 1420] |
| MtuCellWidget.ValueRoundTrip | android/src/main/kotlin/net/mullvad/mullvadvpn/ui/widget/MtuCell.kt:13-17 | setting `value` and reading it back gives the value set, null included |
| MtuCellWidget.FourDigits | android/src/main/kotlin/net/mullvad/mullvadvpn/ui/widget/MtuCell.kt:14 | a four-digit string reads as its positional decimal value |
| MtuCellWidget.SubmitInRange | android/src/main/kotlin/net/mullvad/mullvadvpn/ui/widget/MtuCell.kt:57-58 | "1400" submits 1400 |
| MtuCellWidget.SubmitOutOfRange | android/src/main/kotlin/net/mullvad/mullvadvpn/ui/widget/MtuCell.kt:57-61 | "9999" submits nothing |
| MtuCellWidget.SubmitBlank | android/src/main/kotlin/net/mullvad/mullvadvpn/ui/widget/MtuCell.kt:59-61 | "" submits null, but three spaces, which trim to "", submit nothing |
| MtuCellWidget.MtuCell.constructor | android/src/main/kotlin/net/mullvad/mullvadvpn/ui/widget/MtuCell.kt:42-62 | the cell accepts digit keys only, checks validity as the MTU range and registers its own submit handler |
| MtuCellWidget.MtuCell.SetMtuHandler | android/src/main/kotlin/net/mullvad/mullvadvpn/ui/widget/MtuCell.kt:19 | registers or clears the MTU callback |
| MtuCellWidget.MtuCell.GetValue | android/src/main/kotlin/net/mullvad/mullvadvpn/ui/widget/MtuCell.kt:14 | the value is the trimmed text parsed as an `Int` |
| MtuCellWidget.MtuCell.SetValue | android/src/main/kotlin/net/mullvad/mullvadvpn/ui/widget/MtuCell.kt:15-17 | writes the printed number, or "" for null, reads back as the value set, and recolours the text |
| MtuCellWidget.MtuCell.OnSubmitText | android/src/main/kotlin/net/mullvad/mullvadvpn/ui/widget/MtuCell.kt:54-62 | invokes the MTU callback as the submission rule says, when it is registered |
| MtuCellWidget.MtuCell.OnFocusChange | android/src/main/kotlin/net/mullvad/mullvadvpn/ui/widget/MtuCell.kt:54-62 | losing focus submits the text to the cell's handler, which passes the MTU on as the submission rule says |
| CustomDnsCellWidget.AcceptedCharsAreHexAndSeparators | android/src/main/kotlin/net/mullvad/mullvadvpn/ui/widget/CustomDnsCell.kt:41-43 | the accepted keys are exactly the hexadecimal digits of either case, '.' and ':' |
| CustomDnsCellWidget.DnsSubmission | android/src/main/kotlin/net/mullvad/mullvadvpn/ui/widget/CustomDnsCell.kt:48-54 | a valid literal submits its address; an invalid empty input submits null; any other invalid input submits nothing |
| CustomDnsCellWidget.CustomDnsCell.constructor | android/src/main/kotlin/net/mullvad/mullvadvpn/ui/widget/CustomDnsCell.kt:38-55 | the cell accepts exactly the listed keys, checks validity with the validator and registers its own submit handler |
| CustomDnsCellWidget.CustomDnsCell.SetDnsHandler | android/src/main/kotlin/net/mullvad/mullvadvpn/ui/widget/CustomDnsCell.kt:15 | registers or clears the DNS callback |
| CustomDnsCellWidget.CustomDnsCell.OnSubmitText | android/src/main/kotlin/net/mullvad/mullvadvpn/ui/widget/CustomDnsCell.kt:48-54 | invokes the DNS callback as the submission rule says, when it is registered |
| CustomDnsCellWidget.CustomDnsCell.OnFocusChange | android/src/main/kotlin/net/mullvad/mullvadvpn/ui/widget/CustomDnsCell.kt:48-54 | losing focus submits the text to the cell's handler, which passes the address on as the submission rule says |
| CustomDnsService.StripStartingSlash | android/src/main/kotlin/net/mullvad/mullvadvpn/service/CustomDns.kt:29 | a leading '/' is dropped, and only one; any other text is unchanged |
| CustomDnsService.RawAddress | android/src/main/kotlin/net/mullvad/mullvadvpn/service/CustomDns.kt:27-29 | null is written as ""; an address is written as its printed form, with at most one leading '/' dropped |
| CustomDnsService.Persisted | android/src/main/kotlin/net/mullvad/mullvadvpn/service/CustomDns.kt:25-32 | the address key holds the stripped printed address, or "" for null; every other key is unchanged |
| CustomDnsService.LoadCustomDns | android/src/main/kotlin/net/mullvad/mullvadvpn/service/CustomDns.kt:34-42 | an address is loaded exactly when the key is present and the validator accepts its string |
| CustomDnsService.StripExamples | android/src/main/kotlin/net/mullvad/mullvadvpn/service/CustomDns.kt:13 | "/::1" strips to "::1", "//x" to "/x", and "::1" stays |
| CustomDnsService.PersistThenLoad | android/src/main/kotlin/net/mullvad/mullvadvpn/service/CustomDns.kt:25-42 | reloading a persisted address gives the library's reading of the stripped text, whatever else is stored |
| CustomDnsService.RoundTrip | android/src/main/kotlin/net/mullvad/mullvadvpn/service/CustomDns.kt:25-42 | with a library that reads its stripped output back, an address survives a persist and a load |
| CustomDnsService.ClearThenLoad | android/src/main/kotlin/net/mullvad/mullvadvpn/service/CustomDns.kt:27-41 | a cleared address reloads as null when "" is not a valid literal |
| CustomDnsService.CustomDns.constructor | android/src/main/kotlin/net/mullvad/mullvadvpn/service/CustomDns.kt:16-18 | the initial address is the one loaded from the preferences, without a notification or a write |
| CustomDnsService.CustomDns.SetOnChange | android/src/main/kotlin/net/mullvad/mullvadvpn/service/CustomDns.kt:23 | registers or clears the change listener |
| CustomDnsService.CustomDns.Persist | android/src/main/kotlin/net/mullvad/mullvadvpn/service/CustomDns.kt:25-32 | writes the stripped current address under the address key |
| CustomDnsService.CustomDns.SetDnsServerAddress | android/src/main/kotlin/net/mullvad/mullvadvpn/service/CustomDns.kt:18-21 | every assignment stores the address, notifies a registered listener, then persists |
| CliState.Listen | mullvad-cli/src/state.rs:16-23 | the listener takes at most all receives, at least one from any non-empty stream, and an empty stream ends it with nothing printed |
| CliState.Step | mullvad-cli/src/state.rs:16-23 | after a receive that lets the loop go on, the run takes that receive and then the rest of the run, ending as the rest does; after any other receive it ends there, having printed at most that one state |
| CliState.StateListen | mullvad-cli/src/state.rs:10-27 | the loop prints, consumes and ends exactly as the listener specification says |
| CliState.TunnelStateMessagesAppend | mullvad-cli/src/state.rs:17-18 | the tunnel states among a concatenation are those of each part, in order |
| CliState.ListenPrintsTakenStates | mullvad-cli/src/state.rs:17-18 | what is printed is exactly the tunnel states among the receives taken, so a prefix of all the tunnel states in the stream |
| CliState.ListenContinuesBeforeLast | mullvad-cli/src/state.rs:16-23 | every receive before the last one taken let the loop go on |
| CliState.ListenEndsWithStream | mullvad-cli/src/state.rs:16 | the listener ends with the stream exactly when every receive let it go on, or a receive failed |
| CliState.ListenStopsAtRejectedState | mullvad-cli/src/state.rs:19-21 | a stop happens on a tunnel state the continue condition rejects, and that state is the last one printed |
| CliRun.Run | mullvad-cli/src/cmds/connect.rs:24-54 | the listener is spawned exactly when waiting, the state was fetched, the command listens from it and the event stream opened; the command is sent unless a fetch failed first, and then that fetch's error is returned; the command's error is returned or printed as the command chooses; a spawned listener is joined unless that error returned first; a panicked listener makes `run` panic |
| CliRun.Send | mullvad-cli/src/cmds/connect.rs:46-51 | the command is always sent; a returned error ends `run` before the join; otherwise the error is printed, a spawned listener is joined exactly, and its panic makes `run` panic |
| CliRun.JoinedStopRejected | mullvad-cli/src/state.rs:19-21 | a joined listener that stopped did so on a printed state its continue condition rejects |
| ConnectCmd.ListensFrom | mullvad-cli/src/cmds/connect.rs:31-41 | `connect` listens unless the tunnel is already connected |
| ConnectCmd.KeepWaiting | mullvad-cli/src/cmds/connect.rs:34-38 | waiting stops exactly on the connected state or an error state |
| ConnectCmd.RunConnect | mullvad-cli/src/cmds/connect.rs:24-54 | a failed connect is printed and `run` still returns Ok; a spawned listener is always joined; a stopped wait ended on the connected state or an error state |
| DisconnectCmd.ListensFrom | mullvad-cli/src/cmds/disconnect.rs:30-39 | `disconnect` listens unless the tunnel is already disconnected |
| DisconnectCmd.KeepWaiting | mullvad-cli/src/cmds/disconnect.rs:33-36 | waiting stops exactly on the disconnected state, and an error state does not stop it |
| DisconnectCmd.RunDisconnect | mullvad-cli/src/cmds/disconnect.rs:23-50 | a failed disconnect is returned before the listener is joined; otherwise a spawned listener is joined; a stopped wait ended on the disconnected state |
| ReconnectCmd.ListensFrom | mullvad-cli/src/cmds/reconnect.rs:37-54 | `reconnect` does not listen from the disconnected state or from an error state with a blocking error, and listens from every other state, including an error state without one |
| ReconnectCmd.KeepWaiting | mullvad-cli/src/cmds/reconnect.rs:47-51 | waiting stops exactly on the connected state or an error state |
| ReconnectCmd.RunReconnect | mullvad-cli/src/cmds/reconnect.rs:30-67 | a failed reconnect is printed and `run` still returns Ok; a spawned listener is always joined; a stopped wait ended on the connected state or an error state |

## Left out

- Logging (`log::error!`, `log::info!`, `log::warn!`) and the CLI's formatted state printing are left out. Printing is modelled as a log of the messages printed.
- The future polling of the connected state's `handle_event` is left out: the `select!` over commands, tunnel events and the close event. Each of the three branches is modelled as its own handler. `CloseBlockReason` models the `unwrap_or(None)` of the close branch.
- The blocked state's `try_handle_event!` polling macro is left out. A not-ready poll belongs to the macro, which is not part of this model.
- The firewall, the DNS monitor, the route manager and `set_allow_lan` are left out. The model takes their results as parameters. `ConnectedState.SharedValues.SetAllowLan` assumes that `set_allow_lan` stores the flag whether or not it fails.
- The Windows `relay_client` and Linux `use_fwmark` fields of the connected firewall policy are left out. They are computed from values that are not part of this model.
- The `enter` functions of the disconnecting, error and connecting states are left out. The model records only the arguments they receive.
- KotlinText.ToIntOrNull: it accepts ASCII digits only; Kotlin's `toIntOrNull` also accepts other Unicode decimal digits. The MTU cell's key listener admits only ASCII digits.
- InputCellWidget.InputCell.TypeKey: it models a key typed at the end of the text only. Cursor positions, pasting and deletion are left out.
- The MTU cell and the custom DNS cell hold an `InputCell` instead of inheriting from it. Their constructors install the validity check and the submit handler for good; only the flag `hasSubmitHandler` stays. In the app, other code can reassign the inherited `onSubmitText` or `isValidInput` of either cell, and the model does not capture that.
- The Android views, layout, colours and footer strings are left out, because they are presentation only.
- The address library (`InetAddressValidator`, `InetAddress.getByName`, `InetAddress.toString`) is not part of this model. It is a parameter, and properties that need its behaviour state it as a precondition.
- Committing shared preferences (`apply()`) is left out, because the write is asynchronous and goes to storage. The model's preferences are an in-memory map.
- Making the RPC client (`new_rpc_client`) and the RPC calls themselves are left out. Their results are parameters.
- The tokio task that runs the listener is left out, and so is the interleaving between the listener and the command. The listener's whole run is computed from the finite event sequence.
- DisconnectCmd.RunDisconnect: when the disconnect RPC fails after a listener was spawned, the model records the listener as not joined. What the detached task goes on printing is not modelled.
