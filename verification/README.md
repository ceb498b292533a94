# SSHCustom, verified

SSHCustom runs an SSH tunnel on an Android phone and steers the phone's traffic into it. A daemon written in Go
keeps one SSH client alive, offers it through a SOCKS5 listener, a transparent TCP listener and a UDP gateway, and
shell scripts install and remove the netfilter rules. This project models the parts of it that carry state or
move bytes and proves what they promise:

* **The tunnel engine** (`Backoff`, `TunClient`, `TunnelLoop`, `LoopDelays`, `Engine`, `EngineSteps`). The connection
  manager is a step machine over everything its environment can do: cancellation, ticks, results of connecting, the
  script's exit code. The class `TunnelLoop.Manager` runs it on fields, branch by branch; `LoopDelays` says when and
  how often it attempts and what it shows. `Engine` adds one keepalive goroutine per client and any number of stream
  handlers in every interleaving, and `EngineSteps` ties the methods of `TunClient` to their steps.
* **State notification** (`Notify`). The mutate/broadcast/subscribe protocol with its one-token channels.
* **Netfilter rules** (`Netfilter`, `NetScripts`, `NetForeign`, `NetShape`, `NetCapture`, `NetForwarded`, `NetHooks`,
  `NetLegacy`, `NetRestart`, `NetInserts`, `NetRuns`, `NetHistory`). Tables of ordered rules, the commands `-N -F -X
  -A -I -D` with their failures, first-match traversal with jumps and RETURN; on top the command lists of
  `ssh.iptables`, `net_clean.sh` and of the daemon itself, what they leave, what packets of the phone and of its
  hotspot's clients then meet, and whole histories of the daemon, command by command: starts and stops beside the
  loop's connect, panics, and kills at any point.
* **Byte streams** (`Streams`, `Udpgw`, `Socks5`, `Socks5Laws`, `BannerProbe`, `BannerLaws`). Connections that deliver
  arbitrary chunks and faults, writers that take only part; UDPGW frames, both sides of SOCKS5, the banner probe with
  its replay, the copy loop.
* **The UDPGW channel** (`UdpgwTunnel`). Its connection, reader and retry throttle.
* **Stores and transforms** (`Text`, `TextLaws`, `Transport`, `Profiles`, `ProfileLaws`, `ProfileStore`, `DnsCache`,
  `DnsLaws`, `Payload`, `PayloadLaws`). The profile file and its handlers, the resolver's cache, the payload template.

A module whose name ends in `Laws` says what the functions of its namesake mean, on texts and bytes put together from
their parts: so for every slug, status line and number, and for the usual forms of servers, templates and requests.

`dafny verify dfyconfig.toml` checks everything.

## How the code is represented

* A machine is a function `Step(state, event)` on a datatype, total by letting an event that is not enabled change
  nothing, and `After` folds it over any list of events. So a lemma about `After` speaks of every run and every
  interleaving. Where the code updates fields, a class beside the machine does the same in place, and its methods
  ensure that the view of the fields moves as `Step` says.
* What the daemon cannot know, such as the outcome of a dial, a timer or the kernel's support for TPROXY, is a
  parameter or an event.
* `cmd/sshcustomd/engine.go:329` receives a second time from a channel that is sent to once (293-294) and was
  received from already (303). `TunnelLoop.Step` takes the reading as a parameter: `Literal` keeps the second receive,
  `Intended` reuses the value of the first. Every invariant is proved for both; `TunnelLoop.LiteralLoopParks` shows that
  the literal loop never leaves that receive.
* `internal/dnsx/dnsx.go:143-145` says that server entries which are not IP addresses are rejected; the code keeps
  them, and so does the model. The daemon itself passes no servers and the mode "device"
  (cmd/sshcustomd/main.go:1781 and 1817), so the clashes of `DnsCache` arise only at the interface of that package.
* A stop cancels the loop, waits for it for five seconds at most and then cleans (cmd/sshcustomd/main.go:1337-1351). The
  scripts of a connect are not cancelled, so in `NetHistory` the two run beside each other, command by command.
* Some promises hold only under a condition. It is stated as an equivalence (`Udpgw.FrameRoundTrip`,
  `Socks5.ServerRoundTrip`, `BannerProbe.PlainKeepsMark`, `ProfileStore.WellFormedIffRoomy`, `DnsCache.KeysEqualIff`,
  `NetHistory.CleanAfterTimedOutStop`, `NetCapture.RedirectCoversTproxy`, `TunnelLoop.RoutingKeptUp`,
  `Engine.CountersTrueIffReloadsAgree`, `Payload.OrdersAgreeIff`), beside a case in which it fails
  (`BannerProbe.LosesTheMark`, `ProfileStore.FullStoreRepeatsAnId`, `DnsCache.BarsCanClash`, `DnsCache.CommasCanClash`,
  `NetHistory.TimedOutStopLeavesHooks`, `NetHistory.ProbeChainCanStay`,
  `Engine.CounterCanMissItsStream`, `Payload.OrdersCanDisagree`).
* A panic of the loop is recovered by its caller (cmd/sshcustomd/main.go:1282-1286) after the deferred teardown has run;
  it is an event that may come at any point.

## Model

| member | source | states |
|---|---|---|
| Notify.State.Broadcast | cmd/sshcustomd/main.go:256-266 | after a broadcast every registered channel holds a token, whether it held one before or not |
| Notify.State.Set | cmd/sshcustomd/main.go:227-232 | the new value is in place and every registered channel holds a token |
| Notify.State.Subscribe | cmd/sshcustomd/main.go:238-254 | a new empty channel is registered behind the others; no channel is ever registered twice |
| Notify.State.Cleanup | cmd/sshcustomd/main.go:243-252 | exactly this channel leaves the list, the order of the rest is kept, it is not in the list afterwards, and a cleanup of a channel that is not there changes nothing |
| Notify.BroadcastReachesAll | cmd/sshcustomd/main.go:256-266 | the sends of one broadcast, taken as steps of the protocol, set the token of exactly the registered channels they reached and nothing else |
| Notify.NoLostWakeUp | cmd/sshcustomd/main.go:227-266 | in every interleaving, a mutation a subscriber has not read yet is announced by a pending token, a token taken and not yet followed by a read, or a broadcast still on its way |
| Notify.QuietMeansCurrent | cmd/sshcustomd/main.go:984-991 | when nothing is in flight, a subscriber's last snapshot is the current state, unless nothing changed since it registered; `Notify.BecomesCurrent` says how every run gets there |
| Notify.TokenIsRead | cmd/sshcustomd/main.go:984-991 | in every run a waiting subscriber with a token takes it by one receive, and one snapshot later it waits again, without the token, with the current value and no mutation unread; no other channel changes |
| Notify.BecomesCurrent | cmd/sshcustomd/main.go:227-266 | from every run in which a registered, waiting subscriber has a mutation unread: once the broadcasts are finished, one receive and one snapshot make it current |
| Notify.MutationIsRead | cmd/sshcustomd/main.go:984-991 | in particular the value just set is what the next snapshot behind its broadcast holds |
| Notify.RegisterThenCleanup | cmd/sshcustomd/main.go:238-254 | in every run in which no broadcast is in progress a registration appends a fresh, empty channel, and its cleanup takes exactly it out again |
| Backoff.PositiveDelayClosedForm | cmd/sshcustomd/engine.go:375-384 | k failures from a delay d in 1..30 give min(30, d·2^k) |
| Backoff.ZeroDelayClosedForm | cmd/sshcustomd/engine.go:375-384 | k >= 1 failures from no delay give min(30, 2^(k-1)) |
| Backoff.AttemptRateBound | cmd/sshcustomd/engine.go:154-160 | in an unbroken run of failures attempt n begins no earlier than 30n-149 seconds, whatever each attempt takes |
| Backoff.RateBoundIsTight | cmd/sshcustomd/engine.go:213-215 | from the sixth attempt on attempt n begins at exactly that time if and only if every attempt before it fails at once |
| TunClient.TunClient.KeepAlive | cmd/sshcustomd/engine.go:64-104 | the client is killed if and only if two consecutive probes miss before its context ends; otherwise its flags stay |
| TunClient.TunClient.MarkDead | cmd/sshcustomd/engine.go:114-119 | the client is dead and closed afterwards, however often it is called |
| TunClient.DialStreamWithRetry | cmd/sshcustomd/engine.go:393-422 | at most one retry, on the client current by then and only if it is alive; a transport death marks the client it happened on and no other; the error returned is that of the last dial made |
| TunClient.OpenStream | cmd/sshcustomd/engine.go:530-553 | a handler up to its reply: the code is 0 exactly when one of the dials succeeds and a client is current afterwards, 5 exactly when both dials allowed fail, else 4; the counter of the client then current goes up with code 0 only; a death on the retry marks the first client too |
| TunClient.HandleStream | cmd/sshcustomd/engine.go:530-560 | when a handler has ended every counter is what it was before |
| TunnelLoop.Manager.TakeEvent | cmd/sshcustomd/engine.go:154-345 | the fields of the loop move exactly as the step machine says, for every event at every point |
| TunnelLoop.Manager.RunTeardown | cmd/sshcustomd/engine.go:136-152 | teardown stops the listeners and clears the pointer, and runs `disable` only if the context is alive and the rules are up |
| TunnelLoop.Manager.BringUpOnce | cmd/sshcustomd/engine.go:242-289 | listeners and rules are brought up only when no listener runs, and the rules count as up only if the script succeeded |
| TunnelLoop.Manager.Run | cmd/sshcustomd/engine.go:125-346 | running the object over any list of events ends in the state that the machine reaches |
| TunnelLoop.StepKeepsInv | cmd/sshcustomd/engine.go:154-345 | every step keeps what the loop knows about its client, its status fields and its channel |
| TunnelLoop.StepKeepsRouting | cmd/sshcustomd/main.go:1281-1287 | no step takes rules down or runs `disable`, except a recovered panic with the rules up and a live context; listeners stop only on return, and a loop that returned stays returned |
| TunnelLoop.ClientChanges | cmd/sshcustomd/engine.go:217-220 | a client comes into being only by authenticating and is given up only by closing it, after a loss or a cancellation, or by a panic |
| TunnelLoop.RoutingKeptUp | cmd/sshcustomd/engine.go:208-214 | in every run listeners start at most once, and rules once up stay up if and only if no panic comes while they are up and the context is alive; `disable` runs once in the runs with such a panic and never in the others |
| TunnelLoop.StatusCoherent | cmd/sshcustomd/engine.go:221-237 | at both wait points, while not cancelled, connected, authenticated, ready, one healthy client and a stored client are equivalent; when true the state shown is CONNECTED and the stored client is this iteration's |
| TunnelLoop.SecondReceiveIsEmpty | cmd/sshcustomd/engine.go:293-330 | waitDone as a one-slot channel whose one sender sends once: in every run of the loop as written the slot is empty and the sender done when the second receive is reached |
| TunnelLoop.LiteralLoopParks | cmd/sshcustomd/engine.go:327-330 | so from there nothing but a panic moves the loop, a cancelled context included, and the status goes on showing CONNECTED |
| TunnelLoop.LiteralLoopConnectsOnce | cmd/sshcustomd/engine.go:293-330 | as written, one run of the loop never authenticates a second client |
| TunnelLoop.IntendedLoopReconnects | cmd/sshcustomd/engine.go:303-345 | the loop that receives once can, in every run in which the end of its client was sent, give it up, report it and go on to wait for the next client |
| LoopDelays.DelayIsStreak | cmd/sshcustomd/engine.go:165-220 | in every run the delay is what its streak of failures amounts to: min(30, 2^(k-1)) after k >= 1 failures since the beginning, min(30, 2^k) since a success or a loss, min(30, 5·2^k) since a pause without a network |
| LoopDelays.DelayAfterFailures | cmd/sshcustomd/engine.go:208-215 | a fresh loop whose first k attempts fail waits min(30, 2^(k-1)) seconds before the next |
| LoopDelays.LoopRateBound | cmd/sshcustomd/engine.go:154-215 | in every run that has only failed so far attempt n begins no earlier than 30n-149 seconds, whatever each attempt takes, and from the sixth on exactly that much later than its attempts took |
| LoopDelays.LabelTells | cmd/sshcustomd/engine.go:161-345 | in every run the state shown tells why the loop waits, that it connects, or that it is connected |
| LoopDelays.CountersShown | cmd/sshcustomd/engine.go:221-345 | the counts shown: no stream and no reconnecting from a connection on, then the streams of the last tick; a loss shows that it reconnects, with nothing up |
| LoopDelays.FirstBringUpDecides | cmd/sshcustomd/engine.go:242-289 | in every run that has not returned listeners run exactly since its first bring-up, and the rules are up exactly if transparent proxying was on and the script succeeded then |
| LoopDelays.CancelEnds | cmd/sshcustomd/engine.go:298-302 | a loop cancelled in one of its selects returns with no listener and no client, and leaves the rules to its caller |
| LoopDelays.StopClearsThePointer | cmd/sshcustomd/main.go:1325-1336 | whatever the loop is doing, a stop takes the client out of the pointer |
| Engine.StepKeepsInv | cmd/sshcustomd/engine.go:64-120 | every step of loop, keepers, handlers and network keeps the invariant of the whole, and history only grows |
| Engine.DeadMarkingIsJustified | cmd/sshcustomd/engine.go:535-546 | the step that marks a client dead finds it already justified: two consecutive keepalive misses, a transport death on one of its own dials, or closed by the loop before |
| Engine.DeadIsForever | cmd/sshcustomd/engine.go:113-119 | dead never reverts, in any run |
| Engine.CounterCountsReloads | cmd/sshcustomd/engine.go:548-553 | in every interleaving the counter of a client is the number of streams being piped whose handler found this client when it loaded the pointer again after its dial |
| Engine.CountersTrueIffReloadsAgree | cmd/sshcustomd/engine.go:537-553 | the counters of all clients are the numbers of streams they carry if and only if every handler found the client again that it had dialled through |
| Engine.CounterCanMissItsStream | cmd/sshcustomd/engine.go:537-553 | a run in which they are not: the loop reconnects between dial and reload, and client 1 counts the stream that client 0 carries |
| Engine.GivenUpForACause | cmd/sshcustomd/engine.go:113-121 | the loop gives a client up only after a cancellation, a panic, the end of its transport, or a MarkDead by its keeper or a handler that two misses or a transport death on its own dial justified |
| Engine.DeathIsNoticed | cmd/sshcustomd/engine.go:293-303 | in every run its sender and one receive take a waiting loop out of its wait if and only if its client was closed or its transport ended; marking the client dead closes it |
| Engine.HandlersMark | cmd/sshcustomd/engine.go:404-422 | in every run a handler that met a transport death marks the client it dialled and then, as the caller does, the one it started with; marking closes that client and touches no other |
| Engine.KeepersEnd | cmd/sshcustomd/engine.go:71-104 | in every run a keeper that counted two misses kills its client and ends; any other ends, leaving the client as it is, if and only if the client is closed or the loop cancelled |
| Engine.CancelClosesTheClient | cmd/sshcustomd/engine.go:298-302 | a loop that is cancelled while it waits closes its client, clears the pointer and returns |
| Engine.LoopRunsTheMachine | cmd/sshcustomd/engine.go:125-346 | apart from when its sender may send, the loop within the whole runs as the loop machine does on its own events |
| EngineSteps.KeeperIsKeepAlive | cmd/sshcustomd/engine.go:64-104 | in every interleaving a keeper comes to kill its client exactly when the method KeepAlive kills it on the turns that the keeper saw |
| EngineSteps.HandlerFollows | cmd/sshcustomd/engine.go:530-560 | in every interleaving a handler stands where its own steps lead on what it saw |
| EngineSteps.HandlerIsOpenStream | cmd/sshcustomd/engine.go:530-553 | whatever it sees, those steps come to piping exactly when the method OpenStream grants the stream, are counted by the client of the last load, and mark dead the clients that OpenStream marks |
| NetScripts.Shell.CleanUp | src/module/scripts/ssh.iptables:11-45 | written out command by command, the nested loops of cleanup do what the list of its deletions does, in that order |
| NetScripts.Shell.CleanUpV4 | src/module/scripts/net_clean.sh:29-44 | likewise the nested loops of clean_v4 |
| NetScripts.Shell.CleanUpTcpTproxy | src/module/scripts/net_clean.sh:108-121 | likewise the loop of clean_tcp_tproxy |
| NetScripts.Shell.CleanNet | src/module/scripts/net_clean.sh:129-138 | net_clean is the disable pass followed by the second pass |
| NetScripts.Shell.EnableUdpTproxy | src/module/scripts/ssh.iptables:141-165 | written out command by command with its probe, its check and its two branches, enable_udp_tproxy fills the chain or drops it by what the kernel took |
| NetScripts.Shell.EnableTcpTproxyMode | src/module/scripts/ssh.iptables:90-139 | written out rule by rule, enable_tcp_tproxy runs the listed commands: both chains, their hooks, and the hotspot loop if asked for |
| NetScripts.Shell.EnableTcpRedirectMode | src/module/scripts/ssh.iptables:54-88 | likewise enable_tcp_redirect |
| NetScripts.Shell.EnableDnsMode | src/module/scripts/ssh.iptables:195-201 | likewise the DNS rules |
| NetScripts.Shell.InsertUdp | cmd/sshcustomd/engine.go:277-288 | likewise the insertions of the tunnel loop |
| NetScripts.Shell.EnableConf | src/module/scripts/ssh.iptables:167-201 | enabling cleans, probes the kernel, takes TPROXY or the REDIRECT fallback, then adds UDP and DNS |
| NetScripts.EnableIsItsCommands | src/module/scripts/ssh.iptables:167-201 | what `enable` does is the run of one flat list of commands, so that it can be cut off anywhere |
| NetForeign.RunKeepsForeign | src/module/scripts/ssh.iptables:11-201 | any list of the daemon's own commands keeps the rules that do not jump to an SSHC chain, in their order |
| NetForeign.CleaningKeepsForeign | src/module/scripts/net_clean.sh:29-44 | `disable` and net_clean keep every foreign rule of mangle and nat in order, on any kernel |
| NetForeign.EnableKeepsForeign | src/module/scripts/ssh.iptables:167-201 | so does `enable`, in both modes |
| NetForeign.GoInsertKeepsForeign | cmd/sshcustomd/engine.go:278-288 | so do the insertions of the tunnel loop |
| NetShape.EnableOnClean | src/module/scripts/ssh.iptables:167-201 | on a clean kernel `enable` leaves exactly the tables described, in TPROXY or in REDIRECT mode |
| NetRestart.EnableOnCleaned | src/module/scripts/ssh.iptables:178-192 | on what a completed net_clean leaves, an old probe chain included, `enable` does what it does on the clean kernel without that chain |
| NetShape.GoInsertRun | cmd/sshcustomd/engine.go:278-288 | the tunnel loop leaves SSHC_UDP filled anew and one more jump to it in front; without TPROXY support the chain lacks its last rule |
| NetCapture.ExactCapture | src/module/scripts/ssh.iptables:90-128 | in TPROXY mode a locally generated packet ends in the tunnel's listener if and only if it is TCP, not root's or marked from the start, not to a bypass address, outside both chains' ranges and not to a TCP, API, SOCKS or DNS port of the daemon |
| NetCapture.RootIsNeverMarked | src/module/scripts/ssh.iptables:116-128 | mangle OUTPUT marks no packet of root: it lets each one through as it came, with the mark only if it had it |
| NetCapture.ExactRedirect | src/module/scripts/ssh.iptables:54-88 | in the fallback a TCP packet is redirected if and only if it is not root's, not to a bypass address, outside the narrow ranges and not to the TCP port |
| NetCapture.RedirectCoversTproxy | src/module/scripts/ssh.iptables:73-128 | what TPROXY mode captures the fallback captures too, except exactly root's packets that carried the mark from the start; and what only the fallback captures are exactly the ranges and ports named |
| NetForwarded.ForwardedRedirect | src/module/scripts/ssh.iptables:54-88 | in the fallback a forwarded TCP packet is redirected to the tunnel's TCP port if and only if it is not for a reserved range, a bypass address or the daemon's TCP, API or SOCKS port; everything else passes |
| NetForwarded.ForwardedTproxy | src/module/scripts/ssh.iptables:90-165 | in TPROXY mode a forwarded TCP packet reaches the TCP socket if and only if it is not for such a range, address or port or the DNS port, and a UDP packet the UDP socket if and only if it is neither DNS nor for that port |
| NetForwarded.ForwardedUdpInFallback | cmd/sshcustomd/engine.go:277-288 | forwarded UDP in the fallback: the socket takes it if and only if the kernel takes TPROXY rules with a protocol, and it is neither DNS nor for that port |
| NetForwarded.ForwardedAlike | src/module/scripts/ssh.iptables:54-115 | both modes take the same forwarded TCP packets, up to those for the DNS port, which only the fallback takes |
| NetForwarded.ExactDns | src/module/scripts/ssh.iptables:195-201 | in both modes a packet of the phone is sent to the daemon's DNS port if and only if it is UDP to port 53 and not root's |
| NetHooks.SweepCounts | src/module/scripts/ssh.iptables:11-31 | the accounting law of cleaning: a hook is left as often as its copies outnumber the -D commands for it |
| NetHooks.FirstPassResult | src/module/scripts/net_clean.sh:131 | the first pass clears nat and leaves in mangle at most one jump to SSHC_UDP and the hotspot hooks |
| NetHooks.SecondPassResult | src/module/scripts/net_clean.sh:133-138 | the second pass takes the rest, but for the chain of enable's probe |
| NetHooks.NetCleanCleans | src/module/scripts/net_clean.sh:129-138 | on whatever a run of the daemon left, killed anywhere, net_clean leaves no jump to an SSHC chain in mangle or nat and no SSHC chain but SSHC_TPROBE: the result is clean if and only if that one was not left behind |
| NetLegacy.LegacyChainsGo | src/module/scripts/net_clean.sh:29-44 | a chain that an earlier release left in nat, hooked in any of its ways, is gone after net_clean |
| NetLegacy.CleanupUnhooks | src/module/scripts/ssh.iptables:11-25 | any hook to one of the five chains, in any form that cleanup names and with any interface of its list, is gone if it stood once |
| NetLegacy.RouteGoes | src/module/scripts/ssh.iptables:43-45 | the mark route goes with every cleanup and net_clean, whatever the kernel |
| NetInserts.OwnCounts | src/module/scripts/ssh.iptables:47-201 | over any list of own commands a hook stands at most as often as before plus the -I commands for it, and a chain is there only if it was or -N makes it |
| NetInserts.ConnectInserts | cmd/sshcustomd/engine.go:242-288 | all commands of a first connect together insert each hook at most as often as allowed |
| NetRuns.ConnectCounts | cmd/sshcustomd/engine.go:242-288 | one first connect on what a net_clean leaves leaves each hook at most as often as allowed; with TPROXY, SSHC_UDP is hooked twice |
| NetRuns.ConnectIsItsCommands | cmd/sshcustomd/engine.go:242-288 | a first connect is the run of one flat list of commands |
| NetRuns.CutConnectTable | cmd/sshcustomd/engine.go:242-288 | wherever that list is cut off each hook stands at most as often as allowed |
| NetRuns.ProbeStaysIff | src/module/scripts/ssh.iptables:181-192 | the chain of the probe is there after a cut if and only if the cut falls between its -N and its -X, or before the -N with the chain there already |
| NetRuns.FirstPassIsNotEnough | src/module/scripts/ssh.iptables:26-31 | after such a connect `disable` alone leaves one jump to SSHC_UDP, and the chain with it |
| NetHistory.ConnectAlone | cmd/sshcustomd/engine.go:242-288 | a first connect that nothing disturbs, taken command by command with its decisions, does what the functions above say |
| NetHistory.HooksNeverPileUp | cmd/sshcustomd/main.go:1242-1245 | over every history of starts, stops, connects, panics and kills, with a stop cleaning beside a connect in any interleaving, PREROUTING holds at most two jumps to SSHC_UDP and at most one copy of any other hook |
| NetHistory.ForeignRulesSurvive | src/module/scripts/net_clean.sh:101-121 | over every such history, from any kernel, the foreign rules of mangle and nat are those of the beginning, in order |
| NetHistory.ProbeChainIff | src/module/scripts/ssh.iptables:181-192 | over every such history SSHC_TPROBE is there if and only if a connect is between its -N and its -X, or the daemon was killed there and no connect has run that -X since |
| NetHistory.UndisturbedCallCleans | cmd/sshcustomd/main.go:1344-1351 | after any history, a start or a stop whose net_clean completes with no command of the loop in between leaves no jump to an SSHC chain and no such chain but that one; so the kernel is clean if and only if that one was not there |
| NetHistory.CleanAfterTimedOutStop | cmd/sshcustomd/main.go:1337-1351 | after any history, with the loop still connecting and no call in progress, as when the five seconds of a stop ran out: once the loop is through, the kernel is clean if and only if it was clean at that moment and the connect had run its last -N |
| NetHistory.TimedOutStopLeavesHooks | cmd/sshcustomd/main.go:1337-1351 | it happens: without a kill or a panic a stop cleans beside a connect, no SSHC_TPROBE is left, and hooks stay when the loop is gone |
| NetHistory.ProbeChainCanStay | src/module/scripts/net_clean.sh:129-138 | the probe's chain can stay: from every history in which a start goes ahead, a daemon killed within its probe finds the chain again after the next start |
| NetHistory.PanicDisables | cmd/sshcustomd/main.go:1281-1287 | in every history a panic of a loop that has its rules up and was not cancelled runs exactly `disable` |
| NetHistory.PanicRunsNothing | cmd/sshcustomd/engine.go:136-152 | a panic of one that was cancelled, or has no rules up, runs no command |
| NetHistory.NoStartAfterPanic | cmd/sshcustomd/main.go:1281-1287 | after a panic no start goes ahead, whatever is called, until the daemon is killed |
| NetHistory.PanicLeavesAJump | cmd/sshcustomd/engine.go:136-152 | in TPROXY mode that `disable` leaves one of the two jumps to SSHC_UDP, and its chain |
| Streams.Conn.ReadFull | cmd/sshcustomd/udpgw.go:41-57 | the buffer receives exactly the next n bytes, or the error tells a clean end from a cut; where faults come alone it succeeds if and only if n bytes come before the fault, whose error it reports otherwise |
| Streams.WriteAll | cmd/sshcustomd/main.go:2124-2140 | all bytes arrive in order, or exactly the prefix whose length is reported; it gives up at the first write that fails or takes nothing, and at no other, a short one included |
| Streams.Pump | cmd/sshcustomd/main.go:2045-2074 | one direction delivers what it reads, in order and without a gap; it ends with its source exactly if no write failed or took nothing, and has then delivered all that came before the source's first fault |
| Udpgw.PutUint16 | cmd/sshcustomd/udpgw.go:24-33 | the shifted byte and the truncated byte are the big-endian bytes of the number modulo 65536 |
| Udpgw.PackUdpgw | cmd/sshcustomd/udpgw.go:23-38 | the buffer filled in place is the frame of the datagram |
| Udpgw.ReadUdpgwFrame | cmd/sshcustomd/udpgw.go:40-59 | under any chunking the frame read is the one the stream begins with, the stream is left right behind it, and every error is that of the stream |
| Udpgw.PackLength | cmd/sshcustomd/udpgw.go:23-38 | the 16-bit length is the true one if and only if header and payload stay below 65536 bytes, so for every payload up to 65507 |
| Udpgw.FrameRoundTrip | cmd/sshcustomd/udpgw.go:23-59 | a frame read back is the datagram packed, if and only if its address is IPv4, its port 16-bit and its payload at most 65507 bytes |
| Udpgw.WireFormat | cmd/sshcustomd/udpgw.go:23-38 | the bytes on the wire: length, type 1, four bytes of address, port, payload, high bytes first; zeros for an address that is not IPv4 |
| Udpgw.ParseInverts | cmd/sshcustomd/udpgw.go:40-59 | a stream is read as a datagram if and only if it starts with that datagram's frame and the format carries it, so each frame has one reading and each reading one frame |
| Udpgw.RefusedIff | cmd/sshcustomd/udpgw.go:40-59 | each refusal with its exact condition on the bytes: length outside 7 to 65514, an end inside the frame, a type other than 1; a plain end between frames and right behind a length |
| Udpgw.StreamRoundTrip | cmd/sshcustomd/udpgw.go:131-155 | every list of such datagrams comes back in order and the reader stops at the very end |
| Udpgw.StreamOverChunks | cmd/sshcustomd/udpgw.go:131-155 | the same over a connection, under any chunking |
| UdpgwTunnel.Gateway.DialUp | cmd/sshcustomd/udpgw.go:91-129 | a call reports success exactly when a live connection is held, and the fields move as the machine says |
| UdpgwTunnel.Gateway.EndReader | cmd/sshcustomd/udpgw.go:131-140 | the end of a reader drops the connection and marks the channel dead |
| UdpgwTunnel.Gateway.Run | cmd/sshcustomd/udpgw.go:91-230 | dials, ends of readers and Close on the object, over any list of events, end in the state that the machine reaches |
| UdpgwTunnel.OneReaderPerConnection | cmd/sshcustomd/udpgw.go:91-140 | in every run before Close a held connection has exactly its own reader and no connection has none; a dead channel holds no connection |
| UdpgwTunnel.RetriesAreSpaced | cmd/sshcustomd/udpgw.go:99-103 | after a failed dial the next attempt starts at least 30 s after the failed one started |
| UdpgwTunnel.DialsIffDue | cmd/sshcustomd/udpgw.go:91-112 | in every run a call with a live client dials if and only if no connection is held and the last attempt did not fail within the last 30 s, and brings a connection exactly if the channel opens before Close; a call without one changes nothing |
| UdpgwTunnel.RetryComes | cmd/sshcustomd/udpgw.go:99-112 | thirty seconds of waiting are always enough for a call to dial again |
| UdpgwTunnel.ReaderEndDropsIt | cmd/sshcustomd/udpgw.go:131-140 | in every run a reader that ends takes its connection with it |
| UdpgwTunnel.ClosedHoldsNothing | cmd/sshcustomd/udpgw.go:222-230 | in every run nothing is held after Close, whatever is called |
| UdpgwTunnel.ConnectionsAreNew | cmd/sshcustomd/udpgw.go:112-129 | a connection that a call brings was not held at any time before |
| Socks5.Handshake | cmd/sshcustomd/main.go:1963-2030 | whatever the chunks, wherever a fault comes and whether or not the client takes replies, the outcome, the bytes consumed and the replies are those of the byte-level reading, every access within the 262-byte buffer; only where an error may come with the last byte asked for can the error itself differ. What that reading is, byte by byte, say the rows of `Socks5Laws` |
| Socks5.TargetStands | cmd/sshcustomd/main.go:1963-2025 | a target means that the client takes replies and the whole request came before any fault; no fault and no byte behind it changes it |
| Socks5.ReadConnectReply | cmd/sshcustomd/main.go:3020-3053 | the client consumes exactly the server's reply, address included, or reports why not, faults included |
| Socks5.DialThrough | cmd/sshcustomd/main.go:2974-3004 | no error exactly when the reading of the server's bytes connects: greeting and request have been sent in turn and the stream stands at the first payload byte; otherwise the error of that reading, of the fault or of the write |
| Socks5.ServerRoundTrip | cmd/sshcustomd/main.go:1963-2025 | the server reads the client's host and port back and leaves the payload untouched, if and only if the host has 1 to 255 bytes (the client refuses longer ones) and the port fits 16 bits |
| Socks5.ClientRoundTrip | cmd/sshcustomd/main.go:3020-3053 | the client accepts the server's replies exactly when the code is success, and leaves the payload untouched |
| Socks5.TwoParties | cmd/sshcustomd/main.go:2974-3004 | client and server, joined under any chunking, agree on host and port, each leaving the other's payload whole |
| Socks5Laws.RawRoundTrip | cmd/sshcustomd/main.go:1963-2025 | for all methods offered, every four bytes under type 1, every sixteen under type 4 and every 16-bit port come back exactly; the payload behind the request is left whole and 05 00 is written |
| Socks5Laws.RefusalsIff | cmd/sshcustomd/main.go:1984-2010 | behind every greeting and complete header the reply is code 7 exactly for a command other than 1, code 8 exactly for another type than 1, 3 or 4 with command 1, and none otherwise |
| Socks5Laws.BadVersions | cmd/sshcustomd/main.go:1963-1990 | another version than 5, in greeting or request, and a greeting without methods are refused, with nothing written for the part at fault |
| Socks5Laws.AnyBoundAddress | cmd/sshcustomd/main.go:3020-3053 | the client accepts a reply exactly if its code is 0, with a bound address of each form, and stops at the first payload byte; another code is the error it reports |
| Socks5Laws.DialRefuses | cmd/sshcustomd/main.go:2974-3004 | it gives up on any answer to its greeting but 05 00, and on a host of more than 255 bytes |
| BannerProbe.ReadProbe | cmd/sshcustomd/main.go:1904-1935 | the probe takes a prefix of the peer's stream, nothing is lost between it and what follows, and without faults only the mark, the end or 64 KiB end it; a shorter stream without the mark is read up to its fault, and an error other than a timeout or an end is a failure |
| BannerProbe.ReadUntilProbed | cmd/sshcustomd/main.go:1904-1935 | the loop of the probe, for every chunking, fault and time limit, ends where the recursive reading does |
| BannerProbe.ProbeKeepsStream | cmd/sshcustomd/main.go:1904-1935 | that reading gives back what it took: probe and rest make up the stream |
| BannerProbe.FirstInPrefix | cmd/sshcustomd/main.go:1608-1612 | a mark found in the probe is the first of the whole stream |
| BannerProbe.BannerIffMark | cmd/sshcustomd/main.go:2570-2585 | a banner is extracted if and only if the probe contains the mark, so the two conditions for replaying are one |
| BannerLaws.BannerIsTheLine | cmd/sshcustomd/main.go:2570-2585 | the banner is the line that begins with the first mark, up to CR LF or else LF, and at most 120 bytes without a line end |
| BannerProbe.ExtractHttpStatuses | cmd/sshcustomd/main.go:2553-2568 | the loop over the lines yields the status numbers of those that announce one, in order |
| BannerProbe.AllowedStatuses | cmd/sshcustomd/main.go:2587-2602 | no statuses, no list, or every status in the list |
| BannerLaws.StatusIsSecondWord | cmd/sshcustomd/main.go:2553-2568 | a line announces the number that its second word is, if its first begins with HTTP/, whatever spaces are around and between; any other line of two words announces nothing |
| BannerLaws.ShortLinesAnnounceNothing | cmd/sshcustomd/main.go:2561-2565 | nor does a line of one word or none |
| BannerLaws.AtoiInverts | cmd/sshcustomd/main.go:2562 | the number read is the one written, with either sign, as far as 64 bits go |
| BannerLaws.AtoiTakesDigits | cmd/sshcustomd/main.go:2562 | and nothing is read as a number but digits behind at most one sign |
| BannerLaws.LinesSplit | cmd/sshcustomd/main.go:2555 | the lines have no line feed and make up the text with line feeds between them |
| BannerLaws.StatusesLineByLine | cmd/sshcustomd/main.go:2553-2568 | a text announces what its first line does, followed by what the rest does |
| BannerProbe.Judge | cmd/sshcustomd/main.go:1603-1633 | a replay exactly if no status is disallowed and the probe holds the mark; going on plainly exactly if no status is disallowed, there is one, and no mark |
| BannerProbe.PrefixConn.Read | cmd/sshcustomd/main.go:1485-1495 | never a byte lost, repeated or reordered, for every buffer size: from the prefix as much as fits, and behind it exactly what a read of the connection takes and reports |
| BannerProbe.Prepare | cmd/sshcustomd/main.go:1594-1633 | the connection is replayed exactly when the probe was read, holds no disallowed status and holds the mark, and then begins at the stream's first mark; it goes on plainly exactly with statuses, all allowed, and no mark; else it is rejected |
| BannerProbe.ProbeThenRead | cmd/sshcustomd/main.go:1608-1612 | for every chunking and all buffer sizes, what is read after such a probe is the peer's stream from its first mark on, and all of it once there are as many reads, with room in their buffers, as chunks and bytes |
| BannerProbe.PlainKeepsMark | cmd/sshcustomd/main.go:1613-1628 | whatever the peer sends later, going on without a replay keeps the stream's first mark if and only if the probe does not end in "S", "SS" or "SSH" |
| BannerProbe.LosesTheMark | cmd/sshcustomd/main.go:1613-1628 | it happens: an allowed "HTTP/1.1 200 OK" whose probe is cut off at "SS" goes on plainly, and the mark that "H-2.0" completes is never seen |
| Text.Slugify | cmd/sshcustomd/main.go:2453-2470 | the loop computes the slug |
| Text.SlugIsSlug | cmd/sshcustomd/main.go:2453-2470 | a slug holds only letters, digits and single inner dashes |
| Text.SlugTwice | cmd/sshcustomd/main.go:2453-2470 | slugify is idempotent |
| TextLaws.SlugOfParts | cmd/sshcustomd/main.go:2453-2470 | with `TextLaws.SlugOfWord`, what the slug of any text is: letters and digits in lower case, and each gap of whatever else, however long, one dash between two that are not empty |
| TextLaws.SlugOfWord | cmd/sshcustomd/main.go:2453-2470 | a word of letters and digits is its own slug in lower case |
| TextLaws.LowerCase | cmd/sshcustomd/main.go:2454 | what lower case is: a to z for A to Z, i and k for the dotted capital I and the Kelvin sign, every other character itself |
| TextLaws.ItoaValue | cmd/sshcustomd/main.go:2445 | a number is written in decimal notation, without leading zeros |
| Transport.BuildTransport | cmd/sshcustomd/main.go:2370-2430 | the local updates build the transport described |
| Transport.ChainIsMode | cmd/sshcustomd/main.go:2613-2618 | a built chain names the proxy and TLS exactly when the mode has them |
| Transport.BuiltDials | cmd/sshcustomd/main.go:1720-1734 | a built transport always has an endpoint, and TLS settings when it needs them: the proxy's if the mode has one, else the server's, and never port 80 under TLS through a proxy |
| Transport.GivenIsDialled | cmd/sshcustomd/main.go:2370-2430 | the proxy host and port of a request are the ones dialled, the server's where it gives none, and 443 for 80 under TLS through a proxy |
| Transport.GivenIsKept | cmd/sshcustomd/main.go:2370-2430 | server name, ALPN, connect method, fallback addresses, template, timing and allowed statuses of a request are kept, with the defaults of the mode only where there is none |
| Transport.ChainOfMode | cmd/sshcustomd/main.go:2370-2430 | the links of the chain for each of the four modes, in order, with and without a payload |
| Transport.BuildTwice | cmd/sshcustomd/main.go:2370-2430 | building again from what was built changes nothing |
| Profiles.ProfilesFile.SelectProfileById | cmd/sshcustomd/main.go:2277-2294 | exactly the profiles with the trimmed id are flagged; an unknown id is an error that has cleared the flags |
| Profiles.ProfilesFile.Selected | cmd/sshcustomd/main.go:385-402 | the profile with the selected id, else the first flagged one, else the first, else none |
| Profiles.ProfilesFile.UniqueProfileId | cmd/sshcustomd/main.go:2432-2451 | the base, else the first free suffix from 2 to 9999, else the clock |
| Profiles.ProfilesFile.UpsertProfile | cmd/sshcustomd/main.go:2296-2353 | validation first, then replacement in place or appending, then selection; errors change nothing |
| Profiles.ProfilesFile.DeleteProfile | cmd/sshcustomd/main.go:801-817 | every profile with the id goes, the order of the rest is kept, and a selection of it is cleared |
| ProfileLaws.ModeIsItsName | cmd/sshcustomd/main.go:2355-2368 | an accepted mode goes through the proxy exactly if "http" occurs in it and over TLS exactly if "sni" or "tls" does; a canonical mode is itself |
| ProfileLaws.ModeIsTrimmed | cmd/sshcustomd/main.go:2356 | capitals and spaces around a mode make no difference |
| ProfileLaws.FreshIsFirst | cmd/sshcustomd/main.go:2432-2451 | a new profile takes the slug of its name or "profile", else the first free suffix from -2 to -9999, else the clock |
| ProfileLaws.SelectedIsUsed | cmd/sshcustomd/main.go:385-402 | what is selected is the profile in use, and flags and id say so |
| ProfileLaws.FlagThenFirst | cmd/sshcustomd/main.go:391-402 | without it the first flagged profile is used, without a flag the first of all |
| ProfileLaws.RefusedIff | cmd/sshcustomd/main.go:2277-2320 | a save is refused exactly if it lacks a host, a port from 1 to 65535, a user or a mode, a selection or deletion if it names nothing or nobody; then nothing changes, but for the flags that a failed selection clears |
| ProfileLaws.NewProfileIsStored | cmd/sshcustomd/main.go:2321-2348 | a save of a new profile appends exactly what the request gives: host, port, user, password, and the built transport |
| ProfileLaws.EditedProfileIsStored | cmd/sshcustomd/main.go:2321-2348 | a save with the id of a profile replaces the first that has it by what the request gives, a new password included, and keeps the old password only if the request has none |
| ProfileLaws.SaveSelectsIff | cmd/sshcustomd/main.go:2349-2352 | the selected id after a save is its profile's if it asks for that or none was selected, and else stays |
| ProfileLaws.DeleteTakesOne | cmd/sshcustomd/main.go:801-817 | deleting takes the profile out from between its neighbours, with a selection of it and no other |
| ProfileStore.Daemon.SaveProfiles | cmd/sshcustomd/main.go:2264-2275 | the file is the new one if both the write and the rename succeed, else the former one |
| ProfileStore.Daemon.Handle | cmd/sshcustomd/main.go:757-768 | load, edit, save, remember: a failure at any point leaves file and memory as they were |
| ProfileLaws.HandledIff | cmd/sshcustomd/main.go:757-822 | a handler answers without an error exactly if nothing fails and the edit is valid, and then file and copy are the edited file; else nothing changes and the error says what failed |
| ProfileStore.FreshIffRoom | cmd/sshcustomd/main.go:2432-2451 | the id chosen is unused if and only if the base, a suffix or the clock's candidate is free |
| ProfileStore.SmallStoreHasRoom | cmd/sshcustomd/main.go:2444-2449 | with fewer profiles than there are different answers, 9999 or 10000 by the clock, the id chosen is unused |
| ProfileStore.FullStoreRepeatsAnId | cmd/sshcustomd/main.go:2450 | with as many, whatever the clock says, some well-formed store makes the next create repeat an id |
| ProfileStore.SelectKeeps | cmd/sshcustomd/main.go:2277-2294 | a successful selection leaves a well-formed file with that id selected |
| ProfileStore.MissedSelectSpoilsTheCopy | cmd/sshcustomd/main.go:2283-2291 | the copy left by a failed selection is well-formed only if nothing was selected |
| ProfileStore.DeleteKeeps | cmd/sshcustomd/main.go:798-822 | a deletion keeps the file well-formed and no profile with the id remains |
| ProfileStore.UpsertKeeps | cmd/sshcustomd/main.go:2296-2353 | a save keeps the file well-formed if and only if there is room for the id it needs |
| ProfileStore.SaveThenResave | cmd/sshcustomd/main.go:2296-2353 | saving what a save stored, unedited, changes nothing |
| ProfileStore.SaveTouchesOneProfile | cmd/sshcustomd/main.go:2332-2348 | a save alters no other profile but its flag, and an empty password keeps the stored one |
| ProfileStore.AlwaysWellFormed | cmd/sshcustomd/main.go:757-822 | over every run of handlers with failures anywhere in which creates find room: unique non-empty ids, a selected id that exists, flags on exactly that profile, memory equal to the file, and the tunnel uses the selected profile or else the first |
| ProfileStore.WellFormedIffRoomy | cmd/sshcustomd/main.go:757-822 | the file is well-formed at every point of a run if and only if every create of the run finds room |
| ProfileStore.SmallRunsStayWellFormed | cmd/sshcustomd/main.go:2432-2451 | so while every create meets fewer profiles than there are answers for its name, the file is well-formed at every point of the run |
| ProfileStore.AlwaysDialable | cmd/sshcustomd/main.go:1544-1568 | over every run no stored profile makes the connect path miss an endpoint, a proxy or a TLS setting |
| DnsCache.NormalizeServers | internal/dnsx/dnsx.go:146-163 | the loop computes the normalised list |
| DnsCache.NormalizedIsTheSet | internal/dnsx/dnsx.go:146-163 | the list holds each server named in any entry once and nothing else |
| DnsLaws.FirstNamedFirst | internal/dnsx/dnsx.go:146-163 | in the order in which they are first named |
| DnsLaws.PortIsKept | internal/dnsx/dnsx.go:152-156 | a host with a port is kept |
| DnsLaws.BracketedPortIsKept | internal/dnsx/dnsx.go:152-156 | so is an address in brackets with a port |
| DnsLaws.HostGetsPort | internal/dnsx/dnsx.go:152-156 | a bare host gets port 53 |
| DnsLaws.AddressGetsBrackets | internal/dnsx/dnsx.go:152-156 | an address with two colons or more and no brackets gets brackets and port 53 |
| DnsLaws.SpacesAreDropped | internal/dnsx/dnsx.go:149-151 | spaces around a server make no difference, and nothing but spaces names none |
| DnsCache.HostCache.ResolveHost | internal/dnsx/dnsx.go:88-117 | an unexpired entry is returned and nothing changes; otherwise the first source that answers is returned and stored for five minutes |
| DnsCache.HostCache.EvictHost | internal/dnsx/dnsx.go:122-141 | deleting while iterating in any order removes exactly the keys with the host's suffix |
| DnsCache.JoinsEqualIff | internal/dnsx/dnsx.go:165-168 | two server lists have the same text in a key if and only if their names, cut at commas, give the same pieces |
| DnsCache.KeysEqualIff | internal/dnsx/dnsx.go:165-168 | for modes without bars: two keys are equal if and only if mode, joined servers and host are, or one host goes on, with a bar, as the other's joined servers do; commas and bars in servers included |
| DnsCache.KeysAreInjective | internal/dnsx/dnsx.go:165-168 | so with no bar in the hosts, or none in the servers, keys are equal if and only if mode, host and the pieces of the servers between commas are; where no server has a comma the server lists are equal then |
| DnsCache.DaemonKeysAreInjective | cmd/sshcustomd/main.go:1781 | under the configuration that the daemon always passes a key determines its host, whatever the host |
| DnsCache.BarsCanClash | internal/dnsx/dnsx.go:165-168 | with bars in both it does not: under one mode a host without servers, "a:53", a bar and "b", shares its key with the host "b" under the one server that is a bar and "a" |
| DnsCache.CommasCanClash | internal/dnsx/dnsx.go:146-168 | with commas and no bar lists can share a key: under every mode and host one entry with a comma and two entries that make the same text |
| DnsCache.CacheIsByTriple | internal/dnsx/dnsx.go:88-101 | for modes and hosts without bars and any servers: after any history of stores and evictions the string-keyed map holds exactly the answer last stored for each mode, pieces of the servers between commas, and host |
| DnsCache.HitIsLastStored | internal/dnsx/dnsx.go:96-100 | an unexpired hit is that answer, anything else a miss |
| DnsLaws.AnswersLast | internal/dnsx/dnsx.go:88-117 | under every configuration an answer is given again, marked as cached, until 300 s after it was stored and no longer, however the host is written |
| DnsLaws.HostIsNormalized | internal/dnsx/dnsx.go:89 | spaces around a host and capitals in it make no difference |
| DnsCache.EvictIsByHost | internal/dnsx/dnsx.go:130-137 | an entry goes if and only if its host, after its last bar, is the evicted one |
| DnsCache.EvictThenMiss | internal/dnsx/dnsx.go:119-141 | after an eviction every look for the host misses, under every configuration and at any time, until something is stored for it or for a host that ends in a bar and it |
| Payload.RenderPayload | cmd/sshcustomd/main.go:2527-2551 | the result is that of replacing in some order of the keys, and for a clean template and no brackets in the values it uses the simultaneous substitution |
| Payload.ReplaceExtendsSubst | cmd/sshcustomd/main.go:2547-2549 | one more replacement extends the simultaneous substitution by one placeholder |
| Payload.OrderIsIrrelevant | cmd/sshcustomd/main.go:2547-2549 | if no bracket opens inside a bracket pair and no value that the template uses has a bracket, every order of the keys gives the simultaneous substitution |
| Payload.ProfileOrderIsIrrelevant | cmd/sshcustomd/main.go:2527-2551 | so for every profile whose host, proxy host and server name have no brackets, and every clean template |
| Payload.SubstMeaning | cmd/sshcustomd/main.go:2527-2551 | that substitution keeps text without brackets and puts the value in the placeholder's place |
| PayloadLaws.PayloadSays | cmd/sshcustomd/main.go:2527-2551 | for profiles without brackets in their names and in whatever order the map is walked, a template says its text and at each of the nine placeholders the host, port, server name, proxy or line end of the profile, and nothing where it has none |
| PayloadLaws.DecimalValue | cmd/sshcustomd/main.go:2532 | a port is written in decimal notation |
| Payload.NestedPairDependsOnOrder | cmd/sshcustomd/main.go:2547-2549 | the template "[[host]]": the orders of a profile's map agree if and only if the host in brackets is no other placeholder or one that stands for itself |
| Payload.BracketedValueDependsOnOrder | cmd/sshcustomd/main.go:2547-2549 | the template "[host]" and a host in brackets: they agree if and only if the host is no placeholder or one that stands for itself |
| Payload.OrdersAgreeIff | cmd/sshcustomd/main.go:2547-2549 | the law behind both: when one placeholder turns into a text in brackets, the orders agree exactly if that text is not replaced in its turn |
| Payload.OrdersCanDisagree | cmd/sshcustomd/main.go:2547-2549 | they can disagree: "[[host]]" with the host "lf", and "[host]" with the host "[lf]" |

## Left out

- Sockets, TLS, the SSH library, processes, the HTTP interface and the web pages: their results are parameters or events.
- Concurrent `startTunnel` and `stopTunnel` calls and the automatic restart: the check and the store of the running flag are separate, so no claim is made beyond serialised calls.
- Matching UDP responses to the flows of applications: flows are registered and looked up under different addresses, so only framing and the connection are modelled.
- The first status that a subscriber is sent before it registers: the wake-up property starts at registration.
- Loading `iptables.env`, its defaults and the nftables wrapper: ports, bypass addresses and the hotspot switch are parameters, and `disable` runs with no interface names.
- The filter table, IPv6, QUIC and captive-portal commands: deletions there can also remove a user's identical rules.
- The tests that `ssh.iptables` and `net_clean.sh` are there and executable (net_clean.sh:131, main.go:1345): both are assumed to be.
- A script that outlives its daemon: a kill in `NetHistory` takes the script that is running with it.
- Whether a kernel takes TPROXY rules, with or without a protocol match: two parameters of `Netfilter.Kernel`.
- Rules of other programs on the captured path: `NetCapture` speaks of kernels whose other rules let the packet pass; the traversal of the daemon's own chains needs no such condition.
- The texts by which errors are classified: dial results are transport death, retryable, or other.
- The 32-bit width of the in-flight counter: `Engine.CounterCountsReloads` counts without bound.
- The text form of a SOCKS target: `Socks5` yields host bytes and port, not the joined string.
- Space other than ASCII in a banner, and lower-casing of letters outside the cases named in `Text.Lower`.
- The deadline of the probe and the idle timeout of the copy loop: they appear as faults of the connection.
- vpnchain.sh, the watchdog, the installer, metrics, route detection, DNS over TCP and the clamps of the configuration: process plumbing and branches a reader sees at once.
- The second fallback name in `upsertProfile` at cmd/sshcustomd/main.go:2306-2308 is modelled and never reached, as the first is never empty.
