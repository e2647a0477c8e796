# A verified model of the xray VPN client

This project models the control logic of a macOS VPN client written in Go and proves what that logic
keeps in every run. It covers the lifecycle of a `Client` (connect, rollback, teardown, delayed
reset), the reconnect loop, the serialized controller in its two implementations (daemon and tray),
the DNS override with its recovery journal, the tray's settings cache, and the profile pipeline
(base64 sniffing, subscription parsing, merging, selection, Shadowsocks links).

Verify with `dafny verify dfyconfig.toml` (Dafny 4.11).

## How it is built

Code that changes state step by step is a class or a method with loops, proved equal to a
specification function; the theorems are lemmas about that function and about state machines built
from it.

| file | models |
|---|---|
| `Strings.dfy`, `Base64.dfy`, `Numbers.dfy`, `Wrappers.dfy` | byte strings, the four base64 decoders, powers of two and remainders, Option and Result |
| `Subscription.dfy`, `Profiles.dfy`, `Shadowsocks.dfy` | the profile pipeline |
| `Backoff.dfy` | the reconnect delay with its float64 and int64 arithmetic |
| `Settings.dfy` | the shared settings and their change signal |
| `Client.dfy`, `Lifecycle.dfy`, `Routing.dfy` | one client: its methods, its interleavings, its effect on the routing table |
| `Reconnect.dfy`, `ReconnectRuns.dfy` | the reconnect loop as sections between blocking points, and whole runs of it |
| `Controller.dfy` | one controller machine and its two implementations |
| `System.dfy` | controller, all loops ever started and all clients ever created, interleaved |
| `Fleet.dfy` | the loop together with its clients' own machines: the refinement between the two |
| `DnsJournal.dfy` | the DNS override as a write-ahead journal with crashes |
| `SettingsCache.dfy` | the tray's versioned cache against the daemon's settings history |

External operations (xray, TUN, routes, firewall, DNS commands, health checks, HTTP requests) are
calls whose outcome is a parameter; timeouts, timers and crashes may happen whenever they could. Every
acquisition and every release attempt of a client is recorded in a ledger. A step of a state machine is
one section under a mutex, or one action between two blocking points.

## What the proofs found

- `Connect`'s rollback is the reverse of the acquisitions only until the tunnel firewall rule is
  installed; afterwards the tunnel is closed before its routes and the rule are removed
  (`Lifecycle.UndoIsReverseUntilFirewall`). Every acquired resource is still released exactly once.
- The comment on `Connect` promises that all partial resources are rolled back. An earlier route to the proxy
  server is deleted and never restored, so the routing table comes back exactly when there was none
  or the failure came before that step (`Routing.FailedConnectTable`, `Routing.SessionRestoresTable`).
- `backoffDuration` can overflow: `(55, 512ns, 2^63-1 ns)` yields the least int64. It is exact exactly
  under the condition in `Backoff.BackoffExact`, hence for every `max/initial` below 2^53.
- At most one client is connected, but when a disconnect returns by its timeout while its packet pump still runs, the old
  pump can run beside the next session (`Fleet.OldPumpOutlivesDisconnect`); exactly that causes it (`Fleet.OldPumpIff`), and
  otherwise at most one pump of all the clients of a loop runs (`Fleet.AtMostOnePumpInAll`).
- In the tray a stop that times out hides a session that is still up behind the failed status
  (`System.TrayHidesSession`); nothing else does, and the hidden session is always one that the stop has already cancelled
  (`System.TrayStatusLostByTimeouts`, `System.HiddenSessionIsCancelled`). The daemon's status always agrees with the session.
- A crash between creating and filling the DNS journal leaves it torn, and then every later override is refused for
  ever; when all else succeeds nothing but that refuses one (`DnsJournal.TornForEver`, `DnsJournal.ReachableGrant`).
  Without a journal path a failed restore lets the next override record the VPN's own DNS as the original; what it
  records is the user's exactly as long as no override was left unrestored (`DnsJournal.UnjournaledCaptureIff`).
- `ss://` links are recognised in any case, but all that are not lower-case are refused
  (`Shadowsocks.OtherCaseAlwaysFails`). The older fully encoded form comes back whole exactly when the password has no '@'.
- A tray toggle whose request fails after the daemon applied it does not invalidate older polls
  (`SettingsCache.FailedToggleLetsOldPollIn`). The cache may show a pair of settings that the daemon never had
  (`SettingsCache.CachedPairMayBeTorn`); it shows those of its first or second read exactly when one of the two fields was
  the same at both (`SettingsCache.CachedPairIntactIff`).
- Failover tries every profile, whichever it starts with, exactly when no two profiles share a link
  (`ReconnectRuns.EveryProfileTriedIff`). Two names for one link pass the checks of the configuration and can keep a
  third profile from ever being tried (`ReconnectRuns.RepeatedLinkStarves`).

Where the repository's texts and its code disagree, the model follows the code: the delay is capped at
15 s and its exponent is `attempt - 1` (`tunnel.md` says 60 s, `docs/architecture.md` shows `attempt`);
`Disconnect` releases the firewall rule, DNS, tunnel, routes and xray in that order (`tunnel.md` lists
another); `runWithReconnect` keeps its client after a failed `Connect`, although the comment above it says it is
recreated; `mergeProfiles` also drops repetitions within the subscription, although its comment speaks
of the inline set only.

## Model

| member | source | states |
|---|---|---|
| Base64.DecodeEncode | src/subscription.go:281-293 | each of the four decoders undoes the matching encoder on every byte string (RFC 4648 sections 4 and 5) |
| Base64.DecodesIff | src/subscription.go:203-213 | without its line breaks a string is decoded if and only if it is symbols of the variant's alphabet, in groups of four that may end in one or two pads, or without padding in any number but one more than a multiple of four |
| Base64.StandardExamples | src/subscription.go:203-213 | the test vectors of RFC 4648 section 10 |
| Base64.DecodersAgree | src/subscription.go:203-220 | two decoders that both accept a string yield the same bytes |
| Base64.SearchOrderIrrelevant | src/subscription.go:281-293 | the first-success search gives the same answer whatever the order of the decoders |
| Base64.TryDecodeBytes | src/subscription.go:281-293 | the loop over the decoders returns what the search function returns |
| Base64.HelpersAgree | src/xrayconf.go:480-493 | the two decode helpers agree on every string without a space |
| Base64.HelpersDiffer | src/xrayconf.go:481 | with a space only the helper that strips blanks accepts |
| Base64.ForeignByteRejected | src/subscription.go:281-293 | a byte outside both alphabets, other than CR and LF, makes all decoders fail |
| Base64.EncodedTextFound | src/xrayconf.go:480-493 | base64 in any variant, with blanks anywhere, is decoded to the original text |
| Subscription.TryBase64Decode | src/subscription.go:200-222 | the sniffing loop computes the search that the laws below are about |
| Subscription.SniffOrderIrrelevant | src/subscription.go:203-213 | sniffing does not depend on the order of the decoders |
| Subscription.SniffKeepsPlainText | src/subscription.go:234-242 | a text that shows a proxy link is never taken for base64 |
| Subscription.ShippedTextIsRead | src/subscription.go:200-222 | a text with a link line is read back whether shipped plainly, but for the white space around it, or as base64 with blanks anywhere |
| Subscription.ParseSubscription | src/subscription.go:155-198 | the parsing loop with its seen map computes the meaning that the two laws below determine |
| Subscription.DedupSameElements | src/subscription.go:159-185 | de-duplication keeps every link and repeats none |
| Subscription.DedupKeepsOrder | src/subscription.go:159-185 | de-duplication keeps the order of first occurrences |
| Subscription.DedupOfDistinct | src/subscription.go:159-185 | a list without repetitions is not changed by de-duplication |
| Subscription.SubscriptionRoundTrip | src/subscription.go:155-222 | any lines, padded with white space at will, that are links, DNS directives or anything else, shipped in any of the allowed ways, parse to the distinct links in order, named as given and with strict TLS, and the resolvers of the last directive |
| Subscription.AcceptedSubscriptions | src/subscription.go:155-198 | conversely every accepted text consists of such lines, and its links are trimmed, on one line, of known schemes and pairwise distinct |
| Subscription.RefusedIff | src/subscription.go:194-196 | a text is refused if and only if no line of it is a link |
| Subscription.LineIsRead | src/subscription.go:162-180 | a line is read as what it shows between its white space: a link, a DNS directive, or nothing |
| Subscription.HeaderIff | src/subscription.go:142-153 | the parsed resolvers are, in order, what the comma-separated parts hold between white space, blank parts left out |
| Subscription.IsProxyLinkIff | src/subscription.go:224-232 | a link is recognised by exactly five schemes, in any mixture of cases |
| Subscription.ContainsProxyLinkIff | src/subscription.go:234-242 | a text shows a link if and only if one starts somewhere in it |
| Subscription.SniffIff | src/subscription.go:200-222 | the sniffed text is what some variant decodes to with a link in it, or the input when no variant does |
| Strings.TrimPadded | src/subscription.go:163 | trimming takes off exactly the white space around a trimmed middle |
| Strings.TrimSplits | src/subscription.go:163 | every string is its trimmed form between two stretches of white space |
| Strings.ToLowerIff | src/subscription.go:225 | lower-casing makes two strings equal if and only if they differ in the case of letters only |
| Profiles.MergeProfiles | src/config.go:197-222 | the loop with its two seen maps computes the clash-free merge |
| Profiles.MergeDropsExactlyClashes | src/config.go:209-220 | a profile is dropped exactly when its link or non-empty name occurs earlier in the result |
| Profiles.MergeIsSubsequence | src/config.go:197-222 | the result is the inline list followed by a subsequence of the subscription |
| Profiles.MergeKeepsDistinct | src/config.go:197-222 | links and non-empty names of the result are distinct exactly when those of the inline list are |
| Profiles.MergeCovers | src/config.go:197-222 | no inline profile is lost, and every subscription profile is represented by link or name |
| Profiles.MergeConcat | src/config.go:197-222 | merging twice is merging the concatenation |
| Profiles.MergeIdempotent | src/config.go:197-222 | merging the same subscription again changes nothing |
| Profiles.SelectProfile | src/config.go:162-180 | the first profile with the wanted name, the first of all when none is wanted, and each error exactly when due |
| Shadowsocks.Sip002RoundTrip | src/xrayconf.go:410-478 | a rendered SIP002 link, with any fragment or none, yields the same method, password and host and the number n whose numeral is its port; settings are null exactly for n out of 1 to 65535 |
| Shadowsocks.LegacyRoundTrip | src/xrayconf.go:432-450 | the fully encoded form comes back whole, with its port as a number, if and only if the password has no '@' |
| Shadowsocks.AtoiDecimal | src/xrayconf.go:471 | the decimal numeral of n, with leading zeros or a sign, is read as n |
| Shadowsocks.AtoiIff | src/xrayconf.go:471 | nothing but digits, with or without a sign, is read as a number |
| Shadowsocks.AcceptedIff | src/xrayconf.go:410-478 | a link is accepted with a result if and only if its parts, in one of the two forms, say so |
| Shadowsocks.RefusedReads | src/xrayconf.go:418-454 | the error of a link whose parts can be told: no colon in the user part, then no host and port, then no host |
| Shadowsocks.SplitHostPortIff | src/xrayconf.go:428 | exactly which strings are split into which host and port |
| Shadowsocks.SplitJoinHostPort | src/xrayconf.go:427-431 | host and port survive joining and splitting, bracketed addresses included |
| Shadowsocks.SplitHostPortInverse | src/xrayconf.go:427-431 | whatever is accepted as host:port is a bare or bracketed host, a colon and the port |
| Shadowsocks.OtherCaseAlwaysFails | src/xrayconf.go:136-149 | links dispatched here by a scheme that is not lower-case are always refused |
| Backoff.BackoffExact | src/main.go:321-331 | the delay is min(2^(attempt-1) * initial, max) exactly when the 64-bit product does not overflow, or the saturated conversion covers it |
| Backoff.NoOverflowBelow53Bits | src/main.go:321-331 | it never overflows for a quotient below 2^53 |
| Backoff.OverflowExample | src/main.go:321-331 | a concrete call that returns the least int64 |
| Backoff.BackoffMonotone | src/main.go:321-331 | for quotients below 2^53 the delay never shrinks from one attempt to the next and never passes the cap |
| Backoff.TotalDelayClosed | src/main.go:300-303 | closed form of the total waiting time of n retries |
| Backoff.DefaultTotal | src/main.go:26-27 | the closed form for the program's 2 s and 15 s |
| Settings.SettingsState.Update | src/controller.go:61-72 | each field becomes the patch's own when given and stays otherwise, exactly a patch without fields is refused and changes nothing; every signal handed out before is closed, none twice |
| Settings.PatchIsFieldwise | src/controller.go:29-42 | the same for the patch alone, as an equivalence |
| Client.Client.Connect | src/client.go:206-307 | gate, result and ledger of Connect for every combination of failing operations and failing releases |
| Client.FailureIsFirst | src/client.go:231-286 | the error is that of the first failing operation in order, and the resources acquired are those of the operations before it |
| Client.LateFailureEntries | src/client.go:251-286 | the ledger of every failure after the tunnel is up, written out |
| Client.Client.RunRollback | src/client.go:222-229 | the rollback stack is released in reverse, one attempt each, whatever fails |
| Client.Client.SetupTunnel | src/client.go:474-490 | a failed tunnel setup keeps nothing |
| Client.Client.BeginDisconnect | src/client.go:314-341 | Disconnect captures everything of the session, clears it and closes the gate, or does nothing |
| Client.Client.Teardown | src/client.go:343-371 | every captured resource gets one release attempt, in the order of the code |
| Client.TeardownEntries | src/client.go:343-371 | that order: firewall rule, DNS, tunnel, server route, tunnel routes, xray |
| Client.Client.Disconnect | src/client.go:314-396 | the whole of Disconnect without interference |
| Lifecycle.TeardownUnderInterference | src/client.go:343-371 | whatever interleaves, a finished teardown leaves exactly one release attempt per resource of its session at the end of the ledger, in the order of the code |
| Client.Client.Reset | src/client.go:401-408 | only a disconnecting client becomes idle |
| Lifecycle.UndoIsExact | src/client.go:222-286 | at every failure point the rollback releases exactly what was acquired |
| Lifecycle.UndoIsReverseUntilFirewall | src/client.go:222-286 | the rollback order is the reverse of the acquisitions exactly before the firewall step |
| Lifecycle.RunKeepsGate | src/client.go:206-408 | under every interleaving exactly one goroutine is responsible for ending a disconnect |
| Lifecycle.IdleIsQuiet | src/client.go:209-218 | idle means no running pump, no disconnect in progress and no pending reset |
| Lifecycle.AtMostOnePump | src/client.go:288-306 | at most one pump runs and at most one reset is pending |
| Lifecycle.ResetHitsItsOwnSession | src/client.go:398-408 | a delayed reset finds its own session still disconnecting, its pump ended, and reopens the gate |
| Lifecycle.OnlyFinisherReopens | src/client.go:388-408 | nothing else leaves the disconnecting state, and then nothing is left to finish |
| Lifecycle.LedgerBalance | src/client.go:222-371 | over every run each resource of a session is acquired and released at most once; the balance is 1 while connected and 0 when idle |
| Routing.LookupIsLongestMatch | src/client.go:37-40 | lookup follows the longest covering prefix (RFC 1812 section 5.2.4.3) |
| Routing.ConnectBuildsTable | src/client.go:272-278 | the ledger of a successful Connect builds exactly the split-default routes and the server route |
| Routing.RoutingWhileConnected | src/client.go:37-40 | for every IPv4 address: the server through the gateway, specific routes unchanged, everything else into the TUN |
| Routing.DisconnectTable | src/client.go:359-368 | successful teardown removes the added routes and nothing else |
| Routing.SessionRestoresTable | src/client.go:272-368 | a session restores the table if and only if there was no route to the server before |
| Routing.SessionRestoresLookup | src/client.go:272-368 | every other address is looked up as before in any case |
| Routing.FailedConnectTable | src/client.go:222-286 | a failed Connect restores the table if and only if it failed before the purge or there was nothing to purge |
| Reconnect.RunWithReconnect | src/main.go:180-319 | any number of rounds of the loop is the composition of the sections that the theorems are about, and the loop has left after a round in which it is cancelled |
| Reconnect.RoundMeaning | src/main.go:195-318 | a whole round for every outcome: how it ends and why, tries, sessions, failures counted, waiting, reconnects, status, profile, which client is kept and what state each is in |
| Reconnect.CancelledRoundExits | src/main.go:273-309 | a cancelled loop leaves within the round, wherever it stands, unless it was already on its way back to the top |
| Reconnect.CancelledRunEnds | src/main.go:195-319 | no run outlives a cancelled round |
| Reconnect.TryConnection | src/main.go:195-275 | one attempt from the top of the loop to its backoff or exit |
| Reconnect.BackOff | src/main.go:277-318 | the backoff part: limit, signal, snapshot, failover, wait, recheck |
| Reconnect.Alternate | src/main.go:288-298 | every second failure moves to the successor of the first profile with the same link and drops the client |
| Reconnect.StepKeepsClients | src/main.go:193-275 | only the held client can be connected, and a client is connected exactly while it is checked or in session |
| Reconnect.ExitLeaves | src/main.go:196-319 | every exit leaves no client connected, and failed status unless cancelled |
| Reconnect.StatusRoundTrip | src/main.go:60-88 | the stored code of a status reads back as that status |
| Fleet.StepRefines | src/main.go:195-275 | loop and clients together do only what the abstract loop allows, with the results that the clients' own machines give to Connect and Disconnect |
| Fleet.ConnectFindsIdleClient | src/main.go:218-220 | whenever the loop calls Connect, on a new client or one that failed before, that client is idle and quiet, so the gate refuses nothing |
| Fleet.NeverStuck | src/main.go:195-275 | the loop can always run its next section, or its Disconnect can go on |
| Fleet.NothingLeftBehind | src/client.go:206-408 | over every run each resource of each client is acquired and given back at most once, and given back once the client is idle, dropped or its loop has left, timed-out disconnects included |
| Fleet.OldPumpIff | src/main.go:225-270 | a step leaves a running pump without a loop that holds its client if and only if it is a disconnect that returns by its timeout while the pump runs |
| Fleet.AtMostOnePumpInAll | src/client.go:288-306 | in every run without such a disconnect at most one pump of all the loop's clients runs, that of the held client, and none after the loop has left |
| Fleet.InTimeAbandonsNothing | src/client.go:374-388 | runs whose disconnects all return in time are such runs |
| Fleet.OldPumpOutlivesDisconnect | src/main.go:266-270 | a run after which the pumps of two clients run at once |
| ReconnectRuns.RoundsAreRun | src/main.go:195-318 | the loop's rounds form a run in the sense of the lemmas below |
| ReconnectRuns.AllFailingRun | src/main.go:277-303 | with limit m an all-failing run makes exactly m tries, adds m - 1 reconnects, waits the closed-form total and ends failed |
| ReconnectRuns.RunningBound | src/main.go:277-283 | whatever happens, the number of rounds is bounded by sessions and attempts |
| ReconnectRuns.TerminatesWithLimit | src/main.go:277-283 | finitely many sessions mean that a limited loop ends |
| ReconnectRuns.TriesAfterDrop | src/main.go:241-283 | after a dropped session fewer than m tries follow before the next session or the exit |
| ReconnectRuns.OffMeansNoRetry | src/main.go:196-318 | once automatic reconnection is off, a loop that has made a try leaves without another, wherever it stands |
| ReconnectRuns.TriesWalk | src/main.go:288-298 | over any list, try k of an all-failing run uses the profile after k div 2 failovers |
| ReconnectRuns.FailoverPosition | src/main.go:288-298 | with distinct links that is the profile at (start + k div 2) mod n |
| ReconnectRuns.FailoverCoverage | src/main.go:288-298 | every profile is tried twice in a row within 2n tries |
| ReconnectRuns.ListsHaveDistinctLinks | src/config.go:197-222 | a merged list has distinct links if and only if the inline profiles have; an accepted subscription always has |
| ReconnectRuns.FailoverReachesAllIff | src/main.go:288-298 | every position is reached from every start if and only if no two profiles share a link |
| ReconnectRuns.EveryProfileTriedIff | src/main.go:288-298 | for different profiles, the loop tries every one from every start if and only if no two share a link |
| ReconnectRuns.UnvisitedIsNeverTried | src/main.go:288-298 | a position that failover does not reach is tried in no all-failing run, however long |
| ReconnectRuns.RepeatedLinkStarves | src/main.go:288-298 | with two names for one link, no try of the loop ever uses the last profile of a list of four |
| Controller.DaemonController.Handle | src/daemon.go:92-133 | the daemon's command loop is the abstract machine |
| Controller.DaemonController.StopLoop | src/daemon.go:62-79 | a stop that times out keeps the session's cancel function and done channel |
| Controller.TrayController.Handle | src/tray_darwin.go:210-262 | the tray's command loop is the same machine with the failed status on errors |
| Controller.SameMachine | src/tray_darwin.go:157-264 | daemon and tray reach the same state with the same effects, apart from the status reported on an error |
| Controller.HandledSettings | src/daemon.go:109-126 | a settings command, by the settings before and after: a session starts if and only if AutoConnect went from off to on and none is left |
| Controller.HandledRestart | src/daemon.go:95-108 | switch, stop and reconnect, written out for a stop that returns in time or not |
| Controller.HandledShutdown | src/daemon.go:89-91 | the end of the program cancels and awaits the loop and starts nothing |
| System.AtMostOne | src/daemon.go:44-135 | in every reachable state at most one loop is alive and at most one client connected, which belongs to it; exited loops have none |
| System.OnlyTimeoutsLeaveClients | src/main.go:266-270 | a step leaves a client that is not idle behind if and only if it is a disconnect that times out |
| System.CleanRunsLeaveNoClient | src/main.go:225-270 | while every disconnect ends in time, only the held client of a loop is not idle |
| System.OldClientOutlivesDisconnect | src/main.go:266-270 | a run in which an old client is still disconnecting while the next is connected |
| System.DaemonPublishes | src/main.go:231-263 | connected, connected status, active profile and connection time agree, and hold exactly during a session, for its profile; the status tells where the loop blocks |
| System.PublishedProfileFixed | src/main.go:234-295 | while the profile is published neither the loop variable behind the pointer nor what a reader sees changes |
| System.TrayStatusLostByTimeouts | src/tray_darwin.go:184-198 | in every reachable state of the tray a session shows as connected if and only if no stop has timed out since it began, and as failed otherwise |
| System.HiddenSessionIsCancelled | src/tray_darwin.go:184-257 | in every reachable state a session that the status does not show is in the tray, and its loop is already cancelled |
| System.TrayHidesSession | src/tray_darwin.go:219-257 | a run that reaches a session shown as failed: a stop of it times out |
| System.UncancelledExitFails | src/main.go:196-319 | a loop that leaves without cancellation leaves the failed status and no connected client |
| System.NoLostWakeup | src/main.go:284-317 | a waiting loop with reconnection off has its signal already closed; every retry happens with reconnection on |
| System.StopCanFinish | src/daemon.go:62-79 | from every reachable state that waits for a loop, eleven sections of that loop end it, whatever happens in between, and the waiting stop can return |
| System.SettingsAreThreaded | src/daemon.go:109-126 | in every run each command finds the settings that the one before left, and only a settings command changes them, by its patch |
| System.NoStartAfterStop | src/daemon.go:101-126 | after a successful stop no session starts before a switch, a reconnect, or a settings command that finds AutoConnect off and leaves it on |
| System.StartsLastSelected | src/daemon.go:92-126 | every session starts with the profile of the last accepted switch, even if that switch's stop timed out |
| System.SettingsKeepSessions | src/daemon.go:109-126 | a settings command changes no live loop |
| DnsJournal.DnsHost.OverrideDNS | src/dns_darwin.go:85-161 | overrideDNS makes the planned changes in order and returns the planned result |
| DnsJournal.DnsHost.Restore | src/dns_darwin.go:163-187 | restore sets the saved resolvers and only then removes the journal |
| DnsJournal.OverrideMeaning | src/dns_darwin.go:85-161 | for all outcomes: when an override is granted, what it records, and which resolvers and journal it leaves, granted or not |
| DnsJournal.JournalInvariant | src/dns_darwin.go:88-187 | over every run with failing commands and a crash after any change: each service has its own resolvers, or the journal holds them |
| DnsJournal.CapturedIsOriginal | src/dns_darwin.go:124-159 | a captured original is never the VPN's own DNS |
| DnsJournal.SuccessfulRestoreIsComplete | src/dns_darwin.go:98-187 | from every reachable state a successful restore or recovery gives all services their resolvers back |
| DnsJournal.TornJournalReached | src/dns_darwin.go:141-149 | a crash after the exclusive creation leaves a torn journal |
| DnsJournal.TornJournalRefuses | src/dns_darwin.go:106-109 | with a torn journal an override changes nothing and is refused, whatever its operations return |
| DnsJournal.TornForEver | src/dns_darwin.go:97-118 | no run of the program gets out of that state |
| DnsJournal.GrantedUnlessTorn | src/dns_darwin.go:88-161 | when every operation succeeds, an override is granted if and only if the journal is missing or whole |
| DnsJournal.ReachableGrant | src/dns_darwin.go:88-161 | the same in every reachable state: only a torn journal refuses |
| DnsJournal.UnjournaledCapturesVpnDns | src/dns_darwin.go:97-98 | without a journal path a failed restore makes the next capture wrong |
| DnsJournal.UnjournaledCaptureIsOwn | src/dns_darwin.go:120-187 | without one, over every run in which no state left the service overridden, a capture is the user's own |
| DnsJournal.UnjournaledCaptureIff | src/dns_darwin.go:120-187 | for resolvers other than the user's own, exactly then |
| SettingsCache.DaemonSettingsUpdater.Toggle | src/tray_client_darwin.go:191-206 | a toggle stores the reply and bumps the version, or changes nothing on an error |
| SettingsCache.DaemonSettingsUpdater.SetIfVersion | src/tray_client_darwin.go:221-230 | a reply is stored, and the version bumped, exactly when the version is unchanged; otherwise nothing changes |
| SettingsCache.TogglesAlternate | src/tray_client_darwin.go:179-206 | any sequence of toggles leaves each field switched exactly when toggled an odd number of times, cache and daemon alike |
| SettingsCache.CacheNeverGoesBack | src/tray_client_darwin.go:170-230 | in every reachable state each cached field is the daemon's at its position, and under every interleaving the position only moves forwards while no poll outlasts 2^64 stores |
| SettingsCache.GoesBackIff | src/tray_client_darwin.go:221-230 | exactly a poll that ends after a multiple of 2^64 stores, with older reads, moves it backwards |
| SettingsCache.PollStoredIff | src/tray_client_darwin.go:798-823 | a poll is stored if and only if nothing was stored since it began, or a multiple of 2^64 times |
| SettingsCache.StalePollRejected | src/tray_client_darwin.go:798-823 | a poll begun before a toggle succeeded is never stored after it |
| SettingsCache.OwnToggleShows | src/tray_client_darwin.go:191-206 | from a successful toggle on the cache shows what it wrote, or something newer |
| SettingsCache.FailedToggleLetsOldPollIn | src/tray_client_darwin.go:198-202 | after a toggle whose reply was lost an older poll can still be stored |
| SettingsCache.CachedPairMayBeTorn | src/daemon.go:169-171 | a run from the daemon's start on after which the cache shows a pair of settings that never was |
| SettingsCache.CachedPairIntactIff | src/daemon.go:169-171 | in every reachable state the cache shows the settings of its first or second read if and only if a field was the same at both |

## Left out

- Reconnect.RunWithReconnect: is cut after a given number of rounds, because without an attempt limit the loop runs for ever; the number is arbitrary and the lemmas quantify over it.
- DnsJournal.ReachableGrant: assumes that no network service has an empty name; `activeNetworkService` never returns one.
- SettingsCache.CacheNeverGoesBack: moving forwards assumes that no poll lasts for 2^64 stores, because the version then comes round again; `SettingsCache.GoesBackIff` is the exact condition.
- Client.Client.Disconnect: describes a call without interference, because a method runs alone; `Lifecycle.TeardownUnderInterference` and `Lifecycle.OnlyFinisherReopens` are about the interleavings.
- The health check's own logic (three failures in `monitorSession`, the two URLs) is one nondeterministic outcome; the metrics goroutine and the byte counters are not modelled.
- Names found by `linkToProfile` (URL fragments, VMess JSON) are an arbitrary function of the link.
- White space and case folding are ASCII; the two other letters that Go folds to ASCII ('K' as the Kelvin sign, dotted capital I) occur in no known scheme.
- `strconv.Atoi`'s 64-bit range error: numbers beyond it are out of the port range anyway.
- Each route operation is atomic; a deletion matches the destination only; the two /1 routes are absent before a Connect, as adding them would fail otherwise.
- DNS settings change through this program only and one process at a time; a partly written journal is never complete JSON; cache flushing is not modelled.
- The tray's menu sends settings commands with one field each, so that a tray world refuses an empty patch; only the daemon can be sent one.
- Saving the last profile, the HTTP handlers, authentication, the session lock, and the subscription and endpoint caches.
- xray-core, the TUN device, the packet pump's copying, `pfctl` rules and the parsing of `networksetup` output.
- VLESS, VMess and Trojan link building: field copying.
- Icons, menus, GeoIP, ping and server information.
