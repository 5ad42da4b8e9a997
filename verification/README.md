# Agent United: verified model of the hard parts

This project models the concurrent and stateful cores of the Agent United repository in Dafny and proves what they
guarantee over every input, every interleaving and every run.

- **The relay tunnel.** One websocket per workspace carries many public HTTP requests, event streams and websockets.
  Handlers and goroutines are steps over a shared state, the two wire directions are first-in first-out sequences of
  frames, Go channels are sequences with a capacity, `select` and timers are free choices. `Base64`, `Protocol`,
  `RelayServer`, `RelayHandlers`, `RelayClient`, `Tunnel` and `RelayGuarantees` build up from one frame to whole runs
  of the tunnel, in which what arrives is genuine and in order; `RelayCompleteness`, `ClientCompleteness` and
  `EndToEnd` prove the converse, that what is sent arrives unless a full channel refuses it or a write fails.
  `ClientReader` says when the workspace's reader can go on; `HostNames` and `Routing` lead a public host to a live
  tunnel through a leased mapping; `RelayManager` and `Backoff` start and restart the workspace's end.
- **Channels and messages.** `Channels` and `Messages` are the tables and the guarded operations, `ChannelServices`
  and `MessageServices` the services over them; `ChannelRules` proves the rules of direct messages and roles over all
  runs, `MessageRules` who writes, changes and removes a message, `Paging` what following a cursor returns and misses,
  `Unread` that two differently joined queries count the same, and what that is.
- **Billing.** `Billing` turns repeated, partly failing webhook deliveries into rows that count each event once
  and say what its data says.
- **Smaller machines.** `Invites` (interleaved acceptance of one invite), `Jwks` (publishing and parsing RSA keys,
  sections 2 and 6.3.1 of RFC 7518 and section 5 of RFC 4648), `DesktopSocket` (the desktop reconnect machine).

An object whose methods update fields is a class. Each method is tied to a pure step function of the state and keeps
the class's `Valid()`, which for the services, the routing table and the desktop socket is the invariant of all runs;
the properties over runs are proved about the step functions. Histories (`got`, `sent`, `refused`, `heard`, `accepted`,
`issued`) are recorded beside the state and never branched on, except that ids in `issued` are not issued again.
Clocks, fresh ids, failures of outside calls, the order a query gives to equal timestamps and the row a `LIMIT 1`
picks are choices of the environment, passed in as parameters or events.

Where the code and its intent differ, the model follows the code and a lemma says exactly when the intent holds:

- The end of an event stream can be chosen while chunks are queued (`SseEndIsWhole`, `SseEndCanTruncate`), and a local
  failure before the stream starts is answered on a channel nobody reads (`SseFailureTimesOut`).
- One slow local socket stops the workspace's read loop for every request (`StuckIff`, `StuckHoldsAll`), and a local
  body whose reading fails is ended like a complete one (`EndMeansAll`).
- A `Start` while a client is live leaves two (`OneClientIff`, `StartingOverLeavesTwo`); a failed write of the route
  leaves the old one (`RouteIsLatest`, `FailedRegistrationKeepsOld`); a relay domain with a port matches no host
  (`DomainWithColonMatchesNothing`).
- The name of a direct message is unique, so a conversation one side has left cannot be reopened by the side that
  opened it (`ReopenSucceedsIff`).
- Paging skips the rest of a group of equal timestamps that a page cuts, and everything older than a cursor that is
  deleted before it is used (`MissedIff`, `DeletedCursorLosesTheRest`).
- A text or topic with a zero character passes the services and fails in the database (`SendText`, `UpdateChannel`).
- Invoice events put a workspace on the free plan (`InvoiceKeepsPlanIff`); an event counts once exactly while keys hold
  (`AppliedOnceIff`), and a lost key lets an old event overwrite a newer one (`LostKeyReplays`).
- A desktop socket whose construction throws ignores the attempt limit (`LimitKeptIff`, `ThrowIgnoresLimit`), closing
  one that is still connecting may schedule a reconnect (`DisconnectMayReconnect`), and a timer left over from before
  an open waits longer than the first delay (`FailureWait`, `LeftOverWaitsLonger`).

`dafny verify dfyconfig.toml` checks the whole project.

## Model

| member | source | states |
|---|---|---|
| `Base64.RoundTrip` | apps/api/internal/relay/client.go:223-227 | Decoding what was encoded gives every byte sequence back, in the padded standard alphabet and in the raw URL one, with newlines skipped on the way in |
| `Base64.GroupNumber` | apps/api/internal/relay/client.go:219-227 | The digits written for one, two or three bytes stand for the same number as the bytes, most significant first, filled with zero bits |
| `Base64.Alphabets` | apps/central/main.go:429-436 | The digits are the 64 of tables 1 and 2 of RFC 4648, in their order; the two alphabets differ in the last two |
| `Protocol.FrameRoundTrip` | apps/api/internal/relay/server.go:459-471 | A websocket message packed into a data frame is read from it with the same type and payload, and the frame always decodes |
| `Protocol.BlocksOfChunkFrames` | apps/api/internal/relay/client.go:219-231 | The decoded payloads of the chunk frames made from a list of blocks are those blocks, none lost, split or merged |
| `Protocol.BlocksSubseq` | apps/api/internal/relay/server.go:399-407 | Any subsequence of the chunk frames decodes to a subsequence of the blocks |
| `RelayServer.TrySend` | apps/api/internal/relay/server.go:185-191 | A non-blocking send changes only the channel registered under its id, and only if there is one with room |
| `RelayServer.TrySignal` | apps/api/internal/relay/server.go:221-227 | The same for the signal channels, which hold at most one signal |
| `RelayServer.ClientConn.Dispatch` | apps/api/internal/relay/server.go:177-264 | One turn of the read loop delivers a frame to the channels of its own id and leaves every other id's channels alone |
| `RelayServer.ClientConn.ReadLoop` | apps/api/internal/relay/server.go:164-266 | Whatever channels are missing, full or abandoned, the loop takes every frame of any sequence, and leaves the channels of each id as its own frames alone would have made them |
| `RelayHandlers.SseReadsChunk` | apps/api/internal/relay/server.go:204-215 | Receiving a chunk keeps the account: every chunk received was written, is queued or was refused by a full channel, in order |
| `RelayHandlers.SseTakesChunk` | apps/api/internal/relay/server.go:399-407 | Taking a chunk from the queue to the public client keeps that account, and what was written decodes what was taken |
| `RelayHandlers.WsReadsData` | apps/api/internal/relay/server.go:240-251 | Receiving websocket data keeps the relayed and queued frames a subsequence, in order, of those received |
| `RelayHandlers.WsPumps` | apps/api/internal/relay/server.go:452-465 | The pump writes what it reads from the public socket in order, stopping at its first failed write |
| `RelayHandlers.ServerStep` | apps/api/internal/relay/server.go:305-482 | Every step of an HTTP, stream or websocket handler, with any frame arriving, keeps all promises of that request |
| `RelayHandlers.HubKeepsInv` | apps/api/internal/relay/server.go:164-482 | In every interleaving of all handlers of a connection, under arbitrary frames, every request keeps its promises |
| `RelayHandlers.PendingBelongsToHttp` | apps/api/internal/relay/server.go:316-318 | In every run the `pending` registry holds entries of HTTP handlers only |
| `RelayHandlers.ResponseMatching` | apps/api/internal/relay/server.go:305-340 | Over all interleavings with timeouts and duplicate, late or foreign frames: at most one answer per request, a relayed one repeats a response received under the same id, and the pending ids are exactly those of handlers in flight; which response it is and when there is one is `FirstResponseAnswers` |
| `RelayHandlers.HubIsolation` | apps/api/internal/relay/server.go:164-266 | Deleting all frames and steps of other ids from a run leaves an id with the same channels, handler and answers |
| `RelayCompleteness.ServerFullStep` | apps/api/internal/relay/server.go:305-482 | Every step of a handler, whatever frame comes, keeps it decided by the first frame of the right kind, its timer and its writes what the handler holds, answers, writes and has registered |
| `RelayCompleteness.FirstResponseAnswers` | apps/api/internal/relay/server.go:316-339 | In every interleaving under arbitrary frames: while an HTTP handler is active its channel holds exactly the first response received since registration, or nothing if there was none; once it is done there is exactly one answer, 502 if its request could not be written, 504 if the timer fired, and else the first response's status and decoded body |
| `RelayCompleteness.NothingLeftRegistered` | apps/api/internal/relay/server.go:316-361 | A request that has returned is in none of the seven registries |
| `RelayClient.Client.Store` | apps/api/internal/relay/client.go:250-252 | A dialled socket becomes the live socket of its id; other entries keep theirs |
| `RelayClient.Client.HandleWSData` | apps/api/internal/relay/client.go:269-281 | A data frame that decodes is written to the live socket of its id, otherwise dropped; nothing is closed and no other socket written |
| `RelayClient.Client.HandleWSClose` | apps/api/internal/relay/client.go:283-291 | The entry goes and its socket is closed once; the socket is in no entry any more, so the map never closes it again |
| `RelayClient.ClientStep` | apps/api/internal/relay/client.go:157-291 | Every step of the dispatcher and of a request's goroutine keeps its script: a stream is start, chunks of the body in order, then at most one end; a socket is reported open only after it is stored |
| `ClientCompleteness.ClientFullStep` | apps/api/internal/relay/client.go:157-291 | Every step of the dispatcher and of a goroutine keeps: each reply is the one frame written for its request, each message of the local socket is one data frame in order, a dialled socket is reported open and an ended one closed, all unless a write to the tunnel fails |
| `ClientReader.HandledInOrder` | apps/api/internal/relay/client.go:98-149 | The workspace's one read loop handles frames one after the other in the order they arrive, whoever they are for, so none behind the one in hand has been handled |
| `ClientReader.StuckIff` | apps/api/internal/relay/client.go:115-118 | In every reachable state nothing short of a local socket's turn or close can bring the loop back to reading if and only if it is writing to a local socket that takes nothing; waiting for the write lock never sticks, whatever the capacity of the connection |
| `ClientReader.StuckHoldsAll` | apps/api/internal/relay/client.go:269-281 | While it is stuck no frame is handled, for that request or any other |
| `Tunnel.ReachableInv` | apps/api/internal/relay/server.go:164-482 | In every reachable state of the tunnel every request of every kind keeps its promises at both ends, and each end has read a prefix of what the other wrote |
| `Tunnel.DataOnlyAfterOpened` | apps/api/internal/relay/client.go:250-254 | While a data frame travels to the workspace, the entry of its socket has already been stored |
| `Tunnel.Isolation` | apps/api/internal/relay/server.go:164-266 | Delete everything that concerns other requests, and the heartbeats, from a run: what is left is a run, and it brings this request to exactly the same state at both ends and on both wires |
| `RelayGuarantees.HttpEndToEnd` | apps/api/internal/relay/client.go:181-196 | A public HTTP request gets at most one answer, and a relayed one carries the status and the body bytes that the local API's reply to that very request yielded; that the reply is relayed is `HttpComplete` |
| `EndToEnd.HttpComplete` | apps/api/internal/relay/server.go:326-338 | The frame of the local API's reply, once written, is the only one for its request, with the server or on the wire; it waits in the handler's channel as soon as it has come; and a handler that is done without its timer firing has answered exactly once, with that frame's status and decoded body |
| `EndToEnd.ReplyCarries` | apps/api/internal/relay/client.go:188-196 | The reply frame holds the status and headers the local API answered with, and decodes to its body, byte for byte |
| `EndToEnd.CallIsMade` | apps/api/internal/relay/client.go:157-181 | The first frame the workspace gets for a public request starts a goroutine with exactly that request; once the local API has been called, the call was the public one |
| `RelayGuarantees.CallEndToEnd` | apps/api/internal/relay/client.go:158-181 | Whenever the local API is called for a public request, stream or not, the call has that request's method, path, headers and body, byte for byte |
| `Protocol.CallRoundTrip` | apps/api/internal/relay/server.go:305-314 | The request frame written for a call asks for exactly that call, whatever its body |
| `RelayGuarantees.OpeningComesFirst` | apps/api/internal/relay/client.go:119-131 | In every run a frame that opens a request or a socket reaches the workspace before anything else under its id, so no id ever gets a second goroutine |
| `RelayGuarantees.SseInOrder` | apps/api/internal/relay/server.go:398-414 | The blocks written to the public client are in-order blocks of what was read of the local body, each of 1 to 4096 bytes; if no chunk met a full channel the bytes are a prefix of the body |
| `Sequences.SubseqIsPicking` | apps/api/internal/relay/server.go:398-413 | What in-order means wherever blocks, frames or messages are called part of others: they sit at strictly increasing positions of them |
| `RelayGuarantees.SseStatus` | apps/api/internal/relay/server.go:378-390 | A stream is opened for the public client only with the status the local API answered to that very request |
| `EndToEnd.SseComplete` | apps/api/internal/relay/server.go:377-396 | A stream the local API opens is the one forwarded, its start frame with the status and headers comes first, and the public client is answered with its status, unless the timer fired or the client left before that, when nothing is written |
| `RelayGuarantees.EndMeansAll` | apps/api/internal/relay/client.go:219-238 | Once the end frame is among those received, nothing written for the request is missing from them, and the chunks make up the whole local body if and only if no read failed with some of it still to come |
| `RelayGuarantees.SseEndIsWhole` | apps/api/internal/relay/server.go:398-412 | When the handler leaves by `end`, the client has the whole local body if and only if no chunk had been refused, none was still queued, and no read failed with some of the body still to come |
| `RelayGuarantees.SseEndCanTruncate` | apps/api/internal/relay/server.go:399-412 | There is a run in which `end` is chosen while a chunk is queued and the client gets none of a one-byte body |
| `RelayGuarantees.SseFailureTimesOut` | apps/api/internal/relay/client.go:202-205 | If the local call behind a stream fails, the public client is written nothing and can only be answered by the timeout |
| `RelayGuarantees.WsInOrder` | apps/api/internal/relay/client.go:241-291 | What reaches the local socket is a prefix of what the public socket said; a data frame misses its entry only after that entry was closed; the entry closes at most one socket; the public socket is told an in-order part of what the local one said; that nothing else is missing is `WsToldComplete` and `WsPassedComplete` |
| `EndToEnd.WsToldComplete` | apps/api/internal/relay/client.go:256-266 | While the 64-slot channel has refused nothing, the public socket is told a prefix of what the local socket said and the workspace wrote, and while the handler is active what it was told, what is queued and what is on the wire are together exactly that |
| `EndToEnd.WsPassedComplete` | apps/api/internal/relay/server.go:451-465 | What the public socket said and the server wrote is exactly what was passed to the local socket, what came after that was closed, and what is on the wire, in this order |
| `EndToEnd.HangUpIsHeard` | apps/api/internal/relay/server.go:474-480 | The end of the public socket is written as a close, and once that has come the local socket is out of the table and closed once; an ended local socket is closed once too, its close is written unless a write failed, and once that has come the streaming handler can leave its loop |
| `EndToEnd.WsEndsOnlyIf` | apps/api/internal/relay/server.go:440-482 | With no timeout, failed write or error of the public socket, a websocket handler ends only because the workspace reported a failed dial first or has closed the socket |
| `EndToEnd.DialIsMade` | apps/api/internal/relay/client.go:241-244 | The first frame the workspace gets for a public websocket starts a goroutine with exactly the opening frame, path and headers, that the server made for it |
| `HostNames.BeforeColon` | apps/api/internal/relay/server.go:504-507 | The part before the first colon holds no colon, and is the whole host when there is none |
| `HostNames.DeterministicSubdomain` | apps/api/internal/relay/server.go:519-522 | A token's subdomain is one label, a w and ten hexadecimal digits without dot or colon, whatever the digest |
| `HostNames.SubdomainsCollideIff` | apps/api/internal/relay/server.go:519-522 | Two tokens get the same subdomain if and only if the first five bytes of their digests agree |
| `HostNames.AcceptedHosts` | apps/api/internal/relay/server.go:503-517 | A host is read as a subdomain if and only if, up to the first colon, it is that non-empty dot-free label followed by a dot and the domain |
| `HostNames.PrintedHostParses` | apps/api/internal/relay/server.go:139-143 | The host announced for a token is read back as that token's subdomain, with or without a port, for every colon-free domain |
| `HostNames.DomainWithColonMatchesNothing` | apps/api/internal/relay/server.go:504-511 | If the configured domain contains a colon, every public host is rejected |
| `Routing.Server.HandleTunnel` | apps/api/internal/relay/server.go:128-134 | An accepted tunnel enters the table under its fresh id with its token's subdomain; Redis is not touched yet |
| `Routing.Server.Register` | apps/api/internal/relay/server.go:136-137 | A successful write maps the subdomain to this tunnel for 120 s from now; a failed one changes no mapping |
| `Routing.Server.Heartbeat` | apps/api/internal/relay/server.go:152-162 | A beat extends whatever mapping the subdomain has, even another tunnel's, and never brings back one that lapsed |
| `Routing.Server.RemoveClient` | apps/api/internal/relay/server.go:484-491 | The tunnel leaves the table; its mapping in Redis stays |
| `Routing.Server.FindTunnel` | apps/api/internal/relay/server.go:275-292 | A request is handed to a live tunnel accepted for the very subdomain of its host, the one mapped at this instant, or to none |
| `Routing.PresentIffLeased` | apps/api/internal/relay/server.go:137-161 | At every instant a mapping is present if and only if the subdomain was registered and, since the last registration, each renewal came less than 120 s after the one before; after a gap of 120 s only a registration restores it |
| `Routing.MissedHeartbeats` | apps/api/internal/relay/server.go:153-160 | Beats due every 30 s keep a lease unbroken if and only if never three in a row are missed |
| `Routing.LiveIffNotRemoved` | apps/api/internal/relay/server.go:484-497 | A tunnel is in the table if and only if it was accepted and has not been removed since |
| `Routing.RouteIsLatest` | apps/api/internal/relay/server.go:275-292 | A subdomain leads to a tunnel if and only if that tunnel was the last to register it, has not been removed and the lease is unbroken; so never to a superseded tunnel or one of another subdomain |
| `Routing.AnnouncedHostRoutes` | apps/api/internal/relay/server.go:139-143 | The announced host, with or without a port, is routed exactly as the subdomain of the token is |
| `Routing.FailedRegistrationKeepsOld` | apps/api/internal/relay/server.go:136-137 | There is a run in which a second tunnel is accepted, its write to Redis fails, and requests still go to the first |
| `RelayManager.Manager.Start` | apps/api/internal/relay/manager.go:33-38 | Remembers the parent context and starts a client when in tunnel mode with a token, without cancelling one that runs |
| `RelayManager.Manager.UpdateToken` | apps/api/internal/relay/manager.go:46-56 | Cancels the client whose cancel function is held, then starts one with the new token in tunnel mode |
| `RelayManager.Manager.StartLocked` | apps/api/internal/relay/manager.go:58-69 | Starts a client with the current token only after `Start`, in tunnel mode and with a token |
| `RelayManager.OneClientAtATime` | apps/api/internal/relay/manager.go:33-85 | While at most one client is ever live, that one carries the current token and is the one whose cancel function is held; there is one if and only if one is held and the parent context it came from has not been cancelled |
| `RelayManager.OneClientIff` | apps/api/internal/relay/manager.go:33-69 | For every list of operations with any number of `Start`s: at most one client context is uncancelled at every instant if and only if no `Start` comes in tunnel mode, with a token, while one is |
| `RelayManager.OneStartIsEnough` | apps/api/internal/relay/manager.go:33-38 | So in every run with at most one `Start` at most one client context is ever uncancelled |
| `RelayManager.RunningIff` | apps/api/internal/relay/manager.go:58-85 | After any operations a cancel function is held, as `Running` reports, if and only if there was a `Start`, the mode is tunnel and there is a token |
| `RelayManager.SettingsAreLatest` | apps/api/internal/relay/manager.go:46-56 | After any operations the token is that of the last update, the mode is tunnel if there was one, and there have been as many parents as `Start`s |
| `RelayManager.StartingOverLeavesTwo` | apps/api/internal/relay/manager.go:33-38 | Such a `Start` leaves exactly two live clients, the old one and its own |
| `Backoff.Start` | apps/api/internal/relay/client.go:54-79 | The wait after the k-th session is min(2^k, 60) seconds, for every k and however long the sessions lasted: one second first, then twice the one before, then 60 |
| `DesktopSocket.WebSocketService.Connect` | apps/desktop/src/services/WebSocketService.ts:88-143 | Does nothing while open or connecting; otherwise makes one socket, or schedules a reconnect if that throws |
| `DesktopSocket.WebSocketService.Disconnect` | apps/desktop/src/services/WebSocketService.ts:145-155 | Clears the pending timer and closes and forgets the socket, but not the `isConnecting` flag or the attempt count |
| `DesktopSocket.WebSocketService.ScheduleReconnect` | apps/desktop/src/services/WebSocketService.ts:242-259 | Sets one timer with the delay of the current attempt count, or nothing if one is pending |
| `DesktopSocket.WebSocketService.OnOpen` | apps/desktop/src/services/WebSocketService.ts:107-112 | An open resets the attempts, and does not clear a pending timer |
| `DesktopSocket.WebSocketService.OnError` | apps/desktop/src/services/WebSocketService.ts:123-126 | An error only ends the connecting state |
| `DesktopSocket.WebSocketService.OnClose` | apps/desktop/src/services/WebSocketService.ts:128-136 | An unclean close with attempts left schedules a reconnect, whichever socket it comes from |
| `DesktopSocket.WebSocketService.OnTimer` | apps/desktop/src/services/WebSocketService.ts:254-258 | A timer that fires counts one attempt and connects |
| `DesktopSocket.ReconnectBounds` | apps/desktop/src/services/WebSocketService.ts:88-155 | In every run at most one timer is pending, and the j-th to fire since an open waited for j attempts, min(interval times 2^j, 30000) ms, a left-over first one for those made before the open; while the limit is kept, as when construction never throws, a pending timer means attempts are left and at most the maximum fire between two opens |
| `DesktopSocket.DelayDoubles` | apps/desktop/src/services/WebSocketService.ts:247-250 | The first delay is the interval and each further one twice the one before, none above 30 seconds |
| `DesktopSocket.LimitKeptIff` | apps/desktop/src/services/WebSocketService.ts:133-142 | Attempts are left whenever a timer is pending, throughout a run, if and only if no construction is tried and throws with the attempts used up and no timer pending |
| `DesktopSocket.FailureWait` | apps/desktop/src/services/WebSocketService.ts:247-250 | Over any run of failures the total wait is the sum of the delays, with the first replaced by that of a left-over timer; so it is the plain sum if and only if there was none or its delay was the first one anyway |
| `DesktopSocket.LeftOverWaitsLonger` | apps/desktop/src/services/WebSocketService.ts:107-112 | A run in which the socket opens while a timer is pending, and the first wait after it is 2000 ms and not 1000 |
| `DesktopSocket.ThrowIgnoresLimit` | apps/desktop/src/services/WebSocketService.ts:138-142 | For every configuration, a construction that always throws reaches any number of attempts with a timer pending |
| `DesktopSocket.DisconnectMayReconnect` | apps/desktop/src/services/WebSocketService.ts:128-155 | After any run: when a socket closes following a `disconnect`, a reconnect is pending if and only if it closed uncleanly and attempts were left |
| `Invites.InviteRepository.Create` | apps/api/internal/repository/invite_repository.go:28-42 | Stores an invite under a token hash not used before, and nothing otherwise |
| `Invites.InviteRepository.ValidateToken` | apps/api/internal/repository/invite_repository.go:65-82 | Valid if and only if the hash is stored, its time is not over and its status is not consumed, with the stored invite; unknown, then expired, then consumed are reported in that order |
| `Invites.InviteRepository.ConsumeToken` | apps/api/internal/repository/invite_repository.go:84-99 | One conditional update: a pending invite becomes consumed at this time and is otherwise as it was; anything else is left alone and reported |
| `Invites.SingleUse` | apps/api/internal/service/invite_service.go:88-134 | Under every interleaving of any number of calls on one token at most one passes the conditional update and at most one succeeds; the invite is consumed if and only if one has passed |
| `Invites.ConsumedForever` | apps/api/internal/repository/invite_repository.go:65-99 | Once consumed an invite never changes again, every validation fails at every time, and so does every further conditional update |
| `Invites.LateCallsFail` | apps/api/internal/service/invite_service.go:94-98 | A call not yet validated when the invite is consumed or its time is over never gets past its validation, over any continuation |
| `Invites.ValidatedInTime` | apps/api/internal/repository/invite_repository.go:65-82 | Under every interleaving each call that has passed its validation, so each one that passes its conditional update or succeeds, was validated at an instant not after the invite expires, while it was stored and not consumed |
| `Invites.FailedIff` | apps/api/internal/service/invite_service.go:88-134 | Under every interleaving a call has failed if and only if one of its own steps went wrong: a bad token, no acceptable invite at its validation, no pending one at its update, or a failing database, signature or welcome |
| `Jwks.DecodeExponent` | apps/api/internal/relay/jwks.go:187-190 | The shift-and-add loop yields the big-endian number of the bytes, reduced to a signed 64-bit integer at every step |
| `Jwks.ExponentRoundTrip` | apps/api/internal/relay/jwks.go:187-190 | For every exponent that fits, the loop yields it from its published bytes and no intermediate value exceeds it |
| `Jwks.NumberRoundTrip` | apps/central/main.go:430-431 | The shortest big-endian bytes of a number read back as that number |
| `Jwks.Parse` | apps/api/internal/relay/jwks.go:174-195 | The loop builds the map that the entries, taken one after the other and malformed ones passed over, determine |
| `Jwks.PublishedKeyParses` | apps/central/main.go:429-436 | Parsing a published entry yields the key if and only if modulus and exponent are positive and, for the relay, the key id is not empty; otherwise the entry is passed over |
| `Jwks.PublishedSetParses` | apps/central/main.go:429-436 | The published set reads back as exactly that key under its id, under the same condition and no other |
| `Jwks.EntryParsesIff` | apps/api/internal/relay/jwks.go:175-193 | An entry yields a key if and only if it is of type RSA, has an id where one is demanded, and its two numbers are there, decode and are not a zero exponent; the key has exactly these numbers, for every exponent that fits |
| `Jwks.KeysAreLastParsed` | apps/api/internal/service/invite_service.go:210-231 | A key set maps an id to a key if and only if the last well-formed entry with that id carries it |
| `Jwks.MalformedIgnored` | apps/api/internal/relay/jwks.go:175-193 | Deleting a malformed entry anywhere in a set changes no key |
| `Jwks.JWKSVerifier.FetchOnce` | apps/api/internal/relay/jwks.go:56-72 | Succeeds exactly when the set has a valid key; only then are the keys replaced and verification enabled, else it is disabled |
| `Jwks.JWKSVerifier.Refresh` | apps/api/internal/relay/jwks.go:83-95 | A failed refresh keeps the keys and never disables verification |
| `Billing.NormalizePlan` | apps/billing-webhook/handler.go:161-168 | Always one of the four plans, and a known plan is kept |
| `Billing.NormalizeStatus` | apps/billing-webhook/handler.go:170-177 | Always one of the four statuses, and a known status is kept |
| `Billing.ApplyPlanLimits` | apps/billing-webhook/handler.go:140-159 | Tier, bandwidth, entity limit and enabled flag become those of the plan; an unknown plan becomes free |
| `Billing.Extract` | apps/billing-webhook/handler.go:89-138 | A record if and only if the event is for a workspace, and then that workspace's, with the plan, status, customer, subscription, period and limits its data gives by kind of event: a checkout buys the paid plan it names and else pro |
| `Billing.WantedSays` | apps/billing-webhook/handler.go:89-138 | The same of the function the run theorems use: every event for a workspace asks for the row that its data says, and no other event asks for one |
| `Billing.ParseIntRoundTrip` | apps/billing-webhook/handler.go:206-208 | The decimal digits of a number, with either sign or none, are read as that number exactly if it fits 64 bits |
| `Billing.Handler.StripeWebhook` | apps/billing-webhook/handler.go:47-80 | One delivery under any failures: skipped on a live key, 500 and no change if the upsert fails, else row, relay copy, key and mail in that order, each later failure ignored |
| `Billing.DeliveryLeaves` | apps/billing-webhook/handler.go:47-80 | After any deliveries, one more that is not skipped and whose upsert succeeds leaves its workspace on the plan, status, ids and period its data says: for a checkout the paid plan named or pro, for a create or update those named, for a deletion free and canceled, for a failed invoice past_due; a checkout attempts one mail with the plan bought; no other workspace is touched, and any other delivery changes nothing |
| `Billing.StrayEventIgnored` | apps/billing-webhook/handler.go:56-61 | An event for no workspace changes nothing, however often it is delivered |
| `Billing.AppliesIffNew` | apps/billing-webhook/handler.go:47-54 | While every delivery that could apply an event again finds the key of its first success, a delivery is applied if and only if its upsert can succeed and its event was never applied before |
| `Billing.KeysKept` | apps/billing-webhook/cache.go:29-38 | Then a key is held for an event if and only if its first success wrote one, and it expires 24 hours after that |
| `Billing.CountsOnce` | apps/billing-webhook/handler.go:47-80 | Then, for any list of deliveries with duplicates and failures, the table is what applying each event once leaves, in the order of first success, and no event is in that order twice |
| `Billing.AppliedOnceIff` | apps/billing-webhook/handler.go:47-73 | For every list of deliveries and failures, rows are written for each event exactly once, in the order of first success, if and only if every later delivery that could succeed finds the key of the first: that key was written, the check reached the store, and 24 hours had not passed |
| `Billing.TableIsApplied` | apps/billing-webhook/db.go:40-60 | Whatever fails, the table is what the applied events leave, the last one for a workspace winning |
| `Billing.OneMailPerEvent` | apps/billing-webhook/handler.go:74-78 | Then an upgrade mail is attempted at most once per event, and never for an event that was not applied |
| `Billing.RowsConsistent` | apps/billing-webhook/handler.go:63-71 | Under any failures, every row's tier, bandwidth, entity limit and flag are those of its plan, and the relay's copy agrees with the row of every workspace whose latest cache write succeeded |
| `Billing.EntitlementsRise` | apps/billing-webhook/handler.go:140-159 | In every reachable state the relay is enabled for exactly the paid plans; bandwidth and admitted entities rise strictly from free to pro and from pro to team and enterprise, which are entitled to the same |
| `Billing.InvoiceKeepsPlanIff` | apps/billing-webhook/handler.go:121-136 | After any deliveries an applied invoice event puts its workspace on the free plan and forgets its customer and period; so its plan and limits stay as they were if and only if the plan was free already, and no other workspace is touched |
| `Billing.LostKeyReplays` | apps/billing-webhook/handler.go:71-73 | A delivery list in which one key write fails, that condition fails with it, and a repeated purchase overwrites the later cancellation |
| `ChannelServices.ChannelService.CreateChannel` | apps/api/internal/service/channel_service.go:45-66 | A valid, free name makes a channel with its creator as only member and owner; that is so exactly if the topic has no zero character and the user exists, and otherwise nothing changes and the error is that of the first check that fails |
| `ChannelServices.ChannelService.UpdateChannel` | apps/api/internal/service/channel_service.go:125-152 | Only an owner sets name and topic; the empty name is accepted, an invalid or taken one is not; a database error comes if and only if an owner gives an acceptable name and a topic with a zero character |
| `ChannelServices.ChannelService.DeleteChannel` | apps/api/internal/service/channel_service.go:155-176 | Succeeds exactly for an owner, and takes the channel and its member rows with it |
| `ChannelServices.ChannelService.AddChannelMember` | apps/api/internal/service/channel_service.go:199-238 | Succeeds exactly for an owner, or an admin who does not ask for an owner, with a known user who is not in yet; the user then is an owner, admin or member exactly as the role name is "owner", "admin" or anything else, and nobody else's role changes |
| `ChannelServices.ChannelService.RemoveChannelMember` | apps/api/internal/service/channel_service.go:241-287 | Exactly one row goes, and exactly if its own user asks, an owner for a non-owner, or an admin for a member |
| `ChannelServices.ChannelService.CreateOrGetDMChannel` | apps/api/internal/service/channel_service.go:300-313 | A successful answer is a direct message holding exactly the two users, found if there is one and else made; a failure changes nothing |
| `Channels.ValidNameIff` | apps/api/internal/service/channel_service.go:332-337 | A channel name is 2 to 32 lower-case letters, digits and hyphens, and nothing else is one |
| `Channels.DmNamesCollideIff` | apps/api/internal/repository/channel_repository.go:475-484 | Two ordered pairs of users get the same name for their direct message, of 20 characters, if and only if the first eight characters of their ids agree |
| `ChannelRules.StepKeepsInv` | apps/api/internal/repository/channel_repository.go:438-508 | Every operation by anybody keeps: direct messages have at most two members, all of role member; no two hold the same pair; channel names are unique; rows belong to channels |
| `ChannelRules.RunKeepsInv` | apps/api/internal/repository/channel_repository.go:42-508 | So does every run |
| `ChannelRules.DmForever` | apps/api/internal/service/channel_service.go:125-287 | Over every continuation a direct message exists with the same name and topic, its members only become fewer and stay of role member |
| `ChannelRules.OneDmPerPair` | apps/api/internal/repository/channel_repository.go:445-453 | In every reachable state two distinct users have at most one direct message with exactly them in it, whichever is named first |
| `ChannelRules.FoundFromEitherSide` | apps/api/internal/repository/channel_repository.go:438-470 | Once two users have a direct message, either of them asking at any later time while both are in it gets the same one, and nothing changes |
| `ChannelRules.ReopenSucceedsIff` | apps/api/internal/repository/channel_repository.go:475-494 | After a direct message was opened under a pair's name, asking again in the same order at any later time succeeds if and only if the pair still has one with both in it, and never changes anything |
| `ChannelRules.GainStep` | apps/api/internal/service/channel_service.go:199-238 | A step after which somebody newly has a role gave it: an owner by creating the channel or added as "owner" by an owner, an admin added as "admin" by an owner or admin, a member added under another name by one of these or named in the direct message made |
| `ChannelRules.LossStep` | apps/api/internal/service/channel_service.go:241-287 | A step after which somebody no longer has their role is their own leaving, the removal of a non-owner by an owner or of a member by an admin, or the channel's deletion by an owner |
| `ChannelRules.RoleHasAGrant` | apps/api/internal/service/channel_service.go:199-238 | In every reachable state every owner, admin and member was given that very role at some step by somebody who then could give it, an admin under the literal name "admin", and has had it ever since |
| `ChannelRules.MembershipEndsBy` | apps/api/internal/service/channel_service.go:241-287 | Over every run, somebody who has lost their role left by themselves, was removed by an owner over a non-owner or by an admin over a member, or an owner deleted the channel; so an owner goes only by own choice or with the channel |
| `ChannelRules.RoleIsFixed` | apps/api/internal/repository/channel_repository.go:265-282 | Over every run a member's role does not change while membership lasts |
| `ChannelRules.ChangedByOwner` | apps/api/internal/service/channel_service.go:125-176 | A step that changes a channel's row or deletes it is an update or deletion by somebody who owns it |
| `ChannelRules.OwnerlessForever` | apps/api/internal/service/channel_service.go:125-238 | A channel without owners stays without owners, unrenamed and undeleted over every continuation |
| `MessageServices.MessageService.Create` | apps/api/internal/repository/message_repository.go:33-67 | A row is inserted under its fresh id, unless the text has no character, more than 10000 or a zero character, the attachment has one, or the channel is gone |
| `MessageServices.MessageService.SendText` | apps/api/internal/service/message_service.go:49-78 | A member's text of 1 to 10000 bytes becomes one row by that user at this time; the table refuses it if and only if it has a zero character; else the error of the first check that fails |
| `MessageServices.MessageService.SendForAgent` | apps/api/internal/service/message_service.go:81-108 | The same with the agent as author and the owner's membership checked |
| `MessageServices.MessageService.SendMessageWithAttachment` | apps/api/internal/service/message_service.go:111-150 | Checks the membership of the user before the agent takes over authorship, stamps the draft in place and stores exactly it; of the drafts the service takes, the table refuses exactly those without text or with a zero character |
| `MessageServices.MessageService.EditMessage` | apps/api/internal/service/message_service.go:184-228 | Succeeds exactly if the text is valid without a zero character and the user, author or owner of the authoring agent, is still a member; then the stored text is this one and all else is as it was, and a failure changes nothing |
| `MessageServices.MessageService.Delete` | apps/api/internal/service/message_service.go:231-262 | Removes exactly the one message, under the same conditions on the user |
| `MessageServices.MessageService.MarkChannelRead` | apps/api/internal/service/channel_service.go:316-328 | A member's marker for the channel becomes this time; no other marker changes |
| `MessageRules.RowIsWritten` | apps/api/internal/service/message_service.go:49-228 | Over every run each stored row was written just as it is by one step, a send on behalf of somebody then in the channel or an edit by somebody who then controlled the message, and nothing has touched it since |
| `MessageRules.MessageIsAsSent` | apps/api/internal/service/message_service.go:49-150 | Over every run a message keeps the channel, author, attachment and time it was sent with, whatever edits follow |
| `MessageRules.MessageEndsBy` | apps/api/internal/service/message_service.go:231-262 | Over every run a message that is gone was deleted by its author or its agent's owner, then a member, or with its channel by an owner |
| `Messages.FirstRowsArePage` | apps/api/internal/repository/message_repository.go:173-178 | Cutting the extra row off any answer to the query, however it orders equal times, leaves the newest `limit` matching messages and tells truly whether there are more |
| `MessageServices.MessageService.GetByChannel` | apps/api/internal/repository/message_repository.go:71-181 | The page is the newest `limit` messages before the cursor, newest first, without duplicates, and `hasMore` holds if and only if more match |
| `MessageServices.MessageService.GetMessages` | apps/api/internal/service/message_service.go:153-181 | Non-members are refused and told nothing; members get such a page, for a limit of 50 when they ask for none or less and of 100 when they ask for more |
| `Messages.PageSize` | apps/api/internal/service/message_service.go:163-169 | The limit used is always between 1 and 100, and the one asked for whenever that is in between; what it is otherwise is stated on `GetMessages` |
| `Paging.ReturnedFromStart` | apps/api/internal/repository/message_repository.go:103-131 | Everything a walk returns was in the channel, at the same time stamp, when the walk began |
| `Paging.WalkIsBounded` | apps/api/internal/repository/message_repository.go:71-181 | As long as no older message appears between requests, whatever else is written, edited or deleted, a walk returns no message twice and newest first even with equal times, and has at most as many full pages as the channel had messages for, so it ends |
| `Paging.RunAddsNothingOlder` | apps/api/internal/service/message_service.go:49-262 | Over any run of the services by anybody no message older than one already stored appears, and none moves to another time or channel |
| `Paging.ServiceWalks` | apps/api/internal/service/message_service.go:153-181 | So however many operations of any users come between the requests, the pages the service answers make up a walk, to which all these results apply |
| `Paging.MissedIff` | apps/api/internal/repository/message_repository.go:123-128 | A finished walk misses a message that is there throughout if and only if some page before the last ends at that message's time without holding it, or a cursor newer than it is deleted before it is used; the second never while cursors are kept |
| `Paging.DistinctTimesMissNothing` | apps/api/internal/repository/message_repository.go:71-181 | With distinct times a finished walk returns a message that is there throughout if and only if no cursor newer than it was deleted before it was used; all strictly newest first, and nothing from outside the channel |
| `Paging.DeletedCursorLosesTheRest` | apps/api/internal/repository/message_repository.go:123-126 | A finished walk that misses a message nobody touched: the only other message was the cursor and is deleted before the second request |
| `Paging.NewerMessagesChangeNothing` | apps/api/internal/repository/message_repository.go:123-128 | Messages written at or after the cursor's time leave the possible next pages exactly as they were |
| `Paging.DeletedCursorEndsTheWalk` | apps/api/internal/repository/message_repository.go:124-126 | If the cursor message is deleted between two requests the next page is empty and says there is no more |
| `Unread.QueriesAgree` | apps/api/internal/repository/channel_repository.go:525-536 | Over all rows, the grouped query counts for a channel what the list's subquery counts if the user is a member, and nothing otherwise, because the membership join matches one row |
| `Unread.JoinIsTheFilter` | apps/api/internal/repository/channel_repository.go:158-165 | The left join with the read markers leaves one row if the message is newer than the user's marker, or the epoch, and none otherwise |
| `Unread.QueryCountsUnread` | apps/api/internal/repository/channel_repository.go:147-172 | However the tables list their rows, the subquery's number is that of the stored messages by others after the marker |
| `Unread.GetUnreadCounts` | apps/api/internal/repository/channel_repository.go:525-557 | For every channel of the user the counts map gives what the list shows, a missing key meaning zero, and it has no other keys |
| `Unread.RunStaysWellFormed` | apps/api/internal/service/message_service.go:49-262 | Over every run message times stay positive and not ahead of the clock, and messages belong to existing channels |
| `Unread.UnreadSinceMark` | apps/api/internal/repository/channel_repository.go:511-557 | Over any run after a user's last mark-read, with sends, edits, deletions, leaving, rejoining and channel deletion by anybody, both queries give the number of surviving messages by others that did not exist at the mark |
| `Unread.UnreadBeforeMark` | apps/api/internal/repository/channel_repository.go:511-557 | While a user has never marked the channel, both give the number of all surviving messages by others |

## Left out

- Tunnel.Run: one tunnel connection and one client session; entries of the local socket table that outlive a session, and a new session's goroutines beside an old one's, are not modelled.
- Routing.Run: one relay process; Redis and the relay share one clock, and a key is present strictly before its deadline.
- RelayClient.ClientStep: a second opening frame under a known id is passed over, where the code would start another goroutine; `OpeningComesFirst` shows that none comes over a tunnel. The dispatcher's lookup of a local socket and its write to it are one step, and a write error of the local socket is not distinguished from success.
- RelayClient.Client: the local socket is the list of messages written to it and a count of closes.
- RelayGuarantees.HttpEndToEnd: the reply's body is what reading it yielded; a read error there is ignored by the code and shortens it.
- ClientReader.StuckIff: the lock is given to any waiter, and writes to a broken connection, which fail at once, count as done. The Redis calls the loop makes for a `registered` frame are taken to return.
- Billing.Handler.StripeWebhook: deliveries are handled one after the other; the code gives no guarantee for concurrent handling of one event. Signature checks, body limits and the sending of mail are left out, and a `current_period_end` outside 64 bits is not modelled.
- Unread.UnreadSinceMark: one clock that moves on with every operation; the program stamps messages with its own clock and read markers with the database's.
- Channels.Do: service calls are serialised, each one atomic step; the membership check and the write after it are not separated.
- Channels.Short: user ids have at least eight characters, as UUIDs do; the slice of a shorter one would fail.
- Channels made at bootstrap: they are the same as a creation by the primary user followed by additions of role member.
- The counts and names shown in the list of direct messages, whose joins multiply rows.
- Deleting users, and the cascades that follow.
- Malformed ids reaching the database, and database connection failures in the channel and message services.
- Full-text search, file upload, configuration, provisioning and user interface code.
- The status code and text of the close frame shown to a public websocket, and the dial error in it.
- Transport, TLS, JSON text, HTTP header copying and frames that are not valid JSON, which both ends skip.
- Cryptography: digests are any bytes of the right length, signatures are not modelled, and `VerifyJWT` is not part of this model.
- The write to Redis with which a registered client caches its public URL.
- Losing invite acceptances: what such a call wrote to the user before it failed; the code gives no guarantee there. The invite service's cache of keys and the welcome message's choice of owner are left out too.
- The second billing webhook inside the API service, which has no idempotency key, and the iOS and TypeScript variants of the reconnect machine: they would only repeat easier members.
