# Ansible-SecAgent, verified model

A Dafny model of the relay server and its agents, and proofs of what they promise. `dafny verify dfyconfig.toml`
checks everything.

## What is modelled

The server keeps one WebSocket per agent, forwards tasks to it and hands the replies to waiting HTTP requests.

- **Relay** (`Relay`, `RelayMachine`, `RelayInvariant`, `RelayTheorems`, `RelayAnswers`, `RelayLostWaiter`,
  `RelayLeftovers`, `RelayRuns`, `RelayTables`). The shared maps and the functions that update them under their locks.
  `RelayMachine` interleaves any number of requests (`checkAgentOnline`, then `sendTaskAndWait`), handlers
  (`AgentHandler`), revokes (`CloseAgent`) and rotations sending their rekey messages, each at a program counter
  between two lock sections; a lock held from one step to the next is read off the program counters. `RelayInvariant`
  has the inductive invariant, `RelayTheorems` what follows from it in every reachable state, `RelayAnswers` where
  every answer comes from, `RelayLostWaiter` exactly when a waiter is lost, `RelayLeftovers` what the other maps may
  keep, and `RelayRuns` which connections are closed and the delete by hostname. `RelayTables` is the same state as an
  object with the code's own methods and loops.
- **StdoutBuffer**. The capped accumulation of streamed output, rune by rune.
- **Enrollment** (`Crypto`, `Enrollment`, `EnrollmentRuns`, `EnrollmentInFlight`, `EnrollmentClient`,
  `EnrollmentService`). The two-phase challenge and response, the nonce table, the token table with its purges, whole
  runs of requests, requests in flight together, and the agent's side. Ciphertexts and signatures are terms:
  decryption undoes encryption for the matching key and no other (RSAES-OAEP, section 7.1 of RFC 8017).
- **Key rotation** (`KeyRotation`, `Rekey`, `RekeyRuns`, `RekeyTokens`). Dual-key acceptance, the five rows a rotation
  writes one by one, crashes and restarts between them, and how an agent catches up while the steps and row writes of
  rotations, rekeys, connections, the handlers of connections that are gone, and restarts interleave.
- **Agent** (`AgentSlots`, `Reconnect`, `JobRegistry`, `Capture`). The exec slots of a connection, the reconnect loop,
  the crash-safe job file, and bounded output.
- **Text** (`Template`, `PathConfine`). Single-pass templates whose arguments come from a map in any order, and
  lexical path confinement.

The relay invariant assumes nothing about the ids of requests; the theorems that need it name the request whose id is
its own among the requests that can pass the online check. It does assume that agents only name ids that were sent or
that no request uses. `SafeIff` shows that the first is exactly what is needed, and `UnsentIdLosesTheWaiter` that the
second cannot be dropped.

## What the code does not do

- A replaced connection's handler removes its successor's entry, since UnregisterConnection deletes by hostname
  (GO/cmd/secagent-server/internal/ws/handler.go:131). `UnregisterKeepsOthersIff` has the exact condition.
- Two requests with one task id, which callers may choose themselves, can lose a waiter: one's clean-up forgets the
  other.
- stdoutBuffers and taskHostnames may keep entries after a task has ended, from a late stdout message and from
  SendToAgent mapping the task again: `LateStdoutStays`, `HostStays`. Only pendingTasks is proved clean.
- The comment at GO/cmd/secagent-server/internal/ws/handler.go:58 says no locking is required; the code locks each
  map, and the model follows the code.
- The accumulated stdout need not be a prefix of the stream: a short rune can still fit after a wider one was dropped.
  `PrefixOfStreamIff` has the exact condition.
- The one-shot check and the count of the use are two store calls, so two requests in flight together can both be
  granted: `TwoInFlightGrantedTwice`; and the use is counted on the token named in phase 2, not on the one the
  challenge was issued for.
- Phase 2 registers the key it names itself, which need not be the one the challenge was encrypted for.
- A crash after the two secrets are written but before the deadline judges old tokens by the deadline of the rotation
  before.
- A failed write of the previous secret, which is only logged, followed by a successful write of the current one loses
  the old secret at the next restart.
- Confinement is exact, but a second check of a result can refuse it: cleaning may leave only white space of a
  relative path.
- stderr is kept up to 1024 bytes beyond the cap that stdout is cut to, and does not set truncated.
- The reader that feeds a command's stdin ends with a fresh error value, not with io.EOF
  (GO/cmd/secagent-minion/internal/executor/executor.go:193-196), and the write that crosses the output limit returns
  a short count. Either makes Wait fail, so a command that succeeds is reported with rc 1.
- RekeyAgent copies the secret before it sends. A rotation that falls in between leaves a connected agent on the
  previous secret, with no message to come: `StaleRekey`, `ConnectedAgentConvergesIff`.
- A rotation that falls between the validation and the registration of a connection does not reach that agent:
  `RotationDuringConnectIff`, and `ListedBeforeRegisterIff` for the one that is saved by the connection being
  replaced.
- A rotation sends its rekey messages even when its write of jwt_secret_current has failed. An agent that reads one is
  refused for good after a restart, its token being of a secret the server has lost: `LostWriteRefuses`.

## Model

| member | source | states |
|---|---|---|
| `RelayTheorems.NoLostWaiter` | GO/cmd/secagent-server/internal/ws/handler.go:126-140 | in every interleaving of any goroutines, once the handler of connection c has done its UnregisterConnection, every request with a task id of its own that waits on a task it sent through c has a message to read |
| `RelayTheorems.NoLostWaiterAfterRevoke` | GO/cmd/secagent-server/internal/ws/handler.go:455-476 | the same once CloseAgent has returned true, for the connection it removed from the table |
| `RelayTheorems.WaiterCanBeFound` | GO/cmd/secagent-server/internal/handlers/exec.go:145-162 | a request with an id of its own that waits on an empty channel is still in pendingTasks under its own channel and in taskHostnames under its own host, so a result and a disconnect both reach it |
| `RelayTheorems.AnswerIsFirstMessage` | GO/cmd/secagent-server/internal/ws/handler.go:287-313 | what sendTaskAndWait returns is the first message ever put into its channel and carries its task id, even when ids are shared |
| `RelayAnswers.MessagesAreExplained` | GO/cmd/secagent-server/internal/ws/handler.go:277-313 | in every interleaving, whatever agents say, each message ever put into a channel is a result that a handler read before, with its rc, stderr and error as read and with the stdout streamed until then if it had none, or the error of a disconnect or a revoke of a host the task was mapped to |
| `RelayAnswers.AnswersAreExplained` | GO/cmd/secagent-server/internal/handlers/exec.go:145-162 | what sendTaskAndWait returns is such a message about its own task, and for an id of its own the disconnect or revoke is of its own host |
| `RelayAnswers.BufferIsStream` | GO/cmd/secagent-server/internal/ws/handler.go:260-275 | in every interleaving the buffer of a task is exactly what is kept of the chunks read for it since a clean-up or a settling last removed it, and absent if there are none |
| `RelayTheorems.AtMostOneMessage` | GO/cmd/secagent-server/internal/ws/handler.go:195-208 | until the answer is taken a channel has received at most one message, the one it holds, whichever of result, disconnect and revoke come |
| `RelayTheorems.PendingTasksHaveHosts` | GO/cmd/secagent-server/internal/ws/handler.go:155-167 | whenever tasksMu is free, every key of pendingTasks that only one request uses is a key of taskHostnames |
| `RelayTheorems.PendingTasksAreInside` | GO/cmd/secagent-server/internal/ws/handler.go:170-223 | a pending id belongs to a request still inside sendTaskAndWait, or its answer is at that moment being cleaned up |
| `RelayTheorems.PendingEmptyWhenIdle` | GO/cmd/secagent-server/internal/handlers/exec.go:145-162 | when no request is inside sendTaskAndWait and nobody is settling a task, pendingTasks is empty |
| `RelayTheorems.LocksGoUp` | GO/cmd/secagent-server/internal/ws/handler.go:155-167 | every nested acquisition goes strictly up one fixed order of the five kinds of lock |
| `RelayTheorems.MutualExclusion` | GO/cmd/secagent-server/internal/ws/handler.go:226-243 | no two goroutines of a reachable state hold the same lock |
| `RelayTheorems.OneWriter` | GO/cmd/secagent-server/internal/ws/handler.go:226-243 | a connection has one writer: while one request is between conn.mu.Lock and the end of WriteJSON no other is, and no rekey or revoke can write to it or close it |
| `RelayTheorems.UnregisterIsAtomic` | GO/cmd/secagent-server/internal/ws/handler.go:126-140 | while a handler is inside UnregisterConnection nobody else looks a connection up, registers or removes one |
| `RelayTheorems.BlockedOnARunner` | GO/cmd/secagent-server/internal/ws/handler.go:185-223 | from whoever is blocked on a lock a chain of holders, each waiting for the next, leads to one that can take a step |
| `RelayTheorems.NoDeadlock` | GO/cmd/secagent-server/internal/ws/handler.go:108-182 | no reachable state is stuck, not even in part: every unfinished goroutine, requests, handlers, revokes and rotations alike, can step, or the chain of holders it waits for ends in one that can |
| `RelayTheorems.HoldersRelease` | GO/cmd/secagent-server/internal/ws/handler.go:195-222 | every step of a lock holder brings it closer to releasing, in a well-founded measure; the send under connectionsMu never blocks |
| `RelayInvariant.ReachableInv` | GO/cmd/secagent-server/internal/ws/handler.go:108-318 | the inductive invariant behind these results holds in every state of every interleaving of any number of requests, handlers, revokes and rotations, with no assumption on the ids of the requests |
| `RelayInvariant.StepInv` | GO/cmd/secagent-server/internal/ws/handler.go:108-318 | each single step of any goroutine keeps the invariant |
| `RelayInvariant.CollectFindsAll` | GO/cmd/secagent-server/internal/ws/handler.go:186-193 | the ids collected under taskHostMu after the entry is deleted include the task of every request still waiting on that connection |
| `RelayInvariant.ClearedStable` | GO/cmd/secagent-server/internal/ws/handler.go:126-152 | after the delete no request can get hold of the deleted connection any more |
| `RelayRuns.UnregisterKeepsOthersIff` | GO/cmd/secagent-server/internal/ws/handler.go:127-131 | UnregisterConnection, deleting by hostname, leaves every other connection registered if and only if the entry it finds is its own or there is none |
| `RelayRuns.RevokeCloses` | GO/cmd/secagent-server/internal/ws/handler.go:455-476 | once CloseAgent has returned true a connection of its host is closed and in no entry of the table |
| `RelayRuns.HandlerCloses` | GO/cmd/secagent-server/internal/ws/handler.go:126-152 | once a handler is done its connection is closed and in no entry of the table |
| `RelayRuns.RegisterReplaces` | GO/cmd/secagent-server/internal/ws/handler.go:108-124 | in every reachable state registering closes exactly the connection it replaces, one of the same host and not its own |
| `RelayRuns.StaleExitUnregistersSuccessor` | GO/cmd/secagent-server/internal/ws/handler.go:435-438 | a reachable state in which the replaced handler's exit has removed the new connection's entry although that connection is open and being read |
| `RelayLostWaiter.SharedIdLosesTheWaiter` | GO/cmd/secagent-server/internal/handlers/exec.go:145-162 | for every two requests that share an id and whose hosts both have handlers, a reachable state in which the handler of the one's host is done and that request waits on an empty channel: the other has timed out and cleaned the id up |
| `RelayLostWaiter.SafeIff` | GO/cmd/secagent-server/internal/ws/handler.go:126-140 | a request to a host with a handler is never lost to a disconnect, in any interleaving, if and only if no other request with its task id goes to a host that has a handler |
| `RelayLostWaiter.UnservedNeverWaits` | GO/cmd/secagent-server/internal/handlers/exec.go:117-125 | a request to the empty host, or to one without a handler, is refused by checkAgentOnline and never waits |
| `RelayInvariant.StepChecked` | GO/cmd/secagent-server/internal/handlers/exec.go:201-204 | only requests to a host for which a handler exists get past the online check |
| `RelayLostWaiter.UnsentIdLosesTheWaiter` | GO/cmd/secagent-server/internal/ws/handler.go:287-313 | for every request to a host with a handler, an agent that may answer an id before it was sent can have the request wait on an empty channel after the handler is done |
| `RelayLeftovers.LateStdoutStays` | GO/cmd/secagent-server/internal/ws/handler.go:260-275 | for every request, an interleaving in which a stdout message comes after the request gave up: its buffer stays, though the id is in neither pendingTasks nor taskHostnames |
| `RelayLeftovers.HostStays` | GO/cmd/secagent-server/internal/ws/handler.go:226-243 | for every request, an interleaving in which SendToAgent maps the id again after a disconnect has answered it: the mapping is still there when request and handler are done |
| `RelayTables.RelayState.RegisterConnection` | GO/cmd/secagent-server/internal/ws/handler.go:108-124 | closes the connection it replaces and takes its place, nothing else |
| `RelayTables.RelayState.UnregisterConnection` | GO/cmd/secagent-server/internal/ws/handler.go:127-140 | the host's entry is gone, its tasks are gone from three maps, their waiters have agent_disconnected unless already answered, and nothing else changed |
| `RelayTables.RelayState.CloseAgent` | GO/cmd/secagent-server/internal/ws/handler.go:455-476 | false and no change without an entry; otherwise the connection is closed and its host's tasks are resolved with agent_revoked |
| `RelayTables.RelayState.RegisterFuture` | GO/cmd/secagent-server/internal/ws/handler.go:155-167 | a new empty channel under the id, and the host of the id |
| `RelayTables.RelayState.UnregisterFuture` | GO/cmd/secagent-server/internal/ws/handler.go:170-182 | the id is gone from the three maps |
| `RelayTables.RelayState.ResolveFuturesForHostname` | GO/cmd/secagent-server/internal/ws/handler.go:185-223 | the loop over the collected ids, in any order: exactly the host's tasks are answered and forgotten |
| `RelayTables.RelayState.HandleMessage` | GO/cmd/secagent-server/internal/ws/handler.go:246-318 | only stdout and result messages that name a task change anything; a result reaches an empty channel of its task with its rc, stderr and error as they came and the accumulated stdout if it has none, a full channel and all others stay, and the task is forgotten |
| `RelayTables.RelayState.HandleStdout` | GO/cmd/secagent-server/internal/ws/handler.go:260-275 | what was buffered of any chunks, absent if none, is now what is buffered of them and this one; nothing else changes |
| `RelayTables.RelayState.HandleResult` | GO/cmd/secagent-server/internal/ws/handler.go:277-313 | the waiter is offered the message as it came but for the stdout, the task is gone from the three maps, and no other channel changes |
| `RelayTables.RelayState.AddressTask` | GO/cmd/secagent-server/internal/ws/handler.go:226-240 | agent_offline changes nothing; otherwise the task is mapped to its host before it is sent |
| `RelayTables.ChunksAreBuffered` | GO/cmd/secagent-server/internal/ws/handler.go:260-275 | any sequence of stdout messages for a task without a buffer leaves exactly what the capped buffer keeps of them |
| `RelayTables.DisconnectAnswers` | GO/cmd/secagent-server/internal/ws/handler.go:185-223 | a registered request of the host is answered with exactly the error, and other hosts' waiters are untouched |
| `RelayTables.GiveUpRestores` | GO/cmd/secagent-server/internal/ws/handler.go:155-182 | RegisterFuture followed by UnregisterFuture restores the three maps |
| `StdoutBuffer.Truncate` | GO/cmd/secagent-server/internal/ws/handler.go:265-271 | the rune-dropping loop ends, with the function Fit of its input |
| `StdoutBuffer.FitIsLongestPrefix` | GO/cmd/secagent-server/internal/ws/handler.go:265-271 | what the loop leaves is the longest whole-rune prefix within the cap |
| `StdoutBuffer.AccumulateExtends` | GO/cmd/secagent-server/internal/ws/handler.go:260-275 | the old buffer is a prefix of the new one, which is a prefix of buffer plus chunk and within the cap |
| `StdoutBuffer.BufferGrows` | GO/cmd/secagent-server/internal/ws/handler.go:260-275 | over any chunks the buffer only grows and never exceeds the cap |
| `StdoutBuffer.FitFillsUp` | GO/cmd/secagent-server/internal/ws/handler.go:265-271 | cutting loses at most three bytes of room |
| `StdoutBuffer.BufferOfStream` | GO/cmd/secagent-server/internal/ws/handler.go:260-275 | nothing is lost while the stream fits; once it does not, the length stays within three bytes of the cap |
| `StdoutBuffer.PrefixOfStreamIff` | GO/cmd/secagent-server/internal/ws/handler.go:260-275 | the buffer is a prefix of the stream if and only if, at each chunk, the stream before it fits or the first rune of the chunk does not fit after the part of the stream that does: a condition on the chunks alone |
| `StdoutBuffer.BufferedIsFit` | GO/cmd/secagent-server/internal/ws/handler.go:260-275 | as long as that holds, cutting at every chunk is cutting the whole stream once |
| `StdoutBuffer.BlockedIffNothingSlips` | GO/cmd/secagent-server/internal/ws/handler.go:260-275 | a chunk brings nothing in exactly when its first rune does not fit |
| `StdoutBuffer.SlippedRune` | GO/cmd/secagent-server/internal/ws/handler.go:260-275 | for every cap from 1 on, the one of the code among them, three chunks after which the buffer is not a prefix of the stream |
| `StdoutBuffer.OneByteBuffer` | GO/cmd/secagent-server/internal/ws/handler.go:260-275 | for one-byte runes the buffer is exactly the first cap bytes of the whole stream |
| `Enrollment.PurgesRemoveDeadRows` | GO/cmd/secagent-server/internal/storage/store_enrollment_tokens.go:167-209 | both purges remove only rows with which no later request could succeed |
| `Enrollment.RequestAfterPurge` | GO/cmd/secagent-server/internal/handlers/register.go:382-413 | one request strictly after a purge decides the same with and without it, and leaves the two states alike |
| `Enrollment.PurgeIsInvisible` | GO/cmd/secagent-server/internal/storage/store_enrollment_tokens.go:167-209 | for every run of requests strictly after a purge: same decisions (only the error code may change), same nonces, agents, keys and surviving rows |
| `Enrollment.PurgeVisibleAtTheInstant` | GO/cmd/secagent-server/internal/storage/store_enrollment_tokens.go:171-173 | at the very instant of the purge a request that would be answered is refused exactly when the token expires at that whole second |
| `EnrollmentRuns.OneShotOnce` | GO/cmd/secagent-server/internal/handlers/register.go:472-602 | with atomic requests a one-shot token yields at most one enrollment, over all runs of requests, admin actions, purges and rotations |
| `EnrollmentRuns.GrantsWithinUseCount` | GO/cmd/secagent-server/internal/storage/store_enrollment_tokens.go:116-140 | the successes of a token never exceed its use_count |
| `EnrollmentRuns.GrantsAnswerChallenges` | GO/cmd/secagent-server/internal/handlers/register.go:349-373 | every success was given for a response that decrypts, under the server's key, to the nonce and the token of the latest challenge of its host, within nonceTTL; no challenge is answered twice |
| `Enrollment.GrantNeedsNonce` | GO/cmd/secagent-server/internal/handlers/register.go:503-537 | a grant needs a live challenge of the host and a response that decrypts to its nonce and its token |
| `Enrollment.ValidIff` | GO/cmd/secagent-server/internal/handlers/register.go:382-413 | a token is accepted exactly when its row exists, no purge just before could remove it, and it allows the host; which refusal means which |
| `EnrollmentRuns.RefusedForGood` | GO/cmd/secagent-server/internal/handlers/register.go:396-404 | a token that is expired or used is refused at every later time, over every run that does not create it anew |
| `EnrollmentRuns.NoncesAfter` | GO/cmd/secagent-server/internal/handlers/register.go:503-511 | what each outcome of a request does to the nonce table: a challenge replaces the host's entry, a grant consumes a live one |
| `EnrollmentRuns.TokensAfter` | GO/cmd/secagent-server/internal/handlers/register.go:566-573 | a request either leaves the token table alone or adds one use to the row it named |
| `EnrollmentRuns.ChargedTokenIff` | GO/cmd/secagent-server/internal/handlers/register.go:474-530 | the use is counted on the token of phase 2: the challenged token is charged if and only if both phases named the same one |
| `EnrollmentRuns.ValidatedTogetherGrantedTwice` | GO/cmd/secagent-server/internal/handlers/register.go:474-573 | check and use are two store calls: on any server, two requests validated before either is counted are both granted on one use |
| `EnrollmentInFlight.StepsAreHandle` | GO/cmd/secagent-server/internal/handlers/register.go:472-602 | the steps of one request between its store calls, with nothing in between, are the request as one step |
| `EnrollmentInFlight.RunKeeps` | GO/cmd/secagent-server/internal/handlers/register.go:472-602 | over any run of requests in flight together: a grant follows its count and the count its validation, each once, and no validation of a one-shot token follows a count |
| `EnrollmentInFlight.UsedOnceIff` | GO/cmd/secagent-server/internal/storage/store_enrollment_tokens.go:116-140 | for any number of requests in flight together, a token is used at most once if and only if every ConsumeEnrollmentToken on it finds use_count 0, a test the code makes only at validation |
| `EnrollmentInFlight.GrantsNeedUses` | GO/cmd/secagent-server/internal/handlers/register.go:566-602 | each grant has a use of its own, so a token used at most once is granted at most once |
| `EnrollmentInFlight.SerialOnce` | GO/cmd/secagent-server/internal/handlers/register.go:472-602 | a one-shot token is used and granted at most once over every run in which no two requests are in flight on it at any point |
| `EnrollmentInFlight.TwoInFlightGrantedTwice` | GO/cmd/secagent-server/internal/handlers/register.go:474-573 | and without that: from every state in which two requests of two hosts have been validated on one row, with genuine responses to live challenges, a continuation grants the token to both |
| `EnrollmentInFlight.OneShotTwice` | GO/cmd/secagent-server/internal/handlers/register.go:474-573 | from a fresh server, for every two agents, a run that grants a one-shot token to both |
| `EnrollmentClient.EnrollComposition` | GO/cmd/secagent-minion/internal/enrollment/enrollment.go:101-156 | Enroll against the server with anything about other hosts in between: the client ends with exactly the signed JWT, and the agents row with its jti, if and only if phase 2 is in time, the token still valid and the server key unchanged; that JWT is about the client's host, and the server's secret accepts it as current exactly until ttl after phase 2, cut down to a whole second |
| `EnrollmentClient.GenuineResponse` | GO/cmd/secagent-server/internal/handlers/register.go:503-602 | when the server grants a genuine response to its pending challenge, and what the client then decrypts |
| `EnrollmentClient.ChallengeDecrypts` | GO/cmd/secagent-minion/internal/enrollment/enrollment.go:161-220 | the agent decrypts the challenge to the nonce and answers with nonce and token under the server's key |
| `EnrollmentClient.RegisteredKeyIff` | GO/cmd/secagent-server/internal/handlers/register.go:558-578 | the key that is registered, and that can read the JWT, is the one the challenge was encrypted for if and only if both phases name the same key |
| `EnrollmentClient.OthersKeepTheChallenge` | GO/cmd/secagent-server/internal/handlers/register.go:349-373 | requests for other hosts, admin actions and rotations leave a host's pending challenge and agents row alone |
| `Crypto.DecryptUndoesEncrypt` | GO/cmd/secagent-server/internal/handlers/register.go:892-919 | what is encrypted for a public key is read back with the matching private key and with no other |
| `Crypto.Utf8Injective` | GO/cmd/secagent-server/internal/handlers/register.go:503-537 | the bytes of a token determine it |
| `Enrollment.ProofIsUnambiguous` | GO/cmd/secagent-server/internal/handlers/register.go:503-537 | for nonces of one length, a proof is that of one nonce and one token only |
| `Enrollment.DeleteRevokes` | GO/cmd/secagent-server/internal/storage/store_enrollment_tokens.go:143-158 | a deleted token is unknown from then on, and no other token is judged differently |
| `EnrollmentService.Service.StorePendingNonce` | GO/cmd/secagent-server/internal/handlers/register.go:350-358 | the host's entry is replaced, with its expiry |
| `EnrollmentService.Service.ConsumePendingNonce` | GO/cmd/secagent-server/internal/handlers/register.go:361-373 | returns the entry if it is live and deletes it in any case |
| `EnrollmentService.Service.ConsumeEnrollmentToken` | GO/cmd/secagent-server/internal/storage/store_enrollment_tokens.go:116-140 | fails if no row has the id, otherwise adds one use to that row |
| `EnrollmentService.Service.CreateEnrollmentToken` | GO/cmd/secagent-server/internal/storage/store_enrollment_tokens.go:27-54 | refused when id or hash is taken, otherwise a row with no uses |
| `EnrollmentService.Service.PurgeExpiredEnrollmentTokens` | GO/cmd/secagent-server/internal/storage/store_enrollment_tokens.go:167-187 | removes exactly the rows whose expiry is no later than now in whole seconds, leaves the others as they are, and counts them |
| `EnrollmentService.Service.PurgeUsedOneShotEnrollmentTokens` | GO/cmd/secagent-server/internal/storage/store_enrollment_tokens.go:190-209 | removes exactly the used one-shot rows, leaves the others as they are, and counts them |
| `EnrollmentService.Service.ValidateEnrollmentToken` | GO/cmd/secagent-server/internal/handlers/register.go:382-413 | succeeds exactly on a stored token that no purge before this instant could remove and that allows the host; expired or used means exactly that a purge could have removed it |
| `EnrollmentService.Service.RegisterAgentWithToken` | GO/cmd/secagent-server/internal/handlers/register.go:472-635 | a grant consumed a live challenge whose nonce and token the response holds, added one use to that token's rows and no others, set the key and agents rows of the host, and hands out, for the key the request names, a JWT about the host that is accepted exactly until ttl has passed; a challenge encrypts the nonce and changes only the nonce table; a refusal never changes the agents table |
| `EnrollmentService.Service.VerifyResponse` | GO/cmd/secagent-server/internal/handlers/register.go:503-602 | the challenge is consumed whatever the outcome; the agents row changes exactly on a grant, which also sets the key row, counts one use and hands out a JWT of the host that lives for ttl |
| `KeyRotation.SealRoundTripIff` | GO/cmd/secagent-server/internal/handlers/register.go:140-177 | a stored RSA key comes back if and only if it was in the clear or the master key is still the same |
| `KeyRotation.CrashKeepsOldSecretIff` | GO/cmd/secagent-server/internal/handlers/security.go:112-136 | after a crash, with any writes lost, the secret read back is the old or the new one, and the old one is in a slot if and only if the new current was not written without the old as previous |
| `KeyRotation.CrashBetweenWrites` | GO/cmd/secagent-server/internal/handlers/security.go:112-136 | with no failing write, a crash between any two of the five keeps the old secret in one of the two slots |
| `KeyRotation.CrashBeforeDeadlineWrite` | GO/cmd/secagent-server/internal/handlers/security.go:118-123 | a crash after the secrets but before the deadline leaves old tokens to the deadline of the rotation before, or to none |
| `KeyRotation.CrashContainedIff` | GO/cmd/secagent-server/internal/handlers/security.go:112-136 | for any lost writes, what is accepted after the restart was accepted before the crash if and only if the new current secret was written and the old or older secret is under no later deadline |
| `KeyRotation.CrashPointContainedIff` | GO/cmd/secagent-server/internal/handlers/security.go:112-136 | without failing writes that is from the third write on, and after the second exactly if the deadline of the rotation before is no later than the new one |
| `KeyRotation.RotationSyncs` | GO/cmd/secagent-server/internal/handlers/security.go:91-136 | with all writes done the rows hold what memory holds |
| `KeyRotation.LoadInSync` | GO/cmd/secagent-server/internal/handlers/register.go:183-279 | reading them back gives the same secrets and keys, the deadline cut to whole seconds, and changes no row |
| `KeyRotation.RestartAcceptsNoMore` | GO/cmd/secagent-server/internal/handlers/register.go:217-226 | after a restart nothing is accepted that was not before; the verdict differs exactly in the cut-off fraction of a second |
| `KeyRotation.StartsAlike` | GO/cmd/secagent-server/internal/handlers/register.go:183-279 | for any rows, complete or empty: if a start gives keys, a second start on the rows it left, with any environment and generated key, gives exactly those keys and changes no row |
| `KeyRotation.KeyServer.StartTwice` | GO/cmd/secagent-server/internal/handlers/register.go:183-279 | two InitServerState calls in a row, memory lost in between: the second ends with the keys and the rows of the first |
| `KeyRotation.SignedLives` | GO/cmd/secagent-server/internal/handlers/register.go:540-556 | what is signed is about its subject and is accepted as current exactly until ttl after it was issued, cut down to a whole second |
| `KeyRotation.KeysAfter` | GO/cmd/secagent-server/internal/handlers/security.go:94-110 | after any serialised rotations and restarts: which secrets are current and previous, and which deadline is in force |
| `KeyRotation.TokensAcceptedAfter` | GO/cmd/secagent-server/internal/ws/jwt.go:37-63 | exactly the unexpired HS256 tokens are accepted that are signed with the latest secret, or with the one before within the latest grace period |
| `KeyRotation.KeyServer.InitServerState` | GO/cmd/secagent-server/internal/handlers/register.go:183-279 | afterwards memory is what the rows say; exactly the two rows a first boot lacks, the secret of the environment and the generated key, are written; it fails only on an undecryptable current key |
| `KeyRotation.KeyServer.AdminRotateKeys` | GO/cmd/secagent-server/internal/handlers/security.go:91-136 | memory is rotated whatever fails; each row holds its new value, read back as what memory holds, unless its own write is among the failing ones |
| `KeyRotation.KeyServer.Verify` | GO/cmd/secagent-server/internal/auth/jwt.go:65-86 | gives the verdict of validateJWTDualKey on every token and time |
| `Rekey.OpKeepsInv` | GO/cmd/secagent-server/internal/handlers/security.go:91-207 | whichever steps of rotations, RekeyAgents, connections and restarts interleave, and whichever row writes fail: every rekey message is for the agent, the rows can be read, and the current secret is in the previous row only if it is in the current one too |
| `Rekey.StepOnTrackIff` | GO/cmd/secagent-server/internal/handlers/security.go:141-207 | a step leaves a connected agent on the way to the current secret if and only if it does not slip (a stale send, a late registration, the entry removed by an earlier connection's handler, a rotation while it is not in the table), and repairs or started on the way |
| `Rekey.RunOnTrackIff` | GO/cmd/secagent-server/internal/handlers/security.go:141-207 | the same over every run, replaced connections, failing writes and restarts included: on track at the end if and only if every slip was repaired later |
| `RekeyRuns.StaysCaughtUpIff` | GO/cmd/secagent-server/internal/handlers/security.go:94-136 | a caught-up agent stays so over every run without a rotation, restarts included, if and only if nothing on its way to it, sent or about to be sent, carries an older secret and the row jwt_secret_current holds the current one |
| `RekeyRuns.RekeyedAgentStaysAcceptedIff` | GO/cmd/secagent-server/internal/handlers/security.go:163-207 | after any run from enrollment that caught it up, the agent is accepted with usedPrevious false until its token expires over every run up to the next rotation, past the grace deadline and across restarts, if and only if nothing stale is on its way and the row jwt_secret_current holds the current secret |
| `RekeyRuns.RestartAcceptsIff` | GO/cmd/secagent-server/internal/handlers/register.go:183-226 | the unexpired token of a caught-up agent is accepted after a restart if the row jwt_secret_current holds the secret of memory, and refused if not |
| `RekeyRuns.LostWriteRefuses` | GO/cmd/secagent-server/internal/handlers/security.go:112-136 | a rotation whose write of jwt_secret_current fails, which is only logged: the agent reads its rekey, and after a restart its token is refused at every time |
| `RekeyRuns.WritesAreWritten` | GO/cmd/secagent-server/internal/handlers/security.go:112-136 | the write steps of this machine, with what becomes of each, leave the rows of the crash results of KeyRotation |
| `Rekey.ConnectedAgentConvergesIff` | GO/cmd/secagent-minion/internal/ws/dispatcher.go:407-426 | after any run from enrollment that ends connected with nobody about to send, the agent, having read its messages, holds a token of the current secret if and only if no slip was left unrepaired |
| `Rekey.RekeyConvergesIff` | GO/cmd/secagent-server/internal/handlers/security.go:408-415 | on one connection, with any rotations and reads between a RekeyAgent's reading of the secret and its sending, the agent ends with the current secret if and only if no rotation stored a new one in between |
| `RekeyRuns.StaleRekey` | GO/cmd/secagent-server/internal/handlers/security.go:141-200 | the run in which a whole rotation falls in between: the agent reads the new token, then the old one, and stays behind |
| `RekeyRuns.GraceConnectionRekeys` | GO/cmd/secagent-server/internal/ws/handler.go:418-433 | an agent let in with the previous secret is sent, and applies, a token of the current one |
| `RekeyTokens.HeldTokenLives` | GO/cmd/secagent-server/internal/handlers/security.go:163-236 | over every run from enrollment the token the agent holds is about its own host and was issued by the enrollment or by a step of the run, since which it is accepted under its secret exactly until ttl has passed |
| `RekeyTokens.RekeyedTokenLives` | GO/cmd/secagent-minion/internal/ws/dispatcher.go:407-426 | an agent that reads up to the message just sent to it holds a token of the secret that was sent, about its host, that lives until ttl after the sending, or an hour for a ttl of 0 |
| `RekeyRuns.RotationDuringConnectIff` | GO/cmd/secagent-server/internal/ws/handler.go:398-433 | a rotation between validation and registration of a connection is made up for if and only if the agent had used the previous secret |
| `RekeyRuns.ListedBeforeRegisterIff` | GO/cmd/secagent-server/internal/handlers/security.go:141-160 | a rotation that lists between validation and registration and sends after it reaches an agent validated as current if and only if the host had an entry, that of the connection being replaced included |
| `JobRegistry.SaveIsAtomic` | GO/cmd/secagent-minion/internal/registry/registry.go:219-243 | at every moment of a save, failing or not, the jobs file is the old one or the complete new one |
| `JobRegistry.CrashDuringCall` | GO/cmd/secagent-minion/internal/registry/registry.go:71-180 | a crash at any moment of a call: New reads the jobs before the call or after it |
| `JobRegistry.CrashSafety` | GO/cmd/secagent-minion/internal/registry/registry.go:71-151 | a crash at any moment of any sequence of calls: New succeeds and reads what memory held at one point of the run |
| `JobRegistry.InStepIff` | GO/cmd/secagent-minion/internal/registry/registry.go:219-243 | disk and memory agree after a call if and only if the save succeeded or the call changed nothing |
| `JobRegistry.DiskEqualsMemory` | GO/cmd/secagent-minion/internal/registry/registry.go:71-180 | if every save succeeds, disk equals memory after every call |
| `JobRegistry.RestartRestores` | GO/cmd/secagent-minion/internal/registry/registry.go:131-151 | after a crash, New and RestoreOnRestart: every job is finished or alive, finished ones keep their rc, none is lost or invented, and doing it again changes nothing |
| `JobRegistry.Registry.Open` | GO/cmd/secagent-minion/internal/registry/registry.go:58-69 | an absent file gives an empty registry, a decodable one its jobs, and exactly an undecodable one is an error that gives none |
| `JobRegistry.Registry.Save` | GO/cmd/secagent-minion/internal/registry/registry.go:219-243 | writes a temporary file piece by piece and renames it; each failure leaves its own disk |
| `JobRegistry.Registry.RegisterJob` | GO/cmd/secagent-minion/internal/registry/registry.go:72-87 | the job is stored field by field, unfinished and with rc 0, the others stay, and on success the file holds them all |
| `JobRegistry.Registry.UpdateJob` | GO/cmd/secagent-minion/internal/registry/registry.go:103-113 | an unknown id is an error and changes nothing; otherwise finished and rc of that job alone are set and saved |
| `JobRegistry.Registry.RemoveJob` | GO/cmd/secagent-minion/internal/registry/registry.go:116-121 | the job is gone and the rest saved |
| `JobRegistry.Registry.RestoreOnRestart` | GO/cmd/secagent-minion/internal/registry/registry.go:131-151 | the loop marks exactly the unfinished dead jobs, and saves only if there was one |
| `JobRegistry.Registry.CheckAndKillExpired` | GO/cmd/secagent-minion/internal/registry/registry.go:154-180 | the loop finishes exactly the unfinished jobs past their start plus timeout with rc -15, signals exactly their processes, and saves only if there was one |
| `AgentSlots.SlotsAreRunningExecs` | GO/cmd/secagent-minion/internal/ws/dispatcher.go:434-444 | on each connection the slots in use are the exec goroutines not yet finished, at most maxConcurrent |
| `AgentSlots.CancellableHoldSlots` | GO/cmd/secagent-minion/internal/ws/dispatcher.go:493-503 | with distinct ids, what can be cancelled holds a slot, and what runs can be cancelled |
| `AgentSlots.CancelReachesItsTask` | GO/cmd/secagent-minion/internal/ws/dispatcher.go:505-515 | a cancel reaches the goroutine of its task and no other |
| `AgentSlots.NoExecIsLost` | GO/cmd/secagent-minion/internal/ws/dispatcher.go:434-454 | every exec message read was answered busy, holds a slot, or has finished: the three counts add up |
| `AgentSlots.BusyIff` | GO/cmd/secagent-minion/internal/ws/dispatcher.go:434-454 | in every reachable state an exec message is answered busy if and only if exactly maxConcurrent execs of its connection are unfinished, and otherwise becomes one of them |
| `AgentSlots.BusyWasFull` | GO/cmd/secagent-minion/internal/ws/dispatcher.go:434-454 | over every run, whatever was answered busy was read when maxConcurrent execs of its connection were unfinished |
| `AgentSlots.HoldersCanMove` | GO/cmd/secagent-minion/internal/ws/dispatcher.go:438-444 | a slot holder can always go on; giving the slot back never blocks |
| `AgentSlots.BoundIsPerConnection` | GO/cmd/secagent-minion/internal/ws/dispatcher.go:392 | the bound is per connection: with maximum 1 two connections run two execs at once |
| `Reconnect.ReconnectManager.NextDelay` | GO/cmd/secagent-minion/internal/ws/dispatcher.go:118-125 | the k-th delay since the last reset is min(base * 2^k, max) |
| `Reconnect.ReconnectManager.Reset` | GO/cmd/secagent-minion/internal/ws/dispatcher.go:128-130 | counting starts again at 0 |
| `Reconnect.DelaysGrow` | GO/cmd/secagent-minion/internal/ws/dispatcher.go:118-125 | delays are non-decreasing and between base and max |
| `Reconnect.DelayDoubles` | GO/cmd/secagent-minion/internal/ws/dispatcher.go:118-125 | the first delay is the base, and each one is twice the one before it, up to the maximum |
| `Reconnect.HandleUnauthorized` | GO/cmd/secagent-minion/internal/ws/dispatcher.go:287-336 | without an enrollment configuration nothing is tried; with one, attempts go on, with a pause of 5n seconds after the n-th, until one enrolls the agent, is refused with 403, is number MaxRetries, or is cancelled in its pause |
| `Reconnect.Run` | GO/cmd/secagent-minion/internal/ws/dispatcher.go:245-282 | for every script of outcomes: every action is the one due after those before it, nothing is due at the end, and the script is dialled as far as RightDials says |
| `Reconnect.AttemptsOk` | GO/cmd/secagent-minion/internal/ws/dispatcher.go:310-335 | at most MaxRetries attempts, none after a 403, with growing pauses |
| `Reconnect.RunIsDisciplined` | GO/cmd/secagent-minion/internal/ws/dispatcher.go:245-336 | over every run: nothing follows a close with 4001 or a 403 while enrolling, attempts are bounded, and every delay is the one its place calls for |
| `Reconnect.DialsGoOn` | GO/cmd/secagent-minion/internal/ws/dispatcher.go:245-336 | the n-th dial is that of entry n; the agent dials on exactly as long as it is not closed with 4001, not cancelled in its sleep, and enrolls after a 401 within MaxRetries; it stops once, at the end, for the reason of the last entry dialled |
| `Reconnect.EveryActionIsDue` | GO/cmd/secagent-minion/internal/ws/dispatcher.go:245-336 | every dial, attempt, pause, sleep and stop of every trace is the one determined by the action before it and the entry of the script |
| `Template.Render` | GO/cmd/secagent-server/internal/hooks/template.go:8-18 | for some listing of the map, the single-pass replacement; for prefix-free tokens, the order-independent rendering |
| `Template.AnyOrderRenders` | GO/cmd/secagent-server/internal/hooks/template.go:8-18 | for prefix-free tokens every iteration order renders the same string |
| `Template.DeterministicIff` | GO/cmd/secagent-server/internal/hooks/template.go:8-18 | the result is independent of the map's order, for all values and templates, if and only if no token is a prefix of another |
| `Template.PlainKeysArePrefixFree` | GO/cmd/secagent-server/internal/hooks/template.go:13-16 | keys without a closing brace, such as those of buildVars, give prefix-free tokens |
| `Template.RenderSegments` | GO/cmd/secagent-server/internal/hooks/template.go:5-7 | a template of literals and known tokens renders to literals and values, whatever the values contain: nothing is expanded twice |
| `Template.UnknownTokenStays` | GO/cmd/secagent-server/internal/hooks/template.go:5-7 | an unknown token is left unchanged |
| `Template.NothingToReplace` | GO/cmd/secagent-server/internal/hooks/template.go:9-11 | with no variables the template is returned as it is |
| `Template.RenderAny` | GO/cmd/secagent-server/internal/hooks/executor.go:54-73 | keeps nesting, map keys, list lengths and non-string leaves, and every string leaf is what Render may give for the one in its place |
| `Template.RendersJsonOnce` | GO/cmd/secagent-server/internal/hooks/executor.go:54-73 | for prefix-free tokens that determines the result |
| `Template.BuildVarsArePrefixFree` | GO/cmd/secagent-server/internal/hooks/dispatcher.go:34-42 | the keys of buildVars give prefix-free tokens |
| `PathConfine.ValidatePath` | GO/cmd/secagent-minion/internal/files/files.go:145-163 | accepts exactly the non-blank paths whose components extend those of an allowed prefix, returns the cleaned path, and otherwise the right error |
| `PathConfine.AdmitsIff` | GO/cmd/secagent-minion/internal/files/files.go:155-160 | the string comparison decides exactly the comparison of normalised components |
| `PathConfine.ConfinedIff` | GO/cmd/secagent-minion/internal/files/files.go:145-163 | with absolute prefixes a path is accepted exactly when it is absolute and the place it names lies at or below the place of a prefix |
| `PathConfine.ResultIsPlain` | GO/cmd/secagent-minion/internal/files/files.go:145-163 | an accepted result is absolute and has no empty, "." or ".." component |
| `PathConfine.SiblingRefused` | GO/cmd/secagent-minion/internal/files/files.go:155-160 | a sibling that shares only a string prefix is refused |
| `PathConfine.AcceptedAgainIff` | GO/cmd/secagent-minion/internal/files/files.go:145-163 | checking a result again gives it back, if and only if it is not blank; the result of an absolute path never is |
| `PathConfine.BlankResult` | GO/cmd/secagent-minion/internal/files/files.go:146-152 | a relative path and a prefix for which the second check fails |
| `PathConfine.CleanIdempotent` | GO/cmd/secagent-minion/internal/files/files.go:151 | cleaning twice is cleaning once |
| `PathConfine.CleanNamesTheSamePlace` | GO/cmd/secagent-minion/internal/files/files.go:151 | the cleaned path names the same place from every working directory |
| `Capture.LimitedBuffer.Write` | GO/cmd/secagent-minion/internal/executor/executor.go:169-177 | the buffer holds exactly the first StdoutBufferMax+1024 bytes written; the count is short on the one write that crosses the limit |
| `Capture.CutOnceIsEnough` | GO/cmd/secagent-minion/internal/executor/executor.go:169-177 | cutting at every write is cutting the joined stream once |
| `Capture.MarginDecides` | GO/cmd/secagent-minion/internal/executor/executor.go:148-152 | the first StdoutBufferMax bytes of what is held are those of the stream, and the margin tells exactly whether there were more |
| `Capture.Run` | GO/cmd/secagent-minion/internal/executor/executor.go:69-162 | stdout is the first StdoutBufferMax bytes written; truncated is set exactly when there were more or the timeout struck; rc for every way of ending, never 0 once an output was cut short or stdin was read to its end |
| `Capture.BytesReader.Read` | GO/cmd/secagent-minion/internal/executor/executor.go:193-200 | hands out the bytes in order, none skipped or repeated |

## Left out

- HTTP routing, JSON, TLS, sockets, logging, the command line, the Ansible plugins: plumbing with no hard property.
- RSA, OAEP, AES-GCM, HMAC and SHA-256 as algorithms: keys, ciphertexts and digests are terms; OAEP's limit on the plaintext length is not modelled.
- SQLite: tables are maps and each statement is one atomic step. Failures of statements other than those named in the model (such as reading a config row) are not modelled.
- The regular expression of a token's host pattern: any predicate on pattern and host.
- Clocks: an enrollment request reads one time for all of its checks; the code reads the clock several times. Delays between dials are real numbers, not floating point, and the overflow of a huge power is not modelled.
- Random values (nonces, ids, keys, secrets) come with each request; secrets of successive rotations are distinct by assumption.
- Fairness and time in the relay: a timeout may strike at any step of a wait, and no bound on waiting is claimed.
- Rotations running at the same time as each other: in Rekey and KeyRotation one starts when the one before has sent, or when the server has restarted.
- One agent per host and one connection of it at a time: a connection is over for the agent and for what is sent to it at once, and only its handler is late to notice. A rekey message on it that was not read is lost with it.
- A rekey that is not sent because the agents row cannot be read or the write fails on a live connection.
- The agent's handling of rekey is about an agent whose private key matches its agents row and is configured; a rekey without it is ignored by the code.
- Enrollment through enrollment_bridge.go, which sends field names the server does not read; the composition is with enrollment.Enroll. The legacy flow and TokenRefresh.
- A failure of AddAuthorizedKey, which the code logs and goes on; the keys table plays no part in a decision.
- JTI blacklist and suspension: nothing in the modelled code consults them on connect or exec.
- NATS, AsyncStatus and StoreResult, hook delivery, facts, inventory, plugin tokens.
- The mapping of agent errors to HTTP status codes.
- Bytes of Windows paths: filepath is modelled for Unix, without volume names or backslashes. Symbolic links: the check is lexical, and so is the place a path names.
- GetAsyncStatus and GetJob of the registry: reads with no hard property. An interrupted rename: the file system is assumed to rename atomically.
- Capture.Run: takes the exit code as given, and of os/exec only that a short count or an error other than io.EOF makes Wait fail; the signal a command gets when its output is no longer read is part of the exit code.
- EnrollmentRuns.OneShotOnce: is for requests that run atomically; EnrollmentInFlight.SerialOnce needs only that no two are in flight on the token, and EnrollmentInFlight.UsedOnceIff has the exact condition.
- AgentSlots.CancellableHoldSlots: needs distinct task ids; with a repeated id the later registration replaces the earlier one.
