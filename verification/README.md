# A verified model of wldm's login path

wldm is a display manager. A privileged daemon starts a greeter, lets one PAM worker process per attempt
authenticate the user, spawns user sessions, and reports them to its clients, one of which mirrors them on
D-Bus. This project models that path in Dafny and proves what its parts promise each other.

## How the model is built

The project follows the program's components.

- **Authentication in the daemon.** `AuthMachine` is the state of one client (`ClientState`, its authentication
  sessions and its timeout tasks). A step is the code that one task runs between two `await`s: the client's
  handler, a timeout task, the main loop when the client's process has ended, or the shutdown task. Steps interleave freely; requests and worker messages are
  arbitrary. `AuthTheorems`, `AuthEffects`, `AuthEndings`, `AuthRelay`, `AuthWorkers` and `AuthOrphans` hold for
  every such run; `AuthExamples` gives concrete runs. `ClientTasks` is the same code on objects that are compared by identity and changed in
  place; each of its methods is proved to do to the objects exactly what the step function does to their values.
- **The whole login.** `LoginSystem` joins the daemon, the greeter (`GreeterFlow`) and any number of PAM workers
  by queues. `LoginAgreement`, `LoginAnswers`, `LoginTearDown`, `LoginNames`, `LoginWorkers`, `LoginRelay` and `LoginTheorems` hold
  for every interleaving of all of them; `LoginExample` shows that every acceptable login can get through. `GreeterUi`
  is the greeter's application object with its blocking calls, which `GreeterClient` describes: one click is proved to
  be the step machine run until no request is pending.
  `PamConversation` is the conversation callback, with the response array that it fills for PAM.
- **Wire formats.** `Utf8`, `Framing`, `PamWorkerProtocol`, `GreeterProtocol` and their proofs treat both binary
  protocols down to the byte, `WireLayouts` at their literal names, `SizeBounds` says which messages fit a frame, `FrameReader` and `MessageStream`
  read frames from arbitrary chunks.
- **Supervision.** `Supervisor` is the restart loop, `SessionRegistry` and `DaemonSessions` the bookkeeping of
  user sessions, `Shutdown` and `ShutdownWorkers` the whole daemon's cleanup over several clients and the registry,
  `DbusMirror` the D-Bus adapter's object registry.
- **Small parsers.** `ExecFieldCodes` (Desktop Entry Specification, section "The Exec key"), `IniFile`,
  `LastSession`.

Conventions: bytes are integers below 256 and texts are sequences of Unicode scalar values with a real UTF-8
codec; 32-bit lengths and integers are explicit; an exception is an `Err` or a branch of its own. A worker channel
that the daemon has closed yields nothing but end of file. A cancelled task never acts again. A send is one append
to a queue. A socket takes at once what is written to it, so draining a write to a channel that was closed before
always raises. Request ids are distinct, as UUIDs are, and modelled by the request's number. Clocks, processes, PAM
and D-Bus are oracles: every choice they could make is a label or a parameter. A run is the sequence of its states
together with the label of every step, and a result about runs holds in every state of every run.

## What was found

- The first prompt of a session fits its response up to 1963 bytes, a later one up to 1961, although the worker's frame
  carries 2029. A longer one reaches the daemon, its `pending` response is dropped, and the greeter waits until a
  re-exec or the end of its connection (`SizeBounds.WorkerPromptFits`, `SizeBounds.PendingResponseFits`,
  `LoginAgreement.DroppedAnswerIsAwaited`). A long `failed` message meets the same fate
  (`SizeBounds.FailureResponseFits`).
- A continue-session that arrives after an expiry or shutdown has closed the worker's channel, and before the reference
  to the session is cleared, is written to a closed channel: draining it raises, the client's task ends, and the request
  is never answered. `AuthTheorems.AnsweredUnlessClosed` shows that this is the only way if the workers behave, and
  `AuthExamples.AReplyGoesUnanswered` is a run.
- Shutdown clears whatever session it finds once the worker it was stopping has ended. If that worker was ready, its
  session was started meanwhile, and the client created a new one, the new worker is left behind
  (`AuthExamples.ANewSessionIsOvertaken`); `AuthOrphans.JoinedSettles` gives the exact condition.
- A `state-changed` event whose list of sessions does not fit 2048 bytes is dropped, so a client keeps an old
  view; `SessionRegistry.ViewsConvergeIffTheyFit` gives the exact condition and `SnapshotFitsExactly` the number of
  bytes.
- An exception while a worker's first message is read (a malformed frame, say) leaves that worker's channel open and
  unknown to the daemon; before shutdown no worker is lost in any other way (`AuthOrphans.NoWorkerIsForgotten`,
  `AuthOrphans.LostForGood`, `AuthExamples.AWorkerIsLost`).
- If the operating system hands out the pid of a session that has ended but whose end was not handled yet, handling it
  removes the new, running session from the registry (`SessionRegistry.ConservedIffFresh`,
  `SessionRegistry.ReusedPidLosesASession`).
- While the connection is being torn down, the daemon may clear a session whose prompt the greeter still shows, with
  nothing left to tell it (`LoginExample.TornDownClaim`); `LoginTearDown.HeldUnlessCleared` is the exact condition.
- The synchronous frame reader reports a stream that ends inside a header as a clean end of file when it is given
  no message for that case, the asynchronous one reports an error (`FrameReader.ReadersAgreeUnlessHeaderCut`).
- `Documentation/pam-worker-protocol.md` describes `failed` with a message only, and `Documentation/protocol.md` a
  `start-session` without name, icon and desktop file; the code sends `code` and `message`, and all five fields. The
  model follows the code.

## Model

| member | source | states |
|---|---|---|
| LoginAgreement.NeverClaimsMore | src/wldm/greeter/auth.py:91-224 | in every reachable state of greeter, daemon and workers, a greeter that is not busy shows a prompt only if the daemon's current session is unready and asked exactly that prompt last, and shows "ready" only if the current session is ready, unless an expiry is still on its way to it; the connection must not be being torn down, for which see LoginTearDown.HeldUnlessCleared |
| LoginAgreement.ThreePartyAgreement | src/wldm/greeter/client.py:68-167 | with no message left for the greeter to read the agreement holds without exception, across prompts, retries, cancel, expiry, session-finished and re-exec |
| LoginTearDown.HeldUnlessCleared | src/wldm/daemon.py:675-724 | in every reachable state without exception, torn down, shut down or about to expire, what a greeter that is not busy shows is held by the daemon exactly if the daemon has not cleared its current session: that session never differs from what is shown |
| LoginTearDown.DoFirm | src/wldm/daemon.py:483-724 | every step keeps what this rests on: a handler that ends in good order leaves its session as the last answer described it, and a start-session for a ready session is refused only for want of a session |
| LoginAgreement.DoKeeps | src/wldm/daemon.py:483-615 | every step of greeter, daemon, timers, shutdown and workers keeps the joint invariant behind the agreement |
| LoginAnswers.EveryAnswerFits | src/wldm/daemon.py:497-618 | in every reachable state each answer carries the number of a request the greeter sent and is of a kind that this request may get |
| LoginAnswers.CancelIsHeeded | src/wldm/greeter/auth.py:126-136 | a cancel click while something is shown sends cancel-session; when its answer is read, it is an acceptance, the daemon has no current session, and the greeter shows nothing |
| LoginAnswers.ClicksSend | src/wldm/greeter/auth.py:126-224 | what each click adds to the greeter's requests, by what is on the screen and in the entry |
| LoginAnswers.RetryAsksAgain | src/wldm/greeter/auth.py:139-174 | exactly a retryable refusal of a reply makes the greeter create a session for the same user again |
| LoginNames.UsersAgree | src/wldm/greeter/auth.py:16-28 | what a greeter shows under a user name it remembers belongs to a daemon session for exactly that name |
| LoginNames.DoNames | src/wldm/daemon.py:497-519 | the daemon's last accepted user is always the user of the last create-session it has read |
| LoginTheorems.RelayIsExact | src/wldm/pam/worker.py:36-69 | until its first prompt that is cancelled or cannot be put, the i-th answer PAM gets for a session is one reply at a definite position of the greeter's requests: after the session's create-session, after the replies to its earlier prompts, before the next create-session; it was entered while the greeter showed the session's i-th prompt as the response to the session's previous request had brought it, and is empty for info and error, otherwise what the user entered, neither empty nor over-long |
| LoginTheorems.NoReplyServesTwice | src/wldm/daemon_auth.py:150-168 | two different answers given to PAM, in one session or in two, are two different replies of the greeter's |
| LoginTheorems.ArraysHoldTheReplies | src/wldm/pam/worker.py:216-248 | a response array given to PAM has one slot for each message of its batch, in order, holding the greeter's reply to the prompt asked for that message, what the user entered and not empty if the message asks, or nothing if it only informs; it is what the callback computes |
| LoginWorkers.ArrayIsConverse | src/wldm/pam/worker.py:186-248 | the interleaved steps by which a worker asks and hears one batch compute the callback's array and consume the same messages |
| LoginTheorems.EveryPromptAnswered | src/wldm/pam/worker.py:236-248 | until the first cancel every prompt but a last open one has been answered, in order |
| LoginRelay.ForwardedMeetsPrompt | src/wldm/daemon.py:554-584 | a reply that the daemon is about to forward answers the outstanding prompt of the current session |
| AuthRelay.StepTalks | src/wldm/daemon_auth.py:53-168 | one step of the daemon writes at most one answer, to the session that is current, unready and open, and reads at most one message, from the session it awaits |
| AuthRelay.ThreadsStep | src/wldm/daemon.py:497-609 | every step keeps the thread of each session: its first prompt is relayed by the response to its create-session, each later one by the response to the reply before; sessions stem from distinct create-sessions |
| LoginExample.EveryLoginCanSucceed | src/wldm/daemon.py:615-645 | for every acceptable user name, reply and command some run spawns that command for that user, PAM having got an array with that reply |
| LoginExample.TornDownClaim | src/wldm/daemon.py:879-881 | the condition is needed: once shutdown has begun, a greeter with nothing left to read can show a prompt the daemon no longer holds |
| AuthTheorems.OneShotAuthorization | src/wldm/daemon.py:273-306 | every spawn for a user directly follows the authorization of that user and command, which directly follows the user's ready report, which directly follows the acceptance of a create-session naming the user; no replacement, cancel, expiry, exit or other start stands between; spawns never outnumber ready reports |
| AuthEffects.StartFollowsReady | src/wldm/daemon.py:273-306 | told by requests and worker messages alone: a start-session is accepted only behind an accepted create-session for that user and a ready report, with no other create-session, cancel, expiry, exit or start since |
| AuthEffects.CancelForbidsStart | src/wldm/daemon.py:611-614 | after a cancel-session no start-session is accepted before a worker has reported ready again |
| AuthEffects.SpawnFollowsStart | src/wldm/daemon.py:615-645 | told in the same way: a user session is spawned only behind such a start-session, for its user and command |
| AuthEffects.StepLogs | src/wldm/daemon.py:483-697 | the history that the invariants speak of is the list of what the labels decide: which requests, worker messages, expiries and exits count |
| AuthEffects.LaunchInOrder | src/wldm/daemon.py:618-645 | a launch announces the session, spawns it, publishes the state and asks for a re-exec, in this order and each once |
| AuthEffects.AnsweredAtOnce | src/wldm/daemon.py:497-618 | exactly which requests are refused at once and with which code, which are accepted at once, and which have to wait for a worker |
| AuthEndings.EndIsComplete | src/wldm/daemon_auth.py:53-71 | whatever ends a session (replacement, cancel, failure, exit) leaves no current session, no timeout and a closed channel, with cancel written to it unless the worker ended itself; only then is the cancel-session accepted, the failure reported under its code, the new worker started for the new user, or the connection given up |
| AuthEndings.ExpiryIsComplete | src/wldm/daemon_auth.py:188-201 | an expiry that runs to its end leaves its session told, closed, not current and untimed, and announces itself |
| AuthEndings.ShutdownIsComplete | src/wldm/daemon.py:879-881 | shutdown first ends the timeout and tells the current worker to cancel, then closes its channel, then clears the reference |
| AuthEndings.NoWorkerIsCutOff | src/wldm/daemon_auth.py:53-71 | in every state, a worker whose channel was closed had been told to cancel or had ended itself |
| AuthEndings.EveryPromptIsTimed | src/wldm/daemon.py:130-167 | with a timeout configured and no shutdown, every current session that waits for a reply has a timeout task of its own that can still act |
| AuthTheorems.SpawnsAreCovered | src/wldm/daemon.py:615-645 | n ready reports for a user allow at most n spawns |
| AuthTheorems.TimerIsolation | src/wldm/daemon.py:143-167 | a timeout task touches, clears or announces only the session it was started for, and that only while it is not ready and current, unless shutdown took it away inside the expiry; it leaves the handler and every other task alone |
| AuthTheorems.ExpiriesAreDecided | src/wldm/daemon_auth.py:188-197 | every expiry in progress, shutdown or not, was begun by its own task while its session was current and not ready |
| AuthTheorems.AtMostOneArmedTimer | src/wldm/daemon.py:114-140 | a client has at most one timeout task that can still act, and it is the registered one |
| AuthTheorems.TimerSchedule | src/wldm/daemon_auth.py:171-201 | a task warns at most once, with a third of the timeout left, rounded down but at least a second, and expires after exactly the configured timeout |
| AuthTheorems.WarnsBeforeExpiry | src/wldm/daemon_auth.py:171-201 | a task that begins to expire its session has warned once before, exactly if the timeout is at least two seconds |
| AuthTheorems.ResponsesFollowRequests | src/wldm/daemon.py:675-688 | responses carry the ids of the requests in their order, each at most once; at most the newest request is unanswered |
| AuthTheorems.EveryRequestAnswered | src/wldm/daemon.py:483-618 | every request but the one being worked on has been answered exactly once, in order, in exactly those runs without an exception while the daemon deals with a worker |
| AuthTheorems.UnansweredForGood | src/wldm/daemon.py:675-697 | the request that such an exception met is never answered, whatever happens later |
| AuthTheorems.AnsweredUnlessClosed | src/wldm/daemon_auth.py:150-166 | if no worker fails of its own, a request goes unanswered in exactly those runs in which a reply is taken while the current session's channel is closed |
| AuthExamples.AReplyGoesUnanswered | src/wldm/daemon.py:152-156 | a run with well-behaved workers in which an expiry is closing the channel when a reply arrives, and the reply is never answered |
| AuthTheorems.PromptsAndAnswersAlternate | src/wldm/daemon_auth.py:110-168 | start comes first on a worker's channel, and answers never run ahead of prompts nor fall more than one behind |
| AuthTheorems.AnswersMeetAPrompt | src/wldm/daemon.py:554-584 | an answer is forwarded only to the current unready session with an outstanding prompt, unchanged |
| AuthTheorems.JoinedIsQuiescent | src/wldm/daemon.py:879-884 | once shutdown has joined a client's task, no current session, armed timer, handler or channel to the client is left (its workers: AuthOrphans.JoinedSettles) |
| AuthTheorems.QuiescenceIsStable | src/wldm/daemon.py:702-724 | a joined client authorizes, spawns, stops and creates nothing any more |
| AuthTheorems.StepKeeps | src/wldm/daemon.py:483-697 | every step of the handler, the timeout tasks and shutdown keeps the invariant of one client |
| AuthOrphans.OrphansExactly | src/wldm/daemon.py:121-127 | in every state of every run the unfinished workers that nobody holds or is closing are exactly those some step abandoned, and they stay so |
| AuthOrphans.NoWorkerIsForgotten | src/wldm/daemon.py:497-615 | until shutdown begins these are exactly the workers whose first message met an exception |
| AuthOrphans.LostExactly | src/wldm/daemon_auth.py:110-147 | the same in any run in which shutdown overtakes no session |
| AuthOrphans.LostForGood | src/wldm/daemon_auth.py:110-147 | a worker lost in that way is unfinished and stays so for good, through shutdown as well |
| AuthOrphans.JoinedSettles | src/wldm/daemon.py:879-884 | when shutdown has joined the client's task, a worker has reported ready or had its channel closed exactly if no step abandoned it |
| AuthOrphans.JoinedSettlesUnlessLost | src/wldm/daemon.py:121-127 | if shutdown overtook no session, exactly if its first message met no exception |
| AuthExamples.AWorkerIsLost | src/wldm/daemon_auth.py:137-147 | a run in which a first message raises and its worker is left behind |
| AuthExamples.ANewSessionIsOvertaken | src/wldm/daemon.py:879-881 | a run in which a ready session is started and a new one created while shutdown still waits for the old worker, and clearing the reference leaves the new worker behind |
| AuthWorkers.StepAccounts | src/wldm/daemon.py:497-697 | every step keeps the orphans and adds exactly the sessions it abandons, decided by the guards of the branches that let go of a session; a channel is closed before the reference to it is cleared |
| AuthAgreement.StepDescribed | src/wldm/daemon.py:520-609 | after every step the last answer sent describes the current session: a pending answer its last prompt, a ready answer a ready session, and only an announced expiry ends it |
| AuthAgreement.StepNumbered | src/wldm/daemon.py:675-688 | responses leave in the order of the requests they answer |
| ClientTasks.ClientState.CancelAuthTimeout | src/wldm/daemon.py:114-118 | changes the client's objects as the step function changes their values |
| ClientTasks.ClientState.StopClientAuthSession | src/wldm/daemon.py:121-127 | as the step function: cancels the timer, then writes cancel or closes the channel of the current session |
| ClientTasks.ClientState.HandleRequest | src/wldm/daemon.py:483-618 | one request, taken by the idle handler, does to the objects what OnRequest does to their values |
| ClientTasks.ClientState.WorkerSpawned | src/wldm/daemon_auth.py:110-147 | a new session object, not yet the current one, with the start message written |
| ClientTasks.ClientState.WorkerSays | src/wldm/daemon.py:520-609 | what follows each kind of worker message, on the objects |
| ClientTasks.ClientState.StopContinues | src/wldm/daemon_auth.py:53-71 | closing the channel and clearing the current session, on the objects |
| ClientTasks.ClientState.ResetAuthTimeout | src/wldm/daemon.py:130-167 | replaces the registered timeout task by a new one for the session just prompted |
| ClientTasks.ClientState.TimerRuns | src/wldm/daemon_auth.py:171-201 | the timeout task compares sessions by identity and does what OnTimer does |
| ClientTasks.ClientState.LaunchContinues | src/wldm/daemon.py:618-645 | announces, spawns, publishes and asks for a re-exec, in this order |
| ClientTasks.ClientState.CleanupRuns | src/wldm/daemon.py:702-724 | what shutdown does with this client between two awaits |
| GreeterClient.CallReturnsItsAnswer | src/wldm/greeter/client.py:125-167 | a call returns the first response with its id and has then handled every event before it exactly once, in order, and read nothing after it |
| GreeterClient.AnswersAreFound | src/wldm/greeter/client.py:125-167 | a call that returns an answer found it in its channel, before anything that ends the call |
| GreeterClient.CallEndsAt | src/wldm/greeter/client.py:125-167 | a call ends exactly at the first of its answer, a malformed frame, a re-exec and the end of the channel, and how |
| GreeterClient.DriveWaits | src/wldm/greeter/client.py:125-167 | running the step machine while a request is pending is waiting for its answer and going on from it |
| GreeterUi.GreeterApp.SendRecvAnswer | src/wldm/greeter/client.py:125-167 | the blocking loop computes Wait: answer, unread rest, handled events, lost connection and re-exec |
| GreeterUi.GreeterApp.PollEvents | src/wldm/greeter/client.py:27-65 | idle polling handles every arrived event once, in order, and drops responses, up to the first malformed frame or the end of the channel, which make it quit, or the first re-exec, which leaves the rest to a fresh program |
| GreeterUi.GreeterApp.HandleEvent | src/wldm/greeter/client.py:68-122 | each event changes the conversation flags as the step machine says: a starting session makes busy, an expiry or a finished session clears, a warning changes nothing |
| GreeterUi.GreeterApp.SetConversationPrompt | src/wldm/greeter/curses/app.py:303-316 | shows a prompt, which ends any ready state, and moves the focus unless the prompt only informs |
| GreeterUi.GreeterApp.SetSessionReady | src/wldm/greeter/curses/app.py:318-326 | shows a ready session, which ends any prompt |
| GreeterUi.GreeterApp.ResetAuthFlow | src/wldm/greeter/curses/app.py:328-337 | back to the user name entry: nothing shown, not busy, no name remembered |
| GreeterUi.GreeterApp.HandleConversationAnswer | src/wldm/greeter/auth.py:91-123 | an answer leads to a prompt, a ready session or a cleared conversation; unknown styles clear it |
| GreeterUi.GreeterApp.CreateSessionForUsername | src/wldm/greeter/auth.py:16-28 | the request and everything its answer causes is the step machine run to its end |
| GreeterUi.GreeterApp.OnLoginClicked | src/wldm/greeter/auth.py:139-224 | one click, with its blocking requests and its retry, is the step machine run until no request is pending; it writes exactly the start, the reply or the name that the screen calls for, and after a retryable refusal the name again |
| GreeterUi.GreeterApp.OnCancelClicked | src/wldm/greeter/auth.py:126-136 | one cancel click is the step machine run until no request is pending; it writes cancel-session exactly if a prompt or a ready session is shown, and clears the screen |
| PamConversation.BatchSucceedsExactly | src/wldm/pam/worker.py:186-248 | a batch succeeds exactly if every message can be put as a prompt and meets an answer; slot k then holds answer k, or nothing for a message that only informs |
| PamConversation.BatchFailsAtFirst | src/wldm/pam/worker.py:216-248 | a failing batch stops at its first unanswered message and neither asks nor reads beyond it |
| PamConversation.StylesMean | src/wldm/pam/worker.py:89-99 | echo off is asked in secret, echo on visibly, errors and informing texts ask for nothing, no other style can be put; only what asks gets a reply in its slot |
| LoginTheorems.PromptStyles | src/wldm/pam/worker.py:89-99 | the greeter knows all four, and wants a reply exactly for those that ask |
| PamConversation.VerdictIsPams | src/wldm/pam/worker.py:134-164 | ready exactly if PAM authenticated and admitted the user, retryable exactly if authentication was refused |
| PamConversation.VerdictTells | src/wldm/pam/worker.py:134-164 | which PAM codes the user is told as an expired account, a password to change, an unavailable service or a failure |
| PamConversation.VerdictFits | src/wldm/pam/worker.py:167-174 | once PAM was set up the verdict always fits a frame |
| PamConversation.PromptBroker.Ask | src/wldm/pam/worker.py:36-69 | one prompt out, one message in, and what it means |
| PamConversation.PromptBroker.Conversation | src/wldm/pam/worker.py:216-248 | the array filled slot by slot is exactly the batch's answers, or null |
| PamConversation.PromptBroker.RunAuthSession | src/wldm/pam/worker.py:251-307 | all prompts of all batches in order, then one verdict |
| Utf8.DecodeEncode | src/wldm/protocol/framing.py:41-54 | strict decoding undoes encoding |
| Utf8.EncodeDecode | src/wldm/protocol/framing.py:41-54 | bytes that decode strictly are the encoding of their text |
| Utf8.CharBytes | src/wldm/protocol/framing.py:41-54 | how many bytes a character takes, and what each of them contributes to it |
| Utf8.ReplaceIsStrictOnValid | src/wldm/daemon.py:513-518 | replacement decoding changes nothing on valid input |
| Utf8.StrayByteReplaced | src/wldm/daemon.py:513-518 | a byte that nothing starts with becomes one U+FFFD, and the text around it survives |
| Utf8.CutCharReplaced | src/wldm/daemon.py:513-518 | so does a character that was cut short, as a whole |
| Utf8.ReplaceGrowth | src/wldm/daemon.py:513-518 | replacement decoding makes a text at most three times as long in bytes |
| Framing.BoolDecodes | src/wldm/protocol/framing.py:28-38 | a boolean decodes from its own byte, true from any nonzero one |
| Framing.BlobDecodes | src/wldm/protocol/framing.py:57-82 | a blob decodes exactly where its encoding stands |
| Framing.TextDecodes | src/wldm/protocol/framing.py:41-54 | a text decodes exactly where its encoding stands |
| Framing.SignedIntDecodes | src/wldm/protocol/framing.py:91-103 | a signed integer decodes exactly where its 32-bit encoding stands |
| Framing.FrameRoundTrip | src/wldm/protocol/framing.py:106-128 | a frame carries a body exactly if it is that body's encoding |
| PamWorkerProtocol.EncodeMessage | src/wldm/protocol/pam_worker.py:87-123 | the buffer extended field by field is the message's frame |
| PamWorkerProtocol.FieldsDecode | src/wldm/protocol/pam_worker.py:126-173 | each kind's fields decode exactly where their encoding stands |
| PamWorkerProtocol.EncoderInvertsDecoder | src/wldm/protocol/pam_worker.py:87-173 | a frame decodes to a message exactly if the message encodes to that frame |
| GreeterCodecProofs.DecoderAcceptsExactly | src/wldm/protocol/greeter.py:355-468 | the decoder yields a message on exactly those bytes that are its encoding up to nonzero boolean bytes |
| GreeterCodecProofs.RoundTrip | src/wldm/protocol/greeter.py:285-468 | decoding undoes encoding for every well-formed message of every kind that encodes |
| WireLayouts.NamedRoundTrip | src/wldm/protocol/greeter.py:285-468 | at the protocol's literal names: every request, response and event with the payload of its name comes back unchanged |
| WireLayouts.MessageLayout | src/wldm/protocol/greeter.py:285-352 | which bytes stand for each of them: version, tag, names, and the payload's fields in their order |
| WireLayouts.WorkerMessageLayout | src/wldm/protocol/pam_worker.py:87-123 | the same for the six kinds of worker messages |
| WireLayouts.ListsAppend | src/wldm/protocol/greeter.py:157-211 | the items of a list stand in their order, a session as pid, user name and command |
| WireLayouts.IntegerBytes | src/wldm/protocol/framing.py:85-103 | lengths and integers stand most significant byte first, negative ones as two's complement |
| GreeterCodecProofs.Canonical | src/wldm/protocol/greeter.py:355-468 | whatever decodes encodes again, to the same length and the same bytes up to booleans |
| GreeterCodecProofs.SnapshotDecodes | src/wldm/protocol/greeter.py:227-249 | a daemon snapshot with its counted session list decodes exactly where its encoding stands |
| GreeterCodecProofs.OutcomeDecodes | src/wldm/protocol/greeter.py:405-428 | a response's success payload or failure decodes exactly where its encoding stands |
| GreeterCodecProofs.EventDecodes | src/wldm/protocol/greeter.py:430-466 | an event's payload decodes exactly where its encoding stands |
| GreeterCodecLoops.EncodeStringListLoop | src/wldm/protocol/greeter.py:157-163 | the encoding loop writes the counted list |
| GreeterCodecLoops.EncodeSessionsLoop | src/wldm/protocol/greeter.py:202-208 | the session loop writes the counted list |
| GreeterCodecLoops.DecodeTextsLoop | src/wldm/protocol/greeter.py:166-179 | any declared count is satisfied or rejected within (payload length)/4 + 1 rounds |
| GreeterCodecLoops.DecodeSessionsLoop | src/wldm/protocol/greeter.py:231-243 | any declared count is satisfied or rejected within (payload length)/12 + 1 rounds |
| GreeterCodecLoops.CountIsBounded | src/wldm/protocol/greeter.py:166-243 | an accepted count is covered by the bytes of the payload |
| SizeBounds.AuthRequestsFit | src/wldm/protocol/greeter.py:52-92 | create and continue requests always fit once their field passed the length check |
| SizeBounds.ForwardedFieldsFit | src/wldm/daemon_auth.py:137-162 | so do the worker's start and answer, even after replacement decoding |
| SizeBounds.WorkerPromptFits | src/wldm/protocol/pam_worker.py:54-61 | a prompt frame fits exactly up to 2029 bytes of style and text |
| SizeBounds.PendingResponseFits | src/wldm/protocol/greeter.py:129-138 | the response that carries a prompt fits exactly up to 1963 bytes for create-session and 1961 for continue-session |
| SizeBounds.WorkerFailureFits | src/wldm/protocol/pam_worker.py:69-76 | a failed frame fits exactly up to 2029 bytes of code and message |
| SizeBounds.FailureResponseFits | src/wldm/daemon_auth.py:102-107 | the error response that passes it on fits exactly up to 1975 bytes for create-session and 1973 for continue-session |
| LoginAgreement.DroppedAnswerIsAwaited | src/wldm/greeter/client.py:125-167 | a greeter whose answer was dropped keeps waiting for it until it is re-executed or its connection ends |
| FrameReader.Socket.Recv | src/wldm/protocol/framing.py:187-200 | one receive yields some bytes of the stream in order, and none only at its end |
| FrameReader.RecvExact | src/wldm/protocol/framing.py:187-200 | collects exactly the requested bytes from any chunks |
| FrameReader.ReadFrameSocket | src/wldm/protocol/framing.py:159-184 | the result depends on the bytes alone, not on the chunks |
| FrameReader.ReadFrameAsync | src/wldm/protocol/framing.py:131-156 | the asynchronous reader's result on the same stream |
| FrameReader.ReadersAgree | src/wldm/protocol/framing.py:131-184 | with a message for a cut header both readers agree on every stream |
| FrameReader.ReadersAgreeUnlessHeaderCut | src/wldm/protocol/framing.py:131-184 | without it they differ on exactly the streams that end inside a header |
| FrameReader.ReassemblesExactly | src/wldm/protocol/framing.py:159-200 | repeated reads give frames and then a clean end exactly on the concatenation of those frames, followed, for a reader without a message for it, by at most a cut header |
| FrameReader.ReadFrames | src/wldm/protocol/framing.py:159-200 | the read loop collects exactly the frames of the byte stream, whatever the chunking |
| MessageStream.WorkerSentIsReceived | src/wldm/protocol/pam_worker.py:176-196 | every list of worker messages that encode arrives complete, in order and unchanged |
| MessageStream.SentIsReceived | src/wldm/protocol/greeter.py:471-489 | every sendable list of messages arrives complete, in order and unchanged, at both of the protocol's readers |
| SessionRegistry.SessionsAreConserved | src/wldm/daemon.py:374-410 | with fresh pids, started sessions are at every step the disjoint union of active and finished ones |
| SessionRegistry.ConservedIffFresh | src/wldm/daemon.py:636-645 | starting a session keeps that exactly if its pid is not listed already |
| SessionRegistry.ExitsAreAnnouncedOnce | src/wldm/daemon.py:374-400 | a connected client is told of each session that finished since it connected exactly once, in order |
| SessionRegistry.FinishedEncodable | src/wldm/daemon.py:389-398 | the announcement of a finished session always fits a frame |
| SessionRegistry.ViewsConvergeIffTheyFit | src/wldm/daemon.py:343-363 | once the active list changed, what a connected client was last told equals it exactly if the list fits a frame |
| SessionRegistry.StartIsPublished | src/wldm/daemon.py:636-645 | a start sends every connected client one message, the state with each session's pid, user name and command in its place, if that fits |
| SessionRegistry.FinishIsTold | src/wldm/daemon.py:374-400 | an end sends every connected client its pid, code and verdict (failed exactly if the code is not 0), and then the state if that fits |
| Decimal.IntTextWrites | src/wldm/daemon.py:389-398 | numbers are written in decimal, most significant digit first |
| SessionRegistry.SnapshotFitsExactly | src/wldm/daemon.py:204-221 | a snapshot fits exactly if its seat and sessions take at most 2048 bytes, counted to the byte |
| SessionRegistry.LongSnapshotsAreLost | src/wldm/daemon.py:328-340 | two sessions with commands of 1000 characters are a snapshot that is lost |
| DaemonSessions.Client.SendMessage | src/wldm/daemon.py:328-340 | a message is written exactly if there is a writer and it encodes |
| DaemonSessions.DaemonState.BroadcastMessage | src/wldm/daemon.py:343-351 | the loop gives every connected client the message, whatever becomes of the others |
| DaemonSessions.DaemonState.TrackSession | src/wldm/daemon.py:636-644 | lists the session and publishes the new state |
| DaemonSessions.DaemonState.SendSessionFinished | src/wldm/daemon.py:374-400 | unlists the session, announces its end, publishes the new state |
| Shutdown.NothingIsLeftRunning | src/wldm/daemon.py:879-890 | when cleanup begins to terminate processes no client has a handler, a current session or an armed timer left |
| ShutdownWorkers.WorkersAtTheEnd | src/wldm/daemon.py:879-890 | at that point every PAM worker of every client has reported ready or had its channel closed, except exactly those that some step before abandoned |
| Shutdown.SessionsOnlyShrink | src/wldm/daemon.py:886-904 | from then on active sessions only become fewer |
| Shutdown.TerminatesEverySession | src/wldm/daemon.py:899-901 | in runs without pid reuse the list that cleanup terminates contains every session ever started that has not finished |
| SessionRegistry.ReusedPidLosesASession | src/wldm/daemon.py:374-400 | handling the end of an earlier session unlists a session started meanwhile exactly if both have the same pid; that session is then neither listed nor finished, so cleanup does not find it |
| Supervisor.Daemon.MainLoop | src/wldm/daemon.py:976-1021 | the loop's counters, backend and exit are the restart function of its events |
| Supervisor.RunTold | src/wldm/daemon.py:1001-1018 | backend and failure count are determined by which greeters became ready, told without the loop |
| Supervisor.GivesUpExactly | src/wldm/daemon.py:1001-1018 | the daemon gives up only on curses, exactly after max(1, max-restarts) never-ready greeters in a row |
| Supervisor.StopsExactly | src/wldm/daemon.py:976-985 | the loop stops exactly at the first stop signal that finds it running |
| Supervisor.StartsWhenNeverReady | src/wldm/daemon.py:842-876 | if no greeter is ever ready it starts 2 * max(1, max-restarts) of them, half of that if configured as curses |
| Supervisor.FallsBackExactly | src/wldm/daemon.py:1001-1012 | the backend changes exactly at the never-ready exit that completes a streak of failures on another backend than curses, to curses and with the count reset |
| Supervisor.CursesIsForever | src/wldm/daemon.py:1006-1018 | once on curses, the backend stays there to the end of every run |
| Supervisor.NeverReadyExitsRunOut | src/wldm/daemon.py:1001-1018 | never-ready exits decrease a lexicographic measure |
| DbusMirror.PathsNeverCollide | src/wldm/dbus_adapter.py:113-142 | manager, seat and session paths never collide, and session paths are injective in the pid |
| DbusMirror.PathsAreNamed | src/wldm/dbus_adapter.py:113-142 | a seat's path carries its name, with Seat for a leading "seat" in any case; a session's its pid |
| DbusMirror.SeatPathsDiffer | src/wldm/dbus_adapter.py:113-130 | seats named "seat" and something alphanumeric have different paths |
| DbusMirror.SessionPathsAreSessions | src/wldm/dbus_adapter.py:145-159 | the paths are exactly those of the sessions |
| DbusMirror.SessionEntry | src/wldm/dbus_adapter.py:265-279 | looks a session up by its path, exactly if it has one |
| DbusMirror.DisplayManagerService.RegisterObject | src/wldm/dbus_adapter.py:281-292 | registers a path once |
| DbusMirror.DisplayManagerService.UnregisterObject | src/wldm/dbus_adapter.py:294-298 | releases a path's registration |
| DbusMirror.DisplayManagerService.UpdateState | src/wldm/dbus_adapter.py:335-369 | registered paths become exactly those of the new snapshot, and a client replaying the signals sees the same; the last signals are the changed properties of manager and seat |
| DbusMirror.DisplayManagerService.Follow | src/wldm/dbus_adapter.py:335-369 | the same over any sequence of seat-bearing snapshots |
| DbusMirror.DisplayManagerService.Close | src/wldm/dbus_adapter.py:236-242 | every registration id ever issued has been released exactly once |
| ExecFieldCodes.ExpandArgLoop | src/wldm/session/user.py:170-219 | the index loop is the recursive expansion of one argument |
| ExecFieldCodes.ExpandFieldCodes | src/wldm/session/user.py:170-219 | the loop over the arguments is the expansion of the command line |
| ExecFieldCodes.ExpandsByGrammar | src/wldm/session/user.py:170-219 | an argument expands exactly to the meanings of the tokens it is written with, names and paths verbatim |
| ExecFieldCodes.ArgumentFailsExactly | src/wldm/session/user.py:170-219 | it fails exactly on a dangling percent, an unsupported code or an embedded icon |
| ExecFieldCodes.IconArguments | src/wldm/session/user.py:177-181 | a lone %i becomes the two arguments of the icon, or none, wherever it stands |
| ExecFieldCodes.FailsExactly | src/wldm/session/user.py:170-219 | the command line fails exactly if an argument does or nothing is left |
| ExecFieldCodes.ResultIsACommand | src/wldm/session/user.py:170-219 | the result is nonempty and so is each of its arguments |
| ExecFieldCodes.DoublingIsUndone | src/wldm/session/user.py:170-219 | doubling every percent sign protects any list of nonempty arguments |
| IniFile.ParseLine | src/wldm/inifile.py:53-97 | one line, as the parser's step on its classification |
| IniFile.ParseIniFile | src/wldm/inifile.py:42-99 | the line loop is the parse function |
| IniFile.ParsedIsLastAssigned | src/wldm/inifile.py:42-99 | every allowed name has exactly the value assigned last under its section, and no other name has one |
| IniFile.RefusedAtFirst | src/wldm/inifile.py:50-97 | a text is refused exactly for what is wrong with the first wrong line, told without the parser's state |
| IniFile.CommentsSayNothing | src/wldm/inifile.py:50-54 | blank lines and comments, however indented, say nothing |
| IniFile.HeadersAndErrors | src/wldm/inifile.py:56-78 | exactly a line in brackets is a header, and exactly another one without an equals sign an error |
| IniFile.FirstEqualsSplits | src/wldm/inifile.py:86-97 | a pair is split at its first equals sign and both halves are stripped |
| IniFile.LenientAgreesWithStrict | src/wldm/inifile.py:42-99 | what is accepted strictly parses the same with unknown names ignored |
| IniFile.AssignedIsStripped | src/wldm/inifile.py:88-97 | values carry no surrounding white space and no line break |
| LastSession.LoadUndoesSave | src/wldm/state.py:22-71 | loading gives back what was saved exactly if the file is at most 4096 bytes and both values are stripped and free of line breaks |
| LastSession.LoadedIsStorable | src/wldm/state.py:22-47 | whatever is loaded could have been saved |

## Left out

- Sockets, subprocesses, signals, virtual terminals, privilege dropping, logging, wtmp and GLib: queues, oracles and labels stand for them.
- Failure to spawn a user session or to run a power command; a power action's request and response are modelled, its command is not.
- Native memory of the PAM worker (calloc, free, ctypes pointers) and its allocation failures: a slot is an optional byte string.
- GTK widgets, curses drawing, themes, session lists, translations and saved user names; of the entry fields only what is sent is modelled, and focus and status after a whole click are not stated.
- A second connection of the same client after its task ended: a run covers one connection, with any number of re-execs.
- LoginAgreement.ThreePartyAgreement: does not cover a connection that is being torn down, because the daemon then drops its session before the greeter can learn of it (LoginExample.TornDownClaim; the exact condition is LoginTearDown.HeldUnlessCleared).
- LoginNames.UsersAgree: says nothing once a session-finished event has made the greeter forget the name, because the code then shows a conversation without one.
- SessionRegistry.ViewsConvergeIffTheyFit: takes a broadcast as one step; a send that suspends halfway through a broadcast can reorder views.
- Shutdown.TerminatesEverySession: says nothing about runs with pid reuse, in which it can fail (SessionRegistry.ReusedPidLosesASession).
- Shutdown.NothingIsLeftRunning: does not say that cleanup gets that far, because a client's task may wait for a worker that never answers.
- AuthOrphans.JoinedSettles: a worker counts as finished once its channel is closed or it has reported ready; that its process then ends is left to the operating system.
- GreeterCodecProofs.RoundTrip: a message whose payload does not have the shape its action calls for is encoded with defaults and so does not come back.
- IniFile.ParseIniFile: takes `\r\n` as two line breaks, which adds only blank lines; the typed getters other than strings are not modelled.
- DbusMirror.PathsNeverCollide: leaves open which characters count as alphanumeric; paths of seats with other names than DbusMirror.SeatPathsDiffer asks for may collide in the code too.
- Configuration paths, environment building, account previews, the keyboard indicator and the control tool: straight-line glue.
