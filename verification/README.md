# RemoteDiag: a verified model

RemoteDiag lets a support engineer's browser drive a diagnostic agent on a
customer's Windows machine through a relay server. This project models the
parts of it whose correctness depends on several pieces of state or on exact
byte arithmetic, and proves what they promise:

- the relay server (`server.py`): pairing of browsers and agents by access
  code, charging of codes, session timers, rate limiting and the
  remote-control desk, as a state machine over every interleaving of handlers,
  background tasks, closing sockets and restarts;
- the path of a command and its reply between page, server and agent;
- the SRSD frame format: checksum, frame, receive loop and reply parser;
- four algorithms of the agents and pages: the UTF-8 check with its fallback,
  the band-mask decoder, the line-ending normaliser and the countdown.

`dafny verify dfyconfig.toml` checks everything.

## How it is built

| files | contents |
|---|---|
| `Basics`, `Tokens`, `Limiter`, `Pairing`, `Control` | the server's data, what each operation does to it, and what each keeps |
| `Relay` | the handlers and background tasks as functions on the whole state |
| `Server` | the server as a class whose methods update the program's dictionaries in place, each proved against `Relay` |
| `World` | sockets, the clock, events, runs and the assumptions on a run |
| `Ledger`, `Seating`, `Helpdesk`, `Sessions`, `Holders`, `Parting`, `Blocking` | what every event keeps, and exactly which events break what needs a rule |
| `Answers`, `Changes`, `Effects` | each answer, and each change of each entry of each table, iff a condition on the state before |
| `Histories`, `Counting` | sessions and blocks told from the hellos and failures of the run alone |
| `Runs` | the main results about the server, for every run from a fresh start |
| `Assumptions`, `TwoAgents` | what fails without an assumption on clients, and exactly when; three runs that share a code |
| `Page`, `Correlation` | the page's pending promises; commands and replies end to end |
| `Crc`, `Srsd` | the checksum, the frame, the receive loop and the parser |
| `Utf8`, `Bands`, `LineEndings`, `Countdown` | the four algorithms |

A handler is atomic: the only points where the program yields are its sleeps
(`server.py:126`, `257` and `267`), so the session timer and the kick are two
steps each, the burn and the later disconnect. Where the program takes the
first match of a dictionary or iterates a set, the model takes any match and
any order; the class methods return the one they took as a ghost result and
the results hold for all.

Assumptions on a run are named in `World.Rules` and stated per theorem. A
socket plays one role. `oneHello`: an agent socket says hello once
(`go_agent/agent.go:25-33`). `patient`: a browser that waits for a code asks
for no other (`static/js/app.js:141-148`). `oneAccept`: a controller accepts a
request once (`remote_control.py:170-172`). `punctual`: sleeping tasks wake
when due; only the session bound needs it. Time does not go backwards. The
ledger, the rate limiter and the remote-control matching need none of the
first three.

A token file may hold anything when a run starts; the startup reset clears its
locks. The session bound needs that no code has a negative length, and the rate
limiter that the clock does not start before zero.

What turned out not to hold is stated as such. A code can have two connected
agents: exactly when a hello is accepted for a code whose holder has lost its
lock (`Runs.SharedByHelloOnly`, `Holders.DoublesIff`). The lock is lost to a
kick, to a session timer, fresh or left over from an earlier session, or, once
two agents share the code, to the closing of one of them (`Runs.LockLostIff`);
without a kick or such a timer every code has at most one
(`Runs.OneAgentPerCode`), and `TwoAgents` gives a run for each. A browser that
waits for two codes can be taken over, which is the only thing that parts the
pairing tables (`Runs.PartedByTakeoverOnly`, `Parting.ImpatientRunParts`), and
then stays listed by an agent after its socket closed
(`Assumptions.ClosedBrowserForgottenIff`). A repeated accept, and nothing else,
leaves a browser active without a controller (`Runs.StrandedByRepeatOnly`). Five
failures within ten minutes do not always block: windows do not slide, so five
in seventeen seconds can pass around the end of one
(`Counting.FiveQuickFailuresMayPass`); `Runs.BlockedIff` is exact. The UTF-8
check accepts overlong forms (`Utf8.AcceptsOverlong`, with the exact condition
in `Utf8.Utf8Iff`), a frame of 2^32 bytes or more can end the receive loop early
however small the reads (`Srsd.EverySplitArrivesIff`), and four or more
rewritings of line feeds are not undone (`LineEndings.CrlfUndoneIff`). The
comment of the duplicate-accept branch speaks of another controller; in every
reachable state it is the same one (`Runs.DuplicateAcceptIsRepeat`).

## Model

| member | source | states |
|---|---|---|
| Runs.PairingHolds | server.py:140-166 | after every interleaving of events from a fresh start: the agent tables have the same keys, a browser's agent lists it, no listed group is empty, a single-mode agent has at most one browser, a code somebody waits for has no connected agent, and agents, paired browsers and waiting browsers are open sockets of the right kind; if waiting browsers ask for no second code, the two pairing tables are exact inverses and every listed browser is an open socket too |
| Runs.AdmissionServes | server.py:670-691 | after any run, accepting an agent with n waiting browsers leaves nobody waiting for its code and pairs n of them in multi mode and min(1, n) in single mode for every iteration order, and changes no other agent's group |
| Runs.CommandsReachAgents | server.py:820-843 | after any run and for any verdict of the shell filter: a command is forwarded iff its browser is paired and the filter does not object, to its agent, which is connected and lists the browser; otherwise it is refused under its own id, with the objection if the browser is paired |
| Runs.AgentsAreTheirHellos | server.py:656-659 | after every run a connected agent holds the code of the hello that let it in and takes many browsers iff that hello said so |
| Runs.PairedIff | server.py:749-808 | after any run, `browser_pair` leaves the browser with an agent iff it had it, or: its failures do not bar its address, it is unpaired, the code is known, not used up and in date, and the agent found, which came with that code, said it takes many browsers or lists none; and waiting for the code iff it was, or the same holds and no connected agent came with the code |
| Runs.RequestServedIff | server.py:949-978 | after any run, `remote_control_request` leaves the browser with a controller iff it had one, or it is not active, has an agent holding a code, and some registered controller watching that code has no browser; the controller it gets was such a one and the two point at each other |
| Runs.WatchesIff | server.py:853-884 | after any run, `controller_hello` leaves the controller watching the code iff it did, or its address is not barred and a connected agent came with the code |
| Runs.AcceptActivates | server.py:887-912 | after any run, the accept of an assigned controller makes its browser active, changes no other browser, and keeps the assignment iff the browser was not active already |
| Runs.ToldIff | server.py:490-537 | after any run with patient browsers, those told of a closing socket are exactly the browsers whose agent it was and the other end of its remote session |
| Runs.BlockedIff | server.py:44-64 | after every run an address is blocked iff at least five of its failures since it was last let in, or the server started, fall into the window of the last one and that is less than 300 s ago; windows of 600 s open with the first failure after the one before |
| Runs.FiveFailuresBlock | server.py:55-64 | so five failures within 600 s that follow 600 quiet seconds block exactly until 300 s after the last |
| Runs.LetInStartsAfresh | server.py:66-67 | after any run, a hello that lets an agent or a controller in leaves its address without a counter and without failures |
| Runs.DeskHolds | server.py:887-979 | after every run the controller and browser tables are inverse partial injections over registered controllers, an active browser with a controller was activated by that controller, and with one accept per request only assigned browsers are active |
| Runs.DuplicateAcceptIsRepeat | server.py:896-903 | after any run, an accept refused because another controller is active comes from the very controller that activated the browser: only a repeated accept gets there |
| Runs.LocksAreLive | server.py:99-114 | from any token file, after every run with one hello per socket, a lock is held only for a code of a connected agent, so the orphan sweep changes nothing and the race recovery is never taken |
| Runs.UsesLeftAreLimited | server.py:237-248 | from any token file and any limited record in it, on every run with one hello per socket: at most as many sessions are admitted as the record has left, none if it is used up or revoked, plus one for each restart of the server |
| Runs.UsesAreLimited | manage_tokens.py:180-227 | in particular a code created for n uses admits at most n sessions plus one for each restart, whatever the rest of the file holds |
| Runs.OneAgentPerCode | server.py:613-619 | in a run without a kick that finds its agent and without a timer waking for a held code, no code ever has two connected agents, and each code that has one is in use |
| Runs.SharedByHelloOnly | server.py:613-619 | on every run with one hello per socket: some code ever has two connected agents iff some hello is accepted for a code that a connected agent holds |
| Runs.NobodyOverstays | server.py:254-272 | when sleeping tasks wake on time, no agent is connected later than half a second after 60 seconds per minute of its code, as the file gave it at the start, have passed since its hello; and until then a timer or forced disconnect for it is outstanding |
| Runs.WindowsHold | server.py:638-645 | from any token file, after every run the expiry time of a held lock is its start plus its length |
| Runs.BlocksAreBounded | server.py:55-64 | after every run a failure counter is at most 7, and c >= 5 failures mean that the block ends 300 s after the last failure recorded for the address, with first + 300(c - 5) <= last <= first + 600, so no block outlives the first failure by more than 900 s |
| Runs.CleanupsDoNotMatter | server.py:69-80 | leaving every hourly cleanup out of a run changes no admission, no table but the counters themselves, and no answer to whether an address is blocked |
| Ledger.SessionsAreAccounted | server.py:215-251 | conservation from any state and over any run: held plus charged sessions of a limited code before, plus admissions, equal those after plus the sessions released uncharged |
| Ledger.StepOnToken | server.py:83-114 | every event books each record: nothing dead is revived, counters only grow, limits and window stay consistent, and the held-plus-charged balance moves by exactly the admission or release |
| Ledger.StepKeepsHealthy | server.py:215-251 | every event keeps what a restart makes of any file: a locked code is not used up and its window is right; and every consistent record stays so: never used up and locked at once, used up exactly at the limit |
| Ledger.LimitHolds | server.py:603-611 | use count at most the limit, used up iff equal to it, never used up and locked, and admissions equal count plus held plus released |
| Ledger.HelloAdmitsIff | server.py:581-645 | `agent_hello` accepts iff the address is not blocked, the code is known, the administration script would keep it, and no connected agent uses its lock |
| Ledger.DeadStaysDead | manage_tokens.py:360-374 | a code judged unusable stays so under every run and later date and is never admitted again |
| Ledger.PurgedStaysOut | server.py:592-597 | a code missing from the file stays out under every run and is never admitted |
| Tokens.Purge | manage_tokens.py:432-453 | keeps exactly the records that are not unusable, unchanged |
| Tokens.AdmitIff | server.py:599-634 | the record checks pass iff the record is not unusable and its lock is not used by a connected agent |
| Tokens.AdmitAccounts | server.py:599-645 | the record checks keep a record consistent and its window right, and change held plus charged by exactly one per admission less one per recovered lock |
| Tokens.BurnMovesHeldToCharged | server.py:215-251 | burning turns the held session of a limited code into a charged one, keeps the record consistent, and does nothing the second time |
| Tokens.WearKeepsUnusable | manage_tokens.py:360-374 | no later state of an unusable record is usable, on any later date |
| Tokens.Created | manage_tokens.py:180-227 | a new record is consistent, so the invariants of codes hold from creation on; Ledger.NewCodes says what it admits |
| Pairing.DrainPairsWinners | server.py:673-681 | the loop over waiting browsers equals pairing all of them, the first, or none, according to mode and group |
| Pairing.AcceptKeeps | server.py:656-691 | accepting an agent on a fresh socket keeps the table invariants, for every iteration order |
| Pairing.AcceptServes | server.py:670-691 | how many browsers an accepted agent gets, that they came from the waiting set, and that nobody else's group changes |
| Pairing.AcceptKeepsInverseIff | server.py:673-681 | accepting an agent keeps the tables inverse iff every browser it is given was unpaired |
| Pairing.PairKeeps | server.py:140-148 | pairing an unpaired browser with an agent that has room keeps the invariants |
| Pairing.UnpairBrowserKeeps | server.py:151-158 | unpairing a browser keeps the invariants |
| Pairing.AgentGoneKeeps | server.py:510-524 | an agent's disconnect keeps the invariants |
| Pairing.BrowserGoneKeeps | server.py:526-537 | a browser's disconnect keeps the invariants |
| Pairing.EnqueueKeeps | server.py:791-796 | waiting for a code without an agent keeps the tables wired |
| Pairing.EnqueueKeepsExact | server.py:791-796 | and keeps them inverse if the browser waits for no other code |
| Seating.StepKeepsPairing | server.py:490-691 | every event keeps the table invariants, and agents, paired browsers and waiting browsers are open sockets |
| Seating.BrowserHelloRepairsNothing | server.py:547-551 | in every wired state the repair of `browser_hello` finds nothing to repair |
| Control.AcceptKeeps | server.py:887-912 | an accept keeps the tables matched and ownership of active sessions; an accept that is not repeated never meets the duplicate branch |
| Control.RequestKeeps | server.py:949-979 | a request keeps the tables matched, whichever free controller is found |
| Control.EndsKeep | server.py:922-932 | every way a session ends, from either side or by disconnect, keeps the tables matched and ownership |
| Control.DuplicateIsRepeat | server.py:896-903 | the duplicate branch refuses only the controller that opened the session, and leaves the browser active without a controller |
| Helpdesk.StepKeepsDesk | server.py:495-507 | every event keeps the remote-control invariants |
| Sessions.StepKeepsLocks | server.py:509-524 | every event keeps: a held lock has a connected agent holding the code |
| Sessions.NothingToRecover | server.py:614-626 | under that invariant the race recovery is never taken |
| Sessions.SweepIsIdle | server.py:99-114 | under that invariant the orphan sweep is the identity |
| Sessions.SweepRepairs | server.py:99-114 | from an arbitrary token file one sweep establishes the invariant and leaves every code of a connected agent alone |
| Sessions.OnlyRestartForgives | server.py:83-95 | under that invariant only a restart releases a session uncharged |
| Sessions.StepKeepsSchedule | server.py:254-272 | every event of the timed model keeps an outstanding end for every agent and nothing overdue |
| Limiter.FailureKeepsOk | server.py:55-64 | a failure counted while not blocked keeps the counter bounds, relative to the recorded time of the last failure |
| Limiter.BlockIsBounded | server.py:44-47 | a block ends within 900 s of the first failure, so a stale entry blocks nobody |
| Limiter.ThinnedAnswersAlike | server.py:69-80 | counters with and without stale entries give the same answers and stay alike under every operation |
| Blocking.StepKeepsOk | server.py:582-586 | every event of the server keeps the counter bounds, because failures are recorded only when not blocked |
| Blocking.CleanupIsUnobservable | server.py:69-80 | a run without its cleanups is a run of the same server with the same admissions, answers and tables |
| Answers.RecordAnswers | server.py:599-645 | each answer of the record checks iff its condition on the record, and acceptance for the minutes of the record |
| Answers.HelloAnswers | server.py:581-666 | each answer of `agent_hello` iff its condition on the tables and the file, in the order of the checks; accepted for the record's minutes; counted as a failure iff the code is missing, unknown, used up or, unless a connected agent is using it, expired |
| Answers.PairAnswers | server.py:749-808 | each answer of `browser_pair` iff its condition |
| Answers.ControllerAnswers | server.py:853-884 | each answer of `controller_hello` iff its condition |
| Answers.RequestAnswers | server.py:949-978 | each answer of `remote_control_request` iff its condition |
| Changes.PairingLaws | server.py:490-808 | for every event and every entry of the pairing tables: a browser gets an agent iff it asked rightly for its code or waited for it and is served; loses it iff one of the two sockets closes or the server restarts; is listed, waits, and an agent is registered, iff the like; and nothing else changes |
| Changes.DeskLaws | server.py:853-998 | the same for the remote-control desk: who registers, who is handed whose request, what releases a controller, what makes a browser active and what ends it |
| Effects.TaskLaws | server.py:123-130 | from any state, which timer and which forced disconnect each event puts to sleep, and when they are due |
| Effects.RecordLaws | server.py:215-251 | from any state, what each event makes of each record: taken by a hello that passes, charged when a kick, a timer or a closing agent ends a held session, freed uncharged when nobody connected holds the code, marked used up by a hello that finds no uses left, and otherwise unchanged; no code is added or lost |
| Histories.HelloStartsSession | server.py:636-666 | a hello that passes is answered with the minutes of the record, sets the lock to expire that long after it, and puts a timer to sleep that is due at that moment |
| Histories.StepKeepsTimed | server.py:636-666 | every event keeps: the lengths of codes are those of the start, and each session is due to end its code's length after its hello |
| Histories.StepKeepsEntries | server.py:656-659 | every event keeps: connected agents hold the code and the flag of their hello |
| Counting.StepKeepsCounts | server.py:55-67 | every event keeps: a counter is the number of failures in the window of the last one, opened when the counter says |
| Counting.OpeningIs | server.py:58-60 | windows hold what comes within 600 s of their opening, and open more than that after the one before |
| Counting.BlockedIffBarred | server.py:44-64 | under that invariant an address is blocked iff its failures bar it |
| Counting.CleanupDropsOld | server.py:69-80 | the hourly cleanup drops exactly the counters whose window opened more than 1200 s ago |
| Counting.FiveQuickFailuresMayPass | server.py:58-60 | a run from a fresh start in which five failures come within 17 s and the address is not blocked, because the window of an earlier failure ends between them |
| Ledger.NewCodes | manage_tokens.py:180-227 | a new code is let in for its minutes unless it is out of date, and a limited one has all its uses left |
| Holders.DoublesIff | server.py:581-645 | a hello is accepted for a code that a connected agent holds iff the code is not in use, the administration script would keep it and the address is not blocked |
| Holders.StepSharesIff | server.py:656-658 | with at most one holder per code before an event, there is at most one after it iff the event is not such a hello |
| Holders.StepFreesIff | server.py:254-260 | in every state that one hello per socket can reach, a code in use that an agent holds loses its lock to an event while an agent still holds it iff the event is a kick that found a holder, a timer of the code waking, fresh or stale, or the closing of one holder's socket while another holder stays |
| Runs.LockLostIff | server.py:509-515 | the same for the next event after any run from a fresh start, from any token file |
| TwoAgents.KickRunShares | server.py:460-462 | a run from a fresh start, under all assumptions, that ends with two agents holding one code after a kick |
| TwoAgents.AftermathRunShares | server.py:509-515 | the same run half a second on: the first agent's disconnect takes the lock from the second, without a kick or a timer, and a third agent enters |
| TwoAgents.StaleTimerRunShares | server.py:254-259 | a run without any kick that ends so, because the timer of an earlier session frees the lock of a later one; nobody is about to be disconnected |
| Parting.StepPartsIff | server.py:673-681 | with no rule on waiting browsers, inverse pairing tables stay inverse over an event iff it is no accepted hello that is given a browser with an agent already |
| Runs.PartedByTakeoverOnly | server.py:673-681 | so on every run with one hello per socket the tables ever part iff some accepted agent is given such a browser |
| Parting.ImpatientRunParts | server.py:791-796 | a run from a fresh start, under every rule but patience, that parts the tables: a browser asks for two codes and both agents come; after its socket closes the first agent still lists it and in single mode turns every other browser away |
| Assumptions.ClosedBrowserForgottenIff | server.py:526-537 | a browser whose socket closes is listed by no agent afterwards iff none listed it but the one it followed |
| Assumptions.SecondHelloKeepsLocksIff | server.py:656-658 | a second hello on one socket keeps locks live iff the dropped code was unlocked or another agent holds it |
| Helpdesk.AcceptStrandsIff | server.py:896-905 | if every active browser has a controller, this is still so after an accept iff the controller's browser was not active before it |
| Helpdesk.StepStrandsIff | server.py:887-912 | and over any event iff it is no such accept |
| Runs.StrandedByRepeatOnly | server.py:887-912 | so on every run a browser is ever active without a controller iff some controller accepts a browser that is active already |
| Assumptions.KickLetsASecondAgentIn | server.py:460-462 | between a kick and its disconnect a hello of another socket from an unblocked address leaves both holding the code iff the burnt record is still usable or it held the code already |
| Server.RelayServer.constructor | server.py:1094-1096 | a starting server has empty tables and every held lock of the file cleared |
| Server.RelayServer.IsBlocked | server.py:49-53 | the answer the block predicate gives; Runs.BlockedIff tells it from the failures |
| Server.RelayServer.RecordFailure | server.py:55-64 | exactly the counter of the address changes, as specified; Runs.BlockedIff and Counting.StepKeepsCounts tie it to the failures themselves |
| Server.RelayServer.RecordSuccess | server.py:66-67 | exactly the counter of the address is dropped; Runs.LetInStartsAfresh ties it to the hello |
| Server.RelayServer.CleanupFailedAttempts | server.py:69-80 | exactly the stale counters are dropped; Counting.CleanupDropsOld tells them from the failures |
| Server.RelayServer.ClearLocks | server.py:83-95 | the loop over records clears exactly the held locks outside the given set |
| Server.RelayServer.CleanupOrphanedTokens | server.py:99-114 | the sweep of the whole server state |
| Server.RelayServer.BurnToken | server.py:215-251 | the burn of the whole server state, with its early returns; Effects.RecordLaws says when a record is charged and how |
| Server.RelayServer.DelayedDisconnect | server.py:123-130 | a forced disconnect is put to sleep and nothing else changes; Effects.TaskLaws says for whom and when |
| Server.RelayServer.SessionTimer | server.py:254-270 | a waking timer burns its code and schedules the disconnect iff its agent is still there |
| Server.RelayServer.StopWakes | server.py:123-130 | a waking forced disconnect closes the socket if it is still open |
| Server.RelayServer.AdminKick | server.py:442-464 | burns the code and schedules the disconnect iff a connected agent is found for it; Effects.TaskLaws and Effects.RecordLaws |
| Server.RelayServer.FindHolder | server.py:789 | an agent that holds the code, or none if nobody does |
| Server.RelayServer.PairUp | server.py:140-148 | the pairing of the whole server state |
| Server.RelayServer.UnpairBrowser | server.py:151-158 | the unpairing of one browser |
| Server.RelayServer.UnpairAgent | server.py:161-166 | the unpairing of an agent and the group it returns |
| Server.RelayServer.OnDisconnect | server.py:490-537 | the new state and who is told, by what the socket was; Runs.ToldIff and the laws of Changes give both from the tables |
| Server.RelayServer.StopWaiting | server.py:534-535 | the browser leaves every waiting set |
| Server.RelayServer.Reject | server.py:574-579 | the failure is counted iff asked, and the disconnect scheduled |
| Server.RelayServer.CheckRecord | server.py:599-645 | the new record and the answer of the checks on it; Answers.RecordAnswers and Effects.RecordLaws give both from the record alone |
| Server.RelayServer.JudgeHello | server.py:581-645 | the answer of all checks and the token file after them; Answers.HelloAnswers gives the answer from the tables and the file |
| Server.RelayServer.AgentHello | server.py:566-691 | the answer and the whole new state, for an iteration order of the waiting set |
| Server.RelayServer.Welcome | server.py:655-691 | registering the agent and the loop over waiting browsers equal the specified acceptance |
| Server.RelayServer.BrowserHello | server.py:539-559 | the whole new state |
| Server.RelayServer.Enqueue | server.py:793 | the browser joins the waiting set of the code |
| Server.RelayServer.JudgePair | server.py:755-802 | the answer of the checks in their order; Answers.PairAnswers gives it from the tables and the file, Runs.PairedIff what follows on runs |
| Server.RelayServer.BrowserPair | server.py:749-808 | the answer and the whole new state, for any agent found by the search |
| Server.RelayServer.OnCommand | server.py:820-843 | refused or handed on with the sender's id; Runs.CommandsReachAgents says when, Correlation.ObjectedNeverReachesAgents what follows on runs |
| Server.RelayServer.ControllerHello | server.py:853-884 | the answer and the whole new state; Answers.ControllerAnswers and Runs.WatchesIff say when it is let in |
| Server.RelayServer.ControllerAccept | server.py:887-912 | the answer and the whole new state; Runs.AcceptActivates says what becomes of the browser |
| Server.RelayServer.ControllerEnd | server.py:922-931 | the whole new state |
| Server.RelayServer.RemoteControlRequest | server.py:949-978 | the answer and the whole new state, for the free controller found; Answers.RequestAnswers and Runs.RequestServedIff say when the request is served |
| Server.RelayServer.FindFree | server.py:969-970 | a controller watching the code without a browser, or none if there is none |
| Server.RelayServer.EndRemote | server.py:991-998 | the whole new state and who is told |
| Crc.NibbleIsByte | go_agent/srsd.go:43-47 | one turn of the shift/xor loop equals eight steps of the bit-by-bit reflected CRC with polynomial 0x8408 |
| Crc.Checksum | go_agent/srsd.go:38-50 | the loop returns the complemented bit-by-bit CRC of the data, low byte first, and two ASCII zeros for no data; Crc.CheckValue fixes the start value |
| Crc.ChecksumMasked | woorinet_remote_diag_agent.py:868-881 | the Python loop on wide masked integers returns the same bytes |
| Crc.MessageWithFcsIsGood | go_agent/srsd.go:48-49 | every non-empty message followed by its check bytes leaves 0xF0B8, the constant of Appendix C.2 of RFC 1662 |
| Crc.Residue | go_agent/srsd.go:48-49 | from any register, its complemented bytes lead to that constant |
| Crc.RegisterInjective | go_agent/srsd.go:43-47 | for a fixed message the register is an injective function of where it started |
| Crc.TwoStepsInjective | go_agent/srsd.go:43-47 | two different byte pairs never lead to the same register |
| Crc.FcsDetermines | go_agent/srsd.go:48-49 | equal check bytes mean equal registers |
| Crc.BurstDetected | go_agent/srsd.go:38-50 | inputs of any length that differ only within two consecutive bytes have different check bytes |
| Crc.RegisterByBits | go_agent/srsd.go:43-47 | the register of the bytes is that of their bits, lowest first, fed one by one |
| Crc.BitBurstDetected | go_agent/srsd.go:38-50 | inputs of any equal length that differ only within sixteen consecutive bits, at any bit offset, have different check bytes |
| Crc.OddDamageDetected | go_agent/srsd.go:38-50 | inputs that differ in an odd number of bits have different check bytes |
| Crc.CheckValue | go_agent/srsd.go:38-50 | the ASCII digits 1 to 9 give 0x906E, sent low byte first, and no data two ASCII zeros |
| Srsd.BuildHeader | go_agent/srsd.go:58-63 | the header writes fill 42 bytes with the five fields in order |
| Srsd.BuildFrame | go_agent/srsd.go:54-68 | the frame is header, payload and check bytes, with both lengths taken modulo 2^32; Srsd.FrameFields gives its bytes |
| Srsd.AgentsSendTheSame | woorinet_remote_diag_agent.py:884-894 | the Python agent builds the frame of the Go agent, and refuses exactly commands and lengths that do not fit their fields |
| Srsd.EncodeShape | go_agent/srsd.go:54-68 | where the lengths and the payload are in a frame |
| Srsd.FrameFields | go_agent/srsd.go:54-68 | what is on the wire: both lengths and the command low byte first, the two identities in ASCII padded with zeros, and the payload |
| Srsd.EncodeIsGood | go_agent/srsd.go:66-67 | a whole frame leaves the constant of the standard |
| Srsd.Le32Read | go_agent/srsd.go:59 | reading a little-endian field back gives the number modulo 2^32 |
| Srsd.Receive | go_agent/srsd.go:89-111 | the receive loop gathers the specified bytes in the specified number of reads |
| Srsd.SplitFrameArrives | go_agent/srsd.go:89-111 | a frame that fits, cut into any pieces in order and followed by anything, makes the loop stop exactly at its last piece with exactly the frame |
| Srsd.EverySplitArrivesIff | go_agent/srsd.go:89-111 | for every bound on the size of a read: every cutting of a frame into reads is put together again iff 44 plus the payload length is below 2^32 |
| Srsd.EveryBufferedSplitArrivesIff | go_agent/srsd.go:90-104 | so for the reads that fit the 65535-byte buffer |
| Srsd.LongFrameStopsEarly | go_agent/srsd.go:101-103 | for a longer frame and every bound on reads, a cutting within the bound at which the loop stops before the last piece |
| Srsd.FailedReadEnds | go_agent/srsd.go:105-110 | a read that fails before a frame that fits has come ends the loop with exactly what had come |
| Srsd.TrimSpaceIff | go_agent/srsd.go:133 | trimming gives a text iff it neither starts nor ends with white space and the input is that text between white space |
| Srsd.TrimTwice | go_agent/srsd.go:133 | trimming a trimmed text changes nothing |
| Srsd.SpaceIff | go_agent/srsd.go:133 | the white space taken off is the UTF-8 encoding of exactly the characters with the property White_Space |
| Srsd.ParseEncoded | go_agent/srsd.go:124-142 | parsing a built frame gives the trimmed payload, as an error iff it is one of the six daemon errors |
| Srsd.ParseBeginning | go_agent/srsd.go:124-132 | of a frame cut off early: too short below 42 bytes, else what has come of the payload, trimmed |
| Srsd.RoundTrip | go_agent/srsd.go:124-142 | building, cutting, gathering and parsing gives back the payload without its surrounding white space, as an error iff it is one of the six texts named there |
| Utf8.IsValidUtf8 | go_agent/srsd.go:241-269 | the index loop accepts exactly the concatenations of chunks, with no read outside the slice; Utf8.AcceptedIff gives them by byte ranges |
| Utf8.AcceptedBeginning | go_agent/srsd.go:241-269 | after an accepted beginning the answer is that for the rest; in particular accepted texts concatenate |
| Utf8.AcceptedIff | go_agent/srsd.go:241-269 | accepted is exactly what can be put together from single bytes up to 0x7F and first bytes C0-DF, E0-EF, F0-F7 with one, two, three bytes 80-BF |
| Utf8.EncodingsAccepted | go_agent/srsd.go:241-269 | every concatenation of encodings of section 3 of RFC 3629 is accepted |
| Utf8.Utf8Iff | go_agent/srsd.go:241-269 | a text is UTF-8 by RFC 3629 iff it is accepted and no chunk is overlong, a surrogate or beyond U+10FFFF |
| Utf8.AcceptsOverlong | go_agent/srsd.go:249-250 | the two-byte form of NUL is accepted though it is not UTF-8 |
| Utf8.DecodeCp949 | go_agent/srsd.go:226-239 | the input if accepted, else its ASCII bytes in order |
| Utf8.AsciiOnlyParts | go_agent/srsd.go:232-238 | the fallback keeps bytes below 0x80 one by one and in order, and no others |
| Utf8.DecodedIsStable | go_agent/srsd.go:226-239 | the output is the input iff that is accepted and else pure ASCII; it is always accepted, decoding it again changes nothing, and its ASCII bytes are those of the input |
| Bands.CollectGroups | static/devinfo/components/wr_h912k_wr2.js:64-70 | the loop keeps exactly the 16-digit groups before the first PRIORITY part |
| Bands.ParseBandPref | static/devinfo/components/wr_h912k_wr2.js:71-80 | a strictly increasing list containing band b iff bit (b-1) mod 64 of group (b-1) div 64 is set |
| Bands.HalvesOfGroup | static/devinfo/components/wr_h912k_wr2.js:73-74 | the two 32-bit halves of a group hold its low and high bits |
| Bands.BitOfDigit | static/devinfo/components/wr_h912k_wr2.js:73-79 | bit k of a number is bit k mod 4 of its digit k div 4 |
| Bands.DigitsEitherCase | static/devinfo/components/wr_h912k_wr2.js:73-74 | digits have their value in either case, and nothing else is a digit |
| Bands.PriorityIff | static/devinfo/components/wr_h912k_wr2.js:66 | the word is recognised in any mixture of cases |
| Bands.GroupsOfParts | static/devinfo/components/wr_h912k_wr2.js:64-70 | parts count one by one up to the first PRIORITY part, and not after it |
| Bands.DecodesUnique | static/devinfo/components/wr_h912k_wr2.js:71-80 | an answer has only one decoding |
| Bands.RoundTrip | static/devinfo/components/wr_h912k_wr2.js:61-82 | any finite band set written as hexadecimal groups is read back exactly, whatever follows the priorities |
| LineEndings.NormIsRuns | woorinet_remote_diag_agent.py:525-532 | the three replacements equal a run-length map: k returns before a line feed become max(1, k-2) line feeds, other runs of k become k |
| LineEndings.NormTwice | woorinet_remote_diag_agent.py:528-532 | the result has no return, and normalising it again changes nothing |
| LineEndings.CrlfUndoneIff | woorinet_remote_diag_agent.py:525-532 | a return-free text comes back exactly from n rewritings of LF to CR LF iff n <= 3 or it has no line feed |
| LineEndings.OrderMatters | woorinet_remote_diag_agent.py:525-532 | without the first replacement the double rewriting leaves every line feed doubled, as the comment warns |
| Countdown.AgentsAgree | go_agent/agent.go:153-185 | the Go and Python agents choose the same waits and labels for every number of seconds |
| Countdown.FormatRoundsUp | woorinet_remote_diag_agent.py:238-241 | from a minute on a line names the minutes begun, below it the seconds |
| Countdown.IntervalLeadsToBoundary | woorinet_remote_diag_agent.py:243-252 | a wait is at least a second and at most the rest, ends at a tier boundary and passes none |
| Countdown.StopsAreBoundaries | woorinet_remote_diag_agent.py:243-269 | the lines come at the start and at exactly the tier boundaries below it |
| Countdown.WaitsSumUp | woorinet_remote_diag_agent.py:243-269 | the waits sum to the start value |
| Countdown.LabelsDiffer | woorinet_remote_diag_agent.py:238-241 | consecutive lines differ |
| Countdown.CeilingIs | woorinet_remote_diag_agent.py:257 | the seconds left are rounded up |
| Countdown.EveryStopIsPrinted | woorinet_remote_diag_agent.py:260-263 | so the repeat check suppresses none of them |
| Countdown.Run | woorinet_remote_diag_agent.py:254-269 | the loop on a clock that may oversleep prints the specified lines |
| Countdown.SmallDelaysDoNotShow | woorinet_remote_diag_agent.py:257 | thanks to rounding up, delays that stay under a second in all change no line |
| Page.IdTellsNumber | static/js/app.js:440 | an id starts with its tag, or cmd, and tells the number of its command whatever the tag |
| Page.SendKeepsOk | static/js/app.js:433-451 | sending keeps: every promise waits or was resolved, none twice, each under its own id |
| Page.SettleKeepsOk | static/js/app.js:118-124 | so does a result or a timer |
| Page.LateReplyIsIgnored | static/js/app.js:118-124 | a result or timer after the promise was resolved changes nothing |
| Page.ReplyResolves | static/js/app.js:118-124 | a result for a waiting command resolves its promise and no other |
| Page.TimerResolves | static/js/app.js:444-449 | the timer of a waiting command resolves its promise as timed out, and no other |
| Page.SentWaits | static/js/app.js:433-451 | a command sent gets the next number and waits from then on |
| Page.CommandHelper.constructor | static/js/app.js:72-73 | the empty page |
| Page.CommandHelper.SendCommand | static/js/app.js:433-451 | the whole new state and the id, and no change without an agent |
| Page.CommandHelper.OnResult | static/js/app.js:118-124 | the whole new state |
| Page.CommandHelper.OnTimeout | static/js/app.js:444-449 | the whole new state |
| Correlation.HandleCommand | go_agent/commands.go:94-201 | whatever a branch leaves, the reply carries the id and browser of its command; a command that does not parse gets none |
| Correlation.StepKeepsMessages | server.py:820-849 | every message on any wire speaks of a command that the page behind its session id sent |
| Correlation.StepKeepsTabs | static/js/app.js:118-124 | every step keeps the pages consistent and their replies the right ones |
| Correlation.RepliesFindTheirCommands | static/js/app.js:433-451 | with any number of pages and agents, messages lost, repeated and in any order, changing routes and session ids: a promise is resolved at most once, none is lost, and one resolved by a result got the reply to exactly the command sent under its id, made for a session of that page |
| Correlation.RepliesComeHome | server.py:845-849 | a reply is addressed only to the page that sent the command it answers |
| Correlation.AnswersAreWhatWasSaid | go_agent/commands.go:94-201 | on every run an answer that a page has taken is what some agent found to say to that very command |
| Correlation.ObjectedNeverReachesAgents | server.py:829-840 | on every run whose verdicts are those of one filter, no agent is handed a command to which it objects |
| Correlation.RefusalsNameTheReason | server.py:824-838 | and a refusal names the filter's objection to that command or the missing agent |
| Correlation.CommandsAreAnswered | static/js/app.js:433-451 | a command sent, routed while its page is paired and not objected to, handled, returned and received resolves its promise with what the agent said |
| Correlation.ObjectionsAreAnswered | server.py:829-838 | one objected to resolves its promise with the objection |
| Correlation.SilenceTimesOut | static/js/app.js:444-449 | one whose minute passes first resolves its promise as timed out |

## Left out

- The texts and rooms of emitted messages: only who is told is modelled, for disconnects and ended sessions.
- `used_by_ip`, permission lists, agent info and `username`: stored and passed on, never read by a decision modelled here.
- Fields missing from a record of `tokens.json`: the defaults of `dict.get` are taken as stored; a record without `expiry` would make `on_agent_hello` fail after it has taken the lock.
- `browser_pair` before `browser_hello`: the program then fails after pairing, when it looks up the browser's permissions; the model finishes the handler.
- Several readings of the clock within one handler are one reading, and the dates of the two clocks (local for expiry, UTC for windows) are one run of time.
- Edits of `tokens.json` by the administration script while the server runs; the purge is a separate operation on the file.
- Sockets, HTTP, TLS, JSON, the shell filter's patterns, log streaming, uploads and `device_info` relaying: plumbing, or not about correctness of state. The shell filter's verdict is an input of `on_command`; where runs of `Correlation` speak of one filter, it is a function of the command.
- `_find_unpaired_browser` and `_find_unpaired_agent`: not used by the server.
- The Python reply parser's decoding with replacement characters and its wider notion of white space; the Go parser is the one modelled, with 64-bit `int`.
- Server.RelayServer.OnCommand: the refusal text for a missing agent is a fixed string standing for the Korean message.
- Correlation.HandleCommand: what each command does on the device is an arbitrary record left by its branch.
- The Python receive loop compares unbounded lengths where the Go loop compares 32-bit ones; they differ only beyond 2^32 bytes.
- Srsd.Receive: the deadline and the socket are a finite list of reads; each read is one datagram of any size.
- Bands.ParseBandPref: takes the trimmed, comma-separated parts of the matched line, and gives the numbers before they are joined with their prefix; the library's sort is a function proved to sort.
- Countdown.Run: stopping early (shutdown, a closed connection, a newer countdown) is the end of the list of waits; the Python agent's one-second naps are one wait.
- Utf8.DecodeCp949: `string(raw)` is the same bytes.
