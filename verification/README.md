# A verified model of retro-vax-bbs

A Dafny 4.11 model of the multi-user core of retro-vax-bbs, with proofs about it. Three
parts of the system are modelled.

**PHONE.** The shared table of calls and conference rings (`internal/phone/call.go`) over
the session registry with its bounded event queues (`internal/registry/registry.go`), the
call-state machine that each session runs (`internal/phone/app.go`), and the three-step
teardown of a session (`cmd/server/main.go`).

**The command line.** The abbreviation trie (`internal/lobby/abbrev.go`) and the dispatch
tables behind it (`internal/lobby/commands.go`).

**The account store.** Bans and the last usable admin, login lockout, invites and
registration (`internal/store/store.go`, `internal/registration/app.go`), and the plan-text
scanner (`internal/store/plan.go`).

## How it is built

Each object that the source updates in place is a class here (`SessionRegistry.Registry`,
`CallService.Calls`, `PhoneProgram.Program`, `AccountStore.Store`, `AccountStore.Form`),
and each loop of the source is a loop. A method's contract ties the new state to a function
of the old one; those functions (`Registry`, `CallTable`, `Protocol`, `Accounts`, `Invites`)
are what the theorems are about.

`Protocol` is the whole PHONE system as a state machine. A step is one method call under its
lock, one key or command, one event consumed, one ring tick, or one of the three teardown
actions; any number of sessions interleave them. A step that is impossible in a state leaves
it unchanged, so every sequence of steps is a run, and the theorems are about
`Run(START, steps)` for all `steps`. `Dial` and `Add` are three steps each: the check up to its
reading of who is connected, its second reading of who is free to ring, and the rest. Any
logins, deliveries and `Unregister` calls may fall between them, as they may in the source, which
holds the lock of the call table throughout but takes that of the registry anew for each reading.

What happens to rings is told twice. `RingLedger` counts the events of a run, which `RingEvents`
reads off the guards of its steps and shows to be exactly how the table changes. The records that
the state machine keeps of each ring say which account placed it; that they agree with the events
is a theorem (`RingLedger.OutcomesAreEvents`, `RingLedger.OutcomeFinal`).

Whom a screen shows is a claim about the names on it, the events that wait for it and the seats in
its call together. Every step keeps it that is neither of two kinds: a session leaves a call in which another
session of its account stays, which `TwinRun` shows to spoil it, and an ANSWER joins a call with older
news of it still unread.

Channels are accounted for by name: each channel ever made stays in `made`, those not yet
closed are in `open`, and `panicked` would record a close of a channel that is not open or a
send on one.

A session is *tainted* when it has lost an event to a full queue or has answered a ring from
inside a call. Nothing is promised to a tainted session that its condition can spoil; all
others keep every promise, and nobody else is affected. The second condition is exactly what
the code fails to check: `Misuse.AnswerOnlyFromIdle` shows that a successful ANSWER keeps a
session in one call if and only if it came from CallIdle, and `Misuse.OneCallCanFail` is a run
in which it does not.

| file | what it holds |
|---|---|
| `Wrappers`, `Ordering`, `Words` | options, the order of strings, fields and joins |
| `Registry`, `SessionRegistry`, `RegistryHistory` | the registry as a value, as the object, and over whole runs |
| `CallTable`, `CallService` | the call table as a value, and as the object |
| `TableInvariant`, `TableMotion`, `TableLaws` | what every method of the table keeps, how it can move, and what it returns and when |
| `Notices` | who hears what |
| `Protocol`, `PhoneProgram` | the state machine, and one session's program as an object |
| `WorldInvariant`, `Agreement`, `Reachability`, `CallFacts`, `Guarantees`, `Misuse` | the theorems about runs |
| `ScreenLaws`, `KeyLaws` | what every event and every key does to a screen |
| `ScreenNames`, `ScreenRuns`, `ScreenTheorem`, `TwinRun` | whom the screens show, over whole runs |
| `RingHistory`, `RingEvents`, `RingLedger` | the records of rings, the events of a run, and their counts |
| `Abbreviation`, `AbbrevTrie`, `Dispatch`, `TypedLines`, `ShippedTables` | the command line |
| `PlanText` | the plan-text scanner |
| `Accounts`, `Lockout`, `Invites`, `PaidRegistrations`, `AccountStore` | the account store |

`dafny verify dfyconfig.toml` checks the project.

## Where the code and its documentation differ

* The comment on `HangupSession` (`internal/phone/call.go:558-559`) says that a session is only
  ever in one call. The code does not ensure it; see `Misuse`. The model leaves whichever call
  the scan meets first, as the code does.
* The comment on the roll-back in `finalise` (`internal/registration/app.go:234-236`) speaks of the pending
  account just made. The statement goes by name, and can remove the row of another registration of
  that name, whose invite use is then spent on no account: `PaidRegistrations.SpentOnNothing` is a run
  of it, and `PaidRegistrations.PaidEndsActive` says when a paid use does buy an account.
* A screen takes a departed account off by name (`internal/phone/app.go:310-323`), though an account may have
  several sessions in a call. When one of them leaves and another stays, everyone else's screen loses
  the account, and one that shows nobody else hangs up: `TwinRun.HangsUpOnAlice` is a run of it, and
  `ScreenRuns.DepartureKeeps` the exact condition.
* `User.IsUsableAdmin` is described as the twin of the SQL predicate. They differ for an admin in
  the very second in which a timed ban lapses, because one reads a finer clock;
  `Accounts.TwinsAgree` gives the exact condition.

## Model

| member | source | states |
|---|---|---|
| Agreement.ScreensAgree | internal/phone/app.go:248-455 | In every reachable state, for every untainted session: an idle screen is in no call, an active one is exactly one participant of its active call and of no other, a pending one is the caller of its pending call with nothing telling waiting, or its call is active and an EventAnswer is the first telling event waiting, or its call is gone and a refusal is |
| Agreement.NoHangupWhilePending | internal/phone/app.go:330-361 | Over every run, a session that lost no event and did not answer from inside a call never takes the branch kept only as a guard: while its screen is pending it never consumes an EventHangup for its own call |
| Agreement.StepAgreed | internal/phone/app.go:198-244 | One step of anyone keeps that agreement for everyone |
| Agreement.HandleAgrees | internal/phone/app.go:248-455 | Handling the oldest event moves an agreeing screen to one that agrees, or asks for the hangup that makes it agree |
| ScreenTheorem.ScreensNameTheCall | internal/phone/app.go:253-343 | Over every run in which no account leaves a call that another of its sessions stays in, and nobody joins a call with news of it still waiting, a session that lost no event shows its own viewport and one for each name, and the names, once it has read what waits, are exactly the other accounts seated in its call |
| ScreenTheorem.StepShown | internal/phone/app.go:253-343 | One step of anyone, of neither of those kinds, keeps that claim for everyone |
| ScreenRuns.DepartureKeeps | internal/phone/app.go:302-330 | When one of several leaves a call, the screen of an untainted session of another account in it stays right if and only if no other session of the leaver's account stays |
| TwinRun.HangsUpOnAlice | internal/phone/app.go:308-328 | A run in which a session that lost no event is about to hang up because everyone it shows has left, while another account is still seated in its call |
| ScreenLaws.HangsUpExactly | internal/phone/app.go:300-330 | An event makes a session hang up its own call if and only if its screen is in PHONE and active on that call, the event is an EventHangup with no callee, and no name on the screen differs from the caller's; the screen is idle then |
| ScreenLaws.DepartureShown | internal/phone/app.go:308-323 | Any other departure takes that name, and nothing else, off both lists, and leaves the others in order |
| ScreenLaws.AnswerShown | internal/phone/app.go:253-282 | An answer makes a pending screen active; on an active one it adds the callee to both lists if it was not shown, and forgets the ADD of that account alone |
| ScreenLaws.RefusalShown | internal/phone/app.go:363-413 | A rejection or a reaped ring makes a pending screen idle, and on an active one forgets the ADD of that account alone |
| ScreenLaws.RingNoted | internal/phone/app.go:283-455 | A ring is noted exactly by a session in the lobby or idle in PHONE, and the noted ring is retracted only by an event of its own call |
| ScreenLaws.GuardShown | internal/phone/app.go:330-362 | A departure while the call on the screen is pending touches nothing but the noted ring |
| ScreenLaws.NothingShown | internal/phone/app.go:248-460 | Every event of no other case leaves the screen as it was |
| KeyLaws.RingPlaced | internal/phone/app.go:739-791 | A DIAL or ADD leaves a new call exactly from an idle screen, and a new ring entry exactly from an active call, and only when it is admitted |
| KeyLaws.PlacedShown | internal/phone/app.go:752-791 | A placed dial shows its call pending with the callee; a placed ADD only notes whom it rings |
| KeyLaws.AnsweredShown | internal/phone/app.go:813-831 | An accepted ANSWER shows everyone else seated in the call, in seating order, and no ring |
| KeyLaws.RefusedShown | internal/phone/app.go:798-812 | A refused ANSWER forgets the ring, in PHONE, and changes nothing else anywhere |
| KeyLaws.DroppedShown | internal/phone/app.go:834-883 | REJECT forgets the ring and a cancelled ADD its target, and neither changes anything else on a screen |
| KeyLaws.LeftShown | internal/phone/app.go:850-893 | HANGUP leaves the screen idle in PHONE and EXIT leaves it in the lobby, both without names |
| KeyLaws.StartsBlank | internal/phone/app.go:104-118 | A session starts, and enters PHONE, idle: no call, no noted ring, no ADD, and only its own viewport |
| KeyLaws.ConsumedShown | internal/phone/app.go:248-460 | Reading an event takes it off the one queue and moves the one screen; unless everyone shown has left, nothing else changes |
| KeyLaws.TicksAnyTime | internal/phone/call.go:309-331 | A timer that was started may fire at any time, with its own call and callee, even after the call is gone |
| KeyLaws.NoticeReaches | internal/registry/registry.go:494-508 | A notice to admins is queued for exactly the sessions of admin accounts, those with a full queue excepted |
| WorldInvariant.StepCore | internal/phone/call.go:100-106 | Every step keeps the part of the invariant that needs no promise from users: the table is sound, events and screens refer only to calls that were made, EventAnswer never names a pending call, participants bear their session's name, an admitted ring is still admissible when it is committed |
| Reachability.RungAreReachable | internal/phone/call.go:605-721 | Over every run, an account that is being rung, or is about to be by an admitted Dial or Add, has a registered session or one between its Unregister and its ReapUnreachableRings |
| Reachability.DialableAgain | cmd/server/main.go:300-333 | An account whose teardowns have all finished can be dialled by any other account as soon as it logs in |
| Reachability.ReapedIsSilent | internal/phone/call.go:635-721 | After the reaper finds no session to ring, nothing rings the account, and nobody gains a ring |
| Guarantees.ChannelsAccounted | internal/phone/call.go:734-798 | Over every run no channel is closed twice, sent on when closed or made twice, and the open channels are exactly those of pending calls, ADD entries, current participants and registered sessions |
| Guarantees.OneRingEach | internal/phone/call.go:117-167 | Over every run at most one ring is outstanding for each account, dials and ADDs together; a pending call has its caller for only participant, an active one has at least one, and an ADD entry belongs to an active call |
| Guarantees.OneCallEach | internal/phone/call.go:131-135 | Over every run an untainted session is a participant of at most one call, once, and is registered if it is one |
| Guarantees.TeardownComplete | cmd/server/main.go:300-333 | After the three teardown actions the session is nowhere; each call it was not in is as it was, except that a pending call aimed at its account is gone exactly when no session of that account is left to ring |
| Guarantees.DepartedIsGone | internal/phone/call.go:551-603 | With teardowns interleaved in any way, a session past its Unregister is in no index and, if untainted, in no call |
| Guarantees.RingsReachTheFree | internal/phone/call.go:174-210 | No step of any run, ticks included, queues an EventRing for a session in a call, or for a call not in the table |
| Guarantees.CancelledByItsInviter | internal/phone/call.go:773-796 | Over every run, whoever leaves a call last, each session still rung for it by an ADD is told that the account which placed that ring gave up |
| Guarantees.ReapedForItsInviter | internal/phone/call.go:688-720 | Over every run, the reaper of a conference ring names to everyone in the call the account which placed it |
| RingEvents.StepExplained | internal/phone/call.go:247-333 | In every state that meets the invariant, a step changes the calls and the outstanding rings exactly as its guards tell beforehand: nothing, one ring more, one ring answered, declined, cancelled or reaped, or one departure with the rings of a call it empties |
| RingLedger.RingsConserved | internal/phone/call.go:247-333 | Over every run, the dials and ADDs committed are as many as the pending calls, the ADD entries, and the rings ended by an answer, a rejection, a cancelled ADD, the reaper, a last hangup and a last teardown, each counted as events |
| RingLedger.EndsTheOneAimedAt | internal/phone/call.go:338-534 | A step that answers, declines, cancels or reaps ends the one ring there is at the account it is aimed at, leaves that account without a ring, and leaves the rings at every other account as they were |
| RingLedger.AcceptedTakesARing | internal/phone/call.go:363-377 | An ANSWER is accepted exactly when it takes a ring |
| RingLedger.OneLife | internal/phone/call.go:278-300 | Over every run a ring is placed once at most, and has been ended exactly once if it was placed and no longer rings, and otherwise never |
| RingLedger.OutcomesAreEvents | internal/phone/call.go:247-333 | Over every run, there are as many records as rings committed, and with each outcome as many as rings ended by events of that kind |
| RingLedger.OutcomeFinal | internal/phone/call.go:338-534 | The event that ends a ring is the first to end it; however the run goes on, nothing places, answers or ends that ring again, it is never outstanding, and its record names that kind of event for ever |
| RingLedger.FirstAnswerWins | internal/phone/call.go:338-473 | Over every run, the answers that a call accepts, live or gone, are at most one more than the ADDs committed into it; while it lives its participants and the departures from it are one more than its answers, and once it is gone the departures are one more than the answers, or there were none of either |
| RingHistory.StepHist | internal/phone/call.go:338-473 | Every step keeps the account of rings: exactly the records of open stop channels are outstanding, each under the name of whoever placed it, and every live call balances |
| CallFacts.RaceLoserRefused | internal/phone/call.go:363-377 | Over every run, once a session of an account has answered a call, and until an ADD of that account into it is committed, an Answer by any session of the account returns ErrAlreadyAnswered, or ErrNotFound when the call is gone, and changes neither the table nor any queue |
| CallFacts.WinnerTells | internal/phone/call.go:424-466 | The winning answer sends EventAnswer to the caller's session, one EventAnswerElsewhere to each other session of the callee, and nothing to anyone else |
| Misuse.AnswerOnlyFromIdle | internal/phone/app.go:793-832 | In a reachable state a successful ANSWER leaves an untainted session in exactly one call, once, if and only if it came from CallIdle |
| Misuse.OneCallCanFail | internal/phone/app.go:739-769 | A run in which a session that lost no event, and kept a ring through its own DIAL, answers it from inside a call and is then in two |
| TableInvariant.PlaceDialSound | internal/phone/call.go:278-300 | Placing an admitted dial keeps the table sound: shapes, one ring for each callee, exact channels |
| TableInvariant.PlaceAddSound | internal/phone/call.go:843-848 | An admitted ADD never overwrites a ring entry, and keeps the table sound |
| TableInvariant.AnswerDialSound | internal/phone/call.go:403-434 | The first answer keeps the table sound and closes the ring's stop channel once |
| TableInvariant.AnswerAddSound | internal/phone/call.go:363-402 | A conference answer keeps the table sound |
| TableInvariant.LeaveSound | internal/phone/call.go:734-798 | A hangup keeps the table sound, closing exactly the leaver's channel and, with the last one, every channel of the call |
| TableInvariant.ReapSound | internal/phone/call.go:635-721 | The reaper keeps the table sound |
| TableInvariant.RejectSound | internal/phone/call.go:483-534 | A rejection keeps the table sound |
| TableInvariant.CancelAddSound | internal/phone/call.go:921-959 | Cancelling an ADD keeps the table sound |
| TableInvariant.BroadcastSound | internal/phone/call.go:964-980 | Typing never sends on a closed channel |
| TableMotion.AnswerMoves | internal/phone/call.go:338-473 | An answer makes the call active with the newcomer in its last seat, and changes no other call |
| TableMotion.LeaveMoves | internal/phone/call.go:734-798 | A hangup gives up exactly one seat of the leaver, and removes the call exactly when that was the last |
| TableLaws.AdmitRefuses | internal/phone/call.go:136-167 | Each of the four refusals comes back if and only if its own condition on names, sessions, calls and ring entries holds and no earlier one does; a ring is admitted exactly when none does |
| TableLaws.FreeSessions | internal/phone/call.go:174-195 | A ring reaches a session exactly when it is logged in to the account and has no seat in any call |
| TableLaws.DialResults | internal/phone/call.go:247-300 | A refused dial changes nothing, and an admitted one leaves one pending call more |
| TableLaws.AddResults | internal/phone/call.go:804-848 | ErrNotFound, ErrNotActive and each refusal of an ADD by their conditions; refused it changes nothing, and otherwise leaves one ring entry more in the inviter's name |
| TableLaws.AnswerResults | internal/phone/call.go:338-434 | An ANSWER is accepted exactly when the call is pending, or active with a ring entry for the account, however many are in it; ErrNotFound and ErrAlreadyAnswered by their conditions; accepted it seats the account last and ends that ring alone |
| RingEvents.AcceptsExactly | internal/phone/call.go:363-377 | An ANSWER is accepted exactly when the table holds a ring by which that account is offered that call |
| TableLaws.RejectResults | internal/phone/call.go:483-534 | A rejection fails only for a call that is gone; it ends a pending call, and in an active one that account's ring entry |
| TableLaws.CancelResults | internal/phone/call.go:921-959 | A cancelled ADD ends its ring entry and nothing else |
| TableLaws.ReapResults | internal/phone/call.go:635-721 | The reaper ends the pending calls and ring entries offered to an account that has no free session, and otherwise changes nothing |
| TableLaws.HangupResults | internal/phone/call.go:734-798 | A hangup gives up the session's first seat; with the last seat go the call and its ring entries and no others |
| Ordering.FoldMeans | internal/phone/call.go:137-139 | Two names are one account's exactly when they differ in nothing but the case of ASCII letters |
| Notices.DialHeard | internal/phone/call.go:204-210 | A dial queues one EventRing for each session of the callee in no call, and nothing else |
| Notices.AddHeard | internal/phone/call.go:850-883 | An ADD queues the ring the same way, and EventRinging for each session in the call that is not of the inviter's account |
| Notices.TickHeard | internal/phone/call.go:309-330 | A tick rings the free sessions again, tells the call again for an ADD, and is silent for a call that is gone |
| Notices.ReapHeard | internal/phone/call.go:645-687 | The reaper tells a dial's caller that the account is gone if it has no session and unavailable if it has one, and tells nobody else |
| Notices.JoinHeard | internal/phone/call.go:391-402 | A conference answer queues EventAnswer for every session already in the call and not for the newcomer |
| Notices.RejectHeard | internal/phone/call.go:492-534 | A rejection is told to exactly the sessions in the call |
| Notices.CancelHeard | internal/phone/call.go:931-959 | Cancelling an ADD is told to the account rung and to the others in the call, and to nobody else |
| Notices.DepartureHeard | internal/phone/call.go:754-761 | A departure is told, under the leaver's name, to each session that stays and to nobody else |
| Notices.LastDepartureHeard | internal/phone/call.go:763-797 | When the last one leaves, exactly the account still being dialled and the accounts still rung by an ADD are told |
| CallService.Calls.AdmitLocked | internal/phone/call.go:136-167 | Refuses for the first of the four reasons that holds, and otherwise admits |
| CallService.Calls.RingableSessions | internal/phone/call.go:174-195 | Returns each session of the account that is in no call, once |
| CallService.Calls.Dial | internal/phone/call.go:247-333 | Leaves the state that the admission and placing functions say, and keeps the table sound |
| CallService.Calls.Answer | internal/phone/call.go:338-473 | The same for an answer, with its three errors |
| CallService.Calls.Reject | internal/phone/call.go:483-534 | The same for a rejection |
| CallService.Calls.HangupLocked | internal/phone/call.go:734-798 | The loops over participants and over ADD entries come to one departure, or to the end of the call with all its rings |
| CallService.Calls.HangupSession | internal/phone/call.go:560-603 | Leaves the first call the scan meets that the session is in, and changes nothing if it is in none |
| CallService.Calls.ReapUnreachableRings | internal/phone/call.go:635-721 | Both scans together end exactly the one ring there can be, and only when no session is left to ring |
| CallService.Calls.Add | internal/phone/call.go:804-917 | The same for an ADD, with its errors |
| CallService.Calls.CancelAdd | internal/phone/call.go:921-959 | The same for a cancelled ADD |
| CallService.Calls.BroadcastChar | internal/phone/call.go:964-980 | Sends to exactly the open channels of the participants who are not of the sender's account, and changes nothing in the table |
| PhoneProgram.Program.HandlePhoneEvent | internal/phone/app.go:248-455 | Moves the model, and hangs up its call, exactly as the event handler function says |
| PhoneProgram.Program.HandleRing | internal/lobby/model.go:283-328 | Moves the lobby's note of an incoming ring as the event handler function says |
| PhoneProgram.Teardown | cmd/server/main.go:329-333 | The deferred cleanup leaves the table that hanging up, unregistering and reaping leave, in that order, and keeps it sound |
| PhoneProgram.TeardownIsSteps | cmd/server/main.go:300-333 | It is the protocol's three teardown steps with nothing between |
| PhoneProgram.Program.DoDial | internal/phone/app.go:739-791 | From idle dials and shows the call pending; from an active call adds; otherwise does nothing |
| PhoneProgram.Program.DoAnswer | internal/phone/app.go:793-832 | On success shows everyone else in the call; on refusal only forgets the ring |
| PhoneProgram.Program.DoReject | internal/phone/app.go:834-846 | Forgets the noted ring and rejects that call, or without one does nothing |
| PhoneProgram.Program.CancelPendingAdd | internal/phone/app.go:877-884 | Forgets the ADD target and cancels that ring, or without one does nothing |
| PhoneProgram.Program.DoHangup | internal/phone/app.go:850-875 | Leaves the call on the screen, if any, and shows the session idle |
| PhoneProgram.DialIsRingAndCommit | internal/phone/app.go:739-791 | A dial or ADD command is the protocol's three steps with nothing between |
| PhoneProgram.AnswerIsStep | internal/phone/app.go:793-832 | An ANSWER command is the protocol's step |
| PhoneProgram.CommandsAreSteps | internal/phone/app.go:834-893 | REJECT, HANGUP and a cancelled ADD are the protocol's steps |
| PhoneProgram.HandlingIsConsume | internal/phone/app.go:248-455 | Handling the oldest event is the protocol's step |
| SessionRegistry.Registry.Register | internal/registry/registry.go:182-229 | Mints an ID no live session has, and keeps both indexes in agreement |
| SessionRegistry.Registry.Unregister | internal/registry/registry.go:238-293 | Removes the session from both indexes, and the account with its last one; its done channel is closed once |
| SessionRegistry.Registry.SendToSession | internal/registry/registry.go:325-358 | Changes at most one queue: one event more, or none if eight wait |
| SessionRegistry.Registry.SessionsOf | internal/registry/registry.go:364-376 | Returns each session of the account once |
| SessionRegistry.Registry.Get | internal/registry/registry.go:413-425 | Finds an account exactly when the index holds a session of it, and counts those sessions |
| SessionRegistry.Registry.List | internal/registry/registry.go:390-409 | Lists an account exactly when the viewer is an admin, or the account is not an admin's, or it lets itself be seen; each once in alphabetical order, with the number of sessions the index holds |
| SessionRegistry.Registry.Kick | internal/registry/registry.go:457-487 | Terminates every session of the account that has a hook, once each |
| SessionRegistry.Registry.NotifyAdmins | internal/registry/registry.go:494-508 | Sends to exactly the sessions of admin accounts, once each |
| SessionRegistry.DeliverTwice | internal/registry/registry.go:325-358 | Deliveries to different sessions commute into one, so a fan-out does not depend on map order |
| Registry.RegisterMeans | internal/registry/registry.go:182-229 | A login adds one session with an empty queue; its account keeps the role, visibility and app that its first login gave |
| Registry.UnregisterMeans | internal/registry/registry.go:238-293 | A logout takes that session away, and its account exactly with the last one |
| Registry.DeliverMeans | internal/registry/registry.go:325-358 | An event goes behind those waiting, unless eight wait: then it is lost |
| Registry.AdminsMeans | internal/registry/registry.go:494-508 | A notice to admins is for a session exactly when its account is an admin's |
| RegistryHistory.IndexesAgree | internal/registry/registry.go:149-167 | After any sequence of calls the index and the accounts hold the same sessions, and no account is empty |
| RegistryHistory.NeverReused | internal/registry/registry.go:162-165 | A session ID that is spent is never live again |
| RegistryHistory.QueueHistory | internal/registry/registry.go:325-358 | What a session has received and what waits for it are what it was sent, in order, minus what was sent while eight waited |
| Abbreviation.RoleIndependence | internal/lobby/abbrev.go:120-191 | A non-admin's every line resolves as if the admin commands did not exist, if and only if no argument-taking admin command cuts short a user command that no argument-taking user command cuts shorter |
| Abbreviation.Idempotent | internal/lobby/abbrev.go:108-191 | Resolving the words of a resolution gives the same resolution |
| Abbreviation.CanonicalStays | internal/lobby/abbrev.go:108-191 | A visible command typed out in full resolves to itself |
| Abbreviation.WhenAmbiguous | internal/lobby/abbrev.go:146-170 | A word is ambiguous exactly when it is no candidate itself and two candidates begin with it |
| Abbreviation.ScanCompletes | internal/lobby/abbrev.go:113-119 | Each resolved word completes the one typed, and the rest is passed through as typed |
| TypedLines.ResolveMeans | internal/lobby/abbrev.go:120-191 | What resolving a line is, without the scan, for every result and both ways: each word is chosen by the letters typed among the words that can follow; it stops after an argument-taking command, where nothing that can follow begins with what is typed, or, ambiguously, where several words do and none is it |
| TypedLines.MatchMeans | internal/lobby/abbrev.go:141-170 | Which of the three matches a typed word is, by its letters in any case |
| TypedLines.UpperMeans | internal/lobby/abbrev.go:132-133 | Upper case changes nothing but the case of letters, and leaves no small one |
| Words.FieldsOfSpread | internal/lobby/abbrev.go:121-124 | However words are spaced with white space, the fields of the line are the words |
| AbbrevTrie.BuildTrie | internal/lobby/abbrev.go:61-91 | Whatever the order of insertion, every node holds what the tables say of the commands that begin with its path, and is marked visible exactly when a non-admin may see one of them |
| AbbrevTrie.ChildrenAreNext | internal/lobby/abbrev.go:97-139 | The role-scoped candidates of a node are exactly the next words of the visible commands that begin with its path |
| AbbrevTrie.ResolveAbbrev | internal/lobby/abbrev.go:120-191 | The walk of the trie gives what the flat scan of the tables gives, and lists an ambiguity in order |
| AbbrevTrie.SortedIsUnique | internal/lobby/abbrev.go:161-168 | The sorted list of an ambiguity is determined by the candidates alone |
| Dispatch.SelectsArg | internal/lobby/commands.go:484-497 | If resolution stops at an argument-taking command with words left, dispatch selects that command with those words joined in their own case, provided a longer such command comes after those that begin it |
| Dispatch.SelectsExact | internal/lobby/commands.go:499-507 | Otherwise dispatch selects the exact command if all words resolved to it and the user may see it, and nothing at all in any other case |
| TypedLines.DispatchFolds | internal/lobby/commands.go:476-507 | Two lines that differ in case alone select the same command, and its arguments differ in case alone |
| TypedLines.RunsTyped | internal/lobby/commands.go:499-507 | A visible command typed in any mixture of cases, with any spacing, runs |
| TypedLines.RunsTypedWithArg | internal/lobby/commands.go:484-497 | A visible argument-taking command typed in any mixture of cases runs with the words after it, in their own case |
| TypedLines.AsksWhenTorn | internal/lobby/commands.go:476-480 | A line is asked about exactly when its words are ambiguous |
| Words.TrimIs | internal/lobby/commands.go:482-482 | Trimming takes the white space off both ends and nothing else |
| Dispatch.LineIdempotent | internal/lobby/abbrev.go:108-191 | Resolving a line twice is resolving it once |
| Dispatch.CanonicalLineStays | internal/lobby/abbrev.go:108-191 | A visible command line is handed on unchanged |
| Dispatch.NoBackDoor | internal/lobby/commands.go:446-460 | Whatever the tables and the line, a non-admin never reaches an admin handler, and an ambiguity names only visible commands |
| Dispatch.DispatchLine | internal/lobby/commands.go:461-507 | Resolver, ordered prefix match and exact lookup together compute the dispatch function |
| ShippedTables.ShippedRolesApart | internal/lobby/commands.go:379-444 | The shipped tables meet the condition for role independence |
| ShippedTables.ShippedArgsOrdered | internal/lobby/commands.go:419-443 | No shipped argument-taking command begins another |
| ShippedTables.AdminKeysAreVerbs | internal/lobby/commands.go:210-245 | The admin keys are INVITE and the verbs of the admin help topics |
| PlanText.StripAnsi | internal/store/plan.go:80-140 | The nested loops compute the scanner function |
| PlanText.StripIsClean | internal/store/plan.go:71-79 | The output has no ESC, no DEL, no control rune but newline and tab, and nothing unprintable |
| PlanText.StripTwice | internal/store/plan.go:20-27 | Stripping twice is stripping once |
| PlanText.StripsOnlyTheUnclean | internal/store/plan.go:71-79 | The text is unchanged exactly when it is clean |
| PlanText.PlainStays | internal/store/plan.go:71-140 | A text is left as it is exactly when it is newlines, tabs and printable runes that are no control, no ESC and no DEL |
| PlanText.OpenSwallows | internal/store/plan.go:80-140 | An unfinished sequence swallows the rest of the text |
| PlanText.StripInParts | internal/store/plan.go:80-140 | Past a point outside every sequence, the rest is stripped on its own |
| PlanText.StripsToText | internal/store/plan.go:74-79 | Text interleaved with control sequences (section 5.4 of ECMA-48) with any parameters, operating system commands ended by BEL or ST (section 5.6 of ECMA-48) with any body, and two-rune escapes strips to the plain runes of the text |
| PlanText.SetPlan | internal/store/plan.go:29-42 | Refuses exactly what is longer than 512 runes once stripped and trimmed, and stores only what a display-time strip leaves alone |
| PlanText.TrimIs | internal/store/plan.go:31-31 | Trimming takes the white space off both ends and nothing else |
| Accounts.LastAdminStays | internal/store/store.go:482-611 | Once an admin is usable, one is usable after any interleaving of bans, deletes, unbans, lifted bans, account creation, approval, rejection, purges and password changes on a clock that does not go back |
| Accounts.GuardIsTight | internal/store/store.go:538-574 | The guard holds back a ban to a later time, or a delete, exactly when the target is the only usable admin |
| Accounts.UsableStays | internal/store/store.go:497-502 | Time alone never makes an admin unusable |
| Accounts.TwinsAgree | internal/store/store.go:55-66 | The Go predicate on a nanosecond clock agrees with the SQL predicate except for an admin in the second in which a ban lapses |
| Accounts.BanRows | internal/store/store.go:538-574 | A ban suspends the named row until its time or for ever, unless it is the only usable admin, and changes nothing else |
| Accounts.DeleteRows | internal/store/store.go:760-783 | A delete removes exactly the named row, unless it is the only usable admin |
| Accounts.UnbanRows | internal/store/store.go:578-611 | Lifting a ban, by hand or because its last second has gone by before the year 2090, makes the row active and changes nothing else |
| Accounts.BanEnds | internal/store/store.go:597-611 | A timed ban has lapsed exactly after its last second, if that is before the year 2090; one without a time never has |
| Accounts.OldRows | internal/store/store.go:377-392 | Clearing by age takes exactly the waiting rows made more than the limit ago, of one name or of all, and keeps every other row |
| Accounts.AgeFreesNames | internal/store/store.go:349-359 | A name is free after clearing by age exactly when its row was waiting and made more than the limit ago |
| Accounts.WaitingRows | internal/store/store.go:397-433 | Approval activates, and denial removes, exactly the waiting row of that name |
| Accounts.CounterRows | internal/store/store.go:273-306 | A failure counts, and locks the row for 900 seconds from the fifth on; clearing resets both; a new password changes the hash alone |
| Accounts.InsertRows | internal/store/store.go:188-203 | A row is made only under a free name, unlocked, unbanned and without failures |
| AccountStore.Store.BanUser | internal/store/store.go:538-574 | Refuses with ErrNotFound exactly when there is no such user and with ErrLastUsableAdmin exactly for the only usable admin, and then changes nothing |
| AccountStore.Store.DeleteUser | internal/store/store.go:760-783 | The same for a delete |
| AccountStore.Store.UnbanUser | internal/store/store.go:578-591 | Succeeds exactly for a suspended user, who is active without a ban afterwards; no other row changes |
| AccountStore.Store.CheckAndLiftExpiredBan | internal/store/store.go:597-611 | Lifts exactly a timed ban whose last second has gone by before the year 2090, and leaves the set of usable admins as it was |
| AccountStore.Store.CreatePendingAccount | internal/store/store.go:349-372 | Fails exactly when the name is held by a row that is not waiting or was made within the limit; removes only a waiting row of that name made earlier; otherwise makes one fresh waiting row |
| AccountStore.Store.ValidateAndConsumeInvite | internal/store/store.go:679-710 | Takes one use exactly of a valid invite, and otherwise changes nothing; expiry is on a clock of nanoseconds |
| AccountStore.Store.Authenticate | cmd/server/main.go:468-590 | On the public listener "new" in any case is let in to register unless registration is closed, and touches no row; otherwise a login succeeds exactly for a row whose role fits the listener, whose password is right, with no lock on, active or with its ban over, and leaves it active without ban, lock or failures; every other row stays |
| AccountStore.Form.Submit | internal/registration/app.go:114-201 | Moves on exactly with a valid free username, a repeated email, a good invite code and a valid password, and back on a mismatch; nothing but the confirmed last step touches the store |
| AccountStore.Form.Finalise | internal/registration/app.go:204-276 | With nobody else between its statements: an account results exactly when the name is free and, for an invite, the code is valid; only then is a use taken, and where none results every other row is as before |
| AccountStore.FinaliseIsActs | internal/registration/app.go:204-253 | The form's finalise is the desk's statements, create, consume, and activate or roll back, with nobody else between them |
| Lockout.LockoutBound | cmd/server/main.go:546-569 | From a cleared counter, k wrong passwords checked between two times satisfy k <= 5 + (their difference in seconds) / 900 |
| Lockout.BoundIsMet | internal/store/store.go:256-291 | That bound is reached, for every k |
| Lockout.RefusalIsFree | cmd/server/main.go:546-551 | A refused attempt changes nothing, so it cannot extend the lock |
| Lockout.LogsInExactly | cmd/server/main.go:538-578 | An attempt succeeds if and only if the row is active, has a password, any lock has ended, and the password is right; each refusal by its own condition |
| Lockout.RowAfterAttempt | cmd/server/main.go:560-578 | A login clears the counter and the lock and a wrong password counts; nothing else in the row changes, and no other attempt changes it |
| Lockout.UsableCanLogIn | internal/store/store.go:497-502 | The admins that the guard counts are those who can log in once a lapsed ban is lifted, given a password and no lock |
| Invites.InviteConservation | internal/registration/app.go:204-253 | Over every interleaving of registrations and admin actions, the uses a code began with are those left and those taken, never below zero, and it activates no more accounts than uses were taken |
| Invites.OnlyTheCreatedPay | internal/registration/app.go:226-241 | A use is taken only by a registration whose account row was made, and exactly one |
| Invites.GoodCodes | internal/store/store.go:653-729 | A code is good exactly while it has uses left and its second has not gone by, or lies in the year 2090 or later; consuming takes one use of that code alone |
| Invites.EntersWithGoodCode | internal/registration/app.go:157-175 | A registration gets past the invite question exactly with a good code, and takes no use of it then |
| Invites.StoppedNeverPays | internal/registration/app.go:157-175 | A registration that stopped early, found its name taken or was refused has taken nothing, then or later |
| Invites.RollBackClears | internal/registration/app.go:233-241 | A failed consume leaves no waiting row under that name, and no other row is touched |
| PaidRegistrations.PaidEndsActive | internal/registration/app.go:215-250 | Whatever comes between, a registration that pays activates its own row if nothing took that row away; if something did and nobody made another row under the name, nothing is activated and the use is gone |
| PaidRegistrations.PaidAtActivation | internal/store/store.go:397-403 | When ActivateAccount runs for a paid registration, the name has an active account afterwards exactly when its row was active or waiting, and one account is activated exactly when it was waiting |
| PaidRegistrations.ClearsExactly | internal/store/store.go:349-372 | A waiting row goes on waiting exactly when the act is none of: a ban, delete, approval or denial of its name, its expiry by a purge or by a registration of its name, and the roll-back or activation of a registration of its name |
| PaidRegistrations.RollBackTakesAnothers | internal/registration/app.go:233-241 | A refused registration's roll-back takes the waiting row of another registration of the same name, which then pays and activates nothing |
| PaidRegistrations.SpentOnNothing | internal/registration/app.go:226-250 | A run from an empty desk in which a registration pays and its name has no account at the end |

## Left out

PHONE:

- Call IDs: assumed fresh. The source takes them from a nanosecond clock (`internal/phone/call.go:278`); `Dial` takes the ID as a parameter.
- Session IDs: unbounded naturals, where the source has an unsigned 64-bit counter.
- Call records and session records: values inside the table's maps. That the source shares pointers to them between maps and callers is not captured.
- Ring timers: a tick may fire at any time for any ring ever admitted, even after its stop channel is closed.
- Entering PHONE from the lobby: one step. The lobby's asynchronous launch and its re-subscription to events are not modelled; events are taken from the queue in order.
- The two readings of an ANSWER: `Answer` and the list of participants shown afterwards are one step.
- A fan-out to several sessions and a reaper's look at the registry: one step each, though the registry has its own lock. Only the admission check of Dial and Add is split.
- Keys while an ADD rings: the first keypress always cancels the ADD in the source; the model also lets the session do anything else, so it has more runs.
- EqualFold: ASCII letters only.
- Notifications, the bell, viewport contents, rendering, HELP and the character stream itself: not modelled; a broadcast is only its sends.
- PhoneProgram.Program.DoExit: the app-exit messages that the lobby prints are left out.
- The lobby's DIAL, ANSWER and REJECT commands: modelled on values only, in `Protocol`.

The command line:

- The trie: immutable nodes, rebuilt along the path on each insertion, where the source changes nodes through pointers; the build-once guard is left out.
- Words.Upper: ASCII letters only; white space is ASCII white space, U+0085 and U+00A0.
- Handlers: known by their command; what they print or do is not modelled.
- The wording of the ambiguity message: only the sorted candidates are.

The account store:

- SQLite: each statement, and the invite transaction, is one atomic step over a map of rows. Timestamps compare as numbers, and the year test as a bound on seconds. The foreign key from invites to their creator, which can make a delete fail, is left out.
- Row IDs: any free number.
- Password hashing and invite-code generation: parameters.
- AccountStore.Form.Finalise: one uninterrupted finalise; `Invites` and `PaidRegistrations` are about its statements interleaved with everything else.
- Clocks of bans and lockouts: whole seconds (a lock that ends on a whole second reads the same on a finer clock); invite expiry and `IsUsableAdmin` read nanoseconds.
- Lockout.CompleteAuth: one step, where the source reads the row, verifies and then records; concurrent attempts that all pass the lock test before any is recorded are not captured.
- The validators of usernames and passwords, and the trimming of typed input: parameters of the form.
- Registration notices to admins, kick hooks beyond which sessions they end, bootstrap recovery, the setplan, createuser and setpassword editors, audit and debug logs, configuration: not modelled.
- SSH, the listeners, rate limiting and the terminal: not modelled.
