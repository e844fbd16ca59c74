# Espera, verified

Espera is a backend for waiting queues. Businesses open queues, customers take
turns, staff call and serve them, and organizations pay for a plan that limits
how many queues and service windows they may keep active. This project models
the parts of it where correctness depends on several requests at once, or on
many steps, and proves what they guarantee.

Every protocol is written once as a function of the stored rows: one call of
`Advance` is one database access of one request. The same function is run

- interleaved, phase by phase, with any other requests (`Step`, `Run`), and
- alone, phase after phase (`Finish`, `Alone`).

The use cases themselves are classes whose fields are the tables and whose
methods follow the code statement by statement (`TurnDesk`, `SessionDesk`,
`AccountDesk`, `Suspension`, `RateLimiter`, `BusinessDirectory`). Each method is
proved against a specification function or states its whole effect outright, so
the theorems about runs speak about those methods.

| files | what they hold |
|---|---|
| `Shared.dfy` | optional values, the stable sort, filtering and counting |
| `Turns.dfy`, `TurnProtocol.dfy`, `TurnSafety.dfy`, `TurnSerial.dfy`, `OverlappingCalls.dfy`, `TurnDiagram.dfy`, `TurnAnswers.dfy`, `TurnGuarantees.dfy`, `TurnDesk.dfy` | a turn's life, the requests that write it, what every interleaving keeps, what serial runs keep, where overlapping calls break it, when each request succeeds, what it then stores column by column, the guarantees said of the rows themselves, the use cases |
| `ServiceOrder.dfy`, `WaitEstimate.dfy` | who is served next, the position and minutes a customer is told |
| `Numbering.dfy`, `DayMetrics.dfy` | numbers under the row lock, tickets, the figures of a day |
| `Suspension.dfy` | suspending a business beside other writers |
| `RefreshSessions.dfy`, `SessionAnswers.dfy`, `SessionDesk.dfy` | token rotation, replay, logout, blocking; what each request leaves, and that the log tells it all; the use cases |
| `Plans.dfy`, `Enforcement.dfy`, `KeepOldest.dfy`, `PlanSafety.dfy`, `PlanAnswers.dfy`, `AccountDesk.dfy` | plan limits over every request, trimming that may crash and be retried, that it keeps the oldest, the answer and the account after each request |
| `Together.dfy` | where the parts meet: account requests and interleaved turn requests in one run, the writers beside a suspension |
| `RateLimiter.dfy`, `BusinessDirectory.dfy`, `OpeningHours.dfy`, `Cuit.dfy` | smaller algorithms with exact specifications |

`dafny verify dfyconfig.toml` checks all of it with Dafny 4.11.

Tables are sequences of rows in which a row's id is its index. The version that
a turn's compare-and-swap compares (`updatedAt`) is fresh on each committed
write. Clocks never go back. A database query that returns any one matching row
returns the first one here.

## What turned out false, or sharper than promised

- **At most one called turn.** The check of call-next reads one row and writes
  another, so two overlapping calls can both succeed, with the unique indexes in
  place: in every configuration whose queue takes turns, two walk-ins and two calls
  reach such a state from an empty table (`OverlappingCallsCallTwo`). A commit keeps the rule exactly if nobody is
  called at the moment it commits (`CallCommitKeepsOneCalled`); one request at a
  time always does (`AloneKeepsExclusive`).
- **A suspension and a turn that has just ended** (`SuspendBusinessUseCase.ts:63-76`). The
  comment says that a turn that changed since it was read is caught by the version check.
  The list of active turns and the turns themselves are read separately, and the first
  attempt does not look at the status: a turn that ends between its two reads is
  cancelled all the same (`CompletedTurnIsCancelled`). Exactly the announced turns that
  were active when read individually are cancelled legally (`CancelIsLegalIffActive`,
  and the last clause of `Suspension.Platform.Suspend`).
- **Requesters share no counter** (`rateLimiter.ts:158-173`). True of the plain counters, since no
  bucket has a colon in its name (`PlainKeysIdentify`), and of the scoped ones as long as
  no scope has one (`ScopedKeysIdentify`): addresses contain colons, and with a colon in
  the scope two requesters can share a counter (`ColonInScopeCollides`).
- **Combining list filters** (`ListAllBusinessesUseCase.ts:70-76`). The comment says
  that every condition applies and that a contradictory combination matches
  nothing. The code lets the individual parameter win over the commercial state.
  The conditions are all applied exactly when they do not contradict each other
  (`CombinedFiltersAreConjunctionIffConsistent`); `ContradictionStillMatches` is a
  concrete combination that matches what it should not.
- **Pages list each match once.** Only if no two matches with equal sort keys stand
  on the two sides of a page boundary (`PagesAreExactIffNoTieStraddles`): the order
  by name or by creation time has no further tie-break.
- **Any transposition of a CUIT is caught** (`cuit.ts:3-8`). A swap is rejected exactly
  if the digits and their weights differ (`SwapIsRejectedIff`); positions 0 and 6
  have the same weight (`SomeSwapsPass`).
- **The limiter's bound.** The window admits at most twice its limit in any interval of
  its length; the exact bound is one less, and it is reached (`TheBoundIsReached`).
- **More queues from Pro upward** (`CreateQueueUseCase.ts:24-32`). The shipped plan grid allows
  one active queue per business in every plan. From an account within its plan no queue
  is then ever created or toggled except the first one, which approval creates
  (`ShippedGridGrantsNoSecondQueue`). `PlanLimits.ts` announces that the numbers may be
  raised, so the grid is a parameter: every theorem about plans holds for every grid that
  grants each plan a queue and a window, `ShippedGridBounds` instantiates the shipped one,
  and `SecondQueueIsReached` is a run under another grid in which a second queue is granted.

## Model

| member | source | states |
|---|---|---|
| `TurnSafety.StepSafe` | src/modules/queue/infrastructure/PostgresTurnRepo.ts:345-376 | One database access of any request, in any interleaving, keeps every table invariant and what every other request in flight has read, and moves a row at most one legal edge with a version nobody has read |
| `TurnSafety.NoLostUpdates` | src/modules/queue/infrastructure/PostgresTurnRepo.ts:345-376 | Over every interleaving of any number of requests rows never disappear, terminal rows never change, statuses only go forward, priority only from registered to in_transit to arrived |
| `TurnSafety.CommitIsLegal` | src/modules/queue/infrastructure/PostgresTurnRepo.ts:352-376 | A save commits if and only if the stored row is still the one that was read and no index objects; then that row alone changes, along a legal edge from what is stored at that moment; otherwise nothing changes |
| `TurnSafety.SecondWriterLoses` | src/modules/queue/application/saveTurnOrThrowConflict.ts:15-42 | Of two requests that read the same version, once one commits the other gets TURN_CONFLICT and writes nothing |
| `TurnSafety.SaveCommits` | src/modules/queue/infrastructure/PostgresTurnRepo.ts:352-366 | What a committed save stores, column by column, given the row that was read |
| `TurnSafety.DecideBuildsLegalEdge` | src/modules/queue/application/AttendTurnUseCase.ts:48-115 | Whatever a use case builds from the turn it read is one legal edge away from it, with the timestamps that status needs |
| `TurnSafety.Reachable` | src/modules/queue/infrastructure/PostgresTurnRepo.ts:87-119 | The invariant holds after any events from an empty table |
| `TurnSafety.TimestampsTellTheStory` | src/modules/queue/application/AttendTurnUseCase.ts:73-100 | In every reachable state a completed turn has calledAt <= startedAttentionAt <= attendedAt, and exactly one terminal timestamp is set if and only if the turn is terminal |
| `TurnSafety.AheadOfDueIsDue` | src/modules/queue/application/CreateManualTurnUseCase.ts:87-105 | In every reachable state whoever is ordered before a due turn is itself due: only unconfirmed phone reservations join in the future |
| `TurnGuarantees.StepTakesOneWay` | src/modules/queue/infrastructure/PostgresTurnRepo.ts:345-376 | In every interleaving one step leaves a row as it is, moves its status along one of ten ways, or confirms the customer's approach and touches nothing else |
| `TurnGuarantees.RowsOnlyMoveForward` | src/modules/queue/infrastructure/PostgresTurnRepo.ts:345-376 | Over every run a turn that has ended never changes, a called one never waits again, an attended one is never called again or a no-show, nobody's priority sinks, and what identifies a turn stays |
| `TurnGuarantees.IndexesHoldInEveryRun` | src/modules/queue/application/saveTurnOrThrowConflict.ts:42-57 | With the two partial unique indexes, in every state of every interleaving no window is held by two turns and no customer has two turns that have not ended |
| `TurnGuarantees.WhySaveFails` | src/modules/queue/application/saveTurnOrThrowConflict.ts:15-57 | In every interleaving a save gets the conflict if and only if the row was written since it was read, and the occupancy error if and only if it claims a window or customer that another row holds |
| `TurnSerial.AloneKeepsExclusive` | src/modules/queue/application/CallNextUseCase.ts:54-81 | A request that runs alone keeps one called turn per queue, one holder per window, one active turn per customer, with or without the indexes, and never ends in a write conflict |
| `TurnSerial.SerialRunKeepsExclusive` | src/modules/queue/application/CreateTurnUseCase.ts:75-85 | The same over every serial run |
| `TurnSerial.SerialRunFromScratch` | src/modules/queue/application/AttendTurnUseCase.ts:66-81 | From an empty table no serial run ever has two called turns in a queue, two holders of a window or two active turns of a customer |
| `TurnSerial.ClaimGuard` | src/modules/queue/application/RedirectTurnUseCase.ts:60-72 | The occupancy check is enough to claim a window when nobody runs in between |
| `TurnSerial.CallCommitKeepsOneCalled` | src/modules/queue/application/CallNextUseCase.ts:54-81 | When a call commits, at most one turn is called afterwards if and only if none was at that moment |
| `OverlappingCalls.OverlappingCallsCallTwo` | src/modules/queue/application/CallNextUseCase.ts:54-81 | For every configuration whose queue takes turns: from an empty table with both indexes, two walk-ins and then two overlapping calls end with two called turns |
| `OverlappingCalls.WholeIsAlone` | src/modules/queue/application/CallNextUseCase.ts:34-94 | A request whose phases run in a row inside any state of the interleaved system does what it does alone, so that serial and interleaved runs speak of the same requests |
| `OverlappingCalls.BothSeeNobody` | src/modules/queue/application/CallNextUseCase.ts:54-63 | Whatever else is in flight, two calls started together on an open queue both pass the check that nobody is called |
| `TurnDiagram.ChangeFollowsTheDiagram` | src/modules/queue/application/AttendTurnUseCase.ts:40-115 | A request on an existing turn, running alone, succeeds if and only if a status table has an entry for the turn, the requester is entitled to it and the window is free; the turn then moves as the table says, and otherwise nothing changes |
| `TurnDiagram.CallNextAnswers` | src/modules/queue/application/CallNextUseCase.ts:40-81 | A call running alone succeeds if and only if the queue is open, nobody is called and somebody is due, and which of the two refusals it gives otherwise |
| `TurnDiagram.JoinAnswers` | src/modules/queue/application/CreateManualTurnUseCase.ts:54-105 | Who may join, and the row that is appended: next number of the day, rank, time of joining |
| `TurnAnswers.AttendStarts` | src/modules/queue/application/AttendTurnUseCase.ts:48-93 | A called or redirected turn is attended at the window asked for, or else at its own, if and only if nobody else is served there, or in a queue without active windows if there is neither; it stores that window and the first start of attention, every other column stays, and which error it gets otherwise |
| `TurnAnswers.AttendFinishes` | src/modules/queue/application/AttendTurnUseCase.ts:95-115 | Attending a turn that is being attended completes it now; turns that wait or have ended are refused |
| `TurnAnswers.RedirectAnswers` | src/modules/queue/application/RedirectTurnUseCase.ts:47-72 | When a turn is redirected, that it stores the target window and nothing else, and each refusal |
| `TurnAnswers.NoShowAnswers` | src/modules/queue/application/MarkTurnNoShowUseCase.ts:46-80 | Only a called turn becomes a no-show, stamped now |
| `TurnAnswers.CancelAnswers` | src/modules/queue/application/CancelTurnByEmployeeUseCase.ts:32-61 | Who may cancel a turn in which status, the stamp, and the three refusals |
| `TurnAnswers.SuspensionCancels` | src/modules/business/application/SuspendBusinessUseCase.ts:125-130 | A suspension's cancellation of a turn that it read while nobody else ran: exactly the turns that have not ended |
| `TurnAnswers.ConfirmAnswers` | src/modules/queue/application/ConfirmTurnStatusUseCase.ts:41-72 | Registered becomes in transit, in transit becomes arrived, whatever the status, and nothing else moves |
| `TurnAnswers.ConfirmWithoutTurn` | src/modules/queue/application/ConfirmTurnStatusUseCase.ts:41-50 | Without a turn of the customer in the queue that has not ended nothing is confirmed |
| `TurnAnswers.CallTakesFirst` | src/modules/queue/infrastructure/PostgresTurnRepo.ts:121-131 | A call stamps a due turn before which no due turn of the queue is served: arrived, physical, in transit, registered, then by time of joining, then by number |
| `TurnAnswers.AheadIsNumberServedFirst` | src/modules/queue/infrastructure/PostgresTurnRepo.ts:209-233 | The two counting queries give the number of waiting turns of the queue that are served before the turn |
| `TurnAnswers.StaffListAnswers` | src/modules/queue/infrastructure/PostgresTurnRepo.ts:256-279 | The staff list holds exactly the queue's turns that have not ended, each once, and none behind one that is served later |
| `TurnSafety.SaveSafe` | src/modules/queue/application/saveTurnOrThrowConflict.ts:15-57 | A save of an entity built from a turn that was read keeps the invariant; if it succeeds the stored row is the one that was read and is replaced, alone, along a legal edge; if it fails nothing changes |
| `TurnSafety.InsertSafe` | src/modules/queue/infrastructure/PostgresTurnRepo.ts:87-119 | An insert keeps the invariant, the next number and the ticket included; it appends one row or changes nothing |
| `TurnDesk.Desk.CallNextTurn` | src/modules/queue/application/CallNextUseCase.ts:34-94 | The whole new table and outcome of a call are those of the request's phases run in a row |
| `TurnDesk.Desk.AttendTurn` | src/modules/queue/application/AttendTurnUseCase.ts:40-116 | The same for attending: start, finish, window rules and their errors |
| `TurnDesk.Desk.RedirectTurn` | src/modules/queue/application/RedirectTurnUseCase.ts:35-86 | The same for redirecting |
| `TurnDesk.Desk.ConfirmTurnStatus` | src/modules/queue/application/ConfirmTurnStatusUseCase.ts:41-72 | The same for the two priority steps |
| `TurnDesk.Desk.MarkTurnNoShow` | src/modules/queue/application/MarkTurnNoShowUseCase.ts:46-80 | The same for a no-show |
| `TurnDesk.Desk.CancelOwnTurn` | src/modules/queue/application/CancelTurnUseCase.ts:28-54 | The same for a customer's cancellation |
| `TurnDesk.Desk.CancelTurnByEmployee` | src/modules/queue/application/CancelTurnByEmployeeUseCase.ts:32-61 | The same for a cancellation by staff |
| `TurnDesk.Desk.CancelGuestTurn` | src/modules/queue/application/CancelGuestTurnUseCase.ts:42-72 | The same for a guest's cancellation |
| `TurnDesk.Desk.TakeTurnFor` | src/modules/queue/application/CreateTurnUseCase.ts:47-134 | The same for a turn from the app or the web, opening hours included |
| `TurnDesk.IsWithinOperatingHours` | src/modules/business/domain/BusinessAvailabilityService.ts:71-100 | Open if and only if no hours are configured, or the local date is a working day and one of the day's ranges holds the local minute |
| `TurnDesk.Desk.TakeManualTurnFor` | src/modules/queue/application/CreateManualTurnUseCase.ts:54-123 | The same for a walk-in or a phone reservation |
| `ServiceOrder.AheadIsIndexInLine` | src/modules/queue/infrastructure/PostgresTurnRepo.ts:209-233 | The two counting queries together give the turn's index among all waiting turns in comparator order |
| `ServiceOrder.AheadIsCountBefore` | src/modules/queue/infrastructure/PostgresTurnRepo.ts:19-27 | The queries count the waiting turns that the comparator puts strictly before |
| `ServiceOrder.ListPositionIsAheadPlusOne` | src/modules/queue/infrastructure/PostgresTurnRepo.ts:256-279 | The number of waiting rows before a turn in the staff list is what the counting queries return for it |
| `ServiceOrder.CallNextAlone` | src/modules/queue/infrastructure/PostgresTurnRepo.ts:121-131 | A call that runs alone changes the head of the due turns and nothing else, or changes nothing |
| `ServiceOrder.CallTakesHead` | src/modules/queue/infrastructure/PostgresTurnRepo.ts:121-131 | A successful call takes the due turn itself if nobody is ahead of it, and otherwise one turn that is ahead |
| `ServiceOrder.CalledAfterExactlyAhead` | src/modules/queue/domain/ITurnRepo.ts:117-123 | Over any run without joins, cancels or confirmations a due turn is still waiting if and only if at most as many calls succeeded as turns were ahead, and each call brings it one closer |
| `LineKeys.SameDayTurnsNeverTie` | src/modules/queue/infrastructure/PostgresTurnRepo.ts:19-27 | In every reachable state waiting turns issued on one day have different sort keys |
| `WaitEstimate.EstimateIsLeastMakespan` | src/modules/queue/domain/QueueWaitEstimateService.ts:39-51 | The estimate is the makespan of a round-robin schedule of the waiting turns on the windows, and no schedule is shorter |
| `WaitEstimate.NoScheduleBeats` | src/modules/queue/domain/QueueWaitEstimateService.ts:44-46 | No assignment of equal jobs to windows finishes before the rounded-up share |
| `WaitEstimate.PolledAnswers` | src/modules/queue/application/resolveTurnWaitStatus.ts:41-62 | The customer's screen: one more than the number of turns served first and the wait behind those; afterwards position zero and the window; five minutes without history |
| `WaitEstimate.GetQueueList` | src/modules/queue/application/GetQueueListUseCase.ts:82-117 | Each waiting row is estimated with its place among the waiting rows; other rows have no estimate |
| `WaitEstimate.ListExceedsPolledByAtMostOneInterval` | src/modules/queue/application/resolveTurnWaitStatus.ts:41-62 | The staff list's minutes exceed the customer's by one service interval if the turns ahead fill the windows evenly and agree otherwise; the positions agree |
| `Numbering.LockedNumbersAreOneToN` | src/modules/queue/infrastructure/PostgresTurnRepo.ts:87-119 | However creations and other writes interleave under the row lock, the numbers of a queue and day are exactly 1..n |
| `Numbering.LockMakesCreationAtomic` | src/modules/queue/infrastructure/PostgresTurnRepo.ts:88-97 | The count taken under the lock is still right at the insert, so the transaction does what one atomic step does |
| `Numbering.NumbersAreOneToN` | src/modules/queue/infrastructure/PostgresTurnRepo.ts:92-96 | The same in every reachable state of the turn protocol |
| `Numbering.NumberCountsEarlierTurns` | src/modules/queue/infrastructure/PostgresTurnRepo.ts:92-96 | In every reachable state a turn's number is one more than the number of turns issued before it for its queue and day |
| `Numbering.TicketsLook` | src/modules/queue/infrastructure/PostgresTurnRepo.ts:97 | The printed form: prefix, dash, three digits or as many as it takes |
| `Numbering.TicketReadsBack` | src/modules/queue/infrastructure/PostgresTurnRepo.ts:97 | A printed ticket can be read back to its prefix and number, padded or not |
| `Numbering.TicketsDiffer` | src/modules/queue/infrastructure/PostgresTurnRepo.ts:96-97 | If prefixes differ, no two turns of one business and day print the same ticket |
| `Tickets.RunKeepsRows` | src/modules/queue/application/CreateQueueUseCase.ts:84-93 | Over every run of account requests a queue keeps its business and its prefix |
| `Tickets.TicketsStayApart` | src/modules/queue/application/CreateQueueUseCase.ts:75-93 | From empty tables, under any plan grid, in every state of every run that mixes account requests with any interleaving of turn requests, no two turns of one business and day print the same ticket |
| `Tickets.WorldRunKeepsInv` | src/modules/queue/application/CreateQueueUseCase.ts:84-93 | Such a run keeps the invariants of both stores, and every change of the account tables is one the turn requests in flight reckon with |
| `Tickets.TurnsAreTakenWhereOpen` | src/modules/queue/application/CreateTurnUseCase.ts:51-65 | A turn is only taken from a queue that is active and of a business that is approved in the account tables and has not announced a pause |
| `DayMetrics.ComputeMetrics` | src/modules/queue/application/GetQueueMetricsUseCase.ts:75-108 | Totals, rates and average service minutes rounded half up, none without a completed turn, and the peak hour |
| `DayMetrics.AverageServiceMinutes` | src/modules/queue/application/GetQueueMetricsUseCase.ts:85-93 | The total service time over the number of services, in minutes, rounded half up |
| `DayMetrics.TotalTimeAdds` | src/modules/queue/application/GetQueueMetricsUseCase.ts:88-91 | The total is that of its parts, and a single service takes from its start to its end |
| `DayMetrics.PeakHour` | src/modules/queue/application/GetQueueMetricsUseCase.ts:95-105 | No hour has more starts, and no hour met earlier has as many |
| `DayMetrics.PeakIsUnique` | src/modules/queue/application/GetQueueMetricsUseCase.ts:102-104 | That settles the hour, ties included |
| `DayMetrics.HoursAreInOrder` | src/modules/queue/application/GetQueueMetricsUseCase.ts:97-101 | The hours are met in the order in which services first started in them |
| `DayMetrics.EveryTurnIsCountedOnce` | src/modules/queue/infrastructure/PostgresTurnRepo.ts:297-311 | The three queries plus the active turns count each turn of the day exactly once |
| `DayMetrics.FiguresOfTheDay` | src/modules/queue/infrastructure/PostgresTurnRepo.ts:297-311 | In every reachable state the figures are those of the rows: one service for each completed turn, from the start of its attention to its end, and the numbers of cancelled turns and no-shows |
| `DayMetrics.CountsAddUpToLastNumber` | src/modules/queue/application/GetQueueMetricsUseCase.ts:75-83 | In every reachable state completed + cancelled + no-show + active is the highest number issued that day |
| `DayMetrics.ServicesDoNotEndBeforeTheyStart` | src/modules/queue/infrastructure/PostgresTurnRepo.ts:299-307 | Every service in the day's figures has a non-negative duration |
| `DayMetrics.AverageIsNotNegative` | src/modules/queue/application/GetQueueMetricsUseCase.ts:85-93 | In every reachable state the average service time of a day is not negative |
| `Suspension.Platform.ReadActiveTurns` | src/modules/business/application/SuspendBusinessUseCase.ts:68-76 | While others write between all its reads: each turn listed once, in a state it had meanwhile, and every turn that was active at the start is listed or over |
| `Suspension.Platform.ReadEach` | src/modules/business/application/SuspendBusinessUseCase.ts:71-75 | The same for the turns of one queue: each listed turn is read in a later state or is gone |
| `Suspension.QuietListIsSnapshot` | src/modules/business/application/SuspendBusinessUseCase.ts:68-76 | If nobody writes meanwhile the list is exactly the active turns of the queues |
| `Suspension.Platform.CancelTurn` | src/modules/business/application/SuspendBusinessUseCase.ts:125-140 | Whatever others do between attempts it ends within three; it cancelled the stored turn, which was active if and only if it was when read, or the turn is over, or it throws, and then the row is gone or was written three times since it was read and is still active |
| `Suspension.Platform.CancelAll` | src/modules/business/application/SuspendBusinessUseCase.ts:96-101 | The transaction's rows are those of the turns it reports as cancelled, and every other listed turn is over |
| `Suspension.Platform.Suspend` | src/modules/business/application/SuspendBusinessUseCase.ts:44-115 | If it returns: every session of the owner and the active employees that was live is revoked now and every other is as it was; every turn that was active when it began is over, those that had ended and those of other queues are left alone, the announced turns are exactly the rows it cancelled, each cancellation a legal step if and only if the turn was active when read individually. If it throws, some turn could not be cancelled in three attempts, and business, sessions and turns are as others left them |
| `Suspension.RevokeEach` | src/modules/business/application/SuspendBusinessUseCase.ts:92-94 | User by user: exactly the live sessions of the listed users are revoked |
| `Suspension.CancelIsLegalIffActive` | src/modules/business/application/SuspendBusinessUseCase.ts:127-130 | The unchecked write of the first attempt is a legal cancellation if and only if the turn that was read is active |
| `Suspension.CompletedTurnIsCancelled` | src/modules/business/application/SuspendBusinessUseCase.ts:71-74 | A turn completed between the list and its own read is cancelled against the life cycle: the row is then both attended and cancelled |
| `SuspensionRaces.TurnRequestsAreOtherWriters` | src/modules/business/application/SuspendBusinessUseCase.ts:63-67 | Every interleaving of turn requests is covered by what the suspension allows other writers to do |
| `RefreshSessions.RevocationIsFinal` | src/modules/auth/infrastructure/PostgresRefreshSessionRepo.ts:24-83 | In every interleaving no refresh of a session commits after a logout, replay, age limit, block or other revocation of it, and each token is exchanged at most once |
| `RefreshSessions.BlockedUsersStayOut` | src/modules/auth/application/BlockUserUseCase.ts:63-76 | Between a block and the next unblock no session of the user is refreshed, not even one created by a racing login |
| `RefreshSessions.NinetyDayCap` | src/modules/auth/application/RefreshTokenUseCase.ts:57-92 | In every reachable state expiresAt is at most createdAt plus ninety days |
| `RefreshSessions.ReplayIsPunishedAfterGrace` | src/modules/auth/application/RefreshTokenUseCase.ts:107-120 | A previous token within ten seconds of its rotation changes nothing; later it revokes the session |
| `RefreshSessions.RefreshAnswers` | src/modules/auth/application/RefreshTokenUseCase.ts:42-98 | A refresh running alone succeeds if and only if the token is held by a live, unexpired session of an unblocked user, and gives that session alone a new token and the earlier of thirty more days and ninety from its login |
| `RefreshSessions.ReplayAfterRefresh` | src/modules/auth/application/RefreshTokenUseCase.ts:100-120 | The exchanged token presented again within ten seconds changes nothing; later it ends the session, and the new token no longer refreshes it |
| `RefreshSessions.AdvanceSafe` | src/modules/auth/application/RefreshTokenUseCase.ts:42-98 | One database access of any session request keeps hashes unique and lifetimes capped, and logs only what holds afterwards |
| `RefreshSessions.StepSafe` | src/modules/auth/infrastructure/PostgresRefreshSessionRepo.ts:24-83 | Each step of any interleaving keeps the invariant behind these results |
| `SessionAnswers.LogoutRevokes` | src/modules/auth/application/LogoutUseCase.ts:27-35 | A logout revokes the live session that holds the token and nothing else; the token is refused ever after |
| `SessionAnswers.LogoutIsIdempotent` | src/modules/auth/application/LogoutUseCase.ts:29-32 | With a token that no live session holds a logout changes nothing |
| `SessionAnswers.LogoutEndsTheSession` | src/modules/auth/application/LogoutUseCase.ts:28-34 | In every interleaving a logout that has found its session, and a replay or an age check that has, ends with that session cut off in the log, and no token of it is exchanged from then on |
| `SessionAnswers.FoundSessionIsCut` | src/modules/auth/application/RefreshTokenUseCase.ts:57-60 | From any state: until such a request ends it stands, and then its session is cut off and revoked |
| `SessionAnswers.LogTellsAll` | src/modules/auth/infrastructure/PostgresRefreshSessionRepo.ts:24-83 | Each step's log entry is exactly what the step did: every exchanged token, every revocation, every block and unblock is in it, and what it says has happened |
| `SessionAnswers.RevokedSessionsFreeze` | src/modules/auth/infrastructure/PostgresRefreshSessionRepo.ts:31-41 | In every interleaving a revoked session stays revoked and keeps its token and expiry |
| `SessionAnswers.RefreshRefusals` | src/modules/auth/application/RefreshTokenUseCase.ts:53-73 | Which refreshes are refused, with which error, changing nothing |
| `SessionAnswers.StaleAnswers` | src/modules/auth/application/RefreshTokenUseCase.ts:107-120 | What a token that no session holds does: nothing, a retry within ten seconds of its exchange, or the revocation of its session |
| `SessionAnswers.TooOldIsRevoked` | src/modules/auth/application/RefreshTokenUseCase.ts:57-61 | A live session past ninety days is revoked on sight; no reachable table has one that has not expired as well |
| `SessionAnswers.LoginAnswers` | src/modules/auth/application/LoginUseCase.ts:74-158 | A login opens one session for thirty days whose token can be refreshed at once, or changes nothing |
| `SessionAnswers.BlockAnswers` | src/modules/auth/application/BlockUserUseCase.ts:50-76 | A block flags the user and revokes every live session of the user; other users' sessions are untouched |
| `SessionAnswers.UnblockAnswers` | src/modules/auth/application/UnblockUserUseCase.ts:36-63 | An unblock clears the flag and brings no session back |
| `RefreshSessions.RotateMoves` | src/modules/auth/infrastructure/PostgresRefreshSessionRepo.ts:24-42 | A rotation of a live session that still holds the expected hash keeps hashes unique and lifetimes capped, and exchanges that hash for good |
| `RefreshSessions.RevokeByIdMoves` | src/modules/auth/infrastructure/PostgresRefreshSessionRepo.ts:64-71 | Revoking one session keeps the table sound and moves every session only forward in its life |
| `SessionDesk.Desk.RejectStaleToken` | src/modules/auth/application/RefreshTokenUseCase.ts:107-120 | Does what the stale-token phases do when nobody else runs |
| `SessionDesk.Desk.RefreshToken` | src/modules/auth/application/RefreshTokenUseCase.ts:42-98 | The same for a refresh |
| `SessionDesk.Desk.Logout` | src/modules/auth/application/LogoutUseCase.ts:22-36 | The same for a logout |
| `SessionDesk.Desk.Login` | src/modules/auth/application/LoginUseCase.ts:74-158 | The same for a login whose credentials were accepted |
| `SessionDesk.Desk.BlockUser` | src/modules/auth/application/BlockUserUseCase.ts:46-86 | The same for a block |
| `SessionDesk.Desk.UnblockUser` | src/modules/auth/application/UnblockUserUseCase.ts:36-63 | The same for an unblock |
| `Enforcement.InterruptedTrimConverges` | src/modules/queue/application/EnforceQueueLimitsForOrganizationUseCase.ts:62-88 | Trimming after any part of its own writes ends where one uninterrupted run ends |
| `Enforcement.TrimIsIdempotent` | src/modules/queue/application/EnforceQueueLimitsForOrganizationUseCase.ts:26-41 | A further run has nothing to deactivate |
| `Enforcement.OldestQueuesSurvive` | src/modules/queue/application/EnforceQueueLimitsForOrganizationUseCase.ts:63-74 | The active queues left to a business are its oldest ones, as many as the limit allows |
| `Enforcement.OldestWindowsSurvive` | src/modules/queue/application/EnforceQueueLimitsForOrganizationUseCase.ts:76-87 | The same for the windows of each queue that stays; windows of other queues are left alone |
| `KeepOldest.TrimKeepsOldest` | src/modules/queue/application/EnforceQueueLimitsForOrganizationUseCase.ts:62-88 | Every queue that stays was created before every one of its business that is switched off, and so for the windows of each queue that stays; as many stay as the limit allows; nothing else changes |
| `Enforcement.CrashAndRetryConverge` | src/modules/organization/application/CancelOrganizationSubscriptionAndEnforceLimitsUseCase.ts:49-81 | Wherever cancel-and-enforce stopped, running it again ends as one uninterrupted run, and once more changes nothing |
| `PlanSafety.EveryRequestKeepsInv` | src/modules/organization/application/resolveActivePlanOrEnforceLapsed.ts:22-44 | Under every plan grid each of the account requests, and the passing of time, keeps the plan invariant |
| `PlanSafety.EveryRequestKeepsAged` | src/modules/queue/application/CreateServiceWindowUseCase.ts:51-71 | From any sound tables, within a plan or not, each request keeps rows in place and rows that compete of different age |
| `PlanSafety.EveryRunStaysWithinPlan` | src/modules/queue/application/ToggleServiceWindowUseCase.ts:51-69 | So does every serial run |
| `PlanAnswers.AccountsStayWithinPlan` | src/modules/organization/domain/PlanLimits.ts:9-46 | For every plan grid, after any run that starts without businesses: each approved or suspended business has between one and its plan's active queues, each queue at most its plan's active windows, and prefixes differ within a business |
| `PlanSafety.PlanBounds` | src/modules/organization/domain/PlanLimits.ts:42-46 | The invariant says: each approved or suspended business has between one and its plan's active queues, each queue at most its plan's active windows, and prefixes differ within a business |
| `PlanSafety.CreateQueueKeepsInv` | src/modules/queue/application/CreateQueueUseCase.ts:41-108 | Creating a queue keeps the invariant |
| `PlanSafety.ToggleQueueKeepsInv` | src/modules/queue/application/ToggleQueueUseCase.ts:55-76 | Toggling a queue keeps it: neither the last active queue goes nor one too many comes back |
| `PlanSafety.CreateWindowKeepsInv` | src/modules/queue/application/CreateServiceWindowUseCase.ts:51-71 | Creating a window keeps it |
| `PlanSafety.ToggleWindowKeepsInv` | src/modules/queue/application/ToggleServiceWindowUseCase.ts:51-69 | Toggling a window keeps it |
| `PlanSafety.ApproveKeepsInv` | src/modules/business/application/ApproveBusinessUseCase.ts:55-154 | Approving a business keeps it, and gives a business without an active queue its first one |
| `PlanSafety.ChangePlanKeepsInv` | src/modules/organization/application/UpdateOrganizationSubscriptionUseCase.ts:61-85 | Changing the plan keeps it for the new plan: checking the busiest business and queue is enough |
| `PlanSafety.TrimKeepsInv` | src/modules/queue/application/EnforceQueueLimitsForOrganizationUseCase.ts:62-88 | Trimming keeps it, and never takes a business's last active queue |
| `PlanSafety.CountsAfterTrim` | src/modules/queue/application/EnforceQueueLimitsForOrganizationUseCase.ts:62-88 | What trimming does to every count: the smaller of the count and the limit for the organization, no change for others |
| `PlanSafety.CancelBringsDownToBasic` | src/modules/organization/application/CancelOrganizationSubscriptionAndEnforceLimitsUseCase.ts:71-74 | However many queues and windows were active, a completed cancel-and-enforce leaves every business and active queue within Basic's limits |
| `PlanSafety.EveryRequestIsNoMore` | src/modules/organization/application/resolveActivePlanOrEnforceLapsed.ts:31-41 | No request but an activation switches on or adds anything for a lapsed organization |
| `PlanSafety.CancelledStaysDownToBasic` | src/modules/organization/application/resolveActivePlanOrEnforceLapsed.ts:27-43 | From a completed cancel-and-enforce until the next activation every run keeps the organization within Basic's limits, however far past them it was before |
| `PlanAnswers.GateAnswers` | src/modules/organization/application/resolveActivePlanOrEnforceLapsed.ts:27-43 | For any sound tables: the gate opens if and only if the subscription has not lapsed, noticed or not, and then changes nothing; closing, it writes the expiry down and trims the organization to Basic, oldest first |
| `PlanAnswers.ObserveAnswers` | src/modules/organization/application/ResolveEffectiveSubscriptionStatusUseCase.ts:31-47 | Observing marks a trial that is over as expired, keeps plan and trial end, and changes nothing else |
| `PlanAnswers.CreateQueueAnswers` | src/modules/queue/application/CreateQueueUseCase.ts:45-105 | The answer for every account: not operating, lapsed, no room, prefix taken in either case, or created; the queue and window added, and the trimmed account when turned away |
| `PlanAnswers.ToggleQueueAnswers` | src/modules/queue/application/ToggleQueueUseCase.ts:55-76 | The answer for every account: a queue is switched off if and only if another one stays, and on if and only if the subscription has not lapsed and the plan has room; only its flag changes |
| `PlanAnswers.CreateWindowAnswers` | src/modules/queue/application/CreateServiceWindowUseCase.ts:51-71 | The answer for every account and the window added |
| `PlanAnswers.ToggleWindowAnswers` | src/modules/queue/application/ToggleServiceWindowUseCase.ts:51-69 | The answer for every account; only the window's flag changes |
| `PlanAnswers.ApproveAnswers` | src/modules/business/application/ApproveBusinessUseCase.ts:55-154 | When a business is approved, the whole account then (status, owner, thirty-day trial, first queue and window), and each refusal |
| `PlanAnswers.ApprovedBusinessOperates` | src/modules/business/application/ApproveBusinessUseCase.ts:103-154 | An approved business has an active queue, its first one with one window if it had none, and its owner's own approval is no longer pending |
| `PlanAnswers.StatusAnswers` | src/modules/business/application/ReactivateBusinessUseCase.ts:34-45 | Rejecting, suspending and reactivating move the status of one business from the one status that allows it |
| `PlanAnswers.RegisterAnswers` | src/modules/organization/application/EnsureBusinessCreationAllowedUseCase.ts:27-46 | A business is registered, pending, if and only if the subscription has not lapsed and the plan has room among the businesses that were not rejected |
| `PlanAnswers.ChangePlanAnswers` | src/modules/organization/application/UpdateOrganizationSubscriptionUseCase.ts:56-87 | The answer for every account: too many businesses, queues or windows for the new plan, or changed; then the plan changes and status, trial end and everything else stay |
| `PlanAnswers.ActivateAnswers` | src/modules/organization/application/ActivateOrganizationSubscriptionUseCase.ts:40-57 | Only an active subscription is refused; otherwise it becomes active, plan and trial end stay, the gate opens and nothing is switched on |
| `PlanAnswers.CancelAnswers` | src/modules/organization/application/CancelOrganizationSubscriptionAndEnforceLimitsUseCase.ts:49-81 | Only an expired subscription is past cancelling; otherwise it is cancelled, plan and trial end stay, and the organization is trimmed to Basic, oldest first |
| `PlanAnswers.ShippedGridGrantsNoSecondQueue` | src/modules/organization/domain/PlanLimits.ts:42-46 | Under the shipped grid, from an account within its plan, no request creates or toggles a queue and trimming finds no queue to switch off |
| `PlanAnswers.ShippedGridBounds` | src/modules/organization/domain/PlanLimits.ts:42-46 | After any run from no businesses under the shipped grid every operating business has exactly one active queue, and every queue at most 1, 10 or 20 active windows by plan |
| `PlanAnswers.RoomyGridGrantsSecondQueue` | src/modules/organization/domain/PlanLimits.ts:22-24 | Under a grid with room for it a second queue is created, the account stays within its plan, and the queue can be toggled |
| `PlanAnswers.SecondQueueIsReached` | src/modules/organization/domain/PlanLimits.ts:22-24 | A run from no businesses, under a grid of two queues, to an account in which a second queue is granted |
| `AccountDesk.Desk.SwitchQueuesOff` | src/modules/queue/application/EnforceQueueLimitsForOrganizationUseCase.ts:71-74 | Switches off the listed queues in order, or a prefix of them if the process stops |
| `AccountDesk.Desk.SwitchWindowsOff` | src/modules/queue/application/EnforceQueueLimitsForOrganizationUseCase.ts:83-86 | The same for windows |
| `AccountDesk.Desk.TrimWindowsOf` | src/modules/queue/application/EnforceQueueLimitsForOrganizationUseCase.ts:77-86 | Sort, cut and switch off: exactly the windows beyond the oldest ones, or part of them if stopped |
| `AccountDesk.Desk.TrimWindowsOfEach` | src/modules/queue/application/EnforceQueueLimitsForOrganizationUseCase.ts:76-87 | The same over the queues that stay |
| `AccountDesk.Desk.TrimBusiness` | src/modules/queue/application/EnforceQueueLimitsForOrganizationUseCase.ts:63-87 | The same for one business: its excess queues, then the excess windows of the queues kept |
| `AccountDesk.Desk.EnforceLimits` | src/modules/queue/application/EnforceQueueLimitsForOrganizationUseCase.ts:51-91 | Run to its end it leaves the oldest queues and windows, as many as the limit allows, switches off nothing else and lists exactly what it deactivated; stopped after any number of writes it has done part of that trim |
| `AccountDesk.Desk.ResolveEffectiveStatus` | src/modules/organization/application/ResolveEffectiveSubscriptionStatusUseCase.ts:31-47 | Persists an expired trial and returns the subscription as of now |
| `AccountDesk.Desk.ResolveActivePlan` | src/modules/organization/application/resolveActivePlanOrEnforceLapsed.ts:22-44 | The plan in force, or none with the organization trimmed to Basic |
| `AccountDesk.Desk.EnsureQueueCreationAllowed` | src/modules/organization/application/EnsureQueueCreationAllowedUseCase.ts:28-43 | The gate's effect and which of the three answers it gives |
| `AccountDesk.Desk.EnsureWindowCreationAllowed` | src/modules/organization/application/EnsureServiceWindowCreationAllowedUseCase.ts:28-42 | The same for windows |
| `AccountDesk.Desk.CreateQueue` | src/modules/queue/application/CreateQueueUseCase.ts:41-108 | The whole new account and the answer are those of the request function the plan theorems are about |
| `AccountDesk.Desk.ToggleQueue` | src/modules/queue/application/ToggleQueueUseCase.ts:39-77 | The same |
| `AccountDesk.Desk.CreateWindow` | src/modules/queue/application/CreateServiceWindowUseCase.ts:35-72 | The same |
| `AccountDesk.Desk.ToggleWindow` | src/modules/queue/application/ToggleServiceWindowUseCase.ts:32-70 | The same |
| `AccountDesk.Desk.ApproveBusiness` | src/modules/business/application/ApproveBusinessUseCase.ts:48-154 | The same |
| `AccountDesk.Desk.ChangePlan` | src/modules/organization/application/ChangeOrganizationSubscriptionPlanUseCase.ts:39-71 | The same, with the two maxima computed in loops |
| `AccountDesk.Desk.CancelSubscription` | src/modules/organization/application/CancelOrganizationSubscriptionUseCase.ts:31-53 | Cancels unless there is no subscription or it is terminal; plan and trial end stay |
| `AccountDesk.Desk.CancelAndEnforce` | src/modules/organization/application/CancelOrganizationSubscriptionAndEnforceLimitsUseCase.ts:49-81 | Run to its end it is the request function; stopped after any number of writes it is where `CrashAndRetryConverge` can resume |
| `RateLimiter.Limiter.ConsumeCheck` | src/middleware/rateLimiter.ts:122-144 | Redis's count if it answers and the memory's otherwise; the warning and the recovery notice are each given exactly on the change |
| `RateLimiter.Limiter.Limit` | src/middleware/rateLimiter.ts:146-189 | For any answers and failures of Redis: admits if and only if every check in turn is within its limit; checks after the first failure are not consumed |
| `RateLimiter.DegradedIsMemory` | src/middleware/rateLimiter.ts:130-143 | While Redis is down a request does exactly what the memory's theorems say |
| `RateLimiter.AnsweredByRedis` | src/middleware/rateLimiter.ts:122-129 | While Redis answers, memory is not touched and a request is admitted if and only if no answered count is over its limit |
| `RateLimiter.OneRequest` | src/middleware/rateLimiter.ts:175-186 | What one request can do to one key: nothing, and then it is not admitted on that key's account, or one count, and then it is admitted only within the limit |
| `RateLimiter.PlainRequest` | src/middleware/rateLimiter.ts:96-112 | What a request without a scope makes of its requester's counter, and that it is admitted if and only if the count is within the limit |
| `RateLimiter.ScopedRequest` | src/middleware/rateLimiter.ts:166-186 | The same with a scope: both counters, the second only if the first admits |
| `RateLimiter.PlainKeysIdentify` | src/middleware/rateLimiter.ts:158-164 | Counters of different requesters or buckets are different |
| `RateLimiter.ScopedKeysIdentify` | src/middleware/rateLimiter.ts:166-173 | So are scoped counters while scopes have no colon |
| `RateLimiter.ColonInScopeCollides` | src/middleware/rateLimiter.ts:169 | Two requesters that share a scoped counter because of a colon in the scope |
| `RateLimiter.PolicyChecksAreUses` | src/middleware/rateLimiter.ts:158-173 | The plain and the scoped key of a request never coincide |
| `RateLimiter.TraceKeepsInv` | src/middleware/rateLimiter.ts:96-112 | What the entry of a key says about the requests admitted so far, over every trace |
| `RateLimiter.AtMostTwiceTheLimit` | src/middleware/rateLimiter.ts:96-112 | For one key and any time-ordered trace, every half-open interval of one window length admits at most twice the limit less one |
| `RateLimiter.AtMostTheLimitPerWindow` | src/middleware/rateLimiter.ts:96-112 | Within one counter window at most the limit is admitted |
| `RateLimiter.AdmitsWhatIsLeft` | src/middleware/rateLimiter.ts:109-111 | Of the requests in an open window exactly as many are admitted as the limit has left |
| `RateLimiter.TheBoundIsReached` | src/middleware/rateLimiter.ts:96-112 | For every limit and window a trace that reaches the bound |
| `BusinessDirectory.WhereMeansReconciled` | src/modules/business/infrastructure/PostgresBusinessRepo.ts:91-107 | Under SQL's three-valued logic the condition on the stored row is true if and only if the filters hold of the reconciled row |
| `BusinessDirectory.CommercialStateFilterIsExact` | src/modules/business/application/ListAllBusinessesUseCase.ts:91-102 | A commercial state finds exactly the subscriptions that show it, expiry persisted or not, and no organization without one |
| `BusinessDirectory.CombinedFiltersAreConjunctionIffConsistent` | src/modules/business/application/ListAllBusinessesUseCase.ts:66-89 | Combined parameters mean that every condition applies if and only if they do not contradict the commercial state |
| `BusinessDirectory.ContradictionStillMatches` | src/modules/business/application/ListAllBusinessesUseCase.ts:73-75 | A contradictory combination that matches |
| `BusinessDirectory.PagesListEachMatchOnce` | src/modules/business/application/ListAllBusinessesUseCase.ts:141-146 | Without ties across page boundaries the pages together are the matches, each once, however ties are broken from query to query |
| `BusinessDirectory.PagesAreExactIffNoTieStraddles` | src/modules/business/infrastructure/PostgresBusinessRepo.ts:157-167 | The pages are exact for every way of breaking ties if and only if no tie straddles a boundary |
| `BusinessDirectory.DistinctKeysHaveNoTies` | src/modules/business/infrastructure/PostgresBusinessRepo.ts:160-162 | With distinct sort keys there are none |
| `BusinessDirectory.ListingShowsState` | src/modules/business/application/ListAllBusinessesUseCase.ts:155-180 | Every item listed for a commercial state shows that state |
| `BusinessDirectory.Directory.FindMany` | src/modules/business/infrastructure/PostgresBusinessRepo.ts:157-167 | Returns one page of some valid order of the matches |
| `BusinessDirectory.Directory.ToListItems` | src/modules/business/application/ListAllBusinessesUseCase.ts:148-180 | Each item shows its subscription as of now although each organization is resolved once; the expired trials of the listed organizations are written down, and nothing else |
| `BusinessDirectory.Directory.ListAllBusinesses` | src/modules/business/application/ListAllBusinessesUseCase.ts:119-153 | One page of the matches and their total, against the subscriptions as they were stored before; exactly the expiries noticed on that page are written down |
| `BusinessDirectory.ListedPageIsPage` | src/modules/business/application/ListAllBusinessesUseCase.ts:141-146 | What one request lists is one of the pages that the page theorems cut |
| `BusinessDirectory.OrderRuns` | src/modules/business/infrastructure/PostgresBusinessRepo.ts:160-162 | Names or dates rise or fall as asked |
| `BusinessDirectory.MatchMeans` | src/modules/business/infrastructure/PostgresBusinessRepo.ts:109-119 | A business is listed if and only if organization, category and status are those asked for and the organization's subscription, as of now, has the plan and status asked for |
| `BusinessDirectory.ItemShows` | src/modules/business/application/ListAllBusinessesUseCase.ts:155-180 | Plan, status and commercial state shown are those as of now, or none without a subscription |
| `OpeningHours.EnsureValidOpeningRanges` | src/modules/business/application/ConfigureBusinessHoursUseCase.ts:140-176 | Accepts if and only if all ranges are non-empty and those of a day pairwise disjoint, with the right error otherwise |
| `OpeningHours.VerdictMeans` | src/modules/business/application/ConfigureBusinessHoursUseCase.ts:140-176 | Accepted if and only if every range is open for at least a minute and no minute of a day is in two ranges; ranges may touch |
| `OpeningHours.MinutesRead` | src/modules/business/application/ConfigureBusinessHoursUseCase.ts:48-51 | Sixty minutes to the hour |
| `OpeningHours.GroupByDay` | src/modules/business/application/ConfigureBusinessHoursUseCase.ts:143-161 | Groups every day's ranges in order, or reports an empty range |
| `OpeningHours.DayOverlaps` | src/modules/business/application/ConfigureBusinessHoursUseCase.ts:163-175 | The neighbour check on the sorted ranges finds an overlap if and only if there is one |
| `OpeningHours.NeighbourCheckIsExact` | src/modules/business/application/ConfigureBusinessHoursUseCase.ts:164-174 | Sorted by opening time, neighbours are disjoint if and only if all pairs are |
| `OpeningHours.OrderDoesNotMatter` | src/modules/business/application/ConfigureBusinessHoursUseCase.ts:140-176 | The verdict is the same for every order of the input |
| `OpeningHours.AcceptedGridOpensOnce` | src/modules/business/domain/BusinessAvailabilityService.ts:80-99 | At any day and minute at most one accepted range is open, and one is exactly when the business is open |
| `OpeningHours.MinutesIdentifyTheTime` | src/modules/business/application/ConfigureBusinessHoursUseCase.ts:48-51 | Different times of day become different minutes |
| `Cuit.IsValidCuit` | src/shared/utils/cuit.ts:9-20 | The reduction over the digits, and the three ways to fail |
| `Cuit.ValidIffMultipleOfEleven` | src/shared/utils/cuit.ts:13-19 | Eleven digits are valid if and only if their weighted sum, the last with weight one, is a multiple of eleven |
| `Cuit.RuleSpelledOut` | src/shared/utils/cuit.ts:11-19 | The rule with its eleven weights written out |
| `Cuit.DigitsAreRead` | src/shared/utils/cuit.ts:10-11 | A text of digits is read digit by digit |
| `Cuit.SingleDigitChangeIsRejected` | src/shared/utils/cuit.ts:13-19 | Every change of one digit of a valid number is rejected |
| `Cuit.CheckDigitIsUnique` | src/shared/utils/cuit.ts:15-19 | A ten-digit prefix has at most one check digit |
| `Cuit.SwapIsRejectedIff` | src/shared/utils/cuit.ts:3-8 | A swap of two digits is rejected if and only if the digits and their weights differ |
| `Cuit.AdjacentSwapIsRejected` | src/shared/utils/cuit.ts:3-8 | Hence every swap of unequal neighbours |
| `Cuit.SomeSwapsPass` | src/shared/utils/cuit.ts:5-6 | A valid number and a swap in it that passes |
| `Cuit.SeparatorsDoNotMatter` | src/shared/utils/cuit.ts:10 | Dashes and other signs anywhere in the number do not matter |

## Left out

- TurnSafety.NoLostUpdates: takes the version of each committed write as fresh; two writes of one row within the clock's resolution would carry the same `updatedAt`. A suspension's first attempt on a turn that ended before its own read is outside it: that write replaces a terminal status, as `Suspension.CompletedTurnIsCancelled` shows.
- TurnDesk.Desk.TakeTurnFor: the local date, weekday and minute that `Intl` derives from an instant are arguments; the cap on waiting guests belongs to `CreateGuestTurnUseCase`, which is not part of this model.
- TurnDesk.Desk.CallNextTurn: one clock value per request; between requests the clock moves freely, and between the phases of interleaved requests too.
- TurnSerial.AloneKeepsExclusive: at most one called turn is a rule of serial runs only, as shown above.
- ServiceOrder.AheadIsIndexInLine: supposes distinct sort keys; `SameDayTurnsNeverTie` says when they are.
- WaitEstimate.EstimateIsLeastMakespan: takes the average service time as given; computing it from past turns is not part of this model.
- DayMetrics.ComputeMetrics: sums and quotients are exact, not floating point; the local hour of an instant is an argument.
- Numbering.LockedNumbersAreOneToN: a creation that fails does so at its insert; turns are never deleted.
- Suspension.Platform.Suspend: the list of a queue's active turns is read in one query; a turn taken after its queue was listed is not covered.
- RefreshSessions.RevocationIsFinal: user rows change only by block and unblock; other use cases save whole user rows without a version check. Deleting expired sessions, login attempt counters and JWT signing are left out, token hashes are fresh, and the block transaction is one step.
- PlanSafety.PlanBounds: does not claim the number of businesses; approving a rejected business raises it without a check.
- PlanSafety.EveryRunStaysWithinPlan: one request at a time; creation times of rows that compete are distinct; windows are not deleted or edited.
- AccountDesk.Desk.ApproveBusiness: a trial lasts thirty times twenty-four hours rather than thirty calendar days; the organization's status and the coherence alerts are arguments.
- AccountDesk.Desk.CreateQueue: its two inserts are one step.
- BusinessDirectory.Directory.ListAllBusinesses: the page and the total are read at one instant; names are compared by their rank in the database's collation.
- OpeningHours.EnsureValidOpeningRanges: the check of non-working days and the saving of the grid are left out; local day and minute are arguments of the opening check.
- RateLimiter.Limiter.Limit: Redis's own counting is not modelled, its answers are arbitrary; the bounds on admitted requests are about the memory of one process.
- Ownership, membership and role checks in front of the use cases: each compares the requester with the owner, the members or the roles stored for the business and refuses the request before anything is written. Nothing here turns on them: the theorems hold for whatever requests they let through.
- Request parsing, e-mails, sockets, QR codes, slugs, categories, invitations, reports: input and output around the modelled state.
- Express routing, cookies, Prisma, Postgres internals beyond atomic row writes, the row lock, transactions and the two partial unique indexes.
