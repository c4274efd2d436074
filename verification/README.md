# A verified model of the post office simulation

Users, operators, a ticket dispenser and a director run as separate processes over
two shared-memory records and one message queue. This project models the whole as
one transition system and proves what every interleaving of the processes keeps. It
also models, in place, each routine that writes the two records, each loop over the
seats, the director's minute loop and the dispenser's loop, and ties them to the
transition system.

`dafny verify dfyconfig.toml` checks everything.

## How it is built

**Records under a lock** (`SharedRecord`). A locked section is the list of
single-field writes that a process still owes before its `sem_post`. Other processes
may run between any two writes. `mem` is the memory as it is, `view` is what it will
be once the section in progress is complete. Entering the section changes `view` once;
the writes and the release do not change it. So each multi-field update is atomic for
whoever respects the lock, while reads made without the lock see `mem`.

**The system** (`Protocol`). Each process has a program counter and its local
variables. Every unlocked read of shared memory, every single-field write, every
semaphore operation and every message operation is a step of its own. A random draw is
a free choice. Semaphore tokens are anonymous, a process may lag behind a day boundary,
users may be added while the system runs, and every send of a message may fail. A search
by an operator who waits reads two fields of each seat without the lock, as the program
does.

**History variables.** No step depends on them: `view`; a user's `item` (where its
exchange stands) and `trace` (when it searched, and which clock ticks it read); an
operator's `foundDay` and `matched`; the tick count in the clock; and the record
`History` (archived days, tokens consumed, crowds, resets, abandoned seats, and the log of
the doors).

**Invariants** (`Locks`, `Sessions`, `Stations`, `Agreement`, `Places`, `Director`,
`Outcome`, `Tokens`, `Doors`, `Tallies`, `Tickets`, `Unwritten`, `Statistics`), each kept
by every step, are put together in `Runs`. `Theorems` draws the results for every
reachable state, that is, every state of every finite run. `Delivery` (the service
received) and `Batching` (the director's tokens) state results about whole runs.
`Progress` shows that the locks never block everybody, and for each user and operator
that nothing holds it up but what its program waits for.

**Counting the steps of a run** (`Chronicle`). A law of conservation equates a measure of
the state with the number of steps of some kind that the run has taken. `Visits` does so
for late users, failures and services recorded, `Shifts` for operators at work, their
pauses and their signals, `Logbook` for requests, tokens, ticket numbers and days, `Rooms`
for the users and operators in each stretch of their programs. `Errands` follows one user
through its day, `Searches` one operator through its unlocked searches, and `Boundaries`
the director from one day boundary to the next. `Vacancies` shows that no seat stays
occupied for nobody.

**Updates in place** (`StatsRecord`, `SeatTable`). The classes hold the fields of the C
structures. Each method is proved to perform exactly the writes that the transition
system attributes to the section (`Run(ApplyStat, …)`, `Run(ApplySeat, …)`), or to
compute the function by which the system describes a loop.

**Loops as programs** (`Rounds`, `TicketDesk`, `ReportName`). The director's minute loop
runs on two parameters for what other processes decide; `Batching` proves that in every
run of the transition system the director has posted at each tick what this loop posts,
for the users of that run, and `Boundaries` that it leaves the loop when and as the loop
returns, for the late users it read in that run. The dispenser's loop sends the messages of the transition
system; `TicketDesk.RoundOfThree` says what its three steps do together there. The
search for a report name stands alone.

**Exclusivity** (`Exclusivity`, `Race`, `Solo`, `Witness`, `Overtaken`, `Crowding`). The
requirements text in the repository says that a seat is occupied by one operator. The
program does not ensure that, in two ways: an operator who waited takes the seat it found
without looking again, and a day reset frees seats at which operators still are, so that
another finds such a seat under the lock. Users share a seat only in the second way.
`Exclusivity` states exactly which steps lose the property, and that a whole run keeps it
iff none of its steps is one of them. `Race` and `Overtaken` show that every reachable
state of the kind described can be continued to two on one seat; `Witness`, `Overtaken`
and `Crowding` give runs from the start of the programs (`Solo` is the director's part
of them). What does hold in every run is the register invariant `Theorems.RegisterHolds`.

## Where the code differs from its documentation

Lines are those of the README.md at the root of the repository.

- Line 418 asks for a single operator at each seat; see `Witness.TwoOperatorsOneSeat` and
  `Overtaken.OvertakenAtWork`.
- Line 192 gives service times within ±50% of the nominal time; this holds exactly
  (`Settings.ServiceMinutesExactRange`), because every nominal time is even.
- Line 348 says that report files carry a time stamp; they carry a counter.
- The per-service and global late-user fields of the daily statistics are never written.
  Late users of a day exist only as the one daily counter, and the ledger says so.
- "explode" may also be written after a run that was not cut short, because the report
  reads the daily counter again after the loop: `Overtaken.TimeoutReportedAsExplosion` is
  such a run.

## What the program leaves unchecked and the model assumes

- Process ids: no user's id is 1 or 30000, and none is 30000 plus an operator's id. The id
  30000 matters because a user may read process 0 from a seat whose operator has gone.
- At most 30 seats and at most 50 requests a day (the sizes of the C arrays).
- Shared memory starts out zeroed.
- Blocking receives do not fail.

## Model

| member | source | states |
|---|---|---|
| Theorems.LockDiscipline | src/operatore.c:31-69 | In every run each of the two locks is 1 minus the number of its holders, which is 0 or 1, and no process holds both. |
| SharedRecord.SemaphoreCountsHolders | src/utente.c:133-140 | A consistent record has a semaphore value of 1 minus its holders and never two holders. |
| SharedRecord.EnterIsAtomic | src/utente.c:142-157 | The moment of entering a section is the one moment at which all its writes take effect in the view. |
| SharedRecord.WriteNextKeepsView | src/utente.c:142-157 | A single-field write inside a section leaves the view as it was and the record consistent. |
| SharedRecord.LeaveKeepsView | src/utente.c:142-157 | After the release the memory is exactly the view. |
| Moves.StepsAreAtomic | src/utente.c:133-231 | Every fine-grained step of any process is, seen through the views, a whole update of one record or none: the fine system refines one with atomic updates. |
| Progress.SomebodyCanStep | src/direttore.c:391-427 | Until the report is written some process can take a step: the two locks cannot block everybody. |
| Progress.UserStepsUnlessWaiting | src/utente.c:159-169 | In every reachable state, a user outside the locks can take a step iff it is not waiting for a token, its hour, a reply or a lock. |
| Progress.OperatorStepsUnlessWaiting | src/operatore.c:199-259 | The same for an operator, which never waits for a request, and waits for a station only until a signal or closing. |
| Runs.InvPreserved | src/utente.c:234-339 | Every step of every process keeps the whole invariant of the system: locks, sessions, seats, agreement, clock, tokens, ledger and balances. What a user does in the course of its day is the subject of `Errands`, `Visits` and `Rooms`. |
| Runs.InvAlways | src/direttore.c:342-427 | The invariant holds at every point of every run, for any number of users, operators and seats. |
| Sessions.SessionsPreserved | include/comunications.h:12-42 | The queue, the dispenser and the operators together hold exactly the one item each user's exchange is at; every step keeps this. |
| Sessions.ReceivedByUser | src/utente.c:82-99 | A message of the user's type is the reply it waits for, of the right kind and from the party it asked. |
| Sessions.ReceivedByServer | src/operatore.c:72-98 | A message of an operator's or the dispenser's type is a request by the user who is waiting for it. |
| Theorems.OneItemPerUser | src/utente.c:234-291 | A user has at most one message on the queue, once; the kinds of message and the states of waiting go together; whoever serves it holds the number of its ticket. |
| Theorems.NoTwoPlaces | src/operatore.c:277-306 | A user with a message on the queue is neither at the dispenser nor at an operator, and no two operators serve one user. |
| Theorems.RepliesMatch | src/utente.c:234-291 | Though both kinds of reply use the user's id as type, a user receives the kind it waits for, and a done message carries the ticket it sent. |
| Theorems.QueueBounded | src/erogatore_ticket.c:34-54 | The queue never holds more messages than there are users. |
| Delivery.WantedIsDelivered | src/utente.c:240-295 | In every run: if no step of a reset lies between the user's last search and its reading of the operator, nor between that operator's last search without the lock and its taking the seat, the done message the user receives carries the service it wanted when it searched, on whatever day it comes. |
| Delivery.InTimeIsMatched | src/operatore.c:199-259 | An operator that took the seat it holds in the section in which it found it, or with no reset since it found it, is recorded as matched with its seat. |
| Theorems.ServiceAgreed | src/utente.c:278-295 | The same for one state, in terms of its history: the seat table's day was the same at the search and at the reading, and the operator named was matched. |
| Agreement.AgreementPreserved | src/operatore.c:199-259 | Every step keeps the seats found, the operator read, the request, the service and the answer in agreement with the service wanted. |
| Theorems.SeatDaysAreResets | src/direttore.c:167-176 | Between two points of a run the seat-table day grows by the number of resets begun between them. |
| Theorems.RegisterHolds | src/operatore.c:31-50 | Whenever stations_lock is free a seat is OCCUPIED iff it names a process; that process is on shift at this seat; no process is named twice; occupied seats are no more than operators on shift. |
| Stations.StationsPreserved | src/operatore.c:232-329 | Every step keeps the register, through the unchecked waiting path and through resets under operators at work. |
| Exclusivity.FaithfulnessExactly | src/operatore.c:235-259 | From a state in which each operator at a seat is the one named there, a step keeps this iff it neither takes an OCCUPIED seat found earlier nor resets the seats while somebody is at one. |
| Exclusivity.FaithfulRuns | src/operatore.c:235-259 | In a whole run each operator at a seat is the one named there, in every state, iff no step of the run is one of those two. |
| Exclusivity.OneEachThroughout | src/operatore.c:235-259 | In such a run no two operators hold one seat. |
| Exclusivity.SharingExactly | src/direttore.c:167-176 | From a state in which users do not share seats and seats in use or left behind are marked, a step keeps this iff it is not a reset while some user sits. |
| Exclusivity.UnsharedRuns | src/utente.c:212-310 | A whole run keeps that in every state iff no reset in it comes while some user sits. |
| Exclusivity.TakingFoundSeat | src/operatore.c:247-258 | Taking the seat found while waiting leaves each operator a seat of its own iff the seat is still FREE at that moment. |
| Race.ExclusivityFails | src/operatore.c:199-259 | From every reachable state in which two operators of one service wait, two signals are posted and a seat is free for them once the section in progress is over, the run can go on so that both hold that seat. |
| Race.Scans | src/operatore.c:174-181 | The search without the lock, field by field, settles on the lowest seat that is free for the service. |
| Solo.DoorsOpen | src/direttore.c:391-427 | With both hours 1 and more than one day to go, the director alone, in its first 61 ticks, posts a day token and an opening token for everybody and a closing token for each operator. |
| Witness.TwoOperatorsOneSeat | src/operatore.c:222-259 | A concrete run of one seat and four operators, from the start, ends with two operators on seat 0 through the waiting path. |
| Overtaken.ResetLosesExclusivity | src/direttore.c:167-176 | From every reachable state, locks free, with the seats about to be reset, one operator still at its seat and another about to search, the run can go on so that both hold that seat, the second having found it under the lock. |
| Overtaken.OvertakenAtWork | src/operatore.c:235-245 | A concrete run, from the start, ends with two operators on seat 0 in that way. |
| Overtaken.ResetSharesSeat | src/utente.c:250-275 | From every reachable state, locks free, with the seats about to be reset, one user sitting and another about to try that seat first, the run can go on so that both sit there. |
| Crowding.TwoUsersOneSeat | src/utente.c:234-310 | A concrete run, from the start, ends with two users on seat 0. |
| Theorems.NoSharedSeat | src/utente.c:212-231 | On a day that began with nobody sitting no two users hold one seat, whatever the interleaving. |
| Theorems.SittersSeatsAreTaken | src/utente.c:212-231 | On such a day the seat of whoever sits is OCCUPIED whenever stations_lock is free; so a FREE seat has no holder. |
| Theorems.AbandonedSeatsStayTaken | src/utente.c:282-304 | On a day that began with nobody sitting, a seat whose user walked away, late or after a failed send, stays OCCUPIED with nobody on it until the next reset. |
| Places.PlacesPreserved | src/utente.c:250-310 | Every step of every process keeps that exclusivity. |
| Theorems.RequestConservation | src/operatore.c:292-306 | For each service: counted requests are those served, those at an operator after counting, done messages on the queue, those in a user's hand unrecorded, and those whose done message could not be sent; hence served is at most requested. |
| Tallies.RequestsPreserved | src/utente.c:287-295 | Every step keeps the balance of each service, though the user records under the operator's service and not its own. |
| Theorems.TicketConservation | src/erogatore_ticket.c:31-53 | Numbers issued are those on the queue, those held unresolved, those whose reply could not be sent, and those served or failed, less the closing-time failures of users without a ticket. |
| Theorems.TicketsUnique | src/erogatore_ticket.c:45-53 | No ticket number is live with two users, and none is beyond those issued. |
| Tickets.TicketsPreserved | src/utente.c:234-311 | Every step keeps the balance and the distinctness of tickets. |
| Theorems.LedgerInMemory | src/utente.c:133-189 | Whenever stats_lock is free: global fields are the sums over the six services, today and in total, late users included for the totals; each total is the archived days plus today. |
| Statistics.LedgerPreserved | src/direttore.c:159-162 | Every update of the record, and the locked reset that archives a day, keeps the ledger. |
| Statistics.RunSuccess | src/utente.c:142-157 | The twelve writes of a success, one after the other, add one served user, the wait and the service time to the four tallies concerned, and change nothing else. |
| Statistics.RunFail | src/utente.c:133-140 | The four writes of a failure add one failure to the four tallies concerned, and change nothing else. |
| Statistics.RunRequest | src/operatore.c:53-60 | The four writes of a request add one request to the four tallies concerned, and change nothing else. |
| Statistics.RunLate | src/utente.c:172-186 | The writes for a late user add one to the day and the totals unless the user has been late today, when nothing is written. |
| Theorems.AverageTimeBounded | src/direttore.c:136-142 | In every state, also in the middle of a section and in the report after everybody was killed: the average service time that the director computes from memory is at most one and a half times nominal. |
| Theorems.ServiceTimeBounded | src/utente.c:142-157 | Whenever stats_lock is free, the total service time in memory of a service is between half and one and a half times nominal time per user served. |
| Unwritten.MemoryLags | src/operatore.c:53-60 | Of a service, memory holds no more time than the section in progress will leave, and every request but at most one, which an operator now serving is about to count. |
| Theorems.FiguresInMemory | src/direttore.c:114-147 | Whenever stats_lock is free, the figures in memory obey the laws of requests, waits, pauses and late users stated in this table. |
| Theorems.WaitsBounded | src/utente.c:142-157 | The total wait is at most 1439 minutes per user served in absolute value, per service and overall. |
| Theorems.WaitIsElapsedTime | src/utente.c:280-295 | The wait recorded is the number of clock ticks between the two readings less a day for each boundary between them, hence exact and not negative within a day. |
| Timing.ShownWait | src/utente.c:280-294 | The same for any two ticks: the difference of two displayed minutes. |
| Theorems.OwnPausesBounded | src/operatore.c:313-317 | No operator takes more pauses than configured, over all days. |
| Theorems.PausesBounded | src/operatore.c:313-320 | Recorded pauses and those about to be recorded are the sum of the operators' counters; so the total is at most operators times pauses. |
| Theorems.LateUsersBounded | src/utente.c:171-189 | A bound on the late users: at most the day tokens consumed by users, and those at most the crowds of the days started. `Visits.LateUsersCounted` says exactly how many they are. |
| Visits.LateUsersCounted | src/utente.c:171-189 | In every run, per service and overall: the late users counted, and those on their way to be, are the times that a user not yet late that day found it was closing time, before a service, while waiting for a seat, or after a service. |
| Visits.FailuresCounted | src/utente.c:240-291 | In every run, per service and overall: the failures recorded, and those about to be, are the times that a service failed, for closing time before it or in waiting, for want of a staffed seat, or because the request could not be sent. |
| Visits.TurnedAwayCounted | src/utente.c:327-336 | The failures recorded without a ticket, and those about to be, are the times that a user was turned away at the beginning of a service. |
| Visits.RecordsAddUp | src/utente.c:142-157 | In every run, per service and overall: users served, total wait and total service time are those of the replies that users have recorded, no more and no less. |
| Visits.ClosingTimeDecides | src/utente.c:260-299 | In every run a user begins a service, tries again for a seat or frees its seat only at a tick whose minute is before closing, and is late only at one whose minute is not. |
| Errands.ListFollowed | src/utente.c:313-339 | In every run, from a user's going out on: the services it has begun are, in order and once each, a beginning of the list it went out with. |
| Errands.WholeListBegun | src/utente.c:326-339 | A user that goes home at the end of its loop has begun exactly the services of its list, in order. |
| Errands.PrefixBegun | src/utente.c:326-336 | One that is turned away at closing time has begun a proper beginning of its list, and is turned away from the next one. |
| Errands.WalksInOnTime | src/utente.c:159-169 | A user walks in at a minute no earlier than the one drawn for its list, which is after opening. |
| Errands.MarkedWhenCounted | src/utente.c:171-189 | A user's mark of having been late today is set iff it has been through handle_late_users since it went out. |
| Errands.FailsWhenNoneStaffed | src/utente.c:240-248 | In every run a visit fails after its search iff at the search no seat was staffed for the service wanted; otherwise the user goes on to try for a seat. |
| Errands.RecordsWhatItReceived | src/utente.c:287-295 | The service, number and time that a user records are those of the last done message it received. |
| Rooms.UserFlows | src/utente.c:234-339 | In every run, for each stretch of the user's day (deciding, outside, inside before its hour, inside, in a service, at a seat, owing a signal): the users there are those that have entered it less those that have left it. |
| Rooms.OperatorFlows | src/operatore.c:222-332 | The same for the stretches of an operator's day: at the door, looking, waiting for a station, with a request, serving, between customers, owing a signal, about to record a pause. |
| Shifts.ShiftsCounted | src/operatore.c:384-389 | In every run: active operators recorded, and those that have left a seat and are about to be, are the times that an operator left a seat, early or at closing; pauses recorded and about to be are the times that one went home early. |
| Shifts.SeatsTakenAndLeft | src/operatore.c:232-329 | Operators at a seat are the times a seat was taken less the times one was left; those about to leave are the times one stopped for closing or a pause less the times one left. |
| Shifts.SignalsConserved | src/operatore.c:199-219 | The signals pending on stations_event and on stations_freed_event are those posted less those consumed. |
| Shifts.EarlyExitsAllowed | src/operatore.c:313-317 | In every run, after a service an operator may go on working, and may go home early iff it has done so fewer times than configured, over all its days. |
| Shifts.TimesReported | src/operatore.c:299-306 | The times that some draw lets an operator report in its done message are exactly those of a whole number of nanoseconds from half to one and a half times nominal. |
| Searches.GoesHomeUnlessOffered | src/operatore.c:183-191 | In every run an operator that enters goes home at once only if each seat offered another service when the operator read it, and searches only if some seat offers its own. |
| Searches.WaitsOnUnlessFound | src/operatore.c:199-219 | An operator woken by a signal waits again only if each seat was taken or offered another service when it read it; the seat it settles on offers its service, and it has passed by all the lower ones. |
| Logbook.RequestsCounted | src/operatore.c:53-60 | In every run, per service and overall: the requests recorded are those that operators have counted. |
| Logbook.CountersCount | src/erogatore_ticket.c:31-53 | Day tokens consumed by users and by operators, tokens consumed at opening and at closing, ticket numbers issued, days archived and seat resets are the numbers of those steps in the run. |
| Logbook.UsersAre | src/direttore.c:391-427 | The users are those of the beginning and all that were added since; the operators stay the same. |
| Vacancies.OccupiedForSomebody | src/utente.c:304-310 | In every reachable state with stations_lock free, resets or not: a seat OCCUPIED for users has a user sitting there, or one that left it behind since the last reset. |
| Vacancies.OccupiedExactly | src/utente.c:212-231 | On a day that began with nobody sitting, the seats OCCUPIED for users are exactly those in use and those left behind. |
| Tokens.LatePreserved | src/utente.c:369-393 | Every step keeps the count of late users, and of those who may still be late, covered by day tokens consumed. |
| Tokens.TokensPreserved | src/direttore.c:181-183 | Day tokens are conserved: unclaimed, consumed by users, consumed by operators or still to be posted. |
| Theorems.ClockClosedForm | src/direttore.c:409-426 | After k ticks, k at least 1, the counters satisfy (days - 1) * 1440 + minutes = k with minutes from 1 to 1440. |
| Theorems.TicksAtTheEnd | src/direttore.c:391-427 | A run without explosion ends after (sim_duration - 1) * 1440 + 1 ticks; an explosion falls on a day boundary. |
| Theorems.ExplosionReported | src/direttore.c:409-438 | When the director breaks off because of late users the mode written is "explode", whatever users still do; the mode is "explode" iff the daily counter exceeds the limit when it is read. When the director does break off is `Boundaries.BoundaryDecides`. |
| Boundaries.BoundaryDecides | src/direttore.c:409-419 | In every run, at the check for a new day: it is a boundary iff the ticks completed are whole days; there the day is counted, and a new day begins iff today.late_users, as read then, is within the limit; otherwise the director breaks off. |
| Boundaries.CutShortExactly | src/direttore.c:391-438 | A run is cut short iff the last count read at a boundary exceeded the limit; every earlier one was within it, and a run that is not cut short has read one within it at each of its sim_duration boundaries. |
| Boundaries.RunEndsAsLoop | src/direttore.c:391-427 | In every run, once the director has left its loop, the tokens it has posted, its days, minutes and ticks, the users, and whether it broke off are the one result that the loop run as a program has for the users of this run and the counts its director read. |
| Director.ClockPreserved | src/direttore.c:409-426 | Every step keeps the relation of the director's counters, the displayed clock and the ticks users have read. |
| Timing.OneBatchADay | src/direttore.c:397-407 | In the 1440 ticks after a day boundary an hour strikes at exactly one tick if it is 1 to 24, and otherwise never. |
| Timing.OpeningFirst | src/direttore.c:397-407 | Within a day the tick of opening is no later than that of closing iff the opening hour is not the later one, and the same iff the hours are. |
| Batching.OpeningPrecedesClosing | src/direttore.c:397-407 | While a closing batch is being posted, the opening batch of the day is complete if its hour is no later, in the same tick too, and has not begun if its hour is later. |
| Batching.PostedByTicks | src/direttore.c:391-427 | In every run, at the head of its loop, the director has posted on each of the three semaphores exactly what the loop run as a program posts in as many ticks for the users of that run. |
| Batching.PostsOfOneDay | src/direttore.c:397-419 | In every run, between two consecutive day boundaries: one opening batch for everybody present at its tick and one closing batch for the operators, if the hours are 1 to 24, and one day batch for everybody. |
| Batching.DoorTokensConserved | src/operatore.c:194-196 | Every opening and closing token posted is unclaimed, or has been consumed by one process. |
| Doors.DoorsPreserved | src/direttore.c:397-407 | Every step keeps the tokens posted, unclaimed and consumed in step with the director's position in its loop. |
| Rounds.DirectorLoop | src/direttore.c:391-427 | The loop ends, after exactly that many ticks or at the first day boundary with too many late users; the three semaphores have been given exactly the tokens due. |
| Rounds.OneEnd | src/direttore.c:391-427 | That determines the result: there is one way for the loop to end. |
| Rounds.TokensOfOneDay | src/direttore.c:397-407 | Between two day boundaries there is one closing batch for the operators and one opening batch for everybody present, if the hours are 1 to 24, and one day batch for everybody. |
| Rounds.PostAll | src/direttore.c:181-183 | The posting loop adds one token for each process. |
| TicketDesk.TicketCounter.ServeAll | src/erogatore_ticket.c:34-54 | A run of requests is answered with consecutive numbers, one to each sender, none twice. |
| TicketDesk.RoundOfThree | src/erogatore_ticket.c:34-54 | In the transition system one round of the dispenser replaces a request on the queue by a reply with the counter, and moves the counter on. |
| Settings.ServiceNanosExactRange | src/operatore.c:133-137 | The service times that can be drawn are exactly the integers from half the base to the base plus its half. |
| Settings.ServiceMinutesWithinHalf | src/operatore.c:124-137 | For each of the six services and every draw the time reported lies within 50% of nominal. Which times those are is `Settings.ServiceMinutesExactRange`. |
| Settings.ServiceMinutesExactRange | src/operatore.c:133-137 | Some draw makes the operator report t minutes iff t minutes are a whole number of nanoseconds from half to one and a half times nominal: no draw gives another time and none of these is left out. |
| Settings.WalkInWithinShift | src/utente.c:115-130 | The walk-in time is after opening, and leaves five minutes per request before closing iff the shift is longer than that. |
| Settings.WalkInExactRange | src/utente.c:115-130 | Some draw gives the walk-in minute t iff t is after opening and leaves five minutes per request before closing, or is the first minute after opening. |
| StatsRecord.PosteStats.constructor | include/poste.h:35-55 | The record starts zeroed, its lock at 1. |
| StatsRecord.PosteStats.UpdateFails | src/utente.c:133-140 | In place: the record becomes what the section's writes make of it, one failure booked; lock given back. |
| StatsRecord.PosteStats.UpdateSuccess | src/utente.c:142-157 | In place: one completed service booked, four tallies, three fields each; nothing else changes. |
| StatsRecord.PosteStats.UpdateRequests | src/operatore.c:53-60 | In place: one request booked in four tallies; nothing else changes. |
| StatsRecord.PosteStats.UpdatePauses | src/operatore.c:64-69 | In place: one pause, in total and today; nothing else changes. |
| StatsRecord.PosteStats.RecordShift | src/operatore.c:384-389 | In place: one active operator, in total and today; nothing else changes. That every shift worked comes to this is `Shifts.ShiftsCounted`. |
| StatsRecord.PosteStats.ClearToday | src/direttore.c:159-162 | In place: the day is set and everything of today is zero; the totals stay. |
| StatsRecord.PosteStats.ShowMinute | src/direttore.c:423-426 | In place: the displayed minute; nothing else changes. |
| StatsRecord.LateFlag.HandleLateUsers | src/utente.c:172-186 | In place: the first call of a day counts the user as late in three places, a second call changes nothing. |
| SeatTable.PosteStations.FindFreeSeat | src/operatore.c:174-181 | Returns the lowest seat that is FREE and of the service, or -1 iff there is none. |
| SeatTable.PosteStations.CanWorkToday | src/operatore.c:184-191 | Returns whether some seat offers the service today. |
| SeatTable.PosteStations.TakeSeat | src/operatore.c:43-50 | In place: this seat names the process and is OCCUPIED; every other seat, and the rest of this one, stays. |
| SeatTable.PosteStations.ReleaseSeat | src/operatore.c:31-40 | In place: this seat is FREE and names nobody, and one waiter is signalled; everything else stays. |
| SeatTable.PosteStations.FindAndTake | src/operatore.c:235-245 | The first search and the taking are one locked section: what it takes is the lowest free seat. |
| SeatTable.PosteStations.FindValidSeats | src/utente.c:194-208 | Fills the array with exactly the staffed seats of the service, in increasing order. |
| SeatTable.PosteStations.AttemptTakeSeat | src/utente.c:212-231 | Takes the first seat of the list that no user occupies, or returns -1 and changes nothing. |
| SeatTable.PosteStations.FreeUserSeat | src/utente.c:306-310 | In place: the seat is FREE for users and one is signalled; everything else stays. |
| SeatTable.PosteStations.ResetSeats | src/direttore.c:167-176 | In place: every seat is cleared and given the service drawn for it. |
| SeatTable.GenerateServiceList | src/utente.c:107-113 | Between 1 and the maximum of services are drawn into the front of the array; the rest stays. |
| SeatTable.ListsDrawn | src/utente.c:107-113 | The lists that draws make are exactly those a user of the transition system may go out with: each length from 1 to the limit, any services. |
| Seats.FindSeat | src/operatore.c:174-181 | The lowest index free for the service from a given one on, or -1 iff there is none. |
| Seats.ValidSeats | src/utente.c:194-208 | Exactly the staffed seats of the service below a bound, strictly increasing. |
| Seats.FirstOffered | src/utente.c:216-222 | The first entry of the list that no user occupies, or -1 iff there is none. |
| Seats.RunReset | src/direttore.c:168-175 | The reset loop's writes clear every seat from the given one on and leave the earlier ones. |
| ReportName.FreeName | src/direttore.c:237-248 | The search for a report name ends, at the least counter whose name does not open, at most the number of files there are. |
| ReportName.NamesDiffer | src/direttore.c:238-241 | Different counters give different names. |
| ReportName.DecimalReadsBack | src/direttore.c:241 | A number printed in decimal reads back as itself. |

## Left out

- Rounds.DirectorLoop: the values other processes supply (late users seen, users added at each tick) are arguments; `Batching` and `Boundaries` take them from the run.
- Theorems.NoSharedSeat: holds on days that begin with nobody sitting; `Exclusivity.UnsharedRuns` says exactly which runs keep it, and `Crowding.TwoUsersOneSeat` is one that does not.
- Delivery.WantedIsDelivered: one direction; a service may agree by chance although a reset came in between.
- Theorems.ClockClosedForm: at the head of the director's loop; in the middle of an iteration the counters are in between.
- Order of messages: the queue is a multiset with typed receive. At most one message per user is on it, so the order matters only among different users.
- Failing receives and interrupted system calls. Failing sends are modelled: a lost reply leaves its user waiting.
- Liveness and fairness: nothing in the program guarantees that a waiting user is served, and one who read process 0 from a vacated seat waits for ever.
- The range of rand(): a draw is any natural number, so every remainder occurs; a RAND_MAX below the span of a service time would leave the longest times undrawn.
- Integer widths: counters such as the ticket number are unbounded; doubles are reals.
- Real time: sleeps, timeouts of sem_timedwait and the length of a service only appear as arbitrary interleaving.
- The draw that decides whether a user goes out at all (a free choice here), and division by a zero p_serv_max.
- Reading the configuration file; the ranges it lets through are the precondition `Loaded`. No bound on hours or on sim_duration from above is assumed.
- Adding users: any set of fresh process ids at any tick. The request and its reply on the second queue, negative numbers of users and the array that is reallocated are not modelled.
- Printing, the layout of the report, and creating its directory. A file of the chosen name that exists but cannot be read counts as absent, as it does for the program.
- Starting, killing and waiting for processes, and creating shared memory, queues and semaphores. Between the end of the loop and the report processes may still take any steps.
- The unused structures for ticket queues and per-counter ratios, and the command that asks for new users.
