# A verified model of a booking backend

The repository is a multi-tenant booking backend: staff, a chat bot, an AI phone
agent and background workers all write the same appointments, booking requests,
conversations and settings. This project models its stateful cores in Dafny and
proves what those cores promise, over every input and every run, or exactly when
they keep it.

Tables are sequences whose positions are the row ids (rows are never deleted),
or maps by id. These reads and writes are separate steps, with anything in
between:

- scheduling: auto-accept, the conversation's reschedule and cancel, the expiry
  sweep and the settling of a hold, each of which acts on rows read before the
  business's lock. Every other transaction under that lock is one step;
- booking one call: lookup, lock, slot check and commit of each worker;
- conversation sessions: a message's lookup, its status test and its result; a
  staff action's read and write; the sweep's read and write. Messages on one line
  are handled one at a time;
- each look of a reminder run and its commit; a transfer webhook's read and write.

The phone call's control loop, the two imports, the inbox, the vehicle switch and
the call's cost are taken one operation at a time. Each operation that updates
rows is a method of a class whose contract ties the new state to a specification
function of the old state; the properties are proved about that function.

| file | what it models |
|---|---|
| Intervals, Scheduling, SchedulingStore | capacity and conflict checks, every writer of appointments and requests |
| Decisions | what each writer accepts and refuses, and the row it leaves, against the reservations and overlaps there are |
| SchedulingRuns, Capacity, StaleCopies | double-booking, the request's lifecycle and capacity over whole runs, and the runs that break them |
| BookingRace, LostRace | workers racing to book the same call, the unique keys that stop them, and what the loser's slot check sees |
| VoiceCall, VoiceCallRuns, CallAnswers, VoiceController | the phone agent's tool gate and replay cache, what its answers promise, the reconnecting loop |
| WallClock, Dates | local times as instants, dates a customer names, the search for free days |
| Sessions, TurnRoutes, SessionRuns | conversation sessions, handoff, resume, the expiry sweep, one turn of the engine route by route |
| AppointmentImport, ServicesImport | pasting a diary and a price list |
| Threads | the WhatsApp inbox built in one pass |
| Reminders, Telephony, VehicleDetails, Pricing | the reminder worker, the human-transfer chain, the vehicle switch, call cost |

## Where the code and its own description differ

The model follows the code. Each point is a lemma below.

- The capacity check loads the reservations of one local day and floors the
  length to whole minutes, so a booking across midnight, or with a part minute,
  can exceed capacity (`Capacity.CheckSoundExactlyWhen`,
  `Capacity.LateNightOverbooking`).
- Approval and reschedule re-read under the lock, but a session that has read the
  row before gets its own copy back unrefreshed. So auto-accept can book a request
  rejected since it was picked, or book it a second time
  (`SchedulingRuns.RequestGoesOneWayExactlyWhen`,
  `SchedulingRuns.BookedExactlyOnceExactlyWhen`, `StaleCopies.RejectedIsBooked`,
  `StaleCopies.RequestIsBookedTwice`); and a conversation can move an appointment
  onto the diary of somebody who was given it meanwhile
  (`SchedulingRuns.NobodyIsDoubleBookedExactlyWhen`,
  `StaleCopies.MoveDoubleBooks`), or say it moved one that stays or was cancelled
  (`SchedulingRuns.MoveLandsExactlyWhen`).
- Accepting the terms does the same, against its promise that a double tap or a
  racing sweep sees one state: an approved request goes back to PENDING and keeps
  its appointment, a lapsed hold takes its slot back though it is full
  (`SchedulingRuns.RunKeepsLinksExactlyWhen`,
  `Capacity.NeverOverCapacityExactlyWhen`, `StaleCopies.DoubleTapReopens`,
  `StaleCopies.LateAcceptanceOverbooks`).
- Recovering a paid checkout puts its request back to PENDING without looking at
  its status (app/payments/service.py:501-514), approved or not; that is one more
  exception in `SchedulingRuns.RequestGoesOneWayExactlyWhen`.
- A second delivery of one booking that loses the race is promised the winner's
  request. Its own booking counts against its slot check, so it gets it exactly
  when two bays were free and the booking is not a deposit flushed before the
  retry guard (`LostRace.LoserRecoversExactlyWhen`,
  `LostRace.LastBayTurnsTheRetryAway`, `LostRace.SingleBayIsEnough`).
- `dispatch_tool` says it never raises. Three things outside its guarded part
  can: the idempotency query, a time too big for the clock type ("99999999999999999999:00")
  in a booking or in a confirmed move of a listed appointment, and arguments
  nested too deep to parse. Nothing is cached, the loop reconnects, and the same
  event raises again (`VoiceCallRuns.RaisesExactlyWhen`,
  `VoiceCallRuns.HugeTimeIsNeverAnswered`).
- A staff takeover does not last against what was under way before it: a sweep
  that had read the session expires it (`SessionRuns.LateSweepDropsTakeover`), and
  a turn that had passed its status test answers and can complete it
  (`SessionRuns.TurnEndsTakeover`); `SessionRuns.HandoffLastsExactlyWhen` has all
  of them.
- A takeover written after the session was replaced brings the old one back, and
  two are live (`SessionRuns.AtMostOneLiveExactlyWhen`,
  `SessionRuns.LateTakeoverLeavesTwoLive`).
- Overlapping worker runs remind twice
  (`Reminders.RemindedOnceAndInTimeExactlyWhen`,
  `Reminders.DoublingNeedsOverlap`, `Reminders.OverlappingRunsRemindTwice`);
  simultaneous deliveries of one webhook record a transfer attempt twice
  (`Telephony.AttemptsAreRecordedOnceExactlyWhen`, `Telephony.CollisionNeedsRace`,
  `Telephony.SimultaneousDeliveriesRecordTwice`).
- Unresolved turns are described as consecutive; the counter is only cleared with
  the whole context, so it is cumulative (`SessionRuns.HandsOverOnTheLastPuzzle`,
  `SessionRuns.UnderstoodTurnDoesNotReset`); and a turn running across a hand-back
  restores it (`SessionRuns.CountIsKeptExactlyWhen`,
  `SessionRuns.RunningTurnBringsCountBack`).
- A message redelivered after the turn that completed its session starts a new
  session and is answered again (`SessionRuns.RedeliveryIgnoredExactlyWhen`,
  `SessionRuns.RedeliveryStartsASession`).
- Re-importing a diary is promised to be safe; a row with a phone that was linked
  by email to a customer with no phone on file, or with another one, is booked
  again unless a later row books the same slot for that phone
  (`AppointmentImport.ReimportIsNoOpExactlyWhen`,
  `AppointmentImport.RowRecognisedExactlyWhen`,
  `AppointmentImport.MislinkedRowIsBookedTwice`).
- "29 February" named in the year before a leap year is refused
  (`Dates.YearGuessExactlyWhen`). A refused date whose day has an ordinal suffix
  is read as a day of another month: "29th February" as 29 June
  (`Dates.AnswersAsNamedExactlyWhen`, `Dates.LeapDayIsRefused`).
- The vehicle switch reads a field in a switched-off section as not asked. So
  turning a detail on can leave it unasked, when it is added to such a section
  (`VehicleDetails.AsksWhatWasWantedExactlyWhen`); a detail left out of a change
  loses its field when its section is off
  (`VehicleDetails.LeftOutIsKeptExactlyWhen`); make or model can be asked without
  the registration (`VehicleDetails.MakeAndModelNeedRegistrationExactlyWhen`); and
  saving the same choice twice changes things the second time
  (`VehicleDetails.SavingTwiceIsSavingOnceExactlyWhen`). One save shows all four
  (`VehicleDetails.OneSaveBreaksThePromises`).
- A repeated transfer report without an attempt index closes the next attempt
  (`Telephony.RepeatedReportHarmlessExactlyWhen`,
  `Telephony.RepeatEndsTheNextAttempt`).
- Pricing a call's totals once is cheaper than pricing its responses when some
  report more cached than input tokens and others fewer
  (`Pricing.PricedOnceIsExactlyWhen`, `Pricing.MixedCallIsPricedLower`).

## Model

| member | source | states |
|---|---|---|
| Intervals.PeakOverlap | app/public_booking/availability.py:214-235 | the sweep over sorted edges returns the true peak: no instant of the window is covered more often, and some instant is covered that often |
| Intervals.SweepFindsPeak | app/public_booking/availability.py:214-235 | the highest running total of the sorted edges is the largest number of intervals in progress at any instant |
| Intervals.PeakDecidesFit | app/public_booking/availability.py:238-261 | comparing the peak with a capacity decides whether one more fits at every instant |
| SchedulingRuns.NobodyIsDoubleBookedExactlyWhen | app/appointments/routes.py:339-399 | over any interleaving of all writers, under changing settings, no employee ever has two live overlapping appointments, exactly unless a conversation moves a live appointment that changed hands since it was read onto its new owner's diary |
| SchedulingRuns.NobodyIsDoubleBooked | app/appointments/routes.py:339-399 | so nobody is double-booked while no appointment changes hands between a conversation's reading it and moving it |
| SchedulingRuns.MoveLandsExactlyWhen | app/conversation/actions.py:458-516 | a move answered as done leaves the appointment live at the new time with its own length exactly when it was not cancelled, resized or, for a move to the time it was read at, moved meanwhile |
| StaleCopies.MoveDoubleBooks | app/conversation/actions.py:473-512 | a run: the appointment is read, given to another employee, and moved to a time that employee is busy at |
| SchedulingRuns.PatchKeepsDiary | app/appointments/routes.py:464-574 | an edit keeps the diary free of double bookings, including one that reactivates a cancelled appointment or shifts its end by add-ons |
| SchedulingRuns.ResendingAddOnsMovesNothing | app/appointments/routes.py:211-246 | sending a booking's own add-ons back keeps their snapshots and the appointment's end, whatever the catalogue says now |
| SchedulingRuns.RunKeepsLinksExactlyWhen | app/booking_requests/service.py:302-314 | in every state of a run a request is APPROVED exactly when an appointment is linked to it, and no appointment is linked twice, exactly unless an outdated commit or a paid deposit takes a request off APPROVED |
| SchedulingRuns.RequestGoesOneWayExactlyWhen | app/booking_requests/service.py:161-210 | over any run a request's status only moves forward and its outcome is final, exactly unless an outdated approval, a hold settled twice or a paid deposit overwrites it |
| SchedulingRuns.RequestsCloseOnce | app/booking_requests/service.py:479-520 | a request nothing overwrites leaves PENDING at most once and never leaves APPROVED, REJECTED or EXPIRED |
| SchedulingRuns.ApprovalBooksExactlyWhen | app/booking_requests/service.py:189-321 | becoming APPROVED and being booked as the new last appointment are the same step, exactly unless auto-accept books a request approved since it was picked |
| SchedulingRuns.BookedExactlyOnceExactlyWhen | app/booking_requests/service.py:189-321 | in every state of a run a request has been booked exactly once if it is APPROVED and never otherwise, exactly unless an event books it when approved already or takes it off APPROVED |
| StaleCopies.RejectedIsBooked | app/booking_requests/service.py:345-397 | a run: picked, rejected by staff, and booked and approved all the same |
| StaleCopies.RequestIsBookedTwice | app/booking_requests/service.py:345-397 | a run: picked, approved by staff, and booked a second time |
| StaleCopies.DoubleTapReopens | app/terms/service.py:268-347 | a run: the terms are accepted twice with an approval in between, and the approved request is PENDING again |
| SchedulingRuns.LateSweepKeepsApproval | app/booking_requests/service.py:479-520 | a request a sweep read as stale, approved before the sweep writes, stays approved with its appointment to the end of any run that does not overwrite it |
| SchedulingRuns.OnlyStaleCancelRewritesOutcome | app/conversation/actions.py:442-455 | a completed or no-show outcome changes exactly by a chat cancel whose status check is out of date; every locked writer keeps it |
| Capacity.NeverOverCapacityExactlyWhen | app/appointments/scheduling.py:62-83 | while capacity is never lowered no instant ever has more bays reserved than there are, however else the settings change, with bookings inside one local day and whole minutes, exactly unless a closed request is made to wait again in a full slot |
| Capacity.NeverOverTheMostBaysExactlyWhen | app/appointments/scheduling.py:62-83 | over any such run and any changes of capacity, no instant has more bays reserved than the most the business has had, exactly unless a closed request is made to wait again where they are all reserved |
| Capacity.ApprovalSwapsReservation | app/booking_requests/service.py:441-454 | approval, on the row or on a copy of it, removes the request's own reservation and adds exactly one live appointment, instant by instant |
| Capacity.CheckSoundExactlyWhen | app/public_booking/availability.py:509-557 | the capacity check protects a span exactly when it lies in one local day and lasts whole minutes |
| Capacity.LateNightOverbooking | app/public_booking/availability.py:142-164 | a staff booking across midnight that is accepted over a full bay |
| Decisions.CheckTellsTheTruth | app/public_booking/availability.py:509-557 | inside one local day the check lets a booking in exactly when, at every instant of it, the reservations there are leave a bay, and for the public one beside those any touching window keeps for walk-ins |
| Decisions.BaysAreSettingOrStaff | app/public_booking/availability.py:100-104 | so many bookings fit at one time as the setting says, or as there are employees without one, and at least one |
| Decisions.PostDecides | app/appointments/routes.py:338-411 | a new appointment is added, as it was sent, exactly when its employee and a bay are free and its fields pass; a cancelled one needs no bay; otherwise nothing changes |
| Decisions.EditedLands | app/appointments/routes.py:531-563 | what an edit sends lands on the row and what it does not send stays; without a sent end the end moves by the change of the add-ons' length; another service drops the add-ons |
| Decisions.PatchDecides | app/appointments/routes.py:464-574 | the edit is made exactly when its fields pass, the outcome rules allow its status and, where the booking may stand in a new place, that place is free |
| Decisions.DeleteDecides | app/appointments/routes.py:678-705 | deleting cancels the row and keeps it, exactly unless it has another outcome |
| Decisions.ApprovalBooksAsAsked | app/booking_requests/service.py:219-290 | an approval answered as done appends the appointment staff asked for: their employee, service, start and end, or the request's where they did not say, its own length and add-ons only with its own service; and closes that request alone |
| Decisions.ApprovalDecides | app/booking_requests/service.py:161-255 | it is answered so exactly when there is such an appointment and it may be booked; otherwise at most a request whose slot passed expires |
| Decisions.StaffApprovalDecides | app/booking_requests/service.py:161-321 | staff's approval of the committed request books it exactly then |
| Decisions.AutoAcceptDecides | app/booking_requests/service.py:324-399 | a candidate picked and committed undisturbed is approved for that employee at its own time and length, exactly unless its slot passed, its vehicle clashes or it has no length |
| Decisions.RejectDecides | app/booking_requests/routes.py:153-176 | only a waiting request is closed, as rejected, or as expired once its slot passed |
| Decisions.SweepDecides | app/booking_requests/service.py:479-520 | an undisturbed sweep expires exactly the waiting requests whose slot passed |
| Decisions.StaleMeansPassed | app/booking_requests/service.py:457-476 | in UTC a slot has passed exactly when its instant has or, without a time, its whole day |
| Decisions.RefusedMoveChangesNothing | app/conversation/actions.py:476-508 | a move of a cancelled or finished booking, to a slot the business does not offer, or over another booking of the employee changes nothing |
| Decisions.MoveDecides | app/conversation/actions.py:458-516 | a move is made exactly when the slot is offered and employee and bay are free there, and the row then starts there with its length |
| Decisions.CancelDecides | app/conversation/actions.py:442-455 | an undisturbed chat cancel cancels exactly the bookings that are neither cancelled nor finished |
| Decisions.RefusedSubmissionChangesNothing | app/conversation/actions.py:227-236 | a slot the business does not offer is not requested |
| Decisions.SubmitDecides | app/conversation/actions.py:174-309 | a request is stored exactly when its fields pass and its slot is offered with a bay to spare over its whole length, and it then holds that slot and waits for terms, deposit or review |
| StaleCopies.LateAcceptanceOverbooks | app/terms/service.py:268-347 | a run with one bay: a hold lapses, its slot is taken, its terms are accepted after all, and two are reserved |
| SchedulingStore.Store.SlotCapacityUsage | app/public_booking/availability.py:509-557 | the reported use is the true peak of the other reservations, and comparing it with the capacity decides whether the slot fits |
| SchedulingStore.Store.LoadDayUsage | app/public_booking/availability.py:142-164 | one interval for each live appointment and reserving request of the day, the excluded one left out |
| SchedulingStore.Store.CheckConflict | app/appointments/scheduling.py:44-59 | true exactly when another live appointment of the employee overlaps |
| SchedulingStore.Store.SlotIsFree | app/booking_requests/service.py:430-454 | true exactly when nobody clashes and a bay is left |
| SchedulingStore.Store.Post | app/appointments/routes.py:338-411 | a new appointment is refused or added just as specified, and the diary stays free of double bookings |
| SchedulingStore.Store.PlanAddOns | app/appointments/routes.py:211-246 | the loop's plan keeps the snapshot of each add-on already booked |
| SchedulingStore.Store.Patch | app/appointments/routes.py:464-676 | an edit's reply and rows are those specified, and the diary stays free of double bookings |
| SchedulingStore.Store.EditRow | app/appointments/routes.py:531-563 | the row the edit leaves, and whether its slot has to be checked again |
| SchedulingStore.Store.Delete | app/appointments/routes.py:678-705 | deleting cancels, unless the outcome is terminal |
| SchedulingStore.Store.Approve | app/booking_requests/service.py:161-321 | reply and tables of an approval as specified (what it books is `Decisions.ApprovalBooksAsAsked`), by the copy the session holds if it holds one: expire, refuse, or book one appointment and link it |
| SchedulingStore.Store.ChooseEmployee | app/booking_requests/service.py:324-399 | the unlocked choice is the first active employee without a clash, and none is chosen only when there is none |
| SchedulingStore.Store.FirstFreeOf | app/booking_requests/service.py:366-399 | the first candidate without a conflict, or every candidate has one |
| SchedulingStore.Store.Reject | app/booking_requests/routes.py:153-176 | a pending request is rejected, a stale one expired, any other left alone |
| SchedulingStore.Store.ReadStale | app/booking_requests/service.py:487-498 | the sweep's first read collects exactly the stale pending requests |
| SchedulingStore.Store.CommitExpiry | app/booking_requests/service.py:499-520 | the guarded write expires exactly the rows still pending and counts them |
| SchedulingStore.Store.CommitCancel | app/conversation/actions.py:442-455 | the chat's cancel overwrites the status without looking again |
| SchedulingStore.Store.Reschedule | app/conversation/actions.py:458-516 | the employee, service and length of the copy at the new slot, or a refusal that changes nothing, decided as in `Decisions.MoveDecides`; the diary stays free of double bookings exactly unless the new owner is busy |
| SchedulingStore.Store.Submit | app/conversation/actions.py:174-309 | a phone, chat or web request with its add-ons and length is stored as waiting for terms, deposit or review, or refused when the slot is full; when, and what then holds the slot, is `Decisions.SubmitDecides` |
| BookingRace.NeverTwoBookings | app/conversation/actions.py:212-219 | however workers interleave, no two requests share a function-call id or a phone-call id |
| BookingRace.LookupFinds | app/conversation/actions.py:212-219 | the lookup finds a request with one of the worker's ids exactly when there is one |
| BookingRace.OneBookingPerCall | app/conversation/actions.py:281-298 | everybody answered on one phone call got the same request, and at most one of them created it |
| BookingRace.TakenStaysTaken | app/conversation/actions.py:281-298 | once its booking exists a worker never creates a second one |
| LostRace.AcceptedAgainExactlyWhen | app/public_booking/availability.py:509-557 | the same submission is accepted a second time exactly when two bays were free before the first |
| LostRace.OwnRequestCounts | app/public_booking/availability.py:142-164 | a stored request counts exactly once at every instant of its own slot |
| LostRace.LoserRecoversExactlyWhen | app/conversation/actions.py:212-298 | the loser answers with the winner's request exactly when two bays were free and the booking is no upfront deposit |
| LostRace.LastBayTurnsTheRetryAway | app/conversation/actions.py:212-298 | when the first delivery takes the last bay the second is refused by its own booking, and one request exists |
| LostRace.SingleBayIsEnough | app/public_booking/availability.py:509-557 | one bay and an empty diary lead to that race |
| VoiceCall.FormatTimeInjective | app/ai_voice/tools.py:65-83 | two times the gate formats alike are the same time |
| VoiceCallRuns.ExecutedOnceAnsweredAlike | app/ai_voice/call_controller.py:229-299 | a function-call id runs its handler at most once in a call, and every answer to it is the same |
| VoiceCallRuns.EffectsAreEarned | app/ai_voice/tools.py:846-908 | every booking was for a slot live availability returned earlier in the call, at the one time its text can mean; every change to a listed and confirmed appointment, every move to an offered time; one booking a call |
| VoiceCallRuns.RetryNeverBooks | app/ai_voice/tools.py:880-902 | an idempotent retry passes the slot proof but never creates a booking |
| VoiceCallRuns.RaisesExactlyWhen | app/ai_voice/tools.py:810-905 | the dispatcher raises exactly on arguments nested too deep, a booking whose lookup fails, or a time too big in a booking or an otherwise allowed move, unless the answer is cached; it then leaves no trace |
| VoiceCallRuns.HugeTimeIsNeverAnswered | app/ai_voice/tools.py:320-325 | a booking event with such a time raises however often it is delivered; an unreadable time does not |
| CallAnswers.LetThroughExactlyWhen | app/ai_voice/tools.py:833-902 | an event reaches its handler exactly when the caller can point to what it needs: a listed and confirmed appointment, an offered time to move to, the slot offered for the service or a request with one of its ids |
| CallAnswers.BookingIsAnswered | app/conversation/actions.py:209-299 | a booking let through is told the request with one of its ids if there is one; else, with a readable time and a free slot, it makes exactly one request with both ids; else it is refused and makes none |
| CallAnswers.ChangeIsAnswered | app/ai_voice/tools.py:701-745 | a cancel or move is answered as done exactly when it was made, once, to the appointment and for the time it names |
| CallAnswers.OfferIsRecorded | app/ai_voice/tools.py:402-433 | the times answered are exactly those that become bookable for that service and date |
| CallAnswers.ListingIsRecorded | app/ai_voice/tools.py:667-683 | the appointments answered are exactly those that become changeable |
| CallAnswers.ReplayOnlyAnswers | app/ai_voice/call_controller.py:240-259 | a cached answer is sent again and nothing else is done |
| CallAnswers.ToldOfARealRequest | app/conversation/actions.py:209-219 | over any call and any bookings elsewhere, every answer that names a request names one that exists and carries the call's id or that of a booking event sent for it |
| VoiceController.ReconnectsAreSafe | app/ai_voice/call_controller.py:82-168 | the promises above hold over any connects, losses, reconnects and redeliveries |
| VoiceController.EndsOnlyWhenTold | app/ai_voice/call_controller.py:200-224 | the backend ends a call only after an ending tool succeeded and its answer was delivered, on this connection or an earlier one |
| VoiceController.GoodbyeIsKept | app/ai_voice/call_controller.py:196-222 | an answered transfer or goodbye ends the call with the next finished response: back to the menu, on to the referred number, or hung up |
| VoiceController.OverLimitExactlyWhen | app/ai_voice/call_controller.py:104-168 | the failure counter passes its limit exactly on two failed reconnects in a row that are not the first two attempts |
| VoiceController.Controller.constructor | app/ai_voice/call_controller.py:62-80 | a call starts with nothing offered, listed, cached or sent |
| VoiceController.Controller.RecordAvailability | app/ai_voice/tools.py:60-66 | every returned time becomes part of the proof and nothing else does |
| VoiceController.Controller.RecordAppointments | app/ai_voice/tools.py:95-103 | every listed appointment becomes changeable and nothing else does |
| VoiceController.Controller.CreateBooking | app/conversation/actions.py:174-309 | an existing request is the answer; a new one, under the envelope's ids or else the model's own, is made only without one and while the slot is free, as `CallAnswers.BookingIsAnswered` has it |
| VoiceController.Controller.RunHandler | app/ai_voice/tools.py:908-935 | output and new state of each tool's handler |
| VoiceController.Controller.Check | app/ai_voice/tools.py:833-899 | the gate's verdict on one event, its checks in order: refuse, raise, transfer or pass |
| VoiceController.Controller.DispatchTool | app/ai_voice/tools.py:810-935 | whether the dispatcher raises, and otherwise its output and the new state |
| VoiceController.Controller.HandleFunctionCall | app/ai_voice/call_controller.py:229-299 | new state of one event, and whether it breaks the connection |
| VoiceController.Controller.PumpEvents | app/ai_voice/call_controller.py:171-224 | new state and outcome of one connection |
| VoiceController.Controller.Run | app/ai_voice/call_controller.py:82-168 | tool state and cache outlive connections; the loop stops at the first normal end or two failed reconnects in a row, and not before |
| WallClock.AcceptsExactlyUnambiguous | app/bulk_import/appointments.py:100-138 | inside the calendar: accepted exactly when one and only one instant shows the wall clock, and that one is returned; nonexistent exactly when none, ambiguous exactly when two; an exception exactly when the first reading leaves years 1 to 9999 |
| WallClock.OverflowsOnlyAtTheEnds | app/bulk_import/appointments.py:121-138 | with offsets under a day that exception needs a time within two days of the ends |
| WallClock.ImportGivesTheInstantBack | app/bulk_import/appointments.py:100-138 | the local time of any instant imports back to it unless it was shown twice |
| WallClock.ExplicitOffsetResolves | app/bulk_import/appointments.py:100-138 | of two instants the clock shows alike, each is imported from that ambiguous wall clock once its own offset is written, and the offsets differ |
| Dates.DayOfMonthIsEarliest | app/conversation/datetime_parsing.py:137-146 | the three-month search gives the earliest date on or after today with that day, and fails only when the calendar has none left |
| Dates.DayOfMonthAlwaysFound | app/conversation/datetime_parsing.py:137-146 | before the last year the search always succeeds |
| Dates.YearGuessExactlyWhen | app/conversation/datetime_parsing.py:76-83 | the guessed year gives the first such date to the end of next year, exactly except for 29 February named before a leap year |
| Dates.AnswersAsNamedExactlyWhen | app/conversation/datetime_parsing.py:93-148 | a text naming one date is answered with that day, month and year or not at all, exactly unless the date is refused, the day has a suffix, and the bare-day search finds one |
| Dates.LeapDayIsRefused | app/conversation/datetime_parsing.py:106-148 | 29 February named in June 2027 is refused though 29 February 2028 is to come, and 29th February is read as 29 June |
| Dates.WeekdayIsTheNextOne | app/conversation/datetime_parsing.py:171-184 | a bare weekday is the one day of that name in the next one to seven days |
| Dates.RelativeDaysAreCounted | app/conversation/datetime_parsing.py:151-189 | "tomorrow", "the day after" and a bare "next week" are one, two and seven days on; a named date is taken before a weekday |
| Dates.FullDatesAreTaken | app/conversation/datetime_parsing.py:93-135 | a date with its year is that date, or none once it has gone; two digits are this century |
| Dates.NeverInThePast | app/conversation/datetime_parsing.py:151-189 | no branch returns a past date |
| Dates.DaysBeforeYearClosed | app/conversation/datetime_parsing.py:173-184 | the model's day numbers are the Gregorian ones |
| Dates.FindNextAvailableDays | app/conversation/actions.py:86-107 | the first free days from the wanted day or today on, in order, all of them up to the limit or the window's end |
| SessionRuns.AtMostOneLiveExactlyWhen | app/conversation/session_service.py:45-115 | in every reachable state a key has at most one live session and it is the newest, exactly unless a staff action is written on a session no longer newest, or a message opens one after another was brought back |
| SessionRuns.StaffLandOnTheLiveSession | app/communications/routes.py:640-672 | until a line is split so, the newest session staff look at is the live one the bot would use |
| SessionRuns.HandoffLastsExactlyWhen | app/conversation/engine.py:136-219 | a WhatsApp conversation nobody hands back stays with the human as the line's newest session, unanswered by the bot, exactly when nothing under way before the takeover is carried out after it: no sweep that had read it, no message that replaces, completes or answers |
| SessionRuns.LateSweepDropsTakeover | app/conversation/session_service.py:200-225 | a run in which the sweep's late write ends a takeover |
| SessionRuns.TurnEndsTakeover | app/conversation/engine.py:162-207 | a run in which a turn that began before the takeover answers and completes the session |
| SessionRuns.LateTakeoverLeavesTwoLive | app/communications/routes.py:640-656 | a run in which a takeover of an expired session leaves two live |
| SessionRuns.UndisturbedTurn | app/conversation/engine.py:120-219 | the three steps of a message with nothing in between are one handled message |
| SessionRuns.UndisturbedClick | app/communications/routes.py:640-672 | the two steps of a staff action with nothing in between are one takeover or resume |
| SessionRuns.SweepIsStaleness | app/conversation/session_service.py:200-225 | the prefiltered sweep expires exactly the live sessions that are stale |
| SessionRuns.SweepAgreesWithTheNextMessage | app/conversation/session_service.py:84-115 | sweeping just before or just after an inbound message leaves the same table and the same session |
| SessionRuns.RedeliveryIgnoredExactlyWhen | app/conversation/session_service.py:146-156 | a message delivered again does nothing exactly when it has an id and its session is still live and fresh |
| SessionRuns.RedeliveryStartsASession | app/conversation/engine.py:284-301 | two questions in one message, delivered twice: answered twice, in two sessions |
| SessionRuns.HandsOverOnTheLastPuzzle | app/conversation/engine.py:345-374 | an unanswerable turn hands over exactly when it is the limit's one since the context was last wiped, as long as no hand-back and turn have crossed |
| SessionRuns.CountIsKeptExactlyWhen | app/conversation/session_service.py:124-197 | in every state of a run each stored counter is the number of unresolved turns since the last wipe, exactly unless a turn writes a context it made from another count, or a wipe is not written because its copy had nothing to wipe |
| SessionRuns.RunningTurnBringsCountBack | app/conversation/engine.py:186-207 | a turn running across a hand-back restores the wiped count and adds one |
| SessionRuns.UnderstoodTurnDoesNotReset | app/conversation/engine.py:345-374 | puzzled, understood, puzzled: with a limit of two the third turn hands over |
| SessionRuns.AsidesHoldTheFlow | app/conversation/engine.py:304-327 | after any number of questions asked in passing, the flow to resume is the one first interrupted and all its answers are kept |
| TurnRoutes.HandlerRoute | app/conversation/engine.py:246-248 | in a flow an ordinary message is answered by the step's handler: the intent stays, its slots are set, and the session is handed over, finished or at its next step |
| TurnRoutes.CommandRoute | app/conversation/engine.py:236-237 | a command steers the flow; only going back keeps its intent |
| TurnRoutes.InterruptRoute | app/conversation/engine.py:239-240 | an interrupting intent starts its own flow from any step |
| TurnRoutes.AsideRoute | app/conversation/engine.py:304-327 | a question in a flow is answered and the flow's step and intent are kept to come back to |
| TurnRoutes.QuestionsRoute | app/conversation/engine.py:288-301 | several questions outside a flow are answered together and the session is finished |
| TurnRoutes.StartRoute | app/conversation/engine.py:255-259 | anything else starts the guessed intent's flow, or is a puzzled turn, the last allowed one handing over |
| TurnRoutes.HumanOrDuplicate | app/conversation/engine.py:141-179 | a session with a human is only touched and logged; a message it has seen does nothing |
| TurnRoutes.EveryMessageBelongs | app/conversation/engine.py:120-139 | each message has a session, found or begun, and one of these routes |
| TurnRoutes.TakeOverDecides | app/communications/routes.py:640-656 | a live newest session goes to the human with all it knows; any other stays as it is |
| TurnRoutes.ResumeDecides | app/conversation/session_service.py:184-197 | only a session with a human is handed back, with a clean slate |
| Sessions.SessionTable.FindNewest | app/conversation/queries.py:73-86 | the newest session of the key |
| Sessions.SessionTable.FindNewestLive | app/conversation/session_service.py:45-60 | the newest active or handed-off session of the key |
| Sessions.SessionTable.SessionFor | app/conversation/session_service.py:84-115 | the session a message belongs to, and the table after |
| Sessions.SessionTable.FinalizeRow | app/conversation/engine.py:377-404 | the row after a turn's result: cleared, handed over, completed or moved on |
| Sessions.SessionTable.Handle | app/conversation/engine.py:120-219 | table and log after one message, as each route of TurnRoutes has them, and whether the bot replied |
| Sessions.SessionTable.StaffTakeOver | app/communications/routes.py:640-656 | only a live newest session is taken over |
| Sessions.SessionTable.StaffResume | app/conversation/session_service.py:184-197 | only a handed-off newest session is resumed, with a clean context |
| Sessions.SessionTable.ReadStale | app/conversation/session_service.py:206-219 | the ids of the sweepable stale sessions |
| Sessions.SessionTable.ExpireStale | app/conversation/session_service.py:200-225 | the swept table and how many ids were swept |
| AppointmentImport.ReimportIsNoOpExactlyWhen | app/bulk_import/appointments.py:437-513 | a committed diary imported again creates nothing and reports every row as already there, exactly when every row was there before, was not linked across phones, or was rescued by a later row |
| AppointmentImport.RowRecognisedExactlyWhen | app/bulk_import/appointments.py:296-306 | a created row is found again exactly when it was not linked by email to a customer without that phone: with another one on file, or none |
| AppointmentImport.MislinkedRowIsBookedTwice | app/bulk_import/appointments.py:179-190 | every row of the failing family is booked twice when imported twice |
| AppointmentImport.LaterDuplicateIsCaught | app/bulk_import/appointments.py:437-453 | a later row of the same paste for the same booking and person, by the keys the search uses, is skipped if the earlier one can be recognised, whatever the other rows are |
| AppointmentImport.NewCustomerExactlyWhen | app/bulk_import/appointments.py:240-252 | a customer is created exactly when nobody has the row's phone or email |
| AppointmentImport.RowIsImportedAsWritten | app/bulk_import/appointments.py:309-513 | a row is invalid exactly when it does not read, left alone when its booking is there, and otherwise added with its own service, times, status and employee, warned of exactly when the employee is taken |
| AppointmentImport.PasteIsAllOrNothing | app/bulk_import/http.py:115-163 | a bad row refuses the whole paste with 422, an unacknowledged warning with 409, and else all of it is kept |
| AppointmentImport.FindDuplicate | app/bulk_import/appointments.py:296-306 | an appointment of the same service, start and person, and none only when there is none |
| AppointmentImport.Importer.constructor | app/bulk_import/appointments.py:193-234 | the directory finds whom a search of all customers would |
| AppointmentImport.Importer.Remember | app/bulk_import/appointments.py:247-252 | a new customer is findable and earlier ones keep their phone and email |
| AppointmentImport.Importer.LookUpCustomer | app/bulk_import/appointments.py:240-245 | by phone, else by email, the oldest record first |
| AppointmentImport.Importer.LookUpDuplicate | app/bulk_import/appointments.py:296-306 | the loop finds the first matching appointment |
| AppointmentImport.Importer.CreateRow | app/bulk_import/appointments.py:472-513 | one appointment for the linked or new customer, who is active again |
| AppointmentImport.Importer.TakeRow | app/bulk_import/appointments.py:309-513 | invalid, already there, or created, with the diary after |
| AppointmentImport.Importer.TakeRows | app/bulk_import/appointments.py:522-543 | rows are applied in order, each seeing the earlier ones |
| AppointmentImport.Importer.Paste | app/bulk_import/http.py:115-163 | the diary is kept or put back exactly, with the report's status |
| AppointmentImport.PreviewTellsTheTruth | app/bulk_import/http.py:115-163 | corollary of the report's definition: a preview writes nothing and reports what a commit would; a commit happens exactly without errors and with warnings acknowledged |
| ServicesImport.ImportAppendsInOrder | app/bulk_import/services.py:324-424 | names stay unique, no row changes, new services come last in the group they name and in payload order, new groups come last |
| ServicesImport.RerunIsNoOp | app/bulk_import/services.py:427-491 | a committed payload run again creates nothing, whatever duplicates the catalogue already holds |
| ServicesImport.RepeatRefusedExactlyWhen | app/bulk_import/services.py:465-472 | a repeated name is refused exactly when it is new and an earlier row creates it |
| ServicesImport.ServiceStore.Plan | app/bulk_import/services.py:436-474 | item by item verdicts and the specs to create |
| ServicesImport.ServiceStore.EnsureGroups | app/bulk_import/services.py:324-367 | the groups after, by a running next order |
| ServicesImport.ServiceStore.NextOrders | app/bulk_import/services.py:381-390 | the next free order of every group |
| ServicesImport.ServiceStore.CreateServices | app/bulk_import/services.py:369-424 | the running next orders give the order a fresh query would |
| ServicesImport.ServiceStore.Paste | app/bulk_import/http.py:133-163 | the same report for preview and commit, and the tables kept only on a clean commit |
| Threads.BuildIsCorrect | app/communications/queries.py:363-444 | the one pass gives for every address its newest surviving row, unread count and newest named customer, and a thread exactly when a row survives |
| Threads.LastIsNewest | app/communications/queries.py:363-410 | a thread's last message is its newest row after the deletion |
| Threads.UnreadAddsUp | app/communications/queries.py:408-410 | the threads' unread counts add up to the unread rows that survive |
| Threads.InboxAndArchivePartition | app/communications/queries.py:411-432 | every thread is in the inbox or archived and not both; what needs attention is in the inbox |
| Threads.ListedExactlyWhen | app/communications/queries.py:411-432 | each list holds exactly its threads, by the archive mark, the deletion, unread rows and a human's handoff |
| Threads.ArchivingMovesOneThread | app/communications/queries.py:301-309 | archiving moves one number's thread between the lists with its messages, and no other |
| Threads.ListedExactlyWhenReadable | app/communications/queries.py:447-468 | a phone is listed exactly when opening it shows a message |
| Threads.DeletedThreadStartsFresh | app/communications/queries.py:312-332 | a deleted thread is empty, later messages make a fresh one in the inbox, other threads are untouched |
| Threads.ReadingClearsOneThread | app/communications/queries.py:471-488 | reading leaves nothing unread in that thread and changes no other |
| Threads.Inboxes.BuildThreads | app/communications/queries.py:384-410 | the loop with its dictionary builds the specified threads |
| Threads.Inboxes.ListThreads | app/communications/queries.py:411-432 | the threads the filter keeps, in order |
| Threads.Inboxes.Archive | app/communications/queries.py:301-309 | only that number's archive mark changes |
| Threads.Inboxes.Delete | app/communications/queries.py:312-332 | only that number's cut-off and archive mark change |
| Threads.Inboxes.ReadThread | app/communications/queries.py:471-488 | the rows marked read, and how many were unread |
| Reminders.RemindedOnceAndInTimeExactlyWhen | app/appointment_reminders/service.py:183-253 | over any run a due reminder is sent or written off at most once, and was made when due and before the start it announced, exactly unless a worker run commits what is in the table by then |
| Reminders.DoublingNeedsOverlap | app/appointment_reminders/service.py:243-317 | a run doubles only a reminder that another run committed after this one had looked for it and before it commits |
| Reminders.UndisturbedRun | app/appointment_reminders/service.py:256-321 | a worker run no other commit comes between is the worker's double loop |
| Reminders.OverlappingRunsRemindTwice | app/appointment_reminders/service.py:243-253 | two runs that both look at everything before either commits remind twice of whatever is due |
| Reminders.EveryDueReminderIsTried | app/appointment_reminders/service.py:256-321 | nothing owed is passed over |
| Reminders.RerunOnlyRetriesFailures | app/appointment_reminders/service.py:256-321 | an immediate second run only repeats reminders whose every attempt failed |
| Reminders.WorkerSendsAsSet | app/appointment_reminders/service.py:305-317 | every reminder a run makes goes by the owner's first channel that reaches the customer, is written off exactly when none does, and else has the provider's answer |
| Reminders.LookSendsAsSet | app/appointment_reminders/service.py:305-317 | the same for each look of a run that others interrupt |
| Reminders.PickChannel | app/appointment_reminders/service.py:108-120 | the owner's first channel that works, and none only when none does |
| Reminders.ReminderWorker.RecordAndSend | app/appointment_reminders/service.py:183-240 | one row with the outcome, skipped when no channel works |
| Reminders.ReminderWorker.SendFor | app/appointment_reminders/service.py:291-317 | the rows for one appointment's timings, each sent as `Reminders.WorkerSendsAsSet` says |
| Reminders.ReminderWorker.SendDue | app/appointment_reminders/service.py:256-321 | the rows of one worker run |
| Telephony.NeverDialsItself | app/communications/telephony.py:512-555 | no chain holds a number that routes into CoMaz, a repeat, a stranger's number, or more than three entries |
| Telephony.SavedPrimaryIsReached | app/communications/telephony.py:270-414 | right after an accepted configuration of any mode is saved, its primary destination leads the chain and its secondary follows; an existing-number configuration always has a primary |
| Telephony.CandidateExactlyWhen | app/communications/telephony.py:467-506 | exactly which numbers a business has to try, and their order |
| Telephony.NobodyIsPassedOver | app/communications/telephony.py:528-555 | a number that can be dialled is in the chain, or three before it are |
| Telephony.AcceptedExactlyWhen | app/communications/telephony.py:270-414 | a configuration is accepted, and stored so, exactly when its mode, numbers and destinations fit together and none comes back to CoMaz |
| Telephony.SavedIsDialable | app/communications/telephony.py:363-378 | a validated destination passes the dial-time check after the save |
| Telephony.AttemptsAreRecordedOnceExactlyWhen | app/communications/telephony.py:580-660 | over any webhooks an attempt has one row and a finished one is final, exactly unless two deliveries collide between reading and writing |
| Telephony.CollisionNeedsRace | app/communications/telephony.py:580-660 | a webhook collides only with another that writes about the same attempt or row between its read and its write |
| Telephony.SimultaneousDeliveriesRecordTwice | app/communications/telephony.py:580-610 | one webhook delivered twice at once gives the attempt two rows |
| Telephony.UndisturbedWebhook | app/communications/telephony.py:580-660 | a webhook that is not interrupted records, finishes or closes as specified |
| Telephony.RecordedExactlyWhen | app/communications/telephony.py:580-610 | an attempt gets its ringing row unless it has one |
| Telephony.ReportEndsTheNewest | app/communications/telephony.py:613-643 | a report ends the newest ringing attempt of its call with the status it brings, and no other |
| Telephony.RepeatedReportHarmlessExactlyWhen | app/communications/telephony.py:613-643 | a repeated report changes nothing exactly when it is no final status or no second matching attempt was ringing; a report without a call id matches nothing |
| Telephony.RepeatEndsTheNextAttempt | app/communications/telephony.py:613-643 | two ringing attempts, one "busy" reported twice without an index: both end |
| Telephony.IndexedReportIsIdempotent | app/communications/telephony.py:613-643 | a repeated report with its index changes nothing |
| Telephony.ClosedCallsDoNotLoop | app/communications/telephony.py:646-684 | once a call has ended, only transfers of other calls make a new call suspect |
| Telephony.Switchboard.Configure | app/communications/provisioning/service.py:510-530 | an accepted configuration is stored, a refused one changes nothing |
| Telephony.Switchboard.Walk | app/communications/telephony.py:528-555 | the loop with its seen set and early stop gives the first three dialable entries without repeats |
| Telephony.Switchboard.HumanDestinations | app/communications/telephony.py:467-555 | the chain of a business, its menu and the chosen option |
| VehicleDetails.AsksWhatWasWantedExactlyWhen | app/booking_flow/vehicle_details.py:106-162 | the flow ends up asking exactly what was wanted, unless a new field lands in a switched-off section |
| VehicleDetails.MakeAndModelNeedRegistrationExactlyWhen | app/booking_flow/vehicle_details.py:106-120 | make or model are only asked with the registration, exactly unless a new registration lands in a switched-off section while an older detail is still asked |
| VehicleDetails.LeftOutIsKeptExactlyWhen | app/booking_flow/vehicle_details.py:106-155 | a detail left out keeps its field, and is asked as before, exactly when it had none or its section is on; otherwise the field is deleted |
| VehicleDetails.UnrelatedFieldsStay | app/booking_flow/vehicle_details.py:130-155 | any other field stays as it is |
| VehicleDetails.SectionsStayFilled | app/booking_flow/vehicle_details.py:156-162 | services' own sections are untouched and no section is left emptied |
| VehicleDetails.SavingTwiceIsSavingOnceExactlyWhen | app/booking_flow/vehicle_details.py:106-162 | saving the same choice again changes nothing exactly unless the first save added a field to a switched-off section |
| VehicleDetails.OneSaveBreaksThePromises | app/booking_flow/vehicle_details.py:81-162 | a workflow and a change that deletes a left-out detail, hides the registration, asks the model without it, and does more when saved again |
| VehicleDetails.SecondSaveAlwaysAsks | app/booking_flow/vehicle_details.py:106-162 | even where a first save hid a field, saving the same choice once more makes the flow ask exactly what was wanted |
| VehicleDetails.AgentAsksWhatTheSwitchShows | app/booking_flow/vehicle_details.py:186-197 | what the phone agent must ask is what the switch shows, for services on the default workflow |
| VehicleDetails.RequirementsFor | app/booking_flow/vehicle_details.py:186-197 | required wins over optional over not asked |
| VehicleDetails.Switch.Find | app/booking_flow/vehicle_details.py:58-78 | the default workflow's field for the detail |
| VehicleDetails.Switch.CurrentlyAsked | app/booking_flow/vehicle_details.py:81-103 | what the screen shows for the detail |
| VehicleDetails.Switch.VehicleSection | app/booking_flow/vehicle_details.py:165-183 | the section of the first vehicle field, else a new first section |
| VehicleDetails.Switch.SaveOne | app/booking_flow/vehicle_details.py:131-155 | one detail added, adjusted or deleted |
| VehicleDetails.Switch.DropEmptied | app/booking_flow/vehicle_details.py:156-161 | touched sections without fields are deleted |
| VehicleDetails.Switch.SaveAll | app/booking_flow/vehicle_details.py:122-162 | all three details, then the emptied sections |
| VehicleDetails.Switch.Save | app/booking_flow/vehicle_details.py:106-162 | an incoherent wish is refused and changes nothing |
| Pricing.StoredCostIsTheSum | app/ai_voice/pricing.py:142-187 | the stored cost is not negative and within half a millionth of the exact sum over the responses when none reports more cached than input tokens |
| Pricing.PricedOnceIsNoMore | app/ai_voice/telemetry.py:101-131 | pricing the totals never costs more than pricing the responses |
| Pricing.PricedOnceIsExactlyWhen | app/ai_voice/pricing.py:173-187 | it costs the same exactly when no response reports more cached than input tokens, or none fewer |
| Pricing.MixedCallIsPricedLower | app/ai_voice/pricing.py:173-187 | two responses whose totals cost less than they do |
| Pricing.RoundingError | app/ai_voice/pricing.py:142-147 | rounding moves an amount by half a millionth at most |
| Pricing.OneMoreToken | app/ai_voice/pricing.py:173-187 | each further answer, heard or cached token is priced at its own rate |
| Pricing.PriceList | app/ai_voice/pricing.py:83-195 | the amounts of the price list for every model and for a minute of line |
| Pricing.CallMetrics.RecordUsage | app/ai_voice/telemetry.py:101-131 | the row's totals stay those of every response recorded |
| Pricing.CallMetrics.FinishCall | app/ai_voice/telemetry.py:134-194 | the cost is that of all responses together; an unpriced call keeps its figures |

## Left out

- Copies of settings, services and employees: each transaction's event carries the settings it sees, which for auto-accept may be those it read first.
- Payments: which requests have a paid deposit, and the slot check of a late payment, are not modelled; a paid deposit putting its request back to PENDING is one event that may come at any time.
- A step handler that commits in mid-turn makes the session row be read again; the turn keeps the copy of its status test. Two messages on one line at once are not modelled.
- A pasted time whose instant leaves the calendar aborts the whole paste with an exception; the diary import counts it as an invalid row.
- Other writers of appointments: bulk import only warns about clashes and walk-in check-in makes its own rows; neither is part of the scheduling runs.
- Customer, vehicle and discount checks of the staff forms are one flag; the add-on catalogue's rules are taken as already applied.
- Opening hours and the booking window inside the slot check are one flag; time zones that change their clock at midnight are outside the capacity theorem.
- Rows of one business: the booking race and the phone call see only that business's requests.
- Customers, notes, reviews, emails, events, loyalty and redemption written beside each transaction.
- Free text: regular expressions, phone-number rules, case folding and the HH:MM parser are inputs or abstract functions; names and emails are their folded forms.
- Reading the words of a time window or an exact time ("around 3", "half past ten"): easy arithmetic over match groups.
- The conversation's workflows: each step handler's result is an input of the turn.
- Two fields bound to one vehicle detail in the default workflow: nothing modelled here makes them, and which one counts as first is not modelled.
- Search, paging and limits of the inbox and the message view; call transcripts.
- Reminder bodies and providers: a delivery's outcome is an input; a provider error that aborts the whole run is not modelled.
- Per-second rates are exact fractions, not 28-digit decimals; reconciling a cost with a provider's own figure only overwrites fields.
- Importing capacity and opening-hours warnings: one flag a row; the report does not tell an earlier row's customer from an existing one.
- Add-ons of imported services, group descriptions, and the field parsing of both imports.
- The review context of pending requests and the suggestions beside them: read-only conveniences.
- Capacity.NeverOverCapacityExactlyWhen: does not cover a settings change that moves or lengthens existing reservations (another timezone, a longer service with requests waiting), because that overfills a diary without any booking; lowering the capacity is covered by Capacity.NeverOverTheMostBaysExactlyWhen.
- The public web form's own repeat handling: attempt ids, matching an identical active request, discount codes, and deposit recovery.
- HTTP, authentication, templates, seeding, configuration, logging, storage and calendar feeds.
