# EventPro: verified models of its protocols and state machines

EventPro is an event-booking backend: a chatbot or a manager prices a quote, an advance is paid, an event is
reserved, a contract is signed with a one-time password, messages go out over WhatsApp, and the event is run,
extended and settled. Its difficult parts are protocols between transactions, gateways and people. This project
models those parts in Dafny and proves what they keep in every run.

`dafny verify dfyconfig.toml` checks everything.

## How the models are built

- A value that the program treats as a record is a datatype; what an operation does to it is a function that
  returns the new value or the error, with the guards in the order of the code.
- A component that changes its state in place is a class with the same fields. Each of its methods runs the same
  statements and is proved equal to that function, errors included, so the theorems about the functions are
  theorems about the methods.
- A protocol is a transition system: states, steps that can happen in any order, and runs of any length. Its
  theorems hold for every run. Steps are one transaction or one gateway call each.
- Instants are integer seconds, days and minutes are integers, money is integer cents. Hashes are the records they
  hash, link tokens stand for their digests, and a new token or id is one that was not used before.
- Clocks, gateways, the language model, rendering and the answers of other services are arguments of a step.

## The modules

- **Outbox** (`OutboxMessages`, `OutboxDispatch`, `DeliveryNotices`, `OutboxDelivery`, `OutboxGuarantees`,
  `OutboxRetries`). Rows of outgoing messages; one worker's cycle of claim, send and save; delivery notices; and runs
  with any number of workers that claim under an expiring lease, crash, save late or not at all, while operators
  requeue rows, links are rotated and notices arrive in any order.
- **Contract signing** (`Contracts`, `Signing`, `SigningLimits`, `SigningConditions`, `ContractRegistry`). The
  contract aggregate with its link, OTP, attempts and request limits; every run on one contract, exactly what its
  limits allow and exactly when each operation succeeds; every run over all contracts of all events.
- **Conversations** (`Conversations`). Takeover and release of a conversation, split at every transaction and gateway
  call, interleaved freely.
- **Calendar, inventory and crews** (`TimeWindows`, `AvailabilityServices`, `ExtensionAvailability`, `InventoryRuns`,
  `CalendarRuns`). Half-open windows, the availability query, the check of an extension, and the pointwise guarantees
  that its overlap-based rules add up to.
- **Money** (`Pricing`, `EventMoney`, `ManualBooking`, `ManualBookingRuns`, `ManualBookingOutcomes`). Rounding,
  mobility, liquidation and overrides; the ledger of an event's extensions; and the quote, payment, event and contract
  of a manual booking.
- **Bot** (`BotMenu`, `BotEngine`, `BotRuns`, `BotAnswers`, `BotObservations`, `AgentHistory`, `AgentTurns`,
  `SessionStorage`). The menu machine with its rollback, and the agent's history, tool loop and stored form.
- `Common` holds options, results and the states of an event.

Delivery over the outbox is at-least-once, as the program says: a worker that outlives its lease makes the gateway
accept the same message twice (`OutboxGuarantees.AnExpiredLeaseDuplicates`). Runs that resolve every claim within
some number of seconds accept each message at most once if and only if that number is within the lease
(`OutboxGuarantees.AtMostOnceExactlyWithinTheLease`).

## What turned out different from what the code, its messages or its documentation suggest

Each is shown by a run and delimited by the condition under which the promise does hold.

- **Releases.** A release that fails is said to change nothing. A gateway that reports its error after applying the
  release, or a last transaction that fails after it, leaves the conversation assigned, with the bot and nothing in
  flight (`Conversations.ALateErrorStrands`, `Conversations.AFailedFinalReleaseStrands`); so does a takeover whose
  reopening and compensation both fail (`Conversations.AFailedCompensationStrands`). With one flow per user these
  steps are the only ones: a run stays consistent if and only if it has none of them
  (`Conversations.AssignedConversationsStayOpen`).
- **Overlapping releases.** Two overlapping releases by one user, with another user's takeover between them, leave a
  conversation assigned and handed to the bot (`Conversations.OverlappingReleasesBreakConsistency`). The step that
  does it is harmful exactly when the assignment has moved to a user with nothing in flight
  (`Conversations.StaleReleaseBreaksConsistency`); with any number of flows per user it is enough that releases act
  only on their own assignment (`Conversations.OwnedReleasesKeepConsistency`).
- **OTP requests.** The limit announces three requests every ten minutes. The counters restart with each window, so a
  run has five (`SigningLimits.FiveInTenMinutesHappen`), which is the bound that holds
  (`Signing.RequestsAndGuessesAreLimited`). The request times of runs are exactly those the counters describe
  (`SigningLimits.TheLimitsAreExact`); they keep to what is announced if and only if every request comes ten minutes
  or more after the one three before it (`SigningLimits.AnnouncedExactlyWhenFourthsAreLate`). A minimum spacing makes
  every run do so if and only if it is at least two hundred seconds; the program asks for sixty
  (`SigningLimits.ThreeExactlyFromTwoHundredSeconds`, with a run for every smaller spacing in
  `SigningLimits.TightSpacingBreaksTheAnnouncement`). Three does hold for every ten minutes that start with the
  opener of a window (`Signing.ThreeFromAnOpener`).
- **Long shows.** A show of more than a day is not rebuilt from its stored start and end times, so it escapes the
  simultaneity threshold: every run of packages up to a given length respects it if and only if that length is at
  most a day (`CalendarRuns.ThresholdHoldsExactlyUpToADay`, `TimeWindows.RebuiltExactlyUnderADay`).
- **Stock changes.** Lowering a stock is said to respect future reservations. Its guard compares reservations, kept in
  local time, with UTC, and takes no lock: while that clock is ahead, stock in use can be taken away
  (`InventoryRuns.AClockAheadOversells`), and so can stock booked between the guard and the write
  (`InventoryRuns.ABookingInBetweenOversells`). Every run keeps each item within its stock if and only if stock changes
  take the lock of bookings and extensions and the guard's clock is not ahead (`InventoryRuns.NeverOversoldExactlyWhen`).
- **Observations.** When the quote attempted on the turn of the observations is rejected for lack of availability, the
  rollback forgets the text and the quote created for the alternative carries none, whatever the client wrote
  (`BotObservations.ObservationsGetLost`). The first quote of a conversation carries observations if and only if it is
  created on the very turn they are given (`BotRuns.ObservationsKeptExactlyOnTheirTurn`).
- **Long turns of the agent.** Trimming happens inside a turn too. A request to the model is empty if and only if the
  messages and results of the replies so far leave no room for what the client wrote, and otherwise holds it
  (`AgentHistory.RequestsHoldTheClientExactlyWithRoom`): thirty-nine calls in one reply are too many
  (`AgentHistory.ThirtyNineCallsEmptyTheRequest`), eight in each never are
  (`AgentHistory.EveryRequestHoldsTheClient`).

## Model

| member | source | states |
|---|---|---|
| OutboxMessages.TransitionsKeepWellFormed | app/domain/entities/outbox_message.py:110-277 | Every transition that succeeds keeps a row's invariant: sent exactly with its external id, attempts below the maximum until it fails, delivery fields only once sent and in step with the delivery status. |
| OutboxMessages.OfferedRetriesSucceed | app/domain/entities/outbox_message.py:238-277 | A message is shown as retryable if and only if retrying it succeeds; the retry queues the same content afresh and remembers the id of a sent one. |
| OutboxMessages.ErrorsAreClipped | app/domain/entities/outbox_message.py:47-50 | An error is kept stripped of the blanks at its ends and up to 500 characters, and an empty one is named unknown. |
| OutboxMessages.NoticeRaisesToTheJoin | app/domain/entities/outbox_message.py:207-236 | One delivery notice raises the status to the join in none < FAILED < DELIVERED < READ, and is ignored exactly when the row already knows as much, a repeated failure excepted. |
| OutboxMessages.JoinAllIsTheGreatest | app/domain/entities/outbox_message.py:215-236 | The join of any history of notices is the greatest notice in it. |
| OutboxMessages.JoinAllDependsOnTheSetOnly | app/domain/entities/outbox_message.py:215-236 | Two histories with the same notices, whatever their order and repetitions, give the same delivery status. |
| OutboxMessages.OutboxMessage.RunMarkSent | app/domain/entities/outbox_message.py:166-182 | Marking in place as sent: pending rows only, an id of 1 to 64 characters that is not blank, content dropped when it must be redacted; nothing changes on an error. |
| OutboxMessages.OutboxMessage.RunRegisterFailure | app/domain/entities/outbox_message.py:184-205 | Registering a failure in place: one more attempt, failed for good when permanent or out of attempts, otherwise due again after the schedule's delay. |
| OutboxMessages.OutboxMessage.RunRecordDelivery | app/domain/entities/outbox_message.py:207-236 | The notice applied in place, and whether it changed the row. |
| OutboxMessages.OutboxMessage.RunRetry | app/domain/entities/outbox_message.py:245-277 | Requeueing in place: only a failed send or delivery whose content is kept; the last external id is remembered and an earlier one is not overwritten by a retry that never got one. |
| OutboxDispatch.OutboxRepository.ClaimDue | app/infrastructure/adapters/secondary/persistence/repositories/sqlalchemy_outbox_repository.py:123-142 | Claiming stamps exactly the picked due rows with the lease and returns copies of them. |
| OutboxDispatch.OutboxRepository.Dispatch | app/application/use_cases/messaging/dispatch_due_messages.py:132-192 | One message: a missing or resolved row discards the result, an unsavable receipt changes nothing, and any other result is saved on that row only. |
| OutboxDispatch.OutboxRepository.Execute | app/application/use_cases/messaging/dispatch_due_messages.py:102-130 | A cycle without other writers gives every claimed row the result of its own send, saved at its own instant, and its summary counts those results. |
| OutboxDispatch.SummaryAddsUp | app/application/use_cases/messaging/dispatch_due_messages.py:123-130 | Every claimed message is counted under exactly one outcome, and each count is of its own outcome. |
| OutboxDispatch.OutcomesTellWhatWasSaved | app/application/use_cases/messaging/dispatch_due_messages.py:132-192 | The outcome of a message tells exactly what became of its row; one whose receipt cannot be stored, or that was resolved meanwhile, leaves the row alone, and a copy without content fails it for good. |
| DeliveryNotices.NoticeDesk.Record | app/application/use_cases/messaging/record_delivery_status.py:16-42 | The notice changes the one row that holds the id now, as recording a delivery says; an unknown id changes nothing. |
| DeliveryNotices.NoticeDesk.Process | app/application/use_cases/messaging/process_gateway_event.py:334-392 | Routing: unknown ids change nothing, nor do notices whose status nobody knows, which are exactly those without one that the gateway does not complete; otherwise exactly the holder of the id is raised to the join, errors are kept with failures only, and the outcome tells whether it changed. |
| DeliveryNotices.NoticesAreCompleted | app/application/use_cases/messaging/process_gateway_event.py:346-360 | A notice counts with its own status and error; only one that could not carry a status takes the gateway's, its own error first, and an error stays only with a failure. |
| OutboxDelivery.EveryRunKeepsInv | app/application/use_cases/messaging/dispatch_due_messages.py:102-171 | The invariant of rows, workers and issued ids holds after any run of claims, sends, saves, crashes, requeues, rotations and notices. |
| OutboxGuarantees.NothingStrandedNothingInvented | app/domain/entities/outbox_message.py:166-205 | In every run a pending row has attempts left and is due within the lease or the longest delay; a row is sent exactly when it holds an external id, and the gateway returned that id for that row and no other. |
| OutboxGuarantees.DefensiveBranchesNeverRun | app/application/use_cases/messaging/dispatch_due_messages.py:135-143 | A row being dispatched never vanishes, an id is held by at most one row, and a notice that finds a row finds it sent. |
| OutboxGuarantees.FailuresAreBounded | app/domain/entities/outbox_message.py:184-205 | Between operator retries the failure saves of a row never exceed its attempts left, reaching them fails the row, and a resolved row keeps its status. |
| OutboxRetries.RetriesFollowTheSchedule | app/domain/value_objects/outbox.py:49-57 | In every run the nth failure since a row was queued fails it for good if and only if it is permanent or the attempts are used up; otherwise the row waits exactly the nth delay of the schedule, or the last one beyond its end, its content and the error kept. |
| OutboxRetries.ContentIsNeverRewritten | app/domain/entities/outbox_message.py:166-205 | In every run the content of a row is the one it was queued with until it goes for good, and whether it is to be redacted never changes. |
| OutboxRetries.SentRowsAreRedactedAsAsked | app/domain/entities/outbox_message.py:166-182 | In every run a pending row has its content, and a sent row has it if and only if it was not to be redacted. |
| OutboxRetries.InvalidatedMessagesAreGone | app/infrastructure/adapters/secondary/persistence/repositories/sqlalchemy_contract_repository.py:181-190 | In every run a message queued for a link that is rotated or voided fails at once without its content and is never sent or queued again. |
| OutboxGuarantees.DeliveryIsTheJoinOfItsNotices | app/application/use_cases/messaging/record_delivery_status.py:30-42 | In every run the delivery status is the join of the notices for the current id, whatever their order; the row keeps the last accepted id and, while sent, the one before it. |
| OutboxGuarantees.NoticesReachOnlyTheCurrentId | app/application/use_cases/messaging/record_delivery_status.py:30-42 | A notice for an id superseded by a retry changes nothing; one for the current id changes that row only. |
| OutboxGuarantees.AtMostOneAcceptancePerGeneration | app/application/use_cases/messaging/dispatch_due_messages.py:102-171 | With results saved within the lease and no accepted result lost, for any number of workers: two workers never dispatch the same row and each queueing generation is accepted at most once. |
| OutboxGuarantees.AnExpiredLeaseDuplicates | app/application/use_cases/messaging/dispatch_due_messages.py:136-143 | For every lease and every longer limit on resolving a claim, a run within that limit has one generation accepted twice. |
| OutboxGuarantees.AtMostOnceExactlyWithinTheLease | app/application/use_cases/messaging/dispatch_due_messages.py:102-171 | All runs that resolve each claim within a number of seconds and lose no accepted result accept every generation at most once if and only if that number is within the lease. |
| Contracts.ContractRecord.RunIssue | app/domain/entities/contract.py:69-74 | Issuing in place: only drafts and issued contracts, with a document. |
| Contracts.ContractRecord.RunReplaceLink | app/domain/entities/contract.py:76-85 | Rotating the link in place: only issued contracts; the OTP and its attempts are reset and the request limits are not. |
| Contracts.ContractRecord.RunVoid | app/domain/entities/contract.py:87-101 | Voiding in place: needs a reason, refused when voided, when signed unless the event is cancelled, and once the event is under way; the link and the OTP go. |
| Contracts.ContractRecord.RunRequestOtp | app/application/use_cases/contract/sign_contract.py:90-128 | Requesting an OTP in place: the link must resolve, sixty seconds must have passed and the window must admit it; attempts restart and the hash binds contract, link, instant, count and code. |
| Contracts.ContractRecord.RunVerifyOtp | app/application/use_cases/contract/sign_contract.py:130-166 | Checking a code in place: a wrong one takes an attempt and the last attempt drops the OTP; a right one changes nothing and yields the proof. |
| Contracts.ContractRecord.RunSign | app/application/use_cases/contract/sign_contract.py:168-257 | Signing in place: link, proof, OTP expiry, advance, document and seal in that order; on success the link and the OTP are gone. |
| Contracts.HashesTellRequestsApart | app/application/use_cases/contract/sign_contract.py:83-88 | The hash of a code is of no other contract, link, request or code. |
| Signing.SignedOnlyWithTheLatestOtp | app/application/use_cases/contract/sign_contract.py:83-207 | In every run a contract is signed only with a proof handed out after the latest OTP request, for its code and on the link being used, with nothing since that rotated, voided or exhausted it, and with neither expired. |
| Signing.EarlierProofsAreUseless | app/application/use_cases/contract/sign_contract.py:168-207 | Any later rotation, request, exhaustion, voiding or expiry of the OTP makes every earlier proof fail. |
| SigningConditions.RequestsExactlyWhen | app/application/use_cases/contract/sign_contract.py:50-116 | In every run a code is sent if and only if the link is the one in force and has not expired, the event waits for its signature and the limits on requests admit another; otherwise the first of these that fails is the error. |
| SigningConditions.VerifiesExactlyWhen | app/application/use_cases/contract/sign_contract.py:130-166 | In every run a code is accepted if and only if the link opens and it is the one of the OTP in force, not expired; any other takes an attempt, and exactly as many wrong codes as there are attempts exhaust it. |
| SigningConditions.SignsExactlyWhen | app/application/use_cases/contract/sign_contract.py:168-257 | In every run a contract is signed if and only if the link opens, the proof was handed out for the OTP in force, neither has expired, the advance is paid and the document is sealed; otherwise the first that fails is the error. |
| SigningConditions.VoidsExactlyWhen | app/domain/entities/contract.py:87-101 | In every run a contract is voided if and only if there is a reason, it was not voided before, its event is not under way and, once signed, the event is cancelled. |
| SigningConditions.LinksArePublishedExactlyWhen | app/application/use_cases/contract/manage_contracts.py:65-141 | In every run a link is published if and only if the contract is neither signed nor voided, has or gets its document and its advance is paid; only link, expiry, OTP and document change. |
| Signing.NextOpener | app/application/use_cases/contract/sign_contract.py:97-116 | After a request, the next window opens within the requests its own still admits, and a whole window later than its own opened. |
| Signing.SixRequestsTakeTenMinutes | app/application/use_cases/contract/sign_contract.py:97-116 | Six consecutive successful requests span at least ten minutes. |
| Signing.RequestsAndGuessesAreLimited | app/application/use_cases/contract/sign_contract.py:90-151 | In every run successful requests are a minute apart, any half-open ten minutes hold at most five of them whatever links were rotated, and wrong codes never exceed the attempts of all requests together. |
| SigningLimits.TheLimitsAreExact | app/application/use_cases/contract/sign_contract.py:90-128 | The times at which some run's requests succeed are exactly those spaced by a minute with at most three to each window. |
| SigningLimits.AnnouncedExactlyWhenFourthsAreLate | app/application/use_cases/contract/sign_contract.py:97-116 | Among such times, no ten minutes hold more than three requests if and only if each comes at least ten minutes after the one three before it. |
| SigningLimits.TightSpacingBreaksTheAnnouncement | app/application/use_cases/contract/sign_contract.py:97-116 | For every spacing below two hundred seconds, a run spaces its requests by it and has more than three in some ten minutes. |
| SigningLimits.ThreeExactlyFromTwoHundredSeconds | app/application/use_cases/contract/sign_contract.py:97-116 | All runs that space their requests by so many seconds keep to three every ten minutes if and only if that spacing is at least two hundred seconds. |
| SigningLimits.FiveInTenMinutesHappen | app/application/use_cases/contract/sign_contract.py:97-116 | A run has five requests granted within ten minutes, so five is the exact bound. |
| Signing.ThreeFromAnOpener | app/application/use_cases/contract/sign_contract.py:97-116 | Any ten minutes that start with the request opening a window hold at most three. |
| ContractRegistry.OneActiveContractOneLiveLink | app/application/use_cases/contract/manage_contracts.py:82-184 | In every run an event has at most one contract that is not voided, a live token sits on an issued contract only, and only the newest token of an event resolves, to one contract. |
| ContractRegistry.VoidedIsFinalAndSignedIsKept | app/domain/entities/contract.py:65-101 | In every run a voided contract never changes again and a signed one is left only by voiding it after the event was cancelled, its evidence kept. |
| ContractRegistry.IssuingPublishesOneContract | app/application/use_cases/contract/manage_contracts.py:82-132 | In every run issuing for an event publishes a new link on its one contract if and only if the advance is covered and the contract is neither signed nor already published; otherwise nothing changes. |
| ContractRegistry.SigningSchedulesTheEvent | app/application/use_cases/contract/sign_contract.py:208-257 | In every run a signature signs the one contract that holds the link, schedules its event and touches no other. |
| ContractRegistry.TokensReachTheirHolder | app/application/use_cases/contract/sign_contract.py:50-76 | In every run a token reaches exactly the contract that holds it, which alone changes; one that nobody holds changes nothing. |
| ContractRegistry.ManagementActsOnItsContract | app/application/use_cases/contract/manage_contracts.py:134-184 | In every run resending, regenerating and voiding go ahead exactly when they may, with their effect on that contract alone. |
| Conversations.PeersNeverLoseTheirConversation | app/application/use_cases/messaging/conversation_assignment.py:96-227 | In any run at all, no step of a flow that is not a SUPERADMIN's changes an assignment held by someone else or hands it to anyone but its own user. |
| Conversations.AssignedConversationsStayOpen | app/application/use_cases/messaging/conversation_assignment.py:96-227 | With one flow in flight per user and no SUPERADMIN, however calls fail, every interleaving keeps the conversation open whenever the assigned user has no flow in flight, if and only if no step strands it: a release reported late as failed, or a last or compensating transaction that fails while it is closed. |
| Conversations.ALateErrorStrands | app/application/use_cases/messaging/conversation_assignment.py:189-198 | A run of a takeover and a release whose gateway call is applied and then reported as failed ends assigned, with the bot and nothing in flight. |
| Conversations.AFailedFinalReleaseStrands | app/application/use_cases/messaging/conversation_assignment.py:196-225 | So does a run whose release fails in its last transaction, after the gateway call. |
| Conversations.AFailedCompensationStrands | app/application/use_cases/messaging/conversation_assignment.py:134-157 | A takeover whose reopening fails and whose compensation fails leaves the user assigned to a conversation with the bot. |
| Conversations.OwnedReleasesKeepConsistency | app/application/use_cases/messaging/conversation_assignment.py:96-227 | With any number of flows per user and no SUPERADMIN, a run without stranding steps whose releases set the bot status only while nobody else is assigned stays consistent throughout. |
| Conversations.StaleReleaseBreaksConsistency | app/application/use_cases/messaging/conversation_assignment.py:189-198 | Setting the bot status for a release keeps a consistent conversation consistent if and only if nobody is assigned or the assigned user has a flow in flight. |
| Conversations.OverlappingReleasesBreakConsistency | app/application/use_cases/messaging/conversation_assignment.py:180-198 | Two overlapping releases of one user around another user's takeover reach an assigned conversation that is with the bot, with no failure and nothing in flight. |
| Conversations.TakeoverOutcome | app/application/use_cases/messaging/conversation_assignment.py:96-157 | A takeover on its own, however its calls fail: refused, it changes nothing; reopened, it ends assigned and open; otherwise the assignment goes back unless the compensation fails too, and only then can the user be left with a closed conversation. |
| Conversations.ReleaseOutcome | app/application/use_cases/messaging/conversation_assignment.py:183-227 | A release on its own, however its calls fail: it hands an open conversation over and frees it, or changes nothing, except that it closes it without freeing it exactly when the gateway reports its error late or the last transaction fails. |
| Conversations.CallsTouchTheirOwn | app/application/use_cases/messaging/conversation_assignment.py:96-227 | Only the gateway calls of a flow move the remote status, and not when they fail outright; only its transactions move the assignment, and not when they fail. |
| Conversations.AssignmentDesk.Takeover | app/application/use_cases/messaging/conversation_assignment.py:96-157 | The takeover run in place has exactly the effect of its steps taken in a row, and each answer is given exactly in its case: applied, already there, taken by another, unavailable. |
| Conversations.AssignmentDesk.Release | app/application/use_cases/messaging/conversation_assignment.py:183-227 | The release run in place has exactly the effect of its steps taken in a row, and each answer is given exactly in its case; success leaves the conversation free and with the bot. |
| TimeWindows.OverlapMeansSharedInstant | app/domain/value_objects/time_window.py:62-65 | Two windows overlap if and only if they share an instant. |
| TimeWindows.RebuiltExactlyUnderADay | app/domain/entities/event.py:186-193 | The window rebuilt from the stored day, start and end is the one sold if and only if the show lasts less than a day, midnight crossings included; a longer one loses its whole days, and whole days cannot be rebuilt at all. |
| AvailabilityServices.CoveringAtMostOverlapping | app/domain/services/concurrency_evaluator.py:32-49 | At any instant of a candidate window, no more shows are on than the windows the rule counts. |
| AvailabilityServices.CountsThoseThatShareAnInstant | app/domain/services/concurrency_evaluator.py:32-49 | The rule counts the candidate and exactly the windows that share an instant with it. |
| AvailabilityServices.OnlySharedInstantsTakeStock | app/domain/services/inventory_availability.py:64-77 | A reservation anywhere among others takes exactly its units from its item over windows it shares an instant with, and nothing from any other item or window. |
| AvailabilityServices.FeasibleExactlyWithTheInterval | app/domain/services/travel_interval_service.py:31-72 | A crew may take both shows if and only if the seconds between them cover the interval asked for, or else the travel and thirty minutes of rest. |
| AvailabilityServices.ShortagesAreWhatIsMissing | app/infrastructure/adapters/secondary/availability/availability_adapter.py:88-126 | The shortages are, in order, exactly the requirements that want more than the reservations sharing an instant leave free, each with what is free. |
| AvailabilityServices.ReservedAtWithinWindow | app/domain/services/inventory_availability.py:64-77 | The quantity reserved over a window bounds what is reserved at each of its instants. |
| AvailabilityServices.NoShortageMeansAllCovered | app/infrastructure/adapters/secondary/availability/availability_adapter.py:88-126 | There is no shortage if and only if every requirement is covered by the free stock of its window. |
| AvailabilityServices.CheckAvailability | app/infrastructure/adapters/secondary/availability/availability_adapter.py:64-126 | The query's loop lists the shortages in order; it answers conflict if and only if some requirement wants more than what reservations sharing an instant leave free, and asks for approval if and only if none does and the shows sharing an instant exceed the threshold. |
| ExtensionAvailability.EveryCrewIsChecked | app/application/services/event_extension_availability.py:19-40 | The loop over crews finds no conflict if and only if no crew has one. |
| ExtensionAvailability.CrewCheckDecidesTheSchedule | app/application/services/event_extension_availability.py:19-40 | Looking at overlaps and at the nearest following show is enough: the check passes if and only if the crew's whole schedule stays disjoint and spaced and that show has a usable interval. |
| ExtensionAvailability.AcceptedExtensionKeepsEverySchedule | app/application/services/event_extension_availability.py:9-40 | An accepted extension keeps every crew's shows disjoint, each consecutive gap at least the later show's interval. |
| ExtensionAvailability.ExtendsExactlyWhen | app/application/services/event_extension_availability.py:9-40 | An extension is accepted if and only if the shows at its instants are within the threshold, each item is stocked and no crew is in conflict; the first that fails, in that order, is reported. |
| ExtensionAvailability.CrewsAreRefusedFor | app/application/services/event_extension_availability.py:19-40 | A crew is in conflict for being elsewhere at some instant, for a nearest following show without an interval, or for fewer seconds than that interval before it, each exactly in its case. |
| InventoryRuns.BookNeverOversells | app/application/use_cases/quote/confirm_manual_booking.py:103-137 | A booking whose requirements pass keeps each item within its stock at every instant, approved overbookings included. |
| InventoryRuns.ExtendNeverOversells | app/infrastructure/adapters/secondary/persistence/repositories/sqlalchemy_event_occupancy.py:82-136 | An accepted extension keeps each item within its stock at every instant from now on, although each of its reservations is checked on its own. |
| InventoryRuns.BooksExactlyWhen | app/application/use_cases/quote/confirm_manual_booking.py:103-137 | In every run a package can be booked if and only if each of its items has room beside the reservations that share an instant with the window, whatever is reserved at other times. |
| InventoryRuns.ExtendsExactlyWhen | app/infrastructure/adapters/secondary/persistence/repositories/sqlalchemy_event_occupancy.py:82-136 | In every run an event can be extended if and only if each of its longer reservations has room beside all the others. |
| InventoryRuns.BookingHoldsThePackage | app/infrastructure/adapters/secondary/persistence/manual_booking_repository.py:310-438 | Booking holds for the event exactly the units of its package over its window, and an extension moves the end of exactly those. |
| InventoryRuns.CancellingUndoesBooking | app/infrastructure/adapters/secondary/persistence/manual_booking_repository.py:310-438 | Cancelling an event, extended or not, gives back exactly what booking it took. |
| InventoryRuns.TheGuardCountsWhatHasNotEnded | app/infrastructure/adapters/secondary/persistence/catalog_admin_repository.py:257-263 | The guard of a stock change counts exactly the units of the item in reservations whose end its clock has not reached. |
| InventoryRuns.EndedReservationsFreeTheStock | app/application/use_cases/catalog/manage_catalog.py:166-187 | Once all reservations of an item have ended for the guard's clock its stock can be taken away, by a change written once. |
| InventoryRuns.FutureReservedBounds | app/infrastructure/adapters/secondary/persistence/catalog_admin_repository.py:257-263 | What the guard of a stock change sums bounds what is reserved at any present or future instant. |
| InventoryRuns.InventoryIsNeverOversold | app/application/use_cases/catalog/manage_catalog.py:166-187 | Over every run in which no booking or extension comes between the guard of a stock change and its write, the active reservations of each item fit its stock at every instant neither clock has reached, so at every present or future one when the guard's clock is not ahead. |
| InventoryRuns.AClockAheadOversells | app/infrastructure/adapters/secondary/persistence/catalog_admin_repository.py:257-263 | With the guard's clock ahead by any amount, a run from an empty warehouse ends with a unit in use and no stock, although nothing comes between guard and write. |
| InventoryRuns.ABookingInBetweenOversells | app/application/use_cases/catalog/manage_catalog.py:174-187 | Whatever the guard's clock, a booking between the guard of a stock change and its write ends with a unit in use and no stock. |
| InventoryRuns.NeverOversoldExactlyWhen | app/application/use_cases/catalog/manage_catalog.py:166-187 | All runs keep each item within its stock at every present and future instant if and only if stock changes take the lock of bookings and extensions and the guard's clock is not ahead of the reservations'. |
| CalendarRuns.ThresholdHoldsAtEveryInstant | app/domain/services/concurrency_evaluator.py:32-49 | Over every run of admissions without overbooking approval of packages of at most a day, extensions and cancellations, at most the threshold of shows is on at any instant, as really sold, and each stored show rebuilds its window. |
| CalendarRuns.LongShowsEscapeTheThreshold | app/infrastructure/adapters/secondary/persistence/manual_booking_repository.py:324-341 | With packages longer than a day, a run from an empty calendar ends with more shows on at once than the threshold. |
| CalendarRuns.ThresholdHoldsExactlyUpToADay | app/domain/entities/event.py:181-193 | All runs of packages of at most a given length respect the threshold if and only if that length is at most a day. |
| CalendarRuns.AdmitsExactlyWhen | app/domain/services/concurrency_evaluator.py:32-49 | With packages of at most a day, in every run a show is admitted if and only if it does not last a whole day and, with the shows that share an instant with it, is within the threshold. |
| CalendarRuns.ExtendsExactlyWhen | app/application/services/event_extension_availability.py:9-18 | In those runs a show is extended if and only if its longer window, with the others that share an instant with it, is. |
| CalendarRuns.AdmittedShowsCountUntilCancelled | app/domain/services/concurrency_evaluator.py:32-49 | A show admitted counts at exactly the instants it was sold for, and one cancelled no more. |
| EventMoney.StartsExactlyWhenPaid | app/domain/entities/event.py:80-110 | An event starts if and only if it was not started, is scheduled or awaits its balance, and advance and verified balance cover its total; only balance, status and instant change. |
| EventMoney.ExtendsExactlyWhenItFits | app/domain/entities/event.py:131-158 | Once begun, an event can be extended by any positive time and amount if and only if its minutes, extra hours and total still fit where they are stored. |
| EventMoney.SettlesExactlyWhen | app/domain/entities/event.py:160-179 | An event under way settles if and only if the minutes are its extra minutes, the amount its extra hours that are not legacy, and what was paid covers its total; only the status changes. |
| EventMoney.EventsOnlyMoveForward | app/domain/entities/event.py:80-179 | An event not under way is neither extended nor settled and one that started does not start again, whatever else is wrong. |
| EventMoney.TotalsFollowTheLedger | app/domain/entities/event.py:131-158 | After any accepted extensions each total of a started event is its starting value plus the ledger. |
| EventMoney.SettlesExactlyOnItsLedger | app/domain/entities/event.py:160-204 | A started event owes nothing whatever is extended; it settles on its ledger's totals if and only if it started with no extra minutes and extra hours equal to the legacy amount, and then the snapshot's revenue covers the final total. |
| EventMoney.AcceptedExtensionContinues | app/domain/entities/event.py:131-158 | An accepted extension recorded in the ledger leaves an event for which the two rows above still hold. |
| EventMoney.EventAggregate.RunStart | app/domain/entities/event.py:80-110 | Starting in place: scheduled or awaiting balance, not started before, advance and verified balance covering the total; all guards before any change. |
| EventMoney.EventAggregate.RunExtend | app/domain/entities/event.py:131-158 | Extending in place: the three totals move by the same extension or nothing changes. |
| EventMoney.EventAggregate.RunSettle | app/domain/entities/event.py:160-179 | Settling in place: the ledger's amount and minutes must match exactly and the revenue must cover the total. |
| EventMoney.EventDesk.RegisterExtension | app/application/use_cases/event/register_event_extension.py:44-121 | The event and its ledger move together or not at all, only when the extended window passes the check of threshold, inventory and crews; success means both were saved; the evidence of every recorded payment is kept, an uncertain commit included, and removed when nothing was recorded. |
| EventMoney.EventDesk.SettleOnLedger | app/application/use_cases/event/settle_event.py:19-38 | Settlement uses the totals of the recorded ledger and records that revenue, or changes nothing. |
| ManualBooking.PaymentsMoveForward | app/domain/entities/payment.py:115-180 | Every transition of an advance moves it forward, except holding one for approval again: verified and rejected only out of review, with event and verifier or reason; refunded only from a pending refund, pending only from an advance held for approval. |
| ManualBooking.QuotesCloseForGood | app/domain/entities/quote.py:171-226 | No operation succeeds on a closed quote; a quote converts only from a started payment and expires only past its deadline, and nothing ever changes its advance. |
| ManualBooking.BookingDesk.Register | app/infrastructure/adapters/secondary/persistence/manual_booking_repository.py:214-308 | Registering a request stages its quote with payment started and its advance in review, or in need of approval when capacity is missing; the same reference again returns what is stored or is refused. |
| ManualBooking.BookingDesk.RunCreateBooked | app/application/use_cases/contract/create_manual_contract.py:51-206 | The direct contract: staged and finalised in one transaction when capacity is there under the lock, or nothing stays; repeated, it returns the existing booking. |
| ManualBooking.BookingDesk.RunConfirm | app/application/use_cases/quote/confirm_manual_booking.py:44-140 | Confirming in place has exactly the effect and the answer of the ordered guards, on that booking only. |
| ManualBooking.BookingDesk.RunRefund | app/infrastructure/adapters/secondary/persistence/manual_booking_repository.py:469-517 | Refunding in place: never with an event, idempotent, and an open quote is cancelled with it. |
| ManualBooking.BookingDesk.RunExpireDue | app/application/use_cases/quote/expire_due_quotes.py:10-21 | The loop expires exactly the due quotes whose payment is not in review when re-read, and counts them. |
| ManualBooking.ExpiringTouchesOnlyTheDue | app/application/use_cases/quote/expire_due_quotes.py:10-21 | Whatever is not due stays as it was, and each due quote ends as expiring it alone would leave it. |
| ManualBooking.BookingDesk.RunCancelQuote | app/application/use_cases/quote/cancel_quote.py:21-33 | Cancelling is refused for closed quotes and while a payment is in review. |
| ManualBookingRuns.EventQuoteAndAdvanceInStep | app/infrastructure/adapters/secondary/persistence/manual_booking_repository.py:214-517 | In every run: the event exists if and only if the quote is converted and if and only if the advance is verified; a refunded, refund-pending or rejected advance has neither event nor contract; the contract was rendered with the event's amounts; and a quote is never closed while its payment is in review. |
| ManualBookingRuns.WhatIsFinalStays | app/infrastructure/adapters/secondary/persistence/manual_booking_repository.py:310-517 | In every run a booking, with its quote and payment, stays as it is, a refund only moves on, and an advance given back or rejected never leads to an event later. |
| ManualBookingRuns.BookedAtMostOnce | app/application/use_cases/quote/confirm_manual_booking.py:69-73 | In every run a quote is booked at most once. |
| ManualBookingRuns.ConfirmingAgainChangesNothing | app/application/use_cases/quote/confirm_manual_booking.py:69-73 | In every run, confirming a booked quote changes nothing, and returns the booking if and only if its contract stands and any approval is documented. |
| ManualBookingRuns.ConfirmsExactlyWhen | app/application/use_cases/quote/confirm_manual_booking.py:53-140 | In every run, a confirmation books if and only if the preview still holds, the deadline and the show are ahead, the confirmer may act, and capacity is free or only the threshold is exceeded and approved. |
| ManualBookingOutcomes.RegistrationsStageTheirRequest | app/infrastructure/adapters/secondary/persistence/manual_booking_repository.py:214-308 | In every run a registration changes anything if and only if its reference is new, the receipt is of the advance, it is in time and nobody books the same; then it stages exactly that request. |
| ManualBookingOutcomes.DirectContractsBookOrLeaveNothing | app/application/use_cases/contract/create_manual_contract.py:51-206 | In every run a direct contract books at once if and only if its request can be staged, there is capacity and its document can be issued; otherwise nothing stays. |
| ManualBookingOutcomes.ConfirmationsBookOrHold | app/application/use_cases/quote/confirm_manual_booking.py:53-140 | In every run a confirmation books, holds the advance for approval, or changes nothing, each under its exact condition, and touches no other booking. |
| ManualBookingOutcomes.ConfirmationsAnswer | app/application/use_cases/quote/confirm_manual_booking.py:44-140 | In every run a confirmation answers with the booking as it then stands, or with the first reason against it, in a fixed order. |
| ManualBookingOutcomes.ConfirmsOnlyWhatWasPreviewed | app/application/use_cases/quote/confirm_manual_booking.py:74-80 | In every run, what is booked or held has the quote, advance, event and contract it had when it was previewed. |
| ManualBookingOutcomes.RefundsEndTheRequest | app/infrastructure/adapters/secondary/persistence/manual_booking_repository.py:469-517 | In every run a refund goes ahead if and only if it is documented, nothing is booked and the advance is held for approval or waits for its refund; it leaves the advance as asked and cancels an open quote with the reason, so that its request can be staged again. |
| ManualBookingOutcomes.ExpiriesFreeTheRequest | app/application/use_cases/quote/expire_due_quotes.py:10-21 | In every run a quote past its deadline expires if and only if its advance is not in review, and its request can be staged again. |
| ManualBookingOutcomes.CancellationsFreeTheRequest | app/application/use_cases/quote/cancel_quote.py:21-33 | In every run a quote is cancelled if and only if it is open and its advance is not in review, and its request can be staged again. |
| ManualBookingOutcomes.OverridesReplaceTheAmounts | app/domain/entities/quote.py:171-226 | In every run an override replaces the amounts if and only if the quote is open, there is a reason and the advance stays. |
| ManualBookingOutcomes.GeneralEndpointsOnlyCloseTheAdvance | app/domain/entities/payment.py:115-180 | In every run the general payment endpoints reject, give up or refund an advance exactly from the states that allow it, leave its quote alone and never verify it. |
| Pricing.HalfUp | app/domain/value_objects/money.py:22-27 | Rounding is to the nearest cent and a tie goes away from zero. |
| Pricing.MobilityIsCloseToTheFormula | app/domain/services/financial_engine.py:31-46 | The price of a route, rounded twice, is within a cent and half a cent per hundred per cent of margin of the documented formula: the rates per kilometre and minute, the minimum, the margin as a percentage. |
| Pricing.MobilityIsMonotone | app/domain/services/financial_engine.py:31-46 | A longer or slower route is never cheaper and none costs less than the minimum. |
| Pricing.EstimatesKeepTheOrder | app/domain/value_objects/mobility.py:55-72 | The order of two trips survives the quantisation of their distances: the longer and slower one is never cheaper. |
| Pricing.EstimatesAreQuantised | app/domain/value_objects/mobility.py:55-72 | An estimate is rejected if and only if distance or duration is negative, or the distance beyond what can be stored, once rounded; otherwise it is the nearest hundredth of a kilometre. |
| Pricing.ResolvedMobilityLiquidates | app/domain/services/financial_engine.py:60-79 | Exemption, route and contingency, in that order, all yield an amount a liquidation accepts: zero for a client who provides it, the price of the route near the formula and no less than the minimum, the amount of the zone. |
| Pricing.LiquidationsBalance | app/domain/services/financial_engine.py:81-109 | A liquidation is refused exactly for a package without price, a negative mobility or an invalid extra; its services are the package plus its extras, its mobility and total the ones asked for, advance and pending add up to the total, the balances to the pending, and the advance is the percentage of the services to the nearest cent. |
| Pricing.EachExtraCostsItsPrice | app/domain/services/financial_engine.py:98-100 | An extra adds exactly its unit price times its quantity, wherever it stands among the others. |
| Pricing.RunLiquidate | app/domain/services/financial_engine.py:81-109 | The loop over the extras computes that liquidation, or the error. |
| Pricing.OverridingReliquidates | app/application/use_cases/quote/override_mobility.py:30-55 | An override of a quote priced by the engine is a fresh liquidation with the new amount, and the guard on the advance trips if and only if the percentage in force rounds to another advance. |
| Pricing.OverridesExactlyWhen | app/application/use_cases/quote/override_mobility.py:30-55 | An override is accepted if and only if the quote is open, there is a reason, the amount does not round below zero and the percentage in force still gives the advance asked for. |
| Pricing.OverridesKeepTheAdvance | app/application/use_cases/quote/override_mobility.py:30-55 | Any sequence of overrides succeeds, leaves services, advance and the balance of services unchanged, ends with the mobility of the last amount rounded to cents, and moves total and pending by exactly the difference. |
| Pricing.PricedQuote.RunOverride | app/application/use_cases/quote/override_mobility.py:30-55 | The override in place: package price rebuilt from the stored lines, then the guards in order; nothing changes on an error. |
| BotMenu.PickMany | app/application/use_cases/bot/bot_input.py:61-74 | The loop returns the options picked by all parts, each once and in order, or nothing when some part picks none. |
| BotMenu.PicksAreThePickedOptions | app/application/use_cases/bot/bot_input.py:61-74 | The chosen options are distinct and are exactly those some part picks; there is a choice if and only if every part picks one. |
| BotAnswers.NumbersReadBack | app/application/use_cases/bot/bot_input.py:52-58 | A number written in digits reads as itself. |
| BotAnswers.PicksWhatWasWritten | app/application/use_cases/bot/bot_input.py:52-58 | What is picked is the option at the position written, counted from one, or else the first with the title written; nothing is picked if and only if there is none. |
| BotAnswers.CategoriesOfferTheirPackages | app/application/use_cases/bot/handle_incoming_message.py:391-407 | A category offers exactly its packages, in the order of the catalogue. |
| BotAnswers.AlternativesOfferTheMoments | app/application/use_cases/bot/handle_incoming_message.py:578-592 | The alternatives are the free moments in order, another date, and a person when one may help. |
| BotAnswers.GoesThroughExactlyWhen | app/application/use_cases/bot/handle_incoming_message.py:391-576 | A message goes through if and only if it answers the question of its step and nothing stands in the way; otherwise what stops it is told exactly, the question first. |
| BotAnswers.OneAnswerAtATime | app/application/use_cases/bot/handle_incoming_message.py:391-576 | A message that goes through sets the answer of its question, clipped where it is text, and leaves every other answer as it was. |
| BotAnswers.ExtrasAreThePickedOnes | app/application/use_cases/bot/handle_incoming_message.py:440-446 | The extras are exactly the options some part of the message picks, each once, or none when it skips them. |
| BotAnswers.QuestionsFollow | app/application/use_cases/bot/handle_incoming_message.py:391-576 | A message that goes through leads to the next question still to be asked, with its menu. |
| BotAnswers.WhatDoesNotGoesBack | app/application/use_cases/bot/handle_incoming_message.py:236-305 | A message that does not go through leads to another try, to the alternatives, to the date or to a person, each exactly in its case and with every answer as it was. |
| BotEngine.LiveSession.RunAdvance | app/application/use_cases/bot/handle_incoming_message.py:372-576 | Running the handler of the session's step on the live session leaves what that step prescribes, or reports why it stopped, possibly half way. |
| BotEngine.Conversation.Handle | app/application/use_cases/bot/handle_incoming_message.py:150-305 | A whole turn: duplicates ignored, a person on request, otherwise the handler and either its session saved or the snapshot with the reaction, or the session forgotten. |
| BotRuns.HandlersAreSound | app/application/use_cases/bot/handle_incoming_message.py:391-576 | From a session that fits its step every handler finishes in one that fits, never finds data missing, and raises a business error only with all answers given. |
| BotRuns.SavedSessionsFitTheirStep | app/application/use_cases/bot/handle_incoming_message.py:222-305 | In every run each saved session has exactly the answers its step needs, options exactly at menu steps and of the right kind, and at most one miss. |
| BotRuns.NoTurnCrashes | app/application/use_cases/bot/handle_incoming_message.py:525-576 | In every run no turn finds its session lacking or malformed. |
| BotRuns.TheSecondMissHandsOff | app/application/use_cases/bot/handle_incoming_message.py:289-305 | In every run a turn gives up for lack of understanding if and only if it does not understand and neither did the last turn that was not a duplicate. |
| BotRuns.FailedTurnsKeepTheAnswers | app/application/use_cases/bot/handle_incoming_message.py:236-287 | In every run a miss or a business error loses none of the earlier answers and can only lead back to the date or to the alternatives, with all answers given. |
| BotRuns.PaysForWhatWasQuoted | app/application/use_cases/bot/handle_incoming_message.py:525-562 | In every run a conversation at or past the confirmation holds a quote created with the very answers its session shows. |
| BotRuns.ObservationsKeptExactlyOnTheirTurn | app/application/use_cases/bot/handle_incoming_message.py:518-573 | In every run the first quote of a session carries observations, clipped from the message, if and only if it is created on the turn they are given and they are not skipped. |
| BotObservations.ObservationsGetLost | app/application/use_cases/bot/handle_incoming_message.py:254-287 | For every text that neither skips nor restarts, a run from nothing gives it as observations, is offered an alternative, picks it and ends with a quote without observations. |
| AgentHistory.SuffixAtAClientMessage | app/application/use_cases/bot/agent_session.py:19-33 | Cutting a well-formed history at a client message never separates a call from its result. |
| AgentHistory.TrimKeepsTheClient | app/application/use_cases/bot/agent_session.py:19-33 | Trimming returns a suffix within the limit that opens with the client, drops no client message of the window, and is empty if and only if the window holds none. |
| AgentHistory.TrimHistory | app/application/use_cases/bot/agent_session.py:19-33 | The loop computes that suffix; with a limit of zero it starts from the whole history, as a slice from minus zero does. |
| AgentHistory.TurnsKeepHistories | app/application/use_cases/bot/agent_engine.py:106-159 | What a turn saves and every request it sends is well formed, opens with the client and fits the limit; hand-offs and failures save no history; a model failure is reported only if nothing changed. |
| AgentHistory.SavedHistoriesAreWellFormed | app/application/use_cases/bot/agent_engine.py:121-155 | Over any conversation every saved history is well formed: each result follows the message that asked for it and no call is unanswered. |
| AgentHistory.RequestsHoldTheClientExactlyWithRoom | app/application/use_cases/bot/agent_engine.py:121-172 | The request after any number of replies of a turn is empty if and only if the client's message, those replies and their results exceed the limit; otherwise it holds that very message as the client's last. |
| AgentHistory.EveryRequestHoldsTheClient | app/application/use_cases/bot/agent_engine.py:161-172 | With at most eight calls per reply every request to the model holds the client's message. |
| AgentHistory.ThirtyNineCallsEmptyTheRequest | app/application/use_cases/bot/agent_engine.py:161-172 | A single reply with thirty-nine calls or more makes the next request empty. |
| AgentHistory.EscalationStops | app/application/use_cases/bot/agent_engine.py:144-148 | Once a tool asks for a person the later calls of the reply are not run. |
| AgentTurns.RepliesRunTheirTools | app/application/use_cases/bot/agent_engine.py:137-155 | A reply runs its calls up to the first that needs a person, whose reason it hands off with; the last quote created stands, a payment counts for the quote it follows, and the results come back in order. |
| AgentTurns.ChangesAreReported | app/application/use_cases/bot/agent_engine.py:137-155 | Tools report a change if and only if one created a quote or the payment of one was started. |
| AgentTurns.TurnsEndAsTheirReplies | app/application/use_cases/bot/agent_engine.py:106-159 | A turn goes on for exactly the first replies whose tools all run, at most five, and ends as the next one says; it sends the history as each reply left it, trimmed, and saves it only with the answer. |
| AgentTurns.TheClientIsHeard | app/application/use_cases/bot/agent_engine.py:106-120 | What the client wrote reaches the model last, within its limit, or a note that there was no text; only a message without text after the payment started is passed over. |
| AgentHistory.AgentSession.Converse | app/application/use_cases/bot/agent_engine.py:106-159 | The bounded loop in place has exactly the effect, the end and the requests of a turn. |
| SessionStorage.AgentRoundTrip | app/application/use_cases/bot/agent_session.py:46-71 | A stored session reads back as it was written, messages and calls included. |
| SessionStorage.WhatIsMissingReadsAsEmpty | app/application/use_cases/bot/agent_session.py:57-71 | What a stored message or session lacks reads as empty, and a message of no known role is not read. |
| SessionStorage.EnginesNeverMixUp | app/application/use_cases/bot/agent_session.py:46-71 | A session of the agent never reads as one of the menu, nor one of the menu as the agent's. |

## Left out

- SQL, ORM models, migrations, HTTP routers, Redis, server-sent events, PDF rendering and file storage: plumbing.
- Cryptography: digests, keyed hashes, tokens and seals are injective records, fresh values or answers of a step.
- Permissions, audit rows, user and catalogue maintenance, message texts and logging: they carry no invariant here.
- The lengths of link tokens, the shape of message payloads and the range of dates: input validation.
- OutboxGuarantees.AtMostOneAcceptancePerGeneration: a gateway call that raises after the gateway accepted the
  message counts as a rejection, since the program cannot tell; it assumes results saved within the lease and no
  accepted result lost, without which it is false.
- Conversations.AssignedConversationsStayOpen: leaves out SUPERADMIN flows and the bot's own release, which override
  an assignment on purpose.
- Conversations.TakeoverOutcome: clearing the bot session and registering the manual hand-off follow the takeover
  and never undo it; they are not part of the state.
- OutboxDispatch.OutboxRepository.ClaimDue: which due rows are picked, and in which order, is up to the query.
- OutboxDispatch.OutboxRepository.Execute: no other writer acts during the cycle; in `OutboxDelivery` any does.
- DeliveryNotices.NoticeDesk.Process: no other writer acts between its two transactions; in the runs of
  `OutboxDelivery` a notice is the second of them, at any moment.
- InventoryRuns.InventoryIsNeverOversold: bookings and extensions are single steps, since they share the availability
  lock. Stock changes written after a booking passed their guard, and instants the guard's clock has passed, are not
  covered, since there it is false; deactivating an item, which is guarded in the same way, is not modelled.
- CalendarRuns.ThresholdHoldsAtEveryInstant: admissions exceed the threshold only by approval, which these runs
  exclude; with packages longer than a day it is false.
- ExtensionAvailability.EveryCrewIsChecked: crews are taken in the order of their first row; the program takes them
  in the order of a set, which only decides which conflict is reported first.
- EventMoney.EventDesk.RegisterExtension: terms of the extension and the size of the evidence are checked before it.
- ManualBooking.BookingDesk.Register: the request arrives priced, with its package, theme and extras active, and the
  answer on capacity with it.
- ManualBooking.BookingDesk.RunCreateBooked: the request arrives priced; documents and contract issuing are answers.
- ManualBookingRuns.EventQuoteAndAdvanceInStep: each quote has its single advance; a second receipt uploaded for the
  same quote is not modelled. The general payment endpoints are included as wired, which always name an event, and
  are single steps: verifying, rejecting and approving lock the payment. Confirming a pending refund reads it without
  a lock, but a pending refund can only become a refunded one, so an interleaved confirmation ends the same.
- ManualBooking.BookingDesk.RunConfirm: the address, client and document fields of a booking, which also count as a
  change during the review, are not part of the state.
- Pricing.MobilityIsCloseToTheFormula: the formula starts from the distance already quantised to ten metres; decimal
  precision beyond 28 digits is not modelled.
- BotMenu.PickMany: splitting a text into its pieces, normalising it and reading dates and times arrive done.
- BotEngine.Conversation.Handle: the turn runs the menu engine only; with an agent configured, a menu conversation
  begins when the agent fails, from the same fresh session. Replies outside the turn's transaction are delivered.
- BotRuns.SavedSessionsFitTheirStep: business errors come only from creating a quote and from starting its payment.
- AgentHistory.TurnsKeepHistories: the tools' own work and the time budget of a turn are answers of the model and of
  the tools.
- BotMenu.PicksAreThePickedOptions: options carry their normalised titles, as read from the text.
- SessionStorage.AgentRoundTrip: stored values of an unexpected type read as malformed, where the program would turn
  some of them into text; the menu's own session is not written out field by field.
- The audit states of balance and extension payments, the profit report and the direct costs: easy members.
