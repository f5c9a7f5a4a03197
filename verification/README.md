# Verified models of the trip planner's stateful parts

This project models, in Dafny 4.11, the four components of the backend that carry hard state, and
proves what their comments and designs promise. `dafny verify dfyconfig.toml` checks everything.

**A. Message broker and e-mail delivery.** `Supervisor` is the reconnecting RabbitMQ connection as a
step machine: one event is one stretch of JavaScript between two awaits, and connection losses,
timers, setup failures and `close()` interleave freely. `SupervisorProofs`, `SupervisorTimer`,
`SupervisorStartup`, `SupervisorRegistry` and `SupervisorShutdown` hold the results over all runs. `BrokerAdapter` is the
same closure as a class with its event loop; ghost fields record the run its calls amount to, which
carries those results over to it. `Delivery`, `HandlerTraces` and `Draining` put acknowledgement,
redelivery and the poison rule on top; `EmailHandlers` is the consumer callback and its handlers as
code. `ReminderQueue` is the TTL queue with head-of-line blocking.

**B. Itinerary aggregates.** `ItineraryTables`, `ItineraryRepository` and `ItineraryReads` describe the
five tables, the save cascade and the nested read; `ItineraryService` is the transaction code and the
routes, with a failure possible at every statement. `ConcurrentPuts` interleaves the statements of
any number of transactions under READ COMMITTED with row locks (section 13.2.1 of the PostgreSQL
documentation).

**C. Groups, invites and shares.** `ToolsTables` holds tables and statements, `GroupProtocol` lets
requests interleave between any two statements, `ToolsService` is the handlers as code.
`MockClient` is the in-memory client and `MockSimulation` relates it to the service.

**D. Two algorithms.** `Weather` (normalisation of any JSON value) and `SessionCookie` (the two cookie
parsers and the token of a request).

`Common`, `ChildTables` and `TableDeltas` are shared vocabulary: sums, tables with serial keys, and
the uncommitted changes of a transaction.

## Findings

- The comment on `reconnectTimer` (`packages/shared/src/adapters/broker.ts:93`), non-null exactly when one
  reconnect is scheduled, is not true of every run. It holds throughout a run if and only if no reconnect
  attempt fails while a timer is armed (`ExactIffNoSecondSchedule`): the catch block schedules without the
  guard that `onConnectionGone` has. `TwoTimers` is a run with two armed timers, one of which `close()`
  can no longer disarm. Quiet teardowns are sufficient (`QuietIsExact`), not necessary (`LoudYetExact`).
- "At most one of channel, timer and attempt" holds exactly in the runs in which no half-open connection
  emits 'close' while the catch block tears it down (`SingleIffQuiet`). That somebody is always working on
  the connection needs no such assumption (`NoSilentDeath`).
- A `createBroker` that rejects may leave a timer armed (`LoudTeardownAtStartup`). It leaves nothing behind
  exactly when no half-open connection said 'close' during its teardown until then (`RejectionCleanIff`).
- With quiet teardowns, the loop "never fights a deliberate shutdown" (`packages/shared/src/adapters/broker.ts:97`)
  exactly when no `establish` is in flight at the call of `close()` (`CloseIsFinalIff`); otherwise a live
  channel may be left behind (`ChannelAfterClose`). Without that assumption it is enough that, besides,
  `reconnectTimer` names the only armed timer (`CloseIsFinal`).
- The share route tests membership more widely than the list and detail endpoints test visibility: it also
  accepts the e-mail address of a member who has already joined (`MayShareIff`, `MaySharesUnseen`).
- `updateItineraryRow` is documented to be rolled back when no row matches; the code commits a transaction
  that changed nothing. The outcome is the same.
- The weather normaliser is not idempotent: the second pass loses the minimum temperatures (`SecondPass`,
  `MinimumLost`), so it changes nothing exactly when no valid day of the payload has one (`IdempotentIff`);
  and a day that itself carries a `forecast` array is lost from a bare list but kept inside a wrapper
  (`WrapperDayDiffers`), with equal rows exactly when its forecast reads like the day itself (`WrapperDayIff`).
- With two `si_session` cookies the two parsers disagree (`TwoSessionsDiffer`), and the middleware throws on
  a value that does not decode where the targeted parser falls back to the raw value.
- The mock numbers its itineraries, so a share of an id it has not handed out yet comes alive later, which
  no service id can do (`AnticipatedItinerary`). Every such share leads to a session with different answers
  (`AnticipationDiffers`); all other consistently named shares are answered alike (`MockSimulates`).

## Model

| member | source | states |
|---|---|---|
| SupervisorProofs.NoSilentDeath | packages/shared/src/adapters/broker.ts:183-266 | in every state of every run, a broker neither closed nor refused at startup that has no channel has a reconnect timer armed or an `establish` in flight |
| SupervisorProofs.SingleSupervisor | packages/shared/src/adapters/broker.ts:90-94 | with quiet teardowns at most one of live channel, armed timer and attempt in flight exists, and `reconnectTimer` is non-null exactly when one timer is armed |
| SupervisorProofs.SingleIffQuiet | packages/shared/src/adapters/broker.ts:225-266 | supervision stays single throughout a run if and only if no teardown of a half-open connection emits 'close' in it |
| SupervisorProofs.LoudTeardownAtStartup | packages/shared/src/adapters/broker.ts:225-248 | a concrete run in which `createBroker` rejects and yet leaves a reconnect timer armed |
| SupervisorStartup.RejectionCleanIff | packages/shared/src/adapters/broker.ts:225-248 | in every run, a `createBroker` that rejects leaves no timer, channel or attempt if and only if no half-open connection has emitted 'close' during its teardown until then; in that case no connection is left either |
| SupervisorProofs.LoudTeardownDuplicates | packages/shared/src/adapters/broker.ts:225-248 | every loud teardown breaks the single supervisor at once |
| SupervisorTimer.ExactIffNoSecondSchedule | packages/shared/src/adapters/broker.ts:93-94 | throughout a run `reconnectTimer` is set exactly when one timer is armed, and refers to it, if and only if no reconnect attempt fails while a timer is armed |
| SupervisorTimer.TwoTimers | packages/shared/src/adapters/broker.ts:225-248 | a concrete run with two armed timers, of which only the younger is referred to and disarmed by `close` |
| SupervisorTimer.QuietIsExact | packages/shared/src/adapters/broker.ts:93-94 | quiet teardowns suffice for that |
| SupervisorTimer.LoudYetExact | packages/shared/src/adapters/broker.ts:93-94 | a concrete loud run in which it holds throughout |
| SupervisorProofs.ReplayExactness | packages/shared/src/adapters/broker.ts:89-223 | with quiet teardowns, whenever a channel is installed and no close is under way, the consumers running anywhere are exactly the registry, in order, each once, on that channel |
| SupervisorProofs.RegistryGrowth | packages/shared/src/adapters/broker.ts:312-326 | the registry only grows, and it grows exactly when a `consume` reply arrives |
| SupervisorRegistry.RegistryIsAnswered | packages/shared/src/adapters/broker.ts:312-326 | in every run the registry is the sequence of the registrations that the answered `consume` calls were made with, in the order of the replies |
| SupervisorRegistry.ConsumeRegistersOwn | packages/shared/src/adapters/broker.ts:321-324 | the reply to a `consume` call, however late, appends what that call was made with to the registry and to the consumers on its own connection |
| SupervisorProofs.RunSound | packages/shared/src/adapters/broker.ts:183-339 | the invariant of all runs: ids fresh, `connection` and `channel` set together, `establishing` only while an attempt is in its try block, `reconnectTimer` names an armed timer |
| SupervisorShutdown.OnlyCommittedInstall | packages/shared/src/adapters/broker.ts:191-198 | after `close`, only an attempt already past its post-connect check can install a channel |
| SupervisorShutdown.AtMostOneInstallAfterClose | packages/shared/src/adapters/broker.ts:328-339 | with quiet teardowns at most one install follows `close`, in the whole rest of the run |
| SupervisorShutdown.LateConnectEndsLoop | packages/shared/src/adapters/broker.ts:191-198 | with quiet teardowns, a connect that succeeds after `close` is thrown away, and from then on nothing is installed, armed or attempted again |
| SupervisorShutdown.LateConnectDiscarded | packages/shared/src/adapters/broker.ts:191-198 | in every run, whatever teardowns do, a connect that succeeds after `close` never installs a channel and its attempt ends without scheduling another |
| SupervisorShutdown.CloseIsFinal | packages/shared/src/adapters/broker.ts:97-98 | in every run, a `close` called with no `establish` in flight while `reconnectTimer` names the only armed timer is final |
| SupervisorShutdown.CloseIsFinalIff | packages/shared/src/adapters/broker.ts:97-98 | with quiet teardowns, no timer, attempt or channel ever follows the end of the first `close`, if and only if no `establish` is in flight when it is called |
| SupervisorShutdown.ChannelAfterClose | packages/shared/src/adapters/broker.ts:328-339 | a concrete quiet run in which an attempt past its check installs a live channel after `close` has finished |
| SupervisorShutdown.AttemptCountsBackoffs | packages/shared/src/adapters/broker.ts:216-266 | `reconnectAttempt` equals the number of reconnects scheduled since the last install, whose delays are the backoff sequence in order |
| SupervisorShutdown.BackoffBounded | packages/shared/src/adapters/broker.ts:53-58 | delays are nondecreasing, at least 1 s and at most 30 s |
| SupervisorShutdown.TotalBackoff | packages/shared/src/adapters/broker.ts:251-266 | the first n delays add up to 1000(2^n − 1) ms for n ≤ 5 and 31000 + 30000(n − 5) ms beyond |
| SupervisorShutdown.OutageWaitingTime | packages/shared/src/adapters/broker.ts:251-266 | at any moment of any run the waiting time scheduled since the last install is that total for the current `reconnectAttempt` |
| BrokerAdapter.Broker.Handle | packages/shared/src/adapters/broker.ts:183-339 | every event that can happen has its code, and the calls so far always amount to a run of the machine that ends in the current fields |
| BrokerAdapter.Broker.Kept | packages/shared/src/adapters/broker.ts:86-98 | after any calls whatsoever, read off the fields: no silent death; the registry holds what the answered calls asked for; the attempt counter equals the backoffs since the last install; with quiet teardowns one supervisor, an exact timer reference and a live channel that runs exactly the registry |
| BrokerAdapter.Broker.LoseConnection | packages/shared/src/adapters/broker.ts:240-248 | a loss is always answered by a timer or an attempt; with quiet teardowns by exactly one of them |
| BrokerAdapter.Broker.FireTimer | packages/shared/src/adapters/broker.ts:259-262 | with quiet teardowns the attempt that starts is alone: no other attempt, timer, channel or connection |
| BrokerAdapter.Broker.ResumeConnected | packages/shared/src/adapters/broker.ts:191-202 | a connection opened after `close` is never put under supervision and its attempt is bound to end; any other is supervised before the next await |
| BrokerAdapter.Broker.ResumeSetup | packages/shared/src/adapters/broker.ts:204-219 | either the next registration is pending or the channel is installed and the counter reset; with quiet teardowns exactly the earlier registrations, or all of them, run on the connection |
| BrokerAdapter.Broker.CatchConnect | packages/shared/src/adapters/broker.ts:225-236 | a failed connect rejects the caller or leaves a retry; the timer reference stays exact if and only if none was armed; with quiet teardowns no attempt, channel or connection is left, and after a rejection no timer either |
| BrokerAdapter.Broker.CatchSetup | packages/shared/src/adapters/broker.ts:225-230 | with quiet teardowns so far, a 'close' of the half-open connection from here on would break the single supervisor |
| BrokerAdapter.Broker.ResumeReleased | packages/shared/src/adapters/broker.ts:228-236 | the same as for a failed connect, once the teardown has settled |
| BrokerAdapter.Broker.Consume | packages/shared/src/adapters/broker.ts:312-322 | refused exactly without a channel, and then nothing has changed; otherwise the given registration is pending on the current channel, and nothing is registered yet |
| BrokerAdapter.Broker.ResumeConsume | packages/shared/src/adapters/broker.ts:322-325 | the registration is appended, and with quiet teardowns the live channel runs exactly the new registry |
| BrokerAdapter.Broker.RejectConsume | packages/shared/src/adapters/broker.ts:321-325 | a consume that throws leaves the registry and all running consumers alone |
| BrokerAdapter.Broker.Close | packages/shared/src/adapters/broker.ts:328-338 | with quiet teardowns no timer is left armed, and without an attempt in flight nothing can start any more |
| BrokerAdapter.Broker.ResumeClose | packages/shared/src/adapters/broker.ts:335-338 | no consumer is left on the closed channel and no `consume` can succeed on it; whatever was over stays over; a call that ends here leaves no connection and no channel |
| BrokerAdapter.Broker.FinishClose | packages/shared/src/adapters/broker.ts:336-338 | likewise behind the close of the connection |
| Delivery.MessagesConserved | packages/shared/src/adapters/broker.ts:136-175 | in every state of every run a message is in exactly one of ready, unacked, handled and dropped, and at most one live delivery holds it |
| Delivery.DeliveriesBounded | packages/shared/src/adapters/broker.ts:157-174 | deliveries of a message equal its requeues plus the losses that caught it unacked, plus one once it has left the queue; so at most 2 + L, and a dropped message had at least two |
| Delivery.DroppedIff | packages/shared/src/adapters/broker.ts:164-171 | in every state of every run, a message is dropped if and only if earlier in the run the handler of a redelivery of it failed while its channel was up |
| Delivery.LostVerdictIgnored | packages/shared/src/adapters/broker.ts:131-145 | in every run, the ack or nack of a handler that a connection loss caught changes nothing in the queue, however late it comes |
| Delivery.CrashEndsCalls | services/email-service/src/handlers.ts:25-27 | a crash of the process ends every handler call that was running, for the whole rest of the run |
| Delivery.AddressIff | services/email-service/src/handlers.ts:32-33 | the pattern accepts exactly the strings local@host.tld whose three parts are non-empty and free of '@' and white space |
| Delivery.OwnerResolved | services/email-service/src/handlers.ts:43-54 | owner mail goes to the event's own address when it is one, and otherwise to the fallback |
| Common.SpacesListed | services/email-service/src/handlers.ts:32-33 | the white space of the pattern and of trimming, character by character |
| Draining.InternalStepUsesWork | packages/shared/src/adapters/broker.ts:157-174 | every delivery, effect and verdict strictly lowers a measure of the work left |
| Draining.DrainsWithinWork | packages/shared/src/adapters/broker.ts:157-174 | a stretch without publishes and losses has no more steps than the work at its start |
| Draining.NoStepLeftMeansSettled | packages/shared/src/adapters/broker.ts:157-174 | with the channel up, when no step is left every message is handled or dropped, and not both |
| HandlerTraces.EffectsDescend | packages/shared/src/adapters/broker.ts:157-174 | at any moment an earlier effect of an event has happened at least as often as a later one, none more often than deliveries, all at least once when handled |
| HandlerTraces.RemindersFollowConfirmations | services/email-service/src/handlers.ts:56-71 | reminders scheduled for an itinerary, for its own start date, never exceed confirmations sent to its owner, and a handled event has at least one of each |
| HandlerTraces.ShareMailsDescend | services/email-service/src/handlers.ts:79-92 | mail counts never increase along the recipient list, and every recipient has mail once the event is handled |
| HandlerTraces.MalformedHasNoEffect | packages/shared/src/adapters/broker.ts:160-172 | a malformed payload is never handled and never has an effect |
| EmailHandlers.HandleItineraryCreated | services/email-service/src/handlers.ts:63-71 | confirmation to the owner's address (or the fallback), then a reminder for the start date, up to the first refusal; returns normally exactly when both were accepted |
| EmailHandlers.HandleReminderDue | services/email-service/src/handlers.ts:73-77 | one notice to the owner's address (or the fallback) unless refused |
| EmailHandlers.HandleGroupInvited | services/email-service/src/handlers.ts:94-98 | one invitation to the invited address unless refused |
| EmailHandlers.HandleItineraryShared | services/email-service/src/handlers.ts:84-92 | mails each of the longest accepted prefix of the recipients in order; returns normally exactly when that is all of them |
| EmailHandlers.Dispatch | services/email-service/src/consumers.ts:39-56 | whichever handler is chosen, its effects and result are those of the event; unknown keys succeed and malformed payloads fail, both without effect |
| EmailHandlers.OnMessage | packages/shared/src/adapters/broker.ts:157-174 | the callback's effects and verdict are the `Do` steps and the `Return` or `Throw` step of the delivery machine |
| ReminderQueue.ReminderDelayMs | packages/shared/src/events.ts:87-96 | never negative; ends at the due time or now, whichever is later; zero for a date that does not parse |
| ReminderQueue.TimerQueue.AdvanceTo | packages/shared/src/adapters/broker.ts:31-33 | head-only expiry releases exactly what the release times say, keeping what was released |
| ReminderQueue.TimerQueue.Schedule | packages/shared/src/adapters/broker.ts:288-310 | queues behind what waits, exactly when RabbitMQ takes the expiration, and changes nothing otherwise; the queue stays as the release times say |
| ReminderQueue.ReleaseTimeExact | packages/shared/src/adapters/broker.ts:31-33 | the i-th reminder leaves at exactly the maximum of its queueing time and all due times up to the i-th; no other value fits |
| ReminderQueue.ReleasesInOrder | packages/shared/src/adapters/broker.ts:31-33 | first in, first out |
| ReminderQueue.ReleasedIffDue | packages/shared/src/adapters/broker.ts:116-128 | a reminder has left exactly when its release time has come |
| ReminderQueue.OnTimeIff | packages/shared/src/adapters/broker.ts:31-33 | a reminder leaves when it expires exactly if nothing queued before it expires later |
| ReminderQueue.OnTimeWhenSorted | packages/shared/src/events.ts:82-96 | trips scheduled in the order of their dates are all reminded on time |
| ItineraryRepository.ChildrenSaved | services/itinerary-service/src/repositories/itineraryRepository.ts:253-373 | whatever children there were, the cascade leaves exactly those of the request and every other itinerary as it was, keys included |
| ItineraryRepository.UpdateReplaces | services/itinerary-service/src/repositories/itineraryRepository.ts:389-402 | an update is a total replacement that keeps `created_at`, orphans no child and leaves all other itineraries alone |
| ItineraryRepository.SaveStores | services/itinerary-service/src/repositories/itineraryRepository.ts:375-387 | a save stores the whole aggregate under its new id and touches nothing else |
| ItineraryReads.GetItineraryAggregate | services/itinerary-service/src/repositories/itineraryRepository.ts:413-460 | answers nothing exactly for unknown ids, otherwise the mapped rows, stays and activities by key, days in an order that `ORDER BY date` allows |
| ItineraryReads.SavedThenRead | services/itinerary-service/src/repositories/itineraryRepository.ts:114-181 | saved then read: header, notes, weather and demographics come back, stays and each day's activities in payload order, days as the payload's days sorted by date; every text is the payload's own, or empty where the payload has none |
| ItineraryReads.AnswerKeys | services/itinerary-service/src/repositories/itineraryRepository.ts:124-181 | the keys in an answer are those of the rows it was read from, each under its own parent, with the row's own values; stays in key order |
| ItineraryReads.NotesShown | services/itinerary-service/src/repositories/itineraryRepository.ts:110-122 | a JSON list of notes comes back as it is, other JSON as none, and a legacy text that is no JSON as one note |
| ItineraryReads.AppendStayRoundTrip | apps/web/components/hotel/HotelSearchResultCard.tsx:56-85 | read, append a stay, update, read: every stay reads as before and exactly the new one is added, the weather survives, and the days come back identical, keys apart, when their dates are distinct |
| ItineraryReads.OneOrder | services/itinerary-service/src/repositories/itineraryRepository.ts:431-435 | with distinct dates, sorting by date has one answer |
| ItineraryReads.UntouchedReadsAlike | services/itinerary-service/src/repositories/itineraryRepository.ts:413-460 | an itinerary outside the frame of a write has the same possible answers before and after it |
| ItineraryService.UpsertDemographics | services/itinerary-service/src/repositories/itineraryRepository.ts:253-292 | two statements, either of which may fail; otherwise exactly one row changes: the existing one under its old key, or a new one when there was none |
| ItineraryService.ReplaceAccommodations | services/itinerary-service/src/repositories/itineraryRepository.ts:300-323 | the loop stores the payload's stays in order after deleting the old ones, unless one of its statements fails |
| ItineraryService.ReplaceDaysWithActivities | services/itinerary-service/src/repositories/itineraryRepository.ts:330-362 | the nested loops store each day followed by its activities under that day's key, unless one of the statements fails |
| ItineraryService.Service.Post | services/itinerary-service/src/routes/itineraryRoutes.ts:97-119 | 201 exactly when every statement up to COMMIT is accepted: the aggregate is stored, nothing else changed, and only then the event is published; otherwise 500 and no trace |
| ItineraryService.Service.Put | services/itinerary-service/src/routes/itineraryRoutes.ts:128-142 | 200 with total replacement and frame, 404 for unknown ids, 500 without a trace exactly when a statement fails; nothing is published |
| ItineraryService.Service.Get | services/itinerary-service/src/routes/itineraryRoutes.ts:167-178 | nothing exactly for unknown ids, otherwise an aggregate of the committed rows |
| ItineraryService.Service.Delete | services/itinerary-service/src/routes/itineraryRoutes.ts:185-196 | 200 or 404 by existence; the itinerary is gone and all others are untouched |
| ItineraryService.Service.DeleteAccommodation | services/itinerary-service/src/routes/itineraryRoutes.ts:203-219 | 200 or 404 by existence; the store loses exactly that row |
| ItineraryService.ItineraryDeleted | services/itinerary-service/src/repositories/itineraryRepository.ts:481-495 | the cascade leaves no orphan and every other itinerary as it was |
| ItineraryService.StayDeletedSingly | services/itinerary-service/src/repositories/itineraryRepository.ts:497-508 | deleting a stay takes exactly it out of its list, keeping order, and changes nothing else |
| ItineraryService.RolledBack | packages/shared/src/adapters/db.ts:42-64 | after a rollback every itinerary is as before; only sequences have moved |
| ConcurrentPutsProofs.CommittedFromOneRequest | services/itinerary-service/src/repositories/itineraryRepository.ts:221-402 | in every state of every interleaving of statements, commits, aborts and deletes, a written itinerary holds exactly the payload of the request that committed on it last, less the stays deleted singly since; keys hold and demographics stay 1:1 |
| ConcurrentPutsProofs.NobodyElseCommits | services/itinerary-service/src/repositories/itineraryRepository.ts:221-246 | from its first statement to its end, no other transaction's commit changes the itinerary a transaction works on |
| ConcurrentPutsProofs.CommitKeepsCreatedAt | services/itinerary-service/src/repositories/itineraryRepository.ts:221-246 | in every interleaving a committed PUT keeps `created_at`, and a committed POST stores its own time |
| ConcurrentPutsProofs.AbortsLeaveNoTrace | packages/shared/src/adapters/db.ts:42-64 | over any stretch of any run without a commit or delete, whatever begins, writes and aborts, every committed row stays as it is |
| ToolsTables.ListedMayShare | services/tools-service/src/repositories/toolsRepository.ts:131-176 | each group on the list is there once, the detail endpoint answers it with the same body, and it passes the share route's membership test |
| ToolsTables.MayShareIff | services/tools-service/src/routes/shares.routes.ts:51-70 | exactly who may share to a group: whoever sees it, or carries the address of a joined member |
| ToolsTables.VisibleRows | services/tools-service/src/repositories/toolsRepository.ts:125-137 | on the rows: the owner, whoever has joined, and whoever has a pending invite on a non-empty address see a group, and nobody else |
| ToolsTables.MayShareRows | services/tools-service/src/routes/shares.routes.ts:51-63 | on the rows: the owner and every member by user or address may share to a group, and nobody else |
| ToolsTables.MaySharesUnseen | services/tools-service/src/routes/shares.routes.ts:51-63 | concrete tables in which a caller may share to a group that neither endpoint shows them |
| ToolsTables.DtoMembers | services/tools-service/src/repositories/toolsRepository.ts:82-105 | the member list of an answer holds exactly the rows of the group |
| ToolsTables.HolderExact | services/tools-service/src/repositories/toolsRepository.ts:251-264 | the guarded update matches a row exactly when some invited member holds the token |
| GroupProofs.MembershipsSound | db/init/tools-service.sql:12-31 | under every interleaving (group, e-mail) and tokens stay unique, status is 'invited' exactly while the token is non-null, and no row refers to a missing group |
| GroupProofs.TokenJoinsOnce | services/tools-service/src/repositories/toolsRepository.ts:243-264 | whatever joins race, a token lets at most one of them in and is held by nobody afterwards |
| GroupProofs.RacingInvites | services/tools-service/src/routes/groups.routes.ts:128-180 | while the group lives, all answered invites of its owner for one address got 201 or 409, and once nobody is between insert and answer exactly one got 201 (none if the address was a member from the start) |
| GroupProofs.SharesOutliveGroups | services/tools-service/src/repositories/toolsRepository.ts:178-195 | a share token resolves to the same itinerary and creator in every later state, its group is the original or null exactly when that group was deleted |
| GroupProofs.InsertFacts | services/tools-service/src/repositories/toolsRepository.ts:229-241 | an accepted insert keeps all constraints and adds exactly that membership and that token |
| GroupProofs.JoinFacts | services/tools-service/src/repositories/toolsRepository.ts:251-264 | a join keeps all constraints and all memberships and removes exactly that token |
| GroupProofs.DeleteFacts | services/tools-service/src/repositories/toolsRepository.ts:184-195 | a delete keeps all constraints and removes exactly that group's memberships; every share keeps its token |
| ToolsService.Service.Invite | services/tools-service/src/routes/groups.routes.ts:128-180 | 404, 403 and 409 exactly as the rows say and without effect; otherwise exactly one invited member with that address and token is added; and that is what the interleaved request does undisturbed |
| ToolsService.Service.Join | services/tools-service/src/routes/groups.routes.ts:76-95 | the row that holds the token, and no other, becomes joined by the caller without token, and its group is answered; 404 without effect when nobody holds it; likewise equal to the interleaved request |
| ToolsService.Service.Delete | services/tools-service/src/routes/groups.routes.ts:187-198 | 200 exactly for the owner of an existing group, which goes with exactly its members, while every share stays and loses only that group; otherwise 404 without effect; likewise equal to the interleaved request |
| ToolsService.Service.Share | services/tools-service/src/routes/shares.routes.ts:41-99 | succeeds exactly without a group or with one the caller may share to, and then adds exactly the share of that itinerary, group and creator; the event goes to each of the explicit recipients and joined members once; likewise equal to the interleaved request |
| ToolsService.InviteAlone | services/tools-service/src/routes/groups.routes.ts:128-180 | an undisturbed invite in closed form: 404, 403, 409 or a stored row, in that order |
| ToolsService.RecipientsUnion | services/tools-service/src/routes/shares.routes.ts:47-70 | an address is notified exactly when it is listed or belongs to a joined member |
| ToolsService.DedupeSet | services/tools-service/src/routes/shares.routes.ts:70-72 | the recipient list has the same addresses and none twice |
| ToolsService.DedupeOrder | services/tools-service/src/routes/shares.routes.ts:70-72 | every recipient stands where it occurs first, in that order |
| MockClient.Client.InviteMember | packages/api-client/src/mock/mockClient.ts:224-238 | succeeds exactly for the owner and a new address, adds exactly that address, and the token it issues finds exactly that member; addresses and tokens stay unique; a refusal changes nothing |
| MockClient.Client.JoinGroup | packages/api-client/src/mock/mockClient.ts:239-254 | the loop over the groups joins the member that carries the token, and afterwards nobody carries it |
| MockClient.Client.GetGroup | packages/api-client/src/mock/mockClient.ts:207-213 | answers a group exactly to its owner and to whoever is a member by id or address, and 404 otherwise |
| MockClient.Client.ListGroups | packages/api-client/src/mock/mockClient.ts:203-206 | lists exactly those groups |
| MockClient.Client.DeleteGroup | packages/api-client/src/mock/mockClient.ts:214-223 | 404 for an unknown group, 403 for another owner's, both without effect; otherwise exactly that group goes |
| MockClient.FindGroup | packages/api-client/src/mock/mockClient.ts:241-247 | a group with such a member is found whenever there is one |
| MockSimulation.MockSimulates | packages/api-client/src/mock/mockClient.ts:190-283 | for every sequence of well-formed calls, each call is answered alike by mock and service: same status, same contents, up to a one-to-one renaming of ids and tokens and the order of lists |
| MockSimulation.SessionRelated | packages/api-client/src/mock/mockClient.ts:190-325 | the two states stay related throughout: same groups, members in the same order, corresponding tokens, shares and itineraries |
| MockSimulation.JoinSimulates | packages/api-client/src/mock/mockClient.ts:239-254 | searching the groups for a token and the guarded update find corresponding members, or none on either side |
| MockSimulation.InviteSimulates | packages/api-client/src/mock/mockClient.ts:224-238 | the duplicate check by array search and the one by SQL agree, and the new member stands at the same place |
| MockSimulation.ListSimulates | packages/api-client/src/mock/mockClient.ts:203-206 | both lists show the same groups although the two visibility rules differ |
| MockSimulation.DeleteSimulates | packages/api-client/src/mock/mockClient.ts:214-223 | the mock's 403 branch is never reached, so its statuses agree with the service's 404 |
| MockSimulation.AnticipationDiffers | packages/api-client/src/mock/mockClient.ts:255-283 | for every state and every itinerary neither side has whose number the mock has yet to hand out: share it, create that many itineraries, and the mock answers the itinerary where the service answers 404 |
| MockSimulation.AnticipatedItinerary | packages/api-client/src/mock/mockClient.ts:255-283 | a concrete session outside the well-formed calls, a share of the next itinerary id, in which the two sides differ |
| MockSimulation.InitialRelated | packages/api-client/src/mock/mockData.ts:149-174 | the seeded state is related to a service that holds the same group and itinerary |
| Weather.NormalizeWeatherForecast | packages/shared/src/dto/gemini.ts:86-106 | the loop computes the specified rows, or null |
| Weather.RowReads | packages/shared/src/dto/gemini.ts:63-78 | exactly how a day reads, on its own properties: a numeric scalar under either name is the high and there is no low; else a temperature object gives both under either naming; else there is neither; and only with a date and a condition |
| Weather.FlatDay | packages/shared/src/dto/gemini.ts:41-46 | the flat shape of the monolith era reads as one high |
| Weather.RowIffOffered | packages/shared/src/dto/gemini.ts:80-105 | a row is in the answer exactly if the payload offers a day whose own properties read as this row |
| Weather.NullIffNoValidDay | packages/shared/src/dto/gemini.ts:80-105 | null exactly when no offered day is valid, for every JSON value |
| Weather.ContainersAgree | packages/shared/src/dto/gemini.ts:80-94 | a wrapper and any split of its days over an array of wrappers give equal rows, and so does the bare list when no day is itself a wrapper |
| Weather.WrapperDayDiffers | packages/shared/src/dto/gemini.ts:86-94 | a day that is itself a wrapper: null from the list, a row from the wrapper |
| Weather.WrapperDayIff | packages/shared/src/dto/gemini.ts:80-94 | with one such day among plain ones, list and wrapper give equal rows if and only if its forecast has the rows of the day itself |
| Weather.RowsDistribute | packages/shared/src/dto/gemini.ts:86-105 | rows distribute over array concatenation |
| Weather.SecondPass | packages/shared/src/dto/gemini.ts:63-106 | normalising rows again keeps dates, conditions and highs and drops every minimum |
| Weather.IdempotentIff | packages/shared/src/dto/gemini.ts:63-106 | on the payload: a second pass changes nothing if and only if no day it offers reads as having a minimum |
| Weather.MinimumLost | packages/shared/src/dto/gemini.ts:63-106 | a concrete payload whose minimum the second pass loses |
| Weather.Idempotent | packages/shared/src/dto/gemini.ts:80-106 | the same on the rows of the first pass, and the result of the second pass is a fixpoint |
| SessionCookie.ParseCookieHeader | services/tools-service/src/cookies.ts:13-23 | the loop builds the last-wins map, or throws |
| SessionCookie.MapExact | services/tools-service/src/cookies.ts:13-23 | the map holds every non-empty name of the header under the decoded value of its last occurrence, and no other name |
| SessionCookie.ReadSessionCookie | packages/shared/src/adapters/jwt.ts:92-109 | the loop returns the first session cookie, decoded or else raw |
| SessionCookie.ExtractToken | packages/shared/src/adapters/jwt.ts:75-85 | a bearer token wins; without one, the last session cookie decoded when the middleware ran, the first one decoded or raw when it did not, and nothing exactly when there is none |
| SessionCookie.CookiePadded | services/tools-service/src/cookies.ts:16-20 | on the string: white space around name and value does not count, and the first '=' separates them |
| SessionCookie.NoCookie | packages/shared/src/adapters/jwt.ts:94-96 | a part is no cookie exactly when it has no '=' |
| SessionCookie.SessionFound | packages/shared/src/adapters/jwt.ts:92-109 | on the string: whatever other cookies come first, a session cookie behind "; " gives its decoded value with the middleware and without it; without it a value that does not decode is taken raw |
| SessionCookie.SessionAlone | packages/shared/src/adapters/jwt.ts:92-109 | the same for a header that holds nothing else |
| SessionCookie.BearerIff | packages/shared/src/adapters/jwt.ts:76-77 | the bearer scheme, letter by letter in either case |
| SessionCookie.BearerToken | packages/shared/src/adapters/jwt.ts:76-79 | on the string: behind the scheme, what is left without the white space around it is the token, whatever the cookies say |
| SessionCookie.ThrowsIff | services/tools-service/src/cookies.ts:13-23 | the middleware throws exactly when the value of some named cookie does not decode |
| SessionCookie.MapHoldsLast | services/tools-service/src/cookies.ts:13-23 | the map holds the last session cookie of the header, and none exactly when the targeted parser finds none |
| SessionCookie.SameTokenIff | packages/shared/src/adapters/jwt.ts:75-109 | the middleware makes no difference to a request it lets through if and only if there is a bearer token or the first and last session cookies decode alike |
| SessionCookie.SameTokenForOneSession | packages/shared/src/adapters/jwt.ts:75-109 | same token with and without the middleware for every header that names `si_session` at most once and whose values all decode |
| SessionCookie.TwoSessionsDiffer | services/tools-service/src/cookies.ts:13-23 | a concrete header on which the two parsers disagree |
| SessionCookie.TrimExact | services/tools-service/src/cookies.ts:18-20 | trimming removes exactly the white space at both ends |
| SessionCookie.SplitExact | services/tools-service/src/cookies.ts:15-18 | splitting gives separator-free parts that join to the header |

## Left out

- ReminderQueue.TimerQueue.Schedule: an expiration above 2^32 − 1 ms is refused and nothing is queued; that RabbitMQ then closes the channel, and that the code does not learn of it, is not modelled.
- ItineraryReads.GetItineraryAggregate: reads one quiescent store; the code sends its SELECTs outside a transaction, so a write may fall between them.
- ItineraryReads.AppendStayRoundTrip: the two requests run with nobody in between; a concurrent write between GET and PUT is overwritten by design.
- ItineraryService.Service.Post: the failing statement is a parameter (how many statements the database accepts), and so is whether the broker takes the event; an acquisition of the pooled client that fails, and a ROLLBACK that fails, are not modelled.
- MockSimulation.MockSimulates: shares to unknown groups (the mock does not check them), shares of itinerary ids the mock has yet to hand out (`AnticipatedItinerary`) and malformed arguments are outside the relation; itinerary contents, PDF export and timestamps are not compared; the seeded group and itinerary are assumed on both sides, while the two real seeds differ in name and members.
- BrokerAdapter.Broker.ResumeSetup: the channel creation and the topology asserts count as one setup step before the replay; the last setup reply and the install are one step, and so are a `consume` reply and its push.
- Channel-level errors without connection loss: the code documents that the consumers of the channel then stop. A `consume` still pending while `close` is closing its channel may succeed until the channel is closed, and is refused from then on.
- `onStatus` transitions, logging and `unref`.
- Lazy publishers and best-effort events: a publish may silently drop, so only POST's event order is modelled.
- Queue order of ready messages: any ready message may be delivered next, so the results hold for every order. Persistence across a restart of RabbitMQ is assumed.
- Routing: an event carries the handler it is for instead of its routing key and queue bindings.
- JSON text, zod schemas, NUMERIC, DATE and percent-decoding: payloads are parsed values, dates are integers, amounts are reals, `decodeURIComponent` is a parameter; the notes column is what `JSON.parse` makes of it.
- Members are ordered by key where the code orders by `invited_at`; the two agree while the clock does not go back.
- Fresh ids and tokens: uuid and token generators never repeat a value.
- Itinerary listing by user, profile and demographics upserts, PDF export, Gemini and Amadeus calls, SMTP and S3 transport, JWT verification, the gateway, health probes and the web UI.
