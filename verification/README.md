# Verified model of a newsletter platform's database triggers and domain logic

A Dafny model of the parts of the repository where one action sets off others, or where
something is turned into another form and back, with proofs of what they keep over whole
runs. Check it with `dafny verify dfyconfig.toml`.

**The workspace database.** A statement changes one row; the row's triggers record
timeline rows, rewrite subscription statuses and queue outgoing webhooks; timeline rows start
automations, which write further timeline rows; every timeline row but a segment membership
puts its contact on the recomputation queue. `Workspace.dfy` is the imperative model: a class
with one field per table and one method per PL/pgSQL function, in the order PostgreSQL fires
them (by trigger name), and `Execute` for a whole statement in its own transaction. Each
method is proved to take the database from its old value exactly to that of a specification
function (`Triggers.dfy`, `Cascade.dfy`, `Runs.dfy`). `Runs.StepEffect` then flattens the
nested cascade into "these rows, these deliveries, these lists", and the theorems about runs
are proved from that.

**Protocols.** The event bus's acknowledgement, the shutdown gate and two overlapping
enrolments are step relations over their goroutines or transactions; the theorems hold in every
interleaving.

**Transformations.** Slug normalisation, schedule printing and parsing over real
Gregorian day arithmetic, segment trees to generic maps and back, broadcast updates, and the
retry delay in 64-bit arithmetic.

| file | contents |
|---|---|
| Prelude, Diffs | optional values, logs, records of JSON values, old/new differences and replaying them |
| Tables, Automations | rows, the database value, automation triggers and their validation |
| Triggers, Cascade, Runs | what each trigger function writes, the cascade, statements and runs |
| Workspace | the database as a class, statement by statement |
| Webhooks | who receives what |
| Records, Announcements | what each kind of statement records and whom it tells, in terms of the rows before and after |
| EnrolmentLaws | who is enrolled, by which row or call, one statement at a time and over runs |
| ContactHistory, PropertyHistory, SegmentQueue, SegmentStream, SuppressionLaws, ListStreams, EmailStream, EventStream, Accounting, CascadeLaws, CommitLaws, LiveTriggers | theorems over runs |
| EnrolRace, EventBus, ShutdownGate | interleavings |
| Slug, Schedule, SegmentTree, SegmentRules, Numerals, SegmentJson, BroadcastUpdate, BroadcastRules, Backoff | domain logic |

## Where the code departs from what it says

- Some validated automation triggers can never start: those on `contact.deleted` and the seven
  `email.*` kinds, on custom events with a name longer than 37 characters, and on updates of
  nothing but `photo_url`. `LiveTriggers.StartableIff` says exactly which can.
- Custom event names may have 100 characters, but `custom_event.` + name must fit 50
  (`CommitLaws.InsertEventCommitsIff`).
- `once` automations enrol a contact twice when two calls overlap (`EnrolRace.OnceIffOneEarlyLook`).
- A handler that both panics and misses its deadline may leave the publisher without an
  acknowledgement, or crash the process (`EventBus.AcknowledgesIffEventsFit`,
  `EventBus.CrashesIffLatePanic`).
- `Unsubscribe` removes nothing.
- A `contact_lists` update that deletes and changes status at once records only the deletion,
  while the webhook reports the status; statuses outside the five are classified apart too (`ListStreams.TransitionsAgreeIffClean`).
- `SetScheduledDateTime` without a timezone leaves an older one in place
  (`Schedule.RoundTrip`).
- A leaf's payloads other than the one named by its source are not validated, yet they can
  decide `HasRelativeDates` or make it panic (`SegmentTree.AnswerIsRightIff`).
- A broadcast update rejected by validation has already changed the broadcast in memory
  (`BroadcastUpdate.UnchangedIff`), so an unsound feed setting makes later sound requests fail
  (`BroadcastUpdate.UnsoundFeedSticks`).
- A request can pass the shutdown check and be served after the wait has returned
  (`ShutdownGate.WaitMissesOnlyUnjoined`).
- Under the default one-minute base the 29th retry is scheduled in the past
  (`Backoff.DefaultAfter28`).

## Model

| member | source | states |
|---|---|---|
| Diffs.DiffProperties | internal/database/init.go:787-815 | the key loop, taking keys in any order, produces the difference of the two objects and nothing else |
| Diffs.PatchIsExact | internal/database/init.go:787-815 | patching the whole old object with its difference gives the new one exactly when no changed property became JSON null, un-patching when none was one |
| Diffs.DiffConnects | internal/database/init.go:487-542 | on the tracked keys, one difference carries the old record onto the new one and back, up to JSON nulls |
| Automations.NeverListensToStart | internal/domain/automation.go:52-75 | no automation that passes validation listens to the row an enrolment itself writes |
| Automations.ValidIff | internal/domain/automation.go:160-195 | a configuration passes exactly with one of the 21 kinds, one of the two frequencies, and the list, segment or event name its kind calls for |
| Automations.StartFiresNothing | internal/service/automation_trigger_generator.go:102-165 | with validated automations an automation.start row sets off no trigger, so that an enrolment starts no other |
| WorkspaceDatabase.ChangedColumns | internal/database/init.go:496-532 | the column-by-column comparison collects exactly the tracked columns that are distinct, each with both values |
| WorkspaceDatabase.Workspace.QueueContactForSegmentRecomputation | internal/database/init.go:706-727 | a row of any kind but segment.joined and segment.left leaves its contact queued once, as of the row's instant, and one of these two leaves the queue as it was |
| WorkspaceDatabase.Workspace.InsertTimelineRow | internal/database/init.go:837-852 | an insert with its enrolments and then its queue entry ends, and its new database is the specification's |
| WorkspaceDatabase.Workspace.AutomationEnrollContact | internal/database/init.go:1195-1280 | the whole enrolment: log, row, statistics, execution and start row together, or nothing, or an aborted statement |
| WorkspaceDatabase.Workspace.TrackContactChanges | internal/database/init.go:487-542 | its new database is the old one with exactly the contact's timeline row and that row's cascade |
| WorkspaceDatabase.Workspace.TrackContactListChanges | internal/database/init.go:544-605 | the same for a subscription row: deletion first, then a status change, otherwise nothing |
| WorkspaceDatabase.Workspace.TrackMessageHistoryChanges | internal/database/init.go:607-659 | the same for a message: up to six rows in their fixed order |
| WorkspaceDatabase.Workspace.TrackInboundWebhookEventChanges | internal/database/init.go:661-679 | the same for an inbound event |
| WorkspaceDatabase.Workspace.TrackContactSegmentChanges | internal/database/init.go:681-704 | the same for joining and leaving a segment |
| WorkspaceDatabase.Workspace.TrackCustomEventTimeline | internal/database/init.go:761-835 | the same for a custom event, with the property difference on updates |
| WorkspaceDatabase.Workspace.UpdateContactListsOnStatusChange | internal/database/init.go:729-759 | complaint first, then bounce, each overwriting only a lesser status, each with the list triggers it fires |
| WorkspaceDatabase.Workspace.WebhookContacts | internal/database/init.go:855-930 | one delivery for each enabled subscription that asks for the kind, and no other change |
| WorkspaceDatabase.Workspace.WebhookContactLists | internal/database/init.go:932-999 | likewise for the subscription's event word |
| WorkspaceDatabase.Workspace.WebhookContactSegments | internal/database/init.go:1001-1047 | likewise for segment membership |
| WorkspaceDatabase.Workspace.WebhookMessageHistory | internal/database/init.go:1049-1110 | likewise for the message's event, by fixed priority |
| WorkspaceDatabase.Workspace.WebhookCustomEvents | internal/database/init.go:1112-1193 | likewise for custom events, under goal-type and name filters |
| WorkspaceDatabase.Workspace.Execute | internal/database/init.go:837-852 | a statement either commits its row change with its complete cascade or leaves every table as it was |
| Runs.StepEffect | internal/database/init.go:487-852 | a committed statement adds exactly its own rows, those of the statuses it overwrites, and start rows of enrolments; and exactly the matching deliveries |
| Runs.RunExtends | internal/database/init.go:245-260 | the timeline and the deliveries only ever grow, over any run |
| Runs.WideKindAborts | internal/database/init.go:245-260 | among the rows a trigger function inserts, one whose kind is too wide aborts the statement, whatever the others start |
| CascadeLaws.EveryCascadeEnds | internal/database/init.go:1195-1280 | under any configuration, validated or not, a timeline insert's cascade ends: at one level more than there are automations still free to enrol the contact, and deeper levels compute the same database |
| CascadeLaws.TwoLevelsSuffice | internal/database/init.go:837-852 | under validated automations timeline inserts never nest more than two deep: giving the cascade more levels computes the same database |
| CascadeLaws.OneLevelIffNoEnrolment | internal/database/init.go:1264-1277 | the second level is needed exactly by the rows that create an enrolment |
| CascadeLaws.CascadeIsBounded | internal/database/init.go:837-852 | one statement writes at most eight timeline rows and one more per row and automation trigger |
| LiveTriggers.StartableIff | internal/domain/automation.go:52-75 | a validated trigger without further conditions is started by some run if and only if its kind is none of the eight dead ones, its event name has at most 37 characters, its updated fields may be named, and one of them is tracked; the runs are exhibited |
| LiveTriggers.DeadTriggersNeverFire | internal/service/automation_trigger_generator.go:102-165 | no run, from any database, adds a row that fires a trigger outside that condition |
| LiveTriggers.DeadValidKinds | internal/domain/automation.go:52-75 | which of the valid kinds are the dead ones |
| CommitLaws.OneRowCommitsIff | internal/database/init.go:837-852 | a statement that records one row commits if and only if its key is new, the row's kind fits and each automation it starts exists and has no enrolment of the contact at that instant, or is `once` and logged |
| CommitLaws.InsertEventCommitsIff | internal/database/init.go:761-835 | inserting a custom event commits if and only if its name has at most 37 characters, its key is new and no automation on that name whose condition holds is missing or has enrolled the contact at that instant, but for `once` ones already logged |
| CommitLaws.UnheardEventCommitsIff | internal/database/init.go:761-835 | with no waiting automation, name and key alone decide |
| CommitLaws.WideRowNeverCommits | internal/database/init.go:245-260 | a statement with a row of its own too wide for the kind column never commits |
| CommitLaws.LongEventNamesAreRejected | internal/database/init.go:761-835 | whatever the automations, a longer name never commits and changes nothing |
| Webhooks.OneDeliveryEach | internal/database/init.go:1122-1189 | a subscription is inserted exactly one delivery of an event if it is enabled and names the kind, and, for custom events, each of its two limits is absent, empty or contains the event's value; otherwise none |
| Webhooks.NoneForOthers | internal/database/init.go:1122-1189 | no delivery is addressed to anyone who is not subscribed |
| Announcements.ContactStepsTell | internal/database/init.go:855-930 | a committed insert, update or delete of a contact tells each such subscription exactly created, updated unless all 33 columns are the same, or deleted, with the row |
| Announcements.ListStepsTell | internal/database/init.go:932-999 | a subscription row is told of by its status, a changed one by its change of status first and its removal only else |
| Announcements.MemberStepsTell | internal/database/init.go:1001-1047 | a new membership is told as segment.joined, an erased one as segment.left, with the segment's name if there is one |
| Announcements.MessageStepTells | internal/database/init.go:1049-1110 | an updated message is told of once, for the first of six timestamps to go from NULL to set, or not at all if none does |
| Announcements.EventStepsTell | internal/database/init.go:1112-1193 | a custom event is told as created, updated or deleted, by whether it was and is deleted, exactly to the subscriptions whose limits it meets |
| Announcements.OtherStepsTell | internal/database/init.go:1049-1058 | a new message is told as email.sent; other tables and missing rows tell nobody anything |
| Announcements.NothingElseIsTold | internal/database/init.go:1122-1189 | over any run a subscription is only ever told of kinds it names while enabled, and never of a custom event outside its event names, or without one of its goal types, if it lists any |
| Announcements.FiltersConcernEventsOnly | internal/database/init.go:1174-1182 | filters hold back nothing but custom events |
| Records.ContactsWritten | internal/database/init.go:487-542 | a committed statement on contacts changes its own row as asked and no other; other statements change none |
| Records.ListsWritten | internal/database/init.go:544-605 | the same for subscriptions, but for message updates |
| Records.MessagesWritten | internal/database/init.go:607-659 | the same for messages |
| Records.MembersWritten | internal/database/init.go:681-704 | the same for segment memberships |
| Records.EventsWritten | internal/database/init.go:761-835 | the same for custom events |
| Records.InboundWritten | internal/database/init.go:661-679 | the same for inbound events |
| Records.MissingRowChangesNothing | internal/database/init.go:837-852 | changing a row that is not there changes nothing anywhere |
| Records.ContactStepsRecord | internal/database/init.go:487-542 | besides enrolments, an insert records contact.created, an update contact.updated unless every tracked column is the same, a delete nothing |
| Records.ListStepsRecord | internal/database/init.go:544-605 | an insert records the status, an update a removal wherever deleted_at is set anew, and only else a change of status, each as one row with both values |
| Records.MessageStepsRecord | internal/database/init.go:607-659 | an insert records what was sent; an update one row for each of five timestamps set or moved, under its own prefix and in order, then one naming exactly the status columns that differ |
| Records.InboundStepsRecord | internal/database/init.go:661-679 | an inbound event records one row with exactly the details that are neither NULL nor empty |
| Records.MemberStepsRecord | internal/database/init.go:681-704 | joining and leaving record one row each, with the segment and version |
| Records.EventStepsRecord | internal/database/init.go:761-835 | a custom event records one row under its own name, with the goal columns it has, or those that differ and the property difference |
| Records.OtherStepsRecord | internal/database/init.go:837-852 | removals from the queue, direct enrolments and missing rows record nothing of their own |
| EnrolmentLaws.HearsIffFires | internal/service/automation_trigger_generator.go:102-165 | a validated trigger fires on a recorded row exactly if the row is of its kind, about its list or segment, mentions one of its fields and meets its condition |
| EnrolmentLaws.EnrolCallIs | internal/database/init.go:1195-1280 | a direct call does nothing if it is `once` and the pair is logged; otherwise it commits if and only if the automation exists and has no row for the contact at that instant, and writes exactly one row in each table, whatever was there before |
| EnrolmentLaws.StepEnrols | internal/database/init.go:1195-1280 | a committed statement adds exactly one enrolment, with these fields and in this order, for each call it makes, directly or by a trigger that hears a row it added, but for `once` calls of logged pairs |
| EnrolmentLaws.EnrolledAreHeard | internal/service/automation_trigger_generator.go:102-165 | whoever a statement on another table enrols is the contact of a row it added that a trigger of that automation hears |
| EnrolmentLaws.UnheardEnrolNobody | internal/service/automation_trigger_generator.go:102-165 | rows that no trigger hears enrol and log nobody |
| EnrolmentLaws.OtherListsEnrolNobody | internal/service/automation_trigger_generator.go:115-118 | a statement about one list enrols nobody into automations on other lists |
| EnrolmentLaws.RunEnrols | internal/database/init.go:1195-1280 | over any run a pair has one more row for each committed call that is not `once`, every time; it is logged exactly if it was or a `once` call was made; and `once` calls add one row if it was not logged, else none |
| ContactHistory.ColumnsAre | internal/database/init.go:496-532 | the columns compared are thirteen by name and five of each of four custom families |
| ContactHistory.AllowedFieldsAre | internal/service/automation_trigger_generator.go:13-33 | updated_fields may name the columns tracked, but for full_name and job_title, and photo_url, which is not tracked |
| ContactHistory.ContactHistoryReplays | internal/database/init.go:487-542 | over any run, folding the recorded new values over the first row gives the last on all tracked fields, and folding the old values backwards gives the first, up to JSON nulls |
| ContactHistory.ContactHistoryIsExact | internal/database/init.go:487-542 | on every tracked column, JSON included, the replay is exact if and only if the last row holds no JSON null, and the rewind if and only if the first holds none |
| ContactHistory.SameColumns | internal/database/init.go:867-905 | the two separately written column lists name the same 33 columns |
| ContactHistory.ContactClassifiersAgree | internal/database/init.go:867-905 | an update writes a timeline row exactly when the webhook's own comparison lets contact.updated through |
| ContactHistory.UpdatesSentMatchUpdatesRecorded | internal/database/init.go:855-930 | over any run a subscriber is told of exactly as many updates as were recorded |
| PropertyHistory.PropertyHistoryReplays | internal/database/init.go:787-815 | over any run the recorded property differences carry the first properties to the last and back, up to JSON nulls |
| PropertyHistory.PropertyHistoryIsExact | internal/database/init.go:787-815 | the replay gives exactly the last properties if and only if they hold no JSON null, the rewind exactly the first if and only if those hold none |
| SegmentQueue.QueueAgreesWithTimeline | internal/database/init.go:706-727 | over any run a contact is queued if and only if a row other than a membership row was inserted for it since its last removal, and as of the latest such row |
| SegmentQueue.QueueFollowsTimeline | internal/database/init.go:706-727 | the same from any starting queue, for contacts nothing removes |
| SegmentQueue.MembershipRequeuesOnlyByEnrolment | internal/database/init.go:681-727 | a membership change leaves the queue alone unless it enrols the contact into an automation, and then it queues it |
| SegmentStream.MembershipAlternates | internal/database/init.go:681-704 | over any run the timeline and a subscriber to both events say the same of a membership: joining and leaving in turn, beginning as it stood, and their number tells whether it stands at the end |
| SuppressionLaws.SuppressedRowIs | internal/database/init.go:729-759 | after one statement a subscription is as it was, or has the worst status newly set on a message to its contact through its list, if worse than its own, with that event's instant |
| SuppressionLaws.StatusIsWorstReported | internal/database/init.go:729-759 | over any run that does not write the subscription itself, its status ends as the worst of its first status and the bounces and complaints that message updates set from NULL; its rank never falls, and it records at most one row per rank gained |
| SuppressionLaws.SuppressionIsConfluent | internal/database/init.go:729-759 | runs that report the same kinds of events, however ordered, repeated or grouped, end with the same status |
| SuppressionLaws.BothAtOnceIsComplained | internal/database/init.go:729-759 | one update that reports both ends complained with a single recorded row |
| ListStreams.TransitionsAgreeIffClean | internal/database/init.go:943-976 | for one update between any two statuses the webhook word equals the timeline word, pending rows erased, if and only if the update does not delete while doing something else, and the status stays, ends other than active in a status both know, or becomes active from pending or a suppressed one |
| ListStreams.InsertionsAgreeIffValid | internal/database/init.go:544-605 | for an insertion, exactly when the status is one of the five |
| ListStreams.ListWordsAgree | internal/database/init.go:943-976 | over any clean run the words agree letter for letter, the cascade's own status changes included |
| ListStreams.TransitionReplays | internal/database/init.go:544-605 | one update's rows replay its status exactly when it does not delete and change status at once |
| ListStreams.TimelineRebuildsStatus | internal/database/init.go:544-605 | over any run without an update that deletes and changes status at once, replaying the recorded status changes rebuilds the current status, whatever the statuses |
| EmailStream.EventIsFirstNew | internal/database/init.go:1058-1105 | an update raises an event exactly when it newly sets a timestamp, and then the first in the fixed priority |
| EmailStream.EmailWord | internal/database/init.go:1058-1105 | while timestamps only go from NULL to set: each kind at most once, each newly set, as many as updates that set something, and as many as timestamps set if and only if never two at once |
| EmailStream.WholeEmailStream | internal/database/init.go:1049-1110 | from before the message existed: nothing until it is inserted, email.sent, then the word above |
| EventStream.AutomatonIsTheExpression | internal/database/init.go:1126-1150 | the three-state automaton accepts exactly the prefixes of [deleted] (created updated* deleted)* |
| EventStream.StreamDrives | internal/database/init.go:1112-1193 | over any run what a subscriber hears of one custom event drives the automaton from the row's first state to its last |
| EventStream.StreamIsRegular | internal/database/init.go:1112-1193 | from a row that did not exist it is such a prefix, empty only if the row still does not exist, and its last letter tells whether the row is live |
| Accounting.EnrolmentAccounting | internal/database/init.go:1195-1280 | over any serial run: one entered execution and one start row per enrolment, statistics risen by the number of rows; and, whatever other frequencies an automation is entered with, once calls have created at most one row per automation and contact, exactly one where the trigger log says so (how many rows there are is EnrolmentLaws.RunEnrols) |
| EnrolRace.OnceIffOneEarlyLook | internal/database/init.go:1204-1236 | in every interleaving of ended calls the rows created are the calls that looked before the first commit, less those rolled back or rejected by the unique triple, so once holds if and only if these are at most one |
| EnrolRace.OverlapEnrolsTwice | internal/database/init.go:1204-1236 | a call that looks between another's insert and its commit can enrol the contact again, if and only if they started at different instants |
| EventBus.CallbackAtMostOnceAfterAll | internal/domain/event.go:76-158 | in every interleaving the callback runs at most once and only after all per-handler goroutines |
| EventBus.EveryRunEnds | internal/domain/event.go:76-158 | no interleaving takes more than 6n + 3 steps |
| EventBus.CleanSendsSucceed | internal/domain/event.go:93-130 | while no handler has both panicked and timed out, a pending send finds the channel open and with room |
| EventBus.CleanRunsAcknowledge | internal/domain/event.go:76-158 | every run that has settled, handlers hanging for ever included, and in which none both panicked and timed out has called back once: nil if and only if none failed, else counting exactly those that did |
| EventBus.AcknowledgesIffEventsFit | internal/domain/event.go:76-158 | any settled run that has not crashed, handlers hanging for ever included, has called back if and only if panics and deadlines together are at most the number of handlers, reporting that total |
| EventBus.SettlesWithoutHandlers | internal/domain/event.go:88-158 | from every state the other goroutines bring the run to settle, without any handler returning or panicking |
| EventBus.CrashesIffLatePanic | internal/domain/event.go:108-138 | a settled run has crashed if and only if some handler missed its deadline and had panicked without having reported it once the channel was closed |
| EventBus.LatePanicIsFatal | internal/domain/event.go:108-138 | from such a state every run that settles has crashed |
| EventBus.CrashesIffPanicAfterClose | internal/domain/event.go:108-138 | in any run, a crash is a panic reported after the channel was closed; no deadline is |
| EventBus.OnlyBothCanFail | internal/domain/event.go:76-158 | a run that crashes, or settles unacknowledged, contains a handler that did both |
| EventBus.BothCanBlockForever | internal/domain/event.go:93-130 | one handler doing both can leave the publisher waiting for good |
| EventBus.BothCanCrash | internal/domain/event.go:108-138 | one handler doing both can send on the closed channel |
| EventBus.InMemoryEventBus.Subscribe | internal/domain/event.go:177-188 | appends the handler to its event type and changes nothing else |
| EventBus.InMemoryEventBus.Unsubscribe | internal/domain/event.go:190-211 | never removes a subscriber |
| EventBus.InMemoryEventBus.PublishWithAck | internal/domain/event.go:76-92 | without subscribers the callback has been called with nil on return; otherwise, in every interleaving from the state it leaves, the callback comes at most once and only when each handler has ended or missed its deadline, no run exceeds 6n + 3 steps, and once nothing but hanging handlers is left it has come, barring a crash, exactly if panics and deadlines do not outnumber the subscribers |
| ShutdownGate.CountsAreExact | internal/app/app.go:1808-1818 | in every interleaving both counts are the requests between their own increment and decrement, hence never negative |
| ShutdownGate.NobodyEntersAfterCancel | internal/app/app.go:1838-1868 | after shutdownCancel the requests past the gate and not finished never grow |
| ShutdownGate.WaitMissesOnlyUnjoined | internal/app/app.go:1808-1868 | when the wait can return, exactly the requests between check and Add are still in flight; none is, then or later, if and only if there are no such requests |
| ShutdownGate.App.ShutdownCancel | internal/app/app.go:1411-1415 | cancelling is the machine's cancel step and touches neither count |
| ShutdownGate.App.IncrementActiveRequests | internal/app/app.go:1808-1812 | the two updates are the machine's two steps, with a point between them where only the counter has moved |
| ShutdownGate.App.GracefulShutdownMiddleware | internal/app/app.go:1850-1868 | served exactly when not shutting down; alone, a request goes through the machine's steps and leaves both counts as it found them |
| ShutdownGate.ServedAfterWait | internal/app/app.go:1850-1868 | such a request can be served after the wait |
| Slug.NormalizeSlug | internal/domain/blog.go:747-771 | the result is the text's alphanumeric words joined by single hyphens; TrimSpace makes no difference |
| Slug.CollapseHyphens | internal/domain/blog.go:762-765 | the replacement loop ends and equals a one-pass collapse of hyphen runs |
| Slug.KeepSlugRunes | internal/domain/blog.go:753-760 | the builder holds the slug runes, in order |
| Slug.SlugIsValidOrEmpty | internal/domain/blog.go:747-771 | every result matches the slug pattern or is empty, and matches if and only if some rune lowers to a letter or digit |
| Slug.SlugFixpoints | internal/domain/blog.go:747-771 | the texts left as they are are exactly the valid slugs and the empty one |
| Slug.SlugIsIdempotent | internal/domain/blog.go:747-771 | normalising twice is normalising once |
| Slug.SlugKeepsLettersAndDigits | internal/domain/blog.go:753-760 | all lowered letters and digits survive, in order |
| Slug.PatternIsLocal | internal/domain/blog.go:21-21 | the pattern is equivalent to: non-empty, slug characters, no hyphen first, last or doubled |
| Calendar.DateOfDayNumber | internal/domain/broadcast.go:256-257 | the date recovered from a valid date's day number is that date |
| Calendar.DayNumberOfDate | internal/domain/broadcast.go:256-257 | the day number of the date recovered from a day is that day |
| Schedule.ScheduleSettings.SetScheduledDateTime | internal/domain/broadcast.go:238-259 | blanks for the zero time, an unchanged object on an unknown timezone, otherwise the printed wall clock and the timezone if one was given |
| Schedule.ScheduleSettings.ParseScheduledDateTime | internal/domain/broadcast.go:208-235 | reads without changing: the zero time for blanks, an error, or the moment the wall clock shows |
| Schedule.SetThenParse | internal/domain/broadcast.go:208-259 | the exact outcome of parsing what was written, for every time, timezone and previous settings |
| Schedule.RoundTrip | internal/domain/broadcast.go:208-259 | the instant comes back, cut to the minute, if and only if the year has four digits and the timezone kept has the offset printed at |
| Schedule.UtcRoundTrip | internal/domain/broadcast.go:208-259 | UTC times of years 0 to 9999 with a blank timezone come back cut to the minute |
| Schedule.ZeroRoundTrip | internal/domain/broadcast.go:238-244 | the zero time maps to itself through blanks |
| Schedule.WrittenPassesIffParsed | internal/domain/broadcast.go:396-409 | what was written passes the shape checks exactly when it parses; only a year without four digits fails them |
| Schedule.ParseThenSet | internal/domain/broadcast.go:208-259 | a schedule that validates and parses is written back unchanged if and only if its clock has no leading space and it is not the zero time |
| Schedule.PaddedHourParses | internal/domain/broadcast.go:396-409 | a space-padded hour does validate and parse |
| Schedule.FirstMidnightIsZero | internal/domain/broadcast.go:208-243 | so does midnight of the first day, which is the zero time |
| SegmentTree.AnswerIsFirst | internal/domain/tree.go:446-494 | for every tree the answer, a panic included, is that of the first leaf that decides |
| SegmentTree.ValidTreeHasSoundLeaves | internal/domain/tree.go:82-156 | a valid tree reaches at least one leaf, and all it reaches are valid |
| SegmentRules.PassesIffSound | internal/domain/tree.go:82-173 | Validate lets through exactly the trees that are sound: branches of and/or over children that are, leaves with the payload their source names |
| SegmentRules.LeafIsSound | internal/domain/tree.go:126-156 | a leaf passes exactly if that payload is there and keeps its rules; other payloads do not matter |
| SegmentRules.FilterIsSound | internal/domain/tree.go:307-403 | a filter passes exactly with a field, one of four types, an operator, a path on custom JSON fields only and where one is needed, and the values its type and operator call for |
| SegmentRules.TimelineIsSound | internal/domain/tree.go:189-234 | the rules of a timeline condition, both directions |
| SegmentRules.GoalIsSound | internal/domain/tree.go:237-304 | the rules of a goal condition, both directions |
| SegmentRules.RefusalPointsAtFirst | internal/domain/tree.go:104-124 | a branch refused for a child is refused for the first unsound one, with that child's own fault |
| SegmentTree.AnswerIsRightIff | internal/domain/tree.go:446-494 | for every valid tree: if no condition is relative, the answer is right exactly when no stray payload is relative or nil-containing; if one is, exactly when the first leaf the search stops at does not make it read through nil; and it panics exactly when that leaf does |
| SegmentTree.ValidAnswerIsRight | internal/domain/tree.go:446-494 | in particular, for leaves with only their own payload: no nil is met, and true if and only if some condition is relative |
| SegmentTree.StrayPayloadDecides | internal/domain/tree.go:126-156 | on a valid list leaf a stray contact payload passes validation and alone decides the answer, or panics |
| SegmentTree.TimelineFiltersIgnored | internal/domain/tree.go:464-474 | in every tree, replacing the filters of all timeline conditions leaves the answer as it is |
| SegmentJson.RoundTrip | internal/domain/tree.go:404-432 | a map exists exactly when every float is finite and the tree nests at most 10000 deep; from it comes the same tree up to empty omitempty slices if and only if every count is, of the integers that become the same double, the one with the most trailing zeros and then the nearest |
| SegmentJson.SameTreeComesBack | internal/domain/tree.go:404-432 | without empty omitempty slices that is the very same tree, every field of it |
| SegmentJson.ShallowTreesFit | internal/domain/tree.go:404-418 | with at most 3331 branches on any way down a tree does not nest too deep |
| SegmentJson.ConversionPreserves | internal/domain/tree.go:404-432 | with counts within 2^53 and a map, conversion preserves the verdict of Validate, the answer of HasRelativeDates and the map itself |
| Numerals.CarriedIff | internal/domain/tree.go:404-432 | rounding to the nearest double, writing with the fewest digits that read back, nearest first, and reading as an int gives the int exactly under that condition on trailing zeros and distance |
| Numerals.NotADoubleButCarried | internal/domain/tree.go:404-432 | an int that is no double can come back all the same |
| Numerals.SmallIntegersCarry | internal/domain/tree.go:404-432 | rounding an int within 2^53 to a double, writing it with the fewest digits that read back and reading it as an int gives the int |
| Numerals.NextIntegerDoesNot | internal/domain/tree.go:404-432 | the bound is tight: 2^53 + 1 comes back as 2^53 |
| SegmentJson.CanonKeepsVerdict | internal/domain/tree.go:82-173 | emptying omitempty slices changes neither verdict nor answer, for any tree |
| BroadcastUpdate.Broadcast.Validate | internal/domain/broadcast.go:321-428 | returns the first broken rule, in the order the rules are checked |
| BroadcastRules.FirstBrokenIsReported | internal/domain/broadcast.go:321-428 | Validate reports a rule exactly if the broadcast breaks it and none that comes before, and nothing exactly if it breaks none |
| BroadcastRules.AcceptedIffNothingBroken | internal/domain/broadcast.go:481-535 | over any run a request is accepted exactly if id, workspace and one of three statuses let it in and its draft with the feed settings in force breaks no rule |
| BroadcastRules.ByteLengthCounts | internal/domain/broadcast.go:330-332 | the length checked is that in UTF-8, one byte more past each of three bounds |
| BroadcastUpdate.ValidateUpdate | internal/domain/broadcast.go:481-535 | the broadcast afterwards and the verdict, accepted or not; only the feed object it has or adopts is written |
| BroadcastUpdate.MergeFeed | internal/domain/broadcast.go:505-526 | supplied settings replace, fetched data stays; an adopting broadcast shares the request's object |
| BroadcastUpdate.RunInClosedForm | internal/domain/broadcast.go:481-535 | over any requests: id, workspace, status and progress constant; draft of the last admitted; each feed setting the last non-nil one; fetched data of the first feed |
| BroadcastUpdate.LastGivenMeans | internal/domain/broadcast.go:514-520 | the last non-nil value: supplied by someone and by nobody later, or initial and supplied by nobody |
| BroadcastUpdate.FetchedDataIsKept | internal/domain/broadcast.go:505-526 | once there is a feed it stays, with its data and timestamp |
| BroadcastUpdate.RefusedLeaveNoTrace | internal/domain/broadcast.go:482-495 | a run is the run of the requests not refused on id, workspace or status |
| BroadcastUpdate.AcceptedIff | internal/domain/broadcast.go:481-535 | a request is accepted exactly when admitted, its draft is sound, and the feed settings in force are, whoever supplied them |
| BroadcastUpdate.UnsoundFeedSticks | internal/domain/broadcast.go:528-535 | an unsound global or recipient feed, though rejected, keeps later requests out until an admitted one replaces it |
| BroadcastUpdate.UnchangedIff | internal/domain/broadcast.go:481-535 | a request, accepted or rejected, leaves the broadcast as it was if and only if it is refused on id, workspace or status or repeats what is there |
| BroadcastUpdate.RefusedIff | internal/domain/broadcast.go:482-495 | those three errors are reported exactly for the requests that are not admitted, workspace before id before status |
| Backoff.DelayIsIntendedWrapped | internal/domain/email_queue.go:192-200 | for every attempt and base the machine's delay is the intended one modulo 2^64 |
| Backoff.ExactIffFits | internal/domain/email_queue.go:192-200 | it is exact if and only if the intended delay is a 64-bit duration |
| Backoff.DefaultIsExactTo28 | internal/domain/email_queue.go:181-200 | with the default minute, exactly up to attempt 28 |
| Backoff.DefaultAfter28 | internal/domain/email_queue.go:181-200 | attempt 29 is in the past, and there is no delay exactly from attempt 54 on |
| Backoff.DelaysDouble | internal/domain/email_queue.go:192-200 | within the bound each attempt waits twice as long |
| Backoff.TotalWait | internal/domain/email_queue.go:192-200 | m retries wait (2^m - 1) times the base |

## Left out

- Statements that change several rows or a row's primary key; deletes of subscriptions, messages and custom events.
- Transactions of several statements, isolation levels and locks: a run executes one statement at a time; only overlapping enrolments are interleaved.
- Column widths other than that of contact_timeline.kind; constraints other than primary keys, the enrolment's foreign key and its unique triple.
- Configuration changes inside a statement: automations and webhook subscriptions may change between statements only.
- An automation trigger's tree condition is a predicate of the inserted row; the SQL generated from it is not modelled.
- What the automation executor does with an enrolment later, and statistics other than `enrolled`.
- A contact's columns are JSON values; SQL NULL is an absent key.
- Generated ids are a counter, NOW() is a parameter of the statement.
- Webhook payloads carry the row, not its JSON text; delivery, retries and signing.
- Overlapping enrolments read committed data, the default isolation level; at a stricter one the waiting insert would fail instead.
- Runs.WideKindAborts: PostgreSQL cuts excess trailing spaces instead of failing; a custom event name padded with spaces, which the API's name pattern does not allow, would be cut and stored.
- CommitLaws.InsertEventCommitsIff: the same holds of its bound on the name.
- Publish without acknowledgement, and the error texts passed to the callback.
- The shutdown counters and nanosecond sums other than the retry delay are unbounded integers.
- Shutdown's timeouts and the server's own shutdown; only cancel and wait are modelled.
- Named timezones and daylight saving: a timezone is a fixed offset, and which names load is a parameter.
- Schedule.ScheduleSettings.ParseScheduledDateTime: strings are ASCII; error values keep only their kind.
- Slugs: invalid UTF-8 and the Unicode tables; lower case and white space beyond ASCII are parameters, about which nothing is assumed.
- SegmentJson: JSON text, case-insensitive key matching and the text of fractional floats; between two equally short and near decimal texts of a double the lower is taken.
- SegmentTree: floats are reals or not finite; error texts are rule names.
- BroadcastUpdate: whether a feed URL is acceptable is a parameter; a variation's metrics and joined template are not part of the model.
- BroadcastUpdate.RunInClosedForm: about values at the time of each request; a request object whose feed was adopted and is used again is not covered, as MergeFeed says.
- HTTP handlers, provider settings, templates, request validators without interaction, and the repositories.
