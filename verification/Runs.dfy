/**
 Statements on the workspace tables and runs of them. A statement that raises an error
 leaves the database as it was. The configuration (live automation triggers, webhook
 subscriptions) may differ from one statement of a run to the next.
 */
module Runs {
  import opened Prelude
  import opened Tables
  import opened Automations
  import opened Triggers
  import opened Cascade

  datatype Statement =
    | InsertContact(email: string, contact: Contact)
    | UpdateContact(email: string, contact: Contact)
    | DeleteContact(email: string)
    | InsertList(email: string, listId: string, row: ListRow)
    | UpdateList(email: string, listId: string, row: ListRow)
    | InsertMessage(id: string, message: Message)
    | UpdateMessage(id: string, message: Message)
    | InsertMember(email: string, segmentId: string, member: Member)
    | DeleteMember(email: string, segmentId: string)
    | InsertEvent(name: string, externalId: string, event: CustomEvent)
    | UpdateEvent(name: string, externalId: string, event: CustomEvent)
    | InsertInbound(inboundEvent: InboundEvent)
    | Dequeue(emails: set<string>)
    | EnrolContact(automationId: string, email: string, rootNodeId: string, frequency: string)

  datatype Step = Step(c: ValidConfig, now: Time, statement: Statement)

  predicate PrimaryKeyClash(d: Db, s: Statement) {
    match s
    case InsertContact(email, _) => email in d.contacts
    case InsertList(email, listId, _) => (email, listId) in d.lists
    case InsertMessage(id, _) => id in d.messages
    case InsertMember(email, segmentId, _) => (email, segmentId) in d.members
    case InsertEvent(name, externalId, _) => (name, externalId) in d.events
    case InsertInbound(e) => e.id in d.inbound
    case _ => false
  }

  function ContactsAfter(d: Db, s: Statement): map<string, Contact> {
    if s.InsertContact? || (s.UpdateContact? && s.email in d.contacts) then d.contacts[s.email := s.contact]
    else if s.DeleteContact? then d.contacts - {s.email}
    else d.contacts
  }

  function ListsAfter(d: Db, s: Statement): map<(string, string), ListRow> {
    if s.InsertList? || (s.UpdateList? && (s.email, s.listId) in d.lists) then d.lists[(s.email, s.listId) := s.row]
    else d.lists
  }

  function MessagesAfter(d: Db, s: Statement): map<string, Message> {
    if s.InsertMessage? || (s.UpdateMessage? && s.id in d.messages) then d.messages[s.id := s.message] else d.messages
  }

  function MembersAfter(d: Db, s: Statement): map<(string, string), Member> {
    if s.InsertMember? then d.members[(s.email, s.segmentId) := s.member]
    else if s.DeleteMember? then d.members - {(s.email, s.segmentId)}
    else d.members
  }

  function EventsAfter(d: Db, s: Statement): map<(string, string), CustomEvent> {
    if s.InsertEvent? || (s.UpdateEvent? && (s.name, s.externalId) in d.events)
    then d.events[(s.name, s.externalId) := s.event]
    else d.events
  }

  /** The row change a statement asks for, before any trigger. */
  function Direct(d: Db, s: Statement): Db {
    d.(contacts := ContactsAfter(d, s),
       lists := ListsAfter(d, s),
       messages := MessagesAfter(d, s),
       members := MembersAfter(d, s),
       events := EventsAfter(d, s),
       inbound := if s.InsertInbound? then d.inbound[s.inboundEvent.id := s.inboundEvent] else d.inbound,
       queue := if s.Dequeue? then d.queue - s.emails else d.queue)
  }

  /** The timeline rows inserted by the statement's own row trigger. */
  function RowsOf(d: Db, s: Statement, now: Time): seq<TimelineRow> {
    match s
    case InsertContact(email, contact) => ContactRows(email, Inserted(contact), now)
    case UpdateContact(email, contact) =>
      if email in d.contacts then ContactRows(email, Updated(d.contacts[email], contact), now) else []
    case InsertList(email, listId, row) => ListRows(email, listId, Inserted(row), now)
    case UpdateList(email, listId, row) =>
      if (email, listId) in d.lists then ListRows(email, listId, Updated(d.lists[(email, listId)], row), now) else []
    case InsertMessage(id, m) => MessageRows(id, Inserted(m), now)
    case UpdateMessage(id, m) =>
      if id in d.messages then MessageRows(id, Updated(d.messages[id], m), now) else []
    case InsertMember(email, segmentId, m) => SegmentRows(email, segmentId, Inserted(m), now)
    case DeleteMember(email, segmentId) =>
      if (email, segmentId) in d.members
      then SegmentRows(email, segmentId, Deleted(d.members[(email, segmentId)]), now) else []
    case InsertEvent(name, externalId, e) => EventRows(name, externalId, Inserted(e), now)
    case UpdateEvent(name, externalId, e) =>
      if (name, externalId) in d.events
      then EventRows(name, externalId, Updated(d.events[(name, externalId)], e), now) else []
    case InsertInbound(e) => InboundRows(e, now)
    case _ => []
  }

  /** The outgoing event raised by the statement's own webhook trigger. */
  function WebhookOf(c: Config, d: Db, s: Statement): Option<Webhook> {
    match s
    case InsertContact(email, contact) => ContactWebhook(email, Inserted(contact))
    case UpdateContact(email, contact) =>
      if email in d.contacts then ContactWebhook(email, Updated(d.contacts[email], contact)) else None
    case DeleteContact(email) =>
      if email in d.contacts then ContactWebhook(email, Deleted(d.contacts[email])) else None
    case InsertList(email, listId, row) => ListWebhook(c, email, listId, Inserted(row))
    case UpdateList(email, listId, row) =>
      if (email, listId) in d.lists
      then ListWebhook(c, email, listId, Updated(d.lists[(email, listId)], row)) else None
    case InsertMessage(id, m) => MessageWebhook(id, Inserted(m))
    case UpdateMessage(id, m) => if id in d.messages then MessageWebhook(id, Updated(d.messages[id], m)) else None
    case InsertMember(email, segmentId, m) => SegmentWebhook(c, email, segmentId, Inserted(m))
    case DeleteMember(email, segmentId) =>
      if (email, segmentId) in d.members
      then SegmentWebhook(c, email, segmentId, Deleted(d.members[(email, segmentId)])) else None
    case InsertEvent(name, externalId, e) => EventWebhook(name, externalId, Inserted(e))
    case UpdateEvent(name, externalId, e) =>
      if (name, externalId) in d.events
      then EventWebhook(name, externalId, Updated(d.events[(name, externalId)], e)) else None
    case _ => None
  }

  /** The list statuses update_contact_lists_on_status_change writes for the statement. */
  datatype Target = Target(email: string, listId: Option<string>, suppressions: seq<Suppression>)

  function TargetOf(d: Db, s: Statement): Target {
    match s
    case UpdateMessage(id, m) =>
      if id in d.messages then Target(m.contactEmail, m.listId, Suppressions(d.messages[id], m))
      else Target("", None, [])
    case _ => Target("", None, [])
  }

  /**
   The statement with its whole cascade, before the decision to commit. Each table's
   triggers run in name order: timeline rows, then list statuses, then outgoing webhooks.
   */
  function Apply(c: ValidConfig, d: Db, s: Statement, now: Time): Db {
    if PrimaryKeyClash(d, s) then d.(aborted := true)
    else if s.EnrolContact? then Enroll(c, d, s.automationId, s.email, s.rootNodeId, s.frequency, now)
    else
      var d1 := InsertAll(c, Direct(d, s), RowsOf(d, s, now));
      var t := TargetOf(d, s);
      Deliver(c, SuppressAll(c, d1, t.email, t.listId, t.suppressions, now), WebhookOf(c, d, s))
  }

  predicate Commits(d: Db, step: Step) {
    !Apply(step.c, d, step.statement, step.now).aborted
  }

  function Exec(d: Db, step: Step): Db {
    if Commits(d, step) then Apply(step.c, d, step.statement, step.now) else d
  }

  function Run(d: Db, steps: seq<Step>): Db
    decreases |steps|
  {
    if steps == [] then d else Run(Exec(d, steps[0]), steps[1..])
  }

  lemma {:induction false} RunAppend(d: Db, a: seq<Step>, b: seq<Step>)
    ensures Run(d, a + b) == Run(Run(d, a), b)
    decreases |a|
  {
    if a == [] {
      assert a + b == b;
    } else {
      assert (a + b)[1..] == a[1..] + b;
      RunAppend(Exec(d, a[0]), a[1..], b);
    }
  }

  // ---------- what a cascade leaves alone ----------

  function IsSource(): TimelineRow -> bool {
    (r: TimelineRow) => !r.entity.AutomationEntity?
  }

  /** Timeline rows that triggers on ordinary tables wrote, without enrolment rows. */
  function Source(rows: seq<TimelineRow>): seq<TimelineRow> {
    Select(rows, IsSource())
  }

  ghost predicate SameTables(d: Db, r: Db) {
    && r.contacts == d.contacts
    && r.lists == d.lists
    && r.messages == d.messages
    && r.members == d.members
    && r.events == d.events
    && r.inbound == d.inbound
    && (d.aborted ==> r.aborted)
  }

  ghost predicate AreStarts(rows: seq<TimelineRow>, email: string, now: Time) {
    forall x :: x in rows ==>
      x.entity == AutomationEntity && x.kind == START_KIND && x.email == email && x.insertedAt == now
  }

  /** Between d and r, only start rows were added and no ordinary table or delivery. */
  ghost predicate OnlyStarts(d: Db, r: Db, email: string, now: Time) {
    && SameTables(d, r) && r.deliveries == d.deliveries
    && d.timeline <= r.timeline && AreStarts(Added(d.timeline, r.timeline), email, now)
  }

  lemma EnrollEffect(c: ValidConfig, d: Db, automationId: string, email: string, rootNodeId: string,
                     frequency: string, now: Time)
    ensures OnlyStarts(d, Enroll(c, d, automationId, email, rootNodeId, frequency, now), email, now)
  {
    var r := Enroll(c, d, automationId, email, rootNodeId, frequency, now);
    if !AlreadyTriggered(d, automationId, email, frequency) && MayEnrol(d, automationId, email, now) {
      var d1 := RecordEnrolment(d, automationId, email, rootNodeId, frequency, now);
      var row := StartRow(automationId, email, rootNodeId, now);
      assert r == Requeue(StoreRow(d1, row), row);
      assert Added(d.timeline, r.timeline) == [row];
    } else {
      assert Added(d.timeline, r.timeline) == [];
    }
  }

  lemma {:induction false} EnrollAllEffect(c: ValidConfig, d: Db, ts: seq<AutomationTrigger>, email: string, now: Time)
    ensures OnlyStarts(d, EnrollAll(c, d, ts, email, now), email, now)
    decreases |ts|
  {
    if ts != [] {
      var t := ts[0];
      var d1 := Enroll(c, d, t.automationId, email, t.rootNodeId, t.config.frequency, now);
      EnrollEffect(c, d, t.automationId, email, t.rootNodeId, t.config.frequency, now);
      EnrollAllEffect(c, d1, ts[1..], email, now);
      var r := EnrollAll(c, d, ts, email, now);
      AddedCompose(d.timeline, d1.timeline, r.timeline);
    }
  }

  lemma InsertTimelineEffect(c: ValidConfig, d: Db, row: TimelineRow)
    ensures var r := InsertTimeline(c, d, row);
            && SameTables(StoreRow(d, row), r) && r.deliveries == d.deliveries
            && d.timeline + [row] <= r.timeline
            && AreStarts(Added(d.timeline + [row], r.timeline), row.email, row.insertedAt)
  {
    hide Fires, Fired, Requeues, Enroll;
    var d1 := StoreRow(d, row);
    if row.kind == START_KIND {
      assert InsertTimeline(c, d, row) == Requeue(d1, row);
      assert Added(d.timeline + [row], d1.timeline) == [];
    } else {
      var d2 := EnrollAll(c, d1, Fired(c.triggers, row), row.email, row.insertedAt);
      EnrollAllEffect(c, d1, Fired(c.triggers, row), row.email, row.insertedAt);
      assert InsertTimeline(c, d, row) == Requeue(d2, row);
    }
  }

  /** Rows that no ordinary table's trigger wrote are enrolment start rows. */
  ghost predicate OthersAreStarts(rows: seq<TimelineRow>) {
    forall x :: x in rows && x.entity.AutomationEntity? ==> x.kind == START_KIND
  }

  lemma OneRowAdded(before: seq<TimelineRow>, row: TimelineRow, after: seq<TimelineRow>, email: string, now: Time)
    requires !row.entity.AutomationEntity?
    requires before + [row] <= after && AreStarts(Added(before + [row], after), email, now)
    ensures before <= after && Source(Added(before, after)) == [row] && OthersAreStarts(Added(before, after))
  {
    var starts := Added(before + [row], after);
    assert Added(before, after) == [row] + starts;
    SelectNone(starts, IsSource());
    SelectAppend([row], starts, IsSource());
    assert [row][1..] == [];
  }

  lemma LogsCompose(a: seq<TimelineRow>, b: seq<TimelineRow>, c: seq<TimelineRow>)
    requires a <= b <= c && OthersAreStarts(Added(a, b)) && OthersAreStarts(Added(b, c))
    ensures Source(Added(a, c)) == Source(Added(a, b)) + Source(Added(b, c)) && OthersAreStarts(Added(a, c))
  {
    AddedCompose(a, b, c);
    SelectAppend(Added(a, b), Added(b, c), IsSource());
  }

  lemma {:induction false} InsertAllEffect(c: ValidConfig, d: Db, rows: seq<TimelineRow>)
    requires forall x :: x in rows ==> !x.entity.AutomationEntity?
    ensures var r := InsertAll(c, d, rows);
            && SameTables(d, r) && r.deliveries == d.deliveries
            && d.timeline <= r.timeline && Source(Added(d.timeline, r.timeline)) == rows
            && OthersAreStarts(Added(d.timeline, r.timeline))
    decreases |rows|
  {
    if rows == [] {
      assert Added(d.timeline, d.timeline) == [];
    } else {
      var d1 := InsertTimeline(c, d, rows[0]);
      InsertTimelineEffect(c, d, rows[0]);
      OneRowAdded(d.timeline, rows[0], d1.timeline, rows[0].email, rows[0].insertedAt);
      InsertAllEffect(c, d1, rows[1..]);
      LogsCompose(d.timeline, d1.timeline, InsertAll(c, d, rows).timeline);
      assert [rows[0]] + rows[1..] == rows;
    }
  }

  /** A kind wider than its column makes the whole statement fail. */
  lemma {:induction false} WideKindAborts(c: ValidConfig, d: Db, rows: seq<TimelineRow>, i: nat)
    requires i < |rows| && |rows[i].kind| > KIND_WIDTH
    requires forall x :: x in rows ==> !x.entity.AutomationEntity?
    ensures InsertAll(c, d, rows).aborted
    decreases |rows|
  {
    InsertTimelineEffect(c, d, rows[0]);
    if i == 0 {
      InsertAllEffect(c, InsertTimeline(c, d, rows[0]), rows[1..]);
    } else {
      WideKindAborts(c, InsertTimeline(c, d, rows[0]), rows[1..], i - 1);
    }
  }

  // ---------- the same statement without its cascade ----------

  /** contact_lists after a statement, with the source rows and deliveries it produced. */
  datatype Effect = Effect(lists: map<(string, string), ListRow>, rows: seq<TimelineRow>, deliveries: seq<Delivery>)

  function ListEffect(c: ValidConfig, lists: map<(string, string), ListRow>, email: string, listId: string,
                      e: RowEvent<ListRow>, now: Time): Effect
    requires !e.Deleted?
  {
    Effect(lists[(email, listId) := e.after], ListRows(email, listId, e, now),
           Outgoing(c, ListWebhook(c, email, listId, e)))
  }

  function Then(a: Effect, b: Effect): Effect {
    Effect(b.lists, a.rows + b.rows, a.deliveries + b.deliveries)
  }

  function SuppressEffect(c: ValidConfig, lists: map<(string, string), ListRow>, email: string, listId: string,
                          s: Suppression, now: Time): Effect
  {
    if (email, listId) in lists && MaySuppress(lists[(email, listId)].status, s.status) then
      var b := lists[(email, listId)];
      ListEffect(c, lists, email, listId, Updated(b, b.(status := s.status, updatedAt := s.at)), now)
    else Effect(lists, [], [])
  }

  function SuppressAllEffect(c: ValidConfig, lists: map<(string, string), ListRow>, email: string,
                             listId: Option<string>, ss: seq<Suppression>, now: Time): Effect
    decreases |ss|
  {
    if ss == [] || listId == None then Effect(lists, [], [])
    else
      var first := SuppressEffect(c, lists, email, listId.value, ss[0], now);
      Then(first, SuppressAllEffect(c, first.lists, email, listId, ss[1..], now))
  }

  function EffectOf(d: Db, step: Step): Effect {
    var c, s := step.c, step.statement;
    var t := TargetOf(d, s);
    var own := Effect(Direct(d, s).lists, RowsOf(d, s, step.now), []);
    var suppressed := SuppressAllEffect(c, own.lists, t.email, t.listId, t.suppressions, step.now);
    Then(own, Then(suppressed, Effect(suppressed.lists, [], Outgoing(c, WebhookOf(c, d, s)))))
  }

  /** Between d and r, exactly this effect took place, besides enrolments and re-queueing. */
  ghost predicate Shows(d: Db, r: Db, eff: Effect) {
    && r.lists == eff.lists
    && d.timeline <= r.timeline && Source(Added(d.timeline, r.timeline)) == eff.rows
    && OthersAreStarts(Added(d.timeline, r.timeline))
    && d.deliveries <= r.deliveries && Added(d.deliveries, r.deliveries) == eff.deliveries
  }

  ghost predicate SameOtherTables(d: Db, r: Db) {
    && r.contacts == d.contacts
    && r.messages == d.messages
    && r.members == d.members
    && r.events == d.events
    && r.inbound == d.inbound
    && (d.aborted ==> r.aborted)
  }

  lemma ShowsThen(a: Db, b: Db, c: Db, e: Effect, f: Effect)
    requires Shows(a, b, e) && Shows(b, c, f)
    ensures Shows(a, c, Then(e, f))
  {
    LogsCompose(a.timeline, b.timeline, c.timeline);
    AddedCompose(a.deliveries, b.deliveries, c.deliveries);
  }

  lemma DeliverShows(c: ValidConfig, d: Db, w: Option<Webhook>)
    ensures Shows(d, Deliver(c, d, w), Effect(d.lists, [], Outgoing(c, w)))
    ensures SameOtherTables(d, Deliver(c, d, w))
  {
  }

  lemma InsertAllShows(c: ValidConfig, d: Db, rows: seq<TimelineRow>)
    requires forall x :: x in rows ==> !x.entity.AutomationEntity?
    ensures Shows(d, InsertAll(c, d, rows), Effect(d.lists, rows, []))
    ensures SameOtherTables(d, InsertAll(c, d, rows))
  {
    InsertAllEffect(c, d, rows);
    assert Added(d.deliveries, InsertAll(c, d, rows).deliveries) == [];
  }

  lemma SuppressShows(c: ValidConfig, d: Db, email: string, listId: string, s: Suppression, now: Time)
    ensures var r := Suppress(c, d, email, listId, s, now);
            SameOtherTables(d, r) && Shows(d, r, SuppressEffect(c, d.lists, email, listId, s, now))
  {
    if (email, listId) in d.lists && MaySuppress(d.lists[(email, listId)].status, s.status) {
      var b := d.lists[(email, listId)];
      var e := Updated(b, b.(status := s.status, updatedAt := s.at));
      var d1 := d.(lists := d.lists[(email, listId) := e.after]);
      var d2 := InsertAll(c, d1, ListRows(email, listId, e, now));
      InsertAllShows(c, d1, ListRows(email, listId, e, now));
      DeliverShows(c, d2, ListWebhook(c, email, listId, e));
      ShowsThen(d1, d2, Deliver(c, d2, ListWebhook(c, email, listId, e)),
                Effect(d1.lists, ListRows(email, listId, e, now), []),
                Effect(d1.lists, [], Outgoing(c, ListWebhook(c, email, listId, e))));
    } else {
      assert Added(d.timeline, d.timeline) == [] && Added(d.deliveries, d.deliveries) == [];
    }
  }

  lemma {:induction false} SuppressAllShows(c: ValidConfig, d: Db, email: string, listId: Option<string>,
                                            ss: seq<Suppression>, now: Time)
    ensures var r := SuppressAll(c, d, email, listId, ss, now);
            SameOtherTables(d, r) && Shows(d, r, SuppressAllEffect(c, d.lists, email, listId, ss, now))
    decreases |ss|
  {
    if ss == [] || listId == None {
      assert Added(d.timeline, d.timeline) == [] && Added(d.deliveries, d.deliveries) == [];
    } else {
      var d1 := Suppress(c, d, email, listId.value, ss[0], now);
      SuppressShows(c, d, email, listId.value, ss[0], now);
      SuppressAllShows(c, d1, email, listId, ss[1..], now);
      ShowsThen(d, d1, SuppressAll(c, d, email, listId, ss, now),
                SuppressEffect(c, d.lists, email, listId.value, ss[0], now),
                SuppressAllEffect(c, d1.lists, email, listId, ss[1..], now));
    }
  }

  /** The entity type a statement's own trigger records. */
  function EntityOf(s: Statement): Entity {
    match s
    case InsertContact(_, _) => ContactEntity
    case UpdateContact(_, _) => ContactEntity
    case DeleteContact(_) => ContactEntity
    case InsertList(_, _, _) => ListEntity
    case UpdateList(_, _, _) => ListEntity
    case InsertMessage(_, _) => MessageEntity
    case UpdateMessage(_, _) => MessageEntity
    case InsertMember(_, _, _) => SegmentEntity
    case DeleteMember(_, _) => SegmentEntity
    case InsertEvent(_, _, _) => EventEntity
    case UpdateEvent(_, _, _) => EventEntity
    case InsertInbound(_) => InboundEntity
    case Dequeue(_) => SegmentEntity
    case EnrolContact(_, _, _, _) => AutomationEntity
  }

  lemma MessageRowsShape(id: string, e: RowEvent<Message>, now: Time)
    ensures forall x :: x in MessageRows(id, e, now) ==> x.entity == MessageEntity && x.insertedAt == now
  {
  }

  lemma RowsAreSource(d: Db, s: Statement, now: Time)
    ensures forall x :: x in RowsOf(d, s, now) ==>
              x.entity == EntityOf(s) && !x.entity.AutomationEntity? && x.insertedAt == now
  {
    var rows := RowsOf(d, s, now);
    if s.InsertMessage? {
      MessageRowsShape(s.id, Inserted(s.message), now);
    } else if s.UpdateMessage? {
      if s.id in d.messages {
        MessageRowsShape(s.id, Updated(d.messages[s.id], s.message), now);
      }
    } else {
      assert |rows| <= 1;
      assert rows != [] ==> rows[0].entity == EntityOf(s) && rows[0].insertedAt == now;
    }
  }

  lemma DirectKeepsLogs(d: Db, s: Statement)
    ensures var r := Direct(d, s);
            && r.timeline == d.timeline && r.deliveries == d.deliveries && r.aborted == d.aborted
            && r.enrolled == d.enrolled && r.enrolments == d.enrolments && r.triggerLog == d.triggerLog
            && r.executions == d.executions && r.nextId == d.nextId
  {
  }

  lemma EnrolStepEffect(c: ValidConfig, d: Db, s: Statement, now: Time)
    requires s.EnrolContact?
    ensures var r := Apply(c, d, s, now);
            Shows(d, r, EffectOf(d, Step(c, now, s))) && SameOtherTables(d, r)
  {
    var r := Enroll(c, d, s.automationId, s.email, s.rootNodeId, s.frequency, now);
    EnrollEffect(c, d, s.automationId, s.email, s.rootNodeId, s.frequency, now);
    SelectNone(Added(d.timeline, r.timeline), IsSource());
    assert Added(d.deliveries, r.deliveries) == [];
  }

  lemma TableStepEffect(c: ValidConfig, d: Db, s: Statement, now: Time)
    requires !s.EnrolContact? && !PrimaryKeyClash(d, s)
    ensures var r := Apply(c, d, s, now);
            Shows(Direct(d, s), r, EffectOf(d, Step(c, now, s))) && SameOtherTables(Direct(d, s), r)
  {
    var t, w := TargetOf(d, s), WebhookOf(c, d, s);
    var d0 := Direct(d, s);
    var d1 := InsertAll(c, d0, RowsOf(d, s, now));
    var d2 := SuppressAll(c, d1, t.email, t.listId, t.suppressions, now);
    RowsAreSource(d, s, now);
    InsertAllShows(c, d0, RowsOf(d, s, now));
    SuppressAllShows(c, d1, t.email, t.listId, t.suppressions, now);
    DeliverShows(c, d2, w);
    var own := Effect(d0.lists, RowsOf(d, s, now), []);
    var suppressed := SuppressAllEffect(c, d1.lists, t.email, t.listId, t.suppressions, now);
    var last := Effect(suppressed.lists, [], Outgoing(c, w));
    ShowsThen(d1, d2, Deliver(c, d2, w), suppressed, last);
    ShowsThen(d0, d1, Deliver(c, d2, w), own, Then(suppressed, last));
  }

  /**
   A committed statement changes its own row, and otherwise has exactly the effect computed
   without any cascade: automations and re-queueing never feed back into ordinary tables,
   source rows or deliveries.
   */
  lemma StepEffect(d: Db, step: Step)
    requires Commits(d, step)
    ensures Shows(d, Exec(d, step), EffectOf(d, step))
    ensures SameOtherTables(Direct(d, step.statement), Exec(d, step))
  {
    DirectKeepsLogs(d, step.statement);
    if step.statement.EnrolContact? {
      EnrolStepEffect(step.c, d, step.statement, step.now);
    } else {
      assert !PrimaryKeyClash(d, step.statement);
      TableStepEffect(step.c, d, step.statement, step.now);
    }
  }

  lemma {:induction false} RunExtends(d: Db, steps: seq<Step>)
    ensures d.timeline <= Run(d, steps).timeline && d.deliveries <= Run(d, steps).deliveries
    decreases |steps|
  {
    if steps != [] {
      if Commits(d, steps[0]) {
        StepEffect(d, steps[0]);
      }
      RunExtends(Exec(d, steps[0]), steps[1..]);
    }
  }

  /** Between statements no error is pending. */
  lemma {:induction false} StaysCommitted(d: Db, steps: seq<Step>)
    requires !d.aborted
    ensures !Run(d, steps).aborted
    decreases |steps|
  {
    if steps != [] {
      StaysCommitted(Exec(d, steps[0]), steps[1..]);
    }
  }

  lemma RunLast(d: Db, steps: seq<Step>, n: nat)
    requires 0 < n <= |steps|
    ensures Run(d, steps[..n]) == Exec(Run(d, steps[..n - 1]), steps[n - 1])
  {
    assert steps[..n] == steps[..n - 1] + [steps[n - 1]];
    RunAppend(d, steps[..n - 1], [steps[n - 1]]);
    assert [steps[n - 1]][1..] == [];
  }

  /** What StepEffect says about the tables that no trigger writes. */
  lemma StepTables(d: Db, step: Step)
    requires Commits(d, step)
    ensures SameOtherTables(Direct(d, step.statement), Exec(d, step))
    ensures d.timeline <= Exec(d, step).timeline && d.deliveries <= Exec(d, step).deliveries
    ensures !PrimaryKeyClash(d, step.statement)
  {
    StepEffect(d, step);
  }

  /** Any statement but an UPDATE of message_history leaves the subscriptions' statuses alone. */
  lemma PlainStatement(c: ValidConfig, d: Db, s: Statement, now: Time)
    requires !s.EnrolContact? && !s.UpdateMessage? && !PrimaryKeyClash(d, s)
    ensures Apply(c, d, s, now) == Deliver(c, InsertAll(c, Direct(d, s), RowsOf(d, s, now)), WebhookOf(c, d, s))
  {
    hide Direct, InsertAll, RowsOf, WebhookOf, Outgoing;
  }
}
