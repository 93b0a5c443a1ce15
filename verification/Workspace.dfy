/**
 The workspace database as an object: one field per table, one method per trigger function,
 and statements that change a row and then fire its triggers. Each method is proved against
 the function of module Triggers, Cascade or Runs that says what it does to the snapshot.
 */
module WorkspaceDatabase {
  import opened Prelude
  import opened Diffs
  import opened Tables
  import opened Automations
  import opened Triggers
  import opened Cascade
  import opened Runs

  lemma InsertOne(c: ValidConfig, d: Db, row: TimelineRow)
    ensures InsertAll(c, d, [row]) == InsertTimeline(c, d, row)
  {
  }

  lemma {:induction false} InsertAllAppend(c: ValidConfig, d: Db, a: seq<TimelineRow>, b: seq<TimelineRow>)
    ensures InsertAll(c, d, a + b) == InsertAll(c, InsertAll(c, d, a), b)
    decreases |a|
  {
    if a == [] {
      assert a + b == b;
    } else {
      assert (a + b)[0] == a[0] && (a + b)[1..] == a[1..] + b;
      InsertAllAppend(c, InsertTimeline(c, d, a[0]), a[1..], b);
    }
  }

  lemma {:induction false} EnrollAllAppend(c: ValidConfig, d: Db, a: seq<AutomationTrigger>, t: AutomationTrigger,
                                           email: string, now: Time)
    ensures EnrollAll(c, d, a + [t], email, now)
         == Enroll(c, EnrollAll(c, d, a, email, now), t.automationId, email, t.rootNodeId, t.config.frequency, now)
    decreases |a|
  {
    if a == [] {
      assert a + [t] == [t] && [t][1..] == [];
      var r := Enroll(c, d, t.automationId, email, t.rootNodeId, t.config.frequency, now);
      assert EnrollAll(c, r, [], email, now) == r;
    } else {
      assert (a + [t])[0] == a[0] && (a + [t])[1..] == a[1..] + [t];
      EnrollAllAppend(c, Enroll(c, d, a[0].automationId, email, a[0].rootNodeId, a[0].config.frequency, now), a[1..], t,
                      email, now);
    }
  }

  lemma {:induction false} DeliveriesAppend(a: seq<Subscription>, s: Subscription, w: Webhook)
    ensures DeliveriesFor(a + [s], w)
         == DeliveriesFor(a, w) + (if Wants(s, w) then [Delivery(s.id, w.kind, w.payload)] else [])
  {
    if a == [] {
      assert a + [s] == [s] && [s][1..] == [];
    } else {
      assert (a + [s])[0] == a[0] && (a + [s])[1..] == a[1..] + [s];
      DeliveriesAppend(a[1..], s, w);
    }
  }

  lemma NoSuppression(c: ValidConfig, d: Db, email: string, listId: Option<string>, now: Time)
    ensures SuppressAll(c, d, email, listId, [], now) == d
  {
  }

  lemma EnrolStatement(c: ValidConfig, d: Db, s: Statement, now: Time)
    requires s.EnrolContact?
    ensures Apply(c, d, s, now) == Enroll(c, d, s.automationId, s.email, s.rootNodeId, s.frequency, now)
  {
  }

  /** A statement without rows, suppressions or event is its own row change. */
  lemma NothingFires(c: ValidConfig, d: Db, s: Statement, now: Time)
    requires !s.EnrolContact? && !PrimaryKeyClash(d, s)
    requires RowsOf(d, s, now) == [] && TargetOf(d, s).listId == None && WebhookOf(c, d, s) == None
    ensures Apply(c, d, s, now) == Direct(d, s)
  {
    var r := Direct(d, s);
    assert r.deliveries + [] == r.deliveries;
  }

  /** An UPDATE or DELETE of a missing row does nothing. */
  lemma NothingToChange(c: ValidConfig, d: Db, s: Statement, now: Time)
    requires match s
             case UpdateContact(email, _) => email !in d.contacts
             case DeleteContact(email) => email !in d.contacts
             case UpdateList(email, listId, _) => (email, listId) !in d.lists
             case UpdateMessage(id, _) => id !in d.messages
             case DeleteMember(email, segmentId) => (email, segmentId) !in d.members
             case UpdateEvent(name, externalId, _) => (name, externalId) !in d.events
             case _ => false
    ensures Apply(c, d, s, now) == d
  {
    NothingFires(c, d, s, now);
    if s.DeleteContact? {
      assert d.contacts - {s.email} == d.contacts;
    }
    if s.DeleteMember? {
      assert d.members - {(s.email, s.segmentId)} == d.members;
    }
  }

  /** The 33 repeated IFs of track_contact_changes, as a loop over the columns they name. */
  method ChangedColumns(before: Record, after: Record) returns (changes: map<string, Change>)
    ensures changes == Diff(Columns(TRACKED_COLUMNS), before, after)
  {
    hide Lookup, ChangeOf, TRACKED_COLUMNS;
    changes := map[];
    var i := 0;
    while i < |TRACKED_COLUMNS|
      invariant 0 <= i <= |TRACKED_COLUMNS|
      invariant changes == Diff(Columns(TRACKED_COLUMNS[..i]), before, after)
    {
      var f := TRACKED_COLUMNS[i];
      assert TRACKED_COLUMNS[..i + 1] == TRACKED_COLUMNS[..i] + [f];
      if Lookup(before, f) != Lookup(after, f) {
        changes := changes[f := ChangeOf(before, after, f)];
      }
      i := i + 1;
    }
    assert TRACKED_COLUMNS[..i] == TRACKED_COLUMNS;
  }

  /** An IF of track_inbound_webhook_event_changes. */
  method AddWhenPresent(changes: map<string, Change>, column: string, v: Option<string>) returns (r: map<string, Change>)
    ensures r == changes + WhenPresent(column, v)
  {
    r := changes;
    if v != None && v.value != "" {
      r := r[column := Change(None, OptScalar(v))];
    }
  }

  /** The goal IFs of track_custom_event_timeline on INSERT. */
  method AddGoalFields(changes: map<string, Change>, e: CustomEvent) returns (r: map<string, Change>)
    ensures r == changes + GoalFields(e)
  {
    r := AddWhen(changes, e.goalType != None, "goal_type", Change(None, OptScalar(e.goalType)));
    r := AddWhen(r, e.goalValue != None, "goal_value", Change(None, OptNumber(e.goalValue)));
    r := AddWhen(r, e.goalName != None, "goal_name", Change(None, OptScalar(e.goalName)));
  }

  /** The goal IFs of track_custom_event_timeline on UPDATE. */
  method AddChangedGoalFields(fields: map<string, Change>, b: CustomEvent, e: CustomEvent) returns (r: map<string, Change>)
    ensures r == fields + ChangedGoalFields(b, e)
  {
    r := AddWhen(fields, b.goalType != e.goalType, "goal_type", Change(OptScalar(b.goalType), OptScalar(e.goalType)));
    r := AddWhen(r, b.goalValue != e.goalValue, "goal_value", Change(OptNumber(b.goalValue), OptNumber(e.goalValue)));
    r := AddWhen(r, b.goalName != e.goalName, "goal_name", Change(OptScalar(b.goalName), OptScalar(e.goalName)));
  }

  /** One IF that records a field. */
  method AddWhen(fields: map<string, Change>, holds: bool, field: string, change: Change) returns (r: map<string, Change>)
    ensures r == fields + if holds then map[field := change] else map[]
  {
    r := fields;
    if holds {
      r := r[field := change];
    }
  }

  class Workspace {
    var config: ValidConfig
    var contacts: map<string, Contact>
    var lists: map<(string, string), ListRow>
    var messages: map<string, Message>
    var members: map<(string, string), Member>
    var events: map<(string, string), CustomEvent>
    var inbound: map<string, InboundEvent>
    var timeline: seq<TimelineRow>
    var queue: map<string, Time>
    var deliveries: seq<Delivery>
    var enrolled: map<string, nat>
    var enrolments: seq<Enrolment>
    var triggerLog: set<(string, string)>
    var executions: seq<NodeExecution>
    var nextId: nat
    var aborted: bool

    function Snapshot(): Db
      reads this
    {
      Db(contacts, lists, messages, members, events, inbound, timeline, queue, deliveries, enrolled, enrolments,
         triggerLog, executions, nextId, aborted)
    }

    /** An empty workspace whose automations table holds these ids. */
    constructor (config: ValidConfig, automations: set<string>)
      ensures this.config == config
      ensures Snapshot() == Db(map[], map[], map[], map[], map[], map[], [], map[], [], map a | a in automations :: 0,
                               [], {}, [], 0, false)
    {
      this.config := config;
      contacts, lists, messages, members, events, inbound := map[], map[], map[], map[], map[], map[];
      timeline, queue, deliveries := [], map[], [];
      enrolled, enrolments, triggerLog, executions := map a | a in automations :: 0, [], {}, [];
      nextId, aborted := 0, false;
    }

    // ---------- contact_timeline ----------

    method QueueContactForSegmentRecomputation(row: TimelineRow)
      modifies this
      ensures Snapshot() == Requeue(old(Snapshot()), row) && config == old(config)
      ensures queue == if row.kind in {"segment.joined", "segment.left"} then old(queue)
                       else old(queue)[row.email := row.insertedAt]
    {
      if row.kind == "segment.joined" || row.kind == "segment.left" {
        return;
      }
      queue := queue[row.email := row.insertedAt];
    }

    method InsertTimelineRow(row: TimelineRow)
      modifies this
      ensures Snapshot() == InsertTimeline(config, old(Snapshot()), row) && config == old(config)
      decreases if row.kind == START_KIND then 0 else 1, 1
    {
      timeline := timeline + [row];
      if |row.kind| > KIND_WIDTH {
        aborted := true;
      }
      assert Snapshot() == StoreRow(old(Snapshot()), row);
      var fired := Fired(config.triggers, row);
      if row.kind == START_KIND {
        StartFiresNothing(config, row);
      }
      if fired != [] {
        EnrollFired(fired, row.email, row.insertedAt);
      }
      QueueContactForSegmentRecomputation(row);
    }

    /** The automation triggers a row has set off, one after the other. */
    method EnrollFired(fired: seq<AutomationTrigger>, email: string, now: Time)
      modifies this
      ensures Snapshot() == EnrollAll(config, old(Snapshot()), fired, email, now) && config == old(config)
      decreases 1, 0
    {
      var i := 0;
      while i < |fired|
        invariant 0 <= i <= |fired| && config == old(config)
        invariant Snapshot() == EnrollAll(config, old(Snapshot()), fired[..i], email, now)
      {
        var t := fired[i];
        assert fired[..i + 1] == fired[..i] + [t];
        EnrollAllAppend(config, old(Snapshot()), fired[..i], t, email, now);
        AutomationEnrollContact(t.automationId, email, t.rootNodeId, t.config.frequency, now);
        i := i + 1;
      }
      assert fired[..i] == fired;
    }

    method AutomationEnrollContact(automationId: string, email: string, rootNodeId: string, frequency: string, now: Time)
      modifies this
      ensures Snapshot() == Enroll(config, old(Snapshot()), automationId, email, rootNodeId, frequency, now)
      ensures config == old(config)
      decreases 0, 2
    {
      if frequency == "once" {
        if (automationId, email) in triggerLog {
          return;
        }
      }
      var clash := exists e :: e in enrolments && e.automationId == automationId && e.email == email && e.enteredAt == now;
      assert clash || automationId !in enrolled <==> !MayEnrol(Snapshot(), automationId, email, now);
      if automationId !in enrolled || clash {
        aborted := true;
        return;
      }
      WriteEnrolment(automationId, email, rootNodeId, frequency, now);
      InsertTimelineRow(StartRow(automationId, email, rootNodeId, now));
    }

    /** Steps 1b to 5 of automation_enroll_contact: log, enrolment, statistics, execution. */
    method WriteEnrolment(automationId: string, email: string, rootNodeId: string, frequency: string, now: Time)
      requires automationId in enrolled
      modifies this
      ensures Snapshot() == RecordEnrolment(old(Snapshot()), automationId, email, rootNodeId, frequency, now)
      ensures config == old(config)
    {
      LogTrigger(automationId, email, frequency);
      var newId := CreateEnrolment(automationId, email, rootNodeId, frequency, now);
      CountEnrolment(newId, automationId, rootNodeId, now);
    }

    method LogTrigger(automationId: string, email: string, frequency: string)
      modifies this`triggerLog
      ensures triggerLog == if frequency == "once" then old(triggerLog) + {(automationId, email)} else old(triggerLog)
    {
      if frequency == "once" {
        triggerLog := triggerLog + {(automationId, email)};
      }
    }

    method CreateEnrolment(automationId: string, email: string, rootNodeId: string, frequency: string, now: Time)
      returns (newId: nat)
      modifies this`enrolments, this`nextId
      ensures newId == old(nextId) && nextId == newId + 1
      ensures enrolments
           == old(enrolments) + [Enrolment(newId, automationId, email, rootNodeId, "active", now, now, frequency)]
    {
      newId := nextId;
      nextId := nextId + 1;
      enrolments := enrolments + [Enrolment(newId, automationId, email, rootNodeId, "active", now, now, frequency)];
    }

    method CountEnrolment(newId: nat, automationId: string, rootNodeId: string, now: Time)
      requires automationId in enrolled
      modifies this`enrolled, this`executions
      ensures enrolled == old(enrolled)[automationId := old(enrolled)[automationId] + 1]
      ensures executions == old(executions) + [NodeExecution(newId, automationId, rootNodeId, "trigger", "entered", now)]
    {
      enrolled := enrolled[automationId := enrolled[automationId] + 1];
      executions := executions + [NodeExecution(newId, automationId, rootNodeId, "trigger", "entered", now)];
    }

    // ---------- timeline triggers of the other tables ----------

    method TrackContactChanges(email: string, e: RowEvent<Contact>, now: Time)
      requires !e.Deleted?
      modifies this
      ensures Snapshot() == InsertAll(config, old(Snapshot()), ContactRows(email, e, now)) && config == old(config)
    {
      if e.Inserted? {
        var row := TimelineRow(email, InsertOp, ContactEntity, "contact.created", None, NoChanges, e.after.createdAt, now);
        InsertOne(config, Snapshot(), row);
        InsertTimelineRow(row);
        return;
      }
      var changes := ChangedColumns(e.before.cells, e.after.cells);
      if changes == map[] {
        return;
      }
      var row := TimelineRow(email, UpdateOp, ContactEntity, "contact.updated", None, FieldChanges(changes),
                             e.after.updatedAt, now);
      InsertOne(config, Snapshot(), row);
      InsertTimelineRow(row);
    }

    method TrackContactListChanges(email: string, listId: string, e: RowEvent<ListRow>, now: Time)
      requires !e.Deleted?
      modifies this
      ensures Snapshot() == InsertAll(config, old(Snapshot()), ListRows(email, listId, e, now)) && config == old(config)
    {
      var op: Operation;
      var kind: string;
      var changes: map<string, Change>;
      if e.Inserted? {
        op := InsertOp;
        kind := InsertedListKind(e.after.status);
        changes := map["list_id" := Change(None, Scalar(listId)), "status" := Change(None, Scalar(e.after.status))];
      } else {
        op := UpdateOp;
        var b, r := e.before, e.after;
        if b.deletedAt != r.deletedAt && r.deletedAt != None {
          kind := "list.removed";
          changes := map["deleted_at" := Change(OptInstant(b.deletedAt), OptInstant(r.deletedAt))];
        } else if b.status != r.status {
          kind := ChangedListKind(b.status, r.status);
          changes := map["status" := Change(Scalar(b.status), Scalar(r.status))];
        } else {
          return;
        }
      }
      var row := TimelineRow(email, op, ListEntity, kind, Some(listId), FieldChanges(changes), now, now);
      InsertOne(config, Snapshot(), row);
      InsertTimelineRow(row);
    }

    /** One IF of the engagement events: a distinct, non-null timestamp inserts a row. */
    method TrackEngagement(id: string, m: Message, prefix: string, column: string,
                           before: Option<Time>, after: Option<Time>, now: Time)
      modifies this
      ensures Snapshot() == InsertAll(config, old(Snapshot()), EngagementRows(id, m, prefix, column, before, after, now))
      ensures config == old(config)
    {
      if before != after && after != None {
        var changes := map[column := Change(OptInstant(before), OptInstant(after))];
        var row := TimelineRow(m.contactEmail, UpdateOp, MessageEntity, prefix + m.channel, Some(id),
                               FieldChanges(changes), m.updatedAt, now);
        InsertOne(config, Snapshot(), row);
        InsertTimelineRow(row);
      }
    }

    method TrackMessageHistoryChanges(id: string, e: RowEvent<Message>, now: Time)
      requires !e.Deleted?
      modifies this
      ensures Snapshot() == InsertAll(config, old(Snapshot()), MessageRows(id, e, now)) && config == old(config)
    {
      ghost var start := Snapshot();
      var m := e.after;
      if e.Inserted? {
        var row := TimelineRow(m.contactEmail, InsertOp, MessageEntity, "insert_message_history", Some(id),
                               FieldChanges(SentFields(m)), m.updatedAt, now);
        InsertOne(config, Snapshot(), row);
        InsertTimelineRow(row);
        return;
      }
      var b := e.before;
      ghost var rows := EngagementRows(id, m, "open_", "opened_at", b.openedAt, m.openedAt, now);
      TrackEngagement(id, m, "open_", "opened_at", b.openedAt, m.openedAt, now);
      assert Snapshot() == InsertAll(config, start, rows);
      ghost var more := EngagementRows(id, m, "click_", "clicked_at", b.clickedAt, m.clickedAt, now);
      InsertAllAppend(config, start, rows, more);
      rows := rows + more;
      TrackEngagement(id, m, "click_", "clicked_at", b.clickedAt, m.clickedAt, now);
      more := EngagementRows(id, m, "bounce_", "bounced_at", b.bouncedAt, m.bouncedAt, now);
      InsertAllAppend(config, start, rows, more);
      rows := rows + more;
      TrackEngagement(id, m, "bounce_", "bounced_at", b.bouncedAt, m.bouncedAt, now);
      more := EngagementRows(id, m, "complain_", "complained_at", b.complainedAt, m.complainedAt, now);
      InsertAllAppend(config, start, rows, more);
      rows := rows + more;
      TrackEngagement(id, m, "complain_", "complained_at", b.complainedAt, m.complainedAt, now);
      more := EngagementRows(id, m, "unsubscribe_", "unsubscribed_at", b.unsubscribedAt, m.unsubscribedAt, now);
      InsertAllAppend(config, start, rows, more);
      rows := rows + more;
      TrackEngagement(id, m, "unsubscribe_", "unsubscribed_at", b.unsubscribedAt, m.unsubscribedAt, now);
      InsertAllAppend(config, start, rows, StatusRows(id, b, m, now));
      TrackStatusFields(id, b, m, now);
    }

    /** The generic update row for delivered_at, failed_at and status_info. */
    method TrackStatusFields(id: string, b: Message, m: Message, now: Time)
      modifies this
      ensures Snapshot() == InsertAll(config, old(Snapshot()), StatusRows(id, b, m, now)) && config == old(config)
    {
      var changes: map<string, Change> := map[];
      if b.deliveredAt != m.deliveredAt {
        changes := changes["delivered_at" := Change(OptInstant(b.deliveredAt), OptInstant(m.deliveredAt))];
      }
      if b.failedAt != m.failedAt {
        changes := changes["failed_at" := Change(OptInstant(b.failedAt), OptInstant(m.failedAt))];
      }
      if b.statusInfo != m.statusInfo {
        changes := changes["status_info" := Change(OptScalar(b.statusInfo), OptScalar(m.statusInfo))];
      }
      assert changes == StatusFields(b, m);
      if changes != map[] {
        var row := TimelineRow(m.contactEmail, UpdateOp, MessageEntity, "update_message_history", Some(id),
                               FieldChanges(changes), m.updatedAt, now);
        InsertOne(config, Snapshot(), row);
        InsertTimelineRow(row);
      }
    }

    method TrackInboundWebhookEventChanges(e: InboundEvent, now: Time)
      modifies this
      ensures Snapshot() == InsertAll(config, old(Snapshot()), InboundRows(e, now)) && config == old(config)
    {
      var entityId := if e.messageId == None then e.id else e.messageId.value;
      var changes := map["type" := Change(None, Scalar(e.kind)), "source" := Change(None, Scalar(e.source))];
      changes := AddWhenPresent(changes, "bounce_type", e.bounceType);
      changes := AddWhenPresent(changes, "bounce_category", e.bounceCategory);
      changes := AddWhenPresent(changes, "bounce_diagnostic", e.bounceDiagnostic);
      changes := AddWhenPresent(changes, "complaint_feedback_type", e.complaintFeedbackType);
      var row := TimelineRow(e.recipientEmail, InsertOp, InboundEntity, "insert_inbound_webhook_event", Some(entityId),
                             FieldChanges(changes), now, now);
      assert [row] == InboundRows(e, now);
      InsertOne(config, Snapshot(), row);
      InsertTimelineRow(row);
    }

    method TrackContactSegmentChanges(email: string, segmentId: string, e: RowEvent<Member>, now: Time)
      requires !e.Updated?
      modifies this
      ensures Snapshot() == InsertAll(config, old(Snapshot()), SegmentRows(email, segmentId, e, now))
      ensures config == old(config)
    {
      var row: TimelineRow;
      if e.Deleted? {
        var changes := map["segment_id" := Change(Scalar(segmentId), None),
                           "version" := Change(Some(JNumber(e.before.version as real)), None)];
        row := TimelineRow(email, DeleteOp, SegmentEntity, "segment.left", Some(segmentId), FieldChanges(changes), now, now);
      } else {
        var changes := map["segment_id" := Change(None, Scalar(segmentId)),
                           "version" := Change(None, Some(JNumber(e.after.version as real))),
                           "matched_at" := Change(None, Instant(e.after.matchedAt))];
        row := TimelineRow(email, InsertOp, SegmentEntity, "segment.joined", Some(segmentId), FieldChanges(changes), now, now);
      }
      InsertOne(config, Snapshot(), row);
      InsertTimelineRow(row);
    }

    method TrackCustomEventTimeline(name: string, externalId: string, e: RowEvent<CustomEvent>, now: Time)
      requires !e.Deleted?
      modifies this
      ensures Snapshot() == InsertAll(config, old(Snapshot()), EventRows(name, externalId, e, now))
      ensures config == old(config)
    {
      var ev := e.after;
      var row: TimelineRow;
      if e.Inserted? {
        var changes := map["event_name" := Change(None, Scalar(name)), "external_id" := Change(None, Scalar(externalId))];
        changes := AddGoalFields(changes, ev);
        row := TimelineRow(ev.email, InsertOp, EventEntity, CUSTOM_PREFIX + name, Some(externalId),
                           FieldChanges(changes), ev.occurredAt, now);
      } else {
        var b := e.before;
        var diff := DiffProperties(b.properties, ev.properties);
        var fields := map["occurred_at" := Change(Instant(b.occurredAt), Instant(ev.occurredAt))];
        fields := AddChangedGoalFields(fields, b, ev);
        row := TimelineRow(ev.email, UpdateOp, EventEntity, CUSTOM_PREFIX + name, Some(externalId),
                           EventChanges(diff, fields), ev.occurredAt, now);
      }
      assert [row] == EventRows(name, externalId, e, now);
      InsertOne(config, Snapshot(), row);
      InsertTimelineRow(row);
    }

    // ---------- update_contact_lists_on_status_change ----------

    /** UPDATE contact_lists SET status WHERE the key matches and the status may be overwritten. */
    method OverwriteListStatus(email: string, listId: string, status: string, at: Time, now: Time)
      modifies this
      ensures Snapshot() == Suppress(config, old(Snapshot()), email, listId, Suppression(status, at), now)
      ensures config == old(config)
    {
      var key := (email, listId);
      if key in lists && MaySuppress(lists[key].status, status) {
        var b := lists[key];
        var r := b.(status := status, updatedAt := at);
        lists := lists[key := r];
        TrackContactListChanges(email, listId, Updated(b, r), now);
        WebhookContactLists(email, listId, Updated(b, r));
      }
    }

    method UpdateContactListsOnStatusChange(b: Message, m: Message, now: Time)
      modifies this
      ensures Snapshot() == SuppressAll(config, old(Snapshot()), m.contactEmail, m.listId, Suppressions(b, m), now)
      ensures config == old(config)
    {
      ghost var start, ss := Snapshot(), Suppressions(b, m);
      if m.listId == None {
        return;
      }
      if m.complainedAt != None && b.complainedAt == None {
        OverwriteListStatus(m.contactEmail, m.listId.value, "complained", m.complainedAt.value, now);
      }
      ghost var mid := Snapshot();
      ghost var last := if NewlySet(b.bouncedAt, m.bouncedAt) then [Suppression("bounced", m.bouncedAt.value)] else [];
      assert SuppressAll(config, start, m.contactEmail, m.listId, ss, now)
          == SuppressAll(config, mid, m.contactEmail, m.listId, last, now) by {
        if NewlySet(b.complainedAt, m.complainedAt) {
          assert ss[1..] == last;
        } else {
          assert ss == last;
        }
      }
      if m.bouncedAt != None && b.bouncedAt == None {
        OverwriteListStatus(m.contactEmail, m.listId.value, "bounced", m.bouncedAt.value, now);
        assert last[1..] == [];
        NoSuppression(config, Snapshot(), m.contactEmail, m.listId, now);
      }
    }

    // ---------- outgoing webhooks ----------

    /** The delivery loop of the four triggers that do not filter. */
    method DeliverToSubscribers(w: Webhook)
      requires !w.payload.EventPayload?
      modifies this`deliveries
      ensures Snapshot() == Deliver(config, old(Snapshot()), Some(w))
    {
      var subscriptions := config.subscriptions;
      var i := 0;
      while i < |subscriptions|
        invariant 0 <= i <= |subscriptions|
        invariant deliveries == old(deliveries) + DeliveriesFor(subscriptions[..i], w)
      {
        var s := subscriptions[i];
        assert subscriptions[..i + 1] == subscriptions[..i] + [s];
        DeliveriesAppend(subscriptions[..i], s, w);
        if s.enabled && w.kind in s.eventTypes {
          deliveries := deliveries + [Delivery(s.id, w.kind, w.payload)];
        }
        i := i + 1;
      }
      assert subscriptions[..i] == subscriptions;
    }

    method WebhookContacts(email: string, e: RowEvent<Contact>)
      modifies this`deliveries
      ensures Snapshot() == Deliver(config, old(Snapshot()), ContactWebhook(email, e))
    {
      match e
      case Inserted(c) => DeliverToSubscribers(Webhook("contact.created", ContactPayload(email, c)));
      case Updated(b, c) =>
        if SameOn(WEBHOOK_COLUMNS, b.cells, c.cells) {
          return;
        }
        DeliverToSubscribers(Webhook("contact.updated", ContactPayload(email, c)));
      case Deleted(b) => DeliverToSubscribers(Webhook("contact.deleted", ContactPayload(email, b)));
    }

    method WebhookContactLists(email: string, listId: string, e: RowEvent<ListRow>)
      requires !e.Deleted?
      modifies this`deliveries
      ensures Snapshot() == Deliver(config, old(Snapshot()), ListWebhook(config, email, listId, e))
    {
      var listName := if listId in config.listNames then Some(config.listNames[listId]) else None;
      var kind := ListEventKind(e);
      if kind == None {
        return;
      }
      var previous := if e.Updated? then Some(e.before.status) else None;
      DeliverToSubscribers(Webhook(kind.value, ListPayload(email, listId, listName, e.after.status, previous)));
    }

    method WebhookContactSegments(email: string, segmentId: string, e: RowEvent<Member>)
      requires !e.Updated?
      modifies this`deliveries
      ensures Snapshot() == Deliver(config, old(Snapshot()), SegmentWebhook(config, email, segmentId, e))
    {
      var segmentName := if segmentId in config.segmentNames then Some(config.segmentNames[segmentId]) else None;
      var kind := if e.Inserted? then "segment.joined" else "segment.left";
      DeliverToSubscribers(Webhook(kind, SegmentPayload(email, segmentId, segmentName)));
    }

    method WebhookMessageHistory(id: string, e: RowEvent<Message>)
      requires !e.Deleted?
      modifies this`deliveries
      ensures Snapshot() == Deliver(config, old(Snapshot()), MessageWebhook(id, e))
    {
      var kind: string;
      var timestamp: Time;
      if e.Inserted? {
        kind, timestamp := "email.sent", e.after.sentAt;
      } else {
        var b, m := e.before, e.after;
        if m.deliveredAt != None && b.deliveredAt == None {
          kind, timestamp := "email.delivered", m.deliveredAt.value;
        } else if m.openedAt != None && b.openedAt == None {
          kind, timestamp := "email.opened", m.openedAt.value;
        } else if m.clickedAt != None && b.clickedAt == None {
          kind, timestamp := "email.clicked", m.clickedAt.value;
        } else if m.bouncedAt != None && b.bouncedAt == None {
          kind, timestamp := "email.bounced", m.bouncedAt.value;
        } else if m.complainedAt != None && b.complainedAt == None {
          kind, timestamp := "email.complained", m.complainedAt.value;
        } else if m.unsubscribedAt != None && b.unsubscribedAt == None {
          kind, timestamp := "email.unsubscribed", m.unsubscribedAt.value;
        } else {
          return;
        }
      }
      assert Some(Webhook(kind, MessagePayload(id, e.after, timestamp))) == MessageWebhook(id, e);
      DeliverToSubscribers(Webhook(kind, MessagePayload(id, e.after, timestamp)));
    }

    /** Its own delivery loop, with the goal type and event name filters. */
    method WebhookCustomEvents(name: string, externalId: string, e: RowEvent<CustomEvent>)
      requires !e.Deleted?
      modifies this`deliveries
      ensures Snapshot() == Deliver(config, old(Snapshot()), EventWebhook(name, externalId, e))
    {
      var ev := e.after;
      var kind: string;
      if e.Inserted? {
        kind := if ev.deletedAt != None then "custom_event.deleted" else "custom_event.created";
      } else if e.before.deletedAt == None && ev.deletedAt != None {
        kind := "custom_event.deleted";
      } else if e.before.deletedAt != None && ev.deletedAt == None {
        kind := "custom_event.created";
      } else if ev.deletedAt == None {
        kind := "custom_event.updated";
      } else {
        return;
      }
      var w := Webhook(kind, EventPayload(name, externalId, ev));
      assert Some(w) == EventWebhook(name, externalId, e);
      var subscriptions := config.subscriptions;
      var i := 0;
      while i < |subscriptions|
        invariant 0 <= i <= |subscriptions|
        invariant deliveries == old(deliveries) + DeliveriesFor(subscriptions[..i], w)
      {
        var s := subscriptions[i];
        assert subscriptions[..i + 1] == subscriptions[..i] + [s];
        DeliveriesAppend(subscriptions[..i], s, w);
        if s.enabled && kind in s.eventTypes {
          var shouldDeliver := true;
          if s.filters != None && s.filters.value.goalTypes != None && |s.filters.value.goalTypes.value| > 0 {
            if ev.goalType == None || ev.goalType.value !in s.filters.value.goalTypes.value {
              shouldDeliver := false;
            }
          }
          if shouldDeliver && s.filters != None && s.filters.value.eventNames != None
             && |s.filters.value.eventNames.value| > 0 {
            if name !in s.filters.value.eventNames.value {
              shouldDeliver := false;
            }
          }
          if shouldDeliver {
            deliveries := deliveries + [Delivery(s.id, kind, w.payload)];
          }
        }
        i := i + 1;
      }
      assert subscriptions[..i] == subscriptions;
    }

    // ---------- statements ----------

    method WriteContact(s: Statement, now: Time)
      requires s.InsertContact? || s.UpdateContact?
      modifies this
      ensures Snapshot() == Apply(config, old(Snapshot()), s, now) && config == old(config)
    {
      hide ContactRows, ContactWebhook, InsertAll, SuppressAll, Outgoing;
      var email := s.email;
      var e: RowEvent<Contact>;
      if s.InsertContact? {
        if email in contacts {
          aborted := true;
          return;
        }
        e := Inserted(s.contact);
      } else {
        if email !in contacts {
          NothingToChange(config, Snapshot(), s, now);
          return;
        }
        e := Updated(contacts[email], s.contact);
      }
      contacts := contacts[email := s.contact];
      assert Snapshot() == Direct(old(Snapshot()), s);
      assert ContactRows(email, e, now) == RowsOf(old(Snapshot()), s, now);
      assert ContactWebhook(email, e) == WebhookOf(config, old(Snapshot()), s);
      PlainStatement(config, old(Snapshot()), s, now);
      hide Apply, Direct, RowsOf, WebhookOf, PrimaryKeyClash;
      TrackContactChanges(email, e, now);
      WebhookContacts(email, e);
    }

    /** contacts has no AFTER DELETE trigger for the timeline, only the outgoing one. */
    method RemoveContact(email: string, now: Time)
      modifies this
      ensures Snapshot() == Apply(config, old(Snapshot()), DeleteContact(email), now) && config == old(config)
    {
      hide ContactWebhook, SuppressAll, Outgoing;
      if email !in contacts {
        NothingToChange(config, Snapshot(), DeleteContact(email), now);
        return;
      }
      var e := Deleted(contacts[email]);
      contacts := contacts - {email};
      assert Snapshot() == Direct(old(Snapshot()), DeleteContact(email));
      assert RowsOf(old(Snapshot()), DeleteContact(email), now) == [];
      assert ContactWebhook(email, e) == WebhookOf(config, old(Snapshot()), DeleteContact(email));
      PlainStatement(config, old(Snapshot()), DeleteContact(email), now);
      hide Apply, Direct, RowsOf, WebhookOf, PrimaryKeyClash;
      WebhookContacts(email, e);
    }

    method WriteContactList(s: Statement, now: Time)
      requires s.InsertList? || s.UpdateList?
      modifies this
      ensures Snapshot() == Apply(config, old(Snapshot()), s, now) && config == old(config)
    {
      hide ListRows, ListWebhook, InsertAll, SuppressAll, Outgoing;
      var key := (s.email, s.listId);
      var e: RowEvent<ListRow>;
      if s.InsertList? {
        if key in lists {
          aborted := true;
          return;
        }
        e := Inserted(s.row);
      } else {
        if key !in lists {
          NothingToChange(config, Snapshot(), s, now);
          return;
        }
        e := Updated(lists[key], s.row);
      }
      lists := lists[key := s.row];
      assert Snapshot() == Direct(old(Snapshot()), s);
      assert ListRows(s.email, s.listId, e, now) == RowsOf(old(Snapshot()), s, now);
      assert ListWebhook(config, s.email, s.listId, e) == WebhookOf(config, old(Snapshot()), s);
      PlainStatement(config, old(Snapshot()), s, now);
      hide Apply, Direct, RowsOf, WebhookOf, PrimaryKeyClash;
      TrackContactListChanges(s.email, s.listId, e, now);
      WebhookContactLists(s.email, s.listId, e);
    }

    method WriteMessage(s: Statement, now: Time)
      requires s.InsertMessage? || s.UpdateMessage?
      modifies this
      ensures Snapshot() == Apply(config, old(Snapshot()), s, now) && config == old(config)
    {
      hide MessageRows, MessageWebhook, Suppressions, InsertAll, SuppressAll, Outgoing;
      var e: RowEvent<Message>;
      if s.InsertMessage? {
        if s.id in messages {
          aborted := true;
          return;
        }
        e := Inserted(s.message);
      } else {
        if s.id !in messages {
          NothingToChange(config, Snapshot(), s, now);
          return;
        }
        e := Updated(messages[s.id], s.message);
      }
      messages := messages[s.id := s.message];
      assert Snapshot() == Direct(old(Snapshot()), s);
      assert MessageRows(s.id, e, now) == RowsOf(old(Snapshot()), s, now);
      assert MessageWebhook(s.id, e) == WebhookOf(config, old(Snapshot()), s);
      TrackMessageHistoryChanges(s.id, e, now);
      if e.Updated? {
        UpdateContactListsOnStatusChange(e.before, e.after, now);
      } else {
        NoSuppression(config, Snapshot(), "", None, now);
      }
      WebhookMessageHistory(s.id, e);
    }

    method WriteMember(s: Statement, now: Time)
      requires s.InsertMember? || s.DeleteMember?
      modifies this
      ensures Snapshot() == Apply(config, old(Snapshot()), s, now) && config == old(config)
    {
      hide SegmentRows, SegmentWebhook, InsertAll, SuppressAll, Outgoing;
      var key := (s.email, s.segmentId);
      var e: RowEvent<Member>;
      if s.InsertMember? {
        if key in members {
          aborted := true;
          return;
        }
        e := Inserted(s.member);
        members := members[key := s.member];
      } else {
        if key !in members {
          NothingToChange(config, Snapshot(), s, now);
          return;
        }
        e := Deleted(members[key]);
        members := members - {key};
      }
      assert Snapshot() == Direct(old(Snapshot()), s);
      assert SegmentRows(s.email, s.segmentId, e, now) == RowsOf(old(Snapshot()), s, now);
      assert SegmentWebhook(config, s.email, s.segmentId, e) == WebhookOf(config, old(Snapshot()), s);
      PlainStatement(config, old(Snapshot()), s, now);
      hide Apply, Direct, RowsOf, WebhookOf, PrimaryKeyClash;
      TrackContactSegmentChanges(s.email, s.segmentId, e, now);
      WebhookContactSegments(s.email, s.segmentId, e);
    }

    method WriteEvent(s: Statement, now: Time)
      requires s.InsertEvent? || s.UpdateEvent?
      modifies this
      ensures Snapshot() == Apply(config, old(Snapshot()), s, now) && config == old(config)
    {
      hide EventRows, EventWebhook, InsertAll, SuppressAll, Outgoing;
      var key := (s.name, s.externalId);
      var e: RowEvent<CustomEvent>;
      if s.InsertEvent? {
        if key in events {
          aborted := true;
          return;
        }
        e := Inserted(s.event);
      } else {
        if key !in events {
          NothingToChange(config, Snapshot(), s, now);
          return;
        }
        e := Updated(events[key], s.event);
      }
      events := events[key := s.event];
      assert Snapshot() == Direct(old(Snapshot()), s);
      assert EventRows(s.name, s.externalId, e, now) == RowsOf(old(Snapshot()), s, now);
      assert EventWebhook(s.name, s.externalId, e) == WebhookOf(config, old(Snapshot()), s);
      PlainStatement(config, old(Snapshot()), s, now);
      hide Apply, Direct, RowsOf, WebhookOf, PrimaryKeyClash;
      TrackCustomEventTimeline(s.name, s.externalId, e, now);
      WebhookCustomEvents(s.name, s.externalId, e);
    }

    method WriteInbound(s: Statement, now: Time)
      requires s.InsertInbound?
      modifies this
      ensures Snapshot() == Apply(config, old(Snapshot()), s, now) && config == old(config)
    {
      hide InboundRows, InsertAll;
      if s.inboundEvent.id in inbound {
        aborted := true;
        return;
      }
      inbound := inbound[s.inboundEvent.id := s.inboundEvent];
      assert Snapshot() == Direct(old(Snapshot()), s);
      assert InboundRows(s.inboundEvent, now) == RowsOf(old(Snapshot()), s, now);
      assert WebhookOf(config, old(Snapshot()), s) == None;
      PlainStatement(config, old(Snapshot()), s, now);
      hide Apply, Direct, RowsOf, WebhookOf, PrimaryKeyClash;
      TrackInboundWebhookEventChanges(s.inboundEvent, now);
      assert Snapshot().deliveries + [] == Snapshot().deliveries;
    }

    /** DELETE FROM contact_segment_queue: no trigger. */
    method TakeOffQueue(emails: set<string>, now: Time)
      modifies this
      ensures Snapshot() == Apply(config, old(Snapshot()), Dequeue(emails), now) && config == old(config)
    {
      queue := queue - emails;
      NothingFires(config, old(Snapshot()), Dequeue(emails), now);
    }

    /** One statement in its own transaction: all of its cascade, or nothing. */
    method Execute(s: Statement, now: Time) returns (ok: bool)
      requires !aborted
      modifies this
      ensures Snapshot() == Exec(old(Snapshot()), Step(config, now, s)) && config == old(config)
      ensures ok <==> Commits(old(Snapshot()), Step(config, now, s))
      ensures !aborted
    {
      var before := Snapshot();
      hide Apply;
      if s.DeleteContact? {
        RemoveContact(s.email, now);
      } else if s.InsertContact? || s.UpdateContact? {
        WriteContact(s, now);
      } else if s.InsertList? || s.UpdateList? {
        WriteContactList(s, now);
      } else if s.InsertMessage? || s.UpdateMessage? {
        WriteMessage(s, now);
      } else if s.InsertMember? || s.DeleteMember? {
        WriteMember(s, now);
      } else if s.InsertEvent? || s.UpdateEvent? {
        WriteEvent(s, now);
      } else if s.InsertInbound? {
        WriteInbound(s, now);
      } else if s.Dequeue? {
        TakeOffQueue(s.emails, now);
      } else {
        EnrolStatement(config, Snapshot(), s, now);
        AutomationEnrollContact(s.automationId, s.email, s.rootNodeId, s.frequency, now);
      }
      ok := !aborted;
      if aborted {
        RollBack(before);
      }
    }

    method RollBack(d: Db)
      modifies this
      ensures Snapshot() == d && config == old(config)
    {
      RollBackRows(d);
      RollBackLogs(d);
      RollBackEnrolments(d);
    }

    method RollBackRows(d: Db)
      modifies this`contacts, this`lists, this`messages, this`members, this`events
      ensures contacts == d.contacts && lists == d.lists && messages == d.messages && members == d.members
      ensures events == d.events
    {
      contacts := d.contacts;
      lists := d.lists;
      messages := d.messages;
      members := d.members;
      events := d.events;
    }

    method RollBackLogs(d: Db)
      modifies this`inbound, this`timeline, this`queue, this`deliveries, this`aborted
      ensures inbound == d.inbound && timeline == d.timeline && queue == d.queue && deliveries == d.deliveries
      ensures aborted == d.aborted
    {
      inbound := d.inbound;
      timeline := d.timeline;
      queue := d.queue;
      deliveries := d.deliveries;
      aborted := d.aborted;
    }

    method RollBackEnrolments(d: Db)
      modifies this`enrolled, this`enrolments, this`triggerLog, this`executions, this`nextId
      ensures enrolled == d.enrolled && enrolments == d.enrolments && triggerLog == d.triggerLog
      ensures executions == d.executions && nextId == d.nextId
    {
      enrolled := d.enrolled;
      enrolments := d.enrolments;
      triggerLog := d.triggerLog;
      executions := d.executions;
      nextId := d.nextId;
    }
  }
}
