/**
 What each kind of statement does to its own table and records in the timeline, read off the
 statement and the rows before it.
 */
module Records {
  import opened Prelude
  import opened Diffs
  import opened Tables
  import opened Triggers
  import opened Cascade
  import opened Runs
  import opened Webhooks
  import opened Announcements
  import WorkspaceDatabase

  /** The rows a step adds, without those of enrolments. */
  function Recorded(d: Db, step: Step): seq<TimelineRow>
    requires d.timeline <= Exec(d, step).timeline
  {
    Source(Added(d.timeline, Exec(d, step).timeline))
  }

  /** But for message updates, a statement records only its own rows. */
  lemma OwnRecords(d: Db, step: Step)
    requires Commits(d, step) && !step.statement.UpdateMessage?
    ensures d.timeline <= Exec(d, step).timeline
    ensures Recorded(d, step) == RowsOf(d, step.statement, step.now)
  {
    StepEffect(d, step);
    assert TargetOf(d, step.statement).suppressions == [];
    hide Commits, Exec, Direct, RowsOf, WebhookOf, Outgoing;
    assert RowsOf(d, step.statement, step.now) + ([] + []) == RowsOf(d, step.statement, step.now);
  }

  // ---------- the tables ----------

  /** An entry of a table after one row was written, or erased. */
  ghost predicate OnlyThis<K(!new), V>(before: map<K, V>, after: map<K, V>, key: K, row: Option<V>) {
    && (key in after <==> row.Some?) && (row.Some? && key in after ==> after[key] == row.value)
    && forall k :: k != key ==> (k in before <==> k in after) && (k in before && k in after ==> before[k] == after[k])
  }

  /*
   A committed statement writes the row it names and no other. An insertion needs a new key,
   an update or deletion of a missing row does nothing.
   */

  lemma ContactsWritten(d: Db, step: Step)
    requires Commits(d, step)
    ensures var r, st := Exec(d, step), step.statement;
            && (st.InsertContact? ==> st.email !in d.contacts && OnlyThis(d.contacts, r.contacts, st.email, Some(st.contact)))
            && (st.UpdateContact? && st.email in d.contacts ==> OnlyThis(d.contacts, r.contacts, st.email, Some(st.contact)))
            && (st.DeleteContact? && st.email in d.contacts ==> OnlyThis(d.contacts, r.contacts, st.email, None))
            && (!st.InsertContact? && !st.UpdateContact? && !st.DeleteContact? ==> r.contacts == d.contacts)
  {
    StepTables(d, step);
    hide Commits, Exec, ListsAfter, MessagesAfter, MembersAfter, EventsAfter;
  }

  lemma MembersWritten(d: Db, step: Step)
    requires Commits(d, step)
    ensures var r, st := Exec(d, step), step.statement;
            && (st.InsertMember? ==>
                  (st.email, st.segmentId) !in d.members
                  && OnlyThis(d.members, r.members, (st.email, st.segmentId), Some(st.member)))
            && (st.DeleteMember? && (st.email, st.segmentId) in d.members ==>
                  OnlyThis(d.members, r.members, (st.email, st.segmentId), None))
            && (!st.InsertMember? && !st.DeleteMember? ==> r.members == d.members)
  {
    StepTables(d, step);
    hide Commits, Exec, ContactsAfter, ListsAfter, MessagesAfter, EventsAfter;
  }

  lemma MessagesWritten(d: Db, step: Step)
    requires Commits(d, step)
    ensures var r, st := Exec(d, step), step.statement;
            && (st.InsertMessage? ==> st.id !in d.messages && OnlyThis(d.messages, r.messages, st.id, Some(st.message)))
            && (st.UpdateMessage? && st.id in d.messages ==> OnlyThis(d.messages, r.messages, st.id, Some(st.message)))
            && (!st.InsertMessage? && !st.UpdateMessage? ==> r.messages == d.messages)
  {
    StepTables(d, step);
    hide Commits, Exec, ContactsAfter, ListsAfter, MembersAfter, EventsAfter;
  }

  lemma EventsWritten(d: Db, step: Step)
    requires Commits(d, step)
    ensures var r, st := Exec(d, step), step.statement;
            && (st.InsertEvent? ==>
                  (st.name, st.externalId) !in d.events
                  && OnlyThis(d.events, r.events, (st.name, st.externalId), Some(st.event)))
            && (st.UpdateEvent? && (st.name, st.externalId) in d.events ==>
                  OnlyThis(d.events, r.events, (st.name, st.externalId), Some(st.event)))
            && (!st.InsertEvent? && !st.UpdateEvent? ==> r.events == d.events)
  {
    StepTables(d, step);
    hide Commits, Exec, ContactsAfter, ListsAfter, MessagesAfter, MembersAfter;
  }

  lemma InboundWritten(d: Db, step: Step)
    requires Commits(d, step)
    ensures var r, st := Exec(d, step), step.statement;
            && (st.InsertInbound? ==>
                  st.inboundEvent.id !in d.inbound
                  && OnlyThis(d.inbound, r.inbound, st.inboundEvent.id, Some(st.inboundEvent)))
            && (!st.InsertInbound? ==> r.inbound == d.inbound)
  {
    StepTables(d, step);
    hide Commits, Exec, ContactsAfter, ListsAfter, MessagesAfter, MembersAfter, EventsAfter;
  }

  lemma ListsWritten(d: Db, step: Step)
    requires Commits(d, step) && !step.statement.UpdateMessage?
    ensures var r, st := Exec(d, step), step.statement;
            && (st.InsertList? ==>
                  (st.email, st.listId) !in d.lists && OnlyThis(d.lists, r.lists, (st.email, st.listId), Some(st.row)))
            && (st.UpdateList? && (st.email, st.listId) in d.lists ==>
                  OnlyThis(d.lists, r.lists, (st.email, st.listId), Some(st.row)))
            && (!st.InsertList? && !st.UpdateList? ==> r.lists == d.lists)
  {
    StepEffect(d, step);
    StepTables(d, step);
    assert TargetOf(d, step.statement).suppressions == [];
    hide Commits, Exec, RowsOf, WebhookOf, Outgoing;
  }

  lemma MissingRowChangesNothing(d: Db, step: Step)
    requires MissingRow(d, step.statement)
    ensures Exec(d, step) == d
  {
    WorkspaceDatabase.NothingToChange(step.c, d, step.statement, step.now);
  }

  // ---------- contacts, segments, inbound events ----------

  lemma ContactStepsRecord(d: Db, step: Step)
    requires Commits(d, step)
    ensures d.timeline <= Exec(d, step).timeline
    ensures var st, now := step.statement, step.now;
            && (st.InsertContact? ==>
                  Recorded(d, step)
                  == [TimelineRow(st.email, InsertOp, ContactEntity, "contact.created", None, NoChanges, st.contact.createdAt, now)])
            && (st.UpdateContact? && st.email in d.contacts ==>
                  (Recorded(d, step) == [] <==> forall c :: c in TRACKED_COLUMNS ==> Same(d.contacts[st.email], st.contact, c))
                  && (Recorded(d, step) != [] ==>
                        Recorded(d, step)
                        == [TimelineRow(st.email, UpdateOp, ContactEntity, "contact.updated", None,
                                        FieldChanges(ContactDiff(d.contacts[st.email], st.contact)), st.contact.updatedAt, now)]))
            && (st.DeleteContact? ==> Recorded(d, step) == [])
  {
    StepTables(d, step);
    var st := step.statement;
    hide Commits, Exec, Direct, TRACKED_COLUMNS;
    if st.InsertContact? || st.UpdateContact? || st.DeleteContact? {
      OwnRecords(d, step);
    }
    if st.UpdateContact? && st.email in d.contacts {
      NoDiffIffSame(d.contacts[st.email], st.contact);
    }
  }

  lemma NoDiffIffSame(b: Contact, c: Contact)
    ensures ContactDiff(b, c) == map[] <==> forall f :: f in TRACKED_COLUMNS ==> Same(b, c, f)
    ensures forall f :: f in ContactDiff(b, c) <==> f in TRACKED_COLUMNS && !Same(b, c, f)
  {
    hide TRACKED_COLUMNS;
    forall f ensures f in ContactDiff(b, c) <==> f in TRACKED_COLUMNS && !Same(b, c, f) {
    }
    if ContactDiff(b, c) != map[] {
      var f :| f in ContactDiff(b, c);
    }
  }

  lemma MemberStepsRecord(d: Db, step: Step)
    requires Commits(d, step)
    ensures d.timeline <= Exec(d, step).timeline
    ensures var st, now := step.statement, step.now;
            && (st.InsertMember? ==>
                  Recorded(d, step)
                  == [TimelineRow(st.email, InsertOp, SegmentEntity, "segment.joined", Some(st.segmentId), FieldChanges(map[
                        "segment_id" := Change(None, Some(JString(st.segmentId))),
                        "version" := Change(None, Some(JNumber(st.member.version as real))),
                        "matched_at" := Change(None, Some(JNumber(st.member.matchedAt as real)))]), now, now)])
            && (st.DeleteMember? && (st.email, st.segmentId) in d.members ==>
                  Recorded(d, step)
                  == [TimelineRow(st.email, DeleteOp, SegmentEntity, "segment.left", Some(st.segmentId), FieldChanges(map[
                        "segment_id" := Change(Some(JString(st.segmentId)), None),
                        "version" := Change(Some(JNumber(d.members[(st.email, st.segmentId)].version as real)), None)]), now, now)])
  {
    StepTables(d, step);
    hide Commits, Exec, Direct;
    if step.statement.InsertMember? || step.statement.DeleteMember? {
      OwnRecords(d, step);
    }
  }

  /** An inbound event's row: what is always there, and each detail that is neither NULL nor empty. */
  lemma InboundStepsRecord(d: Db, step: Step)
    requires Commits(d, step) && step.statement.InsertInbound?
    ensures d.timeline <= Exec(d, step).timeline
    ensures var e, now := step.statement.inboundEvent, step.now;
            && |Recorded(d, step)| == 1
            && var x := Recorded(d, step)[0];
               && x == TimelineRow(e.recipientEmail, InsertOp, InboundEntity, "insert_inbound_webhook_event",
                                   Some(if e.messageId == None then e.id else e.messageId.value), x.changes, now, now)
               && x.changes.FieldChanges?
               && (forall k :: k in x.changes.fields <==> Shown(e, k))
               && forall k :: k in x.changes.fields ==> x.changes.fields[k] == Change(None, Some(JString(Detail(e, k).value)))
  {
    StepTables(d, step);
    OwnRecords(d, step);
    hide Commits, Exec, Direct;
    InboundDetails(step.statement.inboundEvent, step.now);
    hide InboundRows;
  }

  /** The columns of an inbound event by name. */
  function Detail(e: InboundEvent, k: string): Option<string> {
    if k == "type" then Some(e.kind) else if k == "source" then Some(e.source)
    else if k == "bounce_type" then e.bounceType else if k == "bounce_category" then e.bounceCategory
    else if k == "bounce_diagnostic" then e.bounceDiagnostic
    else if k == "complaint_feedback_type" then e.complaintFeedbackType
    else None
  }

  /** Type and source always, the others unless NULL or empty. */
  predicate Shown(e: InboundEvent, k: string) {
    Detail(e, k).Some? && (k == "type" || k == "source" || Detail(e, k) != Some(""))
  }

  lemma PresentDetails(column: string, v: Option<string>, k: string)
    ensures k in WhenPresent(column, v) <==> k == column && v.Some? && v != Some("")
    ensures k in WhenPresent(column, v) ==> WhenPresent(column, v)[k] == Change(None, Some(JString(v.value)))
  {
  }

  lemma InboundDetails(e: InboundEvent, now: Time)
    ensures var rows := InboundRows(e, now);
            && |rows| == 1 && rows[0].changes.FieldChanges?
            && (forall k :: k in rows[0].changes.fields <==> Shown(e, k))
            && forall k :: k in rows[0].changes.fields ==>
                 rows[0].changes.fields[k] == Change(None, Some(JString(Detail(e, k).value)))
  {
    hide WhenPresent;
    var fields := InboundRows(e, now)[0].changes.fields;
    forall k
      ensures k in fields <==> Shown(e, k)
      ensures k in fields ==> fields[k] == Change(None, Some(JString(Detail(e, k).value)))
    {
      PresentDetails("bounce_type", e.bounceType, k);
      PresentDetails("bounce_category", e.bounceCategory, k);
      PresentDetails("bounce_diagnostic", e.bounceDiagnostic, k);
      PresentDetails("complaint_feedback_type", e.complaintFeedbackType, k);
    }
  }

  // ---------- subscriptions ----------

  /** The kind recorded for a new subscription: unknown statuses count as subscribed. */
  function NewListRecord(status: string): string {
    if status in {"pending", "unsubscribed", "bounced", "complained"} then "list." + status else "list.subscribed"
  }

  /** The kind recorded for a change of status. */
  function ListRecord(before: string, after: string): string {
    if after in {"pending", "unsubscribed", "bounced", "complained"} then "list." + after
    else if after != "active" then "list.status_changed"
    else if before == "pending" then "list.confirmed"
    else if before in {"unsubscribed", "bounced", "complained"} then "list.resubscribed"
    else "list.subscribed"
  }

  lemma ListRecordsAre(before: string, after: string)
    ensures InsertedListKind(after) == NewListRecord(after)
    ensures before != after ==> ChangedListKind(before, after) == ListRecord(before, after)
  {
    assert "list." + "pending" == "list.pending" && "list." + "unsubscribed" == "list.unsubscribed";
    assert "list." + "bounced" == "list.bounced" && "list." + "complained" == "list.complained";
  }

  /** NULL as JSON null, an instant as a number. */
  function Stamped(t: Option<Time>): Option<Json> {
    Some(if t == None then JNull else JNumber(t.value as real))
  }

  /** A new subscription; then a removal wherever deleted_at is set to something else; only else a change of status. */
  lemma ListStepsRecord(d: Db, step: Step)
    requires Commits(d, step)
    ensures d.timeline <= Exec(d, step).timeline
    ensures var st, now := step.statement, step.now;
            && (st.InsertList? ==>
                  Recorded(d, step)
                  == [TimelineRow(st.email, InsertOp, ListEntity, NewListRecord(st.row.status), Some(st.listId), FieldChanges(map[
                        "list_id" := Change(None, Some(JString(st.listId))),
                        "status" := Change(None, Some(JString(st.row.status)))]), now, now)])
            && (st.UpdateList? && (st.email, st.listId) in d.lists ==>
                  var b, r := d.lists[(st.email, st.listId)], st.row;
                  Recorded(d, step)
                  == if r.deletedAt != None && r.deletedAt != b.deletedAt then
                       [TimelineRow(st.email, UpdateOp, ListEntity, "list.removed", Some(st.listId), FieldChanges(map[
                          "deleted_at" := Change(Stamped(b.deletedAt), Stamped(r.deletedAt))]), now, now)]
                     else if r.status != b.status then
                       [TimelineRow(st.email, UpdateOp, ListEntity, ListRecord(b.status, r.status), Some(st.listId), FieldChanges(map[
                          "status" := Change(Some(JString(b.status)), Some(JString(r.status)))]), now, now)]
                     else [])
  {
    StepTables(d, step);
    var st := step.statement;
    hide Commits, Exec, Direct, InsertedListKind, ChangedListKind;
    if st.InsertList? {
      OwnRecords(d, step);
      ListRecordsAre("", st.row.status);
    } else if st.UpdateList? && (st.email, st.listId) in d.lists {
      OwnRecords(d, step);
      ListRecordsAre(d.lists[(st.email, st.listId)].status, st.row.status);
    }
  }

  // ---------- messages ----------

  /** The five engagements with their columns. */
  const ENGAGEMENTS: seq<(string, string)> := [
    ("open_", "opened_at"), ("click_", "clicked_at"), ("bounce_", "bounced_at"),
    ("complain_", "complained_at"), ("unsubscribe_", "unsubscribed_at")
  ]

  function Engaged(m: Message, i: nat): Option<Time>
    requires i < 5
  {
    if i == 0 then m.openedAt else if i == 1 then m.clickedAt else if i == 2 then m.bouncedAt
    else if i == 3 then m.complainedAt else m.unsubscribedAt
  }

  function EngagementRecord(id: string, b: Message, m: Message, i: nat, now: Time): seq<TimelineRow>
    requires i < 5
  {
    if Engaged(m, i) == None || Engaged(m, i) == Engaged(b, i) then []
    else [TimelineRow(m.contactEmail, UpdateOp, MessageEntity, ENGAGEMENTS[i].0 + m.channel, Some(id),
                      FieldChanges(map[ENGAGEMENTS[i].1 := Change(Stamped(Engaged(b, i)), Stamped(Engaged(m, i)))]),
                      m.updatedAt, now)]
  }

  /** The columns of the delivery status by name. */
  function StatusColumn(m: Message, k: string): Option<Json> {
    if k == "delivered_at" then Stamped(m.deliveredAt)
    else if k == "failed_at" then Stamped(m.failedAt)
    else if k == "status_info" then Some(if m.statusInfo == None then JNull else JString(m.statusInfo.value))
    else None
  }

  /** One row naming exactly the status columns that differ, if any, with both values. */
  ghost predicate StatusRecord(rows: seq<TimelineRow>, id: string, b: Message, m: Message, now: Time) {
    var names := {"delivered_at", "failed_at", "status_info"};
    if forall k :: k in names ==> StatusColumn(b, k) == StatusColumn(m, k) then rows == []
    else
      && |rows| == 1 && rows[0].changes.FieldChanges?
      && rows[0] == TimelineRow(m.contactEmail, UpdateOp, MessageEntity, "update_message_history", Some(id), rows[0].changes,
                                m.updatedAt, now)
      && (rows[0].changes.fields.Keys == set k | k in names && StatusColumn(b, k) != StatusColumn(m, k))
      && forall k :: k in rows[0].changes.fields ==>
           rows[0].changes.fields[k] == Change(StatusColumn(b, k), StatusColumn(m, k))
  }

  lemma StatusFieldsAre(b: Message, m: Message)
    ensures forall k :: k in StatusFields(b, m) <==>
              k in {"delivered_at", "failed_at", "status_info"} && StatusColumn(b, k) != StatusColumn(m, k)
    ensures forall k :: k in StatusFields(b, m) ==> StatusFields(b, m)[k] == Change(StatusColumn(b, k), StatusColumn(m, k))
  {
  }

  lemma StatusRowsRecord(id: string, b: Message, m: Message, now: Time)
    ensures StatusRecord(StatusRows(id, b, m, now), id, b, m, now)
  {
    StatusFieldsAre(b, m);
    hide StatusFields, StatusColumn;
    var names, fields := {"delivered_at", "failed_at", "status_info"}, StatusFields(b, m);
    if fields != map[] {
      var k :| k in fields;
    }
  }

  lemma EngagementsRecord(id: string, b: Message, m: Message, now: Time)
    ensures MessageRows(id, Updated(b, m), now)
         == EngagementRecord(id, b, m, 0, now) + EngagementRecord(id, b, m, 1, now) + EngagementRecord(id, b, m, 2, now)
          + EngagementRecord(id, b, m, 3, now) + EngagementRecord(id, b, m, 4, now) + StatusRows(id, b, m, now)
  {
    hide StatusRows;
  }

  function IsMessage(): TimelineRow -> bool {
    (x: TimelineRow) => x.entity.MessageEntity?
  }

  /**
   A message: its insertion with what was sent, and of an update one row for each of the five
   timestamps that was set or moved, in their order, and then one for the delivery status.
   */
  lemma MessageStepsRecord(d: Db, step: Step)
    requires Commits(d, step)
    ensures d.timeline <= Exec(d, step).timeline
    ensures var st, now := step.statement, step.now;
            && (st.InsertMessage? ==>
                  var m := st.message;
                  Recorded(d, step)
                  == [TimelineRow(m.contactEmail, InsertOp, MessageEntity, "insert_message_history", Some(st.id), FieldChanges(map[
                        "template_id" := Change(None, Some(JString(m.templateId))),
                        "template_version" := Change(None, Some(JNumber(m.templateVersion as real))),
                        "channel" := Change(None, Some(JString(m.channel))),
                        "broadcast_id" := Change(None, Some(if m.broadcastId == None then JNull else JString(m.broadcastId.value))),
                        "sent_at" := Change(None, Some(JNumber(m.sentAt as real)))]), m.updatedAt, now)])
            && (st.UpdateMessage? && st.id in d.messages ==>
                  var b, m := d.messages[st.id], st.message;
                  exists status :: StatusRecord(status, st.id, b, m, now)
                    && Select(Added(d.timeline, Exec(d, step).timeline), IsMessage())
                       == EngagementRecord(st.id, b, m, 0, now) + EngagementRecord(st.id, b, m, 1, now)
                        + EngagementRecord(st.id, b, m, 2, now) + EngagementRecord(st.id, b, m, 3, now)
                        + EngagementRecord(st.id, b, m, 4, now) + status)
  {
    StepTables(d, step);
    var st, now := step.statement, step.now;
    hide Commits, Exec, Direct, EngagementRecord, StatusRecord, StatusRows;
    if st.InsertMessage? {
      OwnRecords(d, step);
    } else if st.UpdateMessage? && st.id in d.messages {
      OwnRowsOfStep(d, step, IsMessage());
      var b, m := d.messages[st.id], st.message;
      RowsAreSource(d, st, now);
      SelectAll(RowsOf(d, st, now), IsMessage());
      EngagementsRecord(st.id, b, m, now);
      StatusRowsRecord(st.id, b, m, now);
      assert RowsOf(d, st, now) == MessageRows(st.id, Updated(b, m), now);
    }
  }

  // ---------- custom events ----------

  /** The goal columns of a custom event by name. */
  function GoalColumn(e: CustomEvent, k: string): Option<Json> {
    if k == "goal_type" then (if e.goalType == None then None else Some(JString(e.goalType.value)))
    else if k == "goal_value" then (if e.goalValue == None then None else Some(JNumber(e.goalValue.value)))
    else if k == "goal_name" then (if e.goalName == None then None else Some(JString(e.goalName.value)))
    else None
  }

  function OrJsonNull(v: Option<Json>): Option<Json> {
    Some(if v == None then JNull else v.value)
  }

  const GOAL_COLUMNS: set<string> := {"goal_type", "goal_value", "goal_name"}

  /** What an inserted event records: its name and id, and the goal columns it has. */
  ghost predicate EventInserted(fields: map<string, Change>, name: string, externalId: string, e: CustomEvent) {
    && (forall k :: k in fields <==> k == "event_name" || k == "external_id" || (k in GOAL_COLUMNS && GoalColumn(e, k).Some?))
    && ("event_name" in fields ==> fields["event_name"] == Change(None, Some(JString(name))))
    && ("external_id" in fields ==> fields["external_id"] == Change(None, Some(JString(externalId))))
    && forall k :: k in GOAL_COLUMNS && k in fields ==> fields[k] == Change(None, GoalColumn(e, k))
  }

  /** What an update records beside its properties: both instants, and both values of each goal column that differs. */
  ghost predicate EventUpdated(fields: map<string, Change>, b: CustomEvent, e: CustomEvent) {
    && (forall k :: k in fields <==> k == "occurred_at" || (k in GOAL_COLUMNS && GoalColumn(b, k) != GoalColumn(e, k)))
    && ("occurred_at" in fields ==>
          fields["occurred_at"] == Change(Some(JNumber(b.occurredAt as real)), Some(JNumber(e.occurredAt as real))))
    && forall k :: k in GOAL_COLUMNS && k in fields ==> fields[k] == Change(OrJsonNull(GoalColumn(b, k)), OrJsonNull(GoalColumn(e, k)))
  }

  lemma InsertedGoals(name: string, externalId: string, e: CustomEvent, now: Time)
    ensures var changes := EventRows(name, externalId, Inserted(e), now)[0].changes;
            changes.FieldChanges? && EventInserted(changes.fields, name, externalId, e)
  {
    var goals := GoalFields(e);
    GoalFieldsAre(e);
    hide GoalFields;
    var named := map["event_name" := Change(None, Scalar(name)), "external_id" := Change(None, Scalar(externalId))];
    assert EventRows(name, externalId, Inserted(e), now)[0].changes == FieldChanges(named + goals);
  }

  lemma GoalFieldsAre(e: CustomEvent)
    ensures forall k :: k in GoalFields(e) <==> k in GOAL_COLUMNS && GoalColumn(e, k).Some?
    ensures forall k :: k in GoalFields(e) ==> GoalFields(e)[k] == Change(None, GoalColumn(e, k))
  {
  }

  lemma ChangedGoalFieldsAre(b: CustomEvent, e: CustomEvent)
    ensures forall k :: k in ChangedGoalFields(b, e) <==> k in GOAL_COLUMNS && GoalColumn(b, k) != GoalColumn(e, k)
    ensures forall k :: k in ChangedGoalFields(b, e) ==>
              ChangedGoalFields(b, e)[k] == Change(OrJsonNull(GoalColumn(b, k)), OrJsonNull(GoalColumn(e, k)))
  {
    forall k
      ensures k in ChangedGoalFields(b, e) <==> k in GOAL_COLUMNS && GoalColumn(b, k) != GoalColumn(e, k)
      ensures k in ChangedGoalFields(b, e) ==>
                ChangedGoalFields(b, e)[k] == Change(OrJsonNull(GoalColumn(b, k)), OrJsonNull(GoalColumn(e, k)))
    {
      ChangedGoalFieldIs(b, e, k);
    }
  }

  lemma ChangedGoalFieldIs(b: CustomEvent, e: CustomEvent, k: string)
    ensures k in ChangedGoalFields(b, e) <==> k in GOAL_COLUMNS && GoalColumn(b, k) != GoalColumn(e, k)
    ensures k in ChangedGoalFields(b, e) ==>
              ChangedGoalFields(b, e)[k] == Change(OrJsonNull(GoalColumn(b, k)), OrJsonNull(GoalColumn(e, k)))
  {
  }

  lemma UpdatedGoals(name: string, externalId: string, b: CustomEvent, e: CustomEvent, now: Time)
    ensures var changes := EventRows(name, externalId, Updated(b, e), now)[0].changes;
            changes.EventChanges? && EventUpdated(changes.fields, b, e) && changes.properties == PropertyDiff(b, e)
  {
    var goals := ChangedGoalFields(b, e);
    ChangedGoalFieldsAre(b, e);
    hide ChangedGoalFields, PropertyDiff;
    var at := map["occurred_at" := Change(Instant(b.occurredAt), Instant(e.occurredAt))];
    assert EventRows(name, externalId, Updated(b, e), now)[0].changes == EventChanges(PropertyDiff(b, e), at + goals);
  }

  /** A custom event: always one row, for its own contact, name and id, as of when it occurred. */
  lemma EventStepsRecord(d: Db, step: Step)
    requires Commits(d, step)
    ensures d.timeline <= Exec(d, step).timeline
    ensures var st, now := step.statement, step.now;
            && (st.InsertEvent? ==>
                  |Recorded(d, step)| == 1
                  && var x := Recorded(d, step)[0];
                     && x == TimelineRow(st.event.email, InsertOp, EventEntity, "custom_event." + st.name, Some(st.externalId),
                                         x.changes, st.event.occurredAt, now)
                     && x.changes.FieldChanges? && EventInserted(x.changes.fields, st.name, st.externalId, st.event))
            && (st.UpdateEvent? && (st.name, st.externalId) in d.events ==>
                  |Recorded(d, step)| == 1
                  && var x := Recorded(d, step)[0];
                     && x == TimelineRow(st.event.email, UpdateOp, EventEntity, "custom_event." + st.name, Some(st.externalId),
                                         x.changes, st.event.occurredAt, now)
                     && x.changes.EventChanges? && EventUpdated(x.changes.fields, d.events[(st.name, st.externalId)], st.event)
                     && x.changes.properties == PropertyDiff(d.events[(st.name, st.externalId)], st.event))
  {
    StepTables(d, step);
    var st := step.statement;
    hide Commits, Exec, Direct, EventInserted, EventUpdated, GoalFields, ChangedGoalFields, PropertyDiff;
    if st.InsertEvent? {
      OwnRecords(d, step);
      InsertedGoals(st.name, st.externalId, st.event, step.now);
    } else if st.UpdateEvent? && (st.name, st.externalId) in d.events {
      OwnRecords(d, step);
      UpdatedGoals(st.name, st.externalId, d.events[(st.name, st.externalId)], st.event, step.now);
    }
  }

  /** Direct enrolments, removals from the queue and changes of missing rows record nothing of their own. */
  lemma OtherStepsRecord(d: Db, step: Step)
    requires Commits(d, step)
    ensures d.timeline <= Exec(d, step).timeline
    ensures step.statement.Dequeue? || step.statement.EnrolContact? || MissingRow(d, step.statement) ==> Recorded(d, step) == []
  {
    StepEffect(d, step);
    var st := step.statement;
    if st.Dequeue? || st.EnrolContact? || MissingRow(d, st) {
      assert TargetOf(d, st).suppressions == [] && RowsOf(d, st, step.now) == [];
      hide Commits, Exec, Direct, RowsOf, WebhookOf, Outgoing;
      assert [] + ([] + []) == Recorded(d, step);
    }
  }
}
