/**
 What one statement does to the whole database once every trigger it sets off has run.
 A trigger's own inserts fire their triggers before the next statement of its body.
 */
module Cascade {
  import opened Prelude
  import opened Diffs
  import opened Tables
  import opened Automations
  import opened Triggers

  type ValidConfig = c: Config | WellConfigured(c) ghost witness Config([], [], map[], map[])

  /** contact_timeline.kind is VARCHAR(50). */
  const KIND_WIDTH := 50

  predicate Requeues(kind: string) {
    kind != "segment.joined" && kind != "segment.left"
  }

  /** queue_contact_for_segment_recomputation */
  function Requeue(d: Db, row: TimelineRow): Db {
    if Requeues(row.kind) then d.(queue := d.queue[row.email := row.insertedAt]) else d
  }

  /** The row itself, before any trigger. */
  function StoreRow(d: Db, row: TimelineRow): Db {
    d.(timeline := d.timeline + [row], aborted := d.aborted || |row.kind| > KIND_WIDTH)
  }

  /** INSERT INTO contact_timeline with its AFTER triggers: automations, then the queue. */
  function InsertTimeline(c: ValidConfig, d: Db, row: TimelineRow): Db
    decreases if row.kind == START_KIND then 0 else 1, 1, 0
  {
    if row.kind == START_KIND then StartFiresNothing(c, row); Requeue(StoreRow(d, row), row)
    else Requeue(EnrollAll(c, StoreRow(d, row), Fired(c.triggers, row), row.email, row.insertedAt), row)
  }

  function EnrollAll(c: ValidConfig, d: Db, ts: seq<AutomationTrigger>, email: string, now: Time): Db
    decreases 1, 0, |ts|
  {
    if ts == [] then d
    else EnrollAll(c, Enroll(c, d, ts[0].automationId, email, ts[0].rootNodeId, ts[0].config.frequency, now),
                   ts[1..], email, now)
  }

  predicate AlreadyTriggered(d: Db, automationId: string, email: string, frequency: string) {
    frequency == "once" && (automationId, email) in d.triggerLog
  }

  /** The foreign key to automations and UNIQUE(automation_id, contact_email, entered_at). */
  predicate MayEnrol(d: Db, automationId: string, email: string, now: Time) {
    && automationId in d.enrolled
    && forall e :: e in d.enrolments ==> !(e.automationId == automationId && e.email == email && e.enteredAt == now)
  }

  function StartRow(automationId: string, email: string, rootNodeId: string, now: Time): TimelineRow {
    TimelineRow(email, InsertOp, AutomationEntity, START_KIND, Some(automationId),
                FieldChanges(map["automation_id" := Change(None, Scalar(automationId)),
                                 "root_node_id" := Change(None, Scalar(rootNodeId))]),
                now, now)
  }

  /** The rows an enrolment writes before its timeline row. */
  function RecordEnrolment(d: Db, automationId: string, email: string, rootNodeId: string,
                           frequency: string, now: Time): Db
    requires automationId in d.enrolled
  {
    d.(triggerLog := if frequency == "once" then d.triggerLog + {(automationId, email)} else d.triggerLog,
       enrolments := d.enrolments + [Enrolment(d.nextId, automationId, email, rootNodeId, "active", now, now, frequency)],
       enrolled := d.enrolled[automationId := d.enrolled[automationId] + 1],
       executions := d.executions + [NodeExecution(d.nextId, automationId, rootNodeId, "trigger", "entered", now)],
       nextId := d.nextId + 1)
  }

  /** automation_enroll_contact */
  function Enroll(c: ValidConfig, d: Db, automationId: string, email: string, rootNodeId: string,
                  frequency: string, now: Time): Db
    decreases 0, 2, 0
  {
    if AlreadyTriggered(d, automationId, email, frequency) then d
    else if !MayEnrol(d, automationId, email, now) then d.(aborted := true)
    else InsertTimeline(c, RecordEnrolment(d, automationId, email, rootNodeId, frequency, now),
                        StartRow(automationId, email, rootNodeId, now))
  }

  /** An enrolment's own timeline row starts nothing: it is stored and its contact queued. */
  lemma EnrollFlat(c: ValidConfig, d: Db, automationId: string, email: string, rootNodeId: string,
                   frequency: string, now: Time)
    ensures Enroll(c, d, automationId, email, rootNodeId, frequency, now)
         == if AlreadyTriggered(d, automationId, email, frequency) then d
            else if !MayEnrol(d, automationId, email, now) then d.(aborted := true)
            else var row := StartRow(automationId, email, rootNodeId, now);
                 var d1 := StoreRow(RecordEnrolment(d, automationId, email, rootNodeId, frequency, now), row);
                 d1.(queue := d1.queue[email := now])
  {
  }

  function InsertAll(c: ValidConfig, d: Db, rows: seq<TimelineRow>): Db
    decreases |rows|
  {
    if rows == [] then d else InsertAll(c, InsertTimeline(c, d, rows[0]), rows[1..])
  }

  function Deliver(c: ValidConfig, d: Db, w: Option<Webhook>): Db {
    d.(deliveries := d.deliveries + Outgoing(c, w))
  }

  // ---------- contact_lists rows rewritten by update_contact_lists_on_status_change ----------

  /** UPDATE contact_lists SET ... of one row, with its triggers. */
  function WriteList(c: ValidConfig, d: Db, email: string, listId: string, row: ListRow, now: Time): Db
    requires (email, listId) in d.lists
  {
    var e := Updated(d.lists[(email, listId)], row);
    var d1 := d.(lists := d.lists[(email, listId) := row]);
    Deliver(c, InsertAll(c, d1, ListRows(email, listId, e, now)), ListWebhook(c, email, listId, e))
  }

  function Suppress(c: ValidConfig, d: Db, email: string, listId: string, s: Suppression, now: Time): Db {
    if (email, listId) in d.lists && MaySuppress(d.lists[(email, listId)].status, s.status)
    then WriteList(c, d, email, listId, d.lists[(email, listId)].(status := s.status, updatedAt := s.at), now)
    else d
  }

  function SuppressAll(c: ValidConfig, d: Db, email: string, listId: Option<string>,
                       ss: seq<Suppression>, now: Time): Db
    decreases |ss|
  {
    if ss == [] || listId == None then d
    else SuppressAll(c, Suppress(c, d, email, listId.value, ss[0], now), email, listId, ss[1..], now)
  }
}
