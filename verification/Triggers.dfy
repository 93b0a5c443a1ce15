/**
 What each trigger function decides: the timeline rows it inserts, the outgoing event it
 raises, and the list statuses it overwrites. `now` is the statement's CURRENT_TIMESTAMP.
 */
module Triggers {
  import opened Prelude
  import opened Diffs
  import opened Tables
  import opened Automations

  // ---------- contacts ----------

  /** The columns track_contact_changes compares. */
  const TRACKED_COLUMNS: seq<string> := [
    "external_id", "timezone", "language", "first_name", "last_name", "full_name", "phone",
    "address_line_1", "address_line_2", "country", "postcode", "state", "job_title",
    "custom_string_1", "custom_string_2", "custom_string_3", "custom_string_4", "custom_string_5",
    "custom_number_1", "custom_number_2", "custom_number_3", "custom_number_4", "custom_number_5",
    "custom_datetime_1", "custom_datetime_2", "custom_datetime_3", "custom_datetime_4", "custom_datetime_5",
    "custom_json_1", "custom_json_2", "custom_json_3", "custom_json_4", "custom_json_5"
  ]

  /** The columns webhook_contacts_trigger compares, from its own list. */
  const WEBHOOK_COLUMNS: seq<string> := [
    "external_id", "timezone", "language", "first_name", "last_name", "full_name", "phone",
    "address_line_1", "address_line_2", "country", "postcode", "state", "job_title",
    "custom_string_1", "custom_string_2", "custom_string_3", "custom_string_4", "custom_string_5",
    "custom_number_1", "custom_number_2", "custom_number_3", "custom_number_4", "custom_number_5",
    "custom_datetime_1", "custom_datetime_2", "custom_datetime_3", "custom_datetime_4", "custom_datetime_5",
    "custom_json_1", "custom_json_2", "custom_json_3", "custom_json_4", "custom_json_5"
  ]

  function Columns(names: seq<string>): set<string> {
    set c | c in names
  }

  function ContactDiff(before: Contact, after: Contact): map<string, Change> {
    Diff(Columns(TRACKED_COLUMNS), before.cells, after.cells)
  }

  function ContactRows(email: string, e: RowEvent<Contact>, now: Time): seq<TimelineRow> {
    match e
    case Inserted(c) =>
      [TimelineRow(email, InsertOp, ContactEntity, "contact.created", None, NoChanges, c.createdAt, now)]
    case Updated(b, c) =>
      if ContactDiff(b, c) == map[] then []
      else [TimelineRow(email, UpdateOp, ContactEntity, "contact.updated", None,
                        FieldChanges(ContactDiff(b, c)), c.updatedAt, now)]
    case Deleted(_) => []
  }

  predicate SameOn(columns: seq<string>, before: Record, after: Record) {
    forall c :: c in columns ==> Lookup(before, c) == Lookup(after, c)
  }

  function ContactWebhook(email: string, e: RowEvent<Contact>): Option<Webhook> {
    match e
    case Inserted(c) => Some(Webhook("contact.created", ContactPayload(email, c)))
    case Updated(b, c) =>
      if SameOn(WEBHOOK_COLUMNS, b.cells, c.cells) then None
      else Some(Webhook("contact.updated", ContactPayload(email, c)))
    case Deleted(b) => Some(Webhook("contact.deleted", ContactPayload(email, b)))
  }

  // ---------- contact_lists ----------

  function Scalar(v: string): Option<Json> {
    Some(JString(v))
  }

  function OptScalar(v: Option<string>): Option<Json> {
    match v
    case None => Some(JNull)
    case Some(s) => Some(JString(s))
  }

  function Instant(t: Time): Option<Json> {
    Some(JNumber(t as real))
  }

  function OptInstant(t: Option<Time>): Option<Json> {
    match t
    case None => Some(JNull)
    case Some(i) => Some(JNumber(i as real))
  }

  function InsertedListKind(status: string): string {
    match status
    case "active" => "list.subscribed"
    case "pending" => "list.pending"
    case "unsubscribed" => "list.unsubscribed"
    case "bounced" => "list.bounced"
    case "complained" => "list.complained"
    case _ => "list.subscribed"
  }

  predicate Suppressed(status: string) {
    status == "unsubscribed" || status == "bounced" || status == "complained"
  }

  function ChangedListKind(before: string, after: string): string {
    if before == "pending" && after == "active" then "list.confirmed"
    else if Suppressed(before) && after == "active" then "list.resubscribed"
    else if after == "unsubscribed" then "list.unsubscribed"
    else if after == "bounced" then "list.bounced"
    else if after == "complained" then "list.complained"
    else if after == "pending" then "list.pending"
    else if after == "active" then "list.subscribed"
    else "list.status_changed"
  }

  function ListRows(email: string, listId: string, e: RowEvent<ListRow>, now: Time): seq<TimelineRow> {
    match e
    case Inserted(r) =>
      var changes := FieldChanges(map[
        "list_id" := Change(None, Scalar(listId)),
        "status" := Change(None, Scalar(r.status))]);
      [TimelineRow(email, InsertOp, ListEntity, InsertedListKind(r.status), Some(listId), changes, now, now)]
    case Updated(b, r) =>
      if b.deletedAt != r.deletedAt && r.deletedAt != None then
        var changes := FieldChanges(map["deleted_at" := Change(OptInstant(b.deletedAt), OptInstant(r.deletedAt))]);
        [TimelineRow(email, UpdateOp, ListEntity, "list.removed", Some(listId), changes, now, now)]
      else if b.status != r.status then
        var changes := FieldChanges(map["status" := Change(Scalar(b.status), Scalar(r.status))]);
        [TimelineRow(email, UpdateOp, ListEntity, ChangedListKind(b.status, r.status), Some(listId), changes, now, now)]
      else []
    case Deleted(_) => []
  }

  function NamedIn(names: map<string, string>, id: string): Option<string> {
    if id in names then Some(names[id]) else None
  }

  function ListEventKind(e: RowEvent<ListRow>): Option<string> {
    match e
    case Inserted(r) =>
      (match r.status
       case "active" => Some("list.subscribed")
       case "pending" => Some("list.pending")
       case "unsubscribed" => Some("list.unsubscribed")
       case "bounced" => Some("list.bounced")
       case "complained" => Some("list.complained")
       case _ => None)
    case Updated(b, r) =>
      if r.status != b.status then
        if b.status == "pending" && r.status == "active" then Some("list.confirmed")
        else if Suppressed(b.status) && r.status == "active" then Some("list.resubscribed")
        else if r.status == "unsubscribed" then Some("list.unsubscribed")
        else if r.status == "bounced" then Some("list.bounced")
        else if r.status == "complained" then Some("list.complained")
        else None
      else if r.deletedAt != None && b.deletedAt == None then Some("list.removed")
      else None
    case Deleted(_) => None
  }

  function ListWebhook(c: Config, email: string, listId: string, e: RowEvent<ListRow>): Option<Webhook> {
    match ListEventKind(e)
    case None => None
    case Some(kind) =>
      if e.Deleted? then None
      else
        var previous := if e.Updated? then Some(e.before.status) else None;
        Some(Webhook(kind, ListPayload(email, listId, NamedIn(c.listNames, listId), e.after.status, previous)))
  }

  // ---------- message_history ----------

  function EngagementRows(id: string, m: Message, prefix: string, column: string,
                          before: Option<Time>, after: Option<Time>, now: Time): seq<TimelineRow> {
    if before != after && after != None then
      var changes := FieldChanges(map[column := Change(OptInstant(before), OptInstant(after))]);
      [TimelineRow(m.contactEmail, UpdateOp, MessageEntity, prefix + m.channel, Some(id), changes, m.updatedAt, now)]
    else []
  }

  function StatusFields(b: Message, m: Message): map<string, Change> {
    (if b.deliveredAt != m.deliveredAt
     then map["delivered_at" := Change(OptInstant(b.deliveredAt), OptInstant(m.deliveredAt))] else map[])
    + (if b.failedAt != m.failedAt
       then map["failed_at" := Change(OptInstant(b.failedAt), OptInstant(m.failedAt))] else map[])
    + (if b.statusInfo != m.statusInfo
       then map["status_info" := Change(OptScalar(b.statusInfo), OptScalar(m.statusInfo))] else map[])
  }

  function StatusRows(id: string, b: Message, m: Message, now: Time): seq<TimelineRow> {
    if StatusFields(b, m) == map[] then []
    else [TimelineRow(m.contactEmail, UpdateOp, MessageEntity, "update_message_history", Some(id),
                      FieldChanges(StatusFields(b, m)), m.updatedAt, now)]
  }

  function SentFields(m: Message): map<string, Change> {
    map["template_id" := Change(None, Scalar(m.templateId)),
        "template_version" := Change(None, Some(JNumber(m.templateVersion as real))),
        "channel" := Change(None, Scalar(m.channel)),
        "broadcast_id" := Change(None, OptScalar(m.broadcastId)),
        "sent_at" := Change(None, Instant(m.sentAt))]
  }

  function MessageRows(id: string, e: RowEvent<Message>, now: Time): seq<TimelineRow> {
    match e
    case Inserted(m) =>
      [TimelineRow(m.contactEmail, InsertOp, MessageEntity, "insert_message_history", Some(id),
                   FieldChanges(SentFields(m)), m.updatedAt, now)]
    case Updated(b, m) =>
      EngagementRows(id, m, "open_", "opened_at", b.openedAt, m.openedAt, now)
      + EngagementRows(id, m, "click_", "clicked_at", b.clickedAt, m.clickedAt, now)
      + EngagementRows(id, m, "bounce_", "bounced_at", b.bouncedAt, m.bouncedAt, now)
      + EngagementRows(id, m, "complain_", "complained_at", b.complainedAt, m.complainedAt, now)
      + EngagementRows(id, m, "unsubscribe_", "unsubscribed_at", b.unsubscribedAt, m.unsubscribedAt, now)
      + StatusRows(id, b, m, now)
    case Deleted(_) => []
  }

  predicate NewlySet(before: Option<Time>, after: Option<Time>) {
    after != None && before == None
  }

  function EmailEvent(b: Message, m: Message): Option<(string, Time)> {
    if NewlySet(b.deliveredAt, m.deliveredAt) then Some(("email.delivered", m.deliveredAt.value))
    else if NewlySet(b.openedAt, m.openedAt) then Some(("email.opened", m.openedAt.value))
    else if NewlySet(b.clickedAt, m.clickedAt) then Some(("email.clicked", m.clickedAt.value))
    else if NewlySet(b.bouncedAt, m.bouncedAt) then Some(("email.bounced", m.bouncedAt.value))
    else if NewlySet(b.complainedAt, m.complainedAt) then Some(("email.complained", m.complainedAt.value))
    else if NewlySet(b.unsubscribedAt, m.unsubscribedAt) then Some(("email.unsubscribed", m.unsubscribedAt.value))
    else None
  }

  function MessageWebhook(id: string, e: RowEvent<Message>): Option<Webhook> {
    match e
    case Inserted(m) => Some(Webhook("email.sent", MessagePayload(id, m, m.sentAt)))
    case Updated(b, m) =>
      (match EmailEvent(b, m)
       case None => None
       case Some(ev) => Some(Webhook(ev.0, MessagePayload(id, m, ev.1))))
    case Deleted(_) => None
  }

  /** A status update_contact_lists_on_status_change wants to write. */
  datatype Suppression = Suppression(status: string, at: Time)

  function Suppressions(b: Message, m: Message): seq<Suppression> {
    (if NewlySet(b.complainedAt, m.complainedAt) then [Suppression("complained", m.complainedAt.value)] else [])
    + (if NewlySet(b.bouncedAt, m.bouncedAt) then [Suppression("bounced", m.bouncedAt.value)] else [])
  }

  /** Its WHERE clause on the status the row has now. */
  predicate MaySuppress(current: string, status: string) {
    if status == "complained" then current != "complained"
    else current != "complained" && current != "bounced"
  }

  // ---------- inbound_webhook_events, contact_segments, custom_events ----------

  function WhenPresent(column: string, v: Option<string>): map<string, Change> {
    if Blank(v) then map[] else map[column := Change(None, OptScalar(v))]
  }

  function InboundRows(e: InboundEvent, now: Time): seq<TimelineRow> {
    var changes :=
      map["type" := Change(None, Scalar(e.kind)), "source" := Change(None, Scalar(e.source))]
      + WhenPresent("bounce_type", e.bounceType)
      + WhenPresent("bounce_category", e.bounceCategory)
      + WhenPresent("bounce_diagnostic", e.bounceDiagnostic)
      + WhenPresent("complaint_feedback_type", e.complaintFeedbackType);
    var entityId := if e.messageId == None then e.id else e.messageId.value;
    [TimelineRow(e.recipientEmail, InsertOp, InboundEntity, "insert_inbound_webhook_event", Some(entityId),
                 FieldChanges(changes), now, now)]
  }

  function SegmentRows(email: string, segmentId: string, e: RowEvent<Member>, now: Time): seq<TimelineRow> {
    match e
    case Inserted(m) =>
      var changes := map["segment_id" := Change(None, Scalar(segmentId)),
                         "version" := Change(None, Some(JNumber(m.version as real))),
                         "matched_at" := Change(None, Instant(m.matchedAt))];
      [TimelineRow(email, InsertOp, SegmentEntity, "segment.joined", Some(segmentId), FieldChanges(changes), now, now)]
    case Updated(_, _) => []
    case Deleted(m) =>
      var changes := map["segment_id" := Change(Scalar(segmentId), None),
                         "version" := Change(Some(JNumber(m.version as real)), None)];
      [TimelineRow(email, DeleteOp, SegmentEntity, "segment.left", Some(segmentId), FieldChanges(changes), now, now)]
  }

  function SegmentWebhook(c: Config, email: string, segmentId: string, e: RowEvent<Member>): Option<Webhook> {
    var payload := SegmentPayload(email, segmentId, NamedIn(c.segmentNames, segmentId));
    match e
    case Inserted(_) => Some(Webhook("segment.joined", payload))
    case Updated(_, _) => None
    case Deleted(_) => Some(Webhook("segment.left", payload))
  }

  function OptNumber(v: Option<real>): Option<Json> {
    match v
    case None => Some(JNull)
    case Some(n) => Some(JNumber(n))
  }

  function GoalFields(e: CustomEvent): map<string, Change> {
    (if e.goalType == None then map[] else map["goal_type" := Change(None, OptScalar(e.goalType))])
    + (if e.goalValue == None then map[] else map["goal_value" := Change(None, OptNumber(e.goalValue))])
    + (if e.goalName == None then map[] else map["goal_name" := Change(None, OptScalar(e.goalName))])
  }

  function ChangedGoalFields(b: CustomEvent, e: CustomEvent): map<string, Change> {
    (if b.goalType == e.goalType then map[]
     else map["goal_type" := Change(OptScalar(b.goalType), OptScalar(e.goalType))])
    + (if b.goalValue == e.goalValue then map[]
       else map["goal_value" := Change(OptNumber(b.goalValue), OptNumber(e.goalValue))])
    + (if b.goalName == e.goalName then map[]
       else map["goal_name" := Change(OptScalar(b.goalName), OptScalar(e.goalName))])
  }

  function PropertyDiff(b: CustomEvent, e: CustomEvent): map<string, Change> {
    Diff(b.properties.Keys + e.properties.Keys, b.properties, e.properties)
  }

  function EventRows(name: string, externalId: string, e: RowEvent<CustomEvent>, now: Time): seq<TimelineRow> {
    match e
    case Inserted(ev) =>
      var changes := map["event_name" := Change(None, Scalar(name)), "external_id" := Change(None, Scalar(externalId))]
                     + GoalFields(ev);
      [TimelineRow(ev.email, InsertOp, EventEntity, CUSTOM_PREFIX + name, Some(externalId),
                   FieldChanges(changes), ev.occurredAt, now)]
    case Updated(b, ev) =>
      var fields := map["occurred_at" := Change(Instant(b.occurredAt), Instant(ev.occurredAt))]
                    + ChangedGoalFields(b, ev);
      [TimelineRow(ev.email, UpdateOp, EventEntity, CUSTOM_PREFIX + name, Some(externalId),
                   EventChanges(PropertyDiff(b, ev), fields), ev.occurredAt, now)]
    case Deleted(_) => []
  }

  function EventKind(e: RowEvent<CustomEvent>): Option<string> {
    match e
    case Inserted(ev) => Some(if ev.deletedAt != None then "custom_event.deleted" else "custom_event.created")
    case Updated(b, ev) =>
      if b.deletedAt == None && ev.deletedAt != None then Some("custom_event.deleted")
      else if b.deletedAt != None && ev.deletedAt == None then Some("custom_event.created")
      else if ev.deletedAt == None then Some("custom_event.updated")
      else None
    case Deleted(_) => None
  }

  function EventWebhook(name: string, externalId: string, e: RowEvent<CustomEvent>): Option<Webhook> {
    match EventKind(e)
    case None => None
    case Some(kind) =>
      if e.Deleted? then None else Some(Webhook(kind, EventPayload(name, externalId, e.after)))
  }

  // ---------- matching subscriptions ----------

  predicate PassesList(wanted: Option<seq<string>>, actual: Option<string>) {
    wanted == None || wanted.value == [] || (actual != None && actual.value in wanted.value)
  }

  predicate PassesFilters(filters: Option<EventFilters>, payload: Payload) {
    filters != None && payload.EventPayload? ==>
      && PassesList(filters.value.goalTypes, payload.event.goalType)
      && PassesList(filters.value.eventNames, Some(payload.eventName))
  }

  predicate Wants(s: Subscription, w: Webhook) {
    s.enabled && w.kind in s.eventTypes && PassesFilters(s.filters, w.payload)
  }

  function DeliveriesFor(subscriptions: seq<Subscription>, w: Webhook): seq<Delivery> {
    if subscriptions == [] then []
    else (if Wants(subscriptions[0], w) then [Delivery(subscriptions[0].id, w.kind, w.payload)] else [])
         + DeliveriesFor(subscriptions[1..], w)
  }

  function Outgoing(c: Config, w: Option<Webhook>): seq<Delivery> {
    match w
    case None => []
    case Some(event) => DeliveriesFor(c.subscriptions, event)
  }
}
