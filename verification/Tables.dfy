/** The workspace database: its rows, its configuration, and a snapshot of all its tables. */
module Tables {
  import opened Prelude
  import opened Diffs

  /** Why a row trigger runs; Inserted, Updated and Deleted carry NEW, OLD and NEW, OLD. */
  datatype RowEvent<+T> = Inserted(after: T) | Updated(before: T, after: T) | Deleted(before: T)

  /** cells maps a column to its value; an absent column is SQL NULL. */
  datatype Contact = Contact(cells: Record, createdAt: Time, updatedAt: Time)

  datatype ListRow = ListRow(status: string, deletedAt: Option<Time>, updatedAt: Time)

  datatype Message = Message(
    contactEmail: string,
    listId: Option<string>,
    broadcastId: Option<string>,
    templateId: string,
    templateVersion: int,
    channel: string,
    statusInfo: Option<string>,
    sentAt: Time,
    deliveredAt: Option<Time>,
    failedAt: Option<Time>,
    openedAt: Option<Time>,
    clickedAt: Option<Time>,
    bouncedAt: Option<Time>,
    complainedAt: Option<Time>,
    unsubscribedAt: Option<Time>,
    updatedAt: Time)

  datatype Member = Member(version: int, matchedAt: Time)

  datatype CustomEvent = CustomEvent(
    email: string,
    properties: Record,
    occurredAt: Time,
    goalName: Option<string>,
    goalType: Option<string>,
    goalValue: Option<real>,
    deletedAt: Option<Time>)

  datatype InboundEvent = InboundEvent(
    id: string,
    recipientEmail: string,
    messageId: Option<string>,
    kind: string,
    source: string,
    bounceType: Option<string>,
    bounceCategory: Option<string>,
    bounceDiagnostic: Option<string>,
    complaintFeedbackType: Option<string>)

  datatype Operation = InsertOp | UpdateOp | DeleteOp

  datatype Entity =
    | ContactEntity
    | ListEntity
    | MessageEntity
    | InboundEntity
    | SegmentEntity
    | EventEntity
    | AutomationEntity

  /** The changes column: SQL NULL, one object of differences, or that of a custom event update. */
  datatype Changes =
    | NoChanges
    | FieldChanges(fields: map<string, Change>)
    | EventChanges(properties: map<string, Change>, fields: map<string, Change>)

  /** insertedAt is db_created_at, the CURRENT_TIMESTAMP of the inserting transaction. */
  datatype TimelineRow = TimelineRow(
    email: string,
    operation: Operation,
    entity: Entity,
    kind: string,
    entityId: Option<string>,
    changes: Changes,
    createdAt: Time,
    insertedAt: Time)

  datatype Payload =
    | ContactPayload(email: string, contact: Contact)
    | ListPayload(email: string, listId: string, listName: Option<string>, status: string, previous: Option<string>)
    | SegmentPayload(email: string, segmentId: string, segmentName: Option<string>)
    | MessagePayload(messageId: string, message: Message, eventTimestamp: Time)
    | EventPayload(eventName: string, externalId: string, event: CustomEvent)

  /** An outgoing event before it is matched with subscriptions. */
  datatype Webhook = Webhook(kind: string, payload: Payload)

  datatype Delivery = Delivery(subscriptionId: string, eventType: string, payload: Payload)

  datatype EventFilters = EventFilters(goalTypes: Option<seq<string>>, eventNames: Option<seq<string>>)

  datatype Subscription = Subscription(
    id: string,
    enabled: bool,
    eventTypes: seq<string>,
    filters: Option<EventFilters>)

  datatype TriggerConfig = TriggerConfig(
    eventKind: string,
    listId: Option<string>,
    segmentId: Option<string>,
    customEventName: Option<string>,
    updatedFields: seq<string>,
    condition: TimelineRow -> bool,
    frequency: string)

  /** A live trigger on contact_timeline. */
  datatype AutomationTrigger = AutomationTrigger(automationId: string, rootNodeId: string, config: TriggerConfig)

  /** triggers is in the order PostgreSQL fires them, which is by trigger name. */
  datatype Config = Config(
    triggers: seq<AutomationTrigger>,
    subscriptions: seq<Subscription>,
    listNames: map<string, string>,
    segmentNames: map<string, string>)

  /**
   A contact_automations row; ids stand for gen_random_uuid. calledWith is no column: it
   remembers the frequency of the call that created the row.
   */
  datatype Enrolment = Enrolment(
    id: nat,
    automationId: string,
    email: string,
    currentNodeId: string,
    status: string,
    enteredAt: Time,
    scheduledAt: Time,
    calledWith: string)

  datatype NodeExecution = NodeExecution(
    enrolmentId: nat,
    automationId: string,
    nodeId: string,
    nodeType: string,
    action: string,
    enteredAt: Time)

  /**
   All tables at one instant. enrolled is stats.enrolled of each automations row. aborted
   says that the running statement has raised an SQL error and will be rolled back.
   */
  datatype Db = Db(
    contacts: map<string, Contact>,
    lists: map<(string, string), ListRow>,
    messages: map<string, Message>,
    members: map<(string, string), Member>,
    events: map<(string, string), CustomEvent>,
    inbound: map<string, InboundEvent>,
    timeline: seq<TimelineRow>,
    queue: map<string, Time>,
    deliveries: seq<Delivery>,
    enrolled: map<string, nat>,
    enrolments: seq<Enrolment>,
    triggerLog: set<(string, string)>,
    executions: seq<NodeExecution>,
    nextId: nat,
    aborted: bool)
}
