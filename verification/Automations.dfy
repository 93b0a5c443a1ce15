/**
 What can start an automation: the event kinds a trigger configuration may name, its
 validation, and the WHEN clause generated from it for the contact_timeline trigger.
 */
module Automations {
  import opened Prelude
  import opened Tables

  const VALID_EVENT_KINDS: seq<string> := [
    "contact.created", "contact.updated", "contact.deleted",
    "list.subscribed", "list.unsubscribed", "list.confirmed", "list.resubscribed",
    "list.bounced", "list.complained", "list.pending", "list.removed",
    "segment.joined", "segment.left",
    "email.sent", "email.delivered", "email.opened", "email.clicked",
    "email.bounced", "email.complained", "email.unsubscribed",
    "custom_event"
  ]

  const START_KIND := "automation.start"
  const CUSTOM_PREFIX := "custom_event."

  datatype TriggerError =
    | EventKindRequired
    | InvalidEventKind
    | InvalidFrequency
    | ListIdRequired
    | SegmentIdRequired
    | CustomEventNameRequired

  predicate IsValidEventKind(kind: string) {
    kind in VALID_EVENT_KINDS
  }

  predicate Blank(s: Option<string>) {
    s == None || s.value == ""
  }

  function Validate(t: TriggerConfig): Option<TriggerError> {
    if t.eventKind == "" then Some(EventKindRequired)
    else if !IsValidEventKind(t.eventKind) then Some(InvalidEventKind)
    else if t.frequency != "once" && t.frequency != "every_time" then Some(InvalidFrequency)
    else if "list." <= t.eventKind && Blank(t.listId) then Some(ListIdRequired)
    else if "segment." <= t.eventKind && Blank(t.segmentId) then Some(SegmentIdRequired)
    else if t.eventKind == "custom_event" && Blank(t.customEventName) then Some(CustomEventNameRequired)
    else None
  }

  /** Which configurations pass: one of the 21 kinds, one of two frequencies, and the name its kind calls for. */
  lemma ValidIff(t: TriggerConfig)
    ensures Validate(t) == None
       <==> && t.frequency in ["once", "every_time"]
            && match t.eventKind
               case "contact.created" => true
               case "contact.updated" => true
               case "contact.deleted" => true
               case "custom_event" => t.customEventName.Some? && t.customEventName.value != ""
               case "segment.joined" => t.segmentId.Some? && t.segmentId.value != ""
               case "segment.left" => t.segmentId.Some? && t.segmentId.value != ""
               case kind =>
                 || (&& kind in ["list.subscribed", "list.unsubscribed", "list.confirmed", "list.resubscribed",
                                 "list.bounced", "list.complained", "list.pending", "list.removed"]
                     && t.listId.Some? && t.listId.value != "")
                 || kind in ["email.sent", "email.delivered", "email.opened", "email.clicked", "email.bounced",
                             "email.complained", "email.unsubscribed"]
  {
    if t.eventKind in VALID_EVENT_KINDS {
      KindsByPrefix(t.eventKind);
    }
  }

  lemma KindsByPrefix(kind: string)
    requires kind in VALID_EVENT_KINDS
    ensures "list." <= kind
       <==> kind in ["list.subscribed", "list.unsubscribed", "list.confirmed", "list.resubscribed",
                     "list.bounced", "list.complained", "list.pending", "list.removed"]
    ensures "segment." <= kind <==> kind in ["segment.joined", "segment.left"]
  {
    if "list." <= kind || "segment." <= kind {
      assert kind[0] == 'l' || kind[0] == 's';
    } else {
      assert kind[..5] != "list." && (|kind| >= 8 ==> kind[..8] != "segment.");
    }
  }

  /** The timeline kind the generated WHEN clause compares NEW.kind with. */
  function ListenedKind(t: TriggerConfig): string {
    if t.eventKind == "custom_event" && !Blank(t.customEventName)
    then CUSTOM_PREFIX + t.customEventName.value
    else t.eventKind
  }

  predicate ChangesMention(changes: Changes, column: string) {
    match changes
    case NoChanges => false
    case FieldChanges(fields) => column in fields
    case EventChanges(_, fields) => column in fields || column == "properties"
  }

  /** The generated WHEN clause; `condition` stands for the SQL of the segment-style tree. */
  predicate Fires(t: TriggerConfig, row: TimelineRow) {
    && row.kind == ListenedKind(t)
    && (!Blank(t.listId) && "list." <= t.eventKind ==> row.entityId == t.listId)
    && (!Blank(t.segmentId) && "segment." <= t.eventKind ==> row.entityId == t.segmentId)
    && (t.eventKind == "contact.updated" && t.updatedFields != [] ==>
          exists f :: f in t.updatedFields && ChangesMention(row.changes, f))
    && t.condition(row)
  }

  /** The automation triggers a new timeline row sets off, in trigger-name order. */
  function Fired(triggers: seq<AutomationTrigger>, row: TimelineRow): seq<AutomationTrigger> {
    Select(triggers, (t: AutomationTrigger) => Fires(t.config, row))
  }

  /** The contact columns an updated_fields filter may name. */
  const ALLOWED_CONTACT_FIELDS: seq<string> := [
    "external_id", "timezone", "language", "first_name", "last_name", "phone", "photo_url",
    "address_line_1", "address_line_2", "country", "postcode", "state",
    "custom_string_1", "custom_string_2", "custom_string_3", "custom_string_4", "custom_string_5",
    "custom_number_1", "custom_number_2", "custom_number_3", "custom_number_4", "custom_number_5",
    "custom_datetime_1", "custom_datetime_2", "custom_datetime_3", "custom_datetime_4", "custom_datetime_5",
    "custom_json_1", "custom_json_2", "custom_json_3", "custom_json_4", "custom_json_5"
  ]

  /** Whether a WHEN clause is generated at all; without one there is no trigger. */
  predicate Generates(t: TriggerConfig) {
    t.eventKind == "contact.updated" ==> forall f :: f in t.updatedFields ==> f in ALLOWED_CONTACT_FIELDS
  }

  /** A workspace whose automations were all validated and turned into triggers; ids are primary keys. */
  ghost predicate WellConfigured(c: Config) {
    && (forall t :: t in c.triggers ==> Validate(t.config) == None && Generates(t.config))
    && (forall i, j :: 0 <= i < j < |c.subscriptions| ==> c.subscriptions[i].id != c.subscriptions[j].id)
  }

  lemma CustomKindsDiffer(name: string, kind: string)
    requires kind != "" && kind[0] != 'c'
    ensures CUSTOM_PREFIX + name != kind
  {
    assert (CUSTOM_PREFIX + name)[0] == 'c';
  }

  /** No validated trigger listens to the row an enrolment itself writes. */
  lemma NeverListensToStart(t: TriggerConfig)
    requires Validate(t) == None
    ensures ListenedKind(t) != START_KIND
  {
    if t.eventKind == "custom_event" {
      CustomKindsDiffer(t.customEventName.value, START_KIND);
    }
  }

  lemma StartFiresNothing(c: Config, row: TimelineRow)
    requires WellConfigured(c) && row.kind == START_KIND
    ensures Fired(c.triggers, row) == []
  {
    forall t | t in c.triggers ensures !Fires(t.config, row) {
      NeverListensToStart(t.config);
    }
    SelectNone(c.triggers, (t: AutomationTrigger) => Fires(t.config, row));
  }
}
