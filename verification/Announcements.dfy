/**
 What each kind of statement tells each webhook subscription, read off the rows before and
 after, and what no run ever tells it.
 */
module Announcements {
  import opened Prelude
  import opened Tables
  import opened Automations
  import opened Triggers
  import opened Cascade
  import opened Runs
  import opened Webhooks
  import EmailStream

  /** All the deliveries a step adds for one subscription. */
  function ToldBy(d: Db, step: Step, s: Subscription): seq<Delivery>
    requires d.deliveries <= Exec(d, step).deliveries
  {
    Select(Added(d.deliveries, Exec(d, step).deliveries), To(s.id))
  }

  function Announced(s: Subscription, w: Option<Webhook>): seq<Delivery> {
    if w == None then [] else Told(s, w.value)
  }

  /** But for message updates, a statement announces at most its own event. */
  lemma OwnAnnouncement(d: Db, step: Step, s: Subscription)
    requires Commits(d, step) && s in step.c.subscriptions && !step.statement.UpdateMessage?
    ensures d.deliveries <= Exec(d, step).deliveries
    ensures ToldBy(d, step, s) == Announced(s, WebhookOf(step.c, d, step.statement))
  {
    var c, st, w := step.c, step.statement, WebhookOf(step.c, d, step.statement);
    assert TargetOf(d, st).suppressions == [];
    DeliveriesOfStep(d, step, To(s.id));
    hide Commits, Exec, Direct, WebhookOf, TargetOf;
    if w != None {
      OneDeliveryEach(c.subscriptions, s, w.value);
    }
  }

  lemma ContactStepsTell(d: Db, step: Step, s: Subscription)
    requires Commits(d, step) && s in step.c.subscriptions
    ensures d.deliveries <= Exec(d, step).deliveries
    ensures var st := step.statement;
            && (st.InsertContact? ==>
                  ToldBy(d, step, s) == Told(s, Webhook("contact.created", ContactPayload(st.email, st.contact))))
            && (st.UpdateContact? && st.email in d.contacts ==>
                  ToldBy(d, step, s)
                  == if forall c :: c in WEBHOOK_COLUMNS ==> Same(d.contacts[st.email], st.contact, c) then []
                     else Told(s, Webhook("contact.updated", ContactPayload(st.email, st.contact))))
            && (st.DeleteContact? && st.email in d.contacts ==>
                  ToldBy(d, step, s) == Told(s, Webhook("contact.deleted", ContactPayload(st.email, d.contacts[st.email]))))
  {
    StepTables(d, step);
    hide Commits, Exec, Direct, Told, WEBHOOK_COLUMNS;
    if !step.statement.UpdateMessage? {
      OwnAnnouncement(d, step, s);
    }
  }

  /** The column has the same value, or is NULL, in both. */
  predicate Same(b: Contact, c: Contact, column: string) {
    (column in b.cells <==> column in c.cells) && (column in b.cells ==> b.cells[column] == c.cells[column])
  }

  lemma MemberStepsTell(d: Db, step: Step, s: Subscription)
    requires Commits(d, step) && s in step.c.subscriptions
    ensures d.deliveries <= Exec(d, step).deliveries
    ensures var st := step.statement;
            && (st.InsertMember? ==>
                  ToldBy(d, step, s) == Told(s, Webhook("segment.joined", MemberPayload(step.c, st.email, st.segmentId))))
            && (st.DeleteMember? && (st.email, st.segmentId) in d.members ==>
                  ToldBy(d, step, s) == Told(s, Webhook("segment.left", MemberPayload(step.c, st.email, st.segmentId))))
  {
    StepTables(d, step);
    hide Commits, Exec, Direct, Told;
    if !step.statement.UpdateMessage? {
      OwnAnnouncement(d, step, s);
    }
  }

  function MemberPayload(c: Config, email: string, segmentId: string): Payload {
    SegmentPayload(email, segmentId, if segmentId in c.segmentNames then Some(c.segmentNames[segmentId]) else None)
  }

  /** The word for a new subscription of that status; none for a status outside the five. */
  function NewListKind(status: string): Option<string> {
    if status == "active" then Some("list.subscribed")
    else if status in {"pending", "unsubscribed", "bounced", "complained"} then Some("list." + status)
    else None
  }

  /** The word for an updated one: a change of status if there is one, and only else a removal. */
  function ChangedListWord(b: ListRow, r: ListRow): Option<string> {
    if r.status != b.status then
      if r.status == "active" && b.status == "pending" then Some("list.confirmed")
      else if r.status == "active" && b.status in {"unsubscribed", "bounced", "complained"} then Some("list.resubscribed")
      else if r.status in {"unsubscribed", "bounced", "complained"} then Some("list." + r.status)
      else None
    else if b.deletedAt == None && r.deletedAt != None then Some("list.removed")
    else None
  }

  function ListNews(c: Config, email: string, listId: string, kind: Option<string>, status: string,
                    previous: Option<string>): Option<Webhook> {
    var name := if listId in c.listNames then Some(c.listNames[listId]) else None;
    if kind == None then None
    else Some(Webhook(kind.value, ListPayload(email, listId, name, status, previous)))
  }

  lemma ListWordsAre(c: Config, email: string, listId: string, r: ListRow, b: ListRow)
    ensures ListWebhook(c, email, listId, Inserted(r)) == ListNews(c, email, listId, NewListKind(r.status), r.status, None)
    ensures ListWebhook(c, email, listId, Updated(b, r))
         == ListNews(c, email, listId, ChangedListWord(b, r), r.status, Some(b.status))
  {
    assert "list." + "pending" == "list.pending" && "list." + "unsubscribed" == "list.unsubscribed";
    assert "list." + "bounced" == "list.bounced" && "list." + "complained" == "list.complained";
  }

  lemma ListStepsTell(d: Db, step: Step, s: Subscription)
    requires Commits(d, step) && s in step.c.subscriptions
    ensures d.deliveries <= Exec(d, step).deliveries
    ensures var st, c := step.statement, step.c;
            && (st.InsertList? ==>
                  ToldBy(d, step, s)
                  == Announced(s, ListNews(c, st.email, st.listId, NewListKind(st.row.status), st.row.status, None)))
            && (st.UpdateList? && (st.email, st.listId) in d.lists ==>
                  var b := d.lists[(st.email, st.listId)];
                  ToldBy(d, step, s)
                  == Announced(s, ListNews(c, st.email, st.listId, ChangedListWord(b, st.row), st.row.status, Some(b.status))))
  {
    StepTables(d, step);
    hide Commits, Exec, Direct, Announced, ListNews, ListWebhook;
    var st := step.statement;
    if st.InsertList? {
      OwnAnnouncement(d, step, s);
      ListWordsAre(step.c, st.email, st.listId, st.row, st.row);
    } else if st.UpdateList? && (st.email, st.listId) in d.lists {
      OwnAnnouncement(d, step, s);
      ListWordsAre(step.c, st.email, st.listId, st.row, d.lists[(st.email, st.listId)]);
    }
  }

  /** The word for an inserted or updated custom event; none while it stays deleted. */
  function EventWord(before: Option<CustomEvent>, e: CustomEvent): Option<string> {
    var wasLive := before.Some? && before.value.deletedAt == None;
    if e.deletedAt != None then (if wasLive || before == None then Some("custom_event.deleted") else None)
    else if wasLive then Some("custom_event.updated")
    else Some("custom_event.created")
  }

  function EventNews(name: string, externalId: string, before: Option<CustomEvent>, e: CustomEvent): Option<Webhook> {
    if EventWord(before, e) == None then None
    else Some(Webhook(EventWord(before, e).value, EventPayload(name, externalId, e)))
  }

  /** A custom event is told to exactly the subscriptions whose limits it meets. */
  lemma EventStepsTell(d: Db, step: Step, s: Subscription)
    requires Commits(d, step) && s in step.c.subscriptions
    ensures d.deliveries <= Exec(d, step).deliveries
    ensures var st := step.statement;
            && (st.InsertEvent? ==>
                  ToldBy(d, step, s) == Announced(s, EventNews(st.name, st.externalId, None, st.event)))
            && (st.UpdateEvent? && (st.name, st.externalId) in d.events ==>
                  ToldBy(d, step, s)
                  == Announced(s, EventNews(st.name, st.externalId, Some(d.events[(st.name, st.externalId)]), st.event)))
  {
    StepTables(d, step);
    hide Commits, Exec, Direct, Announced, EventNews, EventWebhook;
    var st := step.statement;
    if st.InsertEvent? {
      OwnAnnouncement(d, step, s);
      EventWordsAre(st.name, st.externalId, st.event, st.event);
    } else if st.UpdateEvent? && (st.name, st.externalId) in d.events {
      OwnAnnouncement(d, step, s);
      EventWordsAre(st.name, st.externalId, d.events[(st.name, st.externalId)], st.event);
    }
  }

  lemma EventWordsAre(name: string, externalId: string, b: CustomEvent, e: CustomEvent)
    ensures EventWebhook(name, externalId, Inserted(e)) == EventNews(name, externalId, None, e)
    ensures EventWebhook(name, externalId, Updated(b, e)) == EventNews(name, externalId, Some(b), e)
  {
  }

  /** Inserting a message tells of it; statements on other tables, or that change nothing, tell nothing. */
  lemma OtherStepsTell(d: Db, step: Step, s: Subscription)
    requires Commits(d, step) && s in step.c.subscriptions
    ensures d.deliveries <= Exec(d, step).deliveries
    ensures var st := step.statement;
            && (st.InsertMessage? ==>
                  ToldBy(d, step, s) == Told(s, Webhook("email.sent", MessagePayload(st.id, st.message, st.message.sentAt))))
            && (st.InsertInbound? || st.Dequeue? || st.EnrolContact? || MissingRow(d, st) ==> ToldBy(d, step, s) == [])
  {
    StepTables(d, step);
    var st := step.statement;
    hide Commits, Exec, Direct, Told;
    if st.UpdateMessage? {
      if MissingRow(d, st) {
        assert TargetOf(d, st).suppressions == [] && WebhookOf(step.c, d, st) == None;
        hide TargetOf, WebhookOf;
        DeliveriesOfStep(d, step, To(s.id));
      }
    } else {
      OwnAnnouncement(d, step, s);
    }
  }

  /** An update or delete of a row that is not there. */
  predicate MissingRow(d: Db, st: Statement) {
    match st
    case UpdateContact(email, _) => email !in d.contacts
    case DeleteContact(email) => email !in d.contacts
    case UpdateList(email, listId, _) => (email, listId) !in d.lists
    case UpdateMessage(id, _) => id !in d.messages
    case DeleteMember(email, segmentId) => (email, segmentId) !in d.members
    case UpdateEvent(name, externalId, _) => (name, externalId) !in d.events
    case _ => false
  }

  function Besides(id: string): Delivery -> bool {
    (x: Delivery) => x.subscriptionId == id && !x.payload.ListPayload?
  }

  /** Besides the list events of the subscriptions it suppresses, a statement announces at most its own event. */
  lemma AnnouncedBesides(d: Db, step: Step, s: Subscription)
    requires Commits(d, step) && s in step.c.subscriptions
    ensures d.deliveries <= Exec(d, step).deliveries
    ensures var w := WebhookOf(step.c, d, step.statement);
            (w != None ==> !w.value.payload.ListPayload?) ==>
              Select(Added(d.deliveries, Exec(d, step).deliveries), Besides(s.id)) == Announced(s, w)
  {
    var c, st, w := step.c, step.statement, WebhookOf(step.c, d, step.statement);
    var t, lists := TargetOf(d, st), Direct(d, st).lists;
    DeliveriesOfStep(d, step, Besides(s.id));
    SuppressionStaysOnList(c, lists, t.email, t.listId, t.suppressions, step.now);
    SelectNone(SuppressAllEffect(c, lists, t.email, t.listId, t.suppressions, step.now).deliveries, Besides(s.id));
    hide Commits, Exec, Direct, WebhookOf, TargetOf, SuppressAllEffect;
    if w != None && !w.value.payload.ListPayload? {
      OneDeliveryEach(c.subscriptions, s, w.value);
      SelectTwice(Outgoing(c, w), To(s.id), Besides(s.id));
      SelectAll(Told(s, w.value), Besides(s.id));
    }
  }

  /** The timestamp goes from NULL to set, and no earlier one in the order does. */
  predicate FirstSet(b: Message, m: Message, i: nat) {
    && i < 6 && EmailStream.Stamp(b, i) == None && EmailStream.Stamp(m, i).Some?
    && forall j: nat :: j < i && EmailStream.Stamp(b, j) == None ==> EmailStream.Stamp(m, j) == None
  }

  /** An updated message is told of once, for the first timestamp it sets, or not at all. */
  lemma MessageStepTells(d: Db, step: Step, s: Subscription)
    requires Commits(d, step) && s in step.c.subscriptions
    requires step.statement.UpdateMessage? && step.statement.id in d.messages
    ensures d.deliveries <= Exec(d, step).deliveries
    ensures var b, m := d.messages[step.statement.id], step.statement.message;
            var told := Select(Added(d.deliveries, Exec(d, step).deliveries), Besides(s.id));
            && (forall i: nat :: FirstSet(b, m, i) ==>
                  told == Told(s, Webhook(EmailStream.KINDS[i],
                                          MessagePayload(step.statement.id, m, EmailStream.Stamp(m, i).value))))
            && ((forall i: nat :: i < 6 && EmailStream.Stamp(b, i) == None ==> EmailStream.Stamp(m, i) == None) ==> told == [])
  {
    AnnouncedBesides(d, step, s);
    EmailStream.WebhookOfMessage(step.c, d, step.statement);
    MessageNews(d.messages[step.statement.id], step.statement.message);
    hide Commits, Exec, Direct, WebhookOf, Told, EmailEvent, FirstSet;
  }

  lemma MessageNews(b: Message, m: Message)
    ensures forall i: nat :: FirstSet(b, m, i) ==> EmailEvent(b, m) == Some((EmailStream.KINDS[i], EmailStream.Stamp(m, i).value))
    ensures (forall i: nat :: i < 6 && EmailStream.Stamp(b, i) == None ==> EmailStream.Stamp(m, i) == None)
            ==> EmailEvent(b, m) == None
  {
    EmailStream.EventIsFirstNew(b, m);
  }

  // ---------- what no run tells ----------

  /** Some subscription of that id is to be told what the delivery says. */
  ghost predicate Entitled(c: Config, x: Delivery) {
    exists s :: s in c.subscriptions && s.id == x.subscriptionId && Admits(s, Webhook(x.eventType, x.payload))
  }

  lemma {:induction false} DeliveriesAreEntitled(c: Config, subscriptions: seq<Subscription>, w: Webhook)
    requires forall s :: s in subscriptions ==> s in c.subscriptions
    ensures forall x :: x in DeliveriesFor(subscriptions, w) ==> Entitled(c, x)
  {
    if subscriptions != [] {
      var s := subscriptions[0];
      AdmitsIffWants(s, w);
      hide Wants, Admits;
      DeliveriesAreEntitled(c, subscriptions[1..], w);
      assert Admits(s, w) ==> Entitled(c, Delivery(s.id, w.kind, w.payload));
    }
  }

  lemma OutgoingIsEntitled(c: Config, w: Option<Webhook>)
    ensures forall x :: x in Outgoing(c, w) ==> Entitled(c, x)
  {
    if w != None {
      DeliveriesAreEntitled(c, c.subscriptions, w.value);
    }
  }

  lemma {:induction false} SuppressionIsEntitled(c: ValidConfig, lists: map<(string, string), ListRow>, email: string,
                                                 listId: Option<string>, ss: seq<Suppression>, now: Time)
    ensures forall x :: x in SuppressAllEffect(c, lists, email, listId, ss, now).deliveries ==> Entitled(c, x)
    decreases |ss|
  {
    hide Entitled, ListRows, ListWebhook, Outgoing;
    if ss != [] && listId != None {
      var first := SuppressEffect(c, lists, email, listId.value, ss[0], now);
      if (email, listId.value) in lists {
        var b := lists[(email, listId.value)];
        OutgoingIsEntitled(c, ListWebhook(c, email, listId.value, Updated(b, b.(status := ss[0].status, updatedAt := ss[0].at))));
      }
      SuppressionIsEntitled(c, first.lists, email, listId, ss[1..], now);
    }
  }

  lemma StepIsEntitled(d: Db, step: Step)
    requires Commits(d, step)
    ensures d.deliveries <= Exec(d, step).deliveries
    ensures forall x :: x in Added(d.deliveries, Exec(d, step).deliveries) ==> Entitled(step.c, x)
  {
    StepEffect(d, step);
    hide Commits, Exec, Entitled, Outgoing, Direct, RowsOf, WebhookOf, TargetOf, SuppressAllEffect;
    var t := TargetOf(d, step.statement);
    SuppressionIsEntitled(step.c, Direct(d, step.statement).lists, t.email, t.listId, t.suppressions, step.now);
    OutgoingIsEntitled(step.c, WebhookOf(step.c, d, step.statement));
  }

  /**
   Over any run in which a subscription keeps its settings while it exists: whatever is
   delivered to it is of a kind it names, while it is enabled; and a custom event among it is
   one of its event names, if it lists any, and has one of its goal types, if it lists any.
   */
  lemma {:induction false} NothingElseIsTold(d: Db, steps: seq<Step>, s: Subscription)
    requires forall st, y :: st in steps && y in st.c.subscriptions && y.id == s.id ==> y == s
    ensures d.deliveries <= Run(d, steps).deliveries
    ensures forall x :: x in Added(d.deliveries, Run(d, steps).deliveries) && x.subscriptionId == s.id ==>
              && s.enabled && x.eventType in s.eventTypes
              && (x.payload.EventPayload? ==>
                    && (OnlyNames(s).Some? ==> x.payload.eventName in OnlyNames(s).value)
                    && (OnlyGoalTypes(s).Some? ==>
                          x.payload.event.goalType.Some? && x.payload.event.goalType.value in OnlyGoalTypes(s).value))
    decreases |steps|
  {
    hide Commits, OnlyNames, OnlyGoalTypes;
    if steps == [] {
      assert Added(d.deliveries, d.deliveries) == [];
    } else {
      var d1, r := Exec(d, steps[0]), Run(d, steps);
      if Commits(d, steps[0]) {
        StepIsEntitled(d, steps[0]);
      } else {
        assert Added(d.deliveries, d1.deliveries) == [];
      }
      NothingElseIsTold(d1, steps[1..], s);
      AddedCompose(d.deliveries, d1.deliveries, r.deliveries);
    }
  }

  /** Filters only ever hold back custom events: of anything else an enabled subscription to the kind is told. */
  lemma FiltersConcernEventsOnly(s: Subscription, w: Webhook)
    requires !w.payload.EventPayload?
    ensures Told(s, w) == Told(s.(filters := None), w)
    ensures s.enabled && w.kind in s.eventTypes ==> Told(s, w) == [Delivery(s.id, w.kind, w.payload)]
  {
  }
}
