/** Who receives an outgoing event, per statement and over runs. */
module Webhooks {
  import opened Prelude
  import opened Tables
  import opened Automations
  import opened Triggers
  import opened Cascade
  import opened Runs

  function To(id: string): Delivery -> bool {
    (x: Delivery) => x.subscriptionId == id
  }

  /** The event names a subscription is limited to; an empty list limits nothing. */
  function OnlyNames(s: Subscription): Option<seq<string>> {
    if s.filters != None && s.filters.value.eventNames != None && s.filters.value.eventNames.value != []
    then s.filters.value.eventNames else None
  }

  function OnlyGoalTypes(s: Subscription): Option<seq<string>> {
    if s.filters != None && s.filters.value.goalTypes != None && s.filters.value.goalTypes.value != []
    then s.filters.value.goalTypes else None
  }

  /** The subscription is to be told: it is on, it names the kind, and a custom event is within its limits. */
  predicate Admits(s: Subscription, w: Webhook) {
    && s.enabled && w.kind in s.eventTypes
    && (w.payload.EventPayload? && OnlyNames(s).Some? ==> w.payload.eventName in OnlyNames(s).value)
    && (w.payload.EventPayload? && OnlyGoalTypes(s).Some? ==>
          w.payload.event.goalType.Some? && w.payload.event.goalType.value in OnlyGoalTypes(s).value)
  }

  lemma AdmitsIffWants(s: Subscription, w: Webhook)
    ensures Admits(s, w) <==> Wants(s, w)
  {
  }

  function Told(s: Subscription, w: Webhook): seq<Delivery> {
    if Admits(s, w) then [Delivery(s.id, w.kind, w.payload)] else []
  }

  lemma {:induction false} NoneForOthers(subscriptions: seq<Subscription>, id: string, w: Webhook)
    requires forall s :: s in subscriptions ==> s.id != id
    ensures Select(DeliveriesFor(subscriptions, w), To(id)) == []
  {
    hide Wants;
    if subscriptions != [] {
      NoneForOthers(subscriptions[1..], id, w);
      var s := subscriptions[0];
      var first := if Wants(s, w) then [Delivery(s.id, w.kind, w.payload)] else [];
      SelectAppend(first, DeliveriesFor(subscriptions[1..], w), To(id));
    }
  }

  /**
   An outgoing event creates exactly one delivery for each enabled subscription that names
   its kind and, for a custom event, whose non-empty lists contain its name and goal type;
   and none for any other subscription.
   */
  lemma {:induction false} OneDeliveryEach(subscriptions: seq<Subscription>, s: Subscription, w: Webhook)
    requires forall i, j :: 0 <= i < j < |subscriptions| ==> subscriptions[i].id != subscriptions[j].id
    requires s in subscriptions
    ensures Select(DeliveriesFor(subscriptions, w), To(s.id)) == Told(s, w)
  {
    var h, rest := subscriptions[0], subscriptions[1..];
    AdmitsIffWants(h, w);
    hide Wants, Admits;
    var first := Told(h, w);
    SelectAppend(first, DeliveriesFor(rest, w), To(s.id));
    if h == s {
      forall x | x in rest ensures x.id != s.id {
        var i :| 0 <= i < |rest| && rest[i] == x;
        assert subscriptions[i + 1] == x;
      }
      NoneForOthers(rest, s.id, w);
    } else {
      assert s in rest;
      forall i, j | 0 <= i < j < |rest| ensures rest[i].id != rest[j].id {
        assert rest[i] == subscriptions[i + 1] && rest[j] == subscriptions[j + 1];
      }
      OneDeliveryEach(rest, s, w);
    }
  }

  /** The events a subscription with these kinds and no filters receives from one outgoing event. */
  function Received(id: string, kinds: seq<string>, w: Option<Webhook>): seq<Delivery> {
    if w != None && w.value.kind in kinds then [Delivery(id, w.value.kind, w.value.payload)] else []
  }

  predicate Unfiltered(s: Subscription) {
    s.enabled && s.filters == None
  }

  /** Throughout the run the same enabled subscription without filters exists. */
  ghost predicate Constant(steps: seq<Step>, s: Subscription) {
    Unfiltered(s) && forall st :: st in steps ==> s in st.c.subscriptions
  }

  lemma ReceivedFromOutgoing(c: ValidConfig, s: Subscription, w: Option<Webhook>)
    requires s in c.subscriptions && Unfiltered(s)
    ensures Select(Outgoing(c, w), To(s.id)) == Received(s.id, s.eventTypes, w)
  {
    if w != None {
      OneDeliveryEach(c.subscriptions, s, w.value);
    }
  }

  /** The deliveries a committed statement adds, split into list events and its own event. */
  lemma DeliveriesOfStep(d: Db, step: Step, p: Delivery -> bool)
    requires Commits(d, step)
    ensures var r := Exec(d, step);
            var t := TargetOf(d, step.statement);
            && d.deliveries <= r.deliveries
            && Select(Added(d.deliveries, r.deliveries), p)
            == Select(SuppressAllEffect(step.c, Direct(d, step.statement).lists, t.email, t.listId, t.suppressions,
                                        step.now).deliveries, p)
             + Select(Outgoing(step.c, WebhookOf(step.c, d, step.statement)), p)
  {
    StepEffect(d, step);
    var t := TargetOf(d, step.statement);
    var a := SuppressAllEffect(step.c, Direct(d, step.statement).lists, t.email, t.listId, t.suppressions, step.now);
    var b := Outgoing(step.c, WebhookOf(step.c, d, step.statement));
    assert EffectOf(d, step).deliveries == a.deliveries + b;
    SelectAppend(a.deliveries, b, p);
  }

  /** The timeline rows a committed statement adds, seen through a filter on source rows. */
  lemma RowsOfStep(d: Db, step: Step, p: TimelineRow -> bool)
    requires Commits(d, step)
    requires forall x: TimelineRow :: p(x) ==> !x.entity.AutomationEntity?
    ensures var r := Exec(d, step);
            var t := TargetOf(d, step.statement);
            && d.timeline <= r.timeline
            && Select(Added(d.timeline, r.timeline), p)
            == Select(RowsOf(d, step.statement, step.now), p)
             + Select(SuppressAllEffect(step.c, Direct(d, step.statement).lists, t.email, t.listId, t.suppressions,
                                        step.now).rows, p)
  {
    StepEffect(d, step);
    var t := TargetOf(d, step.statement);
    var a := SuppressAllEffect(step.c, Direct(d, step.statement).lists, t.email, t.listId, t.suppressions, step.now);
    assert EffectOf(d, step).rows == RowsOf(d, step.statement, step.now) + a.rows by {
      assert a.rows + [] == a.rows;
    }
    SelectAppend(RowsOf(d, step.statement, step.now), a.rows, p);
    SelectTwice(Added(d.timeline, Exec(d, step).timeline), IsSource(), p);
  }

  /** Rewriting list rows only writes list rows of that contact and list, and only list payloads. */
  lemma {:induction false} SuppressionStaysOnList(c: ValidConfig, lists: map<(string, string), ListRow>, email: string,
                                                  listId: Option<string>, ss: seq<Suppression>, now: Time)
    ensures var e := SuppressAllEffect(c, lists, email, listId, ss, now);
            && (forall x :: x in e.rows ==> x.entity.ListEntity? && x.email == email && x.entityId == listId)
            && (forall x :: x in e.deliveries ==>
                  x.payload.ListPayload? && x.payload.email == email && Some(x.payload.listId) == listId)
            && (forall k :: listId == None || k != (email, listId.value) ==>
                  (k in lists <==> k in e.lists) && (k in lists ==> e.lists[k] == lists[k]))
    decreases |ss|
  {
    if ss != [] && listId != None {
      var first := SuppressEffect(c, lists, email, listId.value, ss[0], now);
      SuppressionStaysOnList(c, first.lists, email, listId, ss[1..], now);
      if (email, listId.value) in lists && MaySuppress(lists[(email, listId.value)].status, ss[0].status) {
        var b := lists[(email, listId.value)];
        PayloadsAreTheEvents(c, ListWebhook(c, email, listId.value,
                                            Updated(b, b.(status := ss[0].status, updatedAt := ss[0].at))));
      }
    }
  }

  lemma {:induction false} PayloadsCarryTheEvent(subscriptions: seq<Subscription>, w: Webhook)
    ensures forall x :: x in DeliveriesFor(subscriptions, w) ==> x.payload == w.payload && x.eventType == w.kind
  {
    if subscriptions != [] {
      PayloadsCarryTheEvent(subscriptions[1..], w);
    }
  }

  lemma PayloadsAreTheEvents(c: ValidConfig, w: Option<Webhook>)
    ensures forall x :: x in Outgoing(c, w) ==> w != None && x.payload == w.value.payload && x.eventType == w.value.kind
  {
    if w != None {
      PayloadsCarryTheEvent(c.subscriptions, w.value);
    }
  }

  /** Rows other than list and enrolment rows come from the statement's own trigger alone. */
  lemma OwnRowsOfStep(d: Db, step: Step, p: TimelineRow -> bool)
    requires Commits(d, step)
    requires forall x: TimelineRow :: p(x) ==> !x.entity.AutomationEntity? && !x.entity.ListEntity?
    ensures var r := Exec(d, step);
            && d.timeline <= r.timeline
            && Select(Added(d.timeline, r.timeline), p) == Select(RowsOf(d, step.statement, step.now), p)
  {
    RowsOfStep(d, step, p);
    var t := TargetOf(d, step.statement);
    var lists := Direct(d, step.statement).lists;
    SuppressionStaysOnList(step.c, lists, t.email, t.listId, t.suppressions, step.now);
    SelectNone(SuppressAllEffect(step.c, lists, t.email, t.listId, t.suppressions, step.now).rows, p);
  }

  /** Deliveries that do not carry a list event come from the statement's own event alone. */
  lemma OwnDeliveriesOfStep(d: Db, step: Step, s: Subscription, p: Delivery -> bool)
    requires Commits(d, step)
    requires Unfiltered(s) && s in step.c.subscriptions
    requires forall x: Delivery :: p(x) ==> x.subscriptionId == s.id && !x.payload.ListPayload?
    ensures var r := Exec(d, step);
            && d.deliveries <= r.deliveries
            && Select(Added(d.deliveries, r.deliveries), p)
            == Select(Received(s.id, s.eventTypes, WebhookOf(step.c, d, step.statement)), p)
  {
    DeliveriesOfStep(d, step, p);
    var t := TargetOf(d, step.statement);
    var lists := Direct(d, step.statement).lists;
    SuppressionStaysOnList(step.c, lists, t.email, t.listId, t.suppressions, step.now);
    SelectNone(SuppressAllEffect(step.c, lists, t.email, t.listId, t.suppressions, step.now).deliveries, p);
    var w := WebhookOf(step.c, d, step.statement);
    SelectTwice(Outgoing(step.c, w), To(s.id), p);
    ReceivedFromOutgoing(step.c, s, w);
  }

  /** The event types of some deliveries, in order. */
  function Types(ds: seq<Delivery>): seq<string> {
    Image(ds, TypeOf())
  }

  function TypeOf(): Delivery -> string {
    (x: Delivery) => x.eventType
  }

}
