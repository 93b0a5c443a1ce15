/** The email events a subscriber receives about one message, over runs. */
module EmailStream {
  import opened Prelude
  import opened Tables
  import opened Triggers
  import opened Cascade
  import opened Runs
  import opened Webhooks

  /** The kinds of webhook_message_history_trigger after email.sent, in its priority order. */
  const KINDS: seq<string> := [
    "email.delivered", "email.opened", "email.clicked", "email.bounced", "email.complained", "email.unsubscribed"
  ]

  /** The timestamp that the i-th kind reports. */
  function Stamp(m: Message, i: nat): Option<Time>
    requires i < 6
  {
    if i == 0 then m.deliveredAt
    else if i == 1 then m.openedAt
    else if i == 2 then m.clickedAt
    else if i == 3 then m.bouncedAt
    else if i == 4 then m.complainedAt
    else m.unsubscribedAt
  }

  /** The timestamps that are set, by position. */
  function SetStamps(m: Message): set<nat> {
    set i: nat | i < 6 && Stamp(m, i) != None
  }

  function Index(kind: string): (i: nat)
    ensures i < 6 ==> KINDS[i] == kind
  {
    if kind == KINDS[0] then 0 else if kind == KINDS[1] then 1 else if kind == KINDS[2] then 2
    else if kind == KINDS[3] then 3 else if kind == KINDS[4] then 4 else if kind == KINDS[5] then 5
    else 6
  }

  function NewStamps(b: Message, m: Message): set<nat> {
    SetStamps(m) - SetStamps(b)
  }

  /** An update raises an event exactly when it newly sets a timestamp, and then the first such. */
  lemma EventIsFirstNew(b: Message, m: Message)
    ensures EmailEvent(b, m) == None <==> NewStamps(b, m) == {}
    ensures EmailEvent(b, m) != None ==>
              var i := Index(EmailEvent(b, m).value.0);
              && i in NewStamps(b, m) && EmailEvent(b, m).value.1 == Stamp(m, i).value
              && forall j :: j in NewStamps(b, m) ==> i <= j
  {
    assert forall i: nat :: i in NewStamps(b, m) <==> i < 6 && NewlySet(Stamp(b, i), Stamp(m, i));
    var e := EmailEvent(b, m);
    if e == None {
      assert forall i: nat :: i < 6 ==> !NewlySet(Stamp(b, i), Stamp(m, i));
    } else {
      assert Index(e.value.0) in NewStamps(b, m);
    }
  }

  function About(id: string, messageId: string): Delivery -> bool {
    (x: Delivery) => x.subscriptionId == id && x.payload.MessagePayload? && x.payload.messageId == messageId
  }

  /** What a subscription has been told about one message between two states. */
  function Word(before: Db, after: Db, id: string, messageId: string): seq<string>
    requires before.deliveries <= after.deliveries
  {
    Types(Select(Added(before.deliveries, after.deliveries), About(id, messageId)))
  }

  predicate HearsAllEmail(s: Subscription) {
    "email.sent" in s.eventTypes && forall k :: k in KINDS ==> k in s.eventTypes
  }

  predicate Updates(st: Statement, messageId: string) {
    st.UpdateMessage? && st.id == messageId
  }

  /** Every committed update of the message leaves set timestamps set. */
  predicate Monotone(d: Db, steps: seq<Step>, messageId: string)
    decreases |steps|
  {
    steps == [] ||
    (&& (Updates(steps[0].statement, messageId) && messageId in d.messages && Commits(d, steps[0]) ==>
           SetStamps(d.messages[messageId]) <= SetStamps(steps[0].statement.message))
     && Monotone(Exec(d, steps[0]), steps[1..], messageId))
  }

  /** The number of timestamps a step newly sets on the message. */
  function NewlySetBy(d: Db, step: Step, messageId: string): nat {
    if Updates(step.statement, messageId) && messageId in d.messages && Commits(d, step)
    then |NewStamps(d.messages[messageId], step.statement.message)|
    else 0
  }

  /** The number of steps that newly set at least one. */
  function Bursts(d: Db, steps: seq<Step>, messageId: string): nat
    decreases |steps|
  {
    if steps == [] then 0
    else (if NewlySetBy(d, steps[0], messageId) > 0 then 1 else 0) + Bursts(Exec(d, steps[0]), steps[1..], messageId)
  }

  predicate OneAtATime(d: Db, steps: seq<Step>, messageId: string)
    decreases |steps|
  {
    steps == [] || (NewlySetBy(d, steps[0], messageId) <= 1 && OneAtATime(Exec(d, steps[0]), steps[1..], messageId))
  }

  lemma DisjointSize(a: set<nat>, b: set<nat>)
    requires a <= b
    ensures |b - a| == |b| - |a|
  {
    assert b == a + (b - a);
  }

  /** What the subscription receives from one outgoing event about the message, or about others. */
  lemma ReceivedWord(s: Subscription, messageId: string, w: Option<Webhook>)
    ensures w != None && w.value.kind in s.eventTypes && w.value.payload.MessagePayload?
              && w.value.payload.messageId == messageId
            ==> Types(Select(Received(s.id, s.eventTypes, w), About(s.id, messageId))) == [w.value.kind]
    ensures w == None || (w.value.payload.MessagePayload? ==> w.value.payload.messageId != messageId)
            ==> Types(Select(Received(s.id, s.eventTypes, w), About(s.id, messageId))) == []
  {
  }

  lemma WebhookOfMessage(c: ValidConfig, d: Db, st: Statement)
    requires (st.InsertMessage? || st.UpdateMessage?)
    ensures st.InsertMessage? ==> WebhookOf(c, d, st) == MessageWebhook(st.id, Inserted(st.message))
    ensures st.UpdateMessage? && st.id in d.messages ==>
              WebhookOf(c, d, st) == MessageWebhook(st.id, Updated(d.messages[st.id], st.message))
    ensures (st.InsertMessage? || st.id in d.messages) ==> MessagesAfter(d, st) == d.messages[st.id := st.message]
  {
  }

  lemma StepWord(d: Db, step: Step, s: Subscription, messageId: string)
    requires Commits(d, step) && messageId in d.messages
    requires Unfiltered(s) && s in step.c.subscriptions && HearsAllEmail(s)
    ensures var r, st := Exec(d, step), step.statement;
            && d.deliveries <= r.deliveries && messageId in r.messages
            && r.messages[messageId] == (if Updates(st, messageId) then st.message else d.messages[messageId])
            && var e := EmailEvent(d.messages[messageId], r.messages[messageId]);
               Word(d, r, s.id, messageId) == if Updates(st, messageId) && e != None then [e.value.0] else []
  {
    var st, w := step.statement, WebhookOf(step.c, d, step.statement);
    StepTables(d, step);
    OwnDeliveriesOfStep(d, step, s, About(s.id, messageId));
    ReceivedWord(s, messageId, w);
    if Updates(st, messageId) {
      WebhookOfMessage(step.c, d, st);
      EventIsFirstNew(d.messages[messageId], st.message);
    } else {
      OtherMessages(d, step, messageId);
    }
  }

  lemma OtherMessages(d: Db, step: Step, messageId: string)
    requires !Updates(step.statement, messageId) && messageId in d.messages && !PrimaryKeyClash(d, step.statement)
    ensures var w := WebhookOf(step.c, d, step.statement);
            w != None && w.value.payload.MessagePayload? ==> w.value.payload.messageId != messageId
    ensures messageId in MessagesAfter(d, step.statement)
    ensures MessagesAfter(d, step.statement)[messageId] == d.messages[messageId]
  {
  }

  /** These kinds are distinct and each reports a timestamp in `recent`. */
  ghost predicate Reports(w: seq<string>, recent: set<nat>) {
    && (forall i :: 0 <= i < |w| ==> Index(w[i]) in recent)
    && (forall i, j :: 0 <= i < j < |w| ==> w[i] != w[j])
  }

  lemma ReportsAppend(a: seq<string>, b: seq<string>, p: set<nat>, q: set<nat>)
    requires Reports(a, p) && Reports(b, q) && p !! q
    ensures Reports(a + b, p + q)
  {
  }

  /**
   Over any run in which the message's timestamps only go from NULL to set: each kind is
   emitted at most once and only for a timestamp that became set, there are as many events
   as updates that newly set something, and they are as many as the timestamps that became
   set exactly when no update set two at once.
   */
  lemma {:induction false} EmailWord(d: Db, steps: seq<Step>, s: Subscription, messageId: string)
    requires messageId in d.messages && Monotone(d, steps, messageId)
    requires Constant(steps, s) && HearsAllEmail(s)
    ensures var r := Run(d, steps);
            && d.deliveries <= r.deliveries && messageId in r.messages
            && var b, m, w := d.messages[messageId], r.messages[messageId], Word(d, r, s.id, messageId);
               && SetStamps(b) <= SetStamps(m)
               && Reports(w, NewStamps(b, m))
               && |w| == Bursts(d, steps, messageId) <= |NewStamps(b, m)|
               && (|w| == |NewStamps(b, m)| <==> OneAtATime(d, steps, messageId))
    decreases |steps|
  {
    if steps == [] {
      assert Added(d.deliveries, d.deliveries) == [];
    } else {
      var st := steps[0].statement;
      var d1, r := Exec(d, steps[0]), Run(d, steps);
      var b := d.messages[messageId];
      if Commits(d, steps[0]) {
        StepWord(d, steps[0], s, messageId);
      } else {
        assert Added(d.deliveries, d1.deliveries) == [];
      }
      EmailWord(d1, steps[1..], s, messageId);
      var m1, m := d1.messages[messageId], r.messages[messageId];
      var w1, w2 := Word(d, d1, s.id, messageId), Word(d1, r, s.id, messageId);
      EventIsFirstNew(b, m1);
      StepReports(b, m1, w1, NewlySetBy(d, steps[0], messageId));
      WordAppend(d, d1, r, s.id, messageId);
      Joined(b, m1, m, w1, w2);
    }
  }

  lemma WordAppend(a: Db, b: Db, c: Db, id: string, messageId: string)
    requires a.deliveries <= b.deliveries <= c.deliveries
    ensures Word(a, c, id, messageId) == Word(a, b, id, messageId) + Word(b, c, id, messageId)
  {
    var p := About(id, messageId);
    AddedCompose(a.deliveries, b.deliveries, c.deliveries);
    SelectAppend(Added(a.deliveries, b.deliveries), Added(b.deliveries, c.deliveries), p);
    ImageAppend(Select(Added(a.deliveries, b.deliveries), p), Select(Added(b.deliveries, c.deliveries), p), TypeOf());
  }

  lemma Joined(b: Message, m1: Message, m: Message, w1: seq<string>, w2: seq<string>)
    requires SetStamps(b) <= SetStamps(m1) <= SetStamps(m)
    requires Reports(w1, NewStamps(b, m1)) && Reports(w2, NewStamps(m1, m))
    ensures Reports(w1 + w2, NewStamps(b, m))
    ensures |NewStamps(b, m)| == |NewStamps(b, m1)| + |NewStamps(m1, m)|
  {
    ReportsAppend(w1, w2, NewStamps(b, m1), NewStamps(m1, m));
    assert NewStamps(b, m) == NewStamps(b, m1) + NewStamps(m1, m);
    DisjointSize(NewStamps(b, m1), NewStamps(b, m));
    assert NewStamps(b, m) - NewStamps(b, m1) == NewStamps(m1, m);
  }

  lemma StepReports(b: Message, m: Message, w: seq<string>, n: nat)
    requires SetStamps(b) <= SetStamps(m)
    requires n == |NewStamps(b, m)|
    requires w == if n > 0 then [EventKindOf(b, m)] else []
    ensures Reports(w, NewStamps(b, m)) && |w| <= n && (|w| == n <==> n <= 1)
  {
    EventIsFirstNew(b, m);
  }

  function EventKindOf(b: Message, m: Message): string {
    if EmailEvent(b, m) == None then "" else EmailEvent(b, m).value.0
  }

  /** Every committed insertion of the message sets no timestamp. */
  predicate BornUnset(d: Db, steps: seq<Step>, messageId: string)
    decreases |steps|
  {
    steps == [] ||
    (&& (steps[0].statement.InsertMessage? && steps[0].statement.id == messageId && Commits(d, steps[0]) ==>
           SetStamps(steps[0].statement.message) == {})
     && BornUnset(Exec(d, steps[0]), steps[1..], messageId))
  }

  /** email.sent, then a report of the timestamps set, one per burst. */
  ghost predicate Whole(w: seq<string>, m: Message, bursts: nat, oneAtATime: bool) {
    && w != [] && w[0] == "email.sent" && Reports(w[1..], SetStamps(m))
    && |w| == 1 + bursts
    && (|w| == 1 + |SetStamps(m)| <==> oneAtATime)
  }

  /**
   The whole stream of a message, from before it existed: nothing until it is inserted, then
   email.sent, and then one event per update that newly sets something; it has one event
   more than set timestamps exactly when no update set two at once.
   */
  lemma {:induction false} WholeEmailStream(d: Db, steps: seq<Step>, s: Subscription, messageId: string)
    requires messageId !in d.messages && BornUnset(d, steps, messageId) && Monotone(d, steps, messageId)
    requires Constant(steps, s) && HearsAllEmail(s)
    ensures var r := Run(d, steps);
            && d.deliveries <= r.deliveries
            && var w := Word(d, r, s.id, messageId);
               if messageId !in r.messages then w == []
               else Whole(w, r.messages[messageId], Bursts(d, steps, messageId), OneAtATime(d, steps, messageId))
    decreases |steps|
  {
    hide Commits, Reports, HearsAllEmail, Exec, Whole;
    if steps == [] {
      assert Added(d.deliveries, d.deliveries) == [];
    } else {
      var d1, r := Exec(d, steps[0]), Run(d, steps);
      if messageId in d1.messages {
        SentWord(d, steps[0], s, messageId);
        EmailWord(d1, steps[1..], s, messageId);
        WordAppend(d, d1, r, s.id, messageId);
        WholeFromRest(d1.messages[messageId], r.messages[messageId], Word(d1, r, s.id, messageId),
                      Bursts(d1, steps[1..], messageId), OneAtATime(d1, steps[1..], messageId));
      } else {
        SilentWord(d, steps[0], s, messageId);
        WholeEmailStream(d1, steps[1..], s, messageId);
        WordAppend(d, d1, r, s.id, messageId);
        assert [] + Word(d1, r, s.id, messageId) == Word(d1, r, s.id, messageId);
      }
    }
  }

  lemma WholeFromRest(b: Message, m: Message, rest: seq<string>, bursts: nat, oneAtATime: bool)
    requires SetStamps(b) == {} && Reports(rest, NewStamps(b, m)) && |rest| == bursts
    requires |rest| == |NewStamps(b, m)| <==> oneAtATime
    ensures Whole(["email.sent"] + rest, m, bursts, oneAtATime)
  {
    assert (["email.sent"] + rest)[1..] == rest;
    assert NewStamps(b, m) == SetStamps(m);
  }

  /** While the message does not exist nothing is said about it. */
  lemma SilentWord(d: Db, step: Step, s: Subscription, messageId: string)
    requires messageId !in Exec(d, step).messages && messageId !in d.messages
    requires Unfiltered(s) && s in step.c.subscriptions && HearsAllEmail(s)
    ensures d.deliveries <= Exec(d, step).deliveries && Word(d, Exec(d, step), s.id, messageId) == []
  {
    if Commits(d, step) {
      StepTables(d, step);
      OwnDeliveriesOfStep(d, step, s, About(s.id, messageId));
      AbsentMessage(d, step, messageId);
      ReceivedWord(s, messageId, WebhookOf(step.c, d, step.statement));
    } else {
      assert Added(d.deliveries, d.deliveries) == [];
    }
  }

  lemma AbsentMessage(d: Db, step: Step, messageId: string)
    requires messageId !in MessagesAfter(d, step.statement) && messageId !in d.messages
    ensures var w := WebhookOf(step.c, d, step.statement);
            w != None && w.value.payload.MessagePayload? ==> w.value.payload.messageId != messageId
  {
  }

  /** A message that has come into being was inserted, and that is reported as email.sent. */
  lemma SentWord(d: Db, first: Step, s: Subscription, messageId: string)
    requires messageId !in d.messages && messageId in Exec(d, first).messages
    requires Unfiltered(s) && s in first.c.subscriptions && HearsAllEmail(s)
    ensures var r := Exec(d, first);
            && Commits(d, first) && first.statement.InsertMessage? && first.statement.id == messageId
            && d.deliveries <= r.deliveries
            && r.messages[messageId] == first.statement.message
            && Word(d, r, s.id, messageId) == ["email.sent"]
  {
    StepTables(d, first);
    OwnDeliveriesOfStep(d, first, s, About(s.id, messageId));
    assert messageId in MessagesAfter(d, first.statement);
    WebhookOfMessage(first.c, d, first.statement);
    ReceivedWord(s, messageId, WebhookOf(first.c, d, first.statement));
  }
}
