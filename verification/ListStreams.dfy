/**
 The timeline and the outgoing webhooks classify the same contact_lists transitions
 separately. Where the two agree, over single transitions and over runs.
 */
module ListStreams {
  import opened Prelude
  import opened Diffs
  import opened Tables
  import opened Triggers
  import opened Cascade
  import opened Runs
  import opened Webhooks
  import opened SuppressionLaws

  predicate ValidStatus(s: string) {
    s == "active" || s == "pending" || s == "unsubscribed" || s == "bounced" || s == "complained"
  }

  /** Timeline rows about one subscription, without the update-time list.pending rows. */
  function Heard(email: string, listId: string): TimelineRow -> bool {
    (x: TimelineRow) => x.entity.ListEntity? && x.email == email && x.entityId == Some(listId)
                        && !(x.operation.UpdateOp? && x.kind == "list.pending")
  }

  function Mail(id: string, email: string, listId: string): Delivery -> bool {
    (x: Delivery) => x.subscriptionId == id && x.payload.ListPayload? && x.payload.email == email
                     && x.payload.listId == listId
  }

  function Kinds(rows: seq<TimelineRow>): seq<string> {
    Image(rows, KindOf())
  }

  function KindOf(): TimelineRow -> string {
    (x: TimelineRow) => x.kind
  }

  function TimelineWord(rows: seq<TimelineRow>, email: string, listId: string): seq<string> {
    Kinds(Select(rows, Heard(email, listId)))
  }

  function WebhookWord(e: RowEvent<ListRow>): seq<string> {
    match ListEventKind(e)
    case None => []
    case Some(kind) => [kind]
  }

  /** Either deleted_at is not being set, or it is set from NULL and the status stays. */
  predicate Clean(b: ListRow, r: ListRow) {
    b.deletedAt == r.deletedAt || r.deletedAt == None || (b.deletedAt == None && b.status == r.status)
  }

  /** A status change that both classifiers name; subscribing from an unknown status is not one. */
  predicate KnownChange(before: string, after: string) {
    || before == after
    || after == "pending" || after == "unsubscribed" || after == "bounced" || after == "complained"
    || (after == "active" && (before == "pending" || Suppressed(before)))
  }

  /**
   One transition, between any statuses, is classified alike exactly when it is clean and its
   status change, if any, is a known one. A step that sets deleted_at and changes the status
   is `list.removed` in the timeline and a status event for webhooks.
   */
  lemma TransitionsAgreeIffClean(email: string, listId: string, b: ListRow, r: ListRow, now: Time)
    ensures TimelineWord(ListRows(email, listId, Updated(b, r), now), email, listId) == WebhookWord(Updated(b, r))
       <==> Clean(b, r) && KnownChange(b.status, r.status)
    ensures ValidStatus(b.status) && ValidStatus(r.status) ==> KnownChange(b.status, r.status)
  {
    WordOfRows(email, listId, Updated(b, r), now);
  }

  /** A new subscription is classified alike exactly when its status is a valid one. */
  lemma InsertionsAgreeIffValid(email: string, listId: string, r: ListRow, now: Time)
    ensures TimelineWord(ListRows(email, listId, Inserted(r), now), email, listId) == WebhookWord(Inserted(r))
       <==> ValidStatus(r.status)
  {
    WordOfRows(email, listId, Inserted(r), now);
  }

  lemma WordOfRows(email: string, listId: string, e: RowEvent<ListRow>, now: Time)
    ensures var rows := ListRows(email, listId, e, now);
            TimelineWord(rows, email, listId)
            == if rows == [] || (rows[0].operation.UpdateOp? && rows[0].kind == "list.pending") then []
               else [rows[0].kind]
  {
    var rows := ListRows(email, listId, e, now);
    if rows != [] {
      assert rows[1..] == [];
      var x := rows[0];
      assert x.entity.ListEntity? && x.email == email && x.entityId == Some(listId);
      assert Select(rows[1..], Heard(email, listId)) == [];
      if Heard(email, listId)(x) {
        assert Select(rows, Heard(email, listId)) == [x] + [];
        assert Kinds([x] + []) == [x.kind] + Kinds([]);
      } else {
        assert Select(rows, Heard(email, listId)) == [];
      }
    }
  }

  predicate HearsAllLists(s: Subscription) {
    && "list.subscribed" in s.eventTypes && "list.pending" in s.eventTypes && "list.unsubscribed" in s.eventTypes
    && "list.bounced" in s.eventTypes && "list.complained" in s.eventTypes && "list.confirmed" in s.eventTypes
    && "list.resubscribed" in s.eventTypes && "list.removed" in s.eventTypes
  }

  /** What such a subscription receives from one row event is exactly the webhook word. */
  lemma MailOfEvent(c: ValidConfig, s: Subscription, email: string, listId: string, e: RowEvent<ListRow>)
    requires Unfiltered(s) && s in c.subscriptions && HearsAllLists(s) && !e.Deleted?
    ensures Types(Select(Outgoing(c, ListWebhook(c, email, listId, e)), Mail(s.id, email, listId))) == WebhookWord(e)
  {
    var w := ListWebhook(c, email, listId, e);
    var got := Received(s.id, s.eventTypes, w);
    SelectTwice(Outgoing(c, w), To(s.id), Mail(s.id, email, listId));
    ReceivedFromOutgoing(c, s, w);
    SelectAll(got, Mail(s.id, email, listId));
    if w != None {
      assert w.value.kind in s.eventTypes;
      assert got[1..] == [];
    }
  }

  ghost predicate Balanced(e: Effect, id: string, email: string, listId: string) {
    TimelineWord(e.rows, email, listId) == Types(Select(e.deliveries, Mail(id, email, listId)))
  }

  lemma BalancedThen(a: Effect, b: Effect, id: string, email: string, listId: string)
    requires Balanced(a, id, email, listId) && Balanced(b, id, email, listId)
    ensures Balanced(Then(a, b), id, email, listId)
  {
    var p, q := Heard(email, listId), Mail(id, email, listId);
    SelectAppend(a.rows, b.rows, p);
    SelectAppend(a.deliveries, b.deliveries, q);
    ImageAppend(Select(a.rows, p), Select(b.rows, p), KindOf());
    ImageAppend(Select(a.deliveries, q), Select(b.deliveries, q), TypeOf());
  }

  /** Bounces and complaints keep the two words in step: they never touch deleted_at. */
  lemma {:induction false} SuppressionBalances(c: ValidConfig, lists: map<(string, string), ListRow>, s: Subscription,
                                               email: string, listId: string, ss: seq<Suppression>, now: Time)
    requires Unfiltered(s) && s in c.subscriptions && HearsAllLists(s)
    requires (email, listId) in lists ==> ValidStatus(lists[(email, listId)].status)
    requires forall x :: x in ss ==> x.status == "complained" || x.status == "bounced"
    ensures var e := SuppressAllEffect(c, lists, email, Some(listId), ss, now);
            && Balanced(e, s.id, email, listId)
            && ((email, listId) in e.lists ==> ValidStatus(e.lists[(email, listId)].status))
    decreases |ss|
  {
    if ss != [] {
      var first := SuppressEffect(c, lists, email, listId, ss[0], now);
      if (email, listId) in lists && MaySuppress(lists[(email, listId)].status, ss[0].status) {
        var b := lists[(email, listId)];
        var r := b.(status := ss[0].status, updatedAt := ss[0].at);
        MailOfEvent(c, s, email, listId, Updated(b, r));
        TransitionsAgreeIffClean(email, listId, b, r, now);
      }
      assert Balanced(first, s.id, email, listId);
      SuppressionBalances(c, first.lists, s, email, listId, ss[1..], now);
      BalancedThen(first, SuppressAllEffect(c, first.lists, email, Some(listId), ss[1..], now), s.id, email, listId);
    }
  }

  /** A direct write of the subscription is clean and has a valid status. */
  predicate CleanStep(d: Db, st: Statement, email: string, listId: string) {
    Writes(st, email, listId) ==>
      && ValidStatus(st.row.status)
      && (st.UpdateList? && (email, listId) in d.lists ==> Clean(d.lists[(email, listId)], st.row))
  }

  predicate CleanRun(d: Db, steps: seq<Step>, email: string, listId: string)
    decreases |steps|
  {
    steps == [] || (CleanStep(d, steps[0].statement, email, listId)
                    && CleanRun(Exec(d, steps[0]), steps[1..], email, listId))
  }

  predicate ValidRow(d: Db, email: string, listId: string) {
    (email, listId) in d.lists ==> ValidStatus(d.lists[(email, listId)].status)
  }

  /** The statement's own list event, if any, is classified alike. */
  lemma OwnEventBalances(d: Db, step: Step, s: Subscription, email: string, listId: string)
    requires !PrimaryKeyClash(d, step.statement) && CleanStep(d, step.statement, email, listId)
    requires Unfiltered(s) && s in step.c.subscriptions && HearsAllLists(s) && ValidRow(d, email, listId)
    ensures TimelineWord(RowsOf(d, step.statement, step.now), email, listId)
         == Types(Select(Outgoing(step.c, WebhookOf(step.c, d, step.statement)), Mail(s.id, email, listId)))
    ensures ValidRow(Direct(d, step.statement), email, listId)
  {
    var c, st, now := step.c, step.statement, step.now;
    if Writes(st, email, listId) {
      if st.InsertList? {
        MailOfEvent(c, s, email, listId, Inserted(st.row));
        InsertionsAgreeIffValid(email, listId, st.row, now);
      } else if (email, listId) in d.lists {
        MailOfEvent(c, s, email, listId, Updated(d.lists[(email, listId)], st.row));
        TransitionsAgreeIffClean(email, listId, d.lists[(email, listId)], st.row, now);
      }
    } else {
      OthersAreSilent(c, d, st, s.id, email, listId, now);
    }
  }

  /** A statement that does not write the subscription says nothing about it by itself. */
  lemma OthersAreSilent(c: ValidConfig, d: Db, st: Statement, id: string, email: string, listId: string, now: Time)
    requires !Writes(st, email, listId) && !PrimaryKeyClash(d, st)
    ensures Select(RowsOf(d, st, now), Heard(email, listId)) == []
    ensures Select(Outgoing(c, WebhookOf(c, d, st)), Mail(id, email, listId)) == []
    ensures (email, listId) in Direct(d, st).lists <==> (email, listId) in d.lists
    ensures (email, listId) in d.lists ==> Direct(d, st).lists[(email, listId)] == d.lists[(email, listId)]
  {
    hide Outgoing, RowsOf, WebhookOf;
    UntouchedByOthers(d, st, now, email, listId);
    SelectTwice(RowsOf(d, st, now), RowsAbout(email, listId), Heard(email, listId));
    PayloadsAreTheEvents(c, WebhookOf(c, d, st));
    OtherListPayloads(c, d, st, email, listId);
    SelectNone(Outgoing(c, WebhookOf(c, d, st)), Mail(id, email, listId));
    assert (email, listId) in ListsAfter(d, st) <==> (email, listId) in d.lists;
  }

  lemma OtherListPayloads(c: ValidConfig, d: Db, st: Statement, email: string, listId: string)
    requires !Writes(st, email, listId)
    ensures var w := WebhookOf(c, d, st);
            w != None && w.value.payload.ListPayload? ==>
              w.value.payload.email != email || w.value.payload.listId != listId
  {
  }

  lemma StepBalances(d: Db, step: Step, s: Subscription, email: string, listId: string)
    requires Commits(d, step) && CleanStep(d, step.statement, email, listId)
    requires Unfiltered(s) && s in step.c.subscriptions && HearsAllLists(s) && ValidRow(d, email, listId)
    ensures var r := Exec(d, step);
            && d.timeline <= r.timeline && d.deliveries <= r.deliveries && ValidRow(r, email, listId)
            && TimelineWord(Added(d.timeline, r.timeline), email, listId)
               == Types(Select(Added(d.deliveries, r.deliveries), Mail(s.id, email, listId)))
  {
    hide Exec, Commits, RowsOf, TargetOf, WebhookOf, SuppressAllEffect, Outgoing, Direct, Select, Image, CleanStep, HearsAllLists;
    var c, st, now := step.c, step.statement, step.now;
    var t, lists := TargetOf(d, st), Direct(d, st).lists;
    var side := SuppressAllEffect(c, lists, t.email, t.listId, t.suppressions, now);
    var p, q := Heard(email, listId), Mail(s.id, email, listId);
    StepEffect(d, step);
    StepTables(d, step);
    RowsOfStep(d, step, p);
    DeliveriesOfStep(d, step, q);
    OwnEventBalances(d, step, s, email, listId);
    assert Exec(d, step).lists == side.lists;
    SuppressionStaysOnList(c, lists, t.email, t.listId, t.suppressions, now);
    if t.email == email && t.listId == Some(listId) {
      TargetsAreEvents(d, st);
      SuppressionBalances(c, lists, s, email, listId, t.suppressions, now);
    } else {
      SelectNone(side.rows, p);
      SelectNone(side.deliveries, q);
    }
    ImageAppend(Select(RowsOf(d, st, now), p), Select(side.rows, p), KindOf());
    ImageAppend(Select(side.deliveries, q), Select(Outgoing(c, WebhookOf(c, d, st)), q), TypeOf());
    if st.UpdateMessage? {
      MessagesAreSilent(d, st, c, s.id, email, listId, now);
    } else {
      OnlyMessagesSuppress(d, st);
    }
  }

  lemma OnlyMessagesSuppress(d: Db, st: Statement)
    requires !st.UpdateMessage?
    ensures TargetOf(d, st).suppressions == [] && TargetOf(d, st).listId == None
  {
  }

  /** An update of message_history reports nothing about a subscription by itself. */
  lemma MessagesAreSilent(d: Db, st: Statement, c: ValidConfig, id: string, email: string, listId: string, now: Time)
    requires st.UpdateMessage?
    ensures Select(RowsOf(d, st, now), Heard(email, listId)) == []
    ensures Select(Outgoing(c, WebhookOf(c, d, st)), Mail(id, email, listId)) == []
  {
    hide Outgoing, RowsOf, WebhookOf;
    OneSideIsSilent(d, st, c, email, listId, now);
    PayloadsAreTheEvents(c, WebhookOf(c, d, st));
    SelectNone(RowsOf(d, st, now), Heard(email, listId));
    SelectNone(Outgoing(c, WebhookOf(c, d, st)), Mail(id, email, listId));
  }

  /** An update of message_history writes no list row and sends no list event itself. */
  lemma OneSideIsSilent(d: Db, st: Statement, c: ValidConfig, email: string, listId: string, now: Time)
    ensures st.UpdateMessage? ==> forall x :: x in RowsOf(d, st, now) ==> !x.entity.ListEntity?
    ensures st.UpdateMessage? && WebhookOf(c, d, st) != None ==> !WebhookOf(c, d, st).value.payload.ListPayload?
  {
    RowsAreSource(d, st, now);
  }

  /**
   Over any clean run the kinds recorded for a subscription, update-time list.pending rows
   erased, are word for word the events a subscriber to all list events receives.
   */
  lemma {:induction false} ListWordsAgree(d: Db, steps: seq<Step>, s: Subscription, email: string, listId: string)
    requires Constant(steps, s) && HearsAllLists(s)
    requires ValidRow(d, email, listId) && CleanRun(d, steps, email, listId)
    ensures var r := Run(d, steps);
            && d.timeline <= r.timeline && d.deliveries <= r.deliveries
            && TimelineWord(Added(d.timeline, r.timeline), email, listId)
               == Types(Select(Added(d.deliveries, r.deliveries), Mail(s.id, email, listId)))
    decreases |steps|
  {
    if steps == [] {
      assert Added(d.timeline, d.timeline) == [] && Added(d.deliveries, d.deliveries) == [];
    } else {
      var d1, r := Exec(d, steps[0]), Run(d, steps);
      if Commits(d, steps[0]) {
        StepBalances(d, steps[0], s, email, listId);
      } else {
        assert Added(d.timeline, d1.timeline) == [] && Added(d.deliveries, d1.deliveries) == [];
      }
      ListWordsAgree(d1, steps[1..], s, email, listId);
      var p, q := Heard(email, listId), Mail(s.id, email, listId);
      AddedCompose(d.timeline, d1.timeline, r.timeline);
      AddedCompose(d.deliveries, d1.deliveries, r.deliveries);
      SelectAppend(Added(d.timeline, d1.timeline), Added(d1.timeline, r.timeline), p);
      SelectAppend(Added(d.deliveries, d1.deliveries), Added(d1.deliveries, r.deliveries), q);
      ImageAppend(Select(Added(d.timeline, d1.timeline), p), Select(Added(d1.timeline, r.timeline), p), KindOf());
      ImageAppend(Select(Added(d.deliveries, d1.deliveries), q), Select(Added(d1.deliveries, r.deliveries), q), TypeOf());
    }
  }

  // ---------- replaying statuses ----------

  /** The status after a recorded row, from the one before it. */
  function ReplayRow(status: Option<string>, x: TimelineRow): Option<string> {
    if x.changes.FieldChanges? && "status" in x.changes.fields then
      match x.changes.fields["status"].after
      case Some(JString(v)) => Some(v)
      case _ => status
    else status
  }

  function ReplayStatus(status: Option<string>, rows: seq<TimelineRow>): Option<string>
    decreases |rows|
  {
    if rows == [] then status else ReplayStatus(ReplayRow(status, rows[0]), rows[1..])
  }

  lemma {:induction false} ReplayStatusAppend(status: Option<string>, a: seq<TimelineRow>, b: seq<TimelineRow>)
    ensures ReplayStatus(status, a + b) == ReplayStatus(ReplayStatus(status, a), b)
    decreases |a|
  {
    if a == [] {
      assert a + b == b;
    } else {
      assert (a + b)[1..] == a[1..] + b;
      ReplayStatusAppend(ReplayRow(status, a[0]), a[1..], b);
    }
  }

  function StatusIn(lists: map<(string, string), ListRow>, email: string, listId: string): Option<string> {
    if (email, listId) in lists then Some(lists[(email, listId)].status) else None
  }

  /** One transition's rows replay its status exactly when it does not delete while changing status. */
  lemma TransitionReplays(email: string, listId: string, b: ListRow, r: ListRow, now: Time)
    ensures ReplayStatus(Some(b.status), ListRows(email, listId, Updated(b, r), now)) == Some(r.status)
       <==> b.status == r.status || b.deletedAt == r.deletedAt || r.deletedAt == None
  {
  }

  lemma InsertionReplays(email: string, listId: string, r: ListRow, now: Time)
    ensures ReplayStatus(None, ListRows(email, listId, Inserted(r), now)) == Some(r.status)
  {
  }

  lemma {:induction false} SuppressionReplays(c: ValidConfig, lists: map<(string, string), ListRow>,
                                              email: string, listId: string, ss: seq<Suppression>, now: Time)
    ensures var e := SuppressAllEffect(c, lists, email, Some(listId), ss, now);
            ReplayStatus(StatusIn(lists, email, listId), e.rows) == StatusIn(e.lists, email, listId)
    decreases |ss|
  {
    if ss != [] {
      var first := SuppressEffect(c, lists, email, listId, ss[0], now);
      if (email, listId) in lists && MaySuppress(lists[(email, listId)].status, ss[0].status) {
        var b := lists[(email, listId)];
        TransitionReplays(email, listId, b, b.(status := ss[0].status, updatedAt := ss[0].at), now);
      }
      SuppressionReplays(c, first.lists, email, listId, ss[1..], now);
      ReplayStatusAppend(StatusIn(lists, email, listId), first.rows,
                         SuppressAllEffect(c, first.lists, email, Some(listId), ss[1..], now).rows);
    }
  }

  /** A direct update of the subscription does not set deleted_at and change the status at once. */
  predicate ReplayableStep(d: Db, st: Statement, email: string, listId: string) {
    Writes(st, email, listId) && st.UpdateList? && (email, listId) in d.lists ==>
      var b := d.lists[(email, listId)];
      b.status == st.row.status || b.deletedAt == st.row.deletedAt || st.row.deletedAt == None
  }

  predicate ReplayableRun(d: Db, steps: seq<Step>, email: string, listId: string)
    decreases |steps|
  {
    steps == [] || (ReplayableStep(d, steps[0].statement, email, listId)
                    && ReplayableRun(Exec(d, steps[0]), steps[1..], email, listId))
  }

  lemma OwnRowsReplay(d: Db, st: Statement, now: Time, email: string, listId: string)
    requires !PrimaryKeyClash(d, st) && ReplayableStep(d, st, email, listId)
    ensures ReplayStatus(StatusIn(d.lists, email, listId), Select(RowsOf(d, st, now), RowsAbout(email, listId)))
         == StatusIn(Direct(d, st).lists, email, listId)
  {
    if Writes(st, email, listId) {
      SelectAll(RowsOf(d, st, now), RowsAbout(email, listId));
      if st.InsertList? {
        InsertionReplays(email, listId, st.row, now);
      } else if (email, listId) in d.lists {
        TransitionReplays(email, listId, d.lists[(email, listId)], st.row, now);
      }
    } else {
      UntouchedByOthers(d, st, now, email, listId);
      assert (email, listId) in ListsAfter(d, st) <==> (email, listId) in d.lists;
    }
  }

  lemma StepReplaysStatus(d: Db, step: Step, email: string, listId: string)
    requires Commits(d, step) && ReplayableStep(d, step.statement, email, listId)
    ensures var r := Exec(d, step);
            && d.timeline <= r.timeline
            && ReplayStatus(StatusIn(d.lists, email, listId),
                            Select(Added(d.timeline, r.timeline), RowsAbout(email, listId)))
               == StatusIn(r.lists, email, listId)
  {
    var c, st, now := step.c, step.statement, step.now;
    var p := RowsAbout(email, listId);
    var t, lists := TargetOf(d, st), Direct(d, st).lists;
    var side := SuppressAllEffect(c, lists, t.email, t.listId, t.suppressions, now);
    StepEffect(d, step);
    StepTables(d, step);
    RowsOfStep(d, step, p);
    OwnRowsReplay(d, st, now, email, listId);
    assert Exec(d, step).lists == side.lists;
    SuppressionStaysOnList(c, lists, t.email, t.listId, t.suppressions, now);
    if t.email == email && t.listId == Some(listId) {
      SuppressionReplays(c, lists, email, listId, t.suppressions, now);
      SelectAll(side.rows, p);
    } else {
      SelectNone(side.rows, p);
    }
    ReplayStatusAppend(StatusIn(d.lists, email, listId), Select(RowsOf(d, st, now), p), Select(side.rows, p));
  }

  /** Over any such run the recorded status changes rebuild the subscription's status. */
  lemma {:induction false} TimelineRebuildsStatus(d: Db, steps: seq<Step>, email: string, listId: string)
    requires ReplayableRun(d, steps, email, listId)
    ensures var r := Run(d, steps);
            && d.timeline <= r.timeline
            && ReplayStatus(StatusIn(d.lists, email, listId),
                            Select(Added(d.timeline, r.timeline), RowsAbout(email, listId)))
               == StatusIn(r.lists, email, listId)
    decreases |steps|
  {
    if steps == [] {
      assert Added(d.timeline, d.timeline) == [];
    } else {
      var d1, r := Exec(d, steps[0]), Run(d, steps);
      var p := RowsAbout(email, listId);
      if Commits(d, steps[0]) {
        StepReplaysStatus(d, steps[0], email, listId);
      } else {
        assert Added(d.timeline, d1.timeline) == [];
      }
      TimelineRebuildsStatus(d1, steps[1..], email, listId);
      AddedCompose(d.timeline, d1.timeline, r.timeline);
      SelectAppend(Added(d.timeline, d1.timeline), Added(d1.timeline, r.timeline), p);
      ReplayStatusAppend(StatusIn(d.lists, email, listId), Select(Added(d.timeline, d1.timeline), p),
                         Select(Added(d1.timeline, r.timeline), p));
    }
  }
}
