/** Bounces and complaints reach a list subscription's status in any order and grouping. */
module SuppressionLaws {
  import opened Prelude
  import opened Tables
  import opened Triggers
  import opened Cascade
  import opened Runs
  import opened Webhooks

  /** How bad a status is; all statuses other than these two are alike. */
  function Rank(status: string): nat {
    if status == "complained" then 2 else if status == "bounced" then 1 else 0
  }

  function Statuses(ss: seq<Suppression>): seq<string> {
    if ss == [] then [] else [ss[0].status] + Statuses(ss[1..])
  }

  /**
   The events a step newly reports for one subscription, read off the message's row before
   and after: a committed update of a message to this contact on this list that fills an
   empty complained_at or bounced_at.
   */
  function EventsOf(d: Db, step: Step, email: string, listId: string): seq<string> {
    var st := step.statement;
    if Commits(d, step) && st.UpdateMessage? && st.id in d.messages
       && st.message.contactEmail == email && st.message.listId == Some(listId)
    then Reported(d.messages[st.id], st.message)
    else []
  }

  function Reported(b: Message, m: Message): seq<string> {
    (if b.complainedAt == None && m.complainedAt != None then ["complained"] else [])
    + (if b.bouncedAt == None && m.bouncedAt != None then ["bounced"] else [])
  }

  /** The trigger wants to write exactly the statuses that are reported. */
  lemma ReportedAreWanted(b: Message, m: Message)
    ensures Statuses(Suppressions(b, m)) == Reported(b, m)
  {
    var ss := Suppressions(b, m);
    if |ss| == 2 {
      assert ss[1..][1..] == [];
      assert Statuses(ss) == [ss[0].status] + Statuses(ss[1..]);
    }
  }

  lemma TargetsAreReported(d: Db, step: Step, email: string, listId: string)
    requires Commits(d, step)
    ensures var t := TargetOf(d, step.statement);
            EventsOf(d, step, email, listId)
            == if t.email == email && t.listId == Some(listId) then Statuses(t.suppressions) else []
  {
    hide Commits, Suppressions, Reported;
    var st := step.statement;
    if st.UpdateMessage? && st.id in d.messages {
      ReportedAreWanted(d.messages[st.id], st.message);
    }
  }

  function EventsOver(d: Db, steps: seq<Step>, email: string, listId: string): seq<string>
    decreases |steps|
  {
    if steps == [] then []
    else EventsOf(d, steps[0], email, listId) + EventsOver(Exec(d, steps[0]), steps[1..], email, listId)
  }

  /** The worst of a status and the events: a function of which events occurred, not of their order or number. */
  function Worst(status: string, complained: bool, bounced: bool): string {
    if complained || status == "complained" then "complained"
    else if bounced then "bounced"
    else status
  }

  function Outcome(status: string, events: seq<string>): string {
    Worst(status, "complained" in events, "bounced" in events)
  }

  lemma OutcomeAppend(status: string, a: seq<string>, b: seq<string>)
    ensures Outcome(status, a + b) == Outcome(Outcome(status, a), b)
  {
  }

  function RowsAbout(email: string, listId: string): TimelineRow -> bool {
    (x: TimelineRow) => x.entity.ListEntity? && x.email == email && x.entityId == Some(listId)
  }

  predicate Writes(s: Statement, email: string, listId: string) {
    (s.InsertList? || s.UpdateList?) && s.email == email && s.listId == listId
  }

  /** Rewriting one subscription: the worst status wins, with at most one row per step up. */
  lemma {:induction false} SuppressAllSettles(c: ValidConfig, lists: map<(string, string), ListRow>, email: string,
                                              listId: string, ss: seq<Suppression>, now: Time)
    requires (email, listId) in lists
    requires forall s :: s in ss ==> s.status == "complained" || s.status == "bounced"
    ensures var e := SuppressAllEffect(c, lists, email, Some(listId), ss, now);
            && (email, listId) in e.lists
            && e.lists[(email, listId)].status == Outcome(lists[(email, listId)].status, Statuses(ss))
            && e.lists[(email, listId)].deletedAt == lists[(email, listId)].deletedAt
            && |e.rows| <= Rank(e.lists[(email, listId)].status) - Rank(lists[(email, listId)].status)
    decreases |ss|
  {
    if ss != [] {
      var first := SuppressEffect(c, lists, email, listId, ss[0], now);
      SuppressAllSettles(c, first.lists, email, listId, ss[1..], now);
      OutcomeAppend(lists[(email, listId)].status, [ss[0].status], Statuses(ss[1..]));
    }
  }

  lemma TargetsAreEvents(d: Db, s: Statement)
    ensures forall x :: x in TargetOf(d, s).suppressions ==> x.status == "complained" || x.status == "bounced"
  {
  }

  lemma UntouchedByOthers(d: Db, s: Statement, now: Time, email: string, listId: string)
    requires !Writes(s, email, listId)
    ensures Select(RowsOf(d, s, now), RowsAbout(email, listId)) == []
    ensures (email, listId) in d.lists ==>
              (email, listId) in Direct(d, s).lists && Direct(d, s).lists[(email, listId)] == d.lists[(email, listId)]
  {
    RowsAreSource(d, s, now);
    if EntityOf(s).ListEntity? {
      assert forall x :: x in RowsOf(d, s, now) ==> x.email == s.email && x.entityId == Some(s.listId);
    }
    SelectNone(RowsOf(d, s, now), RowsAbout(email, listId));
  }

  lemma StepSettles(d: Db, step: Step, email: string, listId: string)
    requires (email, listId) in d.lists && !Writes(step.statement, email, listId)
    ensures var r := Exec(d, step);
            && (email, listId) in r.lists && d.timeline <= r.timeline
            && r.lists[(email, listId)].status
               == Outcome(d.lists[(email, listId)].status, EventsOf(d, step, email, listId))
            && r.lists[(email, listId)].deletedAt == d.lists[(email, listId)].deletedAt
            && |Select(Added(d.timeline, r.timeline), RowsAbout(email, listId))|
               <= Rank(r.lists[(email, listId)].status) - Rank(d.lists[(email, listId)].status)
  {
    hide Commits, RowsOf, SuppressAllEffect, Direct, TargetOf;
    var s, p := step.statement, RowsAbout(email, listId);
    if Commits(d, step) {
      var t := TargetOf(d, s);
      var lists := Direct(d, s).lists;
      TargetsAreReported(d, step, email, listId);
      hide EventsOf;
      UntouchedByOthers(d, s, step.now, email, listId);
      StepEffect(d, step);
      RowsOfStep(d, step, p);
      var e := SuppressAllEffect(step.c, lists, t.email, t.listId, t.suppressions, step.now);
      assert Exec(d, step).lists == e.lists;
      SuppressionStaysOnList(step.c, lists, t.email, t.listId, t.suppressions, step.now);
      if t.email == email && t.listId == Some(listId) {
        TargetsAreEvents(d, s);
        SuppressAllSettles(step.c, lists, email, listId, t.suppressions, step.now);
      } else {
        SelectNone(e.rows, p);
      }
    } else {
      assert Added(d.timeline, d.timeline) == [];
    }
  }

  /**
   Over any run that does not write the subscription directly, its status ends as the worst
   of what it was and what was reported, under others < bounced < complained, and no more
   list rows are recorded than the rank has risen: at most two.
   */
  lemma {:induction false} StatusIsWorstReported(d: Db, steps: seq<Step>, email: string, listId: string)
    requires (email, listId) in d.lists
    requires forall st :: st in steps ==> !Writes(st.statement, email, listId)
    ensures var r := Run(d, steps);
            && (email, listId) in r.lists && d.timeline <= r.timeline
            && r.lists[(email, listId)].status
               == Outcome(d.lists[(email, listId)].status, EventsOver(d, steps, email, listId))
            && |Select(Added(d.timeline, r.timeline), RowsAbout(email, listId))|
               <= Rank(r.lists[(email, listId)].status) - Rank(d.lists[(email, listId)].status) <= 2
    decreases |steps|
  {
    if steps == [] {
      assert Added(d.timeline, d.timeline) == [];
    } else {
      var d1, r := Exec(d, steps[0]), Run(d, steps);
      StepSettles(d, steps[0], email, listId);
      StatusIsWorstReported(d1, steps[1..], email, listId);
      OutcomeAppend(d.lists[(email, listId)].status, EventsOf(d, steps[0], email, listId),
                    EventsOver(d1, steps[1..], email, listId));
      AddedCompose(d.timeline, d1.timeline, r.timeline);
      SelectAppend(Added(d.timeline, d1.timeline), Added(d1.timeline, r.timeline), RowsAbout(email, listId));
    }
  }

  lemma {:induction false} OnlyTwoEvents(d: Db, steps: seq<Step>, email: string, listId: string)
    ensures forall e :: e in EventsOver(d, steps, email, listId) ==> e == "complained" || e == "bounced"
    decreases |steps|
  {
    if steps != [] {
      OnlyTwoEvents(Exec(d, steps[0]), steps[1..], email, listId);
    }
  }

  /**
   Confluence: two runs, from databases agreeing on the status, that report the same
   non-empty or empty kinds of events, in whatever order, number and grouping, end with the
   same status; its rank is the maximum of the initial one and those of the events.
   */
  lemma SuppressionIsConfluent(d: Db, steps: seq<Step>, d': Db, steps': seq<Step>, email: string, listId: string)
    requires (email, listId) in d.lists && (email, listId) in d'.lists
    requires d.lists[(email, listId)].status == d'.lists[(email, listId)].status
    requires forall st :: st in steps + steps' ==> !Writes(st.statement, email, listId)
    requires forall e :: e in EventsOver(d, steps, email, listId) <==> e in EventsOver(d', steps', email, listId)
    ensures var r, r' := Run(d, steps), Run(d', steps');
            && (email, listId) in r.lists && (email, listId) in r'.lists
            && r.lists[(email, listId)].status == r'.lists[(email, listId)].status
            && (forall e :: e in EventsOver(d, steps, email, listId) ==> Rank(e) <= Rank(r.lists[(email, listId)].status))
            && (Rank(r.lists[(email, listId)].status) > Rank(d.lists[(email, listId)].status) ==>
                  r.lists[(email, listId)].status in EventsOver(d, steps, email, listId))
  {
    assert forall st :: st in steps ==> st in steps + steps';
    assert forall st :: st in steps' ==> st in steps + steps';
    StatusIsWorstReported(d, steps, email, listId);
    StatusIsWorstReported(d', steps', email, listId);
    OnlyTwoEvents(d, steps, email, listId);
  }

  /**
   The whole row after one step: the worst event newly reported, if worse than the status
   there was, with the instant of that event; otherwise nothing about it has changed.
   */
  lemma SuppressedRowIs(d: Db, step: Step, email: string, listId: string)
    requires (email, listId) in d.lists && Commits(d, step) && !Writes(step.statement, email, listId)
    ensures var row, events, m := d.lists[(email, listId)], EventsOf(d, step, email, listId), step.statement;
            && (email, listId) in Exec(d, step).lists
            && Exec(d, step).lists[(email, listId)]
               == (if "complained" in events && row.status != "complained"
                   then row.(status := "complained", updatedAt := m.message.complainedAt.value)
                   else if "bounced" in events && row.status != "complained" && row.status != "bounced"
                   then row.(status := "bounced", updatedAt := m.message.bouncedAt.value)
                   else row)
  {
    var st := step.statement;
    var lists := Direct(d, st).lists;
    UntouchedByOthers(d, st, step.now, email, listId);
    StepEffect(d, step);
    hide Commits, RowsOf, Direct, WebhookOf, Outgoing;
    var t := TargetOf(d, st);
    assert Exec(d, step).lists == SuppressAllEffect(step.c, lists, t.email, t.listId, t.suppressions, step.now).lists;
    hide Exec;
    if t.email == email && t.listId == Some(listId) {
      SuppressedBy(step.c, lists, email, listId, d.messages[st.id], st.message, step.now);
    } else {
      SuppressionStaysOnList(step.c, lists, t.email, t.listId, t.suppressions, step.now);
    }
  }

  lemma SuppressedBy(c: ValidConfig, lists: map<(string, string), ListRow>, email: string, listId: string,
                     b: Message, m: Message, now: Time)
    requires (email, listId) in lists
    ensures var row, events := lists[(email, listId)], Reported(b, m);
            var after := SuppressAllEffect(c, lists, email, Some(listId), Suppressions(b, m), now).lists;
            && (email, listId) in after
            && after[(email, listId)]
               == (if "complained" in events && row.status != "complained"
                   then row.(status := "complained", updatedAt := m.complainedAt.value)
                   else if "bounced" in events && row.status != "complained" && row.status != "bounced"
                   then row.(status := "bounced", updatedAt := m.bouncedAt.value)
                   else row)
  {
    hide ListRows, ListWebhook, Outgoing;
    var ss := Suppressions(b, m);
    if ss != [] {
      var first := SuppressEffect(c, lists, email, listId, ss[0], now);
      if |ss| == 2 {
        assert ss[1..] == [ss[1]] && [ss[1]][1..] == [];
        var second := SuppressEffect(c, first.lists, email, listId, ss[1], now);
        assert SuppressAllEffect(c, second.lists, email, Some(listId), [], now).lists == second.lists;
        assert SuppressAllEffect(c, first.lists, email, Some(listId), ss[1..], now).lists == second.lists;
      } else {
        assert ss[1..] == [];
        assert SuppressAllEffect(c, first.lists, email, Some(listId), [], now).lists == first.lists;
      }
    }
  }

  /** One update that reports both ends complained and records a single list row. */
  lemma BothAtOnceIsComplained(d: Db, step: Step, email: string, listId: string)
    requires (email, listId) in d.lists && Rank(d.lists[(email, listId)].status) < 2
    requires Commits(d, step) && step.statement.UpdateMessage? && step.statement.id in d.messages
    requires var b, m := d.messages[step.statement.id], step.statement.message;
             && m.contactEmail == email && m.listId == Some(listId)
             && b.complainedAt == None && m.complainedAt != None && b.bouncedAt == None && m.bouncedAt != None
    ensures var r := Exec(d, step);
            && (email, listId) in r.lists && r.lists[(email, listId)].status == "complained"
            && d.timeline <= r.timeline
            && |Select(Added(d.timeline, r.timeline), RowsAbout(email, listId))| == 1
  {
    hide Exec, Commits, RowsOf, Direct;
    var b, m := d.messages[step.statement.id], step.statement.message;
    var ss := Suppressions(b, m);
    assert ss[0].status == "complained" && ss[1..] == [Suppression("bounced", m.bouncedAt.value)];
    assert ss[1..][1..] == [];
    StepSettles(d, step, email, listId);
    RowsOfStep(d, step, RowsAbout(email, listId));
    UntouchedByOthers(d, step.statement, step.now, email, listId);
    var lists := Direct(d, step.statement).lists;
    var first := SuppressEffect(step.c, lists, email, listId, ss[0], step.now);
    var second := SuppressEffect(step.c, first.lists, email, listId, ss[1], step.now);
    assert SuppressAllEffect(step.c, second.lists, email, Some(listId), [], step.now).rows == [];
    assert SuppressAllEffect(step.c, first.lists, email, Some(listId), ss[1..], step.now).rows == [];
    assert SuppressAllEffect(step.c, lists, email, Some(listId), ss, step.now).rows == first.rows + [];
    SelectAll(first.rows, RowsAbout(email, listId));
    assert first.rows + [] == first.rows;
  }
}
