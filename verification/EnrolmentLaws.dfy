/**
 Who is enrolled by what: the calls of automation_enroll_contact that a statement makes, read
 off the rows it adds and the triggers that listen to them, and exactly the enrolments these
 calls create.
 */
module EnrolmentLaws {
  import opened Prelude
  import opened Diffs
  import opened Tables
  import opened Automations
  import opened Triggers
  import opened Cascade
  import opened Runs
  import opened LiveTriggers
  import opened Accounting

  datatype Call = Call(automationId: string, email: string, rootNodeId: string, frequency: string)

  /**
   The trigger listens to this row: the row is of its kind, about its list or segment if the
   kind has one, mentions one of the fields it names, and meets its condition.
   */
  predicate Hears(t: TriggerConfig, x: TimelineRow) {
    && (if t.eventKind == "custom_event" then t.customEventName.Some? && x.kind == "custom_event." + t.customEventName.value
        else x.kind == t.eventKind)
    && ("list." <= t.eventKind ==> x.entityId == t.listId)
    && ("segment." <= t.eventKind ==> x.entityId == t.segmentId)
    && (t.eventKind == "contact.updated" && t.updatedFields != [] ==>
          x.changes.FieldChanges? && exists f :: f in t.updatedFields && f in x.changes.fields)
    && t.condition(x)
  }

  lemma HearsIffFires(t: TriggerConfig, x: TimelineRow)
    requires Validate(t) == None && Writable(x)
    ensures Hears(t, x) <==> Fires(t, x)
  {
  }

  /** The calls a row sets off, in trigger order. */
  function CallsFor(ts: seq<AutomationTrigger>, x: TimelineRow): (r: seq<Call>)
    ensures forall call :: call in r ==> call.email == x.email
  {
    if ts == [] then []
    else (if Hears(ts[0].config, x) then [CallOf(ts[0], x.email)] else []) + CallsFor(ts[1..], x)
  }

  function CallOf(t: AutomationTrigger, email: string): Call {
    Call(t.automationId, email, t.rootNodeId, t.config.frequency)
  }

  function CallsForAll(ts: seq<AutomationTrigger>, rows: seq<TimelineRow>): seq<Call> {
    if rows == [] then [] else CallsFor(ts, rows[0]) + CallsForAll(ts, rows[1..])
  }

  /** The calls that create an enrolment: all but `once` calls for a pair already logged. */
  function Creating(calls: seq<Call>, log: set<(string, string)>): seq<Call>
    decreases |calls|
  {
    if calls == [] then []
    else if Skipped(calls[0], log) then Creating(calls[1..], log)
    else [calls[0]] + Creating(calls[1..], Logged(calls[0], log))
  }

  predicate Skipped(call: Call, log: set<(string, string)>) {
    call.frequency == "once" && (call.automationId, call.email) in log
  }

  function Logged(call: Call, log: set<(string, string)>): set<(string, string)> {
    if call.frequency == "once" then log + {(call.automationId, call.email)} else log
  }

  function LoggedAll(calls: seq<Call>, log: set<(string, string)>): set<(string, string)>
    decreases |calls|
  {
    if calls == [] then log else LoggedAll(calls[1..], Logged(calls[0], log))
  }

  function NewEnrolment(call: Call, id: nat, now: Time): Enrolment {
    Enrolment(id, call.automationId, call.email, call.rootNodeId, "active", now, now, call.frequency)
  }

  function NewEnrolments(calls: seq<Call>, id: nat, now: Time): (r: seq<Enrolment>)
    ensures |r| == |calls|
  {
    if calls == [] then [] else [NewEnrolment(calls[0], id, now)] + NewEnrolments(calls[1..], id + 1, now)
  }

  /** Unless an error is pending, these calls have been made between d and r. */
  ghost predicate Made(d: Db, r: Db, calls: seq<Call>, now: Time) {
    && (d.aborted ==> r.aborted)
    && (!r.aborted ==>
          && r.enrolments == d.enrolments + NewEnrolments(Creating(calls, d.triggerLog), d.nextId, now)
          && r.nextId == d.nextId + |Creating(calls, d.triggerLog)|
          && r.triggerLog == LoggedAll(calls, d.triggerLog))
  }

  lemma {:induction false} CreatingAppend(a: seq<Call>, b: seq<Call>, log: set<(string, string)>)
    ensures Creating(a + b, log) == Creating(a, log) + Creating(b, LoggedAll(a, log))
    ensures LoggedAll(a + b, log) == LoggedAll(b, LoggedAll(a, log))
    decreases |a|
  {
    if a == [] {
      assert a + b == b;
    } else {
      assert (a + b)[1..] == a[1..] + b;
      assert Skipped(a[0], log) ==> Logged(a[0], log) == log;
      CreatingAppend(a[1..], b, Logged(a[0], log));
    }
  }

  lemma {:induction false} NewEnrolmentsAppend(a: seq<Call>, b: seq<Call>, id: nat, now: Time)
    ensures NewEnrolments(a + b, id, now) == NewEnrolments(a, id, now) + NewEnrolments(b, id + |a|, now)
    decreases |a|
  {
    if a == [] {
      assert a + b == b;
    } else {
      assert (a + b)[1..] == a[1..] + b;
      NewEnrolmentsAppend(a[1..], b, id + 1, now);
    }
  }

  lemma MadeThen(a: Db, b: Db, c: Db, first: seq<Call>, then_: seq<Call>, now: Time)
    requires Made(a, b, first, now) && Made(b, c, then_, now)
    ensures Made(a, c, first + then_, now)
  {
    CreatingAppend(first, then_, a.triggerLog);
    NewEnrolmentsAppend(Creating(first, a.triggerLog), Creating(then_, b.triggerLog), a.nextId, now);
  }

  lemma OneCall(call: Call, log: set<(string, string)>, id: nat, now: Time)
    ensures Creating([call], log) == if Skipped(call, log) then [] else [call]
    ensures LoggedAll([call], log) == Logged(call, log)
    ensures NewEnrolments(Creating([call], log), id, now) == if Skipped(call, log) then [] else [NewEnrolment(call, id, now)]
    ensures Skipped(call, log) ==> Logged(call, log) == log
  {
    assert [call][1..] == [];
  }

  lemma EnrollMakes(c: ValidConfig, d: Db, call: Call, now: Time)
    ensures Made(d, Enroll(c, d, call.automationId, call.email, call.rootNodeId, call.frequency, now), [call], now)
  {
    EnrollEffect(c, d, call.automationId, call.email, call.rootNodeId, call.frequency, now);
    OneCall(call, d.triggerLog, d.nextId, now);
    hide Enroll, MayEnrol, Creating, LoggedAll, NewEnrolments;
    if !d.aborted {
      CallWrites(c, d, call, now);
      assert d.enrolments + [] == d.enrolments;
    }
  }

  /** The calls of triggers all of which fire. */
  function CallsOf(ts: seq<AutomationTrigger>, email: string): seq<Call> {
    if ts == [] then [] else [CallOf(ts[0], email)] + CallsOf(ts[1..], email)
  }

  lemma {:induction false} FiredCalls(ts: seq<AutomationTrigger>, x: TimelineRow)
    requires Writable(x) && forall t :: t in ts ==> Validate(t.config) == None
    ensures CallsOf(Fired(ts, x), x.email) == CallsFor(ts, x)
  {
    if ts != [] {
      HearsIffFires(ts[0].config, x);
      hide Hears, Fires, Validate, Writable;
      FiredCalls(ts[1..], x);
      assert ([ts[0]] + Fired(ts[1..], x))[1..] == Fired(ts[1..], x);
    }
  }

  lemma {:induction false} EnrollAllMakes(c: ValidConfig, d: Db, ts: seq<AutomationTrigger>, email: string, now: Time)
    ensures Made(d, EnrollAll(c, d, ts, email, now), CallsOf(ts, email), now)
    decreases |ts|
  {
    hide Enroll;
    if ts == [] {
      assert d.enrolments + [] == d.enrolments;
    } else {
      var d1 := Enroll(c, d, ts[0].automationId, email, ts[0].rootNodeId, ts[0].config.frequency, now);
      EnrollMakes(c, d, CallOf(ts[0], email), now);
      EnrollAllMakes(c, d1, ts[1..], email, now);
      MadeThen(d, d1, EnrollAll(c, d, ts, email, now), [CallOf(ts[0], email)], CallsOf(ts[1..], email), now);
    }
  }

  lemma InsertTimelineMakes(c: ValidConfig, d: Db, x: TimelineRow)
    requires Writable(x)
    ensures Made(d, InsertTimeline(c, d, x), CallsFor(c.triggers, x), x.insertedAt)
  {
    var d1, ts := StoreRow(d, x), Fired(c.triggers, x);
    var r := EnrollAll(c, d1, ts, x.email, x.insertedAt);
    FiredCalls(c.triggers, x);
    EnrollAllMakes(c, d1, ts, x.email, x.insertedAt);
    InsertIsEnrolAll(c, d, x);
    hide InsertTimeline, Requeues, EnrollAll, Writable, Fired, CallsFor, CallsOf, Creating, LoggedAll, NewEnrolments;
  }

  lemma InsertIsEnrolAll(c: ValidConfig, d: Db, x: TimelineRow)
    ensures InsertTimeline(c, d, x)
         == Requeue(EnrollAll(c, StoreRow(d, x), Fired(c.triggers, x), x.email, x.insertedAt), x)
  {
    hide Fired, Requeues;
    if x.kind == START_KIND {
      StartFiresNothing(c, x);
    }
  }

  lemma {:induction false} InsertAllMakes(c: ValidConfig, d: Db, rows: seq<TimelineRow>, now: Time)
    requires forall x :: x in rows ==> Writable(x) && x.insertedAt == now
    ensures Made(d, InsertAll(c, d, rows), CallsForAll(c.triggers, rows), now)
    decreases |rows|
  {
    hide InsertTimeline, Writable, CallsFor;
    if rows == [] {
      assert d.enrolments + [] == d.enrolments;
    } else {
      var d1 := InsertTimeline(c, d, rows[0]);
      InsertTimelineMakes(c, d, rows[0]);
      InsertAllMakes(c, d1, rows[1..], now);
      MadeThen(d, d1, InsertAll(c, d, rows), CallsFor(c.triggers, rows[0]), CallsForAll(c.triggers, rows[1..]), now);
    }
  }

  lemma {:induction false} CallsForAppend(ts: seq<AutomationTrigger>, a: seq<TimelineRow>, b: seq<TimelineRow>)
    ensures CallsForAll(ts, a + b) == CallsForAll(ts, a) + CallsForAll(ts, b)
    decreases |a|
  {
    hide CallsFor;
    if a == [] {
      assert a + b == b;
    } else {
      assert (a + b)[1..] == a[1..] + b;
      CallsForAppend(ts, a[1..], b);
    }
  }

  lemma SuppressMakes(c: ValidConfig, d: Db, email: string, listId: string, s: Suppression, now: Time)
    ensures Made(d, Suppress(c, d, email, listId, s, now),
                 CallsForAll(c.triggers, SuppressEffect(c, d.lists, email, listId, s, now).rows), now)
  {
    hide InsertAll, Outgoing, Writable, CallsFor, ListWebhook;
    if (email, listId) in d.lists && MaySuppress(d.lists[(email, listId)].status, s.status) {
      var b := d.lists[(email, listId)];
      var e := Updated(b, b.(status := s.status, updatedAt := s.at));
      var d1 := d.(lists := d.lists[(email, listId) := e.after]);
      ListRowsAreWritable(email, listId, e, now);
      InsertAllMakes(c, d1, ListRows(email, listId, e, now), now);
    } else {
      assert d.enrolments + [] == d.enrolments;
    }
  }

  lemma {:induction false} SuppressAllMakes(c: ValidConfig, d: Db, email: string, listId: Option<string>,
                                            ss: seq<Suppression>, now: Time)
    ensures Made(d, SuppressAll(c, d, email, listId, ss, now),
                 CallsForAll(c.triggers, SuppressAllEffect(c, d.lists, email, listId, ss, now).rows), now)
    decreases |ss|
  {
    hide Suppress, SuppressEffect, CallsFor;
    if ss == [] || listId == None {
      assert d.enrolments + [] == d.enrolments;
    } else {
      var d1 := Suppress(c, d, email, listId.value, ss[0], now);
      var first := SuppressEffect(c, d.lists, email, listId.value, ss[0], now);
      SuppressShows(c, d, email, listId.value, ss[0], now);
      SuppressMakes(c, d, email, listId.value, ss[0], now);
      SuppressAllMakes(c, d1, email, listId, ss[1..], now);
      var rest := SuppressAllEffect(c, first.lists, email, listId, ss[1..], now);
      CallsForAppend(c.triggers, first.rows, rest.rows);
      MadeThen(d, d1, SuppressAll(c, d, email, listId, ss, now), CallsForAll(c.triggers, first.rows),
               CallsForAll(c.triggers, rest.rows), now);
    }
  }

  /** The calls a committed step makes: its own, or those of the triggers that hear the rows it adds. */
  function CallsBy(d: Db, step: Step): seq<Call>
    requires d.timeline <= Exec(d, step).timeline
  {
    var st := step.statement;
    if st.EnrolContact? then [Call(st.automationId, st.email, st.rootNodeId, st.frequency)]
    else CallsForAll(step.c.triggers, Source(Added(d.timeline, Exec(d, step).timeline)))
  }

  /**
   What a committed step adds to contact_automations and to the log: exactly one row for each
   call it makes, in order and with the call's particulars, but for `once` calls of pairs
   already logged.
   */
  lemma StepEnrols(d: Db, step: Step)
    requires Commits(d, step)
    ensures d.timeline <= Exec(d, step).timeline
    ensures var r, calls := Exec(d, step), CallsBy(d, step);
            && r.enrolments == d.enrolments + NewEnrolments(Creating(calls, d.triggerLog), d.nextId, step.now)
            && r.triggerLog == LoggedAll(calls, d.triggerLog)
            && r.nextId == d.nextId + |Creating(calls, d.triggerLog)|
  {
    var c, st, now := step.c, step.statement, step.now;
    StepEffect(d, step);
    DirectKeepsLogs(d, st);
    if st.EnrolContact? {
      EnrollMakes(c, d, Call(st.automationId, st.email, st.rootNodeId, st.frequency), now);
    } else {
      TableStepMakes(d, step);
    }
  }

  lemma TableStepMakes(d: Db, step: Step)
    requires Commits(d, step) && !step.statement.EnrolContact?
    ensures Made(Direct(d, step.statement), Exec(d, step), CallsForAll(step.c.triggers, EffectOf(d, step).rows), step.now)
  {
    var c, st, now := step.c, step.statement, step.now;
    var t, d0, rows := TargetOf(d, st), Direct(d, st), RowsOf(d, st, now);
    RowsAreSource(d, st, now);
    RowsAreWritable(d, st, now);
    assert !PrimaryKeyClash(d, st);
    hide Direct, TargetOf, RowsOf, WebhookOf, Outgoing, CallsForAll, InsertAll, SuppressAll, Writable, SuppressAllEffect;
    var d1 := InsertAll(c, d0, rows);
    InsertAllMakes(c, d0, rows, now);
    InsertAllShows(c, d0, rows);
    SuppressAllMakes(c, d1, t.email, t.listId, t.suppressions, now);
    var d2 := SuppressAll(c, d1, t.email, t.listId, t.suppressions, now);
    var side := SuppressAllEffect(c, d0.lists, t.email, t.listId, t.suppressions, now);
    CallsForAppend(c.triggers, rows, side.rows);
    assert EffectOf(d, step).rows == rows + (side.rows + []) && side.rows + [] == side.rows;
    MadeThen(d0, d1, d2, CallsForAll(c.triggers, rows), CallsForAll(c.triggers, side.rows), now);
  }

  // ---------- one call ----------

  /** An automation can take the contact at this instant: it exists, and has no row for the same instant. */
  predicate Free(d: Db, automationId: string, email: string, now: Time) {
    automationId in d.enrolled
    && forall i :: 0 <= i < |d.enrolments| ==>
         !(d.enrolments[i].automationId == automationId && d.enrolments[i].email == email && d.enrolments[i].enteredAt == now)
  }

  /** The database with everything one call writes. */
  function Enrolled(d: Db, call: Call, now: Time): Db
    requires call.automationId in d.enrolled
  {
    var a, e, node := call.automationId, call.email, call.rootNodeId;
    var changes := FieldChanges(map["automation_id" := Change(None, Some(JString(a))),
                                    "root_node_id" := Change(None, Some(JString(node)))]);
    d.(enrolments := d.enrolments + [Enrolment(d.nextId, a, e, node, "active", now, now, call.frequency)],
       executions := d.executions + [NodeExecution(d.nextId, a, node, "trigger", "entered", now)],
       timeline := d.timeline + [TimelineRow(e, InsertOp, AutomationEntity, "automation.start", Some(a), changes, now, now)],
       enrolled := d.enrolled[a := d.enrolled[a] + 1],
       triggerLog := if call.frequency == "once" then d.triggerLog + {(a, e)} else d.triggerLog,
       queue := d.queue[e := now],
       nextId := d.nextId + 1)
  }

  /**
   A direct call. With `once` and the pair in the log, nothing happens. Otherwise it commits
   if and only if the automation is free, and writes one row in each table, every time anew.
   */
  lemma EnrolCallIs(d: Db, step: Step)
    requires step.statement.EnrolContact? && !d.aborted
    ensures var st, now := step.statement, step.now;
            var call := Call(st.automationId, st.email, st.rootNodeId, st.frequency);
            if st.frequency == "once" && (st.automationId, st.email) in d.triggerLog
            then Commits(d, step) && Exec(d, step) == d
            else
              && (Commits(d, step) <==> Free(d, st.automationId, st.email, now))
              && (Commits(d, step) ==> Exec(d, step) == Enrolled(d, call, now))
  {
    var st := step.statement;
    var call := Call(st.automationId, st.email, st.rootNodeId, st.frequency);
    CallWrites(step.c, d, call, step.now);
    FreeIsMayEnrol(d, st.automationId, st.email, step.now);
    hide Enroll, MayEnrol, Free, Enrolled;
  }

  lemma CallWrites(c: ValidConfig, d: Db, call: Call, now: Time)
    requires !d.aborted
    ensures var r := Enroll(c, d, call.automationId, call.email, call.rootNodeId, call.frequency, now);
            if Skipped(call, d.triggerLog) then r == d
            else if !MayEnrol(d, call.automationId, call.email, now) then r.aborted
            else r == Enrolled(d, call, now)
  {
    EnrollFlat(c, d, call.automationId, call.email, call.rootNodeId, call.frequency, now);
    hide Enroll;
  }

  lemma FreeIsMayEnrol(d: Db, automationId: string, email: string, now: Time)
    ensures Free(d, automationId, email, now) <==> MayEnrol(d, automationId, email, now)
  {
  }

  // ---------- where a statement's enrolments come from ----------

  lemma {:induction false} CallsAreHeard(ts: seq<AutomationTrigger>, rows: seq<TimelineRow>, call: Call)
    ensures call in CallsForAll(ts, rows) <==>
              exists t, x :: t in ts && x in rows && Hears(t.config, x) && call == CallOf(t, x.email)
  {
    hide Hears;
    if rows != [] {
      CallsAreHeard(ts, rows[1..], call);
      CallsForOne(ts, rows[0], call);
      assert rows == [rows[0]] + rows[1..];
    }
  }

  lemma {:induction false} CallsForOne(ts: seq<AutomationTrigger>, x: TimelineRow, call: Call)
    ensures call in CallsFor(ts, x) <==> exists t :: t in ts && Hears(t.config, x) && call == CallOf(t, x.email)
  {
    hide Hears;
    if ts != [] {
      CallsForOne(ts[1..], x, call);
      assert ts == [ts[0]] + ts[1..];
    }
  }

  lemma {:induction false} CreatedAreCalls(calls: seq<Call>, log: set<(string, string)>, id: nat, now: Time)
    ensures forall y :: y in NewEnrolments(Creating(calls, log), id, now) ==>
              y.enteredAt == now && Call(y.automationId, y.email, y.currentNodeId, y.calledWith) in calls
    decreases |calls|
  {
    if calls != [] {
      if Skipped(calls[0], log) {
        CreatedAreCalls(calls[1..], log, id, now);
      } else {
        CreatedAreCalls(calls[1..], Logged(calls[0], log), id + 1, now);
        var rest := Creating(calls[1..], Logged(calls[0], log));
        assert ([calls[0]] + rest)[1..] == rest;
      }
    }
  }

  /**
   Whoever a statement on another table enrols is the contact of a row the statement added,
   which a live trigger of that automation hears.
   */
  lemma EnrolledAreHeard(d: Db, step: Step, y: Enrolment)
    requires Commits(d, step) && !step.statement.EnrolContact?
    requires d.enrolments <= Exec(d, step).enrolments && y in Added(d.enrolments, Exec(d, step).enrolments)
    ensures d.timeline <= Exec(d, step).timeline
    ensures exists t, x :: t in step.c.triggers && x in Source(Added(d.timeline, Exec(d, step).timeline))
                        && Hears(t.config, x) && y.automationId == t.automationId && y.email == x.email
  {
    StepEnrols(d, step);
    var calls := CallsBy(d, step);
    CreatedAreCalls(calls, d.triggerLog, d.nextId, step.now);
    hide Commits, Exec, Creating, NewEnrolments, Hears;
    CallsAreHeard(step.c.triggers, Source(Added(d.timeline, Exec(d, step).timeline)),
                  Call(y.automationId, y.email, y.currentNodeId, y.calledWith));
  }

  /** Rows that no live trigger hears enrol nobody. */
  lemma UnheardEnrolNobody(d: Db, step: Step)
    requires Commits(d, step) && !step.statement.EnrolContact?
    requires d.timeline <= Exec(d, step).timeline
    requires forall t, x :: t in step.c.triggers && x in Source(Added(d.timeline, Exec(d, step).timeline)) ==> !Hears(t.config, x)
    ensures Exec(d, step).enrolments == d.enrolments && Exec(d, step).triggerLog == d.triggerLog
  {
    StepEnrols(d, step);
    var calls := CallsBy(d, step);
    if calls != [] {
      CallsAreHeard(step.c.triggers, Source(Added(d.timeline, Exec(d, step).timeline)), calls[0]);
    }
    assert d.enrolments + [] == d.enrolments;
  }

  /** List automations start for their own list only: a statement about another one enrols nobody. */
  lemma OtherListsEnrolNobody(d: Db, step: Step)
    requires Commits(d, step) && (step.statement.InsertList? || step.statement.UpdateList?)
    requires forall t :: t in step.c.triggers ==>
               "list." <= t.config.eventKind && t.config.listId != Some(step.statement.listId)
    ensures Exec(d, step).enrolments == d.enrolments
  {
    var st := step.statement;
    StepEffect(d, step);
    var added := Source(Added(d.timeline, Exec(d, step).timeline));
    assert added == RowsOf(d, st, step.now) by {
      assert TargetOf(d, st).suppressions == [];
      assert RowsOf(d, st, step.now) + ([] + []) == RowsOf(d, st, step.now);
    }
    assert forall x :: x in added ==> x.entityId == Some(st.listId);
    hide Commits, Exec, RowsOf, EffectOf;
    UnheardEnrolNobody(d, step);
  }

  // ---------- over runs ----------

  /** Rows created by calls with another frequency than `once`. */
  function RepeatPair(automationId: string, email: string): Enrolment -> bool {
    (x: Enrolment) => x.automationId == automationId && x.email == email && x.calledWith != "once"
  }

  function RepeatCalls(calls: seq<Call>, automationId: string, email: string): nat {
    if calls == [] then 0
    else (if calls[0].automationId == automationId && calls[0].email == email && calls[0].frequency != "once" then 1 else 0)
         + RepeatCalls(calls[1..], automationId, email)
  }

  predicate OnceCall(calls: seq<Call>, automationId: string, email: string) {
    exists call :: call in calls && call.automationId == automationId && call.email == email && call.frequency == "once"
  }

  lemma {:induction false} CreatedCounts(calls: seq<Call>, log: set<(string, string)>, id: nat, now: Time, a: string, e: string)
    ensures var created := NewEnrolments(Creating(calls, log), id, now);
            && |Select(created, RepeatPair(a, e))| == RepeatCalls(calls, a, e)
            && |Select(created, OncePair(a, e))| == (if (a, e) !in log && OnceCall(calls, a, e) then 1 else 0)
            && ((a, e) in LoggedAll(calls, log) <==> (a, e) in log || OnceCall(calls, a, e))
    decreases |calls|
  {
    if calls != [] {
      var call := calls[0];
      assert calls == [call] + calls[1..];
      if Skipped(call, log) {
        assert Logged(call, log) == log;
        CreatedCounts(calls[1..], log, id, now, a, e);
      } else {
        var rest := Creating(calls[1..], Logged(call, log));
        CreatedCounts(calls[1..], Logged(call, log), id + 1, now, a, e);
        assert ([call] + rest)[1..] == rest;
        CreatedOne(call, NewEnrolments(rest, id + 1, now), id, now, a, e);
      }
    }
  }

  lemma CreatedOne(call: Call, rest: seq<Enrolment>, id: nat, now: Time, a: string, e: string)
    ensures var x := NewEnrolment(call, id, now);
            && Select([x] + rest, RepeatPair(a, e)) == (if RepeatPair(a, e)(x) then [x] else []) + Select(rest, RepeatPair(a, e))
            && Select([x] + rest, OncePair(a, e)) == (if OncePair(a, e)(x) then [x] else []) + Select(rest, OncePair(a, e))
  {
    assert ([NewEnrolment(call, id, now)] + rest)[1..] == rest;
  }

  /** How often the committed steps of a run call for a pair with another frequency than `once`. */
  function RepeatCallsOver(d: Db, steps: seq<Step>, a: string, e: string): nat
    decreases |steps|
  {
    if steps == [] then 0
    else
      (if Commits(d, steps[0]) then StepEnrols(d, steps[0]); RepeatCalls(CallsBy(d, steps[0]), a, e) else 0)
      + RepeatCallsOver(Exec(d, steps[0]), steps[1..], a, e)
  }

  predicate OnceCalledOver(d: Db, steps: seq<Step>, a: string, e: string)
    decreases |steps|
  {
    steps != []
    && ((Commits(d, steps[0]) && (StepEnrols(d, steps[0]); OnceCall(CallsBy(d, steps[0]), a, e)))
        || OnceCalledOver(Exec(d, steps[0]), steps[1..], a, e))
  }

  /**
   Over any run, from any database: calls with another frequency than `once` have created one
   row each, every time; the log holds a pair exactly if it did before or a `once` call was
   made for it; and `once` calls have created one row if the pair was not logged before and
   one was made, and none otherwise.
   */
  lemma {:induction false} RunEnrols(d: Db, steps: seq<Step>, a: string, e: string)
    ensures var r := Run(d, steps);
            && |Select(r.enrolments, RepeatPair(a, e))|
               == |Select(d.enrolments, RepeatPair(a, e))| + RepeatCallsOver(d, steps, a, e)
            && ((a, e) in r.triggerLog <==> (a, e) in d.triggerLog || OnceCalledOver(d, steps, a, e))
            && OnceRowsFor(r, a, e)
               == OnceRowsFor(d, a, e) + if (a, e) !in d.triggerLog && OnceCalledOver(d, steps, a, e) then 1 else 0
    decreases |steps|
  {
    hide Commits, CallsBy, OnceCall, RepeatCalls;
    if steps != [] {
      RunEnrols(Exec(d, steps[0]), steps[1..], a, e);
      if Commits(d, steps[0]) {
        StepCounts(d, steps[0], a, e);
      }
    }
  }

  lemma StepCounts(d: Db, step: Step, a: string, e: string)
    requires Commits(d, step)
    ensures d.timeline <= Exec(d, step).timeline
    ensures var r, calls := Exec(d, step), CallsBy(d, step);
            && |Select(r.enrolments, RepeatPair(a, e))| == |Select(d.enrolments, RepeatPair(a, e))| + RepeatCalls(calls, a, e)
            && ((a, e) in r.triggerLog <==> (a, e) in d.triggerLog || OnceCall(calls, a, e))
            && OnceRowsFor(r, a, e)
               == OnceRowsFor(d, a, e) + if (a, e) !in d.triggerLog && OnceCall(calls, a, e) then 1 else 0
  {
    StepEnrols(d, step);
    var calls := CallsBy(d, step);
    CreatedCounts(calls, d.triggerLog, d.nextId, step.now, a, e);
    var created := NewEnrolments(Creating(calls, d.triggerLog), d.nextId, step.now);
    SelectAppend(d.enrolments, created, RepeatPair(a, e));
    SelectAppend(d.enrolments, created, OncePair(a, e));
  }
}
