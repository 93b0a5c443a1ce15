/**
 The cascade ends, and how far it reaches.
 */
module CascadeLaws {
  import opened Prelude
  import opened Tables
  import opened Automations
  import opened Triggers
  import opened Cascade
  import opened Runs

  // ---------- bounded nesting ----------

  /**
   INSERT INTO contact_timeline under any configuration, validated or not, giving up (None)
   when timeline inserts nest more than `depth` deep.
   */
  function InsertWithin(c: Config, d: Db, row: TimelineRow, depth: nat): Option<Db>
    decreases depth, 0, 0
  {
    if depth == 0 then None
    else
      match EnrollAllWithin(c, StoreRow(d, row), Fired(c.triggers, row), row.email, row.insertedAt, depth - 1)
      case None => None
      case Some(r) => Some(Requeue(r, row))
  }

  function EnrollAllWithin(c: Config, d: Db, ts: seq<AutomationTrigger>, email: string, now: Time, depth: nat): Option<Db>
    decreases depth, 2, |ts|
  {
    if ts == [] then Some(d)
    else
      match EnrollWithin(c, d, ts[0].automationId, email, ts[0].rootNodeId, ts[0].config.frequency, now, depth)
      case None => None
      case Some(r) => EnrollAllWithin(c, r, ts[1..], email, now, depth)
  }

  function EnrollWithin(c: Config, d: Db, automationId: string, email: string, rootNodeId: string,
                        frequency: string, now: Time, depth: nat): Option<Db>
    decreases depth, 1, 0
  {
    if AlreadyTriggered(d, automationId, email, frequency) then Some(d)
    else if !MayEnrol(d, automationId, email, now) then Some(d.(aborted := true))
    else InsertWithin(c, RecordEnrolment(d, automationId, email, rootNodeId, frequency, now),
                      StartRow(automationId, email, rootNodeId, now), depth)
  }

  lemma StartNeedsOneLevel(c: ValidConfig, d: Db, row: TimelineRow, depth: nat)
    requires row.kind == START_KIND && depth >= 1
    ensures InsertWithin(c, d, row, depth) == Some(InsertTimeline(c, d, row))
  {
    StartFiresNothing(c, row);
  }

  lemma EnrolNeedsOneLevel(c: ValidConfig, d: Db, automationId: string, email: string, rootNodeId: string,
                           frequency: string, now: Time, depth: nat)
    requires depth >= 1
    ensures EnrollWithin(c, d, automationId, email, rootNodeId, frequency, now, depth)
         == Some(Enroll(c, d, automationId, email, rootNodeId, frequency, now))
  {
    if !AlreadyTriggered(d, automationId, email, frequency) && MayEnrol(d, automationId, email, now) {
      StartNeedsOneLevel(c, RecordEnrolment(d, automationId, email, rootNodeId, frequency, now),
                         StartRow(automationId, email, rootNodeId, now), depth);
    }
  }

  lemma {:induction false} EnrolAllNeedsOneLevel(c: ValidConfig, d: Db, ts: seq<AutomationTrigger>, email: string,
                                                 now: Time, depth: nat)
    requires depth >= 1
    ensures EnrollAllWithin(c, d, ts, email, now, depth) == Some(EnrollAll(c, d, ts, email, now))
    decreases |ts|
  {
    if ts != [] {
      var t := ts[0];
      EnrolNeedsOneLevel(c, d, t.automationId, email, t.rootNodeId, t.config.frequency, now, depth);
      EnrolAllNeedsOneLevel(c, Enroll(c, d, t.automationId, email, t.rootNodeId, t.config.frequency, now), ts[1..],
                            email, now, depth);
    }
  }

  /**
   With validated automations, timeline inserts never nest more than two deep, whichever
   automations fire: giving the cascade two levels or more computes the same database.
   */
  lemma TwoLevelsSuffice(c: ValidConfig, d: Db, row: TimelineRow, depth: nat)
    requires depth >= 2
    ensures InsertWithin(c, d, row, depth) == Some(InsertTimeline(c, d, row))
  {
    if row.kind == START_KIND {
      StartNeedsOneLevel(c, d, row, depth);
    } else {
      EnrolAllNeedsOneLevel(c, StoreRow(d, row), Fired(c.triggers, row), row.email, row.insertedAt, depth - 1);
    }
  }

  /** Exactly the rows that create an enrolment need the second level. */
  lemma OneLevelIffNoEnrolment(c: ValidConfig, d: Db, row: TimelineRow)
    ensures InsertWithin(c, d, row, 1) != None <==> InsertTimeline(c, d, row).enrolments == d.enrolments
  {
    var d1, ts := StoreRow(d, row), Fired(c.triggers, row);
    EnrolAllWithoutLevels(c, d1, ts, row.email, row.insertedAt);
    OneLevelMeansNoNesting(c, d, row);
    var r := EnrollAll(c, d1, ts, row.email, row.insertedAt);
    if row.kind == START_KIND {
      StartFiresNothing(c, row);
      assert r == d1;
    }
    assert InsertTimeline(c, d, row) == Requeue(r, row);
  }

  lemma OneLevelMeansNoNesting(c: ValidConfig, d: Db, row: TimelineRow)
    ensures InsertWithin(c, d, row, 1) != None
       <==> EnrollAllWithin(c, StoreRow(d, row), Fired(c.triggers, row), row.email, row.insertedAt, 0) != None
  {
  }

  lemma EnrolGrowth(c: ValidConfig, d: Db, automationId: string, email: string, rootNodeId: string,
                    frequency: string, now: Time)
    ensures var r := Enroll(c, d, automationId, email, rootNodeId, frequency, now);
            && |d.enrolments| <= |r.enrolments| <= |d.enrolments| + 1
            && |d.timeline| <= |r.timeline| <= |d.timeline| + 1
            && (|r.enrolments| == |d.enrolments| ==> r.enrolments == d.enrolments)
            && (|r.enrolments| == |d.enrolments|
                <==> AlreadyTriggered(d, automationId, email, frequency) || !MayEnrol(d, automationId, email, now))
  {
    hide Enroll, AlreadyTriggered, StartRow;
    EnrollFlat(c, d, automationId, email, rootNodeId, frequency, now);
    if !AlreadyTriggered(d, automationId, email, frequency) && MayEnrol(d, automationId, email, now) {
      hide MayEnrol;
      var d1 := RecordEnrolment(d, automationId, email, rootNodeId, frequency, now);
      assert |d1.enrolments| == |d.enrolments| + 1 && d1.timeline == d.timeline;
    }
  }

  lemma EnrolWithoutLevels(c: ValidConfig, d: Db, automationId: string, email: string, rootNodeId: string,
                           frequency: string, now: Time)
    ensures var r := Enroll(c, d, automationId, email, rootNodeId, frequency, now);
            EnrollWithin(c, d, automationId, email, rootNodeId, frequency, now, 0)
            == if |r.enrolments| == |d.enrolments| then Some(r) else None
  {
  }

  lemma {:induction false} EnrolAllWithoutLevels(c: ValidConfig, d: Db, ts: seq<AutomationTrigger>, email: string, now: Time)
    ensures var r := EnrollAll(c, d, ts, email, now);
            && |d.enrolments| <= |r.enrolments|
            && (|r.enrolments| == |d.enrolments| ==> r.enrolments == d.enrolments)
            && (EnrollAllWithin(c, d, ts, email, now, 0) != None <==> |r.enrolments| == |d.enrolments|)
    decreases |ts|
  {
    if ts != [] {
      var t := ts[0];
      hide Enroll, EnrollWithin;
      EnrolGrowth(c, d, t.automationId, email, t.rootNodeId, t.config.frequency, now);
      EnrolWithoutLevels(c, d, t.automationId, email, t.rootNodeId, t.config.frequency, now);
      EnrolAllWithoutLevels(c, Enroll(c, d, t.automationId, email, t.rootNodeId, t.config.frequency, now), ts[1..],
                            email, now);
    }
  }

  // ---------- without validation ----------

  /** The automations with a trigger that could still enrol this contact at this instant. */
  ghost function Free(c: Config, d: Db, email: string, now: Time): set<string> {
    set t | t in c.triggers && MayEnrol(d, t.automationId, email, now) :: t.automationId
  }

  lemma {:induction false} SmallerSubset<T>(a: set<T>, b: set<T>)
    requires a <= b
    ensures |a| <= |b|
  {
    if a != {} {
      var x :| x in a;
      SmallerSubset(a - {x}, b - {x});
    }
  }

  /** UNIQUE(automation_id, contact_email, entered_at): an enrolment uses its automation up. */
  lemma RecordingUsesUp(c: Config, d: Db, t: AutomationTrigger, email: string, rootNodeId: string, frequency: string, now: Time)
    requires t in c.triggers && MayEnrol(d, t.automationId, email, now)
    ensures var d1 := RecordEnrolment(d, t.automationId, email, rootNodeId, frequency, now);
            Free(c, d1, email, now) <= Free(c, d, email, now) && |Free(c, d1, email, now)| < |Free(c, d, email, now)|
  {
    var id := t.automationId;
    var d1 := RecordEnrolment(d, id, email, rootNodeId, frequency, now);
    var x := Enrolment(d.nextId, id, email, rootNodeId, "active", now, now, frequency);
    assert x in d1.enrolments && forall e :: e in d.enrolments ==> e in d1.enrolments;
    assert id in Free(c, d, email, now) && !MayEnrol(d1, id, email, now);
    assert Free(c, d1, email, now) <= Free(c, d, email, now) - {id};
    SmallerSubset(Free(c, d1, email, now), Free(c, d, email, now) - {id});
  }

  lemma {:induction false} InsertEnds(c: Config, d: Db, row: TimelineRow, depth: nat)
    requires depth > |Free(c, d, row.email, row.insertedAt)|
    ensures var r := InsertWithin(c, d, row, depth);
            r != None && Free(c, r.value, row.email, row.insertedAt) <= Free(c, d, row.email, row.insertedAt)
    decreases depth, 0, 0
  {
    hide MayEnrol, Fires, Requeues;
    var d1 := StoreRow(d, row);
    SameFree(c, d, d1, row.email, row.insertedAt);
    SelectMembers(c.triggers, (t: AutomationTrigger) => Fires(t.config, row));
    EnrollAllEnds(c, d1, Fired(c.triggers, row), row.email, row.insertedAt, depth - 1);
    var r := EnrollAllWithin(c, d1, Fired(c.triggers, row), row.email, row.insertedAt, depth - 1).value;
    SameFree(c, r, Requeue(r, row), row.email, row.insertedAt);
  }

  lemma SameFree(c: Config, d: Db, r: Db, email: string, now: Time)
    requires r.enrolled == d.enrolled && r.enrolments == d.enrolments
    ensures Free(c, r, email, now) == Free(c, d, email, now)
  {
    assert forall t: AutomationTrigger :: MayEnrol(r, t.automationId, email, now) <==> MayEnrol(d, t.automationId, email, now);
  }

  lemma {:induction false} EnrollAllEnds(c: Config, d: Db, ts: seq<AutomationTrigger>, email: string, now: Time, depth: nat)
    requires depth >= |Free(c, d, email, now)| && forall t :: t in ts ==> t in c.triggers
    ensures var r := EnrollAllWithin(c, d, ts, email, now, depth);
            r != None && Free(c, r.value, email, now) <= Free(c, d, email, now)
    decreases depth, 2, |ts|
  {
    hide Free;
    if ts != [] {
      var t := ts[0];
      EnrollEnds(c, d, t, email, now, depth);
      var d1 := EnrollWithin(c, d, t.automationId, email, t.rootNodeId, t.config.frequency, now, depth).value;
      SmallerSubset(Free(c, d1, email, now), Free(c, d, email, now));
      EnrollAllEnds(c, d1, ts[1..], email, now, depth);
    }
  }

  lemma {:induction false} EnrollEnds(c: Config, d: Db, t: AutomationTrigger, email: string, now: Time, depth: nat)
    requires depth >= |Free(c, d, email, now)| && t in c.triggers
    ensures var r := EnrollWithin(c, d, t.automationId, email, t.rootNodeId, t.config.frequency, now, depth);
            r != None && Free(c, r.value, email, now) <= Free(c, d, email, now)
    decreases depth, 1, 0
  {
    hide Free, InsertWithin;
    if !AlreadyTriggered(d, t.automationId, email, t.config.frequency) {
      if MayEnrol(d, t.automationId, email, now) {
        RecordingUsesUp(c, d, t, email, t.rootNodeId, t.config.frequency, now);
        var d1 := RecordEnrolment(d, t.automationId, email, t.rootNodeId, t.config.frequency, now);
        InsertEnds(c, d1, StartRow(t.automationId, email, t.rootNodeId, now), depth);
      } else {
        SameFree(c, d, d.(aborted := true), email, now);
      }
    }
  }

  lemma {:induction false} InsertSettles(c: Config, d: Db, row: TimelineRow, depth: nat)
    requires InsertWithin(c, d, row, depth) != None
    ensures InsertWithin(c, d, row, depth + 1) == InsertWithin(c, d, row, depth)
    decreases depth, 0, 0
  {
    EnrollAllSettles(c, StoreRow(d, row), Fired(c.triggers, row), row.email, row.insertedAt, depth - 1);
  }

  lemma {:induction false} EnrollAllSettles(c: Config, d: Db, ts: seq<AutomationTrigger>, email: string, now: Time, depth: nat)
    requires EnrollAllWithin(c, d, ts, email, now, depth) != None
    ensures EnrollAllWithin(c, d, ts, email, now, depth + 1) == EnrollAllWithin(c, d, ts, email, now, depth)
    decreases depth, 2, |ts|
  {
    if ts != [] {
      var t := ts[0];
      EnrollSettles(c, d, t, email, now, depth);
      var d1 := EnrollWithin(c, d, t.automationId, email, t.rootNodeId, t.config.frequency, now, depth).value;
      hide EnrollWithin;
      EnrollAllSettles(c, d1, ts[1..], email, now, depth);
    }
  }

  lemma {:induction false} EnrollSettles(c: Config, d: Db, t: AutomationTrigger, email: string, now: Time, depth: nat)
    requires EnrollWithin(c, d, t.automationId, email, t.rootNodeId, t.config.frequency, now, depth) != None
    ensures EnrollWithin(c, d, t.automationId, email, t.rootNodeId, t.config.frequency, now, depth + 1)
         == EnrollWithin(c, d, t.automationId, email, t.rootNodeId, t.config.frequency, now, depth)
    decreases depth, 1, 0
  {
    hide AlreadyTriggered, InsertWithin;
    if !AlreadyTriggered(d, t.automationId, email, t.config.frequency) && MayEnrol(d, t.automationId, email, now) {
      InsertSettles(c, RecordEnrolment(d, t.automationId, email, t.rootNodeId, t.config.frequency, now),
                    StartRow(t.automationId, email, t.rootNodeId, now), depth);
    }
  }

  /**
   Under any configuration at all, validated or not, the cascade of one timeline insert
   ends: as many levels as there are automations still free to enrol the contact, and one
   more, always suffice, and more levels compute the same database.
   */
  lemma {:induction false} EveryCascadeEnds(c: Config, d: Db, row: TimelineRow, depth: nat)
    requires depth > |Free(c, d, row.email, row.insertedAt)|
    ensures var n := |Free(c, d, row.email, row.insertedAt)| + 1;
            InsertWithin(c, d, row, depth) == InsertWithin(c, d, row, n) != None
    decreases depth
  {
    hide InsertWithin, Free;
    var n := |Free(c, d, row.email, row.insertedAt)| + 1;
    InsertEnds(c, d, row, n);
    if depth > n {
      EveryCascadeEnds(c, d, row, depth - 1);
      InsertSettles(c, d, row, depth - 1);
    }
  }

  // ---------- how many rows ----------

  lemma {:induction false} EnrollAllGrowth(c: ValidConfig, d: Db, ts: seq<AutomationTrigger>, email: string, now: Time)
    ensures |EnrollAll(c, d, ts, email, now).timeline| <= |d.timeline| + |ts|
    decreases |ts|
  {
    if ts != [] {
      var t := ts[0];
      hide Enroll;
      EnrolGrowth(c, d, t.automationId, email, t.rootNodeId, t.config.frequency, now);
      EnrollAllGrowth(c, Enroll(c, d, t.automationId, email, t.rootNodeId, t.config.frequency, now), ts[1..], email, now);
    }
  }

  lemma InsertTimelineGrowth(c: ValidConfig, d: Db, row: TimelineRow)
    ensures |InsertTimeline(c, d, row).timeline| <= |d.timeline| + 1 + |c.triggers|
  {
    if row.kind != START_KIND {
      EnrollAllGrowth(c, StoreRow(d, row), Fired(c.triggers, row), row.email, row.insertedAt);
    }
  }

  lemma {:induction false} InsertAllGrowth(c: ValidConfig, d: Db, rows: seq<TimelineRow>)
    ensures |InsertAll(c, d, rows).timeline| <= |d.timeline| + |rows| * (1 + |c.triggers|)
    decreases |rows|
  {
    hide InsertTimeline;
    if rows != [] {
      InsertTimelineGrowth(c, d, rows[0]);
      InsertAllGrowth(c, InsertTimeline(c, d, rows[0]), rows[1..]);
      OneMore(|rows[1..]|, 1 + |c.triggers|);
    }
  }

  lemma OneMore(n: nat, k: nat)
    ensures (n + 1) * k == k + n * k
  {
  }

  lemma SuppressGrowth(c: ValidConfig, d: Db, email: string, listId: string, s: Suppression, now: Time)
    ensures |Suppress(c, d, email, listId, s, now).timeline| <= |d.timeline| + 1 + |c.triggers|
  {
    hide InsertAll, Outgoing;
    if (email, listId) in d.lists && MaySuppress(d.lists[(email, listId)].status, s.status) {
      var b := d.lists[(email, listId)];
      var e := Updated(b, b.(status := s.status, updatedAt := s.at));
      var rows := ListRows(email, listId, e, now);
      assert |rows| <= 1;
      TimesLeq(|rows|, 1, 1 + |c.triggers|);
      InsertAllGrowth(c, d.(lists := d.lists[(email, listId) := e.after]), rows);
    }
  }

  lemma {:induction false} SuppressAllGrowth(c: ValidConfig, d: Db, email: string, listId: Option<string>,
                                             ss: seq<Suppression>, now: Time)
    ensures |SuppressAll(c, d, email, listId, ss, now).timeline| <= |d.timeline| + |ss| * (1 + |c.triggers|)
    decreases |ss|
  {
    if ss != [] && listId != None {
      hide Suppress;
      SuppressGrowth(c, d, email, listId.value, ss[0], now);
      SuppressAllGrowth(c, Suppress(c, d, email, listId.value, ss[0], now), email, listId, ss[1..], now);
      OneMore(|ss[1..]|, 1 + |c.triggers|);
    }
  }

  lemma RowsBound(d: Db, s: Statement, now: Time)
    ensures |RowsOf(d, s, now)| <= 6 && |TargetOf(d, s).suppressions| <= 2
  {
    if s.UpdateMessage? && s.id in d.messages {
      assert |MessageRows(s.id, Updated(d.messages[s.id], s.message), now)| <= 6;
    }
  }

  /** A statement's whole cascade writes at most eight source rows and the enrolments each can start. */
  lemma CascadeIsBounded(d: Db, step: Step)
    ensures |Exec(d, step).timeline| <= |d.timeline| + 8 * (1 + |step.c.triggers|)
  {
    var c, s, now := step.c, step.statement, step.now;
    hide InsertAll, SuppressAll, RowsOf, TargetOf, Enroll, WebhookOf, Outgoing;
    if s.EnrolContact? {
      EnrolGrowth(c, d, s.automationId, s.email, s.rootNodeId, s.frequency, now);
    } else {
      var d0, rows, t := Direct(d, s), RowsOf(d, s, now), TargetOf(d, s);
      RowsBound(d, s, now);
      InsertAllGrowth(c, d0, rows);
      SuppressAllGrowth(c, InsertAll(c, d0, rows), t.email, t.listId, t.suppressions, now);
      TimesLeq(|rows|, 6, 1 + |c.triggers|);
      TimesLeq(|t.suppressions|, 2, 1 + |c.triggers|);
    }
  }

  lemma TimesLeq(a: nat, b: nat, k: nat)
    requires a <= b
    ensures a * k <= b * k
  {
  }
}
