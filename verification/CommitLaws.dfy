/** When a statement that records one timeline row commits, triggered enrolments included. */
module CommitLaws {
  import opened Prelude
  import opened Tables
  import opened Automations
  import opened Triggers
  import opened Cascade
  import opened Runs

  /** Trigger names are made of automation ids, so an automation has at most one. */
  predicate OneTriggerEach(ts: seq<AutomationTrigger>) {
    forall i, j :: 0 <= i < j < |ts| ==> ts[i].automationId != ts[j].automationId
  }

  /** The enrolment this trigger would start violates a constraint: no such automation, or a row at the same instant. */
  predicate Blocked(d: Db, t: AutomationTrigger, email: string, now: Time) {
    && !(t.config.frequency == "once" && (t.automationId, email) in d.triggerLog)
    && (|| t.automationId !in d.enrolled
        || exists e :: e in d.enrolments && e.automationId == t.automationId && e.email == email && e.enteredAt == now)
  }

  lemma EnrolAborts(c: ValidConfig, d: Db, t: AutomationTrigger, email: string, now: Time)
    ensures Enroll(c, d, t.automationId, email, t.rootNodeId, t.config.frequency, now).aborted
       <==> d.aborted || Blocked(d, t, email, now)
  {
    EnrollFlat(c, d, t.automationId, email, t.rootNodeId, t.config.frequency, now);
  }

  /** Enrolling one automation neither blocks nor unblocks another. */
  lemma EnrolKeepsOthers(c: ValidConfig, d: Db, t: AutomationTrigger, other: AutomationTrigger, email: string, now: Time)
    requires other.automationId != t.automationId
    ensures Blocked(Enroll(c, d, t.automationId, email, t.rootNodeId, t.config.frequency, now), other, email, now)
       <==> Blocked(d, other, email, now)
  {
    EnrolAdds(c, d, t, email, now);
    hide Enroll, Blocked;
    SameBlocks(d, Enroll(c, d, t.automationId, email, t.rootNodeId, t.config.frequency, now), t.automationId, other, email, now);
  }

  lemma EnrolAdds(c: ValidConfig, d: Db, t: AutomationTrigger, email: string, now: Time)
    ensures var r := Enroll(c, d, t.automationId, email, t.rootNodeId, t.config.frequency, now);
            && r.enrolled.Keys == d.enrolled.Keys
            && (r.triggerLog == d.triggerLog || r.triggerLog == d.triggerLog + {(t.automationId, email)})
            && (|| r.enrolments == d.enrolments
                || exists x: Enrolment :: x.automationId == t.automationId && r.enrolments == d.enrolments + [x])
  {
    EnrollFlat(c, d, t.automationId, email, t.rootNodeId, t.config.frequency, now);
    hide Enroll, StartRow;
    if !AlreadyTriggered(d, t.automationId, email, t.config.frequency) && MayEnrol(d, t.automationId, email, now) {
      hide MayEnrol, AlreadyTriggered;
      var x := Enrolment(d.nextId, t.automationId, email, t.rootNodeId, "active", now, now, t.config.frequency);
      assert Enroll(c, d, t.automationId, email, t.rootNodeId, t.config.frequency, now).enrolments == d.enrolments + [x];
    }
  }

  /** Another automation's row, counter and log entry change nothing for this one. */
  lemma SameBlocks(d: Db, r: Db, automationId: string, other: AutomationTrigger, email: string, now: Time)
    requires other.automationId != automationId && r.enrolled.Keys == d.enrolled.Keys
    requires r.triggerLog == d.triggerLog || r.triggerLog == d.triggerLog + {(automationId, email)}
    requires || r.enrolments == d.enrolments
             || exists x: Enrolment :: x.automationId == automationId && r.enrolments == d.enrolments + [x]
    ensures Blocked(r, other, email, now) <==> Blocked(d, other, email, now)
  {
  }

  lemma {:induction false} EnrolAllAborts(c: ValidConfig, d: Db, ts: seq<AutomationTrigger>, email: string, now: Time)
    requires OneTriggerEach(ts)
    ensures EnrollAll(c, d, ts, email, now).aborted <==> d.aborted || exists t :: t in ts && Blocked(d, t, email, now)
    decreases |ts|
  {
    hide Enroll, Blocked;
    if ts != [] {
      var d1 := Enroll(c, d, ts[0].automationId, email, ts[0].rootNodeId, ts[0].config.frequency, now);
      EnrolAborts(c, d, ts[0], email, now);
      EnrolAllAborts(c, d1, ts[1..], email, now);
      forall t | t in ts[1..] ensures Blocked(d1, t, email, now) <==> Blocked(d, t, email, now) {
        var i :| 0 <= i < |ts[1..]| && ts[1..][i] == t;
        assert ts[i + 1] == t;
        EnrolKeepsOthers(c, d, ts[0], t, email, now);
      }
      assert ts == [ts[0]] + ts[1..];
    }
  }

  lemma FiredAre(ts: seq<AutomationTrigger>, row: TimelineRow)
    ensures forall t :: t in Fired(ts, row) <==> t in ts && Fires(t.config, row)
    ensures OneTriggerEach(ts) ==> OneTriggerEach(Fired(ts, row))
  {
    SelectMembers(ts, (t: AutomationTrigger) => Fires(t.config, row));
    if OneTriggerEach(ts) {
      FiredOnce(ts, row);
    }
  }

  lemma {:induction false} FiredOnce(ts: seq<AutomationTrigger>, row: TimelineRow)
    requires OneTriggerEach(ts)
    ensures OneTriggerEach(Fired(ts, row))
  {
    hide Fires;
    if ts != [] {
      FiredOnce(ts[1..], row);
      SelectMembers(ts[1..], (t: AutomationTrigger) => Fires(t.config, row));
      var rest := Fired(ts[1..], row);
      forall j | 0 <= j < |rest| ensures rest[j].automationId != ts[0].automationId {
        assert rest[j] in ts[1..];
      }
    }
  }

  /** Nothing the row sets off is blocked. */
  ghost predicate FreeToStart(c: Config, d: Db, row: TimelineRow) {
    forall t :: t in c.triggers && Fires(t.config, row) ==> !Blocked(d, t, row.email, row.insertedAt)
  }

  /**
   A statement whose own trigger records one row, and that suppresses nothing, commits if
   and only if its key is new, the row's kind fits its column and none of the automations
   the row starts is blocked.
   */
  lemma OneRowCommitsIff(d: Db, step: Step, row: TimelineRow)
    requires !d.aborted && OneTriggerEach(Fired(step.c.triggers, row))
    requires !step.statement.EnrolContact? && !step.statement.UpdateMessage?
    requires RowsOf(d, step.statement, step.now) == [row]
    ensures Commits(d, step)
       <==> !PrimaryKeyClash(d, step.statement) && |row.kind| <= KIND_WIDTH && FreeToStart(step.c, d, row)
  {
    var c, s := step.c, step.statement;
    if !PrimaryKeyClash(d, s) {
      PlainStatement(c, d, s, step.now);
      RowsAreSource(d, s, step.now);
      OneRowAborts(c, Direct(d, s), row);
      DirectKeepsLogs(d, s);
      SameFreedom(c, d, Direct(d, s), row);
      assert [row][1..] == [];
    }
  }

  /** Only the enrolment tables can block. */
  lemma SameFreedom(c: Config, d: Db, r: Db, row: TimelineRow)
    requires r.triggerLog == d.triggerLog && r.enrolled == d.enrolled && r.enrolments == d.enrolments
    ensures FreeToStart(c, d, row) <==> FreeToStart(c, r, row)
  {
    hide Fires;
    forall t: AutomationTrigger ensures Blocked(d, t, row.email, row.insertedAt) == Blocked(r, t, row.email, row.insertedAt) {
    }
  }

  lemma OneRowAborts(c: ValidConfig, d: Db, row: TimelineRow)
    requires !d.aborted && OneTriggerEach(Fired(c.triggers, row))
    ensures InsertTimeline(c, d, row).aborted <==> |row.kind| > KIND_WIDTH || !FreeToStart(c, d, row)
  {
    hide Fires, Blocked, Fired;
    var d1, ts := StoreRow(d, row), Fired(c.triggers, row);
    FiredAre(c.triggers, row);
    SameFreedom(c, d, d1, row);
    EnrolAllAborts(c, d1, ts, row.email, row.insertedAt);
    if row.kind == START_KIND {
      StartFiresNothing(c, row);
    }
  }

  /** The row an inserted custom event records. */
  function EventRow(s: Statement, now: Time): TimelineRow
    requires s.InsertEvent?
  {
    EventRows(s.name, s.externalId, Inserted(s.event), now)[0]
  }

  /** The trigger waits for this event by name, and its condition holds of it. */
  predicate WaitsFor(t: TriggerConfig, s: Statement, now: Time)
    requires s.InsertEvent?
  {
    t.eventKind == "custom_event" && t.customEventName == Some(s.name) && t.condition(EventRow(s, now))
  }

  lemma WaitingFires(step: Step)
    requires step.statement.InsertEvent?
    ensures var row := EventRow(step.statement, step.now);
            && row.email == step.statement.event.email && row.insertedAt == step.now
            && forall t :: t in step.c.triggers ==> (Fires(t.config, row) <==> WaitsFor(t.config, step.statement, step.now))
  {
    var s, row := step.statement, EventRow(step.statement, step.now);
    assert row.kind == CUSTOM_PREFIX + s.name;
    forall t | t in step.c.triggers ensures Fires(t.config, row) <==> WaitsFor(t.config, s, step.now) {
      NamedKinds(t.config, s.name);
    }
  }

  lemma NamedKinds(t: TriggerConfig, name: string)
    requires Validate(t) == None
    ensures ListenedKind(t) == CUSTOM_PREFIX + name <==> t.eventKind == "custom_event" && t.customEventName == Some(name)
    ensures t.eventKind == "custom_event" ==> !("list." <= t.eventKind) && !("segment." <= t.eventKind)
  {
    if t.eventKind == "custom_event" {
      assert t.eventKind[0] == 'c';
      assert ListenedKind(t)[13..] == t.customEventName.value && (CUSTOM_PREFIX + name)[13..] == name;
    } else {
      PlainKinds(t.eventKind);
      hide Validate, VALID_EVENT_KINDS;
      assert (CUSTOM_PREFIX + name)[1] == 'u';
    }
  }

  lemma PlainKinds(kind: string)
    requires kind in VALID_EVENT_KINDS && kind != "custom_event"
    ensures |kind| > 1 && kind[1] != 'u'
  {
  }

  lemma EventRecords(d: Db, step: Step)
    requires step.statement.InsertEvent?
    ensures var s := step.statement;
            && RowsOf(d, s, step.now) == [EventRow(s, step.now)]
            && |EventRow(s, step.now).kind| == 13 + |s.name|
            && (PrimaryKeyClash(d, s) <==> (s.name, s.externalId) in d.events)
  {
  }

  /**
   custom_events accepts names of up to 100 characters, but "custom_event." + name must fit
   the 50 of contact_timeline.kind: an insertion commits if and only if the name has at most
   37, the key is new, and no automation waiting for the event is blocked.
   */
  lemma InsertEventCommitsIff(d: Db, step: Step)
    requires step.statement.InsertEvent? && !d.aborted && OneTriggerEach(step.c.triggers)
    ensures Commits(d, step)
       <==> && |step.statement.name| <= 37
            && (step.statement.name, step.statement.externalId) !in d.events
            && forall t :: t in step.c.triggers && WaitsFor(t.config, step.statement, step.now) ==>
                 !Blocked(d, t, step.statement.event.email, step.now)
  {
    WaitingFires(step);
    hide WaitsFor, Fires, Blocked, WellConfigured;
    hide Commits, RowsOf, EventRow, PrimaryKeyClash, FreeToStart, Fired;
    EventRecords(d, step);
    FiredAre(step.c.triggers, EventRow(step.statement, step.now));
    OneRowCommitsIff(d, step, EventRow(step.statement, step.now));
  }

  /** Without a waiting automation, the name and the key alone decide. */
  lemma UnheardEventCommitsIff(d: Db, step: Step)
    requires step.statement.InsertEvent? && !d.aborted
    requires forall t :: t in step.c.triggers ==> !WaitsFor(t.config, step.statement, step.now)
    ensures var s := step.statement;
            Commits(d, step) <==> |s.name| <= 37 && (s.name, s.externalId) !in d.events
  {
    WaitingFires(step);
    hide WaitsFor, WellConfigured;
    hide Commits, RowsOf, EventRow, PrimaryKeyClash, Fires, Blocked, Fired;
    EventRecords(d, step);
    FiredAre(step.c.triggers, EventRow(step.statement, step.now));
    OneRowCommitsIff(d, step, EventRow(step.statement, step.now));
  }

  /** A row of its own too wide for the column keeps any statement from committing. */
  lemma WideRowNeverCommits(d: Db, step: Step)
    requires exists x :: x in RowsOf(d, step.statement, step.now) && |x.kind| > KIND_WIDTH
    ensures !Commits(d, step)
  {
    hide InsertAll, SuppressAll, Outgoing, WebhookOf;
    var c, s, now := step.c, step.statement, step.now;
    if !PrimaryKeyClash(d, s) {
      var d0, rows, t := Direct(d, s), RowsOf(d, s, now), TargetOf(d, s);
      var i :| 0 <= i < |rows| && |rows[i].kind| > KIND_WIDTH;
      RowsAreSource(d, s, now);
      WideKindAborts(c, d0, rows, i);
      SuppressAllShows(c, InsertAll(c, d0, rows), t.email, t.listId, t.suppressions, now);
    }
  }

  /** Whatever the automations: an event whose name is longer than 37 is never stored. */
  lemma LongEventNamesAreRejected(d: Db, step: Step)
    requires step.statement.InsertEvent? && |step.statement.name| > 37
    ensures !Commits(d, step) && Exec(d, step) == d
  {
    assert EventRow(step.statement, step.now) in RowsOf(d, step.statement, step.now);
    WideRowNeverCommits(d, step);
  }
}
