/** Which validated automation triggers some run can start, and which none ever does. */
module LiveTriggers {
  import opened Prelude
  import opened Diffs
  import opened Tables
  import opened Automations
  import opened Triggers
  import opened Cascade
  import opened Runs
  import opened CommitLaws

  // ---------- kinds that no cascade writes ----------

  /** contact.deleted and the email.* kinds, the only valid trigger kinds that begin with an e. */
  predicate DeadKind(kind: string) {
    kind == "contact.deleted" || (kind != "" && kind[0] == 'e')
  }

  lemma DeadValidKinds(kind: string)
    requires IsValidEventKind(kind)
    ensures DeadKind(kind) <==> kind == "contact.deleted" || "email." <= kind
  {
  }

  /** What every row some statement writes has in common: no dead kind, and updates name tracked columns. */
  predicate Writable(x: TimelineRow) {
    && !DeadKind(x.kind)
    && (x.kind == "contact.updated" ==> x.changes.FieldChanges? && x.changes.fields.Keys <= Columns(TRACKED_COLUMNS))
  }

  lemma PrefixedIsWritable(prefix: string, rest: string, x: TimelineRow)
    requires prefix in ["open_", "click_", "bounce_", "complain_", "unsubscribe_", CUSTOM_PREFIX]
    requires x.kind == prefix + rest
    ensures Writable(x)
  {
    assert x.kind[0] == prefix[0] && x.kind[1] == prefix[1] && x.kind[2] == prefix[2];
    assert "contact.deleted"[0] == 'c' && "contact.deleted"[1] == 'o' && "contact.deleted"[2] == 'n';
    assert "contact.updated"[0] == 'c' && "contact.updated"[1] == 'o' && "contact.updated"[2] == 'n';
    assert prefix[0] == 'c' && prefix[1] == 'o' ==> prefix[2] == 'm';
  }

  lemma LiteralsAreWritable(x: TimelineRow)
    requires x.kind in ["contact.created", "insert_message_history", "update_message_history",
                        "insert_inbound_webhook_event", "segment.joined", "segment.left", START_KIND]
    ensures Writable(x)
  {
  }

  lemma EngagementIsWritable(id: string, m: Message, prefix: string, column: string,
                             before: Option<Time>, after: Option<Time>, now: Time)
    requires prefix in ["open_", "click_", "bounce_", "complain_", "unsubscribe_"]
    ensures forall x :: x in EngagementRows(id, m, prefix, column, before, after, now) ==> Writable(x)
  {
    var rows := EngagementRows(id, m, prefix, column, before, after, now);
    if rows != [] {
      PrefixedIsWritable(prefix, m.channel, rows[0]);
    }
  }

  lemma MessageRowsAreWritable(id: string, b: Message, m: Message, now: Time)
    ensures forall x :: x in MessageRows(id, Updated(b, m), now) ==> Writable(x)
  {
    hide Writable;
    EngagementIsWritable(id, m, "open_", "opened_at", b.openedAt, m.openedAt, now);
    EngagementIsWritable(id, m, "click_", "clicked_at", b.clickedAt, m.clickedAt, now);
    EngagementIsWritable(id, m, "bounce_", "bounced_at", b.bouncedAt, m.bouncedAt, now);
    EngagementIsWritable(id, m, "complain_", "complained_at", b.complainedAt, m.complainedAt, now);
    EngagementIsWritable(id, m, "unsubscribe_", "unsubscribed_at", b.unsubscribedAt, m.unsubscribedAt, now);
    forall x | x in StatusRows(id, b, m, now) ensures Writable(x) {
      LiteralsAreWritable(x);
    }
    hide EngagementRows, StatusRows;
  }

  lemma ListRowsAreWritable(email: string, listId: string, e: RowEvent<ListRow>, now: Time)
    ensures forall x :: x in ListRows(email, listId, e, now) ==> Writable(x) && |x.kind| <= KIND_WIDTH
    ensures forall x :: x in ListRows(email, listId, e, now) ==> x.kind != "contact.updated"
  {
  }

  lemma ContactRowsAreWritable(email: string, e: RowEvent<Contact>, now: Time)
    ensures forall x :: x in ContactRows(email, e, now) ==> Writable(x)
  {
    forall x | x in ContactRows(email, e, now) ensures Writable(x) {
      if e.Inserted? {
        LiteralsAreWritable(x);
      } else {
        assert x.changes == FieldChanges(ContactDiff(e.before, e.after));
      }
    }
  }

  lemma RowsAreWritable(d: Db, s: Statement, now: Time)
    ensures forall x :: x in RowsOf(d, s, now) ==> Writable(x)
  {
    hide Writable;
    forall x | x in RowsOf(d, s, now) ensures Writable(x) {
      if s.InsertContact? {
        ContactRowsAreWritable(s.email, Inserted(s.contact), now);
      } else if s.UpdateContact? {
        ContactRowsAreWritable(s.email, Updated(d.contacts[s.email], s.contact), now);
      } else if s.InsertList? {
        ListRowsAreWritable(s.email, s.listId, Inserted(s.row), now);
      } else if s.UpdateList? {
        ListRowsAreWritable(s.email, s.listId, Updated(d.lists[(s.email, s.listId)], s.row), now);
      } else if s.UpdateMessage? {
        MessageRowsAreWritable(s.id, d.messages[s.id], s.message, now);
      } else if s.InsertEvent? || s.UpdateEvent? {
        PrefixedIsWritable(CUSTOM_PREFIX, s.name, x);
      } else {
        LiteralsAreWritable(x);
      }
    }
  }

  lemma {:induction false} SuppressionIsWritable(c: ValidConfig, lists: map<(string, string), ListRow>, email: string,
                                                 listId: Option<string>, ss: seq<Suppression>, now: Time)
    ensures forall x :: x in SuppressAllEffect(c, lists, email, listId, ss, now).rows ==>
              Writable(x) && |x.kind| <= KIND_WIDTH
    decreases |ss|
  {
    hide Writable;
    if ss != [] && listId != None {
      var first := SuppressEffect(c, lists, email, listId.value, ss[0], now);
      if (email, listId.value) in lists {
        var b := lists[(email, listId.value)];
        ListRowsAreWritable(email, listId.value, Updated(b, b.(status := ss[0].status, updatedAt := ss[0].at)), now);
      }
      SuppressionIsWritable(c, first.lists, email, listId, ss[1..], now);
    }
  }

  lemma EffectIsWritable(d: Db, step: Step)
    requires Commits(d, step)
    ensures forall x :: x in EffectOf(d, step).rows ==> Writable(x) && |x.kind| <= KIND_WIDTH
  {
    var t := TargetOf(d, step.statement);
    RowsAreWritable(d, step.statement, step.now);
    SuppressionIsWritable(step.c, Direct(d, step.statement).lists, t.email, t.listId, t.suppressions, step.now);
    hide Writable, Commits, RowsOf, TargetOf, SuppressAllEffect, Direct, WebhookOf, Outgoing;
    forall x | x in RowsOf(d, step.statement, step.now) ensures |x.kind| <= KIND_WIDTH {
      if |x.kind| > KIND_WIDTH {
        WideRowNeverCommits(d, step);
      }
    }
  }

  /** Every row a committed statement adds, enrolments included, is writable and fits its column. */
  lemma StepWritesWritable(d: Db, step: Step)
    requires Commits(d, step)
    ensures d.timeline <= Exec(d, step).timeline
    ensures forall x :: x in Added(d.timeline, Exec(d, step).timeline) ==> Writable(x) && |x.kind| <= KIND_WIDTH
  {
    hide Writable, Commits, Exec, EffectOf;
    StepEffect(d, step);
    EffectIsWritable(d, step);
    var added := Added(d.timeline, Exec(d, step).timeline);
    SelectMembers(added, IsSource());
    forall x | x in added ensures Writable(x) && |x.kind| <= KIND_WIDTH {
      if x.entity.AutomationEntity? {
        LiteralsAreWritable(x);
      }
    }
  }

  // ---------- the condition ----------

  /** What a validated trigger must look like for anything to start it. */
  predicate CanStart(t: TriggerConfig) {
    && Generates(t)
    && !DeadKind(t.eventKind)
    && (t.eventKind == "custom_event" && t.customEventName.Some? ==> |t.customEventName.value| <= 37)
    && (t.eventKind == "contact.updated" && t.updatedFields != [] ==>
          exists f :: f in t.updatedFields && f in TRACKED_COLUMNS)
  }

  lemma UnstartableRejects(t: TriggerConfig, x: TimelineRow)
    requires Validate(t) == None && Generates(t) && !CanStart(t)
    requires Writable(x) && |x.kind| <= KIND_WIDTH
    ensures !Fires(t, x)
  {
    if t.eventKind == "contact.updated" && x.kind == "contact.updated" {
      forall f | f in t.updatedFields ensures !ChangesMention(x.changes, f) {
        assert f !in Columns(TRACKED_COLUMNS);
      }
    }
  }

  /**
   No run, from any database, adds a row that fires a trigger outside the condition: the
   eight dead kinds, events whose names do not fit, and updates of untracked columns only.
   */
  lemma {:induction false} DeadTriggersNeverFire(d: Db, steps: seq<Step>, t: TriggerConfig)
    requires Validate(t) == None && Generates(t) && !CanStart(t)
    ensures d.timeline <= Run(d, steps).timeline
    ensures forall x :: x in Added(d.timeline, Run(d, steps).timeline) ==> !Fires(t, x)
    decreases |steps|
  {
    hide Validate, Generates, CanStart, Fires, Writable, Commits;
    if steps == [] {
      assert Added(d.timeline, d.timeline) == [];
    } else {
      var d1, r := Exec(d, steps[0]), Run(d, steps);
      StepNeverFires(d, steps[0], t);
      DeadTriggersNeverFire(d1, steps[1..], t);
      AddedCompose(d.timeline, d1.timeline, r.timeline);
    }
  }

  lemma StepNeverFires(d: Db, step: Step, t: TriggerConfig)
    requires Validate(t) == None && Generates(t) && !CanStart(t)
    ensures d.timeline <= Exec(d, step).timeline
    ensures forall x :: x in Added(d.timeline, Exec(d, step).timeline) ==> !Fires(t, x)
  {
    hide Validate, Generates, CanStart, Fires, Writable, Commits;
    if Commits(d, step) {
      StepWritesWritable(d, step);
      forall x | x in Added(d.timeline, Exec(d, step).timeline) ensures !Fires(t, x) {
        UnstartableRejects(t, x);
      }
    } else {
      assert Added(d.timeline, Exec(d, step).timeline) == [];
    }
  }

  // ---------- a run for every other trigger ----------

  /** A workspace with nothing but one automation, called a. */
  const EMPTY := Db(map[], map[], map[], map[], map[], map[], [], map[], [], map["a" := 0], [], {}, [], 0, false)

  function Quiet(): ValidConfig {
    Config([], [], map[], map[])
  }

  function Live(t: TriggerConfig): ValidConfig
    requires Validate(t) == None && Generates(t)
  {
    Config([AutomationTrigger("a", "r", t)], [], map[], map[])
  }

  /** The trigger is live at the last step of the run, which adds a row that fires it and so enrols a contact. */
  ghost predicate StartedBy(t: TriggerConfig, steps: seq<Step>) {
    steps != []
    && var n := |steps| - 1;
       var before, after := Run(EMPTY, steps[..n]), Run(EMPTY, steps);
       && (exists a :: a in steps[n].c.triggers && a.config == t)
       && before.timeline <= after.timeline
       && (exists x :: x in Added(before.timeline, after.timeline) && Fires(t, x))
       && |after.enrolments| > |before.enrolments|
  }

  /** One ordinary row, of a statement that can commit. */
  predicate Records(d: Db, step: Step, row: TimelineRow) {
    && !step.statement.EnrolContact? && !step.statement.UpdateMessage? && !PrimaryKeyClash(d, step.statement)
    && RowsOf(d, step.statement, step.now) == [row]
    && |row.kind| <= KIND_WIDTH && row.kind != START_KIND
  }

  predicate NothingEnrolled(d: Db) {
    !d.aborted && d.enrolled == map["a" := 0] && d.enrolments == [] && d.triggerLog == {}
  }

  lemma RecordedCascade(d: Db, step: Step, row: TimelineRow)
    requires Records(d, step, row)
    ensures Apply(step.c, d, step.statement, step.now)
         == Deliver(step.c, InsertTimeline(step.c, Direct(d, step.statement), row), WebhookOf(step.c, d, step.statement))
  {
    hide RowsOf, Direct, WebhookOf, InsertTimeline, PrimaryKeyClash;
    PlainStatement(step.c, d, step.statement, step.now);
    assert [row][1..] == [];
  }

  /** With no automation live, the row is recorded and nobody is enrolled. */
  lemma QuietStep(d: Db, step: Step, row: TimelineRow)
    requires step.c == Quiet() && NothingEnrolled(d) && Records(d, step, row)
    ensures Commits(d, step) && NothingEnrolled(Exec(d, step))
    ensures var r, r0 := Exec(d, step), Direct(d, step.statement);
            r.contacts == r0.contacts && r.lists == r0.lists && r.members == r0.members
  {
    hide RowsOf, WebhookOf, PrimaryKeyClash, Requeues, Outgoing;
    DirectKeepsLogs(d, step.statement);
    RecordedCascade(d, step, row);
    QuietInsert(Direct(d, step.statement), row);
    hide Direct, Apply, Records, InsertTimeline;
  }

  lemma QuietInsert(d: Db, row: TimelineRow)
    requires NothingEnrolled(d) && |row.kind| <= KIND_WIDTH
    ensures var r := InsertTimeline(Quiet(), d, row);
            NothingEnrolled(r) && r.contacts == d.contacts && r.lists == d.lists && r.members == d.members
  {
    hide Requeues;
    assert InsertTimeline(Quiet(), d, row) == Requeue(StoreRow(d, row), row);
  }

  /** With the trigger live, the row starts its automation. */
  lemma LiveStep(d: Db, step: Step, t: TriggerConfig, row: TimelineRow)
    requires Validate(t) == None && Generates(t) && step.c == Live(t)
    requires NothingEnrolled(d) && Records(d, step, row) && Fires(t, row)
    ensures Commits(d, step) && d.timeline <= Exec(d, step).timeline
    ensures row in Added(d.timeline, Exec(d, step).timeline)
    ensures |Exec(d, step).enrolments| == 1
  {
    hide Validate, Generates, Fires, RowsOf, WebhookOf, PrimaryKeyClash, Outgoing;
    var r0 := Direct(d, step.statement);
    DirectKeepsLogs(d, step.statement);
    RecordedCascade(d, step, row);
    hide Direct, Records, Requeues;
    var a := AutomationTrigger("a", "r", t);
    LiveInsert(step.c, r0, a, row);
    InsertTimelineEffect(step.c, r0, row);
    hide InsertTimeline;
    assert Added(d.timeline, Exec(d, step).timeline)[0] == row;
  }

  lemma LiveInsert(c: ValidConfig, d: Db, a: AutomationTrigger, row: TimelineRow)
    requires c.triggers == [a] && a.automationId == "a" && Fires(a.config, row)
    requires NothingEnrolled(d) && |row.kind| <= KIND_WIDTH && row.kind != START_KIND
    ensures var r := InsertTimeline(c, d, row); !r.aborted && |r.enrolments| == 1
  {
    hide Fires, Requeues;
    assert [a][1..] == [] && Fired([a], row) == [a];
    var d1 := StoreRow(d, row);
    EnrollFlat(c, d1, "a", row.email, a.rootNodeId, a.config.frequency, row.insertedAt);
    var r := Enroll(c, d1, "a", row.email, a.rootNodeId, a.config.frequency, row.insertedAt);
    hide Enroll;
    assert EnrollAll(c, r, [], row.email, row.insertedAt) == r;
  }

  lemma OneStep(step: Step, t: TriggerConfig, row: TimelineRow)
    requires Validate(t) == None && Generates(t) && step.c == Live(t)
    requires Records(EMPTY, step, row) && Fires(t, row)
    ensures StartedBy(t, [step])
  {
    hide Validate, Generates, Fires, Records, Commits, Exec;
    LiveStep(EMPTY, step, t, row);
    assert [step][1..] == [] && [step][..0] == [];
    assert Run(EMPTY, [step]) == Exec(EMPTY, step);
    assert Live(t).triggers[0] in step.c.triggers;
  }

  lemma TwoSteps(first: Step, early: TimelineRow, last: Step, t: TriggerConfig, row: TimelineRow)
    requires Validate(t) == None && Generates(t) && first.c == Quiet() && last.c == Live(t)
    requires Records(EMPTY, first, early) && Records(Exec(EMPTY, first), last, row) && Fires(t, row)
    ensures StartedBy(t, [first, last])
  {
    hide Validate, Generates, Fires, Records, Commits, Exec;
    QuietStep(EMPTY, first, early);
    var d := Exec(EMPTY, first);
    LiveStep(d, last, t, row);
    assert [first, last][1..] == [last] && [last][1..] == [] && [first, last][..1] == [first] && [first][1..] == [];
    assert Run(EMPTY, [first]) == d;
    assert Run(d, [last]) == Exec(d, last) == Run(EMPTY, [first, last]);
    assert Live(t).triggers[0] in last.c.triggers;
  }

  const SOMEONE := Contact(map[], 0, 0)

  lemma ContactWitness(t: TriggerConfig) returns (steps: seq<Step>)
    requires Validate(t) == None && CanStart(t) && forall x :: t.condition(x)
    requires t.eventKind == "contact.created" || t.eventKind == "contact.updated"
    ensures StartedBy(t, steps)
  {
    hide StartedBy;
    if t.eventKind == "contact.created" {
      var step := Step(Live(t), 0, InsertContact("e", SOMEONE));
      OneStep(step, t, ContactRows("e", Inserted(SOMEONE), 0)[0]);
      steps := [step];
    } else if t.updatedFields == [] {
      steps := UpdateWitness(t, "phone");
    } else {
      var f :| f in t.updatedFields && f in TRACKED_COLUMNS;
      steps := UpdateWitness(t, f);
    }
  }

  lemma UpdateWitness(t: TriggerConfig, f: string) returns (steps: seq<Step>)
    requires Validate(t) == None && Generates(t) && forall x :: t.condition(x)
    requires t.eventKind == "contact.updated" && f in TRACKED_COLUMNS && (t.updatedFields == [] || f in t.updatedFields)
    ensures StartedBy(t, steps)
  {
    hide StartedBy, Validate, Generates, Commits, Exec, TRACKED_COLUMNS, ContactDiff;
    var changed := Contact(map[f := JBool(true)], 0, 0);
    var first, last := Step(Quiet(), 0, InsertContact("e", SOMEONE)), Step(Live(t), 1, UpdateContact("e", changed));
    var created := ContactRows("e", Inserted(SOMEONE), 0)[0];
    SomethingChanged(f, changed);
    QuietStep(EMPTY, first, created);
    var row := ContactRows("e", Updated(SOMEONE, changed), 1)[0];
    assert ChangesMention(row.changes, f);
    assert "contact.updated"[0] == 'c' && "list."[0] == 'l' && "segment."[0] == 's';
    TwoSteps(first, created, last, t, row);
    steps := [first, last];
  }

  lemma SomethingChanged(f: string, changed: Contact)
    requires f in TRACKED_COLUMNS && f in changed.cells
    ensures f in ContactDiff(SOMEONE, changed)
  {
    hide TRACKED_COLUMNS;
  }

  lemma InsertedListWitness(t: TriggerConfig, status: string) returns (steps: seq<Step>)
    requires Validate(t) == None && CanStart(t) && forall x :: t.condition(x)
    requires "list." <= t.eventKind && t.eventKind == InsertedListKind(status)
    ensures StartedBy(t, steps)
  {
    hide StartedBy;
    var r := ListRow(status, None, 0);
    var step := Step(Live(t), 0, InsertList("e", t.listId.value, r));
    OneStep(step, t, ListRows("e", t.listId.value, Inserted(r), 0)[0]);
    steps := [step];
  }

  lemma FiresOnEntity(t: TriggerConfig, row: TimelineRow)
    requires forall x :: t.condition(x)
    requires row.kind == t.eventKind
    requires ("list." <= t.eventKind && row.entityId == t.listId) || ("segment." <= t.eventKind && row.entityId == t.segmentId)
    ensures Fires(t, row)
  {
    assert t.eventKind[0] == 'l' || t.eventKind[0] == 's';
  }

  lemma ListChangeRecords(d: Db, step: Step, row: TimelineRow)
    requires step.statement.UpdateList? && (step.statement.email, step.statement.listId) in d.lists
    requires ListRows(step.statement.email, step.statement.listId,
                      Updated(d.lists[(step.statement.email, step.statement.listId)], step.statement.row), step.now) == [row]
    ensures Records(d, step, row)
  {
  }

  lemma UpdatedListWitness(t: TriggerConfig, before: string, after: ListRow) returns (steps: seq<Step>)
    requires Validate(t) == None && CanStart(t) && forall x :: t.condition(x)
    requires "list." <= t.eventKind
    requires var rows := ListRows("e", t.listId.value, Updated(ListRow(before, None, 0), after), 1);
             |rows| == 1 && rows[0].kind == t.eventKind
    ensures StartedBy(t, steps)
  {
    hide StartedBy, Commits, Exec, CanStart, Fires;
    var id, b := t.listId.value, ListRow(before, None, 0);
    var first, last := Step(Quiet(), 0, InsertList("e", id, b)), Step(Live(t), 1, UpdateList("e", id, after));
    var early, row := ListRows("e", id, Inserted(b), 0)[0], ListRows("e", id, Updated(b, after), 1)[0];
    FiresOnEntity(t, row);
    QuietStep(EMPTY, first, early);
    hide ListRows, RowsOf;
    ListChangeRecords(Exec(EMPTY, first), last, row);
    TwoSteps(first, early, last, t, row);
    steps := [first, last];
  }

  lemma ListKinds(kind: string)
    requires IsValidEventKind(kind) && "list." <= kind
    ensures kind in ["list.subscribed", "list.pending", "list.unsubscribed", "list.bounced", "list.complained",
                     "list.confirmed", "list.resubscribed", "list.removed"]
  {
    assert kind[0] == 'l';
  }

  lemma ListWitness(t: TriggerConfig) returns (steps: seq<Step>)
    requires Validate(t) == None && CanStart(t) && forall x :: t.condition(x)
    requires "list." <= t.eventKind
    ensures StartedBy(t, steps)
  {
    hide CanStart, StartedBy;
    ListKinds(t.eventKind);
    match t.eventKind
    case "list.subscribed" => steps := InsertedListWitness(t, "active");
    case "list.pending" => steps := InsertedListWitness(t, "pending");
    case "list.unsubscribed" => steps := InsertedListWitness(t, "unsubscribed");
    case "list.bounced" => steps := InsertedListWitness(t, "bounced");
    case "list.complained" => steps := InsertedListWitness(t, "complained");
    case "list.confirmed" => steps := UpdatedListWitness(t, "pending", ListRow("active", None, 1));
    case "list.resubscribed" => steps := UpdatedListWitness(t, "bounced", ListRow("active", None, 1));
    case _ =>
      assert t.eventKind == "list.removed";
      steps := UpdatedListWitness(t, "active", ListRow("active", Some(1), 1));
  }

  lemma JoinedWitness(t: TriggerConfig) returns (steps: seq<Step>)
    requires Validate(t) == None && CanStart(t) && forall x :: t.condition(x)
    requires t.eventKind == "segment.joined"
    ensures StartedBy(t, steps)
  {
    hide StartedBy, Fires;
    var id, m := t.segmentId.value, Member(0, 0);
    var step := Step(Live(t), 0, InsertMember("e", id, m));
    var row := SegmentRows("e", id, Inserted(m), 0)[0];
    FiresOnEntity(t, row);
    OneStep(step, t, row);
    steps := [step];
  }

  lemma LeftWitness(t: TriggerConfig) returns (steps: seq<Step>)
    requires Validate(t) == None && CanStart(t) && forall x :: t.condition(x)
    requires t.eventKind == "segment.left"
    ensures StartedBy(t, steps)
  {
    hide StartedBy, Commits, Exec, Fires;
    var id, m := t.segmentId.value, Member(0, 0);
    var first, last := Step(Quiet(), 0, InsertMember("e", id, m)), Step(Live(t), 1, DeleteMember("e", id));
    var early, row := SegmentRows("e", id, Inserted(m), 0)[0], SegmentRows("e", id, Deleted(m), 1)[0];
    FiresOnEntity(t, row);
    QuietStep(EMPTY, first, early);
    TwoSteps(first, early, last, t, row);
    steps := [first, last];
  }

  lemma EventWitness(t: TriggerConfig) returns (steps: seq<Step>)
    requires Validate(t) == None && CanStart(t) && forall x :: t.condition(x)
    requires t.eventKind == "custom_event"
    ensures StartedBy(t, steps)
  {
    var event := CustomEvent("e", map[], 0, None, None, None, None);
    var step := Step(Live(t), 0, InsertEvent(t.customEventName.value, "x", event));
    var row := EventRow(step.statement, 0);
    CustomKindsDiffer(t.customEventName.value, START_KIND);
    OneStep(step, t, row);
    steps := [step];
  }

  /** Some run starts every trigger that meets the condition. */
  lemma Witness(t: TriggerConfig) returns (steps: seq<Step>)
    requires Validate(t) == None && CanStart(t) && forall x :: t.condition(x)
    ensures StartedBy(t, steps)
  {
    hide StartedBy;
    if t.eventKind == "contact.created" || t.eventKind == "contact.updated" {
      steps := ContactWitness(t);
    } else if t.eventKind == "custom_event" {
      steps := EventWitness(t);
    } else if t.eventKind == "segment.joined" {
      steps := JoinedWitness(t);
    } else if t.eventKind == "segment.left" {
      steps := LeftWitness(t);
    } else {
      steps := ListWitness(t);
    }
  }

  /**
   A validated trigger without further conditions is started by some run if and only if its
   kind is none of the eight dead ones, its event name fits, its fields may be named, and
   at least one of them is tracked.
   */
  lemma StartableIff(t: TriggerConfig)
    requires Validate(t) == None && forall x :: t.condition(x)
    ensures (exists steps: seq<Step> :: StartedBy(t, steps)) <==> CanStart(t)
  {
    hide CanStart, Validate, Fires;
    if CanStart(t) {
      var steps := Witness(t);
    }
    if steps: seq<Step> :| StartedBy(t, steps) {
      if Generates(t) && !CanStart(t) {
        NotStartedBy(t, steps);
      }
      if !Generates(t) {
        assert WellConfigured(steps[|steps| - 1].c);
      }
    }
  }

  lemma NotStartedBy(t: TriggerConfig, steps: seq<Step>)
    requires Validate(t) == None && Generates(t) && !CanStart(t)
    ensures !StartedBy(t, steps)
  {
    hide CanStart, Validate, Fires, Generates, Exec;
    if steps != [] {
      var n := |steps| - 1;
      RunLast(EMPTY, steps, |steps|);
      assert steps[..|steps|] == steps;
      StepNeverFires(Run(EMPTY, steps[..n]), steps[n], t);
    }
  }
}
