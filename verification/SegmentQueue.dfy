/** The recomputation queue agrees exactly with the timeline, over every run. */
module SegmentQueue {
  import opened Prelude
  import opened Tables
  import opened Automations
  import opened Triggers
  import opened Cascade
  import opened Runs

  /** Any row about the contact but the two about its segment memberships. */
  predicate Calls(x: TimelineRow, email: string) {
    x.email == email && x.kind != "segment.joined" && x.kind != "segment.left"
  }

  lemma CallsRequeue(x: TimelineRow, email: string)
    ensures Calls(x, email) <==> x.email == email && Requeues(x.kind)
  {
  }

  /** Some of these rows asks for the contact's segments to be recomputed. */
  ghost predicate Called(rows: seq<TimelineRow>, email: string) {
    exists x :: x in rows && Calls(x, email)
  }

  /** When the latest such row was inserted. */
  function LastCall(rows: seq<TimelineRow>, email: string): Option<Time> {
    if rows == [] then None
    else if Calls(rows[|rows| - 1], email) then Some(rows[|rows| - 1].insertedAt)
    else LastCall(rows[..|rows| - 1], email)
  }

  lemma {:induction false} LastCallAppend(a: seq<TimelineRow>, b: seq<TimelineRow>, email: string)
    ensures LastCall(a + b, email) == if LastCall(b, email) != None then LastCall(b, email) else LastCall(a, email)
  {
    if b == [] {
      assert a + b == a;
    } else {
      assert (a + b)[..|a + b| - 1] == a + b[..|b| - 1];
      LastCallAppend(a, b[..|b| - 1], email);
    }
  }

  lemma {:induction false} LastCallExists(rows: seq<TimelineRow>, email: string)
    ensures LastCall(rows, email) != None <==> Called(rows, email)
    ensures LastCall(rows, email) != None ==>
              exists x :: x in rows && Calls(x, email) && LastCall(rows, email) == Some(x.insertedAt)
  {
    if rows != [] {
      var front, last := rows[..|rows| - 1], rows[|rows| - 1];
      assert rows == front + [last];
      LastCallExists(front, email);
    }
  }

  /** Rows called for the contact, and it is queued as of now; or none did, and its entry is as before. */
  ghost predicate QueuedBy(before: map<string, Time>, rows: seq<TimelineRow>, after: map<string, Time>, now: Time, email: string) {
    if Called(rows, email) then email in after && after[email] == now
    else (email in after <==> email in before) && (email in before ==> after[email] == before[email])
  }

  /** Within one statement the queue has followed the rows inserted so far. */
  ghost predicate Follows(d: Db, r: Db, now: Time) {
    && d.timeline <= r.timeline
    && (forall x :: x in Added(d.timeline, r.timeline) ==> x.insertedAt == now)
    && forall e :: QueuedBy(d.queue, Added(d.timeline, r.timeline), r.queue, now, e)
  }

  lemma CalledAppend(p: seq<TimelineRow>, q: seq<TimelineRow>, email: string)
    ensures Called(p + q, email) <==> Called(p, email) || Called(q, email)
  {
  }

  lemma FollowsCompose(a: Db, b: Db, c: Db, now: Time)
    requires Follows(a, b, now) && Follows(b, c, now)
    ensures Follows(a, c, now)
  {
    AddedCompose(a.timeline, b.timeline, c.timeline);
    forall e ensures QueuedBy(a.queue, Added(a.timeline, c.timeline), c.queue, now, e) {
      CalledAppend(Added(a.timeline, b.timeline), Added(b.timeline, c.timeline), e);
      assert QueuedBy(a.queue, Added(a.timeline, b.timeline), b.queue, now, e);
      assert QueuedBy(b.queue, Added(b.timeline, c.timeline), c.queue, now, e);
    }
  }

  lemma FollowsSelf(d: Db, now: Time)
    ensures Follows(d, d, now)
  {
    assert Added(d.timeline, d.timeline) == [];
  }

  lemma CalledOne(row: TimelineRow, email: string)
    ensures Called([row], email) <==> Calls(row, email)
  {
    assert row in [row];
  }

  lemma RowQueues(before: map<string, Time>, later: seq<TimelineRow>, mid: map<string, Time>, row: TimelineRow, email: string)
    requires QueuedBy(before, later, mid, row.insertedAt, email)
    ensures var after := if Requeues(row.kind) then mid[row.email := row.insertedAt] else mid;
            QueuedBy(before, [row] + later, after, row.insertedAt, email)
  {
    CallsRequeue(row, email);
    hide Requeues, Called, Calls;
    CalledAppend([row], later, email);
    CalledOne(row, email);
  }

  /** Storing a row and then re-queueing its contact, possibly with enrolments in between. */
  lemma FollowsRow(d: Db, mid: Db, row: TimelineRow)
    requires Follows(StoreRow(d, row), mid, row.insertedAt)
    ensures Follows(d, Requeue(mid, row), row.insertedAt)
  {
    hide Requeues, QueuedBy;
    var r := Requeue(mid, row);
    var later := Added(d.timeline + [row], mid.timeline);
    var added := Added(d.timeline, r.timeline);
    assert added == [row] + later;
    forall x | x in added ensures x.insertedAt == row.insertedAt {
      assert x == row || x in later;
    }
    forall e ensures QueuedBy(d.queue, added, r.queue, row.insertedAt, e) {
      RowQueues(d.queue, later, mid.queue, row, e);
    }
  }

  lemma EnrollFollows(c: ValidConfig, d: Db, automationId: string, email: string, rootNodeId: string,
                      frequency: string, now: Time)
    ensures Follows(d, Enroll(c, d, automationId, email, rootNodeId, frequency, now), now)
  {
    FollowsSelf(d, now);
    EnrollFlat(c, d, automationId, email, rootNodeId, frequency, now);
    if !AlreadyTriggered(d, automationId, email, frequency) && MayEnrol(d, automationId, email, now) {
      var d1 := RecordEnrolment(d, automationId, email, rootNodeId, frequency, now);
      var row := StartRow(automationId, email, rootNodeId, now);
      FollowsSelf(StoreRow(d1, row), now);
      FollowsRow(d1, StoreRow(d1, row), row);
    }
  }

  lemma {:induction false} EnrollAllFollows(c: ValidConfig, d: Db, ts: seq<AutomationTrigger>, email: string, now: Time)
    ensures Follows(d, EnrollAll(c, d, ts, email, now), now)
    decreases |ts|
  {
    if ts == [] {
      FollowsSelf(d, now);
    } else {
      var t := ts[0];
      var d1 := Enroll(c, d, t.automationId, email, t.rootNodeId, t.config.frequency, now);
      EnrollFollows(c, d, t.automationId, email, t.rootNodeId, t.config.frequency, now);
      EnrollAllFollows(c, d1, ts[1..], email, now);
      FollowsCompose(d, d1, EnrollAll(c, d, ts, email, now), now);
    }
  }

  lemma InsertTimelineFollows(c: ValidConfig, d: Db, row: TimelineRow)
    ensures Follows(d, InsertTimeline(c, d, row), row.insertedAt)
  {
    var d1 := StoreRow(d, row);
    if row.kind == START_KIND {
      FollowsSelf(d1, row.insertedAt);
      FollowsRow(d, d1, row);
    } else {
      var d2 := EnrollAll(c, d1, Fired(c.triggers, row), row.email, row.insertedAt);
      EnrollAllFollows(c, d1, Fired(c.triggers, row), row.email, row.insertedAt);
      FollowsRow(d, d2, row);
    }
  }

  lemma {:induction false} InsertAllFollows(c: ValidConfig, d: Db, rows: seq<TimelineRow>, now: Time)
    requires forall x :: x in rows ==> x.insertedAt == now
    ensures Follows(d, InsertAll(c, d, rows), now)
    decreases |rows|
  {
    if rows == [] {
      FollowsSelf(d, now);
    } else {
      var d1 := InsertTimeline(c, d, rows[0]);
      InsertTimelineFollows(c, d, rows[0]);
      InsertAllFollows(c, d1, rows[1..], now);
      FollowsCompose(d, d1, InsertAll(c, d, rows), now);
    }
  }

  lemma {:induction false} SuppressAllFollows(c: ValidConfig, d: Db, email: string, listId: Option<string>,
                                              ss: seq<Suppression>, now: Time)
    ensures Follows(d, SuppressAll(c, d, email, listId, ss, now), now)
    decreases |ss|
  {
    if ss == [] || listId == None {
      FollowsSelf(d, now);
    } else {
      var d1 := Suppress(c, d, email, listId.value, ss[0], now);
      if (email, listId.value) in d.lists && MaySuppress(d.lists[(email, listId.value)].status, ss[0].status) {
        var b := d.lists[(email, listId.value)];
        var e := Updated(b, b.(status := ss[0].status, updatedAt := ss[0].at));
        InsertAllFollows(c, d.(lists := d.lists[(email, listId.value) := e.after]),
                         ListRows(email, listId.value, e, now), now);
      } else {
        FollowsSelf(d, now);
      }
      SuppressAllFollows(c, d1, email, listId, ss[1..], now);
      FollowsCompose(d, d1, SuppressAll(c, d, email, listId, ss, now), now);
    }
  }

  predicate Removes(s: Statement, email: string) {
    s.Dequeue? && email in s.emails
  }

  /** A statement's own row change touches the queue only by removing entries. */
  lemma StepFollows(d: Db, step: Step)
    requires Commits(d, step)
    ensures Follows(Direct(d, step.statement), Exec(d, step), step.now)
  {
    var c, s, now := step.c, step.statement, step.now;
    if s.EnrolContact? {
      EnrollFollows(c, d, s.automationId, s.email, s.rootNodeId, s.frequency, now);
    } else {
      assert !PrimaryKeyClash(d, s);
      var d0, t := Direct(d, s), TargetOf(d, s);
      var d1 := InsertAll(c, d0, RowsOf(d, s, now));
      RowsAreSource(d, s, now);
      InsertAllFollows(c, d0, RowsOf(d, s, now), now);
      SuppressAllFollows(c, d1, t.email, t.listId, t.suppressions, now);
      FollowsCompose(d0, d1, SuppressAll(c, d1, t.email, t.listId, t.suppressions, now), now);
    }
  }

  lemma DirectQueue(d: Db, s: Statement, email: string)
    ensures Direct(d, s).timeline == d.timeline
    ensures email in Direct(d, s).queue <==> email in d.queue && !Removes(s, email)
    ensures email in Direct(d, s).queue ==> Direct(d, s).queue[email] == d.queue[email]
  {
  }

  /** One step's share of the same. */
  lemma StepQueues(d: Db, step: Step, email: string)
    requires Commits(d, step) && !Removes(step.statement, email)
    ensures QueueIsLastCall(d, Exec(d, step), email)
  {
    hide Exec, Commits, Removes, LastCall;
    StepFollows(d, step);
    DirectQueue(d, step.statement, email);
    var r := Exec(d, step);
    var rows := Added(d.timeline, r.timeline);
    assert QueuedBy(Direct(d, step.statement).queue, rows, r.queue, step.now, email);
    LastCallExists(rows, email);
  }

  ghost predicate QueueIsLastCall(d: Db, r: Db, email: string) {
    && d.timeline <= r.timeline
    && var last := LastCall(Added(d.timeline, r.timeline), email);
       if last != None then email in r.queue && r.queue[email] == last.value
       else (email in r.queue <==> email in d.queue) && (email in d.queue ==> r.queue[email] == d.queue[email])
  }

  /** While nothing removes the contact, its entry is that of the latest row that called for it. */
  lemma {:induction false} QueueFollowsTimeline(d: Db, steps: seq<Step>, email: string)
    requires forall st :: st in steps ==> !Removes(st.statement, email)
    ensures QueueIsLastCall(d, Run(d, steps), email)
    decreases |steps|
  {
    hide LastCall, Removes, Commits;
    if steps == [] {
      assert Added(d.timeline, d.timeline) == [];
      LastCallExists([], email);
    } else {
      var d1, r := Exec(d, steps[0]), Run(d, steps);
      QueueFollowsTimeline(d1, steps[1..], email);
      if Commits(d, steps[0]) {
        StepQueues(d, steps[0], email);
        AddedCompose(d.timeline, d1.timeline, r.timeline);
        LastCallAppend(Added(d.timeline, d1.timeline), Added(d1.timeline, r.timeline), email);
      }
    }
  }

  /** How much of a run lies up to and including the last removal of this contact. */
  function UpToLastRemoval(steps: seq<Step>, email: string): (n: nat)
    ensures n <= |steps|
    ensures forall i :: n <= i < |steps| ==> !Removes(steps[i].statement, email)
    ensures n > 0 ==> Removes(steps[n - 1].statement, email)
  {
    if steps == [] then 0
    else if Removes(steps[|steps| - 1].statement, email) then |steps|
    else UpToLastRemoval(steps[..|steps| - 1], email)
  }

  /**
   From an empty queue, over any run: a contact is queued exactly when some row other than a
   segment membership row was inserted for it since it was last taken off the queue, and it
   is queued as of the latest such row.
   */
  lemma QueueAgreesWithTimeline(d: Db, steps: seq<Step>, email: string)
    requires d.queue == map[] && !d.aborted
    ensures var n := UpToLastRemoval(steps, email);
            var since, r := Run(d, steps[..n]), Run(d, steps);
            && since.timeline <= r.timeline
            && var rows := Added(since.timeline, r.timeline);
               && (email in r.queue <==> Called(rows, email))
               && (email in r.queue ==> LastCall(rows, email) == Some(r.queue[email]))
  {
    hide Run, Called, LastCall, UpToLastRemoval, Removes;
    var n := UpToLastRemoval(steps, email);
    var since := Run(d, steps[..n]);
    RemovedThere(d, steps, email);
    assert steps == steps[..n] + steps[n..];
    RunAppend(d, steps[..n], steps[n..]);
    NotRemovedSince(steps, email);
    QueueFollowsTimeline(since, steps[n..], email);
    LastCallExists(Added(since.timeline, Run(d, steps).timeline), email);
  }

  lemma NotRemovedSince(steps: seq<Step>, email: string)
    ensures forall st :: st in steps[UpToLastRemoval(steps, email)..] ==> !Removes(st.statement, email)
  {
  }

  lemma RemovedThere(d: Db, steps: seq<Step>, email: string)
    requires d.queue == map[] && !d.aborted
    ensures email !in Run(d, steps[..UpToLastRemoval(steps, email)]).queue
  {
    var n := UpToLastRemoval(steps, email);
    if n == 0 {
      assert Run(d, steps[..n]) == d;
    } else {
      RunLast(d, steps, n);
      StaysCommitted(d, steps[..n - 1]);
      RemovalRemoves(Run(d, steps[..n - 1]), steps[n - 1], email);
    }
  }

  lemma RemovalRemoves(d: Db, step: Step, email: string)
    requires Removes(step.statement, email) && !d.aborted
    ensures email !in Exec(d, step).queue
  {
  }

  /**
   A segment membership change that creates no enrolment leaves the queue as it was; one
   that does puts the contact back on the queue it may just have been taken from.
   */
  lemma MembershipRequeuesOnlyByEnrolment(d: Db, step: Step)
    requires step.statement.InsertMember? || step.statement.DeleteMember?
    requires Commits(d, step)
    ensures var r, email := Exec(d, step), step.statement.email;
            r.queue == if r.enrolments == d.enrolments then d.queue else d.queue[email := step.now]
  {
    var c, s, now := step.c, step.statement, step.now;
    var rows := RowsOf(d, s, now);
    var d0 := Direct(d, s);
    if rows != [] {
      var row := rows[0];
      var d1 := StoreRow(d0, row);
      var d2 := EnrollAll(c, d1, Fired(c.triggers, row), row.email, now);
      assert rows[1..] == [];
      assert InsertAll(c, d0, rows) == InsertAll(c, InsertTimeline(c, d0, row), []);
      EnrollAllRequeues(c, d1, Fired(c.triggers, row), row.email, now);
    }
  }

  /** Either no enrolment was created, or some were and the contact is queued. */
  ghost predicate RequeuedByEnrolment(d: Db, r: Db, email: string, now: Time) {
    || (r.enrolments == d.enrolments && r.queue == d.queue)
    || (|r.enrolments| > |d.enrolments| && r.queue == d.queue[email := now])
  }

  lemma EnrollRequeues(c: ValidConfig, d: Db, automationId: string, email: string, rootNodeId: string,
                       frequency: string, now: Time)
    ensures RequeuedByEnrolment(d, Enroll(c, d, automationId, email, rootNodeId, frequency, now), email, now)
  {
    hide Enroll, AlreadyTriggered;
    EnrollFlat(c, d, automationId, email, rootNodeId, frequency, now);
    if !AlreadyTriggered(d, automationId, email, frequency) && MayEnrol(d, automationId, email, now) {
      assert |RecordEnrolment(d, automationId, email, rootNodeId, frequency, now).enrolments| == |d.enrolments| + 1;
    }
  }

  lemma {:induction false} EnrollAllRequeues(c: ValidConfig, d: Db, ts: seq<AutomationTrigger>, email: string, now: Time)
    ensures RequeuedByEnrolment(d, EnrollAll(c, d, ts, email, now), email, now)
    decreases |ts|
  {
    if ts != [] {
      var t := ts[0];
      EnrollRequeues(c, d, t.automationId, email, t.rootNodeId, t.config.frequency, now);
      EnrollAllRequeues(c, Enroll(c, d, t.automationId, email, t.rootNodeId, t.config.frequency, now), ts[1..], email, now);
    }
  }
}
