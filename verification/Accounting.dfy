/** The enrolment tables, the trigger log, the statistics and the timeline keep one account. */
module Accounting {
  import opened Prelude
  import opened Tables
  import opened Automations
  import opened Triggers
  import opened Cascade
  import opened Runs

  function Pair(automationId: string, email: string): Enrolment -> bool {
    (x: Enrolment) => x.automationId == automationId && x.email == email
  }

  function OfAutomation(automationId: string): Enrolment -> bool {
    (x: Enrolment) => x.automationId == automationId
  }

  function PairStart(automationId: string, email: string): TimelineRow -> bool {
    (x: TimelineRow) => x.entity.AutomationEntity? && x.kind == START_KIND && x.entityId == Some(automationId)
                        && x.email == email
  }

  function RowsFor(d: Db, automationId: string, email: string): nat {
    |Select(d.enrolments, Pair(automationId, email))|
  }

  /** Rows created by calls with frequency `once`. */
  function OncePair(automationId: string, email: string): Enrolment -> bool {
    (x: Enrolment) => x.automationId == automationId && x.email == email && x.calledWith == "once"
  }

  function OnceRowsFor(d: Db, automationId: string, email: string): nat {
    |Select(d.enrolments, OncePair(automationId, email))|
  }

  function StartsFor(d: Db, automationId: string, email: string): nat {
    |Select(d.timeline, PairStart(automationId, email))|
  }

  function EntryOf(x: Enrolment): NodeExecution {
    NodeExecution(x.id, x.automationId, x.currentNodeId, "trigger", "entered", x.enteredAt)
  }

  /** Every enrolment has exactly one `entered` execution, and no two share id or entry instant. */
  ghost predicate OneEntryEach(d: Db) {
    && |d.executions| == |d.enrolments|
    && (forall i :: 0 <= i < |d.enrolments| ==> d.executions[i] == EntryOf(d.enrolments[i]))
    && (forall i :: 0 <= i < |d.enrolments| ==> d.enrolments[i].id < d.nextId)
    && (forall i, j :: 0 <= i < j < |d.enrolments| ==> d.enrolments[i].id != d.enrolments[j].id)
    && (forall i, j :: 0 <= i < j < |d.enrolments| ==>
          d.enrolments[i].automationId == d.enrolments[j].automationId
          && d.enrolments[i].email == d.enrolments[j].email
          ==> d.enrolments[i].enteredAt != d.enrolments[j].enteredAt)
  }

  ghost predicate OneStartEach(d: Db) {
    forall a, e :: RowsFor(d, a, e) == StartsFor(d, a, e)
  }

  /** stats.enrolled has risen by exactly the number of rows created. */
  ghost predicate StatsAgree(d: Db, base: map<string, int>) {
    && d.enrolled.Keys == base.Keys
    && forall a :: a in base ==> d.enrolled[a] == base[a] + |Select(d.enrolments, OfAutomation(a))|
  }

  /** `once` calls have created at most one row per pair, and the log holds exactly those pairs. */
  ghost predicate LogAgrees(d: Db) {
    forall a, e :: OnceRowsFor(d, a, e) <= 1 && ((a, e) in d.triggerLog <==> OnceRowsFor(d, a, e) == 1)
  }

  ghost predicate Ledger(d: Db, base: map<string, int>) {
    OneEntryEach(d) && OneStartEach(d) && StatsAgree(d, base) && LogAgrees(d)
  }

  /** Only the tables the ledger speaks of, with the timeline's enrolment rows. */
  ghost predicate SameLedgerTables(d: Db, r: Db) {
    && r.enrolments == d.enrolments && r.executions == d.executions && r.nextId == d.nextId
    && r.enrolled == d.enrolled && r.triggerLog == d.triggerLog
    && forall a, e :: Select(r.timeline, PairStart(a, e)) == Select(d.timeline, PairStart(a, e))
  }

  lemma LedgerFrame(d: Db, r: Db, base: map<string, int>)
    requires Ledger(d, base) && SameLedgerTables(d, r)
    ensures Ledger(r, base)
  {
    forall a, e ensures RowsFor(r, a, e) == RowsFor(d, a, e) && StartsFor(r, a, e) == StartsFor(d, a, e) {
    }
    forall a, e ensures OnceRowsFor(r, a, e) == OnceRowsFor(d, a, e) {
    }
  }

  lemma StoreFrame(d: Db, row: TimelineRow)
    requires !row.entity.AutomationEntity?
    ensures SameLedgerTables(d, StoreRow(d, row))
  {
    forall a, e ensures Select(d.timeline + [row], PairStart(a, e)) == Select(d.timeline, PairStart(a, e)) {
      SelectAppend(d.timeline, [row], PairStart(a, e));
      SelectNone([row], PairStart(a, e));
    }
  }

  lemma OneMore<T>(s: seq<T>, x: T, p: T -> bool)
    ensures |Select(s + [x], p)| == |Select(s, p)| + (if p(x) then 1 else 0)
  {
    SelectAppend(s, [x], p);
    assert [x][1..] == [];
  }

  lemma NewEntryKeepsOneEntryEach(d: Db, r: Db, x: Enrolment)
    requires OneEntryEach(d)
    requires r.enrolments == d.enrolments + [x] && r.executions == d.executions + [EntryOf(x)]
    requires x.id == d.nextId && r.nextId == d.nextId + 1
    requires forall y :: y in d.enrolments ==>
               !(y.automationId == x.automationId && y.email == x.email && y.enteredAt == x.enteredAt)
    ensures OneEntryEach(r)
  {
  }

  /** r is d with one enrolment, its execution, its start row, its count and its log entry. */
  ghost predicate OneEnrolmentLater(d: Db, r: Db, x: Enrolment) {
    && x.id == d.nextId && r.nextId == d.nextId + 1
    && r.enrolments == d.enrolments + [x] && r.executions == d.executions + [EntryOf(x)]
    && r.timeline == d.timeline + [StartRow(x.automationId, x.email, x.currentNodeId, x.enteredAt)]
    && x.automationId in d.enrolled && r.enrolled == d.enrolled[x.automationId := d.enrolled[x.automationId] + 1]
    && r.triggerLog == if x.calledWith == "once" then d.triggerLog + {(x.automationId, x.email)} else d.triggerLog
  }

  lemma CountsMove(d: Db, r: Db, x: Enrolment, a: string, e: string)
    requires OneEnrolmentLater(d, r, x)
    ensures var more := if a == x.automationId && e == x.email then 1 else 0;
            && RowsFor(r, a, e) == RowsFor(d, a, e) + more && StartsFor(r, a, e) == StartsFor(d, a, e) + more
            && OnceRowsFor(r, a, e) == OnceRowsFor(d, a, e) + if x.calledWith == "once" then more else 0
    ensures |Select(r.enrolments, OfAutomation(a))|
         == |Select(d.enrolments, OfAutomation(a))| + if a == x.automationId then 1 else 0
  {
    OneMore(d.enrolments, x, Pair(a, e));
    OneMore(d.enrolments, x, OncePair(a, e));
    OneMore(d.enrolments, x, OfAutomation(a));
    OneMore(d.timeline, StartRow(x.automationId, x.email, x.currentNodeId, x.enteredAt), PairStart(a, e));
  }

  lemma EnrolmentKeepsLedger(d: Db, r: Db, x: Enrolment, base: map<string, int>)
    requires Ledger(d, base) && OneEnrolmentLater(d, r, x)
    requires !AlreadyTriggered(d, x.automationId, x.email, x.calledWith)
    requires MayEnrol(d, x.automationId, x.email, x.enteredAt)
    ensures Ledger(r, base)
  {
    NewEntryKeepsOneEntryEach(d, r, x);
    forall a, e ensures RowsFor(r, a, e) == StartsFor(r, a, e) {
      CountsMove(d, r, x, a, e);
    }
    forall a | a in base ensures r.enrolled[a] == base[a] + |Select(r.enrolments, OfAutomation(a))| {
      CountsMove(d, r, x, a, x.email);
    }
    forall a, e ensures OnceRowsFor(r, a, e) <= 1 && ((a, e) in r.triggerLog <==> OnceRowsFor(r, a, e) == 1) {
      CountsMove(d, r, x, a, e);
    }
  }

  lemma EnrollKeepsLedger(c: ValidConfig, d: Db, automationId: string, email: string, rootNodeId: string,
                          frequency: string, now: Time, base: map<string, int>)
    requires Ledger(d, base)
    ensures Ledger(Enroll(c, d, automationId, email, rootNodeId, frequency, now), base)
  {
    EnrollFlat(c, d, automationId, email, rootNodeId, frequency, now);
    var r := Enroll(c, d, automationId, email, rootNodeId, frequency, now);
    if !AlreadyTriggered(d, automationId, email, frequency) {
      if MayEnrol(d, automationId, email, now) {
        var x := Enrolment(d.nextId, automationId, email, rootNodeId, "active", now, now, frequency);
        EnrolmentKeepsLedger(d, r, x, base);
      } else {
        LedgerFrame(d, r, base);
      }
    }
  }

  lemma {:induction false} EnrollAllKeepsLedger(c: ValidConfig, d: Db, ts: seq<AutomationTrigger>, email: string,
                                                now: Time, base: map<string, int>)
    requires Ledger(d, base)
    ensures Ledger(EnrollAll(c, d, ts, email, now), base)
    decreases |ts|
  {
    if ts != [] {
      var t := ts[0];
      EnrollKeepsLedger(c, d, t.automationId, email, t.rootNodeId, t.config.frequency, now, base);
      EnrollAllKeepsLedger(c, Enroll(c, d, t.automationId, email, t.rootNodeId, t.config.frequency, now), ts[1..],
                           email, now, base);
    }
  }

  lemma RequeueKeepsLedger(d: Db, row: TimelineRow, base: map<string, int>)
    requires Ledger(d, base)
    ensures Ledger(Requeue(d, row), base)
  {
    LedgerFrame(d, Requeue(d, row), base);
  }

  lemma StoreKeepsLedger(d: Db, row: TimelineRow, base: map<string, int>)
    requires Ledger(d, base) && !row.entity.AutomationEntity?
    ensures Ledger(StoreRow(d, row), base)
  {
    StoreFrame(d, row);
    LedgerFrame(d, StoreRow(d, row), base);
  }

  lemma InsertTimelineKeepsLedger(c: ValidConfig, d: Db, row: TimelineRow, base: map<string, int>)
    requires Ledger(d, base) && !row.entity.AutomationEntity?
    ensures Ledger(InsertTimeline(c, d, row), base)
  {
    StoreKeepsLedger(d, row, base);
    var d1, ts := StoreRow(d, row), Fired(c.triggers, row);
    if row.kind == START_KIND {
      RequeueKeepsLedger(d1, row, base);
    } else {
      EnrollAllKeepsLedger(c, d1, ts, row.email, row.insertedAt, base);
      RequeueKeepsLedger(EnrollAll(c, d1, ts, row.email, row.insertedAt), row, base);
    }
  }

  lemma {:induction false} InsertAllKeepsLedger(c: ValidConfig, d: Db, rows: seq<TimelineRow>,
                                                base: map<string, int>)
    requires Ledger(d, base)
    requires forall x :: x in rows ==> !x.entity.AutomationEntity?
    ensures Ledger(InsertAll(c, d, rows), base)
    decreases |rows|
  {
    if rows != [] {
      InsertTimelineKeepsLedger(c, d, rows[0], base);
      InsertAllKeepsLedger(c, InsertTimeline(c, d, rows[0]), rows[1..], base);
    }
  }

  lemma {:induction false} SuppressAllKeepsLedger(c: ValidConfig, d: Db, email: string, listId: Option<string>,
                                                  ss: seq<Suppression>, now: Time,
                                                  base: map<string, int>)
    requires Ledger(d, base)
    ensures Ledger(SuppressAll(c, d, email, listId, ss, now), base)
    decreases |ss|
  {
    if ss != [] && listId != None {
      var d1 := Suppress(c, d, email, listId.value, ss[0], now);
      if (email, listId.value) in d.lists && MaySuppress(d.lists[(email, listId.value)].status, ss[0].status) {
        var b := d.lists[(email, listId.value)];
        var e := Updated(b, b.(status := ss[0].status, updatedAt := ss[0].at));
        var d0 := d.(lists := d.lists[(email, listId.value) := e.after]);
        var rows := ListRows(email, listId.value, e, now);
        LedgerFrame(d, d0, base);
        InsertAllKeepsLedger(c, d0, rows, base);
        LedgerFrame(InsertAll(c, d0, rows), d1, base);
      }
      SuppressAllKeepsLedger(c, d1, email, listId, ss[1..], now, base);
    }
  }

  lemma StepKeepsLedger(d: Db, step: Step, base: map<string, int>)
    requires Ledger(d, base)
    ensures Ledger(Exec(d, step), base)
  {
    var c, s, now := step.c, step.statement, step.now;
    if Commits(d, step) {
      if s.EnrolContact? {
        EnrollKeepsLedger(c, d, s.automationId, s.email, s.rootNodeId, s.frequency, now, base);
      } else {
        var t, d0 := TargetOf(d, s), Direct(d, s);
        var d1 := InsertAll(c, d0, RowsOf(d, s, now));
        var d2 := SuppressAll(c, d1, t.email, t.listId, t.suppressions, now);
        StepTables(d, step);
        RowsAreSource(d, s, now);
        LedgerFrame(d, d0, base);
        InsertAllKeepsLedger(c, d0, RowsOf(d, s, now), base);
        SuppressAllKeepsLedger(c, d1, t.email, t.listId, t.suppressions, now, base);
        LedgerFrame(d2, Deliver(c, d2, WebhookOf(c, d, s)), base);
      }
    }
  }

  lemma {:induction false} RunKeepsLedger(d: Db, steps: seq<Step>, base: map<string, int>)
    requires Ledger(d, base)
    ensures Ledger(Run(d, steps), base)
    decreases |steps|
  {
    if steps != [] {
      StepKeepsLedger(d, steps[0], base);
      RunKeepsLedger(Exec(d, steps[0]), steps[1..], base);
    }
  }

  /**
   From empty enrolment tables, over every run of statements that executes one at a time:
   rows, `entered` executions, automation.start rows and stats.enrolled agree; and whatever
   other frequencies an automation is also entered with, `once` calls have created at most
   one row per contact, exactly one when the trigger log says so.
   */
  lemma EnrolmentAccounting(d: Db, steps: seq<Step>)
    requires d.enrolments == [] && d.executions == [] && d.triggerLog == {} && Source(d.timeline) == d.timeline
    ensures Ledger(Run(d, steps), map a | a in d.enrolled :: d.enrolled[a])
  {
    var base: map<string, int> := map a | a in d.enrolled :: d.enrolled[a];
    forall a, e ensures StartsFor(d, a, e) == 0 {
      forall x | x in d.timeline ensures !PairStart(a, e)(x) {
        assert x in Source(d.timeline);
      }
      SelectNone(d.timeline, PairStart(a, e));
    }
    RunKeepsLedger(d, steps, base);
  }
}
