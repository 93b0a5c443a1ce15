/** The webhook stream of one custom event is a regular language that tracks the row. */
module EventStream {
  import opened Prelude
  import opened Tables
  import opened Triggers
  import opened Cascade
  import opened Runs
  import opened Webhooks

  datatype Letter = Created | Changed | Removed | Other

  function LetterOf(kind: string): Letter {
    if kind == "custom_event.created" then Created
    else if kind == "custom_event.updated" then Changed
    else if kind == "custom_event.deleted" then Removed
    else Other
  }

  datatype RowState = Absent | Live | Dead

  function StateOf(d: Db, name: string, externalId: string): RowState {
    if (name, externalId) !in d.events then Absent
    else if d.events[(name, externalId)].deletedAt == None then Live
    else Dead
  }

  /** The automaton of the language; None rejects. */
  function Next(s: RowState, l: Letter): Option<RowState> {
    match (s, l)
    case (Absent, Created) => Some(Live)
    case (Absent, Removed) => Some(Dead)
    case (Live, Changed) => Some(Live)
    case (Live, Removed) => Some(Dead)
    case (Dead, Created) => Some(Live)
    case _ => None
  }

  function Drive(s: RowState, w: seq<Letter>): Option<RowState>
    decreases |w|
  {
    if w == [] then Some(s)
    else if Next(s, w[0]) == None then None
    else Drive(Next(s, w[0]).value, w[1..])
  }

  lemma {:induction false} DriveAppend(s: RowState, a: seq<Letter>, b: seq<Letter>)
    ensures Drive(s, a + b) == if Drive(s, a) == None then None else Drive(Drive(s, a).value, b)
    decreases |a|
  {
    if a == [] {
      assert a + b == b;
    } else {
      assert (a + b)[0] == a[0] && (a + b)[1..] == a[1..] + b;
      if Next(s, a[0]) != None {
        DriveAppend(Next(s, a[0]).value, a[1..], b);
      }
    }
  }

  // ---------- the same language as a regular expression ----------

  function Repeat(l: Letter, n: nat): (w: seq<Letter>)
    ensures |w| == n && forall i :: 0 <= i < n ==> w[i] == l
  {
    if n == 0 then [] else [l] + Repeat(l, n - 1)
  }

  /** (created updated* deleted)*, with the given numbers of updates. */
  function Cycles(ns: seq<nat>): seq<Letter> {
    if ns == [] then [] else [Created] + Repeat(Changed, ns[0]) + [Removed] + Cycles(ns[1..])
  }

  /** [deleted] (created updated* deleted)* */
  function Sentence(lead: bool, ns: seq<nat>): seq<Letter> {
    (if lead then [Removed] else []) + Cycles(ns)
  }

  lemma {:induction false} UpdatesStayLive(n: nat, rest: seq<Letter>)
    ensures Drive(Live, Repeat(Changed, n) + rest) == Drive(Live, rest)
  {
    if n == 0 {
      assert Repeat(Changed, n) + rest == rest;
    } else {
      var w := Repeat(Changed, n) + rest;
      assert w[0] == Changed && w[1..] == Repeat(Changed, n - 1) + rest;
      UpdatesStayLive(n - 1, rest);
    }
  }

  lemma {:induction false} CyclesAccepted(s: RowState, ns: seq<nat>)
    requires s != Live
    ensures Drive(s, Cycles(ns)) != None
    decreases |ns|
  {
    if ns != [] {
      var tail := [Removed] + Cycles(ns[1..]);
      var w := Cycles(ns);
      assert w[0] == Created && w[1..] == Repeat(Changed, ns[0]) + tail;
      UpdatesStayLive(ns[0], tail);
      assert tail[0] == Removed && tail[1..] == Cycles(ns[1..]);
      CyclesAccepted(Dead, ns[1..]);
    }
  }

  /** An accepted word from a state other than Live starts with whole cycles and at most one unfinished one. */
  lemma {:induction false} AcceptedAreCycles(s: RowState, w: seq<Letter>) returns (ns: seq<nat>)
    requires s != Live && Drive(s, w) != None && (w != [] ==> w[0] == Created)
    ensures w <= Cycles(ns)
    decreases |w|
  {
    if w == [] {
      ns := [];
    } else {
      var n := 0;
      var rest := w[1..];
      while rest != [] && rest[0] == Changed
        invariant w == [Created] + Repeat(Changed, n) + rest
        invariant Drive(Live, rest) != None
        decreases |rest|
      {
        RepeatOneMore(Changed, n);
        n, rest := n + 1, rest[1..];
      }
      if rest == [] {
        ns := [n];
        assert Cycles(ns) == w + [Removed] + Cycles(ns[1..]);
      } else {
        assert rest[0] == Removed;
        var more := AcceptedAreCycles(Dead, rest[1..]);
        ns := [n] + more;
        assert ns[1..] == more;
        assert w == [Created] + Repeat(Changed, n) + [Removed] + rest[1..];
        assert Cycles(ns) == [Created] + Repeat(Changed, n) + [Removed] + Cycles(more);
        assert rest[1..] == Cycles(more)[..|rest[1..]|];
        assert w == Cycles(ns)[..|w|];
      }
    }
  }

  lemma {:induction false} RepeatOneMore(l: Letter, n: nat)
    ensures Repeat(l, n + 1) == Repeat(l, n) + [l]
  {
    assert forall i :: 0 <= i < n + 1 ==> Repeat(l, n + 1)[i] == (Repeat(l, n) + [l])[i];
  }

  /** The automaton accepts exactly the prefixes of the regular expression. */
  lemma AutomatonIsTheExpression(w: seq<Letter>)
    ensures Drive(Absent, w) != None <==> exists lead, ns :: w <= Sentence(lead, ns)
  {
    if Drive(Absent, w) != None {
      if w != [] && w[0] == Removed {
        if w[1..] != [] {
          assert Drive(Dead, w[1..]) != None;
        }
        var ns := AcceptedAreCycles(Dead, w[1..]);
        assert w == [Removed] + w[1..];
        assert w <= Sentence(true, ns);
      } else {
        var ns := AcceptedAreCycles(Absent, w);
        assert Sentence(false, ns) == Cycles(ns);
        assert w <= Sentence(false, ns);
      }
    }
    if lead, ns :| w <= Sentence(lead, ns) {
      PrefixAccepted(w, lead, ns);
    }
  }

  lemma PrefixAccepted(w: seq<Letter>, lead: bool, ns: seq<nat>)
    requires w <= Sentence(lead, ns)
    ensures Drive(Absent, w) != None
  {
    var full := Sentence(lead, ns);
    if lead {
      assert full[0] == Removed && full[1..] == Cycles(ns);
      CyclesAccepted(Dead, ns);
    } else {
      assert full == Cycles(ns);
      CyclesAccepted(Absent, ns);
    }
    assert full == w + full[|w|..];
    DriveAppend(Absent, w, full[|w|..]);
  }

  // ---------- the stream of a run ----------

  function About(id: string, name: string, externalId: string): Delivery -> bool {
    (x: Delivery) => x.subscriptionId == id && x.payload.EventPayload? && x.payload.eventName == name
                     && x.payload.externalId == externalId
  }

  function Letters(ds: seq<Delivery>): seq<Letter> {
    Image(ds, LetterIn())
  }

  function LetterIn(): Delivery -> Letter {
    (x: Delivery) => LetterOf(x.eventType)
  }

  /** What a subscription has been told about one custom event between two states. */
  function Stream(before: Db, after: Db, id: string, name: string, externalId: string): seq<Letter>
    requires before.deliveries <= after.deliveries
  {
    Letters(Select(Added(before.deliveries, after.deliveries), About(id, name, externalId)))
  }

  predicate HearsAll(s: Subscription) {
    && "custom_event.created" in s.eventTypes
    && "custom_event.updated" in s.eventTypes
    && "custom_event.deleted" in s.eventTypes
  }

  predicate Touches(s: Statement, name: string, externalId: string) {
    (s.InsertEvent? || s.UpdateEvent?) && s.name == name && s.externalId == externalId
  }

  /** One row change moves the automaton by the event it raises, or not at all. */
  lemma RowChangeDrives(c: ValidConfig, d: Db, st: Statement, name: string, externalId: string)
    requires Touches(st, name, externalId) && !PrimaryKeyClash(d, st)
    ensures var w := WebhookOf(c, d, st);
            var before, after := StateOf(d, name, externalId), StateOf(Direct(d, st), name, externalId);
            if w == None then before == after
            else
              && Next(before, LetterOf(w.value.kind)) == Some(after)
              && w.value.payload == EventPayload(name, externalId, st.event)
              && LetterOf(w.value.kind) != Other
  {
    if st.InsertEvent? {
      assert WebhookOf(c, d, st) == EventWebhook(name, externalId, Inserted(st.event));
    } else if (name, externalId) in d.events {
      assert WebhookOf(c, d, st) == EventWebhook(name, externalId, Updated(d.events[(name, externalId)], st.event));
    }
  }

  lemma StepDrives(d: Db, step: Step, s: Subscription, name: string, externalId: string)
    requires Commits(d, step) && Unfiltered(s) && s in step.c.subscriptions && HearsAll(s)
    ensures var r := Exec(d, step);
            && d.deliveries <= r.deliveries
            && Drive(StateOf(d, name, externalId), Stream(d, r, s.id, name, externalId))
               == Some(StateOf(r, name, externalId))
  {
    hide Exec, Commits, WebhookOf;
    var st, p := step.statement, About(s.id, name, externalId);
    var w := WebhookOf(step.c, d, st);
    StepTables(d, step);
    OwnDeliveriesOfStep(d, step, s, p);
    var got := Received(s.id, s.eventTypes, w);
    if Touches(st, name, externalId) {
      RowChangeDrives(step.c, d, st, name, externalId);
      SelectAll(got, p);
      if w != None {
        assert got[1..] == [] && [LetterOf(w.value.kind)][1..] == [];
        assert Letters(got) == [LetterOf(w.value.kind)];
      }
    } else {
      OtherPayloads(d, step, name, externalId);
      SelectNone(got, p);
      assert (name, externalId) in EventsAfter(d, st) <==> (name, externalId) in d.events;
    }
  }

  lemma OtherPayloads(d: Db, step: Step, name: string, externalId: string)
    requires !Touches(step.statement, name, externalId)
    ensures var w := WebhookOf(step.c, d, step.statement);
            w != None && w.value.payload.EventPayload? ==>
              w.value.payload.eventName != name || w.value.payload.externalId != externalId
  {
  }

  /**
   Over any run, what a subscription to all three kinds is told about one custom event is
   accepted by the automaton and takes it from the row's first state to its last; for a row
   that did not exist at first it is a prefix of [deleted] (created updated* deleted)*.
   */
  lemma {:induction false} StreamDrives(d: Db, steps: seq<Step>, s: Subscription, name: string, externalId: string)
    requires Constant(steps, s) && HearsAll(s)
    ensures var r := Run(d, steps);
            && d.deliveries <= r.deliveries
            && Drive(StateOf(d, name, externalId), Stream(d, r, s.id, name, externalId))
               == Some(StateOf(r, name, externalId))
    decreases |steps|
  {
    if steps == [] {
      assert Added(d.deliveries, d.deliveries) == [];
    } else {
      var d1, r := Exec(d, steps[0]), Run(d, steps);
      if Commits(d, steps[0]) {
        StepDrives(d, steps[0], s, name, externalId);
      } else {
        assert Added(d.deliveries, d1.deliveries) == [];
      }
      StreamDrives(d1, steps[1..], s, name, externalId);
      var p := About(s.id, name, externalId);
      AddedCompose(d.deliveries, d1.deliveries, r.deliveries);
      SelectAppend(Added(d.deliveries, d1.deliveries), Added(d1.deliveries, r.deliveries), p);
      ImageAppend(Select(Added(d.deliveries, d1.deliveries), p), Select(Added(d1.deliveries, r.deliveries), p), LetterIn());
      DriveAppend(StateOf(d, name, externalId), Stream(d, d1, s.id, name, externalId),
                  Stream(d1, r, s.id, name, externalId));
    }
  }

  lemma {:induction false} LastLetterTells(s: RowState, w: seq<Letter>)
    requires w != [] && Drive(s, w) != None
    ensures Drive(s, w) == Some(if w[|w| - 1] == Removed then Dead else Live)
    decreases |w|
  {
    if |w| > 1 {
      LastLetterTells(Next(s, w[0]).value, w[1..]);
    }
  }

  lemma StreamIsRegular(d: Db, steps: seq<Step>, s: Subscription, name: string, externalId: string)
    requires Constant(steps, s) && HearsAll(s) && (name, externalId) !in d.events
    ensures var r := Run(d, steps);
            && d.deliveries <= r.deliveries
            && var w := Stream(d, r, s.id, name, externalId);
               && (exists lead, ns :: w <= Sentence(lead, ns))
               && (w == [] <==> (name, externalId) !in r.events)
               && (w != [] ==> (r.events[(name, externalId)].deletedAt == None <==> w[|w| - 1] != Removed))
  {
    StreamDrives(d, steps, s, name, externalId);
    var w := Stream(d, Run(d, steps), s.id, name, externalId);
    AutomatonIsTheExpression(w);
    if w != [] {
      LastLetterTells(Absent, w);
    }
  }
}
