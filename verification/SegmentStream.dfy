/** What a subscriber hears of one segment membership, and what the timeline says of it, over runs. */
module SegmentStream {
  import opened Prelude
  import opened Tables
  import opened Triggers
  import opened Cascade
  import opened Runs
  import opened Webhooks

  function About(id: string, email: string, segmentId: string): Delivery -> bool {
    (x: Delivery) => x.subscriptionId == id && x.payload.SegmentPayload? && x.payload.email == email
                     && x.payload.segmentId == segmentId
  }

  function RowsAbout(email: string, segmentId: string): TimelineRow -> bool {
    (x: TimelineRow) => x.entity.SegmentEntity? && x.email == email && x.entityId == Some(segmentId)
  }

  function KindOf(): TimelineRow -> string {
    (x: TimelineRow) => x.kind
  }

  predicate HearsBoth(s: Subscription) {
    "segment.joined" in s.eventTypes && "segment.left" in s.eventTypes
  }

  /** The words alternate, beginning with a join for someone outside and a departure for a member. */
  predicate Alternates(member: bool, w: seq<string>)
    decreases |w|
  {
    w == [] || (w[0] == (if member then "segment.left" else "segment.joined") && Alternates(!member, w[1..]))
  }

  lemma {:induction false} AlternatesAppend(member: bool, a: seq<string>, b: seq<string>)
    requires Alternates(member, a) && Alternates(member != (|a| % 2 == 1), b)
    ensures Alternates(member, a + b)
    decreases |a|
  {
    if a == [] {
      assert a + b == b;
    } else {
      assert (a + b)[1..] == a[1..] + b;
      AlternatesAppend(!member, a[1..], b);
    }
  }

  predicate Touches(st: Statement, email: string, segmentId: string) {
    (st.InsertMember? || st.DeleteMember?) && st.email == email && st.segmentId == segmentId
  }

  /** What one committed step says, in both places. */
  function Said(d: Db, st: Statement, email: string, segmentId: string): seq<string> {
    if !Touches(st, email, segmentId) then []
    else if st.InsertMember? then ["segment.joined"]
    else if (email, segmentId) in d.members then ["segment.left"]
    else []
  }

  lemma OwnRowsSay(d: Db, st: Statement, now: Time, email: string, segmentId: string)
    ensures Image(Select(RowsOf(d, st, now), RowsAbout(email, segmentId)), KindOf()) == Said(d, st, email, segmentId)
  {
    RowsAreSource(d, st, now);
    if Touches(st, email, segmentId) {
      SelectAll(RowsOf(d, st, now), RowsAbout(email, segmentId));
    } else {
      SelectNone(RowsOf(d, st, now), RowsAbout(email, segmentId));
    }
  }

  lemma OwnEventSays(c: ValidConfig, d: Db, st: Statement, s: Subscription, email: string, segmentId: string)
    requires HearsBoth(s)
    ensures Types(Select(Received(s.id, s.eventTypes, WebhookOf(c, d, st)), About(s.id, email, segmentId)))
         == Said(d, st, email, segmentId)
  {
    var w := WebhookOf(c, d, st);
    var got := Received(s.id, s.eventTypes, w);
    if Touches(st, email, segmentId) {
      SelectAll(got, About(s.id, email, segmentId));
      assert w != None ==> got == [Delivery(s.id, w.value.kind, w.value.payload)];
    } else {
      SelectNone(got, About(s.id, email, segmentId));
    }
  }

  /** The rows and the deliveries between two databases say that, and the membership follows them. */
  ghost predicate Tells(d: Db, r: Db, id: string, email: string, segmentId: string, w: seq<string>) {
    && d.timeline <= r.timeline && d.deliveries <= r.deliveries
    && Image(Select(Added(d.timeline, r.timeline), RowsAbout(email, segmentId)), KindOf()) == w
    && Types(Select(Added(d.deliveries, r.deliveries), About(id, email, segmentId))) == w
    && Follows(d, r, email, segmentId, w)
  }

  predicate Follows(d: Db, r: Db, email: string, segmentId: string, w: seq<string>) {
    && Alternates((email, segmentId) in d.members, w)
    && ((email, segmentId) in r.members <==> ((email, segmentId) in d.members) != (|w| % 2 == 1))
  }

  lemma NothingTold(d: Db, id: string, email: string, segmentId: string)
    ensures Tells(d, d, id, email, segmentId, [])
  {
    assert Added(d.timeline, d.timeline) == [] && Added(d.deliveries, d.deliveries) == [];
  }

  lemma MembershipFollows(d: Db, step: Step, email: string, segmentId: string)
    requires Commits(d, step)
    ensures Follows(d, Exec(d, step), email, segmentId, Said(d, step.statement, email, segmentId))
  {
    StepTables(d, step);
    hide Commits, Exec, Said;
    SaidFollows(d, Exec(d, step), step.statement, email, segmentId);
  }

  lemma SaidFollows(d: Db, r: Db, st: Statement, email: string, segmentId: string)
    requires r.members == MembersAfter(d, st) && (st.InsertMember? ==> (st.email, st.segmentId) !in d.members)
    ensures Follows(d, r, email, segmentId, Said(d, st, email, segmentId))
  {
    var w := Said(d, st, email, segmentId);
    if w != [] {
      assert |w| == 1 && Alternates(w[0] == "segment.joined", w[1..]);
    }
  }

  lemma StepTells(d: Db, step: Step, s: Subscription, email: string, segmentId: string)
    requires Commits(d, step) && Unfiltered(s) && s in step.c.subscriptions && HearsBoth(s)
    ensures Tells(d, Exec(d, step), s.id, email, segmentId, Said(d, step.statement, email, segmentId))
  {
    MembershipFollows(d, step, email, segmentId);
    OwnRowsOfStep(d, step, RowsAbout(email, segmentId));
    OwnDeliveriesOfStep(d, step, s, About(s.id, email, segmentId));
    hide Commits, Exec, RowsOf, WebhookOf, Said, Follows, Select, Image, Types;
    OwnRowsSay(d, step.statement, step.now, email, segmentId);
    OwnEventSays(step.c, d, step.statement, s, email, segmentId);
  }

  lemma TellsCompose(a: Db, b: Db, c: Db, id: string, email: string, segmentId: string, v: seq<string>, w: seq<string>)
    requires Tells(a, b, id, email, segmentId, v) && Tells(b, c, id, email, segmentId, w)
    ensures Tells(a, c, id, email, segmentId, v + w)
  {
    hide Image, Select, Types, About, RowsAbout;
    FollowsCompose(a, b, c, email, segmentId, v, w);
    hide Follows;
    Joined(a, b, c, id, email, segmentId);
  }

  lemma FollowsCompose(a: Db, b: Db, c: Db, email: string, segmentId: string, v: seq<string>, w: seq<string>)
    requires Follows(a, b, email, segmentId, v) && Follows(b, c, email, segmentId, w)
    ensures Follows(a, c, email, segmentId, v + w)
  {
    AlternatesAppend((email, segmentId) in a.members, v, w);
  }

  /**
   Over any run the timeline and a subscriber to both events say the same of a membership:
   joining and leaving in turn, beginning as it stood at first, and their number tells
   whether the contact is a member at the end.
   */
  lemma {:induction false} MembershipAlternates(d: Db, steps: seq<Step>, s: Subscription, email: string, segmentId: string)
    requires Constant(steps, s) && HearsBoth(s)
    ensures exists w :: Tells(d, Run(d, steps), s.id, email, segmentId, w)
    decreases |steps|
  {
    hide Commits, Said, Tells, Exec;
    if steps == [] {
      assert Run(d, steps) == d;
      NothingTold(d, s.id, email, segmentId);
    } else {
      var d1, r := Exec(d, steps[0]), Run(d, steps);
      MembershipAlternates(d1, steps[1..], s, email, segmentId);
      var w :| Tells(d1, r, s.id, email, segmentId, w);
      if Commits(d, steps[0]) {
        var said := Said(d, steps[0].statement, email, segmentId);
        StepTells(d, steps[0], s, email, segmentId);
        TellsCompose(d, d1, r, s.id, email, segmentId, said, w);
      } else {
        UncommittedChangesNothing(d, steps[0]);
      }
    }
  }

  lemma UncommittedChangesNothing(d: Db, step: Step)
    requires !Commits(d, step)
    ensures Exec(d, step) == d
  {
  }

  lemma Joined(a: Db, b: Db, c: Db, id: string, email: string, segmentId: string)
    requires a.timeline <= b.timeline <= c.timeline && a.deliveries <= b.deliveries <= c.deliveries
    ensures var p, q := RowsAbout(email, segmentId), About(id, email, segmentId);
            && Image(Select(Added(a.timeline, c.timeline), p), KindOf())
               == Image(Select(Added(a.timeline, b.timeline), p), KindOf()) + Image(Select(Added(b.timeline, c.timeline), p), KindOf())
            && Types(Select(Added(a.deliveries, c.deliveries), q))
               == Types(Select(Added(a.deliveries, b.deliveries), q)) + Types(Select(Added(b.deliveries, c.deliveries), q))
  {
    var p, q := RowsAbout(email, segmentId), About(id, email, segmentId);
    AddedCompose(a.timeline, b.timeline, c.timeline);
    AddedCompose(a.deliveries, b.deliveries, c.deliveries);
    SelectAppend(Added(a.timeline, b.timeline), Added(b.timeline, c.timeline), p);
    SelectAppend(Added(a.deliveries, b.deliveries), Added(b.deliveries, c.deliveries), q);
    ImageAppend(Select(Added(a.timeline, b.timeline), p), Select(Added(b.timeline, c.timeline), p), KindOf());
    ImageAppend(Select(Added(a.deliveries, b.deliveries), q), Select(Added(b.deliveries, c.deliveries), q), TypeOf());
  }
}
