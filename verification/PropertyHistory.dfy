/** The property differences recorded for a custom event replay in both directions. */
module PropertyHistory {
  import opened Prelude
  import opened Diffs
  import opened Tables
  import opened Automations
  import opened Triggers
  import opened Cascade
  import opened Runs
  import opened Webhooks

  function UpdatesOf(name: string, externalId: string): TimelineRow -> bool {
    (x: TimelineRow) => x.entity.EventEntity? && x.operation.UpdateOp? && x.kind == CUSTOM_PREFIX + name
                        && x.entityId == Some(externalId)
  }

  function DiffsOf(rows: seq<TimelineRow>): seq<map<string, Change>> {
    Image(rows, DiffIn())
  }

  function DiffIn(): TimelineRow -> map<string, Change> {
    (x: TimelineRow) => if x.changes.EventChanges? then x.changes.properties else map[]
  }

  function History(before: Db, after: Db, name: string, externalId: string): seq<map<string, Change>>
    requires before.timeline <= after.timeline
  {
    DiffsOf(Select(Added(before.timeline, after.timeline), UpdatesOf(name, externalId)))
  }

  /** The properties without those that are JSON null. */
  function NonNull(r: Record): Record {
    Visible(r.Keys, r)
  }

  lemma PropertyDiffConnects(b: CustomEvent, e: CustomEvent)
    ensures Patch(NonNull(b.properties), PropertyDiff(b, e)) == NonNull(e.properties)
    ensures Unpatch(NonNull(e.properties), PropertyDiff(b, e)) == NonNull(b.properties)
  {
    var keys := b.properties.Keys + e.properties.Keys;
    DiffConnects(keys, b.properties, e.properties);
    assert Visible(keys, b.properties) == NonNull(b.properties);
    assert Visible(keys, e.properties) == NonNull(e.properties);
  }

  predicate Updates(s: Statement, name: string, externalId: string) {
    s.UpdateEvent? && s.name == name && s.externalId == externalId
  }

  lemma KindDeterminesName(a: string, b: string)
    requires CUSTOM_PREFIX + a == CUSTOM_PREFIX + b
    ensures a == b
  {
    assert (CUSTOM_PREFIX + a)[|CUSTOM_PREFIX|..] == a;
    assert (CUSTOM_PREFIX + b)[|CUSTOM_PREFIX|..] == b;
  }

  lemma RowsAboutEvent(d: Db, s: Statement, now: Time, name: string, externalId: string)
    requires (name, externalId) in d.events
    ensures Select(RowsOf(d, s, now), UpdatesOf(name, externalId))
         == if Updates(s, name, externalId)
            then EventRows(name, externalId, Updated(d.events[(name, externalId)], s.event), now) else []
  {
    var p := UpdatesOf(name, externalId);
    RowsAreSource(d, s, now);
    if Updates(s, name, externalId) {
      SelectAll(RowsOf(d, s, now), p);
    } else if s.UpdateEvent? {
      if s.externalId == externalId && CUSTOM_PREFIX + s.name == CUSTOM_PREFIX + name {
        KindDeterminesName(s.name, name);
      }
      SelectNone(RowsOf(d, s, now), p);
    } else {
      if s.InsertEvent? {
        assert forall x :: x in RowsOf(d, s, now) ==> x.operation == InsertOp;
      }
      SelectNone(RowsOf(d, s, now), p);
    }
  }

  lemma EventAfterStep(d: Db, step: Step, name: string, externalId: string)
    requires (name, externalId) in d.events && Commits(d, step)
    ensures var r, s := Exec(d, step), step.statement;
            && (name, externalId) in r.events && d.timeline <= r.timeline
            && r.events[(name, externalId)]
               == if Updates(s, name, externalId) then s.event else d.events[(name, externalId)]
  {
    StepTables(d, step);
  }

  lemma StepReplays(d: Db, step: Step, name: string, externalId: string)
    requires (name, externalId) in d.events && Commits(d, step)
    ensures var r, k := Exec(d, step), (name, externalId);
            && k in r.events && d.timeline <= r.timeline
            && Replay(NonNull(d.events[k].properties), History(d, r, name, externalId)) == NonNull(r.events[k].properties)
            && Rewind(NonNull(r.events[k].properties), History(d, r, name, externalId)) == NonNull(d.events[k].properties)
  {
    var s := step.statement;
    EventAfterStep(d, step, name, externalId);
    OwnRowsOfStep(d, step, UpdatesOf(name, externalId));
    RowsAboutEvent(d, s, step.now, name, externalId);
    if Updates(s, name, externalId) {
      var b := d.events[(name, externalId)];
      PropertyDiffConnects(b, s.event);
      var row := EventRows(name, externalId, Updated(b, s.event), step.now)[0];
      assert [row][1..] == [];
      var diff := PropertyDiff(b, s.event);
      assert DiffsOf([row]) == [diff];
      assert [diff][1..] == [];
      assert Replay(Patch(NonNull(b.properties), diff), []) == Patch(NonNull(b.properties), diff);
      assert Rewind(NonNull(s.event.properties), []) == NonNull(s.event.properties);
    }
  }

  /**
   Over any run, patching the first properties of a custom event with the recorded
   differences gives its last ones, and un-patching the last gives the first, up to
   properties that are JSON null.
   */
  lemma {:induction false} PropertyHistoryReplays(d: Db, steps: seq<Step>, name: string, externalId: string)
    requires (name, externalId) in d.events
    ensures var r, k := Run(d, steps), (name, externalId);
            && k in r.events && d.timeline <= r.timeline
            && Replay(NonNull(d.events[k].properties), History(d, r, name, externalId)) == NonNull(r.events[k].properties)
            && Rewind(NonNull(r.events[k].properties), History(d, r, name, externalId)) == NonNull(d.events[k].properties)
    decreases |steps|
  {
    if steps == [] {
      assert Added(d.timeline, d.timeline) == [];
    } else {
      var d1, r := Exec(d, steps[0]), Run(d, steps);
      if Commits(d, steps[0]) {
        StepReplays(d, steps[0], name, externalId);
      } else {
        assert Added(d.timeline, d1.timeline) == [];
      }
      PropertyHistoryReplays(d1, steps[1..], name, externalId);
      var p := UpdatesOf(name, externalId);
      AddedCompose(d.timeline, d1.timeline, r.timeline);
      SelectAppend(Added(d.timeline, d1.timeline), Added(d1.timeline, r.timeline), p);
      ImageAppend(Select(Added(d.timeline, d1.timeline), p), Select(Added(d1.timeline, r.timeline), p), DiffIn());
      var h, t := History(d, d1, name, externalId), History(d1, r, name, externalId);
      ReplayAppend(NonNull(d.events[(name, externalId)].properties), h, t);
      RewindAppend(NonNull(r.events[(name, externalId)].properties), h, t);
    }
  }

  predicate NoJsonNull(r: Record) {
    forall p :: p in r ==> r[p] != JNull
  }

  /** Leaving out JSON nulls changes exactly the properties that hold one. */
  lemma NonNullIsExact(r: Record)
    ensures NonNull(r) == r <==> NoJsonNull(r)
  {
    if p :| p in r && r[p] == JNull {
      assert p !in NonNull(r);
    }
  }

  /**
   The patched result is exactly the last properties if and only if those hold no JSON null,
   and the un-patched one exactly the first if and only if those hold none.
   */
  lemma PropertyHistoryIsExact(d: Db, steps: seq<Step>, name: string, externalId: string)
    requires (name, externalId) in d.events
    ensures var r, k := Run(d, steps), (name, externalId);
            && k in r.events && d.timeline <= r.timeline
            && var first, last := d.events[k].properties, r.events[k].properties;
               && (Replay(NonNull(first), History(d, r, name, externalId)) == last <==> NoJsonNull(last))
               && (Rewind(NonNull(last), History(d, r, name, externalId)) == first <==> NoJsonNull(first))
               && (NoJsonNull(first) ==> NonNull(first) == first)
  {
    PropertyHistoryReplays(d, steps, name, externalId);
    NonNullIsExact(d.events[(name, externalId)].properties);
    NonNullIsExact(Run(d, steps).events[(name, externalId)].properties);
  }
}
