/** The recorded history of a contact row replays in both directions, whatever else runs. */
module ContactHistory {
  import opened Prelude
  import opened Diffs
  import opened Tables
  import opened Automations
  import opened Triggers
  import opened Cascade
  import opened Runs
  import opened Webhooks

  function UpdatesOf(email: string): TimelineRow -> bool {
    (x: TimelineRow) => x.entity.ContactEntity? && x.kind == "contact.updated" && x.email == email
  }

  function UpdatedMail(id: string, email: string): Delivery -> bool {
    (x: Delivery) => x.subscriptionId == id && x.payload.ContactPayload? && x.payload.email == email
                     && x.eventType == "contact.updated"
  }

  /** The differences recorded in these rows, oldest first. */
  function DiffsOf(rows: seq<TimelineRow>): seq<map<string, Change>> {
    Image(rows, DiffIn())
  }

  function DiffIn(): TimelineRow -> map<string, Change> {
    (x: TimelineRow) => if x.changes.FieldChanges? then x.changes.fields else map[]
  }

  /** What the timeline records about one contact between two states of the database. */
  function History(before: Db, after: Db, email: string): seq<map<string, Change>>
    requires before.timeline <= after.timeline
  {
    DiffsOf(Select(Added(before.timeline, after.timeline), UpdatesOf(email)))
  }

  function Tracked(c: Contact): Record {
    Visible(Columns(TRACKED_COLUMNS), c.cells)
  }

  lemma HistoryCompose(a: Db, b: Db, c: Db, email: string)
    requires a.timeline <= b.timeline <= c.timeline
    ensures History(a, c, email) == History(a, b, email) + History(b, c, email)
  {
    AddedCompose(a.timeline, b.timeline, c.timeline);
    SelectAppend(Added(a.timeline, b.timeline), Added(b.timeline, c.timeline), UpdatesOf(email));
    ImageAppend(Select(Added(a.timeline, b.timeline), UpdatesOf(email)),
                Select(Added(b.timeline, c.timeline), UpdatesOf(email)), DiffIn());
  }

  /** The name of one of the twenty custom columns. */
  function Custom(family: string, digit: char): string {
    "custom_" + family + "_" + [digit]
  }

  /** The two hand-written column lists name the same columns. */
  lemma SameColumns()
    ensures Columns(TRACKED_COLUMNS) == Columns(WEBHOOK_COLUMNS)
  {
    assert TRACKED_COLUMNS == WEBHOOK_COLUMNS;
  }

  /** Which columns they are: thirteen by name, and five of each of four custom families. */
  lemma ColumnsAre(f: string)
    ensures f in TRACKED_COLUMNS
       <==> || f in ["external_id", "timezone", "language", "first_name", "last_name", "full_name", "phone",
                     "address_line_1", "address_line_2", "country", "postcode", "state", "job_title"]
            || f in Family("string") || f in Family("number") || f in Family("datetime") || f in Family("json")
  {
    FamiliesAre();
    hide Family;
  }

  /**
   An updated_fields list may name what the timeline tracks, but for two columns, and one it
   does not track, on which no automation can ever start.
   */
  lemma AllowedFieldsAre(f: string)
    ensures f in ALLOWED_CONTACT_FIELDS
       <==> f == "photo_url" || (f in TRACKED_COLUMNS && f != "full_name" && f != "job_title")
    ensures "photo_url" !in TRACKED_COLUMNS
  {
    hide TRACKED_COLUMNS, ALLOWED_CONTACT_FIELDS;
    if f in TRACKED_COLUMNS {
      TrackedIsAllowed(f);
    }
    if f in ALLOWED_CONTACT_FIELDS {
      AllowedIsTracked(f);
    }
    PhotoIsNotTracked();
  }

  lemma PhotoIsNotTracked()
    ensures "photo_url" !in TRACKED_COLUMNS && "photo_url" in ALLOWED_CONTACT_FIELDS
  {
    assert ALLOWED_CONTACT_FIELDS[6] == "photo_url";
  }

  lemma TrackedIsAllowed(f: string)
    requires f in TRACKED_COLUMNS
    ensures f in ALLOWED_CONTACT_FIELDS || f == "full_name" || f == "job_title"
  {
  }

  lemma AllowedIsTracked(f: string)
    requires f in ALLOWED_CONTACT_FIELDS
    ensures (f == "photo_url" || f in TRACKED_COLUMNS) && f != "full_name" && f != "job_title"
  {
  }

  function Family(family: string): seq<string> {
    [Custom(family, '1'), Custom(family, '2'), Custom(family, '3'), Custom(family, '4'), Custom(family, '5')]
  }

  lemma FamiliesAre()
    ensures Family("string") == ["custom_string_1", "custom_string_2", "custom_string_3", "custom_string_4", "custom_string_5"]
    ensures Family("number") == ["custom_number_1", "custom_number_2", "custom_number_3", "custom_number_4", "custom_number_5"]
    ensures Family("datetime")
         == ["custom_datetime_1", "custom_datetime_2", "custom_datetime_3", "custom_datetime_4", "custom_datetime_5"]
    ensures Family("json") == ["custom_json_1", "custom_json_2", "custom_json_3", "custom_json_4", "custom_json_5"]
  {
    assert "custom_" + "string" + "_" == "custom_string_";
    assert Custom("string", '1') == "custom_string_1" && Custom("string", '2') == "custom_string_2"
           && Custom("string", '3') == "custom_string_3" && Custom("string", '4') == "custom_string_4"
           && Custom("string", '5') == "custom_string_5";
    assert "custom_" + "number" + "_" == "custom_number_";
    assert Custom("number", '1') == "custom_number_1" && Custom("number", '2') == "custom_number_2"
           && Custom("number", '3') == "custom_number_3" && Custom("number", '4') == "custom_number_4"
           && Custom("number", '5') == "custom_number_5";
    assert "custom_" + "datetime" + "_" == "custom_datetime_";
    assert Custom("datetime", '1') == "custom_datetime_1" && Custom("datetime", '2') == "custom_datetime_2"
           && Custom("datetime", '3') == "custom_datetime_3" && Custom("datetime", '4') == "custom_datetime_4"
           && Custom("datetime", '5') == "custom_datetime_5";
    assert "custom_" + "json" + "_" == "custom_json_";
    assert Custom("json", '1') == "custom_json_1" && Custom("json", '2') == "custom_json_2"
           && Custom("json", '3') == "custom_json_3" && Custom("json", '4') == "custom_json_4"
           && Custom("json", '5') == "custom_json_5";
  }

  /** The timeline records an update exactly when the webhook comparison lets it through. */
  lemma ContactClassifiersAgree(email: string, b: Contact, c: Contact, now: Time)
    ensures ContactRows(email, Updated(b, c), now) != [] <==> ContactWebhook(email, Updated(b, c)) != None
    ensures ContactWebhook(email, Updated(b, c)) == None
       <==> forall f :: f in TRACKED_COLUMNS ==> Lookup(b.cells, f) == Lookup(c.cells, f)
  {
    SameColumns();
    if ContactDiff(b, c) != map[] {
      var f :| f in ContactDiff(b, c);
      assert f in Columns(WEBHOOK_COLUMNS) && Lookup(b.cells, f) != Lookup(c.cells, f);
    }
    if !SameOn(WEBHOOK_COLUMNS, b.cells, c.cells) {
      var f :| f in WEBHOOK_COLUMNS && Lookup(b.cells, f) != Lookup(c.cells, f);
      assert f in Columns(TRACKED_COLUMNS) && f in ContactDiff(b, c);
    }
    assert forall f :: f in TRACKED_COLUMNS <==> f in Columns(TRACKED_COLUMNS);
    assert forall f :: f in WEBHOOK_COLUMNS <==> f in Columns(WEBHOOK_COLUMNS);
  }

  predicate Updates(s: Statement, email: string) {
    s.UpdateContact? && s.email == email
  }

  lemma RowsAboutContact(d: Db, s: Statement, now: Time, email: string)
    requires email in d.contacts
    ensures Select(RowsOf(d, s, now), UpdatesOf(email))
         == if Updates(s, email) then ContactRows(email, Updated(d.contacts[email], s.contact), now) else []
  {
    RowsAreSource(d, s, now);
    if Updates(s, email) {
      SelectAll(RowsOf(d, s, now), UpdatesOf(email));
    } else if s.UpdateContact? || s.InsertContact? {
      SelectNone(RowsOf(d, s, now), UpdatesOf(email));
    } else if s.DeleteContact? {
    } else {
      SelectNone(RowsOf(d, s, now), UpdatesOf(email));
    }
  }

  lemma ContactAfterStep(d: Db, step: Step, email: string)
    requires email in d.contacts && step.statement != DeleteContact(email) && Commits(d, step)
    ensures var r := Exec(d, step);
            && email in r.contacts && d.timeline <= r.timeline
            && r.contacts[email] == (if Updates(step.statement, email) then step.statement.contact else d.contacts[email])
  {
    StepTables(d, step);
  }

  /** One committed statement: its recorded differences connect the two versions of the row. */
  lemma StepReplays(d: Db, step: Step, email: string)
    requires email in d.contacts && step.statement != DeleteContact(email) && Commits(d, step)
    ensures var r := Exec(d, step);
            && email in r.contacts && d.timeline <= r.timeline
            && Replay(Tracked(d.contacts[email]), History(d, r, email)) == Tracked(r.contacts[email])
            && Rewind(Tracked(r.contacts[email]), History(d, r, email)) == Tracked(d.contacts[email])
  {
    var s := step.statement;
    ContactAfterStep(d, step, email);
    OwnRowsOfStep(d, step, UpdatesOf(email));
    RowsAboutContact(d, s, step.now, email);
    if Updates(s, email) {
      var b, c := d.contacts[email], s.contact;
      DiffConnects(Columns(TRACKED_COLUMNS), b.cells, c.cells);
      if ContactDiff(b, c) == map[] {
        NoDiffSameTracked(b, c);
      } else {
        var row := ContactRows(email, Updated(b, c), step.now)[0];
        assert [row][1..] == [];
        assert DiffsOf([row]) == [ContactDiff(b, c)];
        OneDiff(Tracked(b), Tracked(c), ContactDiff(b, c));
      }
    }
  }

  lemma NoDiffSameTracked(b: Contact, c: Contact)
    requires ContactDiff(b, c) == map[]
    ensures Tracked(b) == Tracked(c)
  {
    DiffConnects(Columns(TRACKED_COLUMNS), b.cells, c.cells);
    assert Patch(Tracked(b), map[]) == Tracked(b);
  }

  lemma OneDiff(b: Record, c: Record, diff: map<string, Change>)
    ensures Replay(b, [diff]) == Patch(b, diff) && Rewind(c, [diff]) == Unpatch(c, diff)
  {
  }

  /**
   Over any run that does not delete the contact, the recorded `new` values folded over the
   first version of the row give the last one, and the `old` values folded backwards over
   the last give the first, on all tracked columns up to JSON null being SQL NULL.
   */
  lemma {:induction false} ContactHistoryReplays(d: Db, steps: seq<Step>, email: string)
    requires email in d.contacts
    requires forall st :: st in steps ==> st.statement != DeleteContact(email)
    ensures var r := Run(d, steps);
            && email in r.contacts && d.timeline <= r.timeline
            && Replay(Tracked(d.contacts[email]), History(d, r, email)) == Tracked(r.contacts[email])
            && Rewind(Tracked(r.contacts[email]), History(d, r, email)) == Tracked(d.contacts[email])
    decreases |steps|
  {
    if steps == [] {
      assert Added(d.timeline, d.timeline) == [];
    } else {
      var d1 := Exec(d, steps[0]);
      var r := Run(d, steps);
      if Commits(d, steps[0]) {
        StepReplays(d, steps[0], email);
      } else {
        assert Added(d.timeline, d1.timeline) == [];
      }
      ContactHistoryReplays(d1, steps[1..], email);
      HistoryCompose(d, d1, r, email);
      ReplayAppend(Tracked(d.contacts[email]), History(d, d1, email), History(d1, r, email));
      RewindAppend(Tracked(r.contacts[email]), History(d, d1, email), History(d1, r, email));
    }
  }

  ghost predicate NoJsonNull(c: Contact) {
    forall f :: f in TRACKED_COLUMNS && f in c.cells ==> c.cells[f] != JNull
  }

  /**
   The replay is exact on every tracked column, JSON included, if and only if the last row
   holds no JSON null there; the rewind, if and only if the first row holds none.
   */
  lemma ContactHistoryIsExact(d: Db, steps: seq<Step>, email: string)
    requires email in d.contacts
    requires forall st :: st in steps ==> st.statement != DeleteContact(email)
    ensures var r := Run(d, steps);
            && email in r.contacts && d.timeline <= r.timeline
            && (NoJsonNull(r.contacts[email])
                <==> forall f :: f in TRACKED_COLUMNS ==>
                       Lookup(Replay(Tracked(d.contacts[email]), History(d, r, email)), f)
                       == Lookup(r.contacts[email].cells, f))
            && (NoJsonNull(d.contacts[email])
                <==> forall f :: f in TRACKED_COLUMNS ==>
                       Lookup(Rewind(Tracked(r.contacts[email]), History(d, r, email)), f)
                       == Lookup(d.contacts[email].cells, f))
  {
    ContactHistoryReplays(d, steps, email);
    var k := Columns(TRACKED_COLUMNS);
    var r := Run(d, steps);
    VisibleIsExact(k, d.contacts[email].cells);
    VisibleIsExact(k, r.contacts[email].cells);
    assert forall f :: f in TRACKED_COLUMNS <==> f in k;
  }

  lemma MailAboutContact(c: ValidConfig, d: Db, s: Statement, email: string, id: string, kinds: seq<string>)
    requires email in d.contacts && s != DeleteContact(email)
    ensures Updates(s, email) ==> WebhookOf(c, d, s) == ContactWebhook(email, Updated(d.contacts[email], s.contact))
    ensures !Updates(s, email) ==> forall x :: x in Received(id, kinds, WebhookOf(c, d, s)) ==> !UpdatedMail(id, email)(x)
  {
  }

  /** One committed statement sends as many contact.updated events as it records updates. */
  lemma StepSendsWhatItRecords(d: Db, step: Step, email: string, s: Subscription)
    requires email in d.contacts && step.statement != DeleteContact(email) && Commits(d, step)
    requires Unfiltered(s) && s in step.c.subscriptions && "contact.updated" in s.eventTypes
    ensures var r := Exec(d, step);
            && email in r.contacts && d.timeline <= r.timeline && d.deliveries <= r.deliveries
            && |Select(Added(d.deliveries, r.deliveries), UpdatedMail(s.id, email))|
            == |Select(Added(d.timeline, r.timeline), UpdatesOf(email))|
  {
    hide Exec, Commits, WebhookOf;
    var st, w := step.statement, WebhookOf(step.c, d, step.statement);
    ContactAfterStep(d, step, email);
    OwnRowsOfStep(d, step, UpdatesOf(email));
    OwnDeliveriesOfStep(d, step, s, UpdatedMail(s.id, email));
    RowsAboutContact(d, st, step.now, email);
    MailAboutContact(step.c, d, st, email, s.id, s.eventTypes);
    if Updates(st, email) {
      ContactClassifiersAgree(email, d.contacts[email], st.contact, step.now);
    } else {
      SelectNone(Received(s.id, s.eventTypes, w), UpdatedMail(s.id, email));
    }
  }

  /** Over any run the subscriber is told of exactly as many updates as the timeline records. */
  lemma {:induction false} UpdatesSentMatchUpdatesRecorded(d: Db, steps: seq<Step>, email: string, s: Subscription)
    requires email in d.contacts
    requires forall st :: st in steps ==> st.statement != DeleteContact(email)
    requires Constant(steps, s) && "contact.updated" in s.eventTypes
    ensures var r := Run(d, steps);
            && d.timeline <= r.timeline && d.deliveries <= r.deliveries
            && |Select(Added(d.deliveries, r.deliveries), UpdatedMail(s.id, email))| == |History(d, r, email)|
    decreases |steps|
  {
    if steps == [] {
      assert Added(d.timeline, d.timeline) == [] && Added(d.deliveries, d.deliveries) == [];
    } else {
      var d1, r := Exec(d, steps[0]), Run(d, steps);
      if Commits(d, steps[0]) {
        StepSendsWhatItRecords(d, steps[0], email, s);
      } else {
        assert Added(d.timeline, d1.timeline) == [] && Added(d.deliveries, d1.deliveries) == [];
      }
      UpdatesSentMatchUpdatesRecorded(d1, steps[1..], email, s);
      HistoryCompose(d, d1, r, email);
      AddedCompose(d.deliveries, d1.deliveries, r.deliveries);
      SelectAppend(Added(d.deliveries, d1.deliveries), Added(d1.deliveries, r.deliveries), UpdatedMail(s.id, email));
    }
  }
}
