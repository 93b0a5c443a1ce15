/**
 Updating a broadcast: UpdateBroadcastRequest.Validate overwrites the broadcast in place
 and only then validates it, so a rejected request may still have changed it. Whether a
 feed URL is acceptable, and which timezones load, is decided outside: `World`.
 */
module BroadcastUpdate {
  import opened Prelude
  import opened Diffs
  import Schedule

  datatype Audience = Audience(list: string, segments: seq<string>, excludeUnsubscribed: bool)

  datatype Plan = Plan(isScheduled: bool, settings: Schedule.Settings, useRecipientTimezone: bool)

  datatype Variation = Variation(name: string, templateID: string)

  datatype TestSettings = TestSettings(
    enabled: bool,
    samplePercentage: int,
    autoSendWinner: bool,
    autoSendWinnerMetric: string,
    testDurationHours: int,
    variations: seq<Variation>)

  datatype UTMParameters = UTMParameters(source: string, medium: string, campaign: string, term: string, content: string)

  datatype Header = Header(name: string, value: string)

  datatype FeedSettings = FeedSettings(enabled: bool, url: string, headers: seq<Header>)

  datatype Feed = Feed(
    global: Option<FeedSettings>,
    globalData: Option<Record>,
    globalFetchedAt: Option<Time>,
    recipient: Option<FeedSettings>)

  class DataFeedSettings {
    var globalFeed: Option<FeedSettings>
    var globalFeedData: Option<Record>
    var globalFeedFetchedAt: Option<Time>
    var recipientFeed: Option<FeedSettings>

    function Value(): Feed
      reads this
    {
      Feed(globalFeed, globalFeedData, globalFeedFetchedAt, recipientFeed)
    }
  }

  function FeedValue(feed: DataFeedSettings?): Option<Feed>
    reads feed
  {
    if feed == null then None else Some(feed.Value())
  }

  /** What a request replaces as a whole. */
  datatype Draft = Draft(
    name: string,
    audience: Audience,
    schedule: Plan,
    testSettings: TestSettings,
    utmParameters: Option<UTMParameters>,
    metadata: Option<Record>)

  /** Delivery progress, which no request touches. */
  datatype Progress = Progress(
    channelType: string,
    winningTemplate: Option<string>,
    testPhaseRecipientCount: int,
    winnerPhaseRecipientCount: int,
    enqueuedCount: int,
    pauseReason: Option<string>,
    times: map<string, Time>)

  datatype State = State(
    id: string,
    workspaceID: string,
    status: string,
    draft: Draft,
    feed: Option<Feed>,
    updatedAt: Time,
    progress: Progress)

  datatype UpdateBroadcastRequest = UpdateBroadcastRequest(id: string, workspaceID: string, draft: Draft, dataFeed: DataFeedSettings?)

  /** A request with what its feed pointer held when it was made. */
  datatype Update = Update(id: string, workspaceID: string, draft: Draft, feed: Option<Feed>, at: Time)

  datatype World = World(zones: Schedule.Zones, safeURL: string -> bool, https: string -> bool)

  // ---- Validation ----

  datatype FeedFault = NoURL | UnsafeURL | NotHTTPS | HeaderName | HeaderValue

  datatype Fault =
    | NoWorkspace
    | NoName
    | NameTooLong
    | BadStatus
    | SamplePercentage
    | TooFewVariations
    | TooManyVariations
    | NoTestDuration
    | TestDurationTooLong
    | NoWinnerMetric
    | BadWinnerMetric
    | NoTemplate(variation: nat)
    | NoList
    | BadSchedule(schedule: Schedule.Fault)
    | BadGlobalFeed(feed: FeedFault)
    | BadRecipientFeed(feed: FeedFault)

  datatype UpdateError = WorkspaceChanged | IDChanged | NotEditable | Invalid(fault: Fault)

  const STATUSES: set<string> := {"draft", "scheduled", "processing", "paused", "processed", "cancelled", "failed",
                                  "testing", "test_completed", "winner_selected"}

  const EDITABLE: set<string> := {"draft", "scheduled", "paused"}

  /** len(s): the length of the text in UTF-8. */
  function ByteLength(s: string): (n: nat)
    ensures |s| <= n <= 4 * |s|
  {
    if s == "" then 0
    else
      var c := s[0] as int;
      (if c < 0x80 then 1 else if c < 0x800 then 2 else if c < 0x1_0000 then 3 else 4) + ByteLength(s[1..])
  }

  /** The first header that is not complete. */
  function HeaderFault(headers: seq<Header>): (r: Option<FeedFault>)
    ensures r == None <==> forall h :: h in headers ==> h.name != "" && h.value != ""
  {
    if headers == [] then None
    else if headers[0].name == "" then Some(HeaderName)
    else if headers[0].value == "" then Some(HeaderValue)
    else HeaderFault(headers[1..])
  }

  function SettingsFault(feed: Option<FeedSettings>, https: bool, world: World): Option<FeedFault> {
    if feed == None || !feed.value.enabled then None
    else if feed.value.url == "" then Some(NoURL)
    else if !world.safeURL(feed.value.url) then Some(UnsafeURL)
    else if https && !world.https(feed.value.url) then Some(NotHTTPS)
    else HeaderFault(feed.value.headers)
  }

  function FeedsFault(global: Option<FeedSettings>, recipient: Option<FeedSettings>, world: World): Option<Fault> {
    match SettingsFault(global, false, world)
    case Some(f) => Some(BadGlobalFeed(f))
    case None =>
      match SettingsFault(recipient, true, world)
      case Some(f) => Some(BadRecipientFeed(f))
      case None => None
  }

  /** The first variation, numbered from 1, without a template. */
  function TemplateFault(variations: seq<Variation>, checked: nat): (r: Option<Fault>)
    requires checked <= |variations|
    ensures r == None <==> forall i :: checked <= i < |variations| ==> variations[i].templateID != ""
    decreases |variations| - checked
  {
    if checked == |variations| then None
    else if variations[checked].templateID == "" then Some(NoTemplate(checked + 1))
    else TemplateFault(variations, checked + 1)
  }

  function TestFault(t: TestSettings): Option<Fault> {
    if !t.enabled then None
    else if t.samplePercentage <= 0 || t.samplePercentage > 100 then Some(SamplePercentage)
    else if |t.variations| < 2 then Some(TooFewVariations)
    else if |t.variations| > 8 then Some(TooManyVariations)
    else if t.autoSendWinner && t.testDurationHours <= 0 then Some(NoTestDuration)
    else if t.autoSendWinner && t.testDurationHours > 168 then Some(TestDurationTooLong)
    else if t.autoSendWinner && t.autoSendWinnerMetric == "" then Some(NoWinnerMetric)
    else if t.autoSendWinner && t.autoSendWinnerMetric !in {"open_rate", "click_rate"} then Some(BadWinnerMetric)
    else TemplateFault(t.variations, 0)
  }

  /** What is wrong with everything but the feeds. */
  function DraftFault(workspaceID: string, status: string, d: Draft, world: World): Option<Fault> {
    if workspaceID == "" then Some(NoWorkspace)
    else if d.name == "" then Some(NoName)
    else if ByteLength(d.name) > 255 then Some(NameTooLong)
    else if status !in STATUSES then Some(BadStatus)
    else match TestFault(d.testSettings)
      case Some(f) => Some(f)
      case None =>
        if d.audience.list == "" then Some(NoList)
        else match Schedule.ScheduleFault(d.schedule.isScheduled, d.schedule.settings, world.zones)
          case Some(f) => Some(BadSchedule(f))
          case None => None
  }

  /** The verdict of Broadcast.Validate. */
  function FaultOf(s: State, world: World): Option<Fault> {
    match DraftFault(s.workspaceID, s.status, s.draft, world)
    case Some(f) => Some(f)
    case None =>
      if s.feed == None then None else FeedsFault(s.feed.value.global, s.feed.value.recipient, world)
  }

  // ---- One update ----

  predicate Admitted(s: State, u: Update) {
    u.workspaceID == s.workspaceID && u.id == s.id && s.status in EDITABLE
  }

  function Either<T>(given: Option<T>, present: Option<T>): Option<T> {
    if given.Some? then given else present
  }

  function MergedFeed(present: Option<Feed>, given: Option<Feed>): Option<Feed> {
    if present == None then given
    else if given == None then present
    else Some(Feed(Either(given.value.global, present.value.global), present.value.globalData,
                   present.value.globalFetchedAt, Either(given.value.recipient, present.value.recipient)))
  }

  /** The broadcast afterwards, accepted or not. */
  function Updated(s: State, u: Update): State {
    if Admitted(s, u) then s.(draft := u.draft, feed := MergedFeed(s.feed, u.feed), updatedAt := u.at) else s
  }

  function Verdict(s: State, u: Update, world: World): Option<UpdateError> {
    if u.workspaceID != s.workspaceID then Some(WorkspaceChanged)
    else if u.id != s.id then Some(IDChanged)
    else if s.status !in EDITABLE then Some(NotEditable)
    else match FaultOf(Updated(s, u), world)
      case Some(f) => Some(Invalid(f))
      case None => None
  }

  class Broadcast {
    const id: string
    const workspaceID: string
    var status: string
    var name: string
    var audience: Audience
    var schedule: Plan
    var testSettings: TestSettings
    var utmParameters: Option<UTMParameters>
    var metadata: Option<Record>
    var dataFeed: DataFeedSettings?
    var updatedAt: Time
    var progress: Progress

    function Contents(): Draft
      reads this
    {
      Draft(name, audience, schedule, testSettings, utmParameters, metadata)
    }

    function Snapshot(): State
      reads this, dataFeed
    {
      State(id, workspaceID, status, Contents(), FeedValue(dataFeed), updatedAt, progress)
    }

    method ValidateVariations() returns (fault: Option<Fault>)
      ensures fault == TemplateFault(testSettings.variations, 0)
    {
      var variations := testSettings.variations;
      for i := 0 to |variations|
        invariant TemplateFault(variations, 0) == TemplateFault(variations, i)
      {
        if variations[i].templateID == "" {
          return Some(NoTemplate(i + 1));
        }
      }
      return None;
    }

    method ValidateTest() returns (fault: Option<Fault>)
      ensures fault == TestFault(testSettings)
    {
      if !testSettings.enabled {
        return None;
      }
      if testSettings.samplePercentage <= 0 || testSettings.samplePercentage > 100 {
        return Some(SamplePercentage);
      }
      if |testSettings.variations| < 2 {
        return Some(TooFewVariations);
      }
      if |testSettings.variations| > 8 {
        return Some(TooManyVariations);
      }
      if testSettings.autoSendWinner {
        if testSettings.testDurationHours <= 0 {
          return Some(NoTestDuration);
        }
        if testSettings.testDurationHours > 168 {
          return Some(TestDurationTooLong);
        }
        if testSettings.autoSendWinnerMetric == "" {
          return Some(NoWinnerMetric);
        }
        if testSettings.autoSendWinnerMetric !in {"open_rate", "click_rate"} {
          return Some(BadWinnerMetric);
        }
      }
      fault := ValidateVariations();
    }

    method Validate(world: World) returns (fault: Option<Fault>)
      ensures fault == FaultOf(Snapshot(), world)
    {
      if workspaceID == "" {
        return Some(NoWorkspace);
      }
      if name == "" {
        return Some(NoName);
      }
      if ByteLength(name) > 255 {
        return Some(NameTooLong);
      }
      if status !in STATUSES {
        return Some(BadStatus);
      }
      fault := ValidateTest();
      if fault.Some? {
        return fault;
      }
      if audience.list == "" {
        return Some(NoList);
      }
      var scheduleFault := Schedule.ScheduleFault(schedule.isScheduled, schedule.settings, world.zones);
      if scheduleFault.Some? {
        return Some(BadSchedule(scheduleFault.value));
      }
      if dataFeed != null {
        return FeedsFault(dataFeed.globalFeed, dataFeed.recipientFeed, world);
      }
      return None;
    }
  }

  function ValueOf(r: UpdateBroadcastRequest, at: Time): Update
    reads r.dataFeed
  {
    Update(r.id, r.workspaceID, r.draft, FeedValue(r.dataFeed), at)
  }

  /**
   The feed part of an update. A broadcast without feeds adopts the request's own object,
   which later updates then write to; otherwise only the object it has is written to.
   */
  method MergeFeed(b: Broadcast, given: DataFeedSettings?)
    modifies b`dataFeed, b.dataFeed
    ensures FeedValue(b.dataFeed) == MergedFeed(old(FeedValue(b.dataFeed)), old(FeedValue(given)))
    ensures b.dataFeed == if old(b.dataFeed) == null then given else old(b.dataFeed)
    ensures given != null && given != old(b.dataFeed) ==> given.Value() == old(given.Value())
  {
    if given != null {
      if b.dataFeed == null {
        b.dataFeed := given;
      } else {
        var existingGlobalFeedData := b.dataFeed.globalFeedData;
        var existingGlobalFeedFetchedAt := b.dataFeed.globalFeedFetchedAt;
        if given.globalFeed.Some? {
          b.dataFeed.globalFeed := given.globalFeed;
        }
        if given.recipientFeed.Some? {
          b.dataFeed.recipientFeed := given.recipientFeed;
        }
        b.dataFeed.globalFeedData := existingGlobalFeedData;
        b.dataFeed.globalFeedFetchedAt := existingGlobalFeedFetchedAt;
      }
    }
  }

  /** UpdateBroadcastRequest.Validate. */
  method ValidateUpdate(r: UpdateBroadcastRequest, b: Broadcast, now: Time, world: World) returns (error: Option<UpdateError>)
    modifies b, b.dataFeed
    ensures b.Snapshot() == Updated(old(b.Snapshot()), old(ValueOf(r, now)))
    ensures error == Verdict(old(b.Snapshot()), old(ValueOf(r, now)), world)
    ensures b.dataFeed == old(b.dataFeed) || (old(b.dataFeed) == null && b.dataFeed == r.dataFeed)
  {
    hide FaultOf, MergedFeed;
    if r.workspaceID != b.workspaceID {
      return Some(WorkspaceChanged);
    }
    if r.id != b.id {
      return Some(IDChanged);
    }
    if b.status !in EDITABLE {
      return Some(NotEditable);
    }
    b.name := r.draft.name;
    b.audience := r.draft.audience;
    b.schedule := r.draft.schedule;
    b.testSettings := r.draft.testSettings;
    b.utmParameters := r.draft.utmParameters;
    b.metadata := r.draft.metadata;
    MergeFeed(b, r.dataFeed);
    b.updatedAt := now;
    var fault := b.Validate(world);
    return if fault.Some? then Some(Invalid(fault.value)) else None;
  }

  /** No setting the request supplies differs from the one there is. */
  predicate FeedUnchanged(present: Option<Feed>, given: Option<Feed>) {
    given.Some? ==>
      && present.Some?
      && (given.value.global.Some? ==> given.value.global == present.value.global)
      && (given.value.recipient.Some? ==> given.value.recipient == present.value.recipient)
  }

  /**
   Exactly when a request, accepted or rejected, leaves the broadcast as it was: it is
   refused on workspace, id or status, or it repeats what is there, time included. Any other
   request that validation rejects has left its mark.
   */
  lemma UnchangedIff(s: State, u: Update)
    ensures Updated(s, u) == s
       <==> || u.workspaceID != s.workspaceID || u.id != s.id || s.status !in ["draft", "scheduled", "paused"]
            || (u.draft == s.draft && u.at == s.updatedAt && FeedUnchanged(s.feed, u.feed))
  {
  }

  /** The refusals are the errors other than a failed validation; workspace before id before status. */
  lemma RefusedIff(s: State, u: Update, world: World)
    ensures Admitted(s, u)
       <==> u.workspaceID == s.workspaceID && u.id == s.id && s.status in ["draft", "scheduled", "paused"]
    ensures Verdict(s, u, world) in {Some(WorkspaceChanged), Some(IDChanged), Some(NotEditable)} <==> !Admitted(s, u)
    ensures Verdict(s, u, world) == Some(WorkspaceChanged) <==> u.workspaceID != s.workspaceID
    ensures Verdict(s, u, world) == Some(IDChanged) <==> u.workspaceID == s.workspaceID && u.id != s.id
  {
  }

  // ---- Runs of updates ----

  function Run(s: State, updates: seq<Update>): State {
    if updates == [] then s else Updated(Run(s, updates[..|updates| - 1]), updates[|updates| - 1])
  }

  /** What each request supplies, in order; a refused request supplies nothing. */
  function Given<T>(s: State, updates: seq<Update>, pick: Update -> Option<T>): (r: seq<Option<T>>)
    ensures |r| == |updates|
  {
    if updates == [] then []
    else
      var u := updates[|updates| - 1];
      Given(s, updates[..|updates| - 1], pick) + [if Admitted(s, u) then pick(u) else None]
  }

  /** The last value supplied, or the initial one when none was. */
  function LastGiven<T>(initial: Option<T>, given: seq<Option<T>>): Option<T> {
    if given == [] then initial
    else Either(given[|given| - 1], LastGiven(initial, given[..|given| - 1]))
  }

  /** The initial value, or the first one supplied when there was none. */
  function FirstGiven<T>(initial: Option<T>, given: seq<Option<T>>): Option<T> {
    if given == [] then initial
    else Either(FirstGiven(initial, given[..|given| - 1]), given[|given| - 1])
  }

  lemma {:induction false} LastGivenMeans<T>(initial: Option<T>, given: seq<Option<T>>, x: T)
    ensures LastGiven(initial, given) == Some(x)
       <==> || (exists i :: 0 <= i < |given| && given[i] == Some(x) && forall j :: i < j < |given| ==> given[j] == None)
            || (initial == Some(x) && forall j :: 0 <= j < |given| ==> given[j] == None)
  {
    if given != [] {
      var n := |given| - 1;
      var front := given[..n];
      LastGivenMeans(initial, front, x);
      assert forall j :: 0 <= j < n ==> front[j] == given[j];
      if given[n] == None && LastGiven(initial, front) == Some(x) && initial != Some(x) {
        var i :| 0 <= i < n && front[i] == Some(x) && forall j :: i < j < n ==> front[j] == None;
        assert given[i] == Some(x) && forall j :: i < j < |given| ==> given[j] == None;
      }
    }
  }

  function GlobalOf(feed: Option<Feed>): Option<FeedSettings> {
    if feed == None then None else feed.value.global
  }

  function RecipientOf(feed: Option<Feed>): Option<FeedSettings> {
    if feed == None then None else feed.value.recipient
  }

  function FeedGiven(u: Update): Option<Feed> {
    u.feed
  }

  function GlobalGiven(u: Update): Option<FeedSettings> {
    GlobalOf(u.feed)
  }

  function RecipientGiven(u: Update): Option<FeedSettings> {
    RecipientOf(u.feed)
  }

  function DraftGiven(u: Update): Option<Draft> {
    Some(u.draft)
  }

  function TimeGiven(u: Update): Option<Time> {
    Some(u.at)
  }

  /** The settings in force after a run: the last that an admitted request supplied. */
  function LastGlobal(s: State, updates: seq<Update>): Option<FeedSettings> {
    LastGiven(GlobalOf(s.feed), Given(s, updates, GlobalGiven))
  }

  function LastRecipient(s: State, updates: seq<Update>): Option<FeedSettings> {
    LastGiven(RecipientOf(s.feed), Given(s, updates, RecipientGiven))
  }

  /** The first feed there was, which is the one whose fetched data stays. */
  function FirstFeed(s: State, updates: seq<Update>): Option<Feed> {
    FirstGiven(s.feed, Given(s, updates, FeedGiven))
  }

  lemma {:induction false} RunKeepsIdentity(s: State, updates: seq<Update>)
    ensures var t := Run(s, updates);
            t.id == s.id && t.workspaceID == s.workspaceID && t.status == s.status && t.progress == s.progress
  {
    if updates != [] {
      RunKeepsIdentity(s, updates[..|updates| - 1]);
    }
  }

  /**
   The whole state after any run of requests, accepted or rejected: identity and progress
   as before; the draft and the time of the last admitted request; a feed as soon as anyone
   has supplied one, with the fetched data of the first, and each setting the last supplied.
   */
  lemma {:induction false} RunInClosedForm(s: State, updates: seq<Update>)
    ensures var t := Run(s, updates);
            var first := FirstFeed(s, updates);
            && t.id == s.id && t.workspaceID == s.workspaceID && t.status == s.status && t.progress == s.progress
            && Some(t.draft) == LastGiven(Some(s.draft), Given(s, updates, DraftGiven))
            && Some(t.updatedAt) == LastGiven(Some(s.updatedAt), Given(s, updates, TimeGiven))
            && GlobalOf(t.feed) == LastGlobal(s, updates)
            && RecipientOf(t.feed) == LastRecipient(s, updates)
            && (t.feed.Some? <==> first.Some?)
            && (t.feed.Some? ==> t.feed.value.globalData == first.value.globalData)
            && (t.feed.Some? ==> t.feed.value.globalFetchedAt == first.value.globalFetchedAt)
  {
    if updates != [] {
      var n := |updates| - 1;
      RunInClosedForm(s, updates[..n]);
      GivenLast(s, updates, DraftGiven);
      GivenLast(s, updates, TimeGiven);
      GivenLast(s, updates, GlobalGiven);
      GivenLast(s, updates, RecipientGiven);
      GivenLast(s, updates, FeedGiven);
    }
  }

  lemma GivenLast<T>(s: State, updates: seq<Update>, pick: Update -> Option<T>)
    requires updates != []
    ensures var given := Given(s, updates, pick);
            var n := |updates| - 1;
            && given[..n] == Given(s, updates[..n], pick)
            && given[n] == if Admitted(s, updates[n]) then pick(updates[n]) else None
  {
  }

  lemma {:induction false} RunAppend(s: State, a: seq<Update>, b: seq<Update>)
    ensures Run(s, a + b) == Run(Run(s, a), b)
    decreases |b|
  {
    if b == [] {
      assert a + b == a;
    } else {
      assert (a + b)[..|a + b| - 1] == a + b[..|b| - 1];
      RunAppend(s, a, b[..|b| - 1]);
    }
  }

  lemma {:induction false} FirstGivenKept<T>(initial: Option<T>, given: seq<Option<T>>)
    requires initial.Some?
    ensures FirstGiven(initial, given) == initial
  {
    if given != [] {
      FirstGivenKept(initial, given[..|given| - 1]);
    }
  }

  /** Once there is a feed it stays, and its fetched data and timestamp never change again. */
  lemma FetchedDataIsKept(s: State, first: seq<Update>, later: seq<Update>)
    requires Run(s, first).feed.Some?
    ensures var kept, latest := Run(s, first).feed.value, Run(s, first + later).feed;
            latest.Some? && latest.value.globalData == kept.globalData && latest.value.globalFetchedAt == kept.globalFetchedAt
  {
    RunAppend(s, first, later);
    var t := Run(s, first);
    RunInClosedForm(t, later);
    FirstGivenKept(t.feed, Given(t, later, FeedGiven));
  }

  function AdmittedBy(s: State): Update -> bool {
    (u: Update) => Admitted(s, u)
  }

  /** Requests refused on workspace, id or status leave no trace: a run is the run of the others. */
  lemma {:induction false} RefusedLeaveNoTrace(s: State, updates: seq<Update>)
    ensures Run(s, updates) == Run(s, Select(updates, AdmittedBy(s)))
  {
    if updates != [] {
      var n := |updates| - 1;
      var u := updates[n];
      var admits := AdmittedBy(s);
      RefusedLeaveNoTrace(s, updates[..n]);
      RunKeepsIdentity(s, updates[..n]);
      SelectAppend(updates[..n], [u], admits);
      assert updates == updates[..n] + [u];
      var admitted := Select(updates[..n], admits);
      assert Select([u], admits) == if Admitted(s, u) then [u] else [];
      assert admitted + [] == admitted && (admitted + [u])[..|admitted|] == admitted;
      assert Run(s, admitted + [u]) == Updated(Run(s, admitted), u);
    }
  }

  /**
   When a request is accepted, in terms of the run before it: it is admitted, its own draft
   is sound, and so are the feed settings in force, which may have come from any earlier
   request, even one that was itself rejected.
   */
  lemma AcceptedIff(s: State, before: seq<Update>, u: Update, world: World)
    ensures Verdict(Run(s, before), u, world) == None
       <==> && Admitted(s, u)
            && DraftFault(s.workspaceID, s.status, u.draft, world) == None
            && SettingsFault(LastGlobal(s, before + [u]), false, world) == None
            && SettingsFault(LastRecipient(s, before + [u]), true, world) == None
  {
    var updates := before + [u];
    assert updates[..|before|] == before;
    RunKeepsIdentity(s, before);
    RunInClosedForm(s, updates);
    if Admitted(s, u) {
      var t := Run(s, updates);
      assert t == Updated(Run(s, before), u) && t.draft == u.draft;
      FaultParts(t, world);
    }
  }

  /** Validation looks at the draft and at each feed setting separately. */
  lemma FaultParts(t: State, world: World)
    ensures FaultOf(t, world) == None
       <==> && DraftFault(t.workspaceID, t.status, t.draft, world) == None
            && SettingsFault(GlobalOf(t.feed), false, world) == None
            && SettingsFault(RecipientOf(t.feed), true, world) == None
  {
  }

  /** No admitted request among these supplies the setting. */
  predicate NoneGiven<T(==)>(s: State, updates: seq<Update>, pick: Update -> Option<T>) {
    forall i :: 0 <= i < |updates| && Admitted(s, updates[i]) ==> pick(updates[i]) == None
  }

  /** An unsound feed setting, once admitted, keeps every later request out until one replaces it. */
  lemma UnsoundFeedSticks(s: State, before: seq<Update>, bad: Update, later: seq<Update>, u: Update, world: World)
    requires Admitted(s, bad)
    requires || (SettingsFault(GlobalGiven(bad), false, world).Some? && NoneGiven(s, later + [u], GlobalGiven))
             || (SettingsFault(RecipientGiven(bad), true, world).Some? && NoneGiven(s, later + [u], RecipientGiven))
    ensures Verdict(Run(s, before + [bad] + later), u, world) != None
  {
    var updates := before + [bad] + later;
    AcceptedIff(s, updates, u, world);
    assert updates + [u] == before + [bad] + (later + [u]);
    if SettingsFault(GlobalGiven(bad), false, world).Some? && NoneGiven(s, later + [u], GlobalGiven) {
      SettingStays(s, GlobalOf(s.feed), before, bad, later + [u], GlobalGiven);
    } else {
      SettingStays(s, RecipientOf(s.feed), before, bad, later + [u], RecipientGiven);
    }
  }

  lemma {:induction false} SettingStays<T>(s: State, initial: Option<T>, before: seq<Update>, bad: Update,
                                           later: seq<Update>, pick: Update -> Option<T>)
    requires Admitted(s, bad) && pick(bad).Some? && NoneGiven(s, later, pick)
    ensures LastGiven(initial, Given(s, before + [bad] + later, pick)) == pick(bad)
    decreases |later|
  {
    var updates := before + [bad] + later;
    GivenLast(s, updates, pick);
    if later != [] {
      var n := |later| - 1;
      assert updates[..|updates| - 1] == before + [bad] + later[..n];
      SettingStays(s, initial, before, bad, later[..n], pick);
    }
  }
}
