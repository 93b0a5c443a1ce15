/**
 The rules a broadcast must keep, as conditions on its fields in the order in which they are
 looked at, and what follows for a run of updates.
 */
module BroadcastRules {
  import opened Prelude
  import opened BroadcastUpdate
  import Schedule

  /** The first header without a name or a value, if any, lacks a name, or has one and lacks a value. */
  predicate FirstIncomplete(headers: seq<Header>, i: int) {
    && 0 <= i < |headers| && (headers[i].name == "" || headers[i].value == "")
    && forall j :: 0 <= j < i ==> headers[j].name != "" && headers[j].value != ""
  }

  ghost predicate FeedBreaks(feed: FeedSettings, https: bool, world: World, fault: FeedFault) {
    && feed.enabled
    && match fault
       case NoURL => feed.url == ""
       case UnsafeURL => !world.safeURL(feed.url)
       case NotHTTPS => https && !world.https(feed.url)
       case HeaderName => exists i :: FirstIncomplete(feed.headers, i) && feed.headers[i].name == ""
       case HeaderValue => exists i :: FirstIncomplete(feed.headers, i) && feed.headers[i].name != ""
  }

  ghost predicate PlanBreaks(p: Plan, zones: Schedule.Zones, fault: Schedule.Fault) {
    && p.isScheduled
    && match fault
       case Missing => p.settings.date == "" || p.settings.clock == ""
       case DateShape => |p.settings.date| != 10 || p.settings.date[4] != '-' || p.settings.date[7] != '-'
       case ClockShape => |p.settings.clock| != 5 || p.settings.clock[2] != ':'
       case UnknownTimezone => p.settings.timezone != "" && zones(p.settings.timezone) == None
  }

  ghost predicate TestBreaks(t: TestSettings, fault: BroadcastUpdate.Fault) {
    && t.enabled
    && match fault
       case SamplePercentage => !(1 <= t.samplePercentage <= 100)
       case TooFewVariations => |t.variations| < 2
       case TooManyVariations => |t.variations| > 8
       case NoTestDuration => t.autoSendWinner && t.testDurationHours <= 0
       case TestDurationTooLong => t.autoSendWinner && t.testDurationHours > 7 * 24
       case NoWinnerMetric => t.autoSendWinner && t.autoSendWinnerMetric == ""
       case BadWinnerMetric => t.autoSendWinner && t.autoSendWinnerMetric !in ["", "open_rate", "click_rate"]
       case NoTemplate(n) =>
         && 1 <= n <= |t.variations| && t.variations[n - 1].templateID == ""
         && forall j :: 0 <= j < n - 1 ==> t.variations[j].templateID != ""
       case _ => false
  }

  /** The broadcast breaks this rule, whatever others it breaks. */
  ghost predicate Breaks(s: State, world: World, fault: BroadcastUpdate.Fault) {
    match fault
    case NoWorkspace => s.workspaceID == ""
    case NoName => s.draft.name == ""
    case NameTooLong => ByteLength(s.draft.name) > 255
    case BadStatus =>
      s.status !in ["draft", "scheduled", "processing", "paused", "processed", "cancelled", "failed", "testing",
                    "test_completed", "winner_selected"]
    case NoList => s.draft.audience.list == ""
    case BadSchedule(f) => PlanBreaks(s.draft.schedule, world.zones, f)
    case BadGlobalFeed(f) => GlobalOf(s.feed).Some? && FeedBreaks(GlobalOf(s.feed).value, false, world, f)
    case BadRecipientFeed(f) => RecipientOf(s.feed).Some? && FeedBreaks(RecipientOf(s.feed).value, true, world, f)
    case _ => TestBreaks(s.draft.testSettings, fault)
  }

  function FeedOrder(fault: FeedFault): nat {
    match fault
    case NoURL => 0
    case UnsafeURL => 1
    case NotHTTPS => 2
    case HeaderName => 3
    case HeaderValue => 3
  }

  function PlanOrder(fault: Schedule.Fault): nat {
    match fault
    case Missing => 0
    case DateShape => 1
    case ClockShape => 2
    case UnknownTimezone => 3
  }

  /** Who is looked at first. */
  function Order(fault: BroadcastUpdate.Fault): nat {
    match fault
    case NoWorkspace => 0
    case NoName => 1
    case NameTooLong => 2
    case BadStatus => 3
    case SamplePercentage => 4
    case TooFewVariations => 5
    case TooManyVariations => 6
    case NoTestDuration => 7
    case TestDurationTooLong => 8
    case NoWinnerMetric => 9
    case BadWinnerMetric => 10
    case NoTemplate(_) => 11
    case NoList => 12
    case BadSchedule(f) => 13 + PlanOrder(f)
    case BadGlobalFeed(f) => 20 + FeedOrder(f)
    case BadRecipientFeed(f) => 30 + FeedOrder(f)
  }

  /** Nothing is wrong, or the fault is that of the first incomplete header. */
  ghost predicate PointsAtFirst(headers: seq<Header>, fault: Option<FeedFault>) {
    if fault == None then forall i :: 0 <= i < |headers| ==> headers[i].name != "" && headers[i].value != ""
    else exists i :: FirstIncomplete(headers, i) && fault == Some(if headers[i].name == "" then HeaderName else HeaderValue)
  }

  lemma {:induction false} FirstHeader(headers: seq<Header>)
    ensures PointsAtFirst(headers, HeaderFault(headers))
  {
    if headers != [] {
      var rest := headers[1..];
      FirstHeader(rest);
      if headers[0].name == "" || headers[0].value == "" {
        assert FirstIncomplete(headers, 0);
      } else if HeaderFault(rest) != None {
        var i :| FirstIncomplete(rest, i) && HeaderFault(rest) == Some(if rest[i].name == "" then HeaderName else HeaderValue);
        assert forall j :: 0 < j < |headers| ==> headers[j] == rest[j - 1];
        assert FirstIncomplete(headers, i + 1);
      }
    }
  }

  lemma SettingsFaultIsFirst(feed: Option<FeedSettings>, https: bool, world: World, fault: FeedFault)
    requires feed.Some? && FeedBreaks(feed.value, https, world, fault)
    ensures var r := SettingsFault(feed, https, world);
            && r.Some? && FeedOrder(r.value) <= FeedOrder(fault)
            && (FeedOrder(r.value) == FeedOrder(fault) ==> r.value == fault)
  {
    FirstHeader(feed.value.headers);
  }

  lemma SettingsFaultBreaks(feed: Option<FeedSettings>, https: bool, world: World)
    requires SettingsFault(feed, https, world).Some?
    ensures feed.Some? && FeedBreaks(feed.value, https, world, SettingsFault(feed, https, world).value)
  {
    FirstHeader(feed.value.headers);
  }

  lemma {:induction false} FirstTemplate(variations: seq<Variation>, checked: nat)
    requires checked <= |variations|
    ensures var r := TemplateFault(variations, checked);
            r == None || (&& r.value.NoTemplate? && checked < r.value.variation <= |variations|
                          && variations[r.value.variation - 1].templateID == ""
                          && forall j :: checked <= j < r.value.variation - 1 ==> variations[j].templateID != "")
    decreases |variations| - checked
  {
    if checked < |variations| && variations[checked].templateID != "" {
      FirstTemplate(variations, checked + 1);
    }
  }

  lemma TestFaultIsFirst(t: TestSettings, fault: BroadcastUpdate.Fault)
    requires TestBreaks(t, fault)
    ensures var r := TestFault(t);
            r.Some? && Order(r.value) <= Order(fault) <= 11 && (Order(r.value) == Order(fault) ==> r.value == fault)
  {
    FirstTemplate(t.variations, 0);
  }

  lemma TestFaultBreaks(t: TestSettings)
    requires TestFault(t).Some?
    ensures TestBreaks(t, TestFault(t).value) && 4 <= Order(TestFault(t).value) <= 11
  {
    FirstTemplate(t.variations, 0);
  }

  lemma PlanFault(p: Plan, zones: Schedule.Zones)
    ensures var r := Schedule.ScheduleFault(p.isScheduled, p.settings, zones);
            && (r.Some? ==> PlanBreaks(p, zones, r.value))
            && forall f :: PlanBreaks(p, zones, f) ==> r.Some? && PlanOrder(r.value) <= PlanOrder(f)
  {
  }

  /** What is reported is broken. */
  lemma ReportedIsBroken(s: State, world: World)
    requires FaultOf(s, world).Some?
    ensures Breaks(s, world, FaultOf(s, world).value)
  {
    hide TestFault, TestBreaks, SettingsFault, FeedBreaks, PlanBreaks, Schedule.ScheduleFault;
    PlanFault(s.draft.schedule, world.zones);
    if TestFault(s.draft.testSettings).Some? {
      TestFaultBreaks(s.draft.testSettings);
    }
    if SettingsFault(GlobalOf(s.feed), false, world).Some? {
      SettingsFaultBreaks(GlobalOf(s.feed), false, world);
    }
    if SettingsFault(RecipientOf(s.feed), true, world).Some? {
      SettingsFaultBreaks(RecipientOf(s.feed), true, world);
    }
  }

  /** And nothing broken comes before it. */
  lemma BrokenIsReported(s: State, world: World, fault: BroadcastUpdate.Fault)
    requires Breaks(s, world, fault)
    ensures var r := FaultOf(s, world);
            r.Some? && Order(r.value) <= Order(fault) && (Order(r.value) == Order(fault) ==> r.value == fault)
  {
    hide TestFault, TestBreaks, SettingsFault, FeedBreaks, PlanBreaks, Schedule.ScheduleFault;
    PlanFault(s.draft.schedule, world.zones);
    if TestFault(s.draft.testSettings).Some? {
      TestFaultBreaks(s.draft.testSettings);
    }
    match fault
    case BadGlobalFeed(f) => SettingsFaultIsFirst(GlobalOf(s.feed), false, world, f);
    case BadRecipientFeed(f) => SettingsFaultIsFirst(RecipientOf(s.feed), true, world, f);
    case _ => if TestBreaks(s.draft.testSettings, fault) { TestFaultIsFirst(s.draft.testSettings, fault); }
  }

  /** Validation reports exactly the broken rule that comes first, and nothing exactly when none is broken. */
  lemma FirstBrokenIsReported(s: State, world: World)
    ensures FaultOf(s, world) == None <==> forall f :: !Breaks(s, world, f)
    ensures forall f :: FaultOf(s, world) == Some(f)
                   <==> Breaks(s, world, f) && forall g :: Breaks(s, world, g) ==> Order(f) <= Order(g)
  {
    hide Breaks, FaultOf, Order;
    if FaultOf(s, world).Some? {
      ReportedIsBroken(s, world);
    }
    forall f | Breaks(s, world, f)
      ensures var r := FaultOf(s, world);
              r.Some? && Order(r.value) <= Order(f) && (Order(r.value) == Order(f) ==> r.value == f)
    {
      BrokenIsReported(s, world, f);
    }
  }

  /** Over any run: a request is accepted exactly when it is admitted and breaks no rule with the feeds in force. */
  lemma AcceptedIffNothingBroken(s: State, before: seq<Update>, u: Update, world: World)
    ensures var feeds := Feed(LastGlobal(s, before + [u]), None, None, LastRecipient(s, before + [u]));
            (Verdict(Run(s, before), u, world) == None
             <==> && u.workspaceID == s.workspaceID && u.id == s.id && s.status in ["draft", "scheduled", "paused"]
                  && forall f :: !Breaks(s.(draft := u.draft, feed := Some(feeds)), world, f))
  {
    AcceptedIff(s, before, u, world);
    RefusedIff(s, u, world);
    var feeds := Feed(LastGlobal(s, before + [u]), None, None, LastRecipient(s, before + [u]));
    var t := s.(draft := u.draft, feed := Some(feeds));
    FirstBrokenIsReported(t, world);
    FaultParts(t, world);
    hide Breaks, FaultOf, SettingsFault, DraftFault, LastGlobal, LastRecipient;
  }

  function AtLeast(bound: int): char -> bool {
    (c: char) => c as int >= bound
  }

  /** The length in UTF-8 is one for each character and one more for each that passes one of three bounds. */
  lemma {:induction false} ByteLengthCounts(s: string)
    ensures ByteLength(s)
         == |s| + |Select(s, AtLeast(0x80))| + |Select(s, AtLeast(0x800))| + |Select(s, AtLeast(0x1_0000))|
  {
    if s != "" {
      ByteLengthCounts(s[1..]);
    }
  }
}
