/**
 Segment trees: branches and leaves over four data sources, what Validate says about them,
 and whether they need daily recomputation. Nil and empty slices are kept apart, pointers
 may be nil, and reading through a nil pointer is a panic.
 */
module SegmentTree {
  import opened Prelude

  /** Go's float64; only the finite ones have a JSON form. */
  datatype Float = Finite(value: real) | NotFinite

  datatype Filter = Filter(
    fieldName: string,
    fieldType: string,
    operator: string,
    stringValues: Option<seq<string>>,
    numberValues: Option<seq<Float>>,
    jsonPath: Option<seq<string>>)

  datatype ContactCondition = ContactCondition(filters: Option<seq<Option<Filter>>>)

  datatype ListCondition = ListCondition(operator: string, listID: string, status: Option<string>)

  datatype TimelineCondition = TimelineCondition(
    kind: string,
    countOperator: string,
    countValue: int,
    templateID: Option<string>,
    timeframeOperator: Option<string>,
    timeframeValues: Option<seq<string>>,
    filters: Option<seq<Option<Filter>>>)

  datatype GoalCondition = GoalCondition(
    goalType: string,
    goalName: Option<string>,
    aggregateOperator: string,
    operator: string,
    value: Float,
    value2: Option<Float>,
    timeframeOperator: string,
    timeframeValues: Option<seq<string>>)

  datatype Leaf = Leaf(
    source: string,
    contact: Option<ContactCondition>,
    contactList: Option<ListCondition>,
    contactTimeline: Option<TimelineCondition>,
    customEventsGoal: Option<GoalCondition>)

  datatype TreeNode = TreeNode(kind: string, branch: Option<Branch>, leaf: Option<Leaf>)

  datatype Branch = Branch(operator: string, leaves: Children)

  datatype Children = NilChildren | Children(items: seq<Child>)

  datatype Child = NilChild | Child(node: TreeNode)

  // ---- Validate ----

  /** A rule broken by a node, or by the numbered item inside it. */
  datatype Fault = Broken(rule: string) | IsNil(item: string, index: nat) | At(item: string, index: nat, inner: Fault)

  const LAST_DAYS := "in_the_last_days"

  const JSON_FIELDS: set<string> := {"custom_json_1", "custom_json_2", "custom_json_3", "custom_json_4", "custom_json_5"}

  const TEMPLATE_KINDS: set<string> := {"open_email", "click_email", "bounce_email", "complain_email",
                                        "unsubscribe_email", "insert_message_history"}

  const TIMEFRAMES: set<string> := {"anytime", "in_date_range", "before_date", "after_date", "in_the_last_days"}

  const GOAL_TYPES: set<string> := {"purchase", "subscription", "lead", "signup", "booking", "trial", "other"}

  function Len<T>(slice: Option<seq<T>>): nat {
    if slice == None then 0 else |slice.value|
  }

  function Items<T>(slice: Option<seq<T>>): seq<T> {
    if slice == None then [] else slice.value
  }

  function SegmentFault(path: seq<string>, index: nat): Option<Fault> {
    if path == [] then None
    else if path[0] == "" then Some(At("json_path", index, Broken("empty")))
    else SegmentFault(path[1..], index + 1)
  }

  /** The values an operator needs, by field type. */
  function ValuesFault(f: Filter): Option<Fault> {
    if f.operator == "is_set" || f.operator == "is_not_set" then None
    else if f.operator == "in_array" then (if Len(f.stringValues) == 0 then Some(Broken("in_array values")) else None)
    else if f.fieldType == "number" then (if Len(f.numberValues) == 0 then Some(Broken("number values")) else None)
    else if Len(f.stringValues) == 0 then Some(Broken(f.fieldType + " values"))
    else None
  }

  function PathFault(f: Filter): Option<Fault> {
    if Len(f.jsonPath) == 0 then None
    else if f.fieldName !in JSON_FIELDS then Some(Broken("json_path field"))
    else SegmentFault(f.jsonPath.value, 0)
  }

  function FilterFault(f: Filter): Option<Fault> {
    if f.fieldName == "" then Some(Broken("field_name"))
    else if f.fieldType == "" then Some(Broken("field_type missing"))
    else if f.fieldType !in {"string", "number", "time", "json"} then Some(Broken("field_type"))
    else if f.operator == "" then Some(Broken("filter operator"))
    else if PathFault(f).Some? then PathFault(f)
    else if f.fieldType == "json" && f.fieldName !in JSON_FIELDS then Some(Broken("json field"))
    else if f.fieldType == "json" && Len(f.jsonPath) == 0 && f.operator != "is_set" && f.operator != "is_not_set"
      then Some(Broken("json_path missing"))
    else ValuesFault(f)
  }

  function FiltersFault(filters: seq<Option<Filter>>, index: nat): (r: Option<Fault>)
    ensures r == None <==> forall i :: 0 <= i < |filters| ==> filters[i].Some? && FilterFault(filters[i].value) == None
  {
    if filters == [] then None
    else match filters[0]
      case None => Some(IsNil("filter", index))
      case Some(f) =>
        match FilterFault(f)
        case Some(fault) => Some(At("filter", index, fault))
        case None => FiltersFault(filters[1..], index + 1)
  }

  function ContactFault(c: ContactCondition): Option<Fault> {
    if Len(c.filters) == 0 then Some(Broken("filters missing")) else FiltersFault(c.filters.value, 0)
  }

  function ListFault(c: ListCondition): Option<Fault> {
    if c.operator != "in" && c.operator != "not_in" then Some(Broken("contact_list operator"))
    else if c.listID == "" then Some(Broken("list_id"))
    else None
  }

  function TimelineFault(c: TimelineCondition): Option<Fault> {
    if c.kind == "" then Some(Broken("timeline kind"))
    else if c.countOperator !in {"at_least", "at_most", "exactly"} then Some(Broken("count_operator"))
    else if c.countValue < 0 then Some(Broken("count_value"))
    else if c.templateID.Some? && c.templateID.value != "" && c.kind !in TEMPLATE_KINDS then Some(Broken("template_id"))
    else if c.timeframeOperator.Some? && c.timeframeOperator.value !in TIMEFRAMES then Some(Broken("timeframe_operator"))
    else FiltersFault(Items(c.filters), 0)
  }

  function GoalFault(g: GoalCondition): Option<Fault> {
    if g.goalType == "" then Some(Broken("goal_type missing"))
    else if g.goalType != "*" && g.goalType !in GOAL_TYPES then Some(Broken("goal_type"))
    else if g.aggregateOperator !in {"sum", "count", "avg", "min", "max"} then Some(Broken("aggregate_operator"))
    else if g.operator !in {"gte", "lte", "eq", "between"} then Some(Broken("goal operator"))
    else if g.operator == "between" && g.value2 == None then Some(Broken("value_2"))
    else if g.timeframeOperator !in TIMEFRAMES then Some(Broken("goal timeframe_operator"))
    else if g.timeframeOperator != "anytime" && Len(g.timeframeValues) == 0 then Some(Broken("timeframe_values"))
    else None
  }

  /** Only the payload named by the source is looked at. */
  function LeafFault(l: Leaf): Option<Fault> {
    if l.source == "" then Some(Broken("source missing"))
    else if l.source == "contacts" then
      if l.contact == None then Some(Broken("contact missing")) else ContactFault(l.contact.value)
    else if l.source == "contact_lists" then
      if l.contactList == None then Some(Broken("contact_list missing")) else ListFault(l.contactList.value)
    else if l.source == "contact_timeline" then
      if l.contactTimeline == None then Some(Broken("contact_timeline missing")) else TimelineFault(l.contactTimeline.value)
    else if l.source == "custom_events_goals" then
      if l.customEventsGoal == None then Some(Broken("custom_events_goal missing")) else GoalFault(l.customEventsGoal.value)
    else Some(Broken("source"))
  }

  function NodeFault(t: TreeNode): Option<Fault>
    decreases t
  {
    if t.kind == "" then Some(Broken("kind missing"))
    else if t.kind == "branch" then
      match t.branch
      case None => Some(Broken("branch missing"))
      case Some(b) => BranchFault(b)
    else if t.kind == "leaf" then
      match t.leaf
      case None => Some(Broken("leaf missing"))
      case Some(l) => LeafFault(l)
    else Some(Broken("kind"))
  }

  function BranchFault(b: Branch): Option<Fault>
    decreases b
  {
    if b.operator != "and" && b.operator != "or" then Some(Broken("branch operator"))
    else match b.leaves
      case NilChildren => Some(Broken("no leaves"))
      case Children(items) => if items == [] then Some(Broken("no leaves")) else ChildrenFault(items, 0)
  }

  function ChildrenFault(items: seq<Child>, index: nat): Option<Fault>
    decreases items
  {
    if items == [] then None
    else match ChildFault(items[0], index)
      case Some(fault) => Some(fault)
      case None => ChildrenFault(items[1..], index + 1)
  }

  function ChildFault(c: Child, index: nat): Option<Fault>
    decreases c
  {
    match c
    case NilChild => Some(IsNil("branch leaf", index))
    case Child(t) =>
      match NodeFault(t)
      case Some(fault) => Some(At("branch leaf", index, fault))
      case None => None
  }

  // ---- HasRelativeDates ----

  datatype Answer = Yes | No | Panic

  function FiltersAnswer(filters: seq<Option<Filter>>): Answer {
    if filters == [] then No
    else match filters[0]
      case None => Panic
      case Some(f) => if f.operator == LAST_DAYS then Yes else FiltersAnswer(filters[1..])
  }

  /** Every payload present is looked at, whatever the source; a timeline's own filters are not. */
  function LeafAnswer(l: Leaf): Answer {
    if l.contactTimeline.Some? && l.contactTimeline.value.timeframeOperator == Some(LAST_DAYS) then Yes
    else
      var filters := if l.contact.Some? then FiltersAnswer(Items(l.contact.value.filters)) else No;
      if filters != No then filters
      else if l.customEventsGoal.Some? && l.customEventsGoal.value.timeframeOperator == LAST_DAYS then Yes
      else No
  }

  function NodeAnswer(t: TreeNode): Answer
    decreases t
  {
    if t.kind == "branch" then
      match t.branch
      case None => No
      case Some(b) => BranchAnswer(b)
    else if t.kind == "leaf" then
      match t.leaf
      case None => No
      case Some(l) => LeafAnswer(l)
    else No
  }

  function BranchAnswer(b: Branch): Answer
    decreases b
  {
    match b.leaves
    case NilChildren => No
    case Children(items) => ChildrenAnswer(items)
  }

  function ChildrenAnswer(items: seq<Child>): Answer
    decreases items
  {
    if items == [] then No
    else
      var first := ChildAnswer(items[0]);
      if first != No then first else ChildrenAnswer(items[1..])
  }

  /** The method starts with a nil check, so a nil child answers No. */
  function ChildAnswer(c: Child): Answer
    decreases c
  {
    match c
    case NilChild => No
    case Child(t) => NodeAnswer(t)
  }

  // ---- The leaves of a tree ----

  function Leaves(t: TreeNode): seq<Leaf>
    decreases t
  {
    if t.kind == "branch" then
      match t.branch
      case None => []
      case Some(b) => BranchLeaves(b)
    else if t.kind == "leaf" then
      match t.leaf
      case None => []
      case Some(l) => [l]
    else []
  }

  function BranchLeaves(b: Branch): seq<Leaf>
    decreases b
  {
    match b.leaves
    case NilChildren => []
    case Children(items) => ChildrenLeaves(items)
  }

  function ChildrenLeaves(items: seq<Child>): seq<Leaf>
    decreases items
  {
    if items == [] then [] else ChildLeaves(items[0]) + ChildrenLeaves(items[1..])
  }

  function ChildLeaves(c: Child): seq<Leaf>
    decreases c
  {
    match c
    case NilChild => []
    case Child(t) => Leaves(t)
  }

  /** The first leaf that decides. */
  function FirstAnswer(leaves: seq<Leaf>): (r: Answer)
    ensures r != No <==> exists i :: 0 <= i < |leaves| && LeafAnswer(leaves[i]) != No
  {
    if leaves == [] then No
    else if LeafAnswer(leaves[0]) != No then
      assert LeafAnswer(leaves[0]) != No;
      LeafAnswer(leaves[0])
    else FirstAnswer(leaves[1..])
  }

  lemma {:induction false} FirstAnswerAppend(a: seq<Leaf>, b: seq<Leaf>)
    ensures FirstAnswer(a + b) == if FirstAnswer(a) != No then FirstAnswer(a) else FirstAnswer(b)
  {
    if a == [] {
      assert a + b == b;
    } else {
      assert (a + b)[1..] == a[1..] + b;
      FirstAnswerAppend(a[1..], b);
    }
  }

  /** For every tree, valid or not: the answer is that of the first leaf that decides. */
  lemma {:induction false} AnswerIsFirst(t: TreeNode)
    ensures NodeAnswer(t) == FirstAnswer(Leaves(t))
    decreases t
  {
    match t.branch
    case None =>
    case Some(b) => BranchAnswerIsFirst(b);
  }

  lemma {:induction false} BranchAnswerIsFirst(b: Branch)
    ensures BranchAnswer(b) == FirstAnswer(BranchLeaves(b))
    decreases b
  {
    match b.leaves
    case NilChildren =>
    case Children(items) => ChildrenAnswerIsFirst(items);
  }

  lemma {:induction false} ChildrenAnswerIsFirst(items: seq<Child>)
    ensures ChildrenAnswer(items) == FirstAnswer(ChildrenLeaves(items))
    decreases items
  {
    if items != [] {
      ChildAnswerIsFirst(items[0]);
      ChildrenAnswerIsFirst(items[1..]);
      FirstAnswerAppend(ChildLeaves(items[0]), ChildrenLeaves(items[1..]));
    }
  }

  lemma {:induction false} ChildAnswerIsFirst(c: Child)
    ensures ChildAnswer(c) == FirstAnswer(ChildLeaves(c))
    decreases c
  {
    match c
    case NilChild =>
    case Child(t) => AnswerIsFirst(t);
  }

  predicate SoundLeaves(leaves: seq<Leaf>) {
    forall i :: 0 <= i < |leaves| ==> LeafFault(leaves[i]) == None
  }

  /** The leaves of a valid tree are valid, and there is at least one. */
  lemma {:induction false} ValidTreeHasSoundLeaves(t: TreeNode)
    requires NodeFault(t) == None
    ensures SoundLeaves(Leaves(t)) && Leaves(t) != []
    decreases t
  {
    if t.kind == "branch" {
      match t.branch
      case Some(b) =>
        match b.leaves
        case Children(items) => ValidChildrenHaveSoundLeaves(items, 0);
    }
  }

  lemma {:induction false} ValidChildrenHaveSoundLeaves(items: seq<Child>, index: nat)
    requires ChildrenFault(items, index) == None
    ensures SoundLeaves(ChildrenLeaves(items)) && (items != [] ==> ChildrenLeaves(items) != [])
    decreases items
  {
    if items != [] {
      ValidChildHasSoundLeaves(items[0], index);
      ValidChildrenHaveSoundLeaves(items[1..], index + 1);
    }
  }

  lemma {:induction false} ValidChildHasSoundLeaves(c: Child, index: nat)
    requires ChildFault(c, index) == None
    ensures SoundLeaves(ChildLeaves(c)) && ChildLeaves(c) != []
    decreases c
  {
    match c
    case Child(t) => ValidTreeHasSoundLeaves(t);
  }

  // ---- When the answer can be trusted ----

  /** Nothing but the payload the source names. */
  predicate OwnPayloadOnly(l: Leaf) {
    && (l.contact.Some? ==> l.source == "contacts")
    && (l.contactList.Some? ==> l.source == "contact_lists")
    && (l.contactTimeline.Some? ==> l.source == "contact_timeline")
    && (l.customEventsGoal.Some? ==> l.source == "custom_events_goals")
  }

  /** The condition the leaf's source names is relative to the current day. */
  predicate UsesLastDays(l: Leaf) {
    || (l.source == "contact_timeline" && l.contactTimeline.Some? && l.contactTimeline.value.timeframeOperator == Some(LAST_DAYS))
    || (l.source == "contacts" && l.contact.Some? && HasLastDaysFilter(Items(l.contact.value.filters)))
    || (l.source == "custom_events_goals" && l.customEventsGoal.Some? && l.customEventsGoal.value.timeframeOperator == LAST_DAYS)
  }

  predicate HasLastDaysFilter(filters: seq<Option<Filter>>) {
    exists i :: 0 <= i < |filters| && filters[i].Some? && filters[i].value.operator == LAST_DAYS
  }

  lemma {:induction false} FiltersAnswerWithoutNil(filters: seq<Option<Filter>>)
    requires forall i :: 0 <= i < |filters| ==> filters[i].Some?
    ensures FiltersAnswer(filters) == if HasLastDaysFilter(filters) then Yes else No
  {
    if filters != [] {
      var rest := filters[1..];
      FiltersAnswerWithoutNil(rest);
      if HasLastDaysFilter(rest) {
        var i :| 0 <= i < |rest| && rest[i].Some? && rest[i].value.operator == LAST_DAYS;
        assert filters[i + 1] == rest[i];
      }
      if HasLastDaysFilter(filters) && filters[0].value.operator != LAST_DAYS {
        var i :| 0 <= i < |filters| && filters[i].Some? && filters[i].value.operator == LAST_DAYS;
        assert rest[i - 1] == filters[i];
      }
    }
  }

  /** Something the search stops at: a nil filter or a relative one. */
  predicate MarkedFilters(filters: seq<Option<Filter>>) {
    exists i :: 0 <= i < |filters| && (filters[i] == None || filters[i].value.operator == LAST_DAYS)
  }

  /** A nil filter comes before any relative one. */
  predicate NilFirst(filters: seq<Option<Filter>>) {
    exists i :: 0 <= i < |filters| && filters[i] == None && !MarkedFilters(filters[..i])
  }

  lemma {:induction false} FiltersAnswerMeans(filters: seq<Option<Filter>>)
    ensures FiltersAnswer(filters) == No <==> !MarkedFilters(filters)
    ensures FiltersAnswer(filters) == Panic <==> NilFirst(filters)
  {
    if filters != [] {
      var rest := filters[1..];
      FiltersAnswerMeans(rest);
      var stops := filters[0] == None || filters[0].value.operator == LAST_DAYS;
      MarkedStep(filters);
      if filters[0] == None {
        assert !MarkedFilters(filters[..0]);
      }
      if i :| 0 < i < |filters| && filters[i] == None && !MarkedFilters(filters[..i]) {
        MarkedStep(filters[..i]);
        assert filters[..i][1..] == rest[..i - 1] && rest[i - 1] == None;
      }
      if i :| !stops && 0 <= i < |rest| && rest[i] == None && !MarkedFilters(rest[..i]) {
        MarkedStep(filters[..i + 1]);
        assert filters[..i + 1][1..] == rest[..i] && filters[i + 1] == None;
      }
    }
  }

  lemma MarkedStep(filters: seq<Option<Filter>>)
    requires filters != []
    ensures MarkedFilters(filters)
       <==> filters[0] == None || filters[0].value.operator == LAST_DAYS || MarkedFilters(filters[1..])
  {
    if i :| 0 <= i < |filters[1..]| && (filters[1..][i] == None || filters[1..][i].value.operator == LAST_DAYS) {
      assert filters[i + 1] == filters[1..][i];
    }
    if i :| 0 < i < |filters| && (filters[i] == None || filters[i].value.operator == LAST_DAYS) {
      assert filters[1..][i - 1] == filters[i];
    }
  }

  /** A payload that the source does not name, and that the search stops at. */
  predicate StrayMarked(l: Leaf) {
    || (l.source != "contact_timeline" && l.contactTimeline.Some? && l.contactTimeline.value.timeframeOperator == Some(LAST_DAYS))
    || (l.source != "contacts" && l.contact.Some? && MarkedFilters(Items(l.contact.value.filters)))
    || (l.source != "custom_events_goals" && l.customEventsGoal.Some? && l.customEventsGoal.value.timeframeOperator == LAST_DAYS)
  }

  /** The search reads through a nil filter before anything relative. */
  predicate MeetsNil(l: Leaf) {
    && !(l.contactTimeline.Some? && l.contactTimeline.value.timeframeOperator == Some(LAST_DAYS))
    && l.contact.Some? && NilFirst(Items(l.contact.value.filters))
  }

  /** What a valid leaf answers, payload by payload. */
  lemma LeafAnswerMeans(l: Leaf)
    requires LeafFault(l) == None
    ensures LeafAnswer(l) == No <==> !UsesLastDays(l) && !StrayMarked(l)
    ensures LeafAnswer(l) == Panic <==> MeetsNil(l)
  {
    hide FiltersAnswer, MarkedFilters, HasLastDaysFilter, FilterFault;
    if l.contact.Some? {
      var filters := Items(l.contact.value.filters);
      FiltersAnswerMeans(filters);
      if l.source == "contacts" {
        FiltersAnswerWithoutNil(filters);
      }
    }
  }

  predicate Decides(l: Leaf) {
    UsesLastDays(l) || StrayMarked(l)
  }

  /** The first leaf the search stops at. */
  predicate FirstDecider(leaves: seq<Leaf>, i: int) {
    0 <= i < |leaves| && Decides(leaves[i]) && forall j :: 0 <= j < i ==> !Decides(leaves[j])
  }

  lemma {:induction false} FirstAnswerMeans(leaves: seq<Leaf>)
    requires SoundLeaves(leaves)
    ensures FirstAnswer(leaves) == No <==> forall i :: 0 <= i < |leaves| ==> !Decides(leaves[i])
    ensures FirstAnswer(leaves) != No <==> exists i :: FirstDecider(leaves, i)
    ensures forall i :: FirstDecider(leaves, i) ==> FirstAnswer(leaves) == if MeetsNil(leaves[i]) then Panic else Yes
  {
    hide LeafAnswer, LeafFault, UsesLastDays, StrayMarked, MeetsNil;
    if leaves != [] {
      var rest := leaves[1..];
      LeafAnswerMeans(leaves[0]);
      FirstAnswerMeans(rest);
      assert forall i :: 0 <= i < |rest| ==> rest[i] == leaves[i + 1];
      if Decides(leaves[0]) {
        assert FirstDecider(leaves, 0);
      } else {
        forall i ensures FirstDecider(leaves, i) <==> FirstDecider(rest, i - 1) {
          assert 0 < i < |leaves| ==> leaves[i] == rest[i - 1];
        }
        if i :| FirstDecider(rest, i) {
          assert FirstDecider(leaves, i + 1);
        }
        forall i | FirstDecider(leaves, i)
          ensures FirstAnswer(leaves) == if MeetsNil(leaves[i]) then Panic else Yes
        {
          assert FirstDecider(rest, i - 1);
        }
      }
    }
  }

  /** Some leaf's own condition is relative to the current day: the tree needs daily recomputation. */
  predicate Relative(leaves: seq<Leaf>) {
    exists i :: 0 <= i < |leaves| && UsesLastDays(leaves[i])
  }

  /**
   For every valid tree, exactly when the answer is the right one. If no condition is
   relative, then when no stray payload is marked; if one is, then when the first leaf the
   search stops at does not make it read through nil.
   */
  lemma AnswerIsRightIff(t: TreeNode)
    requires NodeFault(t) == None
    ensures !Relative(Leaves(t)) ==>
      (NodeAnswer(t) == No <==> forall i :: 0 <= i < |Leaves(t)| ==> !StrayMarked(Leaves(t)[i]))
    ensures Relative(Leaves(t)) ==>
      (NodeAnswer(t) == Yes <==> exists i :: FirstDecider(Leaves(t), i) && !MeetsNil(Leaves(t)[i]))
    ensures NodeAnswer(t) == Panic <==> exists i :: FirstDecider(Leaves(t), i) && MeetsNil(Leaves(t)[i])
  {
    hide UsesLastDays, StrayMarked, MeetsNil, NodeFault;
    var leaves := Leaves(t);
    ValidTreeHasSoundLeaves(t);
    AnswerIsFirst(t);
    FirstAnswerMeans(leaves);
    if i :| 0 <= i < |leaves| && UsesLastDays(leaves[i]) {
      assert Decides(leaves[i]);
    }
    if !Relative(leaves) {
      forall i | 0 <= i < |leaves| ensures Decides(leaves[i]) <==> StrayMarked(leaves[i]) {
      }
    }
  }

  /**
   In particular a valid tree whose leaves carry only their own payload is never read
   through nil, and needs recomputing exactly when some leaf's condition is relative.
   */
  lemma ValidAnswerIsRight(t: TreeNode)
    requires NodeFault(t) == None && forall i :: 0 <= i < |Leaves(t)| ==> OwnPayloadOnly(Leaves(t)[i])
    ensures NodeAnswer(t) == if Relative(Leaves(t)) then Yes else No
  {
    var leaves := Leaves(t);
    ValidTreeHasSoundLeaves(t);
    AnswerIsFirst(t);
    FirstAnswerMeans(leaves);
    AnswerIsRightIff(t);
    forall i | 0 <= i < |leaves| ensures !StrayMarked(leaves[i]) && !MeetsNil(leaves[i]) {
      OwnPayloadIsHarmless(leaves[i]);
    }
    hide UsesLastDays, StrayMarked, MeetsNil, NodeFault, OwnPayloadOnly;
    if i :| 0 <= i < |leaves| && UsesLastDays(leaves[i]) {
      assert Decides(leaves[i]);
    }
  }

  lemma OwnPayloadIsHarmless(l: Leaf)
    requires LeafFault(l) == None && OwnPayloadOnly(l)
    ensures !StrayMarked(l) && !MeetsNil(l)
  {
  }

  /** A stray payload escapes validation: on a valid list leaf it can decide the answer, or panic. */
  lemma StrayPayloadDecides(list: ListCondition, contact: ContactCondition)
    requires ListFault(list) == None
    ensures var t := TreeNode("leaf", None, Some(Leaf("contact_lists", Some(contact), Some(list), None, None)));
            NodeFault(t) == None && NodeAnswer(t) == FiltersAnswer(Items(contact.filters))
    ensures FiltersAnswer([None]) == Panic
  {
  }

  // ---- Timeline filters ----

  type Refilter = TimelineCondition -> Option<seq<Option<Filter>>>

  /** The tree with every timeline condition's filters replaced. */
  function Refiltered(t: TreeNode, swap: Refilter): TreeNode
    decreases t
  {
    var branch := match t.branch case None => None case Some(b) => Some(RefilteredBranch(b, swap));
    TreeNode(t.kind, branch, if t.leaf == None then None else Some(RefilteredLeaf(t.leaf.value, swap)))
  }

  function RefilteredLeaf(l: Leaf, swap: Refilter): Leaf {
    if l.contactTimeline == None then l
    else l.(contactTimeline := Some(l.contactTimeline.value.(filters := swap(l.contactTimeline.value))))
  }

  function RefilteredBranch(b: Branch, swap: Refilter): Branch
    decreases b
  {
    var leaves := match b.leaves case NilChildren => NilChildren case Children(items) => Children(RefilteredChildren(items, swap));
    Branch(b.operator, leaves)
  }

  function RefilteredChildren(items: seq<Child>, swap: Refilter): seq<Child>
    decreases items
  {
    if items == [] then [] else [RefilteredChild(items[0], swap)] + RefilteredChildren(items[1..], swap)
  }

  function RefilteredChild(c: Child, swap: Refilter): Child
    decreases c
  {
    match c
    case NilChild => NilChild
    case Child(t) => Child(Refiltered(t, swap))
  }

  /** In every tree, whatever is done to the filters of its timeline conditions, the answer stays. */
  lemma {:induction false} TimelineFiltersIgnored(t: TreeNode, swap: Refilter)
    ensures NodeAnswer(Refiltered(t, swap)) == NodeAnswer(t)
    decreases t
  {
    match t.branch
    case None =>
    case Some(b) => BranchFiltersIgnored(b, swap);
  }

  lemma {:induction false} BranchFiltersIgnored(b: Branch, swap: Refilter)
    ensures BranchAnswer(RefilteredBranch(b, swap)) == BranchAnswer(b)
    decreases b
  {
    match b.leaves
    case NilChildren =>
    case Children(items) => ChildrenFiltersIgnored(items, swap);
  }

  lemma {:induction false} ChildrenFiltersIgnored(items: seq<Child>, swap: Refilter)
    ensures ChildrenAnswer(RefilteredChildren(items, swap)) == ChildrenAnswer(items)
    decreases items
  {
    if items != [] {
      ChildFiltersIgnored(items[0], swap);
      ChildrenFiltersIgnored(items[1..], swap);
      assert RefilteredChildren(items, swap)[1..] == RefilteredChildren(items[1..], swap);
    }
  }

  lemma {:induction false} ChildFiltersIgnored(c: Child, swap: Refilter)
    ensures ChildAnswer(RefilteredChild(c, swap)) == ChildAnswer(c)
    decreases c
  {
    match c
    case NilChild =>
    case Child(t) => TimelineFiltersIgnored(t, swap);
  }
}
