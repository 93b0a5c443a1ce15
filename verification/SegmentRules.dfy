/**
 What a segment tree must look like to pass Validate, written as conditions on the tree, and
 which of its parts a refusal points at.
 */
module SegmentRules {
  import opened Prelude
  import opened SegmentTree

  predicate Given<T>(slice: Option<seq<T>>) {
    slice.Some? && slice.value != []
  }

  predicate IsJsonField(name: string) {
    name in ["custom_json_1", "custom_json_2", "custom_json_3", "custom_json_4", "custom_json_5"]
  }

  /** A JSON field needs a path unless only its presence is asked for, and no other field may have one. */
  predicate SoundPath(f: Filter) {
    && (f.fieldType == "json" || Given(f.jsonPath) ==> IsJsonField(f.fieldName))
    && (Given(f.jsonPath) ==> forall step :: step in f.jsonPath.value ==> step != "")
    && (f.fieldType == "json" && f.operator !in ["is_set", "is_not_set"] ==> Given(f.jsonPath))
  }

  /** Numbers are compared with numbers, everything else, and membership in an array, with texts. */
  predicate SoundValues(f: Filter) {
    f.operator !in ["is_set", "is_not_set"] ==>
      if f.fieldType == "number" && f.operator != "in_array" then Given(f.numberValues) else Given(f.stringValues)
  }

  predicate SoundFilter(f: Filter) {
    && f.fieldName != "" && f.operator != "" && f.fieldType in ["string", "number", "time", "json"]
    && SoundPath(f) && SoundValues(f)
  }

  predicate SoundFilters(filters: Option<seq<Option<Filter>>>) {
    filters.Some? ==> forall f :: f in filters.value ==> f.Some? && SoundFilter(f.value)
  }

  predicate IsTimeframe(operator: string) {
    operator in ["anytime", "in_date_range", "before_date", "after_date", "in_the_last_days"]
  }

  predicate SoundTimeline(c: TimelineCondition) {
    && c.kind != "" && c.countOperator in ["at_least", "at_most", "exactly"] && c.countValue >= 0
    && (c.templateID.Some? && c.templateID.value != "" ==>
          c.kind in ["open_email", "click_email", "bounce_email", "complain_email", "unsubscribe_email",
                     "insert_message_history"])
    && (c.timeframeOperator.Some? ==> IsTimeframe(c.timeframeOperator.value))
    && SoundFilters(c.filters)
  }

  predicate SoundList(c: ListCondition) {
    c.operator in ["in", "not_in"] && c.listID != ""
  }

  predicate SoundGoal(g: GoalCondition) {
    && g.goalType in ["*", "purchase", "subscription", "lead", "signup", "booking", "trial", "other"]
    && g.aggregateOperator in ["sum", "count", "avg", "min", "max"]
    && g.operator in ["gte", "lte", "eq", "between"] && (g.operator == "between" ==> g.value2.Some?)
    && IsTimeframe(g.timeframeOperator) && (g.timeframeOperator != "anytime" ==> Given(g.timeframeValues))
  }

  /** The payload its source names is there and sound; other payloads are not looked at. */
  predicate SoundLeaf(l: Leaf) {
    || (l.source == "contacts" && l.contact.Some? && Given(l.contact.value.filters) && SoundFilters(l.contact.value.filters))
    || (l.source == "contact_lists" && l.contactList.Some? && SoundList(l.contactList.value))
    || (l.source == "contact_timeline" && l.contactTimeline.Some? && SoundTimeline(l.contactTimeline.value))
    || (l.source == "custom_events_goals" && l.customEventsGoal.Some? && SoundGoal(l.customEventsGoal.value))
  }

  predicate SoundTree(t: TreeNode)
    decreases t
  {
    || (t.kind == "leaf" && t.leaf.Some? && SoundLeaf(t.leaf.value))
    || (&& t.kind == "branch" && t.branch.Some? && t.branch.value.operator in ["and", "or"]
        && t.branch.value.leaves.Children? && t.branch.value.leaves.items != []
        && forall c :: c in t.branch.value.leaves.items ==> c.Child? && SoundTree(c.node))
  }

  lemma {:induction false} SegmentsAreSound(path: seq<string>, index: nat)
    ensures SegmentFault(path, index) == None <==> forall step :: step in path ==> step != ""
  {
    if path != [] {
      SegmentsAreSound(path[1..], index + 1);
      var rest := path[1..];
      assert path[0] in path && forall step :: step in path <==> step == path[0] || step in rest;
    }
  }

  lemma FilterIsSound(f: Filter)
    ensures FilterFault(f) == None <==> SoundFilter(f)
  {
    if Given(f.jsonPath) {
      SegmentsAreSound(f.jsonPath.value, 0);
    }
  }

  lemma FiltersAreSound(filters: Option<seq<Option<Filter>>>)
    ensures FiltersFault(Items(filters), 0) == None <==> SoundFilters(filters)
  {
    hide FilterFault, SoundFilter;
    forall f: Option<Filter> | f.Some? ensures FilterFault(f.value) == None <==> SoundFilter(f.value) {
      FilterIsSound(f.value);
    }
  }

  lemma TimelineIsSound(c: TimelineCondition)
    ensures TimelineFault(c) == None <==> SoundTimeline(c)
  {
    hide FiltersFault, SoundFilters;
    FiltersAreSound(c.filters);
  }

  lemma GoalIsSound(g: GoalCondition)
    ensures GoalFault(g) == None <==> SoundGoal(g)
  {
  }

  lemma LeafIsSound(l: Leaf)
    ensures LeafFault(l) == None <==> SoundLeaf(l)
  {
    hide TimelineFault, SoundTimeline, GoalFault, SoundGoal, FiltersFault, SoundFilters;
    if l.contact.Some? {
      FiltersAreSound(l.contact.value.filters);
    }
    if l.contactTimeline.Some? {
      TimelineIsSound(l.contactTimeline.value);
    }
    if l.customEventsGoal.Some? {
      GoalIsSound(l.customEventsGoal.value);
    }
  }

  /** Validate lets through exactly the sound trees. */
  lemma {:induction false} PassesIffSound(t: TreeNode)
    ensures NodeFault(t) == None <==> SoundTree(t)
    decreases t
  {
    hide SoundLeaf, LeafFault;
    if t.kind == "leaf" && t.leaf.Some? {
      LeafIsSound(t.leaf.value);
    }
    match t.branch
    case None =>
    case Some(b) => BranchIsSound(b);
  }

  lemma {:induction false} BranchIsSound(b: Branch)
    ensures BranchFault(b) == None
       <==> && b.operator in ["and", "or"] && b.leaves.Children? && b.leaves.items != []
            && forall c :: c in b.leaves.items ==> SoundChild(c)
    decreases b
  {
    match b.leaves
    case NilChildren =>
    case Children(items) => ChildrenAreSound(items, 0);
  }

  predicate SoundChild(c: Child) {
    c.Child? && SoundTree(c.node)
  }

  lemma {:induction false} ChildrenAreSound(items: seq<Child>, index: nat)
    ensures ChildrenFault(items, index) == None <==> forall c :: c in items ==> SoundChild(c)
    decreases items
  {
    hide ChildFault, SoundChild;
    if items != [] {
      ChildIsSound(items[0], index);
      ChildrenAreSound(items[1..], index + 1);
      assert forall c :: c in items <==> c == items[0] || c in items[1..];
    }
  }

  lemma {:induction false} ChildIsSound(c: Child, index: nat)
    ensures ChildFault(c, index) == None <==> SoundChild(c)
    decreases c
  {
    match c
    case NilChild =>
    case Child(t) => PassesIffSound(t);
  }

  /** A branch refused for one of its children is refused for the first unsound one, with that child's own fault. */
  lemma RefusalPointsAtFirst(b: Branch)
    requires b.operator in ["and", "or"] && b.leaves.Children? && b.leaves.items != [] && BranchFault(b).Some?
    ensures exists i :: FirstUnsound(b.leaves.items, i)
    ensures forall i :: FirstUnsound(b.leaves.items, i) ==>
              match b.leaves.items[i]
              case NilChild => BranchFault(b) == Some(IsNil("branch leaf", i))
              case Child(t) => NodeFault(t).Some? && BranchFault(b) == Some(At("branch leaf", i, NodeFault(t).value))
  {
    var items := b.leaves.items;
    ChildrenPointAtFirst(items, 0);
    BranchIsSound(b);
    var i :| FirstUnsound(items, i) && ChildrenFault(items, 0) == ChildFault(items[i], i);
    assert forall j :: FirstUnsound(items, j) ==> j == i;
    ChildIsSound(items[i], i);
  }

  predicate FirstUnsound(items: seq<Child>, i: int) {
    0 <= i < |items| && !SoundChild(items[i]) && forall j :: 0 <= j < i ==> SoundChild(items[j])
  }

  lemma {:induction false} ChildrenPointAtFirst(items: seq<Child>, index: nat)
    requires ChildrenFault(items, index).Some?
    ensures exists i :: FirstUnsound(items, i) && ChildrenFault(items, index) == ChildFault(items[i], index + i)
    decreases |items|
  {
    hide ChildFault, SoundChild;
    ChildIsSound(items[0], index);
    if ChildFault(items[0], index).Some? {
      assert FirstUnsound(items, 0);
    } else {
      var rest := items[1..];
      ChildrenPointAtFirst(rest, index + 1);
      var i :| FirstUnsound(rest, i) && ChildrenFault(rest, index + 1) == ChildFault(rest[i], index + 1 + i);
      assert FirstUnsound(items, i + 1);
      assert items[i + 1] == rest[i];
    }
  }
}
