/**
 Segment trees to generic maps and back, the way encoding/json goes through struct tags:
 absent pointers and empty `omitempty` slices are left out, other nil slices and nil
 elements become null. A count passes through a float64 and its text on the way.
 */
module SegmentJson {
  import opened Numerals
  import opened Prelude
  import opened Diffs
  import opened SegmentTree

  // ---- Encoding ----

  /** An object with the given members, those without a value left out. */
  function Present(members: map<string, Option<Json>>): (r: Record)
    ensures forall k :: Lookup(r, k) == if k in members then members[k] else None
  {
    map k | k in members && members[k].Some? :: members[k].value
  }

  function Text(s: string): Option<Json> {
    Some(JString(s))
  }

  function OptText(s: Option<string>): Option<Json> {
    if s == None then None else Some(JString(s.value))
  }

  function Number(x: Float): Json {
    if x.Finite? then JNumber(x.value) else JNull
  }

  function Texts(s: seq<string>): (r: seq<Json>)
    ensures |r| == |s| && forall i :: 0 <= i < |s| ==> r[i] == JString(s[i])
  {
    seq(|s|, i requires 0 <= i < |s| => JString(s[i]))
  }

  function Numbers(s: seq<Float>): (r: seq<Json>)
    ensures |r| == |s| && forall i :: 0 <= i < |s| ==> r[i] == Number(s[i])
  {
    seq(|s|, i requires 0 <= i < |s| => Number(s[i]))
  }

  /** A slice marked omitempty. */
  function TextsOmitEmpty(s: Option<seq<string>>): Option<Json> {
    if Len(s) == 0 then None else Some(JArray(Texts(s.value)))
  }

  function NumbersOmitEmpty(s: Option<seq<Float>>): Option<Json> {
    if Len(s) == 0 then None else Some(JArray(Numbers(s.value)))
  }

  function EncodeFilter(f: Filter): Json {
    JObject(Present(map[
      "field_name" := Text(f.fieldName),
      "field_type" := Text(f.fieldType),
      "operator" := Text(f.operator),
      "string_values" := TextsOmitEmpty(f.stringValues),
      "number_values" := NumbersOmitEmpty(f.numberValues),
      "json_path" := TextsOmitEmpty(f.jsonPath)]))
  }

  function EncodeFilters(filters: seq<Option<Filter>>): seq<Json> {
    if filters == [] then []
    else [if filters[0] == None then JNull else EncodeFilter(filters[0].value)] + EncodeFilters(filters[1..])
  }

  function EncodeContact(c: ContactCondition): Json {
    JObject(Present(map[
      "filters" := Some(if c.filters == None then JNull else JArray(EncodeFilters(c.filters.value)))]))
  }

  function EncodeList(c: ListCondition): Json {
    JObject(Present(map[
      "operator" := Text(c.operator),
      "list_id" := Text(c.listID),
      "status" := OptText(c.status)]))
  }

  function EncodeTimeline(c: TimelineCondition): Json {
    JObject(Present(map[
      "kind" := Text(c.kind),
      "count_operator" := Text(c.countOperator),
      "count_value" := Some(JNumber(Double(c.countValue) as real)),
      "template_id" := OptText(c.templateID),
      "timeframe_operator" := OptText(c.timeframeOperator),
      "timeframe_values" := TextsOmitEmpty(c.timeframeValues),
      "filters" := if Len(c.filters) == 0 then None else Some(JArray(EncodeFilters(c.filters.value)))]))
  }

  function EncodeGoal(g: GoalCondition): Json {
    JObject(Present(map[
      "goal_type" := Text(g.goalType),
      "goal_name" := OptText(g.goalName),
      "aggregate_operator" := Text(g.aggregateOperator),
      "operator" := Text(g.operator),
      "value" := Some(Number(g.value)),
      "value_2" := if g.value2 == None then None else Some(Number(g.value2.value)),
      "timeframe_operator" := Text(g.timeframeOperator),
      "timeframe_values" := TextsOmitEmpty(g.timeframeValues)]))
  }

  function EncodeLeaf(l: Leaf): Json {
    JObject(Present(map[
      "source" := Text(l.source),
      "contact" := if l.contact == None then None else Some(EncodeContact(l.contact.value)),
      "contact_list" := if l.contactList == None then None else Some(EncodeList(l.contactList.value)),
      "contact_timeline" := if l.contactTimeline == None then None else Some(EncodeTimeline(l.contactTimeline.value)),
      "custom_events_goal" := if l.customEventsGoal == None then None else Some(EncodeGoal(l.customEventsGoal.value))]))
  }

  function EncodeNode(t: TreeNode): Json
    decreases t
  {
    var branch := match t.branch case None => None case Some(b) => Some(EncodeBranch(b));
    JObject(Present(map[
      "kind" := Text(t.kind),
      "branch" := branch,
      "leaf" := if t.leaf == None then None else Some(EncodeLeaf(t.leaf.value))]))
  }

  function EncodeBranch(b: Branch): Json
    decreases b
  {
    var leaves := match b.leaves case NilChildren => JNull case Children(items) => JArray(EncodeChildren(items));
    JObject(Present(map["operator" := Text(b.operator), "leaves" := Some(leaves)]))
  }

  function EncodeChildren(items: seq<Child>): seq<Json>
    decreases items
  {
    if items == [] then [] else [EncodeChild(items[0])] + EncodeChildren(items[1..])
  }

  function EncodeChild(c: Child): Json
    decreases c
  {
    match c
    case NilChild => JNull
    case Child(t) => EncodeNode(t)
  }

  // ---- Decoding ----

  /** A missing member and a null one both leave the field as it is. */
  predicate Absent(v: Option<Json>) {
    v == None || v == Some(JNull)
  }

  function DecodeText(v: Option<Json>): Option<string> {
    if Absent(v) then Some("") else if v.value.JString? then Some(v.value.s) else None
  }

  function DecodeOptText(v: Option<Json>): Option<Option<string>> {
    if Absent(v) then Some(None) else if v.value.JString? then Some(Some(v.value.s)) else None
  }

  function DecodeInt(v: Option<Json>): Option<int> {
    if Absent(v) then Some(0) else if v.value.JNumber? then IntOf(v.value.n) else None
  }

  function DecodeFloat(v: Option<Json>): Option<Float> {
    if Absent(v) then Some(Finite(0.0)) else if v.value.JNumber? then Some(Finite(v.value.n)) else None
  }

  function DecodeOptFloat(v: Option<Json>): Option<Option<Float>> {
    if Absent(v) then Some(None) else if v.value.JNumber? then Some(Some(Finite(v.value.n))) else None
  }

  function TextItems(items: seq<Json>): Option<seq<string>> {
    if items == [] then Some([])
    else
      var rest :- TextItems(items[1..]);
      match items[0]
      case JString(s) => Some([s] + rest)
      case JNull => Some([""] + rest)
      case _ => None
  }

  function FloatItems(items: seq<Json>): Option<seq<Float>> {
    if items == [] then Some([])
    else
      var rest :- FloatItems(items[1..]);
      match items[0]
      case JNumber(n) => Some([Finite(n)] + rest)
      case JNull => Some([Finite(0.0)] + rest)
      case _ => None
  }

  function DecodeTexts(v: Option<Json>): Option<Option<seq<string>>> {
    if Absent(v) then Some(None)
    else if !v.value.JArray? then None
    else var s :- TextItems(v.value.items); Some(Some(s))
  }

  function DecodeFloats(v: Option<Json>): Option<Option<seq<Float>>> {
    if Absent(v) then Some(None)
    else if !v.value.JArray? then None
    else var s :- FloatItems(v.value.items); Some(Some(s))
  }

  function DecodeFilter(j: Json): Option<Filter> {
    if !j.JObject? then None else
    var fieldName :- DecodeText(Lookup(j.fields, "field_name"));
    var fieldType :- DecodeText(Lookup(j.fields, "field_type"));
    var operator :- DecodeText(Lookup(j.fields, "operator"));
    var stringValues :- DecodeTexts(Lookup(j.fields, "string_values"));
    var numberValues :- DecodeFloats(Lookup(j.fields, "number_values"));
    var jsonPath :- DecodeTexts(Lookup(j.fields, "json_path"));
    Some(Filter(fieldName, fieldType, operator, stringValues, numberValues, jsonPath))
  }

  function FilterItems(items: seq<Json>): Option<seq<Option<Filter>>> {
    if items == [] then Some([])
    else
      var rest :- FilterItems(items[1..]);
      if items[0] == JNull then Some([None] + rest)
      else var f :- DecodeFilter(items[0]); Some([Some(f)] + rest)
  }

  function DecodeFilters(v: Option<Json>): Option<Option<seq<Option<Filter>>>> {
    if Absent(v) then Some(None)
    else if !v.value.JArray? then None
    else var s :- FilterItems(v.value.items); Some(Some(s))
  }

  function DecodeContact(j: Json): Option<ContactCondition> {
    if !j.JObject? then None else
    var filters :- DecodeFilters(Lookup(j.fields, "filters"));
    Some(ContactCondition(filters))
  }

  function DecodeList(j: Json): Option<ListCondition> {
    if !j.JObject? then None else
    var operator :- DecodeText(Lookup(j.fields, "operator"));
    var listID :- DecodeText(Lookup(j.fields, "list_id"));
    var status :- DecodeOptText(Lookup(j.fields, "status"));
    Some(ListCondition(operator, listID, status))
  }

  function DecodeTimeline(j: Json): Option<TimelineCondition> {
    if !j.JObject? then None else
    var kind :- DecodeText(Lookup(j.fields, "kind"));
    var countOperator :- DecodeText(Lookup(j.fields, "count_operator"));
    var countValue :- DecodeInt(Lookup(j.fields, "count_value"));
    var templateID :- DecodeOptText(Lookup(j.fields, "template_id"));
    var timeframeOperator :- DecodeOptText(Lookup(j.fields, "timeframe_operator"));
    var timeframeValues :- DecodeTexts(Lookup(j.fields, "timeframe_values"));
    var filters :- DecodeFilters(Lookup(j.fields, "filters"));
    Some(TimelineCondition(kind, countOperator, countValue, templateID, timeframeOperator, timeframeValues, filters))
  }

  function DecodeGoal(j: Json): Option<GoalCondition> {
    if !j.JObject? then None else
    var goalType :- DecodeText(Lookup(j.fields, "goal_type"));
    var goalName :- DecodeOptText(Lookup(j.fields, "goal_name"));
    var aggregateOperator :- DecodeText(Lookup(j.fields, "aggregate_operator"));
    var operator :- DecodeText(Lookup(j.fields, "operator"));
    var value :- DecodeFloat(Lookup(j.fields, "value"));
    var value2 :- DecodeOptFloat(Lookup(j.fields, "value_2"));
    var timeframeOperator :- DecodeText(Lookup(j.fields, "timeframe_operator"));
    var timeframeValues :- DecodeTexts(Lookup(j.fields, "timeframe_values"));
    Some(GoalCondition(goalType, goalName, aggregateOperator, operator, value, value2, timeframeOperator, timeframeValues))
  }

  /** A pointer field: nil when absent, otherwise what the decoder makes of the member. */
  function Pointer<T>(v: Option<Json>, decode: Json -> Option<T>): Option<Option<T>> {
    if Absent(v) then Some(None)
    else match decode(v.value)
      case None => None
      case Some(v) => Some(Some(v))
  }

  function DecodeLeaf(j: Json): Option<Leaf> {
    if !j.JObject? then None else
    var source :- DecodeText(Lookup(j.fields, "source"));
    var contact :- Pointer(Lookup(j.fields, "contact"), DecodeContact);
    var contactList :- Pointer(Lookup(j.fields, "contact_list"), DecodeList);
    var contactTimeline :- Pointer(Lookup(j.fields, "contact_timeline"), DecodeTimeline);
    var customEventsGoal :- Pointer(Lookup(j.fields, "custom_events_goal"), DecodeGoal);
    Some(Leaf(source, contact, contactList, contactTimeline, customEventsGoal))
  }

  function DecodeNode(j: Json): Option<TreeNode>
    decreases j, 0
  {
    match j
    case JObject(fields) =>
      var kind :- DecodeText(Lookup(fields, "kind"));
      var leaf :- Pointer(Lookup(fields, "leaf"), DecodeLeaf);
      if Absent(Lookup(fields, "branch")) then Some(TreeNode(kind, None, leaf))
      else var branch :- DecodeBranch(fields["branch"]); Some(TreeNode(kind, Some(branch), leaf))
    case _ => None
  }

  function DecodeBranch(j: Json): Option<Branch>
    decreases j
  {
    match j
    case JObject(fields) =>
      var operator :- DecodeText(Lookup(fields, "operator"));
      if Absent(Lookup(fields, "leaves")) then Some(Branch(operator, NilChildren))
      else var items :- DecodeArray(fields["leaves"]); Some(Branch(operator, Children(items)))
    case _ => None
  }

  function DecodeArray(j: Json): Option<seq<Child>>
    decreases j
  {
    match j
    case JArray(items) => DecodeChildren(items)
    case _ => None
  }

  function DecodeChildren(items: seq<Json>): Option<seq<Child>>
    decreases items
  {
    if items == [] then Some([])
    else
      var rest :- DecodeChildren(items[1..]);
      var first :- DecodeChild(items[0]);
      Some([first] + rest)
  }

  function DecodeChild(j: Json): Option<Child>
    decreases j, 1
  {
    if j == JNull then Some(NilChild) else var t :- DecodeNode(j); Some(Child(t))
  }

  // ---- The two conversions ----

  predicate FiniteFilters(filters: seq<Option<Filter>>) {
    forall i :: 0 <= i < |filters| && filters[i].Some? ==>
      forall x :: x in Items(filters[i].value.numberValues) ==> x.Finite?
  }

  predicate FiniteLeaf(l: Leaf) {
    && (l.contact.Some? ==> FiniteFilters(Items(l.contact.value.filters)))
    && (l.contactTimeline.Some? ==> FiniteFilters(Items(l.contactTimeline.value.filters)))
    && (l.customEventsGoal.Some? ==> l.customEventsGoal.value.value.Finite?)
    && (l.customEventsGoal.Some? && l.customEventsGoal.value.value2.Some? ==> l.customEventsGoal.value.value2.value.Finite?)
  }

  /**
   The count is a 64-bit integer, and the terse one among those that become the same double:
   with the most trailing zeros, and then nearest to it.
   */
  ghost predicate ExactLeaf(l: Leaf) {
    l.contactTimeline.Some? ==>
      var n := l.contactTimeline.value.countValue;
      var m := if n < 0 then -n else n;
      -MAX_INT64 - 1 <= n <= MAX_INT64 && Terse(m, Round(m))
  }

  lemma ExactLeafMeans(l: Leaf)
    requires l.contactTimeline.Some?
    ensures ExactLeaf(l) <==> Carried(l.contactTimeline.value.countValue) == Some(l.contactTimeline.value.countValue)
  {
    hide Terse, Round, Double, TextOf;
    var n := l.contactTimeline.value.countValue;
    if -MAX_INT64 - 1 <= n <= MAX_INT64 {
      CarriedIff(n);
    }
  }

  /** Every leaf present anywhere in the tree satisfies p, whether or not its node's kind reaches it. */
  predicate EveryLeaf(t: TreeNode, p: Leaf -> bool)
    decreases t
  {
    && (t.leaf.Some? ==> p(t.leaf.value))
    && match t.branch case None => true case Some(b) => EveryBranchLeaf(b, p)
  }

  predicate EveryBranchLeaf(b: Branch, p: Leaf -> bool)
    decreases b
  {
    match b.leaves
    case NilChildren => true
    case Children(items) => EveryChildLeaf(items, p)
  }

  predicate EveryChildLeaf(items: seq<Child>, p: Leaf -> bool)
    decreases items
  {
    items != [] ==> EveryLeafOf(items[0], p) && EveryChildLeaf(items[1..], p)
  }

  predicate EveryLeafOf(c: Child, p: Leaf -> bool)
    decreases c
  {
    match c
    case NilChild => true
    case Child(t) => EveryLeaf(t, p)
  }

  /** json.Unmarshal refuses objects and arrays nested deeper than this. */
  const MAX_NESTING := 10_000

  predicate NestsWithin(j: Json, depth: nat)
    decreases depth
  {
    match j
    case JArray(items) => depth > 0 && forall i :: 0 <= i < |items| ==> NestsWithin(items[i], depth - 1)
    case JObject(fields) => depth > 0 && forall k :: k in fields ==> NestsWithin(fields[k], depth - 1)
    case _ => true
  }

  /** TreeNode.ToMapOfAny: fails on a float that has no JSON form, and on a tree nested too deep. */
  function ToMapOfAny(t: TreeNode): Option<Record> {
    if EveryLeaf(t, FiniteLeaf) && NestsWithin(EncodeNode(t), MAX_NESTING) then Some(EncodeNode(t).fields) else None
  }

  function TreeNodeFromMapOfAny(data: Record): Option<TreeNode> {
    if NestsWithin(JObject(data), MAX_NESTING) then DecodeNode(JObject(data)) else None
  }

  // ---- The tree that comes back ----

  function NilIfEmpty<T>(slice: Option<seq<T>>): Option<seq<T>> {
    if Len(slice) == 0 then None else slice
  }

  function CanonFilter(f: Filter): Filter {
    f.(stringValues := NilIfEmpty(f.stringValues), numberValues := NilIfEmpty(f.numberValues), jsonPath := NilIfEmpty(f.jsonPath))
  }

  function CanonFilters(filters: seq<Option<Filter>>): (r: seq<Option<Filter>>)
    ensures |r| == |filters|
  {
    if filters == [] then []
    else [if filters[0] == None then None else Some(CanonFilter(filters[0].value))] + CanonFilters(filters[1..])
  }

  function CanonContact(c: ContactCondition): ContactCondition {
    if c.filters == None then c else ContactCondition(Some(CanonFilters(c.filters.value)))
  }

  function CanonTimeline(c: TimelineCondition): TimelineCondition {
    c.(timeframeValues := NilIfEmpty(c.timeframeValues),
       filters := if Len(c.filters) == 0 then None else Some(CanonFilters(c.filters.value)))
  }

  function CanonGoal(g: GoalCondition): GoalCondition {
    g.(timeframeValues := NilIfEmpty(g.timeframeValues))
  }

  function CanonLeaf(l: Leaf): Leaf {
    Leaf(l.source,
         if l.contact == None then None else Some(CanonContact(l.contact.value)),
         l.contactList,
         if l.contactTimeline == None then None else Some(CanonTimeline(l.contactTimeline.value)),
         if l.customEventsGoal == None then None else Some(CanonGoal(l.customEventsGoal.value)))
  }

  /** The same tree with every empty omitempty slice nil, and nothing else changed. */
  function Canon(t: TreeNode): TreeNode
    decreases t
  {
    var branch := match t.branch case None => None case Some(b) => Some(CanonBranch(b));
    TreeNode(t.kind, branch, if t.leaf == None then None else Some(CanonLeaf(t.leaf.value)))
  }

  function CanonBranch(b: Branch): Branch
    decreases b
  {
    var leaves := match b.leaves case NilChildren => NilChildren case Children(items) => Children(CanonChildren(items));
    Branch(b.operator, leaves)
  }

  function CanonChildren(items: seq<Child>): (r: seq<Child>)
    ensures |r| == |items|
    decreases items
  {
    if items == [] then [] else [CanonChild(items[0])] + CanonChildren(items[1..])
  }

  function CanonChild(c: Child): Child
    decreases c
  {
    match c
    case NilChild => NilChild
    case Child(t) => Child(Canon(t))
  }

  // ---- Values come back ----

  lemma {:induction false} TextsComeBack(s: seq<string>)
    ensures TextItems(Texts(s)) == Some(s)
  {
    if s != [] {
      assert Texts(s)[1..] == Texts(s[1..]);
      TextsComeBack(s[1..]);
      assert [s[0]] + s[1..] == s;
    }
  }

  lemma {:induction false} FloatsComeBack(s: seq<Float>)
    requires forall x :: x in s ==> x.Finite?
    ensures FloatItems(Numbers(s)) == Some(s)
  {
    if s != [] {
      assert Numbers(s)[1..] == Numbers(s[1..]);
      assert s[0] in s;
      FloatsComeBack(s[1..]);
      assert [s[0]] + s[1..] == s;
    }
  }

  lemma TextSliceComesBack(s: Option<seq<string>>)
    ensures DecodeTexts(TextsOmitEmpty(s)) == Some(NilIfEmpty(s))
  {
    TextsComeBack(Items(s));
  }

  lemma FloatSliceComesBack(s: Option<seq<Float>>)
    requires forall x :: x in Items(s) ==> x.Finite?
    ensures DecodeFloats(NumbersOmitEmpty(s)) == Some(NilIfEmpty(s))
  {
    FloatsComeBack(Items(s));
  }

  lemma FilterMembers(f: Filter)
    ensures EncodeFilter(f).JObject?
    ensures var r := EncodeFilter(f).fields;
            && Lookup(r, "field_name") == Text(f.fieldName)
            && Lookup(r, "field_type") == Text(f.fieldType)
            && Lookup(r, "operator") == Text(f.operator)
            && Lookup(r, "string_values") == TextsOmitEmpty(f.stringValues)
            && Lookup(r, "number_values") == NumbersOmitEmpty(f.numberValues)
            && Lookup(r, "json_path") == TextsOmitEmpty(f.jsonPath)
  {
    hide Text, TextsOmitEmpty, NumbersOmitEmpty;
  }

  lemma FilterComesBack(f: Filter)
    requires forall x :: x in Items(f.numberValues) ==> x.Finite?
    ensures DecodeFilter(EncodeFilter(f)) == Some(CanonFilter(f))
  {
    hide EncodeFilter, Lookup, TextsOmitEmpty, NumbersOmitEmpty, DecodeTexts, DecodeFloats;
    FilterMembers(f);
    TextSliceComesBack(f.stringValues);
    FloatSliceComesBack(f.numberValues);
    TextSliceComesBack(f.jsonPath);
  }

  lemma {:induction false} FiltersComeBack(filters: seq<Option<Filter>>)
    requires FiniteFilters(filters)
    ensures FilterItems(EncodeFilters(filters)) == Some(CanonFilters(filters))
  {
    if filters != [] {
      assert FiniteFilters(filters[1..]) by {
        assert forall i :: 0 <= i < |filters| - 1 ==> filters[1..][i] == filters[i + 1];
      }
      FiltersComeBack(filters[1..]);
      assert EncodeFilters(filters)[1..] == EncodeFilters(filters[1..]);
      if filters[0].Some? {
        FilterComesBack(filters[0].value);
      }
    }
  }

  lemma ContactComesBack(c: ContactCondition)
    requires FiniteFilters(Items(c.filters))
    ensures DecodeContact(EncodeContact(c)) == Some(CanonContact(c))
  {
    FiltersComeBack(Items(c.filters));
  }

  lemma ListComesBack(c: ListCondition)
    ensures DecodeList(EncodeList(c)) == Some(c)
  {
  }

  lemma TimelineMembers(c: TimelineCondition)
    ensures EncodeTimeline(c).JObject?
    ensures var r := EncodeTimeline(c).fields;
            && Lookup(r, "kind") == Text(c.kind)
            && Lookup(r, "count_operator") == Text(c.countOperator)
            && Lookup(r, "count_value") == Some(JNumber(Double(c.countValue) as real))
            && Lookup(r, "template_id") == OptText(c.templateID)
            && Lookup(r, "timeframe_operator") == OptText(c.timeframeOperator)
            && Lookup(r, "timeframe_values") == TextsOmitEmpty(c.timeframeValues)
            && Lookup(r, "filters") == (if Len(c.filters) == 0 then None else Some(JArray(EncodeFilters(c.filters.value))))
  {
    hide Text, OptText, TextsOmitEmpty, EncodeFilters;
  }

  /** Everything but the count always comes back; the count is what the carry makes of it. */
  lemma TimelineComesBack(c: TimelineCondition)
    requires FiniteFilters(Items(c.filters))
    ensures var count := Carried(c.countValue);
            (DecodeTimeline(EncodeTimeline(c))
             == if count == None then None else Some(CanonTimeline(c).(countValue := count.value)))
  {
    hide EncodeTimeline, Lookup, TextsOmitEmpty, TextItems, DecodeTexts, FilterItems, EncodeFilters, CanonFilters;
    TimelineMembers(c);
    TextSliceComesBack(c.timeframeValues);
    FiltersComeBack(Items(c.filters));
  }

  lemma GoalMembers(g: GoalCondition)
    ensures EncodeGoal(g).JObject?
    ensures var r := EncodeGoal(g).fields;
            && Lookup(r, "goal_type") == Text(g.goalType)
            && Lookup(r, "goal_name") == OptText(g.goalName)
            && Lookup(r, "aggregate_operator") == Text(g.aggregateOperator)
            && Lookup(r, "operator") == Text(g.operator)
            && Lookup(r, "value") == Some(Number(g.value))
            && Lookup(r, "value_2") == (if g.value2 == None then None else Some(Number(g.value2.value)))
            && Lookup(r, "timeframe_operator") == Text(g.timeframeOperator)
            && Lookup(r, "timeframe_values") == TextsOmitEmpty(g.timeframeValues)
  {
    hide Text, OptText, TextsOmitEmpty, Number;
  }

  lemma GoalComesBack(g: GoalCondition)
    requires g.value.Finite? && (g.value2.Some? ==> g.value2.value.Finite?)
    ensures DecodeGoal(EncodeGoal(g)) == Some(CanonGoal(g))
  {
    hide EncodeGoal, Lookup, TextsOmitEmpty, TextItems, DecodeTexts;
    GoalMembers(g);
    TextSliceComesBack(g.timeframeValues);
  }

  lemma LeafMembers(l: Leaf)
    ensures EncodeLeaf(l).JObject?
    ensures var r := EncodeLeaf(l).fields;
            && Lookup(r, "source") == Text(l.source)
            && Lookup(r, "contact") == (if l.contact == None then None else Some(EncodeContact(l.contact.value)))
            && Lookup(r, "contact_list") == (if l.contactList == None then None else Some(EncodeList(l.contactList.value)))
            && Lookup(r, "contact_timeline") == (if l.contactTimeline == None then None else Some(EncodeTimeline(l.contactTimeline.value)))
            && Lookup(r, "custom_events_goal") == (if l.customEventsGoal == None then None else Some(EncodeGoal(l.customEventsGoal.value)))
  {
    hide Text, EncodeContact, EncodeList, EncodeTimeline, EncodeGoal;
  }

  lemma LeafComesBack(l: Leaf)
    requires FiniteLeaf(l)
    ensures DecodeLeaf(EncodeLeaf(l)) == Some(CanonLeaf(l)) <==> ExactLeaf(l)
  {
    hide EncodeLeaf, Lookup, DecodeContact, DecodeList, DecodeTimeline, DecodeGoal, FiniteFilters,
         EncodeContact, EncodeList, EncodeTimeline, EncodeGoal, CanonContact, CanonFilters, CanonGoal;
    LeafMembers(l);
    PayloadsComeBack(l);
    if l.contactTimeline.Some? {
      ExactLeafMeans(l);
    }
    hide ExactLeaf, Carried;
  }

  /** Each payload present is an object, and comes back as its own canonical form. */
  lemma PayloadsComeBack(l: Leaf)
    requires FiniteLeaf(l)
    ensures l.contact.Some? ==>
      DecodeContact(EncodeContact(l.contact.value)) == Some(CanonContact(l.contact.value)) && EncodeContact(l.contact.value) != JNull
    ensures l.contactList.Some? ==>
      DecodeList(EncodeList(l.contactList.value)) == Some(l.contactList.value) && EncodeList(l.contactList.value) != JNull
    ensures l.contactTimeline.Some? ==> EncodeTimeline(l.contactTimeline.value) != JNull
    ensures l.contactTimeline.Some? ==>
      var count := Carried(l.contactTimeline.value.countValue);
      (DecodeTimeline(EncodeTimeline(l.contactTimeline.value))
       == if count == None then None else Some(CanonTimeline(l.contactTimeline.value).(countValue := count.value)))
    ensures l.customEventsGoal.Some? ==>
      DecodeGoal(EncodeGoal(l.customEventsGoal.value)) == Some(CanonGoal(l.customEventsGoal.value))
      && EncodeGoal(l.customEventsGoal.value) != JNull
  {
    hide Lookup, Present, DecodeContact, DecodeList, DecodeTimeline, DecodeGoal;
    if l.contact.Some? {
      ContactComesBack(l.contact.value);
    }
    if l.contactList.Some? {
      ListComesBack(l.contactList.value);
    }
    if l.contactTimeline.Some? {
      TimelineComesBack(l.contactTimeline.value);
    }
    if l.customEventsGoal.Some? {
      GoalComesBack(l.customEventsGoal.value);
    }
  }

  lemma NodeMembers(t: TreeNode)
    ensures EncodeNode(t).JObject?
    ensures var r := EncodeNode(t).fields;
            && Lookup(r, "kind") == Text(t.kind)
            && Lookup(r, "leaf") == (if t.leaf == None then None else Some(EncodeLeaf(t.leaf.value)))
            && Lookup(r, "branch") == (if t.branch == None then None else Some(EncodeBranch(t.branch.value)))
    ensures t.leaf.Some? ==> EncodeLeaf(t.leaf.value) != JNull
    ensures t.branch.Some? ==> EncodeBranch(t.branch.value) != JNull
  {
    hide Text, Present;
  }

  lemma {:induction false} NodeComesBack(t: TreeNode)
    requires EveryLeaf(t, FiniteLeaf)
    ensures DecodeNode(EncodeNode(t)) == Some(Canon(t)) <==> EveryLeaf(t, ExactLeaf)
    decreases t
  {
    hide EncodeNode, EncodeLeaf, DecodeLeaf, CanonLeaf, FiniteLeaf, ExactLeaf, DecodeBranch, EveryBranchLeaf, CanonBranch;
    NodeMembers(t);
    if t.leaf.Some? {
      LeafComesBack(t.leaf.value);
    }
    match t.branch
    case None =>
    case Some(b) => BranchComesBack(b);
  }

  lemma {:induction false} BranchComesBack(b: Branch)
    requires EveryBranchLeaf(b, FiniteLeaf)
    ensures DecodeBranch(EncodeBranch(b)) == Some(CanonBranch(b)) <==> EveryBranchLeaf(b, ExactLeaf)
    decreases b
  {
    var r := EncodeBranch(b).fields;
    assert Lookup(r, "operator") == Text(b.operator);
    assert Lookup(r, "leaves") == Some(match b.leaves case NilChildren => JNull case Children(items) => JArray(EncodeChildren(items)));
    match b.leaves
    case NilChildren =>
    case Children(items) => ChildrenComeBack(items);
  }

  lemma {:induction false} ChildrenComeBack(items: seq<Child>)
    requires EveryChildLeaf(items, FiniteLeaf)
    ensures DecodeChildren(EncodeChildren(items)) == Some(CanonChildren(items)) <==> EveryChildLeaf(items, ExactLeaf)
    decreases items
  {
    if items != [] {
      ChildComesBack(items[0]);
      ChildrenComeBack(items[1..]);
      assert EncodeChildren(items)[1..] == EncodeChildren(items[1..]);
      assert CanonChildren(items)[1..] == CanonChildren(items[1..]);
    }
  }

  lemma {:induction false} ChildComesBack(c: Child)
    requires EveryLeafOf(c, FiniteLeaf)
    ensures DecodeChild(EncodeChild(c)) == Some(CanonChild(c)) <==> EveryLeafOf(c, ExactLeaf)
    decreases c
  {
    match c
    case NilChild =>
    case Child(t) => NodeComesBack(t);
  }

  /**
   The round trip: the map of a tree, when it has one, gives back the same tree up to empty
   omitempty slices exactly when every count is the terse one for its double.
   */
  lemma RoundTrip(t: TreeNode)
    ensures var data := ToMapOfAny(t);
            && (data.Some? <==> EveryLeaf(t, FiniteLeaf) && NestsWithin(EncodeNode(t), MAX_NESTING))
            && (data.Some? ==> (TreeNodeFromMapOfAny(data.value) == Some(Canon(t)) <==> EveryLeaf(t, ExactLeaf)))
  {
    hide NestsWithin;
    if EveryLeaf(t, FiniteLeaf) {
      NodeComesBack(t);
    }
  }

  // ---- Which trees come back as they were ----

  predicate NotEmpty<T>(slice: Option<seq<T>>) {
    slice.Some? ==> slice.value != []
  }

  predicate TrimFilter(f: Filter) {
    NotEmpty(f.stringValues) && NotEmpty(f.numberValues) && NotEmpty(f.jsonPath)
  }

  predicate TrimFilters(filters: Option<seq<Option<Filter>>>) {
    filters.Some? ==> forall f :: f in filters.value && f.Some? ==> TrimFilter(f.value)
  }

  /** No omitempty slice that is there is empty. A contact condition's filters are not omitempty. */
  predicate TrimLeaf(l: Leaf) {
    && (l.contact.Some? ==> TrimFilters(l.contact.value.filters))
    && (l.contactTimeline.Some? ==>
          && NotEmpty(l.contactTimeline.value.timeframeValues) && NotEmpty(l.contactTimeline.value.filters)
          && TrimFilters(l.contactTimeline.value.filters))
    && (l.customEventsGoal.Some? ==> NotEmpty(l.customEventsGoal.value.timeframeValues))
  }

  lemma {:induction false} FiltersAreTrim(filters: seq<Option<Filter>>)
    ensures CanonFilters(filters) == filters <==> TrimFilters(Some(filters))
  {
    if filters != [] {
      var rest := filters[1..];
      FiltersAreTrim(rest);
      assert CanonFilters(filters)[1..] == CanonFilters(rest);
      assert filters == [filters[0]] + rest;
      assert forall f :: f in filters <==> f == filters[0] || f in rest;
    }
  }

  lemma LeafIsTrim(l: Leaf)
    ensures CanonLeaf(l) == l <==> TrimLeaf(l)
  {
    assert TrimFilters(None) && TrimFilters(Some([]));
    hide TrimFilters, CanonFilters;
    if l.contact.Some? && l.contact.value.filters.Some? {
      FiltersAreTrim(l.contact.value.filters.value);
    }
    if l.contactTimeline.Some? && l.contactTimeline.value.filters.Some? {
      FiltersAreTrim(l.contactTimeline.value.filters.value);
    }
  }

  lemma {:induction false} NodeIsTrim(t: TreeNode)
    ensures Canon(t) == t <==> EveryLeaf(t, TrimLeaf)
    decreases t
  {
    hide TrimLeaf, CanonLeaf;
    if t.leaf.Some? {
      LeafIsTrim(t.leaf.value);
    }
    match t.branch
    case None =>
    case Some(b) => BranchIsTrim(b);
  }

  lemma {:induction false} BranchIsTrim(b: Branch)
    ensures CanonBranch(b) == b <==> EveryBranchLeaf(b, TrimLeaf)
    decreases b
  {
    match b.leaves
    case NilChildren =>
    case Children(items) => ChildrenAreTrim(items);
  }

  lemma {:induction false} ChildrenAreTrim(items: seq<Child>)
    ensures CanonChildren(items) == items <==> EveryChildLeaf(items, TrimLeaf)
    decreases items
  {
    if items != [] {
      ChildIsTrim(items[0]);
      ChildrenAreTrim(items[1..]);
      assert CanonChildren(items)[1..] == CanonChildren(items[1..]);
      assert items == [items[0]] + items[1..];
    }
  }

  lemma {:induction false} ChildIsTrim(c: Child)
    ensures CanonChild(c) == c <==> EveryLeafOf(c, TrimLeaf)
    decreases c
  {
    match c
    case NilChild =>
    case Child(t) => NodeIsTrim(t);
  }

  /** Every field survives: without empty omitempty slices, the very same tree comes back exactly when its counts do. */
  lemma SameTreeComesBack(t: TreeNode)
    requires EveryLeaf(t, TrimLeaf) && ToMapOfAny(t).Some?
    ensures TreeNodeFromMapOfAny(ToMapOfAny(t).value) == Some(t) <==> EveryLeaf(t, ExactLeaf)
  {
    hide NestsWithin, ToMapOfAny, TreeNodeFromMapOfAny, EveryLeaf;
    RoundTrip(t);
    NodeIsTrim(t);
  }

  // ---- How deep a tree may be ----

  /** The number of branches on the longest way down. */
  function Depth(t: TreeNode): nat
    decreases t
  {
    match t.branch
    case None => 0
    case Some(b) => 1 + BranchDepth(b)
  }

  function BranchDepth(b: Branch): nat
    decreases b
  {
    match b.leaves
    case NilChildren => 0
    case Children(items) => ChildrenDepth(items)
  }

  function ChildrenDepth(items: seq<Child>): nat
    decreases items
  {
    if items == [] then 0
    else
      var first, rest := ChildDepth(items[0]), ChildrenDepth(items[1..]);
      if first > rest then first else rest
  }

  function ChildDepth(c: Child): nat
    decreases c
  {
    match c
    case NilChild => 0
    case Child(t) => Depth(t)
  }

  lemma {:induction false} NestsWithinMore(j: Json, d: nat, e: nat)
    requires NestsWithin(j, d) && d <= e
    ensures NestsWithin(j, e)
    decreases d
  {
    match j
    case JArray(items) =>
      forall i | 0 <= i < |items| ensures NestsWithin(items[i], e - 1) {
        NestsWithinMore(items[i], d - 1, e - 1);
      }
    case JObject(fields) =>
      forall k | k in fields ensures NestsWithin(fields[k], e - 1) {
        NestsWithinMore(fields[k], d - 1, e - 1);
      }
    case _ =>
  }

  lemma FilterNests(f: Filter)
    ensures NestsWithin(EncodeFilter(f), 2)
  {
  }

  lemma {:induction false} FiltersNest(filters: seq<Option<Filter>>)
    ensures forall i :: 0 <= i < |EncodeFilters(filters)| ==> NestsWithin(EncodeFilters(filters)[i], 2)
  {
    hide EncodeFilter;
    if filters != [] {
      FiltersNest(filters[1..]);
      if filters[0].Some? {
        FilterNests(filters[0].value);
      }
    }
  }

  lemma ContactNests(c: ContactCondition)
    ensures NestsWithin(EncodeContact(c), 4)
  {
    hide EncodeFilters;
    FiltersNest(Items(c.filters));
  }

  lemma ListNests(c: ListCondition)
    ensures NestsWithin(EncodeList(c), 4)
  {
  }

  lemma TimelineNests(c: TimelineCondition)
    ensures NestsWithin(EncodeTimeline(c), 4)
  {
    hide EncodeFilters, Double;
    FiltersNest(Items(c.filters));
  }

  lemma GoalNests(g: GoalCondition)
    ensures NestsWithin(EncodeGoal(g), 4)
  {
  }

  lemma PayloadsNest(l: Leaf)
    ensures l.contact.Some? ==> NestsWithin(EncodeContact(l.contact.value), 4)
    ensures l.contactList.Some? ==> NestsWithin(EncodeList(l.contactList.value), 4)
    ensures l.contactTimeline.Some? ==> NestsWithin(EncodeTimeline(l.contactTimeline.value), 4)
    ensures l.customEventsGoal.Some? ==> NestsWithin(EncodeGoal(l.customEventsGoal.value), 4)
  {
    hide NestsWithin, EncodeContact, EncodeList, EncodeTimeline, EncodeGoal;
    if l.contact.Some? {
      ContactNests(l.contact.value);
    }
    if l.contactList.Some? {
      ListNests(l.contactList.value);
    }
    if l.contactTimeline.Some? {
      TimelineNests(l.contactTimeline.value);
    }
    if l.customEventsGoal.Some? {
      GoalNests(l.customEventsGoal.value);
    }
  }

  lemma LeafNests(l: Leaf)
    ensures NestsWithin(EncodeLeaf(l), 5)
  {
    hide EncodeContact, EncodeList, EncodeTimeline, EncodeGoal;
    PayloadsNest(l);
  }

  /** A tree with so many branches on its longest way down nests at most three times as deep, and six more. */
  lemma {:induction false} NodeNests(t: TreeNode, n: nat)
    requires Depth(t) <= n
    ensures NestsWithin(EncodeNode(t), 3 * n + 6)
    decreases t
  {
    hide EncodeLeaf, EncodeBranch;
    if t.leaf.Some? {
      LeafNests(t.leaf.value);
      NestsWithinMore(EncodeLeaf(t.leaf.value), 5, 3 * n + 5);
    }
    match t.branch
    case None =>
    case Some(b) => BranchNests(b, n - 1);
  }

  lemma {:induction false} BranchNests(b: Branch, n: nat)
    requires BranchDepth(b) <= n
    ensures NestsWithin(EncodeBranch(b), 3 * n + 8)
    decreases b
  {
    match b.leaves
    case NilChildren =>
    case Children(items) => ChildrenNest(items, n);
  }

  lemma {:induction false} ChildrenNest(items: seq<Child>, n: nat)
    requires ChildrenDepth(items) <= n
    ensures NestsWithin(JArray(EncodeChildren(items)), 3 * n + 7)
    decreases items
  {
    if items != [] {
      ChildNests(items[0], n);
      ChildrenNest(items[1..], n);
    }
  }

  lemma {:induction false} ChildNests(c: Child, n: nat)
    requires ChildDepth(c) <= n
    ensures NestsWithin(EncodeChild(c), 3 * n + 6)
    decreases c
  {
    match c
    case NilChild =>
    case Child(t) => NodeNests(t, n);
  }

  /** Up to 3331 branches on any way down, the depth of a tree is no obstacle. */
  lemma ShallowTreesFit(t: TreeNode)
    requires Depth(t) <= 3331
    ensures NestsWithin(EncodeNode(t), MAX_NESTING)
  {
    NodeNests(t, 3331);
    NestsWithinMore(EncodeNode(t), 9999, MAX_NESTING);
  }

  // ---- What the trip preserves ----

  lemma {:induction false} CanonFiltersKeepVerdict(filters: seq<Option<Filter>>, index: nat)
    ensures FiltersFault(CanonFilters(filters), index) == FiltersFault(filters, index)
    ensures FiltersAnswer(CanonFilters(filters)) == FiltersAnswer(filters)
  {
    if filters != [] {
      CanonFiltersKeepVerdict(filters[1..], index + 1);
      if filters[0].Some? {
        CanonFilterKeepsVerdict(filters[0].value);
      }
    }
  }

  lemma CanonFilterKeepsVerdict(f: Filter)
    ensures FilterFault(CanonFilter(f)) == FilterFault(f)
  {
    hide SegmentFault;
  }

  lemma CanonTimelineKeepsVerdict(c: TimelineCondition)
    ensures TimelineFault(CanonTimeline(c)) == TimelineFault(c)
  {
    hide FiltersFault;
    CanonFiltersKeepVerdict(Items(c.filters), 0);
    EmptyFiltersHaveNoFault();
  }

  lemma CanonContactKeepsVerdict(c: ContactCondition)
    ensures ContactFault(CanonContact(c)) == ContactFault(c)
    ensures FiltersAnswer(Items(CanonContact(c).filters)) == FiltersAnswer(Items(c.filters))
  {
    CanonFiltersKeepVerdict(Items(c.filters), 0);
  }

  lemma CanonLeafKeepsVerdict(l: Leaf)
    ensures LeafFault(CanonLeaf(l)) == LeafFault(l) && LeafAnswer(CanonLeaf(l)) == LeafAnswer(l)
  {
    hide FiltersAnswer, ContactFault, TimelineFault;
    if l.contact.Some? {
      CanonContactKeepsVerdict(l.contact.value);
    }
    if l.contactTimeline.Some? {
      CanonTimelineKeepsVerdict(l.contactTimeline.value);
    }
  }

  lemma EmptyFiltersHaveNoFault()
    ensures FiltersFault([], 0) == None
  {
  }

  lemma {:induction false} CanonKeepsVerdict(t: TreeNode)
    ensures NodeFault(Canon(t)) == NodeFault(t) && NodeAnswer(Canon(t)) == NodeAnswer(t)
    decreases t
  {
    hide LeafFault, LeafAnswer, CanonLeaf;
    if t.leaf.Some? {
      CanonLeafKeepsVerdict(t.leaf.value);
    }
    match t.branch
    case None =>
    case Some(b) => CanonBranchKeepsVerdict(b);
  }

  lemma {:induction false} CanonBranchKeepsVerdict(b: Branch)
    ensures BranchFault(CanonBranch(b)) == BranchFault(b) && BranchAnswer(CanonBranch(b)) == BranchAnswer(b)
    decreases b
  {
    match b.leaves
    case NilChildren =>
    case Children(items) => CanonChildrenKeepVerdict(items, 0);
  }

  lemma {:induction false} CanonChildrenKeepVerdict(items: seq<Child>, index: nat)
    ensures ChildrenFault(CanonChildren(items), index) == ChildrenFault(items, index)
    ensures ChildrenAnswer(CanonChildren(items)) == ChildrenAnswer(items)
    decreases items
  {
    if items != [] {
      assert CanonChildren(items)[1..] == CanonChildren(items[1..]);
      CanonChildKeepsVerdict(items[0], index);
      CanonChildrenKeepVerdict(items[1..], index + 1);
    }
  }

  lemma {:induction false} CanonChildKeepsVerdict(c: Child, index: nat)
    ensures ChildFault(CanonChild(c), index) == ChildFault(c, index) && ChildAnswer(CanonChild(c)) == ChildAnswer(c)
    decreases c
  {
    match c
    case NilChild =>
    case Child(t) => CanonKeepsVerdict(t);
  }

  lemma {:induction false} CanonFiltersEncodeAlike(filters: seq<Option<Filter>>)
    ensures EncodeFilters(CanonFilters(filters)) == EncodeFilters(filters)
  {
    if filters != [] {
      CanonFiltersEncodeAlike(filters[1..]);
      if filters[0].Some? {
        CanonFilterEncodesAlike(filters[0].value);
      }
    }
  }

  lemma CanonFilterEncodesAlike(f: Filter)
    ensures EncodeFilter(CanonFilter(f)) == EncodeFilter(f)
  {
    hide Present, Texts, Numbers;
  }

  lemma CanonLeafEncodesAlike(l: Leaf)
    ensures EncodeLeaf(CanonLeaf(l)) == EncodeLeaf(l)
  {
    hide Present, Texts, EncodeFilters, CanonFilters;
    if l.contact.Some? {
      CanonFiltersEncodeAlike(Items(l.contact.value.filters));
    }
    if l.contactTimeline.Some? {
      CanonFiltersEncodeAlike(Items(l.contactTimeline.value.filters));
    }
  }

  lemma {:induction false} CanonEncodesAlike(t: TreeNode)
    ensures EncodeNode(Canon(t)) == EncodeNode(t)
    decreases t
  {
    hide Present, EncodeLeaf, CanonLeaf;
    if t.leaf.Some? {
      CanonLeafEncodesAlike(t.leaf.value);
    }
    match t.branch
    case None =>
    case Some(b) => CanonBranchEncodesAlike(b);
  }

  lemma {:induction false} CanonBranchEncodesAlike(b: Branch)
    ensures EncodeBranch(CanonBranch(b)) == EncodeBranch(b)
    decreases b
  {
    hide Present;
    match b.leaves
    case NilChildren =>
    case Children(items) => CanonChildrenEncodeAlike(items);
  }

  lemma {:induction false} CanonChildrenEncodeAlike(items: seq<Child>)
    ensures EncodeChildren(CanonChildren(items)) == EncodeChildren(items)
    decreases items
  {
    if items != [] {
      assert CanonChildren(items)[1..] == CanonChildren(items[1..]);
      match items[0] {
        case NilChild =>
        case Child(t) => ChildEncodesAlike(items[0]);
      }
      CanonChildrenEncodeAlike(items[1..]);
    }
  }

  lemma {:induction false} ChildEncodesAlike(c: Child)
    ensures EncodeChild(CanonChild(c)) == EncodeChild(c)
    decreases c
  {
    match c
    case NilChild =>
    case Child(t) => CanonEncodesAlike(t);
  }

  lemma {:induction false} EveryLeafWeakens(t: TreeNode, p: Leaf -> bool, q: Leaf -> bool)
    requires EveryLeaf(t, p) && forall l :: p(l) ==> q(l)
    ensures EveryLeaf(t, q)
    decreases t
  {
    match t.branch
    case None =>
    case Some(b) =>
      match b.leaves
      case NilChildren =>
      case Children(items) => EveryChildLeafWeakens(items, p, q);
  }

  lemma {:induction false} EveryChildLeafWeakens(items: seq<Child>, p: Leaf -> bool, q: Leaf -> bool)
    requires EveryChildLeaf(items, p) && forall l :: p(l) ==> q(l)
    ensures EveryChildLeaf(items, q)
    decreases items
  {
    if items != [] {
      EveryLeafOfWeakens(items[0], p, q);
      EveryChildLeafWeakens(items[1..], p, q);
    }
  }

  lemma {:induction false} EveryLeafOfWeakens(c: Child, p: Leaf -> bool, q: Leaf -> bool)
    requires EveryLeafOf(c, p) && forall l :: p(l) ==> q(l)
    ensures EveryLeafOf(c, q)
    decreases c
  {
    match c
    case NilChild =>
    case Child(t) => EveryLeafWeakens(t, p, q);
  }

  function SmallCount(): Leaf -> bool {
    (l: Leaf) => l.contactTimeline.Some? ==> -EXACT <= l.contactTimeline.value.countValue <= EXACT
  }

  /**
   Trees with a map and counts within 2^53 survive the trip: only empty omitempty
   slices become nil, and neither the verdict of Validate, nor the answer of
   HasRelativeDates, nor the map itself can tell the difference.
   */
  lemma ConversionPreserves(t: TreeNode)
    requires EveryLeaf(t, FiniteLeaf) && EveryLeaf(t, SmallCount()) && NestsWithin(EncodeNode(t), MAX_NESTING)
    ensures var data := ToMapOfAny(t);
            && data.Some?
            && var back := TreeNodeFromMapOfAny(data.value);
            && back == Some(Canon(t))
            && NodeFault(back.value) == NodeFault(t)
            && NodeAnswer(back.value) == NodeAnswer(t)
            && EncodeNode(back.value).fields == data.value
  {
    forall l | SmallCount()(l) ensures ExactLeaf(l) {
      if l.contactTimeline.Some? {
        SmallIntegersCarry(l.contactTimeline.value.countValue);
        ExactLeafMeans(l);
      }
    }
    EveryLeafWeakens(t, SmallCount(), ExactLeaf);
    RoundTrip(t);
    CanonKeepsVerdict(t);
    CanonEncodesAlike(t);
  }
}
