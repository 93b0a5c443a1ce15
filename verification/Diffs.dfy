/**
 Records with optional entries, the old/new differences the triggers write about them,
 and what can be reconstructed from such differences.

 A record models both a contact row (an absent key is an SQL NULL column) and a JSONB
 properties object (an absent key is a missing property). jsonb_build_object turns SQL
 NULL into JSON null, so a difference cannot tell an absent entry from a JSON null one.
 */
module Diffs {
  import opened Prelude

  datatype Json =
    | JNull
    | JBool(b: bool)
    | JNumber(n: real)
    | JString(s: string)
    | JArray(items: seq<Json>)
    | JObject(fields: map<string, Json>)

  type Record = map<string, Json>

  /** {"old": ..., "new": ...}; None when the trigger leaves the key out. */
  datatype Change = Change(before: Option<Json>, after: Option<Json>)

  function Lookup(r: Record, k: string): Option<Json> {
    if k in r then Some(r[k]) else None
  }

  function OrNull(v: Option<Json>): Json {
    match v
    case None => JNull
    case Some(j) => j
  }

  function ChangeOf(before: Record, after: Record, k: string): Change {
    Change(Some(OrNull(Lookup(before, k))), Some(OrNull(Lookup(after, k))))
  }

  /** The keys among `keys` whose entries are distinct, each with its two values. */
  function Diff(keys: set<string>, before: Record, after: Record): map<string, Change> {
    map k | k in keys && Lookup(before, k) != Lookup(after, k) :: ChangeOf(before, after, k)
  }

  /** The entries a difference can speak about: those in `keys` that are not JSON null. */
  function Visible(keys: set<string>, r: Record): Record {
    map k | k in r && k in keys && r[k] != JNull :: r[k]
  }

  /** Overwrites the entries named in `values`, erasing those whose value is null. */
  function Overwrite(r: Record, values: Record): Record {
    map k | k in r.Keys + values.Keys && (k in values ==> values[k] != JNull)
      :: if k in values then values[k] else r[k]
  }

  function NewValues(d: map<string, Change>): Record {
    map k | k in d :: OrNull(d[k].after)
  }

  function OldValues(d: map<string, Change>): Record {
    map k | k in d :: OrNull(d[k].before)
  }

  /** Applies a difference forwards. */
  function Patch(r: Record, d: map<string, Change>): Record {
    Overwrite(r, NewValues(d))
  }

  /** Applies a difference backwards. */
  function Unpatch(r: Record, d: map<string, Change>): Record {
    Overwrite(r, OldValues(d))
  }

  /** Applies recorded differences forwards, oldest first. */
  function Replay(r: Record, ds: seq<map<string, Change>>): Record
    decreases |ds|
  {
    if ds == [] then r else Replay(Patch(r, ds[0]), ds[1..])
  }

  /** Undoes recorded differences, newest first. */
  function Rewind(r: Record, ds: seq<map<string, Change>>): Record {
    if ds == [] then r else Unpatch(Rewind(r, ds[1..]), ds[0])
  }

  /** One difference carries the visible part of either record onto the other's. */
  lemma DiffConnects(keys: set<string>, before: Record, after: Record)
    ensures Patch(Visible(keys, before), Diff(keys, before, after)) == Visible(keys, after)
    ensures Unpatch(Visible(keys, after), Diff(keys, before, after)) == Visible(keys, before)
  {
    var d := Diff(keys, before, after);
    forall k
      ensures k in Patch(Visible(keys, before), d) <==> k in Visible(keys, after)
      ensures k in Unpatch(Visible(keys, after), d) <==> k in Visible(keys, before)
    {
      assert k in d <==> k in keys && Lookup(before, k) != Lookup(after, k);
    }
  }

  /**
   Patching the whole old record gives the whole new one exactly when no entry that
   changed became a JSON null, and un-patching when none that changed was one.
   */
  lemma PatchIsExact(before: Record, after: Record)
    ensures Patch(before, Diff(before.Keys + after.Keys, before, after)) == after
       <==> forall k :: k in after && Lookup(before, k) != Lookup(after, k) ==> after[k] != JNull
    ensures Unpatch(after, Diff(before.Keys + after.Keys, before, after)) == before
       <==> forall k :: k in before && Lookup(before, k) != Lookup(after, k) ==> before[k] != JNull
  {
    var d := Diff(before.Keys + after.Keys, before, after);
    var p, u := Patch(before, d), Unpatch(after, d);
    forall k
      ensures k in p ==> k in after && p[k] == after[k]
      ensures k in after && k !in p ==> Lookup(before, k) != Lookup(after, k) && after[k] == JNull
      ensures k in u ==> k in before && u[k] == before[k]
      ensures k in before && k !in u ==> Lookup(before, k) != Lookup(after, k) && before[k] == JNull
    {
      assert k in d <==> k in before.Keys + after.Keys && Lookup(before, k) != Lookup(after, k);
    }
    if k :| k in after && Lookup(before, k) != Lookup(after, k) && after[k] == JNull {
      assert k in d && k !in p;
    }
    if k :| k in before && Lookup(before, k) != Lookup(after, k) && before[k] == JNull {
      assert k in d && k !in u;
    }
  }

  /** The visible part is the whole record, on `keys`, exactly when no entry is a JSON null. */
  lemma VisibleIsExact(keys: set<string>, r: Record)
    ensures (forall k :: k in keys ==> Lookup(Visible(keys, r), k) == Lookup(r, k))
       <==> (forall k :: k in keys && k in r ==> r[k] != JNull)
  {
  }

  lemma {:induction false} ReplayAppend(r: Record, a: seq<map<string, Change>>, b: seq<map<string, Change>>)
    ensures Replay(r, a + b) == Replay(Replay(r, a), b)
    decreases |a|
  {
    if a == [] {
      assert a + b == b;
    } else {
      assert (a + b)[1..] == a[1..] + b;
      ReplayAppend(Patch(r, a[0]), a[1..], b);
    }
  }

  lemma {:induction false} RewindAppend(r: Record, a: seq<map<string, Change>>, b: seq<map<string, Change>>)
    ensures Rewind(r, a + b) == Rewind(Rewind(r, b), a)
  {
    if a == [] {
      assert a + b == b;
    } else {
      assert (a + b)[1..] == a[1..] + b;
      RewindAppend(r, a[1..], b);
    }
  }

  /**
   The key loop of the custom-event trigger. The query gives no order, so each turn takes
   any remaining key: the result does not depend on the choices.
   */
  method DiffProperties(before: Record, after: Record) returns (diff: map<string, Change>)
    ensures diff == Diff(before.Keys + after.Keys, before, after)
  {
    diff := map[];
    var remaining := before.Keys + after.Keys;
    while remaining != {}
      invariant remaining <= before.Keys + after.Keys
      invariant diff == Diff(before.Keys + after.Keys - remaining, before, after)
    {
      var k :| k in remaining;
      if Lookup(before, k) != Lookup(after, k) {
        diff := diff[k := ChangeOf(before, after, k)];
      }
      remaining := remaining - {k};
    }
    assert before.Keys + after.Keys - remaining == before.Keys + after.Keys;
  }
}
