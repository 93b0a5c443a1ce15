/**
 automation_enroll_contact with frequency `once`, called by overlapping transactions for
 one contact and automation. The function first looks at the trigger log, where it sees
 what other transactions have committed, and later inserts ON CONFLICT DO NOTHING without
 looking again. A conflicting insert waits until the transaction it conflicts with has ended.
 NOW() is the start of the transaction, and UNIQUE(automation_id, contact_email, entered_at)
 rejects a call that started at the instant of one already committed.
 */
module EnrolRace {

  datatype Phase = Calling | Passed | Inserted | Committed | RolledBack | Skipped

  /** Call i started at starts[i] and is in phases[i]; created counts committed contact_automations rows. */
  datatype State = State(starts: seq<int>, phases: seq<Phase>, logged: bool, created: nat)

  /** Look: SELECT EXISTS ... INTO v_already_triggered. Insert: the rest of the function. */
  datatype Action = Look(i: nat) | Insert(i: nat) | Commit(i: nat) | RollBack(i: nat)

  predicate Enabled(s: State, a: Action) {
    a.i < |s.phases|
    && match a
       case Look(i) => s.phases[i] == Calling
       case Insert(i) => s.phases[i] == Passed && forall j :: 0 <= j < |s.phases| ==> s.phases[j] != Inserted
       case Commit(i) => s.phases[i] == Inserted
       case RollBack(i) => s.phases[i] == Inserted
  }

  /** Another call has committed a row with the same entered_at. */
  predicate Rejected(s: State, i: nat)
    requires i < |s.phases|
  {
    exists j :: 0 <= j < |s.phases| && j < |s.starts| && i < |s.starts| && s.phases[j] == Committed && s.starts[j] == s.starts[i]
  }

  function Do(s: State, a: Action): State
    requires Enabled(s, a)
  {
    match a
    case Look(i) => s.(phases := s.phases[i := if s.logged then Skipped else Passed])
    case Insert(i) => s.(phases := s.phases[i := if Rejected(s, i) then RolledBack else Inserted])
    case Commit(i) => s.(phases := s.phases[i := Committed], logged := true, created := s.created + 1)
    case RollBack(i) => s.(phases := s.phases[i := RolledBack])
  }

  predicate Legal(s: State, schedule: seq<Action>)
    decreases |schedule|
  {
    schedule == [] || (Enabled(s, schedule[0]) && Legal(Do(s, schedule[0]), schedule[1..]))
  }

  function Play(s: State, schedule: seq<Action>): State
    requires Legal(s, schedule)
    decreases |schedule|
  {
    if schedule == [] then s else Play(Do(s, schedule[0]), schedule[1..])
  }

  /** How many calls look at the log before any call has committed. */
  function EarlyLooks(schedule: seq<Action>): nat {
    if schedule == [] || schedule[0].Commit? then 0
    else (if schedule[0].Look? then 1 else 0) + EarlyLooks(schedule[1..])
  }

  /** The calls that were rolled back, by the constraint or for another reason. */
  function RolledBackIn(phases: seq<Phase>): nat {
    if phases == [] then 0 else (if phases[0] == RolledBack then 1 else 0) + RolledBackIn(phases[1..])
  }

  /** The calls that will still create a row unless they roll back. */
  function Pending(phases: seq<Phase>): nat {
    if phases == [] then 0
    else (if phases[0] == Passed || phases[0] == Inserted then 1 else 0) + Pending(phases[1..])
  }

  lemma {:induction false} CountsAfter(phases: seq<Phase>, i: nat, p: Phase)
    requires i < |phases|
    ensures Pending(phases[i := p]) == Pending(phases) - Pending([phases[i]]) + Pending([p])
    ensures RolledBackIn(phases[i := p]) == RolledBackIn(phases) - RolledBackIn([phases[i]]) + RolledBackIn([p])
  {
    if i == 0 {
      assert phases[0 := p][1..] == phases[1..];
    } else {
      assert phases[i := p][1..] == phases[1..][i - 1 := p];
      CountsAfter(phases[1..], i - 1, p);
    }
  }

  /** Rows created, still to come and rolled back are the looks that found no committed entry. */
  lemma {:induction false} RowsAreEarlyLooks(s: State, schedule: seq<Action>)
    requires Legal(s, schedule)
    ensures var r := Play(s, schedule);
            r.created + Pending(r.phases) + RolledBackIn(r.phases)
            == s.created + Pending(s.phases) + RolledBackIn(s.phases) + if s.logged then 0 else EarlyLooks(schedule)
    decreases |schedule|
  {
    if schedule != [] {
      var a := schedule[0];
      CountsAfter(s.phases, a.i, Do(s, a).phases[a.i]);
      RowsAreEarlyLooks(Do(s, a), schedule[1..]);
    }
  }

  function Start(starts: seq<int>): State {
    State(starts, seq(|starts|, _ => Calling), false, 0)
  }

  lemma {:induction false} NothingPending(phases: seq<Phase>)
    ensures (forall i :: 0 <= i < |phases| ==> phases[i] != Passed && phases[i] != Inserted) ==> Pending(phases) == 0
    ensures (forall i :: 0 <= i < |phases| ==> phases[i] != RolledBack) ==> RolledBackIn(phases) == 0
  {
    if phases != [] {
      assert forall i :: 0 <= i < |phases| - 1 ==> phases[1..][i] == phases[i + 1];
      NothingPending(phases[1..]);
    }
  }

  /**
   In every interleaving of calls that have all ended, the rows created are the calls that
   looked before the first commit, less those rolled back: `once` holds if and only if these
   are at most one.
   */
  lemma OnceIffOneEarlyLook(starts: seq<int>, schedule: seq<Action>)
    requires Legal(Start(starts), schedule)
    requires var r := Play(Start(starts), schedule);
             forall i :: 0 <= i < |r.phases| ==> r.phases[i] != Passed && r.phases[i] != Inserted
    ensures var r := Play(Start(starts), schedule);
            && r.created == EarlyLooks(schedule) - RolledBackIn(r.phases)
            && (r.created <= 1 <==> EarlyLooks(schedule) - RolledBackIn(r.phases) <= 1)
  {
    RowsAreEarlyLooks(Start(starts), schedule);
    NothingPending(Start(starts).phases);
    NothingPending(Play(Start(starts), schedule).phases);
  }

  lemma PlayStep(s: State, a: Action, rest: seq<Action>)
    requires Enabled(s, a) && Legal(Do(s, a), rest)
    ensures Legal(s, [a] + rest) && Play(s, [a] + rest) == Play(Do(s, a), rest)
  {
    assert ([a] + rest)[1..] == rest;
  }

  /** A second call that looks between the first one's insert and its commit enrols the contact again, unless both started at the same instant. */
  lemma OverlapEnrolsTwice(t: int, u: int)
    ensures var schedule := [Look(0), Insert(0), Look(1), Commit(0), Insert(1)];
            && Legal(Start([t, u]), schedule)
            && (Enabled(Play(Start([t, u]), schedule), Commit(1)) <==> t != u)
            && Play(Start([t, u]), schedule).created == 1
  {
    var s0 := Start([t, u]);
    var s1 := Do(s0, Look(0));
    var s2 := Do(s1, Insert(0));
    var s3 := Do(s2, Look(1));
    var s4 := Do(s3, Commit(0));
    var s5 := Do(s4, Insert(1));
    assert s4.phases == [Committed, Passed];
    assert Rejected(s4, 1) <==> t == u;
    assert Legal(s5, []) && Play(s5, []) == s5;
    PlayStep(s4, Insert(1), []);
    PlayStep(s3, Commit(0), [Insert(1)]);
    PlayStep(s2, Look(1), [Commit(0), Insert(1)]);
    PlayStep(s1, Insert(0), [Look(1), Commit(0), Insert(1)]);
    PlayStep(s0, Look(0), [Insert(0), Look(1), Commit(0), Insert(1)]);
  }
}
