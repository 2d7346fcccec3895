/** Operation receipts over every interleaving of apply, receipt, observe, forget and crash, for all five kinds. */
module ReceiptsSafety {
  import opened Base
  import opened ReceiptsModel

  ghost predicate Legal(v: Variant, log: seq<Action>)
    decreases |log|, 0
  {
    log == [] || (Legal(v, log[..|log| - 1]) && Enabled(v, Run(v, log[..|log| - 1]), log[|log| - 1]))
  }

  ghost function Run(v: Variant, log: seq<Action>): State
    requires Legal(v, log)
    decreases |log|, 1
  {
    if log == [] then Initial() else Apply(v, Run(v, log[..|log| - 1]), log[|log| - 1])
  }

  lemma {:induction false} RunKeepsInv(v: Variant, log: seq<Action>)
    requires Legal(v, log)
    ensures Inv(v, Run(v, log))
  {
    if log != [] {
      RunKeepsInv(v, log[..|log| - 1]);
      InvKept(v, Run(v, log[..|log| - 1]), log[|log| - 1]);
    }
  }

  /** Until a receipt is forgotten, each of its targets is handed to the provider at most once; a forgotten or
      never-created identity has none. */
  lemma DispatchedAtMostOnce(v: Variant, log: seq<Action>, key: Key)
    requires Legal(v, log)
    ensures Distinct(Since(Run(v, log).history, key))
    ensures key !in Run(v, log).files ==> Since(Run(v, log).history, key) == []
  {
    RunKeepsInv(v, log);
    assert KeyInv(v, Run(v, log), key);
  }

  // ---- how many receipts there can be ----

  predicate Profiles(log: seq<Action>, count: nat) {
    forall a :: a in log ==> a.key.profile < count
  }

  function Below(n: nat): (r: set<nat>)
    ensures |r| == n && forall k: nat :: k in r <==> k < n
  {
    if n == 0 then {} else Below(n - 1) + {n - 1}
  }

  lemma LockStep(v: Variant, s: State, a: Action, count: nat)
    requires PerProfile(v) && Enabled(v, s, a) && a.key.profile < count
    requires s.admitted.Keys <= Below(count) && s.peak <= count
    ensures Apply(v, s, a).admitted.Keys <= Below(count) && Apply(v, s, a).peak <= count
  {
    var admitted := Apply(v, s, a).admitted;
    assert admitted.Keys <= s.admitted.Keys + {a.key.profile};
    SmallerSet(admitted.Keys, Below(count));
    assert |admitted| == |admitted.Keys|;
  }

  lemma {:induction false} LocksAreProfiles(v: Variant, log: seq<Action>, count: nat)
    requires Legal(v, log) && PerProfile(v) && Profiles(log, count)
    ensures Run(v, log).admitted.Keys <= Below(count) && Run(v, log).peak <= count
  {
    if log != [] {
      var front, a := log[..|log| - 1], log[|log| - 1];
      assert a in log && forall b :: b in front ==> b in log;
      LocksAreProfiles(v, front, count);
      LockStep(v, Run(v, front), a, count);
    }
  }

  lemma SmallerSet<T>(a: set<T>, b: set<T>)
    requires a <= b
    ensures |a| <= |b|
  {
    assert b == a + (b - a);
  }

  /** With a single lock there are never more than 1024 receipts. Where each profile has its own lock, counting and
      writing of different profiles interleave, and the bound grows by one for every further profile. */
  lemma ReceiptsAreBounded(v: Variant, log: seq<Action>, count: nat)
    requires Legal(v, log) && Profiles(log, count) && count > 0
    ensures |Run(v, log).files| <= if PerProfile(v) then CAPACITY + (count - 1) else CAPACITY
  {
    RunKeepsInv(v, log);
    if PerProfile(v) {
      LocksAreProfiles(v, log, count);
    }
  }

  /** A run of `count` profiles that ends in s. */
  ghost predicate Reaches(v: Variant, log: seq<Action>, s: State, count: nat) {
    IsRun(v, log, s) && Profiles(log, count)
  }

  lemma Take(v: Variant, log: seq<Action>, s: State, a: Action, count: nat) returns (log': seq<Action>, s': State)
    requires Reaches(v, log, s, count) && Enabled(v, s, a) && a.key.profile < count
    ensures Reaches(v, log', s', count) && s' == Apply(v, s, a)
  {
    RunStep(v, log, s, a);
    log', s' := log + [a], Apply(v, s, a);
  }

  predicate Idle(s: State) { s.work == map[] && s.admitted == map[] }

  lemma CountAlone(v: Variant, s: State, key: Key)
    requires Idle(s) && key !in s.files && |s.files| < CAPACITY
    ensures Enabled(v, s, Count(key))
    ensures var t := Apply(v, s, Count(key)); t.files == s.files && t.work == map[] && t.admitted == map[LockOf(v, key) := key]
  {
  }

  lemma CreateAlone(v: Variant, s: State, key: Key)
    requires s.work == map[] && s.admitted == map[LockOf(v, key) := key] && key !in s.files
    ensures Enabled(v, s, Create(key, 0, 0))
    ensures var t := Apply(v, s, Create(key, 0, 0)); t.work == map[key := {}] && t.admitted == map[]
    ensures var t := Apply(v, s, Create(key, 0, 0)); t.files.Keys == s.files.Keys + {key} && |t.files| == |s.files| + 1
  {
    PutSize(s.files, key, Apply(v, s, Create(key, 0, 0)).files[key]);
  }

  /** One request alone: it counts, writes and ends. */
  lemma WriteOne(v: Variant, log: seq<Action>, s: State, key: Key, count: nat) returns (log': seq<Action>, s': State)
    requires Reaches(v, log, s, count) && Idle(s) && key !in s.files && |s.files| < CAPACITY && key.profile < count
    ensures Reaches(v, log', s', count) && Idle(s')
    ensures s'.files.Keys == s.files.Keys + {key} && |s'.files| == |s.files| + 1
  {
    CountAlone(v, s, key);
    var front, t := Take(v, log, s, Count(key), count);
    CreateAlone(v, t, key);
    var next, u := Take(v, front, t, Create(key, 0, 0), count);
    log', s' := Take(v, next, u, Leave(key), count);
    assert s'.work == map[];
  }

  /** The receipts of profile 0, one after the other. */
  lemma {:induction false} Fill(v: Variant, n: nat, count: nat) returns (log: seq<Action>, s: State)
    requires n < CAPACITY && count > 0
    ensures Reaches(v, log, s, count) && Idle(s) && |s.files| == n
    ensures forall k :: k in s.files ==> k.id < n
  {
    if n == 0 {
      log, s := [], Initial();
      assert Legal(v, log) && Run(v, log) == s;
    } else {
      var front, t := Fill(v, n - 1, count);
      log, s := WriteOne(v, front, t, Key(0, n - 1), count);
      forall k | k in s.files ensures k.id < n {
        assert k in s.files.Keys;
      }
    }
  }

  function Rival(profile: nat): Key { Key(profile, CAPACITY + profile) }

  /** The first n profiles have each found room for one more receipt. */
  ghost predicate Rivals(s: State, n: nat) {
    && (forall l: nat :: l in s.admitted <==> l < n)
    && (forall l: nat :: l < n ==> s.admitted[l] == Rival(l))
    && (forall l: nat :: Rival(l) !in s.files)
  }

  lemma {:induction false} CountAll(v: Variant, n: nat, count: nat) returns (log: seq<Action>, s: State)
    requires PerProfile(v) && n <= count && count > 0
    ensures Reaches(v, log, s, count) && Rivals(s, n) && s.work == map[] && |s.files| == CAPACITY - 1
  {
    if n == 0 {
      log, s := Fill(v, CAPACITY - 1, count);
    } else {
      var front, t := CountAll(v, n - 1, count);
      log, s := Take(v, front, t, Count(Rival(n - 1)), count);
    }
  }

  /** Of `count` rivals the first n have written, and the others still may. */
  predicate Written(s: State, n: nat, count: nat) {
    && |s.files| == CAPACITY - 1 + n
    && forall l: nat :: n <= l < count ==> l in s.admitted && s.admitted[l] == Rival(l) && Rival(l) !in s.files
  }

  lemma WriteRival(v: Variant, s: State, n: nat, count: nat)
    requires PerProfile(v) && Written(s, n, count) && n < count
    ensures Enabled(v, s, Create(Rival(n), 0, 0)) && Written(Apply(v, s, Create(Rival(n), 0, 0)), n + 1, count)
  {
    PutSize(s.files, Rival(n), Apply(v, s, Create(Rival(n), 0, 0)).files[Rival(n)]);
  }

  /** Then all of them write. */
  lemma {:induction false} WriteAll(v: Variant, n: nat, count: nat) returns (log: seq<Action>, s: State)
    requires PerProfile(v) && n <= count && count > 0
    ensures Reaches(v, log, s, count) && Written(s, n, count)
  {
    if n == 0 {
      log, s := CountAll(v, count, count);
    } else {
      var front, t := WriteAll(v, n - 1, count);
      WriteRival(v, t, n - 1, count);
      log, s := Take(v, front, t, Create(Rival(n - 1), 0, 0), count);
    }
  }

  /** The bound is reached: with any number of profiles there is a run that leaves that many receipts. */
  lemma BoundIsReached(v: Variant, count: nat) returns (log: seq<Action>)
    requires PerProfile(v) && count > 0
    ensures Legal(v, log) && Profiles(log, count) && |Run(v, log).files| == CAPACITY + (count - 1)
  {
    var s;
    log, s := WriteAll(v, count, count);
    assert Show(0);
  }

  /** A row reported as not dispatched, or still queued, was never handed to the provider; outside the module
      adapters, a row with provider evidence was. */
  lemma RowsAreHonest(v: Variant, log: seq<Action>, key: Key, i: nat)
    requires Legal(v, log) && key in Run(v, log).files && i < |Run(v, log).files[key].rows|
    ensures var row := Run(v, log).files[key].rows[i];
      && (row.skipped || row.state == Queued ==> i !in Since(Run(v, log).history, key))
      && (v != Adapter && row.state in {Accepted, Failed, Observed} ==> i in Since(Run(v, log).history, key))
  {
    RunKeepsInv(v, log);
    assert KeyInv(v, Run(v, log), key);
  }

  /** Since the receipt was created, the provider reported this row as refused: for a call, or to an observer. */
  predicate ReportedRefused(log: seq<Action>, key: Key, i: nat) {
    if log == [] then false
    else
      var a := log[|log| - 1];
      if a.key == key && (a.Create? || a.Unlink?) then false
      else Tells(a, key, i) || ReportedRefused(log[..|log| - 1], key, i)
  }

  /** Since the receipt was created, its removal was begun with this row as refused. */
  predicate SavedRefused(log: seq<Action>, key: Key, i: nat) {
    if log == [] then false
    else
      var a := log[|log| - 1];
      if a.key == key && (a.Create? || a.Unlink?) then false
      else Saves(a, key, i) || SavedRefused(log[..|log| - 1], key, i)
  }

  predicate RefusedAt(s: State, key: Key, i: nat) {
    key in s.files && i < |s.files[key].rows| && s.files[key].rows[i].state == RefusedRow
  }

  predicate Tells(a: Action, key: Key, i: nat) {
    a.key == key && (a.Record? || a.Observe?) && i < |a.rows| && a.rows[i].state == RefusedRow
  }

  predicate Saves(a: Action, key: Key, i: nat) {
    a.key == key && a.Keep? && i < |a.outcomes| && a.outcomes[i] == RefusedRow
  }

  /** A step that stops short of this row leaves it as it is. */
  lemma RefusedElsewhere(v: Variant, s: State, a: Action, key: Key, i: nat)
    requires Enabled(v, s, a) && RefusedAt(Apply(v, s, a), key, i) && (a.key != key || a.Count? || a.Withdraw? || a.Leave? || a.Call?)
    ensures RefusedAt(s, key, i) && Apply(v, s, a).files[key].rows[i] == s.files[key].rows[i]
    ensures a.key == key ==> !a.Create? && !a.Unlink?
  {
  }

  lemma RefusedByMark(v: Variant, s: State, a: Action, key: Key, i: nat)
    requires Enabled(v, s, a) && RefusedAt(Apply(v, s, a), key, i) && a.key == key && (a.Mark? || a.MarkAll? || a.Create? || a.Unlink?)
    ensures a.Mark? && RefusedAt(s, key, i) && Apply(v, s, a).files[key].rows[i] == s.files[key].rows[i]
  {
  }

  lemma RefusedByRecover(v: Variant, s: State, a: Action, key: Key, i: nat)
    requires KeyInv(v, s, key) && Enabled(v, s, a) && RefusedAt(Apply(v, s, a), key, i) && a.key == key && a.Recover?
    ensures if RefusedAt(s, key, i) then Apply(v, s, a).files[key].rows[i] == s.files[key].rows[i]
            else Apply(v, s, a).files[key].rows[i].skipped && i !in Since(s.history, key)
  {
    assert Honest(v, s.files[key].rows[i], i in Since(s.history, key));
  }

  lemma RefusedByKeep(v: Variant, s: State, a: Action, key: Key, i: nat)
    requires KeyInv(v, s, key) && Enabled(v, s, a) && RefusedAt(Apply(v, s, a), key, i) && a.key == key && a.Keep?
    ensures if v == Adapter then RefusedAt(s, key, i) && Apply(v, s, a).files[key].rows[i] == s.files[key].rows[i]
            else Saves(a, key, i) && (RefusedAt(s, key, i) || i !in Since(s.history, key))
  {
    assert Honest(v, s.files[key].rows[i], i in Since(s.history, key)) && Forgettable(v, s.files[key].rows[i], a.outcomes[i]);
  }

  /** How a row comes to say refused. */
  lemma RefusedStep(v: Variant, s: State, a: Action, key: Key, i: nat)
    requires KeyInv(v, s, key) && CountInv(v, s) && Enabled(v, s, a) && RefusedAt(Apply(v, s, a), key, i)
    ensures a.key == key ==> !a.Create? && !a.Unlink?
    ensures Tells(a, key, i) || RefusedAt(s, key, i)
      || (i !in Since(Apply(v, s, a).history, key) && (Apply(v, s, a).files[key].rows[i].skipped || Saves(a, key, i)))
    ensures RefusedAt(s, key, i) && i !in Since(s.history, key) ==> i !in Since(Apply(v, s, a).history, key)
    ensures RefusedAt(s, key, i) && s.files[key].rows[i].skipped ==>
      Apply(v, s, a).files[key].rows[i].skipped || Tells(a, key, i) || Saves(a, key, i)
  {
    SinceAfter(v, s, a, key);
    if a.key != key || a.Count? || a.Withdraw? || a.Leave? || a.Call? {
      RefusedElsewhere(v, s, a, key, i);
    } else if a.Mark? || a.MarkAll? || a.Create? || a.Unlink? {
      RefusedByMark(v, s, a, key, i);
    } else if a.Recover? {
      RefusedByRecover(v, s, a, key, i);
    } else if a.Keep? {
      RefusedByKeep(v, s, a, key, i);
    }
  }

  lemma SinceAfter(v: Variant, s: State, a: Action, key: Key)
    requires Enabled(v, s, a)
    ensures Since(Apply(v, s, a).history, key) ==
      if a.Call? && a.key == key then Since(s.history, key) + [a.row]
      else if a.Unlink? && a.key == key then [] else Since(s.history, key)
  {
    if a.Call? || a.Unlink? { assert Apply(v, s, a).history[..|s.history|] == s.history; }
  }

  /** A row that says refused was reported as refused by the provider, or its target was never dispatched and the request
      stopped before it or a removal recorded it so. */
  lemma {:induction false} RefusedWasReported(v: Variant, log: seq<Action>, key: Key, i: nat)
    requires Legal(v, log) && RefusedAt(Run(v, log), key, i)
    ensures ReportedRefused(log, key, i)
      || (i !in Since(Run(v, log).history, key) && (Run(v, log).files[key].rows[i].skipped || SavedRefused(log, key, i)))
  {
    var front, a := log[..|log| - 1], log[|log| - 1];
    var s := Run(v, front);
    RunKeepsInv(v, front);
    assert KeyInv(v, s, key);
    RefusedStep(v, s, a, key, i);
    if RefusedAt(s, key, i) { RefusedWasReported(v, front, key, i); }
  }

  /** A row can be removed with some outcome exactly when no provider task of it is still running or unreadable, and it is
      not failed where the kind has no failed outcome. */
  lemma EveryRowHasAProof(v: Variant, r: Row)
    ensures (exists outcome :: Forgettable(v, r, outcome)) <==>
      !(v == Proxmox && r.task in {Running, Unreadable}) && !(r.state == Failed && v !in {Proxmox, Adapter})
      && !(v == Adapter && r.state in {Queued, Dispatching})
  {
    assert r.task.NoTask? || r.task.Running? || r.task.Unreadable? || r.task.Succeeded? || r.task.Broken?;
    if r.state in {Accepted, Unknown, Dispatching} {
      assert Forgettable(v, r, Resolved) || v == Proxmox || v == Adapter;
      assert v == Proxmox && r.task in {NoTask, Succeeded, Broken} ==> Forgettable(v, r, Resolved);
      assert v == Adapter && r.state != Dispatching ==> Forgettable(v, r, Resolved);
    } else if r.state == Queued {
      assert v != Adapter && !(v == Proxmox && r.task in {Running, Unreadable}) ==> Forgettable(v, r, RefusedRow);
    } else {
      assert Terminal(v, r.state) && !(v == Proxmox && r.task in {Running, Unreadable}) ==> Forgettable(v, r, r.state);
    }
  }

  /** The terminal outcomes a receipt was removed with. */
  ghost predicate ProvedOutcomes(v: Variant, outcomes: seq<RowState>, since: seq<nat>) {
    && (forall i :: 0 <= i < |outcomes| ==> Terminal(v, outcomes[i]))
    && (v != Adapter ==> forall i :: 0 <= i < |outcomes| && outcomes[i] in {Observed, Failed} ==> i in since)
  }

  lemma UnlinkIsProved(v: Variant, s: State, a: Action)
    requires Inv(v, s) && Enabled(v, s, a) && a.Unlink?
    ensures ProvedOutcomes(v, a.outcomes, Since(s.history, a.key))
  {
    assert KeyInv(v, s, a.key);
    forall i | 0 <= i < |a.outcomes| ensures Terminal(v, a.outcomes[i]) {
      assert Forgettable(v, s.files[a.key].rows[i], a.outcomes[i]);
    }
    if v != Adapter {
      forall i | 0 <= i < |a.outcomes| && a.outcomes[i] in {Observed, Failed} ensures i in Since(s.history, a.key) {
        assert s.files[a.key].rows[i] == OutcomeRows(a.outcomes)[i];
        assert Honest(v, s.files[a.key].rows[i], i in Since(s.history, a.key));
      }
    }
  }

  /** Every receipt ever forgotten was forgotten with an allowed terminal outcome for each row, and outside the
      module adapters an outcome that needs provider evidence concerns a target that was dispatched. */
  lemma {:induction false} ForgottenWithProof(v: Variant, log: seq<Action>, n: nat)
    requires Legal(v, log) && n < |Run(v, log).history| && Run(v, log).history[n].Forgotten?
    ensures var e := Run(v, log).history[n]; ProvedOutcomes(v, e.outcomes, Since(Run(v, log).history[..n], e.key))
  {
    var front, a := log[..|log| - 1], log[|log| - 1];
    var s, t := Run(v, front), Run(v, log);
    if n < |s.history| {
      ForgottenWithProof(v, front, n);
      assert t.history[..n] == s.history[..n];
    } else {
      RunKeepsInv(v, front);
      UnlinkIsProved(v, s, a);
      assert t.history[..n] == s.history;
    }
  }

  /** A receipt whose removal stopped between saving the outcomes and unlinking the file. */
  ghost predicate Removing(v: Variant, r: Receipt, outcomes: seq<RowState>) {
    r == Proved(v, r, outcomes) && AllForgettable(v, r.rows, outcomes)
  }

  /** Saving the outcomes leaves a receipt that accepts the same outcomes again. */
  lemma KeepingIsRepeatable(v: Variant, r: Receipt, outcomes: seq<RowState>)
    requires AllForgettable(v, r.rows, outcomes)
    ensures Removing(v, Proved(v, r, outcomes), outcomes)
    ensures Proved(v, Proved(v, r, outcomes), outcomes) == Proved(v, r, outcomes)
  {
    forall i | 0 <= i < |outcomes| ensures Forgettable(v, Proved(v, r, outcomes).rows[i], outcomes[i]) {
      assert Forgettable(v, r.rows[i], outcomes[i]);
    }
  }

  /** These outcomes were once saved for this receipt, and they can still remove it. A later adapter removal may have
      saved other outcomes over them. */
  ghost predicate Interrupted(v: Variant, s: State, key: Key, outcomes: seq<RowState>) {
    && key in s.files && key !in s.work && AllForgettable(v, s.files[key].rows, outcomes)
    && if v == Adapter then s.files[key].cleanup.Some? else Removing(v, s.files[key], outcomes)
  }

  lemma SavedOutcomesAreFixed(v: Variant, r: Receipt, one: seq<RowState>, other: seq<RowState>)
    requires v != Adapter && Removing(v, r, one) && AllForgettable(v, r.rows, other)
    ensures other == one
  {
    forall i | 0 <= i < |one| ensures other[i] == one[i] {
      assert r.rows[i] == OutcomeRows(one)[i];
      assert Forgettable(v, r.rows[i], one[i]) && Forgettable(v, r.rows[i], other[i]);
    }
    assert other == one;
  }

  lemma RecoveringChangesNothing(v: Variant, r: Receipt, seen: Option<seq<Task>>, outcomes: seq<RowState>)
    requires v != Adapter && Removing(v, r, outcomes) && (seen.Some? ==> |seen.value| == |r.rows|)
    ensures RecoveredAll(v, r.rows, seen) == r.rows
  {
    forall i | 0 <= i < |r.rows| ensures Recovered(v, r.rows[i], if seen.Some? then seen.value[i] else NoTask) == r.rows[i] {
      assert r.rows[i] == OutcomeRows(outcomes)[i] && Forgettable(v, r.rows[i], outcomes[i]);
    }
  }

  /** Nothing but that removal, or an adapter removal with other proof, changes the receipt meanwhile, and its rows
      stay as they are. */
  lemma StaysInterrupted(v: Variant, s: State, a: Action, key: Key, outcomes: seq<RowState>)
    requires Inv(v, s) && Enabled(v, s, a) && Interrupted(v, s, key, outcomes) && !(a.Unlink? && a.key == key)
    ensures Interrupted(v, Apply(v, s, a), key, outcomes) && Apply(v, s, a).files[key].rows == s.files[key].rows
    ensures Apply(v, s, a).files[key] == s.files[key] || (a.Keep? && a.key == key && v == Adapter)
  {
    if a.key == key {
      if a.Recover? {
        RecoveringChangesNothing(v, s.files[key], a.seen, outcomes);
      } else if a.Keep? && v != Adapter {
        SavedOutcomesAreFixed(v, s.files[key], outcomes, a.outcomes);
      }
    }
  }

  ghost predicate NeverUnlinked(more: seq<Action>, key: Key) {
    forall a :: a in more ==> !(a.Unlink? && a.key == key)
  }

  lemma StaysInterruptedInRun(v: Variant, log: seq<Action>, s: State, a: Action, key: Key, outcomes: seq<RowState>)
    requires Legal(v, log) && Run(v, log) == s && Enabled(v, s, a)
    requires Interrupted(v, s, key, outcomes) && !(a.Unlink? && a.key == key)
    ensures Interrupted(v, Apply(v, s, a), key, outcomes)
  {
    RunKeepsInv(v, log);
    StaysInterrupted(v, s, a, key, outcomes);
  }

  lemma LastStep(v: Variant, log: seq<Action>, front: seq<Action>, a: Action)
    requires Legal(v, log) && log == front + [a]
    ensures Legal(v, front) && Enabled(v, Run(v, front), a) && Run(v, log) == Apply(v, Run(v, front), a)
  {
    assert log[..|log| - 1] == front;
  }

  ghost predicate InterruptedAt(v: Variant, log: seq<Action>, key: Key, outcomes: seq<RowState>) {
    forall k {:trigger Show(k)} :: Show(k) ==> Legal(v, log) && Interrupted(v, Run(v, log), key, outcomes)
  }

  lemma InterruptedNext(v: Variant, log: seq<Action>, front: seq<Action>, a: Action, key: Key, outcomes: seq<RowState>)
    requires InterruptedAt(v, front, key, outcomes) && !(a.Unlink? && a.key == key)
    requires Legal(v, log) && log == front + [a]
    ensures InterruptedAt(v, log, key, outcomes)
  {
    assert Show(0);
    LastStep(v, log, front, a);
    StaysInterruptedInRun(v, front, Run(v, front), a, key, outcomes);
  }

  lemma LegalFront(v: Variant, log: seq<Action>, more: seq<Action>)
    requires Legal(v, log + more) && more != []
    ensures Legal(v, log + more[..|more| - 1]) && log + more == log + more[..|more| - 1] + [more[|more| - 1]]
  {
    assert log + more == log + more[..|more| - 1] + [more[|more| - 1]];
    LastStep(v, log + more, log + more[..|more| - 1], more[|more| - 1]);
  }

  lemma {:induction false} InterruptedInRun(v: Variant, log: seq<Action>, more: seq<Action>, key: Key, outcomes: seq<RowState>)
    requires InterruptedAt(v, log, key, outcomes) && Legal(v, log + more) && NeverUnlinked(more, key)
    ensures InterruptedAt(v, log + more, key, outcomes)
    decreases |more|
  {
    if more == [] {
      assert log + more == log;
    } else {
      var front, a := more[..|more| - 1], more[|more| - 1];
      assert a in more && forall b :: b in front ==> b in more;
      LegalFront(v, log, more);
      InterruptedInRun(v, log, front, key, outcomes);
      InterruptedNext(v, log + more, log + front, a, key, outcomes);
    }
  }

  /** An interrupted removal can always be finished with the same outcomes: in every continuation, until the receipt is
      unlinked, its rows still prove them, so that they can be saved again and the receipt unlinked with them. */
  lemma InterruptedForgetSurvives(v: Variant, log: seq<Action>, more: seq<Action>, key: Key, outcomes: seq<RowState>)
    requires Legal(v, log) && key in Run(v, log).files && key !in Run(v, log).work
    requires Removing(v, Run(v, log).files[key], outcomes)
    requires Legal(v, log + more) && NeverUnlinked(more, key)
    ensures Interrupted(v, Run(v, log + more), key, outcomes)
    ensures Enabled(v, Run(v, log + more), Keep(key, outcomes))
    ensures Enabled(v, Apply(v, Run(v, log + more), Keep(key, outcomes)), Unlink(key, outcomes))
  {
    InterruptedInRun(v, log, more, key, outcomes);
    assert Show(0);
    KeepingIsRepeatable(v, Run(v, log + more).files[key], outcomes);
  }

  // ---- runs as the methods see them ----

  ghost predicate IsRun(v: Variant, log: seq<Action>, s: State) {
    forall k {:trigger Show(k)} :: Show(k) ==> Legal(v, log) && Run(v, log) == s
  }

  lemma RunStep(v: Variant, log: seq<Action>, s: State, a: Action)
    requires IsRun(v, log, s) && Next(v, s, a).Some?
    ensures IsRun(v, log + [a], Next(v, s, a).value)
  {
    assert Show(0);
    assert (log + [a])[..|log|] == log;
  }
}
