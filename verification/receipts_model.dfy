/** One journal behind five kinds of operation receipts: virtual machines, containers, administration, Proxmox and
    module adapters. A receipt names its targets by position; requests may stop between any two durable writes. */
module ReceiptsModel {
  import opened Base

  /** A receipt's file is named by its profile and the operation. */
  datatype Key = Key(profile: nat, id: nat)

  datatype Variant = Machines | Containers | Administration | Proxmox | Adapter

  datatype RowState = Queued | Dispatching | Accepted | Unknown | RefusedRow | Failed | Observed | Resolved

  /** The provider's asynchronous task, as last seen. */
  datatype Task = NoTask | Running | Unreadable | Succeeded | Broken

  /** `skipped` marks the error saying the request stopped before this target was dispatched. */
  datatype Row = Row(state: RowState, skipped: bool, task: Task)

  datatype Receipt = Receipt(digest: nat, rows: seq<Row>, cleanup: Option<seq<RowState>>)

  datatype Event = Dispatched(key: Key, row: nat) | Forgotten(key: Key, outcomes: seq<RowState>)

  /** `work` holds the rows already handed to the provider by a request still running under its lock; `admitted` the
      request, per lock, that has counted the receipts and not yet written its own; `peak` is the most such requests
      there ever were at once. */
  datatype State = State(
    files: map<Key, Receipt>, work: map<Key, set<nat>>, admitted: map<nat, Key>, peak: nat, history: seq<Event>)

  datatype Action =
    | Count(key: Key)
    | Withdraw(key: Key)
    | Create(key: Key, digest: nat, count: nat)
    | Mark(key: Key, row: nat)
    | MarkAll(key: Key)
    | Call(key: Key, row: nat)
    | Record(key: Key, rows: seq<Row>)
    | Leave(key: Key)
    | Recover(key: Key, seen: Option<seq<Task>>)
    | Observe(key: Key, rows: seq<Row>)
    | Keep(key: Key, outcomes: seq<RowState>)
    | Unlink(key: Key, outcomes: seq<RowState>)

  const CAPACITY := 1024

  /** Containers and administration lock one profile at a time, although all profiles share one directory; the other
      kinds have a single lock. */
  predicate PerProfile(v: Variant) { v in {Containers, Administration} }

  function LockOf(v: Variant, key: Key): nat { if PerProfile(v) then key.profile else 0 }

  predicate Unlocked(v: Variant, s: State, lock: nat) {
    lock !in s.admitted && forall k :: k in s.work ==> LockOf(v, k) != lock
  }

  function Fresh(v: Variant): Row {
    match v
    case Proxmox => Row(Dispatching, false, NoTask)
    case Adapter => Row(Unknown, false, NoTask)
    case Machines => Row(Queued, false, NoTask)
    case Containers => Row(Queued, false, NoTask)
    case Administration => Row(Queued, false, NoTask)
  }

  predicate RowByRow(v: Variant) { v in {Machines, Containers} }

  predicate Terminal(v: Variant, s: RowState) {
    s in {RefusedRow, Observed, Resolved} || (v in {Proxmox, Adapter} && s == Failed)
  }

  /** What a provider call may leave in a row it was made for. */
  predicate Reported(v: Variant, r: Row) {
    && !r.skipped
    && match v
       case Machines => r.state in {Accepted, Unknown, RefusedRow} && r.task == NoTask
       case Containers => r.state in {Accepted, Unknown, RefusedRow} && r.task == NoTask
       case Administration => r.state in {Accepted, Unknown, RefusedRow} && r.task == NoTask
       case Proxmox => (r.state == Unknown && r.task == NoTask) || (r.state == Accepted && r.task != NoTask)
       case Adapter => r.state in {Accepted, Unknown, RefusedRow, Failed, Observed} && r.task == NoTask
  }

  /** How a stopped request's row is read later. */
  function Recovered(v: Variant, r: Row, seen: Task): Row {
    if v == Adapter then r
    else if r.state == Dispatching then r.(state := Unknown)
    else if r.state == Queued then r.(state := RefusedRow, skipped := true)
    else if r.state == Accepted && r.task != NoTask && seen != NoTask then
      r.(task := seen, state := if seen == Broken then Failed else Accepted)
    else r
  }

  function RecoveredAll(v: Variant, rows: seq<Row>, seen: Option<seq<Task>>): (r: seq<Row>)
    requires seen.Some? ==> |seen.value| == |rows|
    ensures |r| == |rows|
    ensures forall i :: 0 <= i < |rows| ==> r[i] == Recovered(v, rows[i], if seen.Some? then seen.value[i] else NoTask)
  {
    seq(|rows|, i requires 0 <= i < |rows| => Recovered(v, rows[i], if seen.Some? then seen.value[i] else NoTask))
  }

  /** Removal of a receipt has begun: its rows are terminal proof, not live outcomes. */
  predicate CleanupBegun(v: Variant, r: Receipt) {
    if v == Adapter then r.cleanup.Some?
    else exists i :: 0 <= i < |r.rows| && r.rows[i].state in {Observed, Resolved}
  }

  /** The proof one row asks of the outcome it is removed with. */
  predicate Forgettable(v: Variant, r: Row, outcome: RowState) {
    && Terminal(v, outcome)
    && match v
       case Adapter =>
         r.state == outcome || (r.state == Accepted && outcome in {Observed, Failed, Resolved})
         || (r.state == Unknown && outcome == Resolved)
       case Proxmox => r.task in {NoTask, Succeeded, Broken} && Provable(r, outcome, r.task == Succeeded)
       case Machines => Provable(r, outcome, true)
       case Containers => Provable(r, outcome, true)
       case Administration => Provable(r, outcome, true)
  }

  predicate Provable(r: Row, outcome: RowState, observed: bool) {
    || r.state == outcome
    || (outcome == Resolved && r.state in {Accepted, Unknown, Dispatching})
    || (outcome == Observed && r.state == Accepted && observed)
    || (outcome == RefusedRow && r.state == Queued)
  }

  predicate AllForgettable(v: Variant, rows: seq<Row>, outcomes: seq<RowState>) {
    |rows| == |outcomes| && forall i :: 0 <= i < |rows| ==> Forgettable(v, rows[i], outcomes[i])
  }

  function OutcomeRows(outcomes: seq<RowState>): (r: seq<Row>)
    ensures |r| == |outcomes| && forall i :: 0 <= i < |r| ==> r[i] == Row(outcomes[i], false, NoTask)
  {
    seq(|outcomes|, i requires 0 <= i < |outcomes| => Row(outcomes[i], false, NoTask))
  }

  /** The receipt with its terminal proof saved, ready to be unlinked. */
  function Proved(v: Variant, r: Receipt, outcomes: seq<RowState>): Receipt {
    if v == Adapter then r.(cleanup := Some(outcomes)) else r.(rows := OutcomeRows(outcomes))
  }

  predicate OnlyCalled(called: set<nat>, before: seq<Row>, after: seq<Row>, v: Variant) {
    && |after| == |before|
    && forall i :: 0 <= i < |before| ==> after[i] == before[i] || (i in called && Reported(v, after[i]))
  }

  predicate Enabled(v: Variant, s: State, a: Action) {
    match a
    case Count(key) => key !in s.files && |s.files| < CAPACITY && Unlocked(v, s, LockOf(v, key))
    case Withdraw(key) => LockOf(v, key) in s.admitted && s.admitted[LockOf(v, key)] == key
    case Create(key, _, count) => LockOf(v, key) in s.admitted && s.admitted[LockOf(v, key)] == key
    case Mark(key, i) =>
      && RowByRow(v) && key in s.files && key in s.work && i < |s.files[key].rows| && s.files[key].rows[i].state == Queued
    case MarkAll(key) =>
      && v == Administration && key in s.files && key in s.work
      && forall i :: 0 <= i < |s.files[key].rows| ==> s.files[key].rows[i].state == Queued
    case Call(key, i) =>
      && key in s.files && key in s.work && i < |s.files[key].rows| && i !in s.work[key]
      && s.files[key].rows[i].state == (if v == Adapter then Unknown else Dispatching)
    case Record(key, rows) => key in s.files && key in s.work && OnlyCalled(s.work[key], s.files[key].rows, rows, v)
    case Leave(key) => key in s.work
    case Recover(key, seen) =>
      && key in s.files && key !in s.work && v != Adapter && !CleanupBegun(v, s.files[key])
      && (seen.Some? ==> v == Proxmox && |seen.value| == |s.files[key].rows|)
    case Observe(key, rows) =>
      && v == Adapter && key in s.files && key !in s.work && !CleanupBegun(v, s.files[key])
      && |rows| == |s.files[key].rows| && forall i :: 0 <= i < |rows| ==> rows[i] == s.files[key].rows[i] || Reported(v, rows[i])
    case Keep(key, outcomes) => key in s.files && key !in s.work && AllForgettable(v, s.files[key].rows, outcomes)
    case Unlink(key, outcomes) =>
      && key in s.files && key !in s.work && s.files[key] == Proved(v, s.files[key], outcomes)
      && AllForgettable(v, s.files[key].rows, outcomes)
  }

  function WithRows(s: State, key: Key, rows: seq<Row>): State
    requires key in s.files
  {
    s.(files := s.files[key := s.files[key].(rows := rows)])
  }

  function Marked(rows: seq<Row>): (r: seq<Row>)
    ensures |r| == |rows| && forall i :: 0 <= i < |rows| ==> r[i] == rows[i].(state := Dispatching)
  {
    seq(|rows|, i requires 0 <= i < |rows| => rows[i].(state := Dispatching))
  }

  function Apply(v: Variant, s: State, a: Action): State
    requires Enabled(v, s, a)
  {
    match a
    case Count(key) =>
      var admitted := s.admitted[LockOf(v, key) := key];
      s.(admitted := admitted, peak := Max(s.peak, |admitted|))
    case Withdraw(key) => s.(admitted := s.admitted - {LockOf(v, key)})
    case Create(key, digest, count) =>
      s.(files := s.files[key := Receipt(digest, seq(count, _ => Fresh(v)), None)], work := s.work[key := {}],
         admitted := s.admitted - {LockOf(v, key)})
    case Mark(key, i) =>
      WithRows(s, key, s.files[key].rows[i := s.files[key].rows[i].(state := Dispatching)])
    case MarkAll(key) => WithRows(s, key, Marked(s.files[key].rows))
    case Call(key, i) => s.(work := s.work[key := s.work[key] + {i}], history := s.history + [Dispatched(key, i)])
    case Record(key, rows) => WithRows(s, key, rows)
    case Leave(key) => s.(work := s.work - {key})
    case Recover(key, seen) => WithRows(s, key, RecoveredAll(v, s.files[key].rows, seen))
    case Observe(key, rows) => WithRows(s, key, rows)
    case Keep(key, outcomes) => s.(files := s.files[key := Proved(v, s.files[key], outcomes)])
    case Unlink(key, outcomes) => s.(files := s.files - {key}, history := s.history + [Forgotten(key, outcomes)])
  }

  function Next(v: Variant, s: State, a: Action): Option<State> {
    if Enabled(v, s, a) then Some(Apply(v, s, a)) else None
  }

  function Initial(): State { State(map[], map[], map[], 0, []) }

  // ---- the invariant ----

  /** The rows of a receipt handed to the provider since the receipt was last forgotten. */
  function Since(history: seq<Event>, key: Key): seq<nat> {
    if history == [] then []
    else
      match history[|history| - 1]
      case Forgotten(k, _) => if k == key then [] else Since(history[..|history| - 1], key)
      case Dispatched(k, i) => Since(history[..|history| - 1], key) + (if k == key then [i] else [])
  }

  predicate Distinct(s: seq<nat>) {
    forall i, j :: 0 <= i < j < |s| ==> s[i] != s[j]
  }

  /** What a row says about whether its target was dispatched. */
  predicate Honest(v: Variant, r: Row, dispatched: bool) {
    && (r.state == Queued ==> !dispatched)
    && (r.skipped ==> !dispatched && r.state == RefusedRow)
    && (v != Adapter && r.state in {Accepted, Failed, Observed} ==> dispatched)
  }

  ghost predicate ReceiptInv(v: Variant, r: Receipt, since: seq<nat>) {
    && Distinct(since) && (forall i :: i in since ==> i < |r.rows|)
    && forall i :: 0 <= i < |r.rows| ==> Honest(v, r.rows[i], i in since)
  }

  ghost predicate KeyInv(v: Variant, s: State, key: Key) {
    var since := Since(s.history, key);
    && (key in s.files ==> ReceiptInv(v, s.files[key], since))
    && (key !in s.files ==> since == [] && key !in s.work)
    && (key in s.work ==> forall i :: i in s.work[key] <==> i in since)
  }

  /** Each admitted request holds its own lock for a receipt that does not exist yet, and all receipts that exist or
      may still be written stay within one capacity, less one, and one more per request admitted at once. */
  ghost predicate CountInv(v: Variant, s: State) {
    && (forall l :: l in s.admitted ==> LockOf(v, s.admitted[l]) == l && s.admitted[l] !in s.files)
    && |s.admitted| <= s.peak && (!PerProfile(v) ==> s.peak <= 1)
    && |s.files| + |s.admitted| <= CAPACITY - 1 + s.peak
  }

  ghost predicate Inv(v: Variant, s: State) {
    CountInv(v, s) && forall key: Key :: KeyInv(v, s, key)
  }

  // ---- every durable write and provider call keeps it ----

  lemma OtherKeys(v: Variant, s: State, a: Action, key: Key)
    requires Enabled(v, s, a) && KeyInv(v, s, key) && key != a.key
    ensures KeyInv(v, Apply(v, s, a), key)
  {
    assert (s.history + [Dispatched(a.key, 0)])[..|s.history|] == s.history;
    if a.Call? {
      assert Apply(v, s, a).history[..|s.history|] == s.history;
    } else if a.Unlink? {
      assert Apply(v, s, a).history[..|s.history|] == s.history;
    }
  }

  lemma RowsKept(v: Variant, r: Receipt, rows: seq<Row>, since: seq<nat>)
    requires ReceiptInv(v, r, since) && |rows| == |r.rows|
    requires forall i :: 0 <= i < |rows| && rows[i] != r.rows[i] ==> Honest(v, rows[i], i in since)
    ensures ReceiptInv(v, r.(rows := rows), since)
  {
    forall i | 0 <= i < |rows| ensures Honest(v, rows[i], i in since) {
      assert Honest(v, r.rows[i], i in since);
    }
  }

  lemma KeptByRows(v: Variant, s: State, a: Action)
    requires KeyInv(v, s, a.key) && Enabled(v, s, a)
    requires a.Mark? || a.MarkAll? || a.Record? || a.Observe?
    ensures KeyInv(v, Apply(v, s, a), a.key)
  {
    RowsKept(v, s.files[a.key], Apply(v, s, a).files[a.key].rows, Since(s.history, a.key));
  }

  lemma KeptByRecover(v: Variant, s: State, a: Action)
    requires KeyInv(v, s, a.key) && Enabled(v, s, a) && a.Recover?
    ensures KeyInv(v, Apply(v, s, a), a.key)
  {
    var since := Since(s.history, a.key);
    forall i | 0 <= i < |s.files[a.key].rows|
      ensures Honest(v, Recovered(v, s.files[a.key].rows[i], if a.seen.Some? then a.seen.value[i] else NoTask), i in since) {
      assert Honest(v, s.files[a.key].rows[i], i in since);
    }
    RowsKept(v, s.files[a.key], RecoveredAll(v, s.files[a.key].rows, a.seen), since);
  }

  lemma KeptByForgetting(v: Variant, s: State, a: Action)
    requires KeyInv(v, s, a.key) && Enabled(v, s, a)
    requires a.Keep? || a.Unlink?
    ensures KeyInv(v, Apply(v, s, a), a.key)
  {
    if a.Unlink? {
      assert Apply(v, s, a).history[..|s.history|] == s.history;
    } else {
      var r, since := s.files[a.key], Since(s.history, a.key);
      if v != Adapter {
        forall i | 0 <= i < |r.rows| ensures Honest(v, OutcomeRows(a.outcomes)[i], i in since) {
          assert Honest(v, r.rows[i], i in since) && Forgettable(v, r.rows[i], a.outcomes[i]);
        }
        RowsKept(v, r, OutcomeRows(a.outcomes), since);
      }
    }
  }

  lemma KeptByCall(v: Variant, s: State, a: Action)
    requires KeyInv(v, s, a.key) && Enabled(v, s, a) && a.Call?
    ensures KeyInv(v, Apply(v, s, a), a.key)
  {
    var s' := Apply(v, s, a);
    assert s'.history[..|s.history|] == s.history;
    var since := Since(s.history, a.key);
    assert Since(s'.history, a.key) == since + [a.row];
    forall i | 0 <= i < |s.files[a.key].rows| ensures Honest(v, s.files[a.key].rows[i], i in since + [a.row]) {
      assert Honest(v, s.files[a.key].rows[i], i in since);
    }
  }

  lemma KeptByOthers(v: Variant, s: State, a: Action)
    requires KeyInv(v, s, a.key) && Enabled(v, s, a) && CountInv(v, s)
    requires a.Create? || a.Leave? || a.Count? || a.Withdraw?
    ensures KeyInv(v, Apply(v, s, a), a.key)
  {
  }

  lemma InvKept(v: Variant, s: State, a: Action)
    requires Inv(v, s) && Enabled(v, s, a)
    ensures Inv(v, Apply(v, s, a))
  {
    assert KeyInv(v, s, a.key);
    if a.Mark? || a.MarkAll? || a.Record? || a.Observe? { KeptByRows(v, s, a); }
    else if a.Recover? { KeptByRecover(v, s, a); }
    else if a.Keep? || a.Unlink? { KeptByForgetting(v, s, a); }
    else if a.Call? { KeptByCall(v, s, a); }
    else { KeptByOthers(v, s, a); }
    forall key: Key | key != a.key ensures KeyInv(v, Apply(v, s, a), key) {
      OtherKeys(v, s, a, key);
    }
    if a.Count? { CountKeptByCount(v, s, a.key); }
    else if a.Withdraw? || a.Create? { CountKeptByRequest(v, s, a); }
    else { CountKeptByRest(v, s, a); }
  }

  lemma CountKeptByCount(v: Variant, s: State, key: Key)
    requires CountInv(v, s) && Enabled(v, s, Count(key))
    ensures CountInv(v, Apply(v, s, Count(key)))
  {
    PutSize(s.admitted, LockOf(v, key), key);
    if !PerProfile(v) {
      assert s.admitted.Keys == {};
      assert |s.admitted| == |s.admitted.Keys|;
    }
  }

  lemma CountKeptByRequest(v: Variant, s: State, a: Action)
    requires CountInv(v, s) && Enabled(v, s, a) && (a.Withdraw? || a.Create?)
    ensures CountInv(v, Apply(v, s, a))
  {
    var t, lock := Apply(v, s, a), LockOf(v, a.key);
    RemoveSize(s.admitted, lock);
    if a.Create? { PutSize(s.files, a.key, t.files[a.key]); }
    forall l | l in t.admitted ensures LockOf(v, t.admitted[l]) == l && t.admitted[l] !in t.files {
      assert l in s.admitted && t.admitted[l] == s.admitted[l];
      assert l != lock;
    }
  }

  lemma CountKeptByRest(v: Variant, s: State, a: Action)
    requires CountInv(v, s) && Enabled(v, s, a) && !a.Count? && !a.Withdraw? && !a.Create?
    ensures CountInv(v, Apply(v, s, a))
  {
    var t := Apply(v, s, a);
    assert t.admitted == s.admitted && t.peak == s.peak;
    if a.Unlink? {
      RemoveSize(s.files, a.key);
    } else {
      assert t.files.Keys == s.files.Keys;
      assert |t.files| == |t.files.Keys| && |s.files| == |s.files.Keys|;
    }
    assert |t.files| <= |s.files| && t.files.Keys <= s.files.Keys;
  }

  lemma PutSize<K, T>(m: map<K, T>, key: K, value: T)
    ensures |m[key := value]| == |m| + (if key in m then 0 else 1)
  {
    assert |m[key := value].Keys| == |m[key := value]| && |m.Keys| == |m|;
    assert m[key := value].Keys == m.Keys + {key};
  }

  lemma RemoveSize<K, T>(m: map<K, T>, key: K)
    ensures |m - {key}| == |m| - (if key in m then 1 else 0)
  {
    assert |(m - {key}).Keys| == |m - {key}| && |m.Keys| == |m|;
    assert (m - {key}).Keys == m.Keys - {key};
  }
}
