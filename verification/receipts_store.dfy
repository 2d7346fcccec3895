/** The helper that serves apply, receipt and forget requests over a directory of receipts. A request holds the
    store's lock, and may stop at any durable write or provider call. */
module ReceiptsStore {
  import opened Base
  import opened ReceiptsModel
  import opened ReceiptsSafety

  /** A module adapter may ask again for some targets of the original batch only; other kinds name all of them. */
  datatype Request = ApplyRequest(targets: seq<nat>) | ReceiptRequest(targets: seq<nat>) | ForgetRequest(outcomes: seq<RowState>)

  datatype Answer = Rows(rows: seq<Row>) | Removed | RefusedWith(code: string) | StoppedThere

  /** What one provider call comes to. */
  datatype ProviderReply = Answered(row: Row) | ProviderError(code: string) | Raised

  /** What the provider will say, whenever it is asked: per target, for a whole batch, whether a batch ends in an error
      instead, about its tasks, and about observed targets. */
  datatype Provider = Provider(
    replies: seq<ProviderReply>, batch: seq<Row>, fails: bool, tasks: seq<Task>, observed: seq<Row>)

  function ReplyAt(v: Variant, p: Provider, i: nat): (r: ProviderReply)
    ensures r.Answered? ==> Reported(v, r.row)
  {
    if i < |p.replies| && (p.replies[i].Answered? ==> Reported(v, p.replies[i].row)) then p.replies[i] else Raised
  }

  /** Codes with which a container provider says that it did nothing. */
  const DENIALS := {"container_stale", "container_denied", "container_kind"}

  function RowAfter(v: Variant, reply: ProviderReply): (r: Row)
    requires reply.Answered? ==> Reported(v, reply.row)
    requires RowByRow(v)
    ensures Reported(v, r)
    ensures reply.Answered? ==> r == reply.row
    ensures reply.ProviderError? ==> (r.state == RefusedRow <==> v == Containers && reply.code in DENIALS)
    ensures !reply.Answered? ==> r.state in {RefusedRow, Unknown} && (reply.Raised? ==> r.state == Unknown)
  {
    match reply
    case Answered(row) => row
    case ProviderError(code) => Row(if v == Containers && code in DENIALS then RefusedRow else Unknown, false, NoTask)
    case Raised => Row(Unknown, false, NoTask)
  }

  /** What proves each outcome a receipt may be removed with: it was recorded already; or the target is known to have been
      reached and the operator or, for Proxmox, its task says so; or it was never dispatched. A Proxmox task that is not
      known to have ended proves nothing. */
  predicate Proves(v: Variant, r: Row, outcome: RowState) {
    && (v == Proxmox ==> r.task !in {Running, Unreadable})
    && match outcome
       case Observed => r.state == Observed || (r.state == Accepted && (v == Proxmox ==> r.task == Succeeded))
       case Resolved => r.state in {Resolved, Accepted, Unknown} || (r.state == Dispatching && v != Adapter)
       case RefusedRow => r.state == RefusedRow || (r.state == Queued && v != Adapter)
       case Failed => (v in {Proxmox, Adapter} && r.state == Failed) || (v == Adapter && r.state == Accepted)
       case _ => false
  }

  predicate AllProve(v: Variant, rows: seq<Row>, outcomes: seq<RowState>) {
    |rows| == |outcomes| && forall i :: 0 <= i < |rows| ==> Proves(v, rows[i], outcomes[i])
  }

  lemma ProvesForgets(v: Variant, r: Row, outcome: RowState)
    ensures Proves(v, r, outcome) <==> Forgettable(v, r, outcome)
  {
    assert r.task.NoTask? || r.task.Running? || r.task.Unreadable? || r.task.Succeeded? || r.task.Broken?;
    assert outcome.Queued? || outcome.Dispatching? || outcome.Accepted? || outcome.Unknown? || outcome.RefusedRow?
      || outcome.Failed? || outcome.Observed? || outcome.Resolved?;
  }

  lemma AllProveForget(v: Variant, rows: seq<Row>, outcomes: seq<RowState>)
    ensures AllProve(v, rows, outcomes) <==> AllForgettable(v, rows, outcomes)
  {
    if |rows| == |outcomes| {
      forall i | 0 <= i < |rows| ensures Proves(v, rows[i], outcomes[i]) <==> Forgettable(v, rows[i], outcomes[i]) {
        ProvesForgets(v, rows[i], outcomes[i]);
      }
    }
  }

  /** How a row left by a stopped request is read: it was dispatched and nobody knows how that ended, or it never was; a
      row with a provider task says what that task has come to; any other is as it was. */
  predicate ReadBack(before: Row, seen: Option<Task>, after: Row) {
    match before.state
    case Dispatching => after == Row(Unknown, before.skipped, before.task)
    case Queued => after == Row(RefusedRow, true, before.task)
    case Accepted =>
      if before.task != NoTask && seen.Some? && seen.value != NoTask
      then after == Row(if seen.value == Broken then Failed else Accepted, before.skipped, seen.value)
      else after == before
    case _ => after == before
  }

  predicate AllReadBack(v: Variant, before: seq<Row>, p: Provider, after: seq<Row>) {
    && |after| == |before|
    && forall i :: 0 <= i < |before| ==>
         ReadBack(before[i], if v == Proxmox && |p.tasks| == |before| then Some(p.tasks[i]) else None, after[i])
  }

  /** What a new batch comes to when nothing stops it. */
  predicate CameTo(v: Variant, p: Provider, count: nat, rows: seq<Row>) {
    && |rows| == count
    && if RowByRow(v) then forall i :: 0 <= i < count ==> rows[i] == RowAfter(v, ReplyAt(v, p, i))
       else rows == if GoodBatch(v, p.batch, count) then p.batch else seq(count, _ => Row(Unknown, false, NoTask))
  }

  predicate GoodBatch(v: Variant, rows: seq<Row>, count: nat) {
    |rows| == count && forall i :: 0 <= i < count ==> Reported(v, rows[i])
  }

  /** One call per target, in order. */
  function Calls(key: Key, count: nat): (r: seq<Event>)
    ensures |r| == count
  {
    seq(count, i requires 0 <= i < count => Event.Dispatched(key, i))
  }

  /** Every target is one of the original batch. */
  predicate Named(targets: seq<nat>, count: nat) {
    forall i :: 0 <= i < |targets| ==> targets[i] < count
  }

  /** The rows a repeated request is answered with. */
  function Chosen(v: Variant, rows: seq<Row>, targets: seq<nat>): seq<Row>
    requires v == Adapter ==> Named(targets, |rows|)
  {
    if v == Adapter then seq(|targets|, i requires 0 <= i < |targets| => rows[targets[i]]) else rows
  }

  /** `disturbed` says that requests may stop anywhere, that requests for other profiles act in between, and
      that adapter receipts may use up their bytes. */
  class Store {
    const v: Variant
    const disturbed: bool
    var files: map<Key, Receipt>
    // what requests in progress hold, this one's and those of other profiles, and what was done so far
    var work: map<Key, set<nat>>
    var admitted: map<nat, Key>
    var peak: nat
    var history: seq<Event>
    ghost var log: seq<Action>

    function Snapshot(): State
      reads this
    {
      State(files, work, admitted, peak, history)
    }

    ghost predicate Valid()
      reads this
    {
      IsRun(v, log, Snapshot())
    }

    /** No request holds the lock of this receipt; the lock of a stopped process is gone with it. */
    ghost predicate Free(key: Key)
      reads this
    {
      Valid() && Unlocked(v, Snapshot(), LockOf(v, key))
    }

    /** While a request works on one receipt under its lock. */
    ghost predicate Working(key: Key)
      reads this
    {
      && Valid() && key in work && key in files && LockOf(v, key) !in admitted
      && forall k :: k in work && LockOf(v, k) == LockOf(v, key) ==> k == key
    }

    constructor (v: Variant, disturbed: bool)
      ensures Valid() && Snapshot() == Initial() && this.disturbed == disturbed
    {
      this.v, this.disturbed := v, disturbed;
      files, work, admitted, peak, history, log := map[], map[], map[], 0, [], [];
    }

    ghost method Note(a: Action, before: State)
      requires IsRun(v, log, before) && Next(v, before, a) == Some(Snapshot())
      modifies this`log
      ensures IsRun(v, log, Snapshot()) && log == old(log) + [a]
    {
      RunStep(v, log, before, a);
      log := log + [a];
    }

    /** One request. A receipt that exists is never dispatched again: its rows are returned as they can be known,
        or it is removed with proof. */
    method Handle(request: Request, key: Key, digest: nat, count: nat, p: Provider) returns (r: Answer)
      requires Valid()
      modifies this
      ensures Valid() && old(log) <= log && SameOthers(v, key, old(files), files)
      ensures r == RefusedWith("busy") <==> !old(Unlocked(v, Snapshot(), LockOf(v, key)))
      ensures r == RefusedWith("busy") ==> Snapshot() == old(Snapshot())
      ensures key in old(files) || !request.ApplyRequest? ==> files - {key} == old(files) - {key}
      ensures v != Adapter || !disturbed ==>
        (r == RefusedWith("capacity") <==>
           old(Unlocked(v, Snapshot(), LockOf(v, key))) && request.ApplyRequest? && key !in old(files) && |old(files)| >= CAPACITY)
      ensures key in old(files) && !request.ForgetRequest? ==> history == old(history)
      ensures key in old(files) && digest != old(files)[key].digest ==>
        r in {RefusedWith("busy"), RefusedWith("conflict")} && files == old(files)
      ensures r.Rows? ==> key in files && files[key].digest == digest && !request.ForgetRequest?
      ensures r.Rows? && key !in old(files) ==> r.rows == files[key].rows
      ensures r.Rows? && key in old(files) ==>
        (v == Adapter ==> Named(request.targets, |files[key].rows|))
        && r.rows == Chosen(v, files[key].rows, request.targets)
      ensures r.Rows? && key in old(files) && v == Adapter ==> OnlyAt(request.targets, old(files)[key].rows, files[key].rows)
      ensures r.Rows? && v != Adapter ==> forall row :: row in r.rows ==> row.state !in {Queued, Dispatching}
      ensures r.Rows? && key in old(files) && v != Adapter ==> AllReadBack(v, old(files)[key].rows, p, r.rows)
      ensures request.ForgetRequest? && key in old(files) && r != RefusedWith("busy") ==>
        (r.RefusedWith? <==> digest != old(files)[key].digest || !AllProve(v, old(files)[key].rows, request.outcomes))
      ensures !disturbed ==> r != StoppedThere || p.fails
      ensures !disturbed && r.Rows? && key !in old(files) ==>
        CameTo(v, p, count, r.rows) && history == old(history) + Calls(key, count)
      ensures !disturbed && old(Unlocked(v, Snapshot(), LockOf(v, key))) && request.ApplyRequest? && key !in old(files) ==>
        |old(files)| < CAPACITY ==> (r.Rows? <==> !(v == Adapter && p.fails))
      ensures key !in old(files) && !request.ApplyRequest? ==> files == old(files) && history == old(history)
      ensures key !in old(files) && request.ForgetRequest? ==> r in {Removed, RefusedWith("busy")}
      ensures r == Removed ==> request.ForgetRequest? && key !in files
      ensures r == Removed && key in old(files) ==> AllForgettable(v, old(files)[key].rows, request.outcomes)
      ensures r == Removed && key in old(files) ==> history == old(history) + [Forgotten(key, request.outcomes)]
      ensures request.ForgetRequest? && key in old(files) && old(files)[key].digest == digest ==>
        Removing(v, old(files)[key], request.outcomes) ==> r in {Removed, StoppedThere, RefusedWith("busy")}
    {
      if !Unlocked(v, Snapshot(), LockOf(v, key)) { return RefusedWith("busy"); }
      if key in files {
        if files[key].digest != digest { return RefusedWith("conflict"); }
        if request.ForgetRequest? {
          r := Forget(key, request.outcomes);
        } else {
          r := Reread(key, request.targets, request.ReceiptRequest?, p);
        }
        SameButOne(v, key, old(files), files);
        return;
      }
      if request.ForgetRequest? { return Removed; }
      if request.ReceiptRequest? { return RefusedWith("missing"); }
      if |files| >= CAPACITY { return RefusedWith("capacity"); }
      if v == Adapter {
        if disturbed { if * { return RefusedWith("capacity"); } }  // the byte budget of adapter receipts
      }
      r := Begin(key, digest, count, p);
    }

    /** Reads an existing receipt after whatever stopped before: a module adapter may also observe its targets. */
    method Reread(key: Key, targets: seq<nat>, observe: bool, p: Provider) returns (r: Answer)
      requires Free(key) && key in files
      modifies this`files, this`log
      ensures Free(key) && old(log) <= log && files.Keys == old(files.Keys) && files - {key} == old(files) - {key}
      ensures files[key].digest == old(files)[key].digest
      ensures r.Rows? && v == Adapter ==> Named(targets, |files[key].rows|)
      ensures r.Rows? ==> r.rows == Chosen(v, files[key].rows, targets) && !CleanupBegun(v, old(files)[key])
      ensures r.Rows? && v == Adapter ==> OnlyAt(targets, old(files)[key].rows, files[key].rows)
      ensures r.Rows? && v != Adapter ==> forall row :: row in r.rows ==> row.state !in {Queued, Dispatching}
      ensures r.Rows? && v != Adapter ==> AllReadBack(v, old(files)[key].rows, p, r.rows)
      ensures !disturbed ==> r != StoppedThere
      ensures r.RefusedWith? && v != Adapter ==> CleanupBegun(v, old(files)[key])
      ensures r != Removed && (CleanupBegun(v, old(files)[key]) ==> r.RefusedWith? && files == old(files))
      ensures r.RefusedWith? ==> r.code in {"conflict", "cleanup"}
    {
      if v == Adapter {
        r := RereadAdapter(key, targets, observe, p.observed);
        return;
      }
      if exists i :: 0 <= i < |files[key].rows| && files[key].rows[i].state in {Observed, Resolved} {
        return RefusedWith("cleanup");
      }
      var seen := None;
      if v == Proxmox && |p.tasks| == |files[key].rows| { seen := Some(p.tasks); }
      ghost var s := Snapshot();
      var rows := RecoveredAll(v, files[key].rows, seen);
      files := files[key := files[key].(rows := rows)];
      Note(Recover(key, seen), s);
      if disturbed { if * { return StoppedThere; } }
      return Rows(rows);
    }

    method RereadAdapter(key: Key, targets: seq<nat>, observe: bool, seen: seq<Row>) returns (r: Answer)
      requires Free(key) && key in files && v == Adapter
      modifies this`files, this`log
      ensures Free(key) && old(log) <= log && files.Keys == old(files.Keys) && files - {key} == old(files) - {key}
      ensures files[key].digest == old(files)[key].digest && |files[key].rows| == |old(files)[key].rows|
      ensures r.RefusedWith? <==> !Named(targets, |files[key].rows|) || old(files)[key].cleanup.Some?
      ensures r.RefusedWith? ==> files == old(files)
      ensures r.Rows? ==> r.rows == Chosen(v, files[key].rows, targets)
      ensures OnlyAt(targets, old(files)[key].rows, files[key].rows) && r != Removed
      ensures !disturbed ==> r != StoppedThere
      ensures r.Rows? && observe && DistinctTargets(targets) && GoodBatch(v, seen, |targets|) ==> r.rows == seen
      ensures r.Rows? && !observe ==> files == old(files)
      ensures r.RefusedWith? ==> r.code in {"conflict", "cleanup"}
    {
      if !Named(targets, |files[key].rows|) { return RefusedWith("conflict"); }
      if files[key].cleanup.Some? { return RefusedWith("cleanup"); }
      if observe { ObserveTargets(key, targets, seen); }
      if disturbed { if * { return StoppedThere; } }
      return Rows(Chosen(v, files[key].rows, targets));
    }

    /** Observes some targets and merges what was seen into the whole batch. */
    method ObserveTargets(key: Key, targets: seq<nat>, seen: seq<Row>)
      requires Free(key) && key in files && v == Adapter && files[key].cleanup.None?
      requires Named(targets, |files[key].rows|)
      modifies this`files, this`log
      ensures Free(key) && old(log) <= log && files.Keys == old(files.Keys) && files - {key} == old(files) - {key}
      ensures files[key].digest == old(files)[key].digest && files[key].cleanup.None?
      ensures OnlyAt(targets, old(files)[key].rows, files[key].rows)
      ensures DistinctTargets(targets) && GoodBatch(v, seen, |targets|) ==>
        forall i :: 0 <= i < |targets| ==> files[key].rows[targets[i]] == seen[i]
    {
      if |seen| != |targets| || exists i :: 0 <= i < |seen| && !Reported(v, seen[i]) { return; }
      var rows := files[key].rows;
      for i := 0 to |targets|
        invariant |rows| == |files[key].rows| && OnlyAt(targets, files[key].rows, rows)
        invariant DistinctTargets(targets) ==> forall k :: 0 <= k < i ==> rows[targets[k]] == seen[k]
        invariant forall k :: 0 <= k < |rows| ==> rows[k] == files[key].rows[k] || Reported(v, rows[k])
      {
        rows := rows[targets[i] := seen[i]];
      }
      ghost var s := Snapshot();
      files := files[key := files[key].(rows := rows)];
      Note(Observe(key, rows), s);
    }

    /** Saves the terminal proof, then unlinks the receipt. */
    method Forget(key: Key, outcomes: seq<RowState>) returns (r: Answer)
      requires Free(key) && key in files
      modifies this`files, this`history, this`log
      ensures Free(key) && old(log) <= log && files - {key} == old(files) - {key} && !r.Rows?
      ensures r == Removed ==> AllForgettable(v, old(files)[key].rows, outcomes) && key !in files
      ensures r == Removed ==> history == old(history) + [Forgotten(key, outcomes)]
      ensures r.RefusedWith? <==> !AllForgettable(v, old(files)[key].rows, outcomes)
      ensures r.RefusedWith? <==> !AllProve(v, old(files)[key].rows, outcomes)
      ensures r.RefusedWith? ==> r.code == "conflict"
      ensures !disturbed ==> r != StoppedThere
      ensures r.RefusedWith? ==> files == old(files) && history == old(history)
      ensures r == StoppedThere && key in files ==> Removing(v, files[key], outcomes)
      ensures Removing(v, old(files)[key], outcomes) ==> r in {Removed, StoppedThere}
    {
      AllProveForget(v, files[key].rows, outcomes);
      if |outcomes| != |files[key].rows| || exists i :: 0 <= i < |outcomes| && !Forgettable(v, files[key].rows[i], outcomes[i]) {
        return RefusedWith("conflict");
      }
      KeepingIsRepeatable(v, files[key], outcomes);
      ghost var s := Snapshot();
      files := files[key := Proved(v, files[key], outcomes)];
      Note(Keep(key, outcomes), s);
      if disturbed { if * { return StoppedThere; } }
      r := RemoveFile(key, outcomes);
    }

    method RemoveFile(key: Key, outcomes: seq<RowState>) returns (r: Answer)
      requires Free(key) && key in files && Removing(v, files[key], outcomes)
      modifies this`files, this`history, this`log
      ensures Free(key) && old(log) <= log && files == old(files) - {key} && r in {Removed, StoppedThere} && (!disturbed ==> r == Removed)
      ensures history == old(history) + [Forgotten(key, outcomes)]
    {
      ghost var s := Snapshot();
      files := files - {key};
      history := history + [Forgotten(key, outcomes)];
      Note(Unlink(key, outcomes), s);
      if disturbed { if * { return StoppedThere; } }
      return Removed;
    }

    /** Counts the receipts, writes the intent of a new one, then dispatches its targets. */
    method Begin(key: Key, digest: nat, count: nat, p: Provider) returns (r: Answer)
      requires Free(key) && key !in files && |files| < CAPACITY
      modifies this
      ensures Free(key) && old(log) <= log && SameOthers(v, key, old(files), files) && r != Removed && !r.RefusedWith?
      ensures r.Rows? ==> key in files && files[key].digest == digest && r.rows == files[key].rows
      ensures !disturbed ==> r.Rows? || p.fails
      ensures !disturbed && !(v == Adapter && p.fails) ==>
        r.Rows? && CameTo(v, p, count, r.rows) && history == old(history) + Calls(key, count)
      ensures !disturbed && r.Rows? ==> !(v == Adapter && p.fails)
      ensures r.Rows? && v != Adapter ==> forall row :: row in r.rows ==> row.state !in {Queued, Dispatching}
    {
      var started := Start(key, digest, count);
      if !started { return StoppedThere; }
      ghost var found := files;
      var done := DispatchAll(key, p);
      SameButOne(v, key, found, files);
      r := if done then Rows(files[key].rows) else StoppedThere;
      Release(key);
    }

    /** Up to the written intent. */
    method Start(key: Key, digest: nat, count: nat) returns (started: bool)
      requires Free(key) && key !in files && |files| < CAPACITY
      modifies this
      ensures old(log) <= log && SameOthers(v, key, old(files), files) && (!disturbed ==> started && history == old(history))
      ensures if started then Working(key) && work[key] == {} else Free(key) && key !in files
      ensures started ==> files[key] == Receipt(digest, seq(count, _ => Fresh(v)), None)
    {
      Reserve(key);
      OthersAct(key);
      if disturbed { if * { GiveUp(key); return false; } }
      WriteIntent(key, digest, count);
      return true;
    }

    method DispatchAll(key: Key, p: Provider) returns (done: bool)
      requires Working(key) && work[key] == {} && files[key].rows == seq(|files[key].rows|, _ => Fresh(v))
      modifies this
      ensures Working(key) && old(log) <= log && files - {key} == old(files) - {key}
      ensures files[key].digest == old(files)[key].digest
      ensures !disturbed ==> (done <==> !(v == Adapter && p.fails))
      ensures !disturbed && done ==> CameTo(v, p, |old(files)[key].rows|, files[key].rows)
      ensures !disturbed && done ==> history == old(history) + Calls(key, |old(files)[key].rows|)
      ensures done && v != Adapter ==> forall row :: row in files[key].rows ==> row.state !in {Queued, Dispatching}
    {
      if disturbed { if * { return false; } }
      if RowByRow(v) {
        done := DispatchRows(key, p);
      } else {
        done := DispatchBatch(key, p);
      }
    }

    /** Room for one more was found; nothing is written yet. */
    ghost predicate Reserved(key: Key)
      reads this
    {
      && Valid() && LockOf(v, key) in admitted && admitted[LockOf(v, key)] == key && key !in files
      && forall k :: k in work ==> LockOf(v, k) != LockOf(v, key)
    }

    method Reserve(key: Key)
      requires Free(key) && key !in files && |files| < CAPACITY
      modifies this`admitted, this`peak, this`log
      ensures Reserved(key) && old(log) <= log
    {
      ghost var s := Snapshot();
      admitted := admitted[LockOf(v, key) := key];
      peak := Max(peak, |admitted|);
      Note(Count(key), s);
    }

    /** Between counting and writing, requests for other profiles take any number of their own steps. */
    method OthersAct(key: Key)
      requires Reserved(key)
      modifies this
      ensures Reserved(key) && old(log) <= log && SameOthers(v, key, old(files), files)
      ensures !disturbed ==> Snapshot() == old(Snapshot())
    {
      if !disturbed { return; }
      var steps: int := *;
      for i := 0 to Max(0, steps)
        invariant Reserved(key) && old(log) <= log && SameOthers(v, key, old(files), files)
      {
        OtherStep(key);
      }
    }

    method OtherStep(key: Key)
      requires Reserved(key)
      modifies this
      ensures Reserved(key) && old(log) <= log && SameOthers(v, key, old(files), files)
    {
      var a: Action := *;
      if LockOf(v, a.key) == LockOf(v, key) || !Enabled(v, Snapshot(), a) { return; }
      OtherLocks(v, Snapshot(), a, key);
      var t := Apply(v, Snapshot(), a);
      ghost var s := Snapshot();
      files, work, admitted, peak, history := t.files, t.work, t.admitted, t.peak, t.history;
      Note(a, s);
    }

    method GiveUp(key: Key)
      requires Reserved(key)
      modifies this`admitted, this`log
      ensures Free(key) && old(log) <= log
    {
      ghost var s := Snapshot();
      admitted := admitted - {LockOf(v, key)};
      Note(Withdraw(key), s);
    }

    method WriteIntent(key: Key, digest: nat, count: nat)
      requires Reserved(key)
      modifies this`files, this`work, this`admitted, this`log
      ensures Working(key) && old(log) <= log && work[key] == {}
      ensures files == old(files)[key := Receipt(digest, seq(count, _ => Fresh(v)), None)]
    {
      ghost var s := Snapshot();
      files := files[key := Receipt(digest, seq(count, _ => Fresh(v)), None)];
      work := work[key := {}];
      admitted := admitted - {LockOf(v, key)};
      Note(Create(key, digest, count), s);
    }

    method Release(key: Key)
      requires Working(key)
      modifies this`work, this`log
      ensures Free(key) && old(log) <= log
    {
      ghost var s := Snapshot();
      work := work - {key};
      Note(Leave(key), s);
    }

    /** Row by row: the intent to dispatch a row is on disk before the provider is asked. */
    method DispatchRows(key: Key, p: Provider) returns (done: bool)
      requires Working(key) && RowByRow(v) && work[key] == {} && files[key].rows == seq(|files[key].rows|, _ => Fresh(v))
      modifies this
      ensures Working(key) && old(log) <= log && files - {key} == old(files) - {key}
      ensures files[key].digest == old(files)[key].digest
      ensures !disturbed ==> done
      ensures !disturbed ==> CameTo(v, p, |old(files)[key].rows|, files[key].rows)
      ensures !disturbed ==> history == old(history) + Calls(key, |old(files)[key].rows|)
      ensures done ==> forall row :: row in files[key].rows ==> row.state !in {Queued, Dispatching}
    {
      for i := 0 to |files[key].rows|
        invariant Working(key) && old(log) <= log && files - {key} == old(files) - {key}
        invariant |files[key].rows| == |old(files)[key].rows| && files[key].digest == old(files)[key].digest
        invariant forall k :: k in work[key] ==> k < i
        invariant !disturbed ==> forall k :: 0 <= k < i ==> files[key].rows[k] == RowAfter(v, ReplyAt(v, p, k))
        invariant !disturbed ==> history == old(history) + Calls(key, i)
        invariant forall k :: 0 <= k < i ==> files[key].rows[k].state !in {Queued, Dispatching}
        invariant forall k :: i <= k < |files[key].rows| ==> files[key].rows[k].state == Queued
      {
        var row;
        done, row := DispatchRow(key, i, p);
        if !done { return; }
      }
      return true;
    }

    method DispatchRow(key: Key, i: nat, p: Provider) returns (done: bool, row: Row)
      requires Working(key) && RowByRow(v) && i < |files[key].rows| && i !in work[key] && files[key].rows[i].state == Queued
      modifies this
      ensures Working(key) && old(log) <= log && work[key] <= old(work)[key] + {i}
      ensures files == old(files)[key := old(files)[key].(rows := old(files)[key].rows[i := row])]
      ensures done ==> Reported(v, row) && row == RowAfter(v, ReplyAt(v, p, i)) && history == old(history) + [Event.Dispatched(key, i)]
      ensures !disturbed ==> done
    {
      WriteDispatching(key, i);
      row := files[key].rows[i];
      if disturbed { if * { return false, row; } }
      CallProvider(key, i);
      if disturbed { if * { return false, row; } }
      row := RowAfter(v, ReplyAt(v, p, i));
      RecordRows(key, files[key].rows[i := row]);
      assert files[key].rows == old(files)[key].rows[i := row];
      return true, row;
    }

    method WriteDispatching(key: Key, i: nat)
      requires Working(key) && RowByRow(v) && i < |files[key].rows| && files[key].rows[i].state == Queued
      modifies this`files, this`log
      ensures Working(key) && old(log) <= log
      ensures files == old(files)[key := old(files)[key].(rows := old(files)[key].rows[i := old(files)[key].rows[i].(state := Dispatching)])]
    {
      ghost var s := Snapshot();
      files := files[key := files[key].(rows := files[key].rows[i := files[key].rows[i].(state := Dispatching)])];
      Note(Mark(key, i), s);
    }

    /** The provider acts on one target. */
    method CallProvider(key: Key, i: nat)
      requires Working(key) && i < |files[key].rows| && i !in work[key]
      requires files[key].rows[i].state == (if v == Adapter then Unknown else Dispatching)
      modifies this`work, this`history, this`log
      ensures Working(key) && old(log) <= log && work[key] == old(work)[key] + {i}
      ensures history == old(history) + [Event.Dispatched(key, i)]
    {
      ghost var s := Snapshot();
      work := work[key := work[key] + {i}];
      history := history + [Event.Dispatched(key, i)];
      Note(Call(key, i), s);
    }

    method RecordRows(key: Key, rows: seq<Row>)
      requires Working(key) && OnlyCalled(work[key], files[key].rows, rows, v)
      modifies this`files, this`log
      ensures Working(key) && old(log) <= log && files == old(files)[key := old(files)[key].(rows := rows)]
    {
      ghost var s := Snapshot();
      files := files[key := files[key].(rows := rows)];
      Note(Record(key, rows), s);
    }

    /** A whole batch in one provider call: every row says it is being dispatched before the provider is asked. */
    method DispatchBatch(key: Key, p: Provider) returns (done: bool)
      requires Working(key) && !RowByRow(v) && work[key] == {} && files[key].rows == seq(|files[key].rows|, _ => Fresh(v))
      modifies this
      ensures Working(key) && old(log) <= log && files - {key} == old(files) - {key}
      ensures files[key].digest == old(files)[key].digest
      ensures !disturbed ==> (done <==> !(v == Adapter && p.fails))
      ensures !disturbed && done ==> CameTo(v, p, |old(files)[key].rows|, files[key].rows)
      ensures !disturbed && done ==> history == old(history) + Calls(key, |old(files)[key].rows|)
      ensures done && v != Adapter ==> forall row :: row in files[key].rows ==> row.state !in {Queued, Dispatching}
    {
      if v == Administration {
        WriteAllDispatching(key);
        if disturbed { if * { return false; } }
      }
      ghost var kept := files;
      var count := |files[key].rows|;
      for i := 0 to count
        invariant Working(key) && old(log) <= log && files == kept
        invariant forall k :: k in work[key] <==> 0 <= k < i
        invariant history == old(history) + Calls(key, i)
      {
        CallProvider(key, i);
        if disturbed { if * { return false; } }
      }
      if v == Adapter && p.fails { return false; }  // every row stays unknown, as it was written first
      var rows := BatchReply(p.batch, count);
      RecordRows(key, rows);
      return true;
    }

    method WriteAllDispatching(key: Key)
      requires Working(key) && v == Administration && forall i :: 0 <= i < |files[key].rows| ==> files[key].rows[i].state == Queued
      modifies this`files, this`log
      ensures Working(key) && old(log) <= log
      ensures files == old(files)[key := old(files)[key].(rows := Marked(old(files)[key].rows))]
    {
      ghost var s := Snapshot();
      files := files[key := files[key].(rows := Marked(files[key].rows))];
      Note(MarkAll(key), s);
    }

    /** The provider's rows for the batch when they match it, and unknown outcomes otherwise. */
    method BatchReply(batch: seq<Row>, count: nat) returns (rows: seq<Row>)
      requires !RowByRow(v)
      ensures rows == if GoodBatch(v, batch, count) then batch else seq(count, _ => Row(Unknown, false, NoTask))
      ensures |rows| == count && forall i :: 0 <= i < count ==> Reported(v, rows[i]) && rows[i].state !in {Queued, Dispatching}
    {
      rows := batch;
      if |rows| != count || exists i :: 0 <= i < count && !Reported(v, rows[i]) {
        rows := seq(count, _ => Row(Unknown, false, NoTask));
      }
    }
  }

  /** Receipts under the same lock, other than this one, are as they were. */
  ghost predicate SameOthers(v: Variant, key: Key, before: map<Key, Receipt>, after: map<Key, Receipt>) {
    forall k :: LockOf(v, k) == LockOf(v, key) && k != key ==>
      (k in before <==> k in after) && (k in before ==> before[k] == after[k])
  }

  lemma SameButOne(v: Variant, key: Key, before: map<Key, Receipt>, after: map<Key, Receipt>)
    requires before - {key} == after - {key}
    ensures SameOthers(v, key, before, after)
  {
    forall k | k != key ensures (k in before <==> k in after) && (k in before ==> before[k] == after[k]) {
      assert k in before <==> k in before - {key};
      assert k in after <==> k in after - {key};
      assert k in before ==> (before - {key})[k] == before[k];
      assert k in after ==> (after - {key})[k] == after[k];
    }
  }

  /** A step under another lock leaves this one's request and receipts alone. */
  lemma OtherLocks(v: Variant, s: State, a: Action, key: Key)
    requires Enabled(v, s, a) && LockOf(v, a.key) != LockOf(v, key)
    ensures var t := Apply(v, s, a);
      && SameOthers(v, key, s.files, t.files) && (key in s.files <==> key in t.files)
      && (LockOf(v, key) in s.admitted <==> LockOf(v, key) in t.admitted)
      && (LockOf(v, key) in s.admitted ==> t.admitted[LockOf(v, key)] == s.admitted[LockOf(v, key)])
      && (forall k :: LockOf(v, k) == LockOf(v, key) ==> (k in s.work <==> k in t.work))
  {
    var t := Apply(v, s, a);
    assert forall k :: k != a.key ==> (k in s.files <==> k in t.files) && (k in s.files ==> s.files[k] == t.files[k]);
  }

  predicate DistinctTargets(targets: seq<nat>) {
    forall i, j :: 0 <= i < j < |targets| ==> targets[i] != targets[j]
  }

  /** Rows outside the targets are as they were. */
  predicate OnlyAt(targets: seq<nat>, before: seq<Row>, after: seq<Row>) {
    |after| == |before| && forall i :: 0 <= i < |before| && i !in targets ==> after[i] == before[i]
  }
}
