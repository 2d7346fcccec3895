/** The job helper: submissions and status requests under the namespace lock; runners act on their own. */
module JobsNode {
  import opened Base
  import opened JobsModel
  import JobCapture

  datatype Answer = Status(terminal: bool) | Denied(why: string) | Interrupted

  /** `disturbed` says that a request may stop at any write, that a launch may fail or its end stay unknown, and that a
      runner may be lost. */
  class Namespace {
    const disturbed: bool
    var jobs: seq<Job>
    var staged: Option<Id>
    ghost var launching: Option<Id>
    var boot: nat
    ghost var starts: seq<Id>
    ghost var log: seq<Action>

    ghost function Snapshot(): State
      reads this
    {
      State(jobs, staged, launching, boot, starts)
    }

    ghost predicate Reachable()
      reads this
    {
      IsRun(log, Snapshot())
    }

    /** Between requests no launch is under way. */
    ghost predicate Valid()
      reads this
    {
      Reachable() && launching.None?
    }

    constructor (disturbed: bool)
      ensures Valid() && Snapshot() == Initial() && this.disturbed == disturbed
    {
      this.disturbed := disturbed;
      jobs, staged, launching, boot, starts, log := [], None, None, 0, [], [];
    }

    ghost method Note(a: Action, before: State)
      requires IsRun(log, before) && Next(before, a) == Some(Snapshot())
      modifies this`log
      ensures Reachable() && log == old(log) + [a]
    {
      RunStep(log, before, a);
      log := log + [a];
    }

    method Die()
      requires Reachable()
      modifies this`launching, this`log
      ensures Valid() && old(log) <= log
    {
      ghost var s := Snapshot();
      launching := None;
      Note(Stop, s);
    }

    /** A job's own process: its output is captured over some turns within the limit of one job; then it reports its
        end, or is lost. */
    method RunnerActs(id: Id, rounds: seq<JobCapture.Round>, deadline: int)
      requires Valid() && Known(jobs, id) && jobs[Find(jobs, id)].runner == Running
      modifies this`jobs, this`log
      ensures Valid() && old(log) <= log
      ensures OnlyRun(old(jobs), jobs, old(Find(jobs, id)))
      ensures var j := jobs[old(Find(jobs, id))];
        && old(jobs[Find(jobs, id)].out) <= j.out && old(jobs[Find(jobs, id)].err) <= j.err && j.out + j.err <= LOG_CAP
        && (!disturbed ==> j.terminal) && j.runner in {Running, Gone} && (j.terminal ==> j.runner == Gone)
    {
      var captured, reason, killed, turns := JobCapture.Capture(rounds, LOG_CAP, deadline);
      JobCapture.CaptureIsFaithful(captured, JobCapture.AllReads(rounds[..turns]), LOG_CAP);
      RunFacts(log, Snapshot());
      RunnerWrites(id, |captured.out|, |captured.err|);
      if disturbed { if * { return; } }
      var i := Find(jobs, id);
      ghost var s := Snapshot();
      var reports: bool := *;
      if reports || !disturbed {
        jobs := jobs[i := jobs[i].(runner := Gone, terminal := true)];
        Note(JobsModel.Finish(id), s);
      } else {
        jobs := jobs[i := jobs[i].(runner := Gone)];
        Note(JobsModel.Die(id), s);
      }
    }

    /** The two output files only grow. */
    method RunnerWrites(id: Id, out: nat, err: nat)
      requires Valid() && Known(jobs, id) && jobs[Find(jobs, id)].runner == Running && out + err <= LOG_CAP
      modifies this`jobs, this`log
      ensures Valid() && old(log) <= log && Known(jobs, id) && Find(jobs, id) == old(Find(jobs, id))
      ensures OnlyRun(old(jobs), jobs, Find(jobs, id))
      ensures var j := jobs[Find(jobs, id)];
        && j.runner == Running && j.out + j.err <= LOG_CAP && j.terminal == old(jobs[Find(jobs, id)].terminal)
        && old(jobs[Find(jobs, id)].out) <= j.out && old(jobs[Find(jobs, id)].err) <= j.err
    {
      RunFacts(log, Snapshot());
      var i := Find(jobs, id);
      var j := jobs[i];
      if out < j.out || err < j.err { return; }
      ghost var s := Snapshot();
      jobs := jobs[i := j.(out := out, err := err)];
      Note(JobsModel.Write(id, out, err), s);
      RunFacts(log, Snapshot());
      OneFound(jobs, i);
    }

    /** Submits one job. A known identity is never launched again, whatever became of its first launch. A new one is denied
        exactly for what the look at the retained jobs, `seen`, says, or when the node lacks storage or graphics memory. */
    method Submit(id: Id, digest: nat, lacking: bool) returns (r: Answer, ghost seen: seq<Job>)
      requires Valid()
      modifies this
      ensures Valid() && old(log) <= log && old(starts) <= starts <= old(starts) + [id]
      ensures old(Known(jobs, id)) ==> starts == old(starts) && |jobs| == |old(jobs)|
      ensures old(Known(jobs, id)) ==> (r.Denied? <==> old(jobs)[Find(old(jobs), id)].digest != digest)
      ensures starts != old(starts) ==> Charges(jobs) <= TOTAL_LOG_CAP && OneActive(jobs) && Known(jobs, id)
      ensures Inspected(old(jobs), seen)
      ensures !disturbed && !old(Known(jobs, id)) && |seen| < RECEIPT_CAP ==> forall k :: 0 <= k < |seen| ==> Settled(old(jobs)[k], seen[k], old(boot))
      ensures !old(Known(jobs, id)) ==>
        (r.Denied? <==> |seen| >= RECEIPT_CAP || Charges(seen) + LOG_CAP > TOTAL_LOG_CAP || !AllTerminal(seen) || lacking)
      ensures !old(Known(jobs, id)) && r.Denied? && |seen| < RECEIPT_CAP ==> jobs == seen
      ensures !disturbed ==> r != Interrupted
      ensures !disturbed && !old(Known(jobs, id)) && !r.Denied? ==>
        starts == old(starts) + [id] && Added(seen, jobs)
      ensures !old(Known(jobs, id)) && r.Denied? ==> starts == old(starts) && |jobs| == |old(jobs)|
    {
      Recover();
      seen := jobs;
      if Known(jobs, id) {
        var i := Find(jobs, id);
        if jobs[i].digest != digest { return Denied("different request"), seen; }
        r := Inspect(i);
        return r, jobs;
      }
      if |jobs| >= RECEIPT_CAP { return Denied("receipt capacity"), seen; }
      var reserved, busy := Tally();
      seen := jobs;
      if reserved + LOG_CAP > TOTAL_LOG_CAP { return Denied("output capacity"), seen; }
      if busy { return Denied("another job"), seen; }
      if lacking { return Denied("the node lacks storage or graphics memory"), seen; }
      NotYetKnown(old(jobs), jobs, id);
      r := Launch(id, digest);
    }

    /** Removes what a stopped submission left before publishing. */
    method Recover()
      requires Valid()
      modifies this`staged, this`log
      ensures Valid() && old(log) <= log && staged.None?
    {
      if staged.None? { return; }
      ghost var s := Snapshot();
      staged := None;
      Note(Discard, s);
    }

    /** Finds out the state of one job, and records an outcome that can no longer change. */
    method Inspect(i: nat) returns (r: Answer)
      requires Valid() && i < |jobs|
      modifies this`jobs, this`log
      ensures Valid() && old(log) <= log && |jobs| == |old(jobs)|
      ensures jobs[i].id == old(jobs)[i].id && r == Status(jobs[i].terminal)
      ensures jobs == old(jobs)[i := old(jobs)[i].(terminal := jobs[i].terminal)]
      ensures old(jobs)[i].terminal || old(jobs)[i].boot != boot ==> jobs[i].terminal
      ensures !disturbed ==> Settled(old(jobs)[i], jobs[i], boot)
      ensures jobs[i].terminal && !old(jobs)[i].terminal ==> jobs[i].boot != boot || jobs[i].runner == Gone
    {
      RunFacts(log, Snapshot());
      var j := jobs[i];
      if j.terminal { return Status(true); }
      OneFound(jobs, i);
      var gone: bool := *;  // the unit is loaded, inactive, and its processes are gone
      gone := (gone || !disturbed) && j.runner == Gone;
      if j.boot != boot || gone {
        ghost var s := Snapshot();
        jobs := jobs[i := j.(terminal := true)];
        Note(Settle(j.id), s);
        return Status(true);
      }
      return Status(false);
    }

    /** What the retained jobs count for, and whether one of them is not known to have ended. */
    method Tally() returns (reserved: nat, busy: bool)
      requires Valid()
      modifies this`jobs, this`log
      ensures Valid() && old(log) <= log && reserved == Charges(jobs) && busy == !AllTerminal(jobs)
      ensures Inspected(old(jobs), jobs) && (!disturbed ==> forall k :: 0 <= k < |jobs| ==> Settled(old(jobs)[k], jobs[k], boot))
    {
      reserved, busy := 0, false;
      for i := 0 to |jobs|
        invariant Valid() && old(log) <= log && Inspected(old(jobs), jobs)
        invariant forall k :: i <= k < |jobs| ==> jobs[k] == old(jobs)[k]
        invariant !disturbed ==> forall k :: 0 <= k < i ==> Settled(old(jobs)[k], jobs[k], boot)
        invariant reserved == Charges(jobs[..i]) && busy == !AllTerminal(jobs[..i])
      {
        ghost var seen := jobs[..i];
        var status := Inspect(i);
        assert jobs[..i] == seen && jobs[..i + 1][..i] == jobs[..i];
        if !status.terminal {
          busy := true;
          reserved := reserved + LOG_CAP;
        } else {
          reserved := reserved + jobs[i].out + jobs[i].err;
        }
      }
      assert jobs[..|jobs|] == jobs;
    }

    /** Prepares the record privately, publishes it, and then asks the system manager once. */
    method Launch(id: Id, digest: nat) returns (r: Answer)
      requires Valid() && staged.None? && !Known(jobs, id) && AllTerminal(jobs) && |jobs| < RECEIPT_CAP
      requires Charges(jobs) + LOG_CAP <= TOTAL_LOG_CAP
      modifies this
      ensures Valid() && old(log) <= log && old(starts) <= starts <= old(starts) + [id] && !r.Denied?
      ensures !disturbed ==> r != Interrupted && starts == old(starts) + [id] && Added(old(jobs), jobs)
      ensures starts != old(starts) ==> Charges(jobs) <= TOTAL_LOG_CAP && OneActive(jobs) && Known(jobs, id)
    {
      var started := StartOnce(id, digest);
      if !started { return Interrupted; }
      r := LookAtLast(id);
    }

    method StartOnce(id: Id, digest: nat) returns (started: bool)
      requires Valid() && staged.None? && !Known(jobs, id) && AllTerminal(jobs) && |jobs| < RECEIPT_CAP
      requires Charges(jobs) + LOG_CAP <= TOTAL_LOG_CAP
      modifies this
      ensures Valid() && old(log) <= log && starts == (if started then old(starts) + [id] else old(starts)) && (!disturbed ==> started)
      ensures started ==> |jobs| == |old(jobs)| + 1 && jobs[..|old(jobs)|] == old(jobs) && jobs[|old(jobs)|].id == id
      ensures started && !disturbed ==> jobs[|old(jobs)|].runner == Running
    {
      ghost var s := Snapshot();
      staged := Some(id);
      Note(JobsModel.Stage(id), s);
      if disturbed { if * { return false; } }
      PublishRecord(id, digest);
      if disturbed { if * { Die(); return false; } }
      StartUnit(id);
      return true;
    }

    method LookAtLast(id: Id) returns (r: Answer)
      requires Valid() && jobs != [] && jobs[|jobs| - 1].id == id
      modifies this`jobs, this`log
      ensures Valid() && old(log) <= log && !r.Denied? && (!disturbed ==> r != Interrupted)
      ensures |jobs| == |old(jobs)| && jobs[..|jobs| - 1] == old(jobs)[..|jobs| - 1]
      ensures jobs[|jobs| - 1] == old(jobs)[|jobs| - 1].(terminal := jobs[|jobs| - 1].terminal)
      ensures Charges(jobs) <= TOTAL_LOG_CAP && OneActive(jobs) && Known(jobs, id)
    {
      r := Interrupted;
      var looks: bool := *;
      if looks || !disturbed { r := Inspect(|jobs| - 1); }
      RunFacts(log, Snapshot());
      assert jobs[|jobs| - 1].id == id;
    }

    method PublishRecord(id: Id, digest: nat)
      requires Valid() && staged == Some(id) && !Known(jobs, id) && AllTerminal(jobs) && |jobs| < RECEIPT_CAP
      requires Charges(jobs) + LOG_CAP <= TOTAL_LOG_CAP
      modifies this`jobs, this`staged, this`launching, this`log
      ensures Reachable() && old(log) <= log && launching == Some(id)
      ensures jobs == old(jobs) + [Job(id, digest, boot, false, Idle, 0, 0)]
    {
      ghost var s := Snapshot();
      jobs, staged, launching := jobs + [Job(id, digest, boot, false, Idle, 0, 0)], None, Some(id);
      Note(JobsModel.Publish(id, digest), s);
    }

    /** The acknowledgement may be lost: the unit may run although the request failed. */
    method StartUnit(id: Id)
      requires Reachable() && launching == Some(id) && jobs != [] && jobs[|jobs| - 1].id == id
      modifies this`jobs, this`launching, this`starts, this`log
      ensures Valid() && old(log) <= log && starts == old(starts) + [id]
      ensures |jobs| == |old(jobs)| && jobs[|jobs| - 1].id == id && jobs[..|jobs| - 1] == old(jobs)[..|jobs| - 1]
      ensures jobs[|jobs| - 1].runner in {Running, Idle} && (!disturbed ==> jobs[|jobs| - 1].runner == Running)
    {
      RunFacts(log, Snapshot());
      var launched: bool := *;
      launched := launched || !disturbed;
      var last := |jobs| - 1;
      OneFound(jobs, last);
      ghost var s := Snapshot();
      jobs := jobs[last := jobs[last].(runner := if launched then Running else Idle)];
      launching, starts := None, starts + [id];
      Note(JobsModel.Start(id, launched), s);
    }
  }

  /** Looking at the jobs only finds out which of them have ended: for certain those of another boot, and otherwise none
      whose process is not gone. */
  ghost predicate Inspected(before: seq<Job>, after: seq<Job>) {
    && |after| == |before|
    && forall k :: 0 <= k < |before| ==> after[k] == before[k].(terminal := after[k].terminal) && (before[k].terminal ==> after[k].terminal)
  }

  /** The job has ended, and that was found out, exactly if it ran in an earlier boot or its process is gone. */
  predicate Settled(before: Job, after: Job, boot: nat) {
    after.terminal <==> before.terminal || before.boot != boot || before.runner == Gone
  }

  /** One more job, whose process runs. */
  predicate Added(before: seq<Job>, after: seq<Job>) {
    |after| == |before| + 1 && after[..|before|] == before && after[|before|].runner == Running
  }

  /** Only what its runner may change of one job differs. */
  predicate OnlyRun(before: seq<Job>, after: seq<Job>, i: nat) {
    && i < |before| == |after|
    && after == before[i := Job(before[i].id, before[i].digest, before[i].boot, after[i].terminal, after[i].runner, after[i].out, after[i].err)]
  }

  lemma OneFound(jobs: seq<Job>, i: nat)
    requires DistinctIds(jobs) && i < |jobs|
    ensures Known(jobs, jobs[i].id) && Find(jobs, jobs[i].id) == i
  {
    assert Is(jobs, i, jobs[i].id);
  }

  lemma NotYetKnown(before: seq<Job>, after: seq<Job>, id: Id)
    requires |before| == |after| && forall k :: 0 <= k < |after| ==> after[k].id == before[k].id
    ensures Known(before, id) <==> Known(after, id)
  {
    if Known(after, id) {
      var i :| 0 <= i < |after| && after[i].id == id;
      assert before[i].id == id;
    }
    if Known(before, id) {
      var i :| 0 <= i < |before| && before[i].id == id;
      assert after[i].id == id;
    }
  }
}
