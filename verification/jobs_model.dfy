/** Managed jobs on one node: admission, one launch per job, bounded output, and outcomes found out after crashes
    and reboots. */
module JobsModel {
  import opened Base

  type Id = nat

  const LOG_CAP := 64 * 1024 * 1024
  const TOTAL_LOG_CAP := 2 * 1024 * 1024 * 1024
  const RECEIPT_CAP := 256

  /** The process that runs a job: never launched, running, or gone. */
  datatype Runner = Idle | Running | Gone

  datatype Job = Job(id: Id, digest: nat, boot: nat, terminal: bool, runner: Runner, out: nat, err: nat)

  /** `starts` is history: every launch request made to the system manager. */
  datatype State = State(
    jobs: seq<Job>, staged: Option<Id>, launching: Option<Id>, boot: nat, starts: seq<Id>)

  datatype Action =
    | Stage(id: Id)
    | Discard
    | Publish(id: Id, digest: nat)
    | Start(id: Id, launched: bool)
    | Write(id: Id, out: nat, err: nat)
    | Finish(id: Id)
    | Die(id: Id)
    | Settle(id: Id)
    | Stop
    | Reboot

  predicate Known(jobs: seq<Job>, id: Id) {
    exists i :: 0 <= i < |jobs| && jobs[i].id == id
  }

  /** What a job counts for against the output limit: its files once it is terminal, the most it may write before. */
  function Charge(j: Job): nat {
    if j.terminal then j.out + j.err else LOG_CAP
  }

  function Charges(jobs: seq<Job>): nat {
    if jobs == [] then 0 else Charges(jobs[..|jobs| - 1]) + Charge(jobs[|jobs| - 1])
  }

  function Retained(jobs: seq<Job>): nat {
    if jobs == [] then 0 else Retained(jobs[..|jobs| - 1]) + jobs[|jobs| - 1].out + jobs[|jobs| - 1].err
  }

  predicate AllTerminal(jobs: seq<Job>) {
    forall i :: 0 <= i < |jobs| ==> jobs[i].terminal
  }

  predicate Is(jobs: seq<Job>, i: int, id: Id) {
    0 <= i < |jobs| && jobs[i].id == id
  }

  /** The job of an identity; jobs are listed by directory, so each identity has one. */
  function Find(jobs: seq<Job>, id: Id): (i: nat)
    requires Known(jobs, id)
    ensures Is(jobs, i, id)
  {
    if jobs[|jobs| - 1].id == id then |jobs| - 1 else Find(jobs[..|jobs| - 1], id)
  }

  ghost predicate Enabled(s: State, a: Action) {
    match a
    case Stage(id) => s.staged.None? && !Known(s.jobs, id)
    case Discard => s.staged.Some?
    case Publish(id, _) =>
      && s.staged == Some(id) && !Known(s.jobs, id) && AllTerminal(s.jobs) && |s.jobs| < RECEIPT_CAP
      && Charges(s.jobs) + LOG_CAP <= TOTAL_LOG_CAP && s.launching.None?
    case Start(id, _) => s.launching == Some(id)
    case Write(id, out, err) =>
      && Known(s.jobs, id)
      && var j := s.jobs[Find(s.jobs, id)];
         j.runner == Running && j.out <= out && j.err <= err && out + err <= LOG_CAP
    case Finish(id) => Known(s.jobs, id) && s.jobs[Find(s.jobs, id)].runner == Running
    case Die(id) => Known(s.jobs, id) && s.jobs[Find(s.jobs, id)].runner == Running
    case Settle(id) =>
      && Known(s.jobs, id)
      && var j := s.jobs[Find(s.jobs, id)];
         !j.terminal && (j.runner == Gone || j.boot != s.boot)
    case Stop => true
    case Reboot => true
  }

  function Put(s: State, j: Job): State
    requires Known(s.jobs, j.id)
  {
    s.(jobs := s.jobs[Find(s.jobs, j.id) := j])
  }

  function Rebooted(jobs: seq<Job>): (r: seq<Job>)
    ensures |r| == |jobs|
    ensures forall i :: 0 <= i < |jobs| ==> r[i] == jobs[i].(runner := if jobs[i].runner == Running then Gone else jobs[i].runner)
  {
    seq(|jobs|, i requires 0 <= i < |jobs| =>
      jobs[i].(runner := if jobs[i].runner == Running then Gone else jobs[i].runner))
  }

  ghost function Apply(s: State, a: Action): State
    requires Enabled(s, a) && (a.Start? ==> Known(s.jobs, a.id))
  {
    match a
    case Stage(id) => s.(staged := Some(id))
    case Discard => s.(staged := None)
    case Publish(id, digest) =>
      s.(jobs := s.jobs + [Job(id, digest, s.boot, false, Idle, 0, 0)], staged := None, launching := Some(id))
    case Start(id, launched) =>
      var j := s.jobs[Find(s.jobs, id)];
      Put(s, j.(runner := if launched then Running else Idle)).(launching := None, starts := s.starts + [id])
    case Write(id, out, err) => Put(s, s.jobs[Find(s.jobs, id)].(out := out, err := err))
    case Finish(id) => Put(s, s.jobs[Find(s.jobs, id)].(runner := Gone, terminal := true))
    case Die(id) => Put(s, s.jobs[Find(s.jobs, id)].(runner := Gone))
    case Settle(id) => Put(s, s.jobs[Find(s.jobs, id)].(terminal := true))
    case Stop => s.(launching := None)
    case Reboot => s.(jobs := Rebooted(s.jobs), boot := s.boot + 1, launching := None)
  }

  ghost function Next(s: State, a: Action): Option<State> {
    if Enabled(s, a) && (a.Start? ==> Known(s.jobs, a.id)) then Some(Apply(s, a)) else None
  }

  function Initial(): State { State([], None, None, 0, []) }

  // ---- the invariant ----

  ghost predicate JobInv(j: Job, s: State) {
    && j.boot <= s.boot && j.out + j.err <= LOG_CAP
    && (j.terminal ==> j.runner != Running)
    && (j.runner == Running ==> j.boot == s.boot)
    && (s.launching == Some(j.id) ==> j.runner == Idle && j.id !in s.starts && !j.terminal && j.boot == s.boot)
    && (j.runner != Idle ==> j.id in s.starts)
  }

  predicate DistinctIds(jobs: seq<Job>) {
    forall i, j :: 0 <= i < j < |jobs| ==> jobs[i].id != jobs[j].id
  }

  predicate Distinct(s: seq<Id>) {
    forall i, j :: 0 <= i < j < |s| ==> s[i] != s[j]
  }

  /** Only the newest job can still be running or unknown. */
  predicate OneActive(jobs: seq<Job>) {
    forall i :: 0 <= i < |jobs| - 1 ==> jobs[i].terminal
  }

  ghost predicate Inv(s: State) {
    && DistinctIds(s.jobs) && OneActive(s.jobs) && |s.jobs| <= RECEIPT_CAP
    && (forall i :: 0 <= i < |s.jobs| ==> JobInv(s.jobs[i], s))
    && Charges(s.jobs) <= TOTAL_LOG_CAP
    && Distinct(s.starts) && (forall id :: id in s.starts ==> Known(s.jobs, id))
    && (s.launching.Some? ==> Known(s.jobs, s.launching.value))
  }

  lemma {:induction false} ChargesPut(jobs: seq<Job>, i: nat, j: Job)
    requires i < |jobs|
    ensures Charges(jobs[i := j]) == Charges(jobs) - Charge(jobs[i]) + Charge(j)
  {
    if i == |jobs| - 1 {
      assert jobs[i := j][..|jobs| - 1] == jobs[..|jobs| - 1];
    } else {
      ChargesPut(jobs[..|jobs| - 1], i, j);
      assert jobs[i := j][..|jobs| - 1] == jobs[..|jobs| - 1][i := j];
    }
  }

  lemma {:induction false} ChargesRebooted(jobs: seq<Job>)
    ensures Charges(Rebooted(jobs)) == Charges(jobs)
  {
    if jobs != [] {
      ChargesRebooted(jobs[..|jobs| - 1]);
      assert Rebooted(jobs)[..|jobs| - 1] == Rebooted(jobs[..|jobs| - 1]);
    }
  }

  lemma KnownAfter(jobs: seq<Job>, more: seq<Job>)
    requires |jobs| <= |more| && forall i :: 0 <= i < |jobs| ==> more[i].id == jobs[i].id
    ensures forall id :: Known(jobs, id) ==> Known(more, id)
  {
    forall id | Known(jobs, id) ensures Known(more, id) {
      var i :| 0 <= i < |jobs| && jobs[i].id == id;
      assert more[i].id == id;
    }
  }

  /** Replacing one job record keeps the invariant when the new record is sound and charges no more. */
  lemma PutKeeps(s: State, j: Job, t: State)
    requires Inv(s) && Known(s.jobs, j.id) && t == Put(s, j).(launching := t.launching, starts := t.starts)
    requires var i := Find(s.jobs, j.id);
      Charge(j) <= Charge(s.jobs[i]) && (s.jobs[i].terminal ==> j.terminal) && JobInv(j, t)
    requires t.launching.Some? ==> t.launching == s.launching
    requires t.starts == s.starts || (t.starts == s.starts + [j.id] && j.id !in s.starts)
    ensures Inv(t)
  {
    var i := Find(s.jobs, j.id);
    ChargesPut(s.jobs, i, j);
    KnownAfter(s.jobs, t.jobs);
    forall k | 0 <= k < |t.jobs| ensures JobInv(t.jobs[k], t) {
      assert JobInv(s.jobs[k], s);
    }
  }

  lemma InvKeptByOne(s: State, a: Action)
    requires Inv(s) && Next(s, a).Some?
    requires a.Start? || a.Write? || a.Finish? || a.Die? || a.Settle?
    ensures Inv(Next(s, a).value)
  {
    var t := Next(s, a).value;
    var i := Find(s.jobs, a.id);
    assert JobInv(s.jobs[i], s);
    PutKeeps(s, t.jobs[i], t);
  }

  lemma InvKeptByPublish(s: State, a: Action)
    requires Inv(s) && Next(s, a).Some? && a.Publish?
    ensures Inv(Next(s, a).value)
  {
    var t := Next(s, a).value;
    assert t.jobs[..|s.jobs|] == s.jobs;
    KnownAfter(s.jobs, t.jobs);
    assert t.jobs[|s.jobs|].id == a.id;
    forall k | 0 <= k < |t.jobs| ensures JobInv(t.jobs[k], t) {
      if k < |s.jobs| { assert JobInv(s.jobs[k], s) && t.jobs[k] == s.jobs[k]; }
    }
  }

  lemma InvKeptByReboot(s: State)
    requires Inv(s)
    ensures Inv(Next(s, Reboot).value)
  {
    var t := Next(s, Reboot).value;
    ChargesRebooted(s.jobs);
    KnownAfter(s.jobs, t.jobs);
    forall k | 0 <= k < |t.jobs| ensures JobInv(t.jobs[k], t) {
      assert JobInv(s.jobs[k], s);
    }
  }

  lemma InvKeptByOthers(s: State, a: Action)
    requires Inv(s) && Next(s, a).Some?
    requires a.Stage? || a.Discard? || a.Stop?
    ensures Inv(Next(s, a).value)
  {
    var t := Next(s, a).value;
    forall k | 0 <= k < |t.jobs| ensures JobInv(t.jobs[k], t) {
      assert JobInv(s.jobs[k], s);
    }
  }

  lemma InvKept(s: State, a: Action)
    requires Inv(s) && Next(s, a).Some?
    ensures Inv(Next(s, a).value)
  {
    if a.Publish? { InvKeptByPublish(s, a); }
    else if a.Reboot? { InvKeptByReboot(s); }
    else if a.Stage? || a.Discard? || a.Stop? { InvKeptByOthers(s, a); }
    else { InvKeptByOne(s, a); }
  }

  // ---- runs ----

  ghost predicate Legal(log: seq<Action>)
    decreases |log|, 0
  {
    log == [] || (Legal(log[..|log| - 1]) && Next(Run(log[..|log| - 1]), log[|log| - 1]).Some?)
  }

  ghost function Run(log: seq<Action>): State
    requires Legal(log)
    decreases |log|, 1
  {
    if log == [] then Initial() else Next(Run(log[..|log| - 1]), log[|log| - 1]).value
  }

  lemma {:induction false} RunKeepsInv(log: seq<Action>)
    requires Legal(log)
    ensures Inv(Run(log))
  {
    if log != [] {
      RunKeepsInv(log[..|log| - 1]);
      InvKept(Run(log[..|log| - 1]), log[|log| - 1]);
    }
  }

  /** At most one job is not terminal, and the system manager is asked to launch each job at most once, over every
      interleaving of submissions, crashes, lost acknowledgements and reboots. */
  lemma OneJobOneStart(log: seq<Action>)
    requires Legal(log)
    ensures var jobs := Run(log).jobs;
      forall i, j :: 0 <= i < j < |jobs| ==> jobs[i].id != jobs[j].id && (jobs[i].terminal || jobs[j].terminal)
    ensures Distinct(Run(log).starts)
  {
    RunKeepsInv(log);
  }

  lemma {:induction false} RetainedWithinCharges(jobs: seq<Job>)
    requires forall i :: 0 <= i < |jobs| ==> jobs[i].out + jobs[i].err <= LOG_CAP
    ensures Retained(jobs) <= Charges(jobs)
  {
    if jobs != [] {
      RetainedWithinCharges(jobs[..|jobs| - 1]);
    }
  }

  /** All retained output together never exceeds two gibibytes, nor one job's output its own limit. */
  lemma OutputIsBounded(log: seq<Action>)
    requires Legal(log)
    ensures Retained(Run(log).jobs) <= TOTAL_LOG_CAP && |Run(log).jobs| <= RECEIPT_CAP
    ensures forall i :: 0 <= i < |Run(log).jobs| ==> Run(log).jobs[i].out + Run(log).jobs[i].err <= LOG_CAP
  {
    RunKeepsInv(log);
    var s := Run(log);
    forall i | 0 <= i < |s.jobs| ensures s.jobs[i].out + s.jobs[i].err <= LOG_CAP {
      assert JobInv(s.jobs[i], s);
    }
    RetainedWithinCharges(s.jobs);
  }

  /** A terminal job has no process left, stays terminal, and its output no longer changes. */
  lemma TerminalIsFinal(log: seq<Action>, a: Action, i: nat)
    requires Legal(log) && Next(Run(log), a).Some? && i < |Run(log).jobs| && Run(log).jobs[i].terminal
    ensures var s, t := Run(log), Next(Run(log), a).value;
      && s.jobs[i].runner != Running && i < |t.jobs| && t.jobs[i].terminal && t.jobs[i].id == s.jobs[i].id
      && t.jobs[i].out == s.jobs[i].out && t.jobs[i].err == s.jobs[i].err
  {
    RunKeepsInv(log);
    assert JobInv(Run(log).jobs[i], Run(log));
  }

  // ---- runs as the methods see them ----

  ghost predicate IsRun(log: seq<Action>, s: State) {
    forall k {:trigger Show(k)} :: Show(k) ==> Legal(log) && Run(log) == s
  }

  lemma RunStep(log: seq<Action>, s: State, a: Action)
    requires IsRun(log, s) && Next(s, a).Some?
    ensures IsRun(log + [a], Next(s, a).value)
  {
    assert Show(0);
    assert (log + [a])[..|log|] == log;
  }

  lemma RunFacts(log: seq<Action>, s: State)
    requires IsRun(log, s)
    ensures Inv(s)
  {
    assert Show(0);
    RunKeepsInv(log);
  }
}
