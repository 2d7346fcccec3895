/** Draining a job's two output pipes into files with one shared limit. */
module JobCapture {
  import opened Base

  /** One read from a pipe; an empty one is its end. */
  datatype Read = Read(stdout: bool, chunk: Bytes)

  /** One turn of the loop: whether the leader has exited, whether its service would then settle, whether a stop was
      requested, the clock, and what the ready pipes gave. */
  datatype Round = Round(exited: bool, settles: bool, interrupted: bool, now: int, got: seq<Read>)

  datatype Reason = Exit | Signal | RuntimeLimit

  /** Everything one stream produced, in order. */
  function Output(got: seq<Read>, stdout: bool): Bytes {
    if got == [] then []
    else
      var r := got[|got| - 1];
      Output(got[..|got| - 1], stdout) + (if r.stdout == stdout then r.chunk else [])
  }

  function Total(got: seq<Read>): nat {
    |Output(got, true)| + |Output(got, false)|
  }

  /** One stream's bytes among the first `capacity` bytes read, in order of arrival. */
  function KeptOf(got: seq<Read>, capacity: nat, stdout: bool): Bytes {
    if got == [] then []
    else
      var front, r := got[..|got| - 1], got[|got| - 1];
      KeptOf(front, capacity, stdout)
      + (if r.stdout == stdout then r.chunk[..Min(|r.chunk|, Max(0, capacity - Total(front)))] else [])
  }

  datatype Captured = Captured(out: Bytes, err: Bytes, dropped: nat)

  predicate Holds(c: Captured, got: seq<Read>, capacity: nat) {
    && c.out == KeptOf(got, capacity, true) && c.err == KeptOf(got, capacity, false)
    && |c.out| + |c.err| == Min(capacity, Total(got)) && c.dropped == Total(got) - |c.out| - |c.err|
  }

  /** Each stream's file holds a prefix of that stream's output, and all of it when nothing was dropped. */
  lemma {:induction false} KeptIsPrefix(got: seq<Read>, capacity: nat, stdout: bool)
    ensures KeptOf(got, capacity, stdout) <= Output(got, stdout)
    ensures Total(got) <= capacity ==> KeptOf(got, capacity, stdout) == Output(got, stdout)
    ensures |KeptOf(got, capacity, true)| + |KeptOf(got, capacity, false)| == Min(capacity, Total(got))
  {
    if got != [] {
      var front, r := got[..|got| - 1], got[|got| - 1];
      KeptIsPrefix(front, capacity, stdout);
      KeptIsPrefix(front, capacity, !stdout);
      if capacity <= Total(front) {
        assert KeptOf(got, capacity, stdout) == KeptOf(front, capacity, stdout) + [];
      }
    }
  }

  /** The files record exactly the first `capacity` bytes: the kept bytes and the dropped count add up to
      everything that was read, and each file is a prefix of its stream. */
  lemma CaptureIsFaithful(c: Captured, got: seq<Read>, capacity: nat)
    requires Holds(c, got, capacity)
    ensures c.out <= Output(got, true) && c.err <= Output(got, false)
    ensures |c.out| + |c.err| + c.dropped == Total(got) && |c.out| + |c.err| <= capacity
    ensures c.dropped == 0 <==> (c.out == Output(got, true) && c.err == Output(got, false))
    ensures c.dropped > 0 ==> |c.out| + |c.err| == capacity
  {
    KeptIsPrefix(got, capacity, true);
    KeptIsPrefix(got, capacity, false);
  }

  method Keep(c: Captured, r: Read, capacity: nat, ghost before: seq<Read>) returns (d: Captured)
    requires Holds(c, before, capacity)
    ensures Holds(d, before + [r], capacity)
  {
    assert (before + [r])[..|before|] == before;
    var available := Max(0, capacity - (|c.out| + |c.err|));
    var kept := r.chunk[..Min(|r.chunk|, available)];
    KeptIsPrefix(before + [r], capacity, true);
    KeptIsPrefix(before + [r], capacity, false);
    if r.stdout {
      d := Captured(c.out + kept, c.err, c.dropped + |r.chunk| - |kept|);
    } else {
      d := Captured(c.out, c.err + kept, c.dropped + |r.chunk| - |kept|);
    }
  }

  /** A job that still runs has been asked to stop, or has run too long. */
  predicate StopsAt(rounds: seq<Round>, deadline: int, i: int) {
    0 <= i < |rounds| && !rounds[i].exited && (rounds[i].interrupted || rounds[i].now >= deadline)
  }

  predicate FirstStop(rounds: seq<Round>, deadline: int, i: int) {
    StopsAt(rounds, deadline, i) && forall k :: 0 <= k < i ==> !StopsAt(rounds, deadline, k)
  }

  /** The process group is killed in this turn: its leader has exited, or was asked to stop eight seconds ago. */
  predicate KillsAt(rounds: seq<Round>, deadline: int, k: int) {
    0 <= k < |rounds|
    && (rounds[k].exited || exists i :: 0 <= i < k && FirstStop(rounds, deadline, i) && rounds[k].now >= rounds[i].now + 8)
  }

  /** The turn in which the leader is first seen to have exited. */
  predicate FirstExit(rounds: seq<Round>, i: int) {
    0 <= i < |rounds| && rounds[i].exited && forall k :: 0 <= k < i ==> !rounds[k].exited
  }

  function AllReads(rounds: seq<Round>): seq<Read> {
    if rounds == [] then [] else AllReads(rounds[..|rounds| - 1]) + rounds[|rounds| - 1].got
  }

  /** What the loop keeps besides the output: why the job was stopped, when to kill it, and what was done. */
  datatype Watch = Watch(reason: Reason, stopAt: Option<int>, killed: bool, settled: bool)

  predicate StopSeen(w: Watch, rounds: seq<Round>, deadline: int, n: nat) {
    && (w.stopAt.None? <==> w.reason == Exit)
    && (w.stopAt.None? ==> forall i :: 0 <= i < n <= |rounds| ==> !StopsAt(rounds, deadline, i))
    && (w.stopAt.Some? ==> exists i :: 0 <= i < n && FirstStop(rounds, deadline, i))
    && (forall i :: 0 <= i < n && FirstStop(rounds, deadline, i) ==>
          w.stopAt == Some(rounds[i].now + 8) && w.reason == (if rounds[i].interrupted then Signal else RuntimeLimit))
  }

  predicate ExitSeen(w: Watch, rounds: seq<Round>, n: nat) {
    && (w.settled <==> exists i :: 0 <= i < n <= |rounds| && rounds[i].exited)
    && forall i :: 0 <= i < n && FirstExit(rounds, i) ==> rounds[i].settles
  }

  lemma OneFirstStop(rounds: seq<Round>, deadline: int, i: int, j: int)
    requires FirstStop(rounds, deadline, i) && FirstStop(rounds, deadline, j)
    ensures i == j
  {
    assert StopsAt(rounds, deadline, i) && StopsAt(rounds, deadline, j);
  }

  /** One look at the leader and the clock. */
  method Look(w: Watch, rounds: seq<Round>, deadline: int, n: nat) returns (d: Watch)
    requires n < |rounds| && StopSeen(w, rounds, deadline, n)
    ensures StopSeen(d, rounds, deadline, n + 1) && d.settled == w.settled
    ensures d.killed <==> w.killed || KillsAt(rounds, deadline, n)
  {
    d := w;
    if rounds[n].exited {
      d := d.(killed := true);
    } else if w.stopAt.None? {
      if rounds[n].interrupted || rounds[n].now >= deadline {
        d := d.(reason := if rounds[n].interrupted then Signal else RuntimeLimit, stopAt := Some(rounds[n].now + 8));
        assert FirstStop(rounds, deadline, n);
      }
    } else {
      ghost var i :| 0 <= i < n && FirstStop(rounds, deadline, i);
      forall j | FirstStop(rounds, deadline, j) ensures j == i { OneFirstStop(rounds, deadline, i, j); }
      if rounds[n].now >= w.stopAt.value { d := d.(killed := true); }
    }
  }

  /** Once the leader has exited its service must settle; `stays` says that it did not. */
  method LeaderExit(w: Watch, rounds: seq<Round>, deadline: int, n: nat) returns (d: Watch, stays: bool)
    requires n < |rounds| && StopSeen(w, rounds, deadline, n + 1) && ExitSeen(w, rounds, n)
    ensures StopSeen(d, rounds, deadline, n + 1) && d.killed == w.killed && d.reason == w.reason
    ensures if stays then FirstExit(rounds, n) && !rounds[n].settles else ExitSeen(d, rounds, n + 1)
  {
    d, stays := w, false;
    if rounds[n].exited && !w.settled {
      assert FirstExit(rounds, n);
      d := d.(settled := rounds[n].settles);
      stays := !rounds[n].settles;
    }
  }

  /** Drains the pipes over the given turns. The reason names the first turn at which a still running job was asked
      to stop; a job that is asked to stop gets eight seconds before it is killed. `turns` is how many turns were taken
      when the service of an exited job did not settle, and all of them otherwise. */
  method Capture(rounds: seq<Round>, capacity: nat, deadline: int)
    returns (c: Captured, reason: Reason, killed: bool, turns: nat)
    ensures turns <= |rounds|
    ensures turns < |rounds| ==> FirstExit(rounds, turns) && !rounds[turns].settles
    ensures turns == |rounds| ==> forall i :: FirstExit(rounds, i) ==> rounds[i].settles
    ensures Holds(c, AllReads(rounds[..turns]), capacity)
    ensures reason == Exit <==> forall i :: 0 <= i < turns ==> !FirstStop(rounds, deadline, i)
    ensures forall i :: 0 <= i < turns && FirstStop(rounds, deadline, i) ==>
      reason == (if rounds[i].interrupted then Signal else RuntimeLimit)
    ensures killed <==> exists k :: k <= turns && KillsAt(rounds, deadline, k)
  {
    var w := Watch(Exit, None, false, false);
    turns := 0;
    c := NothingYet(rounds, capacity);
    while turns < |rounds|
      invariant turns <= |rounds| && HoldsAfter(c, rounds, turns, capacity)
      invariant StopSeen(w, rounds, deadline, turns) && ExitSeen(w, rounds, turns)
      invariant w.killed <==> exists k :: k < turns && KillsAt(rounds, deadline, k)
    {
      w := Look(w, rounds, deadline, turns);
      var stays;
      w, stays := LeaderExit(w, rounds, deadline, turns);
      if stays { break; }
      c := DrainTurn(c, rounds, turns, capacity);
      turns := turns + 1;
    }
    reason, killed := w.reason, w.killed;
    HeldAfter(c, rounds, turns, capacity);
  }

  /** What was captured in the first turns; the output stays out of proofs that do not mention Show. */
  ghost predicate HoldsAfter(c: Captured, rounds: seq<Round>, n: nat, capacity: nat) {
    forall k {:trigger Show(k)} :: Show(k) ==> n <= |rounds| && Holds(c, AllReads(rounds[..n]), capacity)
  }

  lemma HeldAfter(c: Captured, rounds: seq<Round>, n: nat, capacity: nat)
    requires HoldsAfter(c, rounds, n, capacity) && n <= |rounds|
    ensures Holds(c, AllReads(rounds[..n]), capacity)
  {
    assert Show(0);
  }

  method NothingYet(rounds: seq<Round>, capacity: nat) returns (c: Captured)
    ensures HoldsAfter(c, rounds, 0, capacity)
  {
    c := Captured([], [], 0);
    assert rounds[..0] == [];
  }

  method DrainTurn(c: Captured, rounds: seq<Round>, n: nat, capacity: nat) returns (d: Captured)
    requires n < |rounds| && HoldsAfter(c, rounds, n, capacity)
    ensures HoldsAfter(d, rounds, n + 1, capacity)
  {
    assert Show(0);
    assert rounds[..n + 1][..n] == rounds[..n];
    d := Drain(c, rounds[n].got, capacity, AllReads(rounds[..n]));
  }

  method Drain(c: Captured, got: seq<Read>, capacity: nat, ghost before: seq<Read>) returns (d: Captured)
    requires Holds(c, before, capacity)
    ensures Holds(d, before + got, capacity)
  {
    d := c;
    assert before + got[..0] == before;
    for i := 0 to |got|
      invariant Holds(d, before + got[..i], capacity)
    {
      d := Keep(d, got[i], capacity, before + got[..i]);
      assert before + got[..i] + [got[i]] == before + got[..i + 1];
    }
    assert got[..|got|] == got;
  }
}
