/** What holds of audit delivery over every run: crashes, failed checkpoint writes, lost acknowledgements. */
module AuditSafety {
  import opened Base
  import opened AuditPages
  import opened AuditModel

  ghost predicate Legal(log: seq<Action>)
    decreases |log|, 0
  {
    log == [] || (Legal(log[..|log| - 1]) && Enabled(Run(log[..|log| - 1]), log[|log| - 1]))
  }

  ghost function Run(log: seq<Action>): State
    requires Legal(log)
    decreases |log|, 1
  {
    if log == [] then Initial() else Apply(Run(log[..|log| - 1]), log[|log| - 1])
  }

  lemma {:induction false} RunKeepsInv(log: seq<Action>)
    requires Legal(log)
    ensures Inv(Run(log))
  {
    if log != [] {
      RunKeepsInv(log[..|log| - 1]);
      InvKept(Run(log[..|log| - 1]), log[|log| - 1]);
    }
  }

  /** Two appends under one sequence number carry the same batch, whatever crashed or failed in between. */
  lemma SameSequenceSameBatch(log: seq<Action>, one: Batch, other: Batch)
    requires Legal(log) && one in Run(log).appended && other in Run(log).appended && one.sequence == other.sequence
    ensures one == other
  {
    RunKeepsInv(log);
    OneBatchPerSequence(Run(log), one, other);
  }

  lemma OneBatchPerSequence(s: State, one: Batch, other: Batch)
    requires Inv(s) && one in s.appended && other in s.appended && one.sequence == other.sequence
    ensures one == other
  {
  }

  /** Acknowledged batches are well formed, carry consecutive numbers, and each starts where the one before ended. */
  lemma BatchesFollowEachOther(log: seq<Action>, i: nat)
    requires Legal(log) && i < |Run(log).chain|
    ensures var chain := Run(log).chain;
      && WellFormed(chain[i]) && |chain[i].events| <= BATCH_EVENTS && chain[i].sequence == i + 1
      && chain[i].after == (if i == 0 then 0 else chain[i - 1].through)
  {
    RunKeepsInv(log);
    assert Acceptable(Run(log).chain[i]);
    assert Show(0);
  }

  function RowTotal(chain: seq<Batch>, n: nat): nat
    requires n <= |chain|
  {
    if n == 0 then 0 else RowTotal(chain, n - 1) + RowCount(chain[n - 1].events)
  }

  lemma OneBatchCounts(b: Batch)
    requires Acceptable(b)
    ensures b.through == b.after + RowCount(b.events) + GapCount(b.events)
  {
    assert Show(0);
    if Tiles(b.events, b.after, b.through) {
      TilesCount(b.events, b.after, b.through);
    } else {
      assert b.events[..0] == [] && b.events[..|b.events| - 1] == [];
    }
  }

  lemma {:induction false} ChainCounts(chain: seq<Batch>, n: nat)
    requires ChainInv(chain) && n <= |chain|
    ensures Cursor(chain, n) == RowTotal(chain, n) + GapTotal(chain, n)
  {
    if n > 0 {
      ChainCounts(chain, n - 1);
      OneBatchCounts(chain[n - 1]);
    }
  }

  /** The cursor, saved and running, is exactly the rows delivered plus the rows reported lost, and never passes what was
      seen. */
  lemma CursorIsAccountedFor(log: seq<Action>)
    requires Legal(log)
    ensures var s := Run(log);
      && s.disk.sequence <= |s.chain| && s.disk.cursor == RowTotal(s.chain, s.disk.sequence) + s.disk.gaps
      && s.disk.lastSeen >= s.disk.cursor
    ensures var s := Run(log); s.process.Up? ==>
      s.process.value.sequence <= |s.chain|
      && s.process.value.cursor == RowTotal(s.chain, s.process.value.sequence) + s.process.value.gaps
      && s.process.value.lastSeen >= s.process.value.cursor
  {
    RunKeepsInv(log);
    var s := Run(log);
    ChainCounts(s.chain, s.disk.sequence);
    if s.process.Up? {
      ChainCounts(s.chain, s.process.value.sequence);
    }
  }

  ghost predicate Told(chain: seq<Batch>, n: int, i: int, id: nat) {
    0 <= n < |chain| && 0 <= i < |chain[n].events| && Mentions(chain[n].events[i], id)
  }

  lemma OneBatchAdvances(b: Batch)
    requires Acceptable(b)
    ensures b.after <= b.through
  {
    assert Show(0);
  }

  lemma OneBatchMentions(b: Batch, id: nat)
    requires Acceptable(b)
    ensures b.after < id <= b.through ==> exists i :: 0 <= i < |b.events| && Mentions(b.events[i], id)
    ensures forall i, j :: 0 <= i < j < |b.events| ==> !(Mentions(b.events[i], id) && Mentions(b.events[j], id))
    ensures forall i :: 0 <= i < |b.events| && Mentions(b.events[i], id) ==> b.after < id <= b.through
  {
    assert Show(0);
    if Tiles(b.events, b.after, b.through) {
      TilesMentionsOnce(b.events, b.after, b.through, id);
    }
  }

  lemma {:induction false} SomeBatchTells(chain: seq<Batch>, n: nat, id: nat)
    requires ChainInv(chain) && n <= |chain| && 0 < id <= Cursor(chain, n)
    ensures exists m, i :: m < n && Told(chain, m, i, id)
  {
    if chain[n - 1].after < id {
      OneBatchMentions(chain[n - 1], id);
      var i :| 0 <= i < |chain[n - 1].events| && Mentions(chain[n - 1].events[i], id);
      assert Told(chain, n - 1, i, id);
    } else {
      SomeBatchTells(chain, n - 1, id);
      var m, i :| m < n - 1 && Told(chain, m, i, id);
      assert Told(chain, m, i, id);
    }
  }

  lemma {:induction false} CursorsAscend(chain: seq<Batch>, n: nat, m: nat)
    requires ChainInv(chain) && n <= m <= |chain|
    ensures Cursor(chain, n) <= Cursor(chain, m)
    decreases m
  {
    if n < m {
      CursorsAscend(chain, n, m - 1);
      OneBatchAdvances(chain[m - 1]);
    }
  }

  /** History is told once: every identity up to the saved cursor is an event or part of a reported gap in exactly
      one entry of exactly one acknowledged batch. */
  lemma HistoryIsToldOnce(log: seq<Action>, id: nat)
    requires Legal(log) && 0 < id <= Run(log).disk.cursor
    ensures exists n, i :: Told(Run(log).chain, n, i, id)
    ensures forall n, i, m, j :: Told(Run(log).chain, n, i, id) && Told(Run(log).chain, m, j, id) ==> n == m && i == j
  {
    RunKeepsInv(log);
    var chain := Run(log).chain;
    SomeBatchTells(chain, Run(log).disk.sequence, id);
    forall n, i, m, j | Told(chain, n, i, id) && Told(chain, m, j, id) ensures n == m && i == j {
      ToldOnce(chain, n, i, m, j, id);
    }
  }

  lemma ToldOnce(chain: seq<Batch>, n: int, i: int, m: int, j: int, id: nat)
    requires ChainInv(chain) && Told(chain, n, i, id) && Told(chain, m, j, id)
    ensures n == m && i == j
  {
    OneBatchMentions(chain[n], id);
    OneBatchMentions(chain[m], id);
    if n < m {
      CursorsAscend(chain, n + 1, m);
    } else if m < n {
      CursorsAscend(chain, m + 1, n);
    }
  }

  /** What the poller demands of a checkpoint before it starts from it; it refuses to start otherwise. */
  predicate Readable(c: Checkpoint) {
    && c.sequence < LIMIT && c.cursor < LIMIT && c.lastSeen < LIMIT && c.gaps < LIMIT && c.lastSeen >= c.cursor
    && (c.pending.Some? ==>
          WellFormed(c.pending.value) && c.pending.value.sequence < LIMIT
          && c.pending.value.sequence == c.sequence + 1 && c.pending.value.after == c.cursor)
  }

  /** Whatever a crash leaves is a checkpoint the poller accepts, until its 63-bit batch counter runs out. */
  lemma SavedCheckpointIsReadable(log: seq<Action>)
    requires Legal(log)
    ensures var c := Run(log).disk;
      Readable(c) <==> (if c.pending.Some? then c.sequence + 1 else c.sequence) < LIMIT
  {
    RunKeepsInv(log);
    CursorIsAccountedFor(log);
    assert Show(0);
  }

  /** A request let through is an intent inside a batch that was acknowledged, and the checkpoint that says so is
      saved: no crash can make the poller forget it. */
  lemma ReleasedIsDurable(log: seq<Action>, request: nat)
    requires Legal(log) && request in Run(log).released
    ensures var s := Run(log); exists n :: 0 <= n < s.disk.sequence <= |s.chain| && Intent(request) in s.chain[n].events
  {
    RunKeepsInv(log);
    var s := Run(log);
    var n :| 0 <= n < s.disk.sequence && Intent(request) in s.chain[n].events;
  }

  /** The saved checkpoint never moves back, and acknowledged batches never change. */
  lemma NothingIsUndone(log: seq<Action>, a: Action)
    requires Legal(log) && Enabled(Run(log), a)
    ensures var s, t := Run(log), Apply(Run(log), a);
      s.chain <= t.chain && s.disk.sequence <= t.disk.sequence && s.released <= t.released && s.appended <= t.appended
  {
    RunKeepsInv(log);
    StepUndoesNothing(Run(log), a);
  }

  lemma StepUndoesNothing(s: State, a: Action)
    requires Inv(s) && Enabled(s, a)
    ensures var t := Apply(s, a);
      s.chain <= t.chain && s.disk.sequence <= t.disk.sequence && s.released <= t.released && s.appended <= t.appended
  {
  }

  /** Nobody waits in vain: over every run a request whose waiter has not given up is queued, or its intent is in the
      batch being delivered. */
  lemma WaitersAreServed(log: seq<Action>, request: nat)
    requires Legal(log) && Run(log).process.Up? && request in Run(log).process.waiting
    ensures var p := Run(log).process;
      request in p.queue
      || (p.phase in {Built, Sending} && p.value.pending.Some? && Intent(request) in p.value.pending.value.events)
      || (p.phase == Acked && Run(log).chain != [] && Intent(request) in Run(log).chain[|Run(log).chain| - 1].events)
  {
    RunKeepsInv(log);
  }

  // ---- runs as the methods see them ----

  ghost predicate IsRun(log: seq<Action>, s: State) {
    forall k {:trigger Show(k)} :: Show(k) ==> Legal(log) && Run(log) == s
  }

  lemma RunStep(log: seq<Action>, s: State, a: Action)
    requires IsRun(log, s) && Next(s, a).Some?
    ensures IsRun(log + [a], Next(s, a).value)
  {
    assert Show(0);
    assert (log + [a])[..|log|] == log;
  }

  /** What the poller's methods use of a reachable state. */
  lemma ProcessFacts(log: seq<Action>, s: State)
    requires IsRun(log, s)
    ensures s.process.Up? ==>
      && s.process.value.lastSeen >= s.process.value.cursor
      && (s.process.phase == Top ==> s.process.active.None?)
      && (s.process.phase in {Built, Sending} ==> s.process.value.pending.Some?)
      && (s.process.phase == Acked ==> s.process.value.pending.None?)
      && NobodyStranded(s.process)
  {
    assert Show(0);
    RunKeepsInv(log);
  }

  lemma ReleasedFacts(log: seq<Action>, s: State, request: nat)
    requires IsRun(log, s) && request in s.released
    ensures exists n :: 0 <= n < s.disk.sequence <= |s.chain| && Intent(request) in s.chain[n].events
  {
    assert Show(0);
    ReleasedIsDurable(log, request);
  }
}
