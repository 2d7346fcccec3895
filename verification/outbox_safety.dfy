/** Agent replies are decided exactly once, over every run of the agent's tools, node and controller. */
module OutboxSafety {
  import opened Base
  import opened OutboxModel

  ghost predicate Legal(u: Setup, log: seq<Action>)
    decreases |log|, 0
  {
    log == [] || (Legal(u, log[..|log| - 1]) && Enabled(u, Run(u, log[..|log| - 1]), log[|log| - 1]))
  }

  ghost function Run(u: Setup, log: seq<Action>): State
    requires Legal(u, log)
    decreases |log|, 1
  {
    if log == [] then Initial() else Apply(u, Run(u, log[..|log| - 1]), log[|log| - 1])
  }

  lemma {:induction false} RunKeepsInv(u: Setup, log: seq<Action>)
    requires Legal(u, log)
    ensures Inv(u, Run(u, log))
  {
    if log != [] {
      RunKeepsInv(u, log[..|log| - 1]);
      InvKept(u, Run(u, log[..|log| - 1]), log[|log| - 1]);
    }
  }

  /** The agent's message is on the bus, once, and the node keeps a copy as sent. */
  ghost predicate StoredByHost(u: Setup, s: State, k: Key) {
    && k in s.submitted && k in Mine(s.bus, u.me) && Mine(s.bus, u.me)[k] == s.submitted[k] && k !in s.refused
    && k in s.node.sent && s.node.sent[k] == s.submitted[k] && k !in s.node.rejected
  }

  /** The controller refused it for good and never posted it; content and refusal are both retained on the node. */
  ghost predicate RefusedForGood(u: Setup, s: State, k: Key) {
    && k in s.submitted && k !in Mine(s.bus, u.me) && k in s.refused && k !in s.node.sent
    && k in s.node.rejected && s.node.rejected[k] == s.submitted[k]
    && k in s.node.refusals && s.node.refusals[k] == s.refused[k] && s.refused[k].digest == Sha256(s.submitted[k])
  }

  /** Whatever was ever queued is still pending with its content, or was decided one way and is kept as evidence. */
  lemma DecidedOnce(u: Setup, log: seq<Action>, k: Key)
    requires Legal(u, log) && k in Run(u, log).submitted
    ensures var s := Run(u, log);
      (k in s.node.outbox && s.node.outbox[k] == s.submitted[k]) || StoredByHost(u, s, k) || RefusedForGood(u, s, k)
    ensures var s := Run(u, log); !(k in Mine(s.bus, u.me) && k in s.refused)
  {
    RunKeepsInv(u, log);
  }

  /** Decisions are only ever added: a key once posted or refused stays so, with the same content. */
  lemma DecisionsStick(u: Setup, log: seq<Action>, a: Action, k: Key)
    requires Legal(u, log) && Enabled(u, Run(u, log), a)
    ensures var s, t := Run(u, log), Apply(u, Run(u, log), a);
      && (k in s.submitted ==> k in t.submitted && t.submitted[k] == s.submitted[k])
      && (k in Mine(s.bus, u.me) ==> k in Mine(t.bus, u.me) && Mine(t.bus, u.me)[k] == Mine(s.bus, u.me)[k])
      && (k in s.refused ==> k in t.refused && t.refused[k] == s.refused[k])
  {
    RunKeepsInv(u, log);
    if k in Mine(Run(u, log).bus, u.me) { PostedSticks(u, Run(u, log), a, k); }
    SubmittedSticks(u, Run(u, log), a, k);
  }

  lemma PostedSticks(u: Setup, s: State, a: Action, k: Key)
    requires Inv(u, s) && Enabled(u, s, a) && k in Mine(s.bus, u.me)
    ensures var t := Apply(u, s, a); k in Mine(t.bus, u.me) && Mine(t.bus, u.me)[k] == Mine(s.bus, u.me)[k]
  {
    if a.PostOther? {
      PostKeepsBusInv(s.bus, a.owner, a.key, a.content);
    } else if a.Store? {
      PostKeepsBusInv(s.bus, u.me, s.task.rest[0].key, s.task.rest[0].content);
    }
  }

  lemma SubmittedSticks(u: Setup, s: State, a: Action, k: Key)
    requires Inv(u, s) && Enabled(u, s, a)
    ensures var t := Apply(u, s, a); k in s.submitted ==> k in t.submitted && t.submitted[k] == s.submitted[k]
    ensures var t := Apply(u, s, a); k in s.refused ==> k in t.refused && t.refused[k] == s.refused[k]
  {
  }

  /** Nor does the node lose evidence: what it keeps as sent, rejected or refused never changes. */
  lemma EvidenceSticks(u: Setup, log: seq<Action>, a: Action, k: Key)
    requires Legal(u, log) && Enabled(u, Run(u, log), a)
    ensures var s, t := Run(u, log).node, Apply(u, Run(u, log), a).node;
      && (k in s.sent ==> k in t.sent && t.sent[k] == s.sent[k])
      && (k in s.rejected ==> k in t.rejected && t.rejected[k] == s.rejected[k])
      && (k in s.refusals ==> k in t.refusals && t.refusals[k] == s.refusals[k])
  {
    RunKeepsInv(u, log);
  }

  /** The refusals the code writes for mismatched content cannot occur: an acknowledged rejection names the content
      the node still holds, retained content never conflicts, and a retried key never carries other content. */
  lemma ContentNeverConflicts(u: Setup, log: seq<Action>)
    requires Legal(u, log)
    ensures var s := Run(u, log); forall ack :: Carried(s.wire, ack) && ack.Rejected? ==>
      ack.key in s.node.outbox.Keys + s.node.rejected.Keys
      && ack.refusal.digest == Sha256(if ack.key in s.node.outbox then s.node.outbox[ack.key] else s.node.rejected[ack.key])
    ensures var s := Run(u, log); s.node.outbox.Keys !! s.node.rejected.Keys
    ensures var s := Run(u, log); s.task.Collecting? ==>
      forall e :: e in s.task.rest && e.key in Mine(s.bus, u.me) ==> OnBus(Mine(s.bus, u.me), e)
  {
    RunKeepsInv(u, log);
    var s := Run(u, log);
    forall ack | Carried(s.wire, ack) && ack.Rejected?
      ensures ack.key in s.node.outbox.Keys + s.node.rejected.Keys
      ensures ack.refusal.digest == Sha256(if ack.key in s.node.outbox then s.node.outbox[ack.key] else s.node.rejected[ack.key])
    {
      var q :| q in s.wire && ack in q.acks;
      assert AckFits(Mine(s.bus, u.me), s.refused, ack);
    }
  }

  /** Cutting the acknowledgements of one exchange to eight drops none. */
  lemma AcknowledgementsFit(u: Setup, log: seq<Action>)
    requires Legal(u, log)
    ensures |Run(u, log).acks| <= BATCH
  {
    RunKeepsInv(u, log);
  }

  // ---- canonical order of the bus ----

  /** How many messages of the run a sender has. */
  function Sent(bus: seq<Row>, owner: nat): nat {
    if bus == [] then 0
    else Sent(bus[..|bus| - 1], owner) + (if bus[|bus| - 1].owner == owner then 1 else 0)
  }

  lemma {:induction false} LastSequenceCounts(bus: seq<Row>, owner: nat)
    requires BusInv(bus)
    ensures LastSequence(bus, owner) == Sent(bus, owner)
  {
    if bus != [] {
      var front := bus[..|bus| - 1];
      assert forall i :: 0 <= i < |front| ==> front[..i] == bus[..i];
      LastSequenceCounts(front, owner);
    }
  }

  lemma {:induction false} MineHolds(bus: seq<Row>, owner: nat, i: nat)
    requires BusInv(bus) && i < |bus| && bus[i].owner == owner
    ensures bus[i].key in Mine(bus, owner) && Mine(bus, owner)[bus[i].key] == bus[i].content
  {
    var front := bus[..|bus| - 1];
    assert forall j :: 0 <= j < |front| ==> front[..j] == bus[..j];
    if i < |front| {
      MineHolds(front, owner, i);
    }
  }

  /** A sender's n-th message carries sequence n, messages carry their place in the run, and no sender's key
      appears twice: a retried send never adds a message. */
  lemma BusIsCanonical(u: Setup, log: seq<Action>, i: nat)
    requires Legal(u, log) && i < |Run(u, log).bus|
    ensures var bus := Run(u, log).bus;
      bus[i].ordinal == i + 1 && bus[i].sequence == Sent(bus[..i], bus[i].owner) + 1
    ensures var bus := Run(u, log).bus;
      forall j :: 0 <= j < i ==> bus[j].owner != bus[i].owner || bus[j].key != bus[i].key
  {
    RunKeepsInv(u, log);
    var bus := Run(u, log).bus;
    assert forall k :: 0 <= k < i ==> bus[..i][..k] == bus[..k];
    LastSequenceCounts(bus[..i], bus[i].owner);
    forall j | 0 <= j < i ensures bus[j].owner != bus[i].owner || bus[j].key != bus[i].key {
      if bus[j].owner == bus[i].owner {
        MineHolds(bus[..i], bus[i].owner, j);
      }
    }
  }

  // ---- runs as the methods see them ----

  ghost predicate IsRun(u: Setup, log: seq<Action>, s: State) {
    forall k {:trigger Show(k)} :: Show(k) ==> Legal(u, log) && Run(u, log) == s
  }

  lemma RunStep(u: Setup, log: seq<Action>, s: State, a: Action)
    requires IsRun(u, log, s) && Next(u, s, a).Some?
    ensures IsRun(u, log + [a], Next(u, s, a).value)
  {
    assert Show(0);
    assert (log + [a])[..|log|] == log;
  }

  /** What the controller's methods use of a reachable state. */
  lemma CollectFacts(u: Setup, log: seq<Action>, s: State)
    requires IsRun(u, log, s)
    ensures s.task.Collecting? ==> DistinctKeys(s.task.rest)
    ensures s.task.Collecting? ==> forall e :: e in s.task.rest && e.key in Mine(s.bus, u.me) ==> OnBus(Mine(s.bus, u.me), e)
    ensures s.task.Collecting? ==> forall e :: e in s.task.rest ==> e.key !in s.refused
    ensures forall l :: l in s.listings ==> DistinctKeys(l.entries)
  {
    assert Show(0);
    RunKeepsInv(u, log);
    ContentNeverConflicts(u, log);
  }

  /** What the node's methods use of an acknowledgement they receive. */
  lemma AckFacts(u: Setup, log: seq<Action>, s: State, ack: Ack)
    requires IsRun(u, log, s) && Carried(s.wire, ack)
    ensures ack.Rejected? ==> ack.key in s.node.outbox.Keys + s.node.rejected.Keys
    ensures ack.Rejected? && ack.key in s.node.outbox ==> ack.refusal.digest == Sha256(s.node.outbox[ack.key])
    ensures ack.Rejected? && ack.key !in s.node.outbox ==> ack.refusal.digest == Sha256(s.node.rejected[ack.key])
    ensures ack.key in s.node.refusals ==> ack.Rejected? && s.node.refusals[ack.key] == ack.refusal
    ensures s.node.outbox.Keys !! s.node.rejected.Keys && s.node.rejected.Keys <= s.node.refusals.Keys
  {
    assert Show(0);
    RunKeepsInv(u, log);
    ContentNeverConflicts(u, log);
    var q :| q in s.wire && ack in q.acks;
    assert AckFits(Mine(s.bus, u.me), s.refused, ack);
  }

  /** What the agent's own tool uses. */
  lemma ToolFacts(u: Setup, log: seq<Action>, s: State, key: Key)
    requires IsRun(u, log, s)
    ensures s.node.outbox.Keys + s.node.sent.Keys + s.node.rejected.Keys == s.submitted.Keys
    ensures s.node.rejected.Keys <= s.node.refusals.Keys
    ensures key in s.node.outbox ==> s.node.outbox[key] == s.submitted[key]
    ensures key in s.node.sent ==> s.node.sent[key] == s.submitted[key]
    ensures key in s.node.rejected ==> s.node.rejected[key] == s.submitted[key]
  {
    assert Show(0);
    RunKeepsInv(u, log);
  }
}
