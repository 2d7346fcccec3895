/** The code behind one agent's replies: its tool and spool on the node, and the controller's collection. Every field
    is a durable file or table row except the exchange in progress; any method may stop at any durable write. */
module OutboxLane {
  import opened Base
  import opened OutboxModel
  import opened OutboxSafety

  const OUTBOX_CAP := 128
  const PERMANENT := {"invalid_message", "invalid_reply", "invalid_recipient", "invalid_recipients",
                      "direct_unsupported", "run_closed", "idempotency_conflict"}

  /** What sending on the bus came to: stored, or a failure code. */
  datatype Outcome = Posted | Failed(code: string) | Interrupted

  /** What else a send meets: a failure before the message is looked at (the saved grant, an enrolment, a storage failure),
      a check of the run, the recipients or the capacity that fails, or an audit entry that fails after the message was
      stored. */
  datatype Trouble = Calm | Before(code: string) | Check(code: string) | After(code: string)

  /** Whether it fails at once, with a code that may go away. */
  predicate Early(t: Trouble) { t.Before? && t.code !in PERMANENT }

  predicate Late(t: Trouble) { t.After? && t.code !in PERMANENT }

  /** What a send comes to when it is not interrupted: a reply already stored is recognised before anything that may
      have changed since is looked at. */
  predicate Comes(o: Outcome, valid: bool, known: bool, t: Trouble) {
    && (Early(t) ==> o == Failed(t.code))
    && (!Early(t) && !valid ==> o == Failed("invalid_message"))
    && (!Early(t) && valid && known ==> o == Posted)
    && (valid && !known && t.Check? ==> o == Failed(t.code))
    && (valid && !known && Late(t) ==> o == Failed(t.code))
    && (valid && !known && !Early(t) && !Late(t) && !t.Check? ==> o == Posted)
  }

  /** What the agent's tool is told about its key. */
  datatype ToolReply = NodeStored | HostStored | HostRejected(refusal: Refusal) | ToolRefused(why: string) | ToolStopped

  /** `disturbed` says that a method may stop at any of its writes. */
  class ReplyLane {
    const setup: Setup
    const disturbed: bool
    var bus: seq<Row>
    var acks: seq<Ack>
    var task: Task
    var counter: nat
    var outbox: map<Key, Bytes>
    var sent: map<Key, Bytes>
    var rejected: map<Key, Bytes>
    var refusals: map<Key, Refusal>
    ghost var wire: set<Request>
    ghost var listings: set<Listing>
    ghost var submitted: map<Key, Bytes>
    var refused: map<Key, Refusal>
    ghost var log: seq<Action>

    ghost function Files(): OutboxModel.Node
      reads this
    {
      OutboxModel.Node(outbox, sent, rejected, refusals)
    }

    ghost function Snapshot(): State
      reads this
    {
      State(bus, acks, task, counter, wire, listings, Files(), submitted, refused)
    }

    ghost predicate Valid()
      reads this
    {
      IsRun(setup, log, Snapshot())
    }

    constructor (setup: Setup, disturbed: bool)
      ensures Valid() && Snapshot() == Initial() && this.disturbed == disturbed
    {
      this.setup, this.disturbed := setup, disturbed;
      bus, acks, task, counter := [], [], Free, 0;
      outbox, sent, rejected, refusals := map[], map[], map[], map[];
      wire, listings, submitted, refused, log := {}, {}, map[], map[], [];
    }

    ghost method Note(a: Action, before: State)
      requires IsRun(setup, log, before) && Next(setup, before, a) == Some(Snapshot())
      modifies this`log
      ensures Valid() && log == old(log) + [a]
    {
      RunStep(setup, log, before, a);
      log := log + [a];
    }

    // ---- the agent's tool ----

    /** Queues a reply under its key. A repeated key with the same content answers where that reply now is;
        other content under a used key is refused, and nothing ever replaces a queued reply. */
    method Send(key: Key, content: Bytes) returns (r: ToolReply)
      requires Valid()
      modifies this`outbox, this`submitted, this`log
      ensures Valid() && old(log) <= log
      ensures r in {NodeStored, HostStored} || r.HostRejected? ==> key in submitted && submitted[key] == content
      ensures key in old(submitted) && old(submitted)[key] != content ==> r.ToolRefused?
      ensures r == HostStored <==> key !in rejected && key in sent && sent[key] == content
      ensures r.HostRejected? <==> key in rejected && rejected[key] == content
      ensures r.HostRejected? ==> key in refusals && r.refusal == refusals[key]
      ensures r == NodeStored ==> key in outbox && outbox[key] == content
      ensures r.ToolRefused? || key in old(submitted) ==> outbox == old(outbox) && submitted == old(submitted)
      ensures r.ToolRefused? <==>
        (if key in old(submitted) then old(submitted)[key] != content else |old(outbox)| >= OUTBOX_CAP)
      ensures key !in old(submitted) && !r.ToolRefused? ==> outbox == old(outbox)[key := content]
      ensures r == ToolStopped ==> disturbed && key !in old(submitted)
      ensures outbox != old(outbox) ==> outbox == old(outbox)[key := content] && |old(outbox)| < OUTBOX_CAP
    {
      ToolFacts(setup, log, Snapshot(), key);
      if key in rejected {
        if rejected[key] != content { return ToolRefused("different rejected content"); }
        return HostRejected(refusals[key]);
      }
      if key in sent {
        if sent[key] != content { return ToolRefused("different acknowledged content"); }
        return HostStored;
      }
      if key in outbox {
        if outbox[key] != content { return ToolRefused("different content"); }
        return NodeStored;
      }
      if |outbox| >= OUTBOX_CAP { return ToolRefused("The pending outbox is full."); }
      ghost var s := Snapshot();
      outbox := outbox[key := content];
      submitted := submitted[key := content];
      Note(Submit(key, content), s);
      if disturbed { if * { return ToolStopped; } }
      return NodeStored;
    }

    // ---- the node's side of an exchange ----

    /** Carries out one acknowledgement. Afterwards the entry is no longer pending; stopping at any write leaves
        the entry pending or its evidence complete, and repeating the acknowledgement changes nothing more. */
    method Acknowledge(ack: Ack) returns (r: Reply)
      requires Valid() && Carried(wire, ack)
      modifies this`outbox, this`sent, this`rejected, this`refusals, this`log
      ensures Valid() && old(log) <= log && r in {Done, Stopped} && (!disturbed ==> r == Done)
      ensures r == Done ==> OutboxModel.Settled(Files(), ack)
      ensures OnlyKey(ack.key, old(outbox), outbox) && outbox.Keys <= old(outbox.Keys)
      ensures old(rejected.Keys) <= rejected.Keys && old(refusals.Keys) <= refusals.Keys
      ensures old(OutboxModel.Settled(Files(), ack)) ==> Files() == old(Files())
      ensures ack.Accepted? ==> rejected == old(rejected) && refusals == old(refusals)
      ensures ack.Rejected? ==> sent == old(sent) && OnlyKey(ack.key, old(rejected), rejected)
      ensures ack.Accepted? && ack.key in old(outbox) && r == Done ==>
        ack.key in sent && sent[ack.key] == old(outbox)[ack.key]
      ensures ack.Rejected? && ack.key in old(outbox) && r == Done ==>
        ack.key in rejected && rejected[ack.key] == old(outbox)[ack.key]
    {
      if ack.Accepted? {
        r := AcknowledgeSent(ack.key);
      } else {
        r := AcknowledgeRejection(ack.key, ack.refusal);
      }
    }

    method AcknowledgeSent(key: Key) returns (r: Reply)
      requires Valid() && Carried(wire, Accepted(key))
      modifies this`outbox, this`sent, this`log
      ensures Valid() && old(log) <= log && r in {Done, Stopped} && (!disturbed ==> r == Done)
      ensures key !in old(outbox) ==> outbox == old(outbox) && sent == old(sent)
      ensures key in old(outbox) ==> sent in {old(sent), old(sent)[key := old(outbox)[key]]}
      ensures outbox in {old(outbox), old(outbox) - {key}}
      ensures r == Done ==> key !in outbox && (key in old(outbox) ==> key in sent && sent[key] == old(outbox)[key])
    {
      if key !in outbox { return Done; }
      ghost var s := Snapshot();
      sent := sent[key := outbox[key]];
      Note(WriteSent(key), s);
      if disturbed { if * { return Stopped; } }
      ghost var t := Snapshot();
      outbox := outbox - {key};
      Note(UnlinkSent(key), t);
      if disturbed { if * { return Stopped; } }
      return Done;
    }

    /** The digest comparison of the source always succeeds: see AckFacts. */
    method AcknowledgeRejection(key: Key, refusal: Refusal) returns (r: Reply)
      requires Valid() && Carried(wire, Rejected(key, refusal))
      modifies this`outbox, this`rejected, this`refusals, this`log
      ensures Valid() && old(log) <= log && r in {Done, Stopped} && (!disturbed ==> r == Done)
      ensures OutboxModel.Settled(old(Files()), Rejected(key, refusal)) ==> Files() == old(Files())
      ensures outbox in {old(outbox), old(outbox) - {key}} && old(refusals.Keys) <= refusals.Keys
      ensures key in old(outbox) ==> rejected in {old(rejected), old(rejected)[key := old(outbox)[key]]}
      ensures key !in old(outbox) ==> rejected == old(rejected)
      ensures r == Done ==> OutboxModel.Settled(Files(), Rejected(key, refusal)) && refusals[key] == refusal
      ensures r == Done && key in old(outbox) ==> rejected[key] == old(outbox)[key]
    {
      AckFacts(setup, log, Snapshot(), Rejected(key, refusal));
      if key !in refusals {
        r := KeepRefusal(key, refusal);
        if r != Done { return; }
      }
      if key in outbox {
        ghost var t := Snapshot();
        rejected, outbox := rejected[key := outbox[key]], outbox - {key};
        Note(Retain(key), t);
        if disturbed { if * { return Stopped; } }
      }
      return Done;
    }

    method KeepRefusal(key: Key, refusal: Refusal) returns (r: Reply)
      requires Valid() && Carried(wire, Rejected(key, refusal)) && key !in refusals && key in outbox.Keys + rejected.Keys
      modifies this`refusals, this`log
      ensures Valid() && old(log) <= log && r in {Done, Stopped} && (!disturbed ==> r == Done) && refusals == old(refusals)[key := refusal]
    {
      ghost var s := Snapshot();
      refusals := refusals[key := refusal];
      Note(WriteRefusal(key, refusal), s);
      if disturbed { if * { return Stopped; } }
      return Done;
    }

    /** Carries out every acknowledgement of the request, then lists what is still pending. */
    method NodeExchange(q: Request) returns (r: Reply, listing: Listing)
      requires Valid() && q in wire
      modifies this`outbox, this`sent, this`rejected, this`refusals, this`listings, this`log
      ensures Valid() && old(log) <= log && r in {Done, Stopped} && (!disturbed ==> r == Done) && old(listings) <= listings
      ensures r == Done ==> forall ack :: ack in q.acks ==> OutboxModel.Settled(Files(), ack)
      ensures r == Done ==> listing.number == q.number && Lists(outbox, listing.entries) && listing in listings
      ensures r == Done ==> FirstKeys(outbox, listing.entries)
      ensures OthersPending(q, old(outbox), outbox)
    {
      listing := Listing(q.number, []);
      for i := 0 to |q.acks|
        invariant Valid() && old(log) <= log && old(listings) <= listings
        invariant forall k :: 0 <= k < i ==> OutboxModel.Settled(Files(), q.acks[k])
        invariant OthersPending(q, old(outbox), outbox)
      {
        ghost var earlier := Files();
        r := Acknowledge(q.acks[i]);
        StillPending(q, q.acks[i], old(outbox), earlier.outbox, outbox);
        if r != Done { return; }
        forall k | 0 <= k < i ensures OutboxModel.Settled(Files(), q.acks[k]) {
          StaysSettled(earlier, q.acks[i], Files(), q.acks[k]);
        }
      }
      var entries := Pending();
      listing := Listing(q.number, entries);
      ghost var s := Snapshot();
      listings := listings + {listing};
      Note(Respond(q, entries), s);
      return Done, listing;
    }

    /** The first eight pending entries in name order. */
    method Pending() returns (entries: seq<Entry>)
      ensures Lists(outbox, entries) && FirstKeys(outbox, entries)
    {
      var keys := Smallest(outbox.Keys, BATCH);
      SmallestFirst(outbox.Keys, BATCH);
      var files := outbox;
      entries := seq(|keys|, i requires 0 <= i < |keys| => Entry(keys[i], files[keys[i]]));
      assert forall i :: 0 <= i < |keys| ==> entries[i] == Entry(keys[i], outbox[keys[i]]);
      forall i, k | 0 <= i < |entries| && k in outbox && k < entries[i].key ensures Listed(entries, k) {
        var j :| 0 <= j < |keys| && keys[j] == k;
        assert entries[j].key == k;
      }
      assert |outbox| == |outbox.Keys|;
    }

    // ---- the controller's side ----

    /** Posts a message of another sender in the run. */
    method PostForOther(owner: nat, key: Key, content: Bytes, trouble: Option<string>) returns (r: Outcome)
      requires Valid() && owner != setup.me
      modifies this`bus, this`log
      ensures Valid() && old(log) <= log && old(bus) <= bus
      ensures r == Posted ==> key in Mine(bus, owner) && Mine(bus, owner)[key] == content
      ensures r == Posted && key in old(Mine(bus, owner)) ==> bus == old(bus)
      ensures r.Failed? <==>
        (if key in old(Mine(bus, owner)) then old(Mine(bus, owner))[key] != content else trouble.Some?)
      ensures r.Failed? ==> bus == old(bus) && r.code == if key in old(Mine(bus, owner)) then "idempotency_conflict" else trouble.value
      ensures r == Interrupted ==> disturbed
      ensures bus != old(bus) ==> bus == old(bus) + [NewRow(old(bus), owner, key, content)]
    {
      var mine := Mine(bus, owner);
      if key in mine {
        if mine[key] != content { return Failed("idempotency_conflict"); }
        return Posted;
      }
      if trouble.Some? { return Failed(trouble.value); }
      ghost var s := Snapshot();
      bus := bus + [NewRow(bus, owner, key, content)];
      Note(PostOther(owner, key, content), s);
      assert bus[..|bus| - 1] == old(bus);
      if disturbed { if * { return Interrupted; } }
      return Posted;
    }

    /** Checks and stores one reply of this agent. */
    method Post(e: Entry, rest: seq<Entry>, made: seq<Ack>, t: Trouble) returns (r: Outcome)
      requires Valid() && task == Collecting([e] + rest, made)
      modifies this`bus, this`log
      ensures Valid() && old(log) <= log && (r == Interrupted ==> disturbed)
      ensures r != Interrupted ==> Comes(r, setup.valid(e.content), e.key in old(Mine(bus, setup.me)), t)
      ensures r == Posted ==> OnBus(Mine(bus, setup.me), e)
      ensures r.Failed? && r.code in PERMANENT ==> (setup.valid(e.content) ==> e.key !in Mine(bus, setup.me)) && bus == old(bus)
      ensures e.key in old(Mine(bus, setup.me)) ==> bus == old(bus)
      ensures bus in {old(bus), old(bus) + [NewRow(old(bus), setup.me, e.key, e.content)]}
    {
      CollectFacts(setup, log, Snapshot());
      if t.Before? && t.code !in PERMANENT { return Failed(t.code); }
      if !setup.valid(e.content) { return Failed("invalid_message"); }
      var mine := Mine(bus, setup.me);
      if e.key in mine {
        assert ([e] + rest)[0] in [e] + rest;
        return Posted;
      }
      if t.Check? { return Failed(t.code); }
      ghost var s := Snapshot();
      bus := bus + [NewRow(bus, setup.me, e.key, e.content)];
      assert ([e] + rest)[0] == e;
      Note(Store, s);
      assert bus[..|bus| - 1] == old(bus);
      if t.After? && t.code !in PERMANENT { return Failed(t.code); }
      if disturbed { if * { return Interrupted; } }
      return Posted;
    }

    /** Decides one listed reply and saves the decision with its acknowledgement. */
    method Decide(e: Entry, rest: seq<Entry>, made: seq<Ack>, t: Trouble) returns (r: Reply, more: seq<Ack>, ghost outcome: Outcome)
      requires Valid() && task == Collecting([e] + rest, made)
      modifies this`bus, this`acks, this`task, this`refused, this`log
      ensures Valid() && old(log) <= log && r in {Done, Stopped} && (!disturbed ==> r == Done)
      ensures old(Mine(bus, setup.me)).Keys <= Mine(bus, setup.me).Keys
      ensures r == Done ==> task == Collecting(rest, more)
      ensures r == Done ==> outcome != Interrupted && Comes(outcome, setup.valid(e.content), e.key in old(Mine(bus, setup.me)), t)
      ensures r == Done && outcome == Posted ==> more == made + [Accepted(e.key)] && OnBus(Mine(bus, setup.me), e)
      ensures r == Done && outcome.Failed? && outcome.code in PERMANENT ==>
        more == made + [Rejected(e.key, Refusal(outcome.code, Sha256(e.content)))]
      ensures r == Done && outcome.Failed? && outcome.code !in PERMANENT ==> more == made
      ensures r == Done && more != made ==> acks == more
    {
      var o := Post(e, rest, made, t);
      outcome := o;
      if o == Interrupted { return Stopped, made, outcome; }
      if o == Posted {
        more := Accepts(e, rest, made);
      } else if o.code in PERMANENT {
        more := Reject(e, rest, made, o.code);
      } else {
        more := made;
        Pass(e, rest, made);
      }
      if disturbed { if * { return Stopped, more, outcome; } }
      return Done, more, outcome;
    }

    method Pass(e: Entry, rest: seq<Entry>, made: seq<Ack>)
      requires Valid() && task == Collecting([e] + rest, made)
      modifies this`task, this`log
      ensures Valid() && old(log) <= log && task == Collecting(rest, made)
    {
      ghost var s := Snapshot();
      task := Collecting(rest, made);
      assert ([e] + rest)[1..] == rest;
      Note(Skip, s);
    }

    method Accepts(e: Entry, rest: seq<Entry>, made: seq<Ack>) returns (more: seq<Ack>)
      requires Valid() && task == Collecting([e] + rest, made) && OnBus(Mine(bus, setup.me), e)
      modifies this`acks, this`task, this`log
      ensures Valid() && old(log) <= log && more == made + [Accepted(e.key)] && acks == more && task == Collecting(rest, more)
    {
      ghost var s := Snapshot();
      more := made + [Accepted(e.key)];
      acks, task := more, Collecting(rest, more);
      assert ([e] + rest)[0] == e && ([e] + rest)[1..] == rest;
      Note(Accept, s);
    }

    method Reject(e: Entry, rest: seq<Entry>, made: seq<Ack>, code: string) returns (more: seq<Ack>)
      requires Valid() && task == Collecting([e] + rest, made)
      requires setup.valid(e.content) ==> e.key !in Mine(bus, setup.me)
      modifies this`acks, this`task, this`refused, this`log
      ensures Valid() && old(log) <= log
      ensures more == made + [Rejected(e.key, Refusal(code, Sha256(e.content)))] && acks == more && task == Collecting(rest, more)
      ensures e.key !in old(refused) && refused == old(refused)[e.key := Refusal(code, Sha256(e.content))]
    {
      assert ([e] + rest)[0] == e && ([e] + rest)[1..] == rest && e in [e] + rest;
      CollectFacts(setup, log, Snapshot());
      ghost var s := Snapshot();
      var refusal := Refusal(code, Sha256(e.content));
      more := made + [Rejected(e.key, refusal)];
      refused := refused[e.key := refusal];
      acks, task := more, Collecting(rest, more);
      Note(Refuse(code), s);
    }

    /** Goes through a listing entry by entry: what was posted is acknowledged, what is refused for good is acknowledged
        as rejected, and what may still go through is left for the next exchange. The agent record keeps exactly that. */
    method CollectAll(listing: Listing, troubles: seq<Trouble>) returns (r: Reply, ghost outcomes: seq<Outcome>)
      requires Valid() && task.Waiting? && listing in listings && listing.number == task.request.number
      requires |troubles| == |listing.entries|
      modifies this`bus, this`acks, this`task, this`refused, this`log
      ensures Valid() && old(log) <= log && r in {Done, Stopped} && task == Free && (!disturbed ==> r == Done)
      ensures r == Done ==> |outcomes| == |listing.entries| && AllAnswer(acks, listing.entries)
      ensures r == Done ==> forall i :: 0 <= i < |outcomes| ==> Answered(acks, listing.entries[i], outcomes[i])
      ensures r == Done ==> forall i :: 0 <= i < |outcomes| ==>
        Came(outcomes[i], listing.entries[i], troubles[i], old(Mine(bus, setup.me)))
    {
      var entries := listing.entries;
      CollectFacts(setup, log, Snapshot());
      ghost var s := Snapshot();
      task := Collecting(entries, []);
      Note(Collect(listing), s);
      var made: seq<Ack>;
      r, made, outcomes := DecideAll(entries, troubles);
      if r != Done {
        GiveUp();
      } else {
        r := SaveAgent(made);
      }
    }

    method SaveAgent(made: seq<Ack>) returns (r: Reply)
      requires Valid() && task == Collecting([], made)
      modifies this`acks, this`task, this`log
      ensures Valid() && old(log) <= log && r in {Done, Stopped} && acks == made && task == Free && (!disturbed ==> r == Done)
    {
      ghost var s := Snapshot();
      acks, task := made, Free;
      Note(Finish, s);
      if disturbed { if * { return Stopped; } }
      return Done;
    }

    /** The outcome of one listed entry, as far as it follows from what was on the bus when the collection began. */
    predicate Came(o: Outcome, e: Entry, t: Trouble, before: map<Key, Bytes>) {
      var valid := setup.valid(e.content);
      && (e.key in before ==> Comes(o, valid, true, t))
      && (e.key !in before ==> Comes(o, valid, true, t) || Comes(o, valid, false, t))
      && (t.Calm? ==> o == if valid then Posted else Failed("invalid_message"))
    }

    method DecideAll(entries: seq<Entry>, troubles: seq<Trouble>) returns (r: Reply, made: seq<Ack>, ghost outcomes: seq<Outcome>)
      requires Valid() && task == Collecting(entries, []) && |troubles| == |entries| && DistinctKeys(entries)
      modifies this`bus, this`acks, this`task, this`refused, this`log
      ensures Valid() && old(log) <= log && r in {Done, Stopped} && (!disturbed ==> r == Done)
      ensures r == Done ==> task == Collecting([], made) && |outcomes| == |entries| && AllAnswer(made, entries)
      ensures r == Done ==> forall i :: 0 <= i < |entries| ==> Answered(made, entries[i], outcomes[i])
      ensures r == Done ==> forall i :: 0 <= i < |entries| ==> Came(outcomes[i], entries[i], troubles[i], old(Mine(bus, setup.me)))
    {
      made, outcomes := [], [];
      for i := 0 to |entries|
        invariant Valid() && old(log) <= log && task == Collecting(entries[i..], made) && |outcomes| == i
        invariant old(Mine(bus, setup.me)).Keys <= Mine(bus, setup.me).Keys
        invariant AnsweredUpTo(made, entries, outcomes, i)
        invariant forall k :: 0 <= k < i ==> Came(outcomes[k], entries[k], troubles[k], old(Mine(bus, setup.me)))
      {
        assert entries[i..] == [entries[i]] + entries[i + 1..];
        var more;
        ghost var o;
        r, more, o := Decide(entries[i], entries[i + 1..], made, troubles[i]);
        if r != Done { return; }
        AnsweredOneMore(made, more, entries, outcomes, i, o);
        made, outcomes := more, outcomes + [o];
      }
      assert entries[|entries|..] == [];
      return Done, made, outcomes;
    }

    /** A failed exchange: the poller saves the agent record as the failed collection left it, or nothing at all. */
    method GiveUp()
      requires Valid()
      modifies this`acks, this`task, this`log
      ensures Valid() && old(log) <= log && task == Free
    {
      ghost var s := Snapshot();
      if * {
        acks := if task.Collecting? then task.made else acks;
        task := Free;
        Note(Abandon(true), s);
      } else {
        task := Free;
        Note(Abandon(false), s);
      }
    }

    /** Sends the saved acknowledgements with the next exchange. */
    method Begin() returns (q: Request)
      requires Valid() && task == Free
      modifies this`task, this`counter, this`wire, this`log
      ensures Valid() && old(log) <= log && task == Waiting(q) && q in wire && q.acks == acks && old(wire) <= wire
    {
      q := Request(counter, acks);
      ghost var s := Snapshot();
      wire, counter, task := wire + {q}, counter + 1, Waiting(q);
      Note(Dispatch, s);
    }
  }

  /** Every acknowledgement concerns an entry of the listing. */
  ghost predicate AllAnswer(made: seq<Ack>, entries: seq<Entry>) {
    forall a :: a in made ==> exists i :: 0 <= i < |entries| && entries[i].key == a.key
  }

  /** A posted entry is acknowledged, one refused for good is rejected with its code and digest, any other is left. */
  predicate Answered(made: seq<Ack>, e: Entry, o: Outcome) {
    match o
    case Posted => Accepted(e.key) in made
    case Failed(code) =>
      if code in PERMANENT then Rejected(e.key, Refusal(code, Sha256(e.content))) in made else forall a :: a in made ==> a.key != e.key
    case Interrupted => false
  }

  /** The first i entries are answered, and nothing else is. */
  ghost predicate AnsweredUpTo(made: seq<Ack>, entries: seq<Entry>, outcomes: seq<Outcome>, i: nat) {
    && i == |outcomes| <= |entries|
    && (forall a :: a in made ==> exists k :: 0 <= k < i && entries[k].key == a.key)
    && (forall k :: 0 <= k < i ==> Answered(made, entries[k], outcomes[k]))
  }

  lemma AnsweredOneMore(made: seq<Ack>, more: seq<Ack>, entries: seq<Entry>, outcomes: seq<Outcome>, i: nat, o: Outcome)
    requires i < |entries| && DistinctKeys(entries) && AnsweredUpTo(made, entries, outcomes, i) && o != Interrupted
    requires o == Posted ==> more == made + [Accepted(entries[i].key)]
    requires o.Failed? && o.code in PERMANENT ==> more == made + [Rejected(entries[i].key, Refusal(o.code, Sha256(entries[i].content)))]
    requires o.Failed? && o.code !in PERMANENT ==> more == made
    ensures AnsweredUpTo(more, entries, outcomes + [o], i + 1) && AllAnswer(more, entries)
  {
    forall k | 0 <= k < i ensures Answered(more, entries[k], outcomes[k]) {
      assert Answered(made, entries[k], outcomes[k]) && entries[k].key != entries[i].key;
    }
    assert forall a :: a in made ==> a in more;
  }

  /** Two maps agree everywhere but at one key. */
  ghost predicate OnlyKey(key: Key, before: map<Key, Bytes>, after: map<Key, Bytes>) {
    before - {key} == after - {key}
  }

  /** Nothing leaves the outbox, or changes in it, but what is acknowledged. */
  ghost predicate OthersPending(q: Request, before: map<Key, Bytes>, after: map<Key, Bytes>) {
    after.Keys <= before.Keys
    && forall k :: k in before && (forall a :: a in q.acks ==> a.key != k) ==> k in after && after[k] == before[k]
  }

  lemma StillPending(q: Request, ack: Ack, start: map<Key, Bytes>, before: map<Key, Bytes>, after: map<Key, Bytes>)
    requires ack in q.acks && OthersPending(q, start, before) && OnlyKey(ack.key, before, after) && after.Keys <= before.Keys
    ensures OthersPending(q, start, after)
  {
    forall k | k in before && k != ack.key ensures k in after && after[k] == before[k] {
      assert k in before - {ack.key} && k in after - {ack.key};
      assert (before - {ack.key})[k] == before[k] && (after - {ack.key})[k] == after[k];
    }
  }

  predicate Listed(entries: seq<Entry>, key: Key) {
    exists i :: 0 <= i < |entries| && entries[i].key == key
  }

  /** Entries are listed in name order, and nothing smaller is left out. */
  predicate FirstKeys(outbox: map<Key, Bytes>, entries: seq<Entry>) {
    && (forall i, j :: 0 <= i < j < |entries| ==> entries[i].key < entries[j].key)
    && (forall i, k :: 0 <= i < |entries| && k in outbox && k < entries[i].key ==> Listed(entries, k))
  }

  /** Carrying out one acknowledgement does not undo another. */
  lemma StaysSettled(before: OutboxModel.Node, ack: Ack, after: OutboxModel.Node, other: Ack)
    requires OutboxModel.Settled(before, other)
    requires after.outbox.Keys <= before.outbox.Keys
    requires before.rejected.Keys <= after.rejected.Keys && before.refusals.Keys <= after.refusals.Keys
    ensures OutboxModel.Settled(after, other)
  {
  }
}
