/** What holds over every run of controller, node and runtime adapter. */
module DeliverySafety {
  import opened Base
  import opened DeliveryModel

  ghost predicate Legal(direct: bool, log: seq<Action>)
    decreases |log|, 0
  {
    log == [] || (Legal(direct, log[..|log| - 1]) && Enabled(Run(direct, log[..|log| - 1]), log[|log| - 1]))
  }

  ghost function Run(direct: bool, log: seq<Action>): Lane
    requires Legal(direct, log)
    decreases |log|, 1
  {
    if log == [] then Initial(direct) else Apply(Run(direct, log[..|log| - 1]), log[|log| - 1])
  }

  lemma {:induction false} RunKeepsInv(direct: bool, log: seq<Action>)
    requires Legal(direct, log)
    ensures Inv(Run(direct, log))
  {
    if log != [] {
      RunKeepsInv(direct, log[..|log| - 1]);
      InvKept(Run(direct, log[..|log| - 1]), log[|log| - 1]);
    }
  }

  /** How often a log reserved one delivery for the runtime. */
  function Offers(log: seq<Action>, id: Id): nat {
    if log == [] then 0
    else Offers(log[..|log| - 1], id) + (if log[|log| - 1].ReserveNext? && log[|log| - 1].id == id then 1 else 0)
  }

  /** Receipts are never removed, and no step writes `node-stored` over an existing one. */
  lemma NodeStoredIsFirst(s: Lane, a: Action, id: Id)
    requires Enabled(s, a) && id in s.node.receipts
    ensures id in Apply(s, a).node.receipts
    ensures Apply(s, a).node.receipts[id].state == NodeStored ==> Apply(s, a).node.receipts[id] == s.node.receipts[id]
  {
  }

  lemma {:induction false} OfferedLooksOffered(direct: bool, log: seq<Action>, id: Id)
    requires Legal(direct, log) && Offers(log, id) > 0
    ensures id in Run(direct, log).node.receipts && Run(direct, log).node.receipts[id].state != NodeStored
  {
    var front := log[..|log| - 1];
    if Offers(front, id) > 0 {
      OfferedLooksOffered(direct, front, id);
      NodeStoredIsFirst(Run(direct, front), log[|log| - 1], id);
    }
  }

  /** Across lost replies, repeated and delayed exchanges, re-dispatch after "missing" and crashes at any write,
      each delivery is reserved for the runtime at most once, and `next` returns it at most once. */
  lemma {:induction false} OfferedAtMostOnce(direct: bool, log: seq<Action>, id: Id)
    requires Legal(direct, log)
    ensures Offers(log, id) <= 1
    ensures Distinct(Run(direct, log).handed)
  {
    RunKeepsInv(direct, log);
    if log != [] {
      var front := log[..|log| - 1];
      OfferedAtMostOnce(direct, front, id);
      if Offers(front, id) > 0 {
        OfferedLooksOffered(direct, front, id);
      }
    }
  }

  /** What is returned was reserved durably first: it is on the node as uncertain or later. */
  lemma ReturnedWasReserved(direct: bool, log: seq<Action>, id: Id)
    requires Legal(direct, log) && id in Run(direct, log).handed
    ensures id in Run(direct, log).node.receipts && Run(direct, log).node.receipts[id].state != NodeStored
    ensures id in Run(direct, log).letters
  {
    RunKeepsInv(direct, log);
  }

  /** A delivery the controller holds in any state learned from the node has its inbox item and receipt there. */
  lemma ControllerAndNodeAgree(direct: bool, log: seq<Action>, id: Id)
    requires Legal(direct, log) && id in Run(direct, log).host && NodeObserved(Run(direct, log).host[id])
    ensures var node := Run(direct, log).node;
      id in node.inbox && id in node.receipts && Matches(Run(direct, log).letters, node.inbox[id])
  {
    RunKeepsInv(direct, log);
  }

  /** The refusal "a previously confirmed node delivery is missing" cannot occur. */
  lemma MissingIsNeverRefused(direct: bool, log: seq<Action>)
    requires Legal(direct, log) && Enabled(Run(direct, log), ApplyReceipt)
    ensures var s := Run(direct, log); Applied(s.host[s.exchange.receipts[0].id], s.exchange.receipts[0].state).Some?
  {
    RunKeepsInv(direct, log);
    var s := Run(direct, log);
    assert s.exchange.receipts[0] in s.exchange.receipts;
  }

  /** A delivery whose exchange was lost, and which the node then reports as missing, is stored again on the controller,
      and the next exchange can dispatch it again with the same content. */
  lemma MissingIsSentAgain(direct: bool, log: seq<Action>, expires: int)
    requires Legal(direct, log) && Enabled(Run(direct, log), ApplyReceipt)
    requires var s := Run(direct, log);
      s.exchange.receipts[0].state == Missing && !Settled(s.host[s.exchange.receipts[0].id])
    ensures var s := Run(direct, log); var id := s.exchange.receipts[0].id;
      && s.host[id] == HostUncertain && id in s.letters
      && var t := Apply(s, ApplyReceipt).(exchange := Selecting([], []));
         t.host[id] == HostStored && Enabled(t, Mark(Item(id, s.letters[id].direct, s.letters[id].content, expires)))
  {
    RunKeepsInv(direct, log);
    var s := Run(direct, log);
    assert s.exchange.receipts[0] in s.exchange.receipts;
    assert AbsenceFits(s.host, s.exchange.receipts[0]);
  }

  /** The refusal "the delivery identity conflicts with saved content" cannot occur either. */
  lemma ContentNeverConflicts(direct: bool, log: seq<Action>, q: Request, item: Item)
    requires Legal(direct, log) && q in Run(direct, log).wire && item in q.items && item.id in Run(direct, log).node.inbox
    ensures var saved := Run(direct, log).node.inbox[item.id];
      saved.id == item.id && saved.direct == item.direct && saved.content == item.content
  {
    RunKeepsInv(direct, log);
    assert Matches(Run(direct, log).letters, item);
  }

  /** A settled controller state never changes, even while an exchange rewrites its selection unconditionally. */
  lemma SettledStays(s: Lane, a: Action, id: Id)
    requires Inv(s) && Enabled(s, a) && id in s.host && Settled(s.host[id])
    ensures id in Apply(s, a).host && Apply(s, a).host[id] == s.host[id]
  {
    if a.Confirm? {
      ConfirmIsUnsettled(s.host, s.exchange.confirm);
    } else if a.ApplyReceipt? {
      AppliedKeepsSettled(s.host, s.exchange.receipts[0]);
    } else {
      OtherStepsKeepSettled(s, a, id);
    }
  }

  lemma OtherStepsKeepSettled(s: Lane, a: Action, id: Id)
    requires Enabled(s, a) && id in s.host && Settled(s.host[id]) && !a.Confirm? && !a.ApplyReceipt?
    ensures id in Apply(s, a).host && Apply(s, a).host[id] == s.host[id]
  {
  }

  /** What is about to be confirmed is still uncertain. */
  lemma ConfirmIsUnsettled(host: map<Id, Status>, items: seq<Item>)
    requires Unconfirmed(host, items) && items != []
    ensures items[0].id in host && !Settled(host[items[0].id])
  {
    assert items[0] in items;
  }

  lemma AppliedKeepsSettled(host: map<Id, Status>, r: Reported)
    requires r.id in host
    ensures Settled(host[r.id]) ==> Applied(host[r.id], r.state) == Some(host[r.id])
  {
  }

  /** On the node only proof of inclusion or reading is final: the state of a settled receipt changes exactly when the
      inbox tool reads the item, or the runtime reports something else for a failed or cancelled one. */
  lemma NodeOutcomes(s: Lane, a: Action, id: Id)
    requires Enabled(s, a) && id in s.node.receipts && Settled(s.node.receipts[id].state)
    ensures s.node.receipts[id].state in {Included, ToolRead} ==> Apply(s, a).node.receipts[id].state in {Included, ToolRead}
    ensures Apply(s, a).node.receipts[id].state != s.node.receipts[id].state <==>
      || (a.AdapterReceipt? && a.id == id && s.node.receipts[id].state in {Failed, Cancelled} && a.state != s.node.receipts[id].state)
      || (a.Read? && a.id == id && s.node.receipts[id].state != ToolRead)
  {
  }

  /** A receipt written by one runtime session is not moved to another by the runtime. */
  lemma SessionKept(s: Lane, a: Action, id: Id)
    requires Enabled(s, a) && id in s.node.receipts && s.node.receipts[id].session.Some? && s.node.receipts[id].state != NodeStored
    ensures Apply(s, a).node.receipts[id].session in {None, s.node.receipts[id].session}
  {
  }

  // ---- a bus run: several agents' lanes, closed once everything in it is settled ----

  datatype BusRun = BusRun(open: bool, lanes: seq<Lane>)

  datatype RunAction =
    | Launch(direct: bool)
    | Act(lane: nat, action: Action)
    | Close

  ghost predicate AllSettled(lane: Lane) {
    forall id :: id in lane.host ==> Settled(lane.host[id])
  }

  /** New agents and new messages need an open run; closing needs every delivery settled. */
  ghost predicate RunEnabled(r: BusRun, a: RunAction) {
    match a
    case Launch(_) => r.open
    case Act(i, action) => i < |r.lanes| && Enabled(r.lanes[i], action) && (action.Send? ==> r.open)
    case Close => forall i :: 0 <= i < |r.lanes| ==> AllSettled(r.lanes[i])
  }

  ghost function RunApply(r: BusRun, a: RunAction): BusRun
    requires RunEnabled(r, a)
  {
    match a
    case Launch(direct) => r.(lanes := r.lanes + [Initial(direct)])
    case Act(i, action) => r.(lanes := r.lanes[i := Apply(r.lanes[i], action)])
    case Close => r.(open := false)
  }

  ghost predicate RunInv(r: BusRun) {
    && (forall i :: 0 <= i < |r.lanes| ==> Inv(r.lanes[i]))
    && (!r.open ==> forall i :: 0 <= i < |r.lanes| ==> AllSettled(r.lanes[i]))
  }

  lemma NothingUnsettles(s: Lane, a: Action)
    requires Inv(s) && Enabled(s, a) && AllSettled(s) && !a.Send?
    ensures AllSettled(Apply(s, a))
  {
    forall id | id in Apply(s, a).host ensures Settled(Apply(s, a).host[id]) {
      HostOnlyGrowsBySend(s, a, id);
      SettledStays(s, a, id);
    }
  }

  lemma HostOnlyGrowsBySend(s: Lane, a: Action, id: Id)
    requires Enabled(s, a) && !a.Send? && id in Apply(s, a).host
    ensures id in s.host
  {
  }

  /** Closing is final: in every reachable state a closed run has only settled deliveries. */
  lemma {:induction false} ClosedRunsStaySettled(actions: seq<RunAction>, states: seq<BusRun>)
    requires |states| == |actions| + 1 && states[0] == BusRun(true, [])
    requires forall i :: 0 <= i < |actions| ==> RunEnabled(states[i], actions[i]) && states[i + 1] == RunApply(states[i], actions[i])
    ensures RunInv(states[|actions|])
    ensures var r := states[|actions|]; !r.open ==>
      forall i, id :: 0 <= i < |r.lanes| && id in r.lanes[i].host ==> r.lanes[i].host[id] in {Included, ToolRead, Failed, Cancelled}
    decreases |actions|
  {
    if actions != [] {
      var n := |actions| - 1;
      ClosedRunsStaySettled(actions[..n], states[..n + 1]);
      RunInvKept(states[n], actions[n]);
    }
  }

  lemma RunInvKept(r: BusRun, a: RunAction)
    requires RunInv(r) && RunEnabled(r, a)
    ensures RunInv(RunApply(r, a))
  {
    if a.Act? {
      InvKept(r.lanes[a.lane], a.action);
      if !r.open {
        NothingUnsettles(r.lanes[a.lane], a.action);
      }
    }
  }

  // ---- runs as the methods see them ----

  /** Lane s is where the legal log leads; the recursive definitions stay out of proofs that do not mention Show. */
  ghost predicate IsRun(direct: bool, log: seq<Action>, s: Lane) {
    forall k {:trigger Show(k)} :: Show(k) ==> Legal(direct, log) && Run(direct, log) == s
  }

  lemma RunStep(direct: bool, log: seq<Action>, s: Lane, a: Action)
    requires IsRun(direct, log, s) && Next(s, a).Some?
    ensures IsRun(direct, log + [a], Next(s, a).value)
  {
    assert Show(0);
    assert (log + [a])[..|log|] == log;
  }

  lemma Take(direct: bool, log: seq<Action>, s: Lane, a: Action) returns (log': seq<Action>, s': Lane)
    requires IsRun(direct, log, s) && Next(s, a).Some?
    ensures IsRun(direct, log', s') && Next(s, a) == Some(s') && log' == log + [a]
  {
    RunStep(direct, log, s, a);
    log', s' := log + [a], Next(s, a).value;
  }

  lemma OpenOne(item: Item) returns (log: seq<Action>, s: Lane)
    ensures IsRun(true, log, s) && s == Initial(true).(letters := s.letters, host := s.host, exchange := Selecting([], []))
    ensures item.id in s.host && s.host[item.id] == HostStored && Matches(s.letters, item)
  {
    log, s := Take(true, [], Initial(true), Send(item.id, item.direct, item.content));
    log, s := Take(true, log, s, Open([]));
  }

  lemma SendOne(item: Item) returns (log: seq<Action>, s: Lane)
    ensures IsRun(true, log, s) && s.node == Initial(true).node
    ensures s.wire == {Request(0, [item], [])}
  {
    log, s := OpenOne(item);
    log, s := Take(true, log, s, Mark(item));
    assert s.exchange == Selecting([item], []) && s.counter == 0 && s.wire == {} && s.node == Initial(true).node;
    log, s := Take(true, log, s, Transmit);
  }

  lemma AdmitOne(item: Item) returns (log: seq<Action>, s: Lane)
    ensures IsRun(true, log, s) && !s.node.archived
    ensures s.node.inbox == map[item.id := item] && s.node.receipts == map[item.id := Receipt(NodeStored, None)]
  {
    log, s := SendOne(item);
    assert Request(0, [item], []) in s.wire && item in Request(0, [item], []).items;
    log, s := Take(true, log, s, AdmitItem(item));
    assert !s.node.archived && s.node.inbox == map[item.id := item] && s.node.receipts == map[];
    log, s := Take(true, log, s, AdmitReceipt(item.id));
  }

  lemma ExpireOne(id: Id) returns (log: seq<Action>, s: Lane)
    ensures IsRun(true, log, s) && !s.node.archived && s.node.runtime == Runtime(Ready, Some(0), Some(0), 0)
    ensures s.node.inbox == map[id := Item(id, true, 0, 0)] && s.node.receipts == map[id := Receipt(Cancelled, None)]
  {
    var item := Item(id, true, 0, 0);
    log, s := AdmitOne(item);
    log, s := Take(true, log, s, Bind(Runtime(Ready, Some(0), Some(0), 0)));
    assert !s.node.archived && s.node.inbox == map[id := item] && s.node.receipts == map[id := Receipt(NodeStored, None)];
    log, s := Take(true, log, s, ExpireNext(id, 0));
  }

  /** A delivery that expired is cancelled on the node, and the runtime's receipt for it then says otherwise. */
  lemma CancelledCanBeOverwritten(id: Id, state: Status) returns (log: seq<Action>)
    requires state in {Submitted, Included, Uncertain, Failed}
    ensures |log| > 0 && Legal(true, log) && Legal(true, log[..|log| - 1])
    ensures var s := Run(true, log[..|log| - 1]); id in s.node.receipts && s.node.receipts[id].state == Cancelled
    ensures var t := Run(true, log); id in t.node.receipts && t.node.receipts[id].state == state
  {
    var s;
    log, s := ExpireOne(id);
    var before := log;
    log, s := Take(true, log, s, AdapterReceipt(id, 0, state));
    assert log[..|log| - 1] == before;
    assert Show(0);
  }

  /** What the methods use of a reachable lane. */
  lemma RunFacts(direct: bool, log: seq<Action>, s: Lane)
    requires IsRun(direct, log, s)
    ensures s.host.Keys == s.letters.Keys && s.node.receipts.Keys <= s.node.inbox.Keys
    ensures forall id :: id in s.node.inbox ==> s.node.inbox[id].id == id && Matches(s.letters, s.node.inbox[id])
    ensures forall q, item :: q in s.wire && item in q.items ==> Matches(s.letters, item)
    ensures s.exchange.Applying? ==>
      (forall item :: item in s.exchange.confirm ==> item.id in s.host)
      && (forall r :: r in s.exchange.receipts ==> r.id in s.host && Applied(s.host[r.id], r.state).Some?)
  {
    assert Show(0);
    RunKeepsInv(direct, log);
  }

  lemma NumberIsNew(direct: bool, log: seq<Action>, s: Lane, q: Request)
    requires IsRun(direct, log, s) && q.number == s.counter
    ensures q !in s.wire
  {
    assert Show(0);
    RunKeepsInv(direct, log);
  }

  /** An item already in the inbox carries the same message as any request that names it. */
  lemma SavedMatches(direct: bool, log: seq<Action>, s: Lane, q: Request, item: Item)
    requires IsRun(direct, log, s) && q in s.wire && item in q.items && item.id in s.node.inbox
    ensures s.node.inbox[item.id].(expires := item.expires) == item
  {
    assert Show(0);
    ContentNeverConflicts(direct, log, q, item);
  }

  lemma WaitingFacts(direct: bool, log: seq<Action>, s: Lane, answer: Answer)
    requires IsRun(direct, log, s) && s.exchange.Waiting? && answer in s.answers && answer.number == s.exchange.request.number
    ensures Unconfirmed(s.host, s.exchange.request.items)
    ensures forall r :: r in answer.receipts ==> r.id in s.host
    ensures forall i, j :: 0 <= i < j < |answer.receipts| ==> answer.receipts[i].id != answer.receipts[j].id
    ensures forall r, item :: r in answer.receipts && item in s.exchange.request.items ==> r.id != item.id
  {
    assert Show(0);
    RunKeepsInv(direct, log);
    InvKeptByReceive(s, answer);
  }

  /** A delivery whose receipt still says `node-stored` was never handed to the runtime. */
  lemma NotHandedYet(direct: bool, log: seq<Action>, s: Lane, id: Id)
    requires IsRun(direct, log, s) && id in s.node.receipts && s.node.receipts[id].state == NodeStored
    ensures id !in s.handed
  {
    assert Show(0);
    RunKeepsInv(direct, log);
  }
}
