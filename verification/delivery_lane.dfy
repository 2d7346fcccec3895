/** Controller and node code for one agent's exchanges. Every field is a durable file or table row except the
    exchange in progress; any method may stop at any durable write. */
module DeliveryLane {
  import opened Base
  import opened DeliveryModel
  import opened DeliverySafety

  const BATCH := 8
  const INBOX_CAP := 256

  /** `disturbed` says that a method may stop at any of its writes. */
  class AgentLane {
    const direct: bool
    const disturbed: bool
    // controller tables
    var order: seq<Id>  // deliveries in row order
    var letters: map<Id, Letter>
    var host: map<Id, Status>
    var exchange: Exchange
    var counter: nat
    // node spool
    var archived: bool
    var inbox: map<Id, Item>
    var receipts: map<Id, Receipt>
    var runtime: Runtime
    // the network, and what was handed to the runtime
    ghost var wire: set<Request>
    ghost var answers: set<Answer>
    ghost var holding: Option<Id>
    ghost var handed: seq<Id>
    ghost var log: seq<Action>

    ghost function Snapshot(): Lane
      reads this
    {
      Lane(letters, host, exchange, counter, wire, answers, Node(archived, direct, inbox, receipts, runtime), holding, handed)
    }

    ghost predicate Valid()
      reads this
    {
      && IsRun(direct, log, Snapshot())
      && Distinct(order) && (forall id :: id in order <==> id in letters)
    }

    constructor (direct: bool, disturbed: bool)
      ensures Valid() && Snapshot() == Initial(direct) && order == [] && this.disturbed == disturbed
    {
      this.direct, this.disturbed := direct, disturbed;
      order, letters, host, exchange, counter := [], map[], map[], Free, 0;
      archived, inbox, receipts, runtime := false, map[], map[], Runtime(Starting, None, None, 0);
      wire, answers, holding, handed, log := {}, {}, None, [], [];
    }

    ghost method Note(a: Action, before: Lane)
      requires IsRun(direct, log, before) && Next(before, a) == Some(Snapshot())
      modifies this`log
      ensures IsRun(direct, log, Snapshot()) && log == old(log) + [a]
    {
      RunStep(direct, log, before, a);
      log := log + [a];
    }

    /** The exchange fails, times out, or the controller stops: nothing durable changes. */
    method Drop()
      requires Valid()
      modifies this`exchange, this`log
      ensures Valid() && old(log) <= log && exchange == Free
    {
      ghost var s := Snapshot();
      exchange := Free;
      Note(Abandon, s);
    }

    /** Deliveries whose node outcome is still to be asked about, in row order. */
    function Pending(ids: seq<Id>): (r: seq<Id>)
      requires forall id :: id in ids ==> id in host
      reads this
      ensures forall id :: id in r <==> id in ids && host[id] != HostStored && !Settled(host[id])
      ensures forall id :: id in r <==> id in ids && host[id] !in {HostStored, Included, ToolRead, Failed, Cancelled}
      ensures Distinct(ids) ==> Distinct(r)
    {
      if ids == [] then []
      else
        var rest := Pending(ids[..|ids| - 1]);
        var id := ids[|ids| - 1];
        if host[id] != HostStored && !Settled(host[id]) then rest + [id] else rest
    }

    /** Chooses the first eight stored deliveries, in row order, whose credential is still granted; one met on the way
        whose credential is gone is cancelled instead. The first `scanned` rows were looked at. */
    method Select(granted: set<Id>) returns (r: Reply, chosen: seq<Id>, ghost scanned: nat)
      requires Valid() && exchange == Free
      modifies this`host, this`log
      ensures Valid() && old(log) <= log && r in {Done, Stopped} && (!disturbed ==> r == Done) && host.Keys == old(host.Keys)
      ensures |chosen| <= BATCH && scanned <= |order| && (r == Done && |chosen| < BATCH ==> scanned == |order|)
      ensures Chosen(order, scanned, old(host), host, chosen, granted)
    {
      chosen, scanned := [], 0;
      RunFacts(direct, log, Snapshot());
      NoneChosen(order, host, granted);
      var i := 0;
      r := Done;
      while i < |order| && |chosen| < BATCH
        invariant 0 <= i == scanned <= |order| && |chosen| <= BATCH && Valid() && old(log) <= log && r == Done
        invariant host.Keys == letters.Keys && ChosenSoFar(order, i, old(host), host, chosen, granted)
        decreases |order| - i
      {
        var id := order[i];
        assert id in order;
        ghost var before, few := host, chosen;
        NotChosenYet(order, i, old(host), host, chosen, granted);
        r, chosen := Choose(id, chosen, granted);
        ChosenOneMore(order, i, old(host), before, host, few, chosen, granted);
        i, scanned := i + 1, i + 1;
        if r != Done { break; }
      }
      ChosenInAll(order, i, old(host), host, chosen, granted);
      return r, chosen, scanned;
    }

    method Choose(id: Id, chosen: seq<Id>, granted: set<Id>) returns (r: Reply, more: seq<Id>)
      requires Valid() && exchange == Free && id in host && id !in chosen
      modifies this`host, this`log
      ensures Valid() && old(log) <= log && r in {Done, Stopped} && (!disturbed ==> r == Done)
      ensures host == if old(host)[id] == HostStored && id !in granted then old(host)[id := Cancelled] else old(host)
      ensures more == if old(host)[id] == HostStored && id in granted then chosen + [id] else chosen
    {
      more := chosen;
      if host[id] != HostStored { return Done, chosen; }
      if id !in granted {
        r := RevokeOne(id);
      } else {
        return Done, chosen + [id];
      }
    }

    method RevokeOne(id: Id) returns (r: Reply)
      requires Valid() && exchange == Free && id in host && host[id] == HostStored
      modifies this`host, this`log
      ensures Valid() && old(log) <= log && r in {Done, Stopped} && (!disturbed ==> r == Done) && host == old(host)[id := Cancelled]
    {
      ghost var s := Snapshot();
      host := host[id := Cancelled];
      Note(Revoke(id), s);
      if disturbed { if * { return Stopped; } }
      return Done;
    }

    /** Controller: saves `host-uncertain` for every chosen delivery, then dispatches the exchange. */
    method Begin(cursor: nat, granted: set<Id>) returns (r: Reply, q: Request)
      requires Valid() && exchange == Free
      modifies this
      ensures Valid() && old(log) <= log && r in {Done, Stopped} && (!disturbed ==> r == Done)
      ensures host.Keys == old(host.Keys) && order == old(order) && receipts == old(receipts) && handed == old(handed)
      ensures forall id :: id in host ==> host[id] == old(host[id]) || OnlyMarked(old(host[id]), host[id])
      ensures r == Done ==> exchange == Waiting(q) && q in wire && q !in old(wire)
      ensures r == Done ==> |q.items| <= BATCH && |q.asked| <= BATCH
      ensures r == Done ==> forall item :: item in q.items ==>
        item.id in host && old(host[item.id]) == HostStored && host[item.id] == HostUncertain
      ensures r == Done ==> forall id :: id in q.asked ==>
        id in host && old(host[id]) != HostStored && !Settled(old(host[id]))
      ensures r == Done && |q.items| < BATCH ==> forall id :: id in host ==> host[id] != HostStored
      ensures forall id :: id in host && old(host[id]) != Cancelled && host[id] == Cancelled ==> id !in granted
      ensures r == Done ==> forall item :: item in q.items ==> item.id in granted
      ensures forall id :: id in order ==> id in old(host)
      ensures r == Done ==> q.asked == Asked(old(Pending(order)), cursor)
    {
      q := Request(counter, [], []);
      var chosen, asked;
      r, chosen, asked := Prepare(cursor, granted);
      if r != Done { return; }
      var items;
      r, items := MarkAll(chosen, asked);
      if r != Done { return; }
      r, q := Dispatch(items, asked);
    }

    /** Chooses what to send and what to ask about; both stay within one batch. */
    method Prepare(cursor: nat, granted: set<Id>) returns (r: Reply, chosen: seq<Id>, asked: seq<Id>)
      requires Valid() && exchange == Free
      modifies this`host, this`exchange, this`log
      ensures Valid() && old(log) <= log && r in {Done, Stopped} && (!disturbed ==> r == Done) && host.Keys == old(host.Keys)
      ensures OnlyRevoked(old(host), host, granted)
      ensures |chosen| <= BATCH && Distinct(chosen) && |asked| <= BATCH
      ensures forall id :: id in chosen ==> id in host && host[id] == HostStored && id in granted
      ensures forall id :: id in order ==> id in old(host)
      ensures asked == Asked(old(Pending(order)), cursor)
      ensures forall id :: id in asked ==> id in host && old(host[id]) != HostStored && !Settled(old(host[id]))
      ensures r == Done ==> exchange == Selecting([], asked)
      ensures r == Done && |chosen| < BATCH ==> forall id :: id in host && host[id] == HostStored ==> id in chosen
    {
      RunFacts(direct, log, Snapshot());
      asked := Asked(Pending(order), cursor);
      ghost var scanned;
      r, chosen, scanned := Select(granted);
      if r != Done { return; }
      if |chosen| < BATCH { AllChosen(order, old(host), host, chosen, granted); }
      ghost var s := Snapshot();
      exchange := Selecting([], asked);
      Note(Open(asked), s);
    }

    method MarkAll(chosen: seq<Id>, asked: seq<Id>) returns (r: Reply, items: seq<Item>)
      requires Valid() && exchange == Selecting([], asked) && |chosen| <= BATCH && Distinct(chosen)
      requires forall id :: id in chosen ==> id in host && host[id] == HostStored
      modifies this`host, this`exchange, this`log
      ensures Valid() && old(log) <= log && r in {Done, Stopped} && (!disturbed ==> r == Done) && host.Keys == old(host.Keys)
      ensures forall id :: id in host ==> host[id] == old(host[id]) || (id in chosen && host[id] == HostUncertain)
      ensures r == Done ==> exchange == Selecting(items, asked) && |items| == |chosen|
      ensures r == Done ==> forall item :: item in items ==> item.id in chosen
      ensures r == Done ==> forall id :: id in chosen ==> host[id] == HostUncertain
    {
      items := [];
      for i := 0 to |chosen|
        invariant Valid() && old(log) <= log && exchange == Selecting(items, asked) && |items| == i
        invariant host.Keys == old(host.Keys)
        invariant forall id :: id in host ==> host[id] == old(host[id]) || (id in chosen && host[id] == HostUncertain)
        invariant forall k :: i <= k < |chosen| ==> host[chosen[k]] == HostStored
        invariant forall k :: 0 <= k < i ==> host[chosen[k]] == HostUncertain
        invariant forall item :: item in items ==> item.id in chosen
      {
        var item;
        r, item := MarkOne(items, asked, chosen[i]);
        if r != Done { return; }
        items := items + [item];
      }
      return Done, items;
    }

    method MarkOne(items: seq<Item>, asked: seq<Id>, id: Id) returns (r: Reply, item: Item)
      requires Valid() && exchange == Selecting(items, asked) && |items| < BATCH && id in host && host[id] == HostStored
      modifies this`host, this`exchange, this`log
      ensures Valid() && old(log) <= log && r in {Done, Stopped} && (!disturbed ==> r == Done) && host == old(host)[id := HostUncertain]
      ensures item.id == id && Matches(letters, item) && exchange == Selecting(items + [item], asked)
    {
      RunFacts(direct, log, Snapshot());
      var expires: int := *;
      item := Item(id, letters[id].direct, letters[id].content, expires);
      ghost var s := Snapshot();
      host := host[id := HostUncertain];
      exchange := Selecting(items + [item], asked);
      Note(Mark(item), s);
      if disturbed { if * { return Stopped, item; } }
      return Done, item;
    }

    method Dispatch(items: seq<Item>, asked: seq<Id>) returns (r: Reply, q: Request)
      requires Valid() && exchange == Selecting(items, asked)
      modifies this`exchange, this`counter, this`wire, this`log
      ensures Valid() && old(log) <= log && r in {Done, Stopped} && (!disturbed ==> r == Done) && old(wire) <= wire
      ensures r == Done ==> q == Request(old(counter), items, asked) && exchange == Waiting(q) && q in wire && q !in old(wire)
    {
      q := Request(counter, items, asked);
      NumberIsNew(direct, log, Snapshot(), q);
      ghost var s := Snapshot();
      wire := wire + {q};
      counter := counter + 1;
      exchange := Waiting(q);
      Note(Transmit, s);
      if disturbed { if * { return Stopped, q; } }
      return Done, q;
    }

    /** Node: admits each item once, then answers for every asked identity. */
    method NodeExchange(q: Request) returns (r: Reply, answer: Answer)
      requires Valid() && q in wire
      modifies this`inbox, this`receipts, this`answers, this`log
      ensures Valid() && old(log) <= log && OnlyAdded(old(receipts), receipts) && OnlyAdmitted(old(inbox), inbox, q)
      ensures r == Done ==> answer in answers && Answers(answer, q, receipts)
      ensures r == Done ==> forall item :: item in q.items ==> item.id in inbox && item.id in receipts
      ensures r == Done ==> forall id :: id in q.asked && id in inbox ==> id in receipts
      ensures !disturbed ==> r != Stopped
      ensures archived ==> r == Refused("archived")
      ensures r.Refused? ==> (r.code == "archived" && archived) || (r.code == "inbox_full" && |inbox| >= INBOX_CAP)
    {
      answer := Answer(q.number, []);
      if archived { return Refused("archived"), answer; }
      r := AdmitAll(q);
      if r != Done { return; }
      r, answer := AnswerFor(q);
    }

    method AdmitAll(q: Request) returns (r: Reply)
      requires Valid() && q in wire && !archived
      modifies this`inbox, this`receipts, this`log
      ensures Valid() && old(log) <= log && OnlyAdded(old(receipts), receipts) && OnlyAdmitted(old(inbox), inbox, q)
      ensures r == Done ==> forall item :: item in q.items ==> item.id in inbox && item.id in receipts
      ensures !disturbed ==> r != Stopped
      ensures r.Refused? ==> r.code == "inbox_full" && |inbox| >= INBOX_CAP
    {
      for i := 0 to |q.items|
        invariant Valid() && old(log) <= log && OnlyAdded(old(receipts), receipts) && OnlyAdmitted(old(inbox), inbox, q)
        invariant forall k :: 0 <= k < i ==> q.items[k].id in inbox && q.items[k].id in receipts
      {
        r := AdmitOne(q, q.items[i]);
        if r != Done { return; }
      }
      return Done;
    }

    method AdmitOne(q: Request, item: Item) returns (r: Reply)
      requires Valid() && q in wire && item in q.items && !archived
      modifies this`inbox, this`receipts, this`log
      ensures Valid() && old(log) <= log && OnlyAdded(old(receipts), receipts) && OnlyAdmitted(old(inbox), inbox, q)
      ensures r == Done ==> item.id in inbox && item.id in receipts
      ensures !disturbed ==> r != Stopped
      ensures r.Refused? ==> r.code == "inbox_full" && |inbox| >= INBOX_CAP
    {
      if item.id in inbox {
        SavedMatches(direct, log, Snapshot(), q, item);
        assert inbox[item.id].(expires := item.expires) == item;
      } else {
        if |inbox| >= INBOX_CAP { return Refused("inbox_full"); }
        ghost var s := Snapshot();
        inbox := inbox[item.id := item];
        Note(AdmitItem(item), s);
        if disturbed { if * { return Stopped; } }
      }
      if item.id in receipts { return Done; }
      r := StoreReceipt(item.id);
    }

    method StoreReceipt(id: Id) returns (r: Reply)
      requires Valid() && !archived && id in inbox && id !in receipts
      modifies this`receipts, this`log
      ensures Valid() && old(log) <= log && r in {Done, Stopped} && (!disturbed ==> r == Done) && receipts == old(receipts)[id := Receipt(NodeStored, None)]
    {
      ghost var s := Snapshot();
      receipts := receipts[id := Receipt(NodeStored, None)];
      Note(DeliveryModel.AdmitReceipt(id), s);
      if disturbed { if * { return Stopped; } }
      return Done;
    }

    /** Repairs a missing receipt of an admitted item, then reports each asked identity. */
    method AnswerFor(q: Request) returns (r: Reply, answer: Answer)
      requires Valid() && q in wire && !archived
      requires forall item :: item in q.items ==> item.id in inbox && item.id in receipts
      modifies this`receipts, this`answers, this`log
      ensures Valid() && old(log) <= log && r in {Done, Stopped} && (!disturbed ==> r == Done) && OnlyAdded(old(receipts), receipts)
      ensures r == Done ==> answer in answers && Answers(answer, q, receipts)
      ensures r == Done ==> forall id :: id in q.asked && id in inbox ==> id in receipts
    {
      var reports: seq<Reported>;
      r, reports := ReportEach(q.asked);
      answer := Answer(q.number, reports);
      if r != Done { return; }
      ghost var s := Snapshot();
      assert reports == ReportAll(s.node, q.asked);
      answers := answers + {answer};
      Note(Respond(q), s);
      if disturbed { if * { return Stopped, answer; } }
    }

    method ReportEach(asked: seq<Id>) returns (r: Reply, reports: seq<Reported>)
      requires Valid() && !archived
      modifies this`receipts, this`log
      ensures Valid() && old(log) <= log && r in {Done, Stopped} && (!disturbed ==> r == Done) && OnlyAdded(old(receipts), receipts)
      ensures r == Done ==> forall id :: id in asked && id in inbox ==> id in receipts
      ensures r == Done ==> |reports| == |asked|
      ensures r == Done ==> forall k :: 0 <= k < |asked| ==> reports[k] == Describe(receipts, asked[k])
    {
      reports := [];
      for i := 0 to |asked|
        invariant Valid() && old(log) <= log && |reports| == i && OnlyAdded(old(receipts), receipts)
        invariant forall k :: 0 <= k < i ==> Reportable(asked[k]) && reports[k] == Describe(receipts, asked[k])
      {
        r := RepairOne(asked[i]);
        if r != Done { return; }
        reports := reports + [Describe(receipts, asked[i])];
      }
      return Done, reports;
    }

    /** An admitted item has its receipt; an absent one has none. */
    predicate Reportable(id: Id)
      reads this
    {
      id in inbox <==> id in receipts
    }

    method RepairOne(id: Id) returns (r: Reply)
      requires Valid() && !archived
      modifies this`receipts, this`log
      ensures Valid() && old(log) <= log && r in {Done, Stopped} && (!disturbed ==> r == Done) && OnlyAdded(old(receipts), receipts)
      ensures forall k :: old(Reportable(k)) ==> Reportable(k) && Describe(receipts, k) == Describe(old(receipts), k)
      ensures r == Done ==> Reportable(id)
    {
      RunFacts(direct, log, Snapshot());
      if id !in inbox || id in receipts { return Done; }
      r := StoreReceipt(id);
    }

    /** Controller: confirms what it sent, then applies each reported receipt to an unsettled delivery. */
    method Finish(answer: Answer) returns (r: Reply)
      requires Valid() && exchange.Waiting? && answer in answers && answer.number == exchange.request.number
      modifies this`host, this`exchange, this`log
      ensures Valid() && old(log) <= log && exchange == Free && host.Keys == old(host.Keys)
      ensures forall id :: id in host && old(host[id]) in {Included, ToolRead, Failed, Cancelled} ==> host[id] == old(host[id])
      ensures r in {Done, Stopped} && (!disturbed ==> r == Done)
      ensures r == Done ==> forall item :: item in old(exchange).request.items ==> item.id in host && host[item.id] == NodeStored
      ensures r == Done ==> forall rep :: rep in answer.receipts ==>
        rep.id in host && (old(host[rep.id]) !in {Included, ToolRead, Failed, Cancelled} ==> Reconciled(old(host[rep.id]), rep.state, host[rep.id]))
    {
      WaitingFacts(direct, log, Snapshot(), answer);
      var items := exchange.request.items;
      StartApplying(answer);
      r := ConfirmAll(items, answer.receipts);
      if r != Done { return; }
      r := ApplyAll(answer.receipts);
    }

    method StartApplying(answer: Answer)
      requires Valid() && exchange.Waiting? && answer in answers && answer.number == exchange.request.number
      modifies this`exchange, this`log
      ensures Valid() && old(log) <= log && exchange == Applying(old(exchange).request.items, answer.receipts)
    {
      ghost var s := Snapshot();
      exchange := Applying(exchange.request.items, answer.receipts);
      Note(Receive(answer), s);
    }

    method ConfirmAll(items: seq<Item>, reports: seq<Reported>) returns (r: Reply)
      requires Valid() && exchange == Applying(items, reports)
      requires forall item :: item in items ==> item.id in host && host[item.id] == HostUncertain
      modifies this`host, this`exchange, this`log
      ensures Valid() && old(log) <= log && host.Keys == old(host.Keys) && r in {Done, Stopped} && (!disturbed ==> r == Done)
      ensures exchange == (if r == Done then Applying([], reports) else Free)
      ensures forall id :: id in host ==> host[id] == old(host[id]) || (Among(id, items) && host[id] == NodeStored)
      ensures r == Done ==> forall item :: item in items ==> host[item.id] == NodeStored
    {
      for i := 0 to |items|
        invariant Valid() && old(log) <= log && exchange == Applying(items[i..], reports) && host.Keys == old(host.Keys)
        invariant forall k :: 0 <= k < i ==> host[items[k].id] == NodeStored
        invariant forall id :: id in host ==> host[id] == old(host[id]) || (Among(id, items) && host[id] == NodeStored)
      {
        assert items[i..][0] == items[i] && items[i..][1..] == items[i + 1..];
        r := ConfirmOne(items[i..], reports);
        if r != Done { return; }
      }
      assert items[|items|..] == [];
      return Done;
    }

    method ConfirmOne(items: seq<Item>, reports: seq<Reported>) returns (r: Reply)
      requires Valid() && exchange == Applying(items, reports) && items != [] && items[0].id in host
      modifies this`host, this`exchange, this`log
      ensures Valid() && old(log) <= log && r in {Done, Stopped} && (!disturbed ==> r == Done) && host == old(host)[items[0].id := NodeStored]
      ensures exchange == (if r == Done then Applying(items[1..], reports) else Free)
    {
      ghost var s := Snapshot();
      host := host[items[0].id := NodeStored];
      exchange := Applying(items[1..], reports);
      Note(Confirm, s);
      if disturbed { if * { Drop(); return Stopped; } }
      return Done;
    }

    method ApplyAll(reports: seq<Reported>) returns (r: Reply)
      requires Valid() && exchange == Applying([], reports)
      requires forall i, j :: 0 <= i < j < |reports| ==> reports[i].id != reports[j].id
      modifies this`host, this`exchange, this`log
      ensures Valid() && old(log) <= log && exchange == Free && host.Keys == old(host.Keys) && r in {Done, Stopped} && (!disturbed ==> r == Done)
      ensures forall id :: id in host && Settled(old(host[id])) ==> host[id] == old(host[id])
      ensures forall id :: id in host && host[id] != old(host[id]) ==> exists k :: 0 <= k < |reports| && reports[k].id == id
      ensures r == Done ==> forall rep :: rep in reports ==>
        rep.id in host && Applied(old(host[rep.id]), rep.state) == Some(host[rep.id])
    {
      for i := 0 to |reports|
        invariant Valid() && old(log) <= log && exchange == Applying([], reports[i..]) && host.Keys == old(host.Keys)
        invariant forall k :: 0 <= k < i ==> reports[k].id in host
        invariant forall k :: 0 <= k < i ==> Applied(old(host[reports[k].id]), reports[k].state) == Some(host[reports[k].id])
        invariant forall id :: id in host && Settled(old(host[id])) ==> host[id] == old(host[id])
        invariant forall id :: id in host && host[id] != old(host[id]) ==> exists k :: 0 <= k < i && reports[k].id == id
      {
        assert reports[i..][0] == reports[i] && reports[i..][1..] == reports[i + 1..];
        r := ApplyOne(reports[i..]);
        if r != Done { return; }
      }
      Drop();
      return Done;
    }

    method ApplyOne(reports: seq<Reported>) returns (r: Reply)
      requires Valid() && exchange == Applying([], reports) && reports != []
      modifies this`host, this`exchange, this`log
      ensures Valid() && old(log) <= log && r in {Done, Stopped} && (!disturbed ==> r == Done)
      ensures reports[0].id in old(host) && Applied(old(host)[reports[0].id], reports[0].state).Some?
      ensures host == old(host)[reports[0].id := Applied(old(host)[reports[0].id], reports[0].state).value]
      ensures exchange == (if r == Done then Applying([], reports[1..]) else Free)
    {
      RunFacts(direct, log, Snapshot());
      var rep := reports[0];
      assert rep in reports;
      ghost var s := Snapshot();
      host := host[rep.id := Applied(host[rep.id], rep.state).value];
      exchange := Applying([], reports[1..]);
      Note(ApplyReceipt, s);
      if disturbed { if * { Drop(); return Stopped; } }
      return Done;
    }

    /** Controller: the durable intent of one delivery, under a fresh identity. */
    method StoreIntent(id: Id, toRuntime: bool, content: nat)
      requires Valid() && id !in letters
      modifies this`letters, this`host, this`order, this`log
      ensures Valid() && old(log) <= log
      ensures host == old(host)[id := HostStored] && letters == old(letters)[id := Letter(toRuntime, content)] && order == old(order) + [id]
    {
      RunFacts(direct, log, Snapshot());
      ghost var s := Snapshot();
      letters := letters[id := Letter(toRuntime, content)];
      host := host[id := HostStored];
      order := order + [id];
      Note(Send(id, toRuntime, content), s);
    }

    /** Controller: after a confirmed stop, whatever was never dispatched is cancelled, and nothing else. */
    method CancelAllUnsubmitted() returns (r: Reply)
      requires Valid() && exchange == Free
      modifies this`host, this`log
      ensures Valid() && old(log) <= log && r in {Done, Stopped} && (!disturbed ==> r == Done) && host.Keys == old(host.Keys)
      ensures forall id :: id in host && old(host[id]) != HostStored ==> host[id] == old(host[id])
      ensures forall id :: id in host ==> host[id] == old(host[id]) || host[id] == Cancelled
      ensures r == Done ==> forall id :: id in host ==> host[id] != HostStored
    {
      RunFacts(direct, log, Snapshot());
      for i := 0 to |order|
        invariant Valid() && old(log) <= log && host.Keys == old(host.Keys) == letters.Keys
        invariant forall id :: id in host ==> host[id] == old(host[id]) || (old(host[id]) == HostStored && host[id] == Cancelled)
        invariant forall k :: 0 <= k < i ==> order[k] in host && host[order[k]] != HostStored
      {
        assert order[i] in order;
        r := CancelOne(order[i]);
        if r != Done { return; }
      }
      return Done;
    }

    method CancelOne(id: Id) returns (r: Reply)
      requires Valid() && exchange == Free && id in host
      modifies this`host, this`log
      ensures Valid() && old(log) <= log && r in {Done, Stopped} && (!disturbed ==> r == Done)
      ensures host == old(host)[id := if old(host)[id] == HostStored then Cancelled else old(host)[id]]
    {
      if host[id] != HostStored { return Done; }
      ghost var s := Snapshot();
      host := host[id := Cancelled];
      Note(CancelUnsubmitted(id), s);
      if disturbed { if * { return Stopped; } }
      return Done;
    }

    /** Runtime adapter: the next direct message in the order of the inbox, where it is the item at place `at`. Its
        receipt says `uncertain` on disk before it is returned. */
    method NextMessage(session: Option<nat>, now: int) returns (r: Reply, message: Option<Item>, ghost at: nat)
      requires Valid() && holding.None?
      modifies this`receipts, this`holding, this`handed, this`log
      ensures Valid() && old(log) <= log && holding.None? && r in {Done, Stopped} && NoneRestored(old(receipts), receipts)
      ensures message.None? ==> handed == old(handed)
      ensures message.Some? ==> r == Done && Offered(message.value, now) && message.value.id !in old(handed)
      ensures message.Some? ==> old(receipts)[message.value.id].state == NodeStored
      ensures message.Some? ==> handed == old(handed) + [message.value.id]
      ensures message.Some? ==> FirstLeft(InOrder(inbox.Keys), at, message.value.id, old(receipts))
      ensures r == Done && message.None? && Willing(session) ==> forall id :: id in inbox ==> PassedOver(id)
      ensures !disturbed && !archived && old(Receipted()) ==> r == Done
      ensures !old(Willing(session)) ==> receipts == old(receipts) && message.None?
    {
      message, at := None, 0;
      if archived { return Stopped, None, 0; }
      if !Willing(session) { return Done, None, 0; }
      r, message, at := ConsiderAll(InOrder(inbox.Keys), now);
    }

    /** Everything before this item is passed over, and nothing after it was touched. */
    ghost predicate FirstLeft(order: seq<Id>, at: nat, id: Id, before: map<Id, Receipt>)
      reads this
    {
      && at < |order| && order[at] == id && (forall k :: 0 <= k < at ==> PassedOver(order[k]))
      && SameFrom(order, at + 1, before, receipts)
    }

    /** One item after the other, up to the first that is returned. */
    method ConsiderAll(order: seq<Id>, now: int) returns (r: Reply, message: Option<Item>, ghost at: nat)
      requires Valid() && holding.None? && !archived && runtime.state == Ready
      requires forall i :: 0 <= i < |order| ==> order[i] in inbox
      requires forall i, j :: 0 <= i < j < |order| ==> order[i] < order[j]
      modifies this`receipts, this`holding, this`handed, this`log
      ensures Valid() && old(log) <= log && holding.None? && r in {Done, Stopped} && NoneRestored(old(receipts), receipts)
      ensures message.None? ==> handed == old(handed)
      ensures !disturbed && old(Receipted()) ==> r == Done
      ensures message.None? && r == Done ==> forall k :: 0 <= k < |order| ==> PassedOver(order[k])
      ensures message.Some? ==> r == Done && FirstLeft(order, at, message.value.id, old(receipts))
      ensures message.Some? ==> Offered(message.value, now) && handed == old(handed) + [message.value.id]
      ensures message.Some? ==> message.value.id !in old(handed) && old(receipts)[message.value.id].state == NodeStored
    {
      r, message, at := Done, None, 0;
      for i := 0 to |order|
        invariant Valid() && old(log) <= log && holding.None? && handed == old(handed) && r == Done && message.None?
        invariant NoneRestored(old(receipts), receipts)
        invariant forall k :: 0 <= k < i ==> PassedOver(order[k])
        invariant SameFrom(order, i, old(receipts), receipts)
      {
        at := i;
        ghost var s := receipts;
        assert order[i] in inbox;
        r, message := Consider(order[i], now);
        OthersUntouched(order, i, old(receipts), s, receipts);
        if r != Done || message.Some? { return; }
      }
    }

    /** No item waits for its first receipt. */
    predicate Receipted()
      reads this
    {
      forall id :: id in inbox ==> id in receipts
    }

    /** Nothing is left to return for this item. */
    predicate PassedOver(id: Id)
      reads this
    {
      id in inbox && (inbox[id].direct ==> id in receipts && receipts[id].state != NodeStored)
    }

    method Consider(id: Id, now: int) returns (r: Reply, message: Option<Item>)
      requires Valid() && holding.None? && !archived && runtime.state == Ready && id in inbox
      modifies this`receipts, this`holding, this`handed, this`log
      ensures Valid() && old(log) <= log && holding.None? && r in {Done, Stopped} && NoneRestored(old(receipts), receipts)
      ensures r == Done && inbox[id].direct ==> id in receipts && receipts[id].state != NodeStored
      ensures message.None? ==> handed == old(handed)
      ensures !disturbed && id in old(receipts) ==> r == Done
      ensures message.Some? ==> r == Done && message.value.id == id && Offered(message.value, now) && id !in old(handed)
      ensures message.Some? ==> old(receipts)[id].state == NodeStored && handed == old(handed) + [id]
      ensures forall k :: k in receipts && k != id ==> receipts[k] == old(receipts)[k]
    {
      message := None;
      if id !in receipts { return Stopped, None; }
      if !inbox[id].direct || receipts[id].state != NodeStored { return Done, None; }
      if inbox[id].expires > now && direct {
        r, message := Offer(id, now);
      } else {
        r := Withhold(id, now);
      }
    }

    /** The bound, ready session of an active spool. */
    predicate Willing(session: Option<nat>)
      reads this
    {
      !archived && runtime.state == Ready && session == runtime.session
    }

    /** A direct, unexpired item whose durable receipt says its submission is uncertain. */
    ghost predicate Offered(item: Item, now: int)
      reads this
    {
      && item.id in inbox && inbox[item.id] == item && item.direct && direct && item.expires > now
      && item.id in receipts && receipts[item.id] == Receipt(Uncertain, runtime.session)
    }

    /** Writes `uncertain`, then returns the item; a stop in between leaves it unreturned and never offered again. */
    method Offer(id: Id, now: int) returns (r: Reply, message: Option<Item>)
      requires Valid() && holding.None? && direct && NextCandidate(Snapshot().node, id) && inbox[id].expires > now
      modifies this`receipts, this`holding, this`handed, this`log
      ensures Valid() && old(log) <= log && holding.None?
      ensures receipts == old(receipts)[id := Receipt(Uncertain, runtime.session)]
      ensures r == Done ==> message == Some(inbox[id]) && handed == old(handed) + [id] && id !in old(handed) && inbox[id].id == id
      ensures !disturbed ==> r == Done
      ensures r != Done ==> r == Stopped && message.None? && handed == old(handed)
    {
      RunFacts(direct, log, Snapshot());
      NotHandedYet(direct, log, Snapshot(), id);
      ghost var s := Snapshot();
      receipts := receipts[id := Receipt(Uncertain, runtime.session)];
      holding := Some(id);
      Note(ReserveNext(id, now), s);
      r := Release();
      message := if r == Done then Some(inbox[id]) else None;
    }

    method Release() returns (r: Reply)
      requires Valid() && holding.Some?
      modifies this`holding, this`handed, this`log
      ensures Valid() && old(log) <= log && holding.None? && r in {Done, Stopped} && (!disturbed ==> r == Done)
      ensures handed == old(handed) + (if r == Done then [old(holding).value] else [])
    {
      ghost var s := Snapshot();
      var dies: bool := *;
      if disturbed && dies {
        holding := None;
        Note(NodeCrash, s);
        return Stopped;
      }
      handed := handed + [holding.value];
      holding := None;
      Note(ReturnNext, s);
      return Done;
    }

    /** Expired authorization cancels an unoffered item; a runtime without direct delivery fails it. */
    method Withhold(id: Id, now: int) returns (r: Reply)
      requires Valid() && NextCandidate(Snapshot().node, id) && (inbox[id].expires <= now || !direct)
      modifies this`receipts, this`log
      ensures Valid() && old(log) <= log && r in {Done, Stopped} && (!disturbed ==> r == Done)
      ensures receipts == old(receipts)[id := Receipt(if inbox[id].expires <= now then Cancelled else Failed, None)]
    {
      ghost var s := Snapshot();
      if inbox[id].expires <= now {
        receipts := receipts[id := Receipt(Cancelled, None)];
        Note(ExpireNext(id, now), s);
      } else {
        receipts := receipts[id := Receipt(Failed, None)];
        Note(RefuseNext(id), s);
      }
      if disturbed { if * { return Stopped; } }
      return Done;
    }

    /** Runtime adapter: what the bound session observed of a direct message. */
    method RecordReceipt(id: Id, session: nat, state: Status) returns (r: Reply)
      requires Valid()
      modifies this`receipts, this`log
      ensures Valid() && old(log) <= log
      ensures r == Done ==> !archived && id in inbox && inbox[id].direct && id in old(receipts)
      ensures r == Done ==> runtime.session == Some(session) && runtime.state in {Ready, Suspended}
      ensures r == Done ==> old(receipts[id]).session in {None, Some(session)} && state in {Submitted, Included, Uncertain, Failed}
      ensures r == Done ==> receipts == if old(receipts[id]).state in {Included, ToolRead} then old(receipts)
                                        else old(receipts)[id := Receipt(state, Some(session))]
      ensures r.Refused? ==> receipts == old(receipts)
      ensures r == Done <==>
        (!archived && id in inbox && inbox[id].direct && id in old(receipts)
         && runtime.session == Some(session) && runtime.state in {Ready, Suspended}
         && state in {Submitted, Included, Uncertain, Failed} && old(receipts)[id].session in {None, Some(session)})
      ensures r == Refused("session_mismatch") <==> (!archived && id in inbox
        && (runtime.session != Some(session) || runtime.state !in {Ready, Suspended} || !inbox[id].direct))
    {
      if archived || id !in inbox { return Stopped; }
      if runtime.session != Some(session) || runtime.state !in {Ready, Suspended} || !inbox[id].direct {
        return Refused("session_mismatch");
      }
      if state !in {Submitted, Included, Uncertain, Failed} { return Refused("invalid_state"); }
      if id !in receipts { return Stopped; }
      if receipts[id].session !in {None, Some(session)} { return Refused("other_session"); }
      if receipts[id].state in {Included, ToolRead} { return Done; }
      ghost var s := Snapshot();
      receipts := receipts[id := Receipt(state, Some(session))];
      Note(AdapterReceipt(id, session, state), s);
      return Done;
    }

    /** Inbox tool: reading never erases the uncertainty of a direct submission. */
    method ReadItem(id: Id) returns (r: Reply, item: Option<Item>)
      requires Valid()
      modifies this`receipts, this`log
      ensures Valid() && old(log) <= log && r in {Done, Stopped}
      ensures r == Done <==> !archived && id in inbox && id in old(receipts)
      ensures r == Done ==> item == Some(inbox[id])
      ensures r == Done && inbox[id].direct && old(receipts[id]).state in {Uncertain, Submitted} ==> receipts == old(receipts)
      ensures r == Done && !(inbox[id].direct && old(receipts[id]).state in {Uncertain, Submitted}) ==>
        receipts == old(receipts)[id := Receipt(ToolRead, None)]
      ensures r == Stopped ==> receipts == old(receipts)
    {
      if archived || id !in inbox || id !in receipts { return Stopped, None; }
      if !inbox[id].direct || receipts[id].state !in {Uncertain, Submitted} {
        ghost var s := Snapshot();
        receipts := receipts[id := Receipt(ToolRead, None)];
        Note(Read(id), s);
      }
      return Done, Some(inbox[id]);
    }

    /** Node stop: cancels what was never admitted to the runtime, then unbinds it. */
    method StopNode() returns (r: Reply)
      requires Valid() && !archived
      modifies this`receipts, this`runtime, this`log
      ensures Valid() && old(log) <= log && r in {Done, Stopped} && (!disturbed ==> r == Done) && OnlyStopped(old(receipts), receipts)
      ensures r == Done ==> runtime == Runtime(StoppedRuntime, None, None, 0)
      ensures r == Done ==> forall id :: id in receipts ==> receipts[id].state != NodeStored
    {
      var todo := receipts.Keys;
      while todo != {}
        invariant Valid() && old(log) <= log && runtime == old(runtime) && OnlyStopped(old(receipts), receipts)
        invariant todo <= receipts.Keys
        invariant forall id :: id in receipts.Keys - todo ==> receipts[id].state != NodeStored
        decreases todo
      {
        var id :| id in todo;
        r := StopOne(id);
        if r != Done { return; }
        todo := todo - {id};
      }
      ghost var s := Snapshot();
      runtime := Runtime(StoppedRuntime, None, None, 0);
      Note(Bind(runtime), s);
      return Done;
    }

    method StopOne(id: Id) returns (r: Reply)
      requires Valid() && !archived && id in receipts
      modifies this`receipts, this`log
      ensures Valid() && old(log) <= log && r in {Done, Stopped} && (!disturbed ==> r == Done)
      ensures receipts == if old(receipts)[id].state == NodeStored then old(receipts)[id := Receipt(Cancelled, None)] else old(receipts)
    {
      if receipts[id].state != NodeStored { return Done; }
      ghost var s := Snapshot();
      receipts := receipts[id := Receipt(Cancelled, None)];
      Note(StopReceipt(id), s);
      if disturbed { if * { return Stopped; } }
      return Done;
    }

    /** A runtime announces its session: bound once, suspended if it ever differs. */
    method Register(session: nat) returns (r: Reply)
      requires Valid()
      modifies this`runtime, this`log
      ensures Valid() && old(log) <= log
      ensures r == Done <==> !archived
      ensures r == Done && old(runtime).session.None? ==> runtime == old(runtime).(session := Some(session), state := Ready)
      ensures r == Done ==> runtime.session == if old(runtime).session.None? then Some(session) else old(runtime).session
      ensures r == Done && old(runtime).session == Some(session) ==> runtime == old(runtime)
      ensures r == Done && old(runtime).session.Some? && old(runtime).session != Some(session) ==>
        runtime == old(runtime).(state := Suspended, observed := Some(session))
    {
      if archived { return Stopped; }
      ghost var s := Snapshot();
      if runtime.session.None? {
        runtime := runtime.(session := Some(session), state := Ready);
      } else if runtime.session != Some(session) {
        runtime := runtime.(state := Suspended, observed := Some(session));
      }
      Note(Bind(runtime), s);
      return Done;
    }

    /** An operator confirms the suspended session, only once no other session's submission is unresolved. */
    method Rebind(session: nat) returns (r: Reply)
      requires Valid()
      modifies this`runtime, this`log
      ensures Valid() && old(log) <= log
      ensures r == Done ==> old(runtime).state == Suspended && old(runtime).observed == Some(session)
      ensures r == Done ==> runtime == Runtime(Ready, Some(session), None, old(runtime).revision + 1)
      ensures r == Done && old(runtime).session != Some(session) ==>
        forall id :: id in receipts ==> receipts[id].state !in {Uncertain, Submitted}
      ensures r != Done ==> runtime == old(runtime)
      ensures r == Done <==>
        (!archived && old(runtime).state == Suspended && old(runtime).observed == Some(session)
         && (old(runtime).session != Some(session) ==> forall id :: id in receipts ==> receipts[id].state !in {Uncertain, Submitted}))
      ensures r == Refused("unresolved") ==> exists id :: id in receipts && receipts[id].state in {Uncertain, Submitted}
    {
      if archived { return Stopped; }
      if runtime.observed != Some(session) || runtime.state != Suspended { return Refused("not_observed"); }
      if runtime.session != Some(session) {
        var todo := receipts.Keys;
        while todo != {}
          invariant todo <= receipts.Keys
          invariant forall id :: id in receipts.Keys - todo ==> receipts[id].state !in {Uncertain, Submitted}
          decreases todo
        {
          var id :| id in todo;
          if receipts[id].state in {Uncertain, Submitted} { return Refused("unresolved"); }
          todo := todo - {id};
        }
      }
      ghost var s := Snapshot();
      runtime := Runtime(Ready, Some(session), None, runtime.revision + 1);
      Note(Bind(runtime), s);
      return Done;
    }
  }

  /** Up to eight pending identities, starting at the rotating cursor. */
  function Asked(pending: seq<Id>, cursor: nat): (r: seq<Id>)
    requires Distinct(pending)
    ensures |r| == Min(BATCH, |pending|) && Distinct(r)
    ensures forall id :: id in r ==> id in pending
    ensures |pending| <= BATCH ==> forall id :: id in pending ==> id in r
  {
    var start := if pending == [] then 0 else cursor % |pending|;
    var turned := pending[start..] + pending[..start];
    assert |pending| <= BATCH ==> turned[..Min(BATCH, |turned|)] == turned;
    assert forall id :: id in pending ==> id in turned;
    turned[..Min(BATCH, |turned|)]
  }

  /** The place k steps after the cursor, going round. */
  function Turned(cursor: nat, n: nat, k: nat): (i: nat)
    requires k < n
    ensures i < n
  {
    var at := cursor % n + k;
    if at < n then at else at - n
  }

  lemma AskedInTurn(pending: seq<Id>, cursor: nat, k: nat)
    requires Distinct(pending) && k < Min(BATCH, |pending|)
    ensures Asked(pending, cursor)[k] == pending[Turned(cursor, |pending|, k)]
  {
    var start := cursor % |pending|;
    var turned := pending[start..] + pending[..start];
    assert Asked(pending, cursor)[k] == turned[k];
  }

  /** The cursor advances by eight at each exchange: every pending delivery is asked about before the cursor has gone round. */
  lemma EveryoneIsAsked(pending: seq<Id>, start: nat, j: nat) returns (round: nat)
    requires Distinct(pending) && start < |pending| && j < |pending|
    ensures BATCH * round < |pending| && pending[j] in Asked(pending, start + BATCH * round)
  {
    var n := |pending|;
    var away := if j >= start then j - start else j - start + n;
    round := away / BATCH;
    var cursor, k := start + BATCH * round, away % BATCH;
    assert away == BATCH * round + k;
    GoRound(cursor, n);
    assert Turned(cursor, n, k) == j;
    AskedInTurn(pending, cursor, k);
  }

  lemma GoRound(cursor: nat, n: nat)
    requires n > 0 && cursor < 2 * n
    ensures cursor % n == if cursor < n then cursor else cursor - n
  {
  }

  /** Of the first n rows every stored delivery was chosen, in order, or cancelled for want of a credential; the others are
      as they were. */
  ghost predicate Chosen(order: seq<Id>, n: nat, before: map<Id, Status>, after: map<Id, Status>, chosen: seq<Id>, granted: set<Id>) {
    && n <= |order| && Distinct(chosen) && OnlyRevoked(before, after, granted)
    && (forall id :: id in chosen ==> id in after && after[id] == HostStored && id in granted && id in order[..n])
    && (forall k :: n <= k < |order| && order[k] in after ==> after[order[k]] == before[order[k]])
    && forall k :: 0 <= k < n && order[k] in after && before[order[k]] == HostStored ==>
         if order[k] in granted then order[k] in chosen else after[order[k]] == Cancelled
  }

  /** Chosen, kept out of proofs that do not mention Show. */
  ghost predicate ChosenSoFar(order: seq<Id>, n: nat, before: map<Id, Status>, after: map<Id, Status>, chosen: seq<Id>, granted: set<Id>) {
    forall k {:trigger Show(k)} :: Show(k) ==> Chosen(order, n, before, after, chosen, granted)
  }

  lemma NoneChosen(order: seq<Id>, host: map<Id, Status>, granted: set<Id>)
    ensures ChosenSoFar(order, 0, host, host, [], granted)
  {
  }

  lemma ChosenInAll(order: seq<Id>, n: nat, before: map<Id, Status>, after: map<Id, Status>, chosen: seq<Id>, granted: set<Id>)
    requires ChosenSoFar(order, n, before, after, chosen, granted)
    ensures Chosen(order, n, before, after, chosen, granted) && after.Keys == before.Keys
  {
    assert Show(0);
  }

  lemma AllChosen(order: seq<Id>, before: map<Id, Status>, after: map<Id, Status>, chosen: seq<Id>, granted: set<Id>)
    requires Chosen(order, |order|, before, after, chosen, granted) && forall id :: id in after ==> id in order
    ensures forall id :: id in after && after[id] == HostStored ==> id in chosen
  {
    forall id | id in after && after[id] == HostStored ensures id in chosen {
      var k :| 0 <= k < |order| && order[k] == id;
    }
  }

  lemma NotChosenYet(order: seq<Id>, i: nat, before: map<Id, Status>, after: map<Id, Status>, chosen: seq<Id>, granted: set<Id>)
    requires Distinct(order) && i < |order| && order[i] in after && ChosenSoFar(order, i, before, after, chosen, granted)
    ensures order[i] !in chosen
  {
    assert Show(0);
    assert order[i] !in order[..i];
  }

  lemma ChosenOneMore(order: seq<Id>, i: nat, before: map<Id, Status>, s: map<Id, Status>, t: map<Id, Status>,
                      few: seq<Id>, more: seq<Id>, granted: set<Id>)
    requires Distinct(order) && i < |order| && order[i] in s && ChosenSoFar(order, i, before, s, few, granted)
    requires t == if s[order[i]] == HostStored && order[i] !in granted then s[order[i] := Cancelled] else s
    requires more == if s[order[i]] == HostStored && order[i] in granted then few + [order[i]] else few
    ensures ChosenSoFar(order, i + 1, before, t, more, granted)
  {
    assert Show(0);
    assert order[..i + 1] == order[..i] + [order[i]];
    assert order[i] !in order[..i];
    forall id | id in more ensures id in t && t[id] == HostStored && id in granted && id in order[..i + 1] {
      assert id in few || id == order[i];
    }
    forall k | 0 <= k < i + 1 && order[k] in t && before[order[k]] == HostStored
      ensures if order[k] in granted then order[k] in more else t[order[k]] == Cancelled
    {
      assert k == i || order[k] != order[i];
    }
  }

  /** Only stored deliveries without a credential are cancelled. */
  ghost predicate OnlyRevoked(before: map<Id, Status>, after: map<Id, Status>, granted: set<Id>) {
    && after.Keys == before.Keys
    && forall id :: id in after && after[id] != before[id] ==> before[id] == HostStored && after[id] == Cancelled && id !in granted
  }

  predicate Among(id: Id, items: seq<Item>) {
    exists k :: 0 <= k < |items| && items[k].id == id
  }

  /** What an unsettled delivery becomes by a report: absence sends it back to be dispatched again, which can only happen
      while its dispatch was unconfirmed; anything else is taken as reported. */
  predicate Reconciled(before: Status, reported: Status, after: Status) {
    if reported == Missing then before == HostUncertain && after == HostStored else after == reported
  }

  predicate OnlyMarked(before: Status, after: Status) {
    before == HostStored && after in {HostUncertain, Cancelled}
  }

  /** Receipts are only added, and only as `node-stored`. */
  ghost predicate OnlyAdded(before: map<Id, Receipt>, after: map<Id, Receipt>) {
    && (forall id :: id in before ==> id in after && after[id] == before[id])
    && (forall id :: id in after && id !in before ==> after[id] == Receipt(NodeStored, None))
  }

  /** Inbox items are only added, and only from the request. */
  ghost predicate OnlyAdmitted(before: map<Id, Item>, after: map<Id, Item>, q: Request) {
    && (forall id :: id in before ==> id in after && after[id] == before[id])
    && (forall id :: id in after && id !in before ==> after[id] in q.items)
  }

  /** Only receipts that said `node-stored` change, to `cancelled`. */
  ghost predicate OnlyStopped(before: map<Id, Receipt>, after: map<Id, Receipt>) {
    && before.Keys == after.Keys
    && forall id :: id in after && after[id] != before[id] ==>
         before[id].state == NodeStored && after[id] == Receipt(Cancelled, None)
  }

  /** From one place on, the listed receipts are as they were. */
  ghost predicate SameFrom(order: seq<Id>, from: nat, before: map<Id, Receipt>, after: map<Id, Receipt>) {
    forall k :: from <= k < |order| && order[k] in after ==> order[k] in before && after[order[k]] == before[order[k]]
  }

  lemma OthersUntouched(order: seq<Id>, i: nat, before: map<Id, Receipt>, s: map<Id, Receipt>, t: map<Id, Receipt>)
    requires i < |order| && (forall j, k :: 0 <= j < k < |order| ==> order[j] < order[k]) && SameFrom(order, i, before, s)
    requires s.Keys == t.Keys && forall k :: k in t && k != order[i] ==> t[k] == s[k]
    ensures SameFrom(order, i + 1, before, t)
  {
  }

  /** No receipt becomes `node-stored`, and none disappears. */
  ghost predicate NoneRestored(before: map<Id, Receipt>, after: map<Id, Receipt>) {
    && before.Keys == after.Keys
    && forall id :: id in after && after[id].state == NodeStored ==> after[id] == before[id]
  }

  function Describe(receipts: map<Id, Receipt>, id: Id): Reported {
    Reported(id, if id in receipts then receipts[id].state else Missing)
  }

  ghost predicate Answers(answer: Answer, q: Request, receipts: map<Id, Receipt>) {
    && answer.number == q.number && |answer.receipts| == |q.asked|
    && forall i :: 0 <= i < |q.asked| ==> answer.receipts[i] == Describe(receipts, q.asked[i])
  }
}
