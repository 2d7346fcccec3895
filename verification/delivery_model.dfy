/** One agent's deliveries: the controller's durable copy, the node's private spool, the runtime that takes
    direct messages, and a network that may lose, delay or repeat an exchange. Steps are single durable writes. */
module DeliveryModel {
  import opened Base

  type Id = nat

  datatype Status =
    | HostStored | HostUncertain | NodeStored | Submitted | Included | ToolRead | Uncertain | Failed | Cancelled
    | Missing  // only ever reported: no inbox item was admitted

  predicate Settled(s: Status) { s in {Included, ToolRead, Failed, Cancelled} }

  /** States the controller can only have learned from the node. */
  predicate NodeObserved(s: Status) { s in {NodeStored, Submitted, Included, ToolRead, Uncertain, Failed} }

  /** The fields of a delivery that never change. */
  datatype Letter = Letter(direct: bool, content: nat)

  datatype Item = Item(id: Id, direct: bool, content: nat, expires: int)

  datatype Receipt = Receipt(state: Status, session: Option<nat>)

  datatype Runtime = Runtime(state: RuntimeState, session: Option<nat>, observed: Option<nat>, revision: nat)

  datatype RuntimeState = Starting | Ready | Suspended | StoppedRuntime

  datatype Request = Request(number: nat, items: seq<Item>, asked: seq<Id>)

  datatype Reported = Reported(id: Id, state: Status)

  datatype Answer = Answer(number: nat, receipts: seq<Reported>)

  /** The controller coroutine that holds this agent's lock; lost when it fails or the controller stops. */
  datatype Exchange =
    | Free
    | Selecting(chosen: seq<Item>, asked: seq<Id>)
    | Waiting(request: Request)
    | Applying(confirm: seq<Item>, receipts: seq<Reported>)

  datatype Node = Node(archived: bool, direct: bool, inbox: map<Id, Item>, receipts: map<Id, Receipt>, runtime: Runtime)

  datatype Lane = Lane(
    letters: map<Id, Letter>, host: map<Id, Status>, exchange: Exchange, counter: nat,
    wire: set<Request>, answers: set<Answer>,
    node: Node, holding: Option<Id>, handed: seq<Id>)

  datatype Action =
    // controller
    | Send(id: Id, direct: bool, content: nat)
    | Open(asked: seq<Id>)
    | Revoke(id: Id)
    | Mark(item: Item)
    | Transmit
    | Receive(answer: Answer)
    | Confirm
    | ApplyReceipt
    | Abandon
    | CancelUnsubmitted(id: Id)
    // node, under its spool lock
    | AdmitItem(item: Item)
    | AdmitReceipt(id: Id)
    | Respond(request: Request)
    | StopReceipt(id: Id)
    | Bind(runtime: Runtime)
    | ReserveNext(id: Id, now: int)
    | ReturnNext
    | ExpireNext(id: Id, now: int)
    | RefuseNext(id: Id)
    | AdapterReceipt(id: Id, session: nat, state: Status)
    | Read(id: Id)
    | NodeCrash
    | Archive

  /** What the node reports for one asked identity. */
  function Report(node: Node, id: Id): Reported {
    Reported(id, if id in node.receipts then node.receipts[id].state else Missing)
  }

  function ReportAll(node: Node, asked: seq<Id>): (r: seq<Reported>)
    ensures |r| == |asked| && forall i :: 0 <= i < |asked| ==> r[i] == Report(node, asked[i])
  {
    seq(|asked|, i requires 0 <= i < |asked| => Report(node, asked[i]))
  }

  predicate Matches(letters: map<Id, Letter>, item: Item) {
    item.id in letters && letters[item.id] == Letter(item.direct, item.content)
  }

  predicate Distinct<T(==)>(s: seq<T>) {
    forall i, j :: 0 <= i < j < |s| ==> s[i] != s[j]
  }

  predicate NextCandidate(node: Node, id: Id) {
    && !node.archived && node.runtime.state == Ready
    && id in node.inbox && id in node.receipts && node.inbox[id].direct && node.receipts[id].state == NodeStored
  }

  ghost predicate Enabled(s: Lane, a: Action) {
    match a
    case Send(id, _, _) => id !in s.host
    case Open(asked) =>
      && s.exchange == Free && |asked| <= 8 && Distinct(asked)
      && forall id :: id in asked ==> id in s.host && s.host[id] != HostStored
    case Revoke(id) => (s.exchange.Free? || s.exchange.Selecting?) && id in s.host && s.host[id] == HostStored
    case Mark(item) =>
      && s.exchange.Selecting? && |s.exchange.chosen| < 8 && item.id in s.host && s.host[item.id] == HostStored
      && Matches(s.letters, item)
    case Transmit => s.exchange.Selecting?
    case Receive(answer) => s.exchange.Waiting? && answer in s.answers && answer.number == s.exchange.request.number
    case Confirm => s.exchange.Applying? && s.exchange.confirm != [] && s.exchange.confirm[0].id in s.host
    case ApplyReceipt =>
      && s.exchange.Applying? && s.exchange.confirm == [] && s.exchange.receipts != []
      && s.exchange.receipts[0].id in s.host
    case Abandon => true
    case CancelUnsubmitted(id) => s.exchange == Free && id in s.host && s.host[id] == HostStored
    case AdmitItem(item) =>
      && !s.node.archived && item.id !in s.node.inbox
      && exists q :: q in s.wire && item in q.items
    case AdmitReceipt(id) => !s.node.archived && id in s.node.inbox && id !in s.node.receipts
    case Respond(q) =>
      && !s.node.archived && q in s.wire
      && (forall item :: item in q.items ==> item.id in s.node.inbox && item.id in s.node.receipts)
      && (forall id :: id in q.asked && id in s.node.inbox ==> id in s.node.receipts)
    case StopReceipt(id) => !s.node.archived && id in s.node.receipts && s.node.receipts[id].state == NodeStored
    case Bind(_) => !s.node.archived
    case ReserveNext(id, now) => NextCandidate(s.node, id) && s.node.direct && s.node.inbox[id].expires > now && s.holding.None?
    case ReturnNext => s.holding.Some?
    case ExpireNext(id, now) => NextCandidate(s.node, id) && s.node.inbox[id].expires <= now
    case RefuseNext(id) => NextCandidate(s.node, id) && !s.node.direct
    case AdapterReceipt(id, session, state) =>
      && !s.node.archived && id in s.node.inbox && id in s.node.receipts && s.node.inbox[id].direct
      && s.node.runtime.session == Some(session) && s.node.runtime.state in {Ready, Suspended}
      && state in {Submitted, Included, Uncertain, Failed}
      && s.node.receipts[id].session in {None, Some(session)}
      && s.node.receipts[id].state !in {Included, ToolRead}
    case Read(id) =>
      && !s.node.archived && id in s.node.inbox && id in s.node.receipts
      && (!s.node.inbox[id].direct || s.node.receipts[id].state !in {Uncertain, Submitted})
    case NodeCrash => true
    case Archive =>
      && !s.node.archived
      && (forall id :: id in s.node.receipts ==> Settled(s.node.receipts[id].state))
      && (forall id :: id in s.node.inbox ==> id in s.node.receipts)
  }

  function WithHost(s: Lane, id: Id, state: Status): Lane {
    s.(host := s.host[id := state])
  }

  function WithReceipt(s: Lane, id: Id, r: Receipt): Lane {
    s.(node := s.node.(receipts := s.node.receipts[id := r]))
  }

  /** What the controller stores for one reported receipt; None when it refuses the report. */
  function Applied(current: Status, reported: Status): Option<Status> {
    if Settled(current) then Some(current)
    else if reported == Missing then (if current == HostUncertain then Some(HostStored) else None)
    else Some(reported)
  }

  ghost function Apply(s: Lane, a: Action): Lane
    requires Enabled(s, a)
  {
    match a
    case Send(id, direct, content) => WithHost(s, id, HostStored).(letters := s.letters[id := Letter(direct, content)])
    case Open(asked) => s.(exchange := Selecting([], asked))
    case Revoke(id) => WithHost(s, id, Cancelled)
    case Mark(item) => WithHost(s, item.id, HostUncertain).(exchange := s.exchange.(chosen := s.exchange.chosen + [item]))
    case Transmit =>
      var q := Request(s.counter, s.exchange.chosen, s.exchange.asked);
      s.(wire := s.wire + {q}, counter := s.counter + 1, exchange := Waiting(q))
    case Receive(answer) => s.(exchange := Applying(s.exchange.request.items, answer.receipts))
    case Confirm => WithHost(s, s.exchange.confirm[0].id, NodeStored).(exchange := s.exchange.(confirm := s.exchange.confirm[1..]))
    case ApplyReceipt =>
      var r := s.exchange.receipts[0];
      var applied := Applied(s.host[r.id], r.state);
      if applied.None? then s.(exchange := Free)
      else WithHost(s, r.id, applied.value).(exchange := s.exchange.(receipts := s.exchange.receipts[1..]))
    case Abandon => s.(exchange := Free)
    case CancelUnsubmitted(id) => WithHost(s, id, Cancelled)
    case AdmitItem(item) => s.(node := s.node.(inbox := s.node.inbox[item.id := item]))
    case AdmitReceipt(id) => WithReceipt(s, id, Receipt(NodeStored, None))
    case Respond(q) => s.(answers := s.answers + {Answer(q.number, ReportAll(s.node, q.asked))})
    case StopReceipt(id) => WithReceipt(s, id, Receipt(Cancelled, None))
    case Bind(runtime) => s.(node := s.node.(runtime := runtime))
    case ReserveNext(id, _) => WithReceipt(s, id, Receipt(Uncertain, s.node.runtime.session)).(holding := Some(id))
    case ReturnNext => s.(holding := None, handed := s.handed + [s.holding.value])
    case ExpireNext(id, _) => WithReceipt(s, id, Receipt(Cancelled, None))
    case RefuseNext(id) => WithReceipt(s, id, Receipt(Failed, None))
    case AdapterReceipt(id, session, state) => WithReceipt(s, id, Receipt(state, Some(session)))
    case Read(id) => WithReceipt(s, id, Receipt(ToolRead, None))
    case NodeCrash => s.(holding := None)
    case Archive => s.(node := s.node.(archived := true))
  }

  ghost function Next(s: Lane, a: Action): Option<Lane> {
    if Enabled(s, a) then Some(Apply(s, a)) else None
  }

  function Initial(direct: bool): Lane {
    Lane(map[], map[], Free, 0, {}, {}, Node(false, direct, map[], map[], Runtime(Starting, None, None, 0)), None, [])
  }

  // ---- the invariant, part by part over the fields each part reads ----

  /** Identities with both an inbox item and a receipt on the node. */
  function Stored(node: Node): set<Id> { node.inbox.Keys * node.receipts.Keys }

  /** A direct item offered to the runtime, or about to be, can never look unoffered again. */
  ghost predicate HandedInv(receipts: map<Id, Receipt>, holding: Option<Id>, handed: seq<Id>) {
    && Distinct(handed)
    && (forall id :: id in handed ==> id in receipts && receipts[id].state != NodeStored)
    && (holding.Some? ==>
          && holding.value in receipts && receipts[holding.value].state != NodeStored && holding.value !in handed)
  }

  ghost predicate NodeInv(inbox: map<Id, Item>, receipts: map<Id, Receipt>, letters: map<Id, Letter>) {
    && receipts.Keys <= inbox.Keys
    && (forall id :: id in receipts ==> receipts[id].state !in {HostStored, HostUncertain, Missing})
    && (forall id :: id in inbox ==> inbox[id].id == id && Matches(letters, inbox[id]))
  }

  ghost predicate RequestsInv(wire: set<Request>, counter: nat, letters: map<Id, Letter>) {
    && (forall q :: q in wire ==> q.number < counter)
    && (forall q, q' :: q in wire && q' in wire && q.number == q'.number ==> q == q')
    && (forall q, item :: q in wire && item in q.items ==> Matches(letters, item))
  }

  /** An answer reports every asked identity in order, and admission of every item it was sent. */
  ghost predicate AnswerFits(a: Answer, q: Request, stored: set<Id>) {
    && |a.receipts| == |q.asked|
    && (forall i :: 0 <= i < |q.asked| ==> a.receipts[i].id == q.asked[i])
    && (forall item :: item in q.items ==> item.id in stored)
  }

  ghost predicate ReportFits(r: Reported, stored: set<Id>) {
    r.state !in {HostStored, HostUncertain} && (r.state != Missing ==> r.id in stored)
  }

  ghost predicate AnswersInv(wire: set<Request>, answers: set<Answer>, counter: nat, stored: set<Id>) {
    && (forall a :: a in answers ==> a.number < counter)
    && (forall a, q :: a in answers && q in wire && a.number == q.number ==> AnswerFits(a, q, stored))
    && (forall a, r :: a in answers && r in a.receipts ==> ReportFits(r, stored))
  }

  /** The controller never claims node knowledge of an item the node does not hold. */
  ghost predicate HostInv(host: map<Id, Status>, letters: map<Id, Letter>, stored: set<Id>) {
    && host.Keys == letters.Keys
    && (forall id :: id in host ==> host[id] != Missing && (NodeObserved(host[id]) ==> id in stored))
  }

  /** A report of absence can only concern a delivery the controller is still unsure about, or one it settled. */
  ghost predicate AbsenceFits(host: map<Id, Status>, r: Reported) {
    && r.id in host && host[r.id] != HostStored
    && (r.state == Missing ==> host[r.id] == HostUncertain || Settled(host[r.id]))
  }

  predicate DistinctIds(items: seq<Item>) {
    forall i, j :: 0 <= i < j < |items| ==> items[i].id != items[j].id
  }

  ghost predicate Unconfirmed(host: map<Id, Status>, items: seq<Item>) {
    DistinctIds(items) && forall item :: item in items ==> item.id in host && host[item.id] == HostUncertain
  }

  ghost predicate AskedInv(host: map<Id, Status>, items: seq<Item>, asked: seq<Id>) {
    && Distinct(asked)
    && (forall id :: id in asked ==> id in host && host[id] != HostStored)
    && (forall item :: item in items ==> item.id !in asked)
  }

  ghost predicate PendingReports(host: map<Id, Status>, items: seq<Item>, receipts: seq<Reported>, stored: set<Id>) {
    && (forall i, j :: 0 <= i < j < |receipts| ==> receipts[i].id != receipts[j].id)
    && (forall r :: r in receipts ==> AbsenceFits(host, r) && ReportFits(r, stored))
    && (forall r, item :: r in receipts && item in items ==> r.id != item.id)
  }

  ghost predicate ExchangeInv(exchange: Exchange, host: map<Id, Status>, letters: map<Id, Letter>,
                              wire: set<Request>, answers: set<Answer>, stored: set<Id>) {
    match exchange
    case Free => true
    case Selecting(chosen, asked) =>
      Unconfirmed(host, chosen) && AskedInv(host, chosen, asked) && forall item :: item in chosen ==> Matches(letters, item)
    case Waiting(q) =>
      && q in wire && Unconfirmed(host, q.items) && AskedInv(host, q.items, q.asked)
      && (forall a, r :: a in answers && a.number == q.number && r in a.receipts ==> AbsenceFits(host, r))
    case Applying(confirm, receipts) =>
      && Unconfirmed(host, confirm) && PendingReports(host, confirm, receipts, stored)
      && (forall item :: item in confirm ==> item.id in stored)
  }

  ghost predicate Inv(s: Lane) {
    && HandedInv(s.node.receipts, s.holding, s.handed)
    && NodeInv(s.node.inbox, s.node.receipts, s.letters)
    && RequestsInv(s.wire, s.counter, s.letters)
    && AnswersInv(s.wire, s.answers, s.counter, Stored(s.node))
    && HostInv(s.host, s.letters, Stored(s.node))
    && ExchangeInv(s.exchange, s.host, s.letters, s.wire, s.answers, Stored(s.node))
  }

  // ---- every durable write keeps it ----

  lemma InvKeptBySend(s: Lane, a: Action)
    requires Inv(s) && Enabled(s, a) && a.Send?
    ensures Inv(Apply(s, a))
  {
    var letters := Apply(s, a).letters;
    forall q, item | q in s.wire && item in q.items ensures Matches(letters, item) {
      assert Matches(s.letters, item);
    }
    if s.exchange.Waiting? {
      forall x, r | x in s.answers && x.number == s.exchange.request.number && r in x.receipts
        ensures AbsenceFits(Apply(s, a).host, r)
      {
        assert AbsenceFits(s.host, r);
      }
    }
  }

  lemma InvKeptByHostEdit(s: Lane, a: Action)
    requires Inv(s) && Enabled(s, a)
    requires a.Revoke? || a.CancelUnsubmitted?
    ensures Inv(Apply(s, a))
  {
  }

  lemma InvKeptBySelecting(s: Lane, a: Action)
    requires Inv(s) && Enabled(s, a)
    requires a.Open? || a.Mark? || a.Abandon?
    ensures Inv(Apply(s, a))
  {
  }

  lemma InvKeptByTransmit(s: Lane)
    requires Inv(s) && Enabled(s, Transmit)
    ensures Inv(Apply(s, Transmit))
  {
  }

  lemma InvKeptByReceive(s: Lane, answer: Answer)
    requires Inv(s) && Enabled(s, Receive(answer))
    ensures Inv(Apply(s, Receive(answer)))
  {
    var q := s.exchange.request;
    assert AnswerFits(answer, q, Stored(s.node));
    forall r | r in answer.receipts ensures r.id in q.asked {
      var i :| 0 <= i < |answer.receipts| && answer.receipts[i] == r;
    }
  }

  lemma InvKeptByConfirm(s: Lane)
    requires Inv(s) && Enabled(s, Confirm)
    ensures Inv(Apply(s, Confirm))
  {
    var item, rest := s.exchange.confirm[0], s.exchange.confirm[1..];
    assert item in s.exchange.confirm;
    forall k | k in rest ensures k in s.exchange.confirm && k.id != item.id {
      var i :| 0 <= i < |rest| && rest[i] == k;
      assert s.exchange.confirm[i + 1] == k;
    }
  }

  /** Handling one report leaves the others as they were. */
  lemma RestPending(host: map<Id, Status>, receipts: seq<Reported>, stored: set<Id>, state: Status)
    requires receipts != [] && PendingReports(host, [], receipts, stored)
    ensures PendingReports(host[receipts[0].id := state], [], receipts[1..], stored)
    ensures AbsenceFits(host, receipts[0]) && ReportFits(receipts[0], stored)
  {
    var r, rest := receipts[0], receipts[1..];
    assert r in receipts;
    forall k | k in rest ensures k in receipts && k.id != r.id {
      var i :| 0 <= i < |rest| && rest[i] == k;
      assert receipts[i + 1] == k;
    }
  }

  lemma InvKeptByApplyReceipt(s: Lane)
    requires Inv(s) && Enabled(s, ApplyReceipt)
    ensures Inv(Apply(s, ApplyReceipt))
  {
    var r := s.exchange.receipts[0];
    var applied := Applied(s.host[r.id], r.state);
    RestPending(s.host, s.exchange.receipts, Stored(s.node), if applied.Some? then applied.value else Cancelled);
  }

  lemma InvKeptByAdmission(s: Lane, a: Action)
    requires Inv(s) && Enabled(s, a)
    requires a.AdmitItem? || a.AdmitReceipt?
    ensures Inv(Apply(s, a))
  {
    var s' := Apply(s, a);
    assert Stored(s.node) <= Stored(s'.node);
    forall x, r | x in s.answers && r in x.receipts ensures ReportFits(r, Stored(s'.node)) {
      assert ReportFits(r, Stored(s.node));
    }
    forall x, q | x in s.answers && q in s.wire && x.number == q.number ensures AnswerFits(x, q, Stored(s'.node)) {
      assert AnswerFits(x, q, Stored(s.node));
    }
  }

  lemma InvKeptByRespond(s: Lane, q: Request)
    requires Inv(s) && Enabled(s, Respond(q))
    ensures Inv(Apply(s, Respond(q)))
  {
    var answer := Answer(q.number, ReportAll(s.node, q.asked));
    forall r | r in answer.receipts ensures ReportFits(r, Stored(s.node)) && r.id in q.asked {
      var i :| 0 <= i < |answer.receipts| && answer.receipts[i] == r;
    }
    assert AnswerFits(answer, q, Stored(s.node));
  }

  lemma InvKeptByReceipts(s: Lane, a: Action)
    requires Inv(s) && Enabled(s, a)
    requires a.StopReceipt? || a.ExpireNext? || a.RefuseNext? || a.Read?
    ensures Inv(Apply(s, a))
  {
    assert Stored(Apply(s, a).node) == Stored(s.node);
  }

  lemma InvKeptByRuntime(s: Lane, a: Action)
    requires Inv(s) && Enabled(s, a)
    requires a.ReserveNext? || a.AdapterReceipt?
    ensures Inv(Apply(s, a))
  {
    assert Stored(Apply(s, a).node) == Stored(s.node);
  }

  lemma InvKeptByNodeOthers(s: Lane, a: Action)
    requires Inv(s) && Enabled(s, a)
    requires a.Bind? || a.ReturnNext? || a.NodeCrash? || a.Archive?
    ensures Inv(Apply(s, a))
  {
    assert Stored(Apply(s, a).node) == Stored(s.node);
  }

  lemma InvKept(s: Lane, a: Action)
    requires Inv(s) && Enabled(s, a)
    ensures Inv(Apply(s, a))
  {
    if a.Send? { InvKeptBySend(s, a); }
    else if a.Revoke? || a.CancelUnsubmitted? { InvKeptByHostEdit(s, a); }
    else if a.Open? || a.Mark? || a.Abandon? { InvKeptBySelecting(s, a); }
    else if a.Transmit? { InvKeptByTransmit(s); }
    else if a.Receive? { InvKeptByReceive(s, a.answer); }
    else if a.Confirm? { InvKeptByConfirm(s); }
    else if a.ApplyReceipt? { InvKeptByApplyReceipt(s); }
    else if a.AdmitItem? || a.AdmitReceipt? { InvKeptByAdmission(s, a); }
    else if a.Respond? { InvKeptByRespond(s, a.request); }
    else if a.Bind? || a.ReturnNext? || a.NodeCrash? || a.Archive? { InvKeptByNodeOthers(s, a); }
    else if a.ReserveNext? || a.AdapterReceipt? { InvKeptByRuntime(s, a); }
    else { InvKeptByReceipts(s, a); }
  }
}
