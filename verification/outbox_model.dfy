/** Replies of one agent on their way to the bus: the node's outbox files, the controller's decision per reply, the
    acknowledgements it keeps in the agent record, and a network that may lose, delay or repeat an exchange. */
module OutboxModel {
  import opened Base

  type Key = nat

  /** A canonical bus message of the run, whoever sent it. */
  datatype Row = Row(owner: nat, key: Key, content: Bytes, sequence: nat, ordinal: nat)

  datatype Entry = Entry(key: Key, content: Bytes)

  datatype Refusal = Refusal(code: string, digest: Digest)

  datatype Ack = Accepted(key: Key) | Rejected(key: Key, refusal: Refusal)

  datatype Request = Request(number: nat, acks: seq<Ack>)

  datatype Listing = Listing(number: nat, entries: seq<Entry>)

  /** The controller coroutine holding the agent's lock; lost when it fails or the controller stops. */
  datatype Task = Free | Waiting(request: Request) | Collecting(rest: seq<Entry>, made: seq<Ack>)

  datatype Node = Node(outbox: map<Key, Bytes>, sent: map<Key, Bytes>, rejected: map<Key, Bytes>, refusals: map<Key, Refusal>)

  /** `submitted` and `refused` are history: what the agent ever queued, and what the controller ever refused for good. */
  datatype State = State(
    bus: seq<Row>, acks: seq<Ack>, task: Task, counter: nat,
    wire: set<Request>, listings: set<Listing>, node: Node,
    submitted: map<Key, Bytes>, refused: map<Key, Refusal>)

  datatype Action =
    // node
    | Submit(key: Key, content: Bytes)
    | WriteSent(key: Key)
    | UnlinkSent(key: Key)
    | WriteRefusal(key: Key, refusal: Refusal)
    | Retain(key: Key)
    | Respond(request: Request, entries: seq<Entry>)
    // controller
    | PostOther(owner: nat, key: Key, content: Bytes)
    | Dispatch
    | Collect(listing: Listing)
    | Store
    | Accept
    | Refuse(code: string)
    | Skip
    | Finish
    | Abandon(saved: bool)

  const BATCH := 8

  /** What one agent (`me`) may post: `valid` is the field validation of the message schema. */
  datatype Setup = Setup(me: nat, valid: Bytes -> bool)

  /** What a sender has on the bus, by idempotency key. */
  function Mine(bus: seq<Row>, owner: nat): map<Key, Bytes> {
    if bus == [] then map[]
    else
      var rest := Mine(bus[..|bus| - 1], owner);
      var row := bus[|bus| - 1];
      if row.owner == owner then rest[row.key := row.content] else rest
  }

  /** The highest sequence number a sender has used in the run. */
  function LastSequence(bus: seq<Row>, owner: nat): nat {
    if bus == [] then 0
    else
      var rest := LastSequence(bus[..|bus| - 1], owner);
      var row := bus[|bus| - 1];
      if row.owner == owner then Max(rest, row.sequence) else rest
  }

  function NewRow(bus: seq<Row>, owner: nat, key: Key, content: Bytes): Row {
    Row(owner, key, content, LastSequence(bus, owner) + 1, |bus| + 1)
  }

  predicate DistinctKeys(entries: seq<Entry>) {
    forall i, j :: 0 <= i < j < |entries| ==> entries[i].key != entries[j].key
  }

  /** A listing shows up to eight pending entries. */
  predicate Lists(outbox: map<Key, Bytes>, entries: seq<Entry>) {
    && DistinctKeys(entries) && |entries| == Min(BATCH, |outbox|)
    && forall e :: e in entries ==> e.key in outbox && outbox[e.key] == e.content
  }

  /** An acknowledgement has been carried out on the node. */
  predicate Settled(node: Node, ack: Ack) {
    && ack.key !in node.outbox
    && (ack.Rejected? ==> ack.key in node.rejected && ack.key in node.refusals)
  }

  ghost predicate Carried(wire: set<Request>, ack: Ack) {
    exists q :: q in wire && ack in q.acks
  }

  predicate OnBus(mine: map<Key, Bytes>, e: Entry) {
    e.key in mine && mine[e.key] == e.content
  }

  ghost predicate Enabled(u: Setup, s: State, a: Action) {
    match a
    case Submit(key, _) => key !in s.node.outbox && key !in s.node.sent && key !in s.node.rejected
    case WriteSent(key) => Carried(s.wire, Accepted(key)) && key in s.node.outbox
    case UnlinkSent(key) => key in s.node.outbox && key in s.node.sent
    case WriteRefusal(key, refusal) =>
      && Carried(s.wire, Rejected(key, refusal)) && key !in s.node.refusals
      && (key in s.node.outbox || key in s.node.rejected)
    case Retain(key) => key in s.node.outbox && key in s.node.refusals
    case Respond(q, entries) =>
      q in s.wire && (forall ack :: ack in q.acks ==> Settled(s.node, ack)) && Lists(s.node.outbox, entries)
    case PostOther(owner, key, _) => owner != u.me && key !in Mine(s.bus, owner)
    case Dispatch => s.task.Free?
    case Collect(listing) => s.task.Waiting? && listing in s.listings && listing.number == s.task.request.number
    case Store =>
      && s.task.Collecting? && s.task.rest != [] && u.valid(s.task.rest[0].content)
      && s.task.rest[0].key !in Mine(s.bus, u.me)
    case Accept =>
      && s.task.Collecting? && s.task.rest != []
      && OnBus(Mine(s.bus, u.me), s.task.rest[0])
    case Refuse(_) =>
      && s.task.Collecting? && s.task.rest != []
      && (u.valid(s.task.rest[0].content) ==> !OnBus(Mine(s.bus, u.me), s.task.rest[0]))
    case Skip => s.task.Collecting? && s.task.rest != []
    case Finish => s.task.Collecting? && s.task.rest == []
    case Abandon(_) => true
  }

  function Moved(node: Node, key: Key): Node
    requires key in node.outbox
  {
    node.(outbox := node.outbox - {key}, rejected := node.rejected[key := node.outbox[key]])
  }

  /** The saved agent record after one more decision. */
  function Decided(s: State, ack: Ack): State
    requires s.task.Collecting? && s.task.rest != []
  {
    var made := s.task.made + [ack];
    s.(acks := made, task := Collecting(s.task.rest[1..], made))
  }

  ghost function Apply(u: Setup, s: State, a: Action): State
    requires Enabled(u, s, a)
  {
    match a
    case Submit(key, content) =>
      s.(node := s.node.(outbox := s.node.outbox[key := content]), submitted := s.submitted[key := content])
    case WriteSent(key) => s.(node := s.node.(sent := s.node.sent[key := s.node.outbox[key]]))
    case UnlinkSent(key) => s.(node := s.node.(outbox := s.node.outbox - {key}))
    case WriteRefusal(key, refusal) => s.(node := s.node.(refusals := s.node.refusals[key := refusal]))
    case Retain(key) => s.(node := Moved(s.node, key))
    case Respond(q, entries) => s.(listings := s.listings + {Listing(q.number, entries)})
    case PostOther(owner, key, content) => s.(bus := s.bus + [NewRow(s.bus, owner, key, content)])
    case Dispatch =>
      var q := Request(s.counter, s.acks);
      s.(wire := s.wire + {q}, counter := s.counter + 1, task := Waiting(q))
    case Collect(listing) => s.(task := Collecting(listing.entries, []))
    case Store => s.(bus := s.bus + [NewRow(s.bus, u.me, s.task.rest[0].key, s.task.rest[0].content)])
    case Accept => Decided(s, Accepted(s.task.rest[0].key))
    case Refuse(code) =>
      var e := s.task.rest[0];
      var refusal := if e.key in s.refused then s.refused[e.key] else Refusal(code, Sha256(e.content));
      Decided(s, Rejected(e.key, refusal)).(refused := s.refused[e.key := refusal])
    case Skip => s.(task := Collecting(s.task.rest[1..], s.task.made))
    case Finish => s.(acks := s.task.made, task := Free)
    case Abandon(saved) => s.(acks := if saved && s.task.Collecting? then s.task.made else s.acks, task := Free)
  }

  ghost function Next(u: Setup, s: State, a: Action): Option<State> {
    if Enabled(u, s, a) then Some(Apply(u, s, a)) else None
  }

  function Initial(): State {
    State([], [], Free, 0, {}, {}, Node(map[], map[], map[], map[]), map[], map[])
  }

  // ---- the invariant, part by part ----

  /** Nothing queued is ever lost or altered: it is pending, sent, or retained as rejected. */
  ghost predicate NodeInv(node: Node, submitted: map<Key, Bytes>) {
    && node.outbox.Keys + node.sent.Keys + node.rejected.Keys == submitted.Keys
    && node.outbox.Keys !! node.rejected.Keys && node.rejected.Keys <= node.refusals.Keys
    && (forall k :: k in node.outbox ==> node.outbox[k] == submitted[k])
    && (forall k :: k in node.sent ==> node.sent[k] == submitted[k])
    && (forall k :: k in node.rejected ==> node.rejected[k] == submitted[k])
  }

  /** Each sender's messages carry 1, 2, 3, …; the run's messages carry their place; no key is used twice. */
  ghost predicate BusInv(bus: seq<Row>) {
    forall i :: 0 <= i < |bus| ==>
      bus[i].ordinal == i + 1 && bus[i].sequence == LastSequence(bus[..i], bus[i].owner) + 1
      && bus[i].key !in Mine(bus[..i], bus[i].owner)
  }

  /** The message the agent queued under a key is the one on the bus. */
  ghost predicate MineInv(valid: Bytes -> bool, mine: map<Key, Bytes>, submitted: map<Key, Bytes>) {
    forall k :: k in mine ==> k in submitted && mine[k] == submitted[k] && valid(mine[k])
  }

  /** The node moves an entry only on the controller's decision, and no key has two decisions. */
  ghost predicate DecisionInv(mine: map<Key, Bytes>, node: Node, submitted: map<Key, Bytes>, refused: map<Key, Refusal>) {
    && node.sent.Keys <= mine.Keys && mine.Keys !! refused.Keys
    && (forall k :: k in node.refusals ==> k in refused && node.refusals[k] == refused[k])
    && (forall k :: k in refused ==> k in submitted && refused[k].digest == Sha256(submitted[k]))
  }

  ghost predicate AckFits(mine: map<Key, Bytes>, refused: map<Key, Refusal>, ack: Ack) {
    match ack
    case Accepted(key) => key in mine
    case Rejected(key, refusal) => key in refused && refused[key] == refusal
  }

  ghost predicate AcksFit(mine: map<Key, Bytes>, refused: map<Key, Refusal>, acks: seq<Ack>) {
    |acks| <= BATCH && forall ack :: ack in acks ==> AckFits(mine, refused, ack)
  }

  ghost predicate WireInv(wire: set<Request>, counter: nat, mine: map<Key, Bytes>, refused: map<Key, Refusal>) {
    && (forall q :: q in wire ==> q.number < counter && AcksFit(mine, refused, q.acks))
    && (forall q, q' :: q in wire && q' in wire && q.number == q'.number ==> q == q')
  }

  ghost predicate EntriesFit(entries: seq<Entry>, submitted: map<Key, Bytes>) {
    && DistinctKeys(entries) && |entries| <= BATCH
    && forall e :: e in entries ==> e.key in submitted && submitted[e.key] == e.content
  }

  ghost predicate ListingsInv(listings: set<Listing>, counter: nat, submitted: map<Key, Bytes>) {
    forall l :: l in listings ==> l.number < counter && EntriesFit(l.entries, submitted)
  }

  /** A refusal is either carried out on the node or still among the acknowledgements to send. */
  ghost predicate Outstanding(refused: map<Key, Refusal>, rejected: set<Key>, acks: seq<Ack>) {
    forall k :: k in refused ==> k in rejected || Rejected(k, refused[k]) in acks
  }

  ghost predicate Undecided(refused: map<Key, Refusal>, entries: seq<Entry>) {
    forall e :: e in entries ==> e.key !in refused
  }

  /** A listing that answers the current request shows no entry the controller has already refused. */
  ghost predicate AnswersInv(listings: set<Listing>, number: nat, refused: map<Key, Refusal>, rejected: set<Key>) {
    forall l :: l in listings && l.number == number ==> Undecided(refused, l.entries) && Outstanding(refused, rejected, [])
  }

  ghost predicate CollectingInv(rest: seq<Entry>, made: seq<Ack>, submitted: map<Key, Bytes>, mine: map<Key, Bytes>,
                                refused: map<Key, Refusal>, rejected: set<Key>) {
    && EntriesFit(rest, submitted) && Undecided(refused, rest) && |rest| + |made| <= BATCH
    && AcksFit(mine, refused, made) && Outstanding(refused, rejected, made)
  }

  ghost predicate TaskInv(s: State, mine: map<Key, Bytes>) {
    match s.task
    case Free => true
    case Waiting(q) => q in s.wire && q.acks == s.acks && AnswersInv(s.listings, q.number, s.refused, s.node.rejected.Keys)
    case Collecting(rest, made) => CollectingInv(rest, made, s.submitted, mine, s.refused, s.node.rejected.Keys)
  }

  ghost predicate Inv(u: Setup, s: State) {
    var mine := Mine(s.bus, u.me);
    && NodeInv(s.node, s.submitted)
    && BusInv(s.bus) && MineInv(u.valid, mine, s.submitted)
    && DecisionInv(mine, s.node, s.submitted, s.refused)
    && WireInv(s.wire, s.counter, mine, s.refused)
    && ListingsInv(s.listings, s.counter, s.submitted)
    && AcksFit(mine, s.refused, s.acks)
    && Outstanding(s.refused, s.node.rejected.Keys, s.acks)
    && TaskInv(s, mine)
  }

  // ---- every durable write keeps it ----

  lemma InvKeptBySubmit(u: Setup, s: State, a: Action)
    requires Inv(u, s) && Next(u, s, a).Some? && a.Submit?
    ensures Inv(u, Next(u, s, a).value)
  {
    var s' := Next(u, s, a).value;
    forall e: Entry | e.key in s.submitted && s.submitted[e.key] == e.content
      ensures e.key in s'.submitted && s'.submitted[e.key] == e.content {
    }
    forall l | l in s.listings ensures EntriesFit(l.entries, s'.submitted) {
      assert EntriesFit(l.entries, s.submitted);
    }
  }

  lemma InvKeptBySent(u: Setup, s: State, a: Action)
    requires Inv(u, s) && Next(u, s, a).Some?
    requires a.WriteSent? || a.UnlinkSent?
    ensures Inv(u, Next(u, s, a).value)
  {
    if a.WriteSent? {
      var q :| q in s.wire && Accepted(a.key) in q.acks;
      assert AckFits(Mine(s.bus, u.me), s.refused, Accepted(a.key));
    }
  }

  lemma InvKeptByRejection(u: Setup, s: State, a: Action)
    requires Inv(u, s) && Next(u, s, a).Some?
    requires a.WriteRefusal? || a.Retain?
    ensures Inv(u, Next(u, s, a).value)
  {
    if a.Retain? {
      assert Next(u, s, a).value.node.rejected.Keys == s.node.rejected.Keys + {a.key};
    } else {
      var q :| q in s.wire && Rejected(a.key, a.refusal) in q.acks;
      assert AckFits(Mine(s.bus, u.me), s.refused, Rejected(a.key, a.refusal));
    }
  }

  /** Once the acknowledgements of the current request are carried out, nothing refused is still pending. */
  lemma NothingRefusedIsPending(node: Node, refused: map<Key, Refusal>, acks: seq<Ack>, entries: seq<Entry>)
    requires Outstanding(refused, node.rejected.Keys, acks) && node.outbox.Keys !! node.rejected.Keys
    requires forall ack :: ack in acks ==> Settled(node, ack)
    requires Lists(node.outbox, entries)
    ensures Outstanding(refused, node.rejected.Keys, []) && Undecided(refused, entries)
  {
    forall k | k in refused ensures k in node.rejected.Keys {
      if Rejected(k, refused[k]) in acks {
        assert Settled(node, Rejected(k, refused[k]));
      }
    }
  }

  lemma ListingFits(node: Node, submitted: map<Key, Bytes>, entries: seq<Entry>)
    requires NodeInv(node, submitted) && Lists(node.outbox, entries)
    ensures EntriesFit(entries, submitted)
  {
  }

  lemma InvKeptByRespond(u: Setup, s: State, q: Request, entries: seq<Entry>)
    requires Inv(u, s) && q in s.wire && Lists(s.node.outbox, entries)
    requires forall ack :: ack in q.acks ==> Settled(s.node, ack)
    ensures Inv(u, s.(listings := s.listings + {Listing(q.number, entries)}))
  {
    ListingFits(s.node, s.submitted, entries);
    if s.task.Waiting? && s.task.request.number == q.number {
      assert q == s.task.request;
      NothingRefusedIsPending(s.node, s.refused, q.acks, entries);
    }
  }

  lemma PostKeepsBusInv(bus: seq<Row>, owner: nat, key: Key, content: Bytes)
    requires BusInv(bus) && key !in Mine(bus, owner)
    ensures BusInv(bus + [NewRow(bus, owner, key, content)])
    ensures forall o :: Mine(bus + [NewRow(bus, owner, key, content)], o)
                        == if o == owner then Mine(bus, o)[key := content] else Mine(bus, o)
  {
    var rows := bus + [NewRow(bus, owner, key, content)];
    assert rows[..|bus|] == bus;
    forall i | 0 <= i < |bus| ensures rows[..i] == bus[..i] && rows[i] == bus[i] {
    }
  }

  /** Decisions are only added. */
  predicate Grown(refused: map<Key, Refusal>, refused': map<Key, Refusal>) {
    refused.Keys <= refused'.Keys && forall k :: k in refused ==> refused'[k] == refused[k]
  }

  lemma AcksStillFit(mine: map<Key, Bytes>, mine': map<Key, Bytes>, refused: map<Key, Refusal>, refused': map<Key, Refusal>, acks: seq<Ack>)
    requires mine.Keys <= mine'.Keys && Grown(refused, refused') && AcksFit(mine, refused, acks)
    ensures AcksFit(mine', refused', acks)
  {
    forall ack | ack in acks ensures AckFits(mine', refused', ack) {
      assert AckFits(mine, refused, ack);
    }
  }

  lemma WireStillFits(wire: set<Request>, counter: nat, mine: map<Key, Bytes>, mine': map<Key, Bytes>,
                      refused: map<Key, Refusal>, refused': map<Key, Refusal>)
    requires mine.Keys <= mine'.Keys && Grown(refused, refused') && WireInv(wire, counter, mine, refused)
    ensures WireInv(wire, counter, mine', refused')
  {
    forall q | q in wire ensures AcksFit(mine', refused', q.acks) {
      AcksStillFit(mine, mine', refused, refused', q.acks);
    }
  }

  lemma InvKeptByPostOther(u: Setup, s: State, a: Action)
    requires Inv(u, s) && Next(u, s, a).Some? && a.PostOther?
    ensures Inv(u, Next(u, s, a).value)
  {
    PostKeepsBusInv(s.bus, a.owner, a.key, a.content);
  }

  lemma InvKeptByStore(u: Setup, s: State, a: Action)
    requires Inv(u, s) && Next(u, s, a).Some? && a.Store?
    ensures Inv(u, Next(u, s, a).value)
  {
    var e := s.task.rest[0];
    assert e in s.task.rest;
    PostKeepsBusInv(s.bus, u.me, e.key, e.content);
    var mine, mine' := Mine(s.bus, u.me), Mine(Next(u, s, a).value.bus, u.me);
    AcksStillFit(mine, mine', s.refused, s.refused, s.acks);
    AcksStillFit(mine, mine', s.refused, s.refused, s.task.made);
    WireStillFits(s.wire, s.counter, mine, mine', s.refused, s.refused);
  }

  lemma RestFits(rest: seq<Entry>, submitted: map<Key, Bytes>)
    requires EntriesFit(rest, submitted) && rest != []
    ensures EntriesFit(rest[1..], submitted) && rest[0] in rest
    ensures forall e :: e in rest[1..] ==> e in rest && e.key != rest[0].key
  {
    forall e | e in rest[1..] ensures e in rest && e.key != rest[0].key {
      var i :| 0 <= i < |rest[1..]| && rest[1..][i] == e;
      assert rest[i + 1] == e;
    }
  }

  lemma InvKeptByAccept(u: Setup, s: State, a: Action)
    requires Inv(u, s) && Next(u, s, a).Some?
    requires a.Accept? || a.Skip?
    ensures Inv(u, Next(u, s, a).value)
  {
    RestFits(s.task.rest, s.submitted);
  }

  lemma InvKeptByRefuse(u: Setup, s: State, a: Action)
    requires Inv(u, s) && Next(u, s, a).Some? && a.Refuse?
    ensures Inv(u, Next(u, s, a).value)
  {
    RestFits(s.task.rest, s.submitted);
    var mine, refused' := Mine(s.bus, u.me), Next(u, s, a).value.refused;
    assert s.task.rest[0].key !in s.refused;
    AcksStillFit(mine, mine, s.refused, refused', s.task.made);
    WireStillFits(s.wire, s.counter, mine, mine, s.refused, refused');
  }

  lemma InvKeptByTask(u: Setup, s: State, a: Action)
    requires Inv(u, s) && Next(u, s, a).Some?
    requires a.Dispatch? || a.Collect? || a.Finish? || a.Abandon?
    ensures Inv(u, Next(u, s, a).value)
  {
  }

  lemma InvKept(u: Setup, s: State, a: Action)
    requires Inv(u, s) && Next(u, s, a).Some?
    ensures Inv(u, Next(u, s, a).value)
  {
    if a.Submit? { InvKeptBySubmit(u, s, a); }
    else if a.WriteSent? || a.UnlinkSent? { InvKeptBySent(u, s, a); }
    else if a.WriteRefusal? || a.Retain? { InvKeptByRejection(u, s, a); }
    else if a.Respond? { InvKeptByRespond(u, s, a.request, a.entries); }
    else if a.PostOther? { InvKeptByPostOther(u, s, a); }
    else if a.Store? { InvKeptByStore(u, s, a); }
    else if a.Accept? || a.Skip? { InvKeptByAccept(u, s, a); }
    else if a.Refuse? { InvKeptByRefuse(u, s, a); }
    else { InvKeptByTask(u, s, a); }
  }
}
