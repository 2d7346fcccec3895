/** The audit delivery task: one durable checkpoint, a destination that appends batches, admission requests that
    wait for durability, and crashes or failed checkpoint writes anywhere in between. */
module AuditModel {
  import opened Base
  import opened AuditPages

  datatype Checkpoint = Checkpoint(sequence: nat, cursor: nat, lastSeen: nat, gaps: nat, pending: Option<Batch>)

  /** Where the polling task is: between steps, with a new batch not yet saved, about to append the saved batch, or
      with an accepted acknowledgement not yet saved. */
  datatype Phase = Top | Built | Sending | Acked

  datatype Process =
    | Down
    | Up(value: Checkpoint, dirty: bool, queue: seq<nat>, active: Option<nat>, waiting: set<nat>, phase: Phase)

  /** `appended`, `chain` and `released` are history: batches the destination was given, the distinct batches it
      acknowledged in order, and the requests that were let through. */
  datatype State = State(
    rows: map<nat, nat>, disk: Checkpoint, process: Process,
    appended: set<Batch>, chain: seq<Batch>, released: set<nat>)

  datatype Action =
    | Rewrite(rows: map<nat, nat>)  // the controller records, retention deletes, or an older database is restored
    | Admit(request: nat)
    | TimeOut(request: nat)
    | Look
    | Resume
    | Append
    | Fail
    | Acknowledge
    | Save(written: bool, ok: bool)
    | Stop
    | Start

  function Initial(): State {
    State(map[], Checkpoint(0, 0, 0, 0, None), Down, {}, [], {})
  }

  /** Requests whose waiter gave up are dropped from the front. */
  function Live(queue: seq<nat>, waiting: set<nat>): (r: seq<nat>)
    ensures r == [] || r[0] in waiting
  {
    if queue == [] || queue[0] in waiting then queue else Live(queue[1..], waiting)
  }

  /** The first request in the queue whose waiter has not given up. */
  predicate FirstWaiting(queue: seq<nat>, waiting: set<nat>, i: int) {
    0 <= i < |queue| && queue[i] in waiting && forall k :: 0 <= k < i ==> queue[k] !in waiting
  }

  lemma {:induction false} LiveIsTheRest(queue: seq<nat>, waiting: set<nat>)
    ensures forall i :: FirstWaiting(queue, waiting, i) ==> Live(queue, waiting) == queue[i..]
    ensures (forall k :: 0 <= k < |queue| ==> queue[k] !in waiting) ==> Live(queue, waiting) == []
    ensures forall r :: r in queue && r in waiting ==> r in Live(queue, waiting)
  {
    if queue != [] && queue[0] !in waiting {
      var rest := queue[1..];
      LiveIsTheRest(rest, waiting);
      forall i | FirstWaiting(queue, waiting, i) ensures Live(queue, waiting) == queue[i..] {
        assert i > 0 && queue[i..] == rest[i - 1..];
        assert FirstWaiting(rest, waiting, i - 1);
      }
      forall r | r in queue && r in waiting ensures r in rest {
        var k :| 0 <= k < |queue| && queue[k] == r;
        assert rest[k - 1] == r;
      }
    }
  }

  predicate NoneWaiting(queue: seq<nat>, waiting: set<nat>) {
    forall k :: 0 <= k < |queue| ==> queue[k] !in waiting
  }

  /** What is left to deliver after a cursor. */
  ghost function History(rows: map<nat, nat>, cursor: nat): seq<Event> {
    SelectedRows(rows, cursor);
    Entries(rows, Selected(rows, cursor), cursor)
  }

  /** The table stands behind the checkpoint. */
  predicate Behind(rows: map<nat, nat>, c: Checkpoint) { Last(rows) < c.lastSeen || Last(rows) < c.cursor }

  /** A queued request enters the next batch only when no history is left to deliver. */
  function NextEvents(page: seq<Event>, live: seq<nat>, sequence: nat): seq<Event> {
    if page != [] then page
    else if live != [] then [Intent(live[0])]
    else if sequence == 0 then [Stream]
    else []
  }

  function Refused(p: Process): Process
    requires p.Up?
  {
    p.(queue := [], active := None, waiting := {}, phase := Top)
  }

  function AfterLook(rows: map<nat, nat>, p: Process): Process
    requires p.Up?
  {
    var c := p.value;
    var last := Last(rows);
    if last < c.lastSeen || last < c.cursor then Refused(p)
    else
      var ids := Selected(rows, c.cursor);
      var page := Entries(rows, ids, c.cursor);
      var live := if page == [] then Live(p.queue, p.waiting) else p.queue;
      var events := NextEvents(page, live, c.sequence);
      var seen := c.(lastSeen := last);
      if events == [] then p.(value := seen, queue := live)
      else
        var sent := seen.(pending := Some(Batch(c.sequence + 1, c.cursor, Through(ids, c.cursor), events)));
        if page == [] && live != [] then p.(value := sent, queue := live[1..], active := Some(live[0]), phase := Built)
        else p.(value := sent, queue := live, phase := Built)
  }

  function Advanced(c: Checkpoint, b: Batch): Checkpoint {
    Checkpoint(b.sequence, b.through, c.lastSeen, c.gaps + GapCount(b.events), None)
  }

  ghost predicate Enabled(s: State, a: Action) {
    match a
    case Rewrite(rows) => forall id :: id in rows ==> 0 < id < LIMIT
    case Admit(request) => s.process.Up?
    case TimeOut(request) => s.process.Up?
    case Look => s.process.Up? && s.process.phase == Top && !s.process.dirty && s.process.value.pending.None?
    case Resume => s.process.Up? && s.process.phase == Top && !s.process.dirty && s.process.value.pending.Some?
    case Append => s.process.Up? && s.process.phase == Sending && s.process.value.pending.Some?
    case Fail => s.process.Up? && s.process.phase == Sending
    case Acknowledge =>
      && s.process.Up? && s.process.phase == Sending && s.process.value.pending.Some?
      && s.process.value.pending.value in s.appended
    case Save(written, ok) =>
      && s.process.Up? && (ok ==> written)
      && (s.process.phase in {Built, Acked} || (s.process.phase == Top && s.process.dirty))
    case Stop => true
    case Start => s.process.Down?
  }

  function Joined(chain: seq<Batch>, b: Batch): seq<Batch> {
    if chain != [] && chain[|chain| - 1] == b then chain else chain + [b]
  }

  /** The process after one attempt to save its checkpoint. */
  function AfterSave(p: Process, ok: bool): Process
    requires p.Up?
  {
    if !ok then Refused(p.(dirty := true))
    else
      match p.phase
      case Top => Refused(p.(dirty := false))
      case Built => p.(dirty := false, phase := Sending)
      case Sending => p
      case Acked =>
        var kept := if p.active.Some? then p.waiting - {p.active.value} else p.waiting;
        p.(dirty := false, active := None, waiting := kept, phase := Top)
  }

  function Released(p: Process, ok: bool): set<nat>
    requires p.Up?
  {
    if ok && p.phase == Acked && p.active.Some? && p.active.value in p.waiting then {p.active.value} else {}
  }

  ghost function Apply(s: State, a: Action): State
    requires Enabled(s, a)
  {
    match a
    case Rewrite(rows) => s.(rows := rows)
    case Admit(request) =>
      s.(process := s.process.(queue := s.process.queue + [request], waiting := s.process.waiting + {request}))
    case TimeOut(request) => s.(process := s.process.(waiting := s.process.waiting - {request}))
    case Look => s.(process := AfterLook(s.rows, s.process))
    case Resume => s.(process := s.process.(phase := Sending))
    case Append => s.(appended := s.appended + {s.process.value.pending.value})
    case Fail => s.(process := Refused(s.process))
    case Acknowledge =>
      var b := s.process.value.pending.value;
      s.(process := s.process.(value := Advanced(s.process.value, b), phase := Acked), chain := Joined(s.chain, b))
    case Save(written, ok) =>
      s.(disk := if written then s.process.value else s.disk, process := AfterSave(s.process, ok),
         released := s.released + Released(s.process, ok))
    case Stop => s.(process := Down)
    case Start => s.(process := Up(s.disk, false, [], None, {}, Top))
  }

  ghost function Next(s: State, a: Action): Option<State> {
    if Enabled(s, a) then Some(Apply(s, a)) else None
  }

  // ---- the invariant ----

  /** Where the cursor stands after the first n acknowledged batches. */
  function Cursor(chain: seq<Batch>, n: nat): nat
    requires n <= |chain|
  {
    if n == 0 then 0 else chain[n - 1].through
  }

  function GapTotal(chain: seq<Batch>, n: nat): nat
    requires n <= |chain|
  {
    if n == 0 then 0 else GapTotal(chain, n - 1) + GapCount(chain[n - 1].events)
  }

  /** Acknowledged batches are numbered 1, 2, 3, … and each starts where the one before ended. */
  ghost predicate ChainInv(chain: seq<Batch>) {
    forall i :: 0 <= i < |chain| ==>
      Acceptable(chain[i]) && chain[i].sequence == i + 1 && chain[i].after == Cursor(chain, i)
  }

  /** A checkpoint stands at a point of the chain; its pending batch is the next one. */
  ghost predicate CheckpointFits(c: Checkpoint, chain: seq<Batch>) {
    && c.sequence <= |chain| <= c.sequence + 1
    && c.cursor == Cursor(chain, c.sequence) && c.gaps == GapTotal(chain, c.sequence)
    && c.cursor <= c.lastSeen < LIMIT
    && (c.pending.None? ==> c.sequence == |chain|)
    && (c.pending.Some? ==> PendingFits(c.pending.value, c, chain))
  }

  ghost predicate PendingFits(b: Batch, c: Checkpoint, chain: seq<Batch>)
    requires c.sequence <= |chain| <= c.sequence + 1
  {
    && Acceptable(b) && b.sequence == c.sequence + 1 && b.after == c.cursor && b.through <= c.lastSeen
    && (c.sequence < |chain| ==> b == chain[c.sequence])
  }

  /** Anything ever appended is in the chain under its number, or is the batch the saved checkpoint will send next. */
  ghost predicate AppendedInv(appended: set<Batch>, chain: seq<Batch>, disk: Checkpoint) {
    forall b :: b in appended ==>
      && 1 <= b.sequence <= |chain| + 1
      && (b.sequence <= |chain| ==> b == chain[b.sequence - 1])
      && (b.sequence == |chain| + 1 ==> disk.pending == Some(b))
  }

  /** How far the poller's checkpoint may be ahead of the saved one. */
  ghost predicate InStep(p: Process, disk: Checkpoint)
    requires p.Up?
  {
    var c := p.value;
    match p.phase
    case Sending => c == disk && c.pending.Some?
    case Built => OneBuilt(c, disk)
    case Acked => OneAcked(c, disk)
    case Top => SameButSeen(c, disk) || (p.dirty && (OneBuilt(c, disk) || OneAcked(c, disk)))
  }

  ghost predicate SameButSeen(c: Checkpoint, disk: Checkpoint) {
    c == disk || (c.pending.None? && c.(lastSeen := disk.lastSeen) == disk)
  }

  ghost predicate OneBuilt(c: Checkpoint, disk: Checkpoint) {
    c.pending.Some? && c.sequence == disk.sequence && disk.pending.None?
  }

  ghost predicate OneAcked(c: Checkpoint, disk: Checkpoint) {
    c.pending.None? && disk.pending.Some? && c.sequence == disk.sequence + 1
  }

  ghost predicate Contains(chain: seq<Batch>, n: nat, request: nat)
    requires n <= |chain|
  {
    exists k :: 0 <= k < n && Intent(request) in chain[k].events
  }

  ghost predicate ActiveInv(p: Process, chain: seq<Batch>)
    requires p.Up?
  {
    p.active.Some? ==>
      match p.phase
      case Top => false
      case Built => p.value.pending.Some? && Intent(p.active.value) in p.value.pending.value.events
      case Sending => p.value.pending.Some? && Intent(p.active.value) in p.value.pending.value.events
      case Acked => chain != [] && Intent(p.active.value) in chain[|chain| - 1].events
  }

  /** Whoever still waits is queued, or is the request of the batch being delivered. */
  predicate NobodyStranded(p: Process)
    requires p.Up?
  {
    forall r :: r in p.waiting ==> r in p.queue || p.active == Some(r)
  }

  ghost predicate ProcessInv(p: Process, disk: Checkpoint, chain: seq<Batch>) {
    p.Up? ==> CheckpointFits(p.value, chain) && InStep(p, disk) && ActiveInv(p, chain) && NobodyStranded(p)
  }

  ghost predicate ReleasedInv(released: set<nat>, chain: seq<Batch>, n: nat)
    requires n <= |chain|
  {
    forall request :: request in released ==> Contains(chain, n, request)
  }

  ghost predicate Inv(s: State) {
    && (forall id :: id in s.rows ==> 0 < id < LIMIT)
    && ChainInv(s.chain)
    && CheckpointFits(s.disk, s.chain)
    && AppendedInv(s.appended, s.chain, s.disk)
    && ProcessInv(s.process, s.disk, s.chain)
    && ReleasedInv(s.released, s.chain, s.disk.sequence)
  }

  // ---- every step keeps it ----

  lemma InvKeptByOthers(s: State, a: Action)
    requires Inv(s) && Next(s, a).Some?
    requires a.Rewrite? || a.Admit? || a.TimeOut? || a.Resume? || a.Fail? || a.Stop? || a.Start?
    ensures Inv(Next(s, a).value)
  {
  }

  /** A batch built by a look is acceptable whatever it carries. */
  lemma BuiltFits(rows: map<nat, nat>, c: Checkpoint, live: seq<nat>)
    requires forall id :: id in rows ==> 0 < id < LIMIT
    requires Last(rows) >= c.cursor && c.cursor < LIMIT
    ensures var ids := Selected(rows, c.cursor);
      var events := NextEvents(Entries(rows, ids, c.cursor), live, c.sequence);
      c.cursor <= Through(ids, c.cursor) <= Last(rows) && (ids == [] ==> Entries(rows, ids, c.cursor) == [])
      && (events != [] ==> Acceptable(Batch(c.sequence + 1, c.cursor, Through(ids, c.cursor), events)))
  {
    SelectedRows(rows, c.cursor);
    var ids := Selected(rows, c.cursor);
    if ids != [] {
      EntriesTile(rows, ids, c.cursor);
      PageFits(rows, c.sequence, c.cursor);
      TilesOrder(Entries(rows, ids, c.cursor), c.cursor, Through(ids, c.cursor));
    } else {
      var events := NextEvents(Entries(rows, ids, c.cursor), live, c.sequence);
      if events != [] { SingleFits(c.sequence, c.cursor, events[0]); }
    }
  }

  /** What looking for work may change: the highest identity seen, or the next well-formed batch. */
  lemma LookBuilds(rows: map<nat, nat>, p: Process, chain: seq<Batch>)
    requires forall id :: id in rows ==> 0 < id < LIMIT
    requires p.Up? && p.value.pending.None? && CheckpointFits(p.value, chain) && p.phase == Top && p.active.None?
    ensures var q := AfterLook(rows, p);
      && q.Up? && CheckpointFits(q.value, chain) && ActiveInv(q, chain) && q.dirty == p.dirty
      && q.value.(lastSeen := p.value.lastSeen, pending := None) == p.value
      && ((q.phase == Top && q.value.pending.None?) || (q.phase == Built && q.value.pending.Some?))
  {
    var c := p.value;
    if !(Last(rows) < c.lastSeen || Last(rows) < c.cursor) {
      var page := Entries(rows, Selected(rows, c.cursor), c.cursor);
      BuiltFits(rows, c, if page == [] then Live(p.queue, p.waiting) else p.queue);
    }
  }

  /** The next batch is built, with exactly these events. */
  ghost predicate Builds(rows: map<nat, nat>, c: Checkpoint, q: Process, events: seq<Event>)
    requires q.Up?
  {
    q.phase == Built
    && q.value.pending == Some(Batch(c.sequence + 1, c.cursor, Through(Selected(rows, c.cursor), c.cursor), events))
  }

  /** History goes first, with the queue left alone; then the first request that still waits, which leaves the queue with
      everything before it; then the first event of a new stream. Otherwise nothing is built. */
  ghost predicate Looked(rows: map<nat, nat>, p: Process, q: Process)
    requires p.Up? && q.Up?
  {
    var page := History(rows, p.value.cursor);
    && q.waiting == p.waiting && q.value.sequence == p.value.sequence && q.value.cursor == p.value.cursor
    && (page != [] ==> Builds(rows, p.value, q, page) && q.queue == p.queue && q.active == p.active)
    && (page == [] ==> forall i :: FirstWaiting(p.queue, p.waiting, i) ==>
          Builds(rows, p.value, q, [Intent(p.queue[i])]) && q.active == Some(p.queue[i]) && q.queue == p.queue[i + 1..])
    && (page == [] && NoneWaiting(p.queue, p.waiting) ==>
          && q.queue == [] && q.active == p.active
          && if p.value.sequence == 0 then Builds(rows, p.value, q, [AuditPages.Stream]) else q.phase == p.phase)
  }

  lemma {:induction false} SomeoneWaits(queue: seq<nat>, waiting: set<nat>)
    ensures NoneWaiting(queue, waiting) || exists i :: FirstWaiting(queue, waiting, i)
  {
    if queue != [] {
      if queue[0] in waiting {
        assert FirstWaiting(queue, waiting, 0);
      } else {
        SomeoneWaits(queue[1..], waiting);
        if i :| FirstWaiting(queue[1..], waiting, i) {
          assert FirstWaiting(queue, waiting, i + 1);
        }
      }
    }
  }

  lemma LookSendsHistory(rows: map<nat, nat>, p: Process)
    requires p.Up? && !Behind(rows, p.value) && History(rows, p.value.cursor) != []
    ensures var q := AfterLook(rows, p);
      Builds(rows, p.value, q, History(rows, p.value.cursor)) && q.queue == p.queue && q.active == p.active && q.waiting == p.waiting
  {
  }

  lemma LookSendsRequest(rows: map<nat, nat>, p: Process, i: int)
    requires p.Up? && !Behind(rows, p.value) && History(rows, p.value.cursor) == [] && FirstWaiting(p.queue, p.waiting, i)
    ensures var q := AfterLook(rows, p);
      && Builds(rows, p.value, q, [Intent(p.queue[i])]) && q.active == Some(p.queue[i]) && q.queue == p.queue[i + 1..]
      && q.waiting == p.waiting
  {
    LiveIsTheRest(p.queue, p.waiting);
    assert Live(p.queue, p.waiting) == p.queue[i..];
  }

  lemma LookFindsNobody(rows: map<nat, nat>, p: Process)
    requires p.Up? && !Behind(rows, p.value) && History(rows, p.value.cursor) == [] && NoneWaiting(p.queue, p.waiting)
    ensures var q := AfterLook(rows, p);
      && q.queue == [] && q.active == p.active && q.waiting == p.waiting
      && if p.value.sequence == 0 then Builds(rows, p.value, q, [AuditPages.Stream]) else q.phase == p.phase
  {
    LiveIsTheRest(p.queue, p.waiting);
  }

  lemma LookFollows(rows: map<nat, nat>, p: Process)
    requires p.Up? && !Behind(rows, p.value)
    ensures AfterLook(rows, p).Up? && Looked(rows, p, AfterLook(rows, p))
  {
    SomeoneWaits(p.queue, p.waiting);
    if History(rows, p.value.cursor) != [] {
      LookSendsHistory(rows, p);
    } else if NoneWaiting(p.queue, p.waiting) {
      LookFindsNobody(rows, p);
    } else {
      forall i | FirstWaiting(p.queue, p.waiting, i)
        ensures Builds(rows, p.value, AfterLook(rows, p), [Intent(p.queue[i])])
        ensures AfterLook(rows, p).active == Some(p.queue[i]) && AfterLook(rows, p).queue == p.queue[i + 1..]
        ensures AfterLook(rows, p).waiting == p.waiting
      {
        LookSendsRequest(rows, p, i);
      }
    }
  }

  /** A look that builds nothing found nothing. */
  lemma NothingToSend(rows: map<nat, nat>, p: Process, q: Process)
    requires p.Up? && q.Up? && Looked(rows, p, q) && q.phase != Built
    ensures History(rows, p.value.cursor) == [] && NoneWaiting(p.queue, p.waiting) && q.queue == [] && p.value.sequence > 0
  {
    SomeoneWaits(p.queue, p.waiting);
  }

  lemma LookStrandsNobody(rows: map<nat, nat>, p: Process)
    requires p.Up? && NobodyStranded(p) && p.active.None?
    ensures AfterLook(rows, p).Up? && NobodyStranded(AfterLook(rows, p))
  {
    LiveIsTheRest(p.queue, p.waiting);
    var live, q := Live(p.queue, p.waiting), AfterLook(rows, p);
    forall r | r in q.waiting ensures r in q.queue || q.active == Some(r) {
      assert r in p.queue && r in live;
      if q.active.Some? {
        assert live == [live[0]] + live[1..];
      }
    }
  }

  lemma InvKeptByLook(s: State)
    requires Inv(s) && Next(s, Look).Some?
    ensures Inv(Next(s, Look).value)
  {
    LookBuilds(s.rows, s.process, s.chain);
    LookStrandsNobody(s.rows, s.process);
    assert AppendedInv(s.appended, s.chain, s.disk) && InStep(AfterLook(s.rows, s.process), s.disk);
  }

  /** Only the saved pending batch is ever sent. */
  lemma AppendFits(appended: set<Batch>, chain: seq<Batch>, disk: Checkpoint)
    requires AppendedInv(appended, chain, disk) && CheckpointFits(disk, chain) && disk.pending.Some?
    ensures AppendedInv(appended + {disk.pending.value}, chain, disk)
  {
  }

  lemma InvKeptByAppend(s: State)
    requires Inv(s) && Next(s, Append).Some?
    ensures Inv(Next(s, Append).value)
  {
    assert s.process.value == s.disk;
    AppendFits(s.appended, s.chain, s.disk);
  }

  lemma {:induction false} GapTotalPrefix(chain: seq<Batch>, more: seq<Batch>, n: nat)
    requires n <= |chain|
    ensures GapTotal(chain + more, n) == GapTotal(chain, n)
  {
    if n > 0 {
      GapTotalPrefix(chain, more, n - 1);
    }
  }

  lemma ContainsPrefix(chain: seq<Batch>, more: seq<Batch>, n: nat, released: set<nat>)
    requires n <= |chain| && ReleasedInv(released, chain, n)
    ensures ReleasedInv(released, chain + more, n)
  {
    forall request | request in released ensures Contains(chain + more, n, request) {
      var k :| 0 <= k < n && Intent(request) in chain[k].events;
      assert Intent(request) in (chain + more)[k].events;
    }
  }

  lemma ChainGrows(chain: seq<Batch>, b: Batch)
    requires ChainInv(chain) && Acceptable(b) && b.sequence == |chain| + 1 && b.after == Cursor(chain, |chain|)
    ensures ChainInv(chain + [b])
  {
    forall i | 0 <= i <= |chain| ensures Cursor(chain + [b], i) == Cursor(chain, i) {
    }
  }

  /** The saved checkpoint still fits when its pending batch joins the chain. */
  lemma PendingJoins(disk: Checkpoint, chain: seq<Batch>, b: Batch)
    requires CheckpointFits(disk, chain) && disk.pending == Some(b) && disk.sequence == |chain|
    ensures CheckpointFits(disk, chain + [b])
  {
    GapTotalPrefix(chain, [b], |chain|);
  }

  /** The advanced checkpoint stands after the acknowledged batch. */
  lemma AdvancedFits(c: Checkpoint, chain: seq<Batch>, b: Batch)
    requires CheckpointFits(c, chain) && c.pending == Some(b) && |chain| == c.sequence + 1
    ensures CheckpointFits(Advanced(c, b), chain)
  {
    assert chain[c.sequence] == b;
  }

  lemma AppendedJoins(appended: set<Batch>, chain: seq<Batch>, disk: Checkpoint, b: Batch)
    requires AppendedInv(appended, chain, disk) && disk.pending == Some(b)
    ensures AppendedInv(appended, chain + [b], disk)
  {
  }

  lemma FirstAcknowledgement(s: State)
    requires Inv(s) && Next(s, Acknowledge).Some? && s.disk.sequence == |s.chain|
    ensures Inv(Next(s, Acknowledge).value)
  {
    assert s.process.value == s.disk;
    var b := s.disk.pending.value;
    var chain := s.chain + [b];
    assert Joined(s.chain, b) == chain;
    ChainGrows(s.chain, b);
    PendingJoins(s.disk, s.chain, b);
    AdvancedFits(s.disk, chain, b);
    AppendedJoins(s.appended, s.chain, s.disk, b);
    ContainsPrefix(s.chain, [b], s.disk.sequence, s.released);
  }

  lemma LastIsPending(disk: Checkpoint, chain: seq<Batch>)
    requires CheckpointFits(disk, chain) && disk.pending.Some? && disk.sequence < |chain|
    ensures |chain| == disk.sequence + 1 && chain[|chain| - 1] == disk.pending.value
    ensures Joined(chain, disk.pending.value) == chain
  {
  }

  lemma RepeatedAcknowledgement(s: State, t: State)
    requires Inv(s) && Next(s, Acknowledge) == Some(t) && s.disk.sequence < |s.chain|
    ensures Inv(t)
  {
    assert InStep(s.process, s.disk);
    LastIsPending(s.disk, s.chain);
    AckedFits(s.process, s.disk, s.chain, s.disk.pending.value);
    assert t.process == s.process.(value := Advanced(s.disk, s.disk.pending.value), phase := Acked);
    assert t.chain == s.chain;
  }

  lemma AckedFits(p: Process, disk: Checkpoint, chain: seq<Batch>, b: Batch)
    requires p.Up? && p.value == disk && ProcessInv(p, disk, chain) && CheckpointFits(disk, chain) && p.phase == Sending
    requires disk.pending == Some(b) && |chain| == disk.sequence + 1
    ensures ProcessInv(p.(value := Advanced(disk, b), phase := Acked), disk, chain)
  {
    AdvancedFits(disk, chain, b);
    assert chain[|chain| - 1] == b;
  }

  /** An acknowledged batch is the next of the chain, or the one already there. */
  lemma InvKeptByAcknowledge(s: State)
    requires Inv(s) && Next(s, Acknowledge).Some?
    ensures Inv(Next(s, Acknowledge).value)
  {
    if s.disk.sequence == |s.chain| {
      FirstAcknowledgement(s);
    } else {
      RepeatedAcknowledgement(s, Next(s, Acknowledge).value);
    }
  }

  lemma ReleasedStays(released: set<nat>, chain: seq<Batch>, n: nat, m: nat)
    requires n <= m <= |chain| && ReleasedInv(released, chain, n)
    ensures ReleasedInv(released, chain, m)
  {
    forall request | request in released ensures Contains(chain, m, request) {
      var k :| 0 <= k < n && Intent(request) in chain[k].events;
    }
  }

  /** A save replaces the checkpoint by one the destination's history already agrees with. */
  lemma SaveFits(appended: set<Batch>, chain: seq<Batch>, p: Process, disk: Checkpoint)
    requires p.Up? && AppendedInv(appended, chain, disk) && CheckpointFits(disk, chain) && CheckpointFits(p.value, chain)
    requires InStep(p, disk)
    ensures AppendedInv(appended, chain, p.value) && disk.sequence <= p.value.sequence
  {
  }

  lemma InvKeptBySave(s: State, written: bool, ok: bool)
    requires Inv(s) && Next(s, Save(written, ok)).Some?
    ensures Inv(Next(s, Save(written, ok)).value)
  {
    SaveFits(s.appended, s.chain, s.process, s.disk);
    ReleasedStays(s.released, s.chain, s.disk.sequence, s.process.value.sequence);
  }

  lemma InvKept(s: State, a: Action)
    requires Inv(s) && Next(s, a).Some?
    ensures Inv(Next(s, a).value)
  {
    if a.Look? { InvKeptByLook(s); }
    else if a.Append? { InvKeptByAppend(s); }
    else if a.Acknowledge? { InvKeptByAcknowledge(s); }
    else if a.Save? { InvKeptBySave(s, a.written, a.ok); }
    else { InvKeptByOthers(s, a); }
  }
}
