/** The audit delivery task itself. The store, the saved checkpoint and the destination outlive it; everything else
    is the poller's own memory. Other coroutines run wherever the poller waits. */
module AuditDelivery {
  import opened Base
  import opened AuditPages
  import opened AuditModel
  import opened AuditSafety

  const WAITERS := 16
  const ACTIONS := {"workload.submit", "workload.retry", "source.write", "source.object.begin", "source.object.part",
                    "source.object.complete"}

  datatype Outcome = More | Idle | Error(code: string) | Died

  /** `disturbed` says that the controller may crash, saves and sends may fail, and other coroutines run in between. */
  class Delivery {
    const required: bool
    const disturbed: bool
    const maxLag: nat
    var rows: map<nat, nat>
    var disk: Checkpoint
    var up: bool
    var value: Checkpoint
    var dirty: bool
    var requests: seq<nat>
    var active: Option<nat>
    var waiting: set<nat>
    var phase: Phase
    var lag: int
    var released: set<nat>
    ghost var appended: set<Batch>
    ghost var chain: seq<Batch>
    ghost var log: seq<Action>

    ghost function Snapshot(): State
      reads this
    {
      State(rows, disk, if up then Up(value, dirty, requests, active, waiting, phase) else Down, appended, chain, released)
    }

    ghost predicate Valid()
      reads this
    {
      IsRun(log, Snapshot())
    }

    constructor (required: bool, maxLag: nat, disturbed: bool)
      ensures Valid() && Snapshot() == Initial() && this.disturbed == disturbed
    {
      this.required, this.maxLag, this.disturbed := required, maxLag, disturbed;
      var empty := Checkpoint(0, 0, 0, 0, None);
      rows, disk, up, value, dirty := map[], empty, false, empty, false;
      requests, active, waiting, phase, lag, released := [], None, {}, Top, 0, {};
      appended, chain, log := {}, [], [];
    }

    ghost method Note(a: Action, before: State)
      requires IsRun(log, before) && Next(before, a) == Some(Snapshot())
      modifies this`log
      ensures Valid() && log == old(log) + [a]
    {
      RunStep(log, before, a);
      log := log + [a];
    }

    /** The controller starts and reads its checkpoint. */
    method Restart()
      requires Valid() && !up
      modifies this`up, this`value, this`dirty, this`requests, this`active, this`waiting, this`phase, this`lag, this`log
      ensures Valid() && up && value == disk && phase == Top && !dirty && requests == []
    {
      ghost var s := Snapshot();
      up, value, dirty, requests, active, waiting, phase := true, disk, false, [], None, {}, Top;
      lag := value.lastSeen - value.cursor;
      Note(Start, s);
    }

    method Crash()
      requires Valid()
      modifies this`up, this`log
      ensures Valid() && old(log) <= log && !up
    {
      ghost var s := Snapshot();
      up := false;
      Note(Stop, s);
    }

    /** What other coroutines and the audit table may do while the poller waits. */
    method Others()
      requires Valid() && up
      modifies this`rows, this`requests, this`waiting, this`log
      ensures Valid() && old(log) <= log
      ensures !disturbed ==> rows == old(rows) && requests == old(requests) && waiting == old(waiting)
    {
      if !disturbed { return; }
      if * {
        var later: map<nat, nat> := *;
        if forall id :: id in later.Keys ==> 0 < id < LIMIT {
          ghost var s := Snapshot();
          rows := later;
          Note(Rewrite(later), s);
        }
      }
      if * {
        var request: nat := *;
        Queue(request);
      }
      if * {
        var request: nat := *;
        ghost var s := Snapshot();
        waiting := waiting - {request};
        Note(TimeOut(request), s);
      }
    }

    method Queue(request: nat)
      requires Valid() && up
      modifies this`requests, this`waiting, this`log
      ensures Valid() && old(log) <= log && requests == old(requests) + [request] && waiting == old(waiting) + {request}
    {
      ghost var s := Snapshot();
      requests, waiting := requests + [request], waiting + {request};
      Note(Admit(request), s);
    }

    /** Admission of one protected request: whether it may wait at all. None means it was queued. */
    method Ask(request: nat, action: string) returns (refusal: Option<string>)
      requires Valid()
      modifies this`requests, this`waiting, this`log
      ensures Valid() && old(log) <= log
      ensures refusal.None? ==> up && action in ACTIONS && lag <= maxLag && request in waiting
      ensures refusal.None? ==> |old(requests)| + (if active.Some? then 1 else 0) < WAITERS
      ensures refusal.None? ==> requests == old(requests) + [request] && waiting == old(waiting) + {request}
      ensures refusal.Some? ==> requests == old(requests) && waiting == old(waiting)
      ensures refusal.Some? <==>
        (action !in ACTIONS || !up || lag > maxLag || |old(requests)| + (if active.Some? then 1 else 0) >= WAITERS)
    {
      if action !in ACTIONS { return Some("Unsupported protected audit action."); }
      if !up { return Some("audit_unavailable"); }
      if lag > maxLag || |requests| + (if active.Some? then 1 else 0) >= WAITERS { return Some("audit_backpressure"); }
      Queue(request);
      return None;
    }

    /** The poller is between steps with nothing to deliver and nobody else waiting, and takes this action. */
    ghost predicate Unloaded(action: string)
      reads this
    {
      && up && phase == Top && !dirty && value.pending.None? && !Behind(rows, value) && History(rows, value.cursor) == []
      && NoneWaiting(requests, waiting) && action in ACTIONS && lag <= maxLag
      && |requests| + (if active.Some? then 1 else 0) < WAITERS
    }

    /** Returns normally only when audit is not required, or when the request's intent is inside an acknowledged
        batch and the checkpoint recording that acknowledgement is on disk. The poller completes `rounds` rounds before
        the wait ends. */
    method Require(request: nat, action: string, rounds: nat) returns (r: Reply)
      requires Valid() && request !in released
      modifies this
      ensures Valid() && old(log) <= log
      ensures !required ==> r == Done
      ensures !disturbed && old(Unloaded(action)) && rounds == 1 ==> r == Done
      ensures r == Done && required ==>
        action in ACTIONS && exists n :: 0 <= n < disk.sequence <= |chain| && Intent(request) in chain[n].events
    {
      if !required { return Done; }
      var refusal := Ask(request, action);
      if refusal.Some? { return Refused(refusal.value); }
      ghost var s := Snapshot();
      if old(Unloaded(action)) { NewcomerIsFirst(old(requests), old(waiting), request); }
      for i := 0 to rounds
        invariant Valid() && old(log) <= log && (i == 0 ==> Snapshot() == s)
        invariant !disturbed && old(Unloaded(action)) && i == 1 ==> request in released
      {
        if up && phase == Top {
          var outcome := Poll();
        }
      }
      if request in released {
        ReleasedFacts(log, Snapshot(), request);
        return Done;
      }
      return Refused("audit_unavailable");
    }

    /** Every waiting request fails, and the poller returns to the start of its loop. */
    method Refuse()
      requires Valid() && up && phase == Sending
      modifies this`requests, this`active, this`waiting, this`phase, this`log
      ensures Valid() && old(log) <= log && requests == [] && active.None? && waiting == {} && phase == Top
    {
      ghost var s := Snapshot();
      requests, active, waiting, phase := [], None, {}, Top;
      Note(Fail, s);
    }

    /** Saves the checkpoint. A failed save may or may not have replaced the file: the poller stays dirty and refuses
        every waiting request. A successful save after an acknowledgement releases the request it carried. */
    method Persist() returns (ok: bool)
      requires Valid() && up && (phase in {Built, Acked} || (phase == Top && dirty))
      modifies this
      ensures Valid() && old(log) <= log && up && value == old(value) && rows == old(rows) && chain == old(chain)
      ensures ok ==> disk == value && !dirty && phase == (if old(phase) == Built then Sending else Top)
      ensures ok && old(phase) == Acked ==> released == old(released) + (if old(active).Some? && old(active).value in old(waiting) then {old(active).value} else {})
      ensures !ok ==> disturbed && dirty && disk in {old(disk), value}
      ensures ok ==> Kept(old(phase), old(requests), old(active), old(waiting))
      ensures !(ok && old(phase) == Acked) ==> released == old(released)
      ensures !ok || old(phase) == Top ==> waiting == {} && requests == [] && phase == Top
    {
      ok := *;
      ok := ok || !disturbed;
      if ok {
        GoodSave();
      } else {
        FailedSave();
      }
    }

    method FailedSave()
      requires Valid() && up && (phase in {Built, Acked} || (phase == Top && dirty))
      modifies this`disk, this`requests, this`active, this`waiting, this`phase, this`dirty, this`log
      ensures Valid() && old(log) <= log && dirty && disk in {old(disk), value}
      ensures requests == [] && waiting == {} && phase == Top
    {
      var written: bool := *;
      ghost var s := Snapshot();
      if written { disk := value; }
      requests, active, waiting, phase, dirty := [], None, {}, Top, true;
      assert s.released + Released(s.process, false) == released;
      Note(Save(written, false), s);
    }

    method GoodSave()
      requires Valid() && up && (phase in {Built, Acked} || (phase == Top && dirty))
      modifies this`disk, this`requests, this`active, this`waiting, this`phase, this`dirty, this`released, this`log
      ensures Valid() && old(log) <= log && disk == value && !dirty && phase == (if old(phase) == Built then Sending else Top)
      ensures old(phase) == Acked ==> released == old(released) + (if old(active).Some? && old(active).value in old(waiting) then {old(active).value} else {})
      ensures old(phase) != Acked ==> released == old(released)
      ensures old(phase) == Top ==> waiting == {} && requests == []
      ensures Kept(old(phase), old(requests), old(active), old(waiting))
    {
      ghost var s := Snapshot();
      disk := value;
      AfterGoodSave();
      assert s.released + Released(s.process, true) == released;
      Note(Save(true, true), s);
    }

    /** A good save between steps refuses everyone, one of a new batch keeps the queue, and one after an acknowledgement ends
        the active request. */
    predicate Kept(before: Phase, queue: seq<nat>, was: Option<nat>, waiters: set<nat>)
      reads this
    {
      match before
      case Top => requests == [] && waiting == {}
      case Built => requests == queue && active == was && waiting == waiters
      case Sending => true
      case Acked => requests == queue && active.None? && waiting == if was.Some? then waiters - {was.value} else waiters
    }

    method AfterGoodSave()
      requires up
      modifies this`requests, this`active, this`waiting, this`phase, this`dirty, this`released
      ensures old(phase) == Top ==> requests == [] && active == None && waiting == {} && phase == Top
      ensures old(phase) == Built ==> requests == old(requests) && active == old(active) && waiting == old(waiting) && phase == Sending
      ensures old(phase) == Sending ==> requests == old(requests) && active == old(active) && waiting == old(waiting) && phase == Sending
      ensures old(phase) == Acked ==> requests == old(requests) && active == None && phase == Top
      ensures old(phase) == Acked ==> waiting == (if old(active).Some? then old(waiting) - {old(active).value} else old(waiting))
      ensures dirty == (if old(phase) == Sending then old(dirty) else false)
      ensures released == old(released)
        + (if old(phase) == Acked && old(active).Some? && old(active).value in old(waiting) then {old(active).value} else {})
    {
      match phase
      case Top =>
        requests, active, waiting, dirty := [], None, {}, false;
      case Built =>
        phase, dirty := Sending, false;
      case Sending =>
      case Acked =>
        if active.Some? {
          if active.value in waiting { released := released + {active.value}; }
          waiting := waiting - {active.value};
        }
        active, phase, dirty := None, Top, false;
    }

    /** Appends the pending batch and records its acknowledgement. */
    method Send() returns (r: Outcome)
      requires Valid() && up && phase == Sending
      modifies this
      ensures Valid() && old(log) <= log && (r == Died <==> !up) && (up ==> phase == Top)
      ensures r == More ==> disk == value && value.pending.None? && value.sequence == old(value).sequence + 1
      ensures r in {More, Died} || r.Error?
      ensures !disturbed ==> r == More && requests == old(requests) && chain != [] && Some(chain[|chain| - 1]) == old(value).pending
      ensures !disturbed && old(active).Some? && old(active).value in old(waiting) ==> old(active).value in released
    {
      r := AwaitAcknowledgement();
      if r != More { return; }
      if disturbed { if * { Crash(); return Died; } }
      var ok := Persist();
      lag := value.lastSeen - value.cursor;
      return if ok then More else Error("audit_unavailable");
    }

    /** Until the destination has acknowledged exactly this batch. */
    method AwaitAcknowledgement() returns (r: Outcome)
      requires Valid() && up && phase == Sending
      modifies this
      ensures Valid() && old(log) <= log && (r == Died <==> !up) && (r in {More, Died} || r.Error?)
      ensures r.Error? ==> phase == Top
      ensures r == More ==> phase == Acked && value.pending.None? && value.sequence == old(value).sequence + 1
      ensures r == More ==> chain != [] && Some(chain[|chain| - 1]) == old(value).pending && active == old(active)
      ensures !disturbed ==> r == More && requests == old(requests) && waiting == old(waiting)
    {
      ProcessFacts(log, Snapshot());
      if disturbed { if * { Refuse(); return Error("audit_unavailable"); } }  // no credential
      AppendOne();
      Others();
      if disturbed { if * { Crash(); return Died; } }
      if disturbed { if * { Refuse(); return Error("audit_acknowledgement"); } }  // time-out, or not this batch's acknowledgement
      AcceptAcknowledgement();
      return More;
    }

    method AppendOne()
      requires Valid() && up && phase == Sending && value.pending.Some?
      modifies this`appended, this`log
      ensures Valid() && old(log) <= log && value.pending.value in appended
    {
      ghost var s := Snapshot();
      appended := appended + {value.pending.value};
      Note(Append, s);
    }

    method AcceptAcknowledgement()
      requires Valid() && up && phase == Sending && value.pending.Some? && value.pending.value in appended
      modifies this`value, this`chain, this`phase, this`log
      ensures Valid() && old(log) <= log && phase == Acked && value == Advanced(old(value), old(value).pending.value)
      ensures value.sequence == old(value).sequence + 1
      ensures chain != [] && chain[|chain| - 1] == old(value).pending.value
    {
      ProcessFacts(log, Snapshot());
      PendingIsNext(log, Snapshot());
      ghost var s := Snapshot();
      var b := value.pending.value;
      chain := Joined(chain, b);
      value := Advanced(value, b);
      phase := Acked;
      Note(Acknowledge, s);
    }

    /** Looks for history to deliver, then for a waiting request; builds at most one batch. */
    method LookForWork() returns (code: string)
      requires Valid() && up && phase == Top && !dirty && value.pending.None?
      modifies this`value, this`requests, this`active, this`waiting, this`phase, this`lag, this`log
      ensures Valid() && old(log) <= log && phase in {Top, Built} && !dirty
      ensures code != "" <==> Last(rows) < old(value).lastSeen || Last(rows) < old(value).cursor
      ensures code == "" ==> value.lastSeen == Last(rows) && lag == Last(rows) - old(value).cursor
      ensures (value.pending.None? <==> phase == Top) && (code != "" ==> phase == Top)
      ensures phase == Built ==> value.pending.value.sequence == old(value).sequence + 1
      ensures code == "" ==>
        Looked(rows, old(Up(value, dirty, requests, active, waiting, phase)), Up(value, dirty, requests, active, waiting, phase))
    {
      ProcessFacts(log, Snapshot());
      var last, through, events := Page(rows, value.cursor);
      if last < value.lastSeen || last < value.cursor {
        RefuseHistory();
        return "audit_history";
      }
      ghost var s := Snapshot();
      LookFollows(rows, s.process);
      BuildNext(last, through, events);
      Note(Look, s);
      return "";
    }

    method BuildNext(last: nat, through: nat, page: seq<Event>)
      requires up && phase == Top && value.pending.None? && last == Last(rows) && !Behind(rows, value)
      requires page == History(rows, value.cursor) && through == Through(Selected(rows, value.cursor), value.cursor)
      modifies this`value, this`requests, this`active, this`phase, this`lag
      ensures Up(value, dirty, requests, active, waiting, phase) == AfterLook(rows, old(Up(value, dirty, requests, active, waiting, phase)))
      ensures value.lastSeen == last && lag == last - old(value).cursor
      ensures phase in {Top, Built} && (value.pending.None? <==> phase == Top)
    {
      lag := last - value.cursor;
      var events := page;
      if events == [] { events := NextRequest(); }
      if events == [] {
        value := value.(lastSeen := last);
      } else {
        value := value.(lastSeen := last, pending := Some(Batch(value.sequence + 1, value.cursor, through, events)));
        phase := Built;
      }
    }

    /** The first request whose waiter has not given up, or the first event of a new stream. */
    method NextRequest() returns (events: seq<Event>)
      requires up
      modifies this`requests, this`active
      ensures var live := Live(old(requests), waiting);
        && events == NextEvents([], live, value.sequence)
        && (if live == [] then requests == [] && active == old(active) else requests == live[1..] && active == Some(live[0]))
    {
      requests := Live(requests, waiting);
      events := [];
      if requests != [] {
        events := [Intent(requests[0])];
        active, requests := Some(requests[0]), requests[1..];
      } else if value.sequence == 0 {
        events := [Stream];
      }
    }

    method RefuseHistory()
      requires Valid() && up && phase == Top && !dirty && value.pending.None?
      requires Last(rows) < value.lastSeen || Last(rows) < value.cursor
      modifies this`requests, this`active, this`waiting, this`log
      ensures Valid() && old(log) <= log
    {
      ghost var s := Snapshot();
      requests, active, waiting := [], None, {};
      Note(Look, s);
    }

    /** One step of the poller. */
    method Step() returns (r: Outcome)
      requires Valid() && up && phase == Top
      modifies this
      ensures Valid() && old(log) <= log && (r == Died <==> !up) && (up ==> phase == Top)
      ensures r == More ==> disk == value && value.pending.None?
      ensures r == Idle ==> requests == [] && waiting == {} && value.sequence > 0 && History(rows, value.cursor) == []
      ensures !disturbed ==> r != Died
      ensures !disturbed && !old(dirty) && (old(value.pending).Some? || !Behind(old(rows), old(value))) ==>
        r == if old(value.pending).Some? || Work(old(rows), old(value), old(requests), old(waiting)) then More else Idle
      ensures !disturbed && !old(dirty) && old(value.pending).None? && !Behind(old(rows), old(value)) ==>
        ServesFirst(old(rows), old(value.cursor), old(requests), old(waiting))
    {
      if dirty {
        if disturbed { if * { Crash(); return Died; } }
        var ok := Persist();
        if !ok { return Error("audit_unavailable"); }
      }
      r := StepClean();
    }

    /** What is left of a step once the checkpoint is saved: the batch that is still pending, or new work. */
    method StepClean() returns (r: Outcome)
      requires Valid() && up && phase == Top && !dirty
      modifies this
      ensures Valid() && old(log) <= log && (r == Died <==> !up) && (up ==> phase == Top)
      ensures r == More ==> disk == value && value.pending.None?
      ensures r == Idle ==> requests == [] && waiting == {} && value.sequence > 0 && History(rows, value.cursor) == []
      ensures !disturbed ==> r != Died
      ensures !disturbed && (old(value.pending).Some? || !Behind(old(rows), old(value))) ==>
        r == if old(value.pending).Some? || Work(old(rows), old(value), old(requests), old(waiting)) then More else Idle
      ensures !disturbed && old(value.pending).None? && !Behind(old(rows), old(value)) ==>
        ServesFirst(old(rows), old(value.cursor), old(requests), old(waiting))
    {
      if value.pending.Some? {
        StartResend();
        r := Send();
        return;
      }
      Others();
      ghost var p := Up(value, dirty, requests, active, waiting, phase);
      var code := LookForWork();
      if code != "" { return Error(code); }
      ghost var q := Up(value, dirty, requests, active, waiting, phase);
      if phase == Top {
        NothingToSend(rows, p, q);
        ProcessFacts(log, Snapshot());
        return Idle;
      }
      r := Deliver();
    }

    /** Saves the batch that was built, and sends it. */
    method Deliver() returns (r: Outcome)
      requires Valid() && up && phase == Built
      modifies this
      ensures Valid() && old(log) <= log && (r == Died <==> !up) && (up ==> phase == Top)
      ensures r == More ==> disk == value && value.pending.None?
      ensures r in {More, Died} || r.Error?
      ensures !disturbed ==> r == More
      ensures !disturbed && old(active).Some? && old(active).value in old(waiting) ==> old(active).value in released
    {
      if disturbed { if * { Crash(); return Died; } }
      var ok := Persist();
      if !ok { return Error("audit_unavailable"); }
      Others();
      r := Send();
    }

    /** If no history is left, the first request that still waits is now released. */
    ghost predicate ServesFirst(table: map<nat, nat>, cursor: nat, queue: seq<nat>, waiters: set<nat>)
      reads this
    {
      History(table, cursor) == [] ==> forall i :: FirstWaiting(queue, waiters, i) ==> queue[i] in released
    }

    method StartResend()
      requires Valid() && up && phase == Top && !dirty && value.pending.Some?
      modifies this`phase, this`log
      ensures Valid() && old(log) <= log && phase == Sending
    {
      ghost var s := Snapshot();
      phase := Sending;
      Note(Resume, s);
    }

    /** One round of the polling loop. */
    method Poll() returns (r: Outcome)
      requires Valid() && up && phase == Top
      modifies this
      ensures Valid() && old(log) <= log && (r == Died <==> !up) && (up ==> phase == Top)
      ensures !disturbed && !old(dirty) && old(value.pending).None? && !Behind(old(rows), old(value)) ==>
        ServesFirst(old(rows), old(value.cursor), old(requests), old(waiting))
    {
      r := Step();
      if up { Others(); }
    }
  }

  /** History to deliver, a request that waits, or a stream not yet begun. */
  ghost predicate Work(rows: map<nat, nat>, c: Checkpoint, queue: seq<nat>, waiting: set<nat>) {
    History(rows, c.cursor) != [] || !NoneWaiting(queue, waiting) || c.sequence == 0
  }

  /** Where nobody else waits, a newcomer is the first to be served. */
  lemma NewcomerIsFirst(queue: seq<nat>, waiting: set<nat>, request: nat)
    requires NoneWaiting(queue, waiting)
    ensures exists i :: FirstWaiting(queue + [request], waiting + {request}, i) && (queue + [request])[i] == request
  {
    SomeoneWaits(queue + [request], waiting + {request});
    assert (queue + [request])[|queue|] == request;
    var i :| FirstWaiting(queue + [request], waiting + {request}, i);
    assert i < |queue| ==> queue[i] !in waiting;
  }

  lemma PendingIsNext(log: seq<Action>, s: State)
    requires IsRun(log, s) && s.process.Up? && s.process.value.pending.Some?
    ensures s.process.value.pending.value.sequence == s.process.value.sequence + 1
  {
    assert Show(0);
    RunKeepsInv(log);
  }
}
