/** The node helper that carries one transfer: each request runs alone under the namespace lock,
    may stop at any durable write, and shares the destination name with other programs. */
module TransferNode {
  import opened Base
  import opened TransferChunks
  import opened TransferModel

  /** `disturbed` says that a request may be stopped or cancelled, that writes may fall short, and that other programs may
      touch the destination. */
  class Node {
    const disturbed: bool
    var record: Option<Record>
    var stage: Option<Stage>
    var dest: Option<Object>
    ghost var process: Volatile
    ghost var past: History
    ghost var log: seq<Action>

    ghost function Snapshot(): State
      reads this
    {
      State(record, stage, dest, process, past)
    }

    /** The files are where some legal run left them. */
    ghost predicate Valid()
      reads this
    {
      IsRun(log, Snapshot())
    }

    constructor (disturbed: bool)
      ensures Valid() && Snapshot() == Empty && log == [] && this.disturbed == disturbed
    {
      this.disturbed := disturbed;
      record, stage, dest := None, None, None;
      process, past, log := Idle, Empty.past, [];
      RunStarts();
    }

    /** Records that the files just changed by one action of the model. */
    ghost method Note(a: Action, before: State)
      requires IsRun(log, before) && Next(before, a).Some?
      requires var after := Next(before, a).value; after.record == record && after.stage == stage && after.dest == dest
      modifies this`log, this`past, this`process
      ensures Valid() && Some(Snapshot()) == Next(before, a) && log == old(log) + [a]
    {
      RunStep(log, before, a);
      log := log + [a];
      process, past := Next(before, a).value.process, Next(before, a).value.past;
    }

    ghost method Stop()
      requires Valid()
      modifies this`log, this`past, this`process
      ensures Valid() && Snapshot() == old(Snapshot()).(process := Idle) && log == old(log) + [Halt]
    {
      Note(Halt, Snapshot());
    }

    /** Another program may replace, remove or create the destination. */
    method Interfere()
      requires Valid()
      modifies this`dest, this`log, this`past, this`process
      ensures Valid() && old(log) <= log
      ensures Snapshot() == old(Snapshot()).(dest := dest)
      ensures !disturbed ==> dest == old(dest)
    {
      if !disturbed { return; }
      ghost var before := Snapshot();
      var other: Option<Object> := *;
      if other.Some? && stage.Some? && stage.value.data.Some? && other.value.ino == stage.value.data.value.ino {
        return;
      }
      dest := other;
      Note(Outside(other), before);
    }

    predicate NeedsPreparation()
      requires record.Some?
      reads this
    {
      !record.value.prepared && !Terminal(record.value.state) && record.value.state != Discarding
    }

    /** Creates whichever of the stage directory and its two empty files is missing. */
    method OpenPartials(capacity: bool) returns (r: Reply)
      requires Valid() && record.Some? && process == Idle && NeedsPreparation()
      modifies this
      ensures Valid() && old(log) <= log && process == Idle
      ensures record == old(record) && dest == old(dest) && past == old(past)
      ensures r == Done ==> Staged(Snapshot()) && Partial(Snapshot()) == [] && Journal(Snapshot()) == []
      ensures r.Refused? ==> r.code == "disk_capacity" && !capacity
      ensures !disturbed ==> (r == Done <==> capacity) && r != Stopped
    {
      ghost var s := Snapshot();
      if stage.None? {
        stage := Some(Stage(None, None));
        Note(MakeStage, s);
        if disturbed { if * { return Stopped; } }
      }
      if stage.value.data.None? {
        s := Snapshot();
        var ino: nat := if dest.Some? then dest.value.ino + 1 else 0;
        var stamp: nat := *;
        stage := Some(stage.value.(data := Some(Object(ino, true, stamp, []))));
        Note(MakeData(ino, stamp), s);
        if disturbed { if * { return Stopped; } }
      }
      UnpreparedIsEmpty(log, Snapshot());
      if !capacity { return Refused("disk_capacity"); }
      if stage.value.chunks.None? {
        s := Snapshot();
        stage := Some(stage.value.(chunks := Some([])));
        Note(MakeChunks, s);
        if disturbed { if * { return Stopped; } }
      }
      return Done;
    }

    /** Creates the private stage and reserves its blocks, or resumes doing so. */
    method Prepare(capacity: bool) returns (r: Reply)
      requires Valid() && record.Some? && process == Idle
      modifies this
      ensures Valid() && old(log) <= log && process == Idle && record.Some? && dest == old(dest) && past == old(past)
      ensures !old(NeedsPreparation()) ==> r == Done && Snapshot() == old(Snapshot())
      ensures record == old(record) || record.value == Prepared(old(record.value))
      ensures r == Done && old(NeedsPreparation()) ==>
        && record.value == Prepared(old(record.value))
        && Staged(Snapshot()) && Partial(Snapshot()) == [] && Journal(Snapshot()) == []
      ensures r.Refused? ==> r.code == "disk_capacity" && !capacity && record == old(record)
      ensures !disturbed ==> r != Stopped && (r == Done <==> capacity || !old(NeedsPreparation()))
    {
      if !NeedsPreparation() { return Done; }
      r := OpenPartials(capacity);
      if r != Done { return; }
      ghost var s := Snapshot();
      record := Some(Prepared(record.value));
      Note(SavePrepared, s);
      if disturbed { if * { return Stopped; } }
    }

    /** One chunk into the partial file, in as many writes as the system takes. */
    method WriteBytes(offset: nat, data: Bytes) returns (r: Reply)
      requires Valid() && process == Idle && record.Some? && record.value.state == Running && Staged(Snapshot())
      requires record.value.offset <= offset <= |Partial(Snapshot())|
      modifies this
      ensures Valid() && old(log) <= log && process == Idle && record == old(record) && dest == old(dest) && past == old(past)
      ensures Staged(Snapshot()) && Journal(Snapshot()) == old(Journal(Snapshot())) && r in {Done, Stopped}
      ensures !disturbed ==> r == Done
      ensures r == Done ==> offset + |data| <= |Partial(Snapshot())| && Partial(Snapshot())[offset..offset + |data|] == data
    {
      var written := 0;
      while written < |data|
        invariant 0 <= written <= |data|
        invariant Valid() && old(log) <= log && process == Idle && record == old(record) && dest == old(dest) && past == old(past)
        invariant Staged(Snapshot()) && Journal(Snapshot()) == old(Journal(Snapshot()))
        invariant offset + written <= |Partial(Snapshot())|
        invariant Partial(Snapshot())[offset..offset + written] == data[..written]
      {
        var count: int := *;
        if !disturbed { count := |data| - written; }
        if count <= 0 || written + count > |data| { return Stopped; }
        var piece := data[written..written + count];
        var at := offset + written;
        var stamp: nat := *;
        ghost var s := Snapshot();
        var o := stage.value.data.value;
        stage := Some(stage.value.(data := Some(Revised(o, Overwrite(o.data, at, piece), stamp))));
        Note(WriteData(at, piece, stamp), s);
        assert Partial(Snapshot())[offset..at] == Partial(s)[offset..at];
        assert data[..written + count] == data[..written] + piece;
        assert Partial(Snapshot())[offset..at + count] == Partial(s)[offset..at] + piece;
        written := written + count;
        if disturbed { if * { return Stopped; } }
      }
      assert data[..|data|] == data;
      return Done;
    }

    /** Drops whatever lies beyond the accepted prefix in both partial files. */
    method CutToAccepted() returns (r: Reply)
      requires Valid() && Verifies(Snapshot())
      modifies this
      ensures Valid() && old(log) <= log && process == old(process) && record == old(record) && dest == old(dest)
      ensures !disturbed ==> r == Done
      ensures r in {Done, Stopped} && Staged(Snapshot()) && Verifies(Snapshot())
      ensures past == old(past).(trimmed := past.trimmed)
      ensures past.trimmed == (old(past.trimmed) || (old(past.displaced.Some?) && |old(Partial(Snapshot()))| > record.value.offset))
      ensures Partial(Snapshot())[..record.value.offset] == old(Partial(Snapshot()))[..record.value.offset]
      ensures Journal(Snapshot())[..Slots(record.value.offset)] == old(Journal(Snapshot()))[..Slots(record.value.offset)]
      ensures r == Done ==> |Partial(Snapshot())| == record.value.offset && |Journal(Snapshot())| == Slots(record.value.offset)
    {
      var offset := record.value.offset;
      var stamp: nat := *;
      var o := stage.value.data.value;
      ghost var s := Snapshot();
      stage := Some(stage.value.(data := Some(Revised(o, o.data[..offset], stamp))));
      Note(CutData(stamp), s);
      CutVerifies(s, Snapshot());
      if disturbed { if * { return Stopped; } }
      s := Snapshot();
      stage := Some(stage.value.(chunks := Some(stage.value.chunks.value[..Slots(offset)])));
      Note(CutChunks, s);
      CutVerifies(s, Snapshot());
      if disturbed { if * { return Stopped; } }
      return Done;
    }

    /** Accepts the next chunk, or confirms a chunk already accepted. */
    method WriteChunk(offset: int, data: Bytes, sha: Digest) returns (r: Reply)
      requires Valid() && record.Some? && process == Idle
      modifies this
      ensures Valid() && old(log) <= log && process == Idle && dest == old(dest)
      ensures r != Stopped ==>
        (r == Refused("invalid_offset") <==> !(0 <= offset <= old(record.value.offset) && offset % CHUNK == 0))
      ensures r != Stopped ==> (r == Done <==>
        (&& 0 <= offset <= old(record.value.offset) && offset % CHUNK == 0
         && 0 < |data| == Min(CHUNK, old(record.value.size) - offset) && sha == Sha256(data)
         && old(record.value.state) == Running
         && (offset < old(record.value.offset) ==>
               offset / CHUNK < |old(past.accepted)| && old(past.accepted)[offset / CHUNK] == data)))
      ensures r == Done && offset == old(record.value.offset) ==>
        && record == Some(old(record.value).(offset := offset + |data|))
        && past.accepted == old(past.accepted) + [data]
      ensures r.Refused? || (r == Done && offset < old(record.value.offset)) ==> Snapshot() == old(Snapshot())
      ensures !disturbed ==> r != Stopped
      ensures past.accepted == old(past.accepted) || past.accepted == old(past.accepted) + [data]
    {
      if offset < 0 || offset % CHUNK != 0 || offset > record.value.offset { return Refused("invalid_offset"); }
      if |data| != Min(CHUNK, record.value.size - offset) || data == [] { return Refused("invalid_chunk"); }
      if Sha256(data) != sha { return Refused("digest_mismatch"); }
      if record.value.state != Running { return Refused("transfer_state"); }
      RunningHolds(log, Snapshot());
      if offset < record.value.offset {
        assert offset / CHUNK < |past.accepted|;
        assert past.accepted[offset / CHUNK] == Slice(Partial(Snapshot()), offset / CHUNK, record.value.offset);
        var stored := stage.value.data.value.data[offset..Min(offset + |data|, |stage.value.data.value.data|)];
        if stored != data || stage.value.chunks.value[offset / CHUNK] != sha { return Refused("source_changed"); }
        return Done;
      }
      r := AppendChunk(data);
    }

    /** Data, then its digest, then the record: the order that makes a stopped append invisible. */
    method AppendChunk(data: Bytes) returns (r: Reply)
      requires Valid() && process == Idle && record.Some? && record.value.state == Running && Staged(Snapshot())
      requires Holds(Partial(Snapshot()), Journal(Snapshot()), record.value.offset, past.accepted)
      requires record.value.offset % CHUNK == 0 && 0 < |data| == Min(CHUNK, record.value.size - record.value.offset)
      modifies this
      ensures Valid() && old(log) <= log && process == Idle && dest == old(dest) && r in {Done, Stopped}
      ensures r == Done ==>
        && record == Some(old(record.value).(offset := old(record.value.offset) + |data|))
        && past.accepted == old(past.accepted) + [data]
      ensures !disturbed ==> r == Done
      ensures past.accepted == old(past.accepted) || past.accepted == old(past.accepted) + [data]
    {
      var offset := record.value.offset;
      assert offset / CHUNK == Slots(offset);
      HoldsVerifies(Partial(Snapshot()), Journal(Snapshot()), offset, past.accepted);
      if record.value.reserved == 0 {
        r := CutToAccepted();
        if r != Done { return; }
      }
      r := WriteBytes(offset, data);
      if r != Done { return; }
      r := SealChunk(data);
    }

    method SealChunk(data: Bytes) returns (r: Reply)
      requires Valid() && process == Idle && record.Some? && record.value.state == Running && Staged(Snapshot())
      requires record.value.offset % CHUNK == 0 && 0 < |data| == Min(CHUNK, record.value.size - record.value.offset)
      requires record.value.offset / CHUNK <= |Journal(Snapshot())|
      requires record.value.offset + |data| <= |Partial(Snapshot())|
      requires Partial(Snapshot())[record.value.offset..record.value.offset + |data|] == data
      modifies this
      ensures Valid() && old(log) <= log && process == Idle && dest == old(dest) && r in {Done, Stopped}
      ensures r == Done ==>
        && record == Some(old(record.value).(offset := old(record.value.offset) + |data|))
        && past.accepted == old(past.accepted) + [data]
      ensures !disturbed ==> r == Done
      ensures past.accepted == old(past.accepted) || past.accepted == old(past.accepted) + [data]
    {
      var offset := record.value.offset;
      ghost var s := Snapshot();
      stage := Some(stage.value.(chunks := Some(Put(stage.value.chunks.value, offset / CHUNK, Sha256(data)))));
      Note(WriteJournal(offset / CHUNK, Sha256(data)), s);
      if disturbed { if * { return Stopped; } }
      s := Snapshot();
      record := Some(record.value.(offset := offset + |data|));
      Note(Accept(data), s);
      if disturbed { if * { return Stopped; } }
      return Done;
    }

    /** Re-reads the accepted prefix against its journal and the source named at admission. */
    method VerifyPrefix() returns (r: Reply, prefix: Digest)
      requires Valid() && record.Some? && record.value.offset <= record.value.size
      modifies this
      ensures Valid() && old(log) <= log && process == old(process) && record == old(record) && dest == old(dest)
      ensures past == old(past).(trimmed := past.trimmed)
      ensures past.trimmed ==> old(past.trimmed) || old(past.displaced.Some?)
      ensures r == Done ==>
        && old(Verifies(Snapshot())) && Verifies(Snapshot()) && SourceAgrees(Snapshot())
        && prefix == Sha256(Partial(Snapshot())[..record.value.offset])
        && (record.value.offset == record.value.size ==> |Partial(Snapshot())| == record.value.offset)
      ensures r == Done && record.value.offset == record.value.size ==>
        && |Partial(old(Snapshot()))| >= record.value.size
        && Partial(Snapshot()) == Partial(old(Snapshot()))[..record.value.size]
      ensures r == Done && old(past.displaced.Some? && !past.trimmed) ==>
        (past.trimmed <==> |Partial(old(Snapshot()))| > record.value.size)
      ensures !disturbed && old(Verifies(Snapshot())) ==> r == if old(SourceAgrees(Snapshot())) then Done else Refused("source_changed")
      ensures r == Refused("partial_changed") ==> !old(Verifies(Snapshot()))
      ensures r == Refused("source_changed") ==> Verifies(Snapshot()) && !SourceAgrees(Snapshot())
      ensures r.Refused? ==> Snapshot() == old(Snapshot()) && r.code in {"interrupted", "partial_changed", "source_changed"}
    {
      prefix := Sha256([]);
      if past.displaced.Some? { RenamedIsComplete(log, Snapshot()); }
      if stage.None? || stage.value.data.None? || stage.value.chunks.None? { return Stopped, prefix; }
      r, prefix := ReadPrefix(stage.value.data.value.data, stage.value.chunks.value, record.value, disturbed);
      if r == Done && (record.value.reserved == 0 || record.value.offset == record.value.size) {
        ghost var s := Snapshot();
        r := CutToAccepted();
        CutVerifies(s, Snapshot());
      }
    }

    /** Verifies the whole file, checks the destination, and saves the intent to rename. */
    method Arm(sha: Digest) returns (r: Reply)
      requires Valid() && process == Idle && record.Some? && record.value.state == Running
      requires record.value.offset == record.value.size
      modifies this
      ensures Valid() && old(log) <= log && record.Some? && past.accepted == old(past.accepted) && past.renames == old(past.renames)
      ensures r == Done ==> process == Armed && sha == Sha256(Concat(past.accepted))
      ensures r == Done ==>
        record.value == old(record.value).(state := Committing, sha := Some(sha), committed := record.value.committed)
      ensures r != Done ==> process == Idle && record.value.state in {Running, Committing}
      ensures r.Refused? ==> record == old(record) && r.code in {"interrupted", "source_changed", "digest_mismatch", "destination_changed"}
      ensures r == Refused("digest_mismatch") ==> sha != Sha256(Concat(past.accepted))
      ensures r == Refused("source_changed") ==> !FromSource(old(record.value), past.accepted)
      ensures r == Refused("destination_changed") ==> DestinationIdentity(Snapshot()) != old(record.value.expected)
      ensures !disturbed ==> r != Stopped && r != Refused("interrupted") && dest == old(dest)
      ensures r == Done ==> Staged(Snapshot()) && Partial(Snapshot()) == Concat(past.accepted)
      ensures r == Done ==> record.value.committed == Some(IdentityOf(stage.value.data.value))
    {
      RunningPrefix(log, Snapshot());
      var prefix;
      r, prefix := VerifyPrefix();
      if r != Done { return; }
      RunningPrefix(log, Snapshot());
      assert Partial(Snapshot())[..record.value.offset] == Partial(Snapshot());
      if sha != prefix { return Refused("digest_mismatch"); }
      r := SaveIntent(prefix);
    }

    /** The destination check and the durable intent that must precede the rename. */
    method SaveIntent(prefix: Digest) returns (r: Reply)
      requires Valid() && process == Idle && Verifies(Snapshot()) && SourceAgrees(Snapshot())
      requires record.value.state == Running && record.value.offset == record.value.size == |Partial(Snapshot())|
      requires prefix == Sha256(Partial(Snapshot()))
      modifies this
      ensures Valid() && old(log) <= log && record.Some? && past == old(past)
      ensures r == Done ==> process == Armed
      ensures r == Done ==>
        record.value == old(record.value).(state := Committing, sha := Some(prefix), committed := record.value.committed)
      ensures r != Done ==> process == Idle && record.value.state in {Running, Committing}
      ensures r.Refused? ==> record == old(record) && r.code in {"interrupted", "destination_changed"}
      ensures r == Refused("destination_changed") ==> DestinationIdentity(Snapshot()) != old(record.value.expected)
      ensures !disturbed ==> r != Stopped && r != Refused("interrupted") && dest == old(dest)
      ensures stage == old(stage) && (r == Done ==> record.value.committed == Some(IdentityOf(stage.value.data.value)))
    {
      Interfere();
      var found := if dest.Some? then Some(IdentityOf(dest.value)) else None;
      if found != record.value.expected { return Refused("destination_changed"); }
      Note(CheckDestination, Snapshot());
      Interfere();
      if disturbed { if * { Stop(); return Refused("interrupted"); } }
      WriteIntent(prefix);
      if disturbed { if * { Stop(); return Stopped; } }
      return Done;
    }

    method WriteIntent(prefix: Digest)
      requires Valid() && process == Checked && Verifies(Snapshot()) && SourceAgrees(Snapshot())
      requires record.value.state == Running && record.value.offset == record.value.size == |Partial(Snapshot())|
      requires prefix == Sha256(Partial(Snapshot()))
      modifies this`record, this`process, this`past, this`log
      ensures Valid() && old(log) <= log && process == Armed && past == old(past)
      ensures record == Some(old(record.value).(state := Committing, sha := Some(prefix), committed := Some(IdentityOf(stage.value.data.value))))
    {
      ghost var s := Snapshot();
      record := Some(record.value.(state := Committing, sha := Some(prefix), committed := Some(IdentityOf(stage.value.data.value))));
      Note(SaveCommitting, s);
    }

    /** The one rename: an exchange over an expected file, otherwise one that must not replace. */
    method Rename() returns (r: Reply)
      requires Valid() && process == Armed && record.Some? && record.value.state == Committing
      modifies this
      ensures Valid() && old(log) <= log && process == Idle && record == old(record) && past.accepted == old(past.accepted)
      ensures r == Done ==> past.renames == old(past.renames) + 1
      ensures old(past.renames) <= past.renames <= old(past.renames) + 1
      ensures r in {Done, Stopped}
      ensures !disturbed && Staged(old(Snapshot())) && old(record.value.expected.Some? == dest.Some?) ==> r == Done
      ensures !disturbed && r == Done ==>
        && old(stage).Some? && old(stage).value.data.Some? && dest.Some? && stage.Some?
        && SameObject(dest.value, old(stage).value.data.value)
        && stage.value.data.Some? == old(dest.Some?)
        && (old(dest).Some? ==> stage.value.data.Some? && SameObject(stage.value.data.value, old(dest).value))
    {
      Interfere();
      if stage.None? || stage.value.data.None? || record.value.expected.Some? != dest.Some? { Stop(); return Stopped; }
      if disturbed { if * { Stop(); return Stopped; } }
      ghost var s := Snapshot();
      var stamp: nat, displacedStamp: nat := *, *;
      var sent := stage.value.data.value;
      stage := Some(stage.value.(data := if dest.Some? then Some(dest.value.(stamp := displacedStamp)) else None));
      dest := Some(sent.(stamp := stamp));
      Note(Publish(stamp, displacedStamp), s);
      if disturbed { if * { Stop(); return Stopped; } }
      return Done;
    }

    /** Decides a committing transfer by looking: the destination must be the committed object with the committed
        bytes, and the stage must hold the expected object. Never renames. */
    method Confirm() returns (r: Reply)
      requires Valid() && process == Idle && record.Some? && record.value.state == Committing
      modifies this
      ensures Valid() && old(log) <= log && process == Idle && record.Some?
      ensures past.accepted == old(past.accepted) && past.renames == old(past.renames)
      ensures r == Done ==> record.value.state == Succeeded && record.value.cleanupPending && past.published == Some(Concat(past.accepted))
      ensures r.Refused? ==> r.code == "outcome_unknown" && record == old(record)
      ensures r == Stopped ==> record.value.state in {Committing, Succeeded}
      ensures r.Refused? ==> !Settles(Snapshot()) && stage.Some? && dest.Some?
      ensures r == Done ==> Settles(Snapshot())
      ensures r == Done ==>
        record.value == old(record.value).(state := Succeeded, cleanupPending := true, published := Some(IdentityOf(dest.value)))
      ensures !disturbed ==> dest == old(dest) && stage == old(stage) && (r == Done <==> Settles(old(Snapshot())))
    {
      CommittingFacts(log, Snapshot());
      Interfere();
      if stage.None? || dest.None? { return Stopped; }
      if !Same(IdentityOf(dest.value), record.value.committed.value, true) || Some(Sha256(dest.value.data)) != record.value.sha {
        return Refused("outcome_unknown");
      }
      if record.value.expected.Some? {
        if stage.value.data.None? { return Stopped; }
        if !Same(IdentityOf(stage.value.data.value), record.value.expected.value, true) { return Refused("outcome_unknown"); }
      }
      ghost var s := Snapshot();
      record := Some(record.value.(state := Succeeded, cleanupPending := true, published := Some(IdentityOf(dest.value))));
      Note(SaveSucceeded, s);
      SucceededPublished(log, Snapshot());
      if disturbed { if * { return Stopped; } }
      return Done;
    }

    /** Publishes a complete transfer, or resolves an earlier attempt without repeating its rename. */
    method Commit(sha: Digest) returns (r: Reply)
      requires Valid() && process == Idle && record.Some?
      modifies this
      ensures Valid() && old(log) <= log && process == Idle && record.Some? && past.accepted == old(past.accepted)
      ensures old(record.value.state) != Running ==> past.renames == old(past.renames)
      ensures r == Done ==> record.value.state == Succeeded && past.published == Some(Concat(past.accepted))
      ensures r == Done && old(record.value.state) == Running ==> sha == Sha256(Concat(past.accepted))
      ensures r != Stopped ==> (r == Refused("incomplete_transfer") <==>
        old(record.value.state) != Succeeded
        && (old(record.value.offset) != old(record.value.size) || old(record.value.state) !in {Running, Committing}))
      ensures r == Refused("digest_mismatch") ==> old(record.value.state) == Running && sha != Sha256(Concat(past.accepted))
      ensures r.Refused? && r.code != "outcome_unknown" ==> record == old(record)
      ensures r != Refused("partial_changed")
      ensures r == Refused("outcome_unknown") ==> record.value.state == Committing && stage.Some? && dest.Some? && !Settles(Snapshot())
      ensures r == Refused("source_changed") ==> old(record.value.state) == Running && !FromSource(old(record.value), past.accepted)
      ensures r == Refused("destination_changed") ==> DestinationIdentity(Snapshot()) != old(record.value.expected)
      ensures !disturbed && old(Publishable(sha, Snapshot())) ==> r == Done && dest.Some? && dest.value.data == Concat(past.accepted)
      ensures !disturbed && old(Publishable(sha, Snapshot())) ==> stage.None? && !record.value.cleanupPending
      ensures !disturbed && old(record.value.state) == Committing && Settles(old(Snapshot())) ==> r == Done
    {
      CommittingFacts(log, Snapshot());
      if record.value.state == Succeeded {
        SucceededPublished(log, Snapshot());
        return Done;
      }
      if record.value.offset != record.value.size || record.value.state !in {Running, Committing} {
        return Refused("incomplete_transfer");
      }
      if record.value.state == Running {
        r := Arm(sha);
        if r != Done { return; }
        r := Rename();
        if r != Done { return; }
      }
      r := Confirm();
      if r != Done { return; }
      var cleaned := Cleanup();
    }

    /** Removes the displaced original and the stage of a published transfer; refuses any other displaced object. */
    method Cleanup() returns (r: Reply)
      requires Valid() && process == Idle && record.Some?
      modifies this
      ensures Valid() && old(log) <= log && process == Idle && dest == old(dest)
      ensures past == old(past).(unlinked := past.unlinked)
      ensures record == old(record) || record == Some(old(record.value).(cleanupPending := false))
      ensures !old(record.value.cleanupPending) ==> r == Done && Snapshot() == old(Snapshot())
      ensures old(record.value.cleanupPending) && r == Done ==> stage.None? && !record.value.cleanupPending
      ensures r.Refused? ==> r.code == "outcome_unknown" && Snapshot() == old(Snapshot())
      ensures r.Refused? ==> old(stage).Some? && old(stage).value.data.Some?
      ensures r.Refused? && old(record.value.expected).Some? ==>
        !Same(IdentityOf(old(stage).value.data.value), old(record.value.expected).value, true)
      ensures !disturbed ==> r != Stopped && (r == Done <==> !old(record.value.cleanupPending) || Removable(old(Snapshot())))
    {
      if !record.value.cleanupPending { return Done; }
      if stage.Some? && stage.value.data.Some? {
        if record.value.expected.None? || !Same(IdentityOf(stage.value.data.value), record.value.expected.value, true) {
          return Refused("outcome_unknown");
        }
        DropDisplaced();
        if disturbed { if * { return Stopped; } }
      }
      r := RemoveEmptied();
      if r != Done { return; }
      ghost var s := Snapshot();
      record := Some(record.value.(cleanupPending := false));
      Note(SaveClean, s);
      if disturbed { if * { return Stopped; } }
    }

    method DropDisplaced()
      requires Valid() && process == Idle && record.Some? && record.value.cleanupPending && stage.Some? && stage.value.data.Some?
      requires record.value.expected.Some? && Same(IdentityOf(stage.value.data.value), record.value.expected.value, true)
      modifies this`stage, this`past, this`process, this`log
      ensures Valid() && old(log) <= log && process == Idle && past == old(past).(unlinked := past.unlinked)
      ensures stage == Some(old(stage).value.(data := None))
    {
      ghost var s := Snapshot();
      stage := Some(stage.value.(data := None));
      Note(UnlinkDisplaced, s);
    }

    /** Unlinks the journal and removes the stage directory once its data file is gone. */
    method RemoveEmptied() returns (r: Reply)
      requires Valid() && process == Idle && record.Some? && (record.value.cleanupPending || record.value.state == Discarding)
      requires stage.Some? ==> stage.value.data.None?
      modifies this
      ensures Valid() && old(log) <= log && process == Idle && record == old(record) && dest == old(dest) && past == old(past)
      ensures r in {Done, Stopped} && (r == Done ==> stage.None?) && (!disturbed ==> r == Done)
    {
      if stage.None? { return Done; }
      ghost var s := Snapshot();
      if stage.value.chunks.Some? {
        stage := Some(stage.value.(chunks := None));
        Note(UnlinkChunks, s);
        if disturbed { if * { return Stopped; } }
      }
      s := Snapshot();
      stage := None;
      Note(RemoveStage, s);
      if disturbed { if * { return Stopped; } }
      return Done;
    }

    /** Gives up a transfer that published nothing: its own partial files only. */
    method Discard() returns (r: Reply)
      requires Valid() && process == Idle && record.Some?
      requires record.value.state in {Preparing, Running, Interrupted, Discarding}
      modifies this
      ensures Valid() && old(log) <= log && process == Idle && record.Some? && dest == old(dest)
      ensures past == old(past).(unlinked := past.unlinked)
      ensures r == Done ==> record.value == old(record.value).(state := Cancelled) && stage.None?
      ensures r == Stopped ==> record.value.state in {Discarding, Cancelled}
      ensures r.Refused? ==> r.code == "unsupported_file" && record.value.state == Discarding
      ensures r.Refused? ==> old(stage).Some? && old(stage).value.data.Some? && !old(stage).value.data.value.regular
      ensures !disturbed ==> r != Stopped
    {
      ghost var s := Snapshot();
      record := Some(record.value.(state := Discarding));
      Note(SaveDiscarding, s);
      if disturbed { if * { return Stopped; } }
      r := DropPartial();
      if r != Done { return; }
      s := Snapshot();
      record := Some(record.value.(state := Cancelled));
      Note(SaveCancelled, s);
      if disturbed { if * { return Stopped; } }
    }

    method DropPartial() returns (r: Reply)
      requires Valid() && process == Idle && record.Some? && record.value.state == Discarding
      modifies this
      ensures Valid() && old(log) <= log && process == Idle && record == old(record) && dest == old(dest)
      ensures past == old(past).(unlinked := past.unlinked)
      ensures r == Done ==> stage.None?
      ensures r.Refused? ==> r.code == "unsupported_file"
      ensures r.Refused? ==> old(stage).Some? && old(stage).value.data.Some? && !old(stage).value.data.value.regular
      ensures !disturbed ==> r != Stopped
    {
      if stage.Some? && stage.value.data.Some? {
        if !stage.value.data.value.regular { return Refused("unsupported_file"); }
        ghost var s := Snapshot();
        stage := Some(stage.value.(data := None));
        Note(UnlinkPartial, s);
        if disturbed { if * { return Stopped; } }
      }
      r := RemoveEmptied();
    }

    /** Resumes an interrupted transfer after its prefix verifies. */
    method Resume(capacity: bool) returns (r: Reply)
      requires Valid() && process == Idle && record.Some?
      modifies this
      ensures Valid() && old(log) <= log && process == Idle && record.Some? && past.accepted == old(past.accepted)
      ensures past.renames == old(past.renames)
      ensures r == Done ==> record.value.state == Running && record.value.prefix == Some(Sha256(Concat(past.accepted)))
      ensures r == Refused("transfer_state") ==> old(record.value.state) !in {Running, Interrupted, Preparing}
      ensures old(record.value.state) !in {Running, Interrupted, Preparing} ==> r == Refused("transfer_state") && record == old(record)
      ensures r != Refused("partial_changed")
      ensures r.Refused? ==> r.code in {"transfer_state", "disk_capacity", "interrupted", "source_changed"}
      ensures r == Refused("disk_capacity") ==> !capacity && NeedsPreparing(old(Snapshot()))
      ensures r == Refused("source_changed") ==> !FromSource(old(record.value), past.accepted)
      ensures !disturbed ==> r != Stopped && r != Refused("interrupted")
    {
      UnpreparedStates(log, Snapshot());
      r := Prepare(capacity);
      if r != Done { return; }
      UnpreparedStates(log, Snapshot());
      if record.value.state !in {Running, Interrupted} { return Refused("transfer_state"); }
      OwnNeverRefused(log, Snapshot());
      CommittingFacts(log, Snapshot());
      var prefix;
      r, prefix := VerifyPrefix();
      if r != Done { return; }
      ghost var s := Snapshot();
      record := Some(record.value.(state := Running, prefix := Some(prefix)));
      Note(SaveResumed, s);
      RunningPrefix(log, Snapshot());
      if disturbed { if * { return Stopped; } }
    }

    /** Cancels: interrupts or discards an unfinished transfer, cleans a published one, and removes a prepared download. */
    method Cancel(discard: bool) returns (r: Reply)
      requires Valid() && process == Idle && record.Some?
      modifies this
      ensures Valid() && old(log) <= log && process == Idle && record.Some?
      ensures past.accepted == old(past.accepted) && past.renames == old(past.renames)
      ensures old(record.value.state) == Committing ==> r == Refused("outcome_unknown") && Snapshot() == old(Snapshot())
      ensures r == Done ==> record.value.state == AfterCancel(old(record.value.state), discard, record.value.download)
      ensures r.Refused? ==> r.code in {"outcome_unknown", "source_changed", "unsupported_file"}
      ensures r == Refused("outcome_unknown") ==> old(record.value.state) == Committing || (old(record.value.cleanupPending) && !Removable(old(Snapshot())))
      ensures r == Refused("unsupported_file") ==>
        old(stage).Some? && old(stage).value.data.Some? && !old(stage).value.data.value.regular && record.value.state == Discarding
      ensures !disturbed && !(old(record.value.state) == Succeeded && discard && old(record.value.download)) ==> r != Stopped
      ensures r == Refused("source_changed") ==> old(record.value.state) == Succeeded && discard && record.value.download
    {
      if record.value.state == Committing { return Refused("outcome_unknown"); }
      CommittingFacts(log, Snapshot());
      if record.value.state == Succeeded {
        r := Cleanup();
        if r != Done || !discard || !record.value.download { return; }
        r := RemoveDownload();
      } else if Terminal(record.value.state) {
        return Done;
      } else if discard {
        r := Discard();
      } else if record.value.state != Discarding {
        ghost var s := Snapshot();
        record := Some(record.value.(state := Interrupted));
        Note(SaveInterrupted, s);
        if disturbed { if * { return Stopped; } }
        return Done;
      } else {
        return Done;
      }
    }

    /** Deletes a prepared download, only while its name still holds the published object. */
    method RemoveDownload() returns (r: Reply)
      requires Valid() && process == Idle && record.Some? && record.value.state == Succeeded
      requires record.value.download && !record.value.cleanupPending && record.value.committed.Some?
      modifies this
      ensures Valid() && old(log) <= log && process == Idle && record.Some?
      ensures past == old(past)
      ensures r == Done ==> record.value == old(record.value).(state := Cancelled) && dest.None?
      ensures r.Refused? ==> r.code == "source_changed" && record == old(record)
      ensures r.Refused? ==> dest.Some? && Elsewhere(dest.value, record.value.committed.value)
      ensures !disturbed && dest.Some? ==> r != Stopped
      ensures !disturbed && old(dest).Some? && !Elsewhere(old(dest).value, old(record.value.committed.value)) ==> r == Done
      ensures r == Stopped ==> record == old(record) || record.value == old(record.value).(state := Cancelled)
    {
      Interfere();
      if dest.None? { return Stopped; }
      if !Same(IdentityOf(dest.value), record.value.committed.value, true) { return Refused("source_changed"); }
      ghost var s := Snapshot();
      dest := None;
      Note(UnlinkExport, s);
      if disturbed { if * { Stop(); return Stopped; } }
      s := Snapshot();
      record := Some(record.value.(state := Cancelled));
      Note(SaveExportCancelled, s);
      if disturbed { if * { return Stopped; } }
      return Done;
    }
  }

  /** The same file with the same bytes; a rename changes its time stamp. */
  predicate SameObject(one: Object, other: Object) {
    one.ino == other.ino && one.regular == other.regular && one.data == other.data
  }

  /** The destination is the committed object with the accepted bytes, and the stage holds the displaced file that was
      expected, if one was. */
  ghost predicate Settles(s: State) {
    && s.record.Some? && s.record.value.committed.Some? && s.stage.Some? && s.dest.Some?
    && s.dest.value.ino == s.record.value.committed.value.ino && s.dest.value.regular == s.record.value.committed.value.regular
    && s.dest.value.data == Concat(s.past.accepted)
    && (s.record.value.expected.Some? ==>
          && s.stage.value.data.Some?
          && s.stage.value.data.value.ino == s.record.value.expected.value.ino
          && s.stage.value.data.value.regular == s.record.value.expected.value.regular)
  }

  predicate Elsewhere(o: Object, i: Identity) { o.ino != i.ino || o.regular != i.regular }

  /** Nothing but the expected displaced file, if anything, is left in the stage. */
  predicate Removable(s: State) {
    s.record.Some? && (s.stage.Some? && s.stage.value.data.Some? ==>
      && s.record.value.expected.Some?
      && s.stage.value.data.value.ino == s.record.value.expected.value.ino
      && s.stage.value.data.value.regular == s.record.value.expected.value.regular)
  }

  /** A whole upload of the right bytes, over what was expected at the destination. */
  ghost predicate Publishable(sha: Digest, s: State) {
    && s.record.Some? && s.record.value.state == Running && s.record.value.offset == s.record.value.size
    && sha == Sha256(Concat(s.past.accepted)) && FromSource(s.record.value, s.past.accepted)
    && DestinationIdentity(s) == s.record.value.expected
  }

  /** Where a completed cancellation leaves a transfer. */
  function AfterCancel(state: Phase, discard: bool, download: bool): Phase {
    match state
    case Succeeded => if discard && download then Cancelled else Succeeded
    case Cancelled => Cancelled
    case Discarding => if discard then Cancelled else Discarding
    case Committing => Committing
    case _ => if discard then Cancelled else Interrupted
  }

  function Prepared(r: Record): Record {
    r.(state := Running, prepared := true, reserved := r.size + JournalBytes(r.size))
  }

  /** The first i chunks were read and agree with the journal, and both digests cover them. */
  ghost predicate ReadSoFar(data: Bytes, journal: seq<Digest>, r: Record, i: nat, hashed: Bytes, chained: Digest) {
    && i <= Slots(r.offset) && i <= |journal| && Min(i * CHUNK, r.offset) <= |data|
    && (forall k :: 0 <= k < i ==> journal[k] == Sha256(Pread(data, k * CHUNK, Min(CHUNK, r.offset - k * CHUNK))))
    && hashed == data[..Min(i * CHUNK, r.offset)]
    && chained == Chain(r.size, journal[..i])
  }

  lemma ReadMore(data: Bytes, journal: seq<Digest>, r: Record, i: nat, hashed: Bytes, chained: Digest, chunk: Bytes)
    requires i < Slots(r.offset) && i < |journal| && ReadSoFar(data, journal, r, i, hashed, chained)
    requires var want := Min(CHUNK, r.offset - i * CHUNK); chunk == Pread(data, i * CHUNK, want) && |chunk| == want
    requires journal[i] == Sha256(chunk)
    ensures ReadSoFar(data, journal, r, i + 1, hashed + chunk, ChainNext(chained, journal[i]))
  {
    assert journal[..i + 1][..i] == journal[..i];
    assert hashed + chunk == data[..Min((i + 1) * CHUNK, r.offset)];
  }

  lemma ReadAll(data: Bytes, journal: seq<Digest>, r: Record, hashed: Bytes, chained: Digest)
    requires ReadSoFar(data, journal, r, Slots(r.offset), hashed, chained)
    ensures PrefixVerifies(data, journal, r.offset) && hashed == data[..r.offset]
    ensures chained == Chain(r.size, journal[..Slots(r.offset)])
  {
    assert Slots(r.offset) * CHUNK >= r.offset;
    ReadsVerify(data, journal, r.offset);
  }

  lemma NothingRead(data: Bytes, journal: seq<Digest>, r: Record)
    ensures ReadSoFar(data, journal, r, 0, [], ChainSeed(r.size))
  {
    assert journal[..0] == [] && data[..0] == [];
  }

  /** The read loop of prefix verification. */
  method ReadPrefix(data: Bytes, journal: seq<Digest>, record: Record, disturbed: bool) returns (r: Reply, prefix: Digest)
    ensures r == Done || (r.Refused? && r.code in {"interrupted", "partial_changed", "source_changed"})
    ensures !disturbed ==> r != Refused("interrupted")
    ensures r == Refused("partial_changed") ==> !PrefixVerifies(data, journal, record.offset)
    ensures r == Done ==> PrefixVerifies(data, journal, record.offset) && prefix == Sha256(data[..record.offset])
    ensures r == Done && record.offset == record.size && record.source.Some? ==>
      record.source.value.digest == SourceDigest(record, data, journal)
    ensures r == Refused("source_changed") ==>
      && PrefixVerifies(data, journal, record.offset) && record.offset == record.size && record.source.Some?
      && record.source.value.digest != SourceDigest(record, data, journal)
  {
    prefix := Sha256([]);
    var expected := record.offset;
    var hashed: Bytes := [];
    var chained, i := ChainSeed(record.size), 0;
    NothingRead(data, journal, record);
    while i < Slots(expected)
      invariant 0 <= i <= Slots(expected) && ReadSoFar(data, journal, record, i, hashed, chained)
    {
      if disturbed { if * { return Refused("interrupted"), prefix; } }
      var want := Min(CHUNK, expected - i * CHUNK);
      var chunk := Pread(data, i * CHUNK, want);
      if |chunk| != want || i >= |journal| || journal[i] != Sha256(chunk) {
        BadReadRefutes(data, journal, expected, i);
        return Refused("partial_changed"), prefix;
      }
      ReadMore(data, journal, record, i, hashed, chained, chunk);
      hashed, chained, i := hashed + chunk, ChainNext(chained, journal[i]), i + 1;
    }
    ReadAll(data, journal, record, hashed, chained);
    prefix := Sha256(hashed);
    if expected == record.size && record.source.Some? {
      var source := record.source.value;
      if source.digest != (if source.algorithm == Plain then prefix else chained) {
        return Refused("source_changed"), prefix;
      }
    }
    return Done, prefix;
  }
}
