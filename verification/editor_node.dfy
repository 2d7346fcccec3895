/** The editor helper on the node. Another program acts on the same file wherever the helper gives it time to. */
module EditorNode {
  import opened Base
  import opened EditorModel

  datatype Answer = Saved(record: Record) | Denied(code: string) | Interrupted

  const MAX_TEXT := 262144
  const MAX_EDITS := 128
  const MAX_RETAINED := 128 * 1024 * 1024

  /** Another edit whose copies are still retained: what its record reserves, and what its folder holds. */
  datatype Copies = Copies(reserved: nat, measured: Option<nat>)

  function Held(kept: seq<Copies>): nat {
    if kept == [] then 0
    else
      var c := kept[|kept| - 1];
      Held(kept[..|kept| - 1]) + Max(c.reserved, if c.measured.Some? then c.measured.value else 0)
  }

  /** There is room for the three texts of one more save. */
  predicate RoomFor(kept: seq<Copies>) {
    && |kept| < MAX_EDITS && Held(kept) + 3 * MAX_TEXT <= MAX_RETAINED
    && forall i :: 0 <= i < |kept| ==> kept[i].measured.Some?
  }

  method Capacity(kept: seq<Copies>) returns (ok: bool)
    ensures ok <==> RoomFor(kept)
  {
    var count, total := 0, 3 * MAX_TEXT;
    while count < |kept|
      invariant 0 <= count <= |kept| && total == Held(kept[..count]) + 3 * MAX_TEXT
      invariant forall i :: 0 <= i < count ==> kept[i].measured.Some?
    {
      if kept[count].measured.None? { return false; }
      total := total + Max(kept[count].reserved, kept[count].measured.value);
      assert kept[..count + 1][..count] == kept[..count];
      count := count + 1;
    }
    assert kept[..count] == kept;
    return !(count >= MAX_EDITS || total > MAX_RETAINED);
  }

  /** `disturbed` says that the helper may stop or fail anywhere and that other programs may act on the file. */
  class Editor {
    const q: Request
    const disturbed: bool
    const readOnly: bool
    ghost const start: Option<File>
    var target: Option<File>
    var stage: Option<Stage>
    var record: Option<Record>
    ghost var committing: bool
    ghost var checked: bool
    var looked: Option<File>
    ghost var exchanged: bool
    ghost var displaced: Option<nat>
    ghost var verdict: Option<(File, File)>
    ghost var log: seq<Action>

    ghost function Snapshot(): State
      reads this
    {
      State(target, stage, record, committing, checked, looked, exchanged, displaced, verdict)
    }

    ghost predicate Reachable()
      reads this
    {
      IsRun(q, start, log, Snapshot())
    }

    /** Between requests no save is under way. */
    ghost predicate Valid()
      reads this
    {
      Reachable() && !committing && looked.None?
    }

    constructor (q: Request, readOnly: bool, target: Option<File>, disturbed: bool)
      requires target.Some? ==> target.value.id != OURS
      ensures Valid() && Snapshot() == Initial(target) && this.disturbed == disturbed
    {
      this.q, this.readOnly, start, this.target, this.disturbed := q, readOnly, target, target, disturbed;
      stage, record, committing, checked, looked, exchanged, displaced, verdict := None, None, false, false, None, false, None, None;
      log := [];
    }

    ghost method Note(a: Action, before: State)
      requires IsRun(q, start, log, before) && Next(q, before, a) == Some(Snapshot())
      modifies this`log
      ensures Reachable() && log == old(log) + [a]
    {
      RunStep(q, start, log, before, a);
      log := log + [a];
    }

    /** Another program replaces or removes the file, or writes into an object it still has open. */
    method Others()
      requires Reachable()
      modifies this`target, this`stage, this`log
      ensures Reachable() && old(log) <= log
      ensures stage.Some? == old(stage.Some?) && (stage.Some? ==> stage.value.draft == old(stage).value.draft)
      ensures stage.Some? ==> stage.value.replacement.Some? == old(stage).value.replacement.Some?
      ensures !exchanged && old(stage.Some?) ==> stage == old(stage)
      ensures !disturbed ==> target == old(target) && stage == old(stage)
    {
      if !disturbed { return; }
      RunFacts(q, start, log, Snapshot());
      if * {
        OtherReplaces();
      } else if * {
        OtherRewrites();
      }
    }

    method OtherReplaces()
      requires Reachable()
      modifies this`target, this`log
      ensures Reachable() && old(log) <= log
    {
      var file: Option<File> := *;
      if file.Some? && file.value.id == OURS { return; }
      ghost var s := Snapshot();
      target := file;
      Note(Replace(file), s);
    }

    method OtherRewrites()
      requires Reachable()
      modifies this`target, this`stage, this`log
      ensures Reachable() && old(log) <= log
      ensures stage.Some? == old(stage.Some?) && (stage.Some? ==> stage.value.draft == old(stage).value.draft)
      ensures stage.Some? ==> stage.value.replacement.Some? == old(stage).value.replacement.Some?
      ensures !exchanged && old(stage.Some?) ==> stage == old(stage)
    {
      RunFacts(q, start, log, Snapshot());
      var id: nat, content: Bytes, meta: nat := *, *, *;
      if id == OURS { return; }
      var a := Rewrite(id, content, meta);
      ghost var s := Snapshot();
      target := Rewritten(target, a);
      if stage.Some? { stage := Some(stage.value.(replacement := Rewritten(stage.value.replacement, a))); }
      Note(a, s);
    }

    method Die()
      requires Reachable()
      modifies this`committing, this`checked, this`looked, this`log
      ensures Valid() && old(log) <= log
    {
      ghost var s := Snapshot();
      committing, checked, looked := false, false, None;
      Note(Stop, s);
    }

    /** One save request; `same` says that a retained record of this identity is for this very request, and `kept` are
        the other edits whose copies are retained. */
    method Commit(same: bool, kept: seq<Copies>) returns (r: Answer)
      requires Valid() && q.expected.id != OURS && (record.None? ==> stage.None?)
      modifies this
      ensures Valid() && old(log) <= log
      ensures r.Denied? ==> Snapshot() == old(Snapshot())
      ensures old(record).Some? ==> (r.Denied? <==> !same) && exchanged == old(exchanged)
      ensures old(record).None? ==> (r.Denied? <==> readOnly || old(target) != Some(q.expected) || !RoomFor(kept))
      ensures r.Saved? ==> record == Some(r.record) && r.record.phase != Preparing
      ensures !disturbed ==> r != Interrupted
      ensures !disturbed && old(record).None? && !r.Denied? ==>
        && r.Saved? && r.record.phase == Succeeded && target.Some? && target.value.content == q.text
        && stage.Some? && stage.value.draft == Some(q.text) && stage.value.replacement == Some(q.expected)
      ensures r.Saved? && r.record.phase == Succeeded && !r.record.resolved ==> BothKept(q, Snapshot())
    {
      RunFacts(q, start, log, Snapshot());
      if record.Some? {
        if !same { return Denied("idempotency_conflict"); }
        r := Inspect();
        RunFacts(q, start, log, Snapshot());
        return;
      }
      if readOnly { return Denied("read_only"); }
      if target.None? || target.value.id != q.expected.id || target.value.meta != q.expected.meta { return Denied("stale_entry"); }
      if Sha256(target.value.content) != Sha256(q.expected.content) { return Denied("editor_conflict"); }
      assert target.value == q.expected;
      var room := Capacity(kept);
      if !room { return Denied("editor_capacity"); }
      r := Publish();
      RunFacts(q, start, log, Snapshot());
    }

    /** The intent is recorded, both copies are written and checked, and only then is the file exchanged. */
    method Publish() returns (r: Answer)
      requires Valid() && record.None? && stage.None? && q.expected.id != OURS
      modifies this
      ensures Valid() && old(log) <= log && !r.Denied?
      ensures r.Saved? ==> record == Some(r.record) && r.record.phase != Preparing
      ensures !disturbed ==> r != Interrupted
      ensures !disturbed && old(target) == Some(q.expected) ==>
        && r.Saved? && r.record.phase == Succeeded && target.Some? && target.value.content == q.text
        && stage.Some? && stage.value.draft == Some(q.text) && stage.value.replacement == Some(q.expected)
    {
      RunFacts(q, start, log, Snapshot());
      ghost var s := Snapshot();
      record, committing := Some(Record(Preparing, true, false)), true;
      Note(SaveRecord, s);
      if disturbed { if * { Die(); return Interrupted; } }
      var step := PrepareCopies();
      if step == Done { step := PublishCopies(); }
      if step == Stopped { Die(); return Interrupted; }
      if step.Refused? && record.value.phase == Preparing {
        r := Abandon();
        return;
      }
      Die();  // the helper stops writing; the record says how to find out what happened
      if step.Refused? { return Saved(record.value); }
      r := Inspect();
    }

    method Abandon() returns (r: Answer)
      requires Reachable() && committing && looked.None? && InPhase(Snapshot(), Preparing)
      modifies this`record, this`committing, this`log
      ensures Valid() && old(log) <= log && r.Saved? && record == Some(r.record) && r.record.phase == Failed
    {
      ghost var s := Snapshot();
      record, committing := Some(record.value.(phase := Failed, retained := stage.Some?)), false;
      Note(GiveUp, s);
      return Saved(record.value);
    }

    /** Writes the draft and the replacement in the private folder. */
    method PrepareCopies() returns (step: Reply)
      requires Reachable() && committing && looked.None? && InPhase(Snapshot(), Preparing) && stage.None?
      modifies this`target, this`stage, this`log
      ensures Reachable() && old(log) <= log && (step == Done ==> Ready(q, Snapshot()))
      ensures !disturbed ==> target == old(target) && step != Stopped
      ensures !disturbed && old(target) == Some(q.expected) ==> step == Done
    {
      RunFacts(q, start, log, Snapshot());
      if target != Some(q.expected) { return Refused("stale_entry"); }
      MakeFolder();
      if disturbed { if * { return Stopped; } }
      step := WriteFile(true);
      if step != Done { return; }
      step := WriteFile(false);
    }

    method MakeFolder()
      requires Reachable() && committing && InPhase(Snapshot(), Preparing) && stage.None?
      modifies this`stage, this`log
      ensures Reachable() && old(log) <= log && stage == Some(Stage(None, None))
    {
      ghost var s := Snapshot();
      stage := Some(Stage(None, None));
      Note(MakeStage, s);
    }

    /** Writes one copy in as many system calls as it takes. */
    method WriteFile(draft: bool) returns (step: Reply)
      requires Reachable() && committing && InPhase(Snapshot(), Preparing) && stage.Some?
      modifies this`stage, this`log
      ensures Reachable() && old(log) <= log && stage.Some?
      ensures !disturbed ==> step == Done
      ensures step == Done && draft ==> stage.value == old(stage).value.(draft := Some(q.text))
      ensures step == Done && !draft ==> stage.value.draft == old(stage).value.draft && stage.value.replacement.Some?
      ensures step == Done && !draft ==> OursIntact(q, stage.value.replacement.value)
    {
      var offset, meta := 0, 0;
      Extend(draft, 0, meta);
      while offset < |q.text|
        invariant 0 <= offset <= |q.text| && Reachable() && old(log) <= log && stage.Some?
        invariant draft ==> stage.value == old(stage).value.(draft := Some(q.text[..offset]))
        invariant !draft ==> stage.value == old(stage).value.(replacement := Some(File(OURS, q.text[..offset], meta)))
      {
        if disturbed { if * { return Stopped; } }
        var count: int := *;
        if !disturbed { count := |q.text| - offset; }
        if count <= 0 || count > |q.text| - offset { return Refused("The edit write did not advance."); }
        offset := offset + count;
        Extend(draft, offset, meta);
      }
      assert q.text[..offset] == q.text;
      return Done;
    }

    method Extend(draft: bool, offset: nat, meta: nat)
      requires Reachable() && committing && InPhase(Snapshot(), Preparing) && stage.Some? && offset <= |q.text|
      modifies this`stage, this`log
      ensures Reachable() && old(log) <= log && stage.Some?
      ensures draft ==> stage.value == old(stage).value.(draft := Some(q.text[..offset]))
      ensures !draft ==> stage.value == old(stage).value.(replacement := Some(File(OURS, q.text[..offset], meta)))
    {
      var part := q.text[..offset];
      ghost var s := Snapshot();
      if draft {
        stage := Some(stage.value.(draft := Some(part)));
        Note(WriteDraft(part), s);
      } else {
        stage := Some(stage.value.(replacement := Some(File(OURS, part, meta))));
        Note(WriteReplacement(part, meta), s);
      }
    }

    /** The second check narrows the race, the record is saved as unresolved, and the exchange follows. */
    method PublishCopies() returns (step: Reply)
      requires Reachable() && committing && looked.None? && InPhase(Snapshot(), Preparing) && Ready(q, Snapshot())
      modifies this
      ensures Reachable() && old(log) <= log && looked.None? && record.Some?
      ensures step == Done ==> exchanged && InPhase(Snapshot(), Unknown)
      ensures step.Refused? && InPhase(Snapshot(), Preparing) ==> committing && !exchanged
      ensures !disturbed ==> step != Stopped
      ensures !disturbed && old(target) == Some(q.expected) ==>
        step == Done && target == old(stage).value.replacement && stage == Some(old(stage).value.(replacement := old(target)))
      ensures step.Refused? ==> InPhase(Snapshot(), Preparing) || InPhase(Snapshot(), Unknown)
    {
      RunFacts(q, start, log, Snapshot());
      Others();
      if target != Some(q.expected) { return Refused("editor_conflict"); }
      SecondCheck();
      Others();
      ghost var s := Snapshot();
      record := Some(record.value.(phase := Unknown));
      Note(SaveUnknown, s);
      if disturbed { if * { return Stopped; } }
      Others();
      if target.None? { return Refused("ENOENT"); }
      if disturbed { if * { return Refused("EIO"); } }
      SwapFiles();
      if disturbed { if * { return Stopped; } }
      if disturbed { if * { return Refused("EIO"); } }  // synchronising the folders
      Others();
      return Done;
    }

    ghost method SecondCheck()
      requires Reachable() && committing && InPhase(Snapshot(), Preparing) && Ready(q, Snapshot()) && target == Some(q.expected)
      modifies this`checked, this`log
      ensures Reachable() && old(log) <= log && checked
    {
      ghost var s := Snapshot();
      checked := true;
      Note(Check, s);
    }

    method SwapFiles()
      requires Reachable() && committing && InPhase(Snapshot(), Unknown) && target.Some? && stage.Some? && stage.value.replacement.Some?
      modifies this`target, this`stage, this`committing, this`exchanged, this`displaced, this`log
      ensures Reachable() && old(log) <= log && exchanged && !committing
      ensures target == old(stage).value.replacement && stage == Some(old(stage).value.(replacement := old(target)))
    {
      ghost var s := Snapshot();
      exchanged, displaced, committing := true, Some(target.value.id), false;
      target, stage := stage.value.replacement, Some(stage.value.(replacement := target));
      Note(Exchange, s);
    }

    /** Finds out, after any crash, what became of a save. */
    method Inspect() returns (r: Answer)
      requires Valid() && record.Some?
      modifies this`target, this`stage, this`record, this`looked, this`verdict, this`committing, this`checked, this`log
      ensures Valid() && old(log) <= log && r.Saved? && record == Some(r.record) && r.record.phase != Preparing
      ensures old(record).value.phase !in {Preparing, Unknown} ==> record == old(record)
      ensures !disturbed ==> target == old(target) && stage == old(stage)
      ensures !disturbed && old(record).value.phase == Unknown && Readable(old(target), old(stage)) ==>
        r.record.phase == Outcome(old(target).value, old(stage).value.replacement.value)
      ensures !disturbed && old(record).value.phase == Unknown && !Readable(old(target), old(stage)) ==> r.record.phase == Unknown
      ensures old(record).value.phase == Preparing ==> r.record.phase == Failed && (r.record.retained <==> old(stage).Some?)
    {
      RunFacts(q, start, log, Snapshot());
      if record.value.phase == Preparing {
        ghost var s := Snapshot();
        record := Some(record.value.(phase := Failed, retained := stage.Some?));
        Note(SettleFailed, s);
      }
      if record.value.phase == Unknown {
        Judge();
      }
      return Saved(record.value);
    }

    method Judge()
      requires Valid() && InPhase(Snapshot(), Unknown)
      modifies this`target, this`stage, this`record, this`looked, this`verdict, this`committing, this`checked, this`log
      ensures Valid() && old(log) <= log && record.Some? && record.value.phase != Preparing
      ensures !disturbed ==> target == old(target) && stage == old(stage)
      ensures !disturbed && Readable(target, stage) ==> record.value.phase == Outcome(target.value, stage.value.replacement.value)
      ensures !disturbed && !Readable(target, stage) ==> record.value.phase == Unknown
    {
      if disturbed { if * { return; } }  // a folder or file cannot be opened
      if target.None? { return; }
      ghost var s := Snapshot();
      looked := target;
      Note(EditorModel.Look, s);
      Others();
      if stage.None? || stage.value.replacement.None? { Die(); return; }
      Decide(stage.value.replacement.value);
      if looked.Some? { Die(); }
    }

    predicate Readable(current: Option<File>, copies: Option<Stage>) {
      current.Some? && copies.Some? && copies.value.replacement.Some?
    }

    /** What the two files say: our text in place over what was expected, our text over something else, or the expected file
        still in place with our text beside it; anything else leaves the outcome unknown. */
    function Outcome(current: File, kept: File): Phase {
      if current.id == OURS && current.content == q.text then (if kept == q.expected then Succeeded else Conflict)
      else if kept.id == OURS && kept.content == q.text && current == q.expected then Failed
      else Unknown
    }

    /** Compares both files with what was submitted and what was expected. */
    method Decide(kept: File)
      requires Reachable() && Judging(Snapshot()) && stage.value.replacement == Some(kept)
      modifies this`record, this`looked, this`verdict, this`log
      ensures Reachable() && old(log) <= log && record.Some?
      ensures looked.None? ==> record.value.phase in {Failed, Conflict, Succeeded}
      ensures looked.Some? ==> record == old(record)
      ensures record.value.phase == Succeeded <==> OursIntact(q, old(looked).value) && kept == q.expected
      ensures record.value.phase == Conflict <==> OursIntact(q, old(looked).value) && kept != q.expected
      ensures record.value.phase == Failed <==>
        !OursIntact(q, old(looked).value) && OursIntact(q, kept) && old(looked).value == q.expected
    {
      ghost var s := Snapshot();
      if !OursIntact(q, looked.value) {
        if OursIntact(q, kept) && looked.value == q.expected {
          verdict, looked, record := Some((looked.value, kept)), None, Some(record.value.(phase := Failed));
          Note(SettleUnpublished, s);
        }
      } else if kept != q.expected {
        verdict, looked, record := Some((looked.value, kept)), None, Some(record.value.(phase := Conflict));
        Note(SettleConflict, s);
      } else {
        verdict, looked, record := Some((looked.value, kept)), None, Some(record.value.(phase := Succeeded));
        Note(SettleSucceeded, s);
      }
    }

    /** An unresolved save, a conflict whose copies were not recovered or are not there, or copies that are gone although
        nobody resolved the save. */
    predicate Uncleanable(r: Record, copies: Option<Stage>, recovered: bool) {
      || readOnly || r.phase in {Preparing, Unknown}
      || (r.phase == Conflict && !r.resolved
          && (!recovered || copies.None? || copies.value.replacement.None? || copies.value.draft.None?))
      || (r.retained && copies.None? && !r.resolved)
    }

    /** The owner asks for the retained copies to be removed. A conflict needs `recovered` first; an unresolved
        save is refused; a stopped cleanup can be repeated. */
    method Cleanup(recovered: bool) returns (r: Answer)
      requires Valid() && record.Some?
      modifies this`stage, this`record, this`log
      ensures Valid() && old(log) <= log && target == old(target)
      ensures readOnly || old(record).value.phase in {Preparing, Unknown} ==> r.Denied? && Snapshot() == old(Snapshot())
      ensures old(record).value.phase == Conflict && !old(record).value.resolved && !recovered ==>
        r.Denied? && Snapshot() == old(Snapshot())
      ensures !disturbed ==> r != Interrupted
      ensures r.Denied? <==> Uncleanable(old(record).value, old(stage), recovered)
      ensures r.Saved? ==> record == Some(r.record) && !r.record.retained && stage.None?
      ensures record.Some? && record.value.phase == old(record).value.phase
    {
      RunFacts(q, start, log, Snapshot());
      if readOnly { return Denied("read_only"); }
      if record.value.phase in {Unknown, Preparing} { return Denied("editor_unknown"); }
      if record.value.phase == Conflict && !record.value.resolved {
        if !recovered { return Denied("editor_conflict"); }
        if stage.None? || stage.value.replacement.None? || stage.value.draft.None? { return Denied("editor_recovery"); }
      }
      if !record.value.retained { return Saved(record.value); }
      r := RemoveCopies();
    }

    method RemoveCopies() returns (r: Answer)
      requires Valid() && record.Some? && record.value.phase in {Failed, Succeeded, Conflict} && record.value.retained
      modifies this`stage, this`record, this`log
      ensures Valid() && old(log) <= log && record.Some? && record.value.phase == old(record).value.phase
      ensures !disturbed ==> r != Interrupted
      ensures r.Denied? <==> old(stage).None? && !old(record).value.resolved
      ensures r.Saved? ==> record == Some(r.record) && !r.record.retained && stage.None?
    {
      if stage.None? && !record.value.resolved { return Denied("editor_recovery"); }
      MarkResolved();
      if disturbed { if * { return Interrupted; } }
      if stage.Some? {
        DropDraft();
        if disturbed { if * { return Interrupted; } }
        DropReplacement();
        if disturbed { if * { return Interrupted; } }
        DropFolder();
        if disturbed { if * { return Interrupted; } }
      }
      ghost var s := Snapshot();
      record := Some(record.value.(retained := false));
      Note(SaveCleaned, s);
      return Saved(record.value);
    }

    method MarkResolved()
      requires Valid() && record.Some? && record.value.phase in {Failed, Succeeded, Conflict}
      modifies this`record, this`log
      ensures Valid() && old(log) <= log && record == Some(old(record).value.(resolved := true))
    {
      ghost var s := Snapshot();
      record := Some(record.value.(resolved := true));
      Note(Resolve, s);
    }

    method DropDraft()
      requires Valid() && Cleaning(Snapshot()) && stage.Some?
      modifies this`stage, this`log
      ensures Valid() && old(log) <= log && stage == Some(old(stage).value.(draft := None))
    {
      ghost var s := Snapshot();
      stage := Some(stage.value.(draft := None));
      Note(UnlinkDraft, s);
    }

    method DropReplacement()
      requires Valid() && Cleaning(Snapshot()) && stage.Some?
      modifies this`stage, this`log
      ensures Valid() && old(log) <= log && stage == Some(old(stage).value.(replacement := None))
    {
      ghost var s := Snapshot();
      stage := Some(stage.value.(replacement := None));
      Note(UnlinkReplacement, s);
    }

    method DropFolder()
      requires Valid() && Cleaning(Snapshot()) && stage == Some(Stage(None, None))
      modifies this`stage, this`log
      ensures Valid() && old(log) <= log && stage.None?
    {
      ghost var s := Snapshot();
      stage := None;
      Note(RemoveStage, s);
    }
  }
}
