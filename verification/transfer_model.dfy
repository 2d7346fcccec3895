/** One resumable transfer as a machine whose steps are single durable writes.
    A process may stop between any two steps, and other programs may replace the destination at any time. */
module TransferModel {
  import opened Base
  import opened TransferChunks

  /** A file object: inode, whether it is a regular file, a modification stamp and its bytes. */
  datatype Object = Object(ino: nat, regular: bool, stamp: nat, data: Bytes)

  datatype Identity = Identity(ino: nat, regular: bool, size: nat, stamp: nat)

  function IdentityOf(o: Object): Identity {
    Identity(o.ino, o.regular, |o.data|, o.stamp)
  }

  /** Identity comparison; with `inode` only the object itself is compared, not its version. */
  predicate Same(current: Identity, expected: Identity, inode: bool) {
    && current.ino == expected.ino
    && current.regular == expected.regular
    && (!inode ==> current.size == expected.size && current.stamp == expected.stamp)
  }

  datatype Phase = Preparing | Running | Interrupted | Committing | Succeeded | Discarding | Cancelled

  /** The durable record of one transfer. */
  datatype Record = Record(
    state: Phase, prepared: bool, offset: nat, size: nat, expected: Option<Identity>,
    source: Option<Manifest>, download: bool, reserved: nat, cleanupPending: bool,
    prefix: Option<Digest>, sha: Option<Digest>, committed: Option<Identity>, published: Option<Identity>)

  /** The private partial directory: the `data` file and the `chunks` journal. */
  datatype Stage = Stage(data: Option<Object>, chunks: Option<seq<Digest>>)

  /** What the running helper process alone knows; lost when it stops. */
  datatype Volatile = Idle | Checked | Armed | Removed

  /** History no file holds: chunks accepted, publishing renames, the object a rename displaced,
      objects unlinked from the stage, the bytes found published, and whether a displaced object was cut. */
  datatype History = History(
    accepted: seq<Bytes>, renames: nat, displaced: Option<Object>, unlinked: seq<Object>,
    published: Option<Bytes>, trimmed: bool)

  datatype State = State(
    record: Option<Record>, stage: Option<Stage>, dest: Option<Object>, process: Volatile, past: History)

  datatype Action =
    | Begin(size: nat, source: Option<Manifest>, download: bool)
    | MakeStage
    | MakeData(ino: nat, stamp: nat)
    | MakeChunks
    | SavePrepared
    | WriteData(at: nat, piece: Bytes, stamp: nat)
    | WriteJournal(slot: nat, digest: Digest)
    | CutData(stamp: nat)
    | CutChunks
    | Accept(chunk: Bytes)
    | SaveResumed
    | SaveInterrupted
    | CheckDestination
    | SaveCommitting
    | Publish(stamp: nat, displacedStamp: nat)
    | SaveSucceeded
    | UnlinkDisplaced
    | UnlinkPartial
    | UnlinkChunks
    | RemoveStage
    | SaveClean
    | SaveDiscarding
    | SaveCancelled
    | UnlinkExport
    | SaveExportCancelled
    | Outside(object: Option<Object>)
    | Halt

  const Empty := State(None, None, None, Idle, History([], 0, None, [], None, false))

  function DestinationIdentity(s: State): Option<Identity> {
    if s.dest.Some? then Some(IdentityOf(s.dest.value)) else None
  }

  function FreshRecord(size: nat, expected: Option<Identity>, source: Option<Manifest>, download: bool): Record {
    Record(Preparing, false, 0, size, expected, source, download, 0, false, None, None, None, None)
  }

  predicate Terminal(state: Phase) { state == Succeeded || state == Cancelled }

  predicate NeedsPreparing(s: State) {
    s.record.Some? && !s.record.value.prepared
    && !Terminal(s.record.value.state) && s.record.value.state != Discarding
  }

  /** Both partial files are present. */
  predicate Staged(s: State) {
    s.stage.Some? && s.stage.value.data.Some? && s.stage.value.chunks.Some?
  }

  function Partial(s: State): Bytes
    requires Staged(s)
  {
    s.stage.value.data.value.data
  }

  function Journal(s: State): seq<Digest>
    requires Staged(s)
  {
    s.stage.value.chunks.value
  }

  ghost predicate Verifies(s: State) {
    s.record.Some? && Staged(s) && PrefixVerifies(Partial(s), Journal(s), s.record.value.offset)
  }

  /** The digest of the received prefix under the algorithm the source manifest names. */
  function SourceDigest(r: Record, data: Bytes, journal: seq<Digest>): Digest
    requires r.source.Some? && r.offset <= |data| && Slots(r.offset) <= |journal|
  {
    if r.source.value.algorithm == Plain then Sha256(data[..r.offset]) else Chain(r.size, journal[..Slots(r.offset)])
  }

  /** A complete prefix must carry the digest of the source named at admission. */
  ghost predicate SourceAgrees(s: State)
    requires Verifies(s)
  {
    var r := s.record.value;
    r.offset == r.size && r.source.Some? ==> r.source.value.digest == SourceDigest(r, Partial(s), Journal(s))
  }

  function Overwrite(data: Bytes, at: nat, piece: Bytes): Bytes
    requires at <= |data|
  {
    data[..at] + piece + (if at + |piece| < |data| then data[at + |piece|..] else [])
  }

  function Put(journal: seq<Digest>, slot: nat, digest: Digest): seq<Digest>
    requires slot <= |journal|
  {
    if slot < |journal| then journal[slot := digest] else journal + [digest]
  }

  ghost predicate Enabled(s: State, a: Action) {
    match a
    case Begin(_, _, _) => s.record.None? && (s.dest.Some? ==> s.dest.value.regular)
    case MakeStage => NeedsPreparing(s) && s.stage.None?
    case MakeData(ino, _) => NeedsPreparing(s) && s.stage.Some? && s.stage.value.data.None? && (s.dest.Some? ==> s.dest.value.ino != ino)
    case MakeChunks => NeedsPreparing(s) && s.stage.Some? && s.stage.value.chunks.None?
    case SavePrepared => NeedsPreparing(s) && Staged(s) && Partial(s) == [] && Journal(s) == []
    case WriteData(at, _, _) => s.record.Some? && s.record.value.state == Running && Staged(s) && s.record.value.offset <= at <= |Partial(s)|
    case WriteJournal(slot, _) => s.record.Some? && s.record.value.state == Running && Staged(s) && Slots(s.record.value.offset) <= slot <= |Journal(s)|
    case CutData(_) => Verifies(s)
    case CutChunks => Verifies(s)
    case Accept(chunk) =>
      && s.record.Some? && Staged(s)
      && var r := s.record.value;
      && r.state == Running && r.offset % CHUNK == 0
      && 0 < |chunk| == Min(CHUNK, r.size - r.offset)
      && r.offset + |chunk| <= |Partial(s)|
      && Partial(s)[r.offset..r.offset + |chunk|] == chunk
      && r.offset / CHUNK < |Journal(s)|
      && Journal(s)[r.offset / CHUNK] == Sha256(chunk)
    case SaveResumed =>
      && Verifies(s) && SourceAgrees(s)
      && s.record.value.prepared && (s.record.value.state == Running || s.record.value.state == Interrupted)
    case SaveInterrupted =>
      s.record.Some? && s.record.value.state in {Preparing, Running, Interrupted}
    case CheckDestination => s.record.Some? && s.record.value.state == Running && DestinationIdentity(s) == s.record.value.expected
    case SaveCommitting =>
      && s.process == Checked && Verifies(s) && SourceAgrees(s)
      && s.record.value.state == Running
      && s.record.value.offset == s.record.value.size == |Partial(s)|
    case Publish(_, _) =>
      && s.process == Armed && s.record.Some? && s.stage.Some? && s.stage.value.data.Some?
      && s.record.value.expected.Some? == s.dest.Some?
    case SaveSucceeded =>
      && s.record.Some? && s.stage.Some? && s.record.value.state == Committing
      && s.record.value.committed.Some? && s.dest.Some?
      && Same(IdentityOf(s.dest.value), s.record.value.committed.value, true)
      && s.record.value.sha == Some(Sha256(s.dest.value.data))
      && (s.record.value.expected.Some? ==>
            && s.stage.value.data.Some?
            && Same(IdentityOf(s.stage.value.data.value), s.record.value.expected.value, true))
    case UnlinkDisplaced =>
      && s.record.Some? && s.record.value.cleanupPending && s.stage.Some? && s.stage.value.data.Some?
      && s.record.value.expected.Some?
      && Same(IdentityOf(s.stage.value.data.value), s.record.value.expected.value, true)
    case UnlinkPartial =>
      && s.record.Some? && s.record.value.state == Discarding
      && s.stage.Some? && s.stage.value.data.Some? && s.stage.value.data.value.regular
    case UnlinkChunks =>
      && s.record.Some? && s.stage.Some? && s.stage.value.data.None? && s.stage.value.chunks.Some?
      && (s.record.value.cleanupPending || s.record.value.state == Discarding)
    case RemoveStage =>
      && s.record.Some? && s.stage == Some(Stage(None, None))
      && (s.record.value.cleanupPending || s.record.value.state == Discarding)
    case SaveClean => s.record.Some? && s.record.value.cleanupPending && s.stage.None?
    case SaveDiscarding => s.record.Some? && s.record.value.state in {Preparing, Running, Interrupted, Discarding}
    case SaveCancelled => s.record.Some? && s.record.value.state == Discarding && s.stage.None?
    case UnlinkExport =>
      && s.record.Some? && s.record.value.state == Succeeded && s.record.value.download && !s.record.value.cleanupPending
      && s.record.value.committed.Some? && s.dest.Some?
      && Same(IdentityOf(s.dest.value), s.record.value.committed.value, true)
    case SaveExportCancelled =>
      && s.process == Removed && s.record.Some? && s.record.value.state == Succeeded
      && s.record.value.download && !s.record.value.cleanupPending
    case Outside(o) => o.Some? && s.stage.Some? && s.stage.value.data.Some? ==> o.value.ino != s.stage.value.data.value.ino
    case Halt => true
  }

  function WithRecord(s: State, r: Record): State { s.(record := Some(r)) }

  function WithData(s: State, data: Option<Object>): State
    requires s.stage.Some?
  {
    s.(stage := Some(s.stage.value.(data := data)))
  }

  function WithChunks(s: State, chunks: Option<seq<Digest>>): State
    requires s.stage.Some?
  {
    s.(stage := Some(s.stage.value.(chunks := chunks)))
  }

  function Revised(o: Object, data: Bytes, stamp: nat): Object { o.(data := data, stamp := stamp) }

  ghost function Apply(s: State, a: Action): State
    requires Enabled(s, a)
  {
    match a
    case Begin(size, source, download) => WithRecord(s, FreshRecord(size, DestinationIdentity(s), source, download))
    case MakeStage => s.(stage := Some(Stage(None, None)))
    case MakeData(ino, stamp) => WithData(s, Some(Object(ino, true, stamp, [])))
    case MakeChunks => WithChunks(s, Some([]))
    case SavePrepared =>
      var r := s.record.value;
      WithRecord(s, r.(state := Running, prepared := true, reserved := r.size + JournalBytes(r.size)))
    case WriteData(at, piece, stamp) =>
      var o := s.stage.value.data.value;
      WithData(s, Some(Revised(o, Overwrite(o.data, at, piece), stamp)))
    case WriteJournal(slot, digest) => WithChunks(s, Some(Put(Journal(s), slot, digest)))
    case CutData(stamp) =>
      var o := s.stage.value.data.value;
      var cut := o.data[..s.record.value.offset];
      WithData(s, Some(Revised(o, cut, stamp)))
        .(past := s.past.(trimmed := s.past.trimmed || (s.past.displaced.Some? && cut != o.data)))
    case CutChunks => WithChunks(s, Some(Journal(s)[..Slots(s.record.value.offset)]))
    case Accept(chunk) =>
      WithRecord(s, s.record.value.(offset := s.record.value.offset + |chunk|))
        .(past := s.past.(accepted := s.past.accepted + [chunk]))
    case SaveResumed =>
      WithRecord(s, s.record.value.(state := Running, prefix := Some(Sha256(Partial(s)[..s.record.value.offset]))))
    case SaveInterrupted => WithRecord(s, s.record.value.(state := Interrupted))
    case CheckDestination => s.(process := Checked)
    case SaveCommitting =>
      WithRecord(s, s.record.value.(state := Committing, sha := Some(Sha256(Partial(s))),
                                    committed := Some(IdentityOf(s.stage.value.data.value)))).(process := Armed)
    case Publish(stamp, displacedStamp) =>
      var o := s.stage.value.data.value;
      var moved := if s.dest.Some? then Some(s.dest.value.(stamp := displacedStamp)) else None;
      WithData(s, moved).(dest := Some(o.(stamp := stamp)), process := Idle,
                          past := s.past.(renames := s.past.renames + 1, displaced := moved))
    case SaveSucceeded =>
      WithRecord(s, s.record.value.(state := Succeeded, cleanupPending := true, published := Some(IdentityOf(s.dest.value))))
        .(past := s.past.(published := Some(s.dest.value.data)))
    case UnlinkDisplaced =>
      WithData(s, None).(past := s.past.(unlinked := s.past.unlinked + [s.stage.value.data.value]))
    case UnlinkPartial =>
      WithData(s, None).(past := s.past.(unlinked := s.past.unlinked + [s.stage.value.data.value]))
    case UnlinkChunks => WithChunks(s, None)
    case RemoveStage => s.(stage := None)
    case SaveClean => WithRecord(s, s.record.value.(cleanupPending := false))
    case SaveDiscarding => WithRecord(s, s.record.value.(state := Discarding))
    case SaveCancelled => WithRecord(s, s.record.value.(state := Cancelled))
    case UnlinkExport => s.(dest := None, process := Removed)
    case SaveExportCancelled => WithRecord(s, s.record.value.(state := Cancelled)).(process := Idle)
    case Outside(o) => s.(dest := o)
    case Halt => s.(process := Idle)
  }

  /** The state after an action that is allowed, if it is. */
  ghost function Next(s: State, a: Action): Option<State> {
    if Enabled(s, a) then Some(Apply(s, a)) else None
  }

  /** A legal log, and the state it leads to. */
  ghost predicate Legal(log: seq<Action>)
    decreases |log|, 0
  {
    log == [] || (Legal(log[..|log| - 1]) && Enabled(Run(log[..|log| - 1]), log[|log| - 1]))
  }

  ghost function Run(log: seq<Action>): State
    requires Legal(log)
    decreases |log|, 1
  {
    if log == [] then Empty else Apply(Run(log[..|log| - 1]), log[|log| - 1])
  }

  lemma RunSnoc(log: seq<Action>, a: Action)
    requires Legal(log) && Enabled(Run(log), a)
    ensures Legal(log + [a]) && Run(log + [a]) == Apply(Run(log), a)
  {
    assert (log + [a])[..|log|] == log;
  }

  // ---- the invariant ----

  /** The partial files belong to the transfer itself, not to a displaced object. */
  ghost predicate Own(s: State) {
    s.record.Some? && s.record.value.prepared && s.past.renames == 0
    && s.record.value.state in {Running, Interrupted, Committing}
  }

  ghost predicate RecordInv(r: Record, past: History) {
    && r.offset <= r.size
    && (r.offset % CHUNK == 0 || r.offset == r.size)
    && |Concat(past.accepted)| == r.offset && Uniform(past.accepted, r.offset)
    && (!r.prepared ==> r.offset == 0 && past.accepted == [] && r.state in {Preparing, Interrupted, Discarding, Cancelled})
    && (r.prepared ==> r.state != Preparing)
    && (r.cleanupPending ==> r.state == Succeeded)
    && (past.renames == 1 ==> r.offset == r.size)
    && (r.state in {Committing, Succeeded} ==>
          && r.offset == r.size
          && r.sha == Some(Sha256(Concat(past.accepted)))
          && r.committed.Some?
          && (r.source.Some? ==> SourceMatches(r.source.value, r.size, past.accepted)))
  }

  ghost predicate RenameInv(s: State) {
    && s.past.renames <= 1
    && (s.process == Armed ==> s.past.renames == 0 && s.record.Some? && s.record.value.state == Committing)
    && (s.process == Removed ==> s.record.Some? && s.record.value.state in {Succeeded, Cancelled})
    && (s.past.displaced.Some? ==> s.past.renames == 1)
    && (s.past.renames == 1 ==>
          && s.record.Some? && s.record.value.state in {Committing, Succeeded, Cancelled}
          && s.past.displaced.Some? == s.record.value.expected.Some?)
    && (s.record.Some? && s.record.value.state == Succeeded ==>
          s.past.renames == 1 && s.past.published == Some(Concat(s.past.accepted)))
  }

  /** A displaced object is held whole in the stage unless cleanup proved its inode is the expected one. */
  ghost predicate DisplacedInv(s: State) {
    && (s.past.renames == 1 && s.stage.Some? && s.stage.value.data.Some? ==>
          && s.past.displaced.Some?
          && s.stage.value.data.value.ino == s.past.displaced.value.ino
          && s.stage.value.data.value.regular == s.past.displaced.value.regular
          && (!s.past.trimmed ==> s.stage.value.data.value.data == s.past.displaced.value.data))
    && (s.past.renames == 1 && s.record.Some? && s.past.displaced.Some? && (s.stage.None? || s.stage.value.data.None?) ==>
          && s.record.value.state in {Succeeded, Cancelled}
          && s.record.value.expected.Some?
          && s.past.displaced.value.ino == s.record.value.expected.value.ino)
    && (s.past.renames == 1 && s.record.Some? ==>
          forall o :: o in s.past.unlinked ==>
            s.record.value.expected.Some? && o.ino == s.record.value.expected.value.ino)
  }

  /** The chunk journal keeps the digests of the accepted chunks until cleanup unlinks it. */
  ghost predicate JournalInv(s: State)
    requires s.past.renames == 1 ==> s.record.Some?
  {
    s.past.renames == 1 && s.stage.Some? && s.stage.value.chunks.Some? ==>
      && |s.past.accepted| == Slots(s.record.value.offset) <= |s.stage.value.chunks.value|
      && forall i :: 0 <= i < |s.past.accepted| ==> s.stage.value.chunks.value[i] == Sha256(s.past.accepted[i])
  }

  ghost predicate StageInv(s: State) {
    && (s.record.None? ==> s.stage.None? && s.process == Idle && s.past == Empty.past)
    && (s.dest.Some? && s.stage.Some? && s.stage.value.data.Some? ==> s.dest.value.ino != s.stage.value.data.value.ino)
    && (s.record.Some? && !s.record.value.prepared && s.stage.Some? ==>
          && (s.stage.value.data.Some? ==> s.stage.value.data.value.data == [] && s.stage.value.data.value.regular)
          && (s.stage.value.chunks.Some? ==> s.stage.value.chunks.value == []))
    && (Own(s) ==>
          && Staged(s) && s.stage.value.data.value.regular
          && Holds(Partial(s), Journal(s), s.record.value.offset, s.past.accepted))
    && (Own(s) && s.record.value.state == Committing ==>
          && s.record.value.committed.Some?
          && s.record.value.committed.value.ino == s.stage.value.data.value.ino)
    && (s.past.renames == 0 && s.record.Some? && s.record.value.state == Committing ==> s.record.value.prepared)
    && (s.past.renames == 0 && s.record.Some? && s.record.value.state !in {Discarding, Cancelled} ==> s.past.unlinked == [])
  }

  ghost predicate Inv(s: State) {
    && (s.record.Some? ==> RecordInv(s.record.value, s.past))
    && RenameInv(s) && DisplacedInv(s) && StageInv(s) && JournalInv(s)
  }

  // ---- every durable write keeps it ----

  /** In the transfer's own partial files the prefix always verifies, and it is the accepted bytes. */
  lemma OwnVerifies(s: State)
    requires Inv(s) && Own(s)
    ensures Verifies(s) && Partial(s)[..s.record.value.offset] == Concat(s.past.accepted)
    ensures SourceAgrees(s) <==>
      (s.record.value.offset == s.record.value.size && s.record.value.source.Some? ==>
         SourceMatches(s.record.value.source.value, s.record.value.size, s.past.accepted))
  {
    var r := s.record.value;
    HoldsVerifies(Partial(s), Journal(s), r.offset, s.past.accepted);
    assert Journal(s)[..Slots(r.offset)] == Digests(s.past.accepted);
  }

  /** A write, torn or whole, beyond the accepted prefix. */
  lemma InvKeptByWrite(s: State, a: Action)
    requires Inv(s) && Enabled(s, a) && (a.WriteData? || a.WriteJournal?)
    ensures Inv(Apply(s, a))
  {
    var r, s' := s.record.value, Apply(s, a);
    assert Own(s);
    HoldsFramed(Partial(s), Partial(s'), Journal(s), Journal(s'), r.offset, s.past.accepted);
  }

  /** Verification may cut whatever object sits in the stage, also a displaced one. */
  lemma InvKeptByCut(s: State, a: Action)
    requires Inv(s) && Enabled(s, a) && (a.CutData? || a.CutChunks?)
    ensures Inv(Apply(s, a))
  {
    var r, s' := s.record.value, Apply(s, a);
    if Own(s) {
      HoldsFramed(Partial(s), Partial(s'), Journal(s), Journal(s'), r.offset, s.past.accepted);
    }
  }

  lemma AcceptExtendsRecord(s: State, chunk: Bytes)
    requires Inv(s) && Enabled(s, Accept(chunk))
    ensures Own(s) && RecordInv(Apply(s, Accept(chunk)).record.value, Apply(s, Accept(chunk)).past)
  {
    ConcatSnoc(s.past.accepted, chunk);
    UniformExtended(s.past.accepted, s.record.value.offset, chunk);
  }

  lemma AcceptExtendsPrefix(s: State, chunk: Bytes)
    requires Inv(s) && Own(s) && Enabled(s, Accept(chunk))
    ensures var s' := Apply(s, Accept(chunk));
      Holds(Partial(s'), Journal(s'), s'.record.value.offset, s'.past.accepted)
  {
    var s' := Apply(s, Accept(chunk));
    assert Partial(s') == Partial(s) && Journal(s') == Journal(s);
    HoldsExtended(Partial(s), Journal(s), s.record.value.offset, s.past.accepted, chunk);
  }

  lemma InvKeptByAccept(s: State, chunk: Bytes)
    requires Inv(s) && Enabled(s, Accept(chunk))
    ensures Inv(Apply(s, Accept(chunk)))
  {
    AcceptExtendsRecord(s, chunk);
    AcceptExtendsPrefix(s, chunk);
  }

  lemma InvKeptByPreparing(s: State, a: Action)
    requires Inv(s) && Enabled(s, a)
    requires a.Begin? || a.MakeStage? || a.MakeData? || a.MakeChunks? || a.SavePrepared?
    ensures Inv(Apply(s, a))
  {
  }

  lemma InvKeptByCommit(s: State, a: Action)
    requires Inv(s) && Enabled(s, a)
    requires a.CheckDestination? || a.SaveCommitting? || a.Publish? || a.SaveSucceeded?
    ensures Inv(Apply(s, a))
  {
    if a.SaveCommitting? {
      OwnVerifies(s);
      assert Partial(s)[..s.record.value.offset] == Partial(s);
    }
  }

  lemma InvKeptByCleanup(s: State, a: Action)
    requires Inv(s) && Enabled(s, a)
    requires a.UnlinkDisplaced? || a.UnlinkChunks? || a.RemoveStage? || a.SaveClean?
    ensures Inv(Apply(s, a))
  {
  }

  lemma InvKeptByDiscard(s: State, a: Action)
    requires Inv(s) && Enabled(s, a)
    requires a.SaveDiscarding? || a.UnlinkPartial? || a.SaveCancelled? || a.UnlinkExport? || a.SaveExportCancelled?
    ensures Inv(Apply(s, a))
  {
  }

  lemma InvKeptByOthers(s: State, a: Action)
    requires Inv(s) && Enabled(s, a)
    requires a.SaveResumed? || a.SaveInterrupted? || a.Outside? || a.Halt?
    ensures Inv(Apply(s, a))
  {
  }

  lemma InvKept(s: State, a: Action)
    requires Inv(s) && Enabled(s, a)
    ensures Inv(Apply(s, a))
  {
    if a.WriteData? || a.WriteJournal? { InvKeptByWrite(s, a); }
    else if a.CutData? || a.CutChunks? { InvKeptByCut(s, a); }
    else if a.Accept? { InvKeptByAccept(s, a.chunk); }
    else if a.Begin? || a.MakeStage? || a.MakeData? || a.MakeChunks? || a.SavePrepared? { InvKeptByPreparing(s, a); }
    else if a.CheckDestination? || a.SaveCommitting? || a.Publish? || a.SaveSucceeded? { InvKeptByCommit(s, a); }
    else if a.UnlinkDisplaced? || a.UnlinkChunks? || a.RemoveStage? || a.SaveClean? { InvKeptByCleanup(s, a); }
    else if a.SaveDiscarding? || a.UnlinkPartial? || a.SaveCancelled? || a.UnlinkExport? || a.SaveExportCancelled? { InvKeptByDiscard(s, a); }
    else { InvKeptByOthers(s, a); }
  }

  lemma {:induction false} RunKeepsInv(log: seq<Action>)
    requires Legal(log)
    ensures Inv(Run(log))
  {
    if log != [] {
      RunKeepsInv(log[..|log| - 1]);
      InvKept(Run(log[..|log| - 1]), log[|log| - 1]);
    }
  }

  // ---- runs as the helper's methods see them ----

  /** State s is where the legal log leads. The quantifier keeps the recursive definitions out of every
      proof that does not mention Show. */
  ghost predicate IsRun(log: seq<Action>, s: State) {
    forall k {:trigger Show(k)} :: Show(k) ==> Legal(log) && Run(log) == s
  }

  lemma RunStarts()
    ensures IsRun([], Empty)
  {
  }

  lemma RunStep(log: seq<Action>, s: State, a: Action)
    requires IsRun(log, s) && Next(s, a).Some?
    ensures IsRun(log + [a], Next(s, a).value)
  {
    assert Show(0);
    RunSnoc(log, a);
  }

  lemma RunInv(log: seq<Action>, s: State)
    requires IsRun(log, s)
    ensures Inv(s)
  {
    assert Show(0);
    RunKeepsInv(log);
  }

  /** Until a transfer is prepared its partial files are empty regular files. */
  lemma UnpreparedIsEmpty(log: seq<Action>, s: State)
    requires IsRun(log, s) && NeedsPreparing(s) && s.stage.Some?
    ensures s.stage.value.data.Some? ==> s.stage.value.data.value.data == [] && s.stage.value.data.value.regular
    ensures s.stage.value.chunks.Some? ==> s.stage.value.chunks.value == []
  {
    RunInv(log, s);
  }

  /** A running transfer holds its accepted prefix, and a re-sent chunk can be compared with what was accepted. */
  lemma RunningHolds(log: seq<Action>, s: State)
    requires IsRun(log, s) && s.record.Some? && s.record.value.state == Running
    ensures s.record.value.prepared && Staged(s) && Verifies(s)
    ensures Holds(Partial(s), Journal(s), s.record.value.offset, s.past.accepted)
    ensures s.record.value.offset <= s.record.value.size
    ensures s.record.value.offset % CHUNK == 0 || s.record.value.offset == s.record.value.size
  {
    RunInv(log, s);
    OwnVerifies(s);
  }

  /** While the partial files are the transfer's own, their prefix verifies. */
  lemma OwnNeverRefused(log: seq<Action>, s: State)
    requires IsRun(log, s) && Own(s)
    ensures Verifies(s) && (FromSource(s.record.value, s.past.accepted) ==> SourceAgrees(s))
  {
    RunInv(log, s);
    OwnVerifies(s);
  }

  lemma CutVerifies(s: State, s': State)
    requires Verifies(s) && Staged(s') && s'.record == s.record
    requires s.record.value.offset <= |Partial(s')| && Partial(s')[..s.record.value.offset] == Partial(s)[..s.record.value.offset]
    requires Slots(s.record.value.offset) <= |Journal(s')|
    requires Journal(s')[..Slots(s.record.value.offset)] == Journal(s)[..Slots(s.record.value.offset)]
    ensures Verifies(s') && (SourceAgrees(s') <==> SourceAgrees(s))
  {
    var offset := s.record.value.offset;
    var chunks := seq(Slots(offset), i requires 0 <= i < Slots(offset) => Slice(Partial(s), i, offset));
    HoldsFramed(Partial(s), Partial(s'), Journal(s), Journal(s'), offset, chunks);
    HoldsVerifies(Partial(s'), Journal(s'), offset, chunks);
  }

  /** A reachable transfer marked succeeded published the accepted bytes. */
  lemma SucceededPublished(log: seq<Action>, s: State)
    requires IsRun(log, s) && s.record.Some? && s.record.value.state == Succeeded
    ensures s.past.published == Some(Concat(s.past.accepted)) && s.past.renames == 1
  {
    RunInv(log, s);
  }

  /** A reachable committing record names the digest and inode it was armed with; offsets never pass sizes. */
  lemma CommittingFacts(log: seq<Action>, s: State)
    requires IsRun(log, s) && s.record.Some?
    ensures s.record.value.offset <= s.record.value.size
    ensures s.record.value.state in {Committing, Succeeded} ==>
      s.record.value.sha == Some(Sha256(Concat(s.past.accepted))) && s.record.value.committed.Some?
    ensures s.record.value.state in {Committing, Succeeded} ==> s.record.value.offset == s.record.value.size
    ensures s.record.value.cleanupPending ==> s.record.value.state == Succeeded
  {
    RunInv(log, s);
  }

  /** Nothing is renamed before the last byte was accepted. */
  lemma RenamedIsComplete(log: seq<Action>, s: State)
    requires IsRun(log, s) && s.record.Some? && s.past.displaced.Some?
    ensures s.record.value.offset == s.record.value.size
  {
    RunInv(log, s);
  }

  /** The accepted bytes are those of the source named at admission, if one was. */
  ghost predicate FromSource(r: Record, accepted: seq<Bytes>) {
    r.source.Some? ==> SourceMatches(r.source.value, r.size, accepted)
  }

  lemma RunningPrefix(log: seq<Action>, s: State)
    requires IsRun(log, s) && s.record.Some? && s.record.value.state == Running
    ensures Verifies(s) && Partial(s)[..s.record.value.offset] == Concat(s.past.accepted)
    ensures s.past.displaced.None? && s.past.renames == 0
    ensures s.record.value.offset == s.record.value.size ==> (SourceAgrees(s) <==> FromSource(s.record.value, s.past.accepted))
  {
    RunInv(log, s);
    OwnVerifies(s);
  }

  /** Which states preparation reaches, and that a resumable transfer holds its own files. */
  lemma UnpreparedStates(log: seq<Action>, s: State)
    requires IsRun(log, s) && s.record.Some?
    ensures NeedsPreparing(s) ==> s.record.value.state in {Preparing, Interrupted}
    ensures s.record.value.state == Preparing ==> NeedsPreparing(s)
    ensures s.record.value.prepared && s.record.value.state in {Running, Interrupted} ==> Own(s)
    ensures s.record.value.state == Running ==> s.record.value.prepared
  {
    RunInv(log, s);
  }
}
