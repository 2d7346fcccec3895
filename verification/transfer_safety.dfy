/** What holds over every run of a transfer: retries, crashes at any write, and an outside writer. */
module TransferSafety {
  import opened Base
  import opened TransferChunks
  import opened TransferModel

  /** The chunks a log accepted, read off the log itself. */
  function AcceptedIn(log: seq<Action>): seq<Bytes> {
    if log == [] then []
    else AcceptedIn(log[..|log| - 1]) + (if log[|log| - 1].Accept? then [log[|log| - 1].chunk] else [])
  }

  function PublishesIn(log: seq<Action>): nat {
    if log == [] then 0 else PublishesIn(log[..|log| - 1]) + (if log[|log| - 1].Publish? then 1 else 0)
  }

  lemma HistoryStep(s: State, a: Action)
    requires Enabled(s, a)
    ensures Apply(s, a).past.accepted == s.past.accepted + (if a.Accept? then [a.chunk] else [])
    ensures Apply(s, a).past.renames == s.past.renames + (if a.Publish? then 1 else 0)
  {
  }

  /** The history a state carries is what its log did. */
  lemma {:induction false} HistoryIsTheLog(log: seq<Action>)
    requires Legal(log)
    ensures Run(log).past.accepted == AcceptedIn(log)
    ensures Run(log).past.renames == PublishesIn(log)
  {
    if log != [] {
      HistoryIsTheLog(log[..|log| - 1]);
      HistoryStep(Run(log[..|log| - 1]), log[|log| - 1]);
    }
  }

  /** In every reachable state in which the partial files are the transfer's own, the first `offset` bytes are
      the accepted chunks joined, journal slot i is the digest of chunk i, every chunk but the last is full,
      and verification of the prefix cannot fail. */
  lemma AcceptedPrefix(log: seq<Action>)
    requires Legal(log) && Own(Run(log))
    ensures var s := Run(log); var r := s.record.value;
      && Staged(s) && Verifies(s)
      && Partial(s)[..r.offset] == Concat(AcceptedIn(log))
      && |AcceptedIn(log)| == Slots(r.offset) <= |Journal(s)|
      && (forall i :: 0 <= i < |AcceptedIn(log)| ==>
            && Journal(s)[i] == Sha256(AcceptedIn(log)[i])
            && |AcceptedIn(log)[i]| == Min(CHUNK, r.offset - i * CHUNK))
      && (r.offset % CHUNK == 0 || r.offset == r.size)
  {
    RunKeepsInv(log);
    HistoryIsTheLog(log);
    OwnVerifies(Run(log));
  }

  /** The publishing rename runs at most once in any run. */
  lemma PublishedAtMostOnce(log: seq<Action>)
    requires Legal(log)
    ensures PublishesIn(log) <= 1
  {
    RunKeepsInv(log);
    HistoryIsTheLog(log);
  }

  /** Committing, with no process holding the permission to rename. */
  ghost predicate FoundCommitting(s: State) {
    s.process != Armed && s.record.Some? && s.record.value.state in {Committing, Succeeded, Cancelled}
  }

  lemma FoundCommittingStep(s: State, a: Action)
    requires Inv(s) && FoundCommitting(s) && Enabled(s, a)
    ensures FoundCommitting(Apply(s, a)) && !a.Publish?
  {
  }

  /** A process that finds the record committing never renames, whatever is retried afterwards. */
  lemma {:induction false} FoundCommittingNeverRenames(log: seq<Action>, k: nat)
    requires k <= |log| && Legal(log) && Legal(log[..k]) && FoundCommitting(Run(log[..k]))
    ensures PublishesIn(log) == PublishesIn(log[..k]) && FoundCommitting(Run(log))
    decreases |log| - k
  {
    if k == |log| {
      assert log[..k] == log;
    } else {
      var front := log[..|log| - 1];
      assert front[..k] == log[..k];
      FoundCommittingNeverRenames(front, k);
      RunKeepsInv(front);
      FoundCommittingStep(Run(front), log[|log| - 1]);
    }
  }

  /** A transfer that reaches `succeeded` published exactly the accepted bytes, all `size` of them,
      and under either manifest form those bytes are the source the uploader digested. */
  lemma SucceededPublishedTheSource(log: seq<Action>)
    requires Legal(log) && Run(log).record.Some? && Run(log).record.value.state == Succeeded
    ensures var s := Run(log); var r := s.record.value;
      && PublishesIn(log) == 1
      && s.past.published == Some(Concat(AcceptedIn(log)))
      && |s.past.published.value| == r.size
      && r.sha == Some(Sha256(s.past.published.value))
      && (forall algorithm, source :: r.source == Some(ManifestOf(algorithm, source)) ==> s.past.published.value == source)
  {
    RunKeepsInv(log);
    HistoryIsTheLog(log);
    var r := Run(log).record.value;
    forall algorithm, source | r.source == Some(ManifestOf(algorithm, source))
      ensures Run(log).past.published.value == source
    {
      ManifestIdentifiesSource(algorithm, source, r.size, AcceptedIn(log));
    }
  }

  /** The displaced object is either still in the stage, or cleanup removed it after the transfer succeeded
      and its inode is the expected one. Nothing else in the stage is unlinked after a rename. */
  lemma DisplacedObjectIsKept(log: seq<Action>)
    requires Legal(log) && Run(log).past.displaced.Some?
    ensures var s := Run(log); var d := s.past.displaced.value;
      && s.record.Some? && s.record.value.expected.Some?
      && (if s.stage.Some? && s.stage.value.data.Some?
          then s.stage.value.data.value.ino == d.ino && (!s.past.trimmed ==> s.stage.value.data.value.data == d.data)
          else s.record.value.state in {Succeeded, Cancelled} && d.ino == s.record.value.expected.value.ino)
      && (forall o :: o in s.past.unlinked ==> o.ino == s.record.value.expected.value.ino)
  {
    RunKeepsInv(log);
  }

  /** The one way a displaced object loses bytes is a verification request that reaches the stage after the rename.
      It cuts the object exactly when the object is longer than the transfer and begins with the accepted bytes: that
      is, when the staged file is longer than the record's size and that much of it agrees with the chunk journal. */
  lemma VerificationCutsDisplaced(s: State, stamp: nat)
    requires Inv(s) && s.past.displaced.Some? && !s.past.trimmed && Staged(s)
    ensures s.record.Some?
    ensures (Enabled(s, CutData(stamp)) && Apply(s, CutData(stamp)).past.trimmed)
      <==> (|Partial(s)| > s.record.value.size && Partial(s)[..s.record.value.size] == Concat(s.past.accepted))
    ensures (Enabled(s, CutData(stamp)) && Apply(s, CutData(stamp)).past.trimmed)
      <==> (|Partial(s)| > s.record.value.size && PrefixVerifies(Partial(s), Journal(s), s.record.value.size))
  {
    var r, data := s.record.value, Partial(s);
    if |data| > r.size && data[..r.size] == Concat(s.past.accepted) {
      SameBytesVerify(data, Journal(s), r.size, s.past.accepted);
    }
    if Verifies(s) {
      VerifiesSameBytes(data, Journal(s), r.size, s.past.accepted);
    }
  }

  lemma Extend(log: seq<Action>, s: State, a: Action, s': State) returns (log': seq<Action>)
    requires Legal(log) && Run(log) == s && Enabled(s, a) && Apply(s, a) == s'
    ensures Legal(log') && Run(log') == s' && log' == log + [a]
  {
    log' := log + [a];
    RunSnoc(log, a);
  }

  // ---- a concrete run in which verification empties the replaced file ----

  const Replaced := Object(7, true, 1, [65])
  const Sent := Object(8, true, 2, [])
  const R0 := FreshRecord(0, Some(IdentityOf(Replaced)), None, false)
  const R1 := R0.(state := Running, prepared := true)
  const R2 := R1.(state := Committing, sha := Some(Sha256([])), committed := Some(IdentityOf(Sent)))
  const Full := Stage(Some(Sent), Some([]))
  const Swapped := Stage(Some(Replaced.(stamp := 4)), Some([]))
  const Emptied := Stage(Some(Object(7, true, 5, [])), Some([]))
  const H := Empty.past
  const H1 := H.(renames := 1, displaced := Some(Replaced.(stamp := 4)))

  lemma ExampleAdmitted() returns (log: seq<Action>)
    ensures Legal(log) && Run(log) == State(Some(R0), Some(Stage(None, None)), Some(Replaced), Idle, H)
  {
    log := Extend([], Empty, Outside(Some(Replaced)), Empty.(dest := Some(Replaced)));
    log := Extend(log, State(None, None, Some(Replaced), Idle, H), Begin(0, None, false), State(Some(R0), None, Some(Replaced), Idle, H));
    log := Extend(log, State(Some(R0), None, Some(Replaced), Idle, H), MakeStage,
                  State(Some(R0), Some(Stage(None, None)), Some(Replaced), Idle, H));
  }

  lemma ExampleRunning() returns (log: seq<Action>)
    ensures Legal(log) && Run(log) == State(Some(R1), Some(Full), Some(Replaced), Idle, H)
  {
    log := ExampleAdmitted();
    log := Extend(log, State(Some(R0), Some(Stage(None, None)), Some(Replaced), Idle, H), MakeData(8, 2),
                  State(Some(R0), Some(Stage(Some(Sent), None)), Some(Replaced), Idle, H));
    log := Extend(log, State(Some(R0), Some(Stage(Some(Sent), None)), Some(Replaced), Idle, H), MakeChunks,
                  State(Some(R0), Some(Full), Some(Replaced), Idle, H));
    log := Extend(log, State(Some(R0), Some(Full), Some(Replaced), Idle, H), SavePrepared,
                  State(Some(R1), Some(Full), Some(Replaced), Idle, H));
  }

  lemma ExampleArmed() returns (log: seq<Action>)
    ensures Legal(log) && Run(log) == State(Some(R2), Some(Full), Some(Replaced), Armed, H)
  {
    log := ExampleRunning();
    log := Extend(log, State(Some(R1), Some(Full), Some(Replaced), Idle, H), CheckDestination,
                  State(Some(R1), Some(Full), Some(Replaced), Checked, H));
    log := Extend(log, State(Some(R1), Some(Full), Some(Replaced), Checked, H), SaveCommitting,
                  State(Some(R2), Some(Full), Some(Replaced), Armed, H));
  }

  lemma ExampleRenamed() returns (log: seq<Action>)
    ensures Legal(log) && Run(log) == State(Some(R2), Some(Swapped), Some(Sent.(stamp := 3)), Idle, H1)
  {
    log := ExampleArmed();
    log := Extend(log, State(Some(R2), Some(Full), Some(Replaced), Armed, H), Publish(3, 4),
                  State(Some(R2), Some(Swapped), Some(Sent.(stamp := 3)), Idle, H1));
  }

  /** An empty upload over a one-byte file, stopped after the rename and then asked to verify:
      the replaced file in the stage is emptied although no cleanup ran. */
  lemma VerificationCanEmptyTheReplacedFile() returns (log: seq<Action>)
    ensures Legal(log)
    ensures var s := Run(log);
      && s.past.displaced.Some? && s.past.displaced.value.data == [65]
      && s.stage.Some? && s.stage.value.data == Some(Object(7, true, 5, []))
      && s.record.Some? && s.record.value.state == Committing && s.past.unlinked == []
  {
    log := ExampleRenamed();
    log := Extend(log, State(Some(R2), Some(Swapped), Some(Sent.(stamp := 3)), Idle, H1), CutData(5),
                  State(Some(R2), Some(Emptied), Some(Sent.(stamp := 3)), Idle, H1.(trimmed := true)));
  }
}
