/** Retiring one controller epoch: its closed records move, group by group, from the live namespaces into an
    archive folder, and only then does the job namespace change owner. The helper may stop at any durable write. */
module ArchiveModel {
  import opened Base

  type Group = nat  // one job directory, or one transfer or terminal receipt

  /** The files of a group, and their recorded hashes. */
  type Content = map<nat, Bytes>
  type Hashes = map<nat, Digest>

  datatype Phase = Moving | Published | Complete

  datatype Request = Request(controller: nat, next: nat)

  datatype Intent = Intent(phase: Phase, request: Request, members: map<Group, Hashes>)

  datatype Manifest = Manifest(request: Request, members: map<Group, Hashes>)

  datatype Change = Written | Removed

  /** `first` and `others` are history: the live records when the intent was written, and what others last did to a
      group since then, or since it was archived. */
  datatype State = State(
    source: map<Group, Content>, archive: map<Group, Content>, folder: bool,
    intent: Option<Intent>, manifest: Option<Manifest>, owner: Option<nat>,
    running: bool, first: map<Group, Content>, others: map<Group, Change>)

  datatype Action =
    // other work of the account, while no archival holds the locks
    | Put(group: Group, content: Content)
    | Forget(group: Group)
    | Claim(other: nat)
    // the archival
    | MakeFolder
    | SaveIntent(request: Request)
    | Resume(request: Request)
    | Move(group: Group)
    | SaveManifest
    | SavePublished
    | SaveOwner
    | SaveComplete
    | Stop

  function Fingerprints(c: Content): Hashes {
    map name | name in c :: Sha256(c[name])
  }

  /** The record of a namespace: each group with the hashes of its files. */
  function Scan(source: map<Group, Content>): map<Group, Hashes> {
    map g | g in source :: Fingerprints(source[g])
  }

  lemma FingerprintsIdentify(one: Content, other: Content)
    requires Fingerprints(one) == Fingerprints(other)
    ensures one == other
  {
    assert one.Keys == Fingerprints(one).Keys && other.Keys == Fingerprints(other).Keys;
    forall name | name in one ensures one[name] == other[name] {
      assert Fingerprints(one)[name] == Fingerprints(other)[name];
    }
  }

  /** Everything still live was recorded, unchanged. */
  predicate Agrees(source: map<Group, Content>, members: map<Group, Hashes>) {
    forall g :: g in source ==> g in members && members[g] == Fingerprints(source[g])
  }

  predicate AllArchived(members: map<Group, Hashes>, archive: map<Group, Content>) {
    archive.Keys == members.Keys && forall g :: g in members ==> members[g] == Fingerprints(archive[g])
  }

  predicate Active(s: State) { s.running && s.intent.Some? }

  /** The namespace is free, still the old controller's, or already granted to the next one. */
  predicate OwnerFits(s: State)
    requires s.intent.Some?
  {
    s.owner in {None, Some(s.intent.value.request.controller), Some(s.intent.value.request.next)}
  }

  /** A recorded group that is missing or duplicated. */
  predicate Misplaced(s: State, g: Group)
    requires s.intent.Some?
  {
    g in s.intent.value.members && ((g in s.source) == (g in s.archive))
  }

  predicate InOnePlace(s: State)
    requires s.intent.Some?
  {
    forall g :: g in s.intent.value.members ==> !Misplaced(s, g)
  }

  predicate AllMoved(s: State)
    requires s.intent.Some?
  {
    forall g :: g in s.intent.value.members ==> g in s.archive && g !in s.source
  }

  predicate ByArchival(a: Action) { !a.Put? && !a.Forget? && !a.Claim? }

  /** Others may write, write again or remove any live group, and may claim or hand on the job namespace. The next
      controller's identity is fresh: only this archival grants it anything. */
  ghost predicate Enabled(s: State, a: Action) {
    match a
    case Put(_, _) => !s.running
    case Forget(g) => !s.running && g in s.source
    case Claim(other) => !s.running && (s.intent.Some? ==> other != s.intent.value.request.next)
    case MakeFolder => !s.folder
    case SaveIntent(q) =>
      && s.folder && s.intent.None? && !s.running && q.next != q.controller
      && s.owner in {None, Some(q.controller)}
    case Resume(q) =>
      && s.intent.Some? && s.intent.value.request == q && s.intent.value.phase != Complete && !s.running
      && OwnerFits(s) && Agrees(s.source, s.intent.value.members)
    case Move(g) =>
      && Active(s) && g in s.intent.value.members && g in s.source && g !in s.archive
      && s.intent.value.members[g] == Fingerprints(s.source[g])
    case SaveManifest => Active(s) && s.manifest.None? && AllMoved(s)
    case SavePublished =>
      && Active(s) && s.manifest == Some(Manifest(s.intent.value.request, s.intent.value.members)) && AllMoved(s)
      && AllArchived(s.intent.value.members, s.archive) && s.intent.value.phase in {Moving, Published}
    case SaveOwner => Active(s) && s.intent.value.phase == Published && s.manifest.Some? && AllMoved(s)
    case SaveComplete =>
      Active(s) && s.intent.value.phase == Published && s.owner == Some(s.intent.value.request.next) && AllMoved(s)
    case Stop => true
  }

  ghost function Apply(s: State, a: Action): State
    requires Enabled(s, a)
  {
    match a
    case Put(g, content) => s.(source := s.source[g := content], others := s.others[g := Written])
    case Forget(g) => s.(source := s.source - {g}, others := s.others[g := Removed])
    case Claim(other) => s.(owner := Some(other))
    case MakeFolder => s.(folder := true)
    case SaveIntent(q) =>
      s.(intent := Some(Intent(Moving, q, Scan(s.source))), running := true, first := s.source, others := map[])
    case Resume(_) => s.(running := true)
    case Move(g) => s.(archive := s.archive[g := s.source[g]], source := s.source - {g}, others := s.others - {g})
    case SaveManifest => s.(manifest := Some(Manifest(s.intent.value.request, s.intent.value.members)))
    case SavePublished => s.(intent := Some(s.intent.value.(phase := Published)))
    case SaveOwner => s.(owner := Some(s.intent.value.request.next))
    case SaveComplete => s.(intent := Some(s.intent.value.(phase := Complete)), running := false)
    case Stop => s.(running := false)
  }

  ghost function Next(s: State, a: Action): Option<State> {
    if Enabled(s, a) then Some(Apply(s, a)) else None
  }

  function Initial(source: map<Group, Content>, owner: Option<nat>): State {
    State(source, map[], false, None, None, owner, false, map[], map[])
  }

  // ---- the invariant ----

  predicate Last(others: map<Group, Change>, g: Group, change: Change) { g in others && others[g] == change }

  /** Where a recorded group is: archived as it was recorded, and live as well only if others wrote it again; or not
      archived, and live unless others removed it, with its recorded bytes unless others wrote it. */
  ghost predicate Placed(s: State, g: Group)
    requires g in s.first
  {
    if g in s.archive then s.archive[g] == s.first[g] && (g in s.source <==> Last(s.others, g, Written))
    else (g !in s.source <==> Last(s.others, g, Removed)) && (g !in s.others ==> g in s.source && s.source[g] == s.first[g])
  }

  ghost predicate Inv(s: State) {
    && (s.running ==> s.intent.Some?)
    && match s.intent
       case None => s.archive == map[] && s.manifest == None && !s.running
       case Some(intent) =>
         && s.folder && intent.members == Scan(s.first) && s.archive.Keys <= s.first.Keys && intent.request.next != intent.request.controller
         && (forall g :: g in s.first ==> Placed(s, g))
         && (s.manifest.Some? ==> s.manifest.value == Manifest(intent.request, intent.members) && s.archive == s.first)
         && (intent.phase != Moving ==> s.manifest.Some?)
         && (intent.phase == Complete ==> !s.running)
         && (s.running ==> Agrees(s.source, intent.members) && OwnerFits(s))
         && (s.owner == Some(intent.request.next) ==> intent.phase != Moving)
  }

  lemma InvKeptByOthers(s: State, a: Action)
    requires Inv(s) && Enabled(s, a) && !ByArchival(a)
    ensures Inv(Apply(s, a))
  {
    forall g | s.intent.Some? && g in s.first ensures Placed(Apply(s, a), g) {
      assert Placed(s, g);
    }
  }

  lemma InvKeptByMove(s: State, g: Group)
    requires Inv(s) && Enabled(s, Move(g))
    ensures Inv(Apply(s, Move(g)))
  {
    assert g in Scan(s.first);
    FingerprintsIdentify(s.source[g], s.first[g]);
    forall k | k in s.first ensures Placed(Apply(s, Move(g)), k) {
      assert Placed(s, k);
    }
  }

  lemma InvKeptByIntent(s: State, a: Action)
    requires Inv(s) && Enabled(s, a) && (a.SaveIntent? || a.MakeFolder? || a.Resume? || a.Stop?)
    ensures Inv(Apply(s, a))
  {
    forall g | Apply(s, a).intent.Some? && g in Apply(s, a).first ensures Placed(Apply(s, a), g) {
      assert s.intent.Some? ==> Placed(s, g);
    }
  }

  lemma InvKeptByPublishing(s: State, a: Action)
    requires Inv(s) && Enabled(s, a) && (a.SaveManifest? || a.SavePublished? || a.SaveOwner? || a.SaveComplete?)
    ensures Inv(Apply(s, a))
  {
    forall g | g in s.first ensures Placed(Apply(s, a), g) && g in s.archive && s.archive[g] == s.first[g] {
      assert g in Scan(s.first) && Placed(s, g);
    }
    assert s.archive == s.first;
  }

  lemma InvKept(s: State, a: Action)
    requires Inv(s) && Next(s, a).Some?
    ensures Inv(Next(s, a).value)
  {
    if !ByArchival(a) { InvKeptByOthers(s, a); }
    else if a.Move? { InvKeptByMove(s, a.group); }
    else if a.SaveIntent? || a.MakeFolder? || a.Resume? || a.Stop? { InvKeptByIntent(s, a); }
    else { InvKeptByPublishing(s, a); }
  }

  /** What no step changes, or only some steps do. */
  lemma StepFacts(s: State, a: Action)
    requires Next(s, a).Some?
    ensures var t := Next(s, a).value; s.intent.Some? ==>
      t.intent.Some? && t.intent.value.members == s.intent.value.members && t.intent.value.request == s.intent.value.request
    ensures var t := Next(s, a).value; !a.SaveIntent? ==> t.intent.Some? == s.intent.Some?
    ensures var t := Next(s, a).value; !a.Claim? && !a.SaveOwner? ==> t.owner == s.owner
    ensures a.SaveOwner? ==> s.intent.Some? && Next(s, a).value.owner == Some(s.intent.value.request.next)
    ensures a.SaveComplete? ==> s.intent.Some? && s.owner == Some(s.intent.value.request.next)
    ensures a.SaveIntent? ==> s.intent.None? && Next(s, a).value.intent.value.phase == Moving
    ensures a.SaveIntent? ==> s.owner != Some(Next(s, a).value.intent.value.request.next)
    ensures a.Claim? && s.intent.Some? ==> Next(s, a).value.owner != Some(s.intent.value.request.next)
    ensures s.intent.Some? && Next(s, a).value.intent.value.phase == Complete ==> s.intent.value.phase == Complete || a.SaveComplete?
  {
  }

  // ---- runs ----

  datatype Start = Start(source: map<Group, Content>, owner: Option<nat>)

  ghost predicate Legal(b: Start, log: seq<Action>)
    decreases |log|, 0
  {
    log == [] || (Legal(b, log[..|log| - 1]) && Next(Run(b, log[..|log| - 1]), log[|log| - 1]).Some?)
  }

  ghost function Run(b: Start, log: seq<Action>): State
    requires Legal(b, log)
    decreases |log|, 1
  {
    if log == [] then Initial(b.source, b.owner) else Next(Run(b, log[..|log| - 1]), log[|log| - 1]).value
  }

  lemma {:induction false} RunKeepsInv(b: Start, log: seq<Action>)
    requires Legal(b, log)
    ensures Inv(Run(b, log))
  {
    if log != [] {
      RunKeepsInv(b, log[..|log| - 1]);
      InvKept(Run(b, log[..|log| - 1]), log[|log| - 1]);
    }
  }

  function OthersAfter(before: map<Group, Change>, a: Action): map<Group, Change> {
    match a
    case Put(g, _) => before[g := Written]
    case Forget(g) => before[g := Removed]
    case SaveIntent(_) => map[]
    case Move(g) => before - {g}
    case _ => before
  }

  /** What others last did to each group since it was recorded or archived. */
  function ByOthers(log: seq<Action>): map<Group, Change> {
    if log == [] then map[] else OthersAfter(ByOthers(log[..|log| - 1]), log[|log| - 1])
  }

  lemma OthersStep(s: State, a: Action)
    requires Next(s, a).Some?
    ensures Next(s, a).value.others == OthersAfter(s.others, a)
  {
  }

  lemma {:induction false} OthersIsTheLog(b: Start, log: seq<Action>)
    requires Legal(b, log)
    ensures Run(b, log).others == ByOthers(log)
  {
    if log != [] {
      OthersIsTheLog(b, log[..|log| - 1]);
      OthersStep(Run(b, log[..|log| - 1]), log[|log| - 1]);
    }
  }

  /** At every moment of every run, each recorded group that others left alone is in exactly one of live namespace and
      archive, whole and with its recorded hashes. What is archived always has them. A recorded group is in neither
      place exactly when others removed it before it was moved, and in both exactly when they created it again after. */
  lemma RecordedGroupsAreNeverLost(b: Start, log: seq<Action>, g: Group)
    requires Legal(b, log) && Run(b, log).intent.Some? && g in Run(b, log).intent.value.members
    ensures var s := Run(b, log); g in s.archive ==> s.intent.value.members[g] == Fingerprints(s.archive[g])
    ensures var s := Run(b, log); g !in ByOthers(log) ==> (g in s.source) != (g in s.archive)
    ensures var s := Run(b, log); g !in ByOthers(log) && g in s.source ==> s.intent.value.members[g] == Fingerprints(s.source[g])
    ensures var s := Run(b, log); g !in s.source && g !in s.archive <==> g !in s.archive && Last(ByOthers(log), g, Removed)
    ensures var s := Run(b, log); g in s.source && g in s.archive <==> g in s.archive && Last(ByOthers(log), g, Written)
  {
    RunKeepsInv(b, log);
    OthersIsTheLog(b, log);
    assert Placed(Run(b, log), g);
  }

  /** The job namespace changes owner only when every recorded group is archived and verified, with its manifest. */
  lemma OwnerMovesLast(b: Start, log: seq<Action>)
    requires Legal(b, log) && Run(b, log).intent.Some?
    requires Run(b, log).owner == Some(Run(b, log).intent.value.request.next)
    ensures var s := Run(b, log);
      && AllArchived(s.intent.value.members, s.archive) && s.archive == s.first
      && s.manifest == Some(Manifest(s.intent.value.request, s.intent.value.members))
  {
    RunKeepsInv(b, log);
  }

  datatype Writer = Nobody | Others | Archival

  /** Who last wrote the owner of the job namespace. */
  function OwnerWriter(log: seq<Action>): Writer {
    if log == [] then Nobody
    else if log[|log| - 1].Claim? then Others
    else if log[|log| - 1].SaveOwner? then Archival
    else OwnerWriter(log[..|log| - 1])
  }

  lemma {:induction false} OwnerIsTheLog(b: Start, log: seq<Action>)
    requires Legal(b, log) && Run(b, log).intent.Some?
    ensures var s := Run(b, log); s.owner == Some(s.intent.value.request.next) <==> OwnerWriter(log) == Archival
    ensures Run(b, log).intent.value.phase == Complete ==> OwnerWriter(log) != Nobody
  {
    var front, a := log[..|log| - 1], log[|log| - 1];
    StepFacts(Run(b, front), a);
    if a.SaveIntent? {
      NoOwnerWritten(b, front);
    } else {
      OwnerIsTheLog(b, front);
    }
  }

  lemma {:induction false} NoOwnerWritten(b: Start, log: seq<Action>)
    requires Legal(b, log) && Run(b, log).intent.None?
    ensures OwnerWriter(log) != Archival
  {
    if log != [] {
      StepFacts(Run(b, log[..|log| - 1]), log[|log| - 1]);
      NoOwnerWritten(b, log[..|log| - 1]);
    }
  }

  /** What is recorded when the intent is first written is what a completed run has archived, byte for byte,
      however many times it stopped: the manifest is the one an uninterrupted run would have written. No recorded group
      is still live unless others created it again, and the next controller owns the namespace unless others have been
      given it since. */
  lemma CompletionIsUninterrupted(b: Start, log: seq<Action>)
    requires Legal(b, log) && Run(b, log).intent.Some? && Run(b, log).intent.value.phase == Complete
    ensures var s := Run(b, log); s.manifest == Some(Manifest(s.intent.value.request, Scan(s.first))) && s.archive == s.first
    ensures var s := Run(b, log); s.owner == Some(s.intent.value.request.next) || OwnerWriter(log) == Others
    ensures var s := Run(b, log); forall g :: g in s.first ==> (g in s.source <==> Last(ByOthers(log), g, Written))
  {
    RunKeepsInv(b, log);
    OwnerIsTheLog(b, log);
    OthersIsTheLog(b, log);
    var s := Run(b, log);
    forall g | g in s.first ensures g in s.source <==> Last(ByOthers(log), g, Written) {
      assert Placed(s, g);
    }
  }

  /** The recorded members never change, and nothing archived ever leaves the archive. */
  lemma RecordsAreFixed(b: Start, log: seq<Action>, a: Action)
    requires Legal(b, log) && Next(Run(b, log), a).Some? && Run(b, log).intent.Some?
    ensures var s, t := Run(b, log), Next(Run(b, log), a).value;
      && t.intent.Some? && t.intent.value.members == s.intent.value.members && t.intent.value.request == s.intent.value.request
      && t.first == s.first && (forall g :: g in s.archive ==> g in t.archive && t.archive[g] == s.archive[g])
      && (s.manifest.Some? ==> t.manifest == s.manifest)
  {
    RunKeepsInv(b, log);
  }

  // ---- runs as the methods see them ----

  ghost predicate IsRun(b: Start, log: seq<Action>, s: State) {
    forall k {:trigger Show(k)} :: Show(k) ==> Legal(b, log) && Run(b, log) == s
  }

  lemma RunStep(b: Start, log: seq<Action>, s: State, a: Action)
    requires IsRun(b, log, s) && Next(s, a).Some?
    ensures IsRun(b, log + [a], Next(s, a).value)
  {
    assert Show(0);
    assert (log + [a])[..|log|] == log;
  }

  lemma RunFacts(b: Start, log: seq<Action>, s: State)
    requires IsRun(b, log, s)
    ensures Inv(s)
  {
    assert Show(0);
    RunKeepsInv(b, log);
  }

  // ---- when an interrupted archival can be completed ----

  /** A repeated request starts over when nothing is active, nothing new or changed lives in the namespaces, and no other
      controller has the job namespace. */
  predicate CanStart(s: State, quiet: bool)
    requires s.intent.Some?
  {
    OwnerFits(s) && quiet && Agrees(s.source, s.intent.value.members)
  }

  /** It can finish when also no recorded group is missing or duplicated. A complete archival always answers. */
  predicate CanFinish(s: State, quiet: bool)
    requires s.intent.Some?
  {
    s.intent.value.phase == Complete || (CanStart(s, quiet) && InOnePlace(s))
  }

  lemma Take(b: Start, log: seq<Action>, s: State, a: Action) returns (log': seq<Action>, s': State)
    requires IsRun(b, log, s) && Next(s, a).Some?
    ensures IsRun(b, log', s') && Next(s, a) == Some(s') && log' == log + [a]
  {
    RunStep(b, log, s, a);
    log', s' := log + [a], Next(s, a).value;
  }

  /** The log goes on with steps of the archival alone. */
  predicate Onwards(log: seq<Action>, log': seq<Action>) {
    log <= log' && forall i :: |log| <= i < |log'| ==> ByArchival(log'[i])
  }

  lemma MoveOne(s: State, g: Group)
    requires Active(s) && InOnePlace(s) && Agrees(s.source, s.intent.value.members)
    requires g in s.intent.value.members && g in s.source
    ensures Enabled(s, Move(g))
    ensures var t := Apply(s, Move(g));
      t == s.(source := t.source, archive := t.archive, others := t.others) && |t.source| < |s.source|
    ensures InOnePlace(Apply(s, Move(g))) && Agrees(Apply(s, Move(g)).source, s.intent.value.members)
  {
    assert !Misplaced(s, g);
    var t := Apply(s, Move(g));
    FewerLive(s.source, g);
    forall k | k in s.intent.value.members ensures !Misplaced(t, k) {
      assert !Misplaced(s, k);
    }
  }

  lemma FewerLive(source: map<Group, Content>, g: Group)
    requires g in source
    ensures |source - {g}| < |source|
  {
    assert source.Keys == (source - {g}).Keys + {g};
    assert |source| == |source.Keys| && |source - {g}| == |(source - {g}).Keys|;
  }

  /** Every recorded group that is still live is moved. */
  lemma {:induction false} MoveAll(b: Start, log: seq<Action>, s: State) returns (log': seq<Action>, s': State)
    requires IsRun(b, log, s) && Active(s)
    requires InOnePlace(s) && Agrees(s.source, s.intent.value.members)
    ensures IsRun(b, log', s') && Onwards(log, log') && Active(s') && AllMoved(s')
    ensures s' == s.(source := s'.source, archive := s'.archive, others := s'.others)
    decreases |s.source|
  {
    if g :| g in s.intent.value.members && g in s.source {
      MoveOne(s, g);
      var front, t := Take(b, log, s, Move(g));
      log', s' := MoveAll(b, front, t);
    } else {
      log', s' := log, s;
      forall g | g in s.intent.value.members ensures g in s.archive && g !in s.source {
        assert !Misplaced(s, g);
      }
    }
  }

  /** Manifest, published, owner, complete. */
  lemma PublishAll(b: Start, log: seq<Action>, s: State) returns (log': seq<Action>, s': State)
    requires IsRun(b, log, s) && Active(s) && AllMoved(s)
    ensures IsRun(b, log', s') && Onwards(log, log') && s'.intent.Some? && s'.intent.value.phase == Complete
  {
    log', s' := log, s;
    if s.manifest.None? {
      log', s' := Take(b, log', s', SaveManifest);
    }
    RunFacts(b, log', s');
    log', s' := Take(b, log', s', SavePublished);
    log', s' := Take(b, log', s', SaveOwner);
    log', s' := Take(b, log', s', SaveComplete);
  }

  lemma Finishes(b: Start, log: seq<Action>, s: State) returns (log': seq<Action>, s': State)
    requires IsRun(b, log, s) && s.intent.Some? && !s.running && CanFinish(s, true)
    ensures IsRun(b, log', s') && Onwards(log, log') && s'.intent.Some? && s'.intent.value.phase == Complete
  {
    if s.intent.value.phase == Complete {
      log', s' := log, s;
    } else {
      var one, t := Take(b, log, s, Resume(s.intent.value.request));
      forall g | g in t.intent.value.members ensures !Misplaced(t, g) {
        assert !Misplaced(s, g);
      }
      var two, u := MoveAll(b, one, t);
      log', s' := PublishAll(b, two, u);
    }
  }

  /** The archival's own steps never make a state finishable that was not. */
  lemma OwnStepsDoNotHelp(s: State, a: Action)
    requires Inv(s) && s.intent.Some? && Next(s, a).Some? && ByArchival(a) && CanFinish(Next(s, a).value, true)
    ensures CanFinish(s, true)
  {
    var t := Next(s, a).value;
    if s.intent.value.phase != Complete {
      forall g | g in s.intent.value.members ensures !Misplaced(s, g) {
        if !a.SaveComplete? { assert !Misplaced(t, g); }
      }
    }
  }

  lemma {:induction false} FinishedWasFinishable(b: Start, log: seq<Action>, log': seq<Action>)
    requires Legal(b, log) && Run(b, log).intent.Some? && Legal(b, log') && Onwards(log, log')
    requires Run(b, log').intent.Some? && CanFinish(Run(b, log'), true)
    ensures CanFinish(Run(b, log), true)
    decreases |log'|
  {
    if log' != log {
      var front, a := log'[..|log'| - 1], log'[|log'| - 1];
      assert a == log'[|log'| - 1] && ByArchival(a);
      RunKeepsInv(b, front);
      IntentStays(b, log, front);
      OwnStepsDoNotHelp(Run(b, front), a);
      FinishedWasFinishable(b, log, front);
    }
  }

  lemma {:induction false} IntentStays(b: Start, log: seq<Action>, log': seq<Action>)
    requires Legal(b, log) && Run(b, log).intent.Some? && Legal(b, log') && log <= log'
    ensures Run(b, log').intent.Some? && Run(b, log').intent.value.members == Run(b, log).intent.value.members
    decreases |log'|
  {
    if log' != log {
      var front := log'[..|log'| - 1];
      assert log <= front;
      IntentStays(b, log, front);
      StepFacts(Run(b, front), log'[|log'| - 1]);
    }
  }

  ghost predicate CompletesAfter(b: Start, log: seq<Action>, log': seq<Action>) {
    && Onwards(log, log') && Legal(b, log')
    && Run(b, log').intent.Some? && Run(b, log').intent.value.phase == Complete
  }

  /** An interrupted archival can be completed by its own steps exactly when CanFinish says so: the next controller, the
      old one or nobody owns the namespace, everything live was recorded, and no recorded group is missing or duplicated. */
  lemma FinishesExactlyWhen(b: Start, log: seq<Action>)
    requires Legal(b, log) && Run(b, log).intent.Some? && !Run(b, log).running
    ensures CanFinish(Run(b, log), true) <==> exists log' :: CompletesAfter(b, log, log')
  {
    if CanFinish(Run(b, log), true) {
      var log', s' := Finishes(b, log, Run(b, log));
      assert Show(0);
      assert CompletesAfter(b, log, log');
    }
    if log' :| CompletesAfter(b, log, log') {
      FinishedWasFinishable(b, log, log');
    }
  }

  /** Work that was not recorded appeared before the archival was complete. */
  predicate Blocked(s: State, g: Group) {
    s.intent.Some? && s.intent.value.phase != Complete && g in s.source && g !in s.intent.value.members
  }

  lemma BlockedStep(s: State, a: Action, g: Group)
    requires Inv(s) && Blocked(s, g) && Next(s, a).Some? && a != Forget(g)
    ensures Blocked(Next(s, a).value, g)
  {
  }

  lemma BlockedCannotFinish(s: State, g: Group)
    requires Inv(s) && Blocked(s, g)
    ensures !s.running && !CanFinish(s, true)
  {
  }

  lemma {:induction false} StaysBlocked(b: Start, log: seq<Action>, more: seq<Action>, g: Group)
    requires Legal(b, log) && Blocked(Run(b, log), g) && Legal(b, log + more) && Forget(g) !in more
    ensures Blocked(Run(b, log + more), g)
    decreases |more|
  {
    if more == [] {
      assert log + more == log;
    } else {
      var front := more[..|more| - 1];
      assert (log + more)[..|log + more| - 1] == log + front;
      assert more[|more| - 1] in more && forall a :: a in front ==> a in more;
      StaysBlocked(b, log, front, g);
      RunKeepsInv(b, log + front);
      BlockedStep(Run(b, log + front), more[|more| - 1], g);
    }
  }

  /** As long as nobody removes that work the archival cannot be finished, whatever else happens. */
  lemma BlockedWhileItStays(b: Start, log: seq<Action>, more: seq<Action>, g: Group)
    requires Legal(b, log) && Blocked(Run(b, log), g) && Legal(b, log + more) && Forget(g) !in more
    ensures Blocked(Run(b, log + more), g) && !CanFinish(Run(b, log + more), true) && !Run(b, log + more).running
  {
    StaysBlocked(b, log, more, g);
    RunKeepsInv(b, log + more);
    BlockedCannotFinish(Run(b, log + more), g);
  }

  /** An archival stops between the change of owner and its completion, and work that appears then blocks it. */
  lemma NewOwnerCanBlock(q: Request, g: Group, content: Content) returns (b: Start, log: seq<Action>)
    requires q.controller != q.next
    ensures Legal(b, log) && Blocked(Run(b, log), g)
    ensures var s := Run(b, log); s.intent.value.phase == Published && s.owner == Some(q.next) && s.intent.value.request == q
    ensures !CanFinish(Run(b, log), true)
    ensures var s := Run(b, log); !s.running && s.source == map[g := content] && s.intent.value.members == map[]
  {
    b, log := Start(map[], Some(q.controller)), [];
    var s := Initial(b.source, b.owner);
    log, s := Take(b, log, s, MakeFolder);
    log, s := Take(b, log, s, SaveIntent(q));
    log, s := Take(b, log, s, SaveManifest);
    log, s := Take(b, log, s, SavePublished);
    log, s := Take(b, log, s, SaveOwner);
    log, s := Take(b, log, s, Stop);
    log, s := Take(b, log, s, Put(g, content));
    assert Show(0);
  }

  /** Removing that work, by its own request or by the archival of the next epoch, unblocks it: the run goes on to
      completion. */
  lemma RemovalUnblocks(q: Request, g: Group, content: Content) returns (b: Start, log: seq<Action>, log': seq<Action>)
    requires q.controller != q.next
    ensures Legal(b, log) && Blocked(Run(b, log), g)
    ensures CompletesAfter(b, log + [Forget(g)], log')
  {
    b, log := NewOwnerCanBlock(q, g, content);
    var s := Run(b, log);
    RunFacts(b, log, s);
    var front, t := Take(b, log, s, Forget(g));
    var u;
    log', u := Finishes(b, front, t);
    assert Show(0);
  }

  /** A recorded group that is removed before it was moved is in neither place, and the archival cannot be finished. */
  lemma RemovedGroupIsMissed(q: Request, g: Group, content: Content) returns (b: Start, log: seq<Action>)
    requires q.controller != q.next
    ensures Legal(b, log) && Run(b, log).intent.Some? && g in Run(b, log).intent.value.members
    ensures var s := Run(b, log); g !in s.source && g !in s.archive && CanStart(s, true) && !CanFinish(s, true)
  {
    b, log := Start(map[g := content], Some(q.controller)), [];
    var s := Initial(b.source, b.owner);
    log, s := Take(b, log, s, MakeFolder);
    log, s := Take(b, log, s, SaveIntent(q));
    log, s := Take(b, log, s, Stop);
    log, s := Take(b, log, s, Forget(g));
    assert Misplaced(s, g);
    assert Show(0);
  }
}
