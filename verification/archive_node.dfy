/** The archival helper: each field is a file or directory on the node, and any method may stop at any write. */
module ArchiveNode {
  import opened Base
  import opened ArchiveModel

  datatype Answer = Archived(manifest: Manifest) | Denied(why: string) | Interrupted

  /** `disturbed` says that a request may stop at any write. */
  class Helper {
    const disturbed: bool
    ghost const start: Start
    var source: map<Group, Content>
    var archive: map<Group, Content>
    var folder: bool
    var intent: Option<Intent>
    var manifest: Option<Manifest>
    var owner: Option<nat>
    ghost var running: bool
    ghost var first: map<Group, Content>
    ghost var others: map<Group, Change>
    ghost var log: seq<Action>

    ghost function Snapshot(): State
      reads this
    {
      State(source, archive, folder, intent, manifest, owner, running, first, others)
    }

    ghost predicate Reachable()
      reads this
    {
      IsRun(start, log, Snapshot())
    }

    /** Between dispatches nobody holds the locks. */
    ghost predicate Valid()
      reads this
    {
      Reachable() && !running
    }

    constructor (source: map<Group, Content>, owner: Option<nat>, disturbed: bool)
      ensures Valid() && Snapshot() == Initial(source, owner) && this.disturbed == disturbed
    {
      start, this.disturbed := Start(source, owner), disturbed;
      this.source, archive, folder, intent, manifest, this.owner := source, map[], false, None, None, owner;
      running, first, others, log := false, map[], map[], [];
    }

    ghost method Note(a: Action, before: State)
      requires IsRun(start, log, before) && Next(before, a) == Some(Snapshot())
      modifies this`log
      ensures Reachable() && log == old(log) + [a]
    {
      RunStep(start, log, before, a);
      log := log + [a];
    }

    /** Other work appears in the live namespaces between dispatches, is written again, or is removed. */
    method Outside(group: Group, content: Option<Content>)
      requires Valid() && (content.None? ==> group in source)
      modifies this`source, this`others, this`log
      ensures Valid() && old(log) <= log
      ensures source == if content.Some? then old(source)[group := content.value] else old(source) - {group}
    {
      ghost var s := Snapshot();
      if content.Some? {
        source, others := source[group := content.value], others[group := Written];
        Note(Put(group, content.value), s);
      } else {
        source, others := source - {group}, others[group := Removed];
        Note(Forget(group), s);
      }
    }

    /** A controller claims the job namespace, or another archival hands it on. */
    method Claimed(other: nat)
      requires Valid() && (intent.Some? ==> other != intent.value.request.next)
      modifies this`owner, this`log
      ensures Valid() && old(log) <= log && owner == Some(other)
    {
      ghost var s := Snapshot();
      owner := Some(other);
      Note(Claim(other), s);
    }

    /** One request. A first request records the live namespaces and archives them; a repeated one finishes what an
        earlier one began, or returns the completed result. `quiet` says that every live record is terminal and no
        process of the epoch remains. */
    method Dispatch(q: Request, quiet: bool) returns (r: Answer)
      requires Valid() && q.controller != q.next
      modifies this
      ensures !disturbed ==> r != Interrupted
      ensures Valid() && old(log) <= log
      ensures r.Archived? ==> intent == Some(Intent(Complete, q, r.manifest.members)) && manifest == Some(r.manifest)
      ensures r.Archived? ==> r.manifest == Manifest(q, Scan(first)) && archive == first
      ensures r.Archived? && !(old(intent).Some? && old(intent).value.phase == Complete) ==>
        owner == Some(q.next) && forall g :: g in first ==> g !in source
      ensures r.Archived? && old(intent).None? ==> first == old(source) && source == map[]
      ensures old(intent).Some? && old(intent).value.request != q ==> r.Denied?
      ensures old(intent).Some? && old(intent).value.request == q ==>
        (r.Archived? ==> CanFinish(old(Snapshot()), quiet)) && (r.Denied? ==> !CanFinish(old(Snapshot()), quiet))
      ensures Retried(q, old(Snapshot())) && !CanStart(old(Snapshot()), quiet) ==> r.Denied?
      ensures old(intent).None? ==> (r.Denied? <==> old(owner) !in {None, Some(q.controller)} || !quiet)
      ensures r.Denied? ==> intent == old(intent) && owner == old(owner) && manifest == old(manifest)
      ensures r.Denied? ==>
        if Retried(q, old(Snapshot())) && CanStart(old(Snapshot()), quiet) then StoppedAtFirst(old(Snapshot()), Snapshot())
        else source == old(source) && archive == old(archive)
    {
      RunFacts(start, log, Snapshot());
      if intent.Some? {
        if intent.value.request != q { return Denied("another request"); }
        if intent.value.phase == Complete {
          var good := VerifyArchive(manifest.value.members);
          return Archived(manifest.value);
        }
        r := Continue(q, quiet);
        return;
      }
      if owner !in {None, Some(q.controller)} { return Denied("another controller"); }
      if !quiet { return Denied("active work"); }
      r := RecordAndFinish(q);
    }

    method RecordAndFinish(q: Request) returns (r: Answer)
      requires Valid() && intent.None? && owner in {None, Some(q.controller)} && q.controller != q.next
      modifies this
      ensures !disturbed ==> r != Interrupted
      ensures Valid() && old(log) <= log && !r.Denied?
      ensures r.Archived? ==> Finished(r.manifest) && r.manifest.request == q && first == old(source) && source == map[]
    {
      RunFacts(start, log, Snapshot());
      r := Record(q);
      if r != Interrupted {
        ghost var s := Snapshot();
        r := Finish();
        StoppedMeansMisplaced(s, Snapshot());
      }
      if r == Interrupted { Die(); }
    }

    method Continue(q: Request, quiet: bool) returns (r: Answer)
      requires Valid() && intent.Some? && intent.value.request == q && intent.value.phase != Complete
      modifies this
      ensures !disturbed ==> r != Interrupted
      ensures Valid() && old(log) <= log && first == old(first)
      ensures r.Archived? ==> Finished(r.manifest) && r.manifest.request == q && CanFinish(old(Snapshot()), quiet)
      ensures r.Denied? ==> !CanFinish(old(Snapshot()), quiet)
      ensures !CanStart(old(Snapshot()), quiet) ==> r.Denied? && source == old(source) && archive == old(archive)
      ensures r.Denied? ==> intent == old(intent) && owner == old(owner) && manifest == old(manifest)
      ensures r.Denied? && CanStart(old(Snapshot()), quiet) ==> StoppedAtFirst(old(Snapshot()), Snapshot())
    {
      var why := Refusal(q, quiet);
      if why != "" { return Denied(why); }
      ghost var s := Snapshot();
      TakeUp(q);
      ghost var t := Snapshot();
      r := Finish();
      SamePlaces(s, t);
      ghost var u := Snapshot();
      if !r.Archived? { Die(); }
      if r.Denied? { SameStop(s, t, u, Snapshot()); }
    }

    /** Why an unfinished archival is not taken up again. */
    method Refusal(q: Request, quiet: bool) returns (why: string)
      requires intent.Some? && intent.value.request == q
      ensures why == "" <==> CanStart(Snapshot(), quiet)
    {
      if owner !in {None, Some(q.controller), Some(q.next)} { return "another controller"; }
      if !quiet { return "active work"; }
      var remaining := Scan(source);
      if exists g :: g in remaining.Keys && (g !in intent.value.members || intent.value.members[g] != remaining[g]) {
        return "new or changed work";
      }
      return "";
    }

    method TakeUp(q: Request)
      requires Valid() && Retried(q, Snapshot()) && CanStart(Snapshot(), true)
      modifies this`running, this`log
      ensures Reachable() && old(log) <= log && Snapshot() == old(Snapshot()).(running := true)
    {
      ghost var s := Snapshot();
      running := true;
      Note(ArchiveModel.Resume(q), s);
    }

    /** What a finished archival leaves. */
    ghost predicate Finished(m: Manifest)
      reads this
    {
      && intent == Some(Intent(Complete, m.request, m.members)) && manifest == Some(m)
      && m.members == Scan(first) && archive == first && owner == Some(m.request.next)
      && (forall g :: g in first ==> g !in source)
    }

    method Die()
      requires Reachable()
      modifies this`running, this`log
      ensures Valid() && old(log) <= log
    {
      ghost var s := Snapshot();
      running := false;
      Note(Stop, s);
    }

    /** Creates the folder and writes the intent. */
    method Record(q: Request) returns (r: Answer)
      requires Valid() && intent.None? && owner in {None, Some(q.controller)} && q.controller != q.next
      modifies this`folder, this`intent, this`first, this`others, this`running, this`log
      ensures !disturbed ==> r != Interrupted
      ensures Reachable() && old(log) <= log && !r.Denied?
      ensures r.Archived? ==> running && first == source && intent == Some(Intent(Moving, q, Scan(source)))
      ensures r.Archived? ==> InOnePlace(Snapshot())
    {
      RunFacts(start, log, Snapshot());
      if !folder {
        ghost var s := Snapshot();
        folder := true;
        Note(MakeFolder, s);
        if disturbed { if * { return Interrupted; } }
      }
      ghost var t := Snapshot();
      intent := Some(Intent(Moving, q, Scan(source)));
      running, first, others := true, source, map[];
      Note(ArchiveModel.SaveIntent(q), t);
      if disturbed { if * { return Interrupted; } }
      return Archived(Manifest(q, Scan(source)));
    }

    /** From a valid intent to a complete archive. */
    method Finish() returns (r: Answer)
      requires Reachable() && running && intent.Some?
      modifies this
      ensures !disturbed ==> r != Interrupted
      ensures Reachable() && old(log) <= log && first == old(first)
      ensures r.Archived? ==> !running && Finished(r.manifest) && r.manifest.request == old(intent).value.request
      ensures r.Archived? ==> InOnePlace(old(Snapshot())) && source.Keys <= old(source.Keys)
      ensures r.Denied? ==> intent == old(intent) && owner == old(owner) && manifest == old(manifest)
      ensures r.Denied? ==> StoppedAtFirst(old(Snapshot()), Snapshot())
      ensures r.Archived? && old(source.Keys) <= old(first.Keys) ==> source == map[]
    {
      RunFacts(start, log, Snapshot());
      r := MoveGroups();
      if !r.Archived? { return; }
      r := PublishManifest();
      if r == Interrupted { return; }
      r := Publish();
      if r == Interrupted { return; }
      RunFacts(start, log, Snapshot());
    }

    /** Moves every recorded group that is still live, in order, and refuses at the first one that is missing or
        duplicated; hashes are checked before and after the move. */
    method MoveGroups() returns (r: Answer)
      requires Reachable() && running && intent.Some?
      modifies this`source, this`archive, this`others, this`log
      ensures !disturbed ==> r != Interrupted
      ensures Reachable() && old(log) <= log && source.Keys <= old(source.Keys)
      ensures r.Archived? ==> AllMoved(Snapshot()) && InOnePlace(old(Snapshot()))
      ensures r.Denied? ==> StoppedAtFirst(old(Snapshot()), Snapshot())
    {
      var members := intent.value.members;
      var groups := InOrder(members.Keys);
      ghost var s := Snapshot();
      for i := 0 to |groups|
        invariant Reachable() && old(log) <= log && source.Keys <= old(source.Keys)
        invariant MovedUpTo(s, Snapshot(), groups, i)
      {
        ghost var t := Snapshot();
        NotYetMoved(s, t, groups, i);
        r := ArchiveGroup(groups[i]);
        if r.Denied? { StopsHere(s, t, Snapshot(), groups, i); }
        if !r.Archived? { return; }
        MovedOneMore(s, t, Snapshot(), groups, i);
      }
      return Archived(Manifest(intent.value.request, members));
    }

    method ArchiveGroup(g: Group) returns (r: Answer)
      requires Reachable() && running && intent.Some? && g in intent.value.members
      modifies this`source, this`archive, this`others, this`log
      ensures !disturbed ==> r != Interrupted
      ensures Reachable() && old(log) <= log && OnlyHere(old(Snapshot()), Snapshot(), g) && source.Keys <= old(source.Keys)
      ensures r.Denied? ==> Misplaced(old(Snapshot()), g) && source == old(source) && archive == old(archive)
      ensures r.Archived? ==> !Misplaced(old(Snapshot()), g)
      ensures r.Archived? ==> g in archive && g !in source && VerifyGroup(archive[g], intent.value.members[g])
    {
      RunFacts(start, log, Snapshot());
      assert g in Scan(first) && Placed(Snapshot(), g);
      if (g in source) == (g in archive) { return Denied("missing or duplicated"); }
      if g in source {
        MoveOne(g);
        if disturbed { if * { return Interrupted; } }
      }
      return Archived(Manifest(intent.value.request, intent.value.members));
    }

    method MoveOne(g: Group)
      requires Reachable() && running && intent.Some? && g in intent.value.members && g in source && g !in archive
      requires VerifyGroup(source[g], intent.value.members[g])
      modifies this`source, this`archive, this`others, this`log
      ensures Reachable() && old(log) <= log && archive == old(archive)[g := old(source)[g]] && source == old(source) - {g}
    {
      ghost var s := Snapshot();
      archive, source, others := archive[g := source[g]], source - {g}, others - {g};
      Note(ArchiveModel.Move(g), s);
    }

    method PublishManifest() returns (r: Answer)
      requires Reachable() && running && intent.Some?
      requires AllMoved(Snapshot())
      modifies this`manifest, this`log
      ensures !disturbed ==> r != Interrupted
      ensures Reachable() && old(log) <= log && !r.Denied?
      ensures r.Archived? ==> manifest == Some(Manifest(intent.value.request, intent.value.members))
    {
      RunFacts(start, log, Snapshot());
      if manifest.None? {
        ghost var s := Snapshot();
        manifest := Some(Manifest(intent.value.request, intent.value.members));
        Note(ArchiveModel.SaveManifest, s);
        if disturbed { if * { return Interrupted; } }
      }
      var good := VerifyArchive(intent.value.members);
      return Archived(manifest.value);
    }

    /** Every archived namespace holds exactly the recorded groups with their hashes. In every reachable state
        with a manifest the check succeeds. */
    method VerifyArchive(members: map<Group, Hashes>) returns (good: bool)
      requires Reachable() && manifest.Some? && manifest.value.members == members
      ensures good && AllArchived(members, archive)
    {
      RunFacts(start, log, Snapshot());
      good := archive.Keys == members.Keys;
      var groups := InOrder(members.Keys);
      for i := 0 to |groups|
        invariant good && forall k :: 0 <= k < i ==> VerifyGroup(archive[groups[k]], members[groups[k]])
      {
        good := VerifyGroup(archive[groups[i]], members[groups[i]]);
      }
    }

    /** Published, then the new owner, then complete. */
    method Publish() returns (r: Answer)
      requires Reachable() && running && intent.Some?
      requires manifest == Some(Manifest(intent.value.request, intent.value.members)) && AllMoved(Snapshot())
      modifies this`intent, this`owner, this`running, this`log
      ensures !disturbed ==> r != Interrupted
      ensures Reachable() && old(log) <= log && !r.Denied?
      ensures r.Archived? ==> !running && intent == Some(old(intent).value.(phase := Complete)) && r.manifest == manifest.value
      ensures r.Archived? ==> owner == Some(intent.value.request.next)
    {
      r := SavePhase();
      if r == Interrupted { return; }
      r := ChangeOwner();
      if r == Interrupted { return; }
      ghost var s := Snapshot();
      intent := Some(intent.value.(phase := Complete));
      running := false;
      Note(ArchiveModel.SaveComplete, s);
      if disturbed { if * { return Interrupted; } }
      return Archived(manifest.value);
    }

    method SavePhase() returns (r: Answer)
      requires Reachable() && running && intent.Some?
      requires manifest == Some(Manifest(intent.value.request, intent.value.members)) && AllMoved(Snapshot())
      modifies this`intent, this`log
      ensures !disturbed ==> r != Interrupted
      ensures Reachable() && old(log) <= log && !r.Denied? && intent == Some(old(intent).value.(phase := Published))
    {
      RunFacts(start, log, Snapshot());
      ghost var s := Snapshot();
      intent := Some(intent.value.(phase := Published));
      Note(ArchiveModel.SavePublished, s);
      if disturbed { if * { return Interrupted; } }
      return Archived(manifest.value);
    }

    method ChangeOwner() returns (r: Answer)
      requires Reachable() && running && intent.Some? && intent.value.phase == Published && manifest.Some? && AllMoved(Snapshot())
      modifies this`owner, this`log
      ensures !disturbed ==> r != Interrupted
      ensures Reachable() && old(log) <= log && !r.Denied? && owner == Some(intent.value.request.next)
    {
      ghost var s := Snapshot();
      owner := Some(intent.value.request.next);
      Note(ArchiveModel.SaveOwner, s);
      if disturbed { if * { return Interrupted; } }
      return Archived(manifest.value);
    }
  }

  predicate VerifyGroup(content: Content, hashes: Hashes) { Fingerprints(content) == hashes }

  /** An earlier, unfinished intent for this very request. */
  predicate Retried(q: Request, s: State) {
    s.intent.Some? && s.intent.value.request == q && s.intent.value.phase != Complete
  }

  /** The first recorded group that is missing or duplicated. */
  ghost predicate FirstMisplaced(s: State, g: Group) {
    s.intent.Some? && Misplaced(s, g) && forall k :: k in s.intent.value.members && k < g ==> !Misplaced(s, k)
  }

  predicate SameAt(s: State, t: State, g: Group) {
    && (g in s.source <==> g in t.source) && (g in s.source ==> t.source[g] == s.source[g])
    && (g in s.archive <==> g in t.archive) && (g in s.archive ==> t.archive[g] == s.archive[g])
  }

  predicate MovedAt(t: State, g: Group) { g in t.archive && g !in t.source }

  /** Recorded groups before the first misplaced one were archived, and everything else is as it was. */
  ghost predicate StoppedAtFirst(s: State, t: State) {
    exists g :: FirstMisplaced(s, g)
      && forall k: Group :: if s.intent.Some? && k in s.intent.value.members && k < g then MovedAt(t, k) else SameAt(s, t, k)
  }

  /** Only this group's place may differ. */
  ghost predicate OnlyHere(s: State, t: State, g: Group) {
    forall k :: k != g ==> SameAt(s, t, k)
  }

  /** The first i recorded groups were in one place and are archived now; the others are as they were. */
  ghost predicate MovedUpTo(s: State, t: State, groups: seq<Group>, i: nat) {
    && s.intent.Some? && i <= |groups|
    && (forall k :: 0 <= k < i ==> !Misplaced(s, groups[k]) && MovedAt(t, groups[k]))
    && forall g :: g !in groups[..i] ==> SameAt(s, t, g)
  }

  ghost predicate Listed(groups: seq<Group>, s: State) {
    && s.intent.Some? && (forall g :: g in groups <==> g in s.intent.value.members)
    && forall i, j :: 0 <= i < j < |groups| ==> groups[i] < groups[j]
  }

  lemma NotYetMoved(s: State, t: State, groups: seq<Group>, i: nat)
    requires Listed(groups, s) && i < |groups| && MovedUpTo(s, t, groups, i) && t.intent == s.intent
    ensures SameAt(s, t, groups[i]) && (Misplaced(t, groups[i]) <==> Misplaced(s, groups[i]))
  {
    assert groups[i] !in groups[..i];
  }

  lemma MovedOneMore(s: State, t: State, u: State, groups: seq<Group>, i: nat)
    requires Listed(groups, s) && i < |groups| && MovedUpTo(s, t, groups, i) && !Misplaced(s, groups[i])
    requires OnlyHere(t, u, groups[i]) && MovedAt(u, groups[i])
    ensures MovedUpTo(s, u, groups, i + 1)
  {
    forall k | 0 <= k < i ensures !Misplaced(s, groups[k]) && MovedAt(u, groups[k]) {
      assert SameAt(t, u, groups[k]) && MovedAt(t, groups[k]);
    }
    forall g | g !in groups[..i + 1] ensures SameAt(s, u, g) {
      assert groups[i] in groups[..i + 1];
      assert forall k :: k in groups[..i] ==> k in groups[..i + 1];
      assert SameAt(s, t, g) && SameAt(t, u, g);
    }
  }

  lemma StopsHere(s: State, t: State, u: State, groups: seq<Group>, i: nat)
    requires Listed(groups, s) && i < |groups| && MovedUpTo(s, t, groups, i) && Misplaced(s, groups[i])
    requires u.source == t.source && u.archive == t.archive
    ensures StoppedAtFirst(s, u)
  {
    forall g | g in s.intent.value.members && g < groups[i] ensures !Misplaced(s, g) && MovedAt(u, g) {
      var k :| 0 <= k < |groups| && groups[k] == g;
    }
    forall g | !(g in s.intent.value.members && g < groups[i]) ensures SameAt(s, u, g) {
      assert g !in groups[..i];
    }
    assert FirstMisplaced(s, groups[i]);
  }

  lemma StoppedMeansMisplaced(s: State, t: State)
    requires s.intent.Some?
    ensures StoppedAtFirst(s, t) ==> !InOnePlace(s)
  {
  }

  /** Taking the locks moves nothing. */
  lemma SamePlaces(s: State, t: State)
    requires s.intent.Some? && t == s.(running := true)
    ensures InOnePlace(s) <==> InOnePlace(t)
    ensures forall g :: FirstMisplaced(s, g) <==> FirstMisplaced(t, g)
  {
    assert forall g :: Misplaced(s, g) <==> Misplaced(t, g);
  }

  /** Nor does releasing them. */
  lemma SameStop(s: State, t: State, u: State, w: State)
    requires s.intent.Some? && t == s.(running := true) && StoppedAtFirst(t, u)
    requires w.source == u.source && w.archive == u.archive
    ensures StoppedAtFirst(s, w) && !InOnePlace(s)
  {
    SamePlaces(s, t);
    var g :| FirstMisplaced(t, g)
      && forall k: Group :: if k in t.intent.value.members && k < g then MovedAt(u, k) else SameAt(t, u, k);
    assert FirstMisplaced(s, g);
    forall k: Group ensures if k in s.intent.value.members && k < g then MovedAt(w, k) else SameAt(s, w, k) {
      assert SameAt(t, u, k) <==> SameAt(s, w, k);
    }
  }
}
