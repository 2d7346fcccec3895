/** The bounded per-agent spool: every write checks the limits before it adds a file, and every request first checks
    the whole folder, refusing to work on one that exceeds them. */
module AgentSpool {
  import opened Base

  const MAX_FILE := 32768
  const MAX_FILES := 1024
  const MAX_BYTES := 8 * 1024 * 1024

  type Name = nat

  datatype File = File(name: Name, size: nat)

  function Total(files: seq<File>): nat {
    if files == [] then 0 else Total(files[..|files| - 1]) + files[|files| - 1].size
  }

  predicate Distinct(files: seq<File>) {
    forall i, j :: 0 <= i < j < |files| ==> files[i].name != files[j].name
  }

  predicate Small(files: seq<File>) {
    forall i :: 0 <= i < |files| ==> files[i].size <= MAX_FILE
  }

  /** Where a name is listed, or the end. */
  function Find(files: seq<File>, name: Name): (i: nat)
    ensures i <= |files| && (i < |files| ==> files[i].name == name)
    ensures i == |files| ==> forall k :: 0 <= k < |files| ==> files[k].name != name
  {
    if files == [] then 0
    else if files[|files| - 1].name == name then |files| - 1
    else
      var i := Find(files[..|files| - 1], name);
      if i == |files| - 1 then |files| else i
  }

  lemma {:induction false} BytesPut(files: seq<File>, i: nat, f: File)
    requires i < |files|
    ensures Total(files[i := f]) == Total(files) - files[i].size + f.size
  {
    var n := |files| - 1;
    if i == n {
      assert files[i := f][..n] == files[..n];
    } else {
      BytesPut(files[..n], i, f);
      assert files[i := f][..n] == files[..n][i := f];
    }
  }

  lemma {:induction false} BytesWithout(files: seq<File>, i: nat)
    requires i < |files|
    ensures Total(files[..i] + files[i + 1..]) == Total(files) - files[i].size
  {
    var n := |files| - 1;
    if i == n {
      assert files[..i] + files[i + 1..] == files[..n];
    } else {
      BytesWithout(files[..n], i);
      assert (files[..i] + files[i + 1..])[..n - 1] == files[..n][..i] + files[..n][i + 1..];
    }
  }

  /** How large the file of this name is, if there is one. */
  function SizeOf(files: seq<File>, name: Name): nat {
    var i := Find(files, name);
    if i < |files| then files[i].size else 0
  }

  function Without(files: seq<File>, i: nat): seq<File>
    requires i < |files|
  {
    files[..i] + files[i + 1..]
  }

  /** Room for a file: one more name at most, and the bytes it adds over what it replaces. */
  predicate Room(files: seq<File>, name: Name, size: nat) {
    var i := Find(files, name);
    if i < |files| then |files| <= MAX_FILES && Total(files) - files[i].size + size <= MAX_BYTES
    else |files| + 1 <= MAX_FILES && Total(files) + size <= MAX_BYTES
  }

  function Put(files: seq<File>, f: File): seq<File> {
    var i := Find(files, f.name);
    if i < |files| then files[i := f] else files + [f]
  }

  lemma PutKeeps(files: seq<File>, f: File)
    requires Distinct(files) && Small(files) && f.size <= MAX_FILE && Room(files, f.name, f.size)
    ensures Distinct(Put(files, f)) && Small(Put(files, f)) && |Put(files, f)| <= MAX_FILES && Total(Put(files, f)) <= MAX_BYTES
  {
    var i := Find(files, f.name);
    if i < |files| {
      BytesPut(files, i, f);
    } else {
      assert (files + [f])[..|files|] == files;
    }
  }

  // ---- requests over one spool ----

  /** `scratch` holds what killed writes left behind; `open` says that a request passed the check and is at work. */
  datatype State = State(files: seq<File>, scratch: seq<File>, open: bool)

  datatype Action =
    | Enter
    | Clear(name: Name)
    | Kill(name: Name, size: nat, part: nat)
    | Replace(name: Name, size: nat)
    | Unlink(name: Name)
    | Leave

  /** The check at the start of every request. */
  predicate Acceptable(s: State) {
    && |s.files| + |s.scratch| <= 2 * MAX_FILES && |s.files| <= MAX_FILES
    && Small(s.files) && Small(s.scratch) && Total(s.files) <= MAX_BYTES
  }

  /** The checks of one write. */
  predicate Writable(s: State, name: Name, size: nat) {
    size <= MAX_FILE && Room(s.files, name, size)
  }

  predicate Enabled(s: State, a: Action) {
    match a
    case Enter => !s.open && Acceptable(s)
    case Clear(name) => s.open && Find(s.scratch, name) < |s.scratch|
    case Kill(name, size, part) => s.open && Writable(s, name, size) && part <= size && Find(s.scratch, name) == |s.scratch|
    case Replace(name, size) => s.open && Writable(s, name, size) && Find(s.scratch, name) == |s.scratch|
    case Unlink(name) => s.open && Find(s.files, name) < |s.files|
    case Leave => s.open
  }

  function Apply(s: State, a: Action): State
    requires Enabled(s, a)
  {
    match a
    case Enter => s.(open := true)
    case Clear(name) => s.(scratch := Without(s.scratch, Find(s.scratch, name)))
    case Kill(name, size, part) => s.(scratch := s.scratch + [File(name, part)], open := false)
    case Replace(name, size) => s.(files := Put(s.files, File(name, size)))
    case Unlink(name) => s.(files := Without(s.files, Find(s.files, name)))
    case Leave => s.(open := false)
  }

  /** The folder holds nothing but the empty lock file. */
  function Initial(): State { State([File(0, 0)], [], false) }

  ghost predicate Legal(log: seq<Action>)
    decreases |log|, 0
  {
    log == [] || (Legal(log[..|log| - 1]) && Enabled(Run(log[..|log| - 1]), log[|log| - 1]))
  }

  ghost function Run(log: seq<Action>): State
    requires Legal(log)
    decreases |log|, 1
  {
    if log == [] then Initial() else Apply(Run(log[..|log| - 1]), log[|log| - 1])
  }

  lemma RunStep(log: seq<Action>, a: Action)
    requires Legal(log) && Enabled(Run(log), a)
    ensures Legal(log + [a]) && Run(log + [a]) == Apply(Run(log), a)
  {
    assert (log + [a])[..|log|] == log;
  }

  /** How many writes of a run were killed. */
  function Kills(log: seq<Action>): nat {
    if log == [] then 0 else Kills(log[..|log| - 1]) + if log[|log| - 1].Kill? then 1 else 0
  }

  lemma KillsStep(log: seq<Action>, a: Action)
    ensures Kills(log + [a]) == Kills(log) + if a.Kill? then 1 else 0
  {
    assert (log + [a])[..|log|] == log;
  }

  predicate Inv(s: State) {
    && Distinct(s.files) && Small(s.files) && |s.files| <= MAX_FILES && Total(s.files) <= MAX_BYTES
    && Distinct(s.scratch) && Small(s.scratch)
  }

  lemma InvKept(s: State, a: Action)
    requires Inv(s) && Enabled(s, a)
    ensures Inv(Apply(s, a))
  {
    if a.Replace? {
      PutKeeps(s.files, File(a.name, a.size));
    } else if a.Unlink? {
      BytesWithout(s.files, Find(s.files, a.name));
    }
  }

  /** In every run the spool keeps its limits, and each leftover scratch file stands for a killed write. */
  lemma {:induction false} SpoolIsBounded(log: seq<Action>)
    requires Legal(log)
    ensures Inv(Run(log)) && |Run(log).scratch| <= Kills(log)
  {
    if log != [] {
      SpoolIsBounded(log[..|log| - 1]);
      InvKept(Run(log[..|log| - 1]), log[|log| - 1]);
    }
  }

  /** The check refuses a reachable spool exactly when files and leftovers together exceed 2048, and no run with at
      most 1024 killed writes gets there. */
  lemma StaysAcceptable(log: seq<Action>)
    requires Legal(log)
    ensures Acceptable(Run(log)) <==> |Run(log).files| + |Run(log).scratch| <= 2 * MAX_FILES
    ensures Kills(log) <= MAX_FILES ==> Acceptable(Run(log))
  {
    SpoolIsBounded(log);
  }

  /** Between requests, a refused spool is the one state that nothing leaves: not even a removal is admitted. */
  lemma RefusedForGood(s: State)
    requires Inv(s)
    ensures (forall a :: !Enabled(s, a)) <==> !s.open && |s.files| + |s.scratch| > 2 * MAX_FILES
  {
    assert Enabled(s, Leave) <==> s.open;
    assert Enabled(s, Enter) <==> !s.open && |s.files| + |s.scratch| <= 2 * MAX_FILES;
  }

  // ---- a run into that state ----

  predicate Above(files: seq<File>, least: nat, n: nat) {
    forall i :: 0 <= i < |files| ==> least <= files[i].name < least + n
  }

  /** Writes under n different names, each killed before it wrote anything. */
  lemma {:induction false} KillMany(n: nat) returns (log: seq<Action>)
    requires n <= MAX_FILES + 1
    ensures Legal(log) && Kills(log) == n
    ensures Run(log).files == Initial().files && |Run(log).scratch| == n && !Run(log).open
    ensures Above(Run(log).scratch, 1, n)
  {
    if n == 0 {
      log := [];
    } else {
      log := KillMany(n - 1);
      SpoolIsBounded(log);
      log := Step(log, Enter);
      log := Step(log, Kill(n, 0, 0));
    }
  }

  lemma Step(log: seq<Action>, a: Action) returns (log': seq<Action>)
    requires Legal(log) && Enabled(Run(log), a)
    ensures Legal(log') && Run(log') == Apply(Run(log), a) && Kills(log') == Kills(log) + if a.Kill? then 1 else 0
  {
    RunStep(log, a);
    KillsStep(log, a);
    log' := log + [a];
  }

  /** Then one request adds n files under names of their own. */
  lemma {:induction false} WriteMany(n: nat) returns (log: seq<Action>)
    requires n < MAX_FILES
    ensures Legal(log) && Kills(log) == MAX_FILES + 1
    ensures var s := Run(log); s.open && |s.files| == 1 + n && Total(s.files) == 0
    ensures |Run(log).scratch| == MAX_FILES + 1 && Above(Run(log).scratch, 1, MAX_FILES + 1)
    ensures forall i :: 0 <= i < |Run(log).files| ==> Run(log).files[i].name == if i == 0 then 0 else 2 * MAX_FILES + i
  {
    if n == 0 {
      log := KillMany(MAX_FILES + 1);
      SpoolIsBounded(log);
      log := Step(log, Enter);
      assert Initial().files[..0] == [];
    } else {
      log := WriteMany(n - 1);
      var s, f := Run(log), File(2 * MAX_FILES + n, 0);
      assert (s.files + [f])[..|s.files|] == s.files;
      log := Step(log, Replace(f.name, 0));
    }
  }

  /** After 1025 killed writes a run can end with the spool refused, for good. */
  lemma KilledWritesCanCloseIt() returns (log: seq<Action>)
    ensures Legal(log) && Kills(log) == MAX_FILES + 1
    ensures !Acceptable(Run(log)) && forall a :: !Enabled(Run(log), a)
  {
    log := WriteMany(MAX_FILES - 1);
    log := Step(log, Leave);
    SpoolIsBounded(log);
    RefusedForGood(Run(log));
  }

  // ---- the operations of a request ----

  ghost predicate IsRun(log: seq<Action>, s: State) {
    forall k {:trigger Show(k)} :: Show(k) ==> Legal(log) && Run(log) == s
  }

  /** `disturbed` says that a write may be stopped or killed. */
  class Spool {
    const disturbed: bool
    var files: seq<File>
    var scratch: seq<File>
    var open: bool
    ghost var log: seq<Action>

    function Snapshot(): State
      reads this
    {
      State(files, scratch, open)
    }

    ghost predicate Valid()
      reads this
    {
      IsRun(log, Snapshot()) && Inv(Snapshot())
    }

    constructor (disturbed: bool)
      ensures Valid() && Snapshot() == Initial() && this.disturbed == disturbed
    {
      this.disturbed := disturbed;
      files, scratch, open, log := [File(0, 0)], [], false, [];
      new;
      assert Legal([]) && Run([]) == Initial();
      assert Total(files[..0]) == 0;
    }

    ghost method Note(a: Action, before: State)
      requires IsRun(log, before) && Inv(before) && Enabled(before, a) && Apply(before, a) == Snapshot()
      modifies this`log
      ensures Valid() && log == old(log) + [a]
    {
      assert Show(0);
      RunStep(log, a);
      InvKept(before, a);
      log := log + [a];
    }

    /** A request takes the lock and checks the folder. */
    method Begin() returns (ok: bool)
      requires Valid() && !open
      modifies this`open, this`log
      ensures Valid() && old(log) <= log && open == ok
      ensures ok <==> |files| + |scratch| <= 2 * MAX_FILES
    {
      ok := Inventory();
      if ok {
        ghost var s := Snapshot();
        open := true;
        Note(Enter, s);
      }
    }

    method End()
      requires Valid() && open
      modifies this`open, this`log
      ensures Valid() && old(log) <= log && !open && Kills(log) == Kills(old(log))
    {
      ghost var s := Snapshot();
      open := false;
      KillsStep(log, Leave);
      Note(Leave, s);
    }

    /** Replaces or adds one file through a scratch file of the same name; the process may be killed on the way. */
    method Write(name: Name, size: nat) returns (r: Reply)
      requires Valid() && open
      modifies this
      ensures Valid() && old(log) <= log && (open <==> r != Stopped)
      ensures !disturbed ==> r != Stopped
      ensures r.Refused? <==> !Writable(old(Snapshot()), name, size)
      ensures r.Refused? <==>
        (size > MAX_FILE
         || |old(files)| + (if Find(old(files), name) < |old(files)| then 0 else 1) > MAX_FILES
         || Total(old(files)) - SizeOf(old(files), name) + size > MAX_BYTES)
      ensures r.Refused? ==> Snapshot() == old(Snapshot())
      ensures r == Done ==> files == Put(old(files), File(name, size)) && Find(scratch, name) == |scratch|
      ensures r == Stopped ==> files in {old(files), Put(old(files), File(name, size))}
      ensures Kills(log) == Kills(old(log)) || (r == Stopped && files == old(files) && Kills(log) == Kills(old(log)) + 1)
    {
      if size > MAX_FILE { return Refused("Agent file exceeds capacity."); }
      if !Room(files, name, size) { return Refused("The agent spool capacity was reached."); }
      r := WriteChecked(name, size);
    }

    method WriteChecked(name: Name, size: nat) returns (r: Reply)
      requires Valid() && open && Writable(Snapshot(), name, size)
      modifies this
      ensures Valid() && old(log) <= log && (open <==> r == Done) && r in {Done, Stopped} && (!disturbed ==> r == Done)
      ensures r == Done ==> files == Put(old(files), File(name, size)) && Find(scratch, name) == |scratch|
      ensures r == Stopped ==> files in {old(files), Put(old(files), File(name, size))}
      ensures Kills(log) == Kills(old(log)) || (r == Stopped && files == old(files) && Kills(log) == Kills(old(log)) + 1)
    {
      ClearScratch(name);
      if disturbed { if * { End(); return Stopped; } }
      var killed: bool := *;
      if disturbed && killed {
        LeavePart(name, size);
        return Stopped;
      }
      ghost var s := Snapshot();
      files := Put(files, File(name, size));
      KillsStep(log, Replace(name, size));
      Note(Replace(name, size), s);
      if disturbed { if * { End(); return Stopped; } }
      return Done;
    }

    /** The process is killed with some of the scratch file written. */
    method LeavePart(name: Name, size: nat)
      requires Valid() && open && Writable(Snapshot(), name, size) && Find(scratch, name) == |scratch|
      modifies this`scratch, this`open, this`log
      ensures Valid() && old(log) <= log && !open && Kills(log) == Kills(old(log)) + 1
    {
      var part: int := *;
      part := Max(0, Min(part, size));
      ghost var s := Snapshot();
      scratch, open := scratch + [File(name, part)], false;
      KillsStep(log, Kill(name, size, part));
      Note(Kill(name, size, part), s);
    }

    method ClearScratch(name: Name)
      requires Valid() && open
      modifies this`scratch, this`log
      ensures Valid() && old(log) <= log && Kills(log) == Kills(old(log)) && Find(scratch, name) == |scratch|
      ensures Find(old(scratch), name) == |old(scratch)| ==> scratch == old(scratch)
    {
      var i := Find(scratch, name);
      if i < |scratch| {
        ghost var s := Snapshot();
        scratch := Without(scratch, i);
        KillsStep(log, Clear(name));
        Note(Clear(name), s);
        assert Find(scratch, name) == |scratch|;
      }
    }

    /** Unlinks a file. */
    method Remove(name: Name)
      requires Valid() && open
      modifies this`files, this`log
      ensures Valid() && old(log) <= log && Find(files, name) == |files|
      ensures files == var i := Find(old(files), name); if i < |old(files)| then Without(old(files), i) else old(files)
    {
      var i := Find(files, name);
      if i < |files| {
        ghost var s := Snapshot();
        files := Without(files, i);
        Note(Unlink(name), s);
      }
    }

    /** The check at the start of every request. */
    method Inventory() returns (ok: bool)
      requires Valid()
      ensures ok <==> Acceptable(Snapshot())
      ensures ok <==> |files| + |scratch| <= 2 * MAX_FILES
    {
      if |files| + |scratch| > 2 * MAX_FILES || |files| > MAX_FILES { return false; }
      var size, i := 0, 0;
      while i < |files|
        invariant 0 <= i <= |files| && size == Total(files[..i])
      {
        assert files[..i + 1][..i] == files[..i];
        if files[i].size > MAX_FILE { return false; }
        size := size + files[i].size;
        i := i + 1;
      }
      assert files[..|files|] == files;
      for j := 0 to |scratch| {
        if scratch[j].size > MAX_FILE { return false; }
      }
      return size <= MAX_BYTES;
    }
  }
}
