/** One editor save: a private folder beside the file keeps the submitted draft and, by an atomic exchange, whatever
    object was displaced. Another program may replace or rewrite the file at any time; the helper may stop at any
    write. */
module EditorModel {
  import opened Base

  /** A file object: its identity, its bytes, and its other attributes (times, mode, owner, links). */
  datatype File = File(id: nat, content: Bytes, meta: nat)

  /** The identity of the object the save creates; no other program can make one with it. */
  const OURS: nat := 0

  datatype Phase = Preparing | Unknown | Failed | Succeeded | Conflict

  datatype Record = Record(phase: Phase, retained: bool, resolved: bool)

  datatype Stage = Stage(draft: Option<Bytes>, replacement: Option<File>)

  /** What one save was asked to do: the text, and the object (with its bytes) it was asked to replace. */
  datatype Request = Request(text: Bytes, expected: File)

  /** `exchanged`, `displaced` and `verdict` are history: whether the exchange happened, which object it displaced,
      and the two files the outcome was judged on. */
  datatype State = State(
    target: Option<File>, stage: Option<Stage>, record: Option<Record>,
    committing: bool, checked: bool, looked: Option<File>,
    exchanged: bool, displaced: Option<nat>, verdict: Option<(File, File)>)

  datatype Action =
    // another program
    | Replace(file: Option<File>)
    | Rewrite(id: nat, content: Bytes, meta: nat)
    // the save
    | SaveRecord
    | MakeStage
    | WriteDraft(part: Bytes)
    | WriteReplacement(part: Bytes, meta: nat)
    | Check
    | SaveUnknown
    | Exchange
    | GiveUp
    | Stop
    // inspection
    | Look
    | SettleFailed
    | SettleUnpublished
    | SettleConflict
    | SettleSucceeded
    // explicit cleanup
    | Resolve
    | UnlinkDraft
    | UnlinkReplacement
    | RemoveStage
    | SaveCleaned

  predicate OursIntact(q: Request, f: File) { f.id == OURS && f.content == q.text }

  predicate IsExpected(q: Request, f: File) { f == q.expected }

  predicate Ready(q: Request, s: State) {
    && s.stage.Some? && s.stage.value.draft == Some(q.text)
    && s.stage.value.replacement.Some? && OursIntact(q, s.stage.value.replacement.value)
  }

  predicate InPhase(s: State, p: Phase) { s.record.Some? && s.record.value.phase == p }

  predicate Cleaning(s: State) {
    s.record.Some? && s.record.value.resolved && s.record.value.phase in {Failed, Succeeded, Conflict}
  }

  function Rewritten(f: Option<File>, a: Action): Option<File>
    requires a.Rewrite?
  {
    if f.Some? && f.value.id == a.id then Some(File(a.id, a.content, a.meta)) else f
  }

  ghost predicate Enabled(q: Request, s: State, a: Action) {
    match a
    case Replace(file) => file.Some? && file.value.id == OURS ==> s.exchanged
    case Rewrite(id, _, _) => id == OURS ==> s.exchanged
    case SaveRecord => s.record.None? && s.stage.None? && q.expected.id != OURS
    case MakeStage => InPhase(s, Preparing) && s.committing && s.stage.None?
    case WriteDraft(part) => InPhase(s, Preparing) && s.committing && s.stage.Some? && part <= q.text
    case WriteReplacement(part, _) => InPhase(s, Preparing) && s.committing && s.stage.Some? && part <= q.text
    case Check => InPhase(s, Preparing) && s.committing && Ready(q, s) && s.target == Some(q.expected)
    case SaveUnknown => InPhase(s, Preparing) && s.committing && s.checked && Ready(q, s)
    case Exchange => InPhase(s, Unknown) && s.committing && s.stage.Some? && s.stage.value.replacement.Some? && s.target.Some?
    case GiveUp => InPhase(s, Preparing)
    case Stop => true
    case Look => InPhase(s, Unknown) && !s.committing && s.target.Some?
    case SettleFailed => InPhase(s, Preparing) && !s.committing
    case SettleUnpublished =>
      && Judging(s) && !OursIntact(q, s.looked.value) && OursIntact(q, s.stage.value.replacement.value)
      && IsExpected(q, s.looked.value)
    case SettleConflict => Judging(s) && OursIntact(q, s.looked.value) && !IsExpected(q, s.stage.value.replacement.value)
    case SettleSucceeded => Judging(s) && OursIntact(q, s.looked.value) && IsExpected(q, s.stage.value.replacement.value)
    case Resolve => s.record.Some? && s.record.value.phase in {Failed, Succeeded, Conflict} && !s.committing
    case UnlinkDraft => Cleaning(s) && s.stage.Some?
    case UnlinkReplacement => Cleaning(s) && s.stage.Some?
    case RemoveStage => Cleaning(s) && s.stage == Some(Stage(None, None))
    case SaveCleaned => Cleaning(s) && s.stage.None?
  }

  predicate Judging(s: State) {
    InPhase(s, Unknown) && !s.committing && s.looked.Some? && s.stage.Some? && s.stage.value.replacement.Some?
  }

  function At(s: State, p: Phase): State
    requires s.record.Some?
  {
    s.(record := Some(s.record.value.(phase := p)))
  }

  /** After a failure before publication: retained says whether a recovery folder exists. */
  function Unpublished(s: State): State
    requires s.record.Some?
  {
    s.(record := Some(s.record.value.(phase := Failed, retained := s.stage.Some?)), committing := false)
  }

  function Judged(s: State, p: Phase): State
    requires Judging(s)
  {
    At(s, p).(verdict := Some((s.looked.value, s.stage.value.replacement.value)), looked := None)
  }

  ghost function Apply(q: Request, s: State, a: Action): State
    requires Enabled(q, s, a)
  {
    match a
    case Replace(file) => s.(target := file)
    case Rewrite(id, _, _) =>
      s.(target := Rewritten(s.target, a),
         stage := if s.stage.Some? then Some(s.stage.value.(replacement := Rewritten(s.stage.value.replacement, a))) else None)
    case SaveRecord => s.(record := Some(Record(Preparing, true, false)), committing := true)
    case MakeStage => s.(stage := Some(Stage(None, None)))
    case WriteDraft(part) => s.(stage := Some(s.stage.value.(draft := Some(part))))
    case WriteReplacement(part, meta) => s.(stage := Some(s.stage.value.(replacement := Some(File(OURS, part, meta)))))
    case Check => s.(checked := true)
    case SaveUnknown => At(s, Unknown)
    case Exchange =>
      s.(target := s.stage.value.replacement, stage := Some(s.stage.value.(replacement := s.target)),
         committing := false, exchanged := true, displaced := Some(s.target.value.id))
    case GiveUp => Unpublished(s)
    case Stop => s.(committing := false, checked := false, looked := None)
    case Look => s.(looked := s.target)
    case SettleFailed => Unpublished(s)
    case SettleUnpublished => Judged(s, Failed)
    case SettleConflict => Judged(s, Conflict)
    case SettleSucceeded => Judged(s, Succeeded)
    case Resolve => s.(record := Some(s.record.value.(resolved := true)))
    case UnlinkDraft => s.(stage := Some(s.stage.value.(draft := None)))
    case UnlinkReplacement => s.(stage := Some(s.stage.value.(replacement := None)))
    case RemoveStage => s.(stage := None)
    case SaveCleaned => s.(record := Some(s.record.value.(retained := false)))
  }

  ghost function Next(q: Request, s: State, a: Action): Option<State> {
    if Enabled(q, s, a) then Some(Apply(q, s, a)) else None
  }

  function Initial(target: Option<File>): State {
    State(target, None, None, false, false, None, false, None, None)
  }

  // ---- the invariant ----

  ghost predicate BothKept(q: Request, s: State) {
    && s.stage.Some? && s.stage.value.draft == Some(q.text)
    && s.stage.value.replacement.Some? && s.displaced == Some(s.stage.value.replacement.value.id)
  }

  ghost predicate Inv(q: Request, s: State) {
    && (s.target.Some? && s.target.value.id == OURS ==> s.exchanged)
    && (s.looked.Some? ==> InPhase(s, Unknown) && (s.looked.value.id == OURS ==> s.exchanged))
    && (s.exchanged ==> !s.committing && s.displaced.Some? && s.displaced.value != OURS && s.record.Some?)
    && (!s.exchanged ==> (s.stage.Some? && s.stage.value.replacement.Some? ==> s.stage.value.replacement.value.id == OURS))
    && (s.exchanged && !s.record.value.resolved ==> BothKept(q, s))
    && match s.record
       case None => s.stage.None? && !s.exchanged && !s.committing
       case Some(r) =>
         && (!r.retained ==> s.stage.None?)
         && (r.resolved ==> r.phase in {Failed, Succeeded, Conflict} && !s.committing)
         && match r.phase
            case Preparing => !s.exchanged && r.retained
            case Unknown => r.retained && (!s.exchanged ==> Ready(q, s))
            case Failed => !s.exchanged && !s.committing
            case Succeeded => s.exchanged && SoundVerdict(q, s) && IsExpected(q, s.verdict.value.1)
            case Conflict => s.exchanged && SoundVerdict(q, s) && !IsExpected(q, s.verdict.value.1)
  }

  /** The outcome was judged on our object with the submitted text at the file's name, and on the displaced object. */
  ghost predicate SoundVerdict(q: Request, s: State) {
    && s.verdict.Some? && OursIntact(q, s.verdict.value.0)
    && s.displaced == Some(s.verdict.value.1.id)
  }

  lemma InvKept(q: Request, s: State, a: Action)
    requires Inv(q, s) && Next(q, s, a).Some?
    ensures Inv(q, Next(q, s, a).value)
  {
  }

  // ---- runs ----

  ghost predicate Legal(q: Request, target: Option<File>, log: seq<Action>)
    decreases |log|, 0
  {
    if log == [] then target.Some? ==> target.value.id != OURS
    else Legal(q, target, log[..|log| - 1]) && Enabled(q, Run(q, target, log[..|log| - 1]), log[|log| - 1])
  }

  ghost function Run(q: Request, target: Option<File>, log: seq<Action>): State
    requires Legal(q, target, log)
    decreases |log|, 1
  {
    if log == [] then Initial(target) else Apply(q, Run(q, target, log[..|log| - 1]), log[|log| - 1])
  }

  lemma {:induction false} RunKeepsInv(q: Request, target: Option<File>, log: seq<Action>)
    requires Legal(q, target, log)
    ensures Inv(q, Run(q, target, log))
  {
    if log != [] {
      RunKeepsInv(q, target, log[..|log| - 1]);
      InvKept(q, Run(q, target, log[..|log| - 1]), log[|log| - 1]);
    }
  }

  function Exchanges(log: seq<Action>): nat {
    if log == [] then 0 else Exchanges(log[..|log| - 1]) + (if log[|log| - 1].Exchange? then 1 else 0)
  }

  lemma ExchangeIsFirst(q: Request, s: State, a: Action)
    requires Inv(q, s) && Enabled(q, s, a)
    ensures Apply(q, s, a).exchanged == (s.exchanged || a.Exchange?)
    ensures a.Exchange? ==> !s.exchanged
  {
  }

  /** The file is exchanged at most once, whatever is retried. */
  lemma {:induction false} ExchangedAtMostOnce(q: Request, target: Option<File>, log: seq<Action>)
    requires Legal(q, target, log)
    ensures Exchanges(log) == (if Run(q, target, log).exchanged then 1 else 0)
  {
    if log != [] {
      var front := log[..|log| - 1];
      ExchangedAtMostOnce(q, target, front);
      RunKeepsInv(q, target, front);
      ExchangeIsFirst(q, Run(q, target, front), log[|log| - 1]);
    }
  }

  /** From the exchange until an explicit cleanup both texts are kept: the submitted draft, and the object that was
      displaced, even if another program put it there between the last check and the exchange. */
  lemma NoTextIsLost(q: Request, target: Option<File>, log: seq<Action>)
    requires Legal(q, target, log) && Run(q, target, log).exchanged
    requires var s := Run(q, target, log); s.record.Some? ==> !s.record.value.resolved
    ensures var s := Run(q, target, log);
      && s.stage.Some? && s.stage.value.draft == Some(q.text)
      && s.stage.value.replacement.Some? && s.displaced == Some(s.stage.value.replacement.value.id)
      && s.displaced != Some(OURS)
  {
    RunKeepsInv(q, target, log);
  }

  /** "succeeded" means that the exchange happened, that the file's name was seen to hold the published object with the
      submitted text, and that the displaced copy was the very file the save expected; "conflict" means the
      same with some other displaced file; "failed" means that the file was never exchanged. */
  lemma OutcomesAreSound(q: Request, target: Option<File>, log: seq<Action>)
    requires Legal(q, target, log) && Run(q, target, log).record.Some?
    ensures var s := Run(q, target, log);
      && (InPhase(s, Succeeded) ==> s.exchanged && SoundVerdict(q, s) && s.verdict.value.1 == q.expected)
      && (InPhase(s, Conflict) ==> s.exchanged && SoundVerdict(q, s) && s.verdict.value.1 != q.expected)
      && (InPhase(s, Failed) ==> !s.exchanged && (s.target.Some? ==> s.target.value.id != OURS))
  {
    RunKeepsInv(q, target, log);
  }

  /** When an unresolved save is looked at, the outcome it can be given is fixed by what happened: published text over
      the expected file succeeds, published text over any other file conflicts, and an untouched expected file with
      our replacement still beside it failed. Anything else stays unresolved. */
  lemma VerdictIsExact(q: Request, target: Option<File>, log: seq<Action>)
    requires Legal(q, target, log) && Judging(Run(q, target, log))
    ensures var s := Run(q, target, log); Enabled(q, s, SettleSucceeded) <==>
      s.exchanged && OursIntact(q, s.looked.value) && s.stage.value.replacement.value == q.expected
    ensures var s := Run(q, target, log); Enabled(q, s, SettleConflict) <==>
      s.exchanged && OursIntact(q, s.looked.value) && s.stage.value.replacement.value != q.expected
    ensures var s := Run(q, target, log); Enabled(q, s, SettleUnpublished) <==>
      !s.exchanged && s.looked.value == q.expected
  {
    RunKeepsInv(q, target, log);
    ExpectedIsNotOurs(q, target, log);
  }

  lemma {:induction false} ExpectedIsNotOurs(q: Request, target: Option<File>, log: seq<Action>)
    requires Legal(q, target, log) && Run(q, target, log).record.Some?
    ensures q.expected.id != OURS
  {
    if !log[|log| - 1].SaveRecord? {
      ExpectedIsNotOurs(q, target, log[..|log| - 1]);
    }
  }

  /** Nothing is unlinked before the owner has resolved the outcome, and a file being published is never unlinked. */
  lemma CleanupIsExplicit(q: Request, target: Option<File>, log: seq<Action>, a: Action)
    requires Legal(q, target, log) && Enabled(q, Run(q, target, log), a)
    requires a.UnlinkDraft? || a.UnlinkReplacement? || a.RemoveStage?
    ensures var s := Run(q, target, log);
      && s.record.Some? && s.record.value.resolved && s.record.value.phase !in {Preparing, Unknown}
      && Apply(q, s, a).target == s.target
      && (a.UnlinkReplacement? && s.stage.value.replacement.Some? && !s.exchanged ==> s.stage.value.replacement.value.id == OURS)
  {
    RunKeepsInv(q, target, log);
  }

  // ---- runs as the methods see them ----

  ghost predicate IsRun(q: Request, target: Option<File>, log: seq<Action>, s: State) {
    forall k {:trigger Show(k)} :: Show(k) ==> Legal(q, target, log) && Run(q, target, log) == s
  }

  lemma RunStep(q: Request, target: Option<File>, log: seq<Action>, s: State, a: Action)
    requires IsRun(q, target, log, s) && Next(q, s, a).Some?
    ensures IsRun(q, target, log + [a], Next(q, s, a).value)
  {
    assert Show(0);
    assert (log + [a])[..|log|] == log;
  }

  lemma RunFacts(q: Request, target: Option<File>, log: seq<Action>, s: State)
    requires IsRun(q, target, log, s)
    ensures Inv(q, s)
  {
    assert Show(0);
    RunKeepsInv(q, target, log);
  }
}
