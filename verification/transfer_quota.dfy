/** Admission of transfers against the retained-partial quota, over a whole namespace of transfers. */
module TransferQuota {
  import opened Base
  import opened TransferChunks
  import opened TransferModel

  const MAX_FILE := 0x7FFF_FFFF_FFFF_FFFF
  const MAX_RETAINED := 64

  /** A record whose staged bytes may still occupy the destination filesystem. */
  predicate Counts(r: Record) {
    !Terminal(r.state) || r.cleanupPending || (r.download && r.state == Succeeded)
  }

  function ExpectedSize(expected: Option<Identity>): nat {
    if expected.Some? then expected.value.size else 0
  }

  function Weight(r: Record): nat { r.size + ExpectedSize(r.expected) }

  /** How many records are not finished, still to be cleaned up, or prepared downloads. */
  function Retained(records: seq<Record>): nat {
    if records == [] then 0
    else
      var r := records[|records| - 1];
      var held := r.state !in {Succeeded, Cancelled} || (r.state == Succeeded && r.download) || r.cleanupPending;
      Retained(records[..|records| - 1]) + (if held then 1 else 0)
  }

  /** Their sizes, with the sizes of the files they replace. */
  function Reserved(records: seq<Record>): nat {
    if records == [] then 0
    else
      var r := records[|records| - 1];
      var held := r.state !in {Succeeded, Cancelled} || (r.state == Succeeded && r.download) || r.cleanupPending;
      var replaced := match r.expected case Some(i) => i.size case None => 0;
      Reserved(records[..|records| - 1]) + (if held then r.size + replaced else 0)
  }

  datatype Request = Request(
    size: int, expected: Option<Identity>, source: Option<Manifest>, download: bool,
    quota: Option<int>, margin: int, readOnly: bool)

  /** Within the limits one request names. */
  predicate Within(count: nat, reserved: nat, q: Request) {
    count < MAX_RETAINED
    && (q.quota.Some? ==> reserved + q.size + ExpectedSize(q.expected) <= q.quota.value)
  }

  /** The scan over every saved record. */
  method Scan(records: seq<Record>) returns (count: nat, reserved: nat)
    ensures count == Retained(records) && reserved == Reserved(records)
  {
    count, reserved := 0, 0;
    for i := 0 to |records|
      invariant count == Retained(records[..i]) && reserved == Reserved(records[..i])
    {
      assert records[..i + 1][..i] == records[..i];
      if Counts(records[i]) {
        count, reserved := count + 1, reserved + Weight(records[i]);
      }
    }
    assert records[..|records|] == records;
  }

  /** What an admitted request must repeat to be taken as a retry. */
  predicate Repeats(r: Record, q: Request) {
    r.size == q.size && r.expected == q.expected && r.source == q.source && r.download == q.download
  }

  /** Admission of one transfer; `free` is the space the filesystem reports. */
  method Begin(previous: Option<Record>, records: seq<Record>, q: Request, destination: Option<Identity>, free: int)
    returns (r: Reply, record: Option<Record>)
    ensures r == Done <==>
      (0 <= q.size <= MAX_FILE
       && if previous.Some?
          then previous.value.size == q.size && previous.value.expected == q.expected
               && previous.value.source == q.source && previous.value.download == q.download
          else (q.quota.Some? ==> q.quota.value >= 0) && q.margin >= 0 && !q.readOnly
               && Retained(records) < MAX_RETAINED
               && (q.quota.Some? ==> Reserved(records + [FreshRecord(q.size, q.expected, q.source, q.download)]) <= q.quota.value)
               && free >= q.size + JournalBytes(q.size) + q.margin
               && destination == q.expected && (destination.Some? ==> destination.value.regular))
    ensures r == Done && previous.Some? ==> record == previous
    ensures r == Done && previous.None? ==>
      record == Some(FreshRecord(q.size, destination, q.source, q.download))
      && Retained(records + [record.value]) <= MAX_RETAINED
      && (q.quota.Some? ==> Reserved(records + [record.value]) <= q.quota.value)
    ensures r != Done ==> r.Refused? && record.None?
    ensures r == Refused("idempotency_conflict") <==> (0 <= q.size <= MAX_FILE && previous.Some? && !Repeats(previous.value, q))
  {
    record := None;
    if q.size >= 0 {
      assert (records + [FreshRecord(q.size, q.expected, q.source, q.download)])[..|records|] == records;
    }
    if !(0 <= q.size <= MAX_FILE) { return Refused("file_limit"), None; }
    if previous.Some? {
      if !Repeats(previous.value, q) { return Refused("idempotency_conflict"), None; }
      return Done, previous;
    }
    var count, reserved := Scan(records);
    if (q.quota.Some? && q.quota.value < 0) || q.margin < 0 { return Refused("invalid_limits"), None; }
    if count >= MAX_RETAINED || (q.quota.Some? && reserved + q.size + ExpectedSize(q.expected) > q.quota.value) {
      return Refused("capacity"), None;
    }
    if q.readOnly { return Refused("read_only"), None; }
    if free < q.size + JournalBytes(q.size) + q.margin { return Refused("disk_capacity"), None; }
    if destination != q.expected || (destination.Some? && !destination.value.regular) {
      return Refused("destination_changed"), None;
    }
    var admitted := FreshRecord(q.size, destination, q.source, q.download);
    assert (records + [admitted])[..|records|] == records;
    return Done, Some(admitted);
  }

  /** No durable write of a transfer changes what it weighs, and none makes it count again. */
  lemma NeverCountsAgain(s: State, a: Action)
    requires Inv(s) && Enabled(s, a) && s.record.Some?
    ensures Apply(s, a).record.Some?
    ensures Weight(Apply(s, a).record.value) == Weight(s.record.value)
    ensures Counts(Apply(s, a).record.value) ==> Counts(s.record.value)
  {
  }

  // ---- the namespace: many transfers, each taking its own steps, and admissions between them ----

  datatype Event =
    | Admit(request: Request, dest: Option<Object>)
    | Step(index: nat, action: Action)

  function Records(all: seq<State>): (r: seq<Record>)
    requires forall s :: s in all ==> s.record.Some?
    ensures |r| == |all| && forall i :: 0 <= i < |all| ==> r[i] == all[i].record.value
  {
    seq(|all|, i requires 0 <= i < |all| => all[i].record.value)
  }

  ghost predicate Good(all: seq<State>) {
    forall s :: s in all ==> s.record.Some? && Inv(s)
  }

  ghost predicate Allowed(all: seq<State>, e: Event)
    requires Good(all)
  {
    match e
    case Admit(q, dest) =>
      && q.size >= 0 && Within(Retained(Records(all)), Reserved(Records(all)), q)
      && DestinationIdentity(Empty.(dest := dest)) == q.expected
      && Enabled(Empty.(dest := dest), Action.Begin(q.size, q.source, q.download))
    case Step(i, a) => i < |all| && Enabled(all[i], a)
  }

  ghost function After(all: seq<State>, e: Event): (r: seq<State>)
    requires Good(all) && Allowed(all, e)
    ensures Good(r)
  {
    match e
    case Admit(q, dest) =>
      var s := Empty.(dest := dest);
      InvKept(s, Action.Begin(q.size, q.source, q.download));
      all + [Apply(s, Action.Begin(q.size, q.source, q.download))]
    case Step(i, a) =>
      InvKept(all[i], a);
      NeverCountsAgain(all[i], a);
      all[i := Apply(all[i], a)]
  }

  ghost predicate Possible(all: seq<State>, events: seq<Event>)
    requires Good(all)
    decreases |events|
  {
    events == [] || (Allowed(all, events[0]) && Possible(After(all, events[0]), events[1..]))
  }

  ghost function Final(all: seq<State>, events: seq<Event>): (r: seq<State>)
    requires Good(all) && Possible(all, events)
    ensures Good(r)
    decreases |events|
  {
    if events == [] then all else Final(After(all, events[0]), events[1..])
  }

  lemma {:induction false} LighterRecord(records: seq<Record>, i: nat, r: Record)
    requires i < |records| && Weight(r) == Weight(records[i]) && (Counts(r) ==> Counts(records[i]))
    ensures Retained(records[i := r]) <= Retained(records)
    ensures Reserved(records[i := r]) <= Reserved(records)
    decreases |records|
  {
    var n := |records| - 1;
    if i == n {
      assert records[i := r][..n] == records[..n];
    } else {
      LighterRecord(records[..n], i, r);
      assert records[i := r][..n] == records[..n][i := r];
    }
  }

  /** No request other than an admission, no retry and no crash raises what is retained or reserved. */
  lemma OnlyAdmissionRaises(all: seq<State>, i: nat, a: Action)
    requires Good(all) && Allowed(all, Step(i, a))
    ensures Retained(Records(After(all, Step(i, a)))) <= Retained(Records(all))
    ensures Reserved(Records(After(all, Step(i, a)))) <= Reserved(Records(all))
  {
    var after := After(all, Step(i, a));
    NeverCountsAgain(all[i], a);
    LighterRecord(Records(all), i, after[i].record.value);
    assert Records(after) == Records(all)[i := after[i].record.value];
  }

  /** An admission leaves at most 64 retained transfers, within the quota its own request named. */
  lemma AdmissionFits(all: seq<State>, q: Request, dest: Option<Object>)
    requires Good(all) && Allowed(all, Admit(q, dest))
    ensures Retained(Records(After(all, Admit(q, dest)))) <= MAX_RETAINED
    ensures q.quota.Some? ==> Reserved(Records(After(all, Admit(q, dest)))) <= q.quota.value
  {
    var after := After(all, Admit(q, dest));
    assert Records(after)[..|all|] == Records(all);
  }

  /** Over every run: never more than 64 retained, and never more bytes than the largest quota admitted under. */
  lemma {:induction false} QuotaHolds(all: seq<State>, events: seq<Event>, limit: nat)
    requires Good(all) && Possible(all, events)
    requires Retained(Records(all)) <= MAX_RETAINED && Reserved(Records(all)) <= limit
    requires forall e :: e in events && e.Admit? ==> e.request.quota.Some? && e.request.quota.value <= limit
    ensures Retained(Records(Final(all, events))) <= MAX_RETAINED
    ensures Reserved(Records(Final(all, events))) <= limit
    decreases |events|
  {
    if events != [] {
      var e := events[0];
      if e.Admit? {
        AdmissionFits(all, e.request, e.dest);
      } else {
        OnlyAdmissionRaises(all, e.index, e.action);
      }
      QuotaHolds(After(all, events[0]), events[1..], limit);
    }
  }
}
