/** Pages of audit history: which rows and retention gaps one batch carries, and what makes a batch acceptable. */
module AuditPages {
  import opened Base

  const PAGE := 64
  const BATCH_EVENTS := 128
  const LIMIT: nat := 0x8000_0000_0000_0000
  const MAX_BATCH := 65536

  datatype Event = Row(id: nat, content: nat) | Gap(first: nat, last: nat) | Intent(request: nat) | Stream

  /** The version and stream identity of a batch never change and are left out. */
  datatype Batch = Batch(sequence: nat, after: nat, through: nat, events: seq<Event>)

  function Later(rows: map<nat, nat>, after: nat): set<nat> {
    set id | id in rows && id > after
  }

  /** The rows one page selects. */
  function Selected(rows: map<nat, nat>, after: nat): seq<nat> {
    Smallest(Later(rows, after), PAGE)
  }

  /** The selection is the first rows after the cursor, none left out. */
  lemma SelectedRows(rows: map<nat, nat>, after: nat)
    ensures var ids := Selected(rows, after);
      && |ids| <= PAGE && Ascending(ids, after)
      && (forall id :: id in rows && after < id <= Through(ids, after) ==> id in ids)
  {
    SmallestFirst(Later(rows, after), PAGE);
    var ids := Selected(rows, after);
    forall id | id in rows && after < id <= Through(ids, after) ensures id in ids {
      assert id in Later(rows, after);
    }
  }

  function Through(ids: seq<nat>, after: nat): nat {
    if ids == [] then after else ids[|ids| - 1]
  }

  predicate Ascending(ids: seq<nat>, after: nat) {
    && (forall i :: 0 <= i < |ids| ==> ids[i] > after)
    && (forall i, j :: 0 <= i < j < |ids| ==> ids[i] < ids[j])
  }

  /** The entries of a page over the given rows: each row, and the run of missing identities before it. */
  function Entries(rows: map<nat, nat>, ids: seq<nat>, after: nat): seq<Event>
    requires forall i :: 0 <= i < |ids| ==> ids[i] in rows
  {
    if ids == [] then []
    else
      var front, id := ids[..|ids| - 1], ids[|ids| - 1];
      var from := Through(front, after);
      Entries(rows, front, after) + (if id > from + 1 then [Gap(from + 1, id - 1)] else []) + [Row(id, rows[id])]
  }

  lemma EntriesSnoc(rows: map<nat, nat>, ids: seq<nat>, id: nat, after: nat)
    requires id in rows && forall i :: 0 <= i < |ids| ==> ids[i] in rows
    ensures var from := Through(ids, after);
      Entries(rows, ids + [id], after)
      == Entries(rows, ids, after) + (if id > from + 1 then [Gap(from + 1, id - 1)] else []) + [Row(id, rows[id])]
  {
    assert (ids + [id])[..|ids + [id]| - 1] == ids;
  }

  /** One reading of the audit table: the highest identity, where the page ends, and its entries. */
  method Page(rows: map<nat, nat>, cursor: nat) returns (last: nat, through: nat, events: seq<Event>)
    ensures last == Last(rows)
    ensures through == Through(Selected(rows, cursor), cursor)
    ensures events == Entries(rows, Selected(rows, cursor), cursor)
  {
    last := Last(rows);
    through, events := Fill(rows, Selected(rows, cursor), cursor);
  }

  method Fill(rows: map<nat, nat>, ids: seq<nat>, after: nat) returns (cursor: nat, events: seq<Event>)
    requires forall i :: 0 <= i < |ids| ==> ids[i] in rows
    ensures cursor == Through(ids, after) && events == Entries(rows, ids, after)
  {
    events, cursor := [], after;
    for i := 0 to |ids|
      invariant cursor == Through(ids[..i], after) && events == Entries(rows, ids[..i], after)
    {
      EntriesSnoc(rows, ids[..i], ids[i], after);
      assert ids[..i + 1] == ids[..i] + [ids[i]];
      var number := ids[i];
      if number > cursor + 1 {
        events := events + [Gap(cursor + 1, number - 1)];
      }
      events := events + [Row(number, rows[number])];
      cursor := number;
    }
    assert ids[..|ids|] == ids;
  }

  /** The highest identity in the table, 0 when it is empty. */
  function Last(rows: map<nat, nat>): (r: nat)
    ensures r == 0 || r in rows
    ensures forall id :: id in rows ==> id <= r
  {
    if rows == map[] then 0
    else
      assert rows.Keys != {};
      GreatestExists(rows.Keys);
      var last :| last in rows.Keys && forall k :: k in rows.Keys ==> k <= last;
      last
  }

  lemma GreatestExists(all: set<nat>)
    requires all != {}
    ensures exists most :: most in all && forall k :: k in all ==> k <= most
  {
    var one :| one in all;
    var others := all - {one};
    if others == {} {
      assert all == {one};
    } else {
      GreatestExists(others);
      var most :| most in others && forall k :: k in others ==> k <= most;
      var max: nat := if one >= most then one else most;
      forall k | k in all ensures k <= max {
        assert k == one || k in others;
      }
    }
  }

  // ---- an independent account of a page ----

  /** Entries in order, without overlap, covering exactly the identities in (after, through]. */
  predicate Tiles(events: seq<Event>, after: nat, through: nat) {
    if events == [] then after == through
    else
      var front := events[..|events| - 1];
      match events[|events| - 1]
      case Row(id, _) => after < id == through && Tiles(front, after, id - 1)
      case Gap(first, last) => after < first <= last == through && Tiles(front, after, first - 1)
      case Intent(_) => false
      case Stream => false
  }

  predicate Mentions(e: Event, id: nat) {
    match e
    case Row(number, _) => number == id
    case Gap(first, last) => first <= id <= last
    case Intent(_) => false
    case Stream => false
  }

  /** Each identity in (after, through] is mentioned by exactly one entry, and no other identity is. */
  lemma {:induction false} TilesMentionsOnce(events: seq<Event>, after: nat, through: nat, id: nat)
    requires Tiles(events, after, through)
    ensures after <= through
    ensures after < id <= through ==> exists i :: 0 <= i < |events| && Mentions(events[i], id)
    ensures forall i, j :: 0 <= i < j < |events| ==> !(Mentions(events[i], id) && Mentions(events[j], id))
    ensures forall i :: 0 <= i < |events| && Mentions(events[i], id) ==> after < id <= through
  {
    if events != [] {
      var front, e := events[..|events| - 1], events[|events| - 1];
      var from := (if e.Row? then e.id else e.first) - 1;
      TilesMentionsOnce(front, after, from, id);
      if after < id <= from {
        var i :| 0 <= i < |front| && Mentions(front[i], id);
        assert Mentions(events[i], id);
      } else if from < id <= through {
        assert Mentions(events[|events| - 1], id);
      }
      forall i | 0 <= i < |events| && Mentions(events[i], id) ensures after < id <= through {
        assert i < |front| ==> front[i] == events[i];
      }
      forall i, j | 0 <= i < j < |events| ensures !(Mentions(events[i], id) && Mentions(events[j], id)) {
        assert front[i] == events[i];
        assert j < |front| ==> front[j] == events[j];
      }
    }
  }

  function RowCount(events: seq<Event>): nat {
    if events == [] then 0 else RowCount(events[..|events| - 1]) + (if events[|events| - 1].Row? then 1 else 0)
  }

  /** Identities the batch reports as lost to retention. */
  function GapCount(events: seq<Event>): nat {
    if events == [] then 0
    else
      var e := events[|events| - 1];
      GapCount(events[..|events| - 1]) + (if e.Gap? && e.first <= e.last then e.last - e.first + 1 else 0)
  }

  /** Rows and gaps together account for every identity the batch moves the cursor over. */
  lemma {:induction false} TilesCount(events: seq<Event>, after: nat, through: nat)
    requires Tiles(events, after, through)
    ensures through == after + RowCount(events) + GapCount(events)
  {
    if events != [] {
      var e := events[|events| - 1];
      TilesCount(events[..|events| - 1], after, (if e.Row? then e.id else e.first) - 1);
    }
  }

  lemma {:induction false} EntriesTile(rows: map<nat, nat>, ids: seq<nat>, after: nat)
    requires Ascending(ids, after) && forall i :: 0 <= i < |ids| ==> ids[i] in rows
    ensures Tiles(Entries(rows, ids, after), after, Through(ids, after))
    ensures |ids| <= |Entries(rows, ids, after)| <= 2 * |ids|
  {
    if ids != [] {
      var front, id := ids[..|ids| - 1], ids[|ids| - 1];
      var from := Through(front, after);
      var before := Entries(rows, front, after);
      EntriesTile(rows, front, after);
      TilesOrder(before, after, from);
      if id > from + 1 {
        TilesSnoc(before, Gap(from + 1, id - 1), after, from, id - 1);
        TilesSnoc(before + [Gap(from + 1, id - 1)], Row(id, rows[id]), after, id - 1, id);
      } else {
        assert before + [] + [Row(id, rows[id])] == before + [Row(id, rows[id])];
        TilesSnoc(before, Row(id, rows[id]), after, from, id);
      }
    }
  }

  lemma TilesSnoc(events: seq<Event>, e: Event, after: nat, from: nat, through: nat)
    requires Tiles(events, after, from) && after <= from < through
    requires e == Gap(from + 1, through) || (e.Row? && e.id == through == from + 1)
    ensures Tiles(events + [e], after, through)
  {
    assert (events + [e])[..|events + [e]| - 1] == events;
  }

  lemma {:induction false} TilesOrder(events: seq<Event>, after: nat, through: nat)
    requires Tiles(events, after, through)
    ensures after <= through
  {
    TilesMentionsOnce(events, after, through, 0);
  }

  lemma {:induction false} EntriesAreRows(rows: map<nat, nat>, ids: seq<nat>, after: nat)
    requires Ascending(ids, after) && forall i :: 0 <= i < |ids| ==> ids[i] in rows
    ensures forall i :: 0 <= i < |ids| ==> Row(ids[i], rows[ids[i]]) in Entries(rows, ids, after)
    ensures forall e :: e in Entries(rows, ids, after) ==> e.Gap? || (e.Row? && e.id in ids && e.content == rows[e.id])
  {
    if ids != [] {
      EntriesAreRows(rows, ids[..|ids| - 1], after);
    }
  }

  /** A page is exact: it reports as an event every retained row up to its end, with that row's content, and
      reports as a gap every identity that is no longer there. */
  lemma PageIsExact(rows: map<nat, nat>, after: nat, id: nat)
    requires after < id <= Through(Selected(rows, after), after)
    ensures var events := Entries(rows, Selected(rows, after), after);
      if id in rows then Row(id, rows[id]) in events
      else exists i :: 0 <= i < |events| && events[i].Gap? && Mentions(events[i], id)
  {
    SelectedRows(rows, after);
    var ids := Selected(rows, after);
    var events := Entries(rows, ids, after);
    EntriesAreRows(rows, ids, after);
    if id in rows {
      assert id in Later(rows, after);
      assert id in ids;
      var k :| 0 <= k < |ids| && ids[k] == id;
    } else {
      EntriesTile(rows, ids, after);
      TilesMentionsOnce(events, after, Through(ids, after), id);
      var i :| 0 <= i < |events| && Mentions(events[i], id);
      assert events[i] in events;
      assert !events[i].Row?;
    }
  }

  // ---- the size of an encoded batch ----

  /** The decimal digits of a number. */
  function Digits(n: nat): nat { if n < 10 then 1 else 1 + Digits(n / 10) }

  lemma {:induction false} DigitsGrow(n: nat, m: nat)
    requires n <= m
    ensures 1 <= Digits(n) <= Digits(m)
  {
    if m >= 10 && n >= 10 { DigitsGrow(n / 10, m / 10); }
    else if m >= 10 { DigitsGrow(0, m / 10); }
  }

  /** Numbers of a batch are below 2^63 and have at most 19 digits. */
  lemma NumberFits(n: nat)
    requires n < LIMIT
    ensures Digits(n) <= 19
  {
    DigitsGrow(n, 9_999_999_999_999_999_999);
    ManyNines();
  }

  lemma ManyNines()
    ensures Digits(9_999_999_999_999_999_999) == 19
  {
    assert Digits(9_999) == 4 by { assert Digits(9) == 1 && Digits(99) == 2 && Digits(999) == 3; }
    assert Digits(99_999_999) == 8 by { assert Digits(99_999) == 5 && Digits(999_999) == 6 && Digits(9_999_999) == 7; }
    assert Digits(999_999_999_999) == 12 by { assert Digits(999_999_999) == 9 && Digits(9_999_999_999) == 10 && Digits(99_999_999_999) == 11; }
    assert Digits(9_999_999_999_999_999) == 16 by {
      assert Digits(9_999_999_999_999) == 13 && Digits(99_999_999_999_999) == 14 && Digits(999_999_999_999_999) == 15;
    }
    assert Digits(99_999_999_999_999_999) == 17 && Digits(999_999_999_999_999_999) == 18;
  }

  /** At most how long an event's JSON text is: names and punctuation, four or five hexadecimal digests of 64 digits, a
      time of up to 24 characters, an action of up to 80, an outcome of up to 10, and its numbers. */
  function EventBytes(e: Event): nat {
    match e
    case Row(id, _) => 584 + Digits(id)
    case Gap(first, last) => 47 + Digits(first) + Digits(last)
    case Intent(_) => 514
    case Stream => 47
  }

  /** The events with the commas between them. */
  function ListBytes(events: seq<Event>): nat {
    if events == [] then 0
    else ListBytes(events[..|events| - 1]) + EventBytes(events[|events| - 1]) + (if |events| == 1 then 0 else 1)
  }

  function BatchBytes(b: Batch): nat {
    104 + Digits(b.sequence) + Digits(b.after) + Digits(b.through) + ListBytes(b.events)
  }

  lemma ListSnoc(events: seq<Event>, e: Event)
    ensures ListBytes(events + [e]) <= ListBytes(events) + EventBytes(e) + 1
  {
    assert (events + [e])[..|events|] == events;
  }

  lemma {:induction false} EntriesBytes(rows: map<nat, nat>, ids: seq<nat>, after: nat)
    requires Ascending(ids, after) && forall i :: 0 <= i < |ids| ==> ids[i] in rows && ids[i] < LIMIT
    ensures ListBytes(Entries(rows, ids, after)) <= 690 * |ids|
  {
    if ids != [] {
      var front, id := ids[..|ids| - 1], ids[|ids| - 1];
      var from := Through(front, after);
      var before := Entries(rows, front, after);
      EntriesBytes(rows, front, after);
      NumberFits(id);
      if id > from + 1 {
        DigitsGrow(from + 1, id);
        DigitsGrow(id - 1, id);
        ListSnoc(before, Gap(from + 1, id - 1));
        ListSnoc(before + [Gap(from + 1, id - 1)], Row(id, rows[id]));
      } else {
        ListSnoc(before, Row(id, rows[id]));
        assert before + [] + [Row(id, rows[id])] == before + [Row(id, rows[id])];
      }
    }
  }

  /** What the acceptance rules of a batch ask for, and what every batch built from a page meets. */
  predicate WellFormed(b: Batch) {
    && b.sequence >= 1 && b.after <= b.through < LIMIT
    && 1 <= |b.events| <= BATCH_EVENTS
    && (b.sequence < LIMIT ==> BatchBytes(b) <= MAX_BATCH)
    && (Tiles(b.events, b.after, b.through)
        || (|b.events| == 1 && (b.events[0].Intent? || b.events[0].Stream?) && b.after == b.through))
  }

  /** WellFormed, kept out of proofs that do not mention Show. */
  ghost predicate Acceptable(b: Batch) {
    forall k {:trigger Show(k)} :: Show(k) ==> WellFormed(b)
  }

  lemma PageFits(rows: map<nat, nat>, sequence: nat, after: nat)
    requires forall id :: id in rows ==> id < LIMIT
    requires after < LIMIT && Selected(rows, after) != []
    ensures WellFormed(Batch(sequence + 1, after, Through(Selected(rows, after), after), Entries(rows, Selected(rows, after), after)))
    ensures Through(Selected(rows, after), after) <= Last(rows)
  {
    SelectedRows(rows, after);
    var ids := Selected(rows, after);
    EntriesTile(rows, ids, after);
    TilesOrder(Entries(rows, ids, after), after, Through(ids, after));
    assert ids[|ids| - 1] in rows;
    EntriesBytes(rows, ids, after);
    BatchFits(Batch(sequence + 1, after, Through(ids, after), Entries(rows, ids, after)));
  }

  lemma BatchFits(b: Batch)
    requires b.after < LIMIT && b.through < LIMIT && ListBytes(b.events) <= 65000
    ensures b.sequence < LIMIT ==> BatchBytes(b) <= MAX_BATCH
  {
    NumberFits(b.after);
    NumberFits(b.through);
    if b.sequence < LIMIT { NumberFits(b.sequence); }
  }

  /** A batch of one admission request, or of the stream's own first event, fits too. */
  lemma SingleFits(sequence: nat, cursor: nat, e: Event)
    requires cursor < LIMIT && (e.Intent? || e.Stream?)
    ensures WellFormed(Batch(sequence + 1, cursor, cursor, [e]))
  {
    ListSnoc([], e);
    assert [] + [e] == [e];
    BatchFits(Batch(sequence + 1, cursor, cursor, [e]));
  }
}
