/** Inventory over several kinds of workload, each listed by a server that chooses its own page sizes. */
module KubernetesPages {
  import opened Base

  const PAGE := 64

  type Row = nat

  /** The server's answer: some next rows, and whether there is a continuation token; tokens name a position. */
  datatype Answer = Answer(items: seq<Row>, next: Option<nat>)

  datatype Inventory = Inventory(results: seq<Row>, nextOffset: Option<nat>)

  function All(lists: seq<seq<Row>>): seq<Row> {
    if lists == [] then [] else All(lists[..|lists| - 1]) + lists[|lists| - 1]
  }

  /** An answer of an unchanged list at a position: the rows that follow, at most `limit`, and a token naming where
      they end exactly when more follow. */
  predicate Honest(list: seq<Row>, at: nat, limit: nat, a: Answer) {
    && at + |a.items| <= |list| && |a.items| <= limit && a.items == list[at..at + |a.items|]
    && a.next == (if at + |a.items| < |list| then Some(at + |a.items|) else None)
  }

  /** The honest answer of a server that would like to send `size` rows. */
  method Ask(list: seq<Row>, at: nat, limit: nat, size: nat) returns (a: Answer)
    requires at <= |list|
    ensures Honest(list, at, limit, a) && |a.items| == Min(size, Min(limit, |list| - at))
  {
    var count := Min(size, Min(limit, |list| - at));
    a := Answer(list[at..at + count], if at + count < |list| then Some(at + count) else None);
  }

  /** How many rows the server would like to send for one kind, position and limit. */
  type Paging = (nat, nat, nat) -> nat

  /** A server whose pages always advance. */
  ghost predicate Advances(size: Paging) {
    forall k, at, limit :: size(k, at, limit) > 0
  }

  /** The requested slice of everything listed, in order of kind, however the server pages; None only when the server
      returned an empty page with a token, which does not advance. */
  method List(lists: seq<seq<Row>>, offset: nat, limit: nat, size: Paging) returns (r: Option<Inventory>)
    ensures Advances(size) ==> r.Some?
    ensures r.Some? ==> r.value == Slice(All(lists), offset, limit)
  {
    var rows: seq<Row>, needed := [], offset + limit + 1;
    for k := 0 to |lists|
      invariant rows == Start(All(lists[..k]), needed)
    {
      StartGrows(lists, k, needed);
      if |rows| >= needed {
        break;
      }
      var more := Fetch(lists[k], k, rows, needed, size);
      if more.None? { return None; }
      rows := more.value;
    }
    assert lists[..|lists|] == lists;
    SliceOfStart(All(lists), offset, limit);
    var results := rows[Min(offset, |rows|)..Min(offset + limit, |rows|)];
    var more := |rows| > offset + limit;
    r := Some(Inventory(results, if more then Some(offset + |results|) else None));
  }

  /** One kind, page by page, until enough rows are known. */
  method Fetch(list: seq<Row>, kind: nat, rows: seq<Row>, needed: nat, size: Paging) returns (r: Option<seq<Row>>)
    requires |rows| < needed
    ensures Advances(size) ==> r.Some?
    ensures r.Some? ==> r.value == Start(rows + list, needed)
  {
    var at, more := 0, rows;
    while |more| < needed
      invariant at <= |list| && more == rows + list[..at] && |more| <= needed
      decreases |list| - at
    {
      var limit: nat := Min(PAGE, needed - |more|);
      var page := Ask(list, at, limit, size(kind, at, limit));
      more := more + page.items;
      assert list[..at] + page.items == list[..at + |page.items|];
      at := at + |page.items|;
      if page.next.None? {
        assert list[..at] == list;
        assert Start(rows + list, needed) == rows + list;
        return Some(more);
      }
      if page.items == [] { return None; }
    }
    assert Start(rows + list, needed) == more;
    return Some(more);
  }

  function Start(all: seq<Row>, n: nat): seq<Row> { all[..Min(n, |all|)] }

  lemma {:induction false} StartGrows(lists: seq<seq<Row>>, k: nat, needed: nat)
    requires k < |lists|
    ensures All(lists[..k + 1]) == All(lists[..k]) + lists[k]
    ensures |All(lists[..k])| >= needed ==> Start(All(lists), needed) == Start(All(lists[..k]), needed)
    ensures |All(lists[..k])| < needed ==>
      Start(Start(All(lists[..k]), needed) + lists[k], needed) == Start(All(lists[..k + 1]), needed)
  {
    assert lists[..k + 1][..k] == lists[..k];
    AllPrefix(lists, k);
  }

  lemma {:induction false} AllPrefix(lists: seq<seq<Row>>, k: nat)
    requires k <= |lists|
    ensures All(lists[..k]) <= All(lists)
  {
    if k == |lists| {
      assert lists[..k] == lists;
    } else {
      AllPrefix(lists[..|lists| - 1], k);
      assert lists[..|lists| - 1][..k] == lists[..k];
    }
  }

  /** The slice a caller asked for, and where the next one starts when there is one. */
  function Slice(all: seq<Row>, offset: nat, limit: nat): Inventory {
    var from, to := Min(offset, |all|), Min(offset + limit, |all|);
    Inventory(all[from..to], if |all| > offset + limit then Some(offset + limit) else None)
  }

  lemma SliceOfStart(all: seq<Row>, offset: nat, limit: nat)
    ensures var rows := Start(all, offset + limit + 1);
      && rows[Min(offset, |rows|)..Min(offset + limit, |rows|)] == all[Min(offset, |all|)..Min(offset + limit, |all|)]
      && (|rows| > offset + limit <==> |all| > offset + limit)
      && (|rows| > offset + limit ==> |rows[offset..offset + limit]| == limit)
  {
  }

  /** Following the offsets of an unchanged cluster shows every row once, in order: each page continues where the last
      one ended, and the last page reaches the end. */
  lemma PagesTile(all: seq<Row>, offset: nat, limit: nat)
    requires offset <= |all| && limit > 0
    ensures var p := Slice(all, offset, limit);
      && all[..offset] + p.results == all[..offset + |p.results|]
      && (p.nextOffset == if offset + |p.results| < |all| then Some(offset + |p.results|) else None)
      && (p.nextOffset.Some? ==> |p.results| == limit)
  {
  }
}
