/** Paging through a directory: the smallest names are kept in a bounded buffer while the directory is scanned in
    whatever order the system gives, and a cursor names the last entry of a page. */
module FileListing {
  import opened Base
  import opened NameCodec

  const DIRECTORY_CAP := 10000
  const RESPONSE_CAP := 524288
  const RESERVED: Bytes := [46, 102, 105, 99, 99, 45]  // .ficc-

  /** Byte order of names. */
  predicate Less(a: Bytes, b: Bytes) {
    b != [] && (a == [] || a[0] < b[0] || (a[0] == b[0] && Less(a[1..], b[1..])))
  }

  lemma {:induction false} LessTransitive(a: Bytes, b: Bytes, c: Bytes)
    requires Less(a, b) && Less(b, c)
    ensures Less(a, c)
  {
    if a != [] && a[0] == b[0] && b[0] == c[0] {
      LessTransitive(a[1..], b[1..], c[1..]);
    }
  }

  lemma {:induction false} LessIsStrict(a: Bytes, b: Bytes)
    ensures !Less(a, a)
    ensures Less(a, b) || Less(b, a) || a == b
    ensures !(Less(a, b) && Less(b, a))
  {
    if a != [] {
      LessIsStrict(a[1..], a[1..]);
      if b != [] && a[0] == b[0] {
        LessIsStrict(a[1..], b[1..]);
        assert a == [a[0]] + a[1..] && b == [b[0]] + b[1..];
      }
    }
  }

  predicate Ascending(names: seq<Bytes>) {
    forall i, j :: 0 <= i < j < |names| ==> Less(names[i], names[j])
  }

  predicate Reserved(name: Bytes) { RESERVED <= name }

  /** The names a page may still show. */
  function Rest(dir: seq<Bytes>, after: Bytes): set<Bytes> {
    set i | 0 <= i < |dir| && !Reserved(dir[i]) && Less(after, dir[i]) :: dir[i]
  }

  function Elements(names: seq<Bytes>): set<Bytes> {
    set i | 0 <= i < |names| :: names[i]
  }

  /** `names` are the smallest of a set, up to a bound: what is left out is larger than all of them. */
  ghost predicate SmallestOf(names: set<Bytes>, all: set<Bytes>, bound: nat) {
    && names <= all && |names| <= bound && (|names| < bound ==> names == all)
    && forall n, q :: n in names && q in all - names ==> Less(n, q)
  }

  /** Sorts a list of distinct names. */
  method Sort(names: seq<Bytes>) returns (sorted: seq<Bytes>)
    requires |Elements(names)| == |names|
    ensures Ascending(sorted) && Elements(sorted) == Elements(names) && |sorted| == |names|
  {
    sorted := [];
    for i := 0 to |names|
      invariant Ascending(sorted) && |sorted| == i && Elements(sorted) == Elements(names[..i])
    {
      DistinctPrefix(names, i);
      sorted := Insert(sorted, names[i]);
      assert Elements(names[..i + 1]) == Elements(names[..i]) + {names[i]};
    }
    assert names[..|names|] == names;
  }

  method Insert(sorted: seq<Bytes>, name: Bytes) returns (more: seq<Bytes>)
    requires Ascending(sorted) && name !in Elements(sorted)
    ensures Ascending(more) && Elements(more) == Elements(sorted) + {name} && |more| == |sorted| + 1
  {
    var i := |sorted|;
    while i > 0 && Less(name, sorted[i - 1])
      invariant 0 <= i <= |sorted| && forall k :: i <= k < |sorted| ==> Less(name, sorted[k])
    {
      i := i - 1;
    }
    more := sorted[..i] + [name] + sorted[i..];
    InsertKeepsOrder(sorted, name, i);
    assert forall k :: 0 <= k < |sorted| ==> more[if k < i then k else k + 1] == sorted[k];
    assert more[i] == name;
  }

  lemma InsertKeepsOrder(sorted: seq<Bytes>, name: Bytes, i: nat)
    requires Ascending(sorted) && name !in Elements(sorted) && i <= |sorted|
    requires forall k :: i <= k < |sorted| ==> Less(name, sorted[k])
    requires i > 0 ==> !Less(name, sorted[i - 1])
    ensures Ascending(sorted[..i] + [name] + sorted[i..])
  {
    forall k | 0 <= k < i ensures Less(sorted[k], name) {
      LessIsStrict(name, sorted[i - 1]);
      assert sorted[i - 1] in Elements(sorted);
      if k < i - 1 { LessTransitive(sorted[k], sorted[i - 1], name); }
    }
  }

  lemma {:induction false} DistinctPrefix(names: seq<Bytes>, i: nat)
    requires |Elements(names)| == |names| && i < |names|
    ensures |Elements(names[..i])| == i && names[i] !in Elements(names[..i])
  {
    var n := |names| - 1;
    ElementsSnoc(names[..n], names[n]);
    assert names[..n] + [names[n]] == names;
    ElementsBound(names[..n]);
    if i < n {
      DistinctPrefix(names[..n], i);
      assert names[..n][..i] == names[..i];
    }
  }

  lemma ElementsSnoc(names: seq<Bytes>, name: Bytes)
    ensures Elements(names + [name]) == Elements(names) + {name}
  {
    assert (names + [name])[|names|] == name;
    assert forall i :: 0 <= i < |names| ==> (names + [name])[i] == names[i];
  }

  lemma {:induction false} ElementsBound(names: seq<Bytes>)
    ensures |Elements(names)| <= |names|
  {
    if names != [] {
      var n := |names| - 1;
      ElementsBound(names[..n]);
      ElementsSnoc(names[..n], names[n]);
      assert names[..n] + [names[n]] == names;
    }
  }

  /** One scan of the directory: the smallest `limit + 1` names after the cursor, sorted. */
  method Scan(dir: seq<Bytes>, after: Bytes, limit: nat) returns (names: seq<Bytes>)
    requires |Elements(dir)| == |dir|
    ensures Ascending(names) && SmallestOf(Elements(names), Rest(dir, after), limit + 1) && |Elements(names)| == |names|
  {
    names := [];
    for i := 0 to |dir|
      invariant |Elements(names)| == |names| && SmallestOf(Elements(names), Rest(dir[..i], after), limit + 1)
    {
      DistinctPrefix(dir, i);
      RestSnoc(dir, i, after);
      if !Reserved(dir[i]) && Less(after, dir[i]) {
        RestInside(dir[..i], after);
        names := Admit(names, dir[i], limit, Rest(dir[..i], after));
      }
    }
    assert dir[..|dir|] == dir;
    names := Sort(names);
  }

  /** One more name in the buffer; the largest leaves when the buffer overflows. */
  method Admit(names: seq<Bytes>, name: Bytes, limit: nat, ghost all: set<Bytes>) returns (more: seq<Bytes>)
    requires |Elements(names)| == |names| && SmallestOf(Elements(names), all, limit + 1) && name !in all
    ensures |Elements(more)| == |more| && SmallestOf(Elements(more), all + {name}, limit + 1)
  {
    ElementsSnoc(names, name);
    more := names + [name];
    if |more| > limit + 1 {
      more := Sort(more);
      more := DropLast(more);
      KeepSmallest(Elements(names), all, name, Elements(more), limit + 1);
    } else {
      assert Elements(names) == all;
    }
  }

  lemma RestSnoc(dir: seq<Bytes>, i: nat, after: Bytes)
    requires i < |dir|
    ensures Rest(dir[..i + 1], after)
      == Rest(dir[..i], after) + (if !Reserved(dir[i]) && Less(after, dir[i]) then {dir[i]} else {})
  {
    assert dir[..i + 1][i] == dir[i];
    assert forall k :: 0 <= k < i ==> dir[..i + 1][k] == dir[..i][k];
  }

  lemma RestInside(dir: seq<Bytes>, after: Bytes)
    ensures Rest(dir, after) <= Elements(dir)
  {
  }

  /** Drops the largest of a sorted list. */
  method DropLast(names: seq<Bytes>) returns (rest: seq<Bytes>)
    requires Ascending(names) && names != []
    ensures rest == names[..|names| - 1] && |rest| == |names| - 1 == |Elements(rest)|
    ensures Elements(names) == Elements(rest) + {names[|names| - 1]} && names[|names| - 1] !in Elements(rest)
    ensures forall n :: n in Elements(rest) ==> Less(n, names[|names| - 1])
  {
    var last := |names| - 1;
    rest := names[..last];
    assert rest + [names[last]] == names;
    ElementsSnoc(rest, names[last]);
    LessIsStrict(names[last], names[last]);
    AscendingDistinct(rest);
  }

  lemma {:induction false} AscendingDistinct(names: seq<Bytes>)
    requires Ascending(names)
    ensures |Elements(names)| == |names|
  {
    if names != [] {
      var last := |names| - 1;
      AscendingDistinct(names[..last]);
      ElementsSnoc(names[..last], names[last]);
      assert names[..last] + [names[last]] == names;
      LessIsStrict(names[last], names[last]);
    }
  }

  lemma KeepSmallest(kept: set<Bytes>, all: set<Bytes>, name: Bytes, now: set<Bytes>, bound: nat)
    requires SmallestOf(kept, all, bound) && name !in all && |kept| == bound == |now| && now < kept + {name}
    requires forall n, d :: n in now && d in kept + {name} - now ==> Less(n, d)
    ensures SmallestOf(now, all + {name}, bound)
  {
    assert |kept + {name}| == bound + 1;
    assert |kept + {name} - now| == 1;
    var d :| d in kept + {name} - now;
    assert |kept + {name} - now - {d}| == 0;
    assert kept + {name} == now + {d};
    forall n, q | n in now && q in all + {name} - now ensures Less(n, q) {
      if q in kept + {name} {
        assert q == d;
      } else if n != name {
        assert n in kept && q in all - kept;
      } else {
        assert d in kept && q in all - kept;
        LessTransitive(n, d, q);
      }
    }
  }

  datatype Page = Page(entries: seq<Bytes>, next: Option<string>)

  /** What one page promises: an unbroken run of the remaining names in order, and a cursor exactly when more are left. */
  ghost predicate GoodPage(p: Page, rest: set<Bytes>, limit: nat) {
    && Ascending(p.entries) && Elements(p.entries) <= rest && |p.entries| <= limit
    && (rest != {} ==> p.entries != [])
    && (forall q :: q in rest - Elements(p.entries) ==> p.entries != [] && Less(p.entries[|p.entries| - 1], q))
    && (p.next.None? <==> Elements(p.entries) == rest)
    && (p.next.Some? ==> p.entries != [] && p.next == Some(Encode(p.entries[|p.entries| - 1])))
  }

  /** One page of a directory. `size` gives the encoded length of an entry. */
  method ListPage(dir: seq<Bytes>, after: Bytes, limit: nat, size: Bytes -> nat) returns (r: Option<Page>)
    requires |Elements(dir)| == |dir| && 1 <= limit <= 200
    ensures r.None? <==> |dir| > DIRECTORY_CAP
    ensures r.Some? ==> GoodPage(r.value, Rest(dir, after), limit)
    ensures r.Some? && |r.value.entries| > 1 ==> Sizes(r.value.entries, size) <= RESPONSE_CAP
  {
    if |dir| > DIRECTORY_CAP { return None; }
    var names := Scan(dir, after, limit);
    var n, bytes := 0, 0;
    while n < Min(limit, |names|) && (n == 0 || bytes + size(names[n]) <= RESPONSE_CAP)
      invariant 0 <= n <= Min(limit, |names|) && bytes == Sizes(names[..n], size)
      invariant n > 1 ==> bytes <= RESPONSE_CAP
      invariant n == 0 ==> bytes == 0
    {
      assert names[..n + 1][..n] == names[..n];
      bytes := bytes + size(names[n]);
      n := n + 1;
    }
    var next := if |names| > n then Some(Encode(names[n - 1])) else None;
    r := Some(Page(names[..n], next));
    TakeIsGood(names, n, Rest(dir, after), limit, next);
  }

  function Sizes(names: seq<Bytes>, size: Bytes -> nat): nat {
    if names == [] then 0 else Sizes(names[..|names| - 1], size) + size(names[|names| - 1])
  }

  lemma TakeIsGood(names: seq<Bytes>, n: nat, rest: set<Bytes>, limit: nat, next: Option<string>)
    requires Ascending(names) && SmallestOf(Elements(names), rest, limit + 1) && |Elements(names)| == |names|
    requires n <= |names| && n <= limit && (names != [] ==> n > 0)
    requires next == if |names| > n then Some(Encode(names[n - 1])) else None
    ensures GoodPage(Page(names[..n], next), rest, limit)
  {
    var entries := names[..n];
    assert forall i :: 0 <= i < n ==> entries[i] == names[i];
    assert Elements(entries) <= Elements(names);
    forall q | q in rest - Elements(entries) ensures entries != [] && Less(entries[n - 1], q) {
      if q in Elements(names) {
        var i :| 0 <= i < |names| && names[i] == q;
        assert forall k :: 0 <= k < n ==> entries[k] in Elements(entries);
      } else {
        assert names == [] ==> Elements(names) == {};
        assert names[n - 1] in Elements(names);
      }
    }
    if |names| > n {
      forall i | 0 <= i < n ensures names[i] != names[n] {
        LessIsStrict(names[i], names[n]);
      }
      assert names[n] in Elements(names) && names[n] !in Elements(entries);
    } else {
      assert entries == names;
    }
  }

  /** Following the cursors of an unchanged directory to the end: every name that is not reserved, once, in order. */
  method ListAll(dir: seq<Bytes>, limit: nat, size: Bytes -> nat) returns (names: seq<Bytes>)
    requires |Elements(dir)| == |dir| <= DIRECTORY_CAP && 1 <= limit <= 200
    requires forall i :: 0 <= i < |dir| ==> Nameable(dir[i])
    ensures Ascending(names) && |Elements(names)| == |names|
    ensures forall name :: name in names <==> name in dir && !Reserved(name)
  {
    names := [];
    var after: Bytes, more := [], true;
    FirstRest(dir);
    while more
      invariant Ascending(names) && (more ==> Reached(names, after))
      invariant Elements(names) + (if more then Rest(dir, after) else {}) == Rest(dir, [])
      decreases if more then 1 + |Rest(dir, after)| else 0
    {
      names, after, more := NextPage(dir, names, after, limit, size);
    }
    AscendingDistinct(names);
    forall name ensures name in names <==> name in dir && !Reserved(name) {
      assert name in names <==> name in Elements(names);
    }
  }

  /** The cursor stands at the last name shown. */
  ghost predicate Reached(names: seq<Bytes>, after: Bytes) {
    if names == [] then after == [] else after == names[|names| - 1]
  }

  /** One more page of the walk. */
  method NextPage(dir: seq<Bytes>, shown: seq<Bytes>, cursor: Bytes, limit: nat, size: Bytes -> nat)
    returns (names: seq<Bytes>, after: Bytes, more: bool)
    requires |Elements(dir)| == |dir| <= DIRECTORY_CAP && 1 <= limit <= 200
    requires forall i :: 0 <= i < |dir| ==> Nameable(dir[i])
    requires Ascending(shown) && Reached(shown, cursor)
    ensures Ascending(names) && (more ==> Reached(names, after) && |Rest(dir, after)| < |Rest(dir, cursor)|)
    ensures Elements(names) + (if more then Rest(dir, after) else {}) == Elements(shown) + Rest(dir, cursor)
  {
    var page := ListPage(dir, cursor, limit, size);
    var entries := page.value.entries;
    Follows(shown, entries, dir, cursor);
    names, after := shown + entries, cursor;
    more := page.value.next.Some?;
    if more {
      after := NextCursor(dir, cursor, page.value, limit);
    }
  }

  method NextCursor(dir: seq<Bytes>, cursor: Bytes, p: Page, limit: nat) returns (after: Bytes)
    requires GoodPage(p, Rest(dir, cursor), limit) && p.next.Some?
    requires forall i :: 0 <= i < |dir| ==> Nameable(dir[i])
    ensures after == p.entries[|p.entries| - 1]
    ensures Rest(dir, after) == Rest(dir, cursor) - Elements(p.entries) && |Rest(dir, after)| < |Rest(dir, cursor)|
  {
    ghost var last := p.entries[|p.entries| - 1];
    assert last in Elements(p.entries);
    RestIsNameable(dir, cursor, last);
    var excess: bool := *;
    NamesRoundTrip(last, excess);
    after := Decode(p.next.value, excess).value;
    RestAfter(dir, cursor, p, limit);
  }

  /** Every name comes after the empty cursor. */
  lemma FirstRest(dir: seq<Bytes>)
    requires forall i :: 0 <= i < |dir| ==> Nameable(dir[i])
    ensures forall name :: name in Rest(dir, []) <==> name in dir && !Reserved(name)
  {
    forall name | name in dir && !Reserved(name) ensures name in Rest(dir, []) {
      var i :| 0 <= i < |dir| && dir[i] == name;
      assert Less([], dir[i]);
    }
  }

  lemma RestIsNameable(dir: seq<Bytes>, after: Bytes, name: Bytes)
    requires forall i :: 0 <= i < |dir| ==> Nameable(dir[i])
    requires name in Rest(dir, after)
    ensures Nameable(name)
  {
  }

  lemma Follows(names: seq<Bytes>, entries: seq<Bytes>, dir: seq<Bytes>, after: Bytes)
    requires Ascending(names) && Ascending(entries) && Elements(entries) <= Rest(dir, after) && Reached(names, after)
    ensures Ascending(names + entries) && Elements(names + entries) == Elements(names) + Elements(entries)
  {
    var whole := names + entries;
    assert forall i :: 0 <= i < |entries| ==> whole[|names| + i] == entries[i];
    assert forall i :: 0 <= i < |names| ==> whole[i] == names[i];
    forall i, j | 0 <= i < j < |whole| ensures Less(whole[i], whole[j]) {
      if i < |names| <= j {
        assert entries[j - |names|] in Elements(entries);
        if i < |names| - 1 { LessTransitive(names[i], after, whole[j]); }
      }
    }
  }

  /** After a page, exactly the names it did not show are left. */
  lemma RestAfter(dir: seq<Bytes>, after: Bytes, p: Page, limit: nat)
    requires GoodPage(p, Rest(dir, after), limit) && p.entries != []
    ensures var last := p.entries[|p.entries| - 1];
      Rest(dir, last) == Rest(dir, after) - Elements(p.entries) && |Rest(dir, last)| < |Rest(dir, after)|
  {
    var rest := Rest(dir, after);
    var last := p.entries[|p.entries| - 1];
    assert last in Elements(p.entries) && last in rest;
    forall q ensures q in Rest(dir, last) <==> q in rest - Elements(p.entries) {
      if q in Rest(dir, last) {
        LessTransitive(after, last, q);
        if q in Elements(p.entries) {
          var i :| 0 <= i < |p.entries| && p.entries[i] == q;
          LessIsStrict(q, last);
        }
      }
    }
    SubsetSize(Rest(dir, last), rest, last);
  }

  lemma SubsetSize(a: set<Bytes>, b: set<Bytes>, x: Bytes)
    requires a <= b && x in b && x !in a
    ensures |a| < |b|
  {
    assert b == a + (b - a) && x in b - a;
  }
}
