/** The engine's log stream: frames of an eight-byte header and a payload, of which only a bounded start is kept. */
module EngineLog {
  import opened Base

  /** Stream 0, 1 or 2, then its bytes. */
  datatype Frame = Frame(stream: byte, payload: Bytes)

  predicate WellFormed(f: Frame) { f.stream <= 2 && |f.payload| < 0x1_0000_0000 }

  function Encoded(f: Frame): (b: Bytes)
    requires WellFormed(f)
    ensures |b| == 8 + |f.payload|
  {
    [f.stream, 0, 0, 0] + BigEndian(|f.payload|, 4) + f.payload
  }

  predicate AllWellFormed(frames: seq<Frame>) {
    forall i :: 0 <= i < |frames| ==> WellFormed(frames[i])
  }

  function Stream(frames: seq<Frame>): Bytes
    requires AllWellFormed(frames)
  {
    if frames == [] then [] else Encoded(frames[0]) + Stream(frames[1..])
  }

  function Payloads(frames: seq<Frame>): Bytes {
    if frames == [] then [] else frames[0].payload + Payloads(frames[1..])
  }

  /** How many payload bytes lie within the first `cut` bytes of the stream. */
  function Visible(frames: seq<Frame>, cut: nat): (n: nat)
    ensures n <= |Payloads(frames)|
  {
    if frames == [] || cut <= 8 then 0
    else if cut - 8 <= |frames[0].payload| then cut - 8
    else |frames[0].payload| + Visible(frames[1..], cut - 8 - |frames[0].payload|)
  }

  datatype Collected = Collected(output: Bytes, truncated: bool)

  /** What the data not yet consumed yields; None when it is not a legal stream. */
  function Demux(rest: Bytes, output: Bytes, limit: nat, truncated: bool): Option<Collected>
    decreases |rest|
  {
    if rest == [] then Some(Collected(output, truncated || |output| > limit))
    else if |rest| < 8 then
      if truncated then Some(Collected(output, true)) else None
    else
      var size := FromBigEndian(rest[4..8]);
      if rest[0] > 2 || rest[1..4] != [0, 0, 0] then None
      else
        var available := Min(size, |rest| - 8);
        var more := output + rest[8..8 + Min(available, Max(0, limit + 1 - |output|))];
        if available < size && !truncated then None
        else if |more| > limit then Some(Collected(more, true))
        else Demux(rest[8 + available..], more, limit, truncated)
  }

  function After(data: Bytes, offset: nat): Bytes {
    if offset <= |data| then data[offset..] else []
  }

  /** Collects log bytes up to one past the limit; the offset grows with every frame. */
  method Collect(data: Bytes, limit: nat, truncated: bool) returns (r: Option<Collected>)
    ensures r == Demux(data, [], limit, truncated)
  {
    var offset, output := 0, [];
    while offset < |data|
      invariant Demux(data, [], limit, truncated) == Demux(After(data, offset), output, limit, truncated)
      decreases |data| - offset
    {
      if |data| - offset < 8 {
        if !truncated { return None; }
        return Some(Collected(output, true));
      }
      var next;
      r, next, output := Turn(data, offset, output, limit, truncated);
      if next == offset { return; }
      offset := next;
    }
    return Some(Collected(output, truncated || |output| > limit));
  }

  /** One turn of the loop: the frame at the offset; the same offset again means that collecting is over. */
  method Turn(data: Bytes, offset: nat, output: Bytes, limit: nat, truncated: bool)
    returns (r: Option<Collected>, next: nat, more: Bytes)
    requires offset + 8 <= |data|
    ensures next == offset ==> r == Demux(After(data, offset), output, limit, truncated)
    ensures next != offset ==> next > offset && Demux(After(data, next), more, limit, truncated) == Demux(After(data, offset), output, limit, truncated)
  {
    DemuxStep(data, offset, output, limit, truncated);
    more := output;
    var header := data[offset..offset + 8];
    var size := FromBigEndian(header[4..]);
    if header[0] > 2 || header[1..4] != [0, 0, 0] { return None, offset, more; }
    var available := Min(size, |data| - offset - 8);
    more := output + data[offset + 8..offset + 8 + Min(available, Max(0, limit + 1 - |output|))];
    if available < size && !truncated { return None, offset, more; }
    if |more| > limit { return Some(Collected(more, true)), offset, more; }
    return None, offset + 8 + size, more;
  }

  /** One turn of the loop, on the whole data. */
  lemma DemuxStep(data: Bytes, n: nat, output: Bytes, limit: nat, truncated: bool)
    requires n + 8 <= |data|
    ensures var header := data[n..n + 8];
      var size := FromBigEndian(header[4..]);
      var available := Min(size, |data| - n - 8);
      var more := output + data[n + 8..n + 8 + Min(available, Max(0, limit + 1 - |output|))];
      Demux(After(data, n), output, limit, truncated)
      == if header[0] > 2 || header[1..4] != [0, 0, 0] || (available < size && !truncated) then None
         else if |more| > limit then Some(Collected(more, true))
         else Demux(After(data, n + 8 + size), more, limit, truncated)
  {
    var rest, header := data[n..], data[n..n + 8];
    assert After(data, n) == rest && header == rest[..8] && header[4..] == header[4..8];
    Part(rest, 0, 8, 4, 8);
    Part(rest, 0, 8, 1, 4);
    assert header[4..] == rest[4..8] && header[1..4] == rest[1..4];
    var size := FromBigEndian(header[4..]);
    var available := Min(size, |data| - n - 8);
    var taken := Min(available, Max(0, limit + 1 - |output|));
    Part(data, n, |data|, 8, 8 + taken);
    assert rest[8..8 + taken] == data[n + 8..n + 8 + taken];
    assert rest[8 + available..] == After(data, n + 8 + size);
  }

  /** A slice of a slice. */
  lemma Part(s: Bytes, from: nat, to: nat, i: nat, j: nat)
    requires from <= to <= |s| && i <= j <= to - from
    ensures s[from..to][i..j] == s[from + i..from + j]
  {
    var t := s[from..to];
    forall k | 0 <= k < j - i ensures t[i..j][k] == s[from + i..from + j][k] {
    }
  }

  /** The header of a first frame is read back. */
  lemma OneHeader(frames: seq<Frame>, cut: nat)
    requires AllWellFormed(frames) && frames != [] && 8 <= cut <= |Stream(frames)|
    ensures var rest := Stream(frames)[..cut];
      rest[0] == frames[0].stream && rest[1..4] == [0, 0, 0] && FromBigEndian(rest[4..8]) == |frames[0].payload|
  {
    var rest, e := Stream(frames)[..cut], Encoded(frames[0]);
    Widths();
    BigEndianRoundTrip(|frames[0].payload|, 4);
    assert rest[..8] == e[..8];
    Part(rest, 0, 8, 4, 8);
    Part(rest, 0, 8, 1, 4);
    assert e[..8] == [frames[0].stream, 0, 0, 0] + BigEndian(|frames[0].payload|, 4);
    assert e[..8][4..8] == BigEndian(|frames[0].payload|, 4) && e[..8][1..4] == [0, 0, 0];
  }

  /** The visible payload of a first frame, and what follows it. */
  lemma OnePayload(frames: seq<Frame>, cut: nat, k: nat)
    requires AllWellFormed(frames) && frames != [] && 8 <= cut <= |Stream(frames)| && k <= Min(|frames[0].payload|, cut - 8)
    ensures var rest, p := Stream(frames)[..cut], frames[0].payload;
      && rest[8..8 + k] == p[..k]
      && (cut - 8 < |p| ==> cut < |Stream(frames)|)
      && rest[8 + Min(|p|, cut - 8)..] == Stream(frames[1..])[..Max(0, cut - 8 - |p|)]
  {
    var rest, p, later := Stream(frames)[..cut], frames[0].payload, Stream(frames[1..]);
    var head := [frames[0].stream, 0, 0, 0] + BigEndian(|p|, 4);
    assert Stream(frames) == head + p + later;
    AfterHeader(head, p, later, cut, k);
  }

  lemma AfterHeader(head: Bytes, p: Bytes, later: Bytes, cut: nat, k: nat)
    requires |head| == 8 && 8 <= cut <= 8 + |p| + |later| && k <= Min(|p|, cut - 8)
    ensures (head + p + later)[..cut][8..8 + k] == p[..k]
    ensures (head + p + later)[..cut][8 + Min(|p|, cut - 8)..] == later[..Max(0, cut - 8 - |p|)]
  {
  }

  /** What the demultiplexer owes for a stream cut anywhere, given what it has already collected. */
  function Owed(frames: seq<Frame>, cut: nat, output: Bytes, limit: nat, truncated: bool): Option<Collected>
    requires |output| <= limit
  {
    Some(Collected(output + Payloads(frames)[..Min(limit + 1 - |output|, Visible(frames, cut))],
                   truncated || |output| + Visible(frames, cut) > limit))
  }

  /** The first frame's share of what is owed. */
  lemma OwedFirst(frames: seq<Frame>, cut: nat, output: Bytes, limit: nat, truncated: bool)
    requires frames != [] && cut >= 8 && |output| <= limit
    ensures var p := frames[0].payload;
      var seen := Min(|p|, cut - 8);
      var more := output + p[..Min(seen, limit + 1 - |output|)];
      && (|more| > limit ==> Owed(frames, cut, output, limit, truncated) == Some(Collected(more, true)))
      && (|more| <= limit && cut - 8 <= |p| ==> Owed(frames, cut, output, limit, truncated) == Some(Collected(more, truncated)))
      && (|more| <= limit && cut - 8 > |p| ==>
            Owed(frames, cut, output, limit, truncated) == Owed(frames[1..], cut - 8 - |p|, more, limit, truncated))
  {
    var p, room := frames[0].payload, limit + 1 - |output|;
    var seen := Min(|p|, cut - 8);
    var more := output + p[..Min(seen, room)];
    assert Visible(frames, cut) >= seen;
    if |more| > limit {
      assert Payloads(frames)[..room] == p[..room];
    } else if cut - 8 <= |p| {
      assert Payloads(frames)[..seen] == p[..seen];
    } else {
      var v := Visible(frames[1..], cut - 8 - |p|);
      assert Payloads(frames)[..Min(room, |p| + v)] == p + Payloads(frames[1..])[..Min(room - |p|, v)];
      assert p[..|p|] == p;
      assert output + (p + Payloads(frames[1..])[..Min(room - |p|, v)]) == more + Payloads(frames[1..])[..Min(room - |p|, v)];
    }
  }

  /** Demultiplexing undoes the framing of any stream, cut anywhere by the fetch limit: the output is the start of
      the concatenated payloads, as much of it as was fetched, up to one byte past the limit; and an omission is
      always reported. */
  lemma {:induction false} DemuxUndoesFraming(frames: seq<Frame>, cut: nat, output: Bytes, limit: nat, truncated: bool)
    requires AllWellFormed(frames) && cut <= |Stream(frames)| && (cut < |Stream(frames)| ==> truncated) && |output| <= limit
    ensures Demux(Stream(frames)[..cut], output, limit, truncated) == Owed(frames, cut, output, limit, truncated)
    decreases |frames|
  {
    if cut < 8 {
      assert output + [] == output;
    } else {
      var p := frames[0].payload;
      var more := output + p[..Min(Min(|p|, cut - 8), limit + 1 - |output|)];
      FirstStep(frames, cut, output, limit, truncated);
      OwedFirst(frames, cut, output, limit, truncated);
      if |more| <= limit {
        DemuxUndoesFraming(frames[1..], Max(0, cut - 8 - |p|), more, limit, truncated);
        assert more + [] == more;
      }
    }
  }

  lemma FirstStep(frames: seq<Frame>, cut: nat, output: Bytes, limit: nat, truncated: bool)
    requires AllWellFormed(frames) && 8 <= cut <= |Stream(frames)| && (cut < |Stream(frames)| ==> truncated) && |output| <= limit
    requires frames != []
    ensures var p := frames[0].payload;
      var more := output + p[..Min(Min(|p|, cut - 8), limit + 1 - |output|)];
      Demux(Stream(frames)[..cut], output, limit, truncated)
      == if |more| > limit then Some(Collected(more, true))
         else Demux(Stream(frames[1..])[..Max(0, cut - 8 - |p|)], more, limit, truncated)
  {
    OneHeader(frames, cut);
    OnePayload(frames, cut, Min(Min(|frames[0].payload|, cut - 8), limit + 1 - |output|));
  }

  /** The whole stream fetched: the output is the payloads up to one past the limit, and `truncated` says exactly
      whether the limit omits any. */
  lemma WholeStream(frames: seq<Frame>, limit: nat)
    requires AllWellFormed(frames)
    ensures Demux(Stream(frames), [], limit, false)
      == Some(Collected(Payloads(frames)[..Min(limit + 1, |Payloads(frames)|)], |Payloads(frames)| > limit))
  {
    var all := Stream(frames);
    assert all[..|all|] == all;
    DemuxUndoesFraming(frames, |all|, [], limit, false);
    AllVisible(frames);
    assert [] + Payloads(frames)[..Min(limit + 1, |Payloads(frames)|)] == Payloads(frames)[..Min(limit + 1, |Payloads(frames)|)];
  }

  lemma {:induction false} AllVisible(frames: seq<Frame>)
    requires AllWellFormed(frames)
    ensures Visible(frames, |Stream(frames)|) == |Payloads(frames)|
  {
    if frames != [] {
      AllVisible(frames[1..]);
      if |frames[0].payload| + |Payloads(frames[1..])| > 0 { assert |Stream(frames)| > 8; }
    }
  }
}
