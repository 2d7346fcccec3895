/** WebSocket frames (RFC 6455, sections 5.2 to 5.5) as the agent bridge writes and reads them. */
module WebSocket {
  import opened Base

  const LIMIT := 1024 * 1024
  const FRAMES := 128

  /** Exclusive or of two numbers of n bits. */
  function Xor(a: nat, b: nat, n: nat): (r: nat)
    requires a < Power(n) && b < Power(n)
    ensures r < Power(n)
  {
    if n == 0 then 0 else 2 * Xor(a / 2, b / 2, n - 1) + (a + b) % 2
  }

  function Power(n: nat): nat { if n == 0 then 1 else 2 * Power(n - 1) }

  lemma LastBit(x: nat, a: nat, b: nat)
    ensures var c := 2 * x + (a + b) % 2; c / 2 == x && (c + b) % 2 == a % 2
  {
  }

  lemma {:induction false} XorTwice(a: nat, b: nat, n: nat)
    requires a < Power(n) && b < Power(n)
    ensures Xor(Xor(a, b, n), b, n) == a
  {
    if n > 0 {
      XorTwice(a / 2, b / 2, n - 1);
      LastBit(Xor(a / 2, b / 2, n - 1), a, b);
    }
  }

  lemma Power8()
    ensures Power(8) == 256
  {
    assert Power(8) == 2 * Power(7) == 4 * Power(6) == 8 * Power(5) == 16 * Power(4);
    assert Power(4) == 2 * Power(3) == 4 * Power(2) == 8 * Power(1) == 16 * Power(0);
  }

  function XorByte(a: byte, b: byte): byte {
    Power8();
    Xor(a as nat, b as nat, 8) as byte
  }

  /** Masking, and unmasking: the payload combined with the four key bytes in turn. */
  function Masked(payload: Bytes, mask: Bytes): (r: Bytes)
    requires |mask| == 4
    ensures |r| == |payload|
  {
    seq(|payload|, i requires 0 <= i < |payload| => XorByte(payload[i], mask[i % 4]))
  }

  lemma MaskTwice(payload: Bytes, mask: Bytes)
    requires |mask| == 4
    ensures Masked(Masked(payload, mask), mask) == payload
  {
    Power8();
    forall i | 0 <= i < |payload| ensures Masked(Masked(payload, mask), mask)[i] == payload[i] {
      XorTwice(payload[i] as nat, mask[i % 4] as nat, 8);
    }
  }

  /** The length field: seven bits, or a marker with sixteen or sixty-four. `flag` is the mask bit. */
  function Length(size: nat, flag: nat): Bytes
    requires flag in {0, 128}
  {
    if size < 126 then [(size + flag) as byte]
    else if size < 65536 then [(126 + flag) as byte] + BigEndian(size, 2)
    else [(127 + flag) as byte] + BigEndian(size, 8)
  }

  /** A header read from the start of the input: size, and where the rest begins; None when input is missing. */
  function Header(input: Bytes): (h: Option<(nat, nat)>)
    ensures h.Some? ==> 2 <= h.value.1 <= |input|
  {
    if |input| < 2 then None
    else
      var size := input[1] as nat % 128;
      if size == 126 then (if |input| < 4 then None else Some((FromBigEndian(input[2..4]), 4)))
      else if size == 127 then (if |input| < 10 then None else Some((FromBigEndian(input[2..10]), 10)))
      else Some((size, 2))
  }

  /** Every length form is read back. */
  lemma HeaderRoundTrip(first: byte, size: nat, flag: nat, tail: Bytes)
    requires flag in {0, 128} && size < Pow256(8)
    ensures var input := [first] + Length(size, flag) + tail;
      && Header(input) == Some((size, 1 + |Length(size, flag)|)) && input[0] == first
      && input[1 + |Length(size, flag)|..] == tail && (input[1] >= 128 <==> flag == 128)
  {
    Widths();
    var input := [first] + Length(size, flag) + tail;
    if size < 126 {
      assert input[1] as nat == size + flag;
    } else if size < 65536 {
      BigEndianRoundTrip(size, 2);
      assert input[2..4] == BigEndian(size, 2);
    } else {
      BigEndianRoundTrip(size, 8);
      assert input[2..10] == BigEndian(size, 8);
    }
  }

  /** One frame of the bridge: final, masked. */
  function FrameBytes(opcode: nat, payload: Bytes, mask: Bytes): Bytes
    requires opcode < 16 && |mask| == 4
  {
    [(128 + opcode) as byte] + Length(|payload|, 128) + mask + Masked(payload, mask)
  }

  datatype Received = Received(final: bool, opcode: nat, masked: bool, payload: Bytes, rest: Bytes)

  /** How an endpoint of the protocol reads one frame. */
  function ReadFrame(input: Bytes): Option<Received> {
    var h := Header(input);
    if h.None? then None
    else
      var size, at := h.value.0, h.value.1;
      var masked := input[1] >= 128;
      var from := if masked then at + 4 else at;
      if |input| < from + size then None
      else
        var raw := input[from..from + size];
        var payload := if masked then Masked(raw, input[at..at + 4]) else raw;
        Some(Received(input[0] >= 128, input[0] as nat % 16, masked, payload, input[from + size..]))
  }

  /** Whatever the bridge frames, of any length it accepts and under any mask, reads back unchanged. */
  lemma FrameRoundTrip(opcode: nat, payload: Bytes, mask: Bytes, tail: Bytes)
    requires opcode < 16 && |mask| == 4 && |payload| <= LIMIT
    ensures ReadFrame(FrameBytes(opcode, payload, mask) + tail) == Some(Received(true, opcode, true, payload, tail))
  {
    Widths();
    var first := (128 + opcode) as byte;
    var len := Length(|payload|, 128);
    var after := mask + Masked(payload, mask) + tail;
    var input := [first] + len + after;
    assert FrameBytes(opcode, payload, mask) + tail == input;
    HeaderRoundTrip(first, |payload|, 128, after);
    MaskTwice(payload, mask);
    var at := 1 + |len|;
    assert input[at..] == after;
    assert input[at..at + 4] == after[..4] == mask;
    assert input[at + 4..at + 4 + |payload|] == after[4..4 + |payload|] == Masked(payload, mask);
    assert input[at + 4 + |payload|..] == after[4 + |payload|..] == tail;
  }

  // ---- receiving a message ----

  datatype Outcome = Message(data: Bytes, rest: Bytes) | Failed

  /** What receiving comes to, and the pings to answer on the way. */
  datatype Result = Result(outcome: Outcome, pongs: seq<Bytes>)

  function Prepend(ping: Bytes, r: Result): Result { r.(pongs := [ping] + r.pongs) }

  /** A frame as it stands at the start of the input. */
  datatype Raw = Raw(final: bool, opcode: nat, flags: bool, payload: Bytes, rest: Bytes)

  /** `flags` says that a reserved bit or the mask bit is set. */
  function Taken(input: Bytes): Option<Raw> {
    var h := Header(input);
    if h.None? || |input| < h.value.1 + h.value.0 then None
    else
      var size, at := h.value.0, h.value.1;
      Some(Raw(input[0] >= 128, input[0] as nat % 16, input[0] as nat / 16 % 8 != 0 || input[1] >= 128,
               input[at..at + size], input[at + size..]))
  }

  /** The first n frames of the input, as far as they are complete. */
  function Parse(input: Bytes, n: nat): seq<Raw> {
    if n == 0 || Taken(input).None? then []
    else [Taken(input).value] + Parse(Taken(input).value.rest, n - 1)
  }

  /** The rest of a message, from the frames still to come: `data` so far, and whether it has begun. */
  function Assemble(frames: seq<Raw>, data: Bytes, started: bool): Result {
    if frames == [] then Result(Failed, [])
    else
      var f, later := frames[0], frames[1..];
      if f.flags || |data| + |f.payload| > LIMIT then Result(Failed, [])
      else if f.opcode == 9 then Prepend(f.payload, Assemble(later, data, started))
      else if f.opcode == 10 then Assemble(later, data, started)
      else if f.opcode != (if started then 0 else 1) then Result(Failed, [])
      else if f.final then Result(Message(data + f.payload, f.rest), [])
      else Assemble(later, data + f.payload, true)
  }

  /** What receiving a message within n frames comes to. */
  function Receive(input: Bytes, n: nat): Result { Assemble(Parse(input, n), [], false) }

  /** The socket: bytes the runtime has sent, and frames the bridge has written. */
  class Rpc {
    var input: Bytes
    var sent: seq<Bytes>

    constructor (input: Bytes)
      ensures this.input == input && sent == []
    {
      this.input, sent := input, [];
    }

    /** Writes one frame under a fresh mask. */
    method Frame(opcode: nat, payload: Bytes) returns (ok: bool)
      requires opcode < 16
      modifies this`sent
      ensures ok <==> |payload| <= LIMIT
      ensures !ok ==> sent == old(sent)
      ensures ok ==> |sent| == |old(sent)| + 1 && sent[..|old(sent)|] == old(sent)
      ensures ok ==> ReadFrame(sent[|old(sent)|]) == Some(Received(true, opcode, true, payload, []))
    {
      if |payload| > LIMIT { return false; }
      var mask: seq<byte> := *;
      if |mask| != 4 { mask := [0, 0, 0, 0]; }
      var size := |payload|;
      var length := Length(size, 128);
      var encoded := Masked(payload, mask);
      sent := sent + [[(128 + opcode) as byte] + length + mask + encoded];
      FrameRoundTrip(opcode, payload, mask, []);
      assert FrameBytes(opcode, payload, mask) + [] == [(128 + opcode) as byte] + length + mask + encoded;
      return true;
    }

    /** Reads frames until one message is complete, answering pings with their payload. */
    method ReceiveMessage() returns (r: Outcome)
      modifies this
      ensures r == Receive(old(input), FRAMES).outcome
      ensures r.Message? ==> input == r.rest && PongsSent(old(sent), sent, Receive(old(input), FRAMES).pongs)
    {
      r := ReceiveWithin(FRAMES);
    }

    method ReceiveWithin(count: nat) returns (r: Outcome)
      modifies this
      ensures r == Receive(old(input), count).outcome
      ensures r.Message? ==> input == r.rest && PongsSent(old(sent), sent, Receive(old(input), count).pongs)
    {
      var data, started: bool := [], false;
      ghost var all, pongs := Receive(input, count), [];
      ghost var coming := Parse(input, count);
      assert [] + all.pongs == all.pongs;
      for n := 0 to count
        invariant PongsSent(old(sent), sent, pongs) && coming == Parse(input, count - n)
        invariant Leads(all, pongs, Assemble(coming, data, started))
      {
        var frame := Take(count - n);
        if frame.None? { return Failed; }
        var f := frame.value;
        ghost var later := coming[1..];
        assert coming == [f] + later;
        if f.flags || |data| + |f.payload| > LIMIT { return Failed; }
        if f.opcode == 9 {
          Pong(f.payload);
          PingAnswered(all, pongs, f.payload, Assemble(later, data, started));
          pongs := pongs + [f.payload];
        } else if f.opcode != 10 {
          if f.opcode != (if started then 0 else 1) { return Failed; }
          if f.final {
            assert pongs + [] == pongs;
            return Message(data + f.payload, input);
          }
          started := true;
          data := data + f.payload;
        }
        coming := later;
      }
      return Failed;
    }

    method Pong(payload: Bytes)
      requires |payload| <= LIMIT
      modifies this`sent
      ensures PongsSent(old(sent), sent, [payload])
      ensures forall before, pongs :: PongsSent(before, old(sent), pongs) ==> PongsSent(before, sent, pongs + [payload])
    {
      var ok := Frame(10, payload);
    }

    /** Reads one frame. */
    method Take(ghost n: nat) returns (r: Option<Raw>)
      requires n > 0
      modifies this`input
      ensures r.None? ==> Parse(old(input), n) == []
      ensures r.Some? ==> Parse(old(input), n) == [r.value] + Parse(input, n - 1) && input == r.value.rest
    {
      r := Taken(input);
      if r.Some? { input := r.value.rest; }
    }
  }

  /** The whole result, once the given pings are answered and the rest is received. */
  ghost predicate Leads(all: Result, pongs: seq<Bytes>, rest: Result) {
    all.outcome == rest.outcome && all.pongs == pongs + rest.pongs
  }

  lemma PingAnswered(all: Result, pongs: seq<Bytes>, ping: Bytes, rest: Result)
    requires Leads(all, pongs, Prepend(ping, rest))
    ensures Leads(all, pongs + [ping], rest)
  {
    assert pongs + ([ping] + rest.pongs) == pongs + [ping] + rest.pongs;
  }

  /** Each ping was answered by one pong frame with its payload, in order. */
  predicate PongsSent(before: seq<Bytes>, after: seq<Bytes>, pongs: seq<Bytes>) {
    && |after| == |before| + |pongs| && after[..|before|] == before
    && forall i :: 0 <= i < |pongs| ==>
         ReadFrame(after[|before| + i]) == Some(Received(true, 10, true, pongs[i], []))
  }

  // ---- any legal fragmentation ----

  /** A frame of the runtime: never masked. */
  datatype ServerFrame = ServerFrame(final: bool, opcode: nat, payload: Bytes)

  function Encoded(f: ServerFrame): Bytes
    requires f.opcode < 16
  {
    [(f.opcode + (if f.final then 128 else 0)) as byte] + Length(|f.payload|, 0) + f.payload
  }

  /** The bytes are the frame on the wire, its size within the length field; the encoding stays out of proofs that do not mention Show. */
  ghost predicate Coded(f: ServerFrame, bytes: Bytes) {
    forall k {:trigger Show(k)} :: Show(k) ==> f.opcode < 16 && |f.payload| < Pow256(8) && bytes == Encoded(f)
  }

  /** The frames of one message: a text frame and its continuations, the last one final, with pings and pongs anywhere
      between them. */
  predicate Legal(frames: seq<ServerFrame>, started: bool) {
    frames != []
    && var f, rest := frames[0], frames[1..];
       if f.opcode in {9, 10} then Legal(rest, started)
       else f.opcode == (if started then 0 else 1) && (if f.final then rest == [] else Legal(rest, true))
  }

  function Joined(pieces: seq<Bytes>): Bytes {
    if pieces == [] then [] else pieces[0] + Joined(pieces[1..])
  }

  ghost predicate AllCoded(frames: seq<ServerFrame>, pieces: seq<Bytes>) {
    |frames| == |pieces| && forall i :: 0 <= i < |frames| ==> Coded(frames[i], pieces[i])
  }

  function Text(frames: seq<ServerFrame>): Bytes {
    if frames == [] then [] else (if frames[0].opcode in {9, 10} then [] else frames[0].payload) + Text(frames[1..])
  }

  function Pings(frames: seq<ServerFrame>): seq<Bytes> {
    if frames == [] then [] else (if frames[0].opcode == 9 then [frames[0].payload] else []) + Pings(frames[1..])
  }

  /** Each frame arrives while the data so far and its own payload are within the limit; pings and pongs count too. */
  predicate Fits(frames: seq<ServerFrame>, size: nat) {
    frames != [] ==>
      var n := |frames[0].payload|;
      size + n <= LIMIT && Fits(frames[1..], if frames[0].opcode in {9, 10} then size else size + n)
  }

  lemma OneFrame(f: ServerFrame, tail: Bytes)
    requires f.opcode < 16 && |f.payload| < Pow256(8)
    ensures Taken(Encoded(f) + tail) == Some(Raw(f.final, f.opcode, false, f.payload, tail))
  {
    var first := (f.opcode + (if f.final then 128 else 0)) as byte;
    var len := Length(|f.payload|, 0);
    var input := [first] + len + (f.payload + tail);
    assert Encoded(f) + tail == input;
    HeaderRoundTrip(first, |f.payload|, 0, f.payload + tail);
    var at := 1 + |len|;
    assert input[at..][..|f.payload|] == f.payload;
    assert input[at..at + |f.payload|] == f.payload;
    assert input[at + |f.payload|..] == input[at..][|f.payload|..] == tail;
  }

  /** What the input parses to, likewise. */
  ghost predicate Parses(input: Bytes, n: nat, raws: seq<Raw>) {
    forall k {:trigger Show(k)} :: Show(k) ==> Parse(input, n) == raws
  }

  /** One frame at the start of the input is parsed off. */
  lemma ParseOne(f: ServerFrame, bytes: Bytes, tail: Bytes, n: nat, later: seq<Raw>)
    requires Coded(f, bytes) && n > 0 && Parses(tail, n - 1, later)
    ensures Parses(bytes + tail, n, [Raw(f.final, f.opcode, false, f.payload, tail)] + later)
  {
    assert Show(0);
    OneFrame(f, tail);
  }

  lemma ParseSome(input: Bytes, n: nat) returns (raws: seq<Raw>)
    ensures Parses(input, n, raws)
  {
    raws := Parse(input, n);
  }

  /** The frames read back from the wire. */
  predicate ReadBack(frames: seq<ServerFrame>, raws: seq<Raw>, tail: Bytes) {
    && frames != [] && |raws| >= |frames| && raws[|frames| - 1].rest == tail
    && forall i :: 0 <= i < |frames| ==> Read(frames[i], raws[i])
  }

  predicate Read(f: ServerFrame, r: Raw) {
    r.final == f.final && r.opcode == f.opcode && !r.flags && r.payload == f.payload
  }

  lemma {:induction false} WireReadsBack(frames: seq<ServerFrame>, pieces: seq<Bytes>, tail: Bytes, n: nat) returns (raws: seq<Raw>)
    requires frames != [] && AllCoded(frames, pieces) && |frames| <= n
    ensures Parses(Joined(pieces) + tail, n, raws) && ReadBack(frames, raws, tail)
    decreases |frames|
  {
    var f, rest := frames[0], frames[1..];
    var later := Joined(pieces[1..]) + tail;
    var others;
    if rest == [] {
      assert later == tail;
      others := ParseSome(tail, n - 1);
    } else {
      others := WireReadsBack(rest, pieces[1..], tail, n - 1);
    }
    ParseOne(f, pieces[0], later, n, others);
    assert Joined(pieces) + tail == pieces[0] + later;
    raws := [Raw(f.final, f.opcode, false, f.payload, later)] + others;
    ReadBackMore(frames, raws[0], others, tail);
  }

  lemma ReadBackMore(frames: seq<ServerFrame>, r: Raw, later: seq<Raw>, tail: Bytes)
    requires frames != [] && Read(frames[0], r)
    requires if |frames| == 1 then r.rest == tail else ReadBack(frames[1..], later, tail)
    ensures ReadBack(frames, [r] + later, tail)
  {
  }

  lemma ReadBackRest(frames: seq<ServerFrame>, raws: seq<Raw>, tail: Bytes)
    requires ReadBack(frames, raws, tail)
    ensures Read(frames[0], raws[0])
    ensures if |frames| == 1 then raws[0].rest == tail else ReadBack(frames[1..], raws[1..], tail)
  {
  }

  lemma {:induction false} AssemblesMessage(frames: seq<ServerFrame>, raws: seq<Raw>, tail: Bytes, data: Bytes, started: bool)
    requires Legal(frames, started) && Fits(frames, |data|) && ReadBack(frames, raws, tail)
    ensures Assemble(raws, data, started) == Result(Message(data + Text(frames), tail), Pings(frames))
    decreases |frames|
  {
    var f, rest := frames[0], frames[1..];
    ReadBackRest(frames, raws, tail);
    if f.opcode in {9, 10} {
      AssemblesMessage(rest, raws[1..], tail, data, started);
      assert Text(frames) == Text(rest);
    } else if f.final {
      assert Text(frames) == f.payload;
    } else {
      AssemblesMessage(rest, raws[1..], tail, data + f.payload, true);
      assert data + f.payload + Text(rest) == data + Text(frames);
      assert Pings(frames) == Pings(rest);
    }
  }

  /** A frame that does not fit ends the message, even a ping that would only have been answered. */
  lemma {:induction false} OversizeIsRefused(frames: seq<ServerFrame>, raws: seq<Raw>, tail: Bytes, data: Bytes, started: bool)
    requires Legal(frames, started) && !Fits(frames, |data|) && ReadBack(frames, raws, tail)
    ensures Assemble(raws, data, started).outcome == Failed
    decreases |frames|
  {
    var f, rest := frames[0], frames[1..];
    ReadBackRest(frames, raws, tail);
    if |data| + |f.payload| <= LIMIT {
      if f.opcode in {9, 10} {
        OversizeIsRefused(rest, raws[1..], tail, data, started);
      } else {
        OversizeIsRefused(rest, raws[1..], tail, data + f.payload, true);
      }
    }
  }

  /** The first n frames, when there are more. */
  predicate ReadFirst(frames: seq<ServerFrame>, raws: seq<Raw>) {
    |raws| < |frames| && forall i :: 0 <= i < |raws| ==> Read(frames[i], raws[i])
  }

  lemma {:induction false} WireReadsFirst(frames: seq<ServerFrame>, pieces: seq<Bytes>, tail: Bytes, n: nat) returns (raws: seq<Raw>)
    requires AllCoded(frames, pieces) && n < |frames|
    ensures Parses(Joined(pieces) + tail, n, raws) && ReadFirst(frames, raws)
    decreases n
  {
    if n == 0 {
      raws := ParseSome(Joined(pieces) + tail, 0);
      assert Show(0) && raws == [];
    } else {
      var f, later := frames[0], Joined(pieces[1..]) + tail;
      var others := WireReadsFirst(frames[1..], pieces[1..], tail, n - 1);
      ParseOne(f, pieces[0], later, n, others);
      assert Joined(pieces) + tail == pieces[0] + later;
      raws := [Raw(f.final, f.opcode, false, f.payload, later)] + others;
    }
  }

  /** A message whose last frame was not read is not complete. */
  lemma {:induction false} CutShort(frames: seq<ServerFrame>, raws: seq<Raw>, data: Bytes, started: bool)
    requires Legal(frames, started) && ReadFirst(frames, raws)
    ensures Assemble(raws, data, started).outcome == Failed
    decreases |frames|
  {
    if raws != [] {
      assert Read(frames[0], raws[0]) && ReadFirst(frames[1..], raws[1..]);
      if frames[0].opcode in {9, 10} {
        CutShort(frames[1..], raws[1..], data, started);
      } else if !frames[0].final {
        CutShort(frames[1..], raws[1..], data + frames[0].payload, true);
      }
    }
  }

  lemma WholeMessage(frames: seq<ServerFrame>, raws: seq<Raw>, tail: Bytes)
    requires Legal(frames, false) && Fits(frames, 0) && ReadBack(frames, raws, tail)
    ensures Assemble(raws, [], false) == Result(Message(Text(frames), tail), Pings(frames))
  {
    AssemblesMessage(frames, raws, tail, [], false);
    assert [] + Text(frames) == Text(frames);
  }

  /** Receiving any legal fragmentation: when it has no more than n frames, and every frame fits within the limit
      together with the data before it, the message is reassembled exactly, what follows it is left unread, and each
      ping has been answered with its payload; otherwise the message is refused. */
  lemma ReceiveReassembles(frames: seq<ServerFrame>, pieces: seq<Bytes>, tail: Bytes, n: nat)
    requires Legal(frames, false) && AllCoded(frames, pieces)
    ensures Fits(frames, 0) && |frames| <= n ==> Receive(Joined(pieces) + tail, n) == Result(Message(Text(frames), tail), Pings(frames))
    ensures !(Fits(frames, 0) && |frames| <= n) ==> Receive(Joined(pieces) + tail, n).outcome == Failed
  {
    if |frames| > n {
      var raws := WireReadsFirst(frames, pieces, tail, n);
      CutShort(frames, raws, [], false);
    } else {
      var raws := WireReadsBack(frames, pieces, tail, n);
      if Fits(frames, 0) {
        WholeMessage(frames, raws, tail);
      } else {
        OversizeIsRefused(frames, raws, tail, [], false);
      }
    }
    assert Show(0);
  }

  /** A legal message whose text is within the limit is still refused when a ping meets a full buffer. */
  lemma PingCanRefuseALegalMessage() returns (frames: seq<ServerFrame>, pieces: seq<Bytes>)
    ensures Legal(frames, false) && AllCoded(frames, pieces) && |frames| == 3 && |frames[1].payload| == 1
    ensures |Text(frames)| == LIMIT && !Fits(frames, 0)
    ensures Receive(Joined(pieces), FRAMES).outcome == Failed
  {
    var text, ping, end := ServerFrame(false, 1, seq(LIMIT, _ => 65)), ServerFrame(true, 9, [0]), ServerFrame(true, 0, []);
    frames, pieces := [text, ping, end], [Encoded(text), Encoded(ping), Encoded(end)];
    Widths();
    assert frames[1..] == [ping, end] && frames[1..][1..] == [end] && [end][1..] == [];
    assert Text([end]) == [] && Text([ping, end]) == [];
    assert Text(frames) == text.payload;
    ReceiveReassembles(frames, pieces, [], FRAMES);
    assert Joined(pieces) + [] == Joined(pieces);
  }
}
