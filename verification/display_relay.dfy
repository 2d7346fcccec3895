/** The display relay: two bounded queues between a viewer and a provider, driven by readiness events. */
module DisplayRelay {
  import opened Base

  const QUEUE := 65536

  /** Descriptors: the viewer's input and output, and the provider's one for both. */
  datatype Endpoint = ViewerIn | ViewerOut | Provider

  datatype Ready = Ready(endpoint: Endpoint, read: bool, write: bool)

  datatype End = Running | ViewerLeft | ProviderDone

  class Relay {
    var toViewer: Bytes
    var toProvider: Bytes
    var providerOpen: bool
    // the streams as the other ends see them
    ghost var fromViewer: Bytes
    ghost var fromProvider: Bytes
    ghost var viewerGot: Bytes
    ghost var providerGot: Bytes
    // whether the provider was open when each turn began
    ghost var began: seq<bool>

    /** Every byte for the viewer is delivered or queued, in order; bytes for the provider likewise until it closes,
        which drops what is queued for it then. */
    ghost predicate Valid()
      reads this
    {
      && |toViewer| <= QUEUE && |toProvider| <= QUEUE
      && viewerGot + toViewer == fromProvider
      && (providerOpen ==> providerGot + toProvider == fromViewer)
      && providerGot <= fromViewer
    }

    constructor ()
      ensures Valid() && providerOpen && fromViewer == [] && fromProvider == []
    {
      toViewer, toProvider, providerOpen := [], [], true;
      fromViewer, fromProvider, viewerGot, providerGot, began := [], [], [], [], [];
    }

    /** What the relay waits for before a turn; a stream is only read while its queue has room. */
    predicate WaitsToRead(e: Endpoint)
      reads this
    {
      providerOpen && ((e == ViewerIn && |toProvider| < QUEUE) || (e == Provider && |toViewer| < QUEUE))
    }

    predicate WaitsToWrite(e: Endpoint)
      reads this
    {
      (e == ViewerOut && toViewer != []) || (e == Provider && providerOpen && toProvider != [])
    }

    /** How much may be read from an end for the other one; nothing once the provider has closed. */
    function Room(e: Endpoint): int
      reads this
    {
      if !providerOpen then 0
      else match e
        case ViewerIn => QUEUE - |toProvider|
        case Provider => QUEUE - |toViewer|
        case ViewerOut => 0
    }

    /** What waits to be written to an end. */
    function Backlog(e: Endpoint): Bytes
      reads this
    {
      match e
      case ViewerIn => []
      case ViewerOut => toViewer
      case Provider => if providerOpen then toProvider else []
    }

    predicate Registered(e: Ready)
      reads this
    {
      (e.read ==> WaitsToRead(e.endpoint)) && (e.write ==> WaitsToWrite(e.endpoint))
    }

    /** Of what is ready, the part the relay waits for. */
    function Selected(ready: seq<Ready>): (r: seq<Ready>)
      reads this
      ensures |r| == |ready|
      ensures forall i :: 0 <= i < |r| ==> Registered(r[i]) && r[i].endpoint == ready[i].endpoint
      ensures forall i :: 0 <= i < |r| ==> (r[i].read <==> ready[i].read && Room(ready[i].endpoint) > 0)
      ensures forall i :: 0 <= i < |r| ==> (r[i].write <==> ready[i].write && Backlog(ready[i].endpoint) != [])
      ensures Accepts(ready) && toViewer != [] ==> Accepts(r)
    {
      var r := seq(|ready|, i requires 0 <= i < |ready| reads this =>
        var e := ready[i];
        Ready(e.endpoint, e.read && WaitsToRead(e.endpoint), e.write && WaitsToWrite(e.endpoint)));
      assert forall i :: 0 <= i < |ready| && ready[i] == Ready(ViewerOut, ready[i].read, true) && toViewer != [] ==> r[i].write;
      r
    }

    /** One turn over the descriptors that became ready. An empty read ends its stream: no read asks for zero bytes.
        Once the provider has closed, a turn in which the viewer accepts output brings the end nearer. */
    method Turn(ready: seq<Ready>) returns (end: End)
      requires Valid() && Once(ready) && forall i :: 0 <= i < |ready| ==> Registered(ready[i])
      modifies this
      ensures Valid() && OnlyGrew(old(fromViewer), old(fromProvider), old(viewerGot), old(providerGot))
      ensures end in {Running, ViewerLeft} && began == old(began) + [old(providerOpen)]
      ensures !old(providerOpen) ==> end == Running && !providerOpen && fromProvider == old(fromProvider)
      ensures !old(providerOpen) ==> |toViewer| + (if Accepts(ready) then 1 else 0) <= |old(toViewer)|
      ensures end == ViewerLeft ==> Reads(ready, ViewerIn)
      ensures old(providerOpen) && !providerOpen ==> Reads(ready, Provider)
      ensures end == Running ==> Served(ready, |old(fromViewer)|, |old(fromProvider)|, |old(viewerGot)|, |old(providerGot)|)
    {
      began := began + [providerOpen];
      for i := 0 to |ready|
        invariant Valid() && began == old(began) + [old(providerOpen)] && OnlyGrew(old(fromViewer), old(fromProvider), old(viewerGot), old(providerGot))
        invariant !old(providerOpen) ==> !providerOpen && fromProvider == old(fromProvider)
        invariant !old(providerOpen) ==> |toViewer| + (if Accepts(ready[..i]) then 1 else 0) <= |old(toViewer)|
        invariant old(providerOpen) && !providerOpen ==> Reads(ready, Provider)
        invariant Served(ready[..i], |old(fromViewer)|, |old(fromProvider)|, |old(viewerGot)|, |old(providerGot)|)
        invariant forall k :: i <= k < |ready| ==> Servable(ready[k])
      {
        OneMore(ready, i);
        var open := Serve(ready[i]);
        if !open { return ViewerLeft; }
      }
      assert ready[..|ready|] == ready;
      return Running;
    }

    /** Since it was registered, an end can only have got more room or more to take, or the provider has closed. */
    predicate Servable(e: Ready)
      reads this
    {
      match e.endpoint
      case ViewerIn => !e.write && (e.read ==> |toProvider| < QUEUE)
      case ViewerOut => !e.read && (e.write ==> toViewer != [])
      case Provider =>
        && (e.read ==> |toViewer| < QUEUE && providerOpen) && (e.write && providerOpen ==> toProvider != [])
    }

    ghost predicate OnlyGrew(fromV: Bytes, fromP: Bytes, toV: Bytes, toP: Bytes)
      reads this
    {
      Extends(fromV, fromViewer) && Extends(fromP, fromProvider) && Extends(toV, viewerGot) && Extends(toP, providerGot)
    }

    /** One ready end; `open` says that the viewer has not left. */
    method Serve(e: Ready) returns (open: bool)
      requires Valid() && Servable(e)
      modifies this`toViewer, this`toProvider, this`providerOpen, this`fromViewer, this`fromProvider, this`viewerGot, this`providerGot
      ensures Valid() && OnlyGrew(old(fromViewer), old(fromProvider), old(viewerGot), old(providerGot))
      ensures !open ==> e.endpoint == ViewerIn && e.read
      ensures providerOpen ==> old(providerOpen)
      ensures old(providerOpen) && !providerOpen ==> e.endpoint == Provider && e.read
      ensures e.endpoint != Provider ==> providerOpen == old(providerOpen) && fromProvider == old(fromProvider)
      ensures !old(providerOpen) && e.endpoint == Provider ==> fromProvider == old(fromProvider)
      ensures e.endpoint != ViewerOut ==> |toViewer| >= |old(toViewer)| && (e.endpoint != Provider || !e.read ==> toViewer == old(toViewer))
      ensures e.endpoint == ViewerOut ==> |toViewer| + (if e.write then 1 else 0) <= |old(toViewer)|
      ensures e.endpoint != ViewerIn && providerOpen ==> |toProvider| <= |old(toProvider)|
      ensures e.endpoint != Provider ==> |toProvider| >= |old(toProvider)| && (e.endpoint == ViewerOut ==> toProvider == old(toProvider))
      ensures !providerOpen && e.endpoint == Provider ==> |toProvider| <= |old(toProvider)|
      ensures open && e.endpoint == ViewerIn && e.read ==> |fromViewer| > |old(fromViewer)|
      ensures e.endpoint == Provider && e.read ==> |fromProvider| > |old(fromProvider)| || !providerOpen
      ensures e.endpoint == ViewerOut && e.write ==> |viewerGot| > |old(viewerGot)|
      ensures e.endpoint == Provider && e.write && providerOpen ==> |providerGot| > |old(providerGot)|
    {
      open := true;
      if e.read {
        if e.endpoint == Provider {
          ReadProvider();
        } else {
          open := ReadViewer();
          if !open { return; }
        }
      }
      if e.write && (e.endpoint != Provider || providerOpen) {
        WriteTo(e.endpoint);
      }
    }

    /** Every ready end was served: a read brought something on or showed the end of the stream, and a write took something
        off its queue, unless the provider closed first. */
    ghost predicate Served(ready: seq<Ready>, fromV: nat, fromP: nat, toV: nat, toP: nat)
      reads this
    {
      && (Reads(ready, ViewerIn) ==> |fromViewer| > fromV)
      && (Reads(ready, Provider) ==> |fromProvider| > fromP || !providerOpen)
      && (Accepts(ready) ==> |viewerGot| > toV)
      && (Writes(ready, Provider) && providerOpen ==> |providerGot| > toP)
    }

    method ReadViewer() returns (open: bool)
      requires Valid() && |toProvider| < QUEUE
      modifies this`toProvider, this`fromViewer
      ensures Valid() && Extends(old(fromViewer), fromViewer) && (open ==> |fromViewer| > |old(fromViewer)|)
      ensures old(toProvider) <= toProvider
    {
      var data := ReadUpTo(QUEUE - |toProvider|);
      if data == [] { return false; }
      fromViewer, toProvider := fromViewer + data, toProvider + data;
      assert providerOpen ==> providerGot + toProvider == fromViewer;
      return true;
    }

    /** An empty read closes the provider's side and drops what was queued for it; its own output is still drained. */
    method ReadProvider()
      requires Valid() && |toViewer| < QUEUE && providerOpen
      modifies this`toViewer, this`toProvider, this`providerOpen, this`fromProvider
      ensures Valid() && Extends(old(fromProvider), fromProvider) && |toProvider| <= |old(toProvider)|
      ensures (providerOpen ==> |fromProvider| > |old(fromProvider)| && toProvider == old(toProvider)) && old(toViewer) <= toViewer
    {
      var data := ReadUpTo(QUEUE - |toViewer|);
      if data == [] {
        providerOpen, toProvider := false, [];
      } else {
        toViewer, fromProvider := toViewer + data, fromProvider + data;
        assert viewerGot + toViewer == fromProvider;
      }
    }

    /** Reads at most `size` bytes; asking for none would look like the end of the stream. */
    method ReadUpTo(size: nat) returns (data: Bytes)
      requires size > 0
      ensures |data| <= size
    {
      data := *;
      if |data| > size { data := data[..size]; }
    }

    /** Writes some of a queue, at least one byte of it, and removes what was written. */
    method WriteTo(endpoint: Endpoint)
      requires Valid() && endpoint != ViewerIn && (endpoint == Provider ==> providerOpen)
      modifies this`toViewer, this`toProvider, this`viewerGot, this`providerGot
      ensures Valid() && Extends(old(viewerGot), viewerGot) && Extends(old(providerGot), providerGot)
      ensures |toViewer| <= |old(toViewer)| && |toProvider| <= |old(toProvider)|
      ensures endpoint == ViewerOut && old(toViewer) != [] ==> |toViewer| < |old(toViewer)|
      ensures endpoint == Provider ==> toViewer == old(toViewer)
      ensures endpoint == ViewerOut ==> toProvider == old(toProvider)
      ensures endpoint == ViewerOut && old(toViewer) != [] ==> |viewerGot| > |old(viewerGot)|
      ensures endpoint == Provider && old(toProvider) != [] ==> |providerGot| > |old(providerGot)|
    {
      var queue := if endpoint == ViewerOut then toViewer else toProvider;
      var count: int := *;
      count := Min(Max(1, count), |queue|);
      if endpoint == ViewerOut {
        viewerGot := viewerGot + toViewer[..count];
        toViewer := toViewer[count..];
      } else {
        providerGot := providerGot + toProvider[..count];
        toProvider := toProvider[count..];
      }
    }

    /** Turns until the deadline, the viewer's end, or the provider's end with its output drained. `closed` is the
        first turn that began with the provider closed: from then on every turn in which the viewer accepts output
        takes at least a byte off one bounded queue, so that a full queue of such turns reaches the provider's end. */
    method Run(turns: seq<seq<Ready>>) returns (end: End, ghost closed: nat)
      requires Valid() && forall i :: 0 <= i < |turns| ==> Once(turns[i])
      modifies this
      ensures Valid() && closed <= |turns| && (!old(providerOpen) ==> closed == 0)
      ensures FirstClosed(old(began), began, closed) && (end == Running ==> |began| == |old(began)| + |turns|)
      ensures end == ProviderDone ==> !providerOpen && viewerGot == fromProvider
      ensures closed < |turns| ==> end in {Running, ProviderDone} && !providerOpen
      ensures closed < |turns| && end == Running ==> |toViewer| + Acceptances(turns[closed..]) <= QUEUE
      ensures !old(providerOpen) ==> fromProvider == old(fromProvider) && end != ViewerLeft
      ensures !old(providerOpen) && Acceptances(turns) > |old(toViewer)| ==> end == ProviderDone
      ensures viewerGot <= fromProvider && |fromProvider| - |viewerGot| <= QUEUE
      ensures providerGot <= fromViewer && (providerOpen ==> |fromViewer| - |providerGot| <= QUEUE)
      ensures Extends(old(viewerGot), viewerGot) && Extends(old(providerGot), providerGot)
    {
      closed := |turns|;
      ghost var room := QUEUE;  // at most what was queued for the viewer when the provider closed
      for i := 0 to |turns|
        invariant Valid() && if providerOpen then closed == |turns| else closed == |turns| || closed < i
        invariant closed < |turns| ==> !providerOpen && |toViewer| + Acceptances(turns[closed..i]) <= room <= QUEUE
        invariant !old(providerOpen) ==> !providerOpen && fromProvider == old(fromProvider)
        invariant !old(providerOpen) ==> if i == 0 then toViewer == old(toViewer) else closed == 0 && room == |old(toViewer)|
        invariant Extends(old(viewerGot), viewerGot) && Extends(old(providerGot), providerGot)
        invariant FirstClosed(old(began), began, closed) && |began| == |old(began)| + i
      {
        if !providerOpen && closed == |turns| { closed, room := i, |toViewer|; }
        if !providerOpen && toViewer == [] { return ProviderDone, closed; }
        end := Turn(Selected(turns[i]));
        if closed <= i { AcceptancesStep(turns, closed, i); }
        if end == ViewerLeft { return; }
      }
      assert turns[closed..|turns|] == turns[closed..];
      if closed == 0 { assert turns[0..] == turns; }
      return Running, closed;
    }

    /** After the provider closed, as many turns as bytes are queued are enough if the viewer accepts output in each:
        nothing the provider sent is lost. */
    method Drain() returns (end: End)
      requires Valid() && !providerOpen
      modifies this
      ensures Valid() && end == ProviderDone && fromProvider == old(fromProvider) && viewerGot == fromProvider
    {
      var turn := [Ready(ViewerOut, false, true)];
      var turns := seq(|toViewer| + 1, _ => turn);
      assert turn[0].endpoint == ViewerOut;
      AllAccept(turns);
      ghost var closed;
      end, closed := Run(turns);
    }
  }

  /** Of the turns taken since, the first `closed` began with the provider open, and all others with it closed. */
  ghost predicate FirstClosed(before: seq<bool>, after: seq<bool>, closed: nat) {
    before <= after && forall i :: |before| <= i < |after| ==> (after[i] <==> i - |before| < closed)
  }

  /** A descriptor is reported once in a turn. */
  predicate Once(ready: seq<Ready>) {
    forall i, j :: 0 <= i < j < |ready| ==> ready[i].endpoint != ready[j].endpoint
  }

  predicate Reads(ready: seq<Ready>, e: Endpoint) {
    exists i :: 0 <= i < |ready| && ready[i].endpoint == e && ready[i].read
  }

  predicate Writes(ready: seq<Ready>, e: Endpoint) {
    exists i :: 0 <= i < |ready| && ready[i].endpoint == e && ready[i].write
  }

  lemma OneMore(ready: seq<Ready>, i: nat)
    requires i < |ready|
    ensures forall e :: Reads(ready[..i + 1], e) <==> Reads(ready[..i], e) || (ready[i].endpoint == e && ready[i].read)
    ensures forall e :: Writes(ready[..i + 1], e) <==> Writes(ready[..i], e) || (ready[i].endpoint == e && ready[i].write)
  {
    var more := ready[..i + 1];
    assert more[i] == ready[i] && more[..i] == ready[..i];
    forall e | Reads(ready[..i], e) ensures Reads(more, e) {
      var k :| 0 <= k < i && ready[..i][k].endpoint == e && ready[..i][k].read;
      assert more[k].endpoint == e && more[k].read;
    }
    forall e | Writes(ready[..i], e) ensures Writes(more, e) {
      var k :| 0 <= k < i && ready[..i][k].endpoint == e && ready[..i][k].write;
      assert more[k].endpoint == e && more[k].write;
    }
    forall e | Reads(more, e) && !(ready[i].endpoint == e && ready[i].read) ensures Reads(ready[..i], e) {
      var k :| 0 <= k < i + 1 && more[k].endpoint == e && more[k].read;
      assert ready[..i][k].endpoint == e && ready[..i][k].read;
    }
    forall e | Writes(more, e) && !(ready[i].endpoint == e && ready[i].write) ensures Writes(ready[..i], e) {
      var k :| 0 <= k < i + 1 && more[k].endpoint == e && more[k].write;
      assert ready[..i][k].endpoint == e && ready[..i][k].write;
    }
  }

  /** The viewer's output accepts bytes in this turn. */
  predicate Accepts(ready: seq<Ready>) { Writes(ready, ViewerOut) }

  /** The turns in which it does. */
  function Acceptances(turns: seq<seq<Ready>>): nat {
    if turns == [] then 0 else Acceptances(turns[..|turns| - 1]) + if Accepts(turns[|turns| - 1]) then 1 else 0
  }

  lemma AcceptancesStep(turns: seq<seq<Ready>>, from: nat, i: nat)
    requires from <= i < |turns|
    ensures Acceptances(turns[from..i + 1]) == Acceptances(turns[from..i]) + if Accepts(turns[i]) then 1 else 0
  {
    var more := turns[from..i + 1];
    assert more[|more| - 1] == turns[i];
    assert more[..|more| - 1] == turns[from..i];
  }

  lemma {:induction false} AllAccept(turns: seq<seq<Ready>>)
    requires forall i :: 0 <= i < |turns| ==> Accepts(turns[i])
    ensures Acceptances(turns) == |turns|
  {
    if turns != [] { AllAccept(turns[..|turns| - 1]); }
  }

  ghost predicate Extends(before: Bytes, after: Bytes) { before <= after }
}
