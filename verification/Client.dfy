/** 03-reliable/src/client.cpp: requesting in a window, receiving, and writing in order. */
module Client {
  import opened Chunks

  const WINDOW_SIZE := 10
  const RETRANSMIT_TIMEOUT := 700

  datatype ClientState = ClientState(
    requested: seq<bool>, received: seq<bool>, chunks: seq<Bytes>, lastRequest: seq<int>,
    nextExpected: nat, outfile: Bytes)

  ghost predicate Sized(c: ClientState) {
    && |c.requested| == |c.received| == |c.chunks| == |c.lastRequest| == NUM_MSGS
    && c.nextExpected <= NUM_MSGS
  }

  function WindowEnd(nextExpected: nat): nat {
    if nextExpected + WINDOW_SIZE > NUM_MSGS then NUM_MSGS else nextExpected + WINDOW_SIZE
  }

  /** The client asks for chunk i now: for the first time, or because its last request has timed out. */
  predicate Asks(c: ClientState, i: nat, now: int)
    requires i < |c.requested| && i < |c.received| && i < |c.lastRequest|
  {
    !c.requested[i] || (!c.received[i] && now - c.lastRequest[i] >= RETRANSMIT_TIMEOUT)
  }

  /** The ids asked for among lo..hi - 1, in order. */
  function Asked(c: ClientState, lo: nat, hi: nat, now: int): seq<int>
    requires Sized(c) && hi <= NUM_MSGS
  {
    if hi <= lo then [] else Asked(c, lo, hi - 1, now) + if Asks(c, hi - 1, now) then [hi - 1] else []
  }

  /** The state after asking among lo..hi - 1. */
  function AfterAsking(c: ClientState, lo: nat, hi: nat, now: int): ClientState
    requires Sized(c) && hi <= NUM_MSGS
  {
    c.(requested := seq(NUM_MSGS, i requires 0 <= i < NUM_MSGS => c.requested[i] || lo <= i < hi),
       lastRequest := seq(NUM_MSGS, i requires 0 <= i < NUM_MSGS =>
         if lo <= i < hi && Asks(c, i, now) then now else c.lastRequest[i]))
  }

  function OnMsg(c: ClientState, m: Msg): ClientState
    requires Sized(c) && 0 <= m.id
  {
    if m.id >= NUM_MSGS || c.received[m.id] then c
    else c.(chunks := c.chunks[m.id := m.data], received := c.received[m.id := true])
  }

  function WriteReady(c: ClientState): ClientState
    requires Sized(c)
    decreases NUM_MSGS - c.nextExpected
  {
    if c.nextExpected < NUM_MSGS && c.received[c.nextExpected] then
      WriteReady(c.(outfile := c.outfile + c.chunks[c.nextExpected], nextExpected := c.nextExpected + 1))
    else c
  }

  function Repeat<T>(n: nat, x: T): (s: seq<T>)
    ensures |s| == n && forall i :: 0 <= i < n ==> s[i] == x
  {
    if n == 0 then [] else Repeat(n - 1, x) + [x]
  }

  function Untouched(): ClientState {
    ClientState(Repeat(NUM_MSGS, false), Repeat(NUM_MSGS, false), Repeat(NUM_MSGS, []), Repeat(NUM_MSGS, 0), 0, [])
  }

  /**
   * The file is exactly the chunks before nextExpected, in order; what else is held lies within the
   * window, was asked for, and is the server's.
   */
  ghost predicate ClientOk(msgs: seq<Bytes>, c: ClientState) {
    && Sized(c)
    && c.nextExpected <= |msgs| && c.outfile == Flatten(msgs[..c.nextExpected])
    && (forall i :: 0 <= i < NUM_MSGS && c.received[i] ==>
          c.requested[i] && i < |msgs| && c.chunks[i] == msgs[i])
    && (forall i :: 0 <= i < c.nextExpected ==> c.received[i])
    && (forall i :: 0 <= i < NUM_MSGS && c.requested[i] ==> i < c.nextExpected + WINDOW_SIZE)
  }

  lemma AskingKeepsOk(msgs: seq<Bytes>, c: ClientState, now: int)
    requires ClientOk(msgs, c)
    ensures ClientOk(msgs, AfterAsking(c, c.nextExpected, WindowEnd(c.nextExpected), now))
  {
  }

  /** A chunk is asked for exactly if it is in range, not here yet, and not asked for within the timeout. */
  lemma {:induction false} AskedExactly(msgs: seq<Bytes>, c: ClientState, lo: nat, hi: nat, now: int, i: int)
    requires ClientOk(msgs, c) && hi <= NUM_MSGS
    ensures i in Asked(c, lo, hi, now) <==>
              lo <= i < hi && !c.received[i] && (c.requested[i] ==> now - c.lastRequest[i] >= RETRANSMIT_TIMEOUT)
  {
    if lo < hi {
      AskedExactly(msgs, c, lo, hi - 1, now, i);
    }
  }

  /** The chunk is one of the ten from the next expected one on, as far as there are so many. */
  predicate InWindow(c: ClientState, i: int) {
    c.nextExpected <= i < c.nextExpected + 10 && i < 853
  }

  /** The chunk is not here, and has not been asked for within the last 700 ms. */
  predicate Wanted(c: ClientState, i: nat, now: int)
    requires Sized(c) && i < NUM_MSGS
  {
    !c.received[i] && (c.requested[i] ==> now - c.lastRequest[i] >= 700)
  }

  /**
   * One pass asks for exactly the chunks of the window that are wanted. Those are now asked for at this time, the
   * others keep their time, and nothing else about the client changes; so in the window nothing is left wanted.
   */
  lemma WindowIsCovered(msgs: seq<Bytes>, c: ClientState, now: int, i: nat)
    requires ClientOk(msgs, c) && i < NUM_MSGS
    ensures var c' := AfterAsking(c, c.nextExpected, WindowEnd(c.nextExpected), now);
      && (i in Asked(c, c.nextExpected, WindowEnd(c.nextExpected), now) <==> InWindow(c, i) && Wanted(c, i, now))
      && c' == c.(requested := c'.requested, lastRequest := c'.lastRequest) && Sized(c')
      && (c'.requested[i] <==> c.requested[i] || InWindow(c, i))
      && c'.lastRequest[i] == (if InWindow(c, i) && Wanted(c, i, now) then now else c.lastRequest[i])
      && (InWindow(c, i) ==> !Wanted(c', i, now))
  {
    AskedExactly(msgs, c, c.nextExpected, WindowEnd(c.nextExpected), now, i);
  }

  lemma MsgKeepsOk(msgs: seq<Bytes>, c: ClientState, m: Msg)
    requires ClientOk(msgs, c) && 0 <= m.id < |msgs| && m.data == msgs[m.id]
    requires m.id < NUM_MSGS ==> c.requested[m.id]
    ensures ClientOk(msgs, OnMsg(c, m))
    ensures var c' := OnMsg(c, m);
      && c'.nextExpected == c.nextExpected && c'.outfile == c.outfile && c'.requested == c.requested
      && c'.lastRequest == c.lastRequest
      && forall i :: 0 <= i < NUM_MSGS ==>
           && (c'.received[i] <==> c.received[i] || i == m.id)
           && (i == m.id || c'.chunks[i] == c.chunks[i])
  {
  }

  lemma {:induction false} WritingKeepsOk(msgs: seq<Bytes>, c: ClientState)
    requires ClientOk(msgs, c)
    ensures ClientOk(msgs, WriteReady(c)) && WriteReady(c).requested == c.requested
    ensures var n := WriteReady(c).nextExpected; n == NUM_MSGS || !WriteReady(c).received[n]
    decreases NUM_MSGS - c.nextExpected
  {
    var n := c.nextExpected;
    if n < NUM_MSGS && c.received[n] {
      assert msgs[..n + 1] == msgs[..n] + [msgs[n]];
      FlattenSnoc(msgs[..n], msgs[n]);
      WritingKeepsOk(msgs, c.(outfile := c.outfile + c.chunks[n], nextExpected := n + 1));
    }
  }

  class Receiver {
    const requested: array<bool>
    const received: array<bool>
    const chunks: array<Bytes>
    const lastRequest: array<int>
    var nextExpected: nat
    var totalWritten: nat
    var outfile: Bytes

    ghost predicate Valid()
      reads this, requested, received, chunks, lastRequest
    {
      && requested != received
      && requested.Length == received.Length == chunks.Length == lastRequest.Length == NUM_MSGS
      && nextExpected == totalWritten <= NUM_MSGS
    }

    ghost function View(): ClientState
      reads this, requested, received, chunks, lastRequest
    {
      ClientState(requested[..], received[..], chunks[..], lastRequest[..], nextExpected, outfile)
    }

    constructor ()
      ensures Valid() && View() == Untouched()
      ensures fresh(requested) && fresh(received) && fresh(chunks) && fresh(lastRequest)
    {
      requested := new bool[NUM_MSGS](_ => false);
      received := new bool[NUM_MSGS](_ => false);
      chunks := new Bytes[NUM_MSGS](_ => []);
      lastRequest := new int[NUM_MSGS](_ => 0);
      nextExpected, totalWritten, outfile := 0, 0, [];
      new;
      assert View() == Untouched();
    }

    /** One pass over the window; requests is what goes out on the socket. */
    method RequestWindow(now: int) returns (requests: seq<int>)
      requires Valid()
      modifies requested, lastRequest
      ensures Valid()
      ensures View() == AfterAsking(old(View()), nextExpected, WindowEnd(nextExpected), now)
      ensures requests == Asked(old(View()), nextExpected, WindowEnd(nextExpected), now)
    {
      ghost var c := View();
      var windowEnd := nextExpected + WINDOW_SIZE;
      if windowEnd > NUM_MSGS {
        windowEnd := NUM_MSGS;
      }
      requests := RequestUpTo(windowEnd, now);
      assert View() == AfterAsking(c, nextExpected, windowEnd, now);
    }

    /** The loop of that pass. */
    method RequestUpTo(windowEnd: nat, now: int) returns (requests: seq<int>)
      requires Valid() && nextExpected <= windowEnd <= NUM_MSGS
      modifies requested, lastRequest
      ensures Valid() && requests == Asked(old(View()), nextExpected, windowEnd, now)
      ensures forall k :: 0 <= k < NUM_MSGS ==>
                requested[k] == (old(View()).requested[k] || nextExpected <= k < windowEnd)
      ensures forall k :: 0 <= k < NUM_MSGS ==>
                lastRequest[k] == if nextExpected <= k < windowEnd && Asks(old(View()), k, now) then now
                                  else old(View()).lastRequest[k]
    {
      requests := [];
      ghost var c := View();
      var i := nextExpected;
      while i < windowEnd
        invariant nextExpected <= i <= windowEnd
        invariant requests == Asked(c, nextExpected, i, now)
        invariant forall k :: 0 <= k < NUM_MSGS ==> requested[k] == (c.requested[k] || nextExpected <= k < i)
        invariant forall k :: 0 <= k < NUM_MSGS ==>
                    lastRequest[k] == if nextExpected <= k < i && Asks(c, k, now) then now else c.lastRequest[k]
      {
        if !requested[i] {
          requests := requests + [i];
          requested[i] := true;
          lastRequest[i] := now;
        } else if !received[i] && now - lastRequest[i] >= RETRANSMIT_TIMEOUT {
          requests := requests + [i];
          lastRequest[i] := now;
        }
        i := i + 1;
      }
    }

    method Receive(m: Msg) returns (progress: bool)
      requires Valid() && 0 <= m.id
      modifies chunks, received
      ensures Valid() && View() == OnMsg(old(View()), m)
      ensures progress <==> m.id < 853 && !old(received[m.id])
      ensures !progress ==> View() == old(View())
    {
      if m.id >= NUM_MSGS {
        return false;
      }
      if received[m.id] {
        return false;
      }
      chunks[m.id] := m.data;
      received[m.id] := true;
      return true;
    }

    method WriteInOrder() returns (progress: bool)
      requires Valid()
      modifies this`nextExpected, this`totalWritten, this`outfile
      ensures Valid() && View() == WriteReady(old(View()))
      ensures progress <==> nextExpected > old(nextExpected)
    {
      progress := false;
      ghost var goal := WriteReady(View());
      while nextExpected < NUM_MSGS && received[nextExpected]
        invariant Valid() && WriteReady(View()) == goal
        invariant nextExpected >= old(nextExpected) && (progress <==> nextExpected > old(nextExpected))
        decreases NUM_MSGS - nextExpected
      {
        outfile := outfile + chunks[nextExpected];
        nextExpected := nextExpected + 1;
        totalWritten := totalWritten + 1;
        progress := true;
      }
    }
  }
}
