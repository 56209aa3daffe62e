/** 03-reliable/src/sender.cpp: the ten-slot inbox between the reader thread and the client. */
module Inbox {
  import opened Wrappers
  import opened Chunks
  import opened Subsequences

  /** The reader's side: a frame that finds the inbox full is lost. */
  function Deliver(inbox: seq<Msg>, m: Msg): seq<Msg> {
    if |inbox| < NUM_CHUNKS then inbox + [m] else inbox
  }

  /** A frame read off the socket, and how many were waiting in the inbox at that moment. */
  datatype Reading = Reading(msg: Msg, waiting: nat)

  function Frames(read: seq<Reading>): seq<Msg> {
    seq(|read|, i requires 0 <= i < |read| => read[i].msg)
  }

  /** The frames that found room. */
  function Stored(read: seq<Reading>): seq<Msg> {
    if read == [] then []
    else
      var last := read[|read| - 1];
      Stored(read[..|read| - 1]) + if last.waiting < NUM_CHUNKS then [last.msg] else []
  }

  /** Delivering keeps the newest frame unless ten are waiting, and disturbs no other. */
  lemma DeliverKeepsOrder(consumed: seq<Msg>, inbox: seq<Msg>, read: seq<Reading>, m: Msg)
    requires consumed + inbox == Stored(read)
    ensures consumed + Deliver(inbox, m) == Stored(read + [Reading(m, |inbox|)])
  {
    assert (read + [Reading(m, |inbox|)])[..|read|] == read;
  }

  lemma {:induction false} StoredIsSubsequence(read: seq<Reading>)
    ensures Subsequence(Stored(read), Frames(read))
  {
    if read != [] {
      var n := |read| - 1;
      StoredIsSubsequence(read[..n]);
      assert Frames(read)[..n] == Frames(read[..n]);
      if read[n].waiting < NUM_CHUNKS {
        assert Stored(read)[..|Stored(read)| - 1] == Stored(read[..n]);
      } else {
        assert Stored(read) == Stored(read[..n]);
      }
    }
  }

  class Sender {
    const data: array<Msg>
    var numMsgs: nat

    ghost predicate Valid()
      reads this, data
    {
      data.Length == NUM_CHUNKS && numMsgs <= data.Length
    }

    ghost function Contents(): seq<Msg>
      requires Valid()
      reads this, data
    {
      data[..numMsgs]
    }

    constructor ()
      ensures Valid() && fresh(data) && Contents() == []
    {
      data := new Msg[NUM_CHUNKS](_ => Msg(0, []));
      numMsgs := 0;
    }

    /** The body of the reader thread under its lock. */
    method StoreMsg(m: Msg)
      requires Valid()
      modifies this, data
      ensures Valid() && Contents() == Deliver(old(Contents()), m)
      ensures Contents() == if |old(Contents())| < 10 then old(Contents()) + [m] else old(Contents())
    {
      if numMsgs < data.Length {
        data[numMsgs] := m;
        numMsgs := numMsgs + 1;
      }
    }

    method DataReady() returns (ready: bool)
      requires Valid()
      ensures ready <==> Contents() != []
    {
      ready := numMsgs > 0;
    }

    /** None stands for the program's exit on an empty inbox. */
    method GetMsg() returns (m: Option<Msg>)
      requires Valid()
      modifies this, data
      ensures Valid()
      ensures m.None? <==> old(Contents()) == []
      ensures m.Some? ==> m.value == old(Contents())[0] && Contents() == old(Contents())[1..]
    {
      if numMsgs == 0 {
        return None;
      }
      m := Some(data[0]);
      var i := 1;
      while i < numMsgs
        invariant 1 <= i <= numMsgs == old(numMsgs)
        invariant forall k :: 0 <= k < i - 1 ==> data[k] == old(data[k + 1])
        invariant forall k :: i - 1 <= k < numMsgs ==> data[k] == old(data[k])
      {
        data[i - 1] := data[i];
        i := i + 1;
      }
      numMsgs := numMsgs - 1;
    }
  }
}
