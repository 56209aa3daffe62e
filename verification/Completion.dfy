/**
 * No loss, delay, burst or full inbox can wedge the transfer: from every state of every run there are
 * turns of client, reader and server after which the client's loop is over.
 */
module Completion {
  import opened Wrappers
  import opened Chunks
  import opened Server
  import opened Inbox
  import opened Client
  import opened Transfer

  /** The server neither loses nor delays the next request. */
  const KIND := Fate(false, 0, false, 0)

  function Never(): nat -> bool {
    i => false
  }

  /** Requests that a chaotic burst will still swallow. */
  function Burst(s: System): nat {
    if s.server.burstDropRemaining > 0 then s.server.burstDropRemaining else 0
  }

  /** What was received stays so, nothing was written, and no new burst began. */
  ghost predicate Onward(s: System, t: System) {
    && t.client.nextExpected == s.client.nextExpected && Burst(t) <= Burst(s)
    && |t.client.received| == |s.client.received|
    && forall i :: 0 <= i < |s.client.received| && s.client.received[i] ==> t.client.received[i]
  }

  /** The client's side is quiet, and the requests and the server are as they were. */
  ghost predicate SameServer(s: System, t: System) {
    t.server == s.server && t.toServer == s.toServer
  }

  lemma {:induction false} FromAppend(msgs: seq<Bytes>, o: Options, s: System, a: seq<Turn>, b: seq<Turn>)
    requires SystemOk(msgs, o, s)
    ensures From(msgs, o, s, a + b) == From(msgs, o, From(msgs, o, s, a), b)
    decreases |a|
  {
    if a == [] {
      assert a + b == b;
    } else {
      NextOk(msgs, o, s, a[0]);
      FromAppend(msgs, o, Next(msgs, o, s, a[0]), a[1..], b);
      TailOfSum(a, b);
    }
  }

  lemma TailOfSum<T>(a: seq<T>, b: seq<T>)
    requires a != []
    ensures a + b != [] && (a + b)[0] == a[0] && (a + b)[1..] == a[1..] + b
  {
  }

  lemma FromOne(msgs: seq<Bytes>, o: Options, s: System, t: Turn)
    requires SystemOk(msgs, o, s)
    ensures From(msgs, o, s, [t]) == Next(msgs, o, s, t)
  {
    NextOk(msgs, o, s, t);
    assert [t][1..] == [];
  }

  // ---------------------------------------------------------------- clocks that run forward

  function TimeOf(t: Turn, before: int): int {
    match t
    case Ask(now) => now
    case Reply(now, _) => now
    case Serve(now, _) => now
    case _ => before
  }

  /** The clock readings of the turns never go back, from lo to at most hi. */
  ghost predicate Clocked(turns: seq<Turn>, lo: int, hi: int)
    decreases |turns|
  {
    if turns == [] then lo <= hi
    else lo <= TimeOf(turns[0], lo) && Clocked(turns[1..], TimeOf(turns[0], lo), hi)
  }

  lemma {:induction false} ClockedAppend(a: seq<Turn>, b: seq<Turn>, lo: int, mid: int, hi: int)
    requires Clocked(a, lo, mid) && Clocked(b, mid, hi)
    ensures Clocked(a + b, lo, hi)
    decreases |a|
  {
    if a == [] {
      assert a + b == b;
      EarlierStart(b, lo, mid, hi);
    } else {
      ClockedAppend(a[1..], b, TimeOf(a[0], lo), mid, hi);
      TailOfSum(a, b);
    }
  }

  lemma {:induction false} EarlierStart(turns: seq<Turn>, lo: int, mid: int, hi: int)
    requires lo <= mid && Clocked(turns, mid, hi)
    ensures Clocked(turns, lo, hi)
    decreases |turns|
  {
    if turns != [] {
      EarlierStart(turns[1..], TimeOf(turns[0], lo), TimeOf(turns[0], mid), hi);
    }
  }

  /** One turn first, then the rest. */
  lemma OneThen(msgs: seq<Bytes>, o: Options, s: System, t: Turn, s1: System, rest: seq<Turn>, lo: int, hi: int)
    returns (turns: seq<Turn>)
    requires SystemOk(msgs, o, s) && s1 == Next(msgs, o, s, t) && SystemOk(msgs, o, s1)
    requires lo <= TimeOf(t, lo) && Clocked(rest, TimeOf(t, lo), hi)
    ensures From(msgs, o, s, turns) == From(msgs, o, s1, rest) && Clocked(turns, lo, hi)
  {
    FromOne(msgs, o, s, t);
    FromAppend(msgs, o, s, [t], rest);
    turns := [t] + rest;
    assert turns[1..] == rest;
  }

  lemma Join(msgs: seq<Bytes>, o: Options, s: System, first: seq<Turn>, rest: seq<Turn>, lo: int, mid: int, hi: int)
    returns (turns: seq<Turn>)
    requires SystemOk(msgs, o, s) && Clocked(first, lo, mid) && Clocked(rest, mid, hi)
    ensures From(msgs, o, s, turns) == From(msgs, o, From(msgs, o, s, first), rest) && Clocked(turns, lo, hi)
  {
    FromAppend(msgs, o, s, first, rest);
    ClockedAppend(first, rest, lo, mid, hi);
    turns := first + rest;
  }

  // ---------------------------------------------------------------- single turns

  lemma Taking(msgs: seq<Bytes>, o: Options, s: System)
    requires SystemOk(msgs, o, s) && s.inbox != []
    ensures var t := Next(msgs, o, s, Take);
      && Onward(s, t) && SameServer(s, t) && t.toClient == s.toClient && t.inbox == s.inbox[1..]
      && (0 <= s.inbox[0].id < NUM_MSGS ==> t.client.received[s.inbox[0].id])
  {
    assert TrueMsg(msgs, s.client, s.inbox[0]);
  }

  lemma AnswersReadable(msgs: seq<Bytes>, o: Options, s: System)
    requires SystemOk(msgs, o, s) && s.toClient != []
    ensures ReadMsg(s.toClient).Some? && |ReadMsg(s.toClient).value.1| < |s.toClient|
  {
    var ms :| OnTheSocket(s.server.sent, Frames(s.read), s.toClient, ms) && TrueMsgs(msgs, s.client, ms);
    assert ms != [];
    forall i | 0 <= i < |ms| ensures Framed(ms[i]) {
      assert TrueMsg(msgs, s.client, ms[i]);
    }
    ReadsFrames(ms);
  }

  lemma Reading1(msgs: seq<Bytes>, o: Options, s: System)
    requires SystemOk(msgs, o, s) && s.toClient != []
    ensures var t := Next(msgs, o, s, Read);
      Onward(s, t) && SameServer(s, t) && |t.toClient| < |s.toClient|
  {
    AnswersReadable(msgs, o, s);
  }

  lemma RequestsReadable(msgs: seq<Bytes>, o: Options, s: System)
    requires SystemOk(msgs, o, s) && s.toServer != []
    ensures ReadId(s.toServer).Some? && |ReadId(s.toServer).value.1| < |s.toServer|
  {
    var ids :| s.toServer == EncodeIds(ids) && AllAsked(s.client, ids);
    assert ids != [];
    forall i | 0 <= i < |ids| ensures 0 <= ids[i] < 65536 {
      assert WasAsked(s.client, ids[i]);
    }
    ReadsIds(ids);
  }

  lemma Serving(msgs: seq<Bytes>, o: Options, s: System, now: int)
    requires SystemOk(msgs, o, s) && s.toServer != []
    ensures var t := Next(msgs, o, s, Serve(now, KIND));
      Onward(s, t) && |t.toServer| < |s.toServer|
  {
    RequestsReadable(msgs, o, s);
  }

  /** A time by which every waiting request is due. */
  lemma {:induction false} LatestDue(delays: seq<Request>, lo: int) returns (now: int)
    ensures lo <= now && Kept(delays, now) == []
  {
    if delays == [] {
      now := lo;
    } else {
      var n := |delays| - 1;
      var before := LatestDue(delays[..n], lo);
      now := if delays[n].due < before then before else delays[n].due + 1;
      StillDue(delays[..n], before, now);
    }
  }

  lemma {:induction false} StillDue(delays: seq<Request>, before: int, now: int)
    requires before <= now && Kept(delays, before) == []
    ensures Kept(delays, now) == []
  {
    if delays != [] {
      StillDue(delays[..|delays| - 1], before, now);
    }
  }

  lemma Replying(msgs: seq<Bytes>, o: Options, s: System, now: int)
    requires SystemOk(msgs, o, s) && Kept(s.server.delays, now) == []
    ensures var t := Next(msgs, o, s, Reply(now, Never()));
      && Onward(s, t) && t.toServer == s.toServer && t.server.delays == [] && t.inbox == s.inbox
      && t.server.burstDropRemaining == s.server.burstDropRemaining
      && t.client == s.client
  {
  }

  // ---------------------------------------------------------------- emptying the pipes

  lemma {:induction false} EmptyInbox(msgs: seq<Bytes>, o: Options, s: System, lo: int) returns (turns: seq<Turn>)
    requires SystemOk(msgs, o, s)
    ensures Clocked(turns, lo, lo)
    ensures var t := From(msgs, o, s, turns);
      Onward(s, t) && SameServer(s, t) && t.toClient == s.toClient && t.inbox == []
    decreases |s.inbox|
  {
    if s.inbox == [] {
      turns := [];
    } else {
      NextOk(msgs, o, s, Take);
      Taking(msgs, o, s);
      var rest := EmptyInbox(msgs, o, Next(msgs, o, s, Take), lo);
      turns := OneThen(msgs, o, s, Take, Next(msgs, o, s, Take), rest, lo, lo);
    }
  }

  lemma {:induction false} EmptyAnswers(msgs: seq<Bytes>, o: Options, s: System, lo: int) returns (turns: seq<Turn>)
    requires SystemOk(msgs, o, s)
    ensures Clocked(turns, lo, lo)
    ensures var t := From(msgs, o, s, turns);
      Onward(s, t) && SameServer(s, t) && t.toClient == [] && t.inbox == []
    decreases |s.toClient|
  {
    if s.toClient == [] {
      turns := EmptyInbox(msgs, o, s, lo);
    } else {
      NextOk(msgs, o, s, Read);
      Reading1(msgs, o, s);
      var rest := EmptyAnswers(msgs, o, Next(msgs, o, s, Read), lo);
      turns := OneThen(msgs, o, s, Read, Next(msgs, o, s, Read), rest, lo, lo);
    }
  }

  lemma ReplyToAll(msgs: seq<Bytes>, o: Options, s: System, lo: int) returns (now: int)
    requires SystemOk(msgs, o, s)
    ensures lo <= now
    ensures var t := Next(msgs, o, s, Reply(now, Never()));
      && SystemOk(msgs, o, t) && Onward(s, t) && t.toServer == s.toServer && t.server.delays == []
  {
    now := LatestDue(s.server.delays, lo);
    NextOk(msgs, o, s, Reply(now, Never()));
    Replying(msgs, o, s, now);
  }

  /** Everything the server has accepted is answered and taken. */
  lemma EmptyServer(msgs: seq<Bytes>, o: Options, s: System, lo: int) returns (turns: seq<Turn>, hi: int)
    requires SystemOk(msgs, o, s)
    ensures Clocked(turns, lo, hi)
    ensures var t := From(msgs, o, s, turns);
      Onward(s, t) && t.toServer == s.toServer && t.server.delays == [] && t.toClient == [] && t.inbox == []
  {
    hi := ReplyToAll(msgs, o, s, lo);
    var reply := Reply(hi, Never());
    var s1 := Next(msgs, o, s, reply);
    var rest := EmptyAnswers(msgs, o, s1, hi);
    turns := OneThen(msgs, o, s, reply, s1, rest, lo, hi);
  }

  ghost predicate Empty(s: System) {
    s.toServer == [] && s.server.delays == [] && s.toClient == [] && s.inbox == []
  }

  lemma {:induction false} EmptyRequests(msgs: seq<Bytes>, o: Options, s: System, lo: int) returns (turns: seq<Turn>)
    requires SystemOk(msgs, o, s)
    ensures Clocked(turns, lo, lo)
    ensures var t := From(msgs, o, s, turns); Onward(s, t) && t.toServer == []
    decreases |s.toServer|
  {
    if s.toServer == [] {
      turns := [];
    } else {
      var serve := Serve(lo, KIND);
      NextOk(msgs, o, s, serve);
      Serving(msgs, o, s, lo);
      var rest := EmptyRequests(msgs, o, Next(msgs, o, s, serve), lo);
      turns := OneThen(msgs, o, s, serve, Next(msgs, o, s, serve), rest, lo, lo);
    }
  }

  lemma EmptyAll(msgs: seq<Bytes>, o: Options, s: System, lo: int) returns (turns: seq<Turn>, hi: int)
    requires SystemOk(msgs, o, s)
    ensures Clocked(turns, lo, hi)
    ensures var t := From(msgs, o, s, turns); Onward(s, t) && Empty(t)
  {
    var first := EmptyRequests(msgs, o, s, lo);
    var rest;
    rest, hi := EmptyServer(msgs, o, From(msgs, o, s, first), lo);
    turns := Join(msgs, o, s, first, rest, lo, lo, hi);
  }

  // ---------------------------------------------------------------- one more chunk

  lemma {:induction false} AskedHead(c: ClientState, lo: nat, hi: nat, now: int)
    requires Sized(c) && lo < hi <= NUM_MSGS && Asks(c, lo, now)
    ensures Asked(c, lo, hi, now) != [] && Asked(c, lo, hi, now)[0] == lo
  {
    if lo < hi - 1 {
      AskedHead(c, lo, hi - 1, now);
    }
  }

  /** With empty pipes, asking puts the id of the missing chunk at the head of the requests. */
  lemma AskingForNext(msgs: seq<Bytes>, o: Options, s: System, now: int)
    requires SystemOk(msgs, o, s) && Empty(s)
    requires s.client.nextExpected < NUM_MSGS && !s.client.received[s.client.nextExpected]
    requires now - s.client.lastRequest[s.client.nextExpected] >= RETRANSMIT_TIMEOUT
    ensures var n, t := s.client.nextExpected, Next(msgs, o, s, Ask(now));
      && Onward(s, t) && t.server == s.server && t.toClient == [] && t.inbox == []
      && t.toServer != [] && ReadId(t.toServer).Some? && ReadId(t.toServer).value.0 == n
  {
    var n := s.client.nextExpected;
    var ids := Asked(s.client, n, WindowEnd(n), now);
    AskedHead(s.client, n, WindowEnd(n), now);
    IdRoundTrip(n, EncodeIds(ids[1..]));
    assert EncodeIds(ids) == EncodeId(n) + EncodeIds(ids[1..]);
    assert s.toServer + EncodeIds(ids) == EncodeIds(ids);
  }

  /** Serving it costs the burst one, or the request is accepted. */
  lemma ServingNext(msgs: seq<Bytes>, o: Options, s: System, n: nat, now: int)
    requires SystemOk(msgs, o, s) && s.server.delays == [] && n < |msgs|
    requires ReadId(s.toServer).Some? && ReadId(s.toServer).value.0 == n
    ensures var t := Next(msgs, o, s, Serve(now, KIND));
      && Onward(s, t) && t.toClient == s.toClient && t.inbox == s.inbox
      && (Burst(t) < Burst(s) || exists r :: t.server.delays == [r] && r.id == n)
  {
    var t := Next(msgs, o, s, Serve(now, KIND));
    if !(o.chaos && s.server.burstDropRemaining > 0) {
      assert t.server.delays == [Request(now, n)];
    }
  }

  lemma OneReply(msgs: seq<Bytes>, r: Request, now: int, chaos: bool)
    requires 0 <= r.id < |msgs| && r.due < now
    ensures Replies(msgs, [r], now, chaos, Never()) == [Msg(r.id, msgs[r.id])]
    ensures EncodeAll([Msg(r.id, msgs[r.id])]) == EncodeMsg(Msg(r.id, msgs[r.id]))
  {
    assert [r][..0] == [];
    assert EncodeMsg(Msg(r.id, msgs[r.id])) + [] == EncodeMsg(Msg(r.id, msgs[r.id]));
  }

  /** The accepted request is answered with its chunk, and the frame is the only one on the socket. */
  lemma ReplyingNext(msgs: seq<Bytes>, o: Options, s: System, r: Request, now: int)
    requires SystemOk(msgs, o, s) && s.server.delays == [r] && s.toClient == [] && r.due < now
    ensures var t := Next(msgs, o, s, Reply(now, Never()));
      && Onward(s, t) && 0 <= r.id < |msgs| && t.inbox == s.inbox
      && ReadMsg(t.toClient) == Some((Msg(r.id, msgs[r.id]), []))
  {
    assert s.server.delays[0] == r && WasAsked(s.client, s.server.delays[0].id);
    assert 0 <= r.id < |msgs|;
    OneReply(msgs, r, now, o.chaos);
    var m := Msg(r.id, msgs[r.id]);
    assert Framed(m);
    ReadsFrames([m]);
    assert [m][1..] == [];
    assert [] + EncodeAll([m]) == EncodeAll([m]);
  }

  lemma ReadingNext(msgs: seq<Bytes>, o: Options, s: System, m: Msg)
    requires SystemOk(msgs, o, s) && s.inbox == [] && ReadMsg(s.toClient) == Some((m, []))
    ensures var t := Next(msgs, o, s, Read); Onward(s, t) && t.inbox == [m]
  {
  }

  lemma ReadAndTake(msgs: seq<Bytes>, o: Options, s: System, m: Msg, lo: int) returns (turns: seq<Turn>)
    requires SystemOk(msgs, o, s) && s.inbox == [] && ReadMsg(s.toClient) == Some((m, []))
    requires 0 <= m.id < NUM_MSGS
    ensures Clocked(turns, lo, lo)
    ensures var t := From(msgs, o, s, turns); Onward(s, t) && t.client.received[m.id]
  {
    NextOk(msgs, o, s, Read);
    ReadingNext(msgs, o, s, m);
    var s1 := Next(msgs, o, s, Read);
    NextOk(msgs, o, s1, Take);
    Taking(msgs, o, s1);
    turns := OneThen(msgs, o, s1, Take, Next(msgs, o, s1, Take), [], lo, lo);
    turns := OneThen(msgs, o, s, Read, s1, turns, lo, lo);
  }

  lemma ReplyToOne(msgs: seq<Bytes>, o: Options, s: System, r: Request, lo: int) returns (now: int)
    requires SystemOk(msgs, o, s) && s.server.delays == [r] && s.toClient == []
    ensures lo <= now
    ensures var t := Next(msgs, o, s, Reply(now, Never()));
      && SystemOk(msgs, o, t) && Onward(s, t) && 0 <= r.id < |msgs| && t.inbox == s.inbox
      && ReadMsg(t.toClient) == Some((Msg(r.id, msgs[r.id]), []))
  {
    now := if lo > r.due then lo else r.due + 1;
    NextOk(msgs, o, s, Reply(now, Never()));
    ReplyingNext(msgs, o, s, r, now);
  }

  /** An accepted request for the missing chunk gets it to the client. */
  lemma FetchAccepted(msgs: seq<Bytes>, o: Options, s: System, r: Request, lo: int)
    returns (turns: seq<Turn>, hi: int)
    requires SystemOk(msgs, o, s) && s.server.delays == [r] && s.toClient == [] && s.inbox == []
    requires 0 <= r.id < NUM_MSGS
    ensures Clocked(turns, lo, hi)
    ensures var t := From(msgs, o, s, turns);
      Onward(s, t) && t.client.received[r.id]
  {
    hi := ReplyToOne(msgs, o, s, r, lo);
    var reply := Reply(hi, Never());
    var s1 := Next(msgs, o, s, reply);
    var rest := ReadAndTake(msgs, o, s1, Msg(r.id, msgs[r.id]), hi);
    turns := OneThen(msgs, o, s, reply, s1, rest, lo, hi);
  }

  /** The client asks for the missing chunk as soon as it may. */
  lemma AskInTime(msgs: seq<Bytes>, o: Options, s: System, lo: int) returns (now: int)
    requires SystemOk(msgs, o, s) && Empty(s)
    requires s.client.nextExpected < NUM_MSGS && !s.client.received[s.client.nextExpected]
    ensures lo <= now
    ensures var n, t := s.client.nextExpected, Next(msgs, o, s, Ask(now));
      && SystemOk(msgs, o, t) && Onward(s, t) && t.server == s.server && t.toClient == [] && t.inbox == []
      && t.toServer != [] && ReadId(t.toServer).Some? && ReadId(t.toServer).value.0 == n
  {
    var due := s.client.lastRequest[s.client.nextExpected] + RETRANSMIT_TIMEOUT;
    now := if lo < due then due else lo;
    NextOk(msgs, o, s, Ask(now));
    AskingForNext(msgs, o, s, now);
  }

  /** The turns up to the server's decision on the request for the missing chunk. */
  lemma AskAndServe(msgs: seq<Bytes>, o: Options, s: System, lo: int) returns (turns: seq<Turn>, hi: int)
    requires SystemOk(msgs, o, s) && Empty(s) && s.client.nextExpected < NUM_MSGS <= |msgs|
    requires !s.client.received[s.client.nextExpected]
    ensures Clocked(turns, lo, hi)
    ensures var n, t := s.client.nextExpected, From(msgs, o, s, turns);
      && Onward(s, t) && t.toClient == [] && t.inbox == []
      && (Burst(t) < Burst(s) || exists r :: t.server.delays == [r] && r.id == n)
  {
    var n := s.client.nextExpected;
    hi := AskInTime(msgs, o, s, lo);
    var s1, serve := Next(msgs, o, s, Ask(hi)), Serve(hi, KIND);
    NextOk(msgs, o, s1, serve);
    ServingNext(msgs, o, s1, n, hi);
    turns := OneThen(msgs, o, s1, serve, Next(msgs, o, s1, serve), [], hi, hi);
    turns := OneThen(msgs, o, s, Ask(hi), s1, turns, lo, hi);
  }

  /** With empty pipes, asking for the missing chunk gets it or wears a burst down. */
  lemma FetchOrWearDown(msgs: seq<Bytes>, o: Options, s: System, lo: int) returns (turns: seq<Turn>, hi: int)
    requires SystemOk(msgs, o, s) && Empty(s) && s.client.nextExpected < NUM_MSGS <= |msgs|
    requires !s.client.received[s.client.nextExpected]
    ensures Clocked(turns, lo, hi)
    ensures var t := From(msgs, o, s, turns);
      Onward(s, t) && (t.client.received[s.client.nextExpected] || Burst(t) < Burst(s))
  {
    var n := s.client.nextExpected;
    var first, mid := AskAndServe(msgs, o, s, lo);
    var s1 := From(msgs, o, s, first);
    if r :| s1.server.delays == [r] && r.id == n {
      var rest, end := FetchAccepted(msgs, o, s1, r, mid);
      turns := Join(msgs, o, s, first, rest, lo, mid, end);
      hi := end;
    } else {
      turns, hi := first, mid;
    }
  }

  lemma {:induction false} FetchNext(msgs: seq<Bytes>, o: Options, s: System, lo: int)
    returns (turns: seq<Turn>, hi: int)
    requires SystemOk(msgs, o, s) && s.client.nextExpected < NUM_MSGS <= |msgs|
    ensures Clocked(turns, lo, hi)
    ensures var t := From(msgs, o, s, turns);
      Onward(s, t) && t.client.received[s.client.nextExpected]
    decreases Burst(s), 1
  {
    turns, hi := EmptyAll(msgs, o, s, lo);
    var s1 := From(msgs, o, s, turns);
    if !s1.client.received[s.client.nextExpected] {
      var rest, end := FetchFromEmpty(msgs, o, s1, hi);
      turns := Join(msgs, o, s, turns, rest, lo, hi, end);
      hi := end;
    }
  }

  lemma {:induction false} FetchFromEmpty(msgs: seq<Bytes>, o: Options, s: System, lo: int)
    returns (turns: seq<Turn>, hi: int)
    requires SystemOk(msgs, o, s) && Empty(s) && s.client.nextExpected < NUM_MSGS <= |msgs|
    requires !s.client.received[s.client.nextExpected]
    ensures Clocked(turns, lo, hi)
    ensures var t := From(msgs, o, s, turns);
      Onward(s, t) && t.client.received[s.client.nextExpected]
    decreases Burst(s), 0
  {
    turns, hi := FetchOrWearDown(msgs, o, s, lo);
    var s1 := From(msgs, o, s, turns);
    if !s1.client.received[s.client.nextExpected] {
      var rest, end := FetchNext(msgs, o, s1, hi);
      turns := Join(msgs, o, s, turns, rest, lo, hi, end);
      hi := end;
    }
  }

  // ---------------------------------------------------------------- the whole transfer

  lemma {:induction false} WritingMoves(c: ClientState)
    requires Sized(c)
    ensures WriteReady(c).nextExpected >= c.nextExpected
    ensures c.nextExpected < NUM_MSGS && c.received[c.nextExpected] ==> WriteReady(c).nextExpected > c.nextExpected
    decreases NUM_MSGS - c.nextExpected
  {
    var n := c.nextExpected;
    if n < NUM_MSGS && c.received[n] {
      WritingMoves(c.(outfile := c.outfile + c.chunks[n], nextExpected := n + 1));
    }
  }

  lemma {:induction false} FetchAll(msgs: seq<Bytes>, o: Options, s: System, lo: int)
    returns (turns: seq<Turn>, hi: int)
    requires SystemOk(msgs, o, s) && NUM_MSGS <= |msgs|
    ensures Clocked(turns, lo, hi)
    ensures From(msgs, o, s, turns).client.nextExpected == NUM_MSGS
    decreases NUM_MSGS - s.client.nextExpected
  {
    if s.client.nextExpected == NUM_MSGS {
      turns, hi := [], lo;
    } else {
      var first, mid := FetchNext(msgs, o, s, lo);
      var s1 := From(msgs, o, s, first);
      NextOk(msgs, o, s1, Write);
      WritingMoves(s1.client);
      var rest, end := FetchAll(msgs, o, Next(msgs, o, s1, Write), mid);
      rest := OneThen(msgs, o, s1, Write, Next(msgs, o, s1, Write), rest, mid, end);
      hi := end;
      turns := Join(msgs, o, s, first, rest, lo, mid, hi);
    }
  }

  /** From s the client's loop can still end, on clocks that start at lo and run forward. */
  ghost predicate CanFinish(msgs: seq<Bytes>, o: Options, s: System, lo: int)
    requires SystemOk(msgs, o, s)
  {
    exists turns, hi :: Clocked(turns, lo, hi) && From(msgs, o, s, turns).client.nextExpected == NUM_MSGS
  }

  /**
   * Wherever a run has got to, and at whatever time, it can go on until the whole file is written, iff the
   * server has enough chunks. The heartbeat by which the server ends a connection where nothing was accepted for
   * five seconds is not part of this model.
   */
  lemma TransferCanAlwaysFinish(msgs: seq<Bytes>, o: Options, turns: seq<Turn>, now: int)
    requires WholeChunks(msgs)
    ensures |msgs| >= NUM_MSGS <==> CanFinish(msgs, o, Run(msgs, o, turns), now)
  {
    var s := Run(msgs, o, turns);
    if |msgs| >= NUM_MSGS {
      var more, hi := FetchAll(msgs, o, s, now);
      assert Clocked(more, now, hi);
    }
  }
}
