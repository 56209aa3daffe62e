/**
 * The transfer does finish: every round in which each side gets its turns and nothing is dropped gets the next
 * missing chunk written, so only rounds with a loss can be spent in vain.
 */
module Fairness {
  import opened Wrappers
  import opened Chunks
  import opened Server
  import opened Inbox
  import opened Client
  import opened Transfer
  import opened Completion

  /** The turn drops nothing: no request is refused and no frame finds the inbox full. */
  ghost predicate Spares(msgs: seq<Bytes>, o: Options, s: System, t: Turn)
    requires SystemOk(msgs, o, s)
  {
    match t
    case Serve(_, _) =>
      ReadId(s.toServer).Some? ==> |Next(msgs, o, s, t).server.accepted| > |s.server.accepted|
    case Read => ReadMsg(s.toClient).Some? ==> |s.inbox| < NUM_CHUNKS
    case _ => true
  }

  ghost predicate Sparing(msgs: seq<Bytes>, o: Options, s: System, turns: seq<Turn>)
    requires SystemOk(msgs, o, s)
    decreases |turns|
  {
    turns == [] || (Spares(msgs, o, s, turns[0]) && (
      NextOk(msgs, o, s, turns[0]);
      Sparing(msgs, o, Next(msgs, o, s, turns[0]), turns[1..])))
  }

  function Count(kind: Turn -> bool, turns: seq<Turn>): nat {
    if turns == [] then 0 else (if kind(turns[0]) then 1 else 0) + Count(kind, turns[1..])
  }

  function Less(k: nat, counts: bool): nat {
    if counts && k > 0 then k - 1 else k
  }

  /** p(s, k) says that something is at most k turns of a kind away; other turns do not set it back. */
  ghost predicate CountsDown(msgs: seq<Bytes>, o: Options, p: (System, nat) -> bool, kind: Turn -> bool) {
    forall s: System, t: Turn, k: nat {:trigger p(s, k), kind(t)} ::
      SystemOk(msgs, o, s) && Spares(msgs, o, s, t) && p(s, k) ==> p(Next(msgs, o, s, t), Less(k, kind(t)))
  }

  /** How many are left of k after so many. */
  function After(k: nat, count: nat): nat {
    if count >= k then 0 else k - count
  }

  lemma SparingHead(msgs: seq<Bytes>, o: Options, s: System, turns: seq<Turn>)
    requires SystemOk(msgs, o, s) && Sparing(msgs, o, s, turns) && turns != []
    ensures Spares(msgs, o, s, turns[0]) && SystemOk(msgs, o, Next(msgs, o, s, turns[0]))
    ensures Sparing(msgs, o, Next(msgs, o, s, turns[0]), turns[1..])
    ensures From(msgs, o, s, turns) == From(msgs, o, Next(msgs, o, s, turns[0]), turns[1..])
  {
    NextOk(msgs, o, s, turns[0]);
  }

  lemma CountHead(kind: Turn -> bool, turns: seq<Turn>, k: nat)
    requires turns != []
    ensures After(k, Count(kind, turns)) == After(Less(k, kind(turns[0])), Count(kind, turns[1..]))
  {
  }

  lemma {:induction false} CountDown(msgs: seq<Bytes>, o: Options, p: (System, nat) -> bool, kind: Turn -> bool,
                                     s: System, k: nat, turns: seq<Turn>)
    requires CountsDown(msgs, o, p, kind) && SystemOk(msgs, o, s) && p(s, k) && Sparing(msgs, o, s, turns)
    ensures p(From(msgs, o, s, turns), After(k, Count(kind, turns)))
    decreases |turns|
  {
    if turns != [] {
      var t := turns[0];
      SparingHead(msgs, o, s, turns);
      CountHead(kind, turns, k);
      assert p(Next(msgs, o, s, t), Less(k, kind(t)));
      CountDown(msgs, o, p, kind, Next(msgs, o, s, t), Less(k, kind(t)), turns[1..]);
    }
  }

  // ---------------------------------------------------------------- where the next chunk can be

  ghost predicate Got(s: System, n: nat) {
    n < |s.client.received| && s.client.received[n]
  }

  ghost predicate InInbox(s: System, n: nat, p: nat) {
    p < |s.inbox| && s.inbox[p].id == n
  }

  /** The client has chunk n, or takes it with one of its next k turns. */
  ghost predicate Takes(s: System, n: nat, k: nat) {
    Got(s, n) || exists p: nat :: p < k && InInbox(s, n, p)
  }

  ghost predicate WholeFrames(stream: Bytes, ms: seq<Msg>) {
    stream == EncodeAll(ms) && forall i :: 0 <= i < |ms| ==> Framed(ms[i])
  }

  ghost predicate OnWire(s: System, n: nat, ms: seq<Msg>, p: nat) {
    WholeFrames(s.toClient, ms) && p < |ms| && ms[p].id == n
  }

  ghost predicate AtClient(s: System, n: nat) {
    exists k: nat :: Takes(s, n, k)
  }

  /** Chunk n is at the client, or is read off the socket with one of the reader's next k turns. */
  ghost predicate Reads(s: System, n: nat, k: nat) {
    AtClient(s, n) || exists ms, p: nat :: p < k && OnWire(s, n, ms, p)
  }

  ghost predicate Sent(s: System, n: nat) {
    exists k: nat :: Reads(s, n, k)
  }

  /** Chunk n is sent, or waits at the server and is due before the given time. */
  ghost predicate RepliesBefore(s: System, n: nat, time: int) {
    Sent(s, n) || exists r :: r in s.server.delays && r.id == n && r.due < time
  }

  ghost predicate Queued(s: System, n: nat) {
    exists time :: RepliesBefore(s, n, time)
  }

  ghost predicate Ids(stream: Bytes, ids: seq<int>) {
    stream == EncodeIds(ids) && forall i :: 0 <= i < |ids| ==> 0 <= ids[i] < 65536
  }

  ghost predicate AskedFor(s: System, n: nat, ids: seq<int>, p: nat) {
    Ids(s.toServer, ids) && p < |ids| && ids[p] == n
  }

  /** The request for chunk n is accepted, or is served with one of the server's next k turns. */
  ghost predicate Serves(s: System, n: nat, k: nat) {
    Queued(s, n) || exists ids, p: nat :: p < k && AskedFor(s, n, ids, p)
  }

  // ---------------------------------------------------------------- no turn sets it back

  lemma TakeStep(msgs: seq<Bytes>, o: Options, s: System, t: Turn, n: nat, k: nat)
    requires SystemOk(msgs, o, s) && n < NUM_MSGS && Takes(s, n, k)
    ensures Takes(Next(msgs, o, s, t), n, Less(k, t.Take?))
  {
    var s' := Next(msgs, o, s, t);
    if Got(s, n) {
      GotStays(msgs, o, s, t, n);
    } else {
      var p: nat :| p < k && InInbox(s, n, p);
      if t.Take? {
        if p == 0 {
          assert TrueMsg(msgs, s.client, s.inbox[0]);
        } else {
          assert InInbox(s', n, p - 1);
        }
      } else {
        assert InInbox(s', n, p);
      }
    }
  }

  lemma GotStays(msgs: seq<Bytes>, o: Options, s: System, t: Turn, n: nat)
    requires SystemOk(msgs, o, s) && Got(s, n)
    ensures Got(Next(msgs, o, s, t), n)
  {
    if t.Write? {
      WritingKeepsReceived(s.client);
    }
  }

  lemma {:induction false} WritingKeepsReceived(c: ClientState)
    requires Sized(c)
    ensures WriteReady(c).received == c.received
    decreases NUM_MSGS - c.nextExpected
  {
    var n := c.nextExpected;
    if n < NUM_MSGS && c.received[n] {
      WritingKeepsReceived(c.(outfile := c.outfile + c.chunks[n], nextExpected := n + 1));
    }
  }

  lemma ClientStep(msgs: seq<Bytes>, o: Options, s: System, t: Turn, n: nat)
    requires SystemOk(msgs, o, s) && n < NUM_MSGS && AtClient(s, n)
    ensures AtClient(Next(msgs, o, s, t), n)
  {
    var k: nat :| Takes(s, n, k);
    TakeStep(msgs, o, s, t, n, k);
  }

  // frames on the socket

  lemma TrueAreWhole(msgs: seq<Bytes>, c: ClientState, ms: seq<Msg>)
    requires TrueMsgs(msgs, c, ms) && WholeChunks(msgs) && |c.requested| <= 65536
    ensures forall i :: 0 <= i < |ms| ==> Framed(ms[i])
  {
    forall i | 0 <= i < |ms| ensures Framed(ms[i]) {
      assert TrueMsg(msgs, c, ms[i]);
    }
  }

  lemma MoreFrames(stream: Bytes, ms: seq<Msg>, more: seq<Msg>)
    requires WholeFrames(stream, ms) && forall i :: 0 <= i < |more| ==> Framed(more[i])
    ensures WholeFrames(stream + EncodeAll(more), ms + more)
  {
    EncodeAllAppend(ms, more);
  }

  lemma SocketIsWhole(msgs: seq<Bytes>, o: Options, s: System) returns (ms: seq<Msg>)
    requires SystemOk(msgs, o, s)
    ensures WholeFrames(s.toClient, ms)
  {
    ms :| OnTheSocket(s.server.sent, Frames(s.read), s.toClient, ms) && TrueMsgs(msgs, s.client, ms);
    TrueAreWhole(msgs, s.client, ms);
  }

  lemma WireStays(msgs: seq<Bytes>, o: Options, s: System, t: Turn, n: nat, ms: seq<Msg>, p: nat)
    requires SystemOk(msgs, o, s) && OnWire(s, n, ms, p) && !t.Read?
    ensures exists more: seq<Msg> :: OnWire(Next(msgs, o, s, t), n, ms + more, p)
  {
    var more: seq<Msg> := [];
    if t.Reply? {
      more := Replies(msgs, s.server.delays, t.now, o.chaos, t.twice);
      RepliesWereAsked(msgs, s.client, s.server.delays, t.now, o.chaos, t.twice);
      TrueAreWhole(msgs, s.client, more);
      MoreFrames(s.toClient, ms, more);
    } else {
      assert ms + more == ms;
    }
    assert OnWire(Next(msgs, o, s, t), n, ms + more, p);
  }

  lemma WireIsRead(msgs: seq<Bytes>, o: Options, s: System, n: nat, ms: seq<Msg>, p: nat)
    requires SystemOk(msgs, o, s) && OnWire(s, n, ms, p) && Spares(msgs, o, s, Read)
    ensures var s' := Next(msgs, o, s, Read);
      if p == 0 then InInbox(s', n, |s.inbox|) else OnWire(s', n, ms[1..], p - 1)
  {
    ReadsFrames(ms);
  }

  lemma ReadStep(msgs: seq<Bytes>, o: Options, s: System, t: Turn, n: nat, k: nat)
    requires SystemOk(msgs, o, s) && n < NUM_MSGS && Reads(s, n, k) && Spares(msgs, o, s, t)
    ensures Reads(Next(msgs, o, s, t), n, Less(k, t.Read?))
  {
    var s' := Next(msgs, o, s, t);
    if AtClient(s, n) {
      ClientStep(msgs, o, s, t, n);
    } else {
      var ms, p: nat :| p < k && OnWire(s, n, ms, p);
      if t.Read? {
        WireIsRead(msgs, o, s, n, ms, p);
        if p == 0 {
          assert Takes(s', n, |s.inbox| + 1);
        } else {
          assert p - 1 < k - 1 && OnWire(s', n, ms[1..], p - 1);
        }
      } else {
        WireStays(msgs, o, s, t, n, ms, p);
        var more: seq<Msg> :| OnWire(s', n, ms + more, p);
      }
    }
  }

  lemma SentStep(msgs: seq<Bytes>, o: Options, s: System, t: Turn, n: nat)
    requires SystemOk(msgs, o, s) && n < NUM_MSGS && Sent(s, n) && Spares(msgs, o, s, t)
    ensures Sent(Next(msgs, o, s, t), n)
  {
    var k: nat :| Reads(s, n, k);
    ReadStep(msgs, o, s, t, n, k);
  }

  // requests that wait for their time

  lemma {:induction false} ExpiredIsReplied(msgs: seq<Bytes>, delays: seq<Request>, now: int, chaos: bool,
                                            twice: nat -> bool, r: Request)
    requires forall i :: 0 <= i < |delays| ==> 0 <= delays[i].id < |msgs|
    requires r in delays
    ensures r.due < now ==> exists i :: 0 <= i < |Replies(msgs, delays, now, chaos, twice)|
                                        && Replies(msgs, delays, now, chaos, twice)[i].id == r.id
    ensures r.due >= now ==> r in Kept(delays, now)
  {
    var k := |delays| - 1;
    if r == delays[k] {
      if r.due < now {
        var all, front := Replies(msgs, delays, now, chaos, twice), Replies(msgs, delays[..k], now, chaos, twice);
        assert all[|front|].id == r.id;
      }
    } else {
      var front := Replies(msgs, delays[..k], now, chaos, twice);
      assert r in delays[..k];
      ExpiredIsReplied(msgs, delays[..k], now, chaos, twice, r);
      if r.due < now {
        var i :| 0 <= i < |front| && front[i].id == r.id;
        assert Replies(msgs, delays, now, chaos, twice)[i].id == r.id;
      }
    }
  }

  lemma ReplySends(msgs: seq<Bytes>, o: Options, s: System, now: int, twice: nat -> bool, r: Request)
    requires SystemOk(msgs, o, s) && r in s.server.delays && r.due < now && r.id >= 0
    ensures Sent(Next(msgs, o, s, Reply(now, twice)), r.id)
  {
    var s' := Next(msgs, o, s, Reply(now, twice));
    var ms := SocketIsWhole(msgs, o, s);
    var more := Replies(msgs, s.server.delays, now, o.chaos, twice);
    RepliesWereAsked(msgs, s.client, s.server.delays, now, o.chaos, twice);
    TrueAreWhole(msgs, s.client, more);
    MoreFrames(s.toClient, ms, more);
    ExpiredIsReplied(msgs, s.server.delays, now, o.chaos, twice, r);
    var i :| 0 <= i < |more| && more[i].id == r.id;
    assert OnWire(s', r.id, ms + more, |ms| + i);
    assert Reads(s', r.id, |ms| + i + 1);
  }

  lemma ReplyStep(msgs: seq<Bytes>, o: Options, s: System, t: Turn, n: nat, time: int)
    requires SystemOk(msgs, o, s) && n < NUM_MSGS && RepliesBefore(s, n, time) && Spares(msgs, o, s, t)
    ensures RepliesBefore(Next(msgs, o, s, t), n, time)
    ensures t.Reply? && t.now >= time ==> Sent(Next(msgs, o, s, t), n)
  {
    if Sent(s, n) {
      SentStep(msgs, o, s, t, n);
    } else {
      var r :| r in s.server.delays && r.id == n && r.due < time;
      if t.Reply? {
        ExpiredIsReplied(msgs, s.server.delays, t.now, o.chaos, t.twice, r);
        if r.due < t.now {
          ReplySends(msgs, o, s, t.now, t.twice, r);
        }
      } else {
        assert r in Next(msgs, o, s, t).server.delays;
      }
    }
  }

  lemma AcceptedStep(msgs: seq<Bytes>, o: Options, s: System, t: Turn, n: nat)
    requires SystemOk(msgs, o, s) && n < NUM_MSGS && Queued(s, n) && Spares(msgs, o, s, t)
    ensures Queued(Next(msgs, o, s, t), n)
  {
    var time :| RepliesBefore(s, n, time);
    ReplyStep(msgs, o, s, t, n, time);
  }

  // requests on the socket

  lemma RequestStays(msgs: seq<Bytes>, o: Options, s: System, t: Turn, n: nat, ids: seq<int>, p: nat)
    requires SystemOk(msgs, o, s) && AskedFor(s, n, ids, p) && !t.Serve?
    ensures exists more: seq<int> :: AskedFor(Next(msgs, o, s, t), n, ids + more, p)
  {
    var more: seq<int> := [];
    if t.Ask? {
      var c := s.client;
      more := Asked(c, c.nextExpected, WindowEnd(c.nextExpected), t.now);
      AskedInRange(c, c.nextExpected, WindowEnd(c.nextExpected), t.now);
      EncodeIdsAppend(ids, more);
    } else {
      assert ids + more == ids;
    }
    assert AskedFor(Next(msgs, o, s, t), n, ids + more, p);
  }

  lemma {:induction false} AskedInRange(c: ClientState, lo: nat, hi: nat, now: int)
    requires Sized(c) && hi <= NUM_MSGS
    ensures forall i :: 0 <= i < |Asked(c, lo, hi, now)| ==> 0 <= Asked(c, lo, hi, now)[i] < NUM_MSGS
  {
    if lo < hi {
      AskedInRange(c, lo, hi - 1, now);
    }
  }

  lemma RequestIsServed(msgs: seq<Bytes>, o: Options, s: System, t: Turn, n: nat, ids: seq<int>, p: nat)
    requires SystemOk(msgs, o, s) && AskedFor(s, n, ids, p) && t.Serve? && Spares(msgs, o, s, t)
    ensures if p == 0 then Queued(Next(msgs, o, s, t), n) else AskedFor(Next(msgs, o, s, t), n, ids[1..], p - 1)
  {
    var s' := Next(msgs, o, s, t);
    ReadsIds(ids);
    if p == 0 {
      var r := s'.server.delays[|s.server.delays|];
      assert r in s'.server.delays && r.id == n;
      assert RepliesBefore(s', n, r.due + 1);
    }
  }

  lemma ServeStep(msgs: seq<Bytes>, o: Options, s: System, t: Turn, n: nat, k: nat)
    requires SystemOk(msgs, o, s) && n < NUM_MSGS && Serves(s, n, k) && Spares(msgs, o, s, t)
    ensures Serves(Next(msgs, o, s, t), n, Less(k, t.Serve?))
  {
    var s' := Next(msgs, o, s, t);
    if Queued(s, n) {
      AcceptedStep(msgs, o, s, t, n);
    } else {
      var ids, p: nat :| p < k && AskedFor(s, n, ids, p);
      if t.Serve? {
        RequestIsServed(msgs, o, s, t, n, ids, p);
        if p > 0 {
          assert p - 1 < k - 1 && AskedFor(s', n, ids[1..], p - 1);
        }
      } else {
        RequestStays(msgs, o, s, t, n, ids, p);
        var more: seq<int> :| AskedFor(s', n, ids + more, p);
      }
    }
  }

  // ---------------------------------------------------------------- rounds

  /** The parts of a round; each may hold turns of every kind. */
  datatype Round = Round(ask: seq<Turn>, serve: seq<Turn>, reply: seq<Turn>, read: seq<Turn>, take: seq<Turn>,
                         write: seq<Turn>)

  function AllTurns(r: Round): seq<Turn> {
    r.ask + (r.serve + (r.reply + (r.read + (r.take + r.write))))
  }

  /** At this turn the client asks for chunk n, unless it has it: no request for it is younger than the timeout. */
  ghost predicate AsksInTime(s: System, t: Turn, n: nat) {
    t.Ask? && n < |s.client.lastRequest| && t.now - s.client.lastRequest[n] >= RETRANSMIT_TIMEOUT
  }

  ghost predicate AsksAt(msgs: seq<Bytes>, o: Options, s: System, turns: seq<Turn>, n: nat, i: nat)
    requires SystemOk(msgs, o, s)
  {
    i < |turns| && AsksInTime(From(msgs, o, s, turns[..i]), turns[i], n)
  }

  /** At turn i the server sends every answer that was waiting at the start. */
  ghost predicate RepliesAt(delays: seq<Request>, turns: seq<Turn>, i: nat) {
    i < |turns| && turns[i].Reply? && forall r :: r in delays ==> r.due < turns[i].now
  }

  function ServeTurns(): Turn -> bool {
    (t: Turn) => t.Serve?
  }

  function ReadTurns(): Turn -> bool {
    (t: Turn) => t.Read?
  }

  function TakeTurns(): Turn -> bool {
    (t: Turn) => t.Take?
  }

  /**
   * Everybody gets his turns: the client asks when it may, the server serves what was on the socket then and
   * sends what was waiting after that once it is due, the reader reads and the client takes what was there, and
   * the client writes.
   */
  ghost predicate Fair(msgs: seq<Bytes>, o: Options, s: System, r: Round)
    requires SystemOk(msgs, o, s)
  {
    var s1 := From(msgs, o, s, r.ask);
    var s2 := From(msgs, o, s1, r.serve);
    var s3 := From(msgs, o, s2, r.reply);
    var s4 := From(msgs, o, s3, r.read);
    && (Got(s, s.client.nextExpected) || exists i: nat :: AsksAt(msgs, o, s, r.ask, s.client.nextExpected, i))
    && ID_SIZE * Count(ServeTurns(), r.serve) >= |s1.toServer|
    && (exists i: nat :: RepliesAt(s2.server.delays, r.reply, i))
    && (ID_SIZE + CHUNK_SIZE) * Count(ReadTurns(), r.read) >= |s3.toClient|
    && Count(TakeTurns(), r.take) >= |s4.inbox|
    && Write in r.write
  }

  lemma {:induction false} SparingSplit(msgs: seq<Bytes>, o: Options, s: System, a: seq<Turn>, b: seq<Turn>)
    requires SystemOk(msgs, o, s) && Sparing(msgs, o, s, a + b)
    ensures Sparing(msgs, o, s, a) && Sparing(msgs, o, From(msgs, o, s, a), b)
    ensures From(msgs, o, s, a + b) == From(msgs, o, From(msgs, o, s, a), b)
    decreases |a|
  {
    if a == [] {
      assert a + b == b;
    } else {
      SparingHead(msgs, o, s, a + b);
      TailOfSum(a, b);
      SparingSplit(msgs, o, Next(msgs, o, s, a[0]), a[1..], b);
    }
  }

  /** A turn in the middle: what comes before it, itself, and what comes after. */
  lemma AtTurn(msgs: seq<Bytes>, o: Options, s: System, turns: seq<Turn>, i: nat)
    requires SystemOk(msgs, o, s) && Sparing(msgs, o, s, turns) && i < |turns|
    ensures var before := From(msgs, o, s, turns[..i]);
      && Sparing(msgs, o, s, turns[..i]) && Spares(msgs, o, before, turns[i])
      && SystemOk(msgs, o, Next(msgs, o, before, turns[i]))
      && Sparing(msgs, o, Next(msgs, o, before, turns[i]), turns[i + 1..])
      && From(msgs, o, s, turns) == From(msgs, o, Next(msgs, o, before, turns[i]), turns[i + 1..])
  {
    assert turns == turns[..i] + turns[i..];
    SparingSplit(msgs, o, s, turns[..i], turns[i..]);
    SparingHead(msgs, o, From(msgs, o, s, turns[..i]), turns[i..]);
    assert turns[i..][1..] == turns[i + 1..];
  }

  /** No turn that drops nothing takes q away. */
  ghost predicate Lasting(msgs: seq<Bytes>, o: Options, q: System -> bool) {
    forall s: System, t: Turn {:trigger Next(msgs, o, s, t)} ::
      SystemOk(msgs, o, s) && Spares(msgs, o, s, t) && q(s) ==> q(Next(msgs, o, s, t))
  }

  lemma {:induction false} Lasts(msgs: seq<Bytes>, o: Options, q: System -> bool, s: System, turns: seq<Turn>)
    requires Lasting(msgs, o, q) && SystemOk(msgs, o, s) && Sparing(msgs, o, s, turns) && q(s)
    ensures q(From(msgs, o, s, turns))
    decreases |turns|
  {
    if turns != [] {
      SparingHead(msgs, o, s, turns);
      Lasts(msgs, o, q, Next(msgs, o, s, turns[0]), turns[1..]);
    }
  }

  // asking

  ghost predicate UnderWay(s: System, n: nat) {
    exists k: nat :: Serves(s, n, k)
  }

  lemma UnderWayLasts(msgs: seq<Bytes>, o: Options, n: nat)
    requires n < NUM_MSGS
    ensures Lasting(msgs, o, (s: System) => UnderWay(s, n))
  {
    forall s: System, t: Turn | SystemOk(msgs, o, s) && Spares(msgs, o, s, t) && UnderWay(s, n)
      ensures UnderWay(Next(msgs, o, s, t), n) {
      var k: nat :| Serves(s, n, k);
      ServeStep(msgs, o, s, t, n, k);
    }
  }

  lemma GotIsUnderWay(s: System, n: nat)
    requires Got(s, n)
    ensures UnderWay(s, n)
  {
    assert Takes(s, n, 0) && Reads(s, n, 0) && RepliesBefore(s, n, 0) && Serves(s, n, 0);
  }

  /** What is written has been received, so a chunk that is missing is the next one or a later one. */
  lemma NextIsFirstMissing(msgs: seq<Bytes>, o: Options, s: System, n: nat)
    requires SystemOk(msgs, o, s) && n < NUM_MSGS && !Got(s, n)
    ensures s.client.nextExpected <= n
  {
  }

  lemma AskIsUnderWay(msgs: seq<Bytes>, o: Options, s: System, t: Turn, n: nat)
    requires SystemOk(msgs, o, s) && n < NUM_MSGS && AsksInTime(s, t, n) && n <= s.client.nextExpected
    ensures UnderWay(Next(msgs, o, s, t), n)
  {
    var s' := Next(msgs, o, s, t);
    if Got(s, n) {
      GotStays(msgs, o, s, t, n);
      GotIsUnderWay(s', n);
    } else {
      NextIsFirstMissing(msgs, o, s, n);
      var more := Asked(s.client, n, WindowEnd(n), t.now);
      AskedExactly(msgs, s.client, n, WindowEnd(n), t.now, n);
      AskedInRange(s.client, n, WindowEnd(n), t.now);
      var ids :| s.toServer == EncodeIds(ids) && AllAsked(s.client, ids);
      AllAskedInRange(s.client, ids);
      EncodeIdsAppend(ids, more);
      var p :| 0 <= p < |more| && more[p] == n;
      assert AskedFor(s', n, ids + more, |ids| + p);
      assert Serves(s', n, |ids| + p + 1);
    }
  }

  lemma AllAskedInRange(c: ClientState, ids: seq<int>)
    requires AllAsked(c, ids) && |c.requested| <= 65536
    ensures forall i :: 0 <= i < |ids| ==> 0 <= ids[i] < 65536
  {
    forall i | 0 <= i < |ids| ensures 0 <= ids[i] < 65536 {
      assert WasAsked(c, ids[i]);
    }
  }

  // writing

  lemma NextGrows(msgs: seq<Bytes>, o: Options, s: System, t: Turn)
    requires SystemOk(msgs, o, s)
    ensures Next(msgs, o, s, t).client.nextExpected >= s.client.nextExpected
    ensures t.Write? && s.client.nextExpected < NUM_MSGS && Got(s, s.client.nextExpected) ==>
              Next(msgs, o, s, t).client.nextExpected > s.client.nextExpected
  {
    WritingMoves(s.client);
  }

  lemma {:induction false} NextNeverFalls(msgs: seq<Bytes>, o: Options, s: System, turns: seq<Turn>)
    requires SystemOk(msgs, o, s)
    ensures From(msgs, o, s, turns).client.nextExpected >= s.client.nextExpected
    decreases |turns|
  {
    if turns != [] {
      NextOk(msgs, o, s, turns[0]);
      NextGrows(msgs, o, s, turns[0]);
      NextNeverFalls(msgs, o, Next(msgs, o, s, turns[0]), turns[1..]);
    }
  }

  lemma GotLasts(msgs: seq<Bytes>, o: Options, n: nat)
    ensures Lasting(msgs, o, (s: System) => Got(s, n))
  {
    forall s: System, t: Turn | SystemOk(msgs, o, s) && Got(s, n) ensures Got(Next(msgs, o, s, t), n) {
      GotStays(msgs, o, s, t, n);
    }
  }

  // ---------------------------------------------------------------- the parts of a round

  lemma AskPart(msgs: seq<Bytes>, o: Options, s: System, turns: seq<Turn>, n: nat)
    requires SystemOk(msgs, o, s) && Sparing(msgs, o, s, turns) && n < NUM_MSGS && n <= s.client.nextExpected
    requires Got(s, n) || exists i: nat :: AsksAt(msgs, o, s, turns, n, i)
    ensures UnderWay(From(msgs, o, s, turns), n)
  {
    UnderWayLasts(msgs, o, n);
    var q := (s: System) => UnderWay(s, n);
    if Got(s, n) {
      GotIsUnderWay(s, n);
      Lasts(msgs, o, q, s, turns);
    } else {
      var i: nat :| AsksAt(msgs, o, s, turns, n, i);
      AtTurn(msgs, o, s, turns, i);
      var before := From(msgs, o, s, turns[..i]);
      NextNeverFalls(msgs, o, s, turns[..i]);
      AskIsUnderWay(msgs, o, before, turns[i], n);
      Lasts(msgs, o, q, Next(msgs, o, before, turns[i]), turns[i + 1..]);
    }
  }

  lemma {:induction false} IdsSize(ids: seq<int>)
    ensures |EncodeIds(ids)| == ID_SIZE * |ids|
  {
    if ids != [] {
      IdsSize(ids[1..]);
    }
  }

  lemma {:induction false} FramesSize(ms: seq<Msg>)
    requires forall i :: 0 <= i < |ms| ==> Framed(ms[i])
    ensures |EncodeAll(ms)| == (ID_SIZE + CHUNK_SIZE) * |ms|
  {
    if ms != [] {
      FramesSize(ms[1..]);
    }
  }

  /** A request on the socket is no further back than the socket is long. */
  lemma ServesWithin(s: System, n: nat, k: nat)
    requires UnderWay(s, n) && ID_SIZE * k >= |s.toServer|
    ensures Serves(s, n, k)
  {
    if !Queued(s, n) {
      var l: nat :| Serves(s, n, l);
      var ids, p: nat :| p < l && AskedFor(s, n, ids, p);
      IdsSize(ids);
    }
  }

  lemma ServePart(msgs: seq<Bytes>, o: Options, s: System, turns: seq<Turn>, n: nat)
    requires SystemOk(msgs, o, s) && Sparing(msgs, o, s, turns) && n < NUM_MSGS && UnderWay(s, n)
    requires ID_SIZE * Count(ServeTurns(), turns) >= |s.toServer|
    ensures Queued(From(msgs, o, s, turns), n)
  {
    var p, k := (s: System, k: nat) => Serves(s, n, k), Count(ServeTurns(), turns);
    ServesWithin(s, n, k);
    forall s: System, t: Turn, k: nat | SystemOk(msgs, o, s) && Spares(msgs, o, s, t) && p(s, k)
      ensures p(Next(msgs, o, s, t), Less(k, ServeTurns()(t))) {
      ServeStep(msgs, o, s, t, n, k);
    }
    CountDown(msgs, o, p, ServeTurns(), s, k, turns);
    assert Serves(From(msgs, o, s, turns), n, 0);
  }

  lemma RepliesLasts(msgs: seq<Bytes>, o: Options, n: nat, time: int)
    requires n < NUM_MSGS
    ensures Lasting(msgs, o, (s: System) => RepliesBefore(s, n, time)) && Lasting(msgs, o, (s: System) => Sent(s, n))
  {
    forall s: System, t: Turn | SystemOk(msgs, o, s) && Spares(msgs, o, s, t) && RepliesBefore(s, n, time)
      ensures RepliesBefore(Next(msgs, o, s, t), n, time) {
      ReplyStep(msgs, o, s, t, n, time);
    }
    forall s: System, t: Turn | SystemOk(msgs, o, s) && Spares(msgs, o, s, t) && Sent(s, n)
      ensures Sent(Next(msgs, o, s, t), n) {
      SentStep(msgs, o, s, t, n);
    }
  }

  lemma ReplyPart(msgs: seq<Bytes>, o: Options, s: System, turns: seq<Turn>, n: nat)
    requires SystemOk(msgs, o, s) && Sparing(msgs, o, s, turns) && n < NUM_MSGS && Queued(s, n)
    requires exists i: nat :: RepliesAt(s.server.delays, turns, i)
    ensures Sent(From(msgs, o, s, turns), n)
  {
    var i: nat :| RepliesAt(s.server.delays, turns, i);
    var time, before := turns[i].now, From(msgs, o, s, turns[..i]);
    AtTurn(msgs, o, s, turns, i);
    RepliesLasts(msgs, o, n, time);
    assert RepliesBefore(s, n, time);
    Lasts(msgs, o, (s: System) => RepliesBefore(s, n, time), s, turns[..i]);
    ReplyStep(msgs, o, before, turns[i], n, time);
    Lasts(msgs, o, (s: System) => Sent(s, n), Next(msgs, o, before, turns[i]), turns[i + 1..]);
  }

  lemma ReadsWithin(s: System, n: nat, k: nat)
    requires Sent(s, n) && (ID_SIZE + CHUNK_SIZE) * k >= |s.toClient|
    ensures Reads(s, n, k)
  {
    if !AtClient(s, n) {
      var l: nat :| Reads(s, n, l);
      var ms, p: nat :| p < l && OnWire(s, n, ms, p);
      FramesSize(ms);
    }
  }

  lemma ReadPart(msgs: seq<Bytes>, o: Options, s: System, turns: seq<Turn>, n: nat)
    requires SystemOk(msgs, o, s) && Sparing(msgs, o, s, turns) && n < NUM_MSGS && Sent(s, n)
    requires (ID_SIZE + CHUNK_SIZE) * Count(ReadTurns(), turns) >= |s.toClient|
    ensures AtClient(From(msgs, o, s, turns), n)
  {
    var p, k := (s: System, k: nat) => Reads(s, n, k), Count(ReadTurns(), turns);
    ReadsWithin(s, n, k);
    forall s: System, t: Turn, k: nat | SystemOk(msgs, o, s) && Spares(msgs, o, s, t) && p(s, k)
      ensures p(Next(msgs, o, s, t), Less(k, ReadTurns()(t))) {
      ReadStep(msgs, o, s, t, n, k);
    }
    CountDown(msgs, o, p, ReadTurns(), s, k, turns);
    assert Reads(From(msgs, o, s, turns), n, 0);
  }

  lemma TakesWithin(s: System, n: nat, k: nat)
    requires AtClient(s, n) && k >= |s.inbox|
    ensures Takes(s, n, k)
  {
    var l: nat :| Takes(s, n, l);
  }

  lemma TakePart(msgs: seq<Bytes>, o: Options, s: System, turns: seq<Turn>, n: nat)
    requires SystemOk(msgs, o, s) && Sparing(msgs, o, s, turns) && n < NUM_MSGS && AtClient(s, n)
    requires Count(TakeTurns(), turns) >= |s.inbox|
    ensures Got(From(msgs, o, s, turns), n)
  {
    var p, k := (s: System, k: nat) => Takes(s, n, k), Count(TakeTurns(), turns);
    TakesWithin(s, n, k);
    forall s: System, t: Turn, k: nat | SystemOk(msgs, o, s) && p(s, k)
      ensures p(Next(msgs, o, s, t), Less(k, TakeTurns()(t))) {
      TakeStep(msgs, o, s, t, n, k);
    }
    CountDown(msgs, o, p, TakeTurns(), s, k, turns);
    assert Takes(From(msgs, o, s, turns), n, 0);
  }

  lemma GotUntil(msgs: seq<Bytes>, o: Options, s: System, turns: seq<Turn>, n: nat)
    requires SystemOk(msgs, o, s) && Sparing(msgs, o, s, turns) && Got(s, n)
    ensures Got(From(msgs, o, s, turns), n)
  {
    GotLasts(msgs, o, n);
    Lasts(msgs, o, (s: System) => Got(s, n), s, turns);
  }

  lemma WriteNow(msgs: seq<Bytes>, o: Options, s: System, n: nat)
    requires SystemOk(msgs, o, s) && n < NUM_MSGS && Got(s, n) && n <= s.client.nextExpected
    ensures Next(msgs, o, s, Write).client.nextExpected > n
  {
    NextGrows(msgs, o, s, Write);
  }

  lemma WritePart(msgs: seq<Bytes>, o: Options, s: System, turns: seq<Turn>, n: nat, i: nat)
    requires SystemOk(msgs, o, s) && Sparing(msgs, o, s, turns) && n < NUM_MSGS && Got(s, n)
    requires n <= s.client.nextExpected && i < |turns| && turns[i] == Write
    ensures From(msgs, o, s, turns).client.nextExpected > n
  {
    var before := From(msgs, o, s, turns[..i]);
    AtTurn(msgs, o, s, turns, i);
    GotUntil(msgs, o, s, turns[..i], n);
    NextNeverFalls(msgs, o, s, turns[..i]);
    WriteNow(msgs, o, before, n);
    NextNeverFalls(msgs, o, Next(msgs, o, before, Write), turns[i + 1..]);
  }

  // ---------------------------------------------------------------- whole rounds

  /** The parts of a round, one after the other. */
  lemma PartsOfRound(msgs: seq<Bytes>, o: Options, s: System, r: Round)
    requires SystemOk(msgs, o, s) && Sparing(msgs, o, s, AllTurns(r))
    ensures var s1 := From(msgs, o, s, r.ask);
      var s2 := From(msgs, o, s1, r.serve);
      var s3 := From(msgs, o, s2, r.reply);
      var s4 := From(msgs, o, s3, r.read);
      var s5 := From(msgs, o, s4, r.take);
      && Sparing(msgs, o, s, r.ask) && Sparing(msgs, o, s1, r.serve) && Sparing(msgs, o, s2, r.reply)
      && Sparing(msgs, o, s3, r.read) && Sparing(msgs, o, s4, r.take) && Sparing(msgs, o, s5, r.write)
      && From(msgs, o, s, AllTurns(r)) == From(msgs, o, s5, r.write)
  {
    var s1 := From(msgs, o, s, r.ask);
    var s2 := From(msgs, o, s1, r.serve);
    var s3 := From(msgs, o, s2, r.reply);
    var s4 := From(msgs, o, s3, r.read);
    SparingSplit(msgs, o, s, r.ask, r.serve + (r.reply + (r.read + (r.take + r.write))));
    SparingSplit(msgs, o, s1, r.serve, r.reply + (r.read + (r.take + r.write)));
    SparingSplit(msgs, o, s2, r.reply, r.read + (r.take + r.write));
    SparingSplit(msgs, o, s3, r.read, r.take + r.write);
    SparingSplit(msgs, o, s4, r.take, r.write);
  }

  /** A fair round in which nothing is dropped gets the next chunk written. */
  lemma RoundAdvances(msgs: seq<Bytes>, o: Options, s: System, r: Round)
    requires SystemOk(msgs, o, s) && Fair(msgs, o, s, r) && Sparing(msgs, o, s, AllTurns(r))
    requires s.client.nextExpected < NUM_MSGS
    ensures From(msgs, o, s, AllTurns(r)).client.nextExpected > s.client.nextExpected
  {
    var n := s.client.nextExpected;
    var s1 := From(msgs, o, s, r.ask);
    var s2 := From(msgs, o, s1, r.serve);
    var s3 := From(msgs, o, s2, r.reply);
    var s4 := From(msgs, o, s3, r.read);
    PartsOfRound(msgs, o, s, r);
    AskPart(msgs, o, s, r.ask, n);
    ServePart(msgs, o, s1, r.serve, n);
    ReplyPart(msgs, o, s2, r.reply, n);
    ReadPart(msgs, o, s3, r.read, n);
    TakePart(msgs, o, s4, r.take, n);
    NextNeverFalls(msgs, o, s, r.ask);
    NextNeverFalls(msgs, o, s1, r.serve);
    NextNeverFalls(msgs, o, s2, r.reply);
    NextNeverFalls(msgs, o, s3, r.read);
    NextNeverFalls(msgs, o, s4, r.take);
    var i :| 0 <= i < |r.write| && r.write[i] == Write;
    WritePart(msgs, o, From(msgs, o, s4, r.take), r.write, n, i);
  }

  // ---------------------------------------------------------------- fair runs

  /** Any turns at all, and then a round. */
  datatype Block = Block(before: seq<Turn>, round: Round)

  function TurnsOf(b: Block): seq<Turn> {
    b.before + AllTurns(b.round)
  }

  function AllOf(blocks: seq<Block>): seq<Turn> {
    if blocks == [] then [] else TurnsOf(blocks[0]) + AllOf(blocks[1..])
  }

  /** The transfer is not over, and this round was not fair, or something was dropped in it. */
  ghost predicate Spoilt(msgs: seq<Bytes>, o: Options, s: System, b: Block)
    requires SystemOk(msgs, o, s)
  {
    var s1 := From(msgs, o, s, b.before);
    s1.client.nextExpected < NUM_MSGS && !(Fair(msgs, o, s1, b.round) && Sparing(msgs, o, s1, AllTurns(b.round)))
  }

  ghost function SpoiltRounds(msgs: seq<Bytes>, o: Options, s: System, blocks: seq<Block>): nat
    requires SystemOk(msgs, o, s)
    decreases |blocks|
  {
    if blocks == [] then 0
    else
      (if Spoilt(msgs, o, s, blocks[0]) then 1 else 0)
      + SpoiltRounds(msgs, o, From(msgs, o, s, TurnsOf(blocks[0])), blocks[1..])
  }

  lemma BlockAdvances(msgs: seq<Bytes>, o: Options, s: System, b: Block)
    requires SystemOk(msgs, o, s)
    ensures var n := From(msgs, o, s, TurnsOf(b)).client.nextExpected;
      n >= s.client.nextExpected && (Spoilt(msgs, o, s, b) || n > s.client.nextExpected || n == NUM_MSGS)
  {
    var s1 := From(msgs, o, s, b.before);
    FromAppend(msgs, o, s, b.before, AllTurns(b.round));
    NextNeverFalls(msgs, o, s, b.before);
    NextNeverFalls(msgs, o, s1, AllTurns(b.round));
    if !Spoilt(msgs, o, s, b) && s1.client.nextExpected < NUM_MSGS {
      RoundAdvances(msgs, o, s1, b.round);
    }
  }

  lemma {:induction false} BlocksAdvance(msgs: seq<Bytes>, o: Options, s: System, blocks: seq<Block>)
    requires SystemOk(msgs, o, s)
    ensures var n := From(msgs, o, s, AllOf(blocks)).client.nextExpected;
      n >= s.client.nextExpected
      && (n == NUM_MSGS || n + SpoiltRounds(msgs, o, s, blocks) >= s.client.nextExpected + |blocks|)
    decreases |blocks|
  {
    if blocks != [] {
      var next := From(msgs, o, s, TurnsOf(blocks[0]));
      FromAppend(msgs, o, s, TurnsOf(blocks[0]), AllOf(blocks[1..]));
      BlockAdvances(msgs, o, s, blocks[0]);
      BlocksAdvance(msgs, o, next, blocks[1..]);
      AtMostAll(msgs, o, From(msgs, o, next, AllOf(blocks[1..])));
    }
  }

  lemma AtMostAll(msgs: seq<Bytes>, o: Options, s: System)
    requires SystemOk(msgs, o, s)
    ensures s.client.nextExpected <= NUM_MSGS
  {
  }

  /**
   * Under a fair schedule the transfer does finish: a run that has got anywhere and then goes through rounds,
   * with any turns between them, is over after NUM_MSGS rounds that are fair and in which nothing is dropped; so
   * losses, delays, bursts, full queues and a full inbox can only hold it up, a round at a time. The server's
   * heartbeat, which ends a connection where nothing was accepted for five seconds, is not part of this model.
   */
  lemma FairRunsFinish(msgs: seq<Bytes>, o: Options, turns: seq<Turn>, blocks: seq<Block>)
    requires WholeChunks(msgs)
    requires |blocks| >= NUM_MSGS + SpoiltRounds(msgs, o, Run(msgs, o, turns), blocks)
    ensures Run(msgs, o, turns + AllOf(blocks)).client.nextExpected == NUM_MSGS
  {
    StartOk(msgs, o);
    FromAppend(msgs, o, Start(), turns, AllOf(blocks));
    BlocksAdvance(msgs, o, Run(msgs, o, turns), blocks);
    AtMostAll(msgs, o, Run(msgs, o, turns + AllOf(blocks)));
  }
}
