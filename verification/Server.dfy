/** 03-reliable/src/server.cpp: the queue of delayed answers. */
module Server {
  import opened Chunks
  import opened Subsequences

  /** An accepted request and the time its answer is due after. */
  datatype Request = Request(due: int, id: int)

  /** An accepted request, when it came in, and the delay that was drawn for it. */
  datatype Arrival = Arrival(request: Request, at: int, delay: nat)

  datatype Answer = Answer(request: Request, at: int)

  datatype Options = Options(noPacketDrops: bool, noDelay: bool, chaos: bool)

  /** The dice thrown for one request. */
  datatype Fate = Fate(burstStarts: bool, burstLength: int, lost: bool, delay: nat)

  /** accepted, answered and sent, the frames written to the socket, are history kept for the statements only. */
  datatype ServerState = ServerState(
    delays: seq<Request>, burstDropRemaining: int, accepted: seq<Arrival>, answered: seq<Answer>, sent: seq<Msg>)

  const INITIAL := ServerState([], 0, [], [], [])

  function Expired(delays: seq<Request>, now: int): seq<Request> {
    if delays == [] then []
    else
      var r := delays[|delays| - 1];
      Expired(delays[..|delays| - 1], now) + if r.due < now then [r] else []
  }

  function Kept(delays: seq<Request>, now: int): seq<Request> {
    if delays == [] then []
    else
      var r := delays[|delays| - 1];
      Kept(delays[..|delays| - 1], now) + if r.due < now then [] else [r]
  }

  /** The frames of one send pass; twice says which answers a chaotic server repeats. */
  function Replies(msgs: seq<Bytes>, delays: seq<Request>, now: int, chaos: bool, twice: nat -> bool): seq<Msg>
    requires forall i :: 0 <= i < |delays| ==> 0 <= delays[i].id < |msgs|
  {
    if delays == [] then []
    else
      var n := |delays| - 1;
      var m := Msg(delays[n].id, msgs[delays[n].id]);
      Replies(msgs, delays[..n], now, chaos, twice) +
      if delays[n].due >= now then [] else if chaos && twice(n) then [m, m] else [m]
  }

  function Answers(requests: seq<Request>, at: int): seq<Answer> {
    seq(|requests|, i requires 0 <= i < |requests| => Answer(requests[i], at))
  }

  function Accepted(arrivals: seq<Arrival>): seq<Request> {
    seq(|arrivals|, i requires 0 <= i < |arrivals| => arrivals[i].request)
  }

  function RequestsOf(answers: seq<Answer>): seq<Request> {
    seq(|answers|, i requires 0 <= i < |answers| => answers[i].request)
  }

  /** The send pass and the erase pass. */
  function AfterSending(msgs: seq<Bytes>, o: Options, s: ServerState, now: int, twice: nat -> bool): ServerState
    requires forall i :: 0 <= i < |s.delays| ==> 0 <= s.delays[i].id < |msgs|
  {
    s.(delays := Kept(s.delays, now), answered := s.answered + Answers(Expired(s.delays, now), now),
       sent := s.sent + Replies(msgs, s.delays, now, o.chaos, twice))
  }

  function OnRequest(o: Options, count: nat, s: ServerState, now: int, id: int, f: Fate): ServerState {
    if id >= count then s
    else if o.chaos && s.burstDropRemaining > 0 then s.(burstDropRemaining := s.burstDropRemaining - 1)
    else if o.chaos && f.burstStarts then s.(burstDropRemaining := f.burstLength - 1)
    else if !o.noPacketDrops && f.lost then s
    else if |s.delays| >= NUM_CHUNKS then s
    else
      var r := Request(now + if o.noDelay then 0 else f.delay, id);
      s.(delays := s.delays + [r], accepted := s.accepted + [Arrival(r, now, f.delay)])
  }

  // ---------------------------------------------------------------- frames that answer requests

  /** The frames answer the requests in their order, each with its own chunk: once, or in chaos perhaps twice. */
  ghost predicate Answering(msgs: seq<Bytes>, requests: seq<Request>, frames: seq<Msg>, chaos: bool)
    decreases |requests|
  {
    if requests == [] then frames == []
    else
      var k, n := |requests| - 1, |frames|;
      && 0 <= requests[k].id < |msgs| && n >= 1 && frames[n - 1] == Msg(requests[k].id, msgs[requests[k].id])
      && (|| Answering(msgs, requests[..k], frames[..n - 1], chaos)
          || (chaos && n >= 2 && frames[n - 2] == frames[n - 1]
              && Answering(msgs, requests[..k], frames[..n - 2], chaos)))
  }

  lemma AnswerOneMore(msgs: seq<Bytes>, requests: seq<Request>, frames: seq<Msg>, chaos: bool, r: Request, again: bool)
    requires Answering(msgs, requests, frames, chaos) && 0 <= r.id < |msgs| && (again ==> chaos)
    ensures var m := Msg(r.id, msgs[r.id]);
      Answering(msgs, requests + [r], frames + Copies(m, again), chaos)
  {
    var m := Msg(r.id, msgs[r.id]);
    assert (requests + [r])[..|requests|] == requests;
    if again {
      assert (frames + [m, m])[..|frames|] == frames;
    } else {
      assert (frames + [m])[..|frames|] == frames;
    }
  }

  /** The last request of a list, and the frames that answer it after those of the rest. */
  lemma AnswersOfLast(msgs: seq<Bytes>, requests: seq<Request>, frames: seq<Msg>, chaos: bool)
    returns (front: seq<Msg>, again: bool)
    requires requests != [] && Answering(msgs, requests, frames, chaos)
    ensures var r := requests[|requests| - 1];
      && 0 <= r.id < |msgs| && (again ==> chaos) && |front| < |frames|
      && Answering(msgs, requests[..|requests| - 1], front, chaos)
      && frames == front + Copies(Msg(r.id, msgs[r.id]), again)
  {
    var k, n := |requests| - 1, |frames|;
    again := !Answering(msgs, requests[..k], frames[..n - 1], chaos);
    front := if again then frames[..n - 2] else frames[..n - 1];
  }

  function Copies(m: Msg, again: bool): seq<Msg> {
    if again then [m, m] else [m]
  }

  lemma Regroup<T>(a: seq<T>, b: seq<T>, c: seq<T>)
    ensures a + (b + c) == a + b + c
  {
  }

  lemma FrontAndLast<T>(s: seq<T>)
    requires s != []
    ensures s == s[..|s| - 1] + [s[|s| - 1]]
  {
  }

  lemma {:induction false} AnswersAppend(msgs: seq<Bytes>, a: seq<Request>, x: seq<Msg>, b: seq<Request>, y: seq<Msg>,
                                         chaos: bool)
    requires Answering(msgs, a, x, chaos) && Answering(msgs, b, y, chaos)
    ensures Answering(msgs, a + b, x + y, chaos)
    decreases |b|
  {
    if b == [] {
      assert a + b == a && x + y == x;
    } else {
      var k := |b| - 1;
      var front, again := AnswersOfLast(msgs, b, y, chaos);
      AnswersAppend(msgs, a, x, b[..k], front, chaos);
      AnswerOneMore(msgs, a + b[..k], x + front, chaos, b[k], again);
      FrontAndLast(b);
      Regroup(a, b[..k], [b[k]]);
      Regroup(x, front, Copies(Msg(b[k].id, msgs[b[k].id]), again));
    }
  }

  function MsgsFor(msgs: seq<Bytes>, requests: seq<Request>): seq<Msg>
    requires forall i :: 0 <= i < |requests| ==> 0 <= requests[i].id < |msgs|
  {
    seq(|requests|, i requires 0 <= i < |requests| => Msg(requests[i].id, msgs[requests[i].id]))
  }

  /** Outside chaos mode that leaves no choice: one frame for each request. */
  lemma {:induction false} OneFrameEach(msgs: seq<Bytes>, requests: seq<Request>, frames: seq<Msg>)
    ensures Answering(msgs, requests, frames, false) <==>
              (forall i :: 0 <= i < |requests| ==> 0 <= requests[i].id < |msgs|) && frames == MsgsFor(msgs, requests)
  {
    if requests != [] && frames != [] {
      var k, n := |requests| - 1, |frames| - 1;
      OneFrameEach(msgs, requests[..k], frames[..n]);
      LastFrame(msgs, requests, frames);
    }
  }

  lemma LastFrame(msgs: seq<Bytes>, requests: seq<Request>, frames: seq<Msg>)
    requires requests != [] && frames != []
    ensures var k, n := |requests| - 1, |frames| - 1;
      (forall i :: 0 <= i < |requests| ==> 0 <= requests[i].id < |msgs|) && frames == MsgsFor(msgs, requests) <==>
        && 0 <= requests[k].id < |msgs| && frames[n] == Msg(requests[k].id, msgs[requests[k].id])
        && (forall i :: 0 <= i < k ==> 0 <= requests[i].id < |msgs|) && frames[..n] == MsgsFor(msgs, requests[..k])
  {
    var k, n := |requests| - 1, |frames| - 1;
    assert frames == frames[..n] + [frames[n]];
    if forall i :: 0 <= i < |requests| ==> 0 <= requests[i].id < |msgs| {
      assert MsgsFor(msgs, requests) == MsgsFor(msgs, requests[..k]) + [Msg(requests[k].id, msgs[requests[k].id])];
    }
  }

  /** There are no fewer frames than requests and no more than two for each. */
  lemma {:induction false} FramesForRequests(msgs: seq<Bytes>, requests: seq<Request>, frames: seq<Msg>, chaos: bool)
    requires Answering(msgs, requests, frames, chaos)
    ensures |requests| <= |frames| <= 2 * |requests|
    decreases |requests|
  {
    if requests != [] {
      var front, again := AnswersOfLast(msgs, requests, frames, chaos);
      FramesForRequests(msgs, requests[..|requests| - 1], front, chaos);
    }
  }

  lemma InSum<T>(x: T, a: seq<T>, b: seq<T>)
    ensures x in a || x in b ==> x in a + b
  {
  }

  /** In every mode each request gets its own chunk. */
  lemma {:induction false} EachIsAnswered(msgs: seq<Bytes>, requests: seq<Request>, frames: seq<Msg>, chaos: bool,
                                          i: nat)
    requires Answering(msgs, requests, frames, chaos) && i < |requests|
    ensures 0 <= requests[i].id < |msgs| && Msg(requests[i].id, msgs[requests[i].id]) in frames
    decreases |requests|
  {
    var k := |requests| - 1;
    var front, again := AnswersOfLast(msgs, requests, frames, chaos);
    if i < k {
      EachIsAnswered(msgs, requests[..k], front, chaos, i);
    }
    var m := Msg(requests[i].id, msgs[requests[i].id]);
    InSum(m, front, Copies(Msg(requests[k].id, msgs[requests[k].id]), again));
  }

  /** One send pass answers exactly the expired requests. */
  lemma {:induction false} RepliesAnswer(msgs: seq<Bytes>, delays: seq<Request>, now: int, chaos: bool,
                                         twice: nat -> bool)
    requires forall i :: 0 <= i < |delays| ==> 0 <= delays[i].id < |msgs|
    ensures Answering(msgs, Expired(delays, now), Replies(msgs, delays, now, chaos, twice), chaos)
  {
    if delays != [] {
      var n := |delays| - 1;
      RepliesAnswer(msgs, delays[..n], now, chaos, twice);
      if delays[n].due < now {
        AnswerOneMore(msgs, Expired(delays[..n], now), Replies(msgs, delays[..n], now, chaos, twice), chaos,
                      delays[n], chaos && twice(n));
      } else {
        NoMore(Expired(delays[..n], now));
        NoMore(Replies(msgs, delays[..n], now, chaos, twice));
      }
    }
  }

  lemma NoMore<T>(s: seq<T>)
    ensures s + [] == s
  {
  }

  // ---------------------------------------------------------------- what the server keeps

  /**
   * At most NUM_CHUNKS requests wait, all for real chunks and in the order they came in; every accepted request
   * is waiting or has been answered after it was due, which was its delay after it came in; and the frames sent are
   * exactly the answers.
   */
  ghost predicate ServerOk(msgs: seq<Bytes>, o: Options, s: ServerState) {
    && |s.delays| <= NUM_CHUNKS
    && (forall i :: 0 <= i < |s.delays| ==> 0 <= s.delays[i].id < |msgs|)
    && Subsequence(s.delays, Accepted(s.accepted))
    && multiset(Accepted(s.accepted)) == multiset(RequestsOf(s.answered)) + multiset(s.delays)
    && Drawn(o, s.accepted) && Timely(s.answered)
    && Answering(msgs, RequestsOf(s.answered), s.sent, o.chaos)
  }

  /** Every accepted request is due its own delay after it came in, or at once if there are to be no delays. */
  ghost predicate Drawn(o: Options, accepted: seq<Arrival>) {
    forall i :: 0 <= i < |accepted| ==>
      accepted[i].request.due == accepted[i].at + if o.noDelay then 0 else accepted[i].delay
  }

  /** No answer goes out before the delay of its request has passed. */
  ghost predicate NeverEarly(o: Options, accepted: seq<Arrival>, answered: seq<Answer>) {
    forall i :: 0 <= i < |answered| ==>
      exists j :: 0 <= j < |accepted| && accepted[j].request == answered[i].request
                  && answered[i].at > accepted[j].at + if o.noDelay then 0 else accepted[j].delay
  }

  lemma DelaysAreKept(msgs: seq<Bytes>, o: Options, s: ServerState)
    requires ServerOk(msgs, o, s)
    ensures NeverEarly(o, s.accepted, s.answered)
  {
    var accepted, answered := Accepted(s.accepted), RequestsOf(s.answered);
    forall i | 0 <= i < |answered|
      ensures exists j :: 0 <= j < |s.accepted| && s.accepted[j].request == s.answered[i].request
                          && s.answered[i].at > s.accepted[j].at + if o.noDelay then 0 else s.accepted[j].delay {
      assert answered[i] in multiset(answered) && answered[i] in multiset(accepted);
      var j :| 0 <= j < |accepted| && accepted[j] == answered[i];
      assert s.accepted[j].request == s.answered[i].request;
    }
  }

  /** Nothing was answered before it was due. */
  ghost predicate Timely(answered: seq<Answer>) {
    forall i :: 0 <= i < |answered| ==> answered[i].request.due < answered[i].at
  }

  lemma {:induction false} Split(delays: seq<Request>, now: int)
    ensures multiset(delays) == multiset(Expired(delays, now)) + multiset(Kept(delays, now))
    ensures forall r :: r in Expired(delays, now) ==> r.due < now && r in delays
    ensures forall r :: r in Kept(delays, now) ==> r.due >= now && r in delays
    ensures |Kept(delays, now)| <= |delays|
  {
    if delays != [] {
      var n := |delays| - 1;
      Split(delays[..n], now);
      assert delays == delays[..n] + [delays[n]];
    }
  }

  /** What is sent and what stays are each in the order they were waiting in. */
  lemma {:induction false} OrderIsKept(delays: seq<Request>, now: int)
    ensures Subsequence(Expired(delays, now), delays) && Subsequence(Kept(delays, now), delays)
  {
    if delays != [] {
      var n := |delays| - 1;
      var front, r := delays[..n], delays[n];
      OrderIsKept(front, now);
      OneMoreElement(Expired(front, now), front, r);
      OneMoreElement(Kept(front, now), front, r);
      assert delays == front + [r];
      assert Expired(delays, now) == if r.due < now then Expired(front, now) + [r] else Expired(front, now);
      assert Kept(delays, now) == if r.due < now then Kept(front, now) else Kept(front, now) + [r];
    }
  }

  /** The two passes agree: the frames written answer exactly the entries that the erase pass then removes. */
  lemma PassesAgree(msgs: seq<Bytes>, o: Options, s: ServerState, now: int, twice: nat -> bool)
    requires forall i :: 0 <= i < |s.delays| ==> 0 <= s.delays[i].id < |msgs|
    ensures var s' := AfterSending(msgs, o, s, now, twice);
      exists requests: seq<Request>, frames: seq<Msg> ::
        && s'.answered == s.answered + Answers(requests, now) && s'.sent == s.sent + frames
        && Answering(msgs, requests, frames, o.chaos)
        && multiset(s.delays) == multiset(requests) + multiset(s'.delays)
        && Subsequence(requests, s.delays) && Subsequence(s'.delays, s.delays)
        && (forall r :: r in requests ==> r.due < now) && (forall r :: r in s'.delays ==> r.due >= now)
  {
    Split(s.delays, now);
    OrderIsKept(s.delays, now);
    RepliesAnswer(msgs, s.delays, now, o.chaos, twice);
    var requests, frames := Expired(s.delays, now), Replies(msgs, s.delays, now, o.chaos, twice);
    assert Answering(msgs, requests, frames, o.chaos);
  }

  lemma RequestsAppend(a: seq<Answer>, requests: seq<Request>, at: int)
    ensures RequestsOf(a + Answers(requests, at)) == RequestsOf(a) + requests
  {
  }

  lemma SendingBalances(msgs: seq<Bytes>, o: Options, s: ServerState, now: int, twice: nat -> bool)
    requires forall i :: 0 <= i < |s.delays| ==> 0 <= s.delays[i].id < |msgs|
    requires multiset(Accepted(s.accepted)) == multiset(RequestsOf(s.answered)) + multiset(s.delays)
    requires Answering(msgs, RequestsOf(s.answered), s.sent, o.chaos)
    ensures var s' := AfterSending(msgs, o, s, now, twice);
      && multiset(Accepted(s'.accepted)) == multiset(RequestsOf(s'.answered)) + multiset(s'.delays)
      && Answering(msgs, RequestsOf(s'.answered), s'.sent, o.chaos)
  {
    Split(s.delays, now);
    RequestsAppend(s.answered, Expired(s.delays, now), now);
    RepliesAnswer(msgs, s.delays, now, o.chaos, twice);
    AnswersAppend(msgs, RequestsOf(s.answered), s.sent, Expired(s.delays, now),
                  Replies(msgs, s.delays, now, o.chaos, twice), o.chaos);
  }

  lemma SendingIsTimely(answered: seq<Answer>, delays: seq<Request>, now: int)
    requires Timely(answered)
    ensures Timely(answered + Answers(Expired(delays, now), now))
  {
    Split(delays, now);
    var expired, a := Expired(delays, now), answered + Answers(Expired(delays, now), now);
    forall i | 0 <= i < |a| ensures a[i].request.due < a[i].at {
      if i >= |answered| {
        assert expired[i - |answered|] in expired;
      }
    }
  }

  lemma SendingKeepsOk(msgs: seq<Bytes>, o: Options, s: ServerState, now: int, twice: nat -> bool)
    requires ServerOk(msgs, o, s)
    ensures ServerOk(msgs, o, AfterSending(msgs, o, s, now, twice))
  {
    SendingBalances(msgs, o, s, now, twice);
    SendingIsTimely(s.answered, s.delays, now);
    KeptAreValid(|msgs|, s.delays, now);
    OrderIsKept(s.delays, now);
    Transitive(Kept(s.delays, now), s.delays, Accepted(s.accepted));
  }

  lemma KeptAreValid(count: nat, delays: seq<Request>, now: int)
    requires forall i :: 0 <= i < |delays| ==> 0 <= delays[i].id < count
    ensures |Kept(delays, now)| <= |delays|
    ensures forall i :: 0 <= i < |Kept(delays, now)| ==> 0 <= Kept(delays, now)[i].id < count
  {
    Split(delays, now);
    var kept := Kept(delays, now);
    forall i | 0 <= i < |kept| ensures 0 <= kept[i].id < count {
      assert kept[i] in kept;
    }
  }

  lemma OneMoreArrival(o: Options, accepted: seq<Arrival>, a: Arrival)
    requires Drawn(o, accepted) && a.request.due == a.at + if o.noDelay then 0 else a.delay
    ensures Drawn(o, accepted + [a]) && Accepted(accepted + [a]) == Accepted(accepted) + [a.request]
  {
  }

  lemma AcceptKeepsOk(msgs: seq<Bytes>, o: Options, s: ServerState, a: Arrival)
    requires ServerOk(msgs, o, s) && |s.delays| < NUM_CHUNKS && 0 <= a.request.id < |msgs|
    requires a.request.due == a.at + if o.noDelay then 0 else a.delay
    ensures ServerOk(msgs, o, s.(delays := s.delays + [a.request], accepted := s.accepted + [a]))
  {
    OneMoreArrival(o, s.accepted, a);
    OneMoreElement(s.delays, Accepted(s.accepted), a.request);
    OneMoreCounts(s.delays, Accepted(s.accepted), RequestsOf(s.answered), a.request);
  }

  lemma OneMoreCounts(delays: seq<Request>, accepted: seq<Request>, answered: seq<Request>, r: Request)
    requires multiset(accepted) == multiset(answered) + multiset(delays)
    ensures multiset(accepted + [r]) == multiset(answered) + multiset(delays + [r])
  {
  }

  /** The request is refused: it is invalid, swallowed by a burst, lost, or finds the queue full. */
  predicate Refused(o: Options, count: nat, s: ServerState, id: int, f: Fate) {
    || id >= count || (o.chaos && (s.burstDropRemaining > 0 || f.burstStarts))
    || (f.lost && !o.noPacketDrops) || |s.delays| >= 10
  }

  /**
   * A refused request leaves no trace but in the count of a burst, which it lowers or starts; any other one waits
   * behind the rest until the delay drawn for it has passed.
   */
  lemma RefusedExactly(o: Options, count: nat, s: ServerState, now: int, id: int, f: Fate)
    ensures var s' := OnRequest(o, count, s, now, id, f);
      if Refused(o, count, s, id, f) then
        && s' == s.(burstDropRemaining := s'.burstDropRemaining)
        && s'.burstDropRemaining ==
             (if id >= count || !o.chaos then s.burstDropRemaining
              else if s.burstDropRemaining > 0 then s.burstDropRemaining - 1
              else if f.burstStarts then f.burstLength - 1 else s.burstDropRemaining)
      else
        exists r: Request ::
          && r.id == id && r.due == now + (if o.noDelay then 0 else f.delay)
          && s' == s.(delays := s.delays + [r], accepted := s.accepted + [Arrival(r, now, f.delay)])
  {
    var r := Request(now + if o.noDelay then 0 else f.delay, id);
    assert r.id == id;
  }

  lemma BurstKeepsOk(msgs: seq<Bytes>, o: Options, s: ServerState, burst: int)
    requires ServerOk(msgs, o, s)
    ensures ServerOk(msgs, o, s.(burstDropRemaining := burst))
  {
  }

  lemma RequestKeepsOk(msgs: seq<Bytes>, o: Options, s: ServerState, now: int, id: int, f: Fate)
    requires ServerOk(msgs, o, s) && 0 <= id
    ensures ServerOk(msgs, o, OnRequest(o, |msgs|, s, now, id, f))
  {
    var s' := OnRequest(o, |msgs|, s, now, id, f);
    RefusedExactly(o, |msgs|, s, now, id, f);
    if Refused(o, |msgs|, s, id, f) {
      BurstKeepsOk(msgs, o, s, s'.burstDropRemaining);
    } else {
      AcceptKeepsOk(msgs, o, s, s'.accepted[|s.accepted|]);
    }
  }

  /** Outside chaos mode each expired request is answered exactly once, in order, with its own chunk. */
  lemma {:induction false} OneReplyEach(msgs: seq<Bytes>, delays: seq<Request>, now: int, twice: nat -> bool)
    requires forall i :: 0 <= i < |delays| ==> 0 <= delays[i].id < |msgs|
    ensures forall i :: 0 <= i < |Expired(delays, now)| ==> 0 <= Expired(delays, now)[i].id < |msgs|
    ensures Replies(msgs, delays, now, false, twice) == MsgsFor(msgs, Expired(delays, now))
  {
    if delays != [] {
      OneReplyEach(msgs, delays[..|delays| - 1], now, twice);
    }
  }

  /** Expired requests whose answer the dice repeat. */
  function Repeated(delays: seq<Request>, now: int, twice: nat -> bool): set<nat> {
    set i: nat | i < |delays| && delays[i].due < now && twice(i)
  }

  /** A chaotic server repeats exactly the answers that the dice say, and any other one none. */
  lemma {:induction false} RepeatedExactly(msgs: seq<Bytes>, delays: seq<Request>, now: int, chaos: bool,
                                           twice: nat -> bool)
    requires forall i :: 0 <= i < |delays| ==> 0 <= delays[i].id < |msgs|
    ensures |Replies(msgs, delays, now, chaos, twice)|
            == |Expired(delays, now)| + if chaos then |Repeated(delays, now, twice)| else 0
  {
    if delays == [] {
      assert Repeated(delays, now, twice) == {};
    } else {
      var n := |delays| - 1;
      RepeatedExactly(msgs, delays[..n], now, chaos, twice);
      var front := Repeated(delays[..n], now, twice);
      assert Repeated(delays, now, twice) == if delays[n].due < now && twice(n) then front + {n} else front;
    }
  }

  /** In chaos mode too, every frame carries the chunk its id names, for a request that had expired. */
  lemma {:induction false} RepliesAreTrue(msgs: seq<Bytes>, delays: seq<Request>, now: int, chaos: bool,
                                          twice: nat -> bool)
    requires forall i :: 0 <= i < |delays| ==> 0 <= delays[i].id < |msgs|
    ensures forall m :: m in Replies(msgs, delays, now, chaos, twice) ==>
              0 <= m.id < |msgs| && m.data == msgs[m.id]
              && exists r :: r in delays && r.id == m.id && r.due < now
  {
    if delays != [] {
      var n := |delays| - 1;
      RepliesAreTrue(msgs, delays[..n], now, chaos, twice);
      var front, all := Replies(msgs, delays[..n], now, chaos, twice), Replies(msgs, delays, now, chaos, twice);
      forall m | m in all
        ensures 0 <= m.id < |msgs| && m.data == msgs[m.id]
                && exists r :: r in delays && r.id == m.id && r.due < now {
        if m in front {
          var r :| r in delays[..n] && r.id == m.id && r.due < now;
          assert r in delays;
        } else {
          assert delays[n] in delays && m == Msg(delays[n].id, msgs[delays[n].id]);
        }
      }
    }
  }

  class RequestHandler {
    const msgs: seq<Bytes>
    const options: Options
    var delays: seq<Request>
    var burstDropRemaining: int
    ghost var accepted: seq<Arrival>
    ghost var answered: seq<Answer>
    ghost var sent: seq<Msg>

    ghost function View(): ServerState
      reads this
    {
      ServerState(delays, burstDropRemaining, accepted, answered, sent)
    }

    ghost predicate Valid()
      reads this
    {
      ServerOk(msgs, options, View())
    }

    constructor (msgs: seq<Bytes>, options: Options)
      ensures Valid() && this.msgs == msgs && this.options == options && View() == INITIAL
    {
      this.msgs, this.options := msgs, options;
      delays, burstDropRemaining, accepted, answered, sent := [], 0, [], [], [];
    }

    /** One turn's answers: send what has expired, then erase it. */
    method ProcessDelayed(now: int, twice: nat -> bool) returns (frames: seq<Msg>)
      requires Valid()
      modifies this`delays, this`answered, this`sent
      ensures Valid() && View() == AfterSending(msgs, options, old(View()), now, twice)
      ensures frames == Replies(msgs, old(delays), now, options.chaos, twice)
    {
      SendingKeepsOk(msgs, options, View(), now, twice);
      frames := BothPasses(now, twice);
    }

    method BothPasses(now: int, twice: nat -> bool) returns (frames: seq<Msg>)
      requires forall i :: 0 <= i < |delays| ==> 0 <= delays[i].id < |msgs|
      modifies this`delays, this`answered, this`sent
      ensures View() == AfterSending(msgs, options, old(View()), now, twice)
      ensures frames == Replies(msgs, old(delays), now, options.chaos, twice)
    {
      frames := SendExpired(now, twice);
      answered := answered + Answers(Expired(delays, now), now);
      sent := sent + frames;
      EraseExpired(now);
    }

    method SendExpired(now: int, twice: nat -> bool) returns (frames: seq<Msg>)
      requires forall i :: 0 <= i < |delays| ==> 0 <= delays[i].id < |msgs|
      ensures frames == Replies(msgs, delays, now, options.chaos, twice)
    {
      frames := [];
      for i := 0 to |delays|
        invariant frames == Replies(msgs, delays[..i], now, options.chaos, twice)
      {
        assert delays[..i + 1][..i] == delays[..i];
        if delays[i].due < now {
          if delays[i].id < |msgs| {
            frames := frames + [Msg(delays[i].id, msgs[delays[i].id])];
            if options.chaos && twice(i) {
              frames := frames + [Msg(delays[i].id, msgs[delays[i].id])];
            }
          }
        }
      }
      assert delays[..|delays|] == delays;
    }

    method EraseExpired(now: int)
      modifies this`delays
      ensures delays == Kept(old(delays), now)
    {
      var kept := [];
      for i := 0 to |delays|
        invariant kept == Kept(delays[..i], now) && delays == old(delays)
      {
        assert delays[..i + 1][..i] == delays[..i];
        if !(delays[i].due < now) {
          kept := kept + [delays[i]];
        }
      }
      assert delays[..|delays|] == delays;
      delays := kept;
    }

    method HandleRequest(now: int, id: int, f: Fate)
      requires Valid() && 0 <= id
      modifies this`delays, this`burstDropRemaining, this`accepted
      ensures Valid() && View() == OnRequest(options, |msgs|, old(View()), now, id, f)
    {
      RequestKeepsOk(msgs, options, View(), now, id, f);
      Admit(now, id, f);
    }

    method Admit(now: int, id: int, f: Fate)
      modifies this`delays, this`burstDropRemaining, this`accepted
      ensures View() == OnRequest(options, |msgs|, old(View()), now, id, f)
    {
      if id >= |msgs| {
        return;
      }
      if options.chaos {
        if burstDropRemaining > 0 {
          burstDropRemaining := burstDropRemaining - 1;
          return;
        }
        if f.burstStarts {
          burstDropRemaining := f.burstLength - 1;
          return;
        }
      }
      if !options.noPacketDrops && f.lost {
        return;
      }
      if |delays| >= NUM_CHUNKS {
        return;
      }
      var delay := if options.noDelay then 0 else f.delay;
      delays := delays + [Request(now + delay, id)];
      accepted := accepted + [Arrival(Request(now + delay, id), now, f.delay)];
    }
  }
}
