/**
 * The whole file transfer of 03-reliable as one system: client, reader thread and server take turns in
 * any order, the server loses, delays and repeats as it likes, and a full inbox drops frames.
 */
module Transfer {
  import opened Chunks
  import opened Subsequences
  import opened Server
  import opened Inbox
  import opened Client

  /** read and consumed are history kept for the statements only. */
  datatype System = System(
    client: ClientState, toServer: Bytes, server: ServerState, toClient: Bytes, inbox: seq<Msg>,
    read: seq<Reading>, consumed: seq<Msg>)

  function Start(): System {
    System(Untouched(), [], INITIAL, [], [], [], [])
  }

  datatype Turn =
    | Ask(now: int)                             // the client's request loop
    | Take                                      // get_msg after data_ready, and what the client does with it
    | Write                                     // the client's write loop
    | Read                                      // the reader thread takes one frame off its socket
    | Reply(now: int, twice: nat -> bool)       // the server's send and erase passes
    | Serve(now: int, fate: Fate)               // the server reads one request

  function Next(msgs: seq<Bytes>, o: Options, s: System, t: Turn): System
    requires SystemOk(msgs, o, s)
  {
    match t
    case Ask(now) =>
      var end := WindowEnd(s.client.nextExpected);
      s.(client := AfterAsking(s.client, s.client.nextExpected, end, now),
         toServer := s.toServer + EncodeIds(Asked(s.client, s.client.nextExpected, end, now)))
    case Take =>
      if s.inbox == [] then s
      else s.(client := OnMsg(s.client, s.inbox[0]), inbox := s.inbox[1..], consumed := s.consumed + [s.inbox[0]])
    case Write => s.(client := WriteReady(s.client))
    case Read =>
      (match ReadMsg(s.toClient)
       case None => s
       case Some((m, rest)) =>
         s.(toClient := rest, inbox := Deliver(s.inbox, m), read := s.read + [Reading(m, |s.inbox|)]))
    case Reply(now, twice) =>
      s.(server := AfterSending(msgs, o, s.server, now, twice),
         toClient := s.toClient + EncodeAll(Replies(msgs, s.server.delays, now, o.chaos, twice)))
    case Serve(now, fate) =>
      (match ReadId(s.toServer)
       case None => s
       case Some((id, rest)) => s.(toServer := rest, server := OnRequest(o, |msgs|, s.server, now, id, fate)))
  }

  ghost predicate WholeChunks(msgs: seq<Bytes>) {
    forall i :: 0 <= i < |msgs| ==> |msgs[i]| == CHUNK_SIZE
  }

  /** The id has been asked for, so it lies in the window or before it. */
  ghost predicate WasAsked(c: ClientState, id: int) {
    0 <= id < |c.requested| && c.requested[id]
  }

  ghost predicate TrueMsg(msgs: seq<Bytes>, c: ClientState, m: Msg) {
    0 <= m.id < |msgs| && m.data == msgs[m.id] && WasAsked(c, m.id)
  }

  ghost predicate TrueMsgs(msgs: seq<Bytes>, c: ClientState, ms: seq<Msg>) {
    forall i :: 0 <= i < |ms| ==> TrueMsg(msgs, c, ms[i])
  }

  ghost predicate AllAsked(c: ClientState, ids: seq<int>) {
    forall i :: 0 <= i < |ids| ==> WasAsked(c, ids[i])
  }

  ghost predicate Waiting(c: ClientState, delays: seq<Request>) {
    forall i :: 0 <= i < |delays| ==> WasAsked(c, delays[i].id)
  }

  ghost predicate RequestStream(c: ClientState, stream: Bytes) {
    exists ids :: stream == EncodeIds(ids) && AllAsked(c, ids)
  }

  /** The bytes on the socket are the frames ms, the ones sent but not yet read. */
  ghost predicate OnTheSocket(sent: seq<Msg>, read: seq<Msg>, stream: Bytes, ms: seq<Msg>) {
    stream == EncodeAll(ms) && sent == read + ms
  }

  ghost predicate AnswerStream(msgs: seq<Bytes>, c: ClientState, sent: seq<Msg>, read: seq<Msg>, stream: Bytes) {
    exists ms :: OnTheSocket(sent, read, stream, ms) && TrueMsgs(msgs, c, ms)
  }

  ghost predicate SystemOk(msgs: seq<Bytes>, o: Options, s: System) {
    && WholeChunks(msgs)
    && ClientOk(msgs, s.client) && ServerOk(msgs, o, s.server) && Waiting(s.client, s.server.delays)
    && RequestStream(s.client, s.toServer)
    && AnswerStream(msgs, s.client, s.server.sent, Frames(s.read), s.toClient)
    && TrueMsgs(msgs, s.client, s.inbox) && |s.inbox| <= NUM_CHUNKS
    && s.consumed + s.inbox == Stored(s.read)
  }

  // ---------------------------------------------------------------- every turn keeps the system good

  /** Having been asked for is never undone. */
  ghost predicate MoreAsked(c: ClientState, c': ClientState) {
    |c'.requested| == |c.requested| && forall i :: 0 <= i < |c.requested| && c.requested[i] ==> c'.requested[i]
  }

  lemma StillTrue(msgs: seq<Bytes>, c: ClientState, c': ClientState, ms: seq<Msg>)
    requires TrueMsgs(msgs, c, ms) && MoreAsked(c, c')
    ensures TrueMsgs(msgs, c', ms)
  {
    forall i | 0 <= i < |ms| ensures TrueMsg(msgs, c', ms[i]) {
      assert TrueMsg(msgs, c, ms[i]);
    }
  }

  lemma StillAsked(c: ClientState, c': ClientState, ids: seq<int>)
    requires AllAsked(c, ids) && MoreAsked(c, c')
    ensures AllAsked(c', ids)
  {
    forall i | 0 <= i < |ids| ensures WasAsked(c', ids[i]) {
      assert WasAsked(c, ids[i]);
    }
  }

  lemma StillWaiting(c: ClientState, c': ClientState, delays: seq<Request>)
    requires Waiting(c, delays) && MoreAsked(c, c')
    ensures Waiting(c', delays)
  {
    forall i | 0 <= i < |delays| ensures WasAsked(c', delays[i].id) {
      assert WasAsked(c, delays[i].id);
    }
  }

  lemma StreamsStay(msgs: seq<Bytes>, c: ClientState, c': ClientState, toServer: Bytes, sent: seq<Msg>,
                    read: seq<Msg>, toClient: Bytes)
    requires RequestStream(c, toServer) && AnswerStream(msgs, c, sent, read, toClient) && MoreAsked(c, c')
    ensures RequestStream(c', toServer) && AnswerStream(msgs, c', sent, read, toClient)
  {
    var ids :| toServer == EncodeIds(ids) && AllAsked(c, ids);
    var ms :| OnTheSocket(sent, read, toClient, ms) && TrueMsgs(msgs, c, ms);
    StillAsked(c, c', ids);
    StillTrue(msgs, c, c', ms);
  }

  /** The client changed and the rest of the system did not. */
  lemma ClientMoves(msgs: seq<Bytes>, o: Options, s: System, c': ClientState)
    requires SystemOk(msgs, o, s) && ClientOk(msgs, c') && MoreAsked(s.client, c')
    ensures SystemOk(msgs, o, s.(client := c'))
  {
    StreamsStay(msgs, s.client, c', s.toServer, s.server.sent, Frames(s.read), s.toClient);
    StillTrue(msgs, s.client, c', s.inbox);
    StillWaiting(s.client, c', s.server.delays);
  }

  lemma {:induction false} AskedAreAsked(c: ClientState, lo: nat, hi: nat, top: nat, now: int)
    requires Sized(c) && hi <= top <= NUM_MSGS
    ensures AllAsked(AfterAsking(c, lo, top, now), Asked(c, lo, hi, now))
  {
    if lo < hi {
      AskedAreAsked(c, lo, hi - 1, top, now);
    }
  }

  lemma RequestsAppended(c: ClientState, stream: Bytes, more: seq<int>)
    requires RequestStream(c, stream) && AllAsked(c, more)
    ensures RequestStream(c, stream + EncodeIds(more))
  {
    var ids :| stream == EncodeIds(ids) && AllAsked(c, ids);
    EncodeIdsAppend(ids, more);
    assert AllAsked(c, ids + more);
  }

  lemma AskOk(msgs: seq<Bytes>, o: Options, s: System, now: int)
    requires SystemOk(msgs, o, s)
    ensures SystemOk(msgs, o, Next(msgs, o, s, Ask(now)))
  {
    var n := s.client.nextExpected;
    var end := WindowEnd(n);
    var c' := AfterAsking(s.client, n, end, now);
    AskingKeepsOk(msgs, s.client, now);
    ClientMoves(msgs, o, s, c');
    AskedAreAsked(s.client, n, end, end, now);
    RequestsAppended(c', s.toServer, Asked(s.client, n, end, now));
  }

  lemma InboxMoves(msgs: seq<Bytes>, o: Options, s: System)
    requires SystemOk(msgs, o, s) && s.inbox != []
    ensures SystemOk(msgs, o, s.(inbox := s.inbox[1..], consumed := s.consumed + [s.inbox[0]]))
  {
    assert s.consumed + [s.inbox[0]] + s.inbox[1..] == s.consumed + s.inbox;
    assert TrueMsgs(msgs, s.client, s.inbox[1..]);
  }

  lemma TakeOk(msgs: seq<Bytes>, o: Options, s: System)
    requires SystemOk(msgs, o, s)
    ensures SystemOk(msgs, o, Next(msgs, o, s, Take))
  {
    if s.inbox != [] {
      var m := s.inbox[0];
      assert TrueMsg(msgs, s.client, m);
      MsgKeepsOk(msgs, s.client, m);
      InboxMoves(msgs, o, s);
      ClientMoves(msgs, o, s.(inbox := s.inbox[1..], consumed := s.consumed + [m]), OnMsg(s.client, m));
    }
  }

  lemma WriteOk(msgs: seq<Bytes>, o: Options, s: System)
    requires SystemOk(msgs, o, s)
    ensures SystemOk(msgs, o, Next(msgs, o, s, Write))
  {
    WritingKeepsOk(msgs, s.client);
    ClientMoves(msgs, o, s, WriteReady(s.client));
  }

  /** Reading a frame off the stream yields a true one and leaves a stream of true ones. */
  lemma AnswerRead(msgs: seq<Bytes>, c: ClientState, sent: seq<Msg>, read: seq<Msg>, stream: Bytes)
    requires WholeChunks(msgs) && AnswerStream(msgs, c, sent, read, stream) && |c.requested| <= 65536
    ensures ReadMsg(stream).Some? ==>
              var (m, rest) := ReadMsg(stream).value;
              TrueMsg(msgs, c, m) && AnswerStream(msgs, c, sent, read + [m], rest)
  {
    var ms :| OnTheSocket(sent, read, stream, ms) && TrueMsgs(msgs, c, ms);
    forall i | 0 <= i < |ms| ensures Framed(ms[i]) {
      assert TrueMsg(msgs, c, ms[i]);
    }
    ReadsFrames(ms);
    if ms != [] {
      assert TrueMsg(msgs, c, ms[0]);
      assert TrueMsgs(msgs, c, ms[1..]);
      assert read + [ms[0]] + ms[1..] == read + ms;
      assert OnTheSocket(sent, read + [ms[0]], EncodeAll(ms[1..]), ms[1..]);
    }
  }

  lemma FramesSnoc(read: seq<Reading>, m: Msg, waiting: nat)
    ensures Frames(read + [Reading(m, waiting)]) == Frames(read) + [m]
  {
  }

  lemma DeliveredAreTrue(msgs: seq<Bytes>, c: ClientState, inbox: seq<Msg>, m: Msg)
    requires TrueMsgs(msgs, c, inbox) && TrueMsg(msgs, c, m) && |inbox| <= NUM_CHUNKS
    ensures TrueMsgs(msgs, c, Deliver(inbox, m)) && |Deliver(inbox, m)| <= NUM_CHUNKS
  {
  }

  lemma ReadOk(msgs: seq<Bytes>, o: Options, s: System)
    requires SystemOk(msgs, o, s)
    ensures SystemOk(msgs, o, Next(msgs, o, s, Read))
  {
    AnswerRead(msgs, s.client, s.server.sent, Frames(s.read), s.toClient);
    if ReadMsg(s.toClient).Some? {
      var m := ReadMsg(s.toClient).value.0;
      DeliveredAreTrue(msgs, s.client, s.inbox, m);
      DeliverKeepsOrder(s.consumed, s.inbox, s.read, m);
      FramesSnoc(s.read, m, |s.inbox|);
    }
  }

  lemma AnswersAppended(msgs: seq<Bytes>, c: ClientState, sent: seq<Msg>, read: seq<Msg>, stream: Bytes, more: seq<Msg>)
    requires AnswerStream(msgs, c, sent, read, stream) && TrueMsgs(msgs, c, more)
    ensures AnswerStream(msgs, c, sent + more, read, stream + EncodeAll(more))
  {
    var ms :| OnTheSocket(sent, read, stream, ms) && TrueMsgs(msgs, c, ms);
    EncodeAllAppend(ms, more);
    assert TrueMsgs(msgs, c, ms + more);
    MoreOnTheSocket(sent, read, stream, ms, more);
  }

  lemma MoreOnTheSocket(sent: seq<Msg>, read: seq<Msg>, stream: Bytes, ms: seq<Msg>, more: seq<Msg>)
    requires OnTheSocket(sent, read, stream, ms) && EncodeAll(ms + more) == EncodeAll(ms) + EncodeAll(more)
    ensures OnTheSocket(sent + more, read, stream + EncodeAll(more), ms + more)
  {
    Regroup(read, ms, more);
  }

  lemma RepliesWereAsked(msgs: seq<Bytes>, c: ClientState, delays: seq<Request>, now: int, chaos: bool,
                         twice: nat -> bool)
    requires Waiting(c, delays) && forall i :: 0 <= i < |delays| ==> 0 <= delays[i].id < |msgs|
    ensures TrueMsgs(msgs, c, Replies(msgs, delays, now, chaos, twice))
  {
    RepliesAreTrue(msgs, delays, now, chaos, twice);
    var replies := Replies(msgs, delays, now, chaos, twice);
    forall i | 0 <= i < |replies| ensures TrueMsg(msgs, c, replies[i]) {
      assert replies[i] in replies;
      var r :| r in delays && r.id == replies[i].id && r.due < now;
    }
  }

  lemma KeptWereAsked(c: ClientState, delays: seq<Request>, now: int)
    requires Waiting(c, delays)
    ensures Waiting(c, Kept(delays, now))
  {
    Split(delays, now);
    var kept := Kept(delays, now);
    forall i | 0 <= i < |kept| ensures WasAsked(c, kept[i].id) {
      assert kept[i] in kept;
    }
  }

  lemma ReplyOk(msgs: seq<Bytes>, o: Options, s: System, now: int, twice: nat -> bool)
    requires SystemOk(msgs, o, s)
    ensures SystemOk(msgs, o, Next(msgs, o, s, Reply(now, twice)))
  {
    SendingKeepsOk(msgs, o, s.server, now, twice);
    RepliesWereAsked(msgs, s.client, s.server.delays, now, o.chaos, twice);
    AnswersAppended(msgs, s.client, s.server.sent, Frames(s.read), s.toClient,
                    Replies(msgs, s.server.delays, now, o.chaos, twice));
    KeptWereAsked(s.client, s.server.delays, now);
  }

  lemma RequestRead(c: ClientState, stream: Bytes)
    requires RequestStream(c, stream) && |c.requested| <= 65536
    ensures ReadId(stream).Some? ==>
              WasAsked(c, ReadId(stream).value.0) && RequestStream(c, ReadId(stream).value.1)
  {
    var ids :| stream == EncodeIds(ids) && AllAsked(c, ids);
    forall i | 0 <= i < |ids| ensures 0 <= ids[i] < 65536 {
      assert WasAsked(c, ids[i]);
    }
    ReadsIds(ids);
    if ids != [] {
      assert WasAsked(c, ids[0]);
      assert AllAsked(c, ids[1..]);
    }
  }

  lemma ServeOk(msgs: seq<Bytes>, o: Options, s: System, now: int, fate: Fate)
    requires SystemOk(msgs, o, s)
    ensures SystemOk(msgs, o, Next(msgs, o, s, Serve(now, fate)))
  {
    RequestRead(s.client, s.toServer);
    if ReadId(s.toServer).Some? {
      var id := ReadId(s.toServer).value.0;
      RequestKeepsOk(msgs, o, s.server, now, id, fate);
      ServedWasAsked(s.client, o, |msgs|, s.server, now, id, fate);
    }
  }

  lemma ServedWasAsked(c: ClientState, o: Options, count: nat, v: ServerState, now: int, id: int, fate: Fate)
    requires Waiting(c, v.delays) && WasAsked(c, id)
    ensures var v' := OnRequest(o, count, v, now, id, fate);
      Waiting(c, v'.delays) && v'.sent == v.sent
  {
  }

  lemma NextOk(msgs: seq<Bytes>, o: Options, s: System, t: Turn)
    requires SystemOk(msgs, o, s)
    ensures SystemOk(msgs, o, Next(msgs, o, s, t))
  {
    match t
    case Ask(now) => AskOk(msgs, o, s, now);
    case Take => TakeOk(msgs, o, s);
    case Write => WriteOk(msgs, o, s);
    case Read => ReadOk(msgs, o, s);
    case Reply(now, twice) => ReplyOk(msgs, o, s, now, twice);
    case Serve(now, fate) => ServeOk(msgs, o, s, now, fate);
  }

  lemma StartOk(msgs: seq<Bytes>, o: Options)
    requires WholeChunks(msgs)
    ensures SystemOk(msgs, o, Start())
  {
    var c := Start().client;
    assert EncodeIds([]) == [] && AllAsked(c, []) && RequestStream(c, []);
    assert OnTheSocket([], [], [], []) && TrueMsgs(msgs, c, []) && Frames(Start().read) == [];
  }

  /** The system after any interleaving of turns, from s on. */
  ghost function From(msgs: seq<Bytes>, o: Options, s: System, turns: seq<Turn>): (r: System)
    requires SystemOk(msgs, o, s)
    ensures SystemOk(msgs, o, r)
    decreases |turns|
  {
    if turns == [] then s
    else
      NextOk(msgs, o, s, turns[0]);
      From(msgs, o, Next(msgs, o, s, turns[0]), turns[1..])
  }

  ghost function Run(msgs: seq<Bytes>, o: Options, turns: seq<Turn>): (s: System)
    requires WholeChunks(msgs)
    ensures SystemOk(msgs, o, s)
  {
    StartOk(msgs, o);
    From(msgs, o, Start(), turns)
  }

  // ---------------------------------------------------------------- what the transfer promises

  /** msgs is what load_data makes of the text. */
  ghost predicate Loaded(text: Bytes, msgs: seq<Bytes>) {
    && |msgs| == ChunkCount(|text|) && WholeChunks(msgs)
    && Flatten(msgs) == text + Zeros(CHUNK_SIZE * |msgs| - |text|)
  }

  lemma {:induction false} FlattenSize(chunks: seq<Bytes>)
    requires WholeChunks(chunks)
    ensures |Flatten(chunks)| == CHUNK_SIZE * |chunks|
  {
    if chunks != [] {
      FlattenSize(chunks[..|chunks| - 1]);
    }
  }

  lemma {:induction false} FlattenPrefix(chunks: seq<Bytes>, n: nat)
    requires n <= |chunks|
    ensures Flatten(chunks[..n]) <= Flatten(chunks)
  {
    if n < |chunks| {
      FlattenPrefix(chunks[..|chunks| - 1], n);
      assert chunks[..|chunks| - 1][..n] == chunks[..n];
    } else {
      assert chunks[..n] == chunks;
    }
  }

  /**
   * Whatever the network and the scheduler do, the file is the first nextExpected chunks of the padded
   * text, byte for byte.
   */
  lemma FileIsAlwaysAPrefix(text: Bytes, msgs: seq<Bytes>, o: Options, turns: seq<Turn>)
    requires Loaded(text, msgs)
    ensures var c := Run(msgs, o, turns).client;
      && c.outfile <= text + Zeros(128 * |msgs| - |text|)
      && |c.outfile| == 128 * c.nextExpected
  {
    OkFileIsAPrefix(msgs, Run(msgs, o, turns).client);
  }

  lemma OkFileIsAPrefix(msgs: seq<Bytes>, c: ClientState)
    requires WholeChunks(msgs) && ClientOk(msgs, c)
    ensures c.outfile <= Flatten(msgs) && |c.outfile| == CHUNK_SIZE * c.nextExpected
  {
    FlattenPrefix(msgs, c.nextExpected);
    FlattenSize(msgs[..c.nextExpected]);
  }

  /**
   * When the client's loop ends, the file is the text padded to NUM_MSGS chunks if that is how many
   * chunks the text has, the first NUM_MSGS chunks of it if it has more, and with fewer the loop never ends.
   */
  lemma FinishedFileIsTheText(text: Bytes, msgs: seq<Bytes>, o: Options, turns: seq<Turn>)
    requires Loaded(text, msgs) && Run(msgs, o, turns).client.nextExpected == NUM_MSGS
    ensures var file := Run(msgs, o, turns).client.outfile;
      && |msgs| >= NUM_MSGS
      && (|msgs| == 853 <==> file == text + Zeros(128 * |msgs| - |text|))
      && (|msgs| > 853 ==> file == text[..128 * 853])
  {
    var c := Run(msgs, o, turns).client;
    FileIsAlwaysAPrefix(text, msgs, o, turns);
    if |msgs| > NUM_MSGS {
      assert CHUNK_SIZE * NUM_MSGS <= |text|;
    }
  }

  /** At most WINDOW_SIZE chunks are ever held back, and nothing arrives that was not asked for. */
  lemma WindowBoundsTheBuffer(msgs: seq<Bytes>, o: Options, turns: seq<Turn>, i: nat)
    requires WholeChunks(msgs)
    requires i < NUM_MSGS && Run(msgs, o, turns).client.received[i]
    ensures var c := Run(msgs, o, turns).client;
      i < c.nextExpected + WINDOW_SIZE && c.requested[i] && c.chunks[i] == msgs[i]
  {
    assert SystemOk(msgs, o, Run(msgs, o, turns));
  }

  /**
   * What the client has taken, and what waits for it, are exactly the frames read in their order but for
   * those that found ten others waiting.
   */
  lemma InboxIsFifoWithTailDrop(msgs: seq<Bytes>, o: Options, turns: seq<Turn>)
    requires WholeChunks(msgs)
    ensures var s := Run(msgs, o, turns);
      && s.consumed + s.inbox == Stored(s.read) && |s.inbox| <= 10
      && Subsequence(s.consumed + s.inbox, Frames(s.read))
  {
    StoredIsSubsequence(Run(msgs, o, turns).read);
  }

  /**
   * Every request the server accepted is still waiting, in the order it came in, or was answered, and never before
   * the delay drawn for it had passed; and the frames read by the client followed by those still on the socket are
   * the answers in order, each request's own chunk once, or in chaos mode perhaps twice.
   */
  lemma AcceptedIsAnsweredOnce(msgs: seq<Bytes>, o: Options, turns: seq<Turn>)
    returns (onTheSocket: seq<Msg>)
    requires WholeChunks(msgs)
    ensures var s := Run(msgs, o, turns);
      var v := s.server;
      && |v.delays| <= 10 && Subsequence(v.delays, Accepted(v.accepted))
      && multiset(Accepted(v.accepted)) == multiset(RequestsOf(v.answered)) + multiset(v.delays)
      && Drawn(o, v.accepted) && NeverEarly(o, v.accepted, v.answered)
      && s.toClient == EncodeAll(onTheSocket)
      && Answering(msgs, RequestsOf(v.answered), Frames(s.read) + onTheSocket, o.chaos)
    ensures var s := Run(msgs, o, turns);
      var requests := RequestsOf(s.server.answered);
      !o.chaos ==> (forall i :: 0 <= i < |requests| ==> 0 <= requests[i].id < |msgs|)
                   && Frames(s.read) + onTheSocket == MsgsFor(msgs, requests)
  {
    var s := Run(msgs, o, turns);
    onTheSocket :| OnTheSocket(s.server.sent, Frames(s.read), s.toClient, onTheSocket);
    DelaysAreKept(msgs, o, s.server);
    if !o.chaos {
      OneFrameEach(msgs, RequestsOf(s.server.answered), s.server.sent);
    }
  }

  /** No turn but the client's own taking empties the inbox or changes its head. */
  lemma OthersKeepTheHead(msgs: seq<Bytes>, o: Options, s: System, t: Turn)
    requires SystemOk(msgs, o, s) && s.inbox != [] && !t.Take?
    ensures Next(msgs, o, s, t).inbox != [] && Next(msgs, o, s, t).inbox[0] == s.inbox[0]
  {
  }

  /**
   * After data_ready has said yes, whatever the reader thread and the server do before get_msg, it will
   * find the very frame that was there: it cannot abort, though the lock was released in between.
   */
  lemma {:induction false} ReadyMeansGettable(msgs: seq<Bytes>, o: Options, s: System, others: seq<Turn>)
    requires SystemOk(msgs, o, s) && s.inbox != [] && forall i :: 0 <= i < |others| ==> !others[i].Take?
    ensures From(msgs, o, s, others).inbox != [] && From(msgs, o, s, others).inbox[0] == s.inbox[0]
    decreases |others|
  {
    if others != [] {
      NextOk(msgs, o, s, others[0]);
      OthersKeepTheHead(msgs, o, s, others[0]);
      ReadyMeansGettable(msgs, o, Next(msgs, o, s, others[0]), others[1..]);
    }
  }
}
