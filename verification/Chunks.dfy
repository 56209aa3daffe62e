/** 03-reliable: the constants, the server's text as padded chunks, and frames on the byte stream. */
module Chunks {
  import opened Wrappers

  const NUM_MSGS := 853
  const CHUNK_SIZE := 128
  const NUM_CHUNKS := 10
  const ID_SIZE := 2

  type Bytes = seq<int>

  function Zeros(n: nat): (z: Bytes)
    ensures |z| == n && forall i :: 0 <= i < n ==> z[i] == 0
  {
    if n == 0 then [] else Zeros(n - 1) + [0]
  }

  /** One chunk: up to CHUNK_SIZE bytes of the text from i on, filled up with NULs. */
  function ChunkAt(text: Bytes, i: nat): (c: Bytes)
    requires i < |text|
    ensures |c| == CHUNK_SIZE
  {
    if i + CHUNK_SIZE <= |text| then text[i..i + CHUNK_SIZE]
    else text[i..] + Zeros(CHUNK_SIZE - (|text| - i))
  }

  function Flatten(chunks: seq<Bytes>): Bytes {
    if chunks == [] then [] else Flatten(chunks[..|chunks| - 1]) + chunks[|chunks| - 1]
  }

  /** The smallest number of whole chunks that holds n bytes. */
  function ChunkCount(n: nat): nat {
    (n + CHUNK_SIZE - 1) / CHUNK_SIZE
  }

  lemma FlattenSnoc(chunks: seq<Bytes>, c: Bytes)
    ensures Flatten(chunks + [c]) == Flatten(chunks) + c
  {
    assert (chunks + [c])[..|chunks|] == chunks;
  }

  /**
   * load_data: the chunks put together are the text followed by NULs up to a whole number of chunks,
   * and there are no more chunks than that takes.
   */
  method LoadData(text: Bytes) returns (msgs: seq<Bytes>)
    ensures |msgs| == ChunkCount(|text|) && forall i :: 0 <= i < |msgs| ==> |msgs[i]| == CHUNK_SIZE
    ensures Flatten(msgs) == text + Zeros(CHUNK_SIZE * |msgs| - |text|)
  {
    msgs := [];
    var i := 0;
    while i < |text|
      invariant i == CHUNK_SIZE * |msgs| < |text| + CHUNK_SIZE
      invariant forall j :: 0 <= j < |msgs| ==> |msgs[j]| == CHUNK_SIZE
      invariant Flatten(msgs) == if i <= |text| then text[..i] else text + Zeros(i - |text|)
      decreases |text| - i
    {
      var s := ChunkAt(text, i);
      FlattenSnoc(msgs, s);
      msgs := msgs + [s];
      i := i + CHUNK_SIZE;
    }
  }

  // ---------------------------------------------------------------- frames

  datatype Msg = Msg(id: int, data: Bytes)

  /** uint16_t in host (little-endian) byte order, as both programs copy it. */
  function EncodeId(id: int): Bytes {
    [id % 256, id / 256 % 256]
  }

  function DecodeId(b: Bytes): int
    requires |b| >= ID_SIZE
  {
    b[0] + 256 * b[1]
  }

  /** The two bytes at the head of a stream give the id back, whatever follows. */
  lemma IdRoundTrip(id: int, rest: Bytes)
    requires 0 <= id < 65536
    ensures DecodeId(EncodeId(id) + rest) == id
    ensures (EncodeId(id) + rest)[ID_SIZE..] == rest
  {
  }

  /** Two bytes of id, the low one first, and then the data. */
  function EncodeMsg(m: Msg): (b: Bytes)
    ensures |b| == 2 + |m.data| && b[2..] == m.data
    ensures 0 <= m.id < 65536 ==> b[0] + 256 * b[1] == m.id && 0 <= b[0] < 256 && 0 <= b[1] < 256
  {
    EncodeId(m.id) + m.data
  }

  function EncodeAll(ms: seq<Msg>): Bytes {
    if ms == [] then [] else EncodeMsg(ms[0]) + EncodeAll(ms[1..])
  }

  function EncodeIds(ids: seq<int>): Bytes {
    if ids == [] then [] else EncodeId(ids[0]) + EncodeIds(ids[1..])
  }

  /** What one fixed-size read takes off the stream: None while it would still block. */
  function ReadMsg(stream: Bytes): Option<(Msg, Bytes)> {
    if |stream| < ID_SIZE + CHUNK_SIZE then None
    else Some((Msg(DecodeId(stream), stream[ID_SIZE..ID_SIZE + CHUNK_SIZE]), stream[ID_SIZE + CHUNK_SIZE..]))
  }

  function ReadId(stream: Bytes): Option<(int, Bytes)> {
    if |stream| < ID_SIZE then None else Some((DecodeId(stream), stream[ID_SIZE..]))
  }

  ghost predicate Framed(m: Msg) {
    0 <= m.id < 65536 && |m.data| == CHUNK_SIZE
  }

  /** Fixed-size reads find the frames again: nothing on a stream of frames can shift their borders. */
  lemma {:induction false} ReadsFrames(ms: seq<Msg>)
    requires forall i :: 0 <= i < |ms| ==> Framed(ms[i])
    ensures ReadMsg(EncodeAll(ms)) == if ms == [] then None else Some((ms[0], EncodeAll(ms[1..])))
  {
    if ms != [] {
      var m, rest := ms[0], EncodeAll(ms[1..]);
      assert EncodeAll(ms) == EncodeId(m.id) + (m.data + rest);
      IdRoundTrip(m.id, m.data + rest);
      ReadsOne(m, rest);
    }
  }

  lemma ReadsOne(m: Msg, rest: Bytes)
    requires Framed(m) && DecodeId(EncodeId(m.id) + (m.data + rest)) == m.id
    ensures ReadMsg(EncodeId(m.id) + (m.data + rest)) == Some((m, rest))
  {
    var stream := EncodeId(m.id) + (m.data + rest);
    assert stream[ID_SIZE..ID_SIZE + CHUNK_SIZE] == m.data;
    assert stream[ID_SIZE + CHUNK_SIZE..] == rest;
  }

  lemma {:induction false} ReadsIds(ids: seq<int>)
    requires forall i :: 0 <= i < |ids| ==> 0 <= ids[i] < 65536
    ensures ReadId(EncodeIds(ids)) == if ids == [] then None else Some((ids[0], EncodeIds(ids[1..])))
  {
    if ids != [] {
      IdRoundTrip(ids[0], EncodeIds(ids[1..]));
    }
  }

  lemma {:induction false} EncodeAllAppend(a: seq<Msg>, b: seq<Msg>)
    ensures EncodeAll(a + b) == EncodeAll(a) + EncodeAll(b)
  {
    if a == [] {
      assert a + b == b;
    } else {
      EncodeAllAppend(a[1..], b);
      assert (a + b)[1..] == a[1..] + b;
    }
  }

  lemma {:induction false} EncodeIdsAppend(a: seq<int>, b: seq<int>)
    ensures EncodeIds(a + b) == EncodeIds(a) + EncodeIds(b)
  {
    if a == [] {
      assert a + b == b;
    } else {
      EncodeIdsAppend(a[1..], b);
      assert (a + b)[1..] == a[1..] + b;
    }
  }
}
