/**
 The pieces of an HTTP exchange that several layers share, as values: a request body that can be
 limited, read and restored, and a response writer with the audit recorder around it.
 */
module Http {
  import opened Wrappers
  import opened Headers

  const MAX_REQUEST_SIZE: nat := 1048576

  const STATUS_OK: int := 200
  const STATUS_UNAUTHORIZED: int := 401
  const STATUS_FORBIDDEN: int := 403
  const STATUS_INTERNAL_ERROR: int := 500
  const STATUS_BAD_GATEWAY: int := 502

  /** What a reader still has to give, whether it then fails, and the limit wrapped around it. */
  datatype Body = Body(data: string, broken: bool, limit: Option<nat>)

  datatype ReadError = NoError | TooLarge | ReadFailed

  /** http.MaxBytesReader: of nested limits the smaller one counts. */
  function Limited(body: Body, limit: nat): Body {
    body.(limit := Some(if body.limit.Some? then Min(body.limit.value, limit) else limit))
  }

  /** The bytes that io.ReadAll returns; with an error they are the part read before it. */
  function ReadData(body: Body): string {
    if body.limit.Some? && |body.data| > body.limit.value then body.data[..body.limit.value] else body.data
  }

  function ReadStatus(body: Body): ReadError {
    if body.limit.Some? && |body.data| > body.limit.value then TooLarge
    else if body.broken then ReadFailed
    else NoError
  }

  /** Under nested limits a reader gets the bytes up to the smaller one, and an error if there are more. */
  lemma SmallerLimitCounts(data: string, m: nat, n: nat)
    ensures var body := Limited(Limited(Body(data, false, None), m), n);
            && ReadData(body) == data[..Min(|data|, Min(m, n))]
            && (ReadStatus(body) == NoError <==> |data| <= Min(m, n))
  {
    assert data[..|data|] == data;
  }

  /** io.NopCloser(bytes.NewReader(data)): the restored body. */
  function Restored(data: string): Body {
    Body(data, false, None)
  }

  /** A body that has been read to its end. */
  function Drained(body: Body): Body {
    body.(data := "")
  }

  /** What the client gets as the head of the response. */
  datatype WireHead = WireHead(status: int, header: Header)

  /** The audit layer's statusRecorder; status is 0 until a head is written. */
  datatype Recorder = Recorder(clientID: string, status: int)

  /**
   A response writer. `room` is how many more body bytes the connection takes before writes fail.
   `flushes` lists how much had been sent at each flush, and `heads` counts the head writes.
   */
  datatype Writer = Writer(
    header: Header,
    wire: Option<WireHead>,
    heads: nat,
    sent: string,
    flushes: seq<nat>,
    room: Option<nat>,
    recorder: Option<Recorder>)

  const FRESH_RECORDER: Recorder := Recorder("", 0)

  /** net/http's own WriteHeader: only the first call has an effect on the wire. */
  function CommitHead(w: Writer, status: int): Writer {
    w.(heads := w.heads + 1, wire := if w.wire.None? then Some(WireHead(status, w.header)) else w.wire)
  }

  /** The recorder notes the status, keeps the client id, and strips the internal header. */
  function WriteHead(w: Writer, status: int): Writer {
    match w.recorder
    case None => CommitHead(w, status)
    case Some(rec) =>
      var id := Get(w.header, AUDIT_CLIENT_ID);
      CommitHead(
        w.(recorder := Some(Recorder(if id != "" then id else rec.clientID, status)),
           header := w.header - {AUDIT_CLIENT_ID}),
        status)
  }

  /** A body write commits an implicit 200 if no head was written yet. */
  function ImplicitHead(w: Writer): Writer {
    if w.recorder.Some? && w.recorder.value.status == 0 then WriteHead(w, STATUS_OK)
    else if w.wire.None? then CommitHead(w, STATUS_OK)
    else w
  }

  /** How many of `n` bytes the connection takes. */
  function Accepts(w: Writer, n: nat): nat {
    if w.room.Some? then Min(w.room.value, n) else n
  }

  function Write(w: Writer, data: string): Writer {
    var w1 := ImplicitHead(w);
    var n := Accepts(w1, |data|);
    w1.(sent := w1.sent + data[..n], room := if w1.room.Some? then Some(w1.room.value - n) else None)
  }

  /** A write reports an error exactly when the connection did not take all of it. */
  predicate WriteSucceeds(w: Writer, data: string) {
    Accepts(w, |data|) == |data|
  }

  /** The recorder passes a flush on to the writer beneath it. */
  function Flush(w: Writer): Writer {
    var w1 := if w.wire.None? then CommitHead(w, STATUS_OK) else w;
    w1.(flushes := w1.flushes + [|w1.sent|])
  }

  /**
   Writing a body without a head commits a 200 that the recorder sees: it keeps the client id and strips
   the internal header, just as for an explicit head.
   */
  lemma ImplicitHeadIsRecorded(w: Writer, data: string)
    requires w.recorder == Some(FRESH_RECORDER) && w.wire.None?
    ensures var w' := Write(w, data);
            && w'.recorder == Some(Recorder(Get(w.header, "X-Audit-Client-Id"), 200))
            && w'.wire == Some(WireHead(200, w.header - {"X-Audit-Client-Id"}))
  {
  }

  /** A second head changes nothing on the wire, and the recorder does not lose the client id, which the first one stripped. */
  lemma LateHeadKeepsClient(w: Writer, first: int, second: int)
    requires w.recorder == Some(FRESH_RECORDER) && w.wire.None?
    ensures var w1 := WriteHead(w, first);
            var w2 := WriteHead(w1, second);
            w2.wire == w1.wire && w2.recorder == Some(Recorder(Get(w.header, "X-Audit-Client-Id"), second))
  {
  }

  /** The body of an upstream response as the reads return it: data, and whether the stream ends there. */
  datatype Chunk = Chunk(data: string, last: bool)

  /** Everything up to and including the read that ends the stream. */
  function Payload(chunks: seq<Chunk>): string {
    if chunks == [] then ""
    else if chunks[0].last then chunks[0].data
    else chunks[0].data + Payload(chunks[1..])
  }

  /** Passes the reads on in order, up to the end of the stream or a failed write. */
  function Relayed(w: Writer, chunks: seq<Chunk>, flush: bool): Writer
    decreases |chunks|
  {
    if chunks == [] then w
    else
      var data := chunks[0].data;
      if data == "" then
        if chunks[0].last then w else Relayed(w, chunks[1..], flush)
      else
        var written := Write(w, data);
        if !WriteSucceeds(w, data) then written
        else
          var next := if flush then Flush(written) else written;
          if chunks[0].last then next else Relayed(next, chunks[1..], flush)
  }

  /** The sent-byte counts right after each non-empty read of the payload. */
  function Boundaries(from: nat, chunks: seq<Chunk>): seq<nat>
    decreases |chunks|
  {
    if chunks == [] then []
    else
      var to := from + |chunks[0].data|;
      var here := if chunks[0].data == "" then [] else [to];
      if chunks[0].last then here else here + Boundaries(to, chunks[1..])
  }

  /** Once the head is out, writing and flushing leave it alone. */
  predicate HeadIsOut(w: Writer) {
    w.wire.Some? && (w.recorder.Some? ==> w.recorder.value.status != 0)
  }

  predicate SameButForBody(a: Writer, b: Writer) {
    && a.header == b.header && a.wire == b.wire && a.heads == b.heads && a.recorder == b.recorder
    && (a.room.Some? <==> b.room.Some?)
  }

  lemma {:induction false} RelayKeepsHead(w: Writer, chunks: seq<Chunk>, flush: bool)
    requires HeadIsOut(w)
    ensures SameButForBody(w, Relayed(w, chunks, flush))
    decreases |chunks|
  {
    if chunks != [] {
      var data := chunks[0].data;
      RelayKeepsHead(if data == "" then w else if flush then Flush(Write(w, data)) else Write(w, data), chunks[1..], flush);
    }
  }

  lemma TakeMore(sent: string, data: string, rest: string, n: nat)
    requires n <= |rest|
    ensures (sent + data) + rest[..n] == sent + (data + rest)[..|data| + n]
  {
  }

  /** One write once the head is out, with its flush if there is one. */
  function Passed(w: Writer, data: string, flush: bool): Writer {
    if data == "" then w else if flush then Flush(Write(w, data)) else Write(w, data)
  }

  lemma PassedSends(w: Writer, data: string, flush: bool)
    requires HeadIsOut(w)
    ensures HeadIsOut(Passed(w, data, flush))
    ensures Passed(w, data, flush).sent == w.sent + data[..Accepts(w, |data|)]
    ensures Passed(w, data, flush).room == if w.room.Some? then Some(w.room.value - Accepts(w, |data|)) else None
  {
  }

  /** The client receives the reads in order, up to the one that ends the stream, or all that the connection takes. */
  lemma {:induction false} RelaySendsPayload(w: Writer, chunks: seq<Chunk>, flush: bool)
    requires HeadIsOut(w)
    ensures Relayed(w, chunks, flush).sent == w.sent + Payload(chunks)[..Accepts(w, |Payload(chunks)|)]
    decreases |chunks|
  {
    if chunks != [] {
      var data := chunks[0].data;
      var next := Passed(w, data, flush);
      PassedSends(w, data, flush);
      if !WriteSucceeds(w, data) {
        assert Relayed(w, chunks, flush).sent == next.sent;
        assert Payload(chunks)[..Accepts(w, |data|)] == data[..Accepts(w, |data|)];
      } else {
        assert data[..|data|] == data;
        if !chunks[0].last {
          var rest := Payload(chunks[1..]);
          RelaySendsPayload(next, chunks[1..], flush);
          TakeMore(w.sent, data, rest, Accepts(next, |rest|));
        }
      }
    }
  }

  /** The first `k` marks are at most `bound`, and all others are above it. */
  predicate SplitAt(marks: seq<nat>, k: nat, bound: nat) {
    && k <= |marks|
    && (forall j | 0 <= j < k :: marks[j] <= bound)
    && (forall j | k <= j < |marks| :: marks[j] > bound)
  }

  /** There was a flush at each of the first `k` read boundaries, which are all those within what was sent. */
  predicate FlushedUpTo(before: Writer, w: Writer, chunks: seq<Chunk>, k: nat) {
    var marks := Boundaries(|before.sent|, chunks);
    SplitAt(marks, k, |w.sent|) && w.flushes == before.flushes + marks[..k]
  }

  predicate FlushedAt(w: Writer, chunks: seq<Chunk>, k: nat) {
    var after := Relayed(w, chunks, true);
    |w.sent| <= |after.sent| && FlushedUpTo(w, after, chunks, k)
  }

  lemma FailedWriteIsNotFlushed(w: Writer, chunks: seq<Chunk>)
    requires HeadIsOut(w) && chunks != [] && !WriteSucceeds(w, chunks[0].data)
    ensures FlushedAt(w, chunks, 0)
  {
    BoundariesIncrease(|w.sent| + |chunks[0].data|, chunks[1..]);
  }

  lemma LastWriteIsFlushed(w: Writer, chunks: seq<Chunk>)
    requires HeadIsOut(w) && chunks != [] && WriteSucceeds(w, chunks[0].data) && chunks[0].last
    ensures FlushedAt(w, chunks, if chunks[0].data == "" then 0 else 1)
  {
  }

  lemma WriteIsFlushed(w: Writer, chunks: seq<Chunk>, k: nat)
    requires HeadIsOut(w) && chunks != [] && WriteSucceeds(w, chunks[0].data) && !chunks[0].last
    requires FlushedAt(Passed(w, chunks[0].data, true), chunks[1..], k)
    ensures FlushedAt(w, chunks, if chunks[0].data == "" then k else k + 1)
  {
  }

  /**
   A flushing relay flushes once after each non-empty read that the connection took, in order: the
   boundaries up to what was sent in the end, and none beyond it.
   */
  lemma {:induction false} RelayFlushesEachWrite(w: Writer, chunks: seq<Chunk>) returns (k: nat)
    requires HeadIsOut(w)
    ensures FlushedAt(w, chunks, k)
    decreases |chunks|
  {
    if chunks == [] {
      k := 0;
    } else if !WriteSucceeds(w, chunks[0].data) {
      k := 0;
      FailedWriteIsNotFlushed(w, chunks);
    } else if chunks[0].last {
      k := if chunks[0].data == "" then 0 else 1;
      LastWriteIsFlushed(w, chunks);
    } else {
      PassedSends(w, chunks[0].data, true);
      k := RelayFlushesEachWrite(Passed(w, chunks[0].data, true), chunks[1..]);
      WriteIsFlushed(w, chunks, k);
      k := if chunks[0].data == "" then k else k + 1;
    }
  }

  lemma {:induction false} BoundariesIncrease(from: nat, chunks: seq<Chunk>)
    ensures forall j | 0 <= j < |Boundaries(from, chunks)| :: Boundaries(from, chunks)[j] > from
    decreases |chunks|
  {
    if chunks != [] {
      BoundariesIncrease(from + |chunks[0].data|, chunks[1..]);
    }
  }
}
