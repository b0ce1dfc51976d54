/** The request and response objects that the handlers change in place. */
module HttpObjects {
  import opened Wrappers
  import opened Headers
  import opened Http
  import opened Chain

  /** A request as one layer sees it. Handing it on with a new context makes a new object. */
  class HttpRequest {
    const verb: string
    const path: string
    const header: Header
    const remoteAddr: string
    const requestID: string
    const info: Option<TokenInfo>
    var body: Body

    constructor (r: Request)
      ensures Value() == r
    {
      verb, path, header, remoteAddr := r.verb, r.path, r.header, r.remoteAddr;
      requestID, info, body := r.requestID, r.info, r.body;
    }

    function Value(): Request
      reads this
    {
      Request(verb, path, header, body, remoteAddr, requestID, info)
    }

    /** io.ReadAll uses the body up. */
    method ReadAll() returns (data: string, err: ReadError)
      modifies this`body
      ensures data == ReadData(old(body)) && err == ReadStatus(old(body))
      ensures body == Drained(old(body))
    {
      data, err := ReadData(body), ReadStatus(body);
      body := Drained(body);
    }
  }

  /** The response writer of net/http, with the audit recorder around it once the audit layer has put it there. */
  class ResponseWriter {
    const headers: HeaderMap
    var wire: Option<WireHead>
    var heads: nat
    var sent: string
    var flushes: seq<nat>
    var room: Option<nat>
    var recorder: Option<Recorder>

    constructor (room: Option<nat>)
      ensures fresh(headers)
      ensures Value() == Writer(map[], None, 0, "", [], room, None)
    {
      headers := new HeaderMap(map[]);
      wire, heads, sent, flushes, recorder := None, 0, "", [], None;
      this.room := room;
    }

    function Value(): Writer
      reads this, headers
    {
      Writer(headers.fields, wire, heads, sent, flushes, room, recorder)
    }

    method CommitHeader(status: int)
      modifies this`wire, this`heads
      ensures Value() == CommitHead(old(Value()), status)
    {
      heads := heads + 1;
      if wire.None? {
        wire := Some(WireHead(status, headers.fields));
      }
    }

    method WriteHeader(status: int)
      modifies this, headers
      ensures Value() == WriteHead(old(Value()), status)
    {
      if recorder.Some? {
        var clientID := recorder.value.clientID;
        var id := Get(headers.fields, AUDIT_CLIENT_ID);
        if id != "" {
          clientID := id;
        }
        recorder := Some(Recorder(clientID, status));
        headers.DelField(AUDIT_CLIENT_ID);
      }
      CommitHeader(status);
    }

    method WriteBytes(data: string) returns (ok: bool)
      modifies this, headers
      ensures Value() == Write(old(Value()), data)
      ensures ok == WriteSucceeds(old(Value()), data)
    {
      if recorder.Some? && recorder.value.status == 0 {
        WriteHeader(STATUS_OK);
      } else if wire.None? {
        CommitHeader(STATUS_OK);
      }
      var n := if room.Some? && room.value < |data| then room.value else |data|;
      sent := sent + data[..n];
      if room.Some? {
        room := Some(room.value - n);
      }
      ok := n == |data|;
    }

    method FlushBytes()
      modifies this`wire, this`heads, this`flushes
      ensures Value() == Flush(old(Value()))
    {
      if wire.None? {
        CommitHeader(STATUS_OK);
      }
      flushes := flushes + [|sent|];
    }

    /** io.Copy: write after read, until the stream ends or a write fails. */
    method CopyBody(chunks: seq<Chunk>)
      modifies this, headers
      ensures Value() == Relayed(old(Value()), chunks, false)
    {
      var i := 0;
      while i < |chunks|
        invariant 0 <= i <= |chunks|
        invariant Relayed(Value(), chunks[i..], false) == Relayed(old(Value()), chunks, false)
      {
        var c := chunks[i];
        assert chunks[i..][1..] == chunks[i + 1..];
        if c.data != "" {
          var ok := WriteBytes(c.data);
          if !ok {
            return;
          }
        }
        if c.last {
          return;
        }
        i := i + 1;
      }
    }

    /** The relay loop of `handleSSE`, which reads into one buffer again and again. */
    method RelayStream(body: UpstreamBody)
      requires forall c | c in body.chunks :: |c.data| <= STREAM_BUFFER_SIZE
      modifies this, headers, body
      ensures Value() == Relayed(old(Value()), old(body.chunks), true)
    {
      var buf := new char[STREAM_BUFFER_SIZE];
      while true
        invariant fresh(buf)
        invariant forall c | c in body.chunks :: |c.data| <= buf.Length
        invariant Relayed(Value(), body.chunks, true) == Relayed(old(Value()), old(body.chunks), true)
        decreases |body.chunks|
      {
        var n, ended := body.Read(buf);
        if n > 0 {
          var ok := WriteBytes(buf[..n]);
          if !ok {
            return;
          }
          FlushBytes();
        }
        if ended {
          return;
        }
      }
    }
  }

  const STREAM_BUFFER_SIZE: nat := 4096

  /** The body of an upstream response: each read returns the next chunk, and EOF once there is none. */
  class UpstreamBody {
    var chunks: seq<Chunk>

    constructor (chunks: seq<Chunk>)
      ensures this.chunks == chunks
    {
      this.chunks := chunks;
    }

    /** Only `buf[..n]` means anything afterwards; the rest of the buffer may hold bytes of earlier reads. */
    method Read(buf: array<char>) returns (n: nat, ended: bool)
      requires chunks != [] ==> |chunks[0].data| <= buf.Length
      modifies this, buf
      ensures old(chunks) == [] ==> n == 0 && ended && chunks == []
      ensures old(chunks) != [] ==>
                && n <= buf.Length && buf[..n] == old(chunks)[0].data
                && ended == old(chunks)[0].last && chunks == old(chunks)[1..]
    {
      if chunks == [] {
        return 0, true;
      }
      var c := chunks[0];
      chunks := chunks[1..];
      forall i | 0 <= i < |c.data| {
        buf[i] := c.data[i];
      }
      assert buf[..|c.data|] == c.data;
      return |c.data|, c.last;
    }
  }
}
