/** How an upstream body reaches the client: the peeked first byte and its replay
    (internal/proxy/deadreplica.go) and the copy loop (internal/proxy/handler.go). Bytes are
    modelled as chars. */
module Relay {
  import opened Options
  import opened SseText
  import opened Interceptor

  /** What a connection delivers at one moment; the stream may end, well or badly, along with the
      bytes. After the last piece it ends. */
  datatype Piece = Piece(bytes: string, ends: bool, at: int)

  /** Everything a connection delivers. */
  function Payload(script: seq<Piece>): string {
    if script == [] then "" else script[0].bytes + if script[0].ends then "" else Payload(script[1..])
  }

  /** When its first byte arrives. */
  function FirstByte(script: seq<Piece>): Option<int> {
    if script == [] then None
    else if script[0].bytes != "" then Some(script[0].at)
    else if script[0].ends then None
    else FirstByte(script[1..])
  }

  /** A connection delivers something exactly if a first byte arrives. */
  lemma {:induction false} FirstByteOfPayload(script: seq<Piece>)
    ensures FirstByte(script).Some? <==> Payload(script) != ""
  {
    if script != [] && script[0].bytes == "" && !script[0].ends {
      FirstByteOfPayload(script[1..]);
    }
  }

  function Work(script: seq<Piece>): nat {
    if script == [] then 0 else 1 + |script[0].bytes| + Work(script[1..])
  }

  /** An upstream response body: what will arrive, and what of it has not been read. */
  class Body {
    const arrivals: seq<Piece>
    var script: seq<Piece>
    var closed: bool

    predicate Untouched()
      reads this
    {
      script == arrivals && !closed
    }

    constructor (arrivals: seq<Piece>)
      ensures this.arrivals == arrivals && Untouched()
    {
      this.arrivals, script, closed := arrivals, arrivals, false;
    }

    method Read(size: nat) returns (data: string, ended: bool, at: int)
      requires size > 0
      modifies this`script
      ensures |data| <= size && Payload(old(script)) == data + Payload(script)
      ensures if ended then Payload(script) == "" else Work(script) < Work(old(script))
      ensures FirstByte(old(script)) == if data != "" then Some(at) else if ended then None else FirstByte(script)
    {
      if script == [] {
        return "", true, 0;
      }
      var piece := script[0];
      at := piece.at;
      if |piece.bytes| <= size {
        script := if piece.ends then [] else script[1..];
        assert piece.bytes + "" == piece.bytes;
        data, ended := piece.bytes, piece.ends;
      } else {
        assert piece.bytes == piece.bytes[..size] + piece.bytes[size..];
        script := [piece.(bytes := piece.bytes[size..])] + script[1..];
        data, ended := piece.bytes[..size], false;
      }
    }

    method Close()
      modifies this`closed
      ensures closed
    {
      closed := true;
    }
  }

  /** A reader that replays what was peeked before it goes on with the body. */
  class Replay {
    const body: Body
    var peeked: string

    constructor (peeked: string, body: Body)
      ensures this.peeked == peeked && this.body == body
    {
      this.peeked, this.body := peeked, body;
    }

    function Remaining(): string
      reads this, body
    {
      peeked + Payload(body.script)
    }

    function Effort(): nat
      reads this, body
    {
      |peeked| + Work(body.script)
    }

    method Read(size: nat) returns (data: string, ended: bool)
      requires size > 0
      modifies this, body`script
      ensures |data| <= size && old(Remaining()) == data + Remaining()
      ensures if ended then Remaining() == "" else Effort() < old(Effort())
    {
      if peeked != "" {
        var n := if |peeked| < size then |peeked| else size;
        data, ended := peeked[..n], false;
        assert peeked == peeked[..n] + peeked[n..];
        peeked := peeked[n..];
        assert old(Remaining()) == data + Remaining();
      } else {
        var at;
        data, ended, at := body.Read(size);
      }
    }
  }

  /** The stall timer: set at `start` for `timeout`; a byte that arrives with it may win or lose. */
  datatype Timer = Timer(start: int, timeout: int, byteFirst: bool) {
    predicate Beats(at: int) {
      at < start + timeout || (at == start + timeout && byteFirst)
    }
  }

  /** The body shows a sign of life before the timer expires. */
  predicate Alive(arrivals: seq<Piece>, timer: Timer) {
    FirstByte(arrivals).Some? && timer.Beats(FirstByte(arrivals).value)
  }

  /** Waits for one byte; nothing comes back if the body ends or the timer expires before it. */
  method PeekFirstByte(body: Body, timer: Timer) returns (reader: Replay?)
    requires body.Untouched()
    modifies body`script
    ensures reader != null <==> Alive(body.arrivals, timer)
    ensures reader != null ==> fresh(reader) && reader.body == body && reader.Remaining() == Payload(body.arrivals)
  {
    var first, ended, at := "", false, 0;
    while first == "" && !ended
      invariant |first| <= 1 && Payload(body.arrivals) == first + Payload(body.script)
      invariant FirstByte(body.arrivals) == if first != "" then Some(at) else if ended then None else FirstByte(body.script)
      decreases !ended, Work(body.script)
    {
      first, ended, at := body.Read(1);
    }
    if first == "" || !timer.Beats(at) {
      return null;
    }
    reader := new Replay(first, body);
  }

  const BUFFER: nat := 32 * 1024

  /** How much of its k-th write the client connection takes. */
  type Client = nat -> nat

  function Taken(client: Client, k: nat, length: nat): nat {
    if client(k) < length then client(k) else length
  }

  /** No write after the first m was cut short. */
  ghost predicate AllTaken(client: Client, writes: seq<Chunk>, m: nat) {
    forall k: nat | m <= k < |writes| :: client(k - m) >= |writes[k].bytes|
  }

  /** What a relay owes: the client has all of the payload, or, if it cut a write short, a proper
      prefix of it; the interceptor saw what the client was offered. */
  ghost predicate Relayed(client: Client, payload: string, before: seq<Chunk>, after: seq<Chunk>, sent: string, sentAfter: string) {
    && before <= after
    && (AllTaken(client, after, |before|) ==> sentAfter == sent + payload && Bytes(after) == Bytes(before) + payload)
    && (!AllTaken(client, after, |before|) ==> IsProperPrefix(sentAfter, sent + payload) && sent <= sentAfter)
  }

  predicate IsProperPrefix(s: string, t: string) {
    s <= t && |s| < |t|
  }

  method StreamBody(sw: StreamInterceptor, body: Replay, client: Client, clock: nat -> int)
    requires sw.Valid()
    modifies sw, body, body.body`script
    ensures sw.Valid()
    ensures Relayed(client, old(body.Remaining()), old(sw.writes), sw.writes, old(sw.sent), sw.sent)
  {
    hide Copied, Relayed, StatsOf, Rest, Payload, Work, StreamInterceptor.Valid;
    ghost var payload, sent, before := body.Remaining(), sw.sent, sw.writes;
    ghost var copied := "";
    NothingCopied(client, payload, before, sent);
    var k: nat := 0;
    while true
      invariant sw.Valid() && |sw.writes| == |before| + k
      invariant payload == copied + body.Remaining()
      invariant Copied(client, payload, before, sw.writes, sent, sw.sent, copied)
      decreases body.Effort()
    {
      var data, ended := body.Read(BUFFER);
      assert payload == (copied + data) + body.Remaining();
      if |data| > 0 {
        CopyMore(client, payload, before, sw.writes, sent, sw.sent, copied, Chunk(data, clock(k)));
        var n, ok := sw.Write(data, clock(k), Taken(client, k, |data|));
        k := k + 1;
        copied := copied + data;
        if !ok {
          break;
        }
      } else {
        assert copied + data == copied;
      }
      if ended {
        CopiedAll(client, payload, before, sw.writes, sent, sw.sent, copied);
        break;
      }
    }
  }

  /** Part of the payload has been copied and taken. */
  ghost predicate Copied(client: Client, payload: string, before: seq<Chunk>, after: seq<Chunk>, sent: string, sentAfter: string, copied: string) {
    && before <= after && AllTaken(client, after, |before|)
    && copied <= payload && sentAfter == sent + copied && Bytes(after) == Bytes(before) + copied
  }

  lemma NothingCopied(client: Client, payload: string, before: seq<Chunk>, sent: string)
    ensures Copied(client, payload, before, before, sent, sent, "")
  {
    assert sent + "" == sent && Bytes(before) + "" == Bytes(before);
  }

  lemma CopiedAll(client: Client, payload: string, before: seq<Chunk>, after: seq<Chunk>, sent: string, sentAfter: string, copied: string)
    requires Copied(client, payload, before, after, sent, sentAfter, copied) && payload == copied + ""
    ensures Relayed(client, payload, before, after, sent, sentAfter)
  {
    assert payload == copied;
  }

  lemma CopyMore(client: Client, payload: string, before: seq<Chunk>, after: seq<Chunk>, sent: string, sentAfter: string, copied: string, last: Chunk)
    requires Copied(client, payload, before, after, sent, sentAfter, copied)
    requires last.bytes != "" && |before| <= |after| && copied + last.bytes <= payload
    ensures var n, all := Taken(client, |after| - |before|, |last.bytes|), after + [last];
            if n == |last.bytes| then Copied(client, payload, before, all, sent, sentAfter + last.bytes[..n], copied + last.bytes)
            else Relayed(client, payload, before, all, sent, sentAfter + last.bytes[..n])
  {
    var m, n, all := |before|, Taken(client, |after| - |before|, |last.bytes|), after + [last];
    assert all[..|after|] == after && all[|after|] == last;
    assert forall k | m <= k < |after| :: all[k] == after[k];
    BytesGrow(before, after, last, copied);
    if n == |last.bytes| {
      assert last.bytes[..n] == last.bytes;
      assert (sent + copied) + last.bytes == sent + (copied + last.bytes);
    } else {
      assert !(client(|after| - m) >= |all[|after|].bytes|);
      CutShort(sent, copied, last.bytes, n, payload);
    }
  }

  lemma BytesGrow(before: seq<Chunk>, after: seq<Chunk>, last: Chunk, copied: string)
    requires Bytes(after) == Bytes(before) + copied
    ensures Bytes(after + [last]) == Bytes(before) + (copied + last.bytes)
  {
    assert (after + [last])[..|after|] == after;
  }

  lemma CutShort(sent: string, copied: string, data: string, n: nat, payload: string)
    requires n < |data| && copied + data <= payload
    ensures IsProperPrefix((sent + copied) + data[..n], sent + payload) && sent <= (sent + copied) + data[..n]
  {
    assert (copied + data)[..|copied| + n] == copied + data[..n];
    assert payload[..|copied| + n] == (copied + data)[..|copied| + n];
    assert (sent + copied) + data[..n] == sent + payload[..|copied| + n];
  }
}
