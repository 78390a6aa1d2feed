/** The response writer that watches an SSE stream go by (internal/proxy/stream.go).

    The class is proved against closed forms over the whole byte stream written so far, so
    nothing it reports can depend on how the stream was cut into writes. */
module Interceptor {
  import opened Options
  import opened SseText

  /** `json.Unmarshal` into a chunk: the delta contents of its choices, or None if malformed. */
  type Decoder = string -> Option<seq<string>>

  datatype Parsed = Ignored | DoneSignal | Content(text: string)

  /** What one event means to the interceptor: only its first choice counts. */
  function Interpret(decode: Decoder, event: string): Parsed {
    var line := TrimSpace(event);
    if !(DATA <= line) then Ignored
    else
      var payload := line[|DATA|..];
      if payload == DONE then DoneSignal
      else
        match decode(payload)
        case None => Ignored
        case Some(contents) => if |contents| == 0 || contents[0] == "" then Ignored else Content(contents[0])
  }

  /** The content pieces of a list of events, in order. */
  function Contents(decode: Decoder, events: seq<string>): seq<string> {
    if events == [] then []
    else
      var p := Interpret(decode, events[0]);
      (if p.Content? then [p.text] else []) + Contents(decode, events[1..])
  }

  ghost predicate HasDone(decode: Decoder, events: seq<string>) {
    exists e :: e in events && Interpret(decode, e) == DoneSignal
  }

  function Max(a: int, b: int): int {
    if a < b then b else a
  }

  /** One token per four bytes, at least one. */
  function Tokens(contents: seq<string>): nat {
    if contents == [] then 0 else Max(1, |contents[0]| / 4) + Tokens(contents[1..])
  }

  function Length(contents: seq<string>): nat {
    if contents == [] then 0 else |contents[0]| + Length(contents[1..])
  }

  lemma {:induction false} ContentsAppend(decode: Decoder, a: seq<string>, b: seq<string>)
    ensures Contents(decode, a + b) == Contents(decode, a) + Contents(decode, b)
  {
    hide Interpret;
    if a == [] {
      assert a + b == b;
    } else {
      assert (a + b)[1..] == a[1..] + b;
      ContentsAppend(decode, a[1..], b);
      var p := Interpret(decode, a[0]);
      Associative(if p.Content? then [p.text] else [], Contents(decode, a[1..]), Contents(decode, b));
    }
  }

  lemma HasDoneAppend(decode: Decoder, a: seq<string>, b: seq<string>)
    ensures HasDone(decode, a + b) <==> HasDone(decode, a) || HasDone(decode, b)
  {
    hide Interpret;
    assert forall e | e in a || e in b :: e in a + b;
  }

  lemma {:induction false} TokensAppend(a: seq<string>, b: seq<string>)
    ensures Tokens(a + b) == Tokens(a) + Tokens(b)
  {
    if a == [] {
      assert a + b == b;
    } else {
      assert (a + b)[1..] == a[1..] + b;
      TokensAppend(a[1..], b);
    }
  }

  // ----- The statistics, as functions of the writes -----

  datatype Chunk = Chunk(bytes: string, time: int)

  function Bytes(writes: seq<Chunk>): string {
    if |writes| == 0 then "" else Bytes(writes[..|writes| - 1]) + writes[|writes| - 1].bytes
  }

  /** All content pieces of the stream so far. */
  function Seen(decode: Decoder, writes: seq<Chunk>): seq<string> {
    Contents(decode, Events(Bytes(writes)))
  }

  function Repeat(time: int, n: nat): seq<int> {
    seq(n, _ => time)
  }

  /** When each content piece was completed: the time of the write that brought its last byte. */
  function Arrivals(decode: Decoder, writes: seq<Chunk>): (times: seq<int>)
    ensures |times| == |Seen(decode, writes)|
  {
    if |writes| == 0 then assert Index("") < 0; []
    else
      var init := writes[..|writes| - 1];
      var last := writes[|writes| - 1];
      assert writes == init + [last];
      SeenGrows(decode, init, last);
      Arrivals(decode, init) + Repeat(last.time, |Seen(decode, writes)| - |Seen(decode, init)|)
  }

  lemma SeenGrows(decode: Decoder, init: seq<Chunk>, last: Chunk)
    ensures Seen(decode, init + [last])
            == Seen(decode, init) + Contents(decode, Events(Rest(Bytes(init)) + last.bytes))
  {
    hide Contents, Events, Rest;
    assert (init + [last])[..|init|] == init;
    SplitAppend(Bytes(init), last.bytes);
    ContentsAppend(decode, Events(Bytes(init)), Events(Rest(Bytes(init)) + last.bytes));
  }

  datatype Stats = Stats(firstByteAt: int, lastTokenAt: int, outputTokens: nat, chunkCount: nat,
                         interTokenSum: int, wrote: bool, doneSeen: bool)

  const ZERO_TIME := 0

  function Last(times: seq<int>): int {
    if times == [] then ZERO_TIME else times[|times| - 1]
  }

  /** The statistics in closed form: the gaps between tokens telescope. */
  function Summary(first: int, wrote: bool, contents: seq<string>, arrivals: seq<int>, done: bool): Stats {
    Stats(first, Last(arrivals), Tokens(contents), |contents|,
          if arrivals == [] then 0 else Last(arrivals) - arrivals[0], wrote, done)
  }

  ghost function StatsOf(decode: Decoder, writes: seq<Chunk>): Stats {
    Summary(if writes == [] then ZERO_TIME else writes[0].time, writes != [], Seen(decode, writes),
            Arrivals(decode, writes), HasDone(decode, Events(Bytes(writes))))
  }

  class StreamInterceptor {
    const decode: Decoder
    var stats: Stats
    var buf: string
    var lastActivity: int
    /** What the client connection accepted. */
    var sent: string
    ghost var writes: seq<Chunk>

    ghost predicate Valid()
      reads this
    {
      && stats == StatsOf(decode, writes)
      && buf == Rest(Bytes(writes))
      && (writes != [] ==> lastActivity == writes[|writes| - 1].time)
    }

    constructor (decode: Decoder)
      ensures Valid() && writes == [] && sent == "" && this.decode == decode
    {
      this.decode := decode;
      stats := Stats(ZERO_TIME, ZERO_TIME, 0, 0, 0, false, false);
      buf, lastActivity, sent, writes := "", ZERO_TIME, "", [];
      assert Index("") < 0;
    }

    /** `accepted` is how many bytes the client connection takes; fewer than all is an error, but
        the bytes are parsed all the same. */
    method Write(b: string, now: int, accepted: nat) returns (n: nat, ok: bool)
      requires Valid() && accepted <= |b|
      modifies this
      ensures Valid() && writes == old(writes) + [Chunk(b, now)]
      ensures n == accepted && (ok <==> accepted == |b|) && sent == old(sent) + b[..n]
    {
      hide Index, Events, Rest, Contents, HasDone, Tokens, Arrivals;
      if !stats.wrote {
        stats := stats.(firstByteAt := now, wrote := true);
      }
      lastActivity := now;
      sent := sent + b[..accepted];
      n, ok := accepted, accepted == |b|;
      ghost var before := writes;
      ghost var last := Chunk(b, now);
      ghost var first := stats.firstByteAt;
      ghost var contents, arrivals := Seen(decode, before), Arrivals(decode, before);
      ghost var done := HasDone(decode, Events(Bytes(before)));
      buf := buf + b;
      writes := writes + [last];
      ParseSse(now, first, contents, arrivals, done);
      WriteExtends(decode, before, last);
    }

    method ParseSse(now: int, ghost first: int, ghost contents: seq<string>, ghost arrivals: seq<int>, ghost done: bool)
      requires |arrivals| == |contents|
      requires stats == Summary(first, true, contents, arrivals, done)
      modifies this`stats, this`buf
      ensures buf == Rest(old(buf))
      ensures var found := Contents(decode, Events(old(buf)));
              stats == Summary(first, true, contents + found, arrivals + Repeat(now, |found|),
                               done || HasDone(decode, Events(old(buf))))
    {
      hide Index, Contents, HasDone, Tokens, Interpret;
      ghost var processed: seq<string> := [];
      ghost var found: seq<string> := [];
      NothingProcessed(decode, contents, arrivals);
      while true
        invariant processed + Events(buf) == Events(old(buf)) && Rest(buf) == Rest(old(buf))
        invariant found == Contents(decode, processed)
        invariant stats == Summary(first, true, contents + found, arrivals + Repeat(now, |found|),
                                   done || HasDone(decode, processed))
        decreases |buf|
      {
        var idx := Index(buf);
        if idx == -1 {
          assert processed + [] == processed;
          break;
        }
        var event := buf[..idx];
        assert processed + Events(buf) == (processed + [event]) + Events(buf[idx + 2..]);
        buf := buf[idx + 2..];
        ProcessEvent(event, now, first, contents + found, arrivals + Repeat(now, |found|), done || HasDone(decode, processed));
        ContentsAppend(decode, processed, [event]);
        HasDoneAppend(decode, processed, [event]);
        ghost var more := Contents(decode, [event]);
        assert contents + (found + more) == (contents + found) + more;
        assert arrivals + Repeat(now, |found + more|) == (arrivals + Repeat(now, |found|)) + Repeat(now, |more|);
        processed, found := processed + [event], found + more;
      }
    }

    method ProcessEvent(event: string, now: int, ghost first: int, ghost contents: seq<string>, ghost arrivals: seq<int>, ghost done: bool)
      requires |arrivals| == |contents|
      requires stats == Summary(first, true, contents, arrivals, done)
      modifies this`stats
      ensures var more := Contents(decode, [event]);
              stats == Summary(first, true, contents + more, arrivals + Repeat(now, |more|), done || HasDone(decode, [event]))
    {
      OneEvent(decode, event);
      assert contents + [] == contents && arrivals + [] == arrivals;
      var line := TrimSpace(event);
      if !(DATA <= line) {
        return;
      }
      var payload := line[|DATA|..];
      if payload == DONE {
        stats := stats.(doneSeen := true);
        return;
      }
      var chunk := decode(payload);
      if chunk.None? || |chunk.value| == 0 {
        return;
      }
      var content := chunk.value[0];
      if content == "" {
        return;
      }
      var tokens := |content| / 4;
      if tokens < 1 {
        tokens := 1;
      }
      TokensAppend(contents, [content]);
      assert Repeat(now, 1) == [now];
      var count := stats.chunkCount + 1;
      var gap := if count > 1 then now - stats.lastTokenAt else 0;
      stats := stats.(outputTokens := stats.outputTokens + tokens, chunkCount := count,
                      interTokenSum := stats.interTokenSum + gap, lastTokenAt := now);
    }
  }

  lemma OneEvent(decode: Decoder, event: string)
    ensures var p := Interpret(decode, event);
            && Contents(decode, [event]) == (if p.Content? then [p.text] else [])
            && (HasDone(decode, [event]) <==> p == DoneSignal)
  {
    assert event in [event];
  }

  lemma NothingProcessed(decode: Decoder, contents: seq<string>, arrivals: seq<int>)
    ensures Contents(decode, []) == [] && !HasDone(decode, [])
    ensures contents + [] == contents && arrivals + Repeat(0, 0) == arrivals
    ensures forall now :: arrivals + Repeat(now, 0) == arrivals
  {
  }

  lemma WriteExtends(decode: Decoder, before: seq<Chunk>, last: Chunk)
    ensures var all := before + [last];
            var found := Contents(decode, Events(Rest(Bytes(before)) + last.bytes));
            && Seen(decode, all) == Seen(decode, before) + found
            && Arrivals(decode, all) == Arrivals(decode, before) + Repeat(last.time, |found|)
            && (HasDone(decode, Events(Bytes(all)))
                <==> HasDone(decode, Events(Bytes(before))) || HasDone(decode, Events(Rest(Bytes(before)) + last.bytes)))
            && Rest(Bytes(all)) == Rest(Rest(Bytes(before)) + last.bytes)
  {
    assert (before + [last])[..|before|] == before;
    SeenGrows(decode, before, last);
    SplitAppend(Bytes(before), last.bytes);
    HasDoneAppend(decode, Events(Bytes(before)), Events(Rest(Bytes(before)) + last.bytes));
  }

  // ----- Theorems about any sequence of writes -----

  /** Whatever way a stream is cut into writes, the interceptor counts the same and keeps the
      same left-over, which never holds a complete event. */
  lemma FragmentationIndependent(decode: Decoder, a: seq<Chunk>, b: seq<Chunk>)
    requires Bytes(a) == Bytes(b)
    ensures var s, t := StatsOf(decode, a), StatsOf(decode, b);
            s.outputTokens == t.outputTokens && s.chunkCount == t.chunkCount && s.doneSeen == t.doneSeen
    ensures Rest(Bytes(a)) == Rest(Bytes(b)) && Index(Rest(Bytes(a))) < 0
  {
    SplitThenJoin(Bytes(a));
  }

  ghost predicate Ordered(writes: seq<Chunk>) {
    forall i, j | 0 <= i <= j < |writes| :: writes[i].time <= writes[j].time
  }

  /** A content piece arrives with the first write that completes it. */
  lemma {:induction false} ArrivalIsFirst(decode: Decoder, writes: seq<Chunk>, i: nat) returns (k: nat)
    requires i < |Seen(decode, writes)|
    ensures k < |writes| && Arrivals(decode, writes)[i] == writes[k].time
    ensures |Seen(decode, writes[..k])| <= i < |Seen(decode, writes[..k + 1])|
  {
    hide Seen;
    if |writes| == 0 {
      NothingSeen(decode);
    } else {
      var init, last := writes[..|writes| - 1], writes[|writes| - 1];
      if i < |Seen(decode, init)| {
        k := ArrivalIsFirst(decode, init, i);
        assert init[..k] == writes[..k] && init[..k + 1] == writes[..k + 1];
      } else {
        k := |init|;
        assert writes[..k + 1] == writes;
      }
    }
  }

  lemma NothingSeen(decode: Decoder)
    ensures Seen(decode, []) == []
  {
    assert Index("") < 0;
  }

  ghost predicate Rising(times: seq<int>, lo: int, hi: int) {
    && (forall i, j | 0 <= i <= j < |times| :: times[i] <= times[j])
    && (forall i | 0 <= i < |times| :: lo <= times[i] <= hi)
  }

  lemma {:induction false} ArrivalsOrdered(decode: Decoder, writes: seq<Chunk>)
    requires Ordered(writes) && |writes| > 0
    ensures Rising(Arrivals(decode, writes), writes[0].time, writes[|writes| - 1].time)
  {
    hide Seen;
    var init, last := writes[..|writes| - 1], writes[|writes| - 1];
    if |init| == 0 {
      assert Arrivals(decode, init) == [];
    } else {
      ArrivalsOrdered(decode, init);
      assert init[0] == writes[0];
    }
  }

  lemma {:induction false} TokensBetween(contents: seq<string>)
    requires forall c | c in contents :: c != ""
    ensures |contents| <= Tokens(contents) <= Length(contents)
    ensures Length(contents) - 3 * |contents| <= 4 * Tokens(contents) <= Length(contents) + 3 * |contents|
  {
    if contents != [] {
      assert contents[0] in contents;
      assert forall c | c in contents[1..] :: c in contents;
      TokensBetween(contents[1..]);
    }
  }

  lemma {:induction false} ContentsNonEmpty(decode: Decoder, events: seq<string>)
    ensures forall c | c in Contents(decode, events) :: c != ""
  {
    if events != [] {
      ContentsNonEmpty(decode, events[1..]);
      var p := Interpret(decode, events[0]);
      assert p.Content? ==> p.text != "";
      hide Interpret;
    }
  }

  /** What an event means, whatever white space surrounds it: the terminator, the content of the first
      choice of a well-formed chunk, or nothing. */
  lemma EventMeaning(decode: Decoder, before: string, payload: string, after: string)
    requires (forall c | c in before + after :: c in " \t\n\r\U{0B}\U{0C}") && Tight(payload)
    ensures var p := Interpret(decode, before + (DATA + payload) + after);
            && (p == DoneSignal <==> payload == DONE)
            && forall text :: p == Content(text) <==>
                 payload != DONE && text != "" && exists others :: decode(payload) == Some([text] + others)
  {
    var line := DATA + payload;
    assert line[|line| - 1] == payload[|payload| - 1];
    assert forall c | c in before || c in after :: c in before + after;
    TrimExactly(before, line, after);
    hide TrimSpace;
    assert line[|DATA|..] == payload;
    var d := decode(payload);
    assert d.Some? && |d.value| > 0 ==> d.value == [d.value[0]] + d.value[1..];
  }

  /** The estimate goes piece by piece: a piece of n bytes is worth n / 4 tokens, rounded down, and at
      least one. */
  lemma TokensExactly(contents: seq<string>, piece: string)
    ensures var t := Tokens(contents + [piece]) - Tokens(contents);
            && t >= 1
            && (|piece| < 4 ==> t == 1)
            && (|piece| >= 4 ==> 4 * t <= |piece| < 4 * (t + 1))
  {
    TokensAppend(contents, [piece]);
    assert [piece][1..] == [];
  }

  /** On a clock that never goes back: the gap sum is the time from the first to the last content
      piece, tokens come after the first byte, and the token estimate is bounded both ways: it is at
      least one a piece, and four times it is within three a piece of the content's length. */
  lemma StatsAreConsistent(decode: Decoder, writes: seq<Chunk>)
    requires Ordered(writes)
    ensures var s := StatsOf(decode, writes);
            var contents := Seen(decode, writes);
            && s.chunkCount <= s.outputTokens <= Length(contents)
            && Length(contents) - 3 * s.chunkCount <= 4 * s.outputTokens <= Length(contents) + 3 * s.chunkCount
            && s.interTokenSum >= 0
            && (s.wrote <==> writes != []) && (writes != [] ==> s.firstByteAt == writes[0].time)
            && (s.chunkCount > 0 ==>
                  && s.firstByteAt <= s.lastTokenAt - s.interTokenSum
                  && s.lastTokenAt - s.interTokenSum == Arrivals(decode, writes)[0]
                  && s.lastTokenAt == Arrivals(decode, writes)[s.chunkCount - 1])
  {
    hide Contents, Events, Tokens, Index, Arrivals;
    if writes == [] {
      NothingSeen(decode);
    } else {
      ArrivalsOrdered(decode, writes);
    }
    ContentsNonEmpty(decode, Events(Bytes(writes)));
    TokensBetween(Seen(decode, writes));
  }
}
