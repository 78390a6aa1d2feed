/** Printing and parsing undo each other: what the mock server streams (cmd/mock/main.go) is
    read back, piece by piece, by the router's interceptor (internal/proxy/stream.go), the chat
    hook (my-llm-ui/src/useChat.ts) and the CLI (cmd/cli/client.go), however it is cut. */
module SseRoundTrip {
  import opened Options
  import opened SseText
  import opened Interceptor
  import opened MockServer
  import opened SseClients

  /** What is assumed of JSON for these pieces: encoded text is one tight line, is not the
      terminator, and both decoders give the piece back. */
  ghost predicate Faithful(encode: Encoder, decode: Decoder, parse: ChunkParser, pieces: seq<string>) {
    forall i | 0 <= i < |pieces| ::
      var p := encode(pieces[i], i == 0);
      && pieces[i] != ""
      && NoNewline(p) && Tight(p) && p != DONE
      && decode(p) == Some([pieces[i]])
      && parse(p).Some? && parse(p).value.0 == pieces[i]
  }

  lemma TrimTight(s: string)
    requires Tight(s)
    ensures TrimSpace(s) == s
  {
  }

  /** One framed payload, as every parser sees it. */
  lemma FramedLine(payload: string)
    requires NoNewline(payload) && Tight(payload)
    ensures var line := DATA + payload;
            && Frameable(line) && NoNewline(line) && Tight(line)
            && TrimSpace(line) == line && DATA <= line && line[|DATA|..] == payload
            && SplitLines(line) == [line] && DropCr(line) == line
  {
    var line := DATA + payload;
    assert line[|line| - 1] == payload[|payload| - 1];
    assert forall i | 0 <= i < |line| :: line[i] != '\n';
    TrimTight(line);
    FrameNoNewline(line);
    SplitLinesFirst(line, "");
  }

  lemma FrameNoNewline(line: string)
    requires NoNewline(line)
    ensures Frameable(line)
  {
    assert forall j | 0 <= j < |line| :: (line + BLANK)[j] == line[j];
    IndexUnique(line + BLANK, |line|);
  }

  lemma DoneLine()
    ensures NoNewline(DONE) && Tight(DONE)
  {
  }

  /** Every event of the stream is `DATA` followed by a payload that is one tight line. */
  ghost predicate Framed(event: string) {
    exists payload :: NoNewline(payload) && Tight(payload) && event == DATA + payload
  }

  lemma StreamIsFramed(encode: Encoder, decode: Decoder, parse: ChunkParser, pieces: seq<string>, patience: nat)
    requires Faithful(encode, decode, parse, pieces)
    ensures forall e | e in StreamEvents(encode, pieces, patience) :: Framed(e) && Frameable(e)
  {
    DoneLine();
    forall e | e in StreamEvents(encode, pieces, patience)
      ensures Framed(e) && Frameable(e)
    {
      if e == DATA + DONE {
        FramedLine(DONE);
      } else {
        var i :| 0 <= i < |Sent(pieces, patience)| && e == DATA + encode(Sent(pieces, patience)[i], i == 0);
        assert Sent(pieces, patience)[i] == pieces[i];
        FramedLine(encode(pieces[i], i == 0));
      }
    }
  }

  lemma EmptyHasNoEvent()
    ensures Index("") < 0
  {
  }

  // ----- The router -----

  lemma {:induction false} ContentsOfPieces(encode: Encoder, decode: Decoder, parse: ChunkParser, pieces: seq<string>, n: nat)
    requires Faithful(encode, decode, parse, pieces) && n <= |pieces|
    ensures Contents(decode, PieceEvents(encode, pieces)[..n]) == pieces[..n]
    ensures !HasDone(decode, PieceEvents(encode, pieces)[..n])
  {
    hide Faithful, Interpret, Contents, HasDone;
    var all := PieceEvents(encode, pieces);
    if n == 0 {
      NoEvents(decode, parse);
    } else {
      ContentsOfPieces(encode, decode, parse, pieces, n - 1);
      ContentOfFrame(encode, decode, parse, pieces, n - 1);
      assert all[..n] == all[..n - 1] + [all[n - 1]];
      assert pieces[..n] == pieces[..n - 1] + [pieces[n - 1]];
      ContentsAppend(decode, all[..n - 1], [all[n - 1]]);
      HasDoneAppend(decode, all[..n - 1], [all[n - 1]]);
    }
  }

  lemma NoEvents(decode: Decoder, parse: ChunkParser)
    ensures Contents(decode, []) == [] && !HasDone(decode, [])
    ensures TokenText(EventsActions(parse, [])) == "" && Concat([]) == ""
  {
  }

  lemma ContentOfFrame(encode: Encoder, decode: Decoder, parse: ChunkParser, pieces: seq<string>, i: nat)
    requires Faithful(encode, decode, parse, pieces) && i < |pieces|
    ensures var e := DATA + encode(pieces[i], i == 0);
            Contents(decode, [e]) == [pieces[i]] && !HasDone(decode, [e])
  {
    hide Contents, HasDone, TrimSpace;
    var p := encode(pieces[i], i == 0);
    FramedLine(p);
    OneEvent(decode, DATA + p);
  }

  lemma SentEvents(encode: Encoder, pieces: seq<string>, patience: nat)
    ensures PieceEvents(encode, Sent(pieces, patience)) == PieceEvents(encode, pieces)[..|Sent(pieces, patience)|]
    ensures Sent(pieces, patience) == pieces[..|Sent(pieces, patience)|]
  {
  }

  lemma ContentsOfStream(encode: Encoder, decode: Decoder, parse: ChunkParser, pieces: seq<string>, patience: nat)
    requires Faithful(encode, decode, parse, pieces)
    ensures var events := StreamEvents(encode, pieces, patience);
            && Contents(decode, events) == Sent(pieces, patience)
            && (HasDone(decode, events) <==> Completes(pieces, patience))
  {
    hide Contents, HasDone;
    var sent := PieceEvents(encode, Sent(pieces, patience));
    SentEvents(encode, pieces, patience);
    ContentsOfPieces(encode, decode, parse, pieces, |Sent(pieces, patience)|);
    DoneLine();
    FramedLine(DONE);
    OneEvent(decode, DATA + DONE);
    ContentsAppend(decode, sent, [DATA + DONE]);
    HasDoneAppend(decode, sent, [DATA + DONE]);
    assert Contents(decode, sent) + [] == Contents(decode, sent) && sent + [] == sent;
  }

  /** However the mock server's stream is cut into writes, the interceptor sees exactly the pieces
      sent, knows whether the stream was finished, and keeps nothing back. */
  lemma RouterReadsStream(encode: Encoder, decode: Decoder, parse: ChunkParser, pieces: seq<string>, patience: nat, writes: seq<Chunk>)
    requires Faithful(encode, decode, parse, pieces)
    requires Bytes(writes) == Join(StreamEvents(encode, pieces, patience))
    ensures Seen(decode, writes) == Sent(pieces, patience)
    ensures StatsOf(decode, writes).doneSeen <==> Completes(pieces, patience)
    ensures Rest(Bytes(writes)) == ""
  {
    hide Contents, HasDone, Index, Join, StreamEvents, Arrivals;
    var events := StreamEvents(encode, pieces, patience);
    StreamIsFramed(encode, decode, parse, pieces, patience);
    EmptyHasNoEvent();
    JoinThenSplit(events, "");
    assert Join(events) + "" == Join(events);
    ContentsOfStream(encode, decode, parse, pieces, patience);
  }

  // ----- The chat hook -----

  lemma {:induction false} ActionsOfPieces(encode: Encoder, decode: Decoder, parse: ChunkParser, pieces: seq<string>, n: nat)
    requires Faithful(encode, decode, parse, pieces) && n <= |pieces|
    ensures TokenText(EventsActions(parse, PieceEvents(encode, pieces)[..n])) == Concat(pieces[..n])
  {
    hide Faithful, EventsActions, TokenText, Concat;
    var all := PieceEvents(encode, pieces);
    if n == 0 {
      NoEvents(decode, parse);
    } else {
      ActionsOfPieces(encode, decode, parse, pieces, n - 1);
      TextOfFrame(encode, decode, parse, pieces, n - 1);
      assert all[..n] == all[..n - 1] + [all[n - 1]];
      assert pieces[..n] == pieces[..n - 1] + [pieces[n - 1]];
      ConcatOne(pieces[..n - 1], pieces[n - 1]);
      EventsActionsAppend(parse, all[..n - 1], [all[n - 1]]);
      TokenTextAppend(EventsActions(parse, all[..n - 1]), EventsActions(parse, [all[n - 1]]));
    }
  }

  lemma OneEventActions(parse: ChunkParser, payload: string)
    requires NoNewline(payload) && Tight(payload)
    ensures EventsActions(parse, [DATA + payload]) == LineActions(parse, DATA + payload)
  {
    FramedLine(payload);
    var line := DATA + payload;
    assert EventsActions(parse, [line][1..]) == [] && LinesActions(parse, [line][1..]) == [];
  }

  lemma TextOfFrame(encode: Encoder, decode: Decoder, parse: ChunkParser, pieces: seq<string>, i: nat)
    requires Faithful(encode, decode, parse, pieces) && i < |pieces|
    ensures TokenText(EventsActions(parse, [DATA + encode(pieces[i], i == 0)])) == pieces[i]
  {
    var p := encode(pieces[i], i == 0);
    OneEventActions(parse, p);
    FramedLine(p);
    var rest := if parse(p).value.1 then [EndStream] else [];
    assert LineActions(parse, DATA + p) == [StreamToken(pieces[i])] + rest;
    TokenTextAppend([StreamToken(pieces[i])], rest);
    assert TokenText([StreamToken(pieces[i])][1..]) == "" && TokenText([EndStream][1..]) == "";
    assert TokenText(rest) == "";
  }

  lemma TextOfStream(encode: Encoder, decode: Decoder, parse: ChunkParser, pieces: seq<string>, patience: nat)
    requires Faithful(encode, decode, parse, pieces)
    ensures TokenText(EventsActions(parse, StreamEvents(encode, pieces, patience))) == Concat(Sent(pieces, patience))
  {
    var sent := PieceEvents(encode, Sent(pieces, patience));
    SentEvents(encode, pieces, patience);
    ActionsOfPieces(encode, decode, parse, pieces, |Sent(pieces, patience)|);
    if Completes(pieces, patience) {
      DoneLine();
      OneEventActions(parse, DONE);
      FramedLine(DONE);
      assert TokenText([EndStream][1..]) == "";
      assert TokenText(EventsActions(parse, [DATA + DONE])) == "";
      hide EventsActions, TokenText;
      EventsActionsAppend(parse, sent, [DATA + DONE]);
      TokenTextAppend(EventsActions(parse, sent), EventsActions(parse, [DATA + DONE]));
    } else {
      assert sent + [] == sent;
    }
  }

  /** A chat turn over the mock server, however its stream is cut: the conversation gains the
      user's message and one reply, which is the pieces sent put together. */
  lemma ChatReadsStream(encode: Encoder, decode: Decoder, parse: ChunkParser, pieces: seq<string>, patience: nat,
                        chunks: seq<string>, before: ChatState)
    requires Faithful(encode, decode, parse, pieces)
    requires Concat(chunks) == Join(StreamEvents(encode, pieces, patience))
    ensures var posted := Posted(before);
            AfterReply(parse, posted, Reading(chunks, Finished))
            == ChatState(before.messages + [Message(User, before.input), Message(Assistant, Concat(Sent(pieces, patience)))],
                         "", false, None)
  {
    hide Index, Join, StreamEvents, Concat, EventsActions;
    var events := StreamEvents(encode, pieces, patience);
    StreamIsFramed(encode, decode, parse, pieces, patience);
    EmptyHasNoEvent();
    JoinThenSplit(events, "");
    assert Join(events) + "" == Join(events);
    TextOfStream(encode, decode, parse, pieces, patience);
    var actions := EventsActions(parse, events);
    var posted := Posted(before);
    assert "" + TokenText(actions) == TokenText(actions);
    assert posted.messages == before.messages + [Message(User, before.input), Message(Assistant, "")];
  }

  /** A mock stream stops the chat's streaming by itself, before the connection is closed, exactly if the
      terminator was sent or some piece said it was the last. */
  lemma ChatStopsByItself(encode: Encoder, decode: Decoder, parse: ChunkParser, pieces: seq<string>, patience: nat, before: ChatState)
    requires Faithful(encode, decode, parse, pieces)
    ensures var state := Streamed(Posted(before), EventsActions(parse, StreamEvents(encode, pieces, patience)));
            !state.isStreaming <==> Completes(pieces, patience) || SaysStop(encode, parse, pieces, |Sent(pieces, patience)|)
  {
    var sent := PieceEvents(encode, Sent(pieces, patience));
    SentEvents(encode, pieces, patience);
    StopsOfPieces(encode, decode, parse, pieces, |Sent(pieces, patience)|);
    DoneLine();
    OneEventActions(parse, DONE);
    FramedLine(DONE);
    assert EndStream in EventsActions(parse, [DATA + DONE]);
    hide EventsActions, TokenText, Faithful, SaysStop;
    EventsActionsAppend(parse, sent, [DATA + DONE]);
    assert sent + [] == sent;
  }

  ghost predicate SaysStop(encode: Encoder, parse: ChunkParser, pieces: seq<string>, n: nat)
    requires n <= |pieces|
  {
    exists i :: 0 <= i < n && StopsAt(encode, parse, pieces, i)
  }

  predicate StopsAt(encode: Encoder, parse: ChunkParser, pieces: seq<string>, i: nat)
    requires i < |pieces|
  {
    var p := parse(encode(pieces[i], i == 0));
    p.Some? && p.value.1
  }

  lemma {:induction false} StopsOfPieces(encode: Encoder, decode: Decoder, parse: ChunkParser, pieces: seq<string>, n: nat)
    requires Faithful(encode, decode, parse, pieces) && n <= |pieces|
    ensures EndStream in EventsActions(parse, PieceEvents(encode, pieces)[..n]) <==> SaysStop(encode, parse, pieces, n)
  {
    hide Faithful, EventsActions, StopsAt;
    var all := PieceEvents(encode, pieces);
    if n == 0 {
      NoActions(parse);
    } else {
      StopsOfPieces(encode, decode, parse, pieces, n - 1);
      StopOfFrame(encode, decode, parse, pieces, n - 1);
      assert all[..n] == all[..n - 1] + [all[n - 1]];
      EventsActionsAppend(parse, all[..n - 1], [all[n - 1]]);
    }
  }

  lemma NoActions(parse: ChunkParser)
    ensures EventsActions(parse, []) == []
  {
  }

  lemma StopOfFrame(encode: Encoder, decode: Decoder, parse: ChunkParser, pieces: seq<string>, i: nat)
    requires Faithful(encode, decode, parse, pieces) && i < |pieces|
    ensures EndStream in EventsActions(parse, [DATA + encode(pieces[i], i == 0)]) <==> StopsAt(encode, parse, pieces, i)
  {
    var p := encode(pieces[i], i == 0);
    OneEventActions(parse, p);
    FramedLine(p);
    hide EventsActions;
  }

  // ----- The CLI -----

  /** Events interleaved with the blank lines that end them. */
  function Interleaved(events: seq<string>): seq<string> {
    if events == [] then [] else [events[0], ""] + Interleaved(events[1..])
  }

  lemma InterleavedStep(e: string, events: seq<string>)
    ensures Interleaved([e] + events) == [e, ""] + Interleaved(events)
    ensures Interleaved([]) == []
  {
    assert ([e] + events)[1..] == events;
  }

  /** The lines of framed events: each event, then an empty line; at the very end the empty tail. */
  lemma {:induction false} LinesOfFrames(events: seq<string>)
    requires forall e | e in events :: NoNewline(e)
    ensures SplitLines(Join(events)) == Interleaved(events) + [""]
  {
    hide SplitLines, Join, Interleaved, NoNewline;
    if events == [] {
      NothingJoined();
    } else {
      assert events == [events[0]] + events[1..];
      assert forall v | v in events[1..] :: v in events;
      LinesOfFrames(events[1..]);
      LinesOfFrame(events[0], events[1..]);
      InterleavedStep(events[0], events[1..]);
    }
  }

  lemma NothingJoined()
    ensures SplitLines(Join([])) == [""] && Interleaved([]) == [] && [] + [""] == [""]
  {
  }

  lemma LinesOfFrame(e: string, events: seq<string>)
    requires NoNewline(e)
    ensures SplitLines(Join([e] + events)) == [e, ""] + SplitLines(Join(events))
  {
    var tail := Join(events);
    assert ([e] + events)[1..] == events;
    hide SplitLines, Join;
    SplitLinesFirst(e, "\n" + tail);
    SplitLinesFirst("", tail);
    assert e + "\n" + ("\n" + tail) == e + BLANK + tail;
    assert "" + "\n" + tail == "\n" + tail;
  }

  lemma {:induction false} InterleavedHolds(events: seq<string>)
    ensures forall l | l in Interleaved(events) :: l in events || l == ""
  {
    if events != [] {
      InterleavedHolds(events[1..]);
    }
  }

  lemma ScanIsInterleaved(events: seq<string>)
    requires forall e | e in events :: Framed(e) && |e| < LINE_LIMIT
    ensures ScanLines(Join(events)) == Interleaved(events)
  {
    hide SplitLines, Join, Interleaved, Framed, DropCr;
    forall e | e in events
      ensures NoNewline(e) && DropCr(e) == e
    {
      FramedPlain(e);
    }
    LinesOfFrames(events);
    InterleavedHolds(events);
    DropCrNothing();
    var kept := Interleaved(events);
    assert (kept + [""])[..|kept|] == kept == RawLines(Join(events));
    assert forall i | 0 <= i < |kept| :: kept[i] in kept;
  }

  lemma DropCrNothing()
    ensures DropCr("") == ""
  {
  }

  lemma FramedPlain(event: string)
    requires Framed(event)
    ensures NoNewline(event) && DropCr(event) == event
  {
    hide NoNewline, DropCr, Frameable, SplitLines, Tight, TrimSpace;
    var payload :| NoNewline(payload) && Tight(payload) && event == DATA + payload;
    FramedLine(payload);
  }

  lemma {:induction false} CliDeltasOfPieces(encode: Encoder, decode: Decoder, parse: ChunkParser, pieces: seq<string>,
                                             n: nat, i: nat, tail: seq<string>)
    requires Faithful(encode, decode, parse, pieces) && i <= n <= |pieces|
    requires tail == [] || tail == [DATA + DONE]
    ensures CliDeltas(decode, Interleaved(PieceEvents(encode, pieces)[i..n] + tail)) == pieces[i..n]
    decreases n - i
  {
    hide Faithful, CliDeltas, Interleaved;
    var all := PieceEvents(encode, pieces);
    var events := all[i..n] + tail;
    if i == n {
      assert events == tail && pieces[i..n] == [];
      CliDeltasOfTail(decode, tail);
    } else {
      assert events == [all[i]] + (all[i + 1..n] + tail);
      CliDeltasOfPieces(encode, decode, parse, pieces, n, i + 1, tail);
      InterleavedStep(all[i], all[i + 1..n] + tail);
      CliDeltasOfFrame(encode, decode, parse, pieces, i, Interleaved(all[i + 1..n] + tail));
      assert pieces[i..n] == [pieces[i]] + pieces[i + 1..n];
    }
  }

  lemma CliDeltasOfTail(decode: Decoder, tail: seq<string>)
    requires tail == [] || tail == [DATA + DONE]
    ensures CliDeltas(decode, Interleaved(tail)) == []
  {
    InterleavedStep(DATA + DONE, []);
    assert [DATA + DONE] + [] == [DATA + DONE];
    assert (DATA + DONE)[|DATA|..] == DONE;
    hide Interleaved;
  }

  lemma CliDeltasOfFrame(encode: Encoder, decode: Decoder, parse: ChunkParser, pieces: seq<string>, i: nat, rest: seq<string>)
    requires Faithful(encode, decode, parse, pieces) && i < |pieces|
    ensures CliDeltas(decode, [DATA + encode(pieces[i], i == 0), ""] + rest) == [pieces[i]] + CliDeltas(decode, rest)
  {
    hide Interleaved;
    var p := encode(pieces[i], i == 0);
    FramedLine(p);
    var lines := [DATA + p, ""] + rest;
    assert lines[0] == DATA + p && lines[1..] == [""] + rest;
    CliSkipsBlank(decode, rest);
    assert NonEmpty([pieces[i]][1..]) == [];
    assert NonEmpty([pieces[i]]) == [pieces[i]];
  }

  lemma CliSkipsBlank(decode: Decoder, rest: seq<string>)
    ensures CliDeltas(decode, [""] + rest) == CliDeltas(decode, rest)
  {
    assert ([""] + rest)[1..] == rest;
  }

  /** The events fit the CLI's scanner. */
  ghost predicate FitsScanner(encode: Encoder, pieces: seq<string>) {
    forall i | 0 <= i < |pieces| :: |DATA + encode(pieces[i], i == 0)| < 1048576
  }

  /** The CLI shows exactly the pieces sent. */
  lemma CliReadsStream(encode: Encoder, decode: Decoder, parse: ChunkParser, pieces: seq<string>, patience: nat)
    requires Faithful(encode, decode, parse, pieces) && FitsScanner(encode, pieces)
    ensures CliDeltas(decode, ScanLines(Join(StreamEvents(encode, pieces, patience)))) == Sent(pieces, patience)
  {
    hide Join, ScanLines, CliDeltas, Faithful, Interleaved, Framed;
    var events := StreamEvents(encode, pieces, patience);
    StreamIsFramed(encode, decode, parse, pieces, patience);
    StreamFits(encode, pieces, patience);
    ScanIsInterleaved(events);
    SentEvents(encode, pieces, patience);
    var n := |Sent(pieces, patience)|;
    CliDeltasOfPieces(encode, decode, parse, pieces, n, 0, if Completes(pieces, patience) then [DATA + DONE] else []);
    assert PieceEvents(encode, pieces)[0..n] == PieceEvents(encode, pieces)[..n];
    assert pieces[0..n] == pieces[..n];
  }

  lemma StreamFits(encode: Encoder, pieces: seq<string>, patience: nat)
    requires FitsScanner(encode, pieces)
    ensures forall e | e in StreamEvents(encode, pieces, patience) :: |e| < LINE_LIMIT
  {
  }
}
