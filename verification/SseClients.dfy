/** The two clients that read the stream: the React hook (my-llm-ui/src/useChat.ts) and the CLI
    (cmd/cli/client.go). */
module SseClients {
  import opened Options
  import opened SseText
  import opened Interceptor
  import opened MockServer

  // ----- The chat hook -----

  datatype Role = User | Assistant

  datatype Message = Message(role: Role, content: string)

  datatype ChatState = ChatState(messages: seq<Message>, input: string, isStreaming: bool, error: Option<string>)

  datatype Action =
    | SetInput(text: string)
    | AddUserMessage
    | StartStream
    | StreamToken(text: string)
    | EndStream
    | StreamError(text: string)
    | ClearError

  function Reducer(s: ChatState, a: Action): ChatState
    requires a.StreamToken? ==> s.messages != []
  {
    match a
    case SetInput(text) => s.(input := text)
    case AddUserMessage => s.(input := "", messages := s.messages + [Message(User, s.input)])
    case StartStream => s.(isStreaming := true, error := None, messages := s.messages + [Message(Assistant, "")])
    case StreamToken(text) =>
      var n := |s.messages| - 1;
      s.(messages := s.messages[n := s.messages[n].(content := s.messages[n].content + text)])
    case EndStream => s.(isStreaming := false)
    case StreamError(text) => s.(isStreaming := false, error := Some(text))
    case ClearError => s.(error := None)
  }

  /** `JSON.parse` of a payload: the first choice's content and whether it says it stopped;
      None if malformed. A missing content or choice reads as "". */
  type ChunkParser = string -> Option<(string, bool)>

  /** What one line of an event makes the hook dispatch. */
  function LineActions(parse: ChunkParser, line: string): seq<Action> {
    var trimmed := TrimSpace(line);
    if !(DATA <= trimmed) then []
    else
      var data := trimmed[|DATA|..];
      if data == DONE then [EndStream]
      else
        match parse(data)
        case None => []
        case Some((content, stopped)) =>
          (if content != "" then [StreamToken(content)] else []) + (if stopped then [EndStream] else [])
  }

  function LinesActions(parse: ChunkParser, lines: seq<string>): seq<Action> {
    if lines == [] then [] else LineActions(parse, lines[0]) + LinesActions(parse, lines[1..])
  }

  function EventsActions(parse: ChunkParser, events: seq<string>): seq<Action> {
    if events == [] then [] else LinesActions(parse, SplitLines(events[0])) + EventsActions(parse, events[1..])
  }

  /** The text that a list of actions adds to the message being streamed. */
  function TokenText(actions: seq<Action>): string {
    if actions == [] then ""
    else (if actions[0].StreamToken? then actions[0].text else "") + TokenText(actions[1..])
  }

  /** What streaming does to the state: it only extends the last message and ends the stream. */
  function Streamed(s: ChatState, actions: seq<Action>): ChatState
    requires s.messages != []
  {
    var n := |s.messages| - 1;
    s.(messages := s.messages[n := s.messages[n].(content := s.messages[n].content + TokenText(actions))],
       isStreaming := s.isStreaming && EndStream !in actions)
  }

  lemma {:induction false} TokenTextAppend(a: seq<Action>, b: seq<Action>)
    ensures TokenText(a + b) == TokenText(a) + TokenText(b)
  {
    if a == [] {
      assert a + b == b;
    } else {
      assert (a + b)[1..] == a[1..] + b;
      TokenTextAppend(a[1..], b);
    }
  }

  lemma StreamedThen(s: ChatState, a: seq<Action>, b: seq<Action>)
    requires s.messages != []
    ensures Streamed(Streamed(s, a), b) == Streamed(s, a + b)
    ensures Streamed(s, []) == s
  {
    hide TokenText;
    TokenTextAppend(a, b);
    Associative(s.messages[|s.messages| - 1].content, TokenText(a), TokenText(b));
    TokenTextEmpty();
    StreamedNothing(s);
    assert EndStream in a + b <==> EndStream in a || EndStream in b;
  }

  lemma StreamedNothing(s: ChatState)
    requires s.messages != []
    ensures Streamed(s, []) == s
  {
    var last := s.messages[|s.messages| - 1];
    assert last.content + "" == last.content;
    assert s.messages[|s.messages| - 1 := last] == s.messages;
  }

  lemma TokenTextEmpty()
    ensures TokenText([]) == ""
  {
  }

  lemma {:induction false} EventsActionsAppend(parse: ChunkParser, a: seq<string>, b: seq<string>)
    ensures EventsActions(parse, a + b) == EventsActions(parse, a) + EventsActions(parse, b)
  {
    hide LinesActions;
    if a == [] {
      assert a + b == b;
    } else {
      assert (a + b)[1..] == a[1..] + b;
      EventsActionsAppend(parse, a[1..], b);
      Associative(LinesActions(parse, SplitLines(a[0])), EventsActions(parse, a[1..]), EventsActions(parse, b));
    }
  }

  lemma {:induction false} LinesActionsAppend(parse: ChunkParser, a: seq<string>, b: seq<string>)
    ensures LinesActions(parse, a + b) == LinesActions(parse, a) + LinesActions(parse, b)
  {
    hide LineActions;
    if a == [] {
      assert a + b == b;
    } else {
      assert (a + b)[1..] == a[1..] + b;
      LinesActionsAppend(parse, a[1..], b);
      Associative(LineActions(parse, a[0]), LinesActions(parse, a[1..]), LinesActions(parse, b));
    }
  }

  /** `buffer.split("\n\n")`: the complete events and, last, what is left. */
  function SplitParts(s: string): seq<string>
    decreases |s|
  {
    var i := Index(s);
    if i < 0 then [s] else [s[..i]] + SplitParts(s[i + 2..])
  }

  /** The hook's split-and-pop finds the same events as the router's search loop. */
  lemma {:induction false} SplitPartsAreEvents(s: string)
    ensures SplitParts(s) == Events(s) + [Rest(s)]
    decreases |s|
  {
    hide Index, BlankAt;
    var i := Index(s);
    if i >= 0 {
      SplitPartsAreEvents(s[i + 2..]);
      Associative([s[..i]], Events(s[i + 2..]), [Rest(s[i + 2..])]);
    }
  }

  /** How reading a reply ends: at its end, by the stop button, or by an error. */
  datatype Ending = Finished | Aborted | Broken(message: string)

  /** What the request brings; a request that fails or is stopped before any answer reads nothing. */
  datatype Reply = HttpError(text: string) | NoStream | Reading(chunks: seq<string>, ending: Ending)

  predicate CanSend(s: ChatState) {
    TrimSpace(s.input) != "" && !s.isStreaming
  }

  /** The message is sent and an empty reply begun. */
  function Posted(s: ChatState): ChatState {
    Reducer(Reducer(s, AddUserMessage), StartStream)
  }

  function AfterReply(parse: ChunkParser, posted: ChatState, reply: Reply): ChatState
    requires posted.messages != []
  {
    match reply
    case HttpError(text) => Reducer(posted, StreamError(text))
    case NoStream => Reducer(posted, StreamError("No response stream"))
    case Reading(chunks, ending) =>
      var read := Streamed(posted, EventsActions(parse, Events(Concat(chunks))));
      if ending.Broken? then Reducer(read, StreamError(ending.message)) else Reducer(read, EndStream)
  }

  class UseChat {
    const parse: ChunkParser
    var state: ChatState

    constructor (parse: ChunkParser)
      ensures this.parse == parse && state == ChatState([], "", false, None)
    {
      this.parse := parse;
      state := ChatState([], "", false, None);
    }

    method Dispatch(a: Action)
      requires a.StreamToken? ==> state.messages != []
      modifies this
      ensures state == Reducer(old(state), a)
    {
      state := Reducer(state, a);
    }

    /** Post the input and read the reply; blank input, or a reply still coming in, does nothing. */
    method Send(reply: Reply)
      modifies this
      ensures state == if CanSend(old(state)) then AfterReply(parse, Posted(old(state)), reply) else old(state)
    {
      if TrimSpace(state.input) == "" || state.isStreaming {
        return;
      }
      Dispatch(AddUserMessage);
      Dispatch(StartStream);
      match reply
      case HttpError(text) => Dispatch(StreamError(text));
      case NoStream => Dispatch(StreamError("No response stream"));
      case Reading(chunks, ending) =>
        ReadLoop(chunks);
        match ending
        case Broken(message) => Dispatch(StreamError(message));
        case _ => Dispatch(EndStream);
    }

    method ReadLoop(chunks: seq<string>)
      requires state.messages != []
      modifies this
      ensures state == Streamed(old(state), EventsActions(parse, Events(Concat(chunks))))
    {
      hide Streamed, EventsActions, Events, Rest, Index;
      var buffer := "";
      ghost var before := state;
      Nothing(before);
      for i := 0 to |chunks|
        invariant buffer == Rest(Concat(chunks[..i]))
        invariant state == Streamed(before, EventsActions(parse, Events(Concat(chunks[..i]))))
      {
        assert chunks[..i + 1] == chunks[..i] + [chunks[i]];
        ConcatOne(chunks[..i], chunks[i]);
        SplitAppend(Concat(chunks[..i]), chunks[i]);
        buffer := buffer + chunks[i];
        SplitPartsAreEvents(buffer);
        var parts := SplitParts(buffer);
        buffer := parts[|parts| - 1];
        parts := parts[..|parts| - 1];
        ghost var done := EventsActions(parse, Events(Concat(chunks[..i])));
        ReadParts(parts, before, done);
        EventsActionsAppend(parse, Events(Concat(chunks[..i])), parts);
      }
      assert chunks[..|chunks|] == chunks;
    }

    lemma Nothing(s: ChatState)
      requires s.messages != []
      ensures s == Streamed(s, EventsActions(parse, Events(Concat([])))) && Rest(Concat([])) == ""
    {
      assert Index("") < 0;
      StreamedThen(s, [], []);
    }

    method ReadParts(parts: seq<string>, ghost before: ChatState, ghost done: seq<Action>)
      requires before.messages != [] && state == Streamed(before, done)
      modifies this
      ensures state == Streamed(before, done + EventsActions(parse, parts))
    {
      hide Streamed, LinesActions;
      StreamedKeepsMessages(before, done);
      assert done + [] == done;
      for i := 0 to |parts|
        invariant state == Streamed(before, done + EventsActions(parse, parts[..i]))
      {
        assert parts[..i + 1] == parts[..i] + [parts[i]];
        EventsActionsAppend(parse, parts[..i], [parts[i]]);
        OnePart(parts[i]);
        Associative(done, EventsActions(parse, parts[..i]), LinesActions(parse, SplitLines(parts[i])));
        ReadLines(SplitLines(parts[i]), before, done + EventsActions(parse, parts[..i]));
      }
      assert parts[..|parts|] == parts;
    }

    lemma OnePart(part: string)
      ensures EventsActions(parse, [part]) == LinesActions(parse, SplitLines(part))
    {
      assert EventsActions(parse, [part][1..]) == [];
    }

    lemma OneLine(line: string)
      ensures LinesActions(parse, [line]) == LineActions(parse, line)
    {
      assert LinesActions(parse, [line][1..]) == [];
    }

    method ReadLines(lines: seq<string>, ghost before: ChatState, ghost done: seq<Action>)
      requires before.messages != [] && state == Streamed(before, done)
      modifies this
      ensures state == Streamed(before, done + LinesActions(parse, lines))
    {
      hide Streamed, LineActions;
      assert done + [] == done;
      for j := 0 to |lines|
        invariant state == Streamed(before, done + LinesActions(parse, lines[..j]))
      {
        assert lines[..j + 1] == lines[..j] + [lines[j]];
        LinesActionsAppend(parse, lines[..j], [lines[j]]);
        OneLine(lines[j]);
        Associative(done, LinesActions(parse, lines[..j]), LineActions(parse, lines[j]));
        ReadLine(lines[j], before, done + LinesActions(parse, lines[..j]));
      }
      assert lines[..|lines|] == lines;
    }

    method ReadLine(line: string, ghost before: ChatState, ghost done: seq<Action>)
      requires before.messages != [] && state == Streamed(before, done)
      modifies this
      ensures state == Streamed(before, done + LineActions(parse, line))
    {
      hide Streamed;
      StreamedKeepsMessages(before, done);
      StreamedThen(before, done, LineActions(parse, line));
      StreamedThen(state, [], []);
      StreamEnds(state);
      var trimmed := TrimSpace(line);
      if !(DATA <= trimmed) {
        return;
      }
      var data := trimmed[|DATA|..];
      if data == DONE {
        Dispatch(EndStream);
        return;
      }
      var chunk := parse(data);
      if chunk.None? {
        return;
      }
      var (content, stopped) := chunk.value;
      ghost var sofar: seq<Action> := [];
      if content != "" {
        OneToken(state, content);
        Dispatch(StreamToken(content));
        sofar := [StreamToken(content)];
      }
      if stopped {
        StreamedKeepsMessages(old(state), sofar);
        StreamEnds(state);
        StreamedThen(old(state), sofar, [EndStream]);
        Dispatch(EndStream);
        sofar := sofar + [EndStream];
      }
      assert LineActions(parse, line) == sofar;
    }
  }

  lemma StreamedKeepsMessages(s: ChatState, actions: seq<Action>)
    requires s.messages != []
    ensures |Streamed(s, actions).messages| == |s.messages|
  {
  }

  lemma OneToken(s: ChatState, text: string)
    requires s.messages != []
    ensures Streamed(s, [StreamToken(text)]) == Reducer(s, StreamToken(text))
  {
    assert TokenText([StreamToken(text)][1..]) == "";
    assert TokenText([StreamToken(text)]) == text;
    assert EndStream !in [StreamToken(text)];
  }

  lemma StreamEnds(s: ChatState)
    requires s.messages != []
    ensures Streamed(s, [EndStream]) == Reducer(s, EndStream)
  {
    StreamedNothing(s);
    assert TokenText([EndStream][1..]) == "";
    assert TokenText([EndStream]) == "";
    assert EndStream in [EndStream];
  }

  /** What a line of the reply means to the hook, whatever white space surrounds it: the terminator ends
      the stream; a well-formed chunk adds its content, if any, and ends the stream if it says so. */
  lemma LineMeaning(parse: ChunkParser, before: string, payload: string, after: string)
    requires (forall c | c in before + after :: c in " \t\n\r\U{0B}\U{0C}") && Tight(payload)
    ensures var actions := LineActions(parse, before + (DATA + payload) + after);
            && (EndStream in actions <==> payload == DONE || exists content: string :: parse(payload) == Some((content, true)))
            && TokenText(actions) == if payload != DONE && parse(payload).Some? then parse(payload).value.0 else ""
  {
    var line := DATA + payload;
    assert line[|line| - 1] == payload[|payload| - 1];
    assert forall c | c in before || c in after :: c in before + after;
    TrimExactly(before, line, after);
    assert line[|DATA|..] == payload;
    hide TrimSpace, TokenText, IsSpace, Tight;
    TokenTextEmpty();
    if payload == DONE {
      TokenTextOfTwo("", [EndStream]);
    } else if parse(payload).Some? {
      PayloadMeaning(parse(payload).value.0, parse(payload).value.1);
      assert parse(payload) == Some((parse(payload).value.0, parse(payload).value.1));
    }
  }

  lemma PayloadMeaning(content: string, stopped: bool)
    ensures var actions := (if content != "" then [StreamToken(content)] else []) + (if stopped then [EndStream] else []);
            TokenText(actions) == content && (EndStream in actions <==> stopped)
  {
    hide TokenText;
    TokenTextEmpty();
    TokenTextOfTwo(content, if stopped then [EndStream] else []);
    assert [] + (if stopped then [EndStream] else []) == if stopped then [EndStream] else [];
  }

  lemma TokenTextOfTwo(text: string, rest: seq<Action>)
    requires rest == [] || rest == [EndStream]
    ensures TokenText([StreamToken(text)] + rest) == text && TokenText(rest) == ""
  {
    TokenTextEmpty();
    if rest == [EndStream] {
      assert rest[0] == EndStream && rest[1..] == [];
      assert TokenText(rest) == TokenText(rest[1..]);
    }
    assert ([StreamToken(text)] + rest)[1..] == rest;
  }

  /** A reply that fails keeps what was read of it, ends the stream and shows the error, which the next
      message sent clears. */
  lemma FailedReply(parse: ChunkParser, s: ChatState, chunks: seq<string>, message: string, input: string)
    ensures var read := Streamed(Posted(s), EventsActions(parse, Events(Concat(chunks))));
            var failed := AfterReply(parse, Posted(s), Reading(chunks, Broken(message)));
            && failed.messages == read.messages && |failed.messages| == |s.messages| + 2
            && !failed.isStreaming && failed.error == Some(message) && failed.input == ""
            && Posted(Reducer(failed, SetInput(input))).error == None
            && Reducer(failed, ClearError).error == None
    ensures AfterReply(parse, Posted(s), HttpError(message))
            == ChatState(s.messages + [Message(User, s.input), Message(Assistant, "")], "", false, Some(message))
    ensures AfterReply(parse, Posted(s), NoStream)
            == ChatState(s.messages + [Message(User, s.input), Message(Assistant, "")], "", false, Some("No response stream"))
    ensures AfterReply(parse, Posted(s), Reading(chunks, Aborted)) == AfterReply(parse, Posted(s), Reading(chunks, Finished))
  {
    hide EventsActions, Events, TokenText;
  }

  /** While a reply is still being read, the guard lets a second message through exactly when the
      events read so far have already ended the stream. */
  lemma SecondSendExactly(parse: ChunkParser, s: ChatState, read: seq<string>, input: string)
    requires TrimSpace(input) != ""
    ensures var actions := EventsActions(parse, Events(Concat(read)));
            CanSend(Reducer(Streamed(Posted(s), actions), SetInput(input))) <==> EndStream in actions
  {
    hide EventsActions, Events, TrimSpace, TokenText;
  }

  /** The first reading loop then works on the second reply: its tokens are appended to it and its
      final action ends it, although nothing of the second has been read. */
  lemma FirstReachesSecond(s: ChatState, late: seq<Action>)
    requires CanSend(s)
    ensures var second := Posted(s);
            && second.isStreaming && second.messages == s.messages + [Message(User, s.input), Message(Assistant, "")]
            && var after := Reducer(Streamed(second, late), EndStream);
               !after.isStreaming && after.messages == s.messages + [Message(User, s.input), Message(Assistant, TokenText(late))]
  {
    hide TrimSpace, TokenText;
    assert "" + TokenText(late) == TokenText(late);
  }

  // ----- The CLI -----

  function DropCr(line: string): string {
    if line != "" && line[|line| - 1] == '\r' then line[..|line| - 1] else line
  }

  const LINE_LIMIT := 1024 * 1024

  /** `bufio.ScanLines` over the whole stream: an unfinished last line is delivered too, unless
      it is empty. */
  function RawLines(s: string): seq<string> {
    var lines := SplitLines(s);
    if lines[|lines| - 1] == "" then lines[..|lines| - 1] else lines
  }

  /** How many lines come before the first that does not fit the scanner's buffer. */
  function Fitting(lines: seq<string>): (n: nat)
    ensures n <= |lines| && forall i | 0 <= i < n :: |lines[i]| < LINE_LIMIT
    ensures n < |lines| ==> |lines[n]| >= LINE_LIMIT
  {
    if lines == [] || |lines[0]| >= LINE_LIMIT then 0 else 1 + Fitting(lines[1..])
  }

  /** The lines the scanner hands out; it gives up at one that does not fit. */
  function ScanLines(s: string): seq<string> {
    var raw := RawLines(s);
    seq(Fitting(raw), i requires 0 <= i < Fitting(raw) => DropCr(raw[i]))
  }

  function NonEmpty(contents: seq<string>): seq<string> {
    if contents == [] then []
    else (if contents[0] != "" then [contents[0]] else []) + NonEmpty(contents[1..])
  }

  /** The deltas the CLI shows: every choice counts, and reading stops at the terminator. */
  function CliDeltas(decode: Decoder, lines: seq<string>): seq<string> {
    if lines == [] then []
    else if !(DATA <= lines[0]) then CliDeltas(decode, lines[1..])
    else
      var payload := lines[0][|DATA|..];
      if payload == DONE then []
      else
        (match decode(payload)
         case None => []
         case Some(contents) => NonEmpty(contents)) + CliDeltas(decode, lines[1..])
  }

  /** What one line adds to the deltas; None when it ends the stream. */
  function LineDeltas(decode: Decoder, line: string): Option<seq<string>> {
    if !(DATA <= line) then Some([])
    else
      var payload := line[|DATA|..];
      if payload == DONE then None
      else
        match decode(payload)
        case None => Some([])
        case Some(contents) => Some(NonEmpty(contents))
  }

  lemma CliStep(decode: Decoder, lines: seq<string>, i: nat)
    requires i < |lines|
    ensures CliDeltas(decode, lines[i..])
            == match LineDeltas(decode, lines[i])
               case None => []
               case Some(found) => found + CliDeltas(decode, lines[i + 1..])
  {
    assert lines[i..][1..] == lines[i + 1..];
  }

  /** `broken` tells of a read error at the end of the stream. Errors are reported once, and not at
      all once the terminator has been seen. */
  method ParseSseStream(decode: Decoder, stream: string, broken: bool) returns (deltas: seq<string>, errors: nat)
    ensures deltas == CliDeltas(decode, ScanLines(stream))
    ensures errors == if DATA + DONE !in ScanLines(stream) && (broken || Fitting(RawLines(stream)) < |RawLines(stream)|) then 1 else 0
  {
    hide CliDeltas, RawLines, LineDeltas, DropCr;
    var raw := RawLines(stream);
    ghost var lines := ScanLines(stream);
    deltas, errors := [], 0;
    assert lines[0..] == lines;
    for i := 0 to |raw|
      invariant i <= |lines| && DATA + DONE !in lines[..i] && errors == 0
      invariant deltas + CliDeltas(decode, lines[i..]) == CliDeltas(decode, lines)
    {
      if |raw[i]| >= LINE_LIMIT {
        NoLines(decode, lines[i..]);
        assert lines[..i] == lines;
        return deltas, 1;
      }
      var line := DropCr(raw[i]);
      assert line == lines[i] && lines[..i + 1] == lines[..i] + [line];
      CliStep(decode, lines, i);
      var found := ReadCliLine(decode, line);
      if found.None? {
        assert lines[i] in lines;
        return;
      }
      Associative(deltas, found.value, CliDeltas(decode, lines[i + 1..]));
      deltas := deltas + found.value;
    }
    NoLines(decode, lines[|raw|..]);
    assert lines[..|raw|] == lines;
    if broken {
      errors := 1;
    }
  }

  /** One line of the scanner loop; None when it is the terminator. */
  method ReadCliLine(decode: Decoder, line: string) returns (found: Option<seq<string>>)
    ensures found == LineDeltas(decode, line)
    ensures found.None? <==> line == DATA + DONE
  {
    hide NonEmpty;
    if !(DATA <= line) {
      return Some([]);
    }
    var payload := line[|DATA|..];
    assert line == DATA + payload;
    if payload == DONE {
      return None;
    }
    var chunk := decode(payload);
    if chunk.None? {
      return Some([]);
    }
    var deltas := EmitChoices([], chunk.value);
    assert [] + NonEmpty(chunk.value) == NonEmpty(chunk.value);
    found := Some(deltas);
  }

  lemma NoLines(decode: Decoder, lines: seq<string>)
    ensures lines == [] ==> CliDeltas(decode, lines) == []
  {
  }

  method EmitChoices(before: seq<string>, contents: seq<string>) returns (deltas: seq<string>)
    ensures deltas == before + NonEmpty(contents)
  {
    deltas := before;
    for j := 0 to |contents|
      invariant deltas + NonEmpty(contents[j..]) == before + NonEmpty(contents)
    {
      assert contents[j..][1..] == contents[j + 1..];
      if contents[j] != "" {
        deltas := deltas + [contents[j]];
      }
    }
  }

  /** A line fits if it is shorter than a mebibyte; the first one that is not ends the reading. */
  lemma LineLimit(before: seq<string>, line: string, rest: seq<string>)
    requires forall l | l in before :: |l| < 1048576
    ensures if |line| < 1048576 then Fitting(before + [line] + rest) > |before| else Fitting(before + [line] + rest) == |before|
  {
    var lines := before + [line] + rest;
    assert lines[|before|] == line;
    assert forall i | 0 <= i < |before| :: lines[i] == before[i] && before[i] in before;
  }

  /** A carriage return before the line feed is no part of the line. */
  lemma DropCrExactly(line: string)
    ensures DropCr(line + "\r") == line
    ensures (line == "" || line[|line| - 1] != '\r') ==> DropCr(line) == line
  {
  }

  /** Unlike the router and the chat hook, the CLI shows the content of every choice, and only of lines
      that start with the marker right away. */
  lemma CliLineMeaning(decode: Decoder, line: string, rest: seq<string>)
    ensures !(DATA <= line) ==> CliDeltas(decode, [line] + rest) == CliDeltas(decode, rest)
    ensures CliDeltas(decode, [DATA + DONE] + rest) == []
    ensures line != DONE ==>
              exists shown: seq<string> ::
                && CliDeltas(decode, [DATA + line] + rest) == shown + CliDeltas(decode, rest)
                && (decode(line).None? ==> shown == [])
                && (decode(line).Some? ==> Concatenated(shown) == Concatenated(decode(line).value) && forall c | c in shown :: c != "")
  {
    assert ([line] + rest)[1..] == rest && ([DATA + line] + rest)[1..] == rest;
    assert (DATA + line)[|DATA|..] == line && (DATA + DONE)[|DATA|..] == DONE;
    var shown := if decode(line).Some? then NonEmpty(decode(line).value) else [];
    if decode(line).Some? {
      NonEmptyExactly(decode(line).value);
    }
    if line != DONE {
      assert CliDeltas(decode, [DATA + line] + rest) == shown + CliDeltas(decode, rest);
    }
  }

  function Concatenated(parts: seq<string>): string {
    if parts == [] then "" else parts[0] + Concatenated(parts[1..])
  }

  lemma {:induction false} NonEmptyExactly(contents: seq<string>)
    ensures Concatenated(NonEmpty(contents)) == Concatenated(contents)
    ensures forall c | c in NonEmpty(contents) :: c != ""
  {
    if contents != [] {
      NonEmptyExactly(contents[1..]);
      var rest := NonEmpty(contents[1..]);
      assert ([contents[0]] + rest)[1..] == rest;
      assert [] + rest == rest;
    }
  }
}
