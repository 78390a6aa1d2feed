/** The streaming path as a whole: mock replica, router, and the two readers behind it. */
module EndToEnd {
  import opened SseText
  import opened Interceptor
  import opened MockServer
  import opened SseClients
  import opened SseRoundTrip
  import opened Relay

  /** What the replica printed, relayed by the router to a client that takes every write, whatever
      the sizes of the router's reads: the router counted the pieces and knows whether the stream
      was finished; the chat hook, in chunks of any size, and the CLI read the same pieces. */
  lemma PiecesArriveEverywhere(encode: Encoder, decode: Decoder, parse: ChunkParser, pieces: seq<string>, patience: nat,
                               client: Client, writes: seq<Chunk>, sent: string, chunks: seq<string>, before: ChatState)
    requires Faithful(encode, decode, parse, pieces) && FitsScanner(encode, pieces)
    requires Relayed(client, Join(StreamEvents(encode, pieces, patience)), [], writes, "", sent) && AllTaken(client, writes, 0)
    requires Concat(chunks) == sent
    ensures Seen(decode, writes) == Sent(pieces, patience)
    ensures StatsOf(decode, writes).chunkCount == |Sent(pieces, patience)|
    ensures StatsOf(decode, writes).doneSeen <==> Completes(pieces, patience)
    ensures CliDeltas(decode, ScanLines(sent)) == Sent(pieces, patience)
    ensures AfterReply(parse, Posted(before), Reading(chunks, Finished)).messages
            == before.messages + [Message(User, before.input), Message(Assistant, Concat(Sent(pieces, patience)))]
  {
    hide Faithful, Join, StreamEvents, Seen, Rest, HasDone, Arrivals, Tokens, Concat, Events, ScanLines, CliDeltas,
         FitsScanner, AfterReply, Posted;
    var payload := Join(StreamEvents(encode, pieces, patience));
    assert "" + payload == payload;
    RouterReadsStream(encode, decode, parse, pieces, patience, writes);
    CliReadsStream(encode, decode, parse, pieces, patience);
    ChatReadsStream(encode, decode, parse, pieces, patience, chunks, before);
  }
}
