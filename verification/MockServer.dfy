/** The mock server's event stream (cmd/mock/main.go): the printer that the parsers of this
    project are proved to invert. */
module MockServer {
  import opened SseText

  /** `json.Marshal` of one streaming chunk; the flag adds the assistant role to the first. */
  type Encoder = (string, bool) -> string

  function Concat(parts: seq<string>): string {
    if |parts| == 0 then "" else Concat(parts[..|parts| - 1]) + parts[|parts| - 1]
  }

  lemma ConcatOne(parts: seq<string>, part: string)
    ensures Concat(parts + [part]) == Concat(parts) + part
  {
    assert (parts + [part])[..|parts|] == parts;
  }

  lemma JoinOne(event: string)
    ensures Join([event]) == event + BLANK
  {
    assert Join([event][1..]) == "";
  }

  lemma ConcatNothing()
    ensures Concat([]) == "" && Join([]) == ""
  {
  }

  lemma {:induction false} JoinAppend(a: seq<string>, b: seq<string>)
    ensures Join(a + b) == Join(a) + Join(b)
  {
    if a == [] {
      assert a + b == b;
    } else {
      assert (a + b)[1..] == a[1..] + b;
      JoinAppend(a[1..], b);
      Associative(a[0] + BLANK, Join(a[1..]), Join(b));
    }
  }

  function PieceEvents(encode: Encoder, pieces: seq<string>): seq<string> {
    seq(|pieces|, i requires 0 <= i < |pieces| => DATA + encode(pieces[i], i == 0))
  }

  /** The client's context is looked at around every piece: one that leaves after `patience`
      pieces gets no more of them, and no terminator. */
  predicate Completes(pieces: seq<string>, patience: nat) {
    patience > |pieces| || pieces == []
  }

  function Sent(pieces: seq<string>, patience: nat): seq<string> {
    if patience < |pieces| then pieces[..patience] else pieces
  }

  function StreamEvents(encode: Encoder, pieces: seq<string>, patience: nat): seq<string> {
    PieceEvents(encode, Sent(pieces, patience)) + if Completes(pieces, patience) then [DATA + DONE] else []
  }

  /** Event by event: the i-th piece is sent exactly if the client is there for more than i pieces, and
      the terminator, after the last one, exactly if it is there for more than all of them. */
  lemma SentExactly(encode: Encoder, pieces: seq<string>, patience: nat)
    ensures var events, n := StreamEvents(encode, pieces, patience), if patience < |pieces| then patience else |pieces|;
            && |events| == n + (if patience > |pieces| || pieces == [] then 1 else 0)
            && (forall i | 0 <= i < n :: events[i] == DATA + encode(pieces[i], i == 0))
            && (|events| > n ==> events[n] == DATA + DONE)
  {
  }

  /** Every write made on the response, in order. */
  method HandleStream(encode: Encoder, pieces: seq<string>, patience: nat) returns (out: seq<string>)
    ensures Concat(out) == Join(StreamEvents(encode, pieces, patience))
  {
    hide Join, Concat;
    out := [];
    ConcatNothing();
    ghost var all := PieceEvents(encode, pieces);
    for i := 0 to |pieces|
      invariant i == 0 || i < patience
      invariant Concat(out) == Join(all[..i])
    {
      if i >= patience {
        assert StreamEvents(encode, pieces, patience) == all[..i];
        return;
      }
      out := WriteSseChunk(out, encode(pieces[i], i == 0));
      assert all[..i + 1] == all[..i] + [all[i]];
      JoinAppend(all[..i], [all[i]]);
      if i + 1 >= patience {
        assert StreamEvents(encode, pieces, patience) == all[..i + 1];
        return;
      }
    }
    assert all[..|pieces|] == all;
    ConcatOne(out, DATA + DONE + BLANK);
    JoinAppend(all, [DATA + DONE]);
    JoinOne(DATA + DONE);
    assert DATA + DONE + BLANK == "data: [DONE]\n\n";
    assert StreamEvents(encode, pieces, patience) == all + [DATA + DONE];
    out := out + ["data: [DONE]\n\n"];
  }

  method WriteSseChunk(before: seq<string>, json: string) returns (out: seq<string>)
    ensures Concat(out) == Concat(before) + Join([DATA + json])
  {
    hide Join, Concat;
    JoinOne(DATA + json);
    ConcatOne(before, DATA);
    ConcatOne(before + [DATA], json);
    ConcatOne(before + [DATA] + [json], BLANK);
    out := before + [DATA] + [json] + [BLANK];
    assert Concat(before) + DATA + json + BLANK == Concat(before) + (DATA + json + BLANK);
  }

  // ----- Splitting a reply into pieces -----

  /** Length of the leading run of non-space characters. */
  function WordLength(s: string): (n: nat)
    ensures n <= |s|
    ensures forall i | 0 <= i < n :: !IsSpace(s[i])
    ensures n < |s| ==> IsSpace(s[n])
  {
    if s == "" || IsSpace(s[0]) then 0 else 1 + WordLength(s[1..])
  }

  /** `strings.Fields`. */
  function Fields(s: string): seq<string>
    decreases |s|
  {
    if s == "" then []
    else if IsSpace(s[0]) then Fields(s[1..])
    else [s[..WordLength(s)]] + Fields(s[WordLength(s)..])
  }

  predicate IsWord(w: string) {
    w != "" && forall i | 0 <= i < |w| :: !IsSpace(w[i])
  }

  lemma {:induction false} FieldsAreWords(s: string)
    ensures forall w | w in Fields(s) :: IsWord(w)
    decreases |s|
  {
    if s != "" {
      FieldsAreWords(if IsSpace(s[0]) then s[1..] else s[WordLength(s)..]);
    }
  }

  /** Words separated by single spaces. */
  function Spaced(words: seq<string>): string {
    if words == [] then ""
    else if |words| == 1 then words[0]
    else words[0] + " " + Spaced(words[1..])
  }

  lemma WordLengthIs(w: string, rest: string)
    requires IsWord(w) && (rest != "" ==> IsSpace(rest[0]))
    ensures WordLength(w + rest) == |w|
  {
    var n := WordLength(w + rest);
    assert forall i | 0 <= i < |w| :: (w + rest)[i] == w[i];
    assert rest != "" ==> (w + rest)[|w|] == rest[0];
  }

  lemma {:induction false} FieldsOfSpaced(words: seq<string>)
    requires forall w | w in words :: IsWord(w)
    ensures Fields(Spaced(words)) == words
  {
    if words != [] {
      var w := words[0];
      assert IsWord(w);
      var rest := if |words| == 1 then "" else " " + Spaced(words[1..]);
      assert Spaced(words) == w + rest;
      WordLengthIs(w, rest);
      assert (w + rest)[|w|..] == rest && (w + rest)[..|w|] == w;
      assert forall v | v in words[1..] :: v in words;
      FieldsOfSpaced(words[1..]);
      if |words| > 1 {
        assert rest[1..] == Spaced(words[1..]);
      }
    }
  }

  lemma {:induction false} SpacedOneMore(words: seq<string>, w: string)
    requires words != []
    ensures Spaced(words + [w]) == Spaced(words) + " " + w
  {
    assert (words + [w])[1..] == words[1..] + [w];
    if |words| > 1 {
      SpacedOneMore(words[1..], w);
    }
  }

  function Printing(s: string): string {
    if s == "" then "" else (if IsSpace(s[0]) then "" else [s[0]]) + Printing(s[1..])
  }

  lemma {:induction false} PrintingWord(w: string, rest: string)
    requires forall i | 0 <= i < |w| :: !IsSpace(w[i])
    ensures Printing(w + rest) == w + Printing(rest)
  {
    if w == "" {
      assert w + rest == rest;
    } else {
      assert (w + rest)[1..] == w[1..] + rest;
      PrintingWord(w[1..], rest);
    }
  }

  /** Whatever the white space between them, the words are all of the text but that white space. */
  lemma {:induction false} FieldsKeepText(s: string)
    ensures Joined(Fields(s)) == Printing(s)
    decreases |s|
  {
    if s != "" {
      if IsSpace(s[0]) {
        FieldsKeepText(s[1..]);
      } else {
        var n := WordLength(s);
        assert s == s[..n] + s[n..];
        PrintingWord(s[..n], s[n..]);
        FieldsKeepText(s[n..]);
        assert ([s[..n]] + Fields(s[n..]))[1..] == Fields(s[n..]);
      }
    }
  }

  function Joined(words: seq<string>): string {
    if words == [] then "" else words[0] + Joined(words[1..])
  }

  lemma NothingSpaced()
    ensures Concat([]) == "" && Spaced([]) == "" && forall w :: Spaced([w]) == w
  {
  }

  /** No piece is empty, and the pieces put together read as the same words as the text. */
  method SplitTokens(text: string) returns (pieces: seq<string>)
    ensures |pieces| == |Fields(text)|
    ensures forall p | p in pieces :: p != ""
    ensures forall i | 0 <= i < |pieces| :: pieces[i] == Fields(text)[i] + if i < |pieces| - 1 then " " else ""
    ensures Concat(pieces) == Spaced(Fields(text)) && Fields(Concat(pieces)) == Fields(text)
  {
    hide Fields, Spaced, Concat;
    var words := Fields(text);
    FieldsAreWords(text);
    NothingSpaced();
    pieces := [];
    for i := 0 to |words|
      invariant |pieces| == i && forall p | p in pieces :: p != ""
      invariant forall j | 0 <= j < i :: pieces[j] == words[j] + if j < |words| - 1 then " " else ""
      invariant Concat(pieces) == Spaced(words[..i]) + if 0 < i < |words| then " " else ""
    {
      assert IsWord(words[i]);
      assert words[..i + 1] == words[..i] + [words[i]];
      if i > 0 {
        SpacedOneMore(words[..i], words[i]);
      } else {
        assert words[..1] == [words[0]] && words[..0] == [];
      }
      var piece := if i < |words| - 1 then words[i] + " " else words[i];
      assert words[i] + "" == words[i];
      ConcatOne(pieces, piece);
      pieces := pieces + [piece];
    }
    assert words[..|words|] == words;
    FieldsOfSpaced(words);
  }
}
