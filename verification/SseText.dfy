/** Cutting a byte stream into server-sent events and lines. A byte is a `char`; blank lines
    are two line feeds, as everywhere in this program (carriage returns are not line ends). */
module SseText {

  const DATA := "data: "
  const DONE := "[DONE]"
  const BLANK := "\n\n"

  predicate BlankAt(s: string, i: int) {
    0 <= i && i + 1 < |s| && s[i] == '\n' && s[i + 1] == '\n'
  }

  /** Position of the first blank line, or -1. */
  function Index(s: string): (r: int)
    ensures -1 <= r < |s|
    ensures r >= 0 ==> r + 2 <= |s| && BlankAt(s, r)
    ensures forall j | 0 <= j < (if r < 0 then |s| else r) :: !BlankAt(s, j)
  {
    if |s| < 2 then -1
    else if BlankAt(s, 0) then 0
    else
      var r := Index(s[1..]);
      assert forall j | 1 <= j < |s| :: BlankAt(s, j) == BlankAt(s[1..], j - 1);
      if r < 0 then -1 else r + 1
  }

  /** The complete events of a stream, and what is left over for later. */
  function Events(s: string): seq<string>
    decreases |s|
  {
    var i := Index(s);
    if i < 0 then [] else [s[..i]] + Events(s[i + 2..])
  }

  function Rest(s: string): string
    decreases |s|
  {
    var i := Index(s);
    if i < 0 then s else Rest(s[i + 2..])
  }

  function Join(events: seq<string>): string {
    if events == [] then "" else events[0] + BLANK + Join(events[1..])
  }

  lemma IndexUnique(s: string, i: nat)
    requires BlankAt(s, i)
    requires forall j | 0 <= j < i :: !BlankAt(s, j)
    ensures Index(s) == i
  {
  }

  lemma IndexAppend(a: string, b: string)
    requires Index(a) >= 0
    ensures Index(a + b) == Index(a)
  {
    var i := Index(a);
    assert forall j | 0 <= j <= i :: BlankAt(a + b, j) == BlankAt(a, j);
    IndexUnique(a + b, i);
  }

  /** Cutting anywhere and carrying the left-over along gives the events of the whole. */
  lemma {:induction false} SplitAppend(a: string, b: string)
    ensures Events(a + b) == Events(a) + Events(Rest(a) + b)
    ensures Rest(a + b) == Rest(Rest(a) + b)
    decreases |a|
  {
    hide Index, BlankAt;
    var i := Index(a);
    if i >= 0 {
      IndexAppend(a, b);
      assert (a + b)[i + 2..] == a[i + 2..] + b;
      assert (a + b)[..i] == a[..i];
      SplitAppend(a[i + 2..], b);
    }
  }

  /** Splitting loses nothing, and leaves no complete event behind. */
  lemma {:induction false} SplitThenJoin(s: string)
    ensures Join(Events(s)) + Rest(s) == s
    ensures Index(Rest(s)) < 0
    decreases |s|
  {
    hide Index, BlankAt;
    var i := Index(s);
    if i >= 0 {
      var tail := s[i + 2..];
      SplitThenJoin(tail);
      CutAt(s, i);
      Associative(s[..i] + BLANK, Join(Events(tail)), Rest(tail));
      assert Events(s)[1..] == Events(tail);
    }
  }

  lemma CutAt(s: string, i: nat)
    requires BlankAt(s, i)
    ensures s == s[..i] + BLANK + s[i + 2..]
  {
  }

  lemma Associative<T>(a: seq<T>, b: seq<T>, c: seq<T>)
    ensures (a + b) + c == a + (b + c)
  {
  }

  /** An event can be framed when its own text does not end or contain a blank line. */
  predicate Frameable(event: string) {
    Index(event + BLANK) == |event|
  }

  /** Joining framed events and splitting again is the identity. */
  lemma {:induction false} JoinThenSplit(events: seq<string>, rest: string)
    requires forall e | e in events :: Frameable(e)
    requires Index(rest) < 0
    ensures Events(Join(events) + rest) == events
    ensures Rest(Join(events) + rest) == rest
  {
    hide Index, BlankAt;
    if events == [] {
      assert Join(events) + rest == rest;
    } else {
      var e, tail := events[0], Join(events[1..]) + rest;
      var s := Join(events) + rest;
      assert s == e + BLANK + tail;
      assert Frameable(e);
      IndexAppend(e + BLANK, tail);
      assert s[..|e|] == e && s[|e| + 2..] == tail;
      JoinThenSplit(events[1..], rest);
    }
  }

  // ----- White space -----

  predicate IsSpace(c: char) {
    c == ' ' || c == '\t' || c == '\n' || c == '\r' || c == '\U{0B}' || c == '\U{0C}'
  }

  function TrimLeft(s: string): string {
    if s != "" && IsSpace(s[0]) then TrimLeft(s[1..]) else s
  }

  function TrimRight(s: string): string {
    if s != "" && IsSpace(s[|s| - 1]) then TrimRight(s[..|s| - 1]) else s
  }

  function TrimSpace(s: string): string {
    TrimRight(TrimLeft(s))
  }

  predicate Tight(s: string) {
    s != "" && !IsSpace(s[0]) && !IsSpace(s[|s| - 1])
  }

  /** Trimming takes off all white space around a text that neither starts nor ends with any. */
  lemma {:induction false} TrimExactly(before: string, text: string, after: string)
    requires (forall c | c in before :: IsSpace(c)) && (forall c | c in after :: IsSpace(c))
    requires Tight(text)
    ensures TrimSpace(before + text + after) == text
    decreases |before| + |after|
  {
    var s := before + text + after;
    if before != [] {
      assert s[0] == before[0] && before[0] in before;
      assert s[1..] == before[1..] + text + after;
      assert forall c | c in before[1..] :: c in before;
      TrimExactly(before[1..], text, after);
    } else {
      assert s == text + after && s[0] == text[0];
      TrimRightExactly(text, after);
    }
  }

  lemma {:induction false} TrimRightExactly(text: string, after: string)
    requires Tight(text) && forall c | c in after :: IsSpace(c)
    ensures TrimRight(text + after) == text
    decreases |after|
  {
    var s := text + after;
    if after != [] {
      var n := |after| - 1;
      assert s[|s| - 1] == after[n] && after[n] in after;
      assert s[..|s| - 1] == text + after[..n];
      assert forall c | c in after[..n] :: c in after;
      TrimRightExactly(text, after[..n]);
    } else {
      assert s == text;
    }
  }

  // ----- Lines -----

  /** `s.split("\n")`: the pieces between line feeds. */
  function SplitLines(s: string): (lines: seq<string>)
    ensures |lines| > 0
  {
    if s == "" then [""]
    else
      var rest := SplitLines(s[1..]);
      if s[0] == '\n' then [""] + rest else [[s[0]] + rest[0]] + rest[1..]
  }

  predicate NoNewline(s: string) {
    forall i | 0 <= i < |s| :: s[i] != '\n'
  }

  lemma {:induction false} SplitLinesFirst(line: string, rest: string)
    requires NoNewline(line)
    ensures SplitLines(line + "\n" + rest) == [line] + SplitLines(rest)
    ensures SplitLines(line) == [line]
  {
    if line == "" {
      assert ("" + "\n" + rest)[1..] == rest;
    } else {
      SplitLinesFirst(line[1..], rest);
      assert (line + "\n" + rest)[1..] == line[1..] + "\n" + rest;
      assert [line[0]] + line[1..] == line;
    }
  }
}
