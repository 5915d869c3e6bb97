/** runDocker's output handling: chunks of decoded text cut into lines as they arrive. */
module LineSplitter {

  /** `split("\n")`: always at least one piece. */
  function Split(text: string): (pieces: seq<string>)
    ensures pieces != []
  {
    if text == "" then [""]
    else
      var n := |text| - 1;
      var before := Split(text[..n]);
      if text[n] == '\n' then before + [""]
      else before[..|before| - 1] + [before[|before| - 1] + [text[n]]]
  }

  function Join(pieces: seq<string>): string
    requires pieces != []
  {
    if |pieces| == 1 then pieces[0] else Join(pieces[..|pieces| - 1]) + "\n" + pieces[|pieces| - 1]
  }

  function Concat(chunks: seq<string>): string {
    if chunks == [] then "" else Concat(chunks[..|chunks| - 1]) + chunks[|chunks| - 1]
  }

  lemma ConcatSnoc(chunks: seq<string>, text: string)
    ensures Concat(chunks + [text]) == Concat(chunks) + text
  {
    assert (chunks + [text])[..|chunks|] == chunks;
  }

  // ---- what a split is ----

  lemma {:induction false} JoinSplit(text: string)
    ensures Join(Split(text)) == text
    ensures forall p :: p in Split(text) ==> '\n' !in p
  {
    if text != "" {
      var n := |text| - 1;
      var before := Split(text[..n]);
      JoinSplit(text[..n]);
      assert text == text[..n] + [text[n]];
      if text[n] == '\n' {
        assert (before + [""])[..|before|] == before;
      } else {
        JoinExtends(before, [text[n]]);
        assert before[|before| - 1] in before;
      }
    }
  }

  /** Adding to the last piece adds to the whole text. */
  lemma JoinExtends(pieces: seq<string>, more: string)
    requires pieces != []
    ensures var last := |pieces| - 1;
      Join(pieces[..last] + [pieces[last] + more]) == Join(pieces) + more
  {
    var last := |pieces| - 1;
    var longer := pieces[..last] + [pieces[last] + more];
    if last > 0 {
      assert longer[..last] == pieces[..last] && longer[last] == pieces[last] + more;
      ConcatAssoc(Join(pieces[..last]) + "\n", pieces[last], more);
    }
  }

  lemma ConcatAssoc(a: string, b: string, c: string)
    ensures a + (b + c) == (a + b) + c
  {
  }

  /** The split is the only way to write the text as newline-free pieces. */
  lemma {:induction false} SplitJoin(pieces: seq<string>)
    requires pieces != [] && forall p :: p in pieces ==> '\n' !in p
    ensures Split(Join(pieces)) == pieces
  {
    var last := |pieces| - 1;
    if last == 0 {
      SplitPlain(pieces[0]);
      assert pieces == [pieces[0]];
    } else {
      SplitJoin(pieces[..last]);
      assert pieces[last] in pieces;
      SplitLast(pieces, last);
    }
  }

  lemma SplitLast(pieces: seq<string>, last: nat)
    requires last == |pieces| - 1 > 0 && '\n' !in pieces[last]
    requires Split(Join(pieces[..last])) == pieces[..last]
    ensures Split(Join(pieces)) == pieces
  {
    var head, piece := Join(pieces[..last]), pieces[last];
    JoinLast(pieces, last);
    SplitSeparated(head, piece);
    LastJoined(pieces, last);
  }

  lemma JoinLast(pieces: seq<string>, last: nat)
    requires last == |pieces| - 1 > 0
    ensures Join(pieces) == Join(pieces[..last]) + "\n" + pieces[last]
  {
  }

  lemma LastJoined(pieces: seq<string>, last: nat)
    requires last == |pieces| - 1
    ensures pieces == pieces[..last] + [pieces[last]]
  {
  }

  lemma SplitSeparated(head: string, piece: string)
    requires '\n' !in piece
    ensures Split(head + "\n" + piece) == Split(head) + [piece]
  {
    SplitSnoc(head, '\n');
    SplitAppend(head + "\n", piece);
    SplitPlain(piece);
    assert "" + piece == piece;
  }

  lemma {:induction false} SplitPlain(text: string)
    requires '\n' !in text
    ensures Split(text) == [text]
  {
    if text != "" {
      var n := |text| - 1;
      SplitPlain(text[..n]);
      assert text[n] in text && text == text[..n] + [text[n]];
    }
  }

  /** Only the last piece is still open: more text continues it. */
  lemma {:induction false} SplitAppend(a: string, b: string)
    ensures Split(a + b) == Closed(Split(a)) + Split(Open(Split(a)) + b)
  {
    var open := Open(Split(a));
    if b == "" {
      assert a + b == a && open + b == open;
      JoinSplit(a);
      SplitPlain(open) by { assert open in Split(a); }
    } else {
      var n := |b| - 1;
      SplitAppend(a, b[..n]);
      assert b == b[..n] + [b[n]];
      SplitSnocAfter(a, b[..n], b[n]);
      SplitSnocAfter(open, b[..n], b[n]);
      ExtendConcat(Closed(Split(a)), Split(open + b[..n]), b[n]);
    }
  }

  function Closed(pieces: seq<string>): seq<string>
    requires pieces != []
  {
    pieces[..|pieces| - 1]
  }

  function Open(pieces: seq<string>): string
    requires pieces != []
  {
    pieces[|pieces| - 1]
  }

  lemma SplitSnocAfter(a: string, b: string, c: char)
    ensures Split(a + (b + [c])) == Extend(Split(a + b), c)
  {
    assert a + (b + [c]) == (a + b) + [c];
    SplitSnoc(a + b, c);
  }

  /** One more character: a newline opens a piece, any other continues the open one. */
  function Extend(pieces: seq<string>, c: char): seq<string>
    requires pieces != []
  {
    if c == '\n' then pieces + [""] else pieces[..|pieces| - 1] + [pieces[|pieces| - 1] + [c]]
  }

  lemma SplitSnoc(text: string, c: char)
    ensures Split(text + [c]) == Extend(Split(text), c)
  {
    assert (text + [c])[..|text|] == text;
  }

  lemma ExtendConcat(a: seq<string>, b: seq<string>, c: char)
    requires b != []
    ensures Extend(a + b, c) == a + Extend(b, c)
  {
  }

  lemma SplitMore(text: string, more: string, closed: seq<string>, open: string)
    requires closed + [open] == Split(text)
    ensures closed + Split(open + more) == Split(text + more)
  {
    SplitAppend(text, more);
    assert (closed + [open])[..|closed|] == closed;
  }

  lemma LastStaysOpen(closed: seq<string>, parts: seq<string>)
    requires parts != []
    ensures closed + parts[..|parts| - 1] + [parts[|parts| - 1]] == closed + parts
  {
  }

  // ---- what reaches the caller ----

  /** Docker redraws a line with carriage returns: what stands after the last one. */
  function FinalRendering(raw: string): string {
    if raw == "" then ""
    else if raw[|raw| - 1] == '\r' then ""
    else FinalRendering(raw[..|raw| - 1]) + [raw[|raw| - 1]]
  }

  function TrimEnd(line: string): string {
    if line != "" && line[|line| - 1] in {' ', '\t', '\r', '\n'} then TrimEnd(line[..|line| - 1]) else line
  }

  /** A rendering is the end of its piece, after the last carriage return or from the beginning. */
  lemma {:induction false} RenderingMeans(raw: string) returns (erased: string)
    ensures raw == erased + FinalRendering(raw) && '\r' !in FinalRendering(raw)
    ensures erased == "" || erased[|erased| - 1] == '\r'
  {
    if raw == "" || raw[|raw| - 1] == '\r' {
      erased := raw;
    } else {
      var n := |raw| - 1;
      erased := RenderingMeans(raw[..n]);
      assert raw == raw[..n] + [raw[n]];
    }
  }

  predicate Blank(c: char) {
    c == ' ' || c == '\t' || c == '\r' || c == '\n'
  }

  /** Trimming takes off the blanks at the end, all of them and nothing else. */
  lemma {:induction false} TrimMeans(line: string) returns (blanks: string)
    ensures line == TrimEnd(line) + blanks && forall c :: c in blanks ==> Blank(c)
    ensures TrimEnd(line) != "" ==> !Blank(TrimEnd(line)[|TrimEnd(line)| - 1])
  {
    blanks := "";
    if line != "" && Blank(line[|line| - 1]) {
      var n := |line| - 1;
      var rest := TrimMeans(line[..n]);
      blanks := rest + [line[n]];
      assert line == line[..n] + [line[n]];
    }
  }

  /** The lines `onLine` receives for a list of pieces. */
  function Lines(pieces: seq<string>): seq<string> {
    if pieces == [] then []
    else
      var line := TrimEnd(FinalRendering(pieces[|pieces| - 1]));
      Lines(pieces[..|pieces| - 1]) + (if line != "" then [line] else [])
  }

  /** Every piece with anything but blanks after its last carriage return is one line, in order. */
  lemma LinesAre(pieces: seq<string>, piece: string)
    ensures Lines(pieces + [piece]) == Lines(pieces) + Lines([piece])
    ensures Lines([piece]) == if TrimEnd(FinalRendering(piece)) == "" then [] else [TrimEnd(FinalRendering(piece))]
    ensures Lines([]) == []
  {
    LinesConcat(pieces, [piece]);
    assert [piece][..0] == [];
  }

  lemma {:induction false} LinesConcat(a: seq<string>, b: seq<string>)
    ensures Lines(a + b) == Lines(a) + Lines(b)
  {
    if b == [] {
      assert a + b == a;
    } else {
      var n := |b| - 1;
      assert (a + b)[..|a + b| - 1] == a + b[..n];
      LinesConcat(a, b[..n]);
    }
  }

  /** One stream of the child process: its captured text, its open piece, and what was emitted. */
  class Stream {
    var captured: string
    var pending: string
    var lines: seq<string>
    ghost var chunks: seq<string>
    ghost var emitted: seq<string>

    /** What was emitted and the open piece are the split of everything received. */
    ghost predicate Valid()
      reads this
    {
      && captured == Concat(chunks)
      && emitted + [pending] == Split(captured)
      && lines == Lines(emitted)
    }

    constructor ()
      ensures Valid() && chunks == [] && lines == []
    {
      captured, pending, lines, chunks, emitted := "", "", [], [], [];
    }

    method Emit(raw: string)
      modifies this`lines, this`emitted
      ensures emitted == old(emitted) + [raw]
      ensures lines == old(lines) + Lines([raw])
    {
      var line := TrimEnd(FinalRendering(raw));
      assert [raw][..0] == [] && Lines([]) == [];
      if line != "" { lines := lines + [line]; }
      emitted := emitted + [raw];
    }

    lemma OneMorePart(before: seq<string>, parts: seq<string>, i: nat)
      requires i < |parts|
      ensures (before + parts[..i]) + [parts[i]] == before + parts[..i + 1]
    {
    }

    /** `for (const part of parts) emit(part)` */
    method EmitEach(parts: seq<string>)
      requires lines == Lines(emitted)
      modifies this`lines, this`emitted
      ensures emitted == old(emitted) + parts && lines == Lines(emitted)
    {
      for i := 0 to |parts|
        invariant emitted == old(emitted) + parts[..i] && lines == Lines(emitted)
      {
        LinesConcat(emitted, [parts[i]]);
        OneMorePart(old(emitted), parts, i);
        Emit(parts[i]);
      }
      assert parts[..|parts|] == parts;
    }

    method OnData(text: string)
      requires Valid()
      modifies this
      ensures Valid() && chunks == old(chunks) + [text]
    {
      SplitMore(captured, text, emitted, pending);
      captured := captured + text;
      var parts := Split(pending + text);
      pending := parts[|parts| - 1];
      EmitEach(parts[..|parts| - 1]);
      ConcatSnoc(chunks, text);
      chunks := chunks + [text];
      LastStaysOpen(old(emitted), parts);
    }

    /** The process closed: the open piece is the last line. */
    method OnClose()
      requires Valid()
      modifies this`lines, this`emitted
      ensures captured == Concat(chunks)
      ensures emitted == Split(Concat(chunks)) && lines == Lines(Split(Concat(chunks)))
    {
      LinesConcat(emitted, [pending]);
      Emit(pending);
    }
  }

  /** For any chunking of the text, the pieces emitted by the final flush are its newline split. */
  method EmitAll(chunks: seq<string>) returns (captured: string, lines: seq<string>)
    ensures captured == Concat(chunks)
    ensures lines == Lines(Split(Concat(chunks)))
  {
    var stream := new Stream();
    for i := 0 to |chunks|
      invariant stream.Valid() && fresh(stream) && stream.chunks == chunks[..i]
    {
      stream.OnData(chunks[i]);
      assert chunks[..i + 1] == chunks[..i] + [chunks[i]];
    }
    assert chunks[..|chunks|] == chunks;
    stream.OnClose();
    return stream.captured, stream.lines;
  }
}
