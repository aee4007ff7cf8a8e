/**
  What the event-stream rewriter prints and why it refuses, said without its functions: which lines
  and blocks a text consists of, what becomes of every single line of a block, and which texts are
  accepted.
 */
module SseContent {
  import opened Wrappers
  import opened EventText
  import opened Sse

  // ---------------------------------------------------------------- lines

  predicate IsTerminator(b: string) { b == "\r\n" || b == "\r" || b == "\n" }

  /** The text is these lines, each with its terminator, and then the tail; a CR before an LF never stands alone. */
  predicate Cut(t: string, lines: seq<string>, breaks: seq<string>, tail: string)
    decreases |lines|
  {
    && |lines| == |breaks| && NoBreak(tail)
    && if lines == [] then t == tail else
         && NoBreak(lines[0]) && IsTerminator(breaks[0]) && lines[0] + breaks[0] <= t
         && var rest := t[|lines[0]| + |breaks[0]|..];
            !(breaks[0] == "\r" && "\n" <= rest) && Cut(rest, lines[1..], breaks[1..], tail)
  }

  lemma CutCons(t: string, line: string, ending: string, lines: seq<string>, breaks: seq<string>, tail: string)
    requires NoBreak(line) && IsTerminator(ending) && line + ending <= t
    requires var rest := t[|line| + |ending|..]; !(ending == "\r" && "\n" <= rest) && Cut(rest, lines, breaks, tail)
    ensures Cut(t, [line] + lines, [ending] + breaks, tail)
  {
    assert ([line] + lines)[1..] == lines && ([ending] + breaks)[1..] == breaks;
  }

  lemma BreakAt(t: string, i: nat)
    requires i < |t| && IsBreak(t[i])
    ensures var n := i + BreakLength(t, i);
            && IsTerminator(t[i..n]) && t[..i] + t[i..n] == t[..n] <= t
            && !(t[i..n] == "\r" && "\n" <= t[n..])
  {
  }

  lemma {:induction false} SplitLinesCuts(t: string) returns (breaks: seq<string>)
    ensures Cut(t, SplitLines(t).lines, breaks, SplitLines(t).tail)
    decreases |t|
  {
    var i := NextBreak(t, 0);
    if i == |t| {
      breaks := [];
    } else {
      var n := i + BreakLength(t, i);
      var split := SplitLines(t[n..]);
      var rest := SplitLinesCuts(t[n..]);
      BreakAt(t, i);
      CutCons(t, t[..i], t[i..n], split.lines, rest, split.tail);
      breaks := [t[i..n]] + rest;
    }
  }

  lemma FirstBreak(t: string, line: string, ending: string)
    requires NoBreak(line) && IsTerminator(ending) && line + ending <= t
    requires !(ending == "\r" && "\n" <= t[|line| + |ending|..])
    ensures NextBreak(t, 0) == |line| && t[..|line|] == line && BreakLength(t, |line|) == |ending|
  {
    var i, n := |line|, |line| + |ending|;
    assert t[..n] == line + ending;
    assert t[..i] == t[..n][..i] == line && t[i] == t[..n][i] == ending[0];
    assert |ending| == 2 ==> t[i + 1] == t[..n][i + 1] == ending[1];
    assert n < |t| ==> t[n..][0] == t[n];
    NextBreakUnique(t, 0, i);
  }

  lemma {:induction false} CutIsSplitLines(t: string, lines: seq<string>, breaks: seq<string>, tail: string)
    requires Cut(t, lines, breaks, tail)
    ensures SplitLines(t) == Split(lines, tail)
    decreases |lines|
  {
    if lines == [] {
      NextBreakUnique(t, 0, |t|);
    } else {
      FirstBreak(t, lines[0], breaks[0]);
      CutIsSplitLines(t[|lines[0]| + |breaks[0]|..], lines[1..], breaks[1..], tail);
      assert lines == [lines[0]] + lines[1..];
    }
  }

  predicate HasLines(t: string, lines: seq<string>, breaks: seq<string>, tail: string) { Cut(t, lines, breaks, tail) }

  /** The lines of a text: cut at CRLF, CR and LF, and at nothing else. */
  lemma SplitLinesIff(t: string, lines: seq<string>, tail: string)
    ensures SplitLines(t) == Split(lines, tail) <==> exists breaks :: HasLines(t, lines, breaks, tail)
  {
    var breaks := SplitLinesCuts(t);
    if SplitLines(t) == Split(lines, tail) {
      assert HasLines(t, lines, breaks, tail);
    }
    if b :| HasLines(t, lines, b, tail) {
      CutIsSplitLines(t, lines, b, tail);
    }
  }

  // ---------------------------------------------------------------- blocks

  /** The lines are these blocks, each closed by a blank line, and then the lines of an unfinished one. */
  predicate Grouped(lines: seq<string>, blocks: seq<seq<string>>, open: seq<string>)
    decreases |blocks|
  {
    if blocks == [] then lines == open && NoBlank(open) else
      var n := |blocks[0]|;
      n < |lines| && lines[..n] == blocks[0] && NoBlank(blocks[0]) && lines[n] == "" && Grouped(lines[n + 1..], blocks[1..], open)
  }

  lemma {:induction false} GroupGroups(pending: seq<string>, lines: seq<string>)
    requires NoBlank(pending)
    ensures var g := Group(pending, lines); Grouped(pending + lines, g.blocks, g.open)
    decreases |lines|
  {
    if lines == [] {
      assert pending + lines == pending;
    } else if lines[0] != "" {
      GroupGroups(pending + [lines[0]], lines[1..]);
      assert pending + [lines[0]] + lines[1..] == pending + lines;
    } else {
      var rest := Group([], lines[1..]);
      GroupGroups([], lines[1..]);
      var all, blocks := pending + lines, [pending] + rest.blocks;
      assert all[..|pending|] == pending && all[|pending| + 1..] == lines[1..] == [] + lines[1..];
      assert blocks[1..] == rest.blocks;
    }
  }

  lemma FirstBlank(lines: seq<string>, n: nat, m: nat)
    requires n < |lines| && lines[n] == "" && forall k | 0 <= k < n :: lines[k] != ""
    requires m < |lines| && lines[m] == "" && forall k | 0 <= k < m :: lines[k] != ""
    ensures n == m
  {
  }

  lemma {:induction false} GroupedUnique(lines: seq<string>, blocks: seq<seq<string>>, open: seq<string>, others: seq<seq<string>>, left: seq<string>)
    requires Grouped(lines, blocks, open) && Grouped(lines, others, left)
    ensures blocks == others && open == left
    decreases |blocks|
  {
    if blocks != [] && others != [] {
      var n, m := |blocks[0]|, |others[0]|;
      assert forall k | 0 <= k < n :: lines[k] == lines[..n][k] == blocks[0][k];
      assert forall k | 0 <= k < m :: lines[k] == lines[..m][k] == others[0][k];
      FirstBlank(lines, n, m);
      GroupedUnique(lines[n + 1..], blocks[1..], open, others[1..], left);
      assert blocks == [blocks[0]] + blocks[1..] && others == [others[0]] + others[1..];
    }
  }

  /** The blocks of a stream: closed by blank lines, and by nothing else. */
  lemma GroupIff(lines: seq<string>, blocks: seq<seq<string>>, open: seq<string>)
    ensures Group([], lines) == Grouping(blocks, open) <==> Grouped(lines, blocks, open)
  {
    var g := Group([], lines);
    GroupGroups([], lines);
    assert [] + lines == lines;
    if Grouped(lines, blocks, open) {
      GroupedUnique(lines, blocks, open, g.blocks, g.open);
    }
  }

  // ---------------------------------------------------------------- the lines of one block

  /** A data line and the piece of data that it carries. */
  predicate Carries(line: string, piece: string) {
    (line == "data" && piece == "") || line == "data: " + piece || (line == "data:" + piece && !(" " <= piece))
  }

  predicate HasData(line: string) { line == "data" || "data:" <= line }

  /** How many of the lines carry data, or how many do not. */
  function Count(lines: seq<string>, data: bool): nat {
    if lines == [] then 0
    else Count(lines[..|lines| - 1], data) + if HasData(lines[|lines| - 1]) == data then 1 else 0
  }

  lemma CountSnoc(lines: seq<string>, line: string, data: bool)
    ensures Count(lines + [line], data) == Count(lines, data) + if HasData(line) == data then 1 else 0
  {
    assert (lines + [line])[..|lines|] == lines;
  }

  lemma {:induction false} CountCons(lines: seq<string>, data: bool)
    requires lines != []
    ensures Count(lines, data) == (if HasData(lines[0]) == data then 1 else 0) + Count(lines[1..], data)
  {
    var last := lines[|lines| - 1];
    if |lines| == 1 {
      assert lines[..0] == [] && lines[1..] == [];
    } else {
      CountCons(lines[..|lines| - 1], data);
      CountSnoc(lines[1..][..|lines| - 2], last, data);
      assert lines[..|lines| - 1][1..] == lines[1..][..|lines| - 2];
      assert lines[1..] == lines[1..][..|lines| - 2] + [last];
    }
  }

  /** Every line without data stands in the output, where the lines without data before it put it. */
  predicate KeptInPlace(block: seq<string>, out: seq<string>) {
    && |out| == Count(block, false)
    && forall k | 0 <= k < |block| && !HasData(block[k]) :: Count(block[..k], false) < |out| && out[Count(block[..k], false)] == block[k]
  }

  /** Every data line contributes its piece, where the data lines before it put it. */
  predicate CarriedInPlace(block: seq<string>, pieces: seq<string>) {
    && |pieces| == Count(block, true)
    && forall k | 0 <= k < |block| && HasData(block[k]) :: Count(block[..k], true) < |pieces| && Carries(block[k], pieces[Count(block[..k], true)])
  }

  lemma {:induction false} RetainedInPlace(block: seq<string>)
    ensures KeptInPlace(block, Retained(block))
  {
    if block != [] {
      var rest := block[1..];
      RetainedInPlace(rest);
      CountCons(block, false);
      forall k | 0 <= k < |block| && !HasData(block[k])
        ensures Count(block[..k], false) < |Retained(block)| && Retained(block)[Count(block[..k], false)] == block[k]
      {
        if k > 0 {
          CountCons(block[..k], false);
          assert block[..k][1..] == rest[..k - 1] && block[k] == rest[k - 1];
        }
      }
    }
  }

  lemma PayloadCarried(line: string)
    requires IsData(line)
    ensures Carries(line, Payload(line))
  {
    if line != "data" {
      var v := line[5..];
      assert line == "data:" + v;
      if " " <= v {
        assert v == " " + v[1..];
      }
    }
  }

  lemma {:induction false} PayloadsInPlace(block: seq<string>)
    ensures CarriedInPlace(block, Payloads(block))
  {
    if block != [] {
      var rest := block[1..];
      PayloadsInPlace(rest);
      CountCons(block, true);
      forall k | 0 <= k < |block| && HasData(block[k])
        ensures Count(block[..k], true) < |Payloads(block)| && Carries(block[k], Payloads(block)[Count(block[..k], true)])
      {
        if k == 0 {
          PayloadCarried(block[0]);
        } else {
          CountCons(block[..k], true);
          assert block[..k][1..] == rest[..k - 1] && block[k] == rest[k - 1];
        }
      }
    }
  }

  /** Only the pieces that the lines carry come out. */
  lemma CarriesOnePiece(line: string, one: string, other: string)
    requires Carries(line, one) && Carries(line, other)
    ensures one == other
  {
    assert line == "data: " + one ==> line[6..] == one;
    assert line == "data:" + one ==> line[5..] == one;
    assert line == "data: " + other ==> line[6..] == other && line[5..] == " " + other;
    assert line == "data:" + other ==> line[5..] == other;
    assert line == "data: " + one ==> line[5..] == " " + one;
  }

  /**
    What is printed for a block.  With data in it, the pieces of the data lines, joined by LF, are
    parsed and the message is shown to the callback; the lines without data are all printed, in their
    order, and after them one data line with what the callback answered.  Without, the block is
    printed as it stands.  The block is refused if the data does not parse or the callback throws,
    and in no other case.
   */
  lemma BlockIsPrinted<J>(codec: Codec<J>, block: seq<string>, seen: seq<J>) returns (pieces: seq<string>, kept: seq<string>)
    ensures CarriedInPlace(block, pieces) && KeptInPlace(block, kept)
    ensures var data := Join(pieces);
            if data == "" then Emit(codec, block, seen) == Some((block, seen))
            else if codec.parse(data).None? || codec.rewrite(seen + [codec.parse(data).value]).None? then Emit(codec, block, seen) == None
            else
              var after := seen + [codec.parse(data).value];
              Emit(codec, block, seen) == Some((kept + ["data: " + codec.print_(codec.rewrite(after).value)], after))
  {
    pieces, kept := Payloads(block), Retained(block);
    PayloadsInPlace(block);
    RetainedInPlace(block);
  }

  /** So an event id, like any line without data, survives in every block that is printed. */
  lemma LineSurvives<J>(codec: Codec<J>, block: seq<string>, seen: seq<J>, k: nat)
    requires k < |block| && !HasData(block[k]) && Emit(codec, block, seen).Some?
    ensures block[k] in Emit(codec, block, seen).value.0
  {
    var pieces, kept := BlockIsPrinted(codec, block, seen);
    assert block[k] in kept;
  }

  // ---------------------------------------------------------------- whole texts

  /** The frames printed for the blocks that are not empty, in order, and the messages seen after each. */
  ghost predicate Printed<J>(codec: Codec<J>, blocks: seq<seq<string>>, seen: seq<J>, frames: seq<string>, end: seq<J>)
    decreases |blocks|
  {
    if blocks == [] then frames == [] && end == seen
    else if blocks[0] == [] then Printed(codec, blocks[1..], seen, frames, end)
    else
      && frames != [] && ByteLength(Frame(blocks[0])) <= MAX_WIRE_BYTES && Emit(codec, blocks[0], seen).Some?
      && frames[0] == Frame(Emit(codec, blocks[0], seen).value.0)
      && Printed(codec, blocks[1..], Emit(codec, blocks[0], seen).value.1, frames[1..], end)
  }

  lemma {:induction false} RenderIff<J>(codec: Codec<J>, blocks: seq<seq<string>>, seen: seq<J>, frames: seq<string>, end: seq<J>)
    ensures Render(codec, blocks, seen) == Done(frames, end) <==> Printed(codec, blocks, seen, frames, end)
    decreases |blocks|
  {
    if blocks != [] {
      if blocks[0] == [] {
        RenderIff(codec, blocks[1..], seen, frames, end);
      } else {
        FrameWeight(blocks[0]);
        if Emit(codec, blocks[0], seen).Some? {
          var (lines, after) := Emit(codec, blocks[0], seen).value;
          var rest := Render(codec, blocks[1..], after);
          if frames != [] {
            RenderIff(codec, blocks[1..], after, frames[1..], end);
            assert frames == [frames[0]] + frames[1..];
          }
          assert rest.Done? ==> ([Frame(lines)] + rest.frames)[1..] == rest.frames;
        }
      }
    }
  }

  /** Nothing but whole comment lines may follow the last block, and no more of them than a frame may hold. */
  predicate OnlyComments(open: seq<string>, tail: string) {
    tail == "" && (forall k | 0 <= k < |open| :: ":" <= open[k]) && (open == [] || ByteLength(Join(open) + "\n") <= MAX_WIRE_BYTES)
  }

  lemma AcceptableIff(open: seq<string>, tail: string)
    ensures Acceptable(open, tail) <==> OnlyComments(open, tail)
  {
    if open != [] {
      JoinWeight(open);
      ByteLengthConcat(Join(open), "\n");
      OneByteBreak();
    }
  }

  lemma OneByteBreak()
    ensures ByteLength("\n") == 1
  {
    assert "\n"[..0] == "" && ByteLength("") == 0;
  }

  /** How a text is read: its lines, its blocks, and what is left over. */
  datatype Reading = Reading(lines: seq<string>, breaks: seq<string>, tail: string, blocks: seq<seq<string>>, open: seq<string>)

  predicate ReadsAs(text: string, r: Reading) {
    Cut(text, r.lines, r.breaks, r.tail) && Grouped(r.lines, r.blocks, r.open)
  }

  lemma OneReading(text: string, r: Reading)
    requires ReadsAs(text, r)
    ensures SplitLines(text) == Split(r.lines, r.tail) && Group([], r.lines) == Grouping(r.blocks, r.open)
  {
    CutIsSplitLines(text, r.lines, r.breaks, r.tail);
    GroupIff(r.lines, r.blocks, r.open);
  }

  lemma SomeReading(text: string) returns (r: Reading)
    ensures ReadsAs(text, r)
  {
    var split := SplitLines(text);
    var breaks := SplitLinesCuts(text);
    var g := Group([], split.lines);
    GroupIff(split.lines, g.blocks, g.open);
    r := Reading(split.lines, breaks, split.tail, g.blocks, g.open);
  }

  ghost predicate Accepts<J>(codec: Codec<J>, text: string, r: Reading, frames: seq<string>, end: seq<J>) {
    ReadsAs(text, r) && OnlyComments(r.open, r.tail) && Printed(codec, r.blocks, [], frames, end)
  }

  lemma AcceptedAs<J>(codec: Codec<J>, text: string, r: Reading, frames: seq<string>, end: seq<J>)
    requires ReadsAs(text, r)
    ensures Reference(codec, text) == Done(frames, end) <==> Accepts(codec, text, r, frames, end)
  {
    OneReading(text, r);
    AcceptableIff(r.open, r.tail);
    RenderIff(codec, r.blocks, [], frames, end);
  }

  /**
    Which texts are accepted, and what is printed for them: the text falls into lines, the lines into
    blocks with nothing but comments left over, and the frames are those printed for the blocks.
   */
  lemma AcceptedIff<J>(codec: Codec<J>, text: string, frames: seq<string>, end: seq<J>)
    ensures Reference(codec, text) == Done(frames, end) <==> exists r :: Accepts(codec, text, r, frames, end)
  {
    var reading := SomeReading(text);
    AcceptedAs(codec, text, reading, frames, end);
    if r :| Accepts(codec, text, r, frames, end) {
      AcceptedAs(codec, text, r, frames, end);
    }
  }

  /** One byte is decoded by one step of the decoder. */
  lemma OneByteDecodes<D>(decoder: Decoder<D>, d: D, b: Byte)
    ensures Decode(decoder, d, [b]) == decoder.step(d, b)
  {
    assert [b][..0] == [] && Decode(decoder, d, []) == Some((d, ""));
    if decoder.step(d, b).Some? {
      var (end, text) := decoder.step(d, b).value;
      assert "" + text == text;
    }
  }

  /** The width of a character in UTF-8, at both ends of each range. */
  lemma Utf8Widths()
    ensures Utf8Width('A') == 1 && Utf8Width('\U{7F}') == 1
    ensures Utf8Width('\U{80}') == 2 && Utf8Width('\U{7FF}') == 2
    ensures Utf8Width('\U{800}') == 3 && Utf8Width('\U{FFFF}') == 3
    ensures Utf8Width('\U{10000}') == 4 && Utf8Width('\U{10FFFF}') == 4
  {
  }
}
