/**
  The event-stream rewriter of the hot-swap router.

  `Reference` is the one-shot parser: split the whole text at CRLF, CR or LF, group the lines at
  blank lines, render each group.  `SseRewriter` is the incremental parser, with its resume index,
  its held-back CR and its running byte count.  The main results are that the incremental parser
  agrees with the one-shot parser for every way of cutting the byte stream, and that what it
  prints parses back to itself exactly when every printed frame fits the byte limit.
 */
module EventText {
  /** The largest frame, in UTF-8 bytes, that may be buffered. */
  const MAX_WIRE_BYTES: nat := 8 * 1024 * 1024

  predicate IsBreak(c: char) { c == '\r' || c == '\n' }

  predicate NoBreak(s: string) { forall k | 0 <= k < |s| :: !IsBreak(s[k]) }

  function Utf8Width(c: char): (n: nat)
    ensures 1 <= n <= 4
  {
    if c as int < 0x80 then 1 else if c as int < 0x800 then 2 else if c as int < 0x10000 then 3 else 4
  }

  /** Length of the UTF-8 encoding of `s`. */
  function ByteLength(s: string): nat {
    if s == "" then 0 else ByteLength(s[..|s| - 1]) + Utf8Width(s[|s| - 1])
  }

  lemma {:induction false} ByteLengthConcat(a: string, b: string)
    ensures ByteLength(a + b) == ByteLength(a) + ByteLength(b)
  {
    if b == "" {
      assert a + b == a;
    } else {
      assert (a + b)[..|a + b| - 1] == a + b[..|b| - 1];
      ByteLengthConcat(a, b[..|b| - 1]);
    }
  }

  /** Index of the first CR or LF at or after `from`, or the length of the text. */
  function NextBreak(t: string, from: nat): (i: nat)
    requires from <= |t|
    ensures from <= i <= |t|
    ensures forall k | from <= k < i :: !IsBreak(t[k])
    ensures i < |t| ==> IsBreak(t[i])
    decreases |t| - from
  {
    if from == |t| || IsBreak(t[from]) then from else NextBreak(t, from + 1)
  }

  function BreakLength(t: string, i: nat): (n: nat)
    requires i < |t| && IsBreak(t[i])
    ensures 1 <= n <= 2 && i + n <= |t|
  {
    if t[i] == '\r' && i + 1 < |t| && t[i + 1] == '\n' then 2 else 1
  }

  lemma NextBreakUnique(t: string, from: nat, i: nat)
    requires from <= i <= |t|
    requires forall k | from <= k < i :: !IsBreak(t[k])
    requires i < |t| ==> IsBreak(t[i])
    ensures NextBreak(t, from) == i
  {
  }

  datatype Split = Split(lines: seq<string>, tail: string)

  /** The terminated lines of a text, and what follows the last line break. */
  function SplitLines(t: string): Split
    decreases |t|
  {
    var i := NextBreak(t, 0);
    if i == |t| then Split([], t) else
      var rest := SplitLines(t[i + BreakLength(t, i)..]);
      Split([t[..i]] + rest.lines, rest.tail)
  }

  datatype Grouping = Grouping(blocks: seq<seq<string>>, open: seq<string>)

  predicate NoBlank(lines: seq<string>) { forall k | 0 <= k < |lines| :: lines[k] != "" }

  /** Groups lines into the blocks closed by a blank line and the unfinished last block, begun by `open`. */
  function Group(open: seq<string>, lines: seq<string>): Grouping
    decreases |lines|
  {
    if lines == [] then Grouping([], open)
    else if lines[0] != "" then Group(open + [lines[0]], lines[1..])
    else
      var rest := Group([], lines[1..]);
      Grouping([open] + rest.blocks, rest.open)
  }

  /** Bytes of a group of lines, each counted with one byte for its terminator. */
  function Weight(lines: seq<string>): nat {
    if lines == [] then 0 else Weight(lines[..|lines| - 1]) + ByteLength(lines[|lines| - 1]) + 1
  }

  lemma WeightSnoc(lines: seq<string>, line: string)
    ensures Weight(lines + [line]) == Weight(lines) + ByteLength(line) + 1
  {
    assert (lines + [line])[..|lines|] == lines;
  }

  /** Lines joined by LF. */
  function Join(lines: seq<string>): string {
    if lines == [] then "" else if |lines| == 1 then lines[0] else Join(lines[..|lines| - 1]) + "\n" + lines[|lines| - 1]
  }

  /** A printed frame: its lines and the blank line that closes it. */
  function Frame(lines: seq<string>): string {
    Join(lines) + "\n\n"
  }

  function Concat(parts: seq<string>): string {
    if parts == [] then "" else parts[0] + Concat(parts[1..])
  }

  /** Every line printed with its own terminator. */
  function Terminated(lines: seq<string>): string {
    if lines == [] then "" else lines[0] + "\n" + Terminated(lines[1..])
  }

  lemma {:induction false} TerminatedSnoc(lines: seq<string>, line: string)
    ensures Terminated(lines + [line]) == Terminated(lines) + line + "\n"
  {
    if lines != [] {
      TerminatedSnoc(lines[1..], line);
      assert (lines + [line])[1..] == lines[1..] + [line];
    }
  }

  lemma {:induction false} JoinTerminated(lines: seq<string>)
    requires lines != []
    ensures Join(lines) + "\n" == Terminated(lines)
  {
    if |lines| == 1 {
      assert Terminated(lines[1..]) == "";
    } else {
      var init, last := lines[..|lines| - 1], lines[|lines| - 1];
      JoinTerminated(init);
      TerminatedSnoc(init, last);
      assert lines == init + [last];
    }
  }

  /** A frame weighs its lines plus one byte for the closing blank line. */
  lemma {:induction false} FrameWeight(lines: seq<string>)
    requires lines != []
    ensures ByteLength(Frame(lines)) == Weight(lines) + 1
  {
    JoinWeight(lines);
    assert ByteLength("\n\n") == 2 by { ByteLengthConcat("\n", "\n"); assert "\n" + "\n" == "\n\n"; }
    ByteLengthConcat(Join(lines), "\n\n");
  }

  lemma {:induction false} JoinWeight(lines: seq<string>)
    requires lines != []
    ensures ByteLength(Join(lines)) + 1 == Weight(lines)
  {
    var init, last := lines[..|lines| - 1], lines[|lines| - 1];
    if |lines| == 1 {
      assert Weight(init) == 0;
    } else {
      JoinWeight(init);
      ByteLengthConcat(Join(init), "\n");
      ByteLengthConcat(Join(init) + "\n", last);
    }
  }
}

module Sse {
  import opened Wrappers
  import opened EventText

  type Byte = b: int | 0 <= b < 256

  /**
    What the rewriter is parameterised by: a JSON object parser (`None` for malformed text and for
    values that are not objects), a JSON printer, and the rewrite callback.  The callback sees the
    whole history of messages, the last one being the message to rewrite, so a stateful callback is
    covered; `None` is a callback that throws.
   */
  datatype Codec<!J> = Codec(parse: string -> Option<J>, print_: J -> string, rewrite: seq<J> -> Option<J>)

  /** A streaming text decoder: any byte-at-a-time automaton that may refuse. */
  datatype Decoder<!D> = Decoder(start: D, step: (D, Byte) -> Option<(D, string)>, complete: D -> bool)

  datatype Outcome<J> = Throws | Done(frames: seq<string>, seen: seq<J>)

  // ---------------------------------------------------------------- one block

  predicate IsData(line: string) { line == "data" || "data:" <= line }

  predicate IsComment(line: string) { ":" <= line }

  /** The value of a data line: the part after the colon, less one leading space. */
  function Payload(line: string): string
    requires IsData(line)
  {
    if line == "data" then "" else
      var v := line[5..];
      if " " <= v then v[1..] else v
  }

  function Payloads(lines: seq<string>): seq<string> {
    if lines == [] then []
    else if IsData(lines[0]) then [Payload(lines[0])] + Payloads(lines[1..])
    else Payloads(lines[1..])
  }

  function Retained(lines: seq<string>): seq<string> {
    if lines == [] then []
    else if IsData(lines[0]) then Retained(lines[1..])
    else [lines[0]] + Retained(lines[1..])
  }

  /** The lines printed for a block, and the messages seen after it. */
  function Emit<J>(codec: Codec<J>, block: seq<string>, seen: seq<J>): Option<(seq<string>, seq<J>)> {
    var data := Join(Payloads(block));
    if data == "" then Some((block, seen)) else
      match codec.parse(data)
      case None => None
      case Some(message) =>
        match codec.rewrite(seen + [message])
        case None => None
        case Some(rewritten) => Some((Retained(block) + ["data: " + codec.print_(rewritten)], seen + [message]))
  }

  // ---------------------------------------------------------------- the one-shot parser

  function Render<J>(codec: Codec<J>, blocks: seq<seq<string>>, seen: seq<J>): Outcome<J>
    decreases |blocks|
  {
    if blocks == [] then Done([], seen)
    else if Weight(blocks[0]) + 1 > MAX_WIRE_BYTES then Throws
    else if blocks[0] == [] then Render(codec, blocks[1..], seen)
    else
      match Emit(codec, blocks[0], seen)
      case None => Throws
      case Some((lines, after)) => After([Frame(lines)], Render(codec, blocks[1..], after))
  }

  function After<J>(frames: seq<string>, rest: Outcome<J>): Outcome<J> {
    match rest
    case Throws => Throws
    case Done(more, seen) => Done(frames + more, seen)
  }

  /** An unfinished stream is acceptable only if nothing but comments is pending. */
  predicate Acceptable(open: seq<string>, tail: string) {
    tail == "" && Weight(open) <= MAX_WIRE_BYTES && forall k | 0 <= k < |open| :: IsComment(open[k])
  }

  /** The outcome of reading `lines` and then `tail`, with the lines `open` of a block already read. */
  function OutcomeOfLines<J>(codec: Codec<J>, open: seq<string>, seen: seq<J>, split: Split): Outcome<J> {
    var grouping := Group(open, split.lines);
    if !Acceptable(grouping.open, split.tail) then Throws else Render(codec, grouping.blocks, seen)
  }

  function OutcomeFrom<J>(codec: Codec<J>, open: seq<string>, seen: seq<J>, text: string): Outcome<J> {
    OutcomeOfLines(codec, open, seen, SplitLines(text))
  }

  function Reference<J>(codec: Codec<J>, text: string): Outcome<J> {
    OutcomeFrom(codec, [], [], text)
  }

  function Decode<D>(decoder: Decoder<D>, d: D, bytes: seq<Byte>): Option<(D, string)>
    decreases |bytes|
  {
    if bytes == [] then Some((d, "")) else
      match Decode(decoder, d, bytes[..|bytes| - 1])
      case None => None
      case Some((mid, text)) =>
        match decoder.step(mid, bytes[|bytes| - 1])
        case None => None
        case Some((end, more)) => Some((end, text + more))
  }

  /** The one-shot parser on bytes: decode everything, then parse everything. */
  function ReferenceBytes<D, J>(decoder: Decoder<D>, codec: Codec<J>, bytes: seq<Byte>): Outcome<J> {
    match Decode(decoder, decoder.start, bytes)
    case None => Throws
    case Some((d, text)) => if decoder.complete(d) then Reference(codec, text) else Throws
  }

  // ---------------------------------------------------------------- the incremental parser

  /** What the rewriter holds between calls, less its resume index. */
  datatype Scan<J> = Dead | Live(text: string, lines: seq<string>, bytes: nat, frames: seq<string>, seen: seq<J>)

  /** A line break that may be consumed now: a CR at the very end waits for more text. */
  predicate Consumable(t: string, i: nat, final: bool)
    requires i <= |t|
  {
    i < |t| && (final || t[i] != '\r' || i + 1 < |t|)
  }

  /** The state after the line `line`, with `rest` still to scan. */
  function Absorb<J>(codec: Codec<J>, s: Scan<J>, line: string, rest: string): Scan<J>
    requires s.Live?
  {
    var bytes := s.bytes + ByteLength(line) + 1;
    if bytes > MAX_WIRE_BYTES then Dead
    else if line != "" then Live(rest, s.lines + [line], bytes, s.frames, s.seen)
    else if s.lines == [] then Live(rest, [], 0, s.frames, s.seen)
    else
      match Emit(codec, s.lines, s.seen)
      case None => Dead
      case Some((lines, seen)) => Live(rest, [], 0, s.frames + [Frame(lines)], seen)
  }

  function TakeLine<J>(codec: Codec<J>, s: Scan<J>, i: nat): Scan<J>
    requires s.Live? && i < |s.text| && IsBreak(s.text[i])
  {
    Absorb(codec, s, s.text[..i], s.text[i + BreakLength(s.text, i)..])
  }

  function Consumed<J>(codec: Codec<J>, s: Scan<J>, final: bool): Scan<J>
    decreases if s.Live? then |s.text| + 1 else 0
  {
    if s.Dead? then Dead else
      var i := NextBreak(s.text, 0);
      if Consumable(s.text, i, final) then Consumed(codec, TakeLine(codec, s, i), final)
      else if s.bytes + ByteLength(s.text) > MAX_WIRE_BYTES then Dead
      else s
  }

  lemma ConsumedStep<J>(codec: Codec<J>, s: Scan<J>, i: nat, final: bool)
    requires s.Live? && i == NextBreak(s.text, 0)
    ensures Consumed(codec, s, final) ==
            if Consumable(s.text, i, final) then Consumed(codec, TakeLine(codec, s, i), final)
            else if s.bytes + ByteLength(s.text) > MAX_WIRE_BYTES then Dead else s
  {
  }

  /** The byte count and the pending lines agree; no pending line is blank. */
  predicate Coherent<J>(s: Scan<J>) {
    s.Live? ==> s.bytes == Weight(s.lines) && s.bytes <= MAX_WIRE_BYTES && NoBlank(s.lines)
  }

  /** What a scan state is worth once `more` has arrived and the stream has ended. */
  function Worth<J>(codec: Codec<J>, s: Scan<J>, more: string): Outcome<J> {
    match s
    case Dead => Throws
    case Live(text, lines, _, frames, seen) => After(frames, OutcomeFrom(codec, lines, seen, text + more))
  }

  lemma {:induction false} HeavyThrows<J>(codec: Codec<J>, open: seq<string>, seen: seq<J>, split: Split)
    requires Weight(open) > MAX_WIRE_BYTES
    ensures OutcomeOfLines(codec, open, seen, split).Throws?
    decreases |split.lines|
  {
    if split.lines != [] && split.lines[0] != "" {
      WeightSnoc(open, split.lines[0]);
      HeavyThrows(codec, open + [split.lines[0]], seen, Split(split.lines[1..], split.tail));
    }
  }

  function Prepend(line: string, rest: Split): Split {
    Split([line] + rest.lines, rest.tail)
  }

  lemma SplitLinesAt(t: string, i: nat)
    requires i < |t| && IsBreak(t[i]) && forall k | 0 <= k < i :: !IsBreak(t[k])
    ensures SplitLines(t) == Prepend(t[..i], SplitLines(t[i + BreakLength(t, i)..]))
  {
    NextBreakUnique(t, 0, i);
  }

  /** A line that takes its block over the limit is fatal. */
  lemma HeavyLine<J>(codec: Codec<J>, open: seq<string>, seen: seq<J>, line: string, rest: Split)
    requires Weight(open) + ByteLength(line) + 1 > MAX_WIRE_BYTES
    ensures OutcomeOfLines(codec, open, seen, Prepend(line, rest)).Throws?
  {
    var split := Prepend(line, rest);
    assert split.lines[1..] == rest.lines;
    if line != "" {
      WeightSnoc(open, line);
      HeavyThrows(codec, open + [line], seen, rest);
    }
  }

  lemma PlainLine<J>(codec: Codec<J>, open: seq<string>, seen: seq<J>, line: string, rest: Split)
    requires line != ""
    ensures OutcomeOfLines(codec, open, seen, Prepend(line, rest)) == OutcomeOfLines(codec, open + [line], seen, rest)
  {
    assert Prepend(line, rest).lines[1..] == rest.lines;
  }

  lemma BlankLine<J>(codec: Codec<J>, open: seq<string>, seen: seq<J>, rest: Split)
    requires Weight(open) + 1 <= MAX_WIRE_BYTES
    ensures OutcomeOfLines(codec, open, seen, Prepend("", rest)) ==
            if open == [] then OutcomeOfLines(codec, [], seen, rest) else
              match Emit(codec, open, seen)
              case None => Throws
              case Some((lines, after)) => After([Frame(lines)], OutcomeOfLines(codec, [], after, rest))
  {
    var split := Prepend("", rest);
    assert split.lines[1..] == rest.lines;
    var g := Group([], rest.lines);
    assert ([open] + g.blocks)[1..] == g.blocks;
  }

  lemma BreakKept(text: string, i: nat, more: string, final: bool)
    requires i == NextBreak(text, 0) && Consumable(text, i, final) && (final ==> more == "")
    ensures NextBreak(text + more, 0) == i && BreakLength(text + more, i) == BreakLength(text, i)
  {
    assert forall k | 0 <= k <= i :: (text + more)[k] == text[k];
    NextBreakUnique(text + more, 0, i);
  }

  /** Cutting a text before `more` does not move the line breaks that may be consumed. */
  lemma CutAt(text: string, i: nat, more: string, final: bool)
    requires i == NextBreak(text, 0) && Consumable(text, i, final) && (final ==> more == "")
    ensures SplitLines(text + more) == Prepend(text[..i], SplitLines(text[i + BreakLength(text, i)..] + more))
  {
    var whole, n := text + more, i + BreakLength(text, i);
    BreakKept(text, i, more, final);
    DropConcat(text, n, more);
    SplitLinesAt(whole, i);
    assert whole[..i] == text[..i] && whole[n..] == text[n..] + more;
  }

  lemma DropConcat(a: string, n: nat, b: string)
    requires n <= |a|
    ensures (a + b)[n..] == a[n..] + b
  {
  }

  lemma AfterAfter<J>(a: seq<string>, b: seq<string>, rest: Outcome<J>)
    ensures After(a, After(b, rest)) == After(a + b, rest)
  {
    if rest.Done? {
      assert a + (b + rest.frames) == a + b + rest.frames;
    }
  }

  lemma WorthSplit<J>(codec: Codec<J>, s: Scan<J>, more: string, split: Split)
    requires s.Live? && split == SplitLines(s.text + more)
    ensures Worth(codec, s, more) == After(s.frames, OutcomeOfLines(codec, s.lines, s.seen, split))
  {
  }

  lemma AbsorbBlank<J>(codec: Codec<J>, s: Scan<J>, rest: string, more: string)
    requires s.Live? && Coherent(s) && s.bytes + 1 <= MAX_WIRE_BYTES
    ensures Worth(codec, Absorb(codec, s, "", rest), more) ==
            After(s.frames, OutcomeOfLines(codec, s.lines, s.seen, Prepend("", SplitLines(rest + more))))
  {
    var split := SplitLines(rest + more);
    BlankLine(codec, s.lines, s.seen, split);
    match Emit(codec, s.lines, s.seen)
    case None =>
    case Some((out, seen)) =>
      AfterAfter(s.frames, [Frame(out)], OutcomeOfLines(codec, [], seen, split));
  }

  lemma AbsorbPlain<J>(codec: Codec<J>, s: Scan<J>, line: string, rest: string, more: string)
    requires s.Live? && Coherent(s) && line != "" && s.bytes + ByteLength(line) + 1 <= MAX_WIRE_BYTES
    ensures Coherent(Absorb(codec, s, line, rest))
    ensures Worth(codec, Absorb(codec, s, line, rest), more) ==
            After(s.frames, OutcomeOfLines(codec, s.lines, s.seen, Prepend(line, SplitLines(rest + more))))
  {
    var next := Live(rest, s.lines + [line], s.bytes + ByteLength(line) + 1, s.frames, s.seen);
    WeightSnoc(s.lines, line);
    assert Absorb(codec, s, line, rest) == next;
    PlainLine(codec, s.lines, s.seen, line, SplitLines(rest + more));
    WorthSplit(codec, next, more, SplitLines(rest + more));
  }

  /** Absorbing one line keeps the worth of the state, whatever follows. */
  lemma AbsorbWorth<J>(codec: Codec<J>, s: Scan<J>, line: string, rest: string, more: string)
    requires s.Live? && Coherent(s)
    ensures Coherent(Absorb(codec, s, line, rest))
    ensures Worth(codec, Absorb(codec, s, line, rest), more) ==
            After(s.frames, OutcomeOfLines(codec, s.lines, s.seen, Prepend(line, SplitLines(rest + more))))
  {
    if s.bytes + ByteLength(line) + 1 > MAX_WIRE_BYTES {
      HeavyLine(codec, s.lines, s.seen, line, SplitLines(rest + more));
    } else if line != "" {
      AbsorbPlain(codec, s, line, rest, more);
    } else {
      AbsorbBlank(codec, s, rest, more);
    }
  }

  lemma TakenWorth<J>(codec: Codec<J>, s: Scan<J>, line: string, rest: string, more: string)
    requires s.Live? && Coherent(s) && SplitLines(s.text + more) == Prepend(line, SplitLines(rest + more))
    ensures Coherent(Absorb(codec, s, line, rest))
    ensures Worth(codec, Absorb(codec, s, line, rest), more) == Worth(codec, s, more)
  {
    WorthSplit(codec, s, more, Prepend(line, SplitLines(rest + more)));
    AbsorbWorth(codec, s, line, rest, more);
  }

  lemma TakeLineWorth<J>(codec: Codec<J>, s: Scan<J>, i: nat, more: string, final: bool)
    requires s.Live? && Coherent(s) && (final ==> more == "")
    requires i == NextBreak(s.text, 0) && Consumable(s.text, i, final)
    ensures Coherent(TakeLine(codec, s, i))
    ensures Worth(codec, TakeLine(codec, s, i), more) == Worth(codec, s, more)
  {
    CutAt(s.text, i, more, final);
    TakenWorth(codec, s, s.text[..i], s.text[i + BreakLength(s.text, i)..], more);
  }

  /** The line that the unconsumed text begins is at least as heavy as that text. */
  lemma HeldLine(text: string, more: string, final: bool)
    requires !Consumable(text, NextBreak(text, 0), final) && (final ==> more == "")
    ensures var j := NextBreak(text + more, 0);
            j < |text + more| ==> ByteLength((text + more)[..j]) + 1 >= ByteLength(text)
  {
    var whole := text + more;
    var i, j := NextBreak(text, 0), NextBreak(whole, 0);
    if j < |whole| {
      var line := whole[..j];
      if j < |text| {
        assert forall k | 0 <= k < j :: text[k] == whole[k];
        NextBreakUnique(text, 0, j);
        // The held-back CR itself ends the line.
        assert text == line + "\r";
        ByteLengthConcat(line, "\r");
      } else {
        assert line == text + line[|text|..];
        ByteLengthConcat(text, line[|text|..]);
      }
    }
  }

  /** When no line can be taken and the limit is exceeded, the stream is lost whatever follows. */
  lemma OverflowThrows<J>(codec: Codec<J>, s: Scan<J>, more: string, final: bool)
    requires s.Live? && Coherent(s) && (final ==> more == "")
    requires !Consumable(s.text, NextBreak(s.text, 0), final)
    requires s.bytes + ByteLength(s.text) > MAX_WIRE_BYTES
    ensures Worth(codec, s, more).Throws?
  {
    var whole := s.text + more;
    var j := NextBreak(whole, 0);
    if j < |whole| {
      HeldLine(s.text, more, final);
      SplitLinesAt(whole, j);
      HeavyLine(codec, s.lines, s.seen, whole[..j], SplitLines(whole[j + BreakLength(whole, j)..]));
    } else {
      assert whole != "";
    }
  }

  /** Consuming keeps the worth of a state, for every continuation of the stream. */
  lemma {:induction false} ConsumedWorth<J>(codec: Codec<J>, s: Scan<J>, final: bool, more: string)
    requires Coherent(s) && (final ==> more == "")
    ensures Coherent(Consumed(codec, s, final))
    ensures Worth(codec, Consumed(codec, s, final), more) == Worth(codec, s, more)
    decreases if s.Live? then |s.text| + 1 else 0
  {
    if s.Live? {
      var i := NextBreak(s.text, 0);
      if Consumable(s.text, i, final) {
        TakeLineWorth(codec, s, i, more, final);
        ConsumedWorth(codec, TakeLine(codec, s, i), final, more);
      } else if s.bytes + ByteLength(s.text) > MAX_WIRE_BYTES {
        OverflowThrows(codec, s, more, final);
      }
    }
  }

  // ---------------------------------------------------------------- whole streams

  /** Decoder and scanner between two calls. */
  datatype Feed<D, J> = Feed(d: D, scan: Scan<J>)

  function Pushed<D, J>(decoder: Decoder<D>, codec: Codec<J>, f: Feed<D, J>, bytes: seq<Byte>): Feed<D, J> {
    match f.scan
    case Dead => f
    case Live(text, _, _, _, _) =>
      match Decode(decoder, f.d, bytes)
      case None => Feed(f.d, Dead)
      case Some((d, more)) => Feed(d, Consumed(codec, f.scan.(text := text + more), false))
  }

  function PushedAll<D, J>(decoder: Decoder<D>, codec: Codec<J>, chunks: seq<seq<Byte>>): Feed<D, J> {
    if chunks == [] then Feed(decoder.start, Live("", [], 0, [], [])) else
      Pushed(decoder, codec, PushedAll(decoder, codec, chunks[..|chunks| - 1]), chunks[|chunks| - 1])
  }

  function Ended<D, J>(decoder: Decoder<D>, codec: Codec<J>, f: Feed<D, J>): Outcome<J> {
    if f.scan.Dead? || !decoder.complete(f.d) then Throws else
      match Consumed(codec, f.scan, true)
      case Dead => Throws
      case Live(text, lines, _, frames, seen) =>
        if text != "" || exists k | 0 <= k < |lines| :: !IsComment(lines[k]) then Throws else Done(frames, seen)
  }

  function Flatten(chunks: seq<seq<Byte>>): seq<Byte> {
    if chunks == [] then [] else Flatten(chunks[..|chunks| - 1]) + chunks[|chunks| - 1]
  }

  lemma {:induction false} DecodeConcat<D>(decoder: Decoder<D>, d: D, a: seq<Byte>, b: seq<Byte>)
    ensures Decode(decoder, d, a + b) ==
            match Decode(decoder, d, a)
            case None => None
            case Some((mid, text)) =>
              match Decode(decoder, mid, b)
              case None => None
              case Some((end, more)) => Some((end, text + more))
  {
    if b == [] {
      assert a + b == a;
      match Decode(decoder, d, a)
      case None =>
      case Some((mid, text)) => assert text + "" == text;
    } else {
      var init, last := b[..|b| - 1], b[|b| - 1];
      assert (a + b)[..|a + b| - 1] == a + init;
      DecodeConcat(decoder, d, a, init);
      match Decode(decoder, d, a)
      case None =>
      case Some((mid, text)) =>
        match Decode(decoder, mid, init)
        case None =>
        case Some((end, more)) =>
          match decoder.step(end, last)
          case None =>
          case Some((final, extra)) => assert text + (more + extra) == text + more + extra;
    }
  }

  /** One push keeps the worth of the scanner: the decoded text moves from the future to the past. */
  lemma PushedWorth<D, J>(decoder: Decoder<D>, codec: Codec<J>, f: Feed<D, J>, bytes: seq<Byte>, more: string)
    requires Coherent(f.scan)
    ensures var g := Pushed(decoder, codec, f, bytes);
            Coherent(g.scan) &&
            match Decode(decoder, f.d, bytes)
            case None => g.scan.Dead?
            case Some((d, extra)) =>
              (g.scan.Live? ==> g.d == d) && Worth(codec, g.scan, more) == Worth(codec, f.scan, extra + more)
  {
    match Decode(decoder, f.d, bytes)
    case None =>
    case Some((_, extra)) =>
      if f.scan.Live? {
        var s := f.scan.(text := f.scan.text + extra);
        assert f.scan.text + (extra + more) == s.text + more;
        ConsumedWorth(codec, s, false, more);
      }
  }

  /** The scanner is worth what the one-shot parser makes of the text decoded so far and of `more`. */
  ghost predicate InStep<D, J>(decoder: Decoder<D>, codec: Codec<J>, f: Feed<D, J>, bytes: seq<Byte>, more: string) {
    Coherent(f.scan) &&
    match Decode(decoder, decoder.start, bytes)
    case None => f.scan.Dead?
    case Some((d, text)) => (f.scan.Live? ==> f.d == d) && Worth(codec, f.scan, more) == Reference(codec, text + more)
  }

  lemma ShiftReference<J>(codec: Codec<J>, text: string, extra: string, more: string)
    ensures Reference(codec, text + (extra + more)) == Reference(codec, text + extra + more)
  {
    assert text + (extra + more) == text + extra + more;
  }

  lemma PushInStep<D, J>(decoder: Decoder<D>, codec: Codec<J>, f: Feed<D, J>, bytes: seq<Byte>, last: seq<Byte>, more: string)
    requires forall rest: string :: InStep(decoder, codec, f, bytes, rest)
    ensures InStep(decoder, codec, Pushed(decoder, codec, f, last), bytes + last, more)
  {
    var g := Pushed(decoder, codec, f, last);
    assert InStep(decoder, codec, f, bytes, more);
    DecodeConcat(decoder, decoder.start, bytes, last);
    PushedWorth(decoder, codec, f, last, more);
    match Decode(decoder, decoder.start, bytes)
    case None =>
    case Some((mid, text)) =>
      match Decode(decoder, mid, last)
      case None =>
      case Some((_, extra)) =>
        assert InStep(decoder, codec, f, bytes, extra + more);
        ShiftReference(codec, text, extra, more);
  }

  lemma {:induction false} PushedAllWorth<D, J>(decoder: Decoder<D>, codec: Codec<J>, chunks: seq<seq<Byte>>, more: string)
    ensures InStep(decoder, codec, PushedAll(decoder, codec, chunks), Flatten(chunks), more)
  {
    if chunks == [] {
      assert "" + more == more;
      var r := Reference(codec, more);
      assert After([], r) == r by { if r.Done? { assert [] + r.frames == r.frames; } }
    } else {
      var init, last := chunks[..|chunks| - 1], chunks[|chunks| - 1];
      forall rest: string
        ensures InStep(decoder, codec, PushedAll(decoder, codec, init), Flatten(init), rest)
      {
        PushedAllWorth(decoder, codec, init, rest);
      }
      PushInStep(decoder, codec, PushedAll(decoder, codec, init), Flatten(init), last, more);
    }
  }

  lemma {:induction false} ConsumedAtEnd<J>(codec: Codec<J>, s: Scan<J>)
    requires Coherent(s)
    ensures var e := Consumed(codec, s, true); e.Live? ==> NextBreak(e.text, 0) == |e.text|
    decreases if s.Live? then |s.text| + 1 else 0
  {
    if s.Live? && NextBreak(s.text, 0) < |s.text| {
      TakeLineWorth(codec, s, NextBreak(s.text, 0), "", true);
      ConsumedAtEnd(codec, TakeLine(codec, s, NextBreak(s.text, 0)));
    }
  }

  /** The incremental parser computes the one-shot parser, for every cutting of the bytes. */
  lemma ChunkingIsInvisible<D, J>(decoder: Decoder<D>, codec: Codec<J>, chunks: seq<seq<Byte>>)
    ensures Ended(decoder, codec, PushedAll(decoder, codec, chunks)) == ReferenceBytes(decoder, codec, Flatten(chunks))
  {
    var f := PushedAll(decoder, codec, chunks);
    PushedAllWorth(decoder, codec, chunks, "");
    match Decode(decoder, decoder.start, Flatten(chunks))
    case None =>
    case Some((d, text)) =>
      assert text + "" == text;
      if f.scan.Live? && decoder.complete(d) {
        ConsumedWorth(codec, f.scan, true, "");
        ConsumedAtEnd(codec, f.scan);
        match Consumed(codec, f.scan, true)
        case Dead =>
        case Live(rest, lines, _, frames, seen) =>
          assert rest + "" == rest;
          assert frames + [] == frames;
      }
  }

  /** Two cuttings of one stream fail together or print the same frames and show the same messages. */
  lemma AnyTwoChunkings<D, J>(decoder: Decoder<D>, codec: Codec<J>, one: seq<seq<Byte>>, two: seq<seq<Byte>>)
    requires Flatten(one) == Flatten(two)
    ensures Ended(decoder, codec, PushedAll(decoder, codec, one)) == Ended(decoder, codec, PushedAll(decoder, codec, two))
  {
    ChunkingIsInvisible(decoder, codec, one);
    ChunkingIsInvisible(decoder, codec, two);
  }

  // ---------------------------------------------------------------- printing and reparsing

  /** JSON objects print on one line and parse back; the empty text is not JSON. */
  ghost predicate Printable<J(!new)>(codec: Codec<J>) {
    && codec.parse("") == None
    && (forall v :: codec.parse(codec.print_(v)) == Some(v))
    && (forall v :: NoBreak(codec.print_(v)))
  }

  /** The same JSON, left alone by the callback. */
  function Verbatim<J>(codec: Codec<J>): Codec<J> {
    codec.(rewrite := (history: seq<J>) => if history == [] then None else Some(history[|history| - 1]))
  }

  /** Lines that survive printing: not blank, no line break inside. */
  predicate Clean(lines: seq<string>) {
    NoBlank(lines) && Unbroken(lines)
  }

  predicate Unbroken(lines: seq<string>) {
    forall k | 0 <= k < |lines| :: NoBreak(lines[k])
  }

  predicate AllClean(blocks: seq<seq<string>>) {
    forall k | 0 <= k < |blocks| :: Clean(blocks[k])
  }

  function PrependAll(lines: seq<string>, rest: Split): Split {
    Split(lines + rest.lines, rest.tail)
  }

  lemma OneLineSplits(line: string, rest: string)
    requires NoBreak(line)
    ensures SplitLines(line + "\n" + rest) == Prepend(line, SplitLines(rest))
  {
    var t := line + "\n" + rest;
    assert t[|line|] == '\n' && forall k | 0 <= k < |line| :: t[k] == line[k];
    SplitLinesAt(t, |line|);
    assert t[..|line|] == line && t[|line| + 1..] == rest;
  }

  lemma PrependTwice(lines: seq<string>, rest: Split)
    requires lines != []
    ensures Prepend(lines[0], PrependAll(lines[1..], rest)) == PrependAll(lines, rest)
  {
  }

  lemma {:induction false} TerminatedSplits(lines: seq<string>, rest: string)
    requires Clean(lines)
    ensures SplitLines(Terminated(lines) + rest) == PrependAll(lines, SplitLines(rest))
  {
    if lines == [] {
      assert Terminated(lines) + rest == rest;
    } else {
      assert Terminated(lines) + rest == lines[0] + "\n" + (Terminated(lines[1..]) + rest);
      OneLineSplits(lines[0], Terminated(lines[1..]) + rest);
      TerminatedSplits(lines[1..], rest);
      PrependTwice(lines, SplitLines(rest));
    }
  }

  lemma {:induction false} ReadLines<J>(codec: Codec<J>, open: seq<string>, seen: seq<J>, lines: seq<string>, rest: Split)
    requires NoBlank(lines)
    ensures OutcomeOfLines(codec, open, seen, PrependAll(lines, rest)) == OutcomeOfLines(codec, open + lines, seen, rest)
    decreases |lines|
  {
    if lines == [] {
      assert open + lines == open && PrependAll(lines, rest) == rest;
    } else {
      assert PrependAll(lines, rest) == Prepend(lines[0], PrependAll(lines[1..], rest));
      PlainLine(codec, open, seen, lines[0], PrependAll(lines[1..], rest));
      ReadLines(codec, open + [lines[0]], seen, lines[1..], rest);
      assert open + [lines[0]] + lines[1..] == open + lines;
    }
  }

  lemma FrameSplits(lines: seq<string>, rest: string)
    requires Clean(lines) && lines != []
    ensures SplitLines(Frame(lines) + rest) == PrependAll(lines, Prepend("", SplitLines(rest)))
  {
    JoinTerminated(lines);
    assert Frame(lines) == Join(lines) + "\n" + "\n";
    assert Frame(lines) + rest == Terminated(lines) + ("" + "\n" + rest);
    TerminatedSplits(lines, "" + "\n" + rest);
    OneLineSplits("", rest);
  }

  /** A printed frame at the head of a text is read back as one block. */
  lemma FrameReparsed<J>(codec: Codec<J>, lines: seq<string>, seen: seq<J>, rest: string)
    requires Clean(lines) && lines != []
    ensures OutcomeFrom(codec, [], seen, Frame(lines) + rest) ==
            if ByteLength(Frame(lines)) > MAX_WIRE_BYTES then Throws else
              match Emit(codec, lines, seen)
              case None => Throws
              case Some((out, after)) => After([Frame(out)], OutcomeFrom(codec, [], after, rest))
  {
    FrameSplits(lines, rest);
    var split := SplitLines(rest);
    ReadLines(codec, [], seen, lines, Prepend("", split));
    assert [] + lines == lines;
    FrameWeight(lines);
    if Weight(lines) + 1 > MAX_WIRE_BYTES {
      HeavyLine(codec, lines, seen, "", split);
    } else {
      BlankLine(codec, lines, seen, split);
    }
  }

  lemma {:induction false} RetainedClean(lines: seq<string>)
    requires Clean(lines)
    ensures Clean(Retained(lines)) && Payloads(Retained(lines)) == [] && Retained(Retained(lines)) == Retained(lines)
  {
    if lines != [] {
      RetainedClean(lines[1..]);
      if !IsData(lines[0]) {
        assert Retained(lines)[0] == lines[0] && Retained(lines)[1..] == Retained(lines[1..]);
      }
    }
  }

  lemma {:induction false} RetainedSnoc(lines: seq<string>, line: string)
    requires IsData(line)
    ensures Retained(lines + [line]) == Retained(lines)
    ensures Payloads(lines + [line]) == Payloads(lines) + [Payload(line)]
  {
    if lines != [] {
      assert (lines + [line])[1..] == lines[1..] + [line];
      RetainedSnoc(lines[1..], line);
    } else {
      assert lines + [line] == [line];
    }
  }

  /** A data line printed from `w`, after lines that hold no data, is read back as `w`. */
  lemma DataReadBack<J(!new)>(codec: Codec<J>, retained: seq<string>, w: J, history: seq<J>)
    requires Printable(codec) && Payloads(retained) == [] && Retained(retained) == retained
    ensures Emit(Verbatim(codec), retained + ["data: " + codec.print_(w)], history) ==
            Some((retained + ["data: " + codec.print_(w)], history + [w]))
  {
    var json := codec.print_(w);
    var data := "data: " + json;
    assert data[5..] == " " + json && data[5..][1..] == json;
    RetainedSnoc(retained, data);
    assert Payloads(retained + [data]) == [json];
    assert codec.parse(json) == Some(w);
    assert (history + [w])[|history + [w]| - 1] == w;
  }

  /** The history of the second reading after one block. */
  ghost function Answered<J>(codec: Codec<J>, seen: seq<J>, after: seq<J>, history: seq<J>): seq<J> {
    if after == seen || codec.rewrite(after).None? then history else history + [codec.rewrite(after).value]
  }

  /** A printed block is a fixed point of printing: read back verbatim, it prints the same lines. */
  lemma EmitTwice<J(!new)>(codec: Codec<J>, block: seq<string>, seen: seq<J>, history: seq<J>)
    requires Printable(codec) && Clean(block) && block != []
    requires Emit(codec, block, seen).Some?
    ensures var (lines, after) := Emit(codec, block, seen).value;
            Clean(lines) && lines != [] &&
            (after == seen || (|after| == |seen| + 1 && seen <= after && codec.rewrite(after).Some?)) &&
            Emit(Verbatim(codec), lines, history) == Some((lines, Answered(codec, seen, after, history)))
  {
    var after := Emit(codec, block, seen).value.1;
    if Join(Payloads(block)) != "" {
      RetainedClean(block);
      DataReadBack(codec, Retained(block), codec.rewrite(after).value, history);
    }
  }

  /** What the callback answered for the messages from index `from` on. */
  function Answers<J>(codec: Codec<J>, seen: seq<J>, from: nat): seq<J>
    decreases |seen| - from
  {
    if from >= |seen| then [] else
      match codec.rewrite(seen[..from + 1])
      case None => []
      case Some(w) => [w] + Answers(codec, seen, from + 1)
  }

  predicate Fits(frames: seq<string>) {
    forall k | 0 <= k < |frames| :: ByteLength(frames[k]) <= MAX_WIRE_BYTES
  }

  /** The outcome of reading printed frames back: themselves, unless one exceeds the limit. */
  function Echo<J>(frames: seq<string>, history: seq<J>): Outcome<J> {
    if Fits(frames) then Done(frames, history) else Throws
  }

  lemma EchoStep<J>(frame: string, frames: seq<string>, history: seq<J>)
    ensures Echo([frame] + frames, history) ==
            if ByteLength(frame) > MAX_WIRE_BYTES then Throws else After([frame], Echo(frames, history))
  {
    var all := [frame] + frames;
    assert all[0] == frame && forall k | 0 <= k < |frames| :: all[k + 1] == frames[k];
  }

  lemma {:induction false} RenderExtends<J(!new)>(codec: Codec<J>, blocks: seq<seq<string>>, seen: seq<J>)
    ensures var r := Render(codec, blocks, seen); r.Done? ==> seen <= r.seen
    decreases |blocks|
  {
    if blocks != [] {
      RenderExtends(codec, blocks[1..], seen);
      if Emit(codec, blocks[0], seen).Some? {
        RenderExtends(codec, blocks[1..], Emit(codec, blocks[0], seen).value.1);
      }
    }
  }

  lemma AnswersStep<J>(codec: Codec<J>, all: seq<J>, from: nat, after: seq<J>)
    requires from < |all| && after == all[..from + 1] && codec.rewrite(after).Some?
    ensures Answers(codec, all, from) == [codec.rewrite(after).value] + Answers(codec, all, from + 1)
  {
  }

  lemma Reassociate<T>(a: seq<T>, b: seq<T>, c: seq<T>)
    ensures a + b + c == a + (b + c)
  {
  }

  lemma AnsweredThenAnswers<J>(codec: Codec<J>, seen: seq<J>, after: seq<J>, all: seq<J>, history: seq<J>)
    requires after == seen || (|after| == |seen| + 1 && codec.rewrite(after).Some?)
    requires after <= all
    ensures Answered(codec, seen, after, history) + Answers(codec, all, |after|) == history + Answers(codec, all, |seen|)
  {
    if after == seen {
      assert Answered(codec, seen, after, history) == history;
    } else {
      var w := codec.rewrite(after).value;
      assert Answered(codec, seen, after, history) == history + [w];
      AnswersStep(codec, all, |seen|, after);
      Reassociate(history, [w], Answers(codec, all, |after|));
    }
  }

  /** Reading a printed block and then its successors, given what the successors read as. */
  lemma BlockReparsed<J>(codec: Codec<J>, lines: seq<string>, history: seq<J>, after: seq<J>, frames: seq<string>, end: seq<J>)
    requires Clean(lines) && lines != []
    requires Emit(codec, lines, history) == Some((lines, after))
    requires OutcomeFrom(codec, [], after, Concat(frames)) == Echo(frames, end)
    ensures OutcomeFrom(codec, [], history, Concat([Frame(lines)] + frames)) == Echo([Frame(lines)] + frames, end)
  {
    var frame := Frame(lines);
    FrameReparsed(codec, lines, history, Concat(frames));
    EchoStep(frame, frames, end);
    assert Concat([frame] + frames) == frame + Concat(frames) by {
      assert ([frame] + frames)[1..] == frames;
    }
  }

  lemma {:induction false} RenderReparsed<J(!new)>(codec: Codec<J>, blocks: seq<seq<string>>, seen: seq<J>, history: seq<J>)
    requires Printable(codec) && AllClean(blocks)
    requires Render(codec, blocks, seen).Done?
    ensures var r := Render(codec, blocks, seen);
            OutcomeFrom(Verbatim(codec), [], history, Concat(r.frames)) ==
            Echo(r.frames, history + Answers(codec, r.seen, |seen|))
    decreases |blocks|
  {
    if blocks == [] {
      assert history + [] == history;
      assert SplitLines("") == Split([], "");
    } else if blocks[0] == [] {
      RenderReparsed(codec, blocks[1..], seen, history);
    } else {
      var (lines, after) := Emit(codec, blocks[0], seen).value;
      var rest := Render(codec, blocks[1..], after);
      RenderExtends(codec, blocks[1..], after);
      EmitTwice(codec, blocks[0], seen, history);
      RenderReparsed(codec, blocks[1..], after, Answered(codec, seen, after, history));
      AnsweredThenAnswers(codec, seen, after, rest.seen, history);
      BlockReparsed(Verbatim(codec), lines, history, Answered(codec, seen, after, history), rest.frames,
                    history + Answers(codec, rest.seen, |seen|));
    }
  }

  lemma {:induction false} SplitLinesClean(t: string)
    ensures Unbroken(SplitLines(t).lines)
    decreases |t|
  {
    var i := NextBreak(t, 0);
    if i < |t| {
      SplitLinesClean(t[i + BreakLength(t, i)..]);
    }
  }

  lemma {:induction false} GroupClean(open: seq<string>, lines: seq<string>)
    requires Clean(open) && Unbroken(lines)
    ensures AllClean(Group(open, lines).blocks)
    decreases |lines|
  {
    if lines != [] {
      if lines[0] != "" {
        GroupClean(open + [lines[0]], lines[1..]);
      } else {
        GroupClean([], lines[1..]);
        var rest := Group([], lines[1..]);
        assert Group(open, lines).blocks == [open] + rest.blocks;
      }
    }
  }

  /**
    Printed frames reparse.  Whatever the callback did, reading the concatenated output back
    verbatim prints exactly the same frames and shows exactly the callback's answers, if and only
    if every printed frame is within the byte limit; otherwise it throws.
   */
  lemma PrintedFramesReparse<J(!new)>(codec: Codec<J>, text: string)
    requires Printable(codec) && Reference(codec, text).Done?
    ensures var r := Reference(codec, text);
            Reference(Verbatim(codec), Concat(r.frames)) == Echo(r.frames, Answers(codec, r.seen, 0))
  {
    var r := Reference(codec, text);
    SplitLinesClean(text);
    GroupClean([], SplitLines(text).lines);
    RenderReparsed(codec, Group([], SplitLines(text).lines).blocks, [], []);
    assert [] + Answers(codec, r.seen, 0) == Answers(codec, r.seen, 0);
  }

  /** A verbatim rewriter run on its own output is a fixed point, exactly when that output fits. */
  lemma VerbatimFixedPoint<J(!new)>(codec: Codec<J>, text: string)
    requires Printable(codec) && Reference(Verbatim(codec), text).Done?
    ensures var r := Reference(Verbatim(codec), text);
            Reference(Verbatim(codec), Concat(r.frames)) == r <==> Fits(r.frames)
  {
    var r := Reference(Verbatim(codec), text);
    PrintedFramesReparse(Verbatim(codec), text);
    VerbatimAnswers(codec, r.seen, 0);
    assert r.seen[0..] == r.seen;
    assert Verbatim(Verbatim(codec)) == Verbatim(codec);
  }

  lemma {:induction false} VerbatimAnswers<J>(codec: Codec<J>, seen: seq<J>, from: nat)
    requires from <= |seen|
    ensures Answers(Verbatim(codec), seen, from) == seen[from..]
    decreases |seen| - from
  {
    if from < |seen| {
      VerbatimAnswers(codec, seen, from + 1);
    }
  }

  // ---------------------------------------------------------------- a stream that prints too long

  /** A data line without the optional space after the colon; it is printed with one. */
  function Tight<J>(codec: Codec<J>, v: J): string { "data:" + codec.print_(v) }

  lemma TightIsClean<J(!new)>(codec: Codec<J>, v: J)
    requires Printable(codec)
    ensures Clean([Tight(codec, v)])
  {
    var line := Tight(codec, v);
    forall k | 0 <= k < |line|
      ensures !IsBreak(line[k])
    {
      if k >= 5 {
        assert line[k] == codec.print_(v)[k - 5];
      }
    }
  }

  lemma TightEmits<J(!new)>(codec: Codec<J>, v: J)
    requires Printable(codec) && !(" " <= codec.print_(v))
    ensures Emit(Verbatim(codec), [Tight(codec, v)], []) == Some((["data: " + codec.print_(v)], [v]))
  {
    var line := Tight(codec, v);
    assert IsData(line) && line[5..] == codec.print_(v);
    assert Payload(line) == codec.print_(v);
    var block := [line];
    assert block[1..] == [];
    assert Payloads([line]) == [codec.print_(v)] && Retained([line]) == [];
    var json := codec.print_(v);
    assert Join([json]) == json && codec.parse(json) == Some(v) && json != "";
    assert [] + [v] == [v] && [] + ["data: " + json] == ["data: " + json];
    assert Verbatim(codec).rewrite([v]) == Some(v);
  }

  /**
    A message one byte short of the limit, sent without the optional space: the identity rewriter
    accepts the stream, and the frame it prints is one byte too long to be read back.
   */
  lemma AddedSpaceOutgrowsTheLimit<J(!new)>(codec: Codec<J>, v: J)
    requires Printable(codec) && !(" " <= codec.print_(v)) && ByteLength(codec.print_(v)) == MAX_WIRE_BYTES - 7
    ensures var r := Reference(Verbatim(codec), Frame([Tight(codec, v)]));
            && r == Done([Frame(["data: " + codec.print_(v)])], [v])
            && ByteLength(r.frames[0]) == MAX_WIRE_BYTES + 1 && !Fits(r.frames)
            && Reference(Verbatim(codec), Concat(r.frames)) == Throws
  {
    var line, printed := Tight(codec, v), "data: " + codec.print_(v);
    TightIsClean(codec, v);
    TightEmits(codec, v);
    ByteLengthConcat("data:", codec.print_(v));
    ByteLengthConcat("data: ", codec.print_(v));
    FiveAndSix();
    OneLineFrame(line);
    OneLineFrame(printed);
    FrameReparsed(Verbatim(codec), [line], [], "");
    assert Frame([line]) + "" == Frame([line]);
    NothingLeft(Verbatim(codec), [v]);
    var r := Reference(Verbatim(codec), Frame([line]));
    assert r == Done([Frame([printed])], [v]);
    assert !Fits(r.frames) by { assert ByteLength(r.frames[0]) > MAX_WIRE_BYTES; }
    PrintedFramesReparse(Verbatim(codec), Frame([line]));
  }

  lemma FiveAndSix()
    ensures ByteLength("data:") == 5 && ByteLength("data: ") == 6 && ByteLength("\n\n") == 2
  {
    ByteLengthConcat("dat", "a:");
    ByteLengthConcat("d", "at");
    ByteLengthConcat("a", "t");
    ByteLengthConcat("a", ":");
    ByteLengthConcat("data:", " ");
    ByteLengthConcat("\n", "\n");
    assert "dat" + "a:" == "data:" && "d" + "at" == "dat" && "a" + "t" == "at" && "a" + ":" == "a:";
    assert "data:" + " " == "data: " && "\n" + "\n" == "\n\n";
    forall c: char | c == 'd' || c == 'a' || c == 't' || c == ':' || c == ' ' || c == '\n'
      ensures ByteLength([c]) == 1
    {
      assert [c][..0] == "";
    }
  }

  lemma OneLineFrame(line: string)
    ensures ByteLength(Frame([line])) == ByteLength(line) + 2
  {
    FiveAndSix();
    ByteLengthConcat(line, "\n\n");
  }

  lemma NothingLeft<J>(codec: Codec<J>, seen: seq<J>)
    ensures OutcomeFrom(codec, [], seen, "") == Done([], seen)
  {
  }

  /** Messages that are numbers written in unary: a printer whose output has any length. */
  function Strokes(n: nat): string { if n == 0 then "x" else Strokes(n - 1) + "x" }

  function CountStrokes(s: string): Option<nat> {
    if s != "" && s == Strokes(|s| - 1) then Some(|s| - 1) else None
  }

  const UNARY: Codec<nat> := Codec(CountStrokes, Strokes, (history: seq<nat>) => None)

  lemma {:induction false} StrokesShape(n: nat)
    ensures |Strokes(n)| == n + 1 && ByteLength(Strokes(n)) == n + 1 && NoBreak(Strokes(n)) && Strokes(n)[0] == 'x'
  {
    OneStroke();
    if n > 0 {
      StrokesShape(n - 1);
      ByteLengthConcat(Strokes(n - 1), "x");
    }
  }

  lemma OneStroke()
    ensures ByteLength("x") == 1
  {
    assert "x"[..0] == "" && ByteLength("") == 0;
  }

  /** So there is a stream that the identity rewriter accepts and whose output it cannot read back. */
  lemma SomeOutputIsTooLong()
    ensures var text := Frame([Tight(UNARY, MAX_WIRE_BYTES - 8)]);
            var r := Reference(Verbatim(UNARY), text);
            Printable(UNARY) && r.Done? && !Fits(r.frames) && Reference(Verbatim(UNARY), Concat(r.frames)) == Throws
  {
    forall n: nat
      ensures CountStrokes(Strokes(n)) == Some(n) && NoBreak(Strokes(n))
    {
      StrokesShape(n);
    }
    StrokesShape(MAX_WIRE_BYTES - 8);
    AddedSpaceOutgrowsTheLimit(UNARY, MAX_WIRE_BYTES - 8);
  }

  // ---------------------------------------------------------------- the rewriter object

  class SseRewriter<D, J> {
    const decoder: Decoder<D>
    const codec: Codec<J>
    var d: D
    var text: string
    var scanFrom: nat
    var lines: seq<string>
    var frameBytes: nat
    /** Messages handed to the rewrite callback. */
    var seen: seq<J>
    /** Frames returned to the caller. */
    ghost var printed: seq<string>

    /** The resume index never skips a line break. */
    ghost predicate Valid()
      reads this
    {
      scanFrom <= |text| && forall k | 0 <= k < scanFrom :: !IsBreak(text[k])
    }

    ghost function State(): Scan<J>
      reads this
    {
      Live(text, lines, frameBytes, printed, seen)
    }

    constructor (decoder: Decoder<D>, codec: Codec<J>)
      ensures Valid() && this.decoder == decoder && this.codec == codec
      ensures d == decoder.start && State() == Live("", [], 0, [], [])
    {
      this.decoder, this.codec, d := decoder, codec, decoder.start;
      text, scanFrom, lines, frameBytes, seen, printed := "", 0, [], 0, [], [];
    }

    /** Takes the line that ends at `i`, and prints the pending block if that line is blank. */
    method Take(i: nat) returns (r: Option<seq<string>>)
      requires Valid() && i < |text| && IsBreak(text[i])
      modifies this
      ensures d == old(d)
      ensures r.None? ==> TakeLine(codec, old(State()), i).Dead?
      ensures r.Some? ==> Valid() && State() == TakeLine(codec, old(State()), i) && printed == old(printed) + r.value
      ensures |text| < |old(text)|
    {
      var line := text[..i];
      text, scanFrom := text[i + BreakLength(text, i)..], 0;
      frameBytes := frameBytes + ByteLength(line) + 1;
      if frameBytes > MAX_WIRE_BYTES {
        return None;
      }
      if line != "" {
        lines := lines + [line];
        return Some([]);
      }
      r := Some([]);
      if lines != [] {
        match Emit(codec, lines, seen)
        case None => return None;
        case Some((out, after)) =>
          r, seen, printed := Some([Frame(out)]), after, printed + [Frame(out)];
      }
      lines, frameBytes := [], 0;
    }

    /** Takes every line that is certainly complete; `None` is a throw. */
    method Consume(final: bool) returns (r: Option<seq<string>>)
      requires Valid()
      modifies this
      ensures d == old(d)
      ensures r.None? ==> Consumed(codec, old(State()), final).Dead?
      ensures r.Some? ==> Valid() && State() == Consumed(codec, old(State()), final) && printed == old(printed) + r.value
    {
      var frames: seq<string> := [];
      while true
        invariant Valid() && d == old(d)
        invariant Consumed(codec, State(), final) == Consumed(codec, old(State()), final)
        invariant printed == old(printed) + frames
        decreases |text|
      {
        var i := NextBreak(text, scanFrom);
        NextBreakUnique(text, 0, i);
        ConsumedStep(codec, State(), i, final);
        if i == |text| {
          scanFrom := |text|;
          break;
        }
        if !final && text[i] == '\r' && i + 1 == |text| {
          scanFrom := i;
          break;
        }
        var taken := Take(i);
        if taken.None? {
          return None;
        }
        Reassociate(old(printed), frames, taken.value);
        frames := frames + taken.value;
      }
      if frameBytes + ByteLength(text) > MAX_WIRE_BYTES {
        return None;
      }
      r := Some(frames);
    }

    method Push(bytes: seq<Byte>) returns (r: Option<seq<string>>)
      requires Valid()
      modifies this
      ensures r.None? ==> Pushed(decoder, codec, old(Feed(d, State())), bytes).scan.Dead?
      ensures r.Some? ==> Valid() && Feed(d, State()) == Pushed(decoder, codec, old(Feed(d, State())), bytes)
      ensures r.Some? ==> printed == old(printed) + r.value
    {
      match Decode(decoder, d, bytes)
      case None => r := None;
      case Some((d', more)) =>
        d, text := d', text + more;
        r := Consume(false);
    }

    method End() returns (r: Option<seq<string>>)
      requires Valid()
      modifies this
      ensures r.None? ==> Ended(decoder, codec, old(Feed(d, State()))).Throws?
      ensures r.Some? ==> Ended(decoder, codec, old(Feed(d, State()))) == Done(printed, seen)
      ensures r.Some? ==> printed == old(printed) + r.value
    {
      if !decoder.complete(d) {
        return None;
      }
      r := Consume(true);
      if r.Some? && (text != "" || exists k | 0 <= k < |lines| :: !IsComment(lines[k])) {
        r := None;
      }
    }
  }

  /** The forwarding loop: push every chunk, then end.  The chunks themselves leave no trace. */
  method Forward<D, J>(decoder: Decoder<D>, codec: Codec<J>, chunks: seq<seq<Byte>>) returns (outcome: Outcome<J>)
    ensures outcome == ReferenceBytes(decoder, codec, Flatten(chunks))
  {
    var parser := new SseRewriter(decoder, codec);
    var frames: seq<string> := [];
    for i := 0 to |chunks|
      invariant parser.Valid() && parser.decoder == decoder && parser.codec == codec && parser.printed == frames
      invariant Feed(parser.d, parser.State()) == PushedAll(decoder, codec, chunks[..i])
    {
      var r := parser.Push(chunks[i]);
      assert chunks[..i + 1][..i] == chunks[..i];
      if r.None? {
        DeadForever(decoder, codec, chunks, i + 1);
        ChunkingIsInvisible(decoder, codec, chunks);
        return Throws;
      }
      frames := frames + r.value;
    }
    assert chunks[..|chunks|] == chunks;
    var r := parser.End();
    outcome := if r.None? then Throws else Done(frames + r.value, parser.seen);
    ChunkingIsInvisible(decoder, codec, chunks);
  }

  lemma {:induction false} DeadForever<D, J>(decoder: Decoder<D>, codec: Codec<J>, chunks: seq<seq<Byte>>, i: nat)
    requires i <= |chunks| && PushedAll(decoder, codec, chunks[..i]).scan.Dead?
    ensures PushedAll(decoder, codec, chunks).scan.Dead?
  {
    if i == |chunks| {
      assert chunks[..i] == chunks;
    } else {
      assert chunks[..|chunks| - 1][..i] == chunks[..i];
      DeadForever(decoder, codec, chunks[..|chunks| - 1], i);
    }
  }
}
