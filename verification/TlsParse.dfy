/** The line parser of the TLS worker (pkg/agent/tlsworker/parse.go).

    What the JSON decoder and the header regular expressions make of a line is
    left open: a function from lines to kinds. The model is the state machine
    that assembles events from the lines. */
module TlsParse {
  import opened Records

  datatype Direction = Unspecified | Inbound | Outbound

  datatype TlsHeader = TlsHeader(pid: nat, process: string, direction: Direction, connID: string)

  datatype ParsedEvent = ParsedEvent(header: TlsHeader, payload: string)

  /** A header line may carry the first payload line after "Payload:", trimmed. */
  datatype LineKind = JsonLine(ev: ParsedEvent) | HeaderLine(header: TlsHeader, inline: string) | Plain

  type Classifier = string -> LineKind

  /** unicode.IsSpace */
  predicate IsSpace(c: char) {
    var n := c as int;
    9 <= n <= 13 || n == 32 || n == 0x85 || n == 0xA0 || n == 0x1680 || 0x2000 <= n <= 0x200A ||
    n == 0x2028 || n == 0x2029 || n == 0x202F || n == 0x205F || n == 0x3000
  }

  /** bytes.TrimSpace leaves nothing. */
  predicate Blank(s: string) {
    forall i | 0 <= i < |s| :: IsSpace(s[i])
  }

  // ---- The specification: split into blocks ----

  /** Continuation lines as they end up in a payload. */
  function Join(lines: seq<string>): string {
    if lines == [] then "" else lines[0] + "\n" + Join(lines[1..])
  }

  /** How many plain lines `lines` starts with. */
  function RunLength(lines: seq<string>, classify: Classifier): (k: nat)
    ensures k <= |lines|
  {
    if lines == [] || !classify(lines[0]).Plain? then 0 else 1 + RunLength(lines[1..], classify)
  }

  function FirstPayload(inline: string): string {
    if inline == "" then "" else inline + "\n"
  }

  /** A text block is emitted unless its payload is blank. */
  function Emit(ev: ParsedEvent): seq<ParsedEvent> {
    if Blank(ev.payload) then [] else [ev]
  }

  /** The event of a header line followed by `rest`. */
  function Block(header: TlsHeader, inline: string, rest: seq<string>, classify: Classifier): seq<ParsedEvent> {
    Emit(ParsedEvent(header, FirstPayload(inline) + Join(rest[..RunLength(rest, classify)])))
  }

  function Parse(lines: seq<string>, classify: Classifier): seq<ParsedEvent> {
    if lines == [] then []
    else
      match classify(lines[0])
      case JsonLine(ev) => [ev] + Parse(lines[1..], classify)
      case HeaderLine(header, inline) => Block(header, inline, lines[1..], classify) + Parse(lines[1..], classify)
      case Plain => Parse(lines[1..], classify)
  }

  // ---- The loop ----

  /** What is still to come when the block `cur` is open before `rest`. */
  function Pending(cur: Option<ParsedEvent>, rest: seq<string>, classify: Classifier): seq<ParsedEvent> {
    (if cur.None? then []
     else Emit(cur.value.(payload := cur.value.payload + Join(rest[..RunLength(rest, classify)])))) +
    Parse(rest, classify)
  }

  function Flushed(cur: Option<ParsedEvent>): seq<ParsedEvent> {
    if cur.None? then [] else Emit(cur.value)
  }

  lemma PendingAtEnd(cur: Option<ParsedEvent>, rest: seq<string>, classify: Classifier)
    requires rest == []
    ensures Pending(cur, rest, classify) == Flushed(cur)
  {
    if cur.Some? {
      assert rest[..0] == [] && cur.value.payload + Join([]) == cur.value.payload;
    }
  }

  /** A JSON or header line closes the open block before it counts itself. */
  lemma PendingAtBoundary(cur: Option<ParsedEvent>, rest: seq<string>, classify: Classifier)
    requires rest != [] && !classify(rest[0]).Plain?
    ensures Pending(cur, rest, classify) == Flushed(cur) + Parse(rest, classify)
  {
    if cur.Some? {
      assert rest[..0] == [] && cur.value.payload + Join([]) == cur.value.payload;
    }
  }

  lemma PendingAtJson(out: seq<ParsedEvent>, cur: Option<ParsedEvent>, rest: seq<string>, classify: Classifier)
    requires rest != [] && classify(rest[0]).JsonLine?
    ensures out + Pending(cur, rest, classify) ==
      out + Flushed(cur) + [classify(rest[0]).ev] + Pending(None, rest[1..], classify)
  {
    PendingAtBoundary(cur, rest, classify);
  }

  lemma PendingAtHeader(out: seq<ParsedEvent>, cur: Option<ParsedEvent>, rest: seq<string>, classify: Classifier)
    requires rest != [] && classify(rest[0]).HeaderLine?
    ensures var k := classify(rest[0]);
      out + Pending(cur, rest, classify) ==
        out + Flushed(cur) + Pending(Some(ParsedEvent(k.header, FirstPayload(k.inline))), rest[1..], classify)
  {
    PendingAtBoundary(cur, rest, classify);
  }

  lemma PendingAtPlain(cur: Option<ParsedEvent>, rest: seq<string>, classify: Classifier)
    requires rest != [] && classify(rest[0]).Plain?
    ensures Pending(cur, rest, classify) ==
      Pending(Extended(cur, rest[0]), rest[1..], classify)
  {
    if cur.Some? {
      var k := RunLength(rest[1..], classify);
      var body := Join(rest[1..][..k]);
      assert rest[..1 + k][1..] == rest[1..][..k];
      assert Join(rest[..1 + k]) == rest[0] + "\n" + body;
      assert cur.value.payload + (rest[0] + "\n" + body) == cur.value.payload + rest[0] + "\n" + body;
    }
  }

  /** flush: sends the open block unless it is blank. */
  method Flush(cur: Option<ParsedEvent>, out: seq<ParsedEvent>, accepts: nat -> bool)
    returns (out': seq<ParsedEvent>, ok: bool)
    ensures ok ==> out' == out + Flushed(cur)
    ensures !ok ==> out' == out && !accepts(|out|)
    ensures forall k | |out| <= k < |out'| :: accepts(k)
  {
    if cur.None? || Blank(cur.value.payload) {
      return out, true;
    }
    if !accepts(|out|) {
      return out, false;
    }
    return out + [cur.value], true;
  }

  /** The loop body for one line, given that `out` and what is pending make up `spec`. */
  method ParseLine(line: string, cur: Option<ParsedEvent>, out: seq<ParsedEvent>, classify: Classifier,
      accepts: nat -> bool, ghost rest: seq<string>)
    returns (cur': Option<ParsedEvent>, out': seq<ParsedEvent>, ok: bool)
    requires rest != [] && line == rest[0]
    ensures ok ==> out' + Pending(cur', rest[1..], classify) == out + Pending(cur, rest, classify)
    ensures out' <= out + Pending(cur, rest, classify)
    ensures !ok ==> !accepts(|out'|)
    ensures forall k | |out| <= k < |out'| :: accepts(k)
  {
    hide Pending, Parse, Flushed;
    match classify(line)
    case JsonLine(ev) =>
      PendingAtJson(out, cur, rest, classify);
      out', ok := Flush(cur, out, accepts);
      cur' := None;
      if ok {
        ok := accepts(|out'|);
        if ok {
          out' := out' + [ev];
        }
      }
    case HeaderLine(header, inline) =>
      PendingAtHeader(out, cur, rest, classify);
      out', ok := Flush(cur, out, accepts);
      cur' := Some(ParsedEvent(header, ""));
      if inline != "" {
        cur' := Some(ParsedEvent(header, inline + "\n"));
      }
    case Plain =>
      PendingAtPlain(cur, rest, classify);
      cur', out', ok := cur, out, true;
      if cur.Some? {
        cur' := Some(cur.value.(payload := cur.value.payload + line + "\n"));
      }
  }

  /** parseStream over the scanned lines. `cancelled(i)` tells whether the context
      is done when line `i` is looked at, `accepts(k)` whether the k-th send
      happens rather than the cancellation. The output is what the specification
      says, or a prefix of it when cancelled. */
  method ParseStream(lines: seq<string>, classify: Classifier, cancelled: nat -> bool, accepts: nat -> bool)
    returns (out: seq<ParsedEvent>, complete: bool)
    ensures out <= Parse(lines, classify)
    ensures complete ==> out == Parse(lines, classify)
    ensures forall k | 0 <= k < |out| :: accepts(k)
    ensures !complete ==> (exists i :: 0 <= i < |lines| && cancelled(i)) || !accepts(|out|)
  {
    var cur: Option<ParsedEvent> := None;
    out := [];
    ghost var spec := Parse(lines, classify);
    assert lines[0..] == lines;
    for i := 0 to |lines|
      invariant out + Pending(cur, lines[i..], classify) == spec
      invariant forall k | 0 <= k < |out| :: accepts(k)
    {
      if cancelled(i) {
        return out, false;
      }
      assert lines[i..][1..] == lines[i + 1..];
      var cur', out', ok := ParseLine(lines[i], cur, out, classify, accepts, lines[i..]);
      if !ok {
        return out', false;
      }
      cur, out := cur', out';
    }
    PendingAtEnd(cur, lines[|lines|..], classify);
    out, complete := Flush(cur, out, accepts);
  }

  // ---- What the specification means ----

  /** The line after a block's last continuation line. */
  function NextBoundary(lines: seq<string>, i: nat, classify: Classifier): (j: nat)
    requires i <= |lines|
    ensures i <= j <= |lines|
  {
    i + RunLength(lines[i..], classify)
  }

  /** From `i` to the next boundary there are plain lines only, and the boundary
      is the end or a JSON or header line. */
  lemma {:induction false} BoundaryIsNext(lines: seq<string>, i: nat, classify: Classifier)
    requires i <= |lines|
    ensures var j := NextBoundary(lines, i, classify);
      && (forall k | i <= k < j :: classify(lines[k]).Plain?)
      && (j < |lines| ==> !classify(lines[j]).Plain?)
    decreases |lines| - i
  {
    if i < |lines| && classify(lines[i]).Plain? {
      BoundaryIsNext(lines, i + 1, classify);
      assert lines[i..][1..] == lines[i + 1..];
    }
  }

  /** The event that line `i` begins: a JSON line its own, a header line that of
      its block, whose text is exactly the lines up to the next boundary. */
  function EventOfLine(lines: seq<string>, i: nat, classify: Classifier): seq<ParsedEvent>
    requires i < |lines|
  {
    match classify(lines[i])
    case JsonLine(ev) => [ev]
    case HeaderLine(header, inline) =>
      var first := if inline == "" then "" else inline + "\n";
      var text := first + Join(lines[i + 1..NextBoundary(lines, i + 1, classify)]);
      if Blank(text) then [] else [ParsedEvent(header, text)]
    case Plain => []
  }

  /** The lines of a text, each ended by a newline. */
  function Lines(text: string): seq<string> {
    if text == "" then []
    else if text[0] == '\n' then [""] + Lines(text[1..])
    else
      var rest := Lines(text[1..]);
      if rest == [] then [text] else [[text[0]] + rest[0]] + rest[1..]
  }

  lemma {:induction false} LinesOfOne(line: string, text: string)
    requires '\n' !in line
    ensures Lines(line + "\n" + text) == [line] + Lines(text)
  {
    var all := line + "\n" + text;
    if line == "" {
      assert all[1..] == text;
    } else {
      assert all[1..] == line[1..] + "\n" + text;
      LinesOfOne(line[1..], text);
      assert [all[0]] + line[1..] == line;
    }
  }

  /** A block's text tells its lines: none is lost, and none is cut or run together
      with another. */
  lemma {:induction false} JoinKeepsLines(lines: seq<string>)
    requires forall line <- lines :: '\n' !in line
    ensures Lines(Join(lines)) == lines
  {
    if lines != [] {
      JoinKeepsLines(lines[1..]);
      LinesOfOne(lines[0], Join(lines[1..]));
      assert lines[0] in lines;
    }
  }

  function EventsFrom(lines: seq<string>, i: nat, classify: Classifier): seq<ParsedEvent>
    requires i <= |lines|
    decreases |lines| - i
  {
    if i == |lines| then [] else EventOfLine(lines, i, classify) + EventsFrom(lines, i + 1, classify)
  }

  /** The events that the first line begins. */
  function HeadEvents(rest: seq<string>, classify: Classifier): seq<ParsedEvent>
    requires rest != []
  {
    match classify(rest[0])
    case JsonLine(ev) => [ev]
    case HeaderLine(header, inline) => Block(header, inline, rest[1..], classify)
    case Plain => []
  }

  lemma ParseHead(rest: seq<string>, classify: Classifier)
    requires rest != []
    ensures Parse(rest, classify) == HeadEvents(rest, classify) + Parse(rest[1..], classify)
  {}

  lemma {:induction false} ParseFrom(lines: seq<string>, i: nat, classify: Classifier)
    requires i <= |lines|
    ensures Parse(lines[i..], classify) == EventsFrom(lines, i, classify)
    decreases |lines| - i
  {
    if i < |lines| {
      ParseFrom(lines, i + 1, classify);
      var rest := lines[i..];
      assert rest[1..] == lines[i + 1..];
      ParseHead(rest, classify);
      var k := RunLength(rest[1..], classify);
      assert rest[1..][..k] == lines[i + 1..i + 1 + k];
    }
  }

  /** Every continuation line belongs to the block of the last header line before
      it, and to nothing else: the output is, line by line, what the lines begin. */
  lemma ParseByLines(lines: seq<string>, classify: Classifier)
    ensures Parse(lines, classify) == EventsFrom(lines, 0, classify)
  {
    ParseFrom(lines, 0, classify);
    assert lines[0..] == lines;
  }

  /** No blank text event: every event is a JSON line's own or has visible text. */
  lemma {:induction false} NoBlankText(lines: seq<string>, classify: Classifier, e: ParsedEvent)
    requires e in Parse(lines, classify)
    ensures !Blank(e.payload) || exists i :: 0 <= i < |lines| && classify(lines[i]) == JsonLine(e)
  {
    if e in Parse(lines[1..], classify) {
      NoBlankText(lines[1..], classify, e);
      if i :| 0 <= i < |lines[1..]| && classify(lines[1..][i]) == JsonLine(e) {
        assert classify(lines[i + 1]) == JsonLine(e);
      }
    } else {
      assert lines[0] == lines[0..][0];
    }
  }

  // ---- Cutting a stream anywhere ----

  /** The text block that is open after `lines`, with its text so far. */
  function OpenBlock(lines: seq<string>, classify: Classifier): Option<ParsedEvent> {
    if lines == [] then None
    else
      var last := lines[|lines| - 1];
      match classify(last)
      case JsonLine(_) => None
      case HeaderLine(header, inline) => Some(ParsedEvent(header, FirstPayload(inline)))
      case Plain => Extended(OpenBlock(lines[..|lines| - 1], classify), last)
  }

  function Extended(cur: Option<ParsedEvent>, line: string): Option<ParsedEvent> {
    if cur.None? then None else Some(cur.value.(payload := cur.value.payload + line + "\n"))
  }

  /** The events of `lines` before the open block. */
  function ClosedEvents(lines: seq<string>, classify: Classifier): seq<ParsedEvent> {
    if lines == [] then []
    else
      var front, last := lines[..|lines| - 1], lines[|lines| - 1];
      match classify(last)
      case JsonLine(ev) => ClosedEvents(front, classify) + Flushed(OpenBlock(front, classify)) + [ev]
      case HeaderLine(_, _) => ClosedEvents(front, classify) + Flushed(OpenBlock(front, classify))
      case Plain => ClosedEvents(front, classify)
  }

  /** Whatever follows `a` goes on from its open block. */
  lemma {:induction false} ParseFromOpenBlock(a: seq<string>, b: seq<string>, classify: Classifier)
    ensures Parse(a + b, classify) == ClosedEvents(a, classify) + Pending(OpenBlock(a, classify), b, classify)
    decreases |a|
  {
    if a == [] {
      assert a + b == b;
    } else {
      var front, last := a[..|a| - 1], a[|a| - 1];
      var rest := [last] + b;
      ParseFromOpenBlock(front, rest, classify);
      assert front + rest == a + b && rest[1..] == b;
      OneMoreLine(ClosedEvents(front, classify), OpenBlock(front, classify), rest, classify);
    }
  }

  lemma OneMoreLine(out: seq<ParsedEvent>, cur: Option<ParsedEvent>, rest: seq<string>, classify: Classifier)
    requires rest != []
    ensures out + Pending(cur, rest, classify) ==
      match classify(rest[0])
      case JsonLine(ev) => out + Flushed(cur) + [ev] + Pending(None, rest[1..], classify)
      case HeaderLine(header, inline) =>
        out + Flushed(cur) + Pending(Some(ParsedEvent(header, FirstPayload(inline))), rest[1..], classify)
      case Plain => out + Pending(Extended(cur, rest[0]), rest[1..], classify)
  {
    match classify(rest[0])
    case JsonLine(_) => PendingAtJson(out, cur, rest, classify);
    case HeaderLine(_, _) => PendingAtHeader(out, cur, rest, classify);
    case Plain => PendingAtPlain(cur, rest, classify);
  }

  /** The text that the plain lines at the start of `b` would add to a block. */
  function Continuation(b: seq<string>, classify: Classifier): string {
    Join(b[..RunLength(b, classify)])
  }

  lemma BlankConcat(s: string, t: string)
    ensures Blank(s + t) <==> Blank(s) && Blank(t)
  {
    assert forall i | 0 <= i < |s| :: (s + t)[i] == s[i];
    assert forall i | 0 <= i < |t| :: (s + t)[|s| + i] == t[i];
  }

  lemma JoinIsEmpty(lines: seq<string>)
    ensures Join(lines) == "" <==> lines == []
  {}

  /** A block takes more text and emits the same exactly if there is no more text,
      or all of it is blank. */
  lemma EmitMore(ev: ParsedEvent, more: string)
    ensures Emit(ev.(payload := ev.payload + more)) == Emit(ev) <==> more == "" || (Blank(ev.payload) && Blank(more))
  {
    BlankConcat(ev.payload, more);
    if more == "" {
      assert ev.payload + more == ev.payload;
    } else {
      assert |ev.payload + more| > |ev.payload|;
    }
  }

  lemma CancelRight(x: seq<ParsedEvent>, y: seq<ParsedEvent>, z: seq<ParsedEvent>)
    ensures x + z == y + z <==> x == y
  {
    if x + z == y + z {
      assert |x + z| == |y + z|;
      assert x == (x + z)[..|x|] && y == (y + z)[..|y|];
    }
  }

  lemma CancelLeft(closed: seq<ParsedEvent>, x: seq<ParsedEvent>, y: seq<ParsedEvent>, z: seq<ParsedEvent>)
    ensures closed + x == (closed + y) + z <==> x == y + z
  {
    assert (closed + y) + z == closed + (y + z);
    if closed + x == closed + (y + z) {
      assert x == (closed + x)[|closed|..] && y + z == (closed + (y + z))[|closed|..];
    }
  }

  /** A stream may be cut exactly where no block is open, where no plain line
      follows, or where the open block and what is cut off from it are blank. */
  predicate CutKeeps(a: seq<string>, b: seq<string>, classify: Classifier) {
    || RunLength(b, classify) == 0
    || OpenBlock(a, classify).None?
    || (Blank(OpenBlock(a, classify).value.payload) && Blank(Continuation(b, classify)))
  }

  lemma PendingAcrossCut(cur: Option<ParsedEvent>, b: seq<string>, classify: Classifier)
    ensures Pending(cur, b, classify) == Flushed(cur) + Parse(b, classify) <==>
      RunLength(b, classify) == 0 || cur.None? || (Blank(cur.value.payload) && Blank(Continuation(b, classify)))
  {
    if cur.Some? {
      var more := Continuation(b, classify);
      EmitMore(cur.value, more);
      JoinIsEmpty(b[..RunLength(b, classify)]);
      CancelRight(Emit(cur.value.(payload := cur.value.payload + more)), Emit(cur.value), Parse(b, classify));
    }
  }

  lemma ParseWhole(a: seq<string>, classify: Classifier)
    ensures Parse(a, classify) == ClosedEvents(a, classify) + Flushed(OpenBlock(a, classify))
  {
    ParseFromOpenBlock(a, [], classify);
    assert a + [] == a;
    PendingAtEnd(OpenBlock(a, classify), [], classify);
  }

  lemma ParseConcatExactly(a: seq<string>, b: seq<string>, classify: Classifier)
    ensures Parse(a + b, classify) == Parse(a, classify) + Parse(b, classify) <==> CutKeeps(a, b, classify)
  {
    var cur := OpenBlock(a, classify);
    ParseFromOpenBlock(a, b, classify);
    ParseWhole(a, classify);
    PendingAcrossCut(cur, b, classify);
    CancelLeft(ClosedEvents(a, classify), Pending(cur, b, classify), Flushed(cur), Parse(b, classify));
  }

  /** In particular, before any JSON or header line. */
  lemma ParseConcat(a: seq<string>, b: seq<string>, classify: Classifier)
    requires b == [] || !classify(b[0]).Plain?
    ensures Parse(a + b, classify) == Parse(a, classify) + Parse(b, classify)
  {
    ParseConcatExactly(a, b, classify);
  }

  /** For example, a visible plain line cut from its header is lost. */
  lemma CutBlockLosesText(classify: Classifier, header: string, text: string)
    requires classify(header).HeaderLine? && classify(header).inline == "" && classify(text).Plain? && !Blank(text)
    ensures Parse([header] + [text], classify) != Parse([header], classify) + Parse([text], classify)
  {
    ParseConcatExactly([header], [text], classify);
    assert [text][..1] == [text] && [text][1..] == [];
    BlankConcat(text, "\n");
    assert Join([text]) == text + "\n";
  }
}
