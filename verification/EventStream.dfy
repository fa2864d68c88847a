/**
 The text the writer puts on the wire, and the event-stream interpretation of sections 9.2.5 and 9.2.6
 of the WHATWG HTML Standard, which is what a browser applies to it.
 */
module EventStream {
  import opened Text

  // ----- What the server writes

  /** Decoding the payload's envelope: the last event name it set, if any, and whether it ended in an error. */
  datatype Decoded = Decoded(event: Option<string>, failed: bool)

  /** The name in the frame: what was decoded stands even if an error followed. */
  function FrameEvent(d: Decoded): string {
    match d.event case None => "message" case Some(e) => e
  }

  /** The type that decides between the ordered and the latest-wins path: an error or an empty name is "message". */
  function ExtractEventType(d: Decoded): string {
    if !d.failed && d.event.Some? && d.event.value != "" then d.event.value else "message"
  }

  function FrameText(event: string, payload: string): string {
    "event:" + event + "\n" + "data:" + payload + "\n\n"
  }

  method BuildFrame(payload: string, decoded: Decoded) returns (frame: string, ok: bool)
    ensures ok <==> payload != ""
    ensures ok ==> frame == FrameText(FrameEvent(decoded), payload)
  {
    if |payload| == 0 { return "", false; }
    var event := "message";
    if decoded.event.Some? { event := decoded.event.value; }
    var buf := "";
    buf := buf + "event:";
    buf := buf + event;
    buf := buf + "\n";
    buf := buf + "data:";
    buf := buf + payload;
    buf := buf + "\n\n";
    assert buf == FrameText(event, payload);
    return buf, true;
  }

  const KEEPALIVE := ": keepalive\n\n"

  /** One thing the writer loop writes. */
  datatype Chunk = Event(event: string, payload: string) | Keepalive

  function ChunkText(c: Chunk): string {
    match c case Event(e, p) => FrameText(e, p) case Keepalive => KEEPALIVE
  }

  function StreamText(chunks: seq<Chunk>): string {
    if chunks == [] then "" else ChunkText(chunks[0]) + StreamText(chunks[1..])
  }

  // ----- How a client reads it

  datatype Message = Message(eventType: string, data: string)

  datatype Buffers = Buffers(data: string, eventType: string)

  const EMPTY := Buffers("", "")

  predicate IsEol(c: char) { c == '\n' || c == '\r' }

  function FirstIndex(s: string, stop: char -> bool): (i: nat)
    ensures i <= |s| && (i < |s| ==> stop(s[i]))
    ensures forall j :: 0 <= j < i ==> !stop(s[j])
  {
    if s == "" || stop(s[0]) then 0 else 1 + FirstIndex(s[1..], stop)
  }

  /** The terminated lines of a stream; an unterminated rest is discarded at the end. */
  function Lines(s: string): seq<string>
    decreases |s|
  {
    var i := FirstIndex(s, IsEol);
    if i == |s| then []
    else if s[i] == '\r' && i + 1 < |s| && s[i + 1] == '\n' then [s[..i]] + Lines(s[i + 2..])
    else [s[..i]] + Lines(s[i + 1..])
  }

  function StripSpace(s: string): string { if s != "" && s[0] == ' ' then s[1..] else s }

  function Field(b: Buffers, line: string): Buffers {
    var c := FirstIndex(line, ch => ch == ':');
    if line != "" && line[0] == ':' then b
    else
      var name, value := line[..c], if c < |line| then StripSpace(line[c + 1..]) else "";
      if name == "event" then b.(eventType := value)
      else if name == "data" then b.(data := b.data + value + "\n")
      else b
  }

  function Dispatch(b: Buffers): seq<Message> {
    if b.data == "" then []
    else [Message(
            if b.eventType == "" then "message" else b.eventType,
            if b.data[|b.data| - 1] == '\n' then b.data[..|b.data| - 1] else b.data)]
  }

  function Interpret(lines: seq<string>, b: Buffers): seq<Message> {
    if lines == [] then []
    else if lines[0] == "" then Dispatch(b) + Interpret(lines[1..], EMPTY)
    else Interpret(lines[1..], Field(b, lines[0]))
  }

  function StripBom(s: string): string { if s != "" && s[0] == '\U{FEFF}' then s[1..] else s }

  function Parse(stream: string): seq<Message> { Interpret(Lines(StripBom(stream)), EMPTY) }

  // ----- The round trip

  predicate Clean(s: string) { forall i :: 0 <= i < |s| ==> !IsEol(s[i]) }

  /** What the writer may write: line-free names and payloads, and no empty payload. */
  predicate Writable(chunks: seq<Chunk>) {
    forall c :: c in chunks && c.Event? ==> Clean(c.event) && Clean(c.payload) && c.payload != ""
  }

  /** The type and data a client ends up with for one frame. */
  function Seen(event: string, payload: string): Message {
    Message(if StripSpace(event) == "" then "message" else StripSpace(event), StripSpace(payload))
  }

  function Received(chunks: seq<Chunk>): seq<Message> {
    if chunks == [] then []
    else (match chunks[0] case Event(e, p) => [Seen(e, p)] case Keepalive => []) + Received(chunks[1..])
  }

  function Published(chunks: seq<Chunk>): seq<Message> {
    if chunks == [] then []
    else (match chunks[0] case Event(e, p) => [Message(e, p)] case Keepalive => []) + Published(chunks[1..])
  }

  lemma LinesOfLine(line: string, rest: string)
    requires Clean(line)
    ensures Lines(line + "\n" + rest) == [line] + Lines(rest)
  {
    var s := line + "\n" + rest;
    var i := FirstIndex(s, IsEol);
    assert s[|line|] == '\n';
    assert i == |line|;
    assert s[..i] == line && s[i + 1..] == rest;
  }

  lemma FieldOf(b: Buffers, name: string, value: string)
    requires name != "" && forall i :: 0 <= i < |name| ==> name[i] != ':'
    ensures Field(b, name + ":" + value) ==
            if name == "event" then b.(eventType := StripSpace(value))
            else if name == "data" then b.(data := b.data + StripSpace(value) + "\n")
            else b
  {
    var line := name + ":" + value;
    var c := FirstIndex(line, ch => ch == ':');
    assert line[|name|] == ':';
    assert c == |name|;
    assert line[..c] == name && line[c + 1..] == value;
  }

  /** Concatenation of the pieces of a frame, regrouped by lines. */
  lemma FrameByLines(e: string, p: string, rest: string)
    ensures FrameText(e, p) + rest == ("event:" + e) + "\n" + (("data:" + p) + "\n" + ("\n" + rest))
  {
  }

  lemma LinesOfBlank(rest: string)
    ensures Lines("\n" + rest) == [""] + Lines(rest)
  {
  }

  lemma LinesOfTwo(l1: string, l2: string, rest: string)
    requires Clean(l1) && Clean(l2)
    ensures Lines(l1 + "\n" + (l2 + "\n" + rest)) == [l1, l2] + Lines(rest)
  {
    LinesOfLine(l1, l2 + "\n" + rest);
    LinesOfLine(l2, rest);
  }

  lemma LinesOfTwoAndBlank(l1: string, l2: string, rest: string, text: string)
    requires Clean(l1) && Clean(l2)
    requires text == l1 + "\n" + (l2 + "\n" + ("\n" + rest))
    ensures Lines(text) == [l1, l2, ""] + Lines(rest)
  {
    LinesOfTwo(l1, l2, "\n" + rest);
    LinesOfBlank(rest);
    Regroup(l1, l2, Lines(rest));
  }

  lemma Regroup(l1: string, l2: string, rest: seq<string>)
    ensures [l1, l2] + ([""] + rest) == [l1, l2, ""] + rest
  {
  }

  lemma LinesOfFrame(e: string, p: string, rest: string)
    requires Clean(e) && Clean(p)
    ensures Lines(FrameText(e, p) + rest) == ["event:" + e, "data:" + p, ""] + Lines(rest)
  {
    FrameByLines(e, p, rest);
    LinesOfTwoAndBlank("event:" + e, "data:" + p, rest, FrameText(e, p) + rest);
  }

  lemma LinesOfKeepalive(rest: string)
    ensures Lines(KEEPALIVE + rest) == [": keepalive", ""] + Lines(rest)
  {
    var l := ": keepalive";
    assert KEEPALIVE == l + "\n" + "\n";
    assert l + "\n" + "\n" + rest == l + "\n" + ("\n" + rest);
    LinesOfLine(l, "\n" + rest);
    LinesOfBlank(rest);
  }

  lemma InterpretLine(line: string, rest: seq<string>, b: Buffers)
    ensures line != "" ==> Interpret([line] + rest, b) == Interpret(rest, Field(b, line))
    ensures line == "" ==> Interpret([line] + rest, b) == Dispatch(b) + Interpret(rest, EMPTY)
  {
  }

  lemma DispatchSeen(e: string, p: string)
    ensures Dispatch(Buffers(StripSpace(p) + "\n", StripSpace(e))) == [Seen(e, p)]
  {
  }

  lemma FrameFields(e: string, p: string)
    ensures Field(EMPTY, "event:" + e) == Buffers("", StripSpace(e))
    ensures Field(Buffers("", StripSpace(e)), "data:" + p) == Buffers(StripSpace(p) + "\n", StripSpace(e))
  {
    assert "event:" + e == "event" + ":" + e;
    assert "data:" + p == "data" + ":" + p;
    FieldOf(EMPTY, "event", e);
    FieldOf(Buffers("", StripSpace(e)), "data", p);
    assert "" + StripSpace(p) + "\n" == StripSpace(p) + "\n";
  }

  lemma InterpretTwo(l1: string, l2: string, rest: seq<string>, b1: Buffers, b2: Buffers)
    requires l1 != "" && l2 != "" && Field(EMPTY, l1) == b1 && Field(b1, l2) == b2
    ensures Interpret([l1, l2, ""] + rest, EMPTY) == Dispatch(b2) + Interpret(rest, EMPTY)
  {
    var t2 := [""] + rest;
    var t1 := [l2] + t2;
    assert [l1, l2, ""] + rest == [l1] + t1;
    InterpretLine(l1, t1, EMPTY);
    InterpretLine(l2, t2, b1);
    InterpretLine("", rest, b2);
  }

  lemma InterpretFrame(e: string, p: string, rest: seq<string>)
    ensures Interpret(["event:" + e, "data:" + p, ""] + rest, EMPTY) == [Seen(e, p)] + Interpret(rest, EMPTY)
  {
    FrameFields(e, p);
    DispatchSeen(e, p);
    InterpretTwo("event:" + e, "data:" + p, rest,
                 Buffers("", StripSpace(e)), Buffers(StripSpace(p) + "\n", StripSpace(e)));
  }

  lemma InterpretKeepalive(rest: seq<string>)
    ensures Interpret([": keepalive", ""] + rest, EMPTY) == Interpret(rest, EMPTY)
  {
  }

  lemma {:induction false} InterpretStream(chunks: seq<Chunk>)
    requires Writable(chunks)
    ensures Interpret(Lines(StreamText(chunks)), EMPTY) == Received(chunks)
  {
    if chunks != [] {
      var c, rest := chunks[0], chunks[1..];
      assert forall d :: d in rest ==> d in chunks;
      InterpretStream(rest);
      match c
      case Event(e, p) =>
        LinesOfFrame(e, p, StreamText(rest));
        InterpretFrame(e, p, Lines(StreamText(rest)));
      case Keepalive =>
        LinesOfKeepalive(StreamText(rest));
        InterpretKeepalive(Lines(StreamText(rest)));
    }
  }

  /** Any interleaving of frames and keepalives reads back as exactly one message per frame, in order. */
  lemma StreamReadsBack(chunks: seq<Chunk>)
    requires Writable(chunks)
    ensures Parse(StreamText(chunks)) == Received(chunks)
  {
    InterpretStream(chunks);
    var s := StreamText(chunks);
    assert chunks != [] ==> s != "" && (s[0] == 'e' || s[0] == ':');
    assert StripBom(s) == s;
  }

  /** The messages are the published pairs exactly when every name is non-empty and nothing starts with a space. */
  lemma RoundTripExact(chunks: seq<Chunk>)
    requires Writable(chunks)
    ensures Parse(StreamText(chunks)) == Published(chunks) <==> forall c :: c in chunks ==> Faithful(c)
  {
    StreamReadsBack(chunks);
    SeenExact(chunks);
  }

  predicate Faithful(c: Chunk) {
    c.Event? && c.payload != "" ==> c.event != "" && c.event[0] != ' ' && c.payload[0] != ' '
  }

  lemma SeenFaithful(c: Chunk)
    requires c.Event? && c.payload != ""
    ensures Seen(c.event, c.payload) == Message(c.event, c.payload) <==> Faithful(c)
  {
  }

  lemma {:induction false} SeenExact(chunks: seq<Chunk>)
    requires Writable(chunks)
    ensures |Received(chunks)| == |Published(chunks)|
    ensures Received(chunks) == Published(chunks) <==> forall c :: c in chunks ==> Faithful(c)
  {
    if chunks != [] {
      var c, rest := chunks[0], chunks[1..];
      assert forall d :: d in chunks <==> d == c || d in rest;
      SeenExact(rest);
      if c.Event? {
        SeenFaithful(c);
        SameHeadAndTail(Seen(c.event, c.payload), Received(rest), Message(c.event, c.payload), Published(rest));
      } else {
        assert Received(chunks) == Received(rest) && Published(chunks) == Published(rest);
      }
    }
  }

  lemma SameHeadAndTail<T>(x: T, xs: seq<T>, y: T, ys: seq<T>)
    ensures [x] + xs == [y] + ys <==> x == y && xs == ys
  {
    assert ([x] + xs)[0] == x && ([y] + ys)[0] == y;
    assert ([x] + xs)[1..] == xs && ([y] + ys)[1..] == ys;
  }

  /**
   The type the broker routes by is the type the client sees exactly when the name has no leading space and, if an
   error followed it, reads as "message" anyway.
   */
  lemma RoutedTypeIsSeenType(d: Decoded, payload: string)
    ensures Seen(FrameEvent(d), payload).eventType == ExtractEventType(d) <==>
            || d.event.None? || d.event.value == ""
            || (if d.failed then StripSpace(d.event.value) in {"", "message"} else d.event.value[0] != ' ')
  {
  }
}
