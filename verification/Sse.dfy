/**
The client's SSE reader: framing of a chunked character stream, parsing of events, and the server's format.

Chunks are the strings the streaming TextDecoder yields.
*/
module Sse {
  import opened Options

  // ---------------------------------------------------------------------------------------------
  // Framing
  // ---------------------------------------------------------------------------------------------

  predicate BreakAt(s: string, i: nat) {
    i + 1 < |s| && s[i] == '\n' && s[i + 1] == '\n'
  }

  /** The position of the first blank line, from `from` on. */
  function FirstBreak(s: string, from: nat): (r: Option<nat>)
    requires from <= |s|
    ensures r.Some? ==> from <= r.value && BreakAt(s, r.value) && forall i | from <= i < r.value :: !BreakAt(s, i)
    ensures r.None? ==> forall i | from <= i :: !BreakAt(s, i)
    decreases |s| - from
  {
    if from == |s| then None
    else if BreakAt(s, from) then Some(from)
    else FirstBreak(s, from + 1)
  }

  /** s.split("\n\n"): the complete events, and the last piece. */
  function Frames(s: string): (seq<string>, string) {
    match FirstBreak(s, 0)
    case None => ([], s)
    case Some(i) =>
      var (events, rest) := Frames(s[i + 2..]);
      ([s[..i]] + events, rest)
  }

  lemma BreakIsFirst(s: string, i: nat)
    requires BreakAt(s, i) && forall j | 0 <= j < i :: !BreakAt(s, j)
    ensures FirstBreak(s, 0) == Some(i)
  {
    var r := FirstBreak(s, 0);
    assert r.Some? && r.value <= i;
  }

  /** The first event of a longer input is the same, and what follows it is longer. */
  lemma FirstEventStays(x: string, y: string, i: nat)
    requires FirstBreak(x, 0) == Some(i)
    ensures Frames(x + y) == ([x[..i]] + Frames(x[i + 2..] + y).0, Frames(x[i + 2..] + y).1)
  {
    assert forall j | 0 <= j < i :: BreakAt(x + y, j) ==> BreakAt(x, j);
    BreakIsFirst(x + y, i);
    assert (x + y)[i + 2..] == x[i + 2..] + y;
    assert (x + y)[..i] == x[..i];
  }

  lemma FramesFrom(x: string, i: nat)
    requires FirstBreak(x, 0) == Some(i)
    ensures i + 2 <= |x| && Frames(x) == ([x[..i]] + Frames(x[i + 2..]).0, Frames(x[i + 2..]).1)
  {
  }

  lemma Regroup(a: seq<string>, b: seq<string>, c: seq<string>)
    ensures a + (b + c) == a + b + c
  {
  }

  /** Cutting the input in two and keeping the incomplete piece changes nothing. */
  lemma {:induction false} FramesAppend(x: string, y: string)
    ensures
      var (events, rest) := Frames(x);
      var (events', rest') := Frames(rest + y);
      Frames(x + y) == (events + events', rest')
    decreases |x|
  {
    match FirstBreak(x, 0)
    case None =>
      assert [] + Frames(x + y).0 == Frames(x + y).0;
    case Some(i) =>
      FirstEventStays(x, y, i);
      FramesAppend(x[i + 2..], y);
      FramesFrom(x, i);
      var (events, rest) := Frames(x[i + 2..]);
      hide *;
      Regroup([x[..i]], events, Frames(rest + y).0);
  }

  /** An event that its own blank line is the first to end. */
  ghost predicate Closed(event: string) {
    forall i :: !BreakAt(event + "\n", i)
  }

  function Unframe(events: seq<string>, rest: string): string {
    if events == [] then rest else events[0] + "\n\n" + Unframe(events[1..], rest)
  }

  lemma FrameFirst(event: string, more: string)
    requires Closed(event)
    ensures Frames(event + "\n\n" + more) == ([event] + Frames(more).0, Frames(more).1)
  {
    var s := event + "\n\n" + more;
    forall j | 0 <= j < |event| ensures !BreakAt(s, j) {
      assert !BreakAt(event + "\n", j);
    }
    assert BreakAt(s, |event|);
    BreakIsFirst(s, |event|);
    assert s[..|event|] == event && s[|event| + 2..] == more;
  }

  /** The split is the only way to read the input as closed events, each ended by a blank line, and a rest. */
  lemma {:induction false} FramesUnique(events: seq<string>, rest: string)
    requires (forall e <- events :: Closed(e)) && FirstBreak(rest, 0) == None
    ensures Frames(Unframe(events, rest)) == (events, rest)
  {
    if events != [] {
      FramesUnique(events[1..], rest);
      assert Closed(events[0]);
      FrameFirst(events[0], Unframe(events[1..], rest));
      assert [events[0]] + events[1..] == events;
    }
  }

  lemma {:induction false} FramesReadAll(s: string)
    ensures var (events, rest) := Frames(s);
            && Unframe(events, rest) == s && FirstBreak(rest, 0) == None && (forall e <- events :: Closed(e))
    decreases |s|
  {
    var first := FirstBreak(s, 0);
    if first.Some? {
      var i := first.value;
      FramesReadAll(s[i + 2..]);
      var (events, rest) := Frames(s[i + 2..]);
      assert ([s[..i]] + events)[1..] == events;
      assert s == s[..i] + "\n\n" + s[i + 2..];
      forall j ensures !BreakAt(s[..i] + "\n", j) {
        if j < i {
          assert BreakAt(s[..i] + "\n", j) ==> BreakAt(s, j);
        }
      }
    }
  }

  // ---------------------------------------------------------------------------------------------
  // Parsing one event
  // ---------------------------------------------------------------------------------------------

  /** The characters String.prototype.trim removes. */
  predicate IsSpace(c: char) {
    || c in {'\t', '\n', '\r', ' ', '\U{000B}', '\U{000C}', '\U{00A0}', '\U{1680}', '\U{2028}', '\U{2029}', '\U{202F}',
             '\U{205F}', '\U{3000}', '\U{FEFF}'}
    || '\U{2000}' <= c <= '\U{200A}'
  }

  function TrimStart(s: string): string {
    if s != "" && IsSpace(s[0]) then TrimStart(s[1..]) else s
  }

  function TrimEnd(s: string): string {
    if s != "" && IsSpace(s[|s| - 1]) then TrimEnd(s[..|s| - 1]) else s
  }

  function Trim(s: string): string {
    TrimEnd(TrimStart(s))
  }

  predicate StartsWith(s: string, prefix: string) {
    prefix <= s
  }

  /** The position of the first newline, or the length. */
  function LineEnd(s: string): (n: nat)
    ensures n <= |s| && '\n' !in s[..n] && (n < |s| ==> s[n] == '\n')
  {
    if s == "" || s[0] == '\n' then 0
    else
      assert s[..LineEnd(s[1..]) + 1] == [s[0]] + s[1..][..LineEnd(s[1..])];
      LineEnd(s[1..]) + 1
  }

  /** s.split("\n") */
  function Lines(s: string): seq<string> {
    var n := LineEnd(s);
    if n == |s| then [s] else [s[..n]] + Lines(s[n + 1..])
  }

  datatype Fields = Fields(eventType: string, id: string, data: string)

  function WithLine(f: Fields, line: string): Fields {
    if StartsWith(line, "event:") then f.(eventType := Trim(line[6..]))
    else if StartsWith(line, "id:") then f.(id := Trim(line[3..]))
    else if StartsWith(line, "data:") then f.(data := f.data + (if f.data != "" then "\n" else "") + Trim(line[5..]))
    else f
  }

  function WithLines(f: Fields, lines: seq<string>): Fields
    decreases lines
  {
    if lines == [] then f else WithLines(WithLine(f, lines[0]), lines[1..])
  }

  function ParseFields(raw: string): Fields {
    WithLines(Fields("", "", ""), Lines(raw))
  }

  /** The lines of a text: they hold no newline, and with newlines between them they give the text. */
  function Unlines(lines: seq<string>): string
    requires lines != []
  {
    if |lines| == 1 then lines[0] else lines[0] + "\n" + Unlines(lines[1..])
  }

  lemma {:induction false} LinesExact(s: string)
    ensures Lines(s) != [] && Unlines(Lines(s)) == s && forall line <- Lines(s) :: '\n' !in line
    decreases |s|
  {
    var n := LineEnd(s);
    if n < |s| {
      var rest := s[n + 1..];
      LinesExact(rest);
      assert Lines(s) == [s[..n]] + Lines(rest) && Lines(s)[1..] == Lines(rest);
      hide Lines, LineEnd;
      assert Unlines([s[..n]] + Lines(rest)) == s[..n] + "\n" + Unlines(Lines(rest));
      assert s == s[..n] + "\n" + rest;
    }
  }

  predicate AllSpace(s: string) {
    forall c <- s :: IsSpace(c)
  }

  /** What trim leaves: the text without the spaces around it. */
  lemma TrimExact(s: string) returns (before: string, after: string)
    ensures s == before + Trim(s) + after && AllSpace(before) && AllSpace(after)
    ensures var t := Trim(s); t != "" ==> !IsSpace(t[0]) && !IsSpace(t[|t| - 1])
  {
    var middle := TrimStart(s);
    before := TrimStartExact(s);
    after := TrimEndExact(middle);
    assert s == before + (Trim(s) + after);
    assert Trim(s) != "" ==> Trim(s)[0] == middle[0];
  }

  lemma {:induction false} TrimStartExact(s: string) returns (before: string)
    ensures s == before + TrimStart(s) && AllSpace(before)
    ensures var t := TrimStart(s); t != "" ==> !IsSpace(t[0])
    decreases |s|
  {
    before := "";
    if s != "" && IsSpace(s[0]) {
      var more := TrimStartExact(s[1..]);
      before := [s[0]] + more;
      assert s == [s[0]] + s[1..];
    } else {
      assert s == "" + s;
    }
  }

  lemma {:induction false} TrimEndExact(s: string) returns (after: string)
    ensures s == TrimEnd(s) + after && AllSpace(after)
    ensures var t := TrimEnd(s); t != "" ==> !IsSpace(t[|t| - 1])
    decreases |s|
  {
    after := "";
    if s != "" && IsSpace(s[|s| - 1]) {
      var more := TrimEndExact(s[..|s| - 1]);
      after := more + [s[|s| - 1]];
      assert s == s[..|s| - 1] + [s[|s| - 1]];
    } else {
      assert s == s + "";
    }
  }

  /** The values of the lines of one field, trimmed, in order. */
  function Values(lines: seq<string>, field: string): seq<string> {
    if lines == [] then []
    else
      var last := lines[|lines| - 1];
      Values(lines[..|lines| - 1], field) + if field <= last then [Trim(last[|field|..])] else []
  }

  function LastOf(values: seq<string>): string {
    if values == [] then "" else values[|values| - 1]
  }

  /** Values joined by newlines, but that nothing is put in front of the first that is not empty. */
  function Joined(values: seq<string>): string {
    if values == [] then ""
    else
      var front := Joined(values[..|values| - 1]);
      front + (if front == "" then "" else "\n") + values[|values| - 1]
  }

  function FieldsOf(lines: seq<string>): Fields {
    Fields(LastOf(Values(lines, "event:")), LastOf(Values(lines, "id:")), Joined(Values(lines, "data:")))
  }

  lemma OneValueMore(lines: seq<string>, line: string)
    ensures FieldsOf(lines + [line]) == WithLine(FieldsOf(lines), line)
  {
    var more := lines + [line];
    assert more[..|more| - 1] == lines;
    if "event:" <= line || "id:" <= line || "data:" <= line {
      assert line[0] in {'e', 'i', 'd'};
    }
    var prefix := if "id:" <= line then 3 else if "data:" <= line then 5 else if "event:" <= line then 6 else 0;
    var value := Trim(line[prefix..]);
    var data := Values(lines, "data:");
    assert (data + [value])[..|data|] == data;
    assert Joined(data + []) == Joined(data) by {
      assert data + [] == data;
    }
    var events, ids := Values(lines, "event:"), Values(lines, "id:");
    assert events + [] == events && ids + [] == ids;
    hide Trim;
  }

  lemma {:induction false} LinesGiveFields(before: seq<string>, lines: seq<string>)
    ensures WithLines(FieldsOf(before), lines) == FieldsOf(before + lines)
    decreases lines
  {
    if lines == [] {
      assert before + [] == before;
    } else {
      hide FieldsOf, WithLine;
      OneValueMore(before, lines[0]);
      LinesGiveFields(before + [lines[0]], lines[1..]);
      assert before + [lines[0]] + lines[1..] == before + lines;
    }
  }

  /**
  Parsing by the lines of an event: the type and the id are those of the last such line, and the data are joined; any
  other line is ignored.
  */
  lemma ParseExact(raw: string)
    ensures ParseFields(raw) == FieldsOf(Lines(raw))
  {
    LinesGiveFields([], Lines(raw));
    assert [] + Lines(raw) == Lines(raw);
    assert FieldsOf([]) == Fields("", "", "");
  }

  /** A notification handed to the message handler, with the stream id when there is one. */
  datatype Message = Message(json: string, streamId: Option<string>)

  /** What the adapter remembers and has delivered; `valid` says which data parses as JSON. */
  datatype Reader = Reader(lastEventId: Option<string>, delivered: seq<Message>)

  function OnEvent(valid: string -> bool, r: Reader, raw: string): Reader {
    if Trim(raw) == "" then r
    else
      var f := ParseFields(raw);
      var seen := if f.id != "" then r.(lastEventId := Some(f.id)) else r;
      if f.eventType == "notification" && f.data != "" && valid(f.data)
      then seen.(delivered := seen.delivered + [Message(f.data, if f.id != "" then Some(f.id) else None)])
      else seen
  }

  /** One event by its lines: an id is remembered; a notification with data that parses is delivered, with its id. */
  lemma OnEventExact(valid: string -> bool, r: Reader, raw: string)
    requires Trim(raw) != ""
    ensures
      var Fields(kind, id, data) := FieldsOf(Lines(raw));
      var after := OnEvent(valid, r, raw);
      && after.lastEventId == (if id == "" then r.lastEventId else Some(id))
      && after.delivered ==
         r.delivered + if kind == "notification" && data != "" && valid(data)
                       then [Message(data, if id == "" then None else Some(id))] else []
  {
    ParseExact(raw);
    assert r.delivered + [] == r.delivered;
    hide ParseFields, FieldsOf, Trim, Lines;
  }

  function OnEvents(valid: string -> bool, r: Reader, events: seq<string>): Reader
    decreases events
  {
    if events == [] then r else OnEvents(valid, OnEvent(valid, r, events[0]), events[1..])
  }

  lemma {:induction false} OnEventsAppend(valid: string -> bool, r: Reader, a: seq<string>, b: seq<string>)
    ensures OnEvents(valid, r, a + b) == OnEvents(valid, OnEvents(valid, r, a), b)
    decreases a
  {
    if a == [] {
      assert [] + b == b;
    } else {
      assert (a + b)[1..] == a[1..] + b;
      OnEventsAppend(valid, OnEvent(valid, r, a[0]), a[1..], b);
    }
  }

  // ---------------------------------------------------------------------------------------------
  // Reading a stream
  // ---------------------------------------------------------------------------------------------

  /** Reading chunk after chunk: the reader afterwards and the buffered incomplete event. */
  function Feed(valid: string -> bool, r: Reader, buffer: string, chunks: seq<string>): (Reader, string)
    decreases chunks
  {
    if chunks == [] then (r, buffer)
    else
      var (events, rest) := Frames(buffer + chunks[0]);
      Feed(valid, OnEvents(valid, r, events), rest, chunks[1..])
  }

  function Concat(chunks: seq<string>): string {
    if chunks == [] then "" else chunks[0] + Concat(chunks[1..])
  }

  lemma {:induction false} RestIsOpen(s: string)
    ensures FirstBreak(Frames(s).1, 0) == None
    decreases |s|
  {
    if FirstBreak(s, 0).Some? {
      RestIsOpen(s[FirstBreak(s, 0).value + 2..]);
    }
  }

  lemma OneMoreChunk(valid: string -> bool, r: Reader, buffer: string, chunk: string, more: string)
    ensures
      var (events, rest) := Frames(buffer + chunk);
      var (events', rest') := Frames(rest + more);
      && Frames(buffer + (chunk + more)) == (events + events', rest')
      && OnEvents(valid, r, events + events') == OnEvents(valid, OnEvents(valid, r, events), events')
  {
    var (events, rest) := Frames(buffer + chunk);
    FramesAppend(buffer + chunk, more);
    assert buffer + chunk + more == buffer + (chunk + more);
    OnEventsAppend(valid, r, events, Frames(rest + more).0);
  }

  /** However the stream is cut, what is delivered depends only on its characters. */
  lemma {:induction false} ChunksDoNotMatter(valid: string -> bool, r: Reader, buffer: string, chunks: seq<string>)
    requires FirstBreak(buffer, 0) == None
    ensures
      var (events, rest) := Frames(buffer + Concat(chunks));
      Feed(valid, r, buffer, chunks) == (OnEvents(valid, r, events), rest)
    decreases chunks
  {
    if chunks == [] {
      assert buffer + "" == buffer;
    } else {
      hide Frames, OnEvents, FirstBreak;
      var (events, rest) := Frames(buffer + chunks[0]);
      RestIsOpen(buffer + chunks[0]);
      ChunksDoNotMatter(valid, OnEvents(valid, r, events), rest, chunks[1..]);
      OneMoreChunk(valid, r, buffer, chunks[0], Concat(chunks[1..]));
    }
  }

  lemma SameCharactersSameMessages(valid: string -> bool, r: Reader, chunks: seq<string>, chunks': seq<string>)
    requires Concat(chunks) == Concat(chunks')
    ensures Feed(valid, r, "", chunks) == Feed(valid, r, "", chunks')
  {
    ChunksDoNotMatter(valid, r, "", chunks);
    ChunksDoNotMatter(valid, r, "", chunks');
  }

  datatype TransportState = Disconnected | Connected

  /** What happens while a body is read: a chunk arrives, or the application disconnects. */
  datatype ReadEvent = Chunk(text: string) | Disconnect

  function ChunksOf(script: seq<ReadEvent>): seq<string> {
    if script == [] then []
    else (if script[0].Chunk? then [script[0].text] else []) + ChunksOf(script[1..])
  }

  class SseAdapter {
    var lastEventId: Option<string>
    var delivered: seq<Message>
    var state: TransportState
    var reconnecting: bool
    var intentionalClose: bool
    var errors: nat

    constructor (lastEventId: Option<string>)
      ensures this.lastEventId == lastEventId && delivered == [] && state == Disconnected
      ensures !reconnecting && !intentionalClose && errors == 0
    {
      this.lastEventId, delivered, state := lastEventId, [], Disconnected;
      reconnecting, intentionalClose, errors := false, false, 0;
    }

    function Current(): Reader
      reads this`lastEventId, this`delivered
    {
      Reader(lastEventId, delivered)
    }

    method ParseEvent(raw: string, valid: string -> bool)
      requires Trim(raw) != ""
      modifies this`lastEventId, this`delivered
      ensures Current() == OnEvent(valid, old(Current()), raw)
    {
      var f := Fields("", "", "");
      var lines := Lines(raw);
      var i := 0;
      while i < |lines|
        invariant 0 <= i <= |lines|
        invariant ParseFields(raw) == WithLines(f, lines[i..])
      {
        f := WithLine(f, lines[i]);
        i := i + 1;
      }
      if f.id != "" {
        lastEventId := Some(f.id);
      }
      if f.eventType == "notification" && f.data != "" && valid(f.data) {
        delivered := delivered + [Message(f.data, if f.id != "" then Some(f.id) else None)];
      }
    }

    method HandleEvents(events: seq<string>, valid: string -> bool)
      modifies this`lastEventId, this`delivered
      ensures Current() == OnEvents(valid, old(Current()), events)
    {
      hide OnEvent;
      var j := 0;
      while j < |events|
        invariant 0 <= j <= |events|
        invariant OnEvents(valid, old(Current()), events) == OnEvents(valid, Current(), events[j..])
      {
        if Trim(events[j]) != "" {
          ParseEvent(events[j], valid);
        } else {
          BlankEvent(valid, Current(), events[j]);
        }
        j := j + 1;
      }
    }

    /** Aborts the request and cancels a reconnection. */
    method CloseConnection()
      modifies this`intentionalClose, this`reconnecting, this`state
      ensures intentionalClose && !reconnecting && state == Disconnected
    {
      intentionalClose, reconnecting, state := true, false, Disconnected;
    }

    /** The read loop; a disconnect may come at any point of it. */
    method ReadEvents(script: seq<ReadEvent>, valid: string -> bool)
      modifies this
      ensures Current() == Feed(valid, old(Current()), "", ChunksOf(script)).0 && errors == old(errors)
      ensures ClosedBy(old(intentionalClose), old(reconnecting), old(state), Disconnect in script)
    {
      var buffer := "";
      var i := 0;
      SeenNone(script);
      hide Feed, ChunksOf, Frames, OnEvents, Seen;
      while i < |script|
        invariant 0 <= i <= |script| && errors == old(errors)
        invariant Feed(valid, old(Current()), "", ChunksOf(script))
                  == Feed(valid, Current(), buffer, ChunksOf(script[i..]))
        invariant ClosedBy(old(intentionalClose), old(reconnecting), old(state), Seen(script, i))
      {
        FeedStep(valid, Current(), buffer, script, i);
        SeenStep(script, i);
        match script[i] {
          case Chunk(text) =>
            var (events, rest) := Frames(buffer + text);
            HandleEvents(events, valid);
            buffer := rest;
          case Disconnect => CloseConnection();
        }
        i := i + 1;
      }
      FeedEnd(valid, Current(), buffer, script);
      SeenAll(script);
    }

    /** Closing, reconnecting and state, by whether a disconnect has come. */
    predicate ClosedBy(intentionalClose0: bool, reconnecting0: bool, state0: TransportState, disconnected: bool)
      reads this`intentionalClose, this`reconnecting, this`state
    {
      && intentionalClose == (intentionalClose0 || disconnected)
      && reconnecting == (reconnecting0 && !disconnected)
      && state == if disconnected then Disconnected else state0
    }

    /**
    Reads a body until it ends or the read fails, which a disconnect on the way may cause; the incomplete event left in
    the buffer is dropped.
    */
    method ReadStream(script: seq<ReadEvent>, failed: bool, valid: string -> bool)
      modifies this
      ensures Current() == Feed(valid, old(Current()), "", ChunksOf(script)).0
      ensures intentionalClose == (old(intentionalClose) || Disconnect in script)
      ensures errors == old(errors) + if failed && !intentionalClose then 1 else 0
      ensures state == if failed && intentionalClose && Disconnect !in script then old(state) else Disconnected
      ensures reconnecting == ((old(reconnecting) && Disconnect !in script) || !intentionalClose)
    {
      hide Feed, ChunksOf;
      ReadEvents(script, valid);
      if failed {
        if intentionalClose {
          return;
        }
        errors := errors + 1;
      }
      state := Disconnected;
      if !intentionalClose {
        reconnecting := true;
      }
    }
  }

  /** Whether a disconnect is among the first i. */
  predicate Seen(script: seq<ReadEvent>, i: nat)
    requires i <= |script|
  {
    Disconnect in script[..i]
  }

  lemma SeenNone(script: seq<ReadEvent>)
    ensures !Seen(script, 0) && script[0..] == script
  {
  }

  lemma SeenStep(script: seq<ReadEvent>, i: nat)
    requires i < |script|
    ensures Seen(script, i + 1) <==> Seen(script, i) || script[i].Disconnect?
  {
    assert script[..i + 1] == script[..i] + [script[i]];
  }

  lemma SeenAll(script: seq<ReadEvent>)
    ensures Seen(script, |script|) <==> Disconnect in script
  {
    assert script[..|script|] == script;
  }

  lemma FeedEnd(valid: string -> bool, r: Reader, buffer: string, script: seq<ReadEvent>)
    ensures Feed(valid, r, buffer, ChunksOf(script[|script|..])) == (r, buffer)
  {
  }

  lemma FeedStep(valid: string -> bool, r: Reader, buffer: string, script: seq<ReadEvent>, i: nat)
    requires i < |script|
    ensures
      Feed(valid, r, buffer, ChunksOf(script[i..])) ==
      if script[i].Chunk? then
        var (events, rest) := Frames(buffer + script[i].text);
        Feed(valid, OnEvents(valid, r, events), rest, ChunksOf(script[i + 1..]))
      else Feed(valid, r, buffer, ChunksOf(script[i + 1..]))
  {
    hide Frames, OnEvents;
    var later := ChunksOf(script[i + 1..]);
    assert script[i..][1..] == script[i + 1..];
    if script[i].Chunk? {
      assert ([script[i].text] + later)[1..] == later;
    } else {
      assert [] + later == later;
    }
  }

  lemma BlankEvent(valid: string -> bool, r: Reader, raw: string)
    requires Trim(raw) == ""
    ensures OnEvent(valid, r, raw) == r
  {
  }

  // ---------------------------------------------------------------------------------------------
  // What the server writes
  // ---------------------------------------------------------------------------------------------

  datatype Sent = Heartbeat | Notification(json: string, streamId: Option<string>)

  /** The stream id a notification carries; an empty one is not written. */
  function IdOf(sent: Sent): Option<string> {
    if sent.Notification? && sent.streamId != Some("") then sent.streamId else None
  }

  /** An event's lines, before the blank line that ends it. */
  function Text(kind: string, id: Option<string>, json: string): string {
    ("event: " + kind) + "\n" + (if id.Some? then ("id: " + id.value) + "\n" + ("data: " + json) else "data: " + json)
  }

  function Body(sent: Sent): string {
    match sent
    case Heartbeat => Text("heartbeat", None, "{}")
    case Notification(json, _) => Text("notification", IdOf(sent), json)
  }

  function Wire(log: seq<Sent>): string {
    if log == [] then "" else Body(log[0]) + "\n\n" + Wire(log[1..])
  }

  /** A text of one line that trim leaves alone, as JSON.stringify of an object and Redis stream ids are. */
  predicate Plain(s: string) {
    s != "" && !IsSpace(s[0]) && !IsSpace(s[|s| - 1]) && '\n' !in s
  }

  predicate Writable(valid: string -> bool, sent: Sent) {
    sent.Notification? ==>
      && Plain(sent.json) && valid(sent.json)
      && (sent.streamId.Some? ==> sent.streamId.value == "" || Plain(sent.streamId.value))
  }

  /** The notifications of a log, in order. */
  function Notifications(log: seq<Sent>): seq<Message> {
    if log == [] then []
    else (if log[0].Notification? then [Message(log[0].json, IdOf(log[0]))] else []) + Notifications(log[1..])
  }

  /** The id of the last notification that carries one. */
  function LastId(log: seq<Sent>, before: Option<string>): Option<string> {
    if log == [] then before
    else if IdOf(log[|log| - 1]).Some? then IdOf(log[|log| - 1])
    else LastId(log[..|log| - 1], before)
  }

  lemma TrimPlain(s: string)
    requires Plain(s)
    ensures Trim(" " + s) == s && Trim(s) == s
  {
    assert (" " + s)[1..] == s;
    assert TrimStart(s) == s;
    assert TrimStart(" " + s) == s;
  }

  lemma {:induction false} LineEndAt(line: string, more: string)
    requires '\n' !in line
    ensures LineEnd(line + "\n" + more) == |line|
  {
    if line != "" {
      LineEndAt(line[1..], more);
      assert (line + "\n" + more)[1..] == line[1..] + "\n" + more;
    }
  }

  lemma LinesJoin(line: string, more: string)
    requires '\n' !in line
    ensures Lines(line + "\n" + more) == [line] + Lines(more)
  {
    var s := line + "\n" + more;
    LineEndAt(line, more);
    assert s[..|line|] == line && s[|line| + 1..] == more;
  }

  lemma OneLine(line: string)
    requires '\n' !in line
    ensures Lines(line) == [line]
  {
  }

  lemma DataLine(f: Fields, json: string)
    requires Plain(json) && f.data == ""
    ensures WithLine(f, "data: " + json) == f.(data := json)
  {
    var line := "data: " + json;
    assert line[0] == 'd';
    assert StartsWith(line, "data:");
    assert line[5..] == " " + json;
    TrimPlain(json);
  }

  lemma IdLine(f: Fields, id: string)
    requires Plain(id)
    ensures WithLine(f, "id: " + id) == f.(id := id)
  {
    var line := "id: " + id;
    assert line[0] == 'i';
    assert StartsWith(line, "id:");
    assert line[3..] == " " + id;
    TrimPlain(id);
  }

  lemma EventLine(f: Fields, eventType: string)
    requires Plain(eventType)
    ensures WithLine(f, "event: " + eventType) == f.(eventType := eventType)
  {
    var line := "event: " + eventType;
    assert StartsWith(line, "event:");
    assert line[6..] == " " + eventType;
    TrimPlain(eventType);
  }

  lemma TextLines(kind: string, id: Option<string>, json: string)
    requires '\n' !in kind && '\n' !in json && (id.Some? ==> '\n' !in id.value)
    ensures Lines(Text(kind, id, json)) ==
            if id.None? then ["event: " + kind, "data: " + json]
            else ["event: " + kind, "id: " + id.value, "data: " + json]
  {
    hide Lines;
    if id.None? {
      TwoLines("event: " + kind, "data: " + json);
    } else {
      LinesJoin("event: " + kind, ("id: " + id.value) + "\n" + ("data: " + json));
      TwoLines("id: " + id.value, "data: " + json);
      assert ["event: " + kind] + ["id: " + id.value, "data: " + json] ==
             ["event: " + kind, "id: " + id.value, "data: " + json];
    }
  }

  lemma ParseText(kind: string, id: Option<string>, json: string)
    requires Plain(kind) && Plain(json) && (id.Some? ==> Plain(id.value))
    ensures ParseFields(Text(kind, id, json)) == Fields(kind, if id.Some? then id.value else "", json)
  {
    TextLines(kind, id, json);
    var f := Fields("", "", "");
    EventLine(f, kind);
    var g := f.(eventType := kind);
    hide WithLine, WithLines, Lines, Text, Plain;
    if id.None? {
      DataLine(g, json);
      WithTwo(f, "event: " + kind, "data: " + json);
    } else {
      IdLine(g, id.value);
      DataLine(g.(id := id.value), json);
      WithThree(f, "event: " + kind, "id: " + id.value, "data: " + json);
    }
  }

  lemma WithTwo(f: Fields, a: string, b: string)
    ensures WithLines(f, [a, b]) == WithLine(WithLine(f, a), b)
  {
    hide WithLine;
    var g := WithLine(f, a);
    assert [a, b][1..] == [b];
    assert WithLines(g, [b]) == WithLines(WithLine(g, b), [b][1..]);
    assert [b][1..] == [];
  }

  lemma WithThree(f: Fields, a: string, b: string, c: string)
    ensures WithLines(f, [a, b, c]) == WithLine(WithLine(WithLine(f, a), b), c)
  {
    hide WithLine;
    assert [a, b, c][1..] == [b, c];
    WithTwo(WithLine(f, a), b, c);
  }

  lemma TwoLines(line: string, last: string)
    requires '\n' !in line && '\n' !in last
    ensures Lines(line + "\n" + last) == [line, last]
  {
    LinesJoin(line, last);
    OneLine(last);
  }

  lemma ClosedLine(line: string)
    requires line != "" && '\n' !in line
    ensures Closed(line)
  {
  }

  lemma ClosedLines(line: string, more: string)
    requires line != "" && '\n' !in line && more != "" && more[0] != '\n' && Closed(more)
    ensures Closed(line + "\n" + more)
  {
    var s := line + "\n" + more;
    forall i: nat ensures !BreakAt(s + "\n", i) {
      if BreakAt(s + "\n", i) {
        assert |line| < i;
        assert BreakAt(more + "\n", i - |line| - 1);
      }
    }
  }

  lemma BodyIsClosed(valid: string -> bool, sent: Sent)
    requires Writable(valid, sent)
    ensures Closed(Body(sent))
  {
    var json := if sent.Heartbeat? then "{}" else sent.json;
    ClosedLine("data: " + json);
    var id := IdOf(sent);
    if id.Some? {
      ClosedLines("id: " + id.value, "data: " + json);
      ClosedLines("event: notification", ("id: " + id.value) + "\n" + ("data: " + json));
    } else {
      ClosedLines("event: heartbeat", "data: " + json);
      ClosedLines("event: notification", "data: " + json);
    }
  }

  lemma {:induction false} TrimEndKeepsStart(s: string)
    requires s != "" && !IsSpace(s[0])
    ensures TrimEnd(s) != ""
  {
    if IsSpace(s[|s| - 1]) {
      TrimEndKeepsStart(s[..|s| - 1]);
    }
  }

  /** The reader after what the server wrote. */
  function Received(r: Reader, log: seq<Sent>): Reader {
    Reader(LastId(log, r.lastEventId), r.delivered + Notifications(log))
  }

  lemma BodyIsNotBlank(sent: Sent)
    ensures Trim(Body(sent)) != ""
  {
    assert Body(sent)[0] == 'e';
    TrimEndKeepsStart(Body(sent));
  }

  lemma ParseBody(valid: string -> bool, sent: Sent)
    requires Writable(valid, sent)
    ensures ParseFields(Body(sent)) ==
            if sent.Heartbeat? then Fields("heartbeat", "", "{}")
            else Fields("notification", if IdOf(sent).Some? then IdOf(sent).value else "", sent.json)
  {
    hide ParseFields, Text;
    ParseText(if sent.Heartbeat? then "heartbeat" else "notification", IdOf(sent),
              if sent.Heartbeat? then "{}" else sent.json);
  }

  lemma ReceivedOne(r: Reader, sent: Sent)
    ensures Received(r, [sent]) == Reader(
        if IdOf(sent).Some? then IdOf(sent) else r.lastEventId,
        r.delivered + (if sent.Notification? then [Message(sent.json, IdOf(sent))] else []))
  {
    assert [sent][1..] == [] && [sent][..0] == [];
    var one := if sent.Notification? then [Message(sent.json, IdOf(sent))] else [];
    assert Notifications([sent]) == one + Notifications([sent][1..]) == one;
    assert LastId([], r.lastEventId) == r.lastEventId;
  }

  lemma BodyIsReceived(valid: string -> bool, r: Reader, sent: Sent)
    requires Writable(valid, sent)
    ensures OnEvent(valid, r, Body(sent)) == Received(r, [sent])
  {
    BodyIsNotBlank(sent);
    ParseBody(valid, sent);
    ReceivedOne(r, sent);
    hide Trim, Body, ParseFields, Received, IsSpace;
  }

  function Bodies(log: seq<Sent>): seq<string> {
    if log == [] then [] else [Body(log[0])] + Bodies(log[1..])
  }

  lemma {:induction false} WireIsFramed(valid: string -> bool, log: seq<Sent>, tail: string)
    requires forall sent <- log :: Writable(valid, sent)
    ensures Wire(log) + tail == Unframe(Bodies(log), tail) && forall e <- Bodies(log) :: Closed(e)
  {
    hide Closed, Body, Writable;
    if log == [] {
      assert "" + tail == tail;
    } else {
      BodyIsClosed(valid, log[0]);
      WireIsFramed(valid, log[1..], tail);
      assert Bodies(log)[1..] == Bodies(log[1..]);
      assert Body(log[0]) + "\n\n" + Wire(log[1..]) + tail == Body(log[0]) + "\n\n" + (Wire(log[1..]) + tail);
    }
  }

  lemma {:induction false} LastIdFront(log: seq<Sent>, before: Option<string>)
    requires log != []
    ensures LastId(log, before) == LastId(log[1..], if IdOf(log[0]).Some? then IdOf(log[0]) else before)
  {
    var n := |log| - 1;
    if n > 0 {
      LastIdFront(log[..n], before);
      assert log[1..][..n - 1] == log[..n][1..];
    }
  }

  lemma ReceivedStep(r: Reader, log: seq<Sent>)
    requires log != []
    ensures Received(Received(r, [log[0]]), log[1..]) == Received(r, log)
  {
    ReceivedOne(r, log[0]);
    LastIdFront(log, r.lastEventId);
    hide LastId, IdOf;
    var first := if log[0].Notification? then [Message(log[0].json, IdOf(log[0]))] else [];
    assert r.delivered + first + Notifications(log[1..]) == r.delivered + (first + Notifications(log[1..]));
  }

  lemma {:induction false} LogIsReceived(valid: string -> bool, r: Reader, log: seq<Sent>)
    requires forall sent <- log :: Writable(valid, sent)
    ensures OnEvents(valid, r, Bodies(log)) == Received(r, log)
    decreases log
  {
    hide OnEvent, Body, Writable;
    if log == [] {
      assert r.delivered + [] == r.delivered;
    } else {
      hide Received;
      BodyIsReceived(valid, r, log[0]);
      LogIsReceived(valid, Received(r, [log[0]]), log[1..]);
      ReceivedStep(r, log);
      assert Bodies(log)[1..] == Bodies(log[1..]);
    }
  }

  /**
  A connection that breaks after any prefix of what the server wrote, in any chunks: every complete notification is
  delivered once, in order, the last stream id is remembered for the next connection, and the rest is dropped.
  */
  lemma WireIsReceived(valid: string -> bool, r: Reader, log: seq<Sent>, tail: string, chunks: seq<string>)
    requires forall sent <- log :: Writable(valid, sent)
    requires FirstBreak(tail, 0) == None && Concat(chunks) == Wire(log) + tail
    ensures Feed(valid, r, "", chunks) == (Received(r, log), tail)
  {
    ChunksDoNotMatter(valid, r, "", chunks);
    assert "" + Concat(chunks) == Concat(chunks);
    WireIsFramed(valid, log, tail);
    FramesUnique(Bodies(log), tail);
    LogIsReceived(valid, r, log);
  }

  /** The beginning of a closed event, or of the line break after it, is an open piece. */
  lemma OpenPiece(body: string, more: string, n: nat)
    requires Closed(body) && n <= |body| + 1
    ensures var s := body + "\n\n" + more; FirstBreak(s[..n], 0) == None
  {
    var s, whole := body + "\n\n" + more, body + "\n";
    assert whole == s[..|body| + 1];
    var piece := s[..n];
    assert piece == whole[..n];
    forall i ensures !BreakAt(piece, i) {
      if BreakAt(piece, i) {
        assert BreakAt(whole, i);
      }
    }
  }

  lemma PrefixPast(body: string, more: string, n: nat)
    requires n >= |body| + 2 && n <= |body| + 2 + |more|
    ensures (body + "\n\n" + more)[..n] == body + "\n\n" + more[..n - |body| - 2]
  {
  }

  /** How many events the first n characters of the wire complete. */
  function Complete(log: seq<Sent>, n: nat): nat {
    if log == [] || n < |Body(log[0])| + 2 then 0 else 1 + Complete(log[1..], n - |Body(log[0])| - 2)
  }

  lemma WireOf(log: seq<Sent>, k: nat)
    requires k < |log|
    ensures Wire(log) == Body(log[0]) + "\n\n" + Wire(log[1..])
    ensures Wire(log[..k + 1]) == Body(log[0]) + "\n\n" + Wire(log[1..][..k]) && Wire(log[..0]) == ""
  {
    hide Body;
    assert log[..k + 1][0] == log[0] && log[..k + 1][1..] == log[1..][..k];
  }

  lemma PrefixInside(valid: string -> bool, log: seq<Sent>, n: nat)
    requires (forall sent <- log :: Writable(valid, sent)) && log != [] && n < |Body(log[0])| + 2 && n <= |Wire(log)|
    ensures Wire(log)[..n] == Wire(log[..0]) + Wire(log)[..n] && FirstBreak(Wire(log)[..n], 0) == None
  {
    BodyIsClosed(valid, log[0]);
    WireOf(log, 0);
    OpenPiece(Body(log[0]), Wire(log[1..]), n);
    hide *;
    assert "" + Wire(log)[..n] == Wire(log)[..n];
  }

  lemma Join(body: string, rest: string, tail: string)
    ensures body + "\n\n" + rest + tail == body + "\n\n" + (rest + tail)
  {
  }

  /** Every prefix of what the server writes is a number of whole events and an open piece. */
  lemma {:induction false} PrefixOfWire(valid: string -> bool, log: seq<Sent>, n: nat) returns (k: nat, tail: string)
    requires (forall sent <- log :: Writable(valid, sent)) && n <= |Wire(log)|
    ensures k == Complete(log, n) <= |log|
    ensures Wire(log)[..n] == Wire(log[..k]) + tail && FirstBreak(tail, 0) == None
  {
    hide Body, Writable, Closed, FirstBreak;
    if log == [] {
      k, tail := 0, "";
      NoBreak();
    } else if n < |Body(log[0])| + 2 {
      k, tail := 0, Wire(log)[..n];
      PrefixInside(valid, log, n);
    } else {
      var body := Body(log[0]);
      WireOf(log, 0);
      k, tail := PrefixOfWire(valid, log[1..], n - |body| - 2);
      hide Wire;
      PrefixPast(body, Wire(log[1..]), n);
      WireOf(log, k);
      Join(body, Wire(log[1..][..k]), tail);
      k := k + 1;
    }
  }

  lemma NoBreak()
    ensures FirstBreak("", 0) == None
  {
  }

  /** So for a connection that breaks anywhere: the events the prefix completes are received, and no other. */
  lemma AnyPrefixIsReceived(valid: string -> bool, r: Reader, log: seq<Sent>, n: nat, chunks: seq<string>)
    requires (forall sent <- log :: Writable(valid, sent)) && n <= |Wire(log)| && Concat(chunks) == Wire(log)[..n]
    ensures Complete(log, n) <= |log| && Feed(valid, r, "", chunks).0 == Received(r, log[..Complete(log, n)])
  {
    hide *;
    var k, tail := PrefixOfWire(valid, log, n);
    WireIsReceived(valid, r, log[..k], tail, chunks);
  }
}
