/** Server-sent events: what the stream handler writes, and how a browser reads it
    (section 9.2.6 of the WHATWG HTML Living Standard). */
module Sse {
  import opened Wrappers
  import opened Text
  import BusQueue

  type Event = BusQueue.Event

  const MAX_INT64: int := 0x7FFF_FFFF_FFFF_FFFF
  const BOM := '\U{FEFF}'

  // ---- Decimal numbers ----

  function DigitsValue(s: string): Option<nat> {
    if s == "" then Some(0)
    else
      var c := s[|s| - 1];
      match DigitsValue(s[..|s| - 1])
      case None => None
      case Some(v) => if '0' <= c <= '9' then Some(v * 10 + (c as int - '0' as int)) else None
  }

  lemma {:induction false} DecimalValue(n: nat)
    ensures DigitsValue(Decimal(n)) == Some(n)
  {
    if n < 10 {
      assert DigitsValue([Digit(n)][..0]) == Some(0);
    } else {
      DecimalValue(n / 10);
      assert Decimal(n)[..|Decimal(n)| - 1] == Decimal(n / 10);
    }
  }

  /** strconv.ParseInt(s, 10, 64). */
  function ParseInt(s: string): Option<int> {
    var signed := s != "" && (s[0] == '-' || s[0] == '+');
    var digits := if signed then s[1..] else s;
    if digits == "" then None
    else match DigitsValue(digits)
      case None => None
      case Some(v) =>
        var n: int := if signed && s[0] == '-' then -(v as int) else v;
        if -MAX_INT64 - 1 <= n <= MAX_INT64 then Some(n) else None
  }

  /** The Last-Event-ID header: absent is 0, malformed or negative is refused. */
  function ParseLastEventID(raw: string): Option<nat> {
    var trimmed := TrimSpace(raw);
    if trimmed == "" then Some(0)
    else match ParseInt(trimmed)
      case None => None
      case Some(n) => if n < 0 then None else Some(n)
  }

  lemma {:induction false} TrimKeeps(s: string, drop: char -> bool)
    requires s == "" || (!drop(s[0]) && !drop(s[|s| - 1]))
    ensures Trim(s, drop) == s
  {}

  lemma ParseDecimal(n: nat)
    requires n <= MAX_INT64
    ensures ParseLastEventID(Decimal(n)) == Some(n)
  {
    var s := Decimal(n);
    assert s[0] in s && s[|s| - 1] in s;
    TrimKeeps(s, c => IsSpace(c));
    DecimalValue(n);
  }

  // ---- Writing ----

  datatype Chunk = Ev(e: Event) | Heartbeat

  function Payload(e: Event): string { if e.data == "" then "{}" else e.data }

  function FieldLine(name: string, value: string): string { name + ": " + value + "\n" }

  function IdLine(e: Event): string { if e.id > 0 then FieldLine("id", Decimal(e.id)) else "" }

  function KindLine(e: Event): string { if e.kind != "" then FieldLine("event", e.kind) else "" }

  function Frame(e: Event): string { IdLine(e) + KindLine(e) + FieldLine("data", Payload(e)) + "\n" }

  function ChunkText(c: Chunk): string {
    match c { case Ev(e) => Frame(e) case Heartbeat => ": heartbeat" + "\n" + "\n" }
  }

  function Written(chunks: seq<Chunk>): string {
    if chunks == [] then "" else Written(chunks[..|chunks| - 1]) + ChunkText(chunks[|chunks| - 1])
  }

  /** The handler's loop: one write after another. */
  method WriteStream(chunks: seq<Chunk>) returns (w: string)
    ensures w == Written(chunks)
  {
    w := "";
    for i := 0 to |chunks|
      invariant w == Written(chunks[..i])
    {
      assert chunks[..i + 1][..i] == chunks[..i];
      match chunks[i] {
        case Heartbeat => w := w + (": heartbeat" + "\n" + "\n");
        case Ev(e) =>
          var frame := WriteEvent(e);
          w := w + frame;
      }
    }
    assert chunks[..|chunks|] == chunks;
  }

  method WriteEvent(e: Event) returns (w: string)
    ensures w == Frame(e)
  {
    w := "";
    if e.id > 0 { w := w + FieldLine("id", Decimal(e.id)); }
    assert w == IdLine(e);
    if e.kind != "" { w := w + FieldLine("event", e.kind); }
    assert w == IdLine(e) + KindLine(e);
    var data := "{}";
    if |e.data| > 0 { data := e.data; }
    w := w + FieldLine("data", data) + "\n";
  }

  // ---- Reading ----

  datatype Message = Message(kind: string, data: string, lastEventId: string)

  /** The interpreter's buffers; `afterCR` makes CR LF one line end. */
  datatype Reader = Reader(line: string, afterCR: bool, data: string, kind: string, idBuffer: string,
                           lastEventId: string, messages: seq<Message>)

  /** Every stream begins with empty buffers; the id that the event source holds outlives the
      connections before it. */
  function NewReader(held: nat): Reader { Reader("", false, "", "", "", IdText(held), []) }

  function Field(r: Reader, name: string, value: string): Reader {
    if name == "event" then r.(kind := value)
    else if name == "data" then r.(data := r.data + value + "\n")
    else if name == "id" && NUL !in value then r.(idBuffer := value)
    else r
  }

  function Dispatch(r: Reader): Reader {
    var r := r.(lastEventId := r.idBuffer);
    if r.data == "" then r.(kind := "")
    else
      var kind := if r.kind == "" then "message" else r.kind;
      r.(data := "", kind := "", messages := r.messages + [Message(kind, r.data[..|r.data| - 1], r.lastEventId)])
  }

  function Colon(line: string): nat { if line == "" || line[0] == ':' then 0 else 1 + Colon(line[1..]) }

  function ProcessLine(r: Reader, line: string): Reader {
    if line == "" then Dispatch(r)
    else if line[0] == ':' then r
    else
      var i := Colon(line);
      if i >= |line| then Field(r, line, "")
      else
        var value := line[i + 1..];
        Field(r, line[..i], if value != "" && value[0] == ' ' then value[1..] else value)
  }

  function Feed(r: Reader, c: char): Reader {
    if c == '\n' && r.afterCR then r.(afterCR := false)
    else if c == '\n' || c == '\r' then ProcessLine(r.(line := "", afterCR := c == '\r'), r.line)
    else r.(line := r.line + [c], afterCR := false)
  }

  function FeedAll(r: Reader, s: string): Reader {
    if s == "" then r else Feed(FeedAll(r, s[..|s| - 1]), s[|s| - 1])
  }

  /** What an end of stream leaves unfinished is discarded. */
  function Parse(held: nat, s: string): Reader {
    FeedAll(NewReader(held), if s != "" && s[0] == BOM then s[1..] else s)
  }

  // ---- The round trip ----

  predicate OneLine(s: string) { '\n' !in s && '\r' !in s }

  predicate Printable(c: Chunk) { c.Ev? ==> OneLine(c.e.kind) && OneLine(c.e.data) && c.e.id <= MAX_INT64 }

  function Expected(e: Event, id: string): Message {
    Message(if e.kind == "" then "message" else e.kind, Payload(e), id)
  }

  /** The last id among some chunks; 0 when there is none. */
  function LastId(chunks: seq<Chunk>): nat {
    if chunks == [] then 0
    else match chunks[|chunks| - 1]
      case Ev(e) => if e.id > 0 then e.id else LastId(chunks[..|chunks| - 1])
      case Heartbeat => LastId(chunks[..|chunks| - 1])
  }

  /** The id the browser holds after some chunks: any chunk, be it a heartbeat, replaces what it
      held before. */
  function HeldAfter(held: nat, chunks: seq<Chunk>): nat { if chunks == [] then held else LastId(chunks) }

  predicate HasId(c: Chunk) { c.Ev? && c.e.id > 0 }

  lemma {:induction false} LastIdIff(chunks: seq<Chunk>)
    ensures LastId(chunks) > 0 <==> exists c :: c in chunks && HasId(c)
  {
    if chunks == [] {
    } else {
      var init, last := chunks[..|chunks| - 1], chunks[|chunks| - 1];
      assert chunks == init + [last];
      LastIdIff(init);
      if HasId(last) {
        assert last in chunks;
      } else {
        assert forall c :: c in chunks && HasId(c) ==> c in init;
        assert forall c :: c in init ==> c in chunks;
      }
    }
  }

  /** A browser keeps an id over a connection exactly when it held one and got nothing, or got
      an event with an id. */
  lemma HoldsIff(held: nat, chunks: seq<Chunk>)
    ensures HeldAfter(held, chunks) > 0 <==> if chunks == [] then held > 0 else exists c :: c in chunks && HasId(c)
  {
    LastIdIff(chunks);
  }

  function IdText(id: nat): string { if id == 0 then "" else Decimal(id) }

  function Messages(chunks: seq<Chunk>): seq<Message> {
    if chunks == [] then []
    else Messages(chunks[..|chunks| - 1])
         + if chunks[|chunks| - 1].Ev? then [Expected(chunks[|chunks| - 1].e, IdText(LastId(chunks)))] else []
  }

  lemma {:induction false} FeedConcat(r: Reader, a: string, b: string)
    ensures FeedAll(r, a + b) == FeedAll(FeedAll(r, a), b)
  {
    if b == "" {
      assert a + b == a;
    } else {
      FeedConcat(r, a, b[..|b| - 1]);
      assert (a + b)[..|a + b| - 1] == a + b[..|b| - 1];
    }
  }

  lemma {:induction false} FeedText(r: Reader, s: string)
    requires OneLine(s) && !r.afterCR
    ensures FeedAll(r, s) == r.(line := r.line + s)
  {
    if s == "" {
      assert r.line + s == r.line;
    } else {
      assert s[|s| - 1] in s;
      FeedText(r, s[..|s| - 1]);
      assert r.line + s == r.line + s[..|s| - 1] + [s[|s| - 1]];
    }
  }

  lemma FeedLine(r: Reader, s: string)
    requires OneLine(s) && !r.afterCR && r.line == ""
    ensures FeedAll(r, s + "\n") == ProcessLine(r, s)
  {
    FeedText(r, s);
    assert r.line + s == s;
    assert (s + "\n")[..|s|] == s;
  }

  lemma {:induction false} ColonAfter(name: string, rest: string)
    requires ':' !in name
    ensures Colon(name + ":" + rest) == |name|
  {
    var s := name + ":" + rest;
    if name == "" {
    } else {
      ColonAfter(name[1..], rest);
      assert s[1..] == name[1..] + ":" + rest;
      assert s[0] == name[0] && name[0] in name;
    }
  }

  /** A line "name: value" sets the field to the value, whatever the value holds. */
  lemma FeedField(r: Reader, name: string, value: string)
    requires OneLine(name) && OneLine(value) && name != "" && ':' !in name && !r.afterCR && r.line == ""
    ensures FeedAll(r, FieldLine(name, value)) == Field(r, name, value)
  {
    var line := name + ": " + value;
    FeedLine(r, line);
    ColonAfter(name, " " + value);
    assert line == name + ":" + (" " + value);
    assert name[0] in name;
    assert line[..|name|] == name && line[|name| + 1..] == " " + value;
    assert (" " + value)[1..] == value;
  }

  predicate Fresh(r: Reader) { r.line == "" && !r.afterCR && r.data == "" && r.kind == "" }

  lemma HeadRead(r: Reader, e: Event)
    requires Fresh(r) && Printable(Ev(e))
    ensures FeedAll(r, IdLine(e) + KindLine(e)) ==
            r.(kind := e.kind, idBuffer := if e.id > 0 then Decimal(e.id) else r.idBuffer)
  {
    var r1 := FeedAll(r, IdLine(e));
    if e.id > 0 { FeedField(r, "id", Decimal(e.id)); }
    FeedConcat(r, IdLine(e), KindLine(e));
    if e.kind != "" { FeedField(r1, "event", e.kind); }
  }

  lemma TailRead(r: Reader, e: Event)
    requires r.line == "" && !r.afterCR && r.data == "" && Printable(Ev(e))
    ensures FeedAll(r, FieldLine("data", Payload(e)) + "\n") == Dispatch(r.(data := Payload(e) + "\n"))
  {
    FeedField(r, "data", Payload(e));
    var r3 := FeedAll(r, FieldLine("data", Payload(e)));
    assert r3 == r.(data := "" + Payload(e) + "\n");
    assert "" + Payload(e) + "\n" == Payload(e) + "\n";
    FeedConcat(r, FieldLine("data", Payload(e)), "\n");
    FeedBlank(r3);
  }

  lemma FeedBlank(r: Reader)
    requires !r.afterCR && r.line == ""
    ensures FeedAll(r, "\n") == Dispatch(r)
  {
    FeedLine(r, "");
    assert "" + "\n" == "\n";
  }

  lemma FrameRead(r: Reader, e: Event)
    requires Fresh(r) && Printable(Ev(e))
    ensures var r' := FeedAll(r, Frame(e));
            && Fresh(r')
            && r'.lastEventId == r'.idBuffer == (if e.id > 0 then Decimal(e.id) else r.idBuffer)
            && r'.messages == r.messages + [Expected(e, r'.idBuffer)]
  {
    var head := IdLine(e) + KindLine(e);
    var tail := FieldLine("data", Payload(e)) + "\n";
    assert Frame(e) == head + tail;
    FeedConcat(r, head, tail);
    HeadRead(r, e);
    TailRead(FeedAll(r, head), e);
    assert (Payload(e) + "\n")[..|Payload(e) + "\n"| - 1] == Payload(e);
  }

  lemma HeartbeatRead(r: Reader)
    requires Fresh(r)
    ensures FeedAll(r, ": heartbeat" + "\n" + "\n") == r.(lastEventId := r.idBuffer)
  {
    FeedLine(r, ": heartbeat");
    FeedConcat(r, ": heartbeat" + "\n", "\n");
    FeedLine(r, "");
    assert "" + "\n" == "\n";
  }

  /** What a browser has made of some chunks. */
  ghost predicate HasRead(r: Reader, held: nat, chunks: seq<Chunk>) {
    r.messages == Messages(chunks) && r.lastEventId == IdText(HeldAfter(held, chunks))
  }

  /** At the end of a chunk. */
  ghost predicate ReadAll(r: Reader, held: nat, chunks: seq<Chunk>) {
    Fresh(r) && HasRead(r, held, chunks) && r.idBuffer == IdText(LastId(chunks))
  }

  ghost predicate Adds(r: Reader, r': Reader, c: Chunk) {
    && r'.lastEventId == r'.idBuffer == (if HasId(c) then Decimal(c.e.id) else r.idBuffer)
    && r'.messages == r.messages + (if c.Ev? then [Expected(c.e, r'.idBuffer)] else [])
  }

  lemma ChunkRead(r: Reader, c: Chunk)
    requires Fresh(r) && Printable(c)
    ensures Fresh(FeedAll(r, ChunkText(c))) && Adds(r, FeedAll(r, ChunkText(c)), c)
  {
    match c
    case Heartbeat => HeartbeatRead(r);
    case Ev(e) => FrameRead(r, e);
  }

  lemma HasReadMore(r: Reader, r': Reader, held: nat, init: seq<Chunk>, c: Chunk)
    requires ReadAll(r, held, init) && Adds(r, r', c) && Fresh(r')
    ensures ReadAll(r', held, init + [c])
  {
    assert (init + [c])[..|init|] == init;
  }

  lemma ReadMore(held: nat, text: string, init: seq<Chunk>, c: Chunk)
    requires ReadAll(FeedAll(NewReader(held), text), held, init) && Printable(c)
    ensures ReadAll(FeedAll(NewReader(held), text + ChunkText(c)), held, init + [c])
  {
    var r := FeedAll(NewReader(held), text);
    ChunkRead(r, c);
    FeedConcat(NewReader(held), text, ChunkText(c));
    HasReadMore(r, FeedAll(r, ChunkText(c)), held, init, c);
  }

  lemma {:induction false} ReadBack(held: nat, chunks: seq<Chunk>)
    requires forall c :: c in chunks ==> Printable(c)
    ensures ReadAll(FeedAll(NewReader(held), Written(chunks)), held, chunks)
  {
    if chunks == [] {
    } else {
      var init := chunks[..|chunks| - 1];
      var last := chunks[|chunks| - 1];
      ReadBack(held, init);
      assert last in chunks && chunks == init + [last];
      ReadMore(held, Written(init), init, last);
    }
  }

  /** Print and parse: the browser sees the same types and data in the same order, "{}" for
      no data. It reconnects with the id of the last event that had one; with the one it held
      before if it got nothing at all; and with none if what it got had no id. */
  lemma RoundTrip(held: nat, chunks: seq<Chunk>)
    requires held <= MAX_INT64 && forall c :: c in chunks ==> Printable(c)
    ensures Parse(held, Written(chunks)).messages == Messages(chunks)
    ensures ParseLastEventID(Parse(held, Written(chunks)).lastEventId) == Some(HeldAfter(held, chunks))
  {
    ReadBack(held, chunks);
    NoBom(chunks);
    IdParses(held, chunks);
  }

  lemma {:induction false} NoBom(chunks: seq<Chunk>)
    ensures Written(chunks) != "" ==> Written(chunks)[0] != BOM
  {
    if chunks == [] {
    } else {
      NoBom(chunks[..|chunks| - 1]);
    }
  }

  lemma {:induction false} LastIdBound(chunks: seq<Chunk>)
    requires forall c :: c in chunks ==> Printable(c)
    ensures LastId(chunks) <= MAX_INT64
  {
    if chunks == [] {
    } else {
      assert chunks[|chunks| - 1] in chunks;
      LastIdBound(chunks[..|chunks| - 1]);
    }
  }

  lemma IdParses(held: nat, chunks: seq<Chunk>)
    requires held <= MAX_INT64 && forall c :: c in chunks ==> Printable(c)
    ensures ParseLastEventID(IdText(HeldAfter(held, chunks))) == Some(HeldAfter(held, chunks))
  {
    LastIdBound(chunks);
    if HeldAfter(held, chunks) > 0 { ParseDecimal(HeldAfter(held, chunks)); }
  }

  // ---- Connections that are cut ----

  /** No line of the text is blank, counting from a line end. */
  ghost predicate NoBlankLine(s: string) {
    '\r' !in s && forall i :: 0 <= i < |s| && s[i] == '\n' ==> i > 0 && s[i - 1] != '\n'
  }

  /** Only a blank line dispatches, and only a dispatch moves the id. */
  lemma {:induction false} NothingDispatched(r: Reader, s: string)
    requires NoBlankLine(s) && !r.afterCR && r.line == ""
    ensures var r' := FeedAll(r, s);
            && r'.messages == r.messages && r'.lastEventId == r.lastEventId && !r'.afterCR
            && (r'.line == "" <==> s == "" || s[|s| - 1] == '\n')
  {
    if s == "" {
    } else {
      assert s[|s| - 1] in s;
      NothingDispatched(r, s[..|s| - 1]);
    }
  }

  lemma NoBlankParts(a: string, b: string)
    requires NoBlankLine(a) && NoBlankLine(b)
    ensures NoBlankLine(a + b)
  {
    forall i | 0 <= i < |a + b| && (a + b)[i] == '\n' ensures i > 0 && (a + b)[i - 1] != '\n' {
      if i >= |a| { assert b[i - |a|] == '\n'; }
    }
  }

  lemma NoBlankField(name: string, value: string)
    requires name != "" && OneLine(name) && OneLine(value)
    ensures NoBlankLine(FieldLine(name, value))
  {
    var text := name + ": " + value;
    assert FieldLine(name, value) == text + "\n";
    assert forall i :: 0 <= i < |text| ==>
        text[i] == (if i < |name| then name[i] else if i < |name| + 2 then ": "[i - |name|] else value[i - |name| - 2]);
  }

  lemma NoBlankFrame(e: Event)
    requires Printable(Ev(e))
    ensures NoBlankLine(IdLine(e) + KindLine(e) + FieldLine("data", Payload(e)))
  {
    if e.id > 0 { NoBlankField("id", Decimal(e.id)); }
    if e.kind != "" { NoBlankField("event", e.kind); }
    NoBlankField("data", Payload(e));
    NoBlankParts(IdLine(e), KindLine(e));
    NoBlankParts(IdLine(e) + KindLine(e), FieldLine("data", Payload(e)));
  }

  /** A chunk that is not complete yet shows nothing. */
  lemma PartOfChunk(r: Reader, c: Chunk, k: nat)
    requires Fresh(r) && Printable(c) && k < |ChunkText(c)|
    ensures var r' := FeedAll(r, ChunkText(c)[..k]); r'.messages == r.messages && r'.lastEventId == r.lastEventId
  {
    var most := ChunkText(c)[..|ChunkText(c)| - 1];
    match c {
      case Heartbeat => assert most == ": heartbeat" + "\n";
      case Ev(e) =>
        NoBlankFrame(e);
        assert most == IdLine(e) + KindLine(e) + FieldLine("data", Payload(e));
    }
    assert ChunkText(c)[..k] == most[..k];
    assert NoBlankLine(most[..k]);
    NothingDispatched(r, most[..k]);
  }

  /** How many chunks are complete after k characters. */
  function Complete(chunks: seq<Chunk>, k: nat): (j: nat)
    ensures j <= |chunks|
  {
    if chunks == [] || k >= |Written(chunks)| then |chunks| else Complete(chunks[..|chunks| - 1], k)
  }

  lemma {:induction false} CutRead(held: nat, chunks: seq<Chunk>, k: nat)
    requires k <= |Written(chunks)| && forall c :: c in chunks ==> Printable(c)
    ensures HasRead(FeedAll(NewReader(held), Written(chunks)[..k]), held, chunks[..Complete(chunks, k)])
  {
    if chunks == [] || k == |Written(chunks)| {
      assert Written(chunks)[..k] == Written(chunks) && chunks[..|chunks|] == chunks;
      ReadBack(held, chunks);
    } else {
      var n := |chunks| - 1;
      var init := chunks[..n];
      var text := Written(init);
      if k < |text| {
        assert Written(chunks)[..k] == text[..k] && chunks[..Complete(init, k)] == init[..Complete(init, k)];
        CutRead(held, init, k);
      } else {
        assert Written(chunks)[..k] == text + ChunkText(chunks[n])[..k - |text|];
        assert chunks[n] in chunks && init[..n] == init;
        ReadBack(held, init);
        FeedConcat(NewReader(held), text, ChunkText(chunks[n])[..k - |text|]);
        PartOfChunk(FeedAll(NewReader(held), text), chunks[n], k - |text|);
      }
    }
  }

  /** A connection cut at any character: the browser has seen exactly the chunks that were
      complete and no part of the next, and reconnects with the id that those leave it. */
  lemma CutStream(held: nat, chunks: seq<Chunk>, k: nat)
    requires held <= MAX_INT64 && k <= |Written(chunks)| && forall c :: c in chunks ==> Printable(c)
    ensures var r := Parse(held, Written(chunks)[..k]);
            var j := Complete(chunks, k);
            && |Written(chunks[..j])| <= k && (j < |chunks| ==> k < |Written(chunks[..j + 1])|)
            && r.messages == Messages(chunks[..j])
            && ParseLastEventID(r.lastEventId) == Some(HeldAfter(held, chunks[..j]))
  {
    var s := Written(chunks);
    NoBom(chunks);
    assert s[..k] != "" ==> s[..k][0] == s[0];
    CutRead(held, chunks, k);
    CompleteFits(chunks, k);
    IdParses(held, chunks[..Complete(chunks, k)]);
  }

  /** The cut falls within the chunk behind the first j, or at their end. */
  predicate Fits(chunks: seq<Chunk>, j: nat, k: nat)
    requires j <= |chunks|
  {
    |Written(chunks[..j])| <= k && (j < |chunks| ==> k < |Written(chunks[..j + 1])|)
  }

  lemma FitsMore(init: seq<Chunk>, last: Chunk, j: nat, k: nat)
    requires j < |init| && Fits(init, j, k)
    ensures Fits(init + [last], j, k)
  {
    assert (init + [last])[..j] == init[..j] && (init + [last])[..j + 1] == init[..j + 1];
  }

  lemma FitsLast(init: seq<Chunk>, last: Chunk, k: nat)
    requires |Written(init)| <= k < |Written(init + [last])|
    ensures Fits(init + [last], |init|, k)
  {
    assert (init + [last])[..|init|] == init && (init + [last])[..|init| + 1] == init + [last];
  }

  lemma {:induction false} CompleteFits(chunks: seq<Chunk>, k: nat)
    requires k <= |Written(chunks)|
    ensures Fits(chunks, Complete(chunks, k), k)
  {
    if chunks == [] || k == |Written(chunks)| {
      assert chunks[..|chunks|] == chunks;
    } else {
      var init, last := chunks[..|chunks| - 1], chunks[|chunks| - 1];
      assert chunks == init + [last];
      if k >= |Written(init)| {
        FitsLast(init, last, k);
      } else {
        CompleteFits(init, k);
        assert init[..|init|] == init;
        FitsMore(init, last, Complete(init, k), k);
      }
    }
  }
}
