/** A reconnecting stream: subscribe, then replay from the audit trail, then live events,
    while rows are committed and published and the consumer reads, in any interleaving. */
module Stream {
  import opened Wrappers
  import opened Text
  import opened Store
  import opened StoreRuns
  import opened Picks
  import BusQueue

  const TOPIC_INCIDENTS := "incidents"
  const REPLAY_LIMIT := 500

  /** The bus event of an audit row; `encode` renders its fields as JSON. */
  function EventOf(row: EventRow, encode: EventRow -> string): BusQueue.Event {
    BusQueue.Event(row.id, TOPIC_INCIDENTS, "incident." + row.kind, encode(row))
  }

  method WantsTopic(topics: seq<string>, topic: string) returns (wants: bool)
    ensures wants <==> topics == [] || topic in topics
  {
    if |topics| == 0 { return true; }
    for i := 0 to |topics|
      invariant topic !in topics[..i]
    {
      if topics[i] == topic { return true; }
    }
    wants := false;
  }

  function Mapped(rows: seq<EventRow>, encode: EventRow -> string): seq<BusQueue.Event> {
    seq(|rows|, i requires 0 <= i < |rows| => EventOf(rows[i], encode))
  }

  method StoreReplay(db: Database, last: nat, topics: seq<string>, encode: EventRow -> string)
    returns (events: seq<BusQueue.Event>, ghost picks: seq<nat>)
    ensures events == if topics == [] || TOPIC_INCIDENTS in topics
                      then Mapped(EventsAfter(db.Snapshot(), last, REPLAY_LIMIT), encode) else []
    ensures topics != [] && "incidents" !in topics ==> events == []
    ensures topics == [] || "incidents" in topics ==>
              && FirstOf(picks, 500, |db.events|, Where(db.events, (e: EventRow) => e.id > last))
              && |events| == |picks|
              && forall k :: 0 <= k < |picks| ==>
                   var row := db.events[picks[k]];
                   events[k] == BusQueue.Event(row.id, "incidents", "incident." + row.kind, encode(row))
  {
    events, picks := [], [];
    var wants := WantsTopic(topics, TOPIC_INCIDENTS);
    if !wants { return; }
    var rows;
    rows, picks := db.EventsPast(last, REPLAY_LIMIT);
    for i := 0 to |rows|
      invariant events == Mapped(rows[..i], encode)
    {
      events := events + [EventOf(rows[i], encode)];
    }
    assert rows[..|rows|] == rows;
  }

  // ---- The topics a stream asks for ----

  function NonBlank(parts: seq<string>): seq<string> {
    if parts == [] then []
    else
      var p := TrimSpace(parts[|parts| - 1]);
      NonBlank(parts[..|parts| - 1]) + if p != "" then [p] else []
  }

  function Topics(raw: string): seq<string> {
    if TrimSpace(raw) == "" then [] else NonBlank(Split(raw, ','))
  }

  method ParseTopics(raw: string) returns (topics: seq<string>)
    ensures topics == Topics(raw)
  {
    topics := [];
    if TrimSpace(raw) == "" { return; }
    var parts := Split(raw, ',');
    for i := 0 to |parts|
      invariant topics == NonBlank(parts[..i])
    {
      assert parts[..i + 1][..i] == parts[..i];
      var p := TrimSpace(parts[i]);
      if p != "" { topics := topics + [p]; }
    }
    assert parts[..|parts|] == parts;
  }

  predicate IsTopic(s: string) { s != "" && TrimSpace(s) == s && ',' !in s }

  /** A list of topics survives the query string; an empty one asks for every topic. */
  lemma TopicsRoundTrip(topics: seq<string>)
    requires forall t :: t in topics ==> IsTopic(t)
    ensures Topics(Join(topics, ',')) == topics
  {
    if topics != [] {
      var raw := Join(topics, ',');
      SplitJoin(topics, ',');
      AllNonBlank(topics);
      assert topics[0] in topics && raw[0] == topics[0][0];
      StartsNonBlank(topics[0]);
      TrimKeepsSomething(raw);
    }
  }

  lemma {:induction false} AllNonBlank(topics: seq<string>)
    requires forall t :: t in topics ==> IsTopic(t)
    ensures NonBlank(topics) == topics
  {
    if topics == [] {
    } else {
      AllNonBlank(topics[..|topics| - 1]);
      assert topics[|topics| - 1] in topics;
    }
  }

  lemma StartsNonBlank(t: string)
    requires IsTopic(t)
    ensures !IsSpace(t[0])
  {
    if IsSpace(t[0]) {
      TrimShortens(t[1..], c => IsSpace(c));
    }
  }

  lemma {:induction false} TrimShortens(s: string, drop: char -> bool)
    ensures |Trim(s, drop)| <= |s|
  {
    TrimLeftShortens(s, drop);
    TrimRightShortens(TrimLeft(s, drop), drop);
  }

  lemma TrimLeftShortens(s: string, drop: char -> bool)
    ensures |TrimLeft(s, drop)| <= |s|
  {}

  lemma TrimRightShortens(s: string, drop: char -> bool)
    ensures |TrimRight(s, drop)| <= |s|
  {}

  lemma TrimKeepsSomething(s: string)
    requires s != "" && !IsSpace(s[0])
    ensures TrimSpace(s) != ""
  {
    TrimRightKeepsFirst(s, c => IsSpace(c));
  }

  // ---- The machine ----

  /** `live` is the log of the subscribed client's queue; `published` the indexes of the
      rows published so far; `atRead` how many rows were committed when replay read them;
      `inTime`: the client was subscribed by then. */
  datatype Conn = Conn(cap: nat, last: nat, rows: seq<EventRow>, published: set<nat>,
                       live: Option<seq<BusQueue.Action>>, replayed: Option<seq<EventRow>>,
                       atRead: nat, inTime: bool)

  datatype Step =
    | Commit(row: EventRow)
    | Publish(i: nat)
    | Subscribe
    | ReplayRead
    | Client(a: BusQueue.Action)

  function Reconnecting(cap: nat, last: nat, rows: seq<EventRow>, published: set<nat>): Conn {
    Conn(cap, last, rows, published, None, None, 0, false)
  }

  function QueueOf(c: Conn): BusQueue.Queue
    requires c.live.Some?
  {
    BusQueue.Run(BusQueue.Init(c.cap), c.live.value)
  }

  /** Publishing needs the row committed and the hub's lock free; `encode` renders the live
      notice. Without a positive Last-Event-ID nothing is replayed. The stream asks for the
      incidents topic, or for every topic. */
  function Next(c: Conn, s: Step, encode: EventRow -> string): Conn {
    match s
    case Commit(row) => c.(rows := c.rows + [row])
    case Publish(i) =>
      if i >= |c.rows| || (c.live.Some? && QueueOf(c).draining) then c
      else
        var live := if c.live.Some? then Some(c.live.value + [BusQueue.Send(EventOf(c.rows[i], encode))]) else None;
        c.(published := c.published + {i}, live := live)
    case Subscribe => if c.live.Some? then c else c.(live := Some([]))
    case ReplayRead =>
      if c.replayed.Some? || c.last == 0 then c
      else c.(replayed := Some(Page(c.rows, c.last, REPLAY_LIMIT)), atRead := |c.rows|, inTime := c.live.Some?)
    case Client(a) =>
      if c.live.None? || a.Send? then c else c.(live := Some(c.live.value + [a]))
  }

  function Run(c: Conn, steps: seq<Step>, encode: EventRow -> string): Conn {
    if steps == [] then c else Next(Run(c, steps[..|steps| - 1], encode), steps[|steps| - 1], encode)
  }

  ghost predicate Inv(c: Conn, encode: EventRow -> string) {
    && (forall i :: i in c.published ==> i < |c.rows|)
    && c.atRead <= |c.rows|
    && (c.replayed.Some? ==> c.replayed.value == Page(c.rows[..c.atRead], c.last, REPLAY_LIMIT))
    && (c.replayed.Some? && c.inTime ==>
          c.live.Some?
          && forall i :: i in c.published && i >= c.atRead ==> EventOf(c.rows[i], encode) in QueueOf(c).wanted)
  }

  lemma InvNext(c: Conn, s: Step, encode: EventRow -> string)
    requires Inv(c, encode)
    ensures Inv(Next(c, s, encode), encode)
  {
    match s
    case Commit(row) => assert (c.rows + [row])[..c.atRead] == c.rows[..c.atRead];
    case Publish(i) =>
      if c.live.Some? && i < |c.rows| {
        BusQueue.RunSnoc(BusQueue.Init(c.cap), c.live.value, BusQueue.Send(EventOf(c.rows[i], encode)));
      }
    case Client(a) => if c.live.Some? { BusQueue.RunSnoc(BusQueue.Init(c.cap), c.live.value, a); }
    case ReplayRead => assert c.rows[..|c.rows|] == c.rows;
    case Subscribe =>
  }

  lemma {:induction false} InvRun(c: Conn, steps: seq<Step>, encode: EventRow -> string)
    requires Inv(c, encode)
    ensures Inv(Run(c, steps, encode), encode)
    ensures var c' := Run(c, steps, encode); c'.cap == c.cap && c'.last == c.last && c.rows <= c'.rows
  {
    if steps == [] {
    } else {
      InvRun(c, steps[..|steps| - 1], encode);
      InvNext(Run(c, steps[..|steps| - 1], encode), steps[|steps| - 1], encode);
    }
  }

  /** The row was replayed, or its event is delivered live, or a resync queued after it is. */
  ghost predicate Reaches(c: Conn, i: nat, encode: EventRow -> string)
    requires i < |c.rows| && c.live.Some? && c.replayed.Some?
  {
    || c.rows[i] in c.replayed.value
    || exists k :: 0 <= k < |QueueOf(c).wanted| && QueueOf(c).wanted[k] == EventOf(c.rows[i], encode)
         && Told(BusQueue.Delivered(QueueOf(c)), k)
  }

  ghost predicate Told(delivered: seq<BusQueue.Item>, k: nat) {
    BusQueue.Pub(k) in delivered || exists u :: u > k && BusQueue.Resync(u) in delivered
  }

  lemma {:induction false} AfterMembers(rows: seq<EventRow>, last: nat)
    ensures forall i :: 0 <= i < |rows| && rows[i].id > last ==> rows[i] in After(rows, last)
    ensures forall r :: r in After(rows, last) ==> r in rows && r.id > last
  {
    if rows == [] {
    } else {
      AfterMembers(rows[..|rows| - 1], last);
      assert rows == rows[..|rows| - 1] + [rows[|rows| - 1]];
    }
  }

  /** No gap: if the client subscribed before the replay read, the page was not truncated
      and the hub buffers at least two, then every row past Last-Event-ID that was committed
      before that read or is ever published reaches the client, or a resync does. */
  lemma ReconnectHasNoGap(start: Conn, steps: seq<Step>, encode: EventRow -> string)
    requires start.cap >= 2 && start == Reconnecting(start.cap, start.last, start.rows, start.published)
    requires forall i :: i in start.published ==> i < |start.rows|
    requires var c := Run(start, steps, encode);
             && c.replayed.Some? && c.inTime && (c.live.Some? ==> !QueueOf(c).draining)
             && c.atRead <= |c.rows| && |After(c.rows[..c.atRead], c.last)| <= REPLAY_LIMIT
    ensures var c := Run(start, steps, encode);
            && c.live.Some?
            && forall i | 0 <= i < |c.rows| && c.rows[i].id > c.last && (i < c.atRead || i in c.published) ::
                 Reaches(c, i, encode)
  {
    InvRun(start, steps, encode);
    var c := Run(start, steps, encode);
    var q := QueueOf(c);
    forall i | 0 <= i < |c.rows| && c.rows[i].id > c.last && (i < c.atRead || i in c.published)
      ensures Reaches(c, i, encode)
    {
      if i < c.atRead {
        AfterMembers(c.rows[..c.atRead], c.last);
        assert c.rows[..c.atRead][i] == c.rows[i];
      } else {
        var k :| 0 <= k < |q.wanted| && q.wanted[k] == EventOf(c.rows[i], encode);
        BusQueue.LossAccounting(c.cap, c.live.value);
        BusQueue.LossIsAnnounced(BusQueue.Delivered(q), |q.wanted|, k);
        assert Told(BusQueue.Delivered(q), k);
      }
    }
  }

  /** The order matters: replaying first, a row committed and published in between is lost,
      and nothing tells the client. */
  lemma ReplayFirstLosesARow(last: nat, row: EventRow, encode: EventRow -> string)
    requires row.id > last > 0
    ensures var c := Run(Reconnecting(2, last, [], {}), [ReplayRead, Commit(row), Publish(0), Subscribe], encode);
            && c.rows == [row] && 0 in c.published && c.replayed == Some([]) && c.live == Some([])
            && !Reaches(c, 0, encode)
  {
    var steps := [ReplayRead, Commit(row), Publish(0), Subscribe];
    var c0 := Reconnecting(2, last, [], {});
    assert steps[..4] == steps && steps[..4][..3] == steps[..3];
    assert steps[..3][..2] == steps[..2] && steps[..2][..1] == steps[..1];
    assert Run(c0, steps[..1], encode) == Next(c0, ReplayRead, encode) by { assert steps[..1][..0] == []; }
    assert Run(c0, steps[..2], encode).rows == [row];
    assert Run(c0, steps[..3], encode).published == {0};
    assert QueueOf(Run(c0, steps, encode)).wanted == [];
  }

  /** The page is complete exactly when no more than the limit is past the id; otherwise
      the newest rows are missing, and nothing says so. */
  lemma PageCompleteIffWithinLimit(rows: seq<EventRow>, last: nat)
    requires IdsIncrease(rows)
    ensures (forall r :: r in rows && r.id > last ==> r in Page(rows, last, REPLAY_LIMIT))
            <==> |After(rows, last)| <= REPLAY_LIMIT
  {
    AfterMembers(rows, last);
    AfterIncreases(rows, last);
    var past := After(rows, last);
    if |past| > REPLAY_LIMIT {
      var missed := past[REPLAY_LIMIT];
      assert missed in past;
      assert missed !in past[..REPLAY_LIMIT];
    }
  }

  lemma {:induction false} AfterIncreases(rows: seq<EventRow>, last: nat)
    requires IdsIncrease(rows)
    ensures IdsIncrease(After(rows, last))
  {
    if rows == [] {
    } else {
      AfterIncreases(rows[..|rows| - 1], last);
      AfterMembers(rows[..|rows| - 1], last);
    }
  }
}
