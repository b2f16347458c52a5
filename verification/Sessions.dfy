/** One connection of a browser that may be cut off at any point: what the handler has written,
    what of it got through, and when nothing is lost. */
module Sessions {
  import opened Wrappers
  import opened Store
  import opened StoreRuns
  import opened Stream
  import B = BusQueue
  import Bus
  import Sse

  // ---- What a connection has written, and what of it got through ----

  /** The handler is subscribed and, given an id, has replayed. */
  predicate Writing(c: Conn) { c.live.Some? && (c.last > 0 ==> c.replayed.Some?) }

  function ReplayOf(c: Conn, encode: EventRow -> string): seq<B.Event> {
    match c.replayed { case Some(rows) => Mapped(rows, encode) case None => [] }
  }

  function Chunks(events: seq<B.Event>): seq<Sse.Chunk> {
    seq(|events|, i requires 0 <= i < |events| => Sse.Ev(events[i]))
  }

  function Events(chunks: seq<Sse.Chunk>): seq<B.Event> {
    if chunks == [] then []
    else match chunks[|chunks| - 1]
      case Ev(e) => Events(chunks[..|chunks| - 1]) + [e]
      case Heartbeat => Events(chunks[..|chunks| - 1])
  }

  /** What the handler has written after the replay: all that it has read from the live queue,
      with heartbeats anywhere between. */
  ghost predicate Tail(c: Conn, tail: seq<Sse.Chunk>) {
    if Writing(c) then Events(tail) == Bus.Rendered(QueueOf(c).wanted, QueueOf(c).read) else tail == []
  }

  function Sent(c: Conn, tail: seq<Sse.Chunk>, encode: EventRow -> string): seq<Sse.Chunk> {
    if Writing(c) then Chunks(ReplayOf(c, encode)) + tail else []
  }

  /** The id that the browser holds when the first chunks got through, as its parser leaves it. */
  function Held(c: Conn, tail: seq<Sse.Chunk>, got: nat, encode: EventRow -> string): nat
    requires got <= |Sent(c, tail, encode)|
  {
    Sse.HeldAfter(c.last, Sent(c, tail, encode)[..got])
  }

  function Min(a: nat, b: nat): nat { if a < b then a else b }

  /** The row's event is among those that got through, or a resync that was queued after it
      was published, which makes the browser fetch everything. */
  ghost predicate Reached(c: Conn, tail: seq<Sse.Chunk>, got: nat, i: nat, encode: EventRow -> string)
    requires i < |c.rows| && got <= |Sent(c, tail, encode)|
  {
    && Writing(c)
    && var n := |ReplayOf(c, encode)|;
       || EventOf(c.rows[i], encode) in ReplayOf(c, encode)[..Min(got, n)]
       || (got > n && LiveTells(QueueOf(c), |Events(tail[..got - n])|, EventOf(c.rows[i], encode)))
  }

  /** The first m items read from the queue tell of the event. */
  ghost predicate LiveTells(q: B.Queue, m: nat, e: B.Event) {
    exists k :: 0 <= k < |q.wanted| && q.wanted[k] == e && Told(q.read[..Min(m, |q.read|)], k)
  }

  /** A publication that a later one overtook, with nothing to say so: the consumer read from
      behind what an overflow was discarding. */
  ghost predicate PassedOver(read: seq<B.Item>, k: nat) {
    exists j :: 0 <= j < |read| && read[j].Pub? && B.Expect(read[..j]) <= k < read[j].n
  }

  ghost predicate Ascending(events: seq<B.Event>) {
    forall i, j :: 0 <= i < j < |events| ==> events[i].id < events[j].id
  }

  /** Every publication in the live queue is of a published row. */
  ghost predicate Sourced(c: Conn, encode: EventRow -> string) {
    && (forall i :: i in c.published ==> i < |c.rows|)
    && (c.live.Some? ==> forall k :: 0 <= k < |QueueOf(c).wanted| ==> FromRow(c, QueueOf(c).wanted[k], encode))
  }

  ghost predicate FromRow(c: Conn, e: B.Event, encode: EventRow -> string)
    requires forall i :: i in c.published ==> i < |c.rows|
  {
    exists b :: b in c.published && e == EventOf(c.rows[b], encode)
  }

  /** A connection whose replay, if any, fitted one page, over rows and publications in id
      order. */
  ghost predicate Regular(c: Conn, encode: EventRow -> string) {
    && IdsIncrease(c.rows) && Sourced(c, encode) && c.atRead <= |c.rows|
    && (c.last == 0 ==> c.replayed.None? && c.atRead == 0)
    && (c.replayed.Some? ==> c.replayed.value == After(c.rows[..c.atRead], c.last))
    && (c.live.Some? ==> Ascending(QueueOf(c).wanted) && B.Ordered(QueueOf(c).read))
  }

  /** The rows that a connection is to bring: those there when it read its replay, and those
      published to it. */
  ghost predicate Due(c: Conn, i: nat, encode: EventRow -> string) {
    i < |c.rows| && (i < c.atRead || (c.live.Some? && EventOf(c.rows[i], encode) in QueueOf(c).wanted))
  }

  /** Wherever the connection is cut, and whatever heartbeats it brought, each row due that is
      past the id it started from, and not past the one it leaves behind, has reached the
      browser. */
  ghost predicate SafeToCut(c: Conn, encode: EventRow -> string) {
    forall tail, got | Tail(c, tail) && 0 <= got <= |Sent(c, tail, encode)| :: CutKeeps(c, tail, got, encode)
  }

  ghost predicate CutKeeps(c: Conn, tail: seq<Sse.Chunk>, got: nat, encode: EventRow -> string)
    requires got <= |Sent(c, tail, encode)|
  {
    forall i | 0 <= i < |c.rows| && Due(c, i, encode) ::
      c.last < c.rows[i].id <= Held(c, tail, got, encode) ==> Reached(c, tail, got, i, encode)
  }

  /** What was passed over had already been replayed. */
  ghost predicate NothingPassed(c: Conn, encode: EventRow -> string) {
    Writing(c) ==>
      forall k :: 0 <= k < |QueueOf(c).wanted| && PassedOver(QueueOf(c).read, k) && QueueOf(c).wanted[k].id > c.last ==>
        QueueOf(c).wanted[k] in ReplayOf(c, encode)
  }

  // ---- Heartbeats between events ----

  lemma {:induction false} EventAt(chunks: seq<Sse.Chunk>, p: nat)
    requires p < |chunks| && chunks[p].Ev?
    ensures var m := |Events(chunks[..p])|;
            && m < |Events(chunks)| && Events(chunks)[m] == chunks[p].e && |Events(chunks[..p + 1])| == m + 1
  {
    if p == |chunks| - 1 {
      assert chunks[..p + 1] == chunks;
    } else {
      var init := chunks[..|chunks| - 1];
      assert init[..p] == chunks[..p] && init[..p + 1] == chunks[..p + 1];
      EventAt(init, p);
    }
  }

  lemma {:induction false} FewerEvents(chunks: seq<Sse.Chunk>, a: nat, b: nat)
    requires a <= b <= |chunks|
    ensures |Events(chunks[..a])| <= |Events(chunks[..b])|
  {
    if a == b {
    } else {
      FewerEvents(chunks, a, b - 1);
      assert chunks[..b][..b - 1] == chunks[..b - 1];
    }
  }

  lemma {:induction false} NoHeartbeats(events: seq<B.Event>)
    ensures Events(Chunks(events)) == events
  {
    if events == [] {
    } else {
      NoHeartbeats(events[..|events| - 1]);
      assert Chunks(events)[..|events| - 1] == Chunks(events[..|events| - 1]);
    }
  }

  // ---- The id held ----

  lemma {:induction false} LastIdAt(chunks: seq<Sse.Chunk>) returns (j: nat)
    requires Sse.LastId(chunks) > 0
    ensures j < |chunks| && Sse.HasId(chunks[j]) && chunks[j].e.id == Sse.LastId(chunks)
  {
    j := |chunks| - 1;
    if Sse.HasId(chunks[j]) {
    } else {
      j := LastIdAt(chunks[..j]);
    }
  }

  /** The event with the id that the browser holds got through. */
  lemma HeldIsSent(c: Conn, tail: seq<Sse.Chunk>, got: nat, encode: EventRow -> string) returns (j: nat)
    requires got <= |Sent(c, tail, encode)| && Held(c, tail, got, encode) > c.last
    ensures j < got && Sse.HasId(Sent(c, tail, encode)[j]) && Writing(c)
    ensures Sent(c, tail, encode)[j].e.id == Held(c, tail, got, encode)
  {
    j := LastIdAt(Sent(c, tail, encode)[..got]);
  }

  /** Where a chunk with an id comes from. */
  lemma SentAt(c: Conn, tail: seq<Sse.Chunk>, j: nat, encode: EventRow -> string)
    requires Tail(c, tail) && j < |Sent(c, tail, encode)| && Sse.HasId(Sent(c, tail, encode)[j])
    ensures var n := |ReplayOf(c, encode)|;
            && Writing(c)
            && if j < n then c.replayed.Some? && Sent(c, tail, encode)[j].e.id == c.replayed.value[j].id
               else var m := |Events(tail[..j - n])|;
                    && m < |QueueOf(c).read| && |Events(tail[..j - n + 1])| == m + 1
                    && Sent(c, tail, encode)[j].e == Bus.Render(QueueOf(c).wanted, QueueOf(c).read[m])
  {
    var n := |ReplayOf(c, encode)|;
    if j >= n {
      EventAt(tail, j - n);
    }
  }

  // ---- The last id came from the replay ----

  /** A committed row before one that was replayed was replayed, and earlier. */
  lemma ReplayedBefore(c: Conn, j: nat, i: nat, encode: EventRow -> string)
    requires c.atRead <= |c.rows| && IdsIncrease(c.rows) && i < |c.rows|
    requires var page := After(c.rows[..c.atRead], c.last);
             j < |page| && page[j].id >= c.rows[i].id > c.last
    ensures EventOf(c.rows[i], encode) in Mapped(After(c.rows[..c.atRead], c.last), encode)[..j + 1]
  {
    var known := c.rows[..c.atRead];
    var page := After(known, c.last);
    var a := PageRow(c, j);
    AfterMembers(known, c.last);
    AfterIncreases(known, c.last);
    assert i <= a && known[i] == c.rows[i] && known[i] in page;
    var k :| 0 <= k < |page| && page[k] == known[i];
    assert k <= j;
    assert Mapped(page, encode)[..j + 1][k] == EventOf(c.rows[i], encode);
  }

  lemma PageRow(c: Conn, j: nat) returns (a: nat)
    requires c.atRead <= |c.rows| && j < |After(c.rows[..c.atRead], c.last)|
    ensures a < c.atRead && c.rows[a] == After(c.rows[..c.atRead], c.last)[j]
  {
    var known := c.rows[..c.atRead];
    AfterMembers(known, c.last);
    assert After(known, c.last)[j] in known;
    a :| 0 <= a < |known| && known[a] == After(known, c.last)[j];
  }

  lemma InReplay(c: Conn, i: nat, encode: EventRow -> string)
    requires i < c.atRead <= |c.rows| && c.rows[i].id > c.last
    ensures EventOf(c.rows[i], encode) in Mapped(After(c.rows[..c.atRead], c.last), encode)
  {
    var page := After(c.rows[..c.atRead], c.last);
    AfterMembers(c.rows[..c.atRead], c.last);
    assert c.rows[..c.atRead][i] == c.rows[i];
    var k :| 0 <= k < |page| && page[k] == c.rows[i];
    assert Mapped(page, encode)[k] == EventOf(c.rows[i], encode);
  }

  lemma ReplayReached(c: Conn, tail: seq<Sse.Chunk>, got: nat, j: nat, i: nat, encode: EventRow -> string)
    requires Regular(c, encode) && Writing(c) && i < |c.rows| && c.replayed.Some?
    requires j < |ReplayOf(c, encode)| && j < got <= |Sent(c, tail, encode)|
    requires c.replayed.value[j].id >= c.rows[i].id > c.last
    ensures Reached(c, tail, got, i, encode)
  {
    var r := ReplayOf(c, encode);
    ReplayedBefore(c, j, i, encode);
    assert r[..Min(got, |r|)][..j + 1] == r[..j + 1];
  }

  // ---- The last id came from the live queue ----

  /** Up to a publication that was read, each was read, or told of by a resync, or passed
      over. */
  lemma {:induction false} ToldOrPassed(x: seq<B.Item>, j: nat, k: nat)
    requires j < |x| && x[j].Pub? && k <= x[j].n
    ensures Told(x[..j + 1], k) || PassedOver(x, k)
  {
    if k == x[j].n {
      assert x[..j + 1][j] == B.Pub(k);
    } else if B.Expect(x[..j]) <= k {
    } else {
      assert x[..j][j - 1] == x[j - 1];
      if x[j - 1].Pub? {
        ToldOrPassed(x, j - 1, k);
        assert x[..j] <= x[..j + 1];
        ToldMore(x[..j], x[..j + 1], k);
      } else {
        assert x[..j + 1][j - 1] == B.Resync(x[j - 1].upto);
      }
    }
  }

  lemma ToldMore(x: seq<B.Item>, y: seq<B.Item>, k: nat)
    requires x <= y
    ensures Told(x, k) ==> Told(y, k)
  {
    assert forall i :: i in x ==> i in y;
  }

  /** Nothing tells of a publication before the one that passed it over was read. */
  lemma PassedIsUntold(x: seq<B.Item>, j: nat, k: nat)
    requires B.Ordered(x) && j < |x| && x[j].Pub? && B.Expect(x[..j]) <= k < x[j].n
    ensures !Told(x[..j + 1], k)
  {
    B.OrderedPrefix(x, j);
    B.OrderedWithin(x[..j]);
    forall i | i in x[..j + 1] ensures i != B.Pub(k) && (i.Resync? ==> i.upto <= k) {
      var p :| 0 <= p <= j && x[..j + 1][p] == i;
      if p < j { assert x[..j][p] == i; }
    }
  }

  /** The m-th item read has an id no smaller than the row's, and it got through. */
  lemma LiveReached(c: Conn, tail: seq<Sse.Chunk>, got: nat, m: nat, i: nat, encode: EventRow -> string)
    requires Regular(c, encode) && NothingPassed(c, encode) && Writing(c) && Due(c, i, encode)
    requires |ReplayOf(c, encode)| < got <= |Sent(c, tail, encode)|
    requires m < |QueueOf(c).read| && m < |Events(tail[..got - |ReplayOf(c, encode)|])|
    requires Bus.Render(QueueOf(c).wanted, QueueOf(c).read[m]).id >= c.rows[i].id > c.last
    ensures Reached(c, tail, got, i, encode)
  {
    if i < c.atRead {
      InReplay(c, i, encode);
      assert c.replayed.Some?;
      WholeReplay(c, tail, got, i, encode);
    } else {
      var k :| 0 <= k < |QueueOf(c).wanted| && QueueOf(c).wanted[k] == EventOf(c.rows[i], encode);
      WantedReached(c, tail, got, m, k, i, encode);
    }
  }

  lemma WantedReached(c: Conn, tail: seq<Sse.Chunk>, got: nat, m: nat, k: nat, i: nat, encode: EventRow -> string)
    requires NothingPassed(c, encode) && Writing(c) && Ascending(QueueOf(c).wanted) && i < |c.rows|
    requires |ReplayOf(c, encode)| < got <= |Sent(c, tail, encode)|
    requires m < |QueueOf(c).read| && m < |Events(tail[..got - |ReplayOf(c, encode)|])|
    requires k < |QueueOf(c).wanted| && QueueOf(c).wanted[k] == EventOf(c.rows[i], encode)
    requires Bus.Render(QueueOf(c).wanted, QueueOf(c).read[m]).id >= c.rows[i].id > c.last
    ensures Reached(c, tail, got, i, encode)
  {
    LiveTold(c, m, |Events(tail[..got - |ReplayOf(c, encode)|])|, k, encode);
    if QueueOf(c).wanted[k] in ReplayOf(c, encode) {
      WholeReplay(c, tail, got, i, encode);
    } else {
      ToldReached(c, tail, got, k, i, encode);
    }
  }

  lemma ToldReached(c: Conn, tail: seq<Sse.Chunk>, got: nat, k: nat, i: nat, encode: EventRow -> string)
    requires Writing(c) && i < |c.rows| && |ReplayOf(c, encode)| < got <= |Sent(c, tail, encode)|
    requires k < |QueueOf(c).wanted| && QueueOf(c).wanted[k] == EventOf(c.rows[i], encode)
    requires var m := |Events(tail[..got - |ReplayOf(c, encode)|])|;
             Told(QueueOf(c).read[..Min(m, |QueueOf(c).read|)], k)
    ensures Reached(c, tail, got, i, encode)
  {
    assert LiveTells(QueueOf(c), |Events(tail[..got - |ReplayOf(c, encode)|])|, EventOf(c.rows[i], encode));
  }

  lemma WholeReplay(c: Conn, tail: seq<Sse.Chunk>, got: nat, i: nat, encode: EventRow -> string)
    requires Writing(c) && i < |c.rows| && |ReplayOf(c, encode)| <= got <= |Sent(c, tail, encode)|
    requires EventOf(c.rows[i], encode) in ReplayOf(c, encode)
    ensures Reached(c, tail, got, i, encode)
  {
    assert ReplayOf(c, encode)[..|ReplayOf(c, encode)|] == ReplayOf(c, encode);
  }

  lemma LiveTold(c: Conn, j: nat, m: nat, k: nat, encode: EventRow -> string)
    requires NothingPassed(c, encode) && Writing(c) && Ascending(QueueOf(c).wanted)
    requires j < m && j < |QueueOf(c).read| && k < |QueueOf(c).wanted|
    requires Bus.Render(QueueOf(c).wanted, QueueOf(c).read[j]).id >= QueueOf(c).wanted[k].id > c.last
    ensures Told(QueueOf(c).read[..Min(m, |QueueOf(c).read|)], k) || QueueOf(c).wanted[k] in ReplayOf(c, encode)
  {
    var q := QueueOf(c);
    assert q.read[j].Pub? && q.read[j].n < |q.wanted|;
    ToldOrPassed(q.read, j, k);
    ToldMore(q.read[..j + 1], q.read[..Min(m, |q.read|)], k);
  }

  // ---- Exactly when a connection may be cut anywhere ----

  lemma ReachedBy(c: Conn, tail: seq<Sse.Chunk>, got: nat, j: nat, i: nat, encode: EventRow -> string)
    requires Regular(c, encode) && NothingPassed(c, encode) && Tail(c, tail) && Due(c, i, encode)
    requires j < got <= |Sent(c, tail, encode)| && Sse.HasId(Sent(c, tail, encode)[j])
    requires Sent(c, tail, encode)[j].e.id >= c.rows[i].id > c.last
    ensures Reached(c, tail, got, i, encode)
  {
    SentAt(c, tail, j, encode);
    if j < |ReplayOf(c, encode)| {
      ReplayReached(c, tail, got, j, i, encode);
    } else {
      var p := j - |ReplayOf(c, encode)|;
      Through(c, tail, p, got, encode);
      LiveReached(c, tail, got, |Events(tail[..p])|, i, encode);
    }
  }

  /** What was written before the cut got through. */
  lemma Through(c: Conn, tail: seq<Sse.Chunk>, p: nat, got: nat, encode: EventRow -> string)
    requires Writing(c) && |ReplayOf(c, encode)| + p < got <= |Sent(c, tail, encode)|
    requires |Events(tail[..p + 1])| == |Events(tail[..p])| + 1
    ensures |Events(tail[..p])| < |Events(tail[..got - |ReplayOf(c, encode)|])|
  {
    FewerEvents(tail, p + 1, got - |ReplayOf(c, encode)|);
  }

  lemma SafeIfNothingPassed(c: Conn, tail: seq<Sse.Chunk>, got: nat, encode: EventRow -> string)
    requires Regular(c, encode) && NothingPassed(c, encode) && Tail(c, tail) && got <= |Sent(c, tail, encode)|
    ensures CutKeeps(c, tail, got, encode)
  {
    forall i | 0 <= i < |c.rows| && Due(c, i, encode) && c.last < c.rows[i].id <= Held(c, tail, got, encode)
      ensures Reached(c, tail, got, i, encode)
    {
      var j := HeldIsSent(c, tail, got, encode);
      ReachedBy(c, tail, got, j, i, encode);
    }
  }

  /** What was read was published. */
  ghost predicate Within(q: B.Queue) {
    forall j :: 0 <= j < |q.read| && q.read[j].Pub? ==> q.read[j].n < |q.wanted|
  }

  /** What was read, without heartbeats. */
  function Plain(c: Conn): seq<Sse.Chunk> {
    if Writing(c) then Chunks(Bus.Rendered(QueueOf(c).wanted, QueueOf(c).read)) else []
  }

  lemma PlainIsTail(c: Conn)
    ensures Tail(c, Plain(c))
  {
    if Writing(c) { NoHeartbeats(Bus.Rendered(QueueOf(c).wanted, QueueOf(c).read)); }
  }

  /** The first items read, and no heartbeat among them. */
  lemma PlainEvents(c: Conn, m: nat)
    requires Writing(c) && m <= |Plain(c)|
    ensures |Events(Plain(c)[..m])| == m
  {
    var r := Bus.Rendered(QueueOf(c).wanted, QueueOf(c).read);
    NoHeartbeats(r[..m]);
    assert Plain(c)[..m] == Chunks(r[..m]);
  }

  /** The j-th live item was read, and the connection cut right after it. */
  lemma HeldAtLive(c: Conn, j: nat, encode: EventRow -> string)
    requires Writing(c)
    requires var q := QueueOf(c);
             j < |q.read| && q.read[j].Pub? && q.read[j].n < |q.wanted| && q.wanted[q.read[j].n].id > 0
    ensures var got := |ReplayOf(c, encode)| + j + 1;
            && got <= |Sent(c, Plain(c), encode)|
            && Held(c, Plain(c), got, encode) == QueueOf(c).wanted[QueueOf(c).read[j].n].id
  {
    var q := QueueOf(c);
    var got := |ReplayOf(c, encode)| + j + 1;
    var sent := Sent(c, Plain(c), encode)[..got];
    assert sent[got - 1] == Sse.Ev(Bus.Render(q.wanted, q.read[j])) == Sse.Ev(q.wanted[q.read[j].n]);
  }

  lemma NotReached(c: Conn, j: nat, k: nat, i: nat, encode: EventRow -> string)
    requires Writing(c) && i < |c.rows|
    requires var q := QueueOf(c);
             && j < |q.read| && q.read[j].Pub? && B.Expect(q.read[..j]) <= k < q.read[j].n && B.Ordered(q.read)
             && k < |q.wanted| && Ascending(q.wanted)
             && q.wanted[k] == EventOf(c.rows[i], encode) && q.wanted[k] !in ReplayOf(c, encode)
    ensures var got := |ReplayOf(c, encode)| + j + 1;
            got <= |Sent(c, Plain(c), encode)| && !Reached(c, Plain(c), got, i, encode)
  {
    var r := ReplayOf(c, encode);
    assert r[..|r|] == r;
    assert |r| + j + 1 - |r| == j + 1;
    PlainEvents(c, j + 1);
    PassedIsUnheard(QueueOf(c), j, k);
  }

  lemma PassedIsUnheard(q: B.Queue, j: nat, k: nat)
    requires j < |q.read| && q.read[j].Pub? && B.Expect(q.read[..j]) <= k < q.read[j].n && B.Ordered(q.read)
    requires k < |q.wanted| && Ascending(q.wanted)
    ensures !LiveTells(q, j + 1, q.wanted[k])
  {
    PassedIsUntold(q.read, j, k);
    forall h | 0 <= h < |q.wanted| && q.wanted[h] == q.wanted[k] ensures h == k { OnePlace(q.wanted, h, k); }
  }

  lemma OnePlace(events: seq<B.Event>, h: nat, k: nat)
    requires Ascending(events) && h < |events| && k < |events| && events[h].id == events[k].id
    ensures h == k
  {}

  /** The cut right after a publication that passed another over loses that one. */
  lemma PassedIsLost(c: Conn, j: nat, k: nat, i: nat, encode: EventRow -> string)
    requires Writing(c) && i < |c.rows| && B.Ordered(QueueOf(c).read) && Ascending(QueueOf(c).wanted)
    requires var q := QueueOf(c);
             && j < |q.read| && q.read[j].Pub? && B.Expect(q.read[..j]) <= k < q.read[j].n < |q.wanted|
             && q.wanted[k] == EventOf(c.rows[i], encode) && q.wanted[k] !in ReplayOf(c, encode)
             && q.wanted[k].id > c.last
    ensures !SafeToCut(c, encode)
  {
    NotReached(c, j, k, i, encode);
    HeldAtLive(c, j, encode);
    PlainIsTail(c);
    assert Due(c, i, encode);
    assert !CutKeeps(c, Plain(c), |ReplayOf(c, encode)| + j + 1, encode);
  }

  /** Exactly when a connection may be cut anywhere: when no publication was passed over that
      had not been replayed. */
  lemma SafeToCutIff(c: Conn, encode: EventRow -> string)
    requires Regular(c, encode) && (c.live.Some? ==> Within(QueueOf(c)))
    ensures SafeToCut(c, encode) <==> NothingPassed(c, encode)
  {
    if NothingPassed(c, encode) {
      forall tail, got | Tail(c, tail) && 0 <= got <= |Sent(c, tail, encode)| ensures CutKeeps(c, tail, got, encode) {
        SafeIfNothingPassed(c, tail, got, encode);
      }
    } else {
      var q := QueueOf(c);
      var k :| 0 <= k < |q.wanted| && PassedOver(q.read, k) && q.wanted[k].id > c.last
               && q.wanted[k] !in ReplayOf(c, encode);
      var j :| 0 <= j < |q.read| && q.read[j].Pub? && B.Expect(q.read[..j]) <= k < q.read[j].n;
      assert FromRow(c, q.wanted[k], encode);
      var i :| i in c.published && q.wanted[k] == EventOf(c.rows[i], encode);
      PassedIsLost(c, j, k, i, encode);
    }
  }

  // ---- Connections that really run ----

  /** Only a publication is wanted. */
  lemma WantedNext(cap: nat, log: seq<B.Action>, a: B.Action)
    ensures var q, q' := B.Run(B.Init(cap), log), B.Run(B.Init(cap), log + [a]);
            q'.wanted == if a.Send? && !q.draining then q.wanted + [a.ev] else q.wanted
  {
    B.RunSnoc(B.Init(cap), log, a);
  }

  /** What a step adds to the wanted list is of a published row. */
  lemma WantedFrom(c: Conn, s: Step, encode: EventRow -> string)
    requires c.live.Some?
    ensures var c' := Next(c, s, encode);
            && c'.live.Some?
            && (QueueOf(c').wanted == QueueOf(c).wanted
                || (s.Publish? && s.i < |c.rows| && s.i in c'.published
                    && QueueOf(c').wanted == QueueOf(c).wanted + [EventOf(c.rows[s.i], encode)]))
  {
    match s
    case Publish(i) => if i < |c.rows| { WantedNext(c.cap, c.live.value, B.Send(EventOf(c.rows[i], encode))); }
    case Client(a) => WantedNext(c.cap, c.live.value, a);
    case _ => assert QueueOf(Next(c, s, encode)) == QueueOf(c);
  }

  lemma FromRowStays(c: Conn, s: Step, e: B.Event, encode: EventRow -> string)
    requires Sourced(c, encode) && FromRow(c, e, encode)
    ensures var c' := Next(c, s, encode); (forall i :: i in c'.published ==> i < |c'.rows|) && FromRow(c', e, encode)
  {
    var b :| b in c.published && e == EventOf(c.rows[b], encode);
    assert b in Next(c, s, encode).published && Next(c, s, encode).rows[b] == c.rows[b];
  }

  lemma SourcedNext(c: Conn, s: Step, encode: EventRow -> string)
    requires Sourced(c, encode)
    ensures Sourced(Next(c, s, encode), encode)
  {
    var c' := Next(c, s, encode);
    if c.live.Some? {
      WantedFrom(c, s, encode);
      forall k | 0 <= k < |QueueOf(c').wanted| ensures FromRow(c', QueueOf(c').wanted[k], encode) {
        if k < |QueueOf(c).wanted| {
          FromRowStays(c, s, QueueOf(c).wanted[k], encode);
        } else {
          assert QueueOf(c').wanted[k] == EventOf(c'.rows[s.i], encode);
        }
      }
    }
  }

  lemma {:induction false} SourcedRun(c: Conn, steps: seq<Step>, encode: EventRow -> string)
    requires Sourced(c, encode)
    ensures Sourced(Stream.Run(c, steps, encode), encode)
  {
    if steps == [] {
    } else {
      SourcedRun(c, steps[..|steps| - 1], encode);
      SourcedNext(Stream.Run(c, steps[..|steps| - 1], encode), steps[|steps| - 1], encode);
    }
  }

  /** Without an id nothing is ever replayed. */
  lemma {:induction false} NoReplay(c: Conn, steps: seq<Step>, encode: EventRow -> string)
    requires c.last == 0 && c.replayed.None? && c.atRead == 0
    ensures var c' := Stream.Run(c, steps, encode); c'.last == 0 && c'.replayed.None? && c'.atRead == 0
  {
    if steps == [] {
    } else {
      NoReplay(c, steps[..|steps| - 1], encode);
    }
  }

  lemma {:induction false} GaplessAt(x: seq<B.Item>, j: nat)
    requires B.Gapless(x) && j < |x| && x[j].Pub?
    ensures x[j].n == B.Expect(x[..j])
  {
    if j == |x| - 1 {
    } else {
      GaplessAt(x[..|x| - 1], j);
      assert x[..|x| - 1][..j] == x[..j];
    }
  }

  /** What a connection's queue is like, after any steps. */
  lemma QueueFacts(c: Conn)
    requires c.live.Some? && c.cap >= 2
    ensures var q := QueueOf(c); B.Ordered(q.read) && Within(q) && (B.Gapless(q.read) <==> !q.torn)
  {
    B.InvRun(c.cap, c.live.value);
    var q := QueueOf(c);
    B.QueuedExtends(q.read, q.buf);
    B.OrderedWithin(B.Delivered(q));
    forall j | 0 <= j < |q.read| && q.read[j].Pub? ensures q.read[j].n < |q.wanted| {
      assert B.Delivered(q)[j] == q.read[j];
    }
  }

  /** One connection: where it starts, what happens along it, what its handler wrote after the
      replay, and how many whole chunks got through before the cut. */
  datatype Session = Session(from: Conn, steps: seq<Step>, tail: seq<Sse.Chunk>, got: nat)

  function End(s: Session, encode: EventRow -> string): Conn { Stream.Run(s.from, s.steps, encode) }

  function SentIn(s: Session, encode: EventRow -> string): seq<Sse.Chunk> { Sent(End(s, encode), s.tail, encode) }

  /** As the handler connects, with a replay that fits one page, over rows and publications in
      id order. */
  ghost predicate Proper(s: Session, encode: EventRow -> string) {
    var c := End(s, encode);
    && s.from.cap >= 2
    && s.from == Reconnecting(s.from.cap, s.from.last, s.from.rows, s.from.published)
    && (forall i :: i in s.from.published ==> i < |s.from.rows|)
    && Tail(c, s.tail) && s.got <= |Sent(c, s.tail, encode)| && IdsIncrease(c.rows)
    && (c.replayed.Some? ==> c.inTime && c.atRead <= |c.rows| && |After(c.rows[..c.atRead], c.last)| <= REPLAY_LIMIT)
    && (c.live.Some? ==> Ascending(QueueOf(c).wanted))
  }

  /** What a replay did not bring of the published rows was published live. */
  ghost predicate Covering(c: Conn, encode: EventRow -> string) {
    c.replayed.Some? ==> forall i :: i in c.published && i >= c.atRead ==> Due(c, i, encode)
  }

  lemma ProperIsRegular(s: Session, encode: EventRow -> string)
    requires Proper(s, encode)
    ensures var c := End(s, encode);
            && c.last == s.from.last && c.cap == s.from.cap && s.from.rows <= c.rows
            && Regular(c, encode) && Covering(c, encode) && (c.live.Some? ==> Within(QueueOf(c)))
  {
    InvRun(s.from, s.steps, encode);
    SourcedRun(s.from, s.steps, encode);
    if s.from.last == 0 { NoReplay(s.from, s.steps, encode); }
    var c := End(s, encode);
    if c.live.Some? { QueueFacts(c); }
  }

  /** One connection as it really runs: it may be cut anywhere, without a loss that nothing
      tells of, exactly when no publication was passed over that had not been replayed. When
      no read fell into the middle of an overflow's drain, none was. */
  lemma ConnectionSafeToCut(s: Session, encode: EventRow -> string)
    requires Proper(s, encode)
    ensures var c := End(s, encode);
            && (SafeToCut(c, encode) <==> NothingPassed(c, encode))
            && (c.live.Some? && !QueueOf(c).torn ==> NothingPassed(c, encode))
  {
    var c := End(s, encode);
    ProperIsRegular(s, encode);
    SafeToCutIff(c, encode);
    if Writing(c) && !QueueOf(c).torn {
      QueueFacts(c);
      forall j | 0 <= j < |QueueOf(c).read| && QueueOf(c).read[j].Pub?
        ensures QueueOf(c).read[j].n == B.Expect(QueueOf(c).read[..j])
      {
        GaplessAt(QueueOf(c).read, j);
      }
    }
  }
}
