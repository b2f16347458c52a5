/** Any number of connections of one browser, each cut off somewhere: every one starts from the
    id that the one before left behind. */
module Reconnects {
  import opened Wrappers
  import opened Store
  import opened StoreRuns
  import opened Stream
  import opened Sessions
  import B = BusQueue
  import Bus
  import Sse

  function HeldAfter(s: Session, encode: EventRow -> string): nat
    requires s.got <= |SentIn(s, encode)|
  {
    Held(End(s, encode), s.tail, s.got, encode)
  }

  /** The browser held an id and got nothing at all, or it got an event with an id. */
  ghost predicate KeepsId(s: Session, encode: EventRow -> string)
    requires s.got <= |SentIn(s, encode)|
  {
    if s.got == 0 then s.from.last > 0 else exists c :: c in SentIn(s, encode)[..s.got] && Sse.HasId(c)
  }

  lemma KeepsIdIff(s: Session, encode: EventRow -> string)
    requires Proper(s, encode)
    ensures HeldAfter(s, encode) > 0 <==> KeepsId(s, encode)
  {
    ProperIsRegular(s, encode);
    Sse.HoldsIff(s.from.last, SentIn(s, encode)[..s.got]);
  }

  /** The trail grew, and what was published later has larger ids than what was published
      before. */
  ghost predicate Grew(rows: seq<EventRow>, published: set<nat>, rows': seq<EventRow>, published': set<nat>) {
    && rows <= rows' && published <= published' && IdsIncrease(rows')
    && (forall b :: b in published ==> b < |rows|) && (forall i :: i in published' ==> i < |rows'|)
    && forall i, b :: i in published' && i !in published && b in published ==> rows'[b].id < rows'[i].id
  }

  /** The trail grew into this one after the connection. */
  ghost predicate Earlier(c: Conn, rows: seq<EventRow>, published: set<nat>) {
    Grew(c.rows, c.published, rows, published)
  }

  ghost predicate Continues(ss: seq<Session>, rows: seq<EventRow>, published: set<nat>, encode: EventRow -> string) {
    forall m :: 0 <= m < |ss| ==> Earlier(End(ss[m], encode), rows, published)
  }

  /** Connections that follow each other, over tables that only grow, none of which passed over
      a publication that it had not replayed. */
  ghost predicate Chained(ss: seq<Session>, encode: EventRow -> string) {
    && (forall m :: 0 <= m < |ss| ==> Proper(ss[m], encode) && NothingPassed(End(ss[m], encode), encode))
    && (forall m :: 0 < m < |ss| ==> ss[m].from.last == HeldAfter(ss[m - 1], encode))
    && forall m :: 0 <= m < |ss| ==>
         Continues(ss[..m], End(ss[m], encode).rows, End(ss[m], encode).published, encode)
  }

  // ---- What the browser is owed, and what it gets ----

  /** What the first connection started from: a row past its id; without one, a row that was
      published to it or after it. */
  ghost predicate Owed(first: Session, rows: seq<EventRow>, i: nat, encode: EventRow -> string)
    requires i < |rows|
  {
    var c := End(first, encode);
    rows[i].id > first.from.last && (first.from.last == 0 ==> i !in c.published || Due(c, i, encode))
  }

  ghost predicate Shows(s: Session, i: nat, encode: EventRow -> string) {
    var c := End(s, encode);
    i < |c.rows| && s.got <= |SentIn(s, encode)| && Reached(c, s.tail, s.got, i, encode)
  }

  ghost predicate ShownBy(ss: seq<Session>, i: nat, encode: EventRow -> string) {
    exists m :: 0 <= m < |ss| && Shows(ss[m], i, encode)
  }

  /** Every published row that is owed was shown by some connection, or is past the id that the
      browser holds now, so that the next one replays it. */
  ghost predicate NoLoss(ss: seq<Session>, rows: seq<EventRow>, published: set<nat>, encode: EventRow -> string)
    requires ss != [] && Chained(ss, encode)
  {
    forall i | i in published && i < |rows| && Owed(ss[0], rows, i, encode) ::
      ShownBy(ss, i, encode) || 0 < HeldAfter(ss[|ss| - 1], encode) < rows[i].id
  }

  /** The same, whatever is committed and published afterwards. */
  ghost predicate SafeWhatever(ss: seq<Session>, encode: EventRow -> string)
    requires ss != [] && Chained(ss, encode)
  {
    forall rows: seq<EventRow>, published: set<nat> | Continues(ss, rows, published, encode) ::
      NoLoss(ss, rows, published, encode)
  }

  // ---- While every connection leaves an id ----

  /** A published row with an id that the browser holds, or a smaller one, was published before
      the end. */
  lemma HeldWasPublished(c: Conn, tail: seq<Sse.Chunk>, got: nat, rows: seq<EventRow>, published: set<nat>, i: nat,
                         encode: EventRow -> string)
    requires Regular(c, encode) && Tail(c, tail) && got <= |Sent(c, tail, encode)| && Earlier(c, rows, published)
    requires i in published && c.last < rows[i].id <= Held(c, tail, got, encode)
    ensures i < c.atRead || i in c.published
  {
    var j := HeldIsSent(c, tail, got, encode);
    SentAt(c, tail, j, encode);
    if j < |ReplayOf(c, encode)| {
      var a := PageRow(c, j);
      assert rows[a] == c.rows[a] && rows[i].id <= rows[a].id;
    } else {
      var item := QueueOf(c).read[|Events(tail[..j - |ReplayOf(c, encode)|])|];
      FromLive(c, item, rows, published, i, encode);
    }
  }

  lemma FromLive(c: Conn, item: B.Item, rows: seq<EventRow>, published: set<nat>, i: nat, encode: EventRow -> string)
    requires c.live.Some? && Sourced(c, encode) && Earlier(c, rows, published)
    requires i in published && Bus.Render(QueueOf(c).wanted, item).id >= rows[i].id > 0
    ensures i in c.published
  {
    assert item.Pub? && item.n < |QueueOf(c).wanted| && FromRow(c, QueueOf(c).wanted[item.n], encode);
    var b :| b in c.published && QueueOf(c).wanted[item.n] == EventOf(c.rows[b], encode);
    assert rows[b] == c.rows[b] && rows[i].id <= rows[b].id;
  }

  /** One connection shows what lies between the id that it started from and the one it
      leaves. */
  lemma OneConnection(s: Session, rows: seq<EventRow>, published: set<nat>, i: nat, encode: EventRow -> string)
    requires Proper(s, encode) && NothingPassed(End(s, encode), encode) && Earlier(End(s, encode), rows, published)
    requires i in published && s.from.last < rows[i].id <= HeldAfter(s, encode)
    requires s.from.last == 0 ==> i !in End(s, encode).published || Due(End(s, encode), i, encode)
    ensures Shows(s, i, encode)
  {
    var c := End(s, encode);
    ProperIsRegular(s, encode);
    HeldWasPublished(c, s.tail, s.got, rows, published, i, encode);
    var j := HeldIsSent(c, s.tail, s.got, encode);
    assert Due(c, i, encode) && rows[i] == c.rows[i];
    ReachedBy(c, s.tail, s.got, j, i, encode);
  }

  lemma ChainedInit(ss: seq<Session>, n: nat, encode: EventRow -> string)
    requires Chained(ss, encode) && n <= |ss|
    ensures Chained(ss[..n], encode)
  {
    forall m | 0 <= m < n
      ensures Continues(ss[..n][..m], End(ss[m], encode).rows, End(ss[m], encode).published, encode)
    {
      assert ss[..n][..m] == ss[..m];
    }
  }

  /** No gap over any number of cuts, as long as each leaves an id: every published row that is
      owed, up to the id held after the last, was shown by some connection, as itself or by a
      later resync. */
  lemma {:induction false} NoGapOverSessions(ss: seq<Session>, rows: seq<EventRow>, published: set<nat>, i: nat,
                                             encode: EventRow -> string) returns (m: nat)
    requires ss != [] && Chained(ss, encode) && Continues(ss, rows, published, encode)
    requires forall m :: 0 <= m < |ss| ==> HeldAfter(ss[m], encode) > 0
    requires i in published && i < |rows| && Owed(ss[0], rows, i, encode)
    requires rows[i].id <= HeldAfter(ss[|ss| - 1], encode)
    ensures m < |ss| && Shows(ss[m], i, encode)
  {
    m := |ss| - 1;
    if ss[m].from.last < rows[i].id {
      assert m > 0 ==> ss[m].from.last == HeldAfter(ss[m - 1], encode);
      OneConnection(ss[m], rows, published, i, encode);
    } else {
      assert ss[m].from.last == HeldAfter(ss[m - 1], encode);
      ChainedInit(ss, m, encode);
      m := NoGapOverSessions(ss[..m], rows, published, i, encode);
    }
  }

  lemma NoLossIfKept(ss: seq<Session>, encode: EventRow -> string)
    requires ss != [] && Chained(ss, encode) && forall m :: 0 <= m < |ss| ==> HeldAfter(ss[m], encode) > 0
    ensures SafeWhatever(ss, encode)
  {
    forall rows: seq<EventRow>, published: set<nat> | Continues(ss, rows, published, encode)
      ensures NoLoss(ss, rows, published, encode)
    {
      forall i | i in published && i < |rows| && Owed(ss[0], rows, i, encode)
        ensures ShownBy(ss, i, encode) || 0 < HeldAfter(ss[|ss| - 1], encode) < rows[i].id
      {
        if rows[i].id <= HeldAfter(ss[|ss| - 1], encode) {
          var m := NoGapOverSessions(ss, rows, published, i, encode);
        }
      }
    }
  }

  // ---- After a connection that leaves none ----

  /** A row committed and published while nobody is connected. */
  function Fresh(c: Conn, floor: nat): EventRow {
    var top := MaxId(c.rows);
    EventRow((if top < floor then floor else top) + 1, 1, 0, STATE_CHANGE, "tier0", "received", "triaging", NoPayload)
  }

  lemma FreshContinues(ss: seq<Session>, floor: nat, encode: EventRow -> string)
    requires ss != [] && Chained(ss, encode)
    ensures var c := End(ss[|ss| - 1], encode);
            Continues(ss, c.rows + [Fresh(c, floor)], c.published + {|c.rows|}, encode)
  {
    var n := |ss| - 1;
    var c := End(ss[n], encode);
    ProperIsRegular(ss[n], encode);
    MaxIdIsMax(c.rows);
    forall m | 0 <= m < |ss| ensures Earlier(End(ss[m], encode), c.rows + [Fresh(c, floor)], c.published + {|c.rows|}) {
      EarlierOrLast(ss, m, encode);
      FreshEarlier(End(ss[m], encode), c, floor);
    }
  }

  lemma EarlierOrLast(ss: seq<Session>, m: nat, encode: EventRow -> string)
    requires Chained(ss, encode) && m < |ss|
    ensures var c := End(ss[|ss| - 1], encode);
            m == |ss| - 1 || Earlier(End(ss[m], encode), c.rows, c.published)
  {
    var n := |ss| - 1;
    if m < n {
      assert ss[..n][m] == ss[m];
      assert Continues(ss[..n], End(ss[n], encode).rows, End(ss[n], encode).published, encode);
    }
  }

  lemma FreshEarlier(d: Conn, c: Conn, floor: nat)
    requires IdsIncrease(c.rows) && (forall i :: i in c.published ==> i < |c.rows|)
    requires forall i :: 0 <= i < |c.rows| ==> c.rows[i].id <= MaxId(c.rows)
    requires d == c || Earlier(d, c.rows, c.published)
    ensures Earlier(d, c.rows + [Fresh(c, floor)], c.published + {|c.rows|})
  {}

  lemma Lost(ss: seq<Session>, rows: seq<EventRow>, published: set<nat>, i: nat, encode: EventRow -> string)
    requires ss != [] && Chained(ss, encode) && Continues(ss, rows, published, encode)
    requires i in published && i < |rows| && Owed(ss[0], rows, i, encode) && !ShownBy(ss, i, encode)
    requires HeldAfter(ss[|ss| - 1], encode) == 0
    ensures !SafeWhatever(ss, encode)
  {
    assert !NoLoss(ss, rows, published, encode);
  }

  /** What was not there yet was not shown. */
  lemma LaterUnshown(ss: seq<Session>, encode: EventRow -> string)
    requires ss != [] && Chained(ss, encode)
    ensures !ShownBy(ss, |End(ss[|ss| - 1], encode).rows|, encode)
  {
    forall m | 0 <= m < |ss| ensures |End(ss[m], encode).rows| <= |End(ss[|ss| - 1], encode).rows| {
      EarlierOrLast(ss, m, encode);
    }
  }

  /** Then a row is lost. */
  lemma LossAfterNone(ss: seq<Session>, encode: EventRow -> string)
    requires ss != [] && Chained(ss, encode) && HeldAfter(ss[|ss| - 1], encode) == 0
    ensures !SafeWhatever(ss, encode)
  {
    var c := End(ss[|ss| - 1], encode);
    var floor := ss[0].from.last;
    FreshContinues(ss, floor, encode);
    LaterUnshown(ss, encode);
    FirstPublished(ss, encode);
    Lost(ss, c.rows + [Fresh(c, floor)], c.published + {|c.rows|}, |c.rows|, encode);
  }

  lemma FirstPublished(ss: seq<Session>, encode: EventRow -> string)
    requires ss != [] && Chained(ss, encode)
    ensures |End(ss[|ss| - 1], encode).rows| !in End(ss[0], encode).published
  {
    ProperIsRegular(ss[0], encode);
    EarlierOrLast(ss, 0, encode);
  }

  // ---- Exactly when ----

  /** After each of the connections. */
  ghost predicate SafeAllAlong(ss: seq<Session>, encode: EventRow -> string) {
    forall n | 1 <= n <= |ss| :: SafeAfter(ss[..n], encode)
  }

  ghost predicate SafeAfter(ss: seq<Session>, encode: EventRow -> string) {
    ss != [] && Chained(ss, encode) && SafeWhatever(ss, encode)
  }

  lemma SafeIfHeld(ss: seq<Session>, encode: EventRow -> string)
    requires Chained(ss, encode) && forall m :: 0 <= m < |ss| ==> HeldAfter(ss[m], encode) > 0
    ensures SafeAllAlong(ss, encode)
  {
    forall n | 1 <= n <= |ss| ensures SafeAfter(ss[..n], encode) {
      ChainedInit(ss, n, encode);
      NoLossIfKept(ss[..n], encode);
    }
  }

  lemma UnsafeIfNone(ss: seq<Session>, m: nat, encode: EventRow -> string)
    requires Chained(ss, encode) && m < |ss| && HeldAfter(ss[m], encode) == 0
    ensures !SafeAllAlong(ss, encode)
  {
    ChainedInit(ss, m + 1, encode);
    LossAfterNone(ss[..m + 1], encode);
    assert !SafeAfter(ss[..m + 1], encode);
  }

  /** Reconnecting is safe, after each of the connections and whatever is published afterwards,
      if and only if every connection left the browser an id: it got nothing and held one, or
      got an event that has one. A connection that brought only heartbeats or resyncs takes the
      id away, and what is published before the next one is lost. */
  lemma SafeIffIdsKept(ss: seq<Session>, encode: EventRow -> string)
    requires Chained(ss, encode)
    ensures SafeAllAlong(ss, encode) <==> forall m :: 0 <= m < |ss| ==> KeepsId(ss[m], encode)
  {
    forall m | 0 <= m < |ss| ensures HeldAfter(ss[m], encode) > 0 <==> KeepsId(ss[m], encode) {
      KeepsIdIff(ss[m], encode);
    }
    if forall m :: 0 <= m < |ss| ==> KeepsId(ss[m], encode) {
      SafeIfHeld(ss, encode);
    } else {
      var m :| 0 <= m < |ss| && !KeepsId(ss[m], encode);
      UnsafeIfNone(ss, m, encode);
    }
  }
}
