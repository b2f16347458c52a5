/** A browser that watches a run of the pipeline: what the process loop commits and publishes
    is what the connections carry, and nothing else orders their rows. */
module Watching {
  import opened Wrappers
  import opened Store
  import opened StoreRuns
  import P = Pipeline
  import PipelineIngest
  import PipelineTrail
  import B = BusQueue
  import opened Stream
  import opened Sessions
  import opened Reconnects
  import Sse

  // ---- One connection over a run ----

  /** The pipeline works, or the browser's side does. */
  datatype Move = Work(p: P.Step) | Browse(s: Step)

  function IndexOf(rows: seq<EventRow>, row: EventRow): (i: nat)
    ensures row in rows ==> i < |rows| && rows[i] == row
  {
    if rows == [] then 0
    else if rows[|rows| - 1] == row then |rows| - 1
    else IndexOf(rows[..|rows| - 1], row)
  }

  /** The rows that have been published. */
  ghost function PublishedIn(w: P.World): set<nat> {
    set i: nat | i < |w.t.events| && w.t.events[i] in w.published
  }

  /** What a connection sees of a pipeline step. */
  function Emits(w: P.World, w': P.World): seq<Step> {
    if |w'.t.events| > |w.t.events| then [Commit(w'.t.events[|w'.t.events| - 1])]
    else if |w'.published| > |w.published| then
      [Publish(IndexOf(w'.t.events, w'.published[|w'.published| - 1]))]
    else []
  }

  /** The hub's lock is held by a running overflow. */
  predicate Locked(c: Conn) { c.live.Some? && QueueOf(c).draining }

  /** The world and the connection's steps after some moves. A publication waits for the hub's
      lock. */
  function Watch(w: P.World, from: Conn, moves: seq<Move>, encode: EventRow -> string): (P.World, seq<Step>) {
    if moves == [] then (w, [])
    else
      var (v, steps) := Watch(w, from, moves[..|moves| - 1], encode);
      match moves[|moves| - 1]
      case Work(p) =>
        if p.Publish? && Locked(Stream.Run(from, steps, encode)) then (v, steps)
        else (P.Next(v, p), steps + Emits(v, P.Next(v, p)))
      case Browse(s) => if s.Commit? || s.Publish? then (v, steps) else (v, steps + [s])
  }

  /** The connection carries the run's trail and its publications, in the order in which they
      were made. */
  ghost predicate Mirrors(w: P.World, c: Conn, encode: EventRow -> string) {
    && PipelineTrail.PublishedCommitted(w) && c.rows == w.t.events && c.published == PublishedIn(w)
    && (c.live.Some? ==> exists k: nat :: WantedSince(w, c, k, encode))
  }

  ghost predicate WantedSince(w: P.World, c: Conn, k: nat, encode: EventRow -> string) {
    c.live.Some? && k <= |w.published| && QueueOf(c).wanted == Mapped(w.published[k..], encode)
  }

  /** A step of the pipeline commits one row, or publishes one, or neither. */
  lemma WorkEffect(w: P.World, s: P.Step)
    requires PipelineTrail.PublishedCommitted(w)
    ensures var w' := P.Next(w, s);
            && PipelineTrail.PublishedCommitted(w')
            && ((w'.t.events == w.t.events && w'.published == w.published)
                || (w'.published == w.published && |w'.t.events| == |w.t.events| + 1
                    && w'.t.events == w.t.events + [w'.t.events[|w.t.events|]])
                || (s.Publish? && w'.t.events == w.t.events && |w'.published| == |w.published| + 1
                    && w'.published == w.published + [w'.published[|w.published|]]))
  {
    PipelineTrail.PublishedNext(w, s);
    TrailStep(w, s);
    PublishedStep(w, s);
  }

  lemma TrailStep(w: P.World, s: P.Step)
    ensures var rows := P.Next(w, s).t.events;
            rows == w.t.events || (|rows| == |w.t.events| + 1 && rows[..|w.t.events|] == w.t.events)
    ensures s.Publish? ==> P.Next(w, s).t.events == w.t.events
  {
    PipelineIngest.TablesFollow(w, s);
    if PipelineIngest.OpOf(w, s).Some? { TrailOp(w.t, PipelineIngest.OpOf(w, s).value); }
  }

  lemma TrailOp(t: Tables, op: Op)
    ensures var rows := Apply(t, op).events;
            rows == t.events || (|rows| == |t.events| + 1 && rows[..|t.events|] == t.events)
  {}

  lemma PublishedStep(w: P.World, s: P.Step)
    ensures var rows := P.Next(w, s).published;
            rows == w.published || (s.Publish? && |rows| == |w.published| + 1 && rows[..|w.published|] == w.published)
  {}

  lemma RunSnoc(c: Conn, steps: seq<Step>, s: Step, encode: EventRow -> string)
    ensures Stream.Run(c, steps + [s], encode) == Next(Stream.Run(c, steps, encode), s, encode)
  {
    assert (steps + [s])[..|steps|] == steps;
  }

  lemma CommitMirrored(w: P.World, w': P.World, c: Conn, encode: EventRow -> string)
    requires Mirrors(w, c, encode) && PipelineTrail.PublishedCommitted(w') && w'.published == w.published
    requires |w'.t.events| == |w.t.events| + 1 && w'.t.events == w.t.events + [w'.t.events[|w.t.events|]]
    ensures Mirrors(w', Next(c, Commit(w'.t.events[|w.t.events|]), encode), encode)
  {
    var c' := Next(c, Commit(w'.t.events[|w.t.events|]), encode);
    var n := |w.t.events|;
    assert w'.t.events[n] !in w.t.events by {
      forall a | 0 <= a < n ensures w.t.events[a] != w'.t.events[n] { assert w'.t.events[a].id < w'.t.events[n].id; }
    }
    assert forall i: nat :: i < n ==> w'.t.events[i] == w.t.events[i];
    assert PublishedIn(w') == PublishedIn(w);
    if c.live.Some? {
      var k: nat :| WantedSince(w, c, k, encode);
      assert QueueOf(c') == QueueOf(c) && WantedSince(w', c', k, encode);
    }
  }

  lemma PublishedMore(w: P.World, w': P.World, i: nat)
    requires PipelineTrail.PublishedCommitted(w') && w'.t.events == w.t.events && |w'.published| == |w.published| + 1
    requires w'.published == w.published + [w'.published[|w.published|]]
    requires i < |w.t.events| && w.t.events[i] == w'.published[|w.published|]
    ensures PublishedIn(w') == PublishedIn(w) + {i}
  {
    forall j: nat | j < |w.t.events| && w.t.events[j] == w.t.events[i] ensures j == i { OnePosition(w.t.events, j, i); }
  }

  lemma OnePosition(rows: seq<EventRow>, j: nat, i: nat)
    requires IdsIncrease(rows) && j < |rows| && i < |rows| && rows[j].id == rows[i].id
    ensures j == i
  {}

  lemma PublishMirrored(w: P.World, w': P.World, c: Conn, encode: EventRow -> string)
    requires Mirrors(w, c, encode) && PipelineTrail.PublishedCommitted(w') && w'.t.events == w.t.events && !Locked(c)
    requires |w'.published| == |w.published| + 1 && w'.published == w.published + [w'.published[|w.published|]]
    ensures Mirrors(w', Next(c, Publish(IndexOf(w'.t.events, w'.published[|w.published|])), encode), encode)
  {
    var row := w'.published[|w.published|];
    var i := IndexOf(w'.t.events, row);
    var c' := Next(c, Publish(i), encode);
    assert row in w'.t.events;
    PublishedMore(w, w', i);
    if c.live.Some? {
      var k: nat :| WantedSince(w, c, k, encode);
      B.RunSnoc(B.Init(c.cap), c.live.value, B.Send(EventOf(row, encode)));
      MappedMore(w.published[k..], row, encode);
      assert w'.published[k..] == w.published[k..] + [row];
      assert WantedSince(w', c', k, encode);
    }
  }

  lemma MappedMore(rows: seq<EventRow>, row: EventRow, encode: EventRow -> string)
    ensures Mapped(rows + [row], encode) == Mapped(rows, encode) + [EventOf(row, encode)]
  {}

  lemma SameMirrored(w: P.World, w': P.World, c: Conn, encode: EventRow -> string)
    requires Mirrors(w, c, encode) && PipelineTrail.PublishedCommitted(w')
    requires w'.t.events == w.t.events && w'.published == w.published
    ensures Mirrors(w', c, encode)
  {
    assert PublishedIn(w') == PublishedIn(w);
    if c.live.Some? {
      var k: nat :| WantedSince(w, c, k, encode);
      assert WantedSince(w', c, k, encode);
    }
  }

  lemma BrowseMirrored(w: P.World, c: Conn, s: Step, encode: EventRow -> string)
    requires Mirrors(w, c, encode) && !s.Commit? && !s.Publish?
    ensures Mirrors(w, Next(c, s, encode), encode)
  {
    var c' := Next(c, s, encode);
    if c'.live.Some? {
      if c.live.Some? {
        var k: nat :| WantedSince(w, c, k, encode);
        if s.Client? && c' != c { WantedNext(c.cap, c.live.value, s.a); }
        assert WantedSince(w, c', k, encode);
      } else {
        assert w.published[|w.published|..] == [] && B.Run(B.Init(c.cap), []) == B.Init(c.cap);
        assert WantedSince(w, c', |w.published|, encode);
      }
    }
  }

  lemma WorkMirrored(w: P.World, p: P.Step, from: Conn, steps: seq<Step>, encode: EventRow -> string)
    requires Mirrors(w, Stream.Run(from, steps, encode), encode)
    requires !(p.Publish? && Locked(Stream.Run(from, steps, encode)))
    ensures Mirrors(P.Next(w, p), Stream.Run(from, steps + Emits(w, P.Next(w, p)), encode), encode)
  {
    var w' := P.Next(w, p);
    WorkEffect(w, p);
    if w'.t.events == w.t.events && w'.published == w.published {
      assert steps + [] == steps;
      SameMirrored(w, w', Stream.Run(from, steps, encode), encode);
    } else if w'.published == w.published {
      RunSnoc(from, steps, Commit(w'.t.events[|w.t.events|]), encode);
      CommitMirrored(w, w', Stream.Run(from, steps, encode), encode);
    } else {
      RunSnoc(from, steps, Publish(IndexOf(w'.t.events, w'.published[|w.published|])), encode);
      PublishMirrored(w, w', Stream.Run(from, steps, encode), encode);
    }
  }

  lemma {:induction false} WatchMirrors(w: P.World, from: Conn, moves: seq<Move>, encode: EventRow -> string)
    requires Mirrors(w, from, encode)
    ensures var (w', steps) := Watch(w, from, moves, encode); Mirrors(w', Stream.Run(from, steps, encode), encode)
  {
    if moves == [] {
    } else {
      WatchMirrors(w, from, moves[..|moves| - 1], encode);
      var (v, steps) := Watch(w, from, moves[..|moves| - 1], encode);
      match moves[|moves| - 1]
      case Work(p) =>
        if !(p.Publish? && Locked(Stream.Run(from, steps, encode))) { WorkMirrored(v, p, from, steps, encode); }
      case Browse(s) =>
        if !s.Commit? && !s.Publish? {
          RunSnoc(from, steps, s, encode);
          BrowseMirrored(v, Stream.Run(from, steps, encode), s, encode);
        }
    }
  }

  /** Publications reach a connection in id order. */
  lemma WantedAscends(w: P.World, c: Conn, encode: EventRow -> string)
    requires Mirrors(w, c, encode) && c.live.Some?
    ensures Ascending(QueueOf(c).wanted)
  {
    var k: nat :| WantedSince(w, c, k, encode);
    var late := w.published[k..];
    assert forall i :: 0 <= i < |late| ==> late[i] == w.published[k + i];
  }

  // ---- Any number of connections over one run ----

  /** What the pipeline does while nobody is connected, and then a connection: its moves, what
      its handler wrote after the replay, and how much of it got through. */
  datatype Visit = Visit(offline: seq<P.Step>, cap: nat, moves: seq<Move>, tail: seq<Sse.Chunk>, got: nat)

  function IdLeft(s: Session, encode: EventRow -> string): nat {
    if s.got <= |SentIn(s, encode)| then HeldAfter(s, encode) else 0
  }

  /** The connection of a visit, by a browser that holds an id, to the pipeline. */
  ghost function Arrival(w: P.World, held: nat, v: Visit, encode: EventRow -> string): (P.World, Session) {
    var u := P.Run(w, v.offline);
    var from := Reconnecting(v.cap, held, u.t.events, PublishedIn(u));
    var (u', steps) := Watch(u, from, v.moves, encode);
    (u', Session(from, steps, v.tail, v.got))
  }

  /** Where the pipeline has got to, the id held, and the connections so far. */
  ghost function Visited(w: P.World, held: nat, vs: seq<Visit>, encode: EventRow -> string)
    : (P.World, nat, seq<Session>)
  {
    if vs == [] then (w, held, [])
    else
      var (v, h, ss) := Visited(w, held, vs[..|vs| - 1], encode);
      var (u, s) := Arrival(v, h, vs[|vs| - 1], encode);
      (u, IdLeft(s, encode), ss + [s])
  }

  /** As the handler serves a connection: subscribed before a replay that fits one page, all
      that is read is written, and nothing unreplayed is passed over. */
  ghost predicate Served(s: Session, encode: EventRow -> string) {
    var c := End(s, encode);
    && s.from.cap >= 2 && Tail(c, s.tail) && s.got <= |SentIn(s, encode)| && NothingPassed(c, encode)
    && (c.replayed.Some? ==> c.inTime && c.atRead <= |c.rows| && |After(c.rows[..c.atRead], c.last)| <= REPLAY_LIMIT)
  }

  /** The trail and its publications, from one world to a later one. */
  ghost predicate WorldGrew(w: P.World, w': P.World) {
    && PipelineTrail.PublishedCommitted(w) && PipelineTrail.PublishedCommitted(w')
    && w.t.events <= w'.t.events && w.published <= w'.published
  }

  lemma GrewOf(w: P.World, w': P.World)
    requires WorldGrew(w, w')
    ensures Grew(w.t.events, PublishedIn(w), w'.t.events, PublishedIn(w'))
  {
    forall b | b in PublishedIn(w) ensures b in PublishedIn(w') { assert w'.t.events[b] == w.t.events[b]; }
    forall i, b | i in PublishedIn(w') && i !in PublishedIn(w) && b in PublishedIn(w)
      ensures w'.t.events[b].id < w'.t.events[i].id
    {
      LaterPublished(w, w', i, b);
    }
  }

  lemma LaterPublished(w: P.World, w': P.World, i: nat, b: nat)
    requires WorldGrew(w, w') && i in PublishedIn(w') && i !in PublishedIn(w) && b in PublishedIn(w)
    ensures w'.t.events[b].id < w'.t.events[i].id
  {
    var p :| 0 <= p < |w'.published| && w'.published[p] == w'.t.events[i];
    var q :| 0 <= q < |w.published| && w.published[q] == w.t.events[b];
    assert w'.published[q] == w.published[q] && w'.t.events[b] == w.t.events[b];
    if p < |w.published| { InTrail(w, w', i, p); }
  }

  /** What was published was in the trail by then. */
  lemma InTrail(w: P.World, w': P.World, i: nat, p: nat)
    requires WorldGrew(w, w') && i < |w'.t.events| && p < |w.published| && w'.published[p] == w'.t.events[i]
    ensures i in PublishedIn(w)
  {
    assert w.published[p] == w'.published[p] && w.published[p] in w.t.events;
    var a :| 0 <= a < |w.t.events| && w.t.events[a] == w.published[p];
    assert w'.t.events[a] == w.t.events[a];
    OnePosition(w'.t.events, a, i);
  }

  lemma NextGrew(w: P.World, p: P.Step)
    requires PipelineTrail.PublishedCommitted(w)
    ensures WorldGrew(w, P.Next(w, p))
  {
    WorkEffect(w, p);
  }

  lemma {:induction false} RunGrew(w: P.World, steps: seq<P.Step>)
    requires PipelineTrail.PublishedCommitted(w)
    ensures WorldGrew(w, P.Run(w, steps))
  {
    if steps == [] {
    } else {
      RunGrew(w, steps[..|steps| - 1]);
      NextGrew(P.Run(w, steps[..|steps| - 1]), steps[|steps| - 1]);
    }
  }

  lemma {:induction false} WatchGrew(w: P.World, from: Conn, moves: seq<Move>, encode: EventRow -> string)
    requires PipelineTrail.PublishedCommitted(w)
    ensures WorldGrew(w, Watch(w, from, moves, encode).0)
  {
    if moves == [] {
    } else {
      WatchGrew(w, from, moves[..|moves| - 1], encode);
      var v := Watch(w, from, moves[..|moves| - 1], encode).0;
      if moves[|moves| - 1].Work? { NextGrew(v, moves[|moves| - 1].p); }
    }
  }

  lemma GrewTransitive(a: seq<EventRow>, pa: set<nat>, b: seq<EventRow>, pb: set<nat>, c: seq<EventRow>, pc: set<nat>)
    requires Grew(a, pa, b, pb) && Grew(b, pb, c, pc)
    ensures Grew(a, pa, c, pc)
  {
    forall i, x | i in pc && i !in pa && x in pa ensures c[x].id < c[i].id {
      assert c[x] == b[x];
      if i in pb { assert c[i] == b[i]; }
    }
  }

  /** What a visit's connection is, and what it leaves behind. */
  lemma ArrivalIs(w: P.World, held: nat, v: Visit, encode: EventRow -> string)
    requires PipelineTrail.PublishedCommitted(w) && Served(Arrival(w, held, v, encode).1, encode)
    ensures var (u, s) := Arrival(w, held, v, encode);
            && Proper(s, encode) && s.from.last == held && WorldGrew(w, u)
            && End(s, encode).rows == u.t.events && End(s, encode).published == PublishedIn(u)
  {
    var o := P.Run(w, v.offline);
    var from := Reconnecting(v.cap, held, o.t.events, PublishedIn(o));
    RunGrew(w, v.offline);
    WatchMirrors(o, from, v.moves, encode);
    WatchGrew(o, from, v.moves, encode);
    var (u, steps) := Watch(o, from, v.moves, encode);
    if Stream.Run(from, steps, encode).live.Some? { WantedAscends(u, Stream.Run(from, steps, encode), encode); }
  }

  /** The connections so far are chained, and the pipeline has grown past each of them. */
  ghost predicate InOrder(w: P.World, held: nat, ss: seq<Session>, encode: EventRow -> string) {
    && PipelineTrail.PublishedCommitted(w) && Chained(ss, encode)
    && Continues(ss, w.t.events, PublishedIn(w), encode)
    && (ss != [] ==> held == HeldAfter(ss[|ss| - 1], encode))
  }

  lemma GrownContinues(ss: seq<Session>, w: P.World, w': P.World, encode: EventRow -> string)
    requires Continues(ss, w.t.events, PublishedIn(w), encode) && WorldGrew(w, w')
    ensures Continues(ss, w'.t.events, PublishedIn(w'), encode)
  {
    GrewOf(w, w');
    forall m | 0 <= m < |ss| ensures Earlier(End(ss[m], encode), w'.t.events, PublishedIn(w')) {
      var c := End(ss[m], encode);
      GrewTransitive(c.rows, c.published, w.t.events, PublishedIn(w), w'.t.events, PublishedIn(w'));
    }
  }

  lemma ChainedMore(ss: seq<Session>, s: Session, encode: EventRow -> string)
    requires Chained(ss, encode) && Proper(s, encode) && NothingPassed(End(s, encode), encode)
    requires ss != [] ==> s.from.last == HeldAfter(ss[|ss| - 1], encode)
    requires Continues(ss, End(s, encode).rows, End(s, encode).published, encode)
    ensures Chained(ss + [s], encode)
  {
    ProperAll(ss, s, encode);
    HeldAll(ss, s, encode);
    ContinuesAll(ss, s, encode);
  }

  lemma ProperAll(ss: seq<Session>, s: Session, encode: EventRow -> string)
    requires forall m :: 0 <= m < |ss| ==> Proper(ss[m], encode) && NothingPassed(End(ss[m], encode), encode)
    requires Proper(s, encode) && NothingPassed(End(s, encode), encode)
    ensures var all := ss + [s];
            forall m :: 0 <= m < |all| ==> Proper(all[m], encode) && NothingPassed(End(all[m], encode), encode)
  {
    var all := ss + [s];
    forall m | 0 <= m < |all| ensures Proper(all[m], encode) && NothingPassed(End(all[m], encode), encode) {
      assert all[m] == if m < |ss| then ss[m] else s;
    }
  }

  lemma HeldAll(ss: seq<Session>, s: Session, encode: EventRow -> string)
    requires forall m :: 0 <= m < |ss| ==> ss[m].got <= |SentIn(ss[m], encode)|
    requires forall m :: 0 < m < |ss| ==> ss[m].from.last == HeldAfter(ss[m - 1], encode)
    requires ss != [] ==> s.from.last == HeldAfter(ss[|ss| - 1], encode)
    requires s.got <= |SentIn(s, encode)|
    ensures var all := ss + [s];
            && (forall m :: 0 <= m < |all| ==> all[m].got <= |SentIn(all[m], encode)|)
            && forall m :: 0 < m < |all| ==> all[m].from.last == HeldAfter(all[m - 1], encode)
  {
    var all := ss + [s];
    forall m | 0 < m < |all| ensures all[m].from.last == HeldAfter(all[m - 1], encode) {
      assert all[m - 1] == ss[m - 1] && all[m] == if m < |ss| then ss[m] else s;
    }
  }

  lemma ContinuesAll(ss: seq<Session>, s: Session, encode: EventRow -> string)
    requires forall m :: 0 <= m < |ss| ==>
               Continues(ss[..m], End(ss[m], encode).rows, End(ss[m], encode).published, encode)
    requires Continues(ss, End(s, encode).rows, End(s, encode).published, encode)
    ensures var all := ss + [s];
            forall m :: 0 <= m < |all| ==>
              Continues(all[..m], End(all[m], encode).rows, End(all[m], encode).published, encode)
  {
    var all := ss + [s];
    forall m | 0 <= m < |all|
      ensures Continues(all[..m], End(all[m], encode).rows, End(all[m], encode).published, encode)
    {
      ContinuesMore(ss, s, m, encode);
    }
  }

  lemma ContinuesMore(ss: seq<Session>, s: Session, m: nat, encode: EventRow -> string)
    requires m <= |ss| && Continues(ss, End(s, encode).rows, End(s, encode).published, encode)
    requires m < |ss| ==> Continues(ss[..m], End(ss[m], encode).rows, End(ss[m], encode).published, encode)
    ensures var all := ss + [s]; Continues(all[..m], End(all[m], encode).rows, End(all[m], encode).published, encode)
  {
    if m < |ss| {
      assert (ss + [s])[..m] == ss[..m];
    } else {
      assert (ss + [s])[..m] == ss;
    }
  }

  lemma VisitInOrder(w: P.World, held: nat, ss: seq<Session>, v: Visit, encode: EventRow -> string)
    requires InOrder(w, held, ss, encode) && Served(Arrival(w, held, v, encode).1, encode)
    ensures var (u, s) := Arrival(w, held, v, encode); InOrder(u, IdLeft(s, encode), ss + [s], encode)
  {
    var (u, s) := Arrival(w, held, v, encode);
    ArrivalIs(w, held, v, encode);
    GrownContinues(ss, w, u, encode);
    ChainedMore(ss, s, encode);
    GrewOf(u, u);
    forall m | 0 <= m < |ss + [s]| ensures Earlier(End((ss + [s])[m], encode), u.t.events, PublishedIn(u)) {
      if m < |ss| { assert (ss + [s])[m] == ss[m]; }
    }
  }

  lemma {:induction false} VisitsInOrder(w: P.World, held: nat, vs: seq<Visit>, encode: EventRow -> string)
    requires PipelineTrail.PublishedCommitted(w)
    requires forall s :: s in Visited(w, held, vs, encode).2 ==> Served(s, encode)
    ensures var (u, h, ss) := Visited(w, held, vs, encode); InOrder(u, h, ss, encode)
  {
    if vs == [] {
    } else {
      var (v, h, ss) := Visited(w, held, vs[..|vs| - 1], encode);
      var (u, s) := Arrival(v, h, vs[|vs| - 1], encode);
      assert forall x :: x in ss ==> x in ss + [s];
      assert s in ss + [s];
      VisitsInOrder(w, held, vs[..|vs| - 1], encode);
      VisitInOrder(v, h, ss, vs[|vs| - 1], encode);
    }
  }

  /** Over any run of the pipeline from its start: connections that are served as the handler
      serves them are chained, with the order of rows and publications that the process loop
      gives them, so reconnecting is safe if and only if each left the browser an id. */
  lemma ReconnectingToAPipeline(past: seq<P.Step>, held: nat, vs: seq<Visit>, encode: EventRow -> string)
    requires forall s :: s in Visited(P.Run(P.Start(), past), held, vs, encode).2 ==> Served(s, encode)
    ensures var ss := Visited(P.Run(P.Start(), past), held, vs, encode).2;
            && Chained(ss, encode)
            && (SafeAllAlong(ss, encode) <==> forall m :: 0 <= m < |ss| ==> KeepsId(ss[m], encode))
  {
    PipelineTrail.PublishAfterCommit(past);
    VisitsInOrder(P.Run(P.Start(), past), held, vs, encode);
    SafeIffIdsKept(Visited(P.Run(P.Start(), past), held, vs, encode).2, encode);
  }
}
