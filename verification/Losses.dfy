/** Two ways in which a browser misses a row for good, each with a run that does it. */
module Losses {
  import opened Wrappers
  import opened Store
  import opened StoreRuns
  import opened Stream
  import opened Sessions
  import opened Reconnects
  import B = BusQueue
  import Bus
  import Sse

  // ---- A read that falls into an overflow's drain, and a cut before the resync ----

  lemma RunSnoc(c: Conn, steps: seq<Step>, s: Step, encode: EventRow -> string)
    ensures Stream.Run(c, steps + [s], encode) == Next(Stream.Run(c, steps, encode), s, encode)
  {
    assert (steps + [s])[..|steps|] == steps;
  }

  lemma {:induction false} RunAppend(c: Conn, a: seq<Step>, b: seq<Step>, encode: EventRow -> string)
    ensures Stream.Run(c, a + b, encode) == Stream.Run(Stream.Run(c, a, encode), b, encode)
  {
    if b == [] {
      assert a + b == a;
    } else {
      RunAppend(c, a, b[..|b| - 1], encode);
      assert (a + b)[..|a + b| - 1] == a + b[..|b| - 1];
    }
  }

  lemma TwoSteps(c: Conn, a: Step, b: Step, encode: EventRow -> string)
    ensures Stream.Run(c, [a, b], encode) == Next(Next(c, a, encode), b, encode)
  {
    RunSnoc(c, [], a, encode);
    RunSnoc(c, [a], b, encode);
    assert [] + [a] == [a] && [a] + [b] == [a, b];
  }

  lemma ThreeSteps(c: Conn, a: Step, b: Step, d: Step, encode: EventRow -> string)
    ensures Stream.Run(c, [a, b, d], encode) == Next(Next(Next(c, a, encode), b, encode), d, encode)
  {
    TwoSteps(c, a, b, encode);
    RunSnoc(c, [a, b], d, encode);
    assert [a, b] + [d] == [a, b, d];
  }

  /** The queue after three publications into a buffer of two. */
  lemma FullQueue(x: B.Event, y: B.Event, z: B.Event)
    ensures B.Run(B.Init(2), [B.Send(x)]).wanted == [x] && !B.Run(B.Init(2), [B.Send(x)]).draining
    ensures B.Run(B.Init(2), [B.Send(x), B.Send(y)]).wanted == [x, y]
    ensures !B.Run(B.Init(2), [B.Send(x), B.Send(y)]).draining
    ensures var q := B.Run(B.Init(2), [B.Send(x), B.Send(y), B.Send(z)]);
            q.wanted == [x, y, z] && q.buf == [B.Pub(0), B.Pub(1)] && q.read == [] && q.draining
  {
    B.RunSnoc(B.Init(2), [], B.Send(x));
    B.RunSnoc(B.Init(2), [B.Send(x)], B.Send(y));
    B.RunSnoc(B.Init(2), [B.Send(x), B.Send(y)], B.Send(z));
    assert [] + [B.Send(x)] == [B.Send(x)] && [B.Send(x)] + [B.Send(y)] == [B.Send(x), B.Send(y)];
    assert [B.Send(x), B.Send(y)] + [B.Send(z)] == [B.Send(x), B.Send(y), B.Send(z)];
  }

  /** Three rows are there, none of them replayed or published. */
  predicate Ready(c: Conn, x: EventRow, y: EventRow, z: EventRow) {
    && c.cap == 2 && c.rows == [x, y, z] && c.published == {} && c.live == Some([])
    && c.replayed == Some([]) && c.atRead == 0
  }

  lemma GetReady(last: nat, x: EventRow, y: EventRow, z: EventRow, encode: EventRow -> string)
    requires last > 0
    ensures var c := Stream.Run(Reconnecting(2, last, [], {}),
                                [Subscribe, ReplayRead] + [Commit(x), Commit(y), Commit(z)], encode);
            Ready(c, x, y, z) && c.last == last
  {
    var c0 := Reconnecting(2, last, [], {});
    TwoSteps(c0, Subscribe, ReplayRead, encode);
    RunAppend(c0, [Subscribe, ReplayRead], [Commit(x), Commit(y), Commit(z)], encode);
    ThreeSteps(Stream.Run(c0, [Subscribe, ReplayRead], encode), Commit(x), Commit(y), Commit(z), encode);
    assert [] + [x] + [y] + [z] == [x, y, z];
  }

  lemma PublishThree(c: Conn, x: EventRow, y: EventRow, z: EventRow, encode: EventRow -> string)
    requires Ready(c, x, y, z)
    ensures var d := Stream.Run(c, [Publish(0), Publish(1), Publish(2)], encode);
            && d.cap == 2 && d.rows == c.rows && d.last == c.last && d.replayed == Some([])
            && d.published == {0, 1, 2} && d.live.Some? && QueueOf(d).draining && QueueOf(d).read == []
            && QueueOf(d).wanted == [EventOf(x, encode), EventOf(y, encode), EventOf(z, encode)]
            && QueueOf(d).buf == [B.Pub(0), B.Pub(1)]
  {
    var e, f, g := EventOf(x, encode), EventOf(y, encode), EventOf(z, encode);
    FullQueue(e, f, g);
    ThreeSteps(c, Publish(0), Publish(1), Publish(2), encode);
    assert [] + [B.Send(e)] == [B.Send(e)] && [B.Send(e)] + [B.Send(f)] == [B.Send(e), B.Send(f)];
    assert [B.Send(e), B.Send(f)] + [B.Send(g)] == [B.Send(e), B.Send(f), B.Send(g)];
    assert Next(c, Publish(0), encode).live == Some([B.Send(e)]);
    assert Next(Next(c, Publish(0), encode), Publish(1), encode).live == Some([B.Send(e), B.Send(f)]);
  }

  /** The first is discarded and the second read. */
  lemma ReadSecond(d: Conn, encode: EventRow -> string)
    requires d.live.Some? && QueueOf(d).draining && QueueOf(d).read == [] && QueueOf(d).buf == [B.Pub(0), B.Pub(1)]
    ensures var c := Stream.Run(d, [Client(B.Drain), Client(B.Read)], encode);
            && c == d.(live := c.live) && c.live.Some?
            && QueueOf(c).wanted == QueueOf(d).wanted && QueueOf(c).read == [B.Pub(1)]
  {
    TwoSteps(d, Client(B.Drain), Client(B.Read), encode);
    B.RunSnoc(B.Init(d.cap), d.live.value, B.Drain);
    B.RunSnoc(B.Init(d.cap), d.live.value + [B.Drain], B.Read);
  }

  lemma CutAfterSecond(c: Conn, x: EventRow, y: EventRow, z: EventRow, encode: EventRow -> string)
    requires c.rows == [x, y, z] && x.id < y.id < z.id && c.replayed == Some([]) && c.live.Some?
    requires QueueOf(c).wanted == [EventOf(x, encode), EventOf(y, encode), EventOf(z, encode)]
    requires QueueOf(c).read == [B.Pub(1)]
    ensures LostAt(c, 0, y.id, encode)
  {
    assert [B.Pub(1)][..0] == [];
    PlainIsTail(c);
    NotReached(c, 0, 0, 0, encode);
    HeldAtLive(c, 0, encode);
  }

  /** The connection is cut after its only chunk: the browser holds this id, and the row has not
      reached it. */
  ghost predicate LostAt(c: Conn, i: nat, held: nat, encode: EventRow -> string) {
    var tail := Plain(c);
    && Tail(c, tail) && |Sent(c, tail, encode)| == 1 && i < |c.rows| && c.rows[i].id < held
    && Held(c, tail, 1, encode) == held && !Reached(c, tail, 1, i, encode)
  }

  /** What the loss is like: three rows are committed and published into a buffer of two, the
      first is discarded, the second read, and the connection cut. The browser comes back with
      the second row's id; nothing has told it of the first, and nothing will. */
  lemma TornCutLosesARow(last: nat, x: EventRow, y: EventRow, z: EventRow, encode: EventRow -> string)
    requires 0 < last < x.id < y.id < z.id
    ensures var c := Stream.Run(Reconnecting(2, last, [], {}),
                                [Subscribe, ReplayRead] + [Commit(x), Commit(y), Commit(z)]
                                + [Publish(0), Publish(1), Publish(2)] + [Client(B.Drain), Client(B.Read)], encode);
            && c.rows == [x, y, z] && 0 in c.published
            && LostAt(c, 0, y.id, encode)
  {
    var c0 := Reconnecting(2, last, [], {});
    var first := [Subscribe, ReplayRead] + [Commit(x), Commit(y), Commit(z)];
    var second := [Publish(0), Publish(1), Publish(2)];
    GetReady(last, x, y, z, encode);
    RunAppend(c0, first, second, encode);
    RunAppend(c0, first + second, [Client(B.Drain), Client(B.Read)], encode);
    TornFrom(Stream.Run(c0, first, encode), x, y, z, encode);
  }

  lemma TornFrom(c: Conn, x: EventRow, y: EventRow, z: EventRow, encode: EventRow -> string)
    requires Ready(c, x, y, z) && x.id < y.id < z.id
    ensures var c' := Stream.Run(Stream.Run(c, [Publish(0), Publish(1), Publish(2)], encode),
                                 [Client(B.Drain), Client(B.Read)], encode);
            && c'.rows == [x, y, z] && 0 in c'.published
            && LostAt(c', 0, y.id, encode)
  {
    PublishThree(c, x, y, z, encode);
    var d := Stream.Run(c, [Publish(0), Publish(1), Publish(2)], encode);
    ReadSecond(d, encode);
    CutAfterSecond(Stream.Run(d, [Client(B.Drain), Client(B.Read)], encode), x, y, z, encode);
  }

  // ---- A connection that brings no id ----

  /** The first connection, from an id, brings one heartbeat. */
  function Quiet(last: nat): Session {
    Session(Reconnecting(2, last, [], {}), [Subscribe, ReplayRead], [Sse.Heartbeat], 1)
  }

  /** The second, from none, brings the later row. */
  function Later(x: EventRow, y: EventRow, encode: EventRow -> string): Session {
    Session(Reconnecting(2, 0, [x], {0}), [Subscribe, Commit(y), Publish(1)] + [Client(B.Read)],
            [Sse.Ev(EventOf(y, encode))], 1)
  }

  lemma QuietEnd(last: nat, encode: EventRow -> string)
    requires last > 0
    ensures var s := Quiet(last);
            && End(s, encode) == s.from.(live := Some([]), replayed := Some([]), inTime := true)
            && Proper(s, encode) && NothingPassed(End(s, encode), encode) && HeldAfter(s, encode) == 0
  {
    TwoSteps(Quiet(last).from, Subscribe, ReplayRead, encode);
    assert B.Run(B.Init(2), []) == B.Init(2);
    assert [Sse.Heartbeat][..0] == [];
    assert SentIn(Quiet(last), encode)[..1] == [Sse.Heartbeat];
    assert Sse.LastId([Sse.Heartbeat]) == 0;
  }

  lemma OneRead(e: B.Event)
    ensures var q := B.Run(B.Init(2), [B.Send(e), B.Read]); q.wanted == [e] && q.read == [B.Pub(0)]
    ensures !B.Run(B.Init(2), []).draining
  {
    B.RunSnoc(B.Init(2), [], B.Send(e));
    B.RunSnoc(B.Init(2), [B.Send(e)], B.Read);
    assert [] + [B.Send(e)] == [B.Send(e)] && [B.Send(e)] + [B.Read] == [B.Send(e), B.Read];
  }

  lemma LaterEnd(x: EventRow, y: EventRow, encode: EventRow -> string)
    requires 0 < x.id < y.id
    ensures var s := Later(x, y, encode);
            End(s, encode) == s.from.(rows := [x, y], published := {0, 1},
                                      live := Some([B.Send(EventOf(y, encode)), B.Read]))
  {
    var e := EventOf(y, encode);
    var from := Later(x, y, encode).from;
    OneRead(e);
    ThreeSteps(from, Subscribe, Commit(y), Publish(1), encode);
    RunSnoc(from, [Subscribe, Commit(y), Publish(1)], Client(B.Read), encode);
    assert [x] + [y] == [x, y] && [] + [B.Send(e)] == [B.Send(e)] && [B.Send(e)] + [B.Read] == [B.Send(e), B.Read];
  }

  /** A connection without an id that brings one event. */
  ghost predicate BringsOne(s: Session, e: B.Event, encode: EventRow -> string) {
    var c := End(s, encode);
    && s.tail == [Sse.Ev(e)] && s.got == 1 && s.from.last == c.last == 0 && c.replayed.None? && c.live.Some?
    && QueueOf(c).wanted == [e] && QueueOf(c).read == [B.Pub(0)]
  }

  lemma LaterBrings(x: EventRow, y: EventRow, encode: EventRow -> string)
    requires 0 < x.id < y.id
    ensures BringsOne(Later(x, y, encode), EventOf(y, encode), encode)
  {
    OneRead(EventOf(y, encode));
    LaterEnd(x, y, encode);
  }

  lemma OneHeld(s: Session, e: B.Event, encode: EventRow -> string)
    requires BringsOne(s, e, encode) && e.id > 0
    ensures Tail(End(s, encode), s.tail) && s.got <= |SentIn(s, encode)| && HeldAfter(s, encode) == e.id
    ensures NothingPassed(End(s, encode), encode)
    ensures forall i :: 0 <= i < |End(s, encode).rows| && EventOf(End(s, encode).rows[i], encode) != e ==>
              !Shows(s, i, encode)
  {
    var c := End(s, encode);
    assert s.tail[..0] == [] && [B.Pub(0)][..0] == [] && s.tail[..1] == s.tail;
    assert Events(s.tail) == [e] == Bus.Rendered(QueueOf(c).wanted, QueueOf(c).read);
    assert SentIn(s, encode)[..1] == s.tail;
  }

  lemma LaterIs(x: EventRow, y: EventRow, encode: EventRow -> string)
    requires 0 < x.id < y.id
    ensures var s := Later(x, y, encode);
            && Proper(s, encode) && NothingPassed(End(s, encode), encode) && HeldAfter(s, encode) == y.id
            && !Shows(s, 0, encode)
  {
    LaterBrings(x, y, encode);
    LaterEnd(x, y, encode);
    OneHeld(Later(x, y, encode), EventOf(y, encode), encode);
  }

  /** A browser that holds an id gets one heartbeat and is cut off. It comes back without an id;
      the row that was published meanwhile is not replayed, and the next event that gets through
      has a larger id, from which no replay will bring the row either. */
  lemma HeartbeatLosesARow(last: nat, x: EventRow, y: EventRow, encode: EventRow -> string)
    requires 0 < last < x.id < y.id
    ensures var ss := [Quiet(last), Later(x, y, encode)];
            && Chained(ss, encode) && !KeepsId(ss[0], encode) && KeepsId(ss[1], encode)
            && x.id < HeldAfter(ss[1], encode) && !ShownBy(ss, 0, encode)
  {
    var ss := [Quiet(last), Later(x, y, encode)];
    QuietEnd(last, encode);
    LaterIs(x, y, encode);
    LaterEnd(x, y, encode);
    KeepsIdIff(ss[0], encode);
    KeepsIdIff(ss[1], encode);
    assert ss[..0] == [] && ss[..1] == [ss[0]];
  }
}
