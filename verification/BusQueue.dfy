/** One subscriber's queue as a machine of atomic steps.

    The publisher works under the hub's lock, the consumer does not, so a consumer read
    may fall between any two steps of an overflow. A run is any sequence of steps. */
module BusQueue {
  const TYPE_RESYNC := "resync"

  datatype Event = Event(id: int, topic: string, kind: string, data: string)

  /** What a queue slot stands for: the n-th wanted publication, or a resync that
      announces the loss of something published before position `upto`. */
  datatype Item = Pub(n: nat) | Resync(upto: nat)

  /** `read` and `buf` are the items the consumer took and those still queued.
      `dropped`: the drain in progress discarded something behind the last read item.
      `torn` and `silent` are history: a read fell behind a discarded item; an overflow
      ended without a resync since the last resync was queued. */
  datatype Queue = Queue(cap: nat, wanted: seq<Event>, read: seq<Item>, buf: seq<Item>,
                         lastWasResync: bool, draining: bool, dropped: bool,
                         torn: bool, silent: bool)

  datatype Action = Send(ev: Event) | Drain | Read

  function Init(cap: nat): Queue {
    Queue(cap, [], [], [], false, false, false, false, false)
  }

  /** Drain is one round of the drain loop: discard the oldest item, or, once the queue is
      empty, end the overflow. A step that is not enabled changes nothing. */
  function Step(q: Queue, a: Action): Queue {
    match a
    case Send(ev) =>
      if q.draining then q
      else if |q.buf| < q.cap then
        q.(wanted := q.wanted + [ev], buf := q.buf + [Pub(|q.wanted|)], lastWasResync := false)
      else q.(wanted := q.wanted + [ev], draining := true, dropped := false)
    case Drain =>
      if !q.draining then q
      else if q.buf != [] then q.(buf := q.buf[1..], dropped := true)
      else if q.lastWasResync then q.(draining := false, dropped := false, silent := true)
      else
        q.(draining := false, dropped := false, buf := [Resync(|q.wanted|)], lastWasResync := true, silent := false)
    case Read =>
      if q.buf == [] then q
      else q.(read := q.read + [q.buf[0]], buf := q.buf[1..], dropped := false,
              torn := q.torn || (q.draining && q.dropped && q.buf[0].Pub?))
  }

  function Run(q: Queue, acts: seq<Action>): Queue {
    if acts == [] then q else Step(Run(q, acts[..|acts| - 1]), acts[|acts| - 1])
  }

  lemma RunSnoc(q: Queue, log: seq<Action>, a: Action)
    ensures Run(q, log + [a]) == Step(Run(q, log), a)
  {
    assert (log + [a])[..|log|] == log;
  }

  lemma ThreeSteps(q: Queue, a: Action, b: Action, c: Action)
    ensures Run(q, [a, b, c]) == Step(Step(Step(q, a), b), c)
  {
    RunSnoc(q, [], a);
    RunSnoc(q, [a], b);
    RunSnoc(q, [a, b], c);
    assert [] + [a] == [a] && [a] + [b] == [a, b] && [a, b] + [c] == [a, b, c];
  }

  lemma {:induction false} RunAppend(q: Queue, a: seq<Action>, b: seq<Action>)
    ensures Run(q, a + b) == Run(Run(q, a), b)
  {
    if b == [] {
      assert a + b == a;
    } else {
      RunAppend(q, a, b[..|b| - 1]);
      assert (a + b)[..|a + b| - 1] == a + b[..|b| - 1];
    }
  }

  /** Everything the consumer took followed by everything still queued. */
  function Delivered(q: Queue): seq<Item> { q.read + q.buf }

  /** The publication position that would come right after an item, or after a list. */
  function End(i: Item): nat { match i case Pub(n) => n + 1 case Resync(u) => u }

  function Expect(x: seq<Item>): nat { if x == [] then 0 else End(x[|x| - 1]) }

  /** In publication order, and each resync stands for at least one lost publication. */
  ghost predicate Ordered(x: seq<Item>) {
    x != [] ==>
      var init := x[..|x| - 1];
      && Ordered(init)
      && match x[|x| - 1] { case Pub(n) => n >= Expect(init) case Resync(u) => u > Expect(init) }
  }

  /** A publication always follows its predecessor or the resync that covers it. */
  ghost predicate Gapless(x: seq<Item>) {
    x != [] ==>
      var init := x[..|x| - 1];
      && Gapless(init)
      && (x[|x| - 1].Pub? ==> x[|x| - 1].n == Expect(init))
  }

  /** Whatever follows the last resync (everything, if there is none) is the unbroken
      latest run of the n wanted publications. */
  ghost predicate Announced(x: seq<Item>, n: nat)
    decreases |x|
  {
    if x == [] then n == 0
    else match x[|x| - 1]
      case Resync(u) => u == n
      case Pub(k) => n == k + 1 && Announced(x[..|x| - 1], k)
  }

  // ---- The invariant every step keeps ----

  ghost predicate Shape(buf: seq<Item>) {
    forall i :: 1 <= i < |buf| ==> buf[i] == Pub(End(buf[0]) + i - 1)
  }

  /** The head of the queue comes after everything that was read. */
  ghost predicate HeadAfter(read: seq<Item>, buf: seq<Item>) {
    buf != [] ==> if buf[0].Pub? then buf[0].n >= Expect(read) else buf[0].upto > Expect(read)
  }

  ghost predicate Inv(q: Queue) {
    && q.cap >= 1 && |q.buf| <= q.cap
    && (q.dropped ==> q.draining)
    && Ordered(q.read) && HeadAfter(q.read, q.buf) && Shape(q.buf)
    && Expect(Delivered(q)) <= |q.wanted|
    && (!q.draining && q.buf != [] ==> Expect(q.buf) == |q.wanted|)
    && (q.draining ==> Expect(Delivered(q)) < |q.wanted|)
    && (!q.draining ==> (Announced(Delivered(q), |q.wanted|) <==> !q.silent))
  }

  /** What capacity two or more adds: an overflow never finds its last resync unanswered,
      and a gap opens only where an item was read from behind a discarded one. */
  ghost predicate RoomyInv(q: Queue) {
    && (q.lastWasResync ==> |q.buf| <= 1 && !q.draining)
    && !q.silent
    && (q.buf != [] && q.buf[0].Pub? ==> (q.buf[0].n == Expect(q.read) <==> !q.dropped))
    && (Gapless(q.read) <==> !q.torn)
  }

  lemma Snoc(x: seq<Item>, i: Item)
    ensures Expect(x + [i]) == End(i)
    ensures Gapless(x + [i]) <==> Gapless(x) && (i.Pub? ==> i.n == Expect(x))
    ensures Ordered(x + [i]) <==> Ordered(x) && (if i.Pub? then i.n >= Expect(x) else i.upto > Expect(x))
    ensures forall n :: Announced(x + [i], n) <==> (if i.Pub? then n == i.n + 1 && Announced(x, i.n) else n == i.upto)
  {
    assert (x + [i])[..|x|] == x;
  }

  lemma AnnouncedExpect(x: seq<Item>, n: nat)
    requires Announced(x, n)
    ensures Expect(x) == n
  {}

  lemma InvSend(q: Queue, ev: Event)
    requires Inv(q)
    ensures Inv(Step(q, Send(ev)))
  {
    if !q.draining && |q.buf| < q.cap {
      var q' := Step(q, Send(ev));
      TailSent(q.read, q.buf, |q.wanted|);
      assert Delivered(q') == Delivered(q) + [Pub(|q.wanted|)];
    }
  }

  lemma TailSent(read: seq<Item>, buf: seq<Item>, n: nat)
    requires Shape(buf) && HeadAfter(read, buf) && Expect(read + buf) <= n && (buf != [] ==> Expect(buf) == n)
    ensures Shape(buf + [Pub(n)]) && HeadAfter(read, buf + [Pub(n)])
    ensures Expect(buf + [Pub(n)]) == Expect(read + buf + [Pub(n)]) == n + 1
    ensures forall k :: Announced(read + buf + [Pub(n)], k) <==> k == n + 1 && Announced(read + buf, n)
  {
    Snoc(read + buf, Pub(n));
    ShapeSnoc(buf, n);
    assert buf == [] ==> read + buf == read;
  }

  lemma ShapeSnoc(buf: seq<Item>, n: nat)
    requires Shape(buf) && (buf != [] ==> Expect(buf) == n)
    ensures Shape(buf + [Pub(n)])
  {
    if |buf| > 1 { assert buf[|buf| - 1] == Pub(End(buf[0]) + (|buf| - 1) - 1); }
  }

  lemma InvDrain(q: Queue)
    requires Inv(q)
    ensures Inv(Step(q, Drain))
  {
    if q.draining && q.buf == [] {
      var q' := Step(q, Drain);
      assert Delivered(q) == q.read;
      if q.lastWasResync {
        if Announced(q.read, |q.wanted|) { AnnouncedExpect(q.read, |q.wanted|); }
        assert Delivered(q') == q.read;
      } else {
        Snoc(q.read, Resync(|q.wanted|));
        assert Delivered(q') == q.read + [Resync(|q.wanted|)];
      }
    }
  }

  /** Taking the head of a queue in order leaves what was read in order, and the next item
      where it was. */
  lemma HeadTaken(read: seq<Item>, buf: seq<Item>)
    requires Ordered(read) && HeadAfter(read, buf) && Shape(buf) && buf != []
    ensures Ordered(read + [buf[0]]) && HeadAfter(read + [buf[0]], buf[1..]) && Shape(buf[1..])
    ensures buf[1..] != [] ==> Expect(buf[1..]) == Expect(buf)
  {
    Snoc(read, buf[0]);
  }

  lemma InvRead(q: Queue)
    requires Inv(q)
    ensures Inv(Step(q, Read))
  {
    if q.buf != [] {
      HeadTaken(q.read, q.buf);
      assert Delivered(Step(q, Read)) == Delivered(q);
    }
  }

  lemma InvStep(q: Queue, a: Action)
    requires Inv(q)
    ensures Inv(Step(q, a))
  {
    match a
    case Send(ev) => InvSend(q, ev);
    case Drain => InvDrain(q);
    case Read => InvRead(q);
  }

  lemma CapStays(q: Queue, a: Action)
    ensures Step(q, a).cap == q.cap
  {}

  lemma RoomyStep(q: Queue, a: Action)
    requires Inv(q) && RoomyInv(q) && q.cap >= 2
    ensures RoomyInv(Step(q, a))
  {
    if !q.draining { AnnouncedExpect(Delivered(q), |q.wanted|); }
    if q.buf != [] { Snoc(q.read, q.buf[0]); }
  }

  lemma {:induction false} InvRun(cap: nat, acts: seq<Action>)
    requires cap >= 1
    ensures Inv(Run(Init(cap), acts)) && Run(Init(cap), acts).cap == cap
    ensures cap >= 2 ==> RoomyInv(Run(Init(cap), acts))
  {
    if acts == [] {
    } else {
      InvRun(cap, acts[..|acts| - 1]);
      var q := Run(Init(cap), acts[..|acts| - 1]);
      CapStays(q, acts[|acts| - 1]);
      InvStep(q, acts[|acts| - 1]);
      if cap >= 2 { RoomyStep(q, acts[|acts| - 1]); }
    }
  }

  lemma {:induction false} QueuedExtends(read: seq<Item>, buf: seq<Item>)
    requires Ordered(read) && HeadAfter(read, buf) && Shape(buf)
    ensures Ordered(read + buf)
    ensures buf != [] ==> Expect(read + buf) == Expect(buf)
    ensures Gapless(read + buf) <==> Gapless(read) && (buf != [] && buf[0].Pub? ==> buf[0].n == Expect(read))
  {
    if buf == [] {
      assert read + buf == read;
    } else {
      var k := |buf| - 1;
      assert read + buf == (read + buf[..k]) + [buf[k]];
      QueuedExtends(read, buf[..k]);
      Snoc(read + buf[..k], buf[k]);
      if k == 0 { assert read + buf[..0] == read; }
    }
  }

  // ---- The guarantees, for every run ----

  /** Loss accounting: nothing is reordered, every resync stands for a loss, and what
      follows the last resync is the unbroken latest run of the wanted publications. */
  lemma LossAccounting(cap: nat, acts: seq<Action>)
    requires cap >= 2
    ensures var q := Run(Init(cap), acts);
            && |q.buf| <= cap
            && Ordered(Delivered(q))
            && (!q.draining ==> Announced(Delivered(q), |q.wanted|))
  {
    InvRun(cap, acts);
    var q := Run(Init(cap), acts);
    QueuedExtends(q.read, q.buf);
  }

  /** The same at every capacity, with the exact condition: the latest run is announced
      if and only if no overflow ended silently since the last resync was queued. */
  lemma AnnouncedIffNotSilent(cap: nat, acts: seq<Action>)
    requires cap >= 1 && !Run(Init(cap), acts).draining
    ensures var q := Run(Init(cap), acts);
            Announced(Delivered(q), |q.wanted|) <==> !q.silent
  {
    InvRun(cap, acts);
  }

  /** Capacity one does lose publications silently: three sends to a reader that is away,
      then a read and a send, and the fourth event arrives with no notice of the others. */
  lemma CapacityOneCanBeSilent(e: Event)
    ensures var q := Run(Init(1), [Send(e), Send(e), Drain, Drain, Send(e), Drain, Drain, Send(e), Read]);
            !q.draining && q.read == [Pub(3)] && !Announced(Delivered(q), |q.wanted|)
  {
    var a, b, c := [Send(e), Send(e), Drain], [Drain, Send(e), Drain], [Drain, Send(e), Read];
    ThreeSteps(Init(1), Send(e), Send(e), Drain);
    RunAppend(Init(1), a, b);
    ThreeSteps(Run(Init(1), a), Drain, Send(e), Drain);
    assert Run(Init(1), a + b).buf == [] && Run(Init(1), a + b).lastWasResync;
    RunAppend(Init(1), a + b, c);
    ThreeSteps(Run(Init(1), a + b), Drain, Send(e), Read);
    assert a + b + c == [Send(e), Send(e), Drain, Drain, Send(e), Drain, Drain, Send(e), Read];
    assert Delivered(Run(Init(1), a + b + c)) == [Pub(3)];
  }

  /** Each lost block is replaced by a resync exactly when no consumer read fell behind an
      item the running drain had already discarded. */
  lemma GaplessIffNotTorn(cap: nat, acts: seq<Action>)
    requires cap >= 2 && !Run(Init(cap), acts).draining
    ensures var q := Run(Init(cap), acts);
            Gapless(Delivered(q)) <==> !q.torn
  {
    InvRun(cap, acts);
    var q := Run(Init(cap), acts);
    QueuedExtends(q.read, q.buf);
  }

  /** The unlucky interleaving: the drain discards the first event, the consumer takes the
      second, and only then does the resync arrive. */
  lemma ReadDuringDrainTears(e: Event)
    ensures var q := Run(Init(2), [Send(e), Send(e), Send(e), Drain, Read, Drain]);
            !q.draining && Delivered(q) == [Pub(1), Resync(3)] && !Gapless(Delivered(q))
  {
    var q3 := Run(Init(2), [Send(e), Send(e), Send(e)]);
    ThreeSteps(Init(2), Send(e), Send(e), Send(e));
    assert q3.buf == [Pub(0), Pub(1)] && q3.draining;
    ThreeSteps(q3, Drain, Read, Drain);
    RunAppend(Init(2), [Send(e), Send(e), Send(e)], [Drain, Read, Drain]);
    assert [Send(e), Send(e), Send(e)] + [Drain, Read, Drain] == [Send(e), Send(e), Send(e), Drain, Read, Drain];
    var x := Delivered(Run(q3, [Drain, Read, Drain]));
    assert x == [Pub(1), Resync(3)] && x[..1] == [Pub(1)];
    assert !Gapless(x[..1]);
  }

  /** Nothing is lost without a resync that was queued after the loss. */
  lemma {:induction false} LossIsAnnounced(x: seq<Item>, n: nat, k: nat)
    requires Announced(x, n) && k < n
    ensures Pub(k) in x || exists u :: u > k && Resync(u) in x
  {
    match x[|x| - 1]
    case Resync(u) => assert Resync(u) in x;
    case Pub(m) =>
      if k >= m {
      } else {
        LossIsAnnounced(x[..|x| - 1], m, k);
      }
  }

  /** Deliveries never go back: positions strictly increase along an ordered list. */
  lemma {:induction false} OrderedIncreases(x: seq<Item>, i: nat, j: nat)
    requires Ordered(x) && i < j < |x|
    ensures if x[j].Pub? then End(x[i]) <= x[j].n else End(x[i]) < x[j].upto
    decreases j
  {
    OrderedPrefix(x, j + 1);
    assert x[..j + 1][..j] == x[..j];
    if i >= j - 1 {
    } else {
      OrderedIncreases(x, i, j - 1);
    }
  }

  lemma OrderedWithin(x: seq<Item>)
    requires Ordered(x)
    ensures forall i :: 0 <= i < |x| ==> End(x[i]) <= Expect(x)
  {
    forall i | 0 <= i < |x| ensures End(x[i]) <= Expect(x) {
      if i < |x| - 1 { OrderedIncreases(x, i, |x| - 1); }
    }
  }

  lemma {:induction false} OrderedPrefix(x: seq<Item>, k: nat)
    requires Ordered(x) && k <= |x|
    ensures Ordered(x[..k])
  {
    if k < |x| {
      OrderedPrefix(x[..|x| - 1], k);
      assert x[..|x| - 1][..k] == x[..k];
    } else {
      assert x[..k] == x;
    }
  }
}
