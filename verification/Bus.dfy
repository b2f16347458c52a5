/** The hub: bounded queues over ring buffers, drain-and-resync, close discipline.
    Every method keeps each client's real buffer equal to the state of the queue machine
    of BusQueue after the client's own log of steps. */
module Bus {
  import opened Wrappers
  import opened BusQueue
  import opened Picks

  /** A buffered channel: a ring buffer that can be closed once. */
  class Channel {
    const data: array<Event>
    var start: nat
    var len: nat
    var closed: bool
    ghost var contents: seq<Event>

    ghost predicate Valid()
      reads this, data
    {
      && data.Length >= 1 && start < data.Length && len <= data.Length
      && |contents| == len
      && forall i :: 0 <= i < len ==> data[Slot(start, i, data.Length)] == contents[i]
    }

    static function Slot(start: nat, i: nat, size: nat): nat
      requires start < size && i <= size
    {
      if start + i < size then start + i else start + i - size
    }

    constructor (size: nat)
      requires size >= 1
      ensures Valid() && fresh(data) && data.Length == size && contents == [] && !closed
    {
      data := new Event[size](_ => Event(0, "", "", ""));
      start, len, closed, contents := 0, 0, false, [];
    }

    /** A non-blocking send; sending on a closed channel would panic. */
    method TrySend(ev: Event) returns (ok: bool)
      requires Valid() && !closed
      modifies this`len, this`contents, data
      ensures Valid()
      ensures ok <==> |old(contents)| < data.Length
      ensures contents == if ok then old(contents) + [ev] else old(contents)
    {
      ok := len < data.Length;
      if ok {
        data[Slot(start, len, data.Length)] := ev;
        len, contents := len + 1, contents + [ev];
      }
    }

    /** A non-blocking receive; a closed channel still gives what it holds. */
    method TryReceive() returns (r: Option<Event>)
      requires Valid()
      modifies this`start, this`len, this`contents
      ensures Valid()
      ensures r == if old(contents) == [] then None else Some(old(contents)[0])
      ensures contents == if old(contents) == [] then [] else old(contents)[1..]
    {
      if len == 0 { return None; }
      r := Some(data[Slot(start, 0, data.Length)]);
      start, len, contents := Slot(start, 1, data.Length), len - 1, contents[1..];
    }

    /** Closing a closed channel would panic. */
    method Close()
      requires !closed
      modifies this`closed
      ensures closed
    {
      closed := true;
    }
  }

  /** The event a queue item stands for: a publication is delivered unaltered; a resync
      names the topic of the publication whose overflow caused it. */
  function Render(wanted: seq<Event>, i: Item): Event {
    match i
    case Pub(n) => if n < |wanted| then wanted[n] else Event(0, "", "", "")
    case Resync(u) =>
      Event(0, if 0 < u <= |wanted| then wanted[u - 1].topic else "", TYPE_RESYNC, "")
  }

  function Rendered(wanted: seq<Event>, items: seq<Item>): (r: seq<Event>)
    ensures |r| == |items|
    ensures forall i :: 0 <= i < |items| ==> r[i] == Render(wanted, items[i])
  {
    seq(|items|, i requires 0 <= i < |items| => Render(wanted, items[i]))
  }

  /** The publications among a client's steps. */
  function Sends(log: seq<Action>): seq<Event> {
    if log == [] then []
    else Sends(log[..|log| - 1]) + (match log[|log| - 1] case Send(ev) => [ev] case _ => [])
  }

  lemma LogStep(q: Queue, log: seq<Action>, a: Action)
    ensures Run(q, log + [a]) == Step(Run(q, log), a)
    ensures Sends(log + [a]) == Sends(log) + (match a case Send(ev) => [ev] case _ => [])
  {
    RunSnoc(q, log, a);
    assert (log + [a])[..|log|] == log;
  }

  lemma RenderedConcat(wanted: seq<Event>, a: seq<Item>, b: seq<Item>)
    ensures Rendered(wanted, a + b) == Rendered(wanted, a) + Rendered(wanted, b)
  {}

  /** An item keeps its meaning when more is published. */
  lemma RenderedSame(wanted: seq<Event>, ev: Event, items: seq<Item>)
    requires forall i :: 0 <= i < |items| ==> End(items[i]) <= |wanted|
    ensures Rendered(wanted + [ev], items) == Rendered(wanted, items)
  {
    forall i | 0 <= i < |items| ensures Render(wanted + [ev], items[i]) == Render(wanted, items[i]) {
      assert End(items[i]) <= |wanted|;
    }
  }

  lemma RenderedStable(q: Queue, ev: Event)
    requires Inv(q)
    ensures Rendered(q.wanted + [ev], q.buf) == Rendered(q.wanted, q.buf)
    ensures Rendered(q.wanted + [ev], q.read) == Rendered(q.wanted, q.read)
  {
    var x := Delivered(q);
    QueuedExtends(q.read, q.buf);
    OrderedWithin(x);
    forall i | 0 <= i < |q.buf| ensures End(q.buf[i]) <= |q.wanted| { assert x[|q.read| + i] == q.buf[i]; }
    forall i | 0 <= i < |q.read| ensures End(q.read[i]) <= |q.wanted| { assert x[i] == q.read[i]; }
    RenderedSame(q.wanted, ev, q.buf);
    RenderedSame(q.wanted, ev, q.read);
  }

  /** The real buffer, flag and consumer view are those of the machine. */
  ghost predicate Matches(q: Queue, contents: seq<Event>, flag: bool, received: seq<Event>) {
    && flag == q.lastWasResync
    && contents == Rendered(q.wanted, q.buf)
    && received == Rendered(q.wanted, q.read)
  }

  lemma MatchRead(q: Queue, contents: seq<Event>, flag: bool, received: seq<Event>)
    requires Matches(q, contents, flag, received)
    ensures Step(q, Read).draining == q.draining && Step(q, Read).wanted == q.wanted
    ensures contents == [] ==> Matches(Step(q, Read), [], flag, received)
    ensures contents != [] ==> Matches(Step(q, Read), contents[1..], flag, received + [contents[0]])
  {}

  lemma MatchSend(q: Queue, contents: seq<Event>, flag: bool, received: seq<Event>, ev: Event)
    requires Inv(q) && Matches(q, contents, flag, received) && !q.draining
    ensures Step(q, Send(ev)).wanted == q.wanted + [ev]
    ensures |contents| < q.cap ==>
              Matches(Step(q, Send(ev)), contents + [ev], false, received) && !Step(q, Send(ev)).draining
    ensures |contents| >= q.cap ==>
              Matches(Step(q, Send(ev)), contents, flag, received) && Step(q, Send(ev)).draining
  {
    RenderedStable(q, ev);
  }

  lemma MatchDrain(q: Queue, contents: seq<Event>, flag: bool, received: seq<Event>)
    requires Matches(q, contents, flag, received) && q.draining && contents != []
    ensures Step(q, Drain).wanted == q.wanted && Step(q, Drain).draining
    ensures Matches(Step(q, Drain), contents[1..], flag, received)
  {}

  lemma MatchDrained(q: Queue, flag: bool, received: seq<Event>, topic: string)
    requires Inv(q) && Matches(q, [], flag, received) && q.draining
    requires q.wanted != [] ==> q.wanted[|q.wanted| - 1].topic == topic
    ensures Step(q, Drain).wanted == q.wanted && !Step(q, Drain).draining
    ensures Matches(Step(q, Drain), if flag then [] else [Event(0, topic, TYPE_RESYNC, "")], true, received)
  {}

  lemma DrainEnds(cap: nat, log: seq<Action>, q: Queue, flag: bool, received: seq<Event>, topic: string)
    requires cap >= 1 && q == Run(Init(cap), log) && Matches(q, [], flag, received) && q.draining
    requires q.wanted != [] ==> q.wanted[|q.wanted| - 1].topic == topic
    ensures Step(q, Drain).wanted == q.wanted && !Step(q, Drain).draining
    ensures Matches(Step(q, Drain), if flag then [] else [Event(0, topic, TYPE_RESYNC, "")], true, received)
  {
    InvRun(cap, log);
    MatchDrained(q, flag, received, topic);
  }

  /** The delivered events are the machine's delivered items, accounted for. */
  ghost predicate Accounted(cap: nat, log: seq<Action>, wanted: seq<Event>, delivered: seq<Event>) {
    var q := Run(Init(cap), log);
    && wanted == Sends(log)
    && delivered == Rendered(wanted, Delivered(q))
    && Ordered(Delivered(q)) && Announced(Delivered(q), |wanted|)
    && (Gapless(Delivered(q)) <==> !q.torn)
  }

  lemma MatchAccounted(cap: nat, log: seq<Action>, contents: seq<Event>, flag: bool, received: seq<Event>)
    requires cap >= 2 && Matches(Run(Init(cap), log), contents, flag, received) && !Run(Init(cap), log).draining
    requires Run(Init(cap), log).wanted == Sends(log)
    ensures Accounted(cap, log, Sends(log), received + contents)
  {
    var q := Run(Init(cap), log);
    LossAccounting(cap, log);
    GaplessIffNotTorn(cap, log);
    RenderedConcat(q.wanted, q.read, q.buf);
  }

  class Client {
    const ch: Channel
    const topics: set<string>
    var lastWasResync: bool
    var closed: bool
    ghost var log: seq<Action>         // the steps of this client's queue
    ghost var q: Queue                 // the machine after them
    ghost var received: seq<Event>     // what the consumer took
    ghost const joined: nat            // how much had been published when it subscribed
    ghost var left: nat                // and when it left the map

    /** The machine is where the log leads; its publications are those of the log. */
    ghost predicate Coherent()
      reads this, ch
    {
      ch.data.Length >= 1 && q == Run(Init(ch.data.Length), log) && q.wanted == Sends(log)
    }

    ghost predicate Valid()
      reads this, ch, ch.data
    {
      && ch.Valid() && closed == ch.closed && Coherent()
      && Matches(q, ch.contents, lastWasResync, received)
    }

    constructor (size: nat, topics: set<string>, ghost joined: nat)
      requires size >= 1
      ensures Valid() && !q.draining && fresh(ch) && fresh(ch.data) && ch.data.Length == size
      ensures this.topics == topics && log == [] && q.wanted == [] && !closed
      ensures this.joined == joined && left == joined
    {
      this.ch := new Channel(size);
      this.topics, this.joined, left := topics, joined, joined;
      lastWasResync, closed, log, q, received := false, false, [], Init(size), [];
      new;
      assert Run(Init(size), []) == Init(size) && Sends([]) == [];
    }

    predicate Wants(topic: string) { topics == {} || topic in topics }

    /** The machine takes a step. */
    ghost method Follow(a: Action)
      requires Coherent() && (a.Send? ==> !q.draining)
      modifies this`log, this`q
      ensures Coherent() && log == old(log) + [a] && q == Step(old(q), a)
    {
      LogStep(Init(ch.data.Length), log, a);
      log, q := log + [a], Step(q, a);
    }

    /** What the channel must hold after a send. */
    lemma Sending(ev: Event)
      requires Valid() && !q.draining
      ensures var q' := Step(q, Send(ev));
              && q'.wanted == q.wanted + [ev]
              && (if |ch.contents| < ch.data.Length then
                    !q'.draining && Matches(q', ch.contents + [ev], false, received)
                  else q'.draining && Matches(q', ch.contents, lastWasResync, received))
    {
      InvRun(ch.data.Length, log);
      MatchSend(q, ch.contents, lastWasResync, received, ev);
    }

    /** What the channel must hold when the drain ends. */
    lemma Announcing(topic: string)
      requires Valid() && q.draining && ch.contents == [] && q.wanted != [] && q.wanted[|q.wanted| - 1].topic == topic
      ensures var q' := Step(q, Drain);
              && q'.wanted == q.wanted && !q'.draining
              && Matches(q', if lastWasResync then [] else [Event(0, topic, TYPE_RESYNC, "")], true, received)
    {
      assert Matches(q, [], lastWasResync, received);
      DrainEnds(ch.data.Length, log, q, lastWasResync, received, topic);
    }

    /** The consumer's side: it holds no lock. */
    method Receive() returns (r: Option<Event>)
      requires Valid()
      modifies this`log, this`q, this`received, ch`start, ch`len, ch`contents
      ensures Valid() && log == old(log) + [Read]
      ensures q.draining == old(q.draining) && q.wanted == old(q.wanted)
      ensures r == if old(ch.contents) == [] then None else Some(old(ch.contents)[0])
      ensures ch.contents == if r.None? then [] else old(ch.contents)[1..]
      ensures received == old(received) + if r.Some? then [r.value] else []
    {
      MatchRead(q, ch.contents, lastWasResync, received);
      r := ch.TryReceive();
      Follow(Read);
      if r.Some? { received := received + [r.value]; }
    }

    /** Any number of consumer reads, at a point where the publisher is between two steps. */
    method ConsumerReads()
      requires Valid()
      modifies this`log, this`q, this`received, ch`start, ch`len, ch`contents
      ensures Valid() && q.draining == old(q.draining) && q.wanted == old(q.wanted)
      ensures old(log) <= log
      ensures |ch.contents| <= |old(ch.contents)|
    {
      var more: bool := *;
      while more && ch.len > 0
        invariant Valid() && q.draining == old(q.draining) && q.wanted == old(q.wanted)
        invariant old(log) <= log
        invariant |ch.contents| <= |old(ch.contents)|
        decreases ch.len
      {
        var _ := Receive();
        more := *;
      }
    }

    /** One client's part of a publication. The consumer may read between any two steps. */
    method Offer(ev: Event)
      requires Valid() && !closed && !q.draining
      modifies this`log, this`q, this`received, this`lastWasResync, ch`start, ch`len, ch`contents, ch.data
      ensures Valid() && !q.draining
      ensures old(log) <= log && q.wanted == old(q.wanted) + [ev]
    {
      ConsumerReads();
      var ok := SendLocked(ev);
      if !ok { OverflowLocked(ev.topic); }
    }

    /** The send alone; it fails, and begins an overflow, when the buffer is full. */
    method SendLocked(ev: Event) returns (ok: bool)
      requires Valid() && !closed && !q.draining
      modifies this`log, this`q, this`lastWasResync, ch`len, ch`contents, ch.data
      ensures Valid() && q.draining == !ok && (ok <==> |old(ch.contents)| < ch.data.Length)
      ensures log == old(log) + [Send(ev)] && q.wanted == old(q.wanted) + [ev]
      ensures ch.contents == old(ch.contents) + if ok then [ev] else []
    {
      Sending(ev);
      ok := ch.TrySend(ev);
      Follow(Send(ev));
      if ok { lastWasResync := false; }
    }

    /** Discards everything queued, then queues a resync unless the last item queued was one. */
    method OverflowLocked(topic: string)
      requires Valid() && !closed && q.draining
      requires q.wanted != [] && q.wanted[|q.wanted| - 1].topic == topic
      modifies this`log, this`q, this`received, this`lastWasResync, ch`start, ch`len, ch`contents, ch.data
      ensures Valid() && !q.draining
      ensures old(log) <= log && q.wanted == old(q.wanted)
    {
      DrainLocked();
      ConsumerReads();
      AnnounceLocked(topic);
    }

    method AnnounceLocked(topic: string)
      requires Valid() && !closed && q.draining && ch.contents == []
      requires q.wanted != [] && q.wanted[|q.wanted| - 1].topic == topic
      modifies this`log, this`q, this`lastWasResync, ch`len, ch`contents, ch.data
      ensures Valid() && !q.draining
      ensures log == old(log) + [Drain] && q.wanted == old(q.wanted)
    {
      Announcing(topic);
      QueueResync(Event(0, topic, TYPE_RESYNC, ""));
    }

    /** What ends an overflow: a resync, unless the last item queued was one. */
    method QueueResync(resync: Event)
      requires Valid() && !closed && ch.contents == []
      requires Matches(Step(q, Drain), if lastWasResync then [] else [resync], true, received)
      modifies this`log, this`q, this`lastWasResync, ch`len, ch`contents, ch.data
      ensures Valid() && log == old(log) + [Drain] && q == Step(old(q), Drain)
      ensures ch.contents == if old(lastWasResync) then [] else [resync]
    {
      if lastWasResync {
        Follow(Drain);
      } else {
        var _ := ch.TrySend(resync);
        lastWasResync := true;
        Follow(Drain);
        assert ch.contents == [resync];
      }
    }

    method DrainLocked()
      requires Valid() && q.draining
      modifies this`log, this`q, this`received, ch`start, ch`len, ch`contents
      ensures Valid() && q.draining && q.wanted == old(q.wanted) && ch.contents == []
      ensures old(log) <= log
    {
      while true
        invariant Valid() && q.draining && q.wanted == old(q.wanted)
        invariant old(log) <= log
        decreases ch.len
      {
        ConsumerReads();
        if ch.contents != [] {
          MatchDrain(q, ch.contents, lastWasResync, received);
        }
        var r := ch.TryReceive();
        if r.None? { break; }
        Follow(Drain);
      }
    }
  }

  /** What a client with these topics is to get of some publications: all of them when it named
      no topic, else those on one of its topics. */
  function Meant(topics: set<string>, events: seq<Event>): seq<Event> {
    if topics == {} then events else Kept(events, (e: Event) => e.topic in topics)
  }

  lemma MeantMore(topics: set<string>, events: seq<Event>, ev: Event)
    ensures Meant(topics, events + [ev]) ==
            Meant(topics, events) + if topics == {} || ev.topic in topics then [ev] else []
  {
    assert (events + [ev])[..|events|] == events;
  }

  /** What a publication may change of a client. */
  datatype View = View(log: seq<Action>, wanted: seq<Event>, received: seq<Event>, contents: seq<Event>, flag: bool,
                       left: nat)

  /** The client was offered exactly these; if there are none, nothing about it changed. */
  predicate Grew(v: View, v': View, offered: seq<Event>) {
    v'.wanted == v.wanted + offered && v'.left == v.left && (offered == [] ==> v' == v)
  }

  /** A client that was in the map from the a-th publication to the b-th was offered what was
      meant for it. */
  predicate Offered(given: seq<Event>, a: nat, b: nat, topics: set<string>, wanted: seq<Event>) {
    a <= b <= |given| && wanted == Meant(topics, given[a..b])
  }

  lemma MeantNone(topics: set<string>, given: seq<Event>)
    ensures Offered(given, |given|, |given|, topics, [])
  {}

  lemma OfferedMore(given: seq<Event>, a: nat, b: nat, topics: set<string>, wanted: seq<Event>, ev: Event)
    requires Offered(given, a, b, topics, wanted)
    ensures Offered(given + [ev], a, b, topics, wanted)
    ensures b == |given| ==>
              Offered(given + [ev], a, b + 1, topics,
                      wanted + if topics == {} || ev.topic in topics then [ev] else [])
  {
    assert (given + [ev])[a..b] == given[a..b];
    if b == |given| {
      MeantMore(topics, given[a..b], ev);
      assert (given + [ev])[a..b + 1] == given[a..b] + [ev];
    }
  }

  class Hub {
    var clients: set<Client>
    const bufSize: nat
    var closed: bool
    ghost var all: set<Client>      // every client ever subscribed
    ghost var owner: map<object, Client>  // whose each client object, channel and buffer is
    ghost var given: seq<Event>     // what was published while the hub was open

    ghost predicate Owns(c: Client) reads this`owner {
      && c in owner && c.ch in owner && c.ch.data in owner
      && owner[c] == owner[c.ch] == owner[c.ch.data] == c
    }

    /** One client's consistency; it is in the map iff its channel is open. */
    ghost predicate ClientOk(c: Client)
      reads this`clients, c, c.ch, c.ch.data
    {
      c.Valid() && c.ch.data.Length == bufSize && !c.q.draining && (c in clients <==> !c.closed)
    }

    ghost predicate MapValid()
      reads this`clients, this`all, this`owner, owner.Keys
    {
      && bufSize >= 1 && clients <= all && this !in owner
      && forall c :: c in all ==> Owns(c) && ClientOk(c)
    }

    /** Every client has been offered what was published while it was in the map, so far as it
        is meant for it. */
    ghost predicate Told()
      reads this`clients, this`all, this`given, all
    {
      forall c :: c in all ==>
        Offered(given, c.joined, if c in clients then |given| else c.left, c.topics, c.q.wanted)
    }

    ghost predicate Valid()
      reads this, owner.Keys, all
    {
      MapValid() && (closed ==> clients == {}) && Told()
    }

    constructor (bufSize: int)
      ensures Valid() && all == {} && !closed && given == []
      ensures this.bufSize == if bufSize < 1 then 1 else bufSize
    {
      this.bufSize := if bufSize < 1 then 1 else bufSize;
      clients, closed, all, owner := {}, false, {}, map[];
      given := [];
    }

    /** Subscribing to a closed hub gives a client whose channel is already closed. */
    method Subscribe(topics: seq<string>) returns (c: Client)
      requires Valid()
      modifies this`clients, this`all, this`owner
      ensures Valid() && fresh(c) && all == old(all) + {c} && fresh(owner.Keys - old(owner.Keys))
      ensures c.joined == |given|
      ensures clients == old(clients) + if closed then {} else {c}
      ensures c.topics == (set t | t in topics && t != "") && c.log == []
    {
      c := new Client(bufSize, set t | t in topics && t != "", |given|);
      if closed {
        c.closed := true;
        c.ch.Close();
      }
      Register(c);
    }

    method Register(c: Client)
      requires Valid() && c.Valid() && c.ch.data.Length == bufSize && !c.q.draining
      requires c.closed == closed && c !in owner && c.ch !in owner && c.ch.data !in owner
      requires c.q.wanted == [] && c.joined == |given| && c.left == |given|
      modifies this`clients, this`all, this`owner
      ensures Valid() && all == old(all) + {c} && owner.Keys == old(owner.Keys) + {c, c.ch, c.ch.data}
      ensures clients == old(clients) + if closed then {} else {c}
    {
      Enter(c);
      forall d | d in all
        ensures Offered(given, d.joined, if d in clients then |given| else d.left, d.topics, d.q.wanted)
      {
        if d == c { MeantNone(c.topics, given); }
      }
    }

    method Enter(c: Client)
      requires MapValid() && c.Valid() && c.ch.data.Length == bufSize && !c.q.draining
      requires c.closed == closed && c !in owner && c.ch !in owner && c.ch.data !in owner
      modifies this`clients, this`all, this`owner
      ensures MapValid() && all == old(all) + {c} && owner.Keys == old(owner.Keys) + {c, c.ch, c.ch.data}
      ensures clients == old(clients) + if closed then {} else {c}
    {
      all, owner := all + {c}, owner[c := c][c.ch := c][c.ch.data := c];
      if !closed { clients := clients + {c}; }
      forall d | d in old(all) ensures Owns(d) && ClientOk(d) { assert old(Owns(d) && ClientOk(d)); }
    }

    method CloseClientLocked(c: Client)
      requires c.Valid()
      modifies c`closed, c.ch`closed
      ensures c.Valid() && c.closed
    {
      if c.closed { return; }
      c.closed := true;
      c.ch.Close();
    }

    /** Out of the map, and its channel closed. */
    method CloseOne(c: Client)
      requires MapValid() && Told() && c in clients
      modifies this`clients, c`left, c`closed, c.ch`closed
      ensures MapValid() && Told() && clients == old(clients) - {c} && c.closed && c.ch.closed
      ensures forall d :: d in all ==> d.log == old(d.log)
    {
      clients := clients - {c};
      c.left := |given|;
      CloseClientLocked(c);
    }

    /** A client that is not in the map, be it another hub's, is left alone. */
    method Unsubscribe(c: Client)
      requires Valid()
      modifies this`clients, c`left, c`closed, c.ch`closed
      ensures Valid() && clients == old(clients) - {c}
      ensures c in old(clients) ==> c.closed && c.ch.closed
      ensures c !in old(clients) ==> c.closed == old(c.closed) && c.ch.closed == old(c.ch.closed)
    {
      if c !in clients { return; }
      CloseOne(c);
    }

    /** What a client has been offered and has, and when it left. */
    static ghost function ViewOf(c: Client): View
      reads c, c.ch
    {
      View(c.log, c.q.wanted, c.received, c.ch.contents, c.lastWasResync, c.left)
    }

    /** What a publication adds to an open client's wanted list. */
    static function Share(c: Client, ev: Event): seq<Event> {
      if c.topics == {} || ev.topic in c.topics then [ev] else []
    }

    method OfferTo(c: Client, ev: Event)
      requires MapValid() && c in clients
      modifies owner.Keys
      ensures MapValid()
      ensures forall d :: d in all ==> Grew(old(ViewOf(d)), ViewOf(d), if d == c then Share(c, ev) else [])
    {
      assert ClientOk(c);
      if c.closed || !c.Wants(ev.topic) { return; }
      c.Offer(ev);
      forall d | d in all && d != c ensures ClientOk(d) { assert old(ClientOk(d)); }
    }

    /** Every open client that named no topic, or this one, gets exactly this publication; of the
        others neither queue nor flag nor what was received changes, and a closed hub ignores the
        call. */
    method Publish(ev: Event)
      requires Valid()
      modifies owner.Keys, this`given
      ensures Valid() && given == old(given) + if closed then [] else [ev]
      ensures forall c :: c in all ==>
                Grew(old(ViewOf(c)), ViewOf(c),
                     if c in clients && (c.topics == {} || ev.topic in c.topics) then [ev] else [])
    {
      if closed { return; }
      ghost var was := map c | c in all :: ViewOf(c);
      OfferAll(ev);
      Record(ev, was);
    }

    /** What the clients have been offered goes on record. */
    ghost method Record(ev: Event, was: map<Client, View>)
      requires MapValid() && forall c :: c in all ==> c in was
      requires forall c :: c in all ==>
                 && Offered(given, c.joined, if c in clients then |given| else was[c].left, c.topics, was[c].wanted)
                 && Grew(was[c], ViewOf(c), if c in clients then Share(c, ev) else [])
      modifies this`given
      ensures MapValid() && Told() && given == old(given) + [ev]
    {
      given := given + [ev];
      forall c | c in all
        ensures Offered(given, c.joined, if c in clients then |given| else c.left, c.topics, c.q.wanted)
      {
        OfferedMore(old(given), c.joined, if c in clients then |old(given)| else c.left, c.topics, was[c].wanted, ev);
      }
    }

    method OfferAll(ev: Event)
      requires MapValid()
      modifies owner.Keys
      ensures MapValid()
      ensures forall c :: c in all ==> Grew(old(ViewOf(c)), ViewOf(c), if c in clients then Share(c, ev) else [])
    {
      var todo := clients;
      while todo != {}
        invariant todo <= clients && MapValid()
        invariant forall c :: c in all ==>
                    Grew(old(ViewOf(c)), ViewOf(c), if c in clients && c !in todo then Share(c, ev) else [])
        decreases |todo|
      {
        var c :| c in todo;
        todo := todo - {c};
        OfferTo(c, ev);
      }
    }

    method Close()
      requires Valid()
      modifies this`closed, this`clients, owner.Keys
      ensures Valid() && closed && clients == {}
      ensures forall c :: c in all ==> c.closed && c.log == old(c.log)
    {
      if closed { return; }
      closed := true;
      while clients != {}
        invariant clients <= old(clients) && MapValid() && Told() && closed
        invariant forall c :: c in old(all) ==> c.log == old(c.log)
        decreases |clients|
      {
        var c :| c in clients;
        CloseOne(c);
      }
    }
  }

  /** A delivered event: one that was wanted, unaltered, or a resync that carries no id and no
      data and names the topic of the publication it was queued for. */
  predicate Tells(wanted: seq<Event>, item: Item, ev: Event) {
    match item
    case Pub(n) => n < |wanted| && ev == wanted[n]
    case Resync(u) => 0 < u <= |wanted| && ev == Event(0, wanted[u - 1].topic, "resync", "")
  }

  /** In every reachable state of the hub, for every client it ever had: what the consumer
      took followed by what is queued is, item by item, the loss accounting of BusQueue. */
  lemma ClientAccounted(h: Hub, c: Client)
    requires h.Valid() && h.bufSize >= 2 && c in h.all
    ensures Accounted(h.bufSize, c.log, c.q.wanted, c.received + c.ch.contents)
    ensures var delivered, items := c.received + c.ch.contents, Delivered(Run(Init(h.bufSize), c.log));
            && |delivered| == |items|
            && forall i :: 0 <= i < |items| ==> Tells(c.q.wanted, items[i], delivered[i])
  {
    assert h.ClientOk(c);
    MatchAccounted(h.bufSize, c.log, c.ch.contents, c.lastWasResync, c.received);
    AccountedTells(h.bufSize, c.log, c.q.wanted, c.received + c.ch.contents);
  }

  lemma AccountedTells(cap: nat, log: seq<Action>, wanted: seq<Event>, delivered: seq<Event>)
    requires cap >= 2 && Accounted(cap, log, wanted, delivered)
    ensures var items := Delivered(Run(Init(cap), log));
            && |delivered| == |items| && forall i :: 0 <= i < |items| ==> Tells(wanted, items[i], delivered[i])
  {
    var items := Delivered(Run(Init(cap), log));
    assert Expect(items) == |wanted|;
    OrderedWithin(items);
    forall i | 0 <= i < |items| ensures Tells(wanted, items[i], delivered[i]) {
      OrderedPrefix(items, i + 1);
      assert items[..i + 1][i] == items[i];
    }
  }

  /** Which publications a client wants, in every reachable state of the hub: of those made
      while it was in the map, all when it named no topic, else exactly those on one of its
      topics, each once and in order. */
  lemma ClientGivenItsTopics(h: Hub, c: Client) returns (span: seq<Event>, picks: seq<nat>)
    requires h.Valid() && c in h.all
    ensures c.joined <= (if c in h.clients then |h.given| else c.left) <= |h.given|
    ensures span == h.given[c.joined..if c in h.clients then |h.given| else c.left]
    ensures c.topics == {} ==> c.q.wanted == span
    ensures c.topics != {} ==>
              && FirstOf(picks, |span|, |span|, Where(span, (e: Event) => e.topic in c.topics))
              && Gives(span, picks, c.q.wanted)
  {
    span, picks := h.given[c.joined..if c in h.clients then |h.given| else c.left], [];
    if c.topics != {} { picks := KeptPicks(span, (e: Event) => e.topic in c.topics, |span|); }
  }
}
