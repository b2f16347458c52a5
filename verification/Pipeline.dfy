/** The whole pipeline as one machine: the subscriber, the process loop, registry syncs and
    crashes, each commit a step of its own. A run is any sequence of steps; a statement or
    commit that fails changes nothing, and shows only in what its actor does next. */
module Pipeline {
  import opened Wrappers
  import opened Store
  import opened Fingerprint
  import Windows

  // ---- What arrives ----

  datatype Event = Event(
    slug: string, source: string, sourceRef: string, kind: string, title: string, body: string,
    metadata: map<string, string>, jobSteps: seq<string>, occurredAt: Option<Time>)

  datatype Message = Message(id: string, attributes: map<string, string>, publishTime: Time)

  /** What routing one delivery of a message came to. */
  datatype Verdict =
    | Routed(ev: Event)
    | Ignored
    | Unclaimed
    | BadSignature
    | Malformed(cause: string)
    | RouteFailed

  datatype Delivery = Delivery(m: Message, verdict: Verdict)

  const UNPARSEABLE := "unparseable"

  /** Classification at the write boundary: an unroutable event is born filtered. */
  function HandleParams(ev: Event, now: Time): IngestParams {
    IngestParams(
      ev.slug, ev.source, ev.sourceRef, ev.kind, ev.title, ev.body,
      if ev.slug == "" then "filtered" else "received",
      if ev.slug == "" then "unroutable" else "",
      EncodeSteps(ev.metadata, ev.jobSteps),
      match ev.occurredAt { case Some(t) => t case None => now })
  }

  function MalformedParams(m: Message, cause: string): IngestParams {
    IngestParams("", UNPARSEABLE, "message:" + m.id, "message.unparseable", "Unparseable message " + m.id, cause,
                 "filtered", UNPARSEABLE, m.attributes, m.publishTime)
  }

  // ---- The state ----

  /** A redelivery whose audit row is still to be written. */
  datatype Pending = Pending(d: Delivery, id: nat, count: nat)

  /** `acks`: handled in this batch, not yet acknowledged. `acked`: acknowledged, ever. */
  datatype Subscriber = Subscriber(pending: Option<Pending>, acks: seq<Delivery>, acked: set<Delivery>)

  /** Where the process loop is with its current incident. */
  datatype Phase =
    | Idle
    | Taken(id: nat)
    | Marked(id: nat, g: Grouping)
    | Seen(id: nat, g: Grouping, out: Outcome)
    | Moved(row: EventRow)

  datatype Worker = Worker(batch: seq<nat>, phase: Phase)

  /** A sighting that opened a window. */
  datatype Opened = Opened(id: nat, g: Grouping, opening: Windows.Opening)

  /** What happened, which no table records: the openings; the sightings not followed by
      their transition (`lost`); the openings whose opener was lost or rejected by an earlier
      filter (`spoiled`); the ingests without an audit row of their own (`missed`); whether
      an incident was ever skipped; whether the clock of an insertion ever went back. */
  datatype History = History(opens: map<Digest, seq<Opened>>, lost: multiset<Digest>, spoiled: multiset<Digest>,
                             missed: multiset<nat>, skipped: bool, clockBack: bool)

  datatype World = World(t: Tables, sub: Subscriber, wk: Worker, published: seq<EventRow>, h: History)

  function Start(): World {
    World(EmptyTables(), Subscriber(None, [], {}), Worker([], Idle), [],
          History(map[], multiset{}, multiset{}, multiset{}, false, false))
  }

  datatype Step =
    | Receive(d: Delivery, now: Time)
    | Audit(now: Time)
    | AuditFails
    | Ack(ok: bool)
    | List(limit: nat)
    | Take
    | Mark(g: Grouping)
    | Sight(window: Time, now: Time)
    | Move(early: Option<string>, detail: string, now: Time)
    | Publish
    | Abandon
    | Cancel
    | Crash
    | Resync(rows: seq<ProjectRow>)

  // ---- The subscriber ----

  predicate ClockWentBack(t: Tables, now: Time) {
    |t.incidents| > 0 && Sec(now) < t.incidents[|t.incidents| - 1].createdAt
  }

  function Ingested(w: World, p: IngestParams, now: Time): (World, Result<IngestResult, Error>) {
    var (t', r) := Ingest(w.t, p, now);
    (w.(t := t', h := w.h.(clockBack := w.h.clockBack || (r.Ok? && r.value.IsNew() && ClockWentBack(w.t, now)))), r)
  }

  function Acked(w: World, d: Delivery): World { w.(sub := w.sub.(acks := w.sub.acks + [d])) }

  /** One delivery, up to its first commit. Every outcome but a write failure may be
      acknowledged; a redelivery still owes its audit row. */
  function DoReceive(w: World, d: Delivery, now: Time): World {
    if w.sub.pending.Some? then w
    else match d.verdict
      case Routed(ev) =>
        var (w', r) := Ingested(w, HandleParams(ev, now), now);
        if r.Err? then w
        else if r.value.IsNew() then Acked(w', d)
        else w'.(sub := w'.sub.(pending := Some(Pending(d, r.value.id, r.value.count))))
      case Malformed(cause) =>
        var (w', r) := Ingested(w, MalformedParams(d.m, cause), now);
        if r.Err? then w
        else
          var h' := if r.value.IsNew() then w'.h else w'.h.(missed := w'.h.missed + multiset{r.value.id});
          Acked(w'.(h := h'), d)
      case RouteFailed => w
      case _ => Acked(w, d)
  }

  function DoAudit(w: World, now: Time): World {
    if w.sub.pending.None? then w
    else
      var p := w.sub.pending.value;
      var (t', r) := Append(w.t, p.id, DUPLICATE, "system", "", "", Occurrence(p.count), now);
      if r.Err? then w else Acked(w.(t := t', sub := w.sub.(pending := None)), p.d)
  }

  /** The handler reports failure or dies: the row is counted but has no audit row. */
  function DropPending(w: World): World {
    if w.sub.pending.None? then w
    else w.(sub := w.sub.(pending := None), h := w.h.(missed := w.h.missed + multiset{w.sub.pending.value.id}))
  }

  function DoAck(w: World, ok: bool): World {
    if w.sub.pending.Some? then w
    else w.(sub := w.sub.(acks := [], acked := w.sub.acked + if ok then (set d | d in w.sub.acks) else {}))
  }

  // ---- The process loop ----

  function DoList(w: World, limit: nat): World {
    if !w.wk.phase.Idle? || w.wk.batch != [] then w
    else
      var q := Queue(w.t);
      w.(wk := w.wk.(batch := if |q| <= limit then q else q[..limit]))
  }

  function DoTake(w: World): World {
    if !w.wk.phase.Idle? || w.wk.batch == [] then w
    else w.(wk := Worker(w.wk.batch[1..], Taken(w.wk.batch[0])))
  }

  /** Any grouping of the incident's own project. */
  function DoMark(w: World, g: Grouping): World {
    if !w.wk.phase.Taken? || !Has(w.t, w.wk.phase.id) || At(w.t, w.wk.phase.id).slug != g.slug then w
    else w.(t := MarkFingerprint(w.t, w.wk.phase.id, Hash(g)), wk := w.wk.(phase := Marked(w.wk.phase.id, g)))
  }

  function Opens(w: World, d: Digest): seq<Opened> { if d in w.h.opens then w.h.opens[d] else [] }

  function DoSight(w: World, window: Time, now: Time): World {
    if !w.wk.phase.Marked? then w
    else
      var id, g := w.wk.phase.id, w.wk.phase.g;
      var (t', r) := Observe(w.t, Observation(Hash(g), g.slug, g.strategy, g.frames, id, window), now);
      if r.Err? then w
      else
        var opens := if r.value.suppressed then w.h.opens
                     else w.h.opens[Hash(g) := Opens(w, Hash(g)) + [Opened(id, g, Windows.Opening(now, window))]];
        w.(t := t', wk := w.wk.(phase := Seen(id, g, r.value)), h := w.h.(opens := opens))
  }

  /** The state the verdict of the chain leads to. */
  function Target(early: Option<string>, suppressed: bool): string {
    if early.Some? then "filtered" else if suppressed then "suppressed" else "triaging"
  }

  function MoveParams(id: nat, g: Grouping, out: Outcome, early: Option<string>, detail: string): TransitionParams {
    var filter := match early { case Some(f) => f case None => if out.suppressed then "Fingerprint" else "" };
    TransitionParams(id, "received", Target(early, out.suppressed), filter, "tier0",
                     Triage(filter, detail, Hash(g), g.strategy, out.total, out.first))
  }

  /** The sighting in hand will not be followed by its transition. */
  function Lose(h: History, d: Digest, out: Outcome): History {
    h.(lost := h.lost + multiset{d}, spoiled := h.spoiled + if out.suppressed then multiset{} else multiset{d})
  }

  function DoMove(w: World, early: Option<string>, detail: string, now: Time): World {
    if !w.wk.phase.Seen? then w
    else
      var id, g, out := w.wk.phase.id, w.wk.phase.g, w.wk.phase.out;
      var (t', r) := Transition(w.t, MoveParams(id, g, out, early, detail), now);
      if r.Err? then w.(wk := w.wk.(phase := Idle), h := Lose(w.h, Hash(g), out))
      else
        var spoiled := if early.Some? && !out.suppressed then multiset{Hash(g)} else multiset{};
        w.(t := t', wk := w.wk.(phase := Moved(t'.events[|t'.events| - 1])),
           h := w.h.(spoiled := w.h.spoiled + spoiled))
  }

  function DoPublish(w: World): World {
    if !w.wk.phase.Moved? then w
    else w.(published := w.published + [w.wk.phase.row], wk := w.wk.(phase := Idle))
  }

  /** The worker forgets its incident; a sighting not yet followed by its transition stays. */
  function Forget(w: World): World {
    w.(wk := w.wk.(phase := Idle),
       h := if w.wk.phase.Seen? then Lose(w.h, Hash(w.wk.phase.g), w.wk.phase.out) else w.h)
  }

  /** An error: the incident stays where it is and the loop goes on with the next. */
  function DoAbandon(w: World): World {
    if w.wk.phase.Idle? then w
    else
      var w' := Forget(w);
      w'.(h := w'.h.(skipped := w.h.skipped || !w.wk.phase.Moved?))
  }

  function DoCrash(w: World): World {
    var w' := Forget(DropPending(w));
    w'.(sub := w'.sub.(acks := []), wk := Worker([], Idle))
  }

  function Next(w: World, s: Step): World {
    match s
    case Receive(d, now) => DoReceive(w, d, now)
    case Audit(now) => DoAudit(w, now)
    case AuditFails => DropPending(w)
    case Ack(ok) => DoAck(w, ok)
    case List(limit) => DoList(w, limit)
    case Take => DoTake(w)
    case Mark(g) => DoMark(w, g)
    case Sight(window, now) => DoSight(w, window, now)
    case Move(early, detail, now) => DoMove(w, early, detail, now)
    case Publish => DoPublish(w)
    case Abandon => DoAbandon(w)
    case Cancel => if w.wk.phase.Idle? then w.(wk := Worker([], Idle)) else w
    case Crash => DoCrash(w)
    case Resync(rows) => w.(t := Sync(w.t, rows))
  }

  function Run(w: World, steps: seq<Step>): World {
    if steps == [] then w else Next(Run(w, steps[..|steps| - 1]), steps[|steps| - 1])
  }
}
