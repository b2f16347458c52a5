/** Ingestion: the pull loop's batch and the writer, over the shared system. The environment
    decides for each delivery whether its writes commit. The handler for malformed messages
    is set. */
module Ingest {
  import opened Wrappers
  import opened Store
  import opened Fingerprint
  import opened Runtime
  import opened Text
  import P = Pipeline
  import opened PipelineIngest
  import opened PipelineStorm

  datatype Luck = Luck(now: Time, write: bool, audit: bool)

  datatype Stats = Stats(pulled: nat, handled: nat, ignored: nat, unrouted: nat, signatureFailures: nat,
                         malformed: nat, writeErrors: nat)

  /** Every message pulled is counted in exactly one of the other six counters. */
  predicate Balanced(s: Stats) {
    s.pulled == s.handled + s.ignored + s.unrouted + s.signatureFailures + s.malformed + s.writeErrors
  }

  // ---- What a delivery leaves in the tables ----

  /** A row as it is born. */
  predicate Newborn(row: Incident, now: Time) {
    && row.fingerprint.None? && row.occurrences == 1 && row.closedAt.None?
    && row.createdAt == Sec(now) && row.updatedAt == Sec(now)
  }

  /** The event's own metadata, and its job steps as one string that splits back into them. */
  ghost predicate Described(metadata: map<string, string>, ev: P.Event) {
    && (forall k :: k != "job_steps" ==>
          (k in metadata <==> k in ev.metadata) && (k in ev.metadata ==> metadata[k] == ev.metadata[k]))
    && (ev.jobSteps == [] ==> metadata == ev.metadata)
    && (ev.jobSteps != [] ==>
          && "job_steps" in metadata
          && ((forall s :: s in ev.jobSteps ==> '\U{1F}' !in s) ==>
                Split(metadata["job_steps"], '\U{1F}') == ev.jobSteps))
  }

  /** The row of an event, column by column: it waits if it names a project, and is filtered at
      once if it does not. */
  ghost predicate StoredEvent(row: Incident, ev: P.Event, now: Time) {
    && row.slug == ev.slug && row.source == ev.source && row.sourceRef == ev.sourceRef
    && row.kind == ev.kind && row.title == ev.title && row.body == ev.body && Described(row.metadata, ev)
    && row.occurredAt == Sec(match ev.occurredAt case Some(t) => t case None => now)
    && (row.state == "received" && row.reason == "" <==> ev.slug != "")
    && (row.state == "filtered" && row.reason == "unroutable" <==> ev.slug == "")
    && Newborn(row, now)
  }

  /** The row of a message that could not be parsed. */
  predicate StoredMalformed(row: Incident, m: P.Message, cause: string, now: Time) {
    && row.slug == "" && row.source == "unparseable" && row.sourceRef == "message:" + m.id
    && row.kind == "message.unparseable" && row.title == "Unparseable message " + m.id && row.body == cause
    && row.metadata == m.attributes && row.occurredAt == Sec(m.publishTime)
    && row.state == "filtered" && row.reason == "unparseable" && Newborn(row, now)
  }

  /** One more row, and nothing else. */
  predicate OneMore(t: Tables, t': Tables) {
    && t' == t.(incidents := t'.incidents)
    && |t'.incidents| == |t.incidents| + 1 && t'.incidents[..|t.incidents|] == t.incidents
  }

  /** One more occurrence of the row of a key, and no other change to the incidents. */
  ghost predicate Recounted(t: Tables, t': Tables, k: Key, id: nat, now: Time) {
    && t' == t.(incidents := t'.incidents, events := t'.events) && |t'.incidents| == |t.incidents|
    && Has(t, id) && KeyOf(At(t, id)) == k
    && At(t', id) == At(t, id).(occurrences := At(t, id).occurrences + 1, updatedAt := Sec(now))
    && forall i :: Has(t, i) && i != id ==> At(t', i) == At(t, i)
  }

  /** The audit row of a redelivery. */
  ghost predicate DuplicateRow(t: Tables, t': Tables, id: nat, now: Time)
    requires Has(t', id)
  {
    && |t'.events| == |t.events| + 1 && t'.events[..|t.events|] == t.events
    && var e := t'.events[|t.events|];
    && e == EventRow(e.id, id, Sec(now), "duplicate", "system", "", "", Occurrence(At(t', id).occurrences))
    && forall x :: x in t.events ==> x.id < e.id
  }

  /** A routed event whose writes the environment allows or not: a known key is counted and
      audited, a new one stored, and an event of an unknown project refused. */
  ghost predicate EventHandled(t: Tables, t': Tables, ev: P.Event, luck: Luck) {
    var k := Key(ev.source, ev.sourceRef);
    if !luck.write then t' == t
    else if HasKey(t, k) then
      exists id: nat :: Recounted(t, t', k, id, luck.now)
                        && if luck.audit then DuplicateRow(t, t', id, luck.now) else t'.events == t.events
    else if ev.slug != "" && ev.slug !in t.projects then t' == t
    else OneMore(t, t') && StoredEvent(t'.incidents[|t.incidents|], ev, luck.now)
  }

  ghost predicate MalformedHandled(t: Tables, t': Tables, m: P.Message, cause: string, luck: Luck) {
    var k := Key("unparseable", "message:" + m.id);
    if !luck.write then t' == t
    else if HasKey(t, k) then
      exists id: nat :: Recounted(t, t', k, id, luck.now) && t'.events == t.events
    else OneMore(t, t') && StoredMalformed(t'.incidents[|t.incidents|], m, cause, luck.now)
  }

  lemma ParamsDescribe(ev: P.Event, now: Time)
    ensures StoredEvent(NewIncident(P.HandleParams(ev, now), now), ev, now)
  {
    if ev.jobSteps != [] && forall s :: s in ev.jobSteps ==> UNIT_SEPARATOR !in s {
      SplitJoin(ev.jobSteps, UNIT_SEPARATOR);
    }
  }

  /** In any reachable state an ingest is refused, stored or counted as it should be. */
  lemma NewExactly(past: seq<P.Step>, p: IngestParams, now: Time)
    ensures var t := P.Run(P.Start(), past).t;
            var (t', r) := Ingest(t, p, now);
            if HasKey(t, Key(p.source, p.sourceRef)) then
              && r.Ok? && Recounted(t, t', Key(p.source, p.sourceRef), r.value.id, now) && t'.events == t.events
              && r.value.count == At(t', r.value.id).occurrences && !r.value.IsNew()
            else if p.slug != "" && p.slug !in t.projects then r.Err?
            else r.Ok? && r.value.IsNew() && OneMore(t, t') && t'.incidents[|t.incidents|] == NewIncident(p, now)
  {
    var t := P.Run(P.Start(), past).t;
    RunSound(past);
    IngestEffect(t, p, now);
    if HasKey(t, Key(p.source, p.sourceRef)) {
      IngestRecounts(t, p, now);
    } else if p.slug == "" || p.slug in t.projects {
      IngestInserts(t, p, now);
    }
  }

  /** The row that a delivery asks for. */
  function Asked(d: P.Delivery, now: Time): IngestParams
    requires d.verdict.Routed? || d.verdict.Malformed?
  {
    if d.verdict.Routed? then P.HandleParams(d.verdict.ev, now) else P.MalformedParams(d.m, d.verdict.cause)
  }

  /** What the first commit of a delivery leaves, if it is new, or refused, or cannot commit. */
  lemma FirstCommit(past: seq<P.Step>, d: P.Delivery, luck: Luck)
    requires d.verdict.Routed? || d.verdict.Malformed?
    ensures var t := P.Run(P.Start(), past).t;
            var p := Asked(d, luck.now);
            var known := HasKey(t, Key(p.source, p.sourceRef));
            var (t', r) := Commit(t, Ingest(t, p, luck.now), luck.write);
            && (r.Ok? <==> luck.write && (known || p.slug == "" || p.slug in t.projects))
            && (r.Err? ==> t' == t)
            && (r.Ok? ==> (r.value.IsNew() <==> !known))
            && (r.Ok? && known ==>
                  && Recounted(t, t', Key(p.source, p.sourceRef), r.value.id, luck.now) && t'.events == t.events
                  && r.value.count == At(t', r.value.id).occurrences)
            && (r.Ok? && !known ==> OneMore(t, t') && Begins(t'.incidents[|t.incidents|], d, luck.now))
  {
    NewExactly(past, Asked(d, luck.now), luck.now);
    if d.verdict.Routed? { ParamsDescribe(d.verdict.ev, luck.now); }
  }

  ghost predicate Begins(row: Incident, d: P.Delivery, now: Time)
    requires d.verdict.Routed? || d.verdict.Malformed?
  {
    if d.verdict.Routed? then StoredEvent(row, d.verdict.ev, now) else StoredMalformed(row, d.m, d.verdict.cause, now)
  }

  lemma RepeatHandled(t: Tables, t1: Tables, t2: Tables, ev: P.Event, id: nat, luck: Luck)
    requires luck.write && HasKey(t, Key(ev.source, ev.sourceRef))
    requires Recounted(t, t1, Key(ev.source, ev.sourceRef), id, luck.now) && t1.events == t.events
    requires t2 == if luck.audit then Append(t1, id, DUPLICATE, "system", "", "", Occurrence(At(t1, id).occurrences),
                                             luck.now).0 else t1
    ensures EventHandled(t, t2, ev, luck)
  {
    MaxIdIsMax(t1.events);
    assert Recounted(t, t2, Key(ev.source, ev.sourceRef), id, luck.now);
  }

  lemma IngestRecounts(t: Tables, p: IngestParams, now: Time)
    requires HasKey(t, Key(p.source, p.sourceRef))
    ensures var (t', r) := Ingest(t, p, now);
            && r.Ok? && Recounted(t, t', Key(p.source, p.sourceRef), r.value.id, now) && t'.events == t.events
            && r.value.count == At(t', r.value.id).occurrences
  {
    IngestEffect(t, p, now);
  }

  lemma IngestInserts(t: Tables, p: IngestParams, now: Time)
    requires !HasKey(t, Key(p.source, p.sourceRef)) && (p.slug == "" || p.slug in t.projects)
    ensures var (t', r) := Ingest(t, p, now);
            && r.Ok? && OneMore(t, t') && t'.incidents[|t.incidents|] == NewIncident(p, now) && r.value.IsNew()
  {
    IngestEffect(t, p, now);
  }

  /** The same over the machine: what receiving a new event leaves. */
  lemma ReceiveStores(w: P.World, d: P.Delivery, now: Time)
    requires w.sub.pending.None? && d.verdict.Routed?
    requires var ev := d.verdict.ev;
             !HasKey(w.t, Key(ev.source, ev.sourceRef)) && (ev.slug == "" || ev.slug in w.t.projects)
    ensures var w' := P.Next(w, P.Receive(d, now));
            && OneMore(w.t, w'.t) && StoredEvent(w'.t.incidents[|w.t.incidents|], d.verdict.ev, now)
            && w'.sub.acks == w.sub.acks + [d]
  {
    IngestInserts(w.t, P.HandleParams(d.verdict.ev, now), now);
    ParamsDescribe(d.verdict.ev, now);
  }

  lemma ReceiveStoresMalformed(w: P.World, d: P.Delivery, now: Time)
    requires w.sub.pending.None? && d.verdict.Malformed?
    requires !HasKey(w.t, Key("unparseable", "message:" + d.m.id))
    ensures var w' := P.Next(w, P.Receive(d, now));
            && OneMore(w.t, w'.t) && StoredMalformed(w'.t.incidents[|w.t.incidents|], d.m, d.verdict.cause, now)
            && w'.sub.acks == w.sub.acks + [d]
  {
    IngestInserts(w.t, P.MalformedParams(d.m, d.verdict.cause), now);
  }

  class IncidentWriter {
    const sys: System

    constructor (sys: System)
      ensures this.sys == sys
    {
      this.sys := sys;
    }

    /** The row an event asks for. The job steps go into a copy of the metadata as one string. */
    method Classify(ev: P.Event, now: Time) returns (p: IngestParams)
      ensures p == P.HandleParams(ev, now)
    {
      var metadata := ev.metadata;
      if |ev.jobSteps| > 0 {
        metadata := Copy(ev.metadata);
        metadata := metadata["job_steps" := Join(ev.jobSteps, UNIT_SEPARATOR)];
      }
      var occurred := now;
      if ev.occurredAt.Some? { occurred := ev.occurredAt.value; }
      p := IngestParams(ev.slug, ev.source, ev.sourceRef, ev.kind, ev.title, ev.body, "received", "", metadata,
                        occurred);
      if ev.slug == "" { p := p.(state := "filtered", reason := "unroutable"); }
    }

    method Copy(m: map<string, string>) returns (c: map<string, string>)
      ensures c == m
    {
      c := map[];
      var todo := m.Keys;
      while todo != {}
        invariant todo <= m.Keys && c.Keys == m.Keys - todo && forall k :: k in c ==> c[k] == m[k]
        decreases |todo|
      {
        var k :| k in todo;
        c, todo := c[k := m[k]], todo - {k};
      }
    }

    /** A new event enters the queue or, unroutable, is filtered at once; a redelivery is
        counted and leaves an audit row of its own. It succeeds exactly when all of that
        commits. */
    method Handle(d: P.Delivery, luck: Luck) returns (ok: bool)
      requires sys.Valid() && sys.world.sub.pending.None? && d.verdict.Routed?
      modifies sys, sys.db
      ensures sys.Valid() && sys.world.wk == old(sys.world).wk && sys.world.published == old(sys.world).published
      ensures EventHandled(old(sys.world).t, sys.world.t, d.verdict.ev, luck)
      ensures var t, ev := old(sys.world).t, d.verdict.ev;
              ok <==> luck.write && if HasKey(t, Key(ev.source, ev.sourceRef)) then luck.audit
                                    else ev.slug == "" || ev.slug in t.projects
      ensures sys.world.sub ==
              if ok then old(sys.world).sub.(acks := old(sys.world).sub.acks + [d]) else old(sys.world).sub
      ensures !luck.write ==> sys.world == old(sys.world)
    {
      ghost var t := sys.world.t;
      var p := Classify(d.verdict.ev, luck.now);
      FirstCommit(sys.past, d, luck);
      var r := Record(p, d, luck);
      if r.Err? { return false; }
      if r.value.IsNew() { return true; }
      ghost var t1 := sys.world.t;
      ok := Repeat(d, r.value.id, r.value.count, luck);
      RepeatHandled(t, t1, sys.world.t, d.verdict.ev, r.value.id, luck);
    }

    /** The first commit: the row itself. */
    method Record(p: IngestParams, d: P.Delivery, luck: Luck) returns (r: Result<IngestResult, Error>)
      requires d.verdict.Routed? || d.verdict.Malformed?
      requires sys.Valid() && sys.world.sub.pending.None? && p == Asked(d, luck.now)
      modifies sys, sys.db`incidents
      ensures sys.Valid() && sys.world.wk == old(sys.world).wk && sys.world.published == old(sys.world).published
      ensures (sys.world.t, r) == Commit(old(sys.world).t, Ingest(old(sys.world).t, p, luck.now), luck.write)
      ensures r.Err? ==> sys.world == old(sys.world)
      ensures r.Ok? ==>
                sys.world.sub == if r.value.IsNew() || d.verdict.Malformed?
                                 then old(sys.world).sub.(acks := old(sys.world).sub.acks + [d])
                                 else old(sys.world).sub.(pending := Some(P.Pending(d, r.value.id, r.value.count)))
    {
      r := sys.db.IngestIncident(p, luck.now, luck.write);
      if r.Ok? { sys.Follow(P.Receive(d, luck.now)); }
    }

    /** The second commit of a redelivery: its audit row. */
    method Repeat(d: P.Delivery, id: nat, count: nat, luck: Luck) returns (ok: bool)
      requires sys.Valid() && sys.world.sub.pending == Some(P.Pending(d, id, count)) && Has(sys.world.t, id)
      modifies sys, sys.db`events
      ensures sys.Valid() && sys.world.wk == old(sys.world).wk && sys.world.published == old(sys.world).published
      ensures ok == luck.audit
      ensures sys.world.t == if ok then Append(old(sys.world).t, id, DUPLICATE, "system", "", "", Occurrence(count),
                                               luck.now).0 else old(sys.world).t
      ensures sys.world.sub.pending.None? && sys.world.sub.acked == old(sys.world).sub.acked
      ensures sys.world.sub.acks == old(sys.world).sub.acks + if ok then [d] else []
    {
      var a := sys.db.AppendEvent(id, DUPLICATE, "system", "", "", Occurrence(count), luck.now, luck.audit);
      ok := a.Ok?;
      if ok {
        sys.Follow(P.Audit(luck.now));
      } else {
        sys.Follow(P.AuditFails);
      }
    }

    /** A message that could not be parsed becomes a filtered row under its own key. */
    method HandleMalformed(d: P.Delivery, luck: Luck) returns (ok: bool)
      requires sys.Valid() && sys.world.sub.pending.None? && d.verdict.Malformed?
      modifies sys, sys.db
      ensures sys.Valid() && sys.world.wk == old(sys.world).wk && sys.world.published == old(sys.world).published
      ensures MalformedHandled(old(sys.world).t, sys.world.t, d.m, d.verdict.cause, luck) && ok == luck.write
      ensures sys.world.sub ==
              if ok then old(sys.world).sub.(acks := old(sys.world).sub.acks + [d]) else old(sys.world).sub
      ensures !luck.write ==> sys.world == old(sys.world)
    {
      var p := IngestParams("", P.UNPARSEABLE, "message:" + d.m.id, "message.unparseable",
                            "Unparseable message " + d.m.id, d.verdict.cause, "filtered", P.UNPARSEABLE,
                            d.m.attributes, d.m.publishTime);
      FirstCommit(sys.past, d, luck);
      var r := Record(p, d, luck);
      ok := r.Ok?;
    }
  }

  /** Which counters a message raises, each by one. */
  predicate Counted(s: Stats, s': Stats, v: P.Verdict, ack: bool) {
    && s'.pulled == s.pulled + 1
    && s'.handled == s.handled + (if v.Routed? && ack then 1 else 0)
    && s'.ignored == s.ignored + (if v.Ignored? then 1 else 0)
    && s'.unrouted == s.unrouted + (if v.Unclaimed? then 1 else 0)
    && s'.signatureFailures == s.signatureFailures + (if v.BadSignature? then 1 else 0)
    && s'.malformed == s.malformed + (if v.Malformed? then 1 else 0)
    && s'.writeErrors == s.writeErrors + (if v.RouteFailed? || (v.Routed? && !ack) then 1 else 0)
  }

  /** What a message leaves in the tables, and whether it may be acknowledged: every outcome may
      but a failed write and an unexplained routing error, the ones that redelivery can cure. */
  ghost predicate Treated(t: Tables, t': Tables, d: P.Delivery, luck: Luck, ack: bool) {
    match d.verdict
    case Routed(ev) =>
      && EventHandled(t, t', ev, luck)
      && (ack <==> luck.write && if HasKey(t, Key(ev.source, ev.sourceRef)) then luck.audit
                                 else ev.slug == "" || ev.slug in t.projects)
    case Malformed(cause) => MalformedHandled(t, t', d.m, cause, luck) && (ack <==> luck.write)
    case RouteFailed => !ack && t' == t
    case Ignored => ack && t' == t
    case Unclaimed => ack && t' == t
    case BadSignature => ack && t' == t
  }

  /** The first n messages of a batch: the tables before, between and after them, and which may
      be acknowledged. */
  ghost predicate Chain(ts: seq<Tables>, ds: seq<P.Delivery>, lucks: seq<Luck>, may: seq<bool>, n: nat)
    requires n <= |ds| && n <= |lucks|
  {
    |ts| == n + 1 && |may| == n && forall i :: 0 <= i < n ==> Treated(ts[i], ts[i + 1], ds[i], lucks[i], may[i])
  }

  /** The acknowledged ones are exactly those that may be. */
  predicate Exactly(acks: seq<P.Delivery>, ds: seq<P.Delivery>, may: seq<bool>)
    requires |may| <= |ds|
  {
    && (forall i :: 0 <= i < |may| && may[i] ==> ds[i] in acks)
    && forall d :: d in acks ==> exists i :: 0 <= i < |may| && may[i] && ds[i] == d
  }

  lemma ChainMore(ts: seq<Tables>, t: Tables, ds: seq<P.Delivery>, lucks: seq<Luck>, may: seq<bool>, ack: bool,
                  acks: seq<P.Delivery>)
    requires var n := |may|; n < |ds| && n < |lucks| && Chain(ts, ds, lucks, may, n) && Exactly(acks, ds, may)
                             && Treated(ts[n], t, ds[n], lucks[n], ack)
    ensures Chain(ts + [t], ds, lucks, may + [ack], |may| + 1)
    ensures Exactly(if ack then acks + [ds[|may|]] else acks, ds, may + [ack])
  {
    var more := may + [ack];
    forall d | d in acks ensures exists i :: 0 <= i < |more| && more[i] && ds[i] == d {
      var i :| 0 <= i < |may| && may[i] && ds[i] == d;
      assert more[i];
    }
    assert more[|may|] == ack;
  }

  class Subscriber {
    const sys: System
    const writer: IncidentWriter
    var stats: Stats
    var lastPullAt: Option<Time>

    ghost predicate Valid()
      reads this, sys, sys.db
    {
      sys.Valid() && writer.sys == sys && Balanced(stats) && sys.world.sub.pending.None?
    }

    constructor (sys: System, writer: IncidentWriter)
      requires sys.Valid() && sys.world.sub.pending.None? && writer.sys == sys
      ensures Valid() && this.sys == sys && this.writer == writer && stats.pulled == 0
    {
      this.sys, this.writer := sys, writer;
      stats, lastPullAt := Stats(0, 0, 0, 0, 0, 0, 0), None;
    }

    /** Whether the message may be acknowledged. One counter besides that of the pulled messages
        goes up. */
    method HandleMessage(d: P.Delivery, luck: Luck) returns (ack: bool)
      requires Valid()
      modifies this`stats, sys, sys.db
      ensures Valid() && Counted(old(stats), stats, d.verdict, ack)
      ensures Treated(old(sys.world).t, sys.world.t, d, luck, ack)
      ensures sys.world.wk == old(sys.world).wk && sys.world.published == old(sys.world).published
      ensures sys.world.sub.acks == old(sys.world).sub.acks + (if ack then [d] else [])
      ensures sys.world.sub.acked == old(sys.world).sub.acked
    {
      stats := stats.(pulled := stats.pulled + 1);
      match d.verdict
      case Routed(_) =>
        ack := writer.Handle(d, luck);
        if ack {
          stats := stats.(handled := stats.handled + 1);
        } else {
          stats := stats.(writeErrors := stats.writeErrors + 1);
        }
      case Ignored =>
        stats := stats.(ignored := stats.ignored + 1);
        sys.Follow(P.Receive(d, luck.now));
        ack := true;
      case Unclaimed =>
        stats := stats.(unrouted := stats.unrouted + 1);
        sys.Follow(P.Receive(d, luck.now));
        ack := true;
      case BadSignature =>
        stats := stats.(signatureFailures := stats.signatureFailures + 1);
        sys.Follow(P.Receive(d, luck.now));
        ack := true;
      case Malformed(_) =>
        stats := stats.(malformed := stats.malformed + 1);
        ack := writer.HandleMalformed(d, luck);
      case RouteFailed =>
        stats := stats.(writeErrors := stats.writeErrors + 1);
        ack := false;
    }

    /** Handles a batch, message by message, then acknowledges exactly those that came to rest.
        Whatever is acknowledged has its row in the tables or never needed one. */
    method ProcessBatch(ds: seq<P.Delivery>, lucks: seq<Luck>, ackOk: bool, now: Time)
      returns (acks: seq<P.Delivery>, ghost ts: seq<Tables>, ghost may: seq<bool>)
      requires Valid() && sys.world.sub.acks == [] && |lucks| == |ds|
      modifies this, sys, sys.db
      ensures Valid() && sys.world.sub.acks == [] && stats.pulled == old(stats).pulled + |ds|
      ensures sys.world.wk == old(sys.world).wk && sys.world.published == old(sys.world).published
      ensures sys.world.sub.acked == old(sys.world).sub.acked + (if ackOk then (set d | d in acks) else {})
      ensures forall d :: d in acks ==> d in ds && Settled(sys.world.t, d)
      ensures Chain(ts, ds, lucks, may, |ds|) && ts[0] == old(sys.world).t && ts[|ds|] == sys.world.t
      ensures Exactly(acks, ds, may)
      ensures lastPullAt == if ackOk && acks != [] then Some(now) else old(lastPullAt)
    {
      acks, ts, may := [], [sys.world.t], [];
      for i := 0 to |ds|
        invariant Valid() && acks == sys.world.sub.acks && stats.pulled == old(stats).pulled + i
        invariant lastPullAt == old(lastPullAt)
        invariant sys.world.wk == old(sys.world).wk && sys.world.published == old(sys.world).published
        invariant sys.world.sub.acked == old(sys.world).sub.acked
        invariant Chain(ts, ds, lucks, may, i) && ts[0] == old(sys.world).t && ts[i] == sys.world.t
        invariant Exactly(acks, ds, may)
      {
        var ack := HandleMessage(ds[i], lucks[i]);
        ChainMore(ts, sys.world.t, ds, lucks, may, ack, acks);
        ts, may := ts + [sys.world.t], may + [ack];
        if ack { acks := acks + [ds[i]]; }
      }
      AcknowledgedIsSettled(sys.past);
      if acks == [] { return; }
      sys.Follow(P.Ack(ackOk));
      if ackOk { lastPullAt := Some(now); }
    }
  }

  /** From the event to its group: the row that the writer stores for a failed workflow is
      grouped by the very steps the event came with, whatever else is in its metadata. */
  lemma StoredEventGroups(t: Tables, ev: P.Event, now: Time, roots: seq<string>, p: Patterns)
    requires ev.kind == WORKFLOW_FAILED && "job_steps" !in ev.metadata && p.normalize("") == ""
    requires forall s :: s in ev.jobSteps ==> UNIT_SEPARATOR !in s
    requires !HasKey(t, Key(ev.source, ev.sourceRef)) && Ingest(t, P.HandleParams(ev, now), now).1.Ok?
    ensures var (t', r) := Ingest(t, P.HandleParams(ev, now), now);
            var workflow := if "workflow" in ev.metadata then ev.metadata["workflow"] else "";
            GroupOf(At(t', r.value.id), roots, p) == WorkflowGrouping(ev.slug, workflow, ev.jobSteps, p.normalize)
  {
    IngestEffect(t, P.HandleParams(ev, now), now);
    var workflow := if "workflow" in ev.metadata then ev.metadata["workflow"] else "";
    StepEncodingTransparent(ev.slug, workflow, ev.jobSteps, ev.metadata, p.normalize);
  }
}
