/** Ingestion over whole runs: at least once in, one row out, every redelivery accounted. */
module PipelineIngest {
  import opened Wrappers
  import opened Store
  import opened StoreRuns
  import opened Fingerprint
  import P = Pipeline

  // ---- Every step is at most one transaction ----

  function OpOf(w: P.World, s: P.Step): Option<Op> {
    match s
    case Receive(d, now) =>
      if w.sub.pending.Some? then None
      else (match d.verdict
            case Routed(ev) => Some(DoIngest(P.HandleParams(ev, now), now))
            case Malformed(cause) => Some(DoIngest(P.MalformedParams(d.m, cause), now))
            case _ => None)
    case Audit(now) =>
      if w.sub.pending.None? then None
      else Some(DoDuplicate(w.sub.pending.value.id, Occurrence(w.sub.pending.value.count), now))
    case Mark(g) =>
      if !w.wk.phase.Taken? || !Has(w.t, w.wk.phase.id) || At(w.t, w.wk.phase.id).slug != g.slug then None
      else Some(DoMark(w.wk.phase.id, Hash(g)))
    case Sight(window, now) =>
      if !w.wk.phase.Marked? then None
      else
        var id, g := w.wk.phase.id, w.wk.phase.g;
        Some(DoObserve(Observation(Hash(g), g.slug, g.strategy, g.frames, id, window), now))
    case Move(early, detail, now) =>
      if !w.wk.phase.Seen? then None
      else Some(DoTransition(P.MoveParams(w.wk.phase.id, w.wk.phase.g, w.wk.phase.out, early, detail), now))
    case Resync(rows) => Some(DoSync(rows))
    case _ => None
  }

  lemma TablesFollow(w: P.World, s: P.Step)
    ensures P.Next(w, s).t == match OpOf(w, s) { case None => w.t case Some(op) => Apply(w.t, op) }
  {}

  lemma NextAdvances(w: P.World, s: P.Step)
    ensures Advances(w.t, P.Next(w, s).t)
  {
    TablesFollow(w, s);
    if OpOf(w, s).Some? { ApplyAdvances(w.t, OpOf(w, s).value); }
  }

  ghost predicate Sound(t: Tables) {
    ReferencesHold(t) && Counted(t) && IdsIncrease(t.events)
  }

  lemma NextSound(w: P.World, s: P.Step)
    requires Sound(w.t)
    ensures Sound(P.Next(w, s).t)
  {
    TablesFollow(w, s);
    if OpOf(w, s).Some? {
      var op := OpOf(w, s).value;
      ApplyAdvances(w.t, op);
      ReferencesStep(w.t, op);
      if op.DoIngest? {
        CountIngest(w.t, op.p, op.now, Key("", ""));
      } else {
        OthersKeepCounts(w.t, op);
        SameCountsCount(w.t, Apply(w.t, op), Key("", ""));
      }
    }
  }

  lemma {:induction false} RunSound(steps: seq<P.Step>)
    ensures Sound(P.Run(P.Start(), steps).t)
  {
    if steps == [] {
    } else {
      RunSound(steps[..|steps| - 1]);
      NextSound(P.Run(P.Start(), steps[..|steps| - 1]), steps[|steps| - 1]);
    }
  }

  // ---- At least once ----

  /** A message that may be forgotten: its row is there, or there is nothing to store. */
  predicate Settled(t: Tables, d: P.Delivery) {
    match d.verdict
    case Routed(ev) => HasKey(t, Key(ev.source, ev.sourceRef))
    case Malformed(_) => HasKey(t, Key(P.UNPARSEABLE, "message:" + d.m.id))
    case RouteFailed => false
    case _ => true
  }

  lemma SettledStays(t: Tables, t': Tables, d: P.Delivery)
    requires Advances(t, t') && Settled(t, d)
    ensures Settled(t', d)
  {
    if d.verdict.Routed? { KeyStays(t, t', Key(d.verdict.ev.source, d.verdict.ev.sourceRef)); }
    if d.verdict.Malformed? { KeyStays(t, t', Key(P.UNPARSEABLE, "message:" + d.m.id)); }
  }

  lemma KeyStays(t: Tables, t': Tables, k: Key)
    requires Advances(t, t') && HasKey(t, k)
    ensures HasKey(t', k)
  {
    var i :| 0 <= i < |t.incidents| && KeyOf(t.incidents[i]) == k;
    assert SameOrigin(t.incidents[i], t'.incidents[i]);
  }

  ghost predicate AckInv(w: P.World) {
    && (forall d :: d in w.sub.acks ==> Settled(w.t, d))
    && (forall d :: d in w.sub.acked ==> Settled(w.t, d))
    && (w.sub.pending.Some? ==> Settled(w.t, w.sub.pending.value.d))
  }

  lemma ReceivedSettled(w: P.World, p: IngestParams, now: Time)
    ensures Ingest(w.t, p, now).1.Ok? ==> HasKey(Ingest(w.t, p, now).0, Key(p.source, p.sourceRef))
  {
    var (t', r) := Ingest(w.t, p, now);
    if r.Ok? { assert KeyOf(t'.incidents[r.value.id - 1]) == Key(p.source, p.sourceRef); }
  }

  lemma AckInvNext(w: P.World, s: P.Step)
    requires AckInv(w)
    ensures AckInv(P.Next(w, s))
  {
    NextAdvances(w, s);
    var w' := P.Next(w, s);
    forall d | Settled(w.t, d) ensures Settled(w'.t, d) { SettledStays(w.t, w'.t, d); }
    if s.Receive? { AckInvReceive(w, s.d, s.now); } else { AckInvOther(w, s); }
  }

  lemma AckInvReceive(w: P.World, d: P.Delivery, now: Time)
    requires AckInv(w) && forall e :: Settled(w.t, e) ==> Settled(P.DoReceive(w, d, now).t, e)
    ensures AckInv(P.DoReceive(w, d, now))
  {
    if d.verdict.Routed? { ReceivedSettled(w, P.HandleParams(d.verdict.ev, now), now); }
    if d.verdict.Malformed? { ReceivedSettled(w, P.MalformedParams(d.m, d.verdict.cause), now); }
  }

  lemma AckInvOther(w: P.World, s: P.Step)
    requires !s.Receive? && AckInv(w) && forall e :: Settled(w.t, e) ==> Settled(P.Next(w, s).t, e)
    ensures AckInv(P.Next(w, s))
  {}

  /** At least once: in every run, with redeliveries, failed writes, failed acknowledgements
      and crashes anywhere, an acknowledged message has its row in the tables, unless it was
      ignored, unclaimed or badly signed. */
  lemma {:induction false} AcknowledgedIsSettled(steps: seq<P.Step>)
    ensures AckInv(P.Run(P.Start(), steps))
  {
    if steps == [] {
    } else {
      AcknowledgedIsSettled(steps[..|steps| - 1]);
      AckInvNext(P.Run(P.Start(), steps[..|steps| - 1]), steps[|steps| - 1]);
    }
  }

  // ---- Redelivery accounting ----

  predicate IsDuplicate(r: EventRow, id: nat) { r.incident == id && r.kind == DUPLICATE }

  function Duplicates(rows: seq<EventRow>, id: nat): nat {
    if rows == [] then 0
    else Duplicates(rows[..|rows| - 1], id) + if IsDuplicate(rows[|rows| - 1], id) then 1 else 0
  }

  function Owed(w: P.World, id: nat): nat {
    if w.sub.pending.Some? && w.sub.pending.value.id == id then 1 else 0
  }

  function RecordedCount(r: EventRow): nat { if r.payload.Occurrence? then r.payload.count else 0 }

  /** One incident's ledger: its count is one, plus its duplicate rows, plus the ingests
      that left none, plus the row still owed; the recorded counts strictly increase. */
  ghost predicate Ledger(rows: seq<EventRow>, id: nat, count: nat, missed: nat, owed: nat) {
    && count == 1 + Duplicates(rows, id) + missed + owed
    && (forall i, j :: 0 <= i < j < |rows| && IsDuplicate(rows[i], id) && IsDuplicate(rows[j], id) ==>
          RecordedCount(rows[i]) < RecordedCount(rows[j]))
    && (forall i :: 0 <= i < |rows| && IsDuplicate(rows[i], id) ==> RecordedCount(rows[i]) + owed <= count)
  }

  ghost predicate Recorded(w: P.World) {
    && ReferencesHold(w.t)
    && (forall id :: Has(w.t, id) ==> LedgerOf(w, id))
    && (forall id :: !Has(w.t, id) ==> w.h.missed[id] == 0)
    && (w.sub.pending.Some? ==>
          Has(w.t, w.sub.pending.value.id) && w.sub.pending.value.count == At(w.t, w.sub.pending.value.id).occurrences)
  }

  ghost predicate LedgerOf(w: P.World, id: nat)
    requires Has(w.t, id)
  {
    Ledger(w.t.events, id, At(w.t, id).occurrences, w.h.missed[id], Owed(w, id))
  }

  lemma LedgerOther(rows: seq<EventRow>, r: EventRow, id: nat, count: nat, missed: nat, owed: nat)
    requires Ledger(rows, id, count, missed, owed) && !IsDuplicate(r, id)
    ensures Ledger(rows + [r], id, count, missed, owed)
  {
    assert (rows + [r])[..|rows|] == rows;
  }

  lemma LedgerDuplicate(rows: seq<EventRow>, r: EventRow, id: nat, count: nat, missed: nat)
    requires Ledger(rows, id, count, missed, 1) && IsDuplicate(r, id) && RecordedCount(r) == count
    ensures Ledger(rows + [r], id, count, missed, 0)
  {
    assert (rows + [r])[..|rows|] == rows;
    forall i | 0 <= i < |rows| && IsDuplicate(rows[i], id) ensures RecordedCount(rows[i]) < count {
      assert RecordedCount(rows[i]) + 1 <= count;
    }
  }

  lemma LedgerRow(rows: seq<EventRow>, r: EventRow, id: nat, count: nat, missed: nat, owed: nat)
    requires Ledger(rows, id, count, missed, owed)
    ensures !IsDuplicate(r, id) ==> Ledger(rows + [r], id, count, missed, owed)
    ensures IsDuplicate(r, id) && owed == 1 && RecordedCount(r) == count ==> Ledger(rows + [r], id, count, missed, 0)
  {
    if !IsDuplicate(r, id) {
      LedgerOther(rows, r, id, count, missed, owed);
    } else if owed == 1 && RecordedCount(r) == count {
      LedgerDuplicate(rows, r, id, count, missed);
    }
  }

  lemma {:induction false} NoDuplicates(rows: seq<EventRow>, id: nat)
    requires forall i :: 0 <= i < |rows| ==> rows[i].incident != id
    ensures Duplicates(rows, id) == 0
  {
    if rows == [] {
    } else {
      NoDuplicates(rows[..|rows| - 1], id);
    }
  }

  lemma ReferencesNext(w: P.World, s: P.Step)
    requires ReferencesHold(w.t)
    ensures ReferencesHold(P.Next(w, s).t)
  {
    TablesFollow(w, s);
    if OpOf(w, s).Some? { ReferencesStep(w.t, OpOf(w, s).value); }
  }

  /** An ingest touches one ledger: a new one, or that of the row it counts. */
  lemma IngestLedgers(t: Tables, p: IngestParams, now: Time, id: nat, missed: nat)
    requires ReferencesHold(t) && Ingest(t, p, now).1.Ok? && Has(Ingest(t, p, now).0, id)
    requires if Has(t, id) then Ledger(t.events, id, At(t, id).occurrences, missed, 0) else missed == 0
    ensures var (t', r) := Ingest(t, p, now);
            && t'.events == t.events
            && r.value.id == (if Has(t, id) then r.value.id else id)
            && r.value.count == At(t', r.value.id).occurrences
            && (if id == r.value.id && !r.value.IsNew()
                then Ledger(t.events, id, At(t', id).occurrences, missed, 1)
                  && Ledger(t.events, id, At(t', id).occurrences, missed + 1, 0)
                else Ledger(t.events, id, At(t', id).occurrences, missed, 0))
            && (!r.value.IsNew() ==> Has(t, r.value.id))
  {
    if !Has(t, id) { NoDuplicates(t.events, id); }
  }

  /** How a delivery that reaches the tables leaves them and the subscriber. */
  ghost predicate TakenIn(w: P.World, w': P.World, d: P.Delivery, p: IngestParams, now: Time) {
    var (t', r) := Ingest(w.t, p, now);
    && r.Ok? && w'.t == t'
    && w'.sub.pending == (if r.value.IsNew() || d.verdict.Malformed? then None
                          else Some(P.Pending(d, r.value.id, r.value.count)))
    && w'.h.missed == (if r.value.IsNew() || !d.verdict.Malformed? then w.h.missed
                       else w.h.missed + multiset{r.value.id})
  }

  lemma ReceiveEffect(w: P.World, d: P.Delivery, now: Time, p: IngestParams)
    requires w.sub.pending.None? && (d.verdict.Routed? || d.verdict.Malformed?)
    requires p == if d.verdict.Routed? then P.HandleParams(d.verdict.ev, now)
                  else P.MalformedParams(d.m, d.verdict.cause)
    requires Ingest(w.t, p, now).1.Ok?
    ensures TakenIn(w, P.DoReceive(w, d, now), d, p, now)
  {}

  /** What is known of every ledger before an ingest, and of the row it counts. */
  lemma IngestKnown(w: P.World, p: IngestParams, now: Time)
    requires Recorded(w) && w.sub.pending.None? && Ingest(w.t, p, now).1.Ok?
    ensures forall id :: if Has(w.t, id) then Ledger(w.t.events, id, At(w.t, id).occurrences, w.h.missed[id], 0)
                         else w.h.missed[id] == 0
    ensures var (t', r) := Ingest(w.t, p, now); Has(t', r.value.id) && |w.t.incidents| <= |t'.incidents|
  {
    forall id | Has(w.t, id) ensures Ledger(w.t.events, id, At(w.t, id).occurrences, w.h.missed[id], 0) {
      assert LedgerOf(w, id);
    }
  }

  lemma ReceivedLedgers(w: P.World, w': P.World, d: P.Delivery, p: IngestParams, now: Time)
    requires Recorded(w) && w.sub.pending.None? && TakenIn(w, w', d, p, now)
    ensures forall id :: Has(w'.t, id) ==> LedgerOf(w', id)
  {
    IngestKnown(w, p, now);
    forall id | Has(w'.t, id) ensures LedgerOf(w', id) {
      IngestLedgers(w.t, p, now, id, w.h.missed[id]);
    }
  }

  lemma RecordedReceive(w: P.World, d: P.Delivery, now: Time)
    requires Recorded(w)
    ensures Recorded(P.DoReceive(w, d, now))
  {
    if w.sub.pending.None? && (d.verdict.Routed? || d.verdict.Malformed?) {
      var p := if d.verdict.Routed? then P.HandleParams(d.verdict.ev, now)
               else P.MalformedParams(d.m, d.verdict.cause);
      if Ingest(w.t, p, now).1.Ok? {
        ReferencesNext(w, P.Receive(d, now));
        ReceiveEffect(w, d, now, p);
        ReceivedLedgers(w, P.DoReceive(w, d, now), d, p, now);
      }
    }
  }

  predicate SameBooks(w: P.World, w': P.World) {
    && |w'.t.incidents| == |w.t.incidents| && w'.h.missed == w.h.missed
    && forall i :: 0 <= i < |w.t.incidents| ==> w'.t.incidents[i].occurrences == w.t.incidents[i].occurrences
  }

  /** A step that at most writes one row which is not the pending duplicate row. */
  lemma RecordedRow(w: P.World, w': P.World)
    requires Recorded(w) && ReferencesHold(w'.t) && SameBooks(w, w') && w'.sub.pending == w.sub.pending
    requires OtherRow(w.t.events, w'.t.events)
    ensures Recorded(w')
  {
    forall id | Has(w'.t, id) ensures LedgerOf(w', id) {
      assert LedgerOf(w, id);
      if w'.t.events != w.t.events {
        var row := w'.t.events[|w.t.events|];
        assert w'.t.events == w.t.events + [row];
        LedgerRow(w.t.events, row, id, At(w.t, id).occurrences, w.h.missed[id], Owed(w, id));
      }
    }
  }

  lemma RecordedAudit(w: P.World, now: Time)
    requires Recorded(w)
    ensures Recorded(P.DoAudit(w, now))
  {
    if w.sub.pending.Some? {
      var w' := P.DoAudit(w, now);
      ReferencesNext(w, P.Audit(now));
      var row := w'.t.events[|w.t.events|];
      assert w'.t.events == w.t.events + [row];
      forall id | Has(w'.t, id) ensures LedgerOf(w', id) {
        assert LedgerOf(w, id);
        LedgerRow(w.t.events, row, id, At(w.t, id).occurrences, w.h.missed[id], Owed(w, id));
      }
    }
  }

  lemma RecordedDrop(w: P.World)
    requires Recorded(w)
    ensures Recorded(P.DropPending(w))
  {
    var w' := P.DropPending(w);
    forall id | Has(w'.t, id) ensures LedgerOf(w', id) { assert LedgerOf(w, id); }
  }

  lemma OtherEffect(w: P.World, s: P.Step)
    requires !s.Receive? && !s.Audit? && !s.AuditFails? && !s.Crash?
    ensures var w' := P.Next(w, s);
            && SameBooks(w, w') && w'.sub.pending == w.sub.pending && OtherRow(w.t.events, w'.t.events)
  {
    TablesFollow(w, s);
    if OpOf(w, s).Some? { OtherOp(w.t, OpOf(w, s).value); }
  }

  /** At most one row more, and no duplicate row. */
  ghost predicate OtherRow(rows: seq<EventRow>, rows': seq<EventRow>) {
    rows' == rows
    || (|rows'| == |rows| + 1 && rows <= rows' && rows'[|rows|].kind != DUPLICATE)
  }

  lemma OtherOp(t: Tables, op: Op)
    requires !op.DoIngest? && !op.DoDuplicate?
    ensures var t' := Apply(t, op);
            && |t'.incidents| == |t.incidents| && OtherRow(t.events, t'.events)
            && forall i :: 0 <= i < |t.incidents| ==> t'.incidents[i].occurrences == t.incidents[i].occurrences
  {}

  lemma RecordedNext(w: P.World, s: P.Step)
    requires Recorded(w)
    ensures Recorded(P.Next(w, s))
  {
    match s
    case Receive(d, now) => RecordedReceive(w, d, now);
    case Audit(now) => RecordedAudit(w, now);
    case AuditFails => RecordedDrop(w);
    case Crash =>
      RecordedDrop(w);
      RecordedRow(P.DropPending(w), P.Next(w, s));
    case _ =>
      ReferencesNext(w, s);
      OtherEffect(w, s);
      RecordedRow(w, P.Next(w, s));
  }

  /** Redelivery accounting: an incident's occurrence count is one, plus its `duplicate`
      audit rows, plus the ingests that left none (their audit append failed or crashed, or
      the message was malformed), plus one if a row is still owed; and the counts those rows
      record strictly increase. */
  lemma {:induction false} RedeliveriesAccounted(steps: seq<P.Step>)
    ensures Recorded(P.Run(P.Start(), steps))
  {
    if steps == [] {
    } else {
      RedeliveriesAccounted(steps[..|steps| - 1]);
      RecordedNext(P.Run(P.Start(), steps[..|steps| - 1]), steps[|steps| - 1]);
    }
  }

  // ---- What the queue holds ----

  ghost predicate ReceivedRoutable(t: Tables) {
    forall i :: 0 <= i < |t.incidents| && t.incidents[i].state == "received" ==> t.incidents[i].slug != ""
  }

  lemma ReceivedRoutableNext(w: P.World, s: P.Step)
    requires ReceivedRoutable(w.t)
    ensures ReceivedRoutable(P.Next(w, s).t)
  {
    if s.Receive? { RoutableReceive(w, s.d, s.now); }
  }

  lemma RoutableReceive(w: P.World, d: P.Delivery, now: Time)
    requires ReceivedRoutable(w.t)
    ensures ReceivedRoutable(P.DoReceive(w, d, now).t)
  {}

  /** Every queued incident names a project that exists, whatever was synced meanwhile. */
  lemma {:induction false} ReceivedNamesAProject(steps: seq<P.Step>)
    ensures var t := P.Run(P.Start(), steps).t;
            ReceivedRoutable(t)
            && forall id :: Has(t, id) && At(t, id).state == "received" ==> At(t, id).slug in t.projects
  {
    RunSound(steps);
    if steps == [] {
    } else {
      ReceivedNamesAProject(steps[..|steps| - 1]);
      ReceivedRoutableNext(P.Run(P.Start(), steps[..|steps| - 1]), steps[|steps| - 1]);
    }
  }
}
