/** What the audit trail and the bus say about an incident, in every run of the pipeline. */
module PipelineTrail {
  import opened Wrappers
  import opened Store
  import opened StoreRuns
  import P = Pipeline
  import opened PipelineIngest
  import opened PipelineStorm

  // ---- The trail and the states ----

  /** An incident is born received, or filtered when no project claims it. */
  function Birth(row: Incident): string { if row.slug == "" then "filtered" else "received" }

  ghost predicate Explains(t: Tables, id: nat)
    requires Has(t, id)
  {
    && Replay(t.events, id, Birth(At(t, id))) == Some(At(t, id).state)
    && ClosedBy(t.events, id, None) == At(t, id).closedAt
  }

  /** Every move leaves received, for good, and no incident moves twice. */
  ghost predicate MovesOnce(t: Tables) {
    && (forall i :: 0 <= i < |t.events| && t.events[i].kind == STATE_CHANGE ==> Left(t, t.events[i]))
    && (forall i, j ::
          0 <= i < j < |t.events| && t.events[i].kind == STATE_CHANGE && t.events[j].kind == STATE_CHANGE ==>
          t.events[i].incident != t.events[j].incident)
  }

  predicate Left(t: Tables, row: EventRow) {
    row.from == "received" && row.to in {"filtered", "suppressed", "triaging"}
    && Has(t, row.incident) && At(t, row.incident).state == row.to
  }

  ghost predicate Chronicle(t: Tables) {
    && ReferencesHold(t) && MovesOnce(t)
    && forall id :: Has(t, id) ==> Explains(t, id)
  }

  lemma {:induction false} NoRows(rows: seq<EventRow>, id: nat, state: string, closed: Option<int>)
    requires forall i :: 0 <= i < |rows| ==> rows[i].incident != id
    ensures Replay(rows, id, state) == Some(state) && ClosedBy(rows, id, closed) == closed
  {
    if rows == [] {
    } else {
      NoRows(rows[..|rows| - 1], id, state, closed);
    }
  }

  /** The operations the pipeline performs. */
  predicate Allowed(op: Op) {
    match op
    case DoIngest(p, _) => p.state == if p.slug == "" then "filtered" else "received"
    case DoTransition(p, _) => p.from == "received" && p.to in {"filtered", "suppressed", "triaging"}
    case _ => true
  }

  lemma ExplainsStep(t: Tables, op: Op, id: nat)
    requires Chronicle(t) && Allowed(op) && Has(Apply(t, op), id)
    ensures Explains(Apply(t, op), id)
  {
    if Has(t, id) { ExplainsKept(t, op, id); } else { ExplainsNew(t, op, id); }
  }

  lemma ExplainsKept(t: Tables, op: Op, id: nat)
    requires Has(t, id) && Explains(t, id)
    ensures Has(Apply(t, op), id) && Explains(Apply(t, op), id)
  {
    var t' := Apply(t, op);
    ApplyTrail(t, op, id);
    assert SameOrigin(t.incidents[id - 1], t'.incidents[id - 1]);
    if t'.events != t.events {
      ReplaySnoc(t.events, t'.events[|t.events|], id, Birth(At(t, id)), None);
    }
  }

  lemma ExplainsNew(t: Tables, op: Op, id: nat)
    requires ReferencesHold(t) && Allowed(op) && !Has(t, id) && Has(Apply(t, op), id)
    ensures Explains(Apply(t, op), id)
  {
    assert op.DoIngest?;
    NoRows(t.events, id, Birth(At(Apply(t, op), id)), None);
  }

  lemma MovesStep(t: Tables, op: Op)
    requires Chronicle(t) && Allowed(op)
    ensures MovesOnce(Apply(t, op))
  {
    if op.DoTransition? {
      TransitionMoves(t, op.t, op.now);
    } else {
      OthersKeepStates(t, op);
      OthersKeepMoves(t, op);
      MovesKept(t, Apply(t, op));
    }
  }

  lemma TransitionMoves(t: Tables, p: TransitionParams, now: Time)
    requires MovesOnce(t) && p.from == "received" && p.to in {"filtered", "suppressed", "triaging"}
    ensures MovesOnce(Transition(t, p, now).0)
  {
    forall i | 0 <= i < |t.events| && t.events[i].kind == STATE_CHANGE ensures Left(t, t.events[i]) {}
  }

  lemma MovesKept(t: Tables, t': Tables)
    requires MovesOnce(t) && SameStates(t, t') && t.events <= t'.events
    requires forall i :: |t.events| <= i < |t'.events| ==> t'.events[i].kind != STATE_CHANGE
    ensures MovesOnce(t')
  {
    forall i | 0 <= i < |t'.events| && t'.events[i].kind == STATE_CHANGE ensures Left(t', t'.events[i]) {
      assert t'.events[i] == t.events[i] && Left(t, t.events[i]);
      assert t'.incidents[t.events[i].incident - 1].state == t.incidents[t.events[i].incident - 1].state;
    }
  }

  lemma OthersKeepMoves(t: Tables, op: Op)
    requires !op.DoTransition?
    ensures var t' := Apply(t, op);
            t.events <= t'.events
            && forall i :: |t.events| <= i < |t'.events| ==> t'.events[i].kind != STATE_CHANGE
  {}

  lemma OpAllowed(w: P.World, s: P.Step)
    ensures OpOf(w, s).Some? ==> Allowed(OpOf(w, s).value)
  {}

  lemma ChronicleNext(w: P.World, s: P.Step)
    requires Chronicle(w.t)
    ensures Chronicle(P.Next(w, s).t)
  {
    TablesFollow(w, s);
    ReferencesNext(w, s);
    OpAllowed(w, s);
    if OpOf(w, s).Some? {
      var op := OpOf(w, s).value;
      MovesStep(w.t, op);
      forall id | Has(Apply(w.t, op), id) ensures Explains(Apply(w.t, op), id) { ExplainsStep(w.t, op, id); }
    }
  }

  /** In every run of the pipeline each incident's state_change rows chain from the state it
      was born in to its current one; received is left at most once and never re-entered;
      and closed_at is set exactly by a move into a terminal state. */
  lemma {:induction false} TrailDeterminesStates(steps: seq<P.Step>)
    ensures Chronicle(P.Run(P.Start(), steps).t)
  {
    if steps == [] {
    } else {
      TrailDeterminesStates(steps[..|steps| - 1]);
      ChronicleNext(P.Run(P.Start(), steps[..|steps| - 1]), steps[|steps| - 1]);
    }
  }

  // ---- Closed and terminal ----

  /** An unroutable incident is filtered and never closed; any other is closed exactly while
      its state is terminal. */
  predicate ClosedRight(row: Incident) {
    if row.slug == "" then row.state == "filtered" && row.closedAt.None?
    else IsTerminalState(row.state) <==> row.closedAt.Some?
  }

  ghost predicate AllClosedRight(t: Tables) {
    forall i :: 0 <= i < |t.incidents| ==> ClosedRight(t.incidents[i])
  }

  lemma ClosedStep(t: Tables, op: Op)
    requires AllClosedRight(t) && Allowed(op)
    ensures AllClosedRight(Apply(t, op))
  {
    if op.DoTransition? { ClosedTransition(t, op.t, op.now); }
  }

  lemma ClosedTransition(t: Tables, p: TransitionParams, now: Time)
    requires AllClosedRight(t) && p.from == "received"
    ensures AllClosedRight(Transition(t, p, now).0)
  {
    assert !IsTerminalState("received");
  }

  lemma {:induction false} ClosedRun(steps: seq<P.Step>)
    ensures AllClosedRight(P.Run(P.Start(), steps).t)
  {
    if steps == [] {
    } else {
      var w, s := P.Run(P.Start(), steps[..|steps| - 1]), steps[|steps| - 1];
      ClosedRun(steps[..|steps| - 1]);
      TablesFollow(w, s);
      OpAllowed(w, s);
      if OpOf(w, s).Some? { ClosedStep(w.t, OpOf(w, s).value); }
    }
  }

  /** Closed does not mean terminal. Exactly when, in every run and for every incident:
      having a closing time and being in a terminal state coincide if and only if a project
      claimed it; an unroutable incident stays filtered without one for good. */
  lemma ClosedIffTerminalIffRoutable(steps: seq<P.Step>, id: nat)
    requires Has(P.Run(P.Start(), steps).t, id)
    ensures var row := At(P.Run(P.Start(), steps).t, id);
            (IsTerminalState(row.state) <==> row.closedAt.Some?) <==> row.slug != ""
  {
    ClosedRun(steps);
    var t := P.Run(P.Start(), steps).t;
    assert ClosedRight(t.incidents[id - 1]);
  }

  // ---- What was published ----

  /** Only committed moves are published, in the order in which they were committed. */
  ghost predicate PublishedCommitted(w: P.World) {
    && IdsIncrease(w.t.events) && IdsIncrease(w.published)
    && (forall i :: 0 <= i < |w.published| ==> w.published[i] in w.t.events && w.published[i].kind == STATE_CHANGE)
    && (w.wk.phase.Moved? ==>
          && w.wk.phase.row in w.t.events && w.wk.phase.row.kind == STATE_CHANGE
          && forall i :: 0 <= i < |w.published| ==> w.published[i].id < w.wk.phase.row.id)
  }

  lemma PublishedMove(w: P.World, early: Option<string>, detail: string, now: Time)
    requires PublishedCommitted(w)
    ensures PublishedCommitted(P.DoMove(w, early, detail, now))
  {
    var w' := P.DoMove(w, early, detail, now);
    NextAdvances(w, P.Move(early, detail, now));
    if w'.wk.phase.Moved? && w'.wk != w.wk {
      var row := w'.t.events[|w.t.events|];
      assert w'.t.events == w.t.events + [row];
      forall i | 0 <= i < |w.published| ensures w.published[i].id < row.id {
        var k :| 0 <= k < |w.t.events| && w.t.events[k] == w.published[i];
        assert w'.t.events[k].id < w'.t.events[|w.t.events|].id;
      }
    }
  }

  lemma PublishedNext(w: P.World, s: P.Step)
    requires PublishedCommitted(w)
    ensures PublishedCommitted(P.Next(w, s))
  {
    var w' := P.Next(w, s);
    NextAdvances(w, s);
    match s
    case Move(early, detail, now) => PublishedMove(w, early, detail, now);
    case Publish =>
    case _ =>
      PublishedKept(w, s);
      assert forall r :: r in w.t.events ==> r in w'.t.events;
  }

  lemma PublishedKept(w: P.World, s: P.Step)
    requires !s.Move? && !s.Publish?
    ensures P.Next(w, s).published == w.published
    ensures P.Next(w, s).wk.phase.Moved? ==> P.Next(w, s).wk.phase == w.wk.phase
  {}

  /** Publish after commit: in every run what was published is a list of committed
      state_change rows with strictly increasing ids. */
  lemma {:induction false} PublishAfterCommit(steps: seq<P.Step>)
    ensures PublishedCommitted(P.Run(P.Start(), steps))
  {
    if steps == [] {
    } else {
      PublishAfterCommit(steps[..|steps| - 1]);
      PublishedNext(P.Run(P.Start(), steps[..|steps| - 1]), steps[|steps| - 1]);
    }
  }
}
