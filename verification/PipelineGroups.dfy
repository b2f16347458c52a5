/** No over-collapse: what a fingerprint puts together belongs together, in every run. */
module PipelineGroups {
  import opened Wrappers
  import opened Store
  import opened StoreRuns
  import opened Fingerprint
  import P = Pipeline
  import opened PipelineIngest
  import opened PipelineStorm
  import opened PipelineTrail

  /** Every mark with the fingerprint is free of separators. */
  ghost predicate CleanSteps(steps: seq<P.Step>, f: Digest) {
    forall i :: 0 <= i < |steps| && steps[i].Mark? && Hash(steps[i].g) == f ==> Clean(steps[i].g)
  }

  /** An incident and the grouping it was given. */
  predicate Fits(t: Tables, id: nat, g: Grouping) {
    Has(t, id) && At(t, id).slug == g.slug && Clean(g)
  }

  /** The row in hand carries the fingerprint it was marked with. */
  ghost predicate PhaseMarked(w: P.World) {
    w.wk.phase.Marked? || w.wk.phase.Seen? ==>
      && Has(w.t, w.wk.phase.id)
      && At(w.t, w.wk.phase.id).fingerprint == Some(Hash(w.wk.phase.g))
      && (w.wk.phase.Seen? ==> Hash(w.wk.phase.g) in w.t.fingerprints)
  }

  predicate Holds(ph: P.Phase, f: Digest) { (ph.Marked? || ph.Seen?) && Hash(ph.g) == f }

  ghost predicate PhaseFits(w: P.World, f: Digest) {
    PhaseMarked(w) && (Holds(w.wk.phase, f) ==> Fits(w.t, w.wk.phase.id, w.wk.phase.g))
  }

  /** The stored row of a fingerprint, its openings and its verdicts are about one failure. */
  ghost predicate GroupBooks(t: Tables, os: seq<P.Opened>, f: Digest) {
    && (forall i :: 0 <= i < |os| ==> Fits(t, os[i].id, os[i].g) && Hash(os[i].g) == f)
    && (f in t.fingerprints ==>
          os != [] && t.fingerprints[f].slug == os[0].g.slug && t.fingerprints[f].frames == os[0].g.frames)
    && (forall i :: 0 <= i < |t.events| && IsVerdict(t.events[i], f) ==> JudgedBy(t, t.events[i].incident, f))
  }

  predicate JudgedBy(t: Tables, id: nat, f: Digest) {
    && Has(t, id) && f in t.fingerprints && At(t, id).state != "received"
    && At(t, id).fingerprint == Some(f) && At(t, id).slug == t.fingerprints[f].slug
  }

  ghost predicate Grouped(w: P.World, f: Digest) { PhaseFits(w, f) && GroupBooks(w.t, P.Opens(w, f), f) }

  lemma FitsStays(t: Tables, t': Tables, id: nat, g: Grouping)
    requires Advances(t, t') && Fits(t, id, g)
    ensures Fits(t', id, g)
  {
    assert SameOrigin(t.incidents[id - 1], t'.incidents[id - 1]);
  }

  /** A row's fingerprint and state change only in the hand of the worker. */
  lemma RowsKeptApart(w: P.World, s: P.Step, id: nat)
    requires HandInv(w) && Has(w.t, id)
    ensures var t' := P.Next(w, s).t;
            && Has(t', id)
            && (id !in InHand(w) ==>
                  At(t', id).fingerprint == At(w.t, id).fingerprint && At(t', id).state == At(w.t, id).state)
            && (!s.Mark? ==> At(t', id).fingerprint == At(w.t, id).fingerprint)
  {
    TablesFollow(w, s);
    assert w.wk.phase.Taken? || w.wk.phase.Seen? ==> InHand(w)[0] == w.wk.phase.id && w.wk.phase.id in InHand(w);
    if OpOf(w, s).Some? { RowOp(w.t, OpOf(w, s).value, id); }
  }

  lemma RowOp(t: Tables, op: Op, id: nat)
    requires Has(t, id)
    ensures var t' := Apply(t, op);
            && Has(t', id)
            && ((op.DoMark? && op.incident == id) || At(t', id).fingerprint == At(t, id).fingerprint)
            && ((op.DoTransition? && op.t.incident == id) || At(t', id).state == At(t, id).state)
  {}

  lemma JudgedStays(w: P.World, s: P.Step, id: nat, f: Digest)
    requires HandInv(w) && JudgedBy(w.t, id, f)
    ensures JudgedBy(P.Next(w, s).t, id, f)
  {
    NextAdvances(w, s);
    RowsKeptApart(w, s, id);
    assert SameOrigin(w.t.incidents[id - 1], P.Next(w, s).t.incidents[id - 1]);
    assert SameGroup(w.t.fingerprints[f], P.Next(w, s).t.fingerprints[f]);
  }

  lemma MarkedNext(w: P.World, s: P.Step)
    requires HandInv(w) && PhaseMarked(w)
    ensures PhaseMarked(P.Next(w, s))
  {
    if s.Receive? || s.Audit? || s.AuditFails? || s.Ack? || s.Resync? { SubscriberApart(w, s); }
    if w.wk.phase.Marked? || w.wk.phase.Seen? {
      RowsKeptApart(w, s, w.wk.phase.id);
      NextAdvances(w, s);
    }
  }

  lemma PhaseNext(w: P.World, s: P.Step, f: Digest)
    requires HandInv(w) && PhaseFits(w, f) && (s.Mark? && Hash(s.g) == f ==> Clean(s.g))
    ensures PhaseFits(P.Next(w, s), f)
  {
    MarkedNext(w, s);
    NextAdvances(w, s);
    if s.Receive? || s.Audit? || s.AuditFails? || s.Ack? || s.Resync? { SubscriberApart(w, s); }
    if Holds(w.wk.phase, f) { FitsStays(w.t, P.Next(w, s).t, w.wk.phase.id, w.wk.phase.g); }
  }

  lemma GroupSight(w: P.World, window: Time, now: Time, f: Digest)
    requires Grouped(w, f) && HandInv(w)
    ensures GroupBooks(P.DoSight(w, window, now).t, P.Opens(P.DoSight(w, window, now), f), f)
  {
    if P.DoSight(w, window, now).wk.phase.Seen? && w.wk.phase.Marked? && Hash(w.wk.phase.g) == f {
      GroupOwnSight(w, window, now, f);
    } else {
      assert P.Opens(P.DoSight(w, window, now), f) == P.Opens(w, f);
    }
  }

  lemma GroupOwnSight(w: P.World, window: Time, now: Time, f: Digest)
    requires Grouped(w, f) && w.wk.phase.Marked? && Hash(w.wk.phase.g) == f
    requires P.DoSight(w, window, now).wk.phase.Seen?
    ensures GroupBooks(P.DoSight(w, window, now).t, P.Opens(P.DoSight(w, window, now), f), f)
  {
    var w' := P.DoSight(w, window, now);
    assert P.Opens(w, f) <= P.Opens(w', f);
    if P.Opens(w, f) != [] { HashSeparates(w.wk.phase.g, P.Opens(w, f)[0].g); }
  }

  lemma OpeningsStay(t: Tables, t': Tables, os: seq<P.Opened>, f: Digest)
    requires GroupBooks(t, os, f) && Advances(t, t') && t'.fingerprints == t.fingerprints
    requires forall i :: 0 <= i < |t'.events| && IsVerdict(t'.events[i], f) ==> JudgedBy(t', t'.events[i].incident, f)
    ensures GroupBooks(t', os, f)
  {
    forall i | 0 <= i < |os| ensures Fits(t', os[i].id, os[i].g) { FitsStays(t, t', os[i].id, os[i].g); }
  }

  /** The new verdict names the project of the fingerprint's first opener. */
  lemma NewVerdict(w: P.World, s: P.Step, f: Digest)
    requires Grouped(w, f) && HandInv(w) && s.Move? && InSight(w.wk.phase, f)
    ensures JudgedBy(P.Next(w, s).t, w.wk.phase.id, f)
  {
    HandMove(w, s.early, s.detail, s.now);
    HashSeparates(w.wk.phase.g, P.Opens(w, f)[0].g);
    RowsKeptApart(w, s, w.wk.phase.id);
  }

  lemma GroupMove(w: P.World, early: Option<string>, detail: string, now: Time, f: Digest)
    requires Grouped(w, f) && HandInv(w)
    ensures GroupBooks(P.DoMove(w, early, detail, now).t, P.Opens(P.DoMove(w, early, detail, now), f), f)
  {
    if w.wk.phase.Seen? {
      var s := P.Move(early, detail, now);
      var w' := P.Next(w, s);
      HandMove(w, early, detail, now);
      NextAdvances(w, s);
      forall i | 0 <= i < |w'.t.events| && IsVerdict(w'.t.events[i], f)
        ensures JudgedBy(w'.t, w'.t.events[i].incident, f)
      {
        if i < |w.t.events| {
          assert w'.t.events[i] == w.t.events[i];
          JudgedStays(w, s, w.t.events[i].incident, f);
        } else {
          NewVerdict(w, s, f);
        }
      }
      OpeningsStay(w.t, w'.t, P.Opens(w, f), f);
    }
  }

  lemma GroupOther(w: P.World, s: P.Step, f: Digest)
    requires Grouped(w, f) && HandInv(w) && !s.Sight? && !s.Move?
    ensures GroupBooks(P.Next(w, s).t, P.Opens(P.Next(w, s), f), f)
  {
    NextAdvances(w, s);
    OthersNoVerdict(w, s);
    OpensKept(w, s);
    VerdictsStayJudged(w, s, f);
    OpeningsStay(w.t, P.Next(w, s).t, P.Opens(w, f), f);
  }

  lemma VerdictsStayJudged(w: P.World, s: P.Step, f: Digest)
    requires GroupBooks(w.t, P.Opens(w, f), f) && HandInv(w) && NoVerdict(w.t.events, P.Next(w, s).t.events)
    ensures var t' := P.Next(w, s).t;
            forall i :: 0 <= i < |t'.events| && IsVerdict(t'.events[i], f) ==> JudgedBy(t', t'.events[i].incident, f)
  {
    var t' := P.Next(w, s).t;
    forall id | JudgedBy(w.t, id, f) ensures JudgedBy(t', id, f) { JudgedStays(w, s, id, f); }
    VerdictsStay(w.t, t', f);
  }

  lemma VerdictsStay(t: Tables, t': Tables, f: Digest)
    requires NoVerdict(t.events, t'.events) && forall id :: JudgedBy(t, id, f) ==> JudgedBy(t', id, f)
    requires forall i :: 0 <= i < |t.events| && IsVerdict(t.events[i], f) ==> JudgedBy(t, t.events[i].incident, f)
    ensures forall i :: 0 <= i < |t'.events| && IsVerdict(t'.events[i], f) ==> JudgedBy(t', t'.events[i].incident, f)
  {
    forall i | 0 <= i < |t'.events| && IsVerdict(t'.events[i], f) ensures JudgedBy(t', t'.events[i].incident, f) {
      assert i < |t.events| && t.events[i] == t'.events[i];
    }
  }

  lemma OpensKept(w: P.World, s: P.Step)
    requires !s.Sight?
    ensures P.Next(w, s).h.opens == w.h.opens
  {
    if s.Receive? || s.Audit? || s.AuditFails? || s.Ack? || s.Resync? { SubscriberApart(w, s); }
  }

  lemma GroupNext(w: P.World, s: P.Step, f: Digest)
    requires Grouped(w, f) && HandInv(w) && (s.Mark? && Hash(s.g) == f ==> Clean(s.g))
    ensures Grouped(P.Next(w, s), f)
  {
    PhaseNext(w, s, f);
    match s
    case Sight(window, now) => GroupSight(w, window, now, f);
    case Move(early, detail, now) => GroupMove(w, early, detail, now, f);
    case _ => GroupOther(w, s, f);
  }

  lemma {:induction false} GroupsHold(steps: seq<P.Step>, f: Digest)
    requires CleanSteps(steps, f)
    ensures var w := P.Run(P.Start(), steps); HandInv(w) && Grouped(w, f)
  {
    if steps == [] {
    } else {
      var w, s := P.Run(P.Start(), steps[..|steps| - 1]), steps[|steps| - 1];
      GroupsHold(steps[..|steps| - 1], f);
      HandNext(w, s);
      GroupNext(w, s, f);
    }
  }

  /** No over-collapse: as long as its groupings hold no NUL in the class and no newline in a frame, the
      incident in hand agrees in project, error class and frames with every incident that
      opened a window of its fingerprint; whatever a fingerprint judged carries that
      fingerprint and belongs to its project. */
  lemma NoOverCollapse(steps: seq<P.Step>, f: Digest)
    requires CleanSteps(steps, f)
    ensures var w := P.Run(P.Start(), steps);
            && (InSight(w.wk.phase, f) ==> P.Opens(w, f) != [])
            && (forall o :: o in P.Opens(w, f) ==>
                  && Fits(w.t, o.id, o.g)
                  && (InSight(w.wk.phase, f) ==> SameFailure(w.wk.phase.g, o.g)))
            && (forall i :: 0 <= i < |w.t.events| && IsVerdict(w.t.events[i], f) ==>
                  JudgedBy(w.t, w.t.events[i].incident, f))
  {
    GroupsHold(steps, f);
    var w := P.Run(P.Start(), steps);
    forall o | o in P.Opens(w, f) && InSight(w.wk.phase, f) ensures SameFailure(w.wk.phase.g, o.g) {
      HashSeparates(w.wk.phase.g, o.g);
    }
  }

  lemma {:induction false} OpensGrow(w: P.World, steps: seq<P.Step>, f: Digest)
    ensures P.Opens(w, f) <= P.Opens(P.Run(w, steps), f)
    ensures f in w.t.fingerprints ==> f in P.Run(w, steps).t.fingerprints
  {
    if steps == [] {
    } else {
      var v, s := P.Run(w, steps[..|steps| - 1]), steps[|steps| - 1];
      OpensGrow(w, steps[..|steps| - 1], f);
      NextAdvances(v, s);
      if !s.Sight? { OpensKept(v, s); }
    }
  }

  /** A fingerprint's project and stored frames never change over a run. */
  lemma StoredEvidenceNeverChanges(steps: seq<P.Step>, more: seq<P.Step>, f: Digest)
    requires CleanSteps(steps + more, f) && f in P.Run(P.Start(), steps).t.fingerprints
    ensures var a, b := P.Run(P.Start(), steps).t, P.Run(P.Start(), steps + more).t;
            && f in b.fingerprints
            && b.fingerprints[f].slug == a.fingerprints[f].slug && b.fingerprints[f].frames == a.fingerprints[f].frames
  {
    assert forall i :: 0 <= i < |steps| ==> (steps + more)[i] == steps[i];
    GroupsHold(steps, f);
    GroupsHold(steps + more, f);
    RunAppend(P.Start(), steps, more);
    OpensGrow(P.Run(P.Start(), steps), more, f);
  }

  // ---- The groupings that incidents get from their own text ----

  /** What the loop may make of an incident: the grouping its text gives under source roots
      that some registry in force allows for its project. */
  ghost predicate OwnGrouping(row: Incident, g: Grouping, p: Patterns, allowed: (string, seq<string>) -> bool) {
    exists roots :: allowed(row.slug, roots) && g == GroupOf(row, roots, p)
  }

  ghost predicate MarksOwn(v: P.World, g: Grouping, p: Patterns, allowed: (string, seq<string>) -> bool) {
    v.wk.phase.Taken? && Has(v.t, v.wk.phase.id) && OwnGrouping(At(v.t, v.wk.phase.id), g, p, allowed)
  }

  /** Every mark along the steps is the incident's own. */
  ghost predicate OwnMarks(w: P.World, steps: seq<P.Step>, p: Patterns, allowed: (string, seq<string>) -> bool) {
    steps == []
    || (OwnMarks(w, steps[..|steps| - 1], p, allowed)
        && (steps[|steps| - 1].Mark? ==> MarksOwn(P.Run(w, steps[..|steps| - 1]), steps[|steps| - 1].g, p, allowed)))
  }

  ghost predicate Carries(row: Incident, f: Digest, p: Patterns, allowed: (string, seq<string>) -> bool) {
    exists g :: OwnGrouping(row, g, p, allowed) && Hash(g) == f
  }

  ghost predicate Owned(w: P.World, f: Digest, p: Patterns, allowed: (string, seq<string>) -> bool) {
    && (forall id :: Has(w.t, id) && At(w.t, id).fingerprint == Some(f) ==> Carries(At(w.t, id), f, p, allowed))
    && (forall o :: o in P.Opens(w, f) ==> OpenerOwned(w.t, o, p, allowed))
    && (Holds(w.wk.phase, f) ==>
          Has(w.t, w.wk.phase.id) && OwnGrouping(At(w.t, w.wk.phase.id), w.wk.phase.g, p, allowed))
  }

  ghost predicate OpenerOwned(t: Tables, o: P.Opened, p: Patterns, allowed: (string, seq<string>) -> bool) {
    Has(t, o.id) && OwnGrouping(At(t, o.id), o.g, p, allowed)
  }

  /** What an incident is grouped by never changes. */
  lemma OwnStays(a: Incident, b: Incident, g: Grouping, p: Patterns, allowed: (string, seq<string>) -> bool)
    requires SameOrigin(a, b)
    ensures OwnGrouping(a, g, p, allowed) <==> OwnGrouping(b, g, p, allowed)
  {
    forall roots ensures GroupOf(a, roots, p) == GroupOf(b, roots, p) {}
  }

  lemma CarriesStays(a: Incident, b: Incident, f: Digest, p: Patterns, allowed: (string, seq<string>) -> bool)
    requires SameOrigin(a, b) && Carries(a, f, p, allowed)
    ensures Carries(b, f, p, allowed)
  {
    var g :| OwnGrouping(a, g, p, allowed) && Hash(g) == f;
    OwnStays(a, b, g, p, allowed);
  }

  /** Whose fingerprint a step sets: that of the incident in hand, to what it is marked with. */
  lemma FingerprintSet(w: P.World, s: P.Step, id: nat)
    requires Has(P.Next(w, s).t, id)
    ensures var row' := At(P.Next(w, s).t, id);
            || (Has(w.t, id) && row'.fingerprint == At(w.t, id).fingerprint)
            || row'.fingerprint == None
            || (s.Mark? && w.wk.phase == P.Taken(id) && Has(w.t, id) && row'.fingerprint == Some(Hash(s.g)))
  {
    TablesFollow(w, s);
    if OpOf(w, s).Some? { FingerprintOp(w.t, OpOf(w, s).value, id); }
  }

  lemma FingerprintOp(t: Tables, op: Op, id: nat)
    requires Has(Apply(t, op), id)
    ensures var row' := At(Apply(t, op), id);
            || (Has(t, id) && row'.fingerprint == At(t, id).fingerprint)
            || row'.fingerprint == None
            || (op.DoMark? && op.incident == id && Has(t, id) && row'.fingerprint == Some(op.digest))
  {}

  lemma OwnedRows(w: P.World, s: P.Step, f: Digest, p: Patterns, allowed: (string, seq<string>) -> bool)
    requires Owned(w, f, p, allowed) && (s.Mark? ==> MarksOwn(w, s.g, p, allowed))
    ensures var t' := P.Next(w, s).t;
            forall id :: Has(t', id) && At(t', id).fingerprint == Some(f) ==> Carries(At(t', id), f, p, allowed)
  {
    var t' := P.Next(w, s).t;
    NextAdvances(w, s);
    forall id | Has(t', id) && At(t', id).fingerprint == Some(f) ensures Carries(At(t', id), f, p, allowed) {
      FingerprintSet(w, s, id);
      assert SameOrigin(w.t.incidents[id - 1], t'.incidents[id - 1]);
      if At(w.t, id).fingerprint == Some(f) {
        CarriesStays(At(w.t, id), At(t', id), f, p, allowed);
      } else {
        OwnStays(At(w.t, id), At(t', id), s.g, p, allowed);
      }
    }
  }

  /** Openings are added only by the sighting of the incident in hand. */
  lemma OpensAdded(w: P.World, s: P.Step, f: Digest)
    ensures forall o :: o in P.Opens(P.Next(w, s), f) ==>
              o in P.Opens(w, f)
              || (s.Sight? && w.wk.phase.Marked? && Hash(w.wk.phase.g) == f
                  && o.id == w.wk.phase.id && o.g == w.wk.phase.g)
  {
    if !s.Sight? { OpensKept(w, s); }
  }

  lemma OwnedOpens(w: P.World, s: P.Step, f: Digest, p: Patterns, allowed: (string, seq<string>) -> bool)
    requires Owned(w, f, p, allowed)
    ensures forall o :: o in P.Opens(P.Next(w, s), f) ==> OpenerOwned(P.Next(w, s).t, o, p, allowed)
  {
    var t' := P.Next(w, s).t;
    NextAdvances(w, s);
    OpensAdded(w, s, f);
    forall o | o in P.Opens(P.Next(w, s), f) ensures OpenerOwned(t', o, p, allowed) {
      assert o in P.Opens(w, f) ==> OpenerOwned(w.t, o, p, allowed);
      assert SameOrigin(w.t.incidents[o.id - 1], t'.incidents[o.id - 1]);
      OwnStays(At(w.t, o.id), At(t', o.id), o.g, p, allowed);
    }
  }

  /** Where the worker's grouping comes from. */
  lemma HandFrom(w: P.World, s: P.Step)
    ensures var ph, ph' := w.wk.phase, P.Next(w, s).wk.phase;
            ph'.Marked? || ph'.Seen? ==>
              || ((ph.Marked? || ph.Seen?) && ph.id == ph'.id && ph.g == ph'.g)
              || (s.Mark? && ph == P.Taken(ph'.id) && s.g == ph'.g)
  {
    if s.Receive? || s.Audit? || s.AuditFails? || s.Ack? || s.Resync? { SubscriberApart(w, s); }
  }

  lemma OwnedHand(w: P.World, s: P.Step, f: Digest, p: Patterns, allowed: (string, seq<string>) -> bool)
    requires Owned(w, f, p, allowed) && (s.Mark? ==> MarksOwn(w, s.g, p, allowed))
    ensures var w' := P.Next(w, s);
            Holds(w'.wk.phase, f) ==>
              Has(w'.t, w'.wk.phase.id) && OwnGrouping(At(w'.t, w'.wk.phase.id), w'.wk.phase.g, p, allowed)
  {
    var w' := P.Next(w, s);
    HandFrom(w, s);
    NextAdvances(w, s);
    if Holds(w'.wk.phase, f) {
      var id := w'.wk.phase.id;
      assert SameOrigin(w.t.incidents[id - 1], w'.t.incidents[id - 1]);
      OwnStays(At(w.t, id), At(w'.t, id), w'.wk.phase.g, p, allowed);
    }
  }

  lemma {:induction false} OwnedRun(steps: seq<P.Step>, f: Digest, p: Patterns, allowed: (string, seq<string>) -> bool)
    requires OwnMarks(P.Start(), steps, p, allowed)
    ensures Owned(P.Run(P.Start(), steps), f, p, allowed)
  {
    if steps == [] {
    } else {
      var w, s := P.Run(P.Start(), steps[..|steps| - 1]), steps[|steps| - 1];
      OwnedRun(steps[..|steps| - 1], f, p, allowed);
      OwnedRows(w, s, f, p, allowed);
      OwnedOpens(w, s, f, p, allowed);
      OwnedHand(w, s, f, p, allowed);
    }
  }

  /** No title or workflow name brings a separator into the fingerprint: what is asked is asked
      of the incidents that carry it. */
  ghost predicate CarriersNulFree(t: Tables, f: Digest, p: Patterns, allowed: (string, seq<string>) -> bool) {
    forall i :: 0 <= i < |t.incidents| && Carries(t.incidents[i], f, p, allowed) ==> NulFree(t.incidents[i], p)
  }

  lemma NulFreeBefore(t: Tables, t': Tables, f: Digest, p: Patterns, allowed: (string, seq<string>) -> bool)
    requires Advances(t, t') && CarriersNulFree(t', f, p, allowed)
    ensures CarriersNulFree(t, f, p, allowed)
  {
    forall i | 0 <= i < |t.incidents| && Carries(t.incidents[i], f, p, allowed) ensures NulFree(t.incidents[i], p) {
      assert SameOrigin(t.incidents[i], t'.incidents[i]);
      CarriesStays(t.incidents[i], t'.incidents[i], f, p, allowed);
      assert NulFree(t'.incidents[i], p);
    }
  }

  lemma MarkIsClean(w: P.World, g: Grouping, f: Digest, p: Patterns, allowed: (string, seq<string>) -> bool)
    requires Regular(p) && MarksOwn(w, g, p, allowed) && CarriersNulFree(w.t, f, p, allowed) && Hash(g) == f
    ensures Clean(g)
  {
    var row := w.t.incidents[w.wk.phase.id - 1];
    assert Carries(row, f, p, allowed) && NulFree(row, p);
    OwnIsClean(row, g, p, allowed);
  }

  lemma {:induction false} OwnMarksClean(steps: seq<P.Step>, f: Digest, p: Patterns,
                                         allowed: (string, seq<string>) -> bool)
    requires Regular(p) && OwnMarks(P.Start(), steps, p, allowed)
    requires CarriersNulFree(P.Run(P.Start(), steps).t, f, p, allowed)
    ensures CleanSteps(steps, f)
  {
    if steps == [] {
    } else {
      var init, s := steps[..|steps| - 1], steps[|steps| - 1];
      var w := P.Run(P.Start(), init);
      NextAdvances(w, s);
      NulFreeBefore(w.t, P.Next(w, s).t, f, p, allowed);
      OwnMarksClean(init, f, p, allowed);
      if s.Mark? && Hash(s.g) == f { MarkIsClean(w, s.g, f, p, allowed); }
      assert forall i :: 0 <= i < |init| ==> init[i] == steps[i];
    }
  }

  ghost predicate Groupings(a: Incident, g: Grouping, b: Incident, h: Grouping, p: Patterns,
                            allowed: (string, seq<string>) -> bool) {
    OwnGrouping(a, g, p, allowed) && OwnGrouping(b, h, p, allowed)
  }

  /** Two incidents whose own texts group them alike. */
  ghost predicate Alike(a: Incident, b: Incident, f: Digest, p: Patterns, allowed: (string, seq<string>) -> bool) {
    exists g, h :: Groupings(a, g, b, h, p, allowed) && Hash(g) == Hash(h) == f && SameFailure(g, h)
  }

  /** No over-collapse, from the texts. In every run whose marks are what the incidents' own
      titles, bodies and steps give, and with no NUL in the title or workflow name of an
      incident that carries the fingerprint: whatever it judged, suppressed or not, agrees by
      its own text in project, error class and frames with every incident that opened a window
      of it. */
  lemma JudgedLikeItsOpeners(steps: seq<P.Step>, f: Digest, i: nat, p: Patterns, allowed: (string, seq<string>) -> bool)
    requires Regular(p) && OwnMarks(P.Start(), steps, p, allowed)
    requires CarriersNulFree(P.Run(P.Start(), steps).t, f, p, allowed)
    requires var rows := P.Run(P.Start(), steps).t.events; i < |rows| && IsVerdict(rows[i], f)
    ensures var w := P.Run(P.Start(), steps);
            && P.Opens(w, f) != [] && Has(w.t, w.t.events[i].incident)
            && forall o :: o in P.Opens(w, f) ==>
                 Has(w.t, o.id) && Alike(At(w.t, w.t.events[i].incident), At(w.t, o.id), f, p, allowed)
  {
    OwnMarksClean(steps, f, p, allowed);
    GroupsHold(steps, f);
    OwnedRun(steps, f, p, allowed);
    AlikeAll(P.Run(P.Start(), steps), f, i, p, allowed);
  }

  lemma AlikeAll(w: P.World, f: Digest, i: nat, p: Patterns, allowed: (string, seq<string>) -> bool)
    requires Regular(p) && CarriersNulFree(w.t, f, p, allowed) && Owned(w, f, p, allowed)
    requires GroupBooks(w.t, P.Opens(w, f), f) && i < |w.t.events| && IsVerdict(w.t.events[i], f)
    ensures P.Opens(w, f) != [] && Has(w.t, w.t.events[i].incident)
    ensures forall o :: o in P.Opens(w, f) ==>
              Has(w.t, o.id) && Alike(At(w.t, w.t.events[i].incident), At(w.t, o.id), f, p, allowed)
  {
    JudgedCarries(w, f, i, p, allowed);
    forall o | o in P.Opens(w, f)
      ensures Has(w.t, o.id) && Alike(At(w.t, w.t.events[i].incident), At(w.t, o.id), f, p, allowed)
    {
      assert OpenerOwned(w.t, o, p, allowed);
      AlikeOpener(w.t, P.Opens(w, f), o, At(w.t, w.t.events[i].incident), f, p, allowed);
    }
  }

  lemma JudgedCarries(w: P.World, f: Digest, i: nat, p: Patterns, allowed: (string, seq<string>) -> bool)
    requires CarriersNulFree(w.t, f, p, allowed) && Owned(w, f, p, allowed)
    requires GroupBooks(w.t, P.Opens(w, f), f) && i < |w.t.events| && IsVerdict(w.t.events[i], f)
    ensures P.Opens(w, f) != [] && Has(w.t, w.t.events[i].incident)
    ensures var row := At(w.t, w.t.events[i].incident); Carries(row, f, p, allowed) && NulFree(row, p)
  {
    JudgedOpened(w.t, P.Opens(w, f), f, i);
    assert At(w.t, w.t.events[i].incident) == w.t.incidents[w.t.events[i].incident - 1];
  }

  lemma JudgedOpened(t: Tables, os: seq<P.Opened>, f: Digest, i: nat)
    requires GroupBooks(t, os, f) && i < |t.events| && IsVerdict(t.events[i], f)
    ensures os != [] && JudgedBy(t, t.events[i].incident, f)
  {}

  lemma AlikeOpener(t: Tables, os: seq<P.Opened>, o: P.Opened, a: Incident, f: Digest, p: Patterns,
                    allowed: (string, seq<string>) -> bool)
    requires Regular(p) && NulFree(a, p) && Carries(a, f, p, allowed)
    requires GroupBooks(t, os, f) && o in os && OpenerOwned(t, o, p, allowed)
    ensures Alike(a, At(t, o.id), f, p, allowed)
  {
    var k :| 0 <= k < |os| && os[k] == o;
    assert Fits(t, os[k].id, os[k].g);
    AlikePair(a, At(t, o.id), o.g, f, p, allowed);
  }

  lemma AlikePair(a: Incident, b: Incident, h: Grouping, f: Digest, p: Patterns, allowed: (string, seq<string>) -> bool)
    requires Regular(p) && NulFree(a, p) && Carries(a, f, p, allowed)
    requires OwnGrouping(b, h, p, allowed) && Clean(h) && Hash(h) == f
    ensures Alike(a, b, f, p, allowed)
  {
    var g :| OwnGrouping(a, g, p, allowed) && Hash(g) == f;
    OwnIsClean(a, g, p, allowed);
    HashSeparates(g, h);
    assert Groupings(a, g, b, h, p, allowed);
  }

  lemma OwnIsClean(row: Incident, g: Grouping, p: Patterns, allowed: (string, seq<string>) -> bool)
    requires Regular(p) && NulFree(row, p) && OwnGrouping(row, g, p, allowed)
    ensures Clean(g)
  {
    var roots :| allowed(row.slug, roots) && g == GroupOf(row, roots, p);
    GroupingsAreClean(row, roots, p);
  }

  /** With one registry throughout: the two texts, grouped by that registry's roots, are the
      same failure. */
  lemma JudgedAlikeUnderOneRegistry(a: Incident, b: Incident, f: Digest, p: Patterns,
                                    allowed: (string, seq<string>) -> bool, rootsOf: string -> seq<string>)
    requires Alike(a, b, f, p, allowed) && forall s, roots :: allowed(s, roots) ==> roots == rootsOf(s)
    ensures SameFailure(GroupOf(a, rootsOf(a.slug), p), GroupOf(b, rootsOf(b.slug), p))
  {}
}
