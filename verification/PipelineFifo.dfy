/** First in, first out: the canonical incident of a fingerprint is its earliest one. */
module PipelineFifo {
  import opened Wrappers
  import opened Store
  import opened StoreRuns
  import opened Fingerprint
  import P = Pipeline
  import opened PipelineIngest
  import opened PipelineStorm
  import opened PipelineGroups

  // ---- The queue when the clock never goes back ----

  predicate IsReceived(t: Tables, id: nat) { Has(t, id) && At(t, id).state == "received" }

  /** The received ids up to k, in id order. */
  function Received(t: Tables, k: nat): (r: seq<nat>)
    requires k <= |t.incidents|
  {
    if k == 0 then [] else Received(t, k - 1) + if IsReceived(t, k) then [k] else []
  }

  lemma {:induction false} ReceivedMembers(t: Tables, k: nat)
    requires k <= |t.incidents|
    ensures forall i: nat :: i in Received(t, k) <==> i <= k && IsReceived(t, i)
  {
    if k == 0 {
    } else {
      ReceivedMembers(t, k - 1);
    }
  }

  function Waiting(t: Tables): seq<nat> { Received(t, |t.incidents|) }

  /** Oldest first is insertion order. */
  lemma {:induction false} QueueIsWaiting(t: Tables, k: nat)
    requires ClockForward(t) && k <= |t.incidents|
    ensures QueueUpTo(t, k) == Received(t, k)
  {
    if k == 0 {
    } else {
      QueueIsWaiting(t, k - 1);
      var r := Received(t, k - 1);
      ReceivedMembers(t, k - 1);
      if r != [] { assert r[|r| - 1] in r; }
    }
  }

  lemma {:induction false} ReceivedAgree(t: Tables, t': Tables, k: nat)
    requires k <= |t.incidents| <= |t'.incidents|
    requires forall i: nat :: i <= k ==> IsReceived(t', i) == IsReceived(t, i)
    ensures Received(t', k) == Received(t, k)
  {
    if k == 0 {
    } else {
      ReceivedAgree(t, t', k - 1);
    }
  }

  lemma ReceivedSame(t: Tables, t': Tables, k: nat)
    requires k <= |t.incidents| && SameStates(t, t')
    ensures Received(t', k) == Received(t, k)
  {
    forall i: nat | i <= k ensures IsReceived(t', i) == IsReceived(t, i) {
      if Has(t, i) { assert t'.incidents[i - 1].state == t.incidents[i - 1].state; }
    }
    ReceivedAgree(t, t', k);
  }

  predicate IsHead(t: Tables, id: nat) { IsReceived(t, id) && Waiting(t) != [] && Waiting(t)[0] == id }

  lemma {:induction false} HeadLeads(t: Tables, k: nat)
    requires k <= |t.incidents|
    ensures forall i :: i in Received(t, k) ==> Received(t, k)[0] <= i
  {
    if k == 0 {
    } else {
      HeadLeads(t, k - 1);
      ReceivedMembers(t, k - 1);
      var r := Received(t, k - 1);
      if r != [] { assert Received(t, k)[0] == r[0] && r[0] in r; }
    }
  }

  lemma {:induction false} NoneBefore(t: Tables, id: nat, k: nat)
    requires k <= |t.incidents| && forall i: nat :: IsReceived(t, i) ==> id <= i
    ensures k < id ==> Received(t, k) == []
    ensures id <= k && IsReceived(t, id) ==> Received(t, k) != [] && Received(t, k)[0] == id
  {
    if k == 0 {
    } else {
      NoneBefore(t, id, k - 1);
    }
  }

  /** Moving the head on removes it and nothing else. */
  lemma {:induction false} HeadLeaves(t: Tables, t': Tables, id: nat, k: nat)
    requires id <= k <= |t.incidents| == |t'.incidents| && IsReceived(t, id) && !IsReceived(t', id)
    requires forall i: nat :: IsReceived(t, i) ==> id <= i
    requires forall i: nat :: Has(t, i) && i != id ==> IsReceived(t', i) == IsReceived(t, i)
    ensures Received(t, k) == [id] + Received(t', k)
  {
    if k > id {
      HeadLeaves(t, t', id, k - 1);
      assert IsReceived(t', k) == IsReceived(t, k);
    } else {
      NoneBefore(t, id, k - 1);
      NoneBefore(t', id, k - 1);
    }
  }

  // ---- The tables ----

  ghost predicate InTurn(t: Tables) {
    && (forall i, j ::
          0 <= i < j < |t.events| && t.events[i].kind == STATE_CHANGE && t.events[j].kind == STATE_CHANGE ==>
          t.events[i].incident < t.events[j].incident)
    && (forall i, id :: 0 <= i < |t.events| && t.events[i].kind == STATE_CHANGE && IsReceived(t, id) ==>
          t.events[i].incident < id)
  }

  /** No group starts after a waiting incident, and none of its members came before it. */
  ghost predicate Canonical(t: Tables) {
    && (forall f, id :: f in t.fingerprints && IsReceived(t, id) ==> t.fingerprints[f].first <= id)
    && (forall id :: Has(t, id) ==> CarrierInTurn(t, id))
  }

  ghost predicate CarrierInTurn(t: Tables, id: nat)
    requires Has(t, id)
  {
    match At(t, id).fingerprint
    case None => true
    case Some(f) =>
      if At(t, id).state == "received" then IsHead(t, id)
      else f in t.fingerprints && t.fingerprints[f].first <= id
  }

  ghost predicate FifoTables(t: Tables) {
    ReferencesHold(t) && ClockForward(t) && InTurn(t) && Canonical(t)
  }

  lemma WaitingGrows(t: Tables, t': Tables)
    requires |t'.incidents| <= |t.incidents| + 1 && SameStates(t, t')
    ensures Waiting(t) <= Waiting(t')
    ensures forall i :: IsHead(t, i) ==> IsHead(t', i)
  {
    ReceivedSame(t, t', |t.incidents|);
  }

  lemma ClockStep(t: Tables, t': Tables)
    requires ClockForward(t) && RowsKept(t.incidents, t'.incidents) && |t'.incidents| <= |t.incidents| + 1
    requires |t.incidents| > 0 && |t'.incidents| > |t.incidents| ==>
               t'.incidents[|t.incidents|].createdAt >= t.incidents[|t.incidents| - 1].createdAt
    ensures ClockForward(t')
  {
    forall a: nat, b: nat | Has(t', a) && Has(t', b) && a < b ensures At(t', a).createdAt <= At(t', b).createdAt {
      assert SameOrigin(t.incidents[a - 1], t'.incidents[a - 1]);
      if Has(t, b) {
        assert SameOrigin(t.incidents[b - 1], t'.incidents[b - 1]);
        assert At(t, a).createdAt <= At(t, b).createdAt;
      } else {
        assert Has(t, |t.incidents|);
        assert a < |t.incidents| ==> At(t, a).createdAt <= At(t, |t.incidents|).createdAt;
      }
    }
  }

  /** Nothing that waits is older than it was. */
  ghost predicate WaitLater(t: Tables, t': Tables) {
    forall id: nat :: IsReceived(t', id) ==> IsReceived(t, id) || id > |t.incidents|
  }

  lemma TurnStep(t: Tables, t': Tables)
    requires ReferencesHold(t) && InTurn(t) && WaitLater(t, t')
    requires NoVerdict(t.events, t'.events)
    ensures InTurn(t')
  {
    assert t'.events != t.events ==> t'.events[..|t'.events| - 1] == t.events;
    forall i, id | 0 <= i < |t'.events| && t'.events[i].kind == STATE_CHANGE && IsReceived(t', id)
      ensures t'.events[i].incident < id
    {
      assert t'.events[i] == t.events[i];
      assert Has(t, t.events[i].incident);
    }
  }

  /** Rows keep their state and fingerprint, new rows have none, and no group is new. */
  lemma CanonicalStep(t: Tables, t': Tables)
    requires ReferencesHold(t) && Canonical(t) && SameStates(t, t') && |t'.incidents| <= |t.incidents| + 1
    requires t'.fingerprints == t.fingerprints
    requires forall i :: 0 <= i < |t'.incidents| ==>
               t'.incidents[i].fingerprint == if i < |t.incidents| then t.incidents[i].fingerprint else None
    ensures Canonical(t')
  {
    WaitingGrows(t, t');
    forall id | Has(t', id) ensures CarrierInTurn(t', id) {
      if Has(t, id) {
        assert CarrierInTurn(t, id);
        assert t'.incidents[id - 1].state == t.incidents[id - 1].state;
      }
    }
    forall f, id | f in t'.fingerprints && IsReceived(t', id) ensures t'.fingerprints[f].first <= id {
      if Has(t, id) { assert t'.incidents[id - 1].state == t.incidents[id - 1].state; }
      assert Has(t, t.fingerprints[f].first);
      assert IsReceived(t, id) ==> t.fingerprints[f].first <= id;
    }
  }

  lemma SameStatesWaitLater(t: Tables, t': Tables)
    requires SameStates(t, t')
    ensures WaitLater(t, t')
  {
    forall id: nat | IsReceived(t', id) && id <= |t.incidents| ensures IsReceived(t, id) {
      assert t'.incidents[id - 1].state == t.incidents[id - 1].state;
    }
  }

  predicate Inserts(t: Tables, op: Op) {
    op.DoIngest? && |Apply(t, op).incidents| > |t.incidents|
  }

  /** Everything but the worker's own steps. */
  predicate Apart(op: Op) { op.DoIngest? || op.DoDuplicate? || op.DoSync? }

  lemma ApartRows(t: Tables, op: Op)
    requires Apart(op)
    ensures var t' := Apply(t, op);
            && |t'.incidents| <= |t.incidents| + 1
            && (forall i :: 0 <= i < |t'.incidents| ==>
                  t'.incidents[i].fingerprint == if i < |t.incidents| then t.incidents[i].fingerprint else None)
            && (|t.incidents| > 0 && |t'.incidents| > |t.incidents| && !P.ClockWentBack(t, op.now) ==>
                  t'.incidents[|t.incidents|].createdAt >= t.incidents[|t.incidents| - 1].createdAt)
            && (|t'.incidents| > |t.incidents| ==> Inserts(t, op))
  {}

  lemma FifoOther(t: Tables, op: Op)
    requires FifoTables(t) && Apart(op)
    requires Inserts(t, op) ==> !P.ClockWentBack(t, op.now)
    ensures FifoTables(Apply(t, op)) && Waiting(t) <= Waiting(Apply(t, op))
  {
    ReferencesStep(t, op);
    ApplyAdvances(t, op);
    OthersKeepStates(t, op);
    OpNoVerdict(t, op);
    ApartRows(t, op);
    FifoGrows(t, Apply(t, op));
  }

  lemma FifoGrows(t: Tables, t': Tables)
    requires FifoTables(t) && ReferencesHold(t') && RowsKept(t.incidents, t'.incidents) && SameStates(t, t')
    requires |t'.incidents| <= |t.incidents| + 1 && NoVerdict(t.events, t'.events) && t'.fingerprints == t.fingerprints
    requires |t.incidents| > 0 && |t'.incidents| > |t.incidents| ==>
               t'.incidents[|t.incidents|].createdAt >= t.incidents[|t.incidents| - 1].createdAt
    requires forall i :: 0 <= i < |t'.incidents| ==>
               t'.incidents[i].fingerprint == if i < |t.incidents| then t.incidents[i].fingerprint else None
    ensures FifoTables(t') && Waiting(t) <= Waiting(t')
  {
    SameStatesWaitLater(t, t');
    ClockStep(t, t');
    TurnStep(t, t');
    CanonicalStep(t, t');
    WaitingGrows(t, t');
  }

  lemma FifoMark(t: Tables, id: nat, d: Digest)
    requires FifoTables(t) && IsHead(t, id)
    ensures FifoTables(MarkFingerprint(t, id, d)) && Waiting(MarkFingerprint(t, id, d)) == Waiting(t)
  {
    ReferencesStep(t, DoMark(id, d));
    ApplyAdvances(t, DoMark(id, d));
    OthersKeepStates(t, DoMark(id, d));
    HeadMarked(t, MarkFingerprint(t, id, d), id);
  }

  /** Only the head's fingerprint changes. */
  lemma HeadMarked(t: Tables, t': Tables, id: nat)
    requires FifoTables(t) && IsHead(t, id) && ReferencesHold(t')
    requires RowsKept(t.incidents, t'.incidents) && |t'.incidents| == |t.incidents| && SameStates(t, t')
    requires t'.events == t.events && t'.fingerprints == t.fingerprints
    requires forall i :: Has(t, i) && i != id ==> At(t', i).fingerprint == At(t, i).fingerprint
    ensures FifoTables(t') && Waiting(t') == Waiting(t)
  {
    SameStatesWaitLater(t, t');
    ReceivedSame(t, t', |t.incidents|);
    ClockStep(t, t');
    TurnStep(t, t');
    forall i | Has(t', i) ensures CarrierInTurn(t', i) {
      assert CarrierInTurn(t, i);
      assert t'.incidents[i - 1].state == t.incidents[i - 1].state;
    }
  }

  lemma FifoObserve(t: Tables, o: Observation, now: Time)
    requires FifoTables(t) && IsHead(t, o.incident)
    requires At(t, o.incident).fingerprint == Some(o.digest)
    ensures FifoTables(Observe(t, o, now).0) && Waiting(Observe(t, o, now).0) == Waiting(t)
  {
    ReferencesStep(t, DoObserve(o, now));
    CanonicalObserve(t, o, now);
    SameRows(t, Observe(t, o, now).0);
  }

  lemma SameRows(t: Tables, t': Tables)
    requires FifoTables(t) && t'.incidents == t.incidents && t'.events == t.events
    requires ReferencesHold(t') && Canonical(t')
    ensures FifoTables(t') && Waiting(t') == Waiting(t)
  {
    ReceivedSame(t, t', |t.incidents|);
    assert forall id :: Has(t', id) ==> At(t', id) == At(t, id);
    assert forall id :: IsReceived(t', id) ==> IsReceived(t, id);
  }

  lemma CanonicalObserve(t: Tables, o: Observation, now: Time)
    requires Canonical(t) && IsHead(t, o.incident)
    ensures Canonical(Observe(t, o, now).0)
  {
    var t' := Observe(t, o, now).0;
    ReceivedSame(t, t', |t.incidents|);
    HeadLeads(t, |t.incidents|);
    ReceivedMembers(t, |t.incidents|);
    forall i | Has(t', i) ensures CarrierInTurn(t', i) { assert CarrierInTurn(t, i); }
    forall f, id | f in t'.fingerprints && IsReceived(t', id) ensures t'.fingerprints[f].first <= id {
      assert IsReceived(t, id) && id in Waiting(t);
    }
  }

  lemma FifoTransition(t: Tables, p: TransitionParams, now: Time)
    requires FifoTables(t) && IsHead(t, p.incident) && p.from == "received" != p.to
    requires At(t, p.incident).fingerprint.Some? && At(t, p.incident).fingerprint.value in t.fingerprints
    ensures FifoTables(Transition(t, p, now).0) && Waiting(Transition(t, p, now).0) == Waiting(t)[1..]
  {
    var t' := Transition(t, p, now).0;
    var id := p.incident;
    ReferencesStep(t, DoTransition(p, now));
    ApplyAdvances(t, DoTransition(p, now));
    ClockStep(t, t');
    TransitionWaiting(t, p, now);
    TransitionTurn(t, p, now);
    forall i | Has(t', i) ensures CarrierInTurn(t', i) { TransitionCarrier(t, p, now, i); }
  }

  lemma TransitionWaiting(t: Tables, p: TransitionParams, now: Time)
    requires IsHead(t, p.incident) && p.from == "received" != p.to
    ensures var t' := Transition(t, p, now).0;
            && Waiting(t') == Waiting(t)[1..]
            && forall i :: IsReceived(t', i) ==> IsReceived(t, i) && p.incident < i
  {
    var t' := Transition(t, p, now).0;
    HeadLeads(t, |t.incidents|);
    ReceivedMembers(t, |t.incidents|);
    assert forall i: nat :: IsReceived(t, i) ==> i in Waiting(t);
    HeadLeaves(t, t', p.incident, |t.incidents|);
    forall i | IsReceived(t', i) ensures IsReceived(t, i) && p.incident < i {
      assert i != p.incident;
      assert i in Waiting(t);
    }
  }

  lemma TransitionTurn(t: Tables, p: TransitionParams, now: Time)
    requires ReferencesHold(t) && InTurn(t) && IsHead(t, p.incident) && p.from == "received" != p.to
    ensures InTurn(Transition(t, p, now).0)
  {
    var t' := Transition(t, p, now).0;
    TransitionWaiting(t, p, now);
    assert t'.events[..|t.events|] == t.events;
    assert t'.events[|t.events|].incident == p.incident && IsReceived(t, p.incident);
  }

  lemma TransitionCarrier(t: Tables, p: TransitionParams, now: Time, i: nat)
    requires FifoTables(t) && IsHead(t, p.incident) && p.from == "received" != p.to && Has(t, i)
    requires At(t, p.incident).fingerprint.Some? && At(t, p.incident).fingerprint.value in t.fingerprints
    ensures CarrierInTurn(Transition(t, p, now).0, i)
  {
    assert CarrierInTurn(t, i);
    if i == p.incident { assert IsReceived(t, i); }
  }

  // ---- The runs ----

  ghost predicate Fifo(w: P.World) {
    HandInv(w) && PhaseMarked(w) && FifoTables(w.t) && InHand(w) <= Waiting(w.t)
  }

  predicate InOrderSoFar(w: P.World) { !w.h.skipped && !w.h.clockBack }

  lemma HandIsHead(w: P.World)
    requires Fifo(w) && Current(w.wk.phase) != []
    ensures IsHead(w.t, w.wk.phase.id)
  {
    assert InHand(w)[0] == w.wk.phase.id && InHand(w)[0] == Waiting(w.t)[0];
    ReceivedMembers(w.t, |w.t.incidents|);
    assert w.wk.phase.id in Waiting(w.t);
  }

  /** The flag says when an insertion was older than the row before it. */
  lemma ClockFlag(w: P.World, s: P.Step)
    requires !P.Next(w, s).h.clockBack
    ensures !w.h.clockBack
    ensures OpOf(w, s).Some? && Inserts(w.t, OpOf(w, s).value) ==> !P.ClockWentBack(w.t, OpOf(w, s).value.now)
  {}

  lemma SkipFlag(w: P.World, s: P.Step)
    requires !P.Next(w, s).h.skipped
    ensures !w.h.skipped && (s.Abandon? ==> Current(w.wk.phase) == [])
  {}

  lemma FifoWorker(w: P.World, s: P.Step)
    requires Fifo(w) && (s.Mark? || s.Sight? || s.Move?) && OpOf(w, s).Some?
    ensures FifoTables(P.Next(w, s).t)
    ensures Waiting(P.Next(w, s).t) == if s.Move? then Waiting(w.t)[1..] else Waiting(w.t)
  {
    TablesFollow(w, s);
    HandIsHead(w);
    match s
    case Move(_, _, now) => FifoTransition(w.t, OpOf(w, s).value.t, now);
    case Sight(_, now) => FifoObserve(w.t, OpOf(w, s).value.o, now);
    case Mark(g) => FifoMark(w.t, w.wk.phase.id, Hash(g));
  }

  lemma FifoApart(w: P.World, s: P.Step)
    requires Fifo(w) && !s.Mark? && !s.Sight? && !s.Move?
    requires OpOf(w, s).Some? && Inserts(w.t, OpOf(w, s).value) ==> !P.ClockWentBack(w.t, OpOf(w, s).value.now)
    ensures FifoTables(P.Next(w, s).t) && Waiting(w.t) <= Waiting(P.Next(w, s).t)
  {
    TablesFollow(w, s);
    if OpOf(w, s).Some? { FifoOther(w.t, OpOf(w, s).value); }
  }

  /** What the worker holds stays a prefix of what waits. */
  lemma HandListed(w: P.World, limit: nat)
    requires ClockForward(w.t) && InHand(w) <= Waiting(w.t)
    ensures InHand(P.DoList(w, limit)) <= Waiting(w.t)
  {
    QueueIsWaiting(w.t, |w.t.incidents|);
  }

  lemma HandMoved(w: P.World, s: P.Step)
    requires HandInv(w) && s.Move? && InHand(w) <= Waiting(w.t)
    requires var q, q' := Waiting(w.t), Waiting(P.Next(w, s).t);
             if w.wk.phase.Seen? then q != [] && q' == q[1..] else q <= q'
    ensures InHand(P.Next(w, s)) <= Waiting(P.Next(w, s).t)
  {
    HandMove(w, s.early, s.detail, s.now);
    if w.wk.phase.Seen? { assert InHand(P.Next(w, s)) == InHand(w)[1..]; }
  }

  lemma HandKept(w: P.World, s: P.Step)
    requires !s.List? && !s.Move? && (s.Abandon? ==> Current(w.wk.phase) == [])
    requires InHand(w) <= Waiting(w.t) <= Waiting(P.Next(w, s).t)
    ensures InHand(P.Next(w, s)) <= Waiting(P.Next(w, s).t)
  {
    HandAfter(w, s);
    DroppedAll(w, s);
    PrefixAfter(InHand(w), Waiting(w.t), Waiting(P.Next(w, s).t), Dropped(w, s));
  }

  lemma PrefixAfter(h: seq<nat>, q: seq<nat>, q': seq<nat>, k: nat)
    requires h <= q <= q' && (k == 0 || k == |h|)
    ensures h[k..] <= q'
  {}

  lemma DroppedAll(w: P.World, s: P.Step)
    requires s.Abandon? ==> Current(w.wk.phase) == []
    ensures Dropped(w, s) == 0 || Dropped(w, s) == |InHand(w)|
  {}

  lemma FifoNext(w: P.World, s: P.Step)
    requires Fifo(w) && InOrderSoFar(P.Next(w, s))
    ensures Fifo(P.Next(w, s))
  {
    ClockFlag(w, s);
    SkipFlag(w, s);
    HandNext(w, s);
    MarkedNext(w, s);
    TablesFollow(w, s);
    if s.Mark? || s.Sight? || s.Move? {
      if OpOf(w, s).Some? { FifoWorker(w, s); }
      if s.Move? { HandMoved(w, s); } else { HandKept(w, s); }
    } else {
      FifoApart(w, s);
      if s.List? { HandListed(w, s.limit); } else { HandKept(w, s); }
    }
  }

  lemma {:induction false} FifoRun(steps: seq<P.Step>)
    requires InOrderSoFar(P.Run(P.Start(), steps))
    ensures Fifo(P.Run(P.Start(), steps))
  {
    if steps == [] {
    } else {
      var w, s := P.Run(P.Start(), steps[..|steps| - 1]), steps[|steps| - 1];
      ClockFlag(w, s);
      SkipFlag(w, s);
      FifoRun(steps[..|steps| - 1]);
      FifoNext(w, s);
    }
  }

  /** First in, first out, through batches, arrivals, crashes and restarts: as long as the
      clock never goes back and no incident is given up, incidents leave the queue in id
      order, the worker holds the head of the queue, and the first incident of a fingerprint
      has the smallest id of all that carry it. */
  lemma FirstInFirstOut(steps: seq<P.Step>)
    requires InOrderSoFar(P.Run(P.Start(), steps))
    ensures var w := P.Run(P.Start(), steps);
            && InTurn(w.t) && InHand(w) <= Queue(w.t) && Increasing(Queue(w.t))
            && forall f, id | f in w.t.fingerprints && Has(w.t, id) && At(w.t, id).fingerprint == Some(f) ::
                 w.t.fingerprints[f].first <= id
  {
    FifoRun(steps);
    var w := P.Run(P.Start(), steps);
    QueueIsWaiting(w.t, |w.t.incidents|);
    QueueIncreasing(w.t);
    forall f, id | f in w.t.fingerprints && Has(w.t, id) && At(w.t, id).fingerprint == Some(f)
      ensures w.t.fingerprints[f].first <= id
    {
      assert CarrierInTurn(w.t, id);
    }
  }
}
