/** Storm collapse: how many incidents of one fingerprint reach triage, in every run. */
module PipelineStorm {
  import opened Wrappers
  import opened Store
  import opened StoreRuns
  import opened Fingerprint
  import Windows
  import P = Pipeline
  import PipelineIngest

  // ---- What the audit trail says about a fingerprint ----

  predicate IsVerdict(r: EventRow, f: Digest) {
    r.kind == STATE_CHANGE && r.payload.Triage? && r.payload.fingerprint == f
  }

  /** Verdict rows of a fingerprint that moved an incident to a state. */
  function Verdicts(rows: seq<EventRow>, f: Digest, to: string): nat {
    if rows == [] then 0
    else
      var r := rows[|rows| - 1];
      Verdicts(rows[..|rows| - 1], f, to) + if IsVerdict(r, f) && r.to == to then 1 else 0
  }

  function AllVerdicts(rows: seq<EventRow>, f: Digest): nat {
    Verdicts(rows, f, "triaging") + Verdicts(rows, f, "suppressed") + Verdicts(rows, f, "filtered")
  }

  // ---- The worker handles received incidents, each once ----

  function Current(ph: P.Phase): seq<nat> {
    match ph
    case Taken(id) => [id]
    case Marked(id, _) => [id]
    case Seen(id, _, _) => [id]
    case _ => []
  }

  function InHand(w: P.World): seq<nat> { Current(w.wk.phase) + w.wk.batch }

  function Elements(ids: seq<nat>): set<nat> { set i | i in ids }

  /** No id occurs twice. */
  predicate Distinct(ids: seq<nat>) { |Elements(ids)| == |ids| }

  ghost predicate HandInv(w: P.World) {
    Distinct(InHand(w)) && forall i :: i in InHand(w) ==> Has(w.t, i) && At(w.t, i).state == "received"
  }

  ghost predicate Pairwise(ids: seq<nat>) {
    forall i, j :: 0 <= i < j < |ids| ==> ids[i] != ids[j]
  }

  lemma {:induction false} DistinctPairs(ids: seq<nat>)
    ensures |Elements(ids)| <= |ids| && (Distinct(ids) <==> Pairwise(ids))
  {
    if ids == [] {
    } else {
      var init, last := ids[..|ids| - 1], ids[|ids| - 1];
      DistinctPairs(init);
      assert Elements(ids) == Elements(init) + {last};
      if last in init {
        var k :| 0 <= k < |init| && init[k] == last;
        assert ids[k] == ids[|ids| - 1];
      }
    }
  }

  lemma DistinctDrop(ids: seq<nat>, k: nat)
    requires Distinct(ids) && k <= |ids|
    ensures Distinct(ids[k..])
    ensures k == 1 ==> ids[0] !in ids[1..]
  {
    DistinctPairs(ids);
    DistinctPairs(ids[k..]);
    assert forall i :: 0 <= i < |ids[k..]| ==> ids[k..][i] == ids[i + k];
  }

  lemma OrderedDistinct(t: Tables, ids: seq<nat>)
    requires InOrder(t, ids)
    ensures Distinct(ids)
  {
    DistinctPairs(ids);
    forall i, j | 0 <= i < j < |ids| ensures ids[i] != ids[j] { assert Older(t, ids[i], ids[j]); }
  }

  ghost predicate SameStates(t: Tables, t': Tables) {
    && |t.incidents| <= |t'.incidents|
    && forall i :: 0 <= i < |t.incidents| ==> t'.incidents[i].state == t.incidents[i].state
  }

  lemma HandShrinks(w: P.World, w': P.World, k: nat)
    requires HandInv(w) && k <= |InHand(w)| && InHand(w') == InHand(w)[k..] && SameStates(w.t, w'.t)
    ensures HandInv(w')
  {
    DistinctDrop(InHand(w), k);
    forall i | i in InHand(w') ensures Has(w'.t, i) && At(w'.t, i).state == "received" {
      assert i in InHand(w);
      assert w'.t.incidents[i - 1].state == w.t.incidents[i - 1].state;
    }
  }

  lemma HandList(w: P.World, limit: nat)
    requires HandInv(w)
    ensures HandInv(P.DoList(w, limit))
  {
    if w.wk.phase.Idle? && w.wk.batch == [] {
      var q := Queue(w.t);
      var hand := InHand(P.DoList(w, limit));
      QueueInOrder(w.t, |w.t.incidents|);
      assert forall i :: 0 <= i < |hand| ==> hand[i] == q[i] && hand[i] in q;
      OrderedDistinct(w.t, hand);
    }
  }

  /** With one worker no transition is stale: the current incident is still received. */
  lemma HandMove(w: P.World, early: Option<string>, detail: string, now: Time)
    requires HandInv(w)
    ensures HandInv(P.DoMove(w, early, detail, now))
    ensures w.wk.phase.Seen? ==> P.DoMove(w, early, detail, now).wk.phase.Moved?
  {
    if w.wk.phase.Seen? {
      var w' := P.DoMove(w, early, detail, now);
      var hand := InHand(w);
      assert hand[0] == w.wk.phase.id && w.wk.phase.id in hand;
      DistinctDrop(hand, 1);
      TailHolds(w.t, w'.t, hand);
      assert InHand(w') == hand[1..];
    }
  }

  /** Moving the first of a hand leaves the others received. */
  lemma TailHolds(t: Tables, t': Tables, hand: seq<nat>)
    requires hand != [] && hand[0] !in hand[1..] && |t'.incidents| == |t.incidents|
    requires forall i :: i in hand ==> Has(t, i) && At(t, i).state == "received"
    requires forall i :: Has(t, i) && i != hand[0] ==> At(t', i).state == At(t, i).state
    ensures forall i :: i in hand[1..] ==> Has(t', i) && At(t', i).state == "received"
  {
    assert forall i :: i in hand[1..] ==> i in hand && i != hand[0];
  }

  lemma OthersKeepStates(t: Tables, op: Op)
    requires !op.DoTransition?
    ensures SameStates(t, Apply(t, op))
  {}

  /** Only a move changes the state of a row that is there. */
  lemma StatesKept(w: P.World, s: P.Step)
    requires !s.Move?
    ensures SameStates(w.t, P.Next(w, s).t)
  {
    PipelineIngest.TablesFollow(w, s);
    if PipelineIngest.OpOf(w, s).Some? { OthersKeepStates(w.t, PipelineIngest.OpOf(w, s).value); }
  }

  /** How much of the hand a step that is no listing and no move lets go of. */
  function Dropped(w: P.World, s: P.Step): nat {
    match s
    case Abandon => |Current(w.wk.phase)|
    case Cancel => if w.wk.phase.Idle? then |InHand(w)| else 0
    case Crash => |InHand(w)|
    case _ => 0
  }

  lemma HandAfter(w: P.World, s: P.Step)
    requires !s.List? && !s.Move?
    ensures Dropped(w, s) <= |InHand(w)| && InHand(P.Next(w, s)) == InHand(w)[Dropped(w, s)..]
  {
    if s.Receive? || s.Audit? || s.AuditFails? || s.Ack? || s.Resync? { SubscriberApart(w, s); }
    if s.Take? && w.wk.phase.Idle? && w.wk.batch != [] {
      assert w.wk.batch == [w.wk.batch[0]] + w.wk.batch[1..];
    }
  }

  lemma HandNext(w: P.World, s: P.Step)
    requires HandInv(w)
    ensures HandInv(P.Next(w, s))
  {
    match s
    case List(limit) => HandList(w, limit);
    case Move(early, detail, now) => HandMove(w, early, detail, now);
    case _ =>
      StatesKept(w, s);
      HandAfter(w, s);
      HandShrinks(w, P.Next(w, s), Dropped(w, s));
  }

  // ---- The books of one fingerprint ----

  /** Whether the worker holds a sighting of the fingerprint, and whether it opened a window. */
  predicate InSight(ph: P.Phase, f: Digest) { ph.Seen? && Hash(ph.g) == f }

  predicate Opener(ph: P.Phase, f: Digest) { InSight(ph, f) && !ph.out.suppressed }

  function One(b: bool): nat { if b then 1 else 0 }

  function Total(t: Tables, f: Digest): nat {
    if f in t.fingerprints then t.fingerprints[f].total else 0
  }

  /** The incidents of the fingerprint that reached triage, in order. */
  function Triaged(rows: seq<EventRow>, f: Digest): seq<nat> {
    if rows == [] then []
    else
      var r := rows[|rows| - 1];
      Triaged(rows[..|rows| - 1], f) + if IsVerdict(r, f) && r.to == "triaging" then [r.incident] else []
  }

  function Openers(os: seq<P.Opened>): seq<nat> { seq(|os|, i requires 0 <= i < |os| => os[i].id) }

  function OpeningsOf(os: seq<P.Opened>): seq<Windows.Opening> {
    seq(|os|, i requires 0 <= i < |os| => os[i].opening)
  }

  ghost predicate WindowBooks(t: Tables, os: seq<P.Opened>, f: Digest) {
    && (f in t.fingerprints <==> os != [])
    && (os != [] ==>
          && t.fingerprints[f].first == os[0].id
          && t.fingerprints[f].until == Sec(os[|os| - 1].opening.at + os[|os| - 1].opening.window))
    && Windows.Spaced(OpeningsOf(os))
  }

  ghost predicate VerdictBooks(rows: seq<EventRow>, os: seq<P.Opened>, total: nat, ph: P.Phase, lost: nat,
                               spoiled: nat, f: Digest) {
    && total == AllVerdicts(rows, f) + One(InSight(ph, f)) + lost
    && |os| == Verdicts(rows, f, "triaging") + One(Opener(ph, f)) + spoiled
    && spoiled <= lost + Verdicts(rows, f, "filtered")
    && (spoiled == 0 ==> Openers(os) == Triaged(rows, f) + if Opener(ph, f) then [ph.id] else [])
  }

  ghost predicate Books(w: P.World, f: Digest) {
    && WindowBooks(w.t, P.Opens(w, f), f)
    && VerdictBooks(w.t.events, P.Opens(w, f), Total(w.t, f), w.wk.phase, w.h.lost[f], w.h.spoiled[f], f)
  }

  lemma RowSnoc(rows: seq<EventRow>, r: EventRow, f: Digest)
    ensures Verdicts(rows + [r], f, "triaging") ==
            Verdicts(rows, f, "triaging") + One(IsVerdict(r, f) && r.to == "triaging")
    ensures Verdicts(rows + [r], f, "suppressed") ==
            Verdicts(rows, f, "suppressed") + One(IsVerdict(r, f) && r.to == "suppressed")
    ensures Verdicts(rows + [r], f, "filtered") ==
            Verdicts(rows, f, "filtered") + One(IsVerdict(r, f) && r.to == "filtered")
    ensures Triaged(rows + [r], f) ==
            Triaged(rows, f) + (if IsVerdict(r, f) && r.to == "triaging" then [r.incident] else [])
  {
    assert (rows + [r])[..|rows|] == rows;
  }

  /** What a sighting of the fingerprint does to the tables and the history. */
  ghost predicate Sighted(w: P.World, w': P.World, o: P.Opened, f: Digest) {
    var known := f in w.t.fingerprints;
    && w'.t.events == w.t.events && w'.h.lost == w.h.lost && w'.h.spoiled == w.h.spoiled
    && !InSight(w.wk.phase, f) && InSight(w'.wk.phase, f) && w'.wk.phase.id == o.id && f in w'.t.fingerprints
    && Total(w'.t, f) == Total(w.t, f) + 1
    && w'.t.fingerprints[f].first == (if known then w.t.fingerprints[f].first else o.id)
    && if w'.wk.phase.out.suppressed then
         known && w'.t.fingerprints[f].until == w.t.fingerprints[f].until && P.Opens(w', f) == P.Opens(w, f)
       else
         && (known ==> o.opening.at >= w.t.fingerprints[f].until * SECOND)
         && w'.t.fingerprints[f].until == Sec(o.opening.at + o.opening.window)
         && P.Opens(w', f) == P.Opens(w, f) + [o]
  }

  lemma SightEffect(w: P.World, window: Time, now: Time, f: Digest)
    requires w.wk.phase.Marked? && Hash(w.wk.phase.g) == f && P.DoSight(w, window, now).wk.phase.Seen?
    ensures Sighted(w, P.DoSight(w, window, now),
                    P.Opened(w.wk.phase.id, w.wk.phase.g, Windows.Opening(now, window)), f)
  {}

  lemma SpacedSnoc(os: seq<P.Opened>, o: P.Opened)
    requires Windows.Spaced(OpeningsOf(os))
    requires os != [] ==>
               o.opening.at >= Sec(os[|os| - 1].opening.at + os[|os| - 1].opening.window) * SECOND
    ensures Windows.Spaced(OpeningsOf(os + [o])) && Openers(os + [o]) == Openers(os) + [o.id]
  {
    var xs := OpeningsOf(os + [o]);
    assert forall i :: 0 <= i < |os| ==> xs[i] == OpeningsOf(os)[i] == os[i].opening;
    assert xs[|os|] == o.opening;
  }

  lemma BooksSighted(w: P.World, w': P.World, o: P.Opened, f: Digest)
    requires Books(w, f) && Sighted(w, w', o, f)
    ensures Books(w', f)
  {
    if !w'.wk.phase.out.suppressed { SpacedSnoc(P.Opens(w, f), o); }
  }

  /** A sighting either falls in the last window or opens one that is due. */
  lemma BooksSight(w: P.World, window: Time, now: Time, f: Digest)
    requires Books(w, f)
    ensures Books(P.DoSight(w, window, now), f)
  {
    var w' := P.DoSight(w, window, now);
    if w.wk.phase.Marked? && w'.wk.phase.Seen? && Hash(w.wk.phase.g) == f {
      SightEffect(w, window, now, f);
      BooksSighted(w, w', P.Opened(w.wk.phase.id, w.wk.phase.g, Windows.Opening(now, window)), f);
    } else {
      OtherSight(w, window, now, f);
    }
  }

  /** The sighting of another fingerprint, or one that fails. */
  lemma OtherSight(w: P.World, window: Time, now: Time, f: Digest)
    requires Books(w, f)
    requires !(w.wk.phase.Marked? && Hash(w.wk.phase.g) == f && P.DoSight(w, window, now).wk.phase.Seen?)
    ensures Books(P.DoSight(w, window, now), f)
  {
    SightApart(w, window, now, f);
    assert P.DoSight(w, window, now).t.events == w.t.events;
  }

  lemma SightApart(w: P.World, window: Time, now: Time, f: Digest)
    requires !(w.wk.phase.Marked? && Hash(w.wk.phase.g) == f && P.DoSight(w, window, now).wk.phase.Seen?)
    ensures var w' := P.DoSight(w, window, now);
            && P.Opens(w', f) == P.Opens(w, f) && Total(w'.t, f) == Total(w.t, f)
            && (f in w'.t.fingerprints <==> f in w.t.fingerprints)
            && (f in w.t.fingerprints ==> w'.t.fingerprints[f] == w.t.fingerprints[f])
            && w'.h.lost == w.h.lost && w'.h.spoiled == w.h.spoiled
            && (InSight(w'.wk.phase, f) <==> InSight(w.wk.phase, f))
            && (Opener(w'.wk.phase, f) ==> w'.wk.phase == w.wk.phase)
            && (Opener(w.wk.phase, f) ==> w'.wk.phase == w.wk.phase)
  {}

  /** A verdict row settles the sighting in hand: an opener reaches triage or is spoiled. */
  lemma VerdictSettles(rows: seq<EventRow>, row: EventRow, os: seq<P.Opened>, total: nat, ph: P.Phase, lost: nat,
                       spoiled: nat, f: Digest)
    requires VerdictBooks(rows, os, total, ph, lost, spoiled, f) && ph.Seen?
    requires IsVerdict(row, f) <==> Hash(ph.g) == f
    requires row.incident == ph.id
    requires row.to == "filtered" || row.to == if ph.out.suppressed then "suppressed" else "triaging"
    ensures VerdictBooks(rows + [row], os, total, P.Moved(row), lost,
                         spoiled + One(row.to == "filtered" && Opener(ph, f)), f)
  {
    RowSnoc(rows, row, f);
  }

  /** What a move does to the books: one verdict row, and an opener spoiled if rejected. */
  lemma MoveRow(w: P.World, early: Option<string>, detail: string, now: Time)
    requires w.wk.phase.Seen? && HandInv(w)
    ensures var w' := P.DoMove(w, early, detail, now);
            && w'.wk.phase.Moved? && w'.t.events == w.t.events + [w'.wk.phase.row]
            && w'.t.fingerprints == w.t.fingerprints && w'.h.opens == w.h.opens && w'.h.lost == w.h.lost
            && var row := w'.wk.phase.row;
            && row.kind == STATE_CHANGE && row.incident == w.wk.phase.id
            && row.payload.Triage? && row.payload.fingerprint == Hash(w.wk.phase.g)
            && row.to == P.Target(early, w.wk.phase.out.suppressed)
            && w'.h.spoiled == w.h.spoiled + if row.to == "filtered" && !w.wk.phase.out.suppressed
                                             then multiset{Hash(w.wk.phase.g)} else multiset{}
  {
    HandMove(w, early, detail, now);
  }

  lemma BooksMove(w: P.World, early: Option<string>, detail: string, now: Time, f: Digest)
    requires Books(w, f) && HandInv(w)
    ensures Books(P.DoMove(w, early, detail, now), f)
  {
    if w.wk.phase.Seen? {
      MoveRow(w, early, detail, now);
      BooksMoved(w, P.DoMove(w, early, detail, now), early, f);
    }
  }

  lemma BooksMoved(w: P.World, w': P.World, early: Option<string>, f: Digest)
    requires Books(w, f) && w.wk.phase.Seen? && w'.wk.phase.Moved? && w'.t.events == w.t.events + [w'.wk.phase.row]
    requires w'.t.fingerprints == w.t.fingerprints && w'.h.opens == w.h.opens && w'.h.lost == w.h.lost
    requires IsVerdict(w'.wk.phase.row, f) <==> Hash(w.wk.phase.g) == f
    requires w'.wk.phase.row.incident == w.wk.phase.id
    requires w'.wk.phase.row.to == P.Target(early, w.wk.phase.out.suppressed)
    requires w'.h.spoiled[f] ==
             w.h.spoiled[f] + One(w'.wk.phase.row.to == "filtered" && Opener(w.wk.phase, f))
    ensures Books(w', f)
  {
    VerdictSettles(w.t.events, w'.wk.phase.row, P.Opens(w, f), Total(w.t, f), w.wk.phase, w.h.lost[f],
                   w.h.spoiled[f], f);
  }

  lemma BooksForget(w: P.World, f: Digest)
    requires Books(w, f)
    ensures Books(P.Forget(w), f)
  {}

  /** At most one row more, and no verdict. */
  ghost predicate NoVerdict(rows: seq<EventRow>, rows': seq<EventRow>) {
    rows' == rows
    || (rows' != [] && rows'[..|rows'| - 1] == rows && rows'[|rows'| - 1].kind != STATE_CHANGE)
  }

  /** Steps that leave the fingerprint's books alone. */
  ghost predicate SameFile(w: P.World, w': P.World, f: Digest) {
    && w'.h.opens == w.h.opens && w'.h.lost == w.h.lost && w'.h.spoiled == w.h.spoiled
    && InSight(w'.wk.phase, f) == InSight(w.wk.phase, f)
    && (InSight(w.wk.phase, f) ==> w'.wk.phase == w.wk.phase)
  }

  lemma SameFileKeeps(w: P.World, w': P.World, f: Digest)
    requires Books(w, f) && SameFile(w, w', f)
    requires w'.t.fingerprints == w.t.fingerprints && NoVerdict(w.t.events, w'.t.events)
    ensures Books(w', f)
  {
    if w'.t.events != w.t.events {
      var row := w'.t.events[|w'.t.events| - 1];
      RowSnoc(w.t.events, row, f);
      assert w'.t.events == w.t.events + [row];
    }
  }

  lemma OthersSameFile(w: P.World, s: P.Step, f: Digest)
    requires !s.Sight? && !s.Move? && !s.Abandon? && !s.Crash?
    ensures SameFile(w, P.Next(w, s), f)
  {
    if s.Receive? || s.Audit? || s.AuditFails? || s.Ack? || s.Resync? { SubscriberApart(w, s); }
  }

  /** The subscriber and the registry never touch the worker. */
  lemma SubscriberApart(w: P.World, s: P.Step)
    requires s.Receive? || s.Audit? || s.AuditFails? || s.Ack? || s.Resync?
    ensures var w' := P.Next(w, s);
            w'.wk == w.wk && w'.h.opens == w.h.opens && w'.h.lost == w.h.lost && w'.h.spoiled == w.h.spoiled
  {}

  lemma OthersNoVerdict(w: P.World, s: P.Step)
    requires !s.Sight? && !s.Move?
    ensures P.Next(w, s).t.fingerprints == w.t.fingerprints && NoVerdict(w.t.events, P.Next(w, s).t.events)
  {
    PipelineIngest.TablesFollow(w, s);
    if PipelineIngest.OpOf(w, s).Some? { OpNoVerdict(w.t, PipelineIngest.OpOf(w, s).value); }
  }

  lemma OpNoVerdict(t: Tables, op: Op)
    requires !op.DoObserve? && !op.DoTransition?
    ensures Apply(t, op).fingerprints == t.fingerprints && NoVerdict(t.events, Apply(t, op).events)
  {}

  lemma BooksNext(w: P.World, s: P.Step, f: Digest)
    requires Books(w, f) && HandInv(w)
    ensures Books(P.Next(w, s), f)
  {
    if s.Sight? {
      BooksSighting(w, s, f);
    } else if s.Move? {
      BooksMoving(w, s, f);
    } else if s.Abandon? || s.Crash? {
      BooksDropped(w, s, f);
    } else {
      BooksOther(w, s, f);
    }
  }

  lemma BooksSighting(w: P.World, s: P.Step, f: Digest)
    requires Books(w, f) && s.Sight?
    ensures Books(P.Next(w, s), f)
  {
    BooksSight(w, s.window, s.now, f);
  }

  lemma BooksMoving(w: P.World, s: P.Step, f: Digest)
    requires Books(w, f) && HandInv(w) && s.Move?
    ensures Books(P.Next(w, s), f)
  {
    BooksMove(w, s.early, s.detail, s.now, f);
  }

  lemma BooksDropped(w: P.World, s: P.Step, f: Digest)
    requires Books(w, f) && (s.Abandon? || s.Crash?)
    ensures Books(P.Next(w, s), f)
  {
    if s.Crash? {
      BooksCrash(w, f);
    } else {
      BooksForget(w, f);
    }
  }

  lemma BooksCrash(w: P.World, f: Digest)
    requires Books(w, f)
    ensures Books(P.DoCrash(w), f)
  {
    SameFileKeeps(w, P.DropPending(w), f);
    BooksForget(P.DropPending(w), f);
  }

  lemma BooksOther(w: P.World, s: P.Step, f: Digest)
    requires Books(w, f) && !s.Sight? && !s.Move? && !s.Abandon? && !s.Crash?
    ensures Books(P.Next(w, s), f)
  {
    OthersSameFile(w, s, f);
    OthersNoVerdict(w, s);
    SameFileKeeps(w, P.Next(w, s), f);
  }

  /** Conservation, in every run: failures, filters, retries, crashes and clock steps
      included, each sighting of a fingerprint has its verdict, is in hand, or was lost; and
      each window has its triaged incident, has its opener in hand, or was spoiled. */
  lemma {:induction false} BooksBalance(steps: seq<P.Step>, f: Digest)
    ensures var w := P.Run(P.Start(), steps); HandInv(w) && Books(w, f)
  {
    if steps == [] {
    } else {
      var w := P.Run(P.Start(), steps[..|steps| - 1]);
      BooksBalance(steps[..|steps| - 1], f);
      HandNext(w, steps[|steps| - 1]);
      BooksNext(w, steps[|steps| - 1], f);
    }
  }

  /** Storm collapse: with no sighting in hand or lost, and no incident of the fingerprint
      rejected by an earlier filter, exactly the openers of its windows reached triage, in
      order; every other sighting was suppressed; and the lifetime counter is their sum. */
  lemma StormCollapse(steps: seq<P.Step>, f: Digest)
    requires var w := P.Run(P.Start(), steps);
             && !InSight(w.wk.phase, f) && w.h.lost[f] == 0 && Verdicts(w.t.events, f, "filtered") == 0
    ensures var w := P.Run(P.Start(), steps);
            && Triaged(w.t.events, f) == Openers(P.Opens(w, f))
            && Verdicts(w.t.events, f, "triaging") == |P.Opens(w, f)|
            && Verdicts(w.t.events, f, "suppressed") == Total(w.t, f) - |P.Opens(w, f)|
  {
    BooksBalance(steps, f);
  }

  /** Exactly when: with nothing in hand, as many incidents reached triage as windows were
      opened if and only if no opener was lost or rejected. */
  lemma CollapseIffNoneSpoiled(steps: seq<P.Step>, f: Digest)
    requires !InSight(P.Run(P.Start(), steps).wk.phase, f)
    ensures var w := P.Run(P.Start(), steps);
            Verdicts(w.t.events, f, "triaging") == |P.Opens(w, f)| <==> w.h.spoiled[f] == 0
  {
    BooksBalance(steps, f);
  }

  /** The rate bound, in every run: no more incidents of a fingerprint reach triage than
      windows were opened, and with every window at least W, n openings span more than
      (n - 1)(W - 1s). */
  lemma StormRate(steps: seq<P.Step>, f: Digest, W: Time)
    requires forall o :: o in P.Opens(P.Run(P.Start(), steps), f) ==> o.opening.window >= W
    ensures var w := P.Run(P.Start(), steps);
            var os := P.Opens(w, f);
            Verdicts(w.t.events, f, "triaging") <= |os| && Spread(os, W)
  {
    BooksBalance(steps, f);
    RateOf(P.Run(P.Start(), steps), f, W);
  }

  /** Two or more openings span more than a window less a second for each but one. */
  predicate Spread(os: seq<P.Opened>, W: Time) {
    |os| >= 2 ==> (|os| - 1) * (W - SECOND) < os[|os| - 1].opening.at - os[0].opening.at
  }

  lemma RateOf(w: P.World, f: Digest, W: Time)
    requires Books(w, f) && forall o :: o in P.Opens(w, f) ==> o.opening.window >= W
    ensures Verdicts(w.t.events, f, "triaging") <= |P.Opens(w, f)| && Spread(P.Opens(w, f), W)
  {
    if |P.Opens(w, f)| >= 2 { OpeningsSpan(P.Opens(w, f), W); }
  }

  lemma OpeningsSpan(os: seq<P.Opened>, W: Time)
    requires |os| >= 2 && Windows.Spaced(OpeningsOf(os)) && forall o :: o in os ==> o.opening.window >= W
    ensures (|os| - 1) * (W - SECOND) < os[|os| - 1].opening.at - os[0].opening.at
  {
    assert forall i :: 0 <= i < |os| ==> OpeningsOf(os)[i].window == os[i].opening.window && os[i] in os;
    Windows.SpacedSpan(OpeningsOf(os), W);
  }

  lemma {:induction false} RunAppend(w: P.World, a: seq<P.Step>, b: seq<P.Step>)
    ensures P.Run(w, a + b) == P.Run(P.Run(w, a), b)
  {
    if b == [] {
      assert a + b == a;
    } else {
      RunAppend(w, a, b[..|b| - 1]);
      assert (a + b)[..|a + b| - 1] == a + b[..|b| - 1];
    }
  }

  lemma RunSnoc(w: P.World, steps: seq<P.Step>, s: P.Step)
    ensures P.Run(w, steps + [s]) == P.Next(P.Run(w, steps), s)
  {
    assert (steps + [s])[..|steps|] == steps;
  }

  // ---- An opener that is given up and comes back ----

  predicate Sights(w: P.World, s: P.Step, f: Digest) { s.Sight? && w.wk.phase.Marked? && Hash(w.wk.phase.g) == f }

  /** No incident of the fingerprint is sighted along the steps. */
  ghost predicate Unsighted(w: P.World, steps: seq<P.Step>, f: Digest) {
    steps == []
    || (Unsighted(w, steps[..|steps| - 1], f) && !Sights(P.Run(w, steps[..|steps| - 1]), steps[|steps| - 1], f))
  }

  lemma RowKept(w: P.World, s: P.Step, f: Digest)
    requires f in w.t.fingerprints && !Sights(w, s, f)
    ensures f in P.Next(w, s).t.fingerprints && P.Next(w, s).t.fingerprints[f] == w.t.fingerprints[f]
  {
    if !s.Sight? && !s.Move? { OthersNoVerdict(w, s); }
  }

  lemma {:induction false} RowKeptAlong(w: P.World, steps: seq<P.Step>, f: Digest)
    requires f in w.t.fingerprints && Unsighted(w, steps, f)
    ensures var t := P.Run(w, steps).t; f in t.fingerprints && t.fingerprints[f] == w.t.fingerprints[f]
  {
    if steps == [] {
    } else {
      RowKeptAlong(w, steps[..|steps| - 1], f);
      RowKept(P.Run(w, steps[..|steps| - 1]), steps[|steps| - 1], f);
    }
  }

  /** A sighting and the transition right after it. */
  lemma SightThenMove(v: P.World, window: Time, now: Time, detail: string, at: Time)
    requires HandInv(v) && v.wk.phase.Marked? && Hash(v.wk.phase.g) in v.t.fingerprints
    ensures var x := P.DoMove(P.DoSight(v, window, now), None, detail, at);
            && Has(x.t, v.wk.phase.id)
            && At(x.t, v.wk.phase.id).state ==
               if now < v.t.fingerprints[Hash(v.wk.phase.g)].until * SECOND then "suppressed" else "triaging"
  {
    var y := P.DoSight(v, window, now);
    HandNext(v, P.Sight(window, now));
    assert InHand(y)[0] == v.wk.phase.id && v.wk.phase.id in InHand(y);
  }

  ghost predicate GivenUp(s: P.Step) { s.Abandon? || s.Crash? }

  /** How a run goes on after an opener was marked: its sighting, giving up, whatever happens
      until it is marked again, a sighting and a transition that no earlier filter rejects. */
  function Retry(window: Time, now: Time, drop: P.Step, mid: seq<P.Step>, window': Time, later: Time, detail: string,
                 at: Time): seq<P.Step> {
    [P.Sight(window, now), drop] + mid + [P.Sight(window', later), P.Move(None, detail, at)]
  }

  /** Sighting and transition are two commits. In every run in which an opener is given up or
      lost in a crash between them, and its fingerprint is not sighted until it is marked
      again, its own window suppresses it if and only if it returns before the rounded
      deadline. */
  lemma RetriedOpenerIsSuppressed(pre: seq<P.Step>, window: Time, now: Time, drop: P.Step, mid: seq<P.Step>,
                                  window': Time, later: Time, detail: string, at: Time)
    requires var w := P.Run(P.Start(), pre);
             var seen := P.Next(w, P.Sight(window, now));
             var v := P.Run(P.Next(seen, drop), mid);
             && w.wk.phase.Marked? && seen.wk.phase.Seen? && !seen.wk.phase.out.suppressed && GivenUp(drop)
             && Unsighted(P.Next(seen, drop), mid, Hash(w.wk.phase.g))
             && v.wk.phase.Marked? && v.wk.phase.id == w.wk.phase.id && Hash(v.wk.phase.g) == Hash(w.wk.phase.g)
    ensures var id := P.Run(P.Start(), pre).wk.phase.id;
            var t := P.Run(P.Start(), pre + Retry(window, now, drop, mid, window', later, detail, at)).t;
            && Has(t, id)
            && At(t, id).state == if later < Sec(now + window) * SECOND then "suppressed" else "triaging"
  {
    var w := P.Run(P.Start(), pre);
    var f := Hash(w.wk.phase.g);
    var dropped := P.Next(P.Next(w, P.Sight(window, now)), drop);
    var v := P.Run(dropped, mid);
    DroppedKeeps(w, window, now, drop);
    RowKeptAlong(dropped, mid, f);
    RetryRun(pre, window, now, drop, mid);
    BooksBalance(pre + ([P.Sight(window, now), drop] + mid), f);
    SightThenMove(v, window', later, detail, at);
    RetryEnd(pre, window, now, drop, mid, window', later, detail, at);
  }

  lemma DroppedKeeps(w: P.World, window: Time, now: Time, drop: P.Step)
    requires w.wk.phase.Marked? && GivenUp(drop)
    requires var seen := P.Next(w, P.Sight(window, now)); seen.wk.phase.Seen? && !seen.wk.phase.out.suppressed
    ensures var t := P.Next(P.Next(w, P.Sight(window, now)), drop).t;
            Hash(w.wk.phase.g) in t.fingerprints && t.fingerprints[Hash(w.wk.phase.g)].until == Sec(now + window)
  {}

  lemma RetryRun(pre: seq<P.Step>, window: Time, now: Time, drop: P.Step, mid: seq<P.Step>)
    ensures P.Run(P.Start(), pre + ([P.Sight(window, now), drop] + mid)) ==
            P.Run(P.Next(P.Next(P.Run(P.Start(), pre), P.Sight(window, now)), drop), mid)
  {
    var first := [P.Sight(window, now), drop];
    RunAppend(P.Start(), pre, first + mid);
    RunAppend(P.Run(P.Start(), pre), first, mid);
    assert first == [P.Sight(window, now)] + [drop] && [P.Sight(window, now)] == [] + [P.Sight(window, now)];
    RunSnoc(P.Run(P.Start(), pre), [P.Sight(window, now)], drop);
    RunSnoc(P.Run(P.Start(), pre), [], P.Sight(window, now));
  }

  lemma RetryEnd(pre: seq<P.Step>, window: Time, now: Time, drop: P.Step, mid: seq<P.Step>, window': Time, later: Time,
                 detail: string, at: Time)
    ensures P.Run(P.Start(), pre + Retry(window, now, drop, mid, window', later, detail, at)) ==
            P.DoMove(P.DoSight(P.Run(P.Start(), pre + ([P.Sight(window, now), drop] + mid)), window', later),
                     None, detail, at)
  {
    var all := pre + ([P.Sight(window, now), drop] + mid);
    var s, m := P.Sight(window', later), P.Move(None, detail, at);
    assert pre + Retry(window, now, drop, mid, window', later, detail, at) == all + [s] + [m];
    RunSnoc(P.Start(), all + [s], m);
    RunSnoc(P.Start(), all, s);
  }

  /** One such run: a project is registered, one event arrives, and its incident is given up
      right after it opened the window. */
  lemma RetriedOpenerRun(row: ProjectRow, d: P.Delivery, g: Grouping, window: Time, later: Time)
    requires d.verdict.Routed? && d.verdict.ev.slug == row.slug == g.slug != ""
    ensures var pre := [P.Resync([row]), P.Receive(d, 0), P.List(1), P.Take, P.Mark(g)];
            var mid := [P.List(1), P.Take, P.Mark(g)];
            var t := P.Run(P.Start(), pre + Retry(window, 0, P.Abandon, mid, window, later, "", later)).t;
            && Has(t, 1) && At(t, 1).state == if later < Sec(window) * SECOND then "suppressed" else "triaging"
  {
    var pre := [P.Resync([row]), P.Receive(d, 0), P.List(1), P.Take, P.Mark(g)];
    var mid := [P.List(1), P.Take, P.Mark(g)];
    ArriveAndMark(row, d, g);
    FirstSightOpens(P.Run(P.Start(), pre), g, window);
    var dropped := P.Next(P.Next(P.Run(P.Start(), pre), P.Sight(window, 0)), P.Abandon);
    MarkAgain(dropped, g);
    NoSights(dropped, mid, Hash(g));
    RetriedFrom(pre, mid, g, window, later);
  }

  lemma RetriedFrom(pre: seq<P.Step>, mid: seq<P.Step>, g: Grouping, window: Time, later: Time)
    requires var w := P.Run(P.Start(), pre);
             var dropped := P.Next(P.Next(w, P.Sight(window, 0)), P.Abandon);
             && OneMarked(w, g) && w.t.fingerprints == map[]
             && OneMarked(P.Run(dropped, mid), g) && Unsighted(dropped, mid, Hash(g))
    ensures var t := P.Run(P.Start(), pre + Retry(window, 0, P.Abandon, mid, window, later, "", later)).t;
            && Has(t, 1) && At(t, 1).state == if later < Sec(window) * SECOND then "suppressed" else "triaging"
  {
    FirstSightOpens(P.Run(P.Start(), pre), g, window);
    RetriedOpenerIsSuppressed(pre, window, 0, P.Abandon, mid, window, later, "", later);
  }

  lemma FirstSightOpens(w: P.World, g: Grouping, window: Time)
    requires OneMarked(w, g) && w.t.fingerprints == map[]
    ensures var seen := P.Next(w, P.Sight(window, 0));
            seen.wk.phase.Seen? && !seen.wk.phase.out.suppressed && OneWaits(P.Next(seen, P.Abandon), g)
  {}

  lemma {:induction false} NoSights(w: P.World, steps: seq<P.Step>, f: Digest)
    requires forall i :: 0 <= i < |steps| ==> !steps[i].Sight?
    ensures Unsighted(w, steps, f)
  {
    if steps == [] {
    } else {
      NoSights(w, steps[..|steps| - 1], f);
    }
  }

  /** The only incident is waiting and belongs to the grouping's project. */
  ghost predicate OneWaits(w: P.World, g: Grouping) {
    && |w.t.incidents| == 1 && w.t.incidents[0].state == "received" && w.t.incidents[0].slug == g.slug
    && g.slug in w.t.projects && w.wk == P.Worker([], P.Idle)
  }

  ghost predicate OneMarked(w: P.World, g: Grouping) {
    && |w.t.incidents| == 1 && w.t.incidents[0].state == "received" && w.t.incidents[0].slug == g.slug
    && g.slug in w.t.projects && w.wk == P.Worker([], P.Marked(1, g))
  }

  lemma TwoSteps(w: P.World, a: P.Step, b: P.Step)
    ensures P.Run(w, [a, b]) == P.Next(P.Next(w, a), b)
  {
    RunSnoc(w, [], a);
    RunSnoc(w, [a], b);
    assert [] + [a] == [a] && [a] + [b] == [a, b];
  }

  lemma ThreeSteps(w: P.World, a: P.Step, b: P.Step, c: P.Step)
    ensures P.Run(w, [a, b, c]) == P.Next(P.Next(P.Next(w, a), b), c)
  {
    TwoSteps(w, a, b);
    RunSnoc(w, [a, b], c);
    assert [a, b] + [c] == [a, b, c];
  }

  lemma MarkAgain(w: P.World, g: Grouping)
    requires OneWaits(w, g)
    ensures var v := P.Run(w, [P.List(1), P.Take, P.Mark(g)]);
            OneMarked(v, g) && v.t.fingerprints == w.t.fingerprints
  {
    assert QueueUpTo(w.t, 0) == [] && Queue(w.t) == [1];
    ThreeSteps(w, P.List(1), P.Take, P.Mark(g));
    assert P.Next(w, P.List(1)).wk == P.Worker([1], P.Idle);
    assert P.Next(P.Next(w, P.List(1)), P.Take).wk == P.Worker([], P.Taken(1));
  }

  lemma Arrives(row: ProjectRow, d: P.Delivery, g: Grouping)
    requires d.verdict.Routed? && d.verdict.ev.slug == row.slug == g.slug != ""
    ensures var b := P.Next(P.Next(P.Start(), P.Resync([row])), P.Receive(d, 0));
            OneWaits(b, g) && b.t.fingerprints == map[]
  {
    SyncReconciles(P.Start().t, [row], row.slug);
    assert LastEntry([row], row.slug) == Some(row);
    var a := P.Next(P.Start(), P.Resync([row]));
    assert a.t.incidents == [] && row.slug in a.t.projects;
    IngestEffect(a.t, P.HandleParams(d.verdict.ev, 0), 0);
  }

  lemma ArriveAndMark(row: ProjectRow, d: P.Delivery, g: Grouping)
    requires d.verdict.Routed? && d.verdict.ev.slug == row.slug == g.slug != ""
    ensures var w := P.Run(P.Start(), [P.Resync([row]), P.Receive(d, 0), P.List(1), P.Take, P.Mark(g)]);
            OneMarked(w, g) && w.t.fingerprints == map[]
  {
    var r, v := P.Resync([row]), P.Receive(d, 0);
    Arrives(row, d, g);
    TwoSteps(P.Start(), r, v);
    MarkAgain(P.Run(P.Start(), [r, v]), g);
    RunAppend(P.Start(), [r, v], [P.List(1), P.Take, P.Mark(g)]);
    assert [r, v] + [P.List(1), P.Take, P.Mark(g)] == [r, v, P.List(1), P.Take, P.Mark(g)];
  }
}
