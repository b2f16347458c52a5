/** Bounded wait: incidents that keep failing delay the queue, but do not starve it as long
    as there are fewer of them than a batch holds. */
module PipelineWait {
  import opened Wrappers
  import opened Store
  import opened StoreRuns
  import P = Pipeline
  import opened PipelineIngest
  import opened PipelineStorm
  import opened PipelineFifo

  /** One uncancelled pass: a listing, then no other listing, cancellation or crash until the
      batch is used up. Arrivals and registry syncs may fall anywhere in it. */
  ghost predicate Pass(w: P.World, steps: seq<P.Step>, B: nat) {
    && InHand(w) == [] && w.wk.phase.Idle? && steps != [] && steps[0] == P.List(B)
    && (forall i :: 1 <= i < |steps| ==> !steps[i].List? && !steps[i].Cancel? && !steps[i].Crash?)
    && P.Run(w, steps).wk == P.Worker([], P.Idle)
  }

  /** Only the bad incidents are given up. */
  ghost predicate OnlyBadFail(w: P.World, steps: seq<P.Step>, bad: set<nat>) {
    steps == []
    || (var v := P.Run(w, steps[..|steps| - 1]);
        && OnlyBadFail(w, steps[..|steps| - 1], bad)
        && (steps[|steps| - 1].Abandon? ==> forall id :: id in Current(v.wk.phase) ==> id in bad))
  }

  /** The bad incidents are given up every time. */
  ghost predicate BadAlwaysFail(w: P.World, steps: seq<P.Step>, bad: set<nat>) {
    steps == []
    || (var v := P.Run(w, steps[..|steps| - 1]);
        && BadAlwaysFail(w, steps[..|steps| - 1], bad)
        && (steps[|steps| - 1].Move? ==> forall id :: id in Current(v.wk.phase) ==> id !in bad))
  }

  function Listed(t: Tables, B: nat): seq<nat> {
    if |Queue(t)| <= B then Queue(t) else Queue(t)[..B]
  }

  /** An incident leaves received only by being the one in hand of a move, and for good. */
  lemma ReceivedLeaves(w: P.World, s: P.Step, id: nat)
    requires Has(w.t, id)
    ensures IsReceived(P.Next(w, s).t, id) ==> IsReceived(w.t, id)
    ensures IsReceived(w.t, id) && !(s.Move? && Current(w.wk.phase) == [id]) ==> IsReceived(P.Next(w, s).t, id)
  {
    if !s.Move? {
      StatesKept(w, s);
      assert P.Next(w, s).t.incidents[id - 1].state == w.t.incidents[id - 1].state;
    }
  }

  lemma {:induction false} NeverAgain(w: P.World, steps: seq<P.Step>, id: nat)
    requires Has(w.t, id)
    ensures Has(P.Run(w, steps).t, id)
    ensures IsReceived(P.Run(w, steps).t, id) ==> IsReceived(w.t, id)
  {
    if steps == [] {
    } else {
      var v := P.Run(w, steps[..|steps| - 1]);
      NeverAgain(w, steps[..|steps| - 1], id);
      NextAdvances(v, steps[|steps| - 1]);
      ReceivedLeaves(v, steps[|steps| - 1], id);
    }
  }

  lemma {:induction false} HandRun(w: P.World, steps: seq<P.Step>)
    requires HandInv(w)
    ensures HandInv(P.Run(w, steps))
  {
    if steps == [] {
    } else {
      HandRun(w, steps[..|steps| - 1]);
      HandNext(P.Run(w, steps[..|steps| - 1]), steps[|steps| - 1]);
    }
  }

  /** During a pass each listed incident that does not fail is in hand or has moved. */
  lemma {:induction false} PassProgress(w: P.World, steps: seq<P.Step>, B: nat, bad: set<nat>, id: nat)
    requires HandInv(w) && InHand(w) == [] && w.wk.phase.Idle? && steps != [] && steps[0] == P.List(B)
    requires forall i :: 1 <= i < |steps| ==> !steps[i].List? && !steps[i].Cancel? && !steps[i].Crash?
    requires OnlyBadFail(w, steps, bad) && id in Listed(w.t, B) && id !in bad
    ensures id in InHand(P.Run(w, steps)) || !IsReceived(P.Run(w, steps).t, id)
  {
    var n := |steps| - 1;
    if n == 0 {
      assert P.Run(w, steps[..0]) == w;
    } else {
      var init := steps[..n];
      var v := P.Run(w, init);
      PassProgress(w, init, B, bad, id);
      HandRun(w, init);
      assert id in Queue(w.t);
      NeverAgain(w, init, id);
      PassStep(v, steps[n], bad, id);
    }
  }

  lemma PassStep(v: P.World, s: P.Step, bad: set<nat>, id: nat)
    requires HandInv(v) && Has(v.t, id) && (id in InHand(v) || !IsReceived(v.t, id))
    requires !s.List? && !s.Cancel? && !s.Crash? && id !in bad
    requires s.Abandon? ==> forall i :: i in Current(v.wk.phase) ==> i in bad
    ensures id in InHand(P.Next(v, s)) || !IsReceived(P.Next(v, s).t, id)
  {
    ReceivedLeaves(v, s, id);
    if s.Move? {
      if id in InHand(v) { MovedFromHand(v, s, id); }
    } else {
      HandAfter(v, s);
      assert s.Abandon? ==> InHand(v) == Current(v.wk.phase) + InHand(P.Next(v, s));
    }
  }

  lemma MovedFromHand(v: P.World, s: P.Step, id: nat)
    requires HandInv(v) && s.Move? && id in InHand(v)
    ensures id in InHand(P.Next(v, s)) || !IsReceived(P.Next(v, s).t, id)
  {
    HandMove(v, s.early, s.detail, s.now);
    if v.wk.phase.Seen? { assert InHand(v) == [v.wk.phase.id] + InHand(P.Next(v, s)); }
  }

  // ---- Counting what is ahead ----

  /** The waiting incidents before x that do not fail. */
  function Ahead(t: Tables, x: nat, bad: set<nat>): set<nat> {
    set i | 1 <= i < x && IsReceived(t, i) && i !in bad
  }

  /** The waiting incidents before x that do. */
  function BadAhead(t: Tables, x: nat, bad: set<nat>): set<nat> {
    set i | 1 <= i < x && IsReceived(t, i) && i in bad
  }

  /** Either x is listed, or a full batch lies before it. */
  lemma ListedBefore(t: Tables, B: nat, bad: set<nat>, x: nat)
    requires ClockForward(t) && IsReceived(t, x) && x !in Listed(t, B)
    ensures Elements(Listed(t, B)) - bad <= Ahead(t, x, bad)
    ensures |Elements(Listed(t, B)) - bad| >= B - |BadAhead(t, x, bad)|
  {
    var q := Queue(t);
    QueueIncreasing(t);
    assert x in q;
    var k :| 0 <= k < |q| && q[k] == x;
    assert forall j :: 0 <= j < |Listed(t, B)| ==> Listed(t, B)[j] == q[j] && q[j] in Listed(t, B);
    forall i | i in Listed(t, B) ensures i < x && IsReceived(t, i) {
      var j :| 0 <= j < B && q[j] == i;
      assert q[j] < q[k] && q[j] in q;
    }
    QueueInOrder(t, |t.incidents|);
    OrderedDistinct(t, Listed(t, B));
    assert Elements(Listed(t, B)) - bad == Elements(Listed(t, B)) - BadAhead(t, x, bad);
    SizeAfterRemoval(Elements(Listed(t, B)), BadAhead(t, x, bad));
  }

  /** What is listed has less than a batch of waiting incidents before it. */
  lemma ListedHasFewBefore(t: Tables, B: nat, bad: set<nat>, x: nat)
    requires ClockForward(t) && x in Listed(t, B)
    ensures |BadAhead(t, x, bad)| < B
  {
    var q := Queue(t);
    QueueIncreasing(t);
    var k :| 0 <= k < |Listed(t, B)| && Listed(t, B)[k] == x;
    forall i | i in BadAhead(t, x, bad) ensures i in Elements(q[..k]) {
      var j :| 0 <= j < |q| && q[j] == i;
      PositionsFollow(q, j, k);
      assert q[..k][j] == i;
    }
    SubsetSize(BadAhead(t, x, bad), Elements(q[..k]));
    DistinctPairs(q[..k]);
  }

  lemma {:induction false} SizeAfterRemoval(a: set<nat>, b: set<nat>)
    ensures |a - b| >= |a| - |b|
  {
    assert a == (a - b) + (a * b);
    SubsetSize(a * b, b);
  }

  lemma {:induction false} SubsetSize(a: set<nat>, b: set<nat>)
    requires a <= b
    ensures |a| <= |b|
  {
    if a == {} {
    } else {
      var x :| x in a;
      SubsetSize(a - {x}, b - {x});
    }
  }

  /** One pass moves x, or moves all but the failing ones of a batch ahead of it. */
  lemma PassShrinks(w: P.World, steps: seq<P.Step>, B: nat, bad: set<nat>, x: nat)
    requires HandInv(w) && ClockForward(w.t) && IsReceived(w.t, x) && x !in bad
    requires Pass(w, steps, B) && OnlyBadFail(w, steps, bad) && IsReceived(P.Run(w, steps).t, x)
    ensures |Ahead(P.Run(w, steps).t, x, bad)| <= |Ahead(w.t, x, bad)| - (B - |BadAhead(w.t, x, bad)|)
  {
    var t' := P.Run(w, steps).t;
    var done := Elements(Listed(w.t, B)) - bad;
    forall id | id in Listed(w.t, B) && id !in bad ensures !IsReceived(t', id) {
      PassProgress(w, steps, B, bad, id);
      assert InHand(P.Run(w, steps)) == [];
    }
    ListedBefore(w.t, B, bad, x);
    forall i | i in Ahead(t', x, bad) ensures i in Ahead(w.t, x, bad) - done {
      NeverAgain(w, steps, i);
    }
    SubsetSize(Ahead(t', x, bad), Ahead(w.t, x, bad) - done);
  }

  lemma FewerBadAhead(w: P.World, steps: seq<P.Step>, bad: set<nat>, x: nat)
    requires Has(w.t, x)
    ensures |BadAhead(P.Run(w, steps).t, x, bad)| <= |BadAhead(w.t, x, bad)|
  {
    forall i | i in BadAhead(P.Run(w, steps).t, x, bad) ensures i in BadAhead(w.t, x, bad) { NeverAgain(w, steps, i); }
    SubsetSize(BadAhead(P.Run(w, steps).t, x, bad), BadAhead(w.t, x, bad));
  }

  // ---- Many passes ----

  function RunAll(w: P.World, passes: seq<seq<P.Step>>): P.World {
    if passes == [] then w else P.Run(RunAll(w, passes[..|passes| - 1]), passes[|passes| - 1])
  }

  ghost predicate Passes(w: P.World, passes: seq<seq<P.Step>>, B: nat, bad: set<nat>) {
    passes == []
    || (var v, last := RunAll(w, passes[..|passes| - 1]), passes[|passes| - 1];
        Passes(w, passes[..|passes| - 1], B, bad) && Pass(v, last, B) && OnlyBadFail(v, last, bad))
  }

  lemma ClockNext(w: P.World, s: P.Step)
    requires !P.Next(w, s).h.clockBack && ClockForward(w.t)
    ensures !w.h.clockBack && ClockForward(P.Next(w, s).t)
  {
    TablesFollow(w, s);
    ClockFlag(w, s);
    if OpOf(w, s).Some? {
      var op := OpOf(w, s).value;
      ClockOp(w.t, op);
    }
  }

  lemma ClockOp(t: Tables, op: Op)
    requires ClockForward(t) && (Inserts(t, op) ==> !P.ClockWentBack(t, op.now))
    ensures ClockForward(Apply(t, op))
  {
    ApplyAdvances(t, op);
    ClockStep(t, Apply(t, op));
  }

  lemma {:induction false} ClockRun(w: P.World, steps: seq<P.Step>)
    requires ClockForward(w.t) && !P.Run(w, steps).h.clockBack
    ensures ClockForward(P.Run(w, steps).t) && !w.h.clockBack
  {
    if steps == [] {
    } else {
      var v := P.Run(w, steps[..|steps| - 1]);
      FlagSticks(v, steps[|steps| - 1]);
      ClockRun(w, steps[..|steps| - 1]);
      ClockNext(v, steps[|steps| - 1]);
    }
  }

  /** Where n passes, each worth d moves, have got to. */
  ghost predicate Closer(w: P.World, v: P.World, n: nat, d: nat, bad: set<nat>, x: nat) {
    && HandInv(v) && ClockForward(v.t) && Has(v.t, x)
    && |BadAhead(v.t, x, bad)| <= |BadAhead(w.t, x, bad)|
    && (IsReceived(v.t, x) ==> |Ahead(v.t, x, bad)| + n * d <= |Ahead(w.t, x, bad)|)
  }

  lemma OnePass(w: P.World, v: P.World, steps: seq<P.Step>, n: nat, d: nat, B: nat, bad: set<nat>, x: nat)
    requires d + |BadAhead(w.t, x, bad)| == B && x !in bad && Closer(w, v, n, d, bad, x)
    requires Pass(v, steps, B) && OnlyBadFail(v, steps, bad) && !P.Run(v, steps).h.clockBack
    ensures Closer(w, P.Run(v, steps), n + 1, d, bad, x)
  {
    ClockRun(v, steps);
    HandRun(v, steps);
    NeverAgain(v, steps, x);
    FewerBadAhead(v, steps, bad, x);
    if IsReceived(P.Run(v, steps).t, x) {
      PassShrinks(v, steps, B, bad, x);
      ProductOfNext(n, d);
    }
  }

  lemma {:induction false} ManyPasses(w: P.World, passes: seq<seq<P.Step>>, d: nat, B: nat, bad: set<nat>, x: nat)
    requires HandInv(w) && ClockForward(w.t) && IsReceived(w.t, x) && x !in bad && d + |BadAhead(w.t, x, bad)| == B
    requires Passes(w, passes, B, bad) && !RunAll(w, passes).h.clockBack
    ensures Closer(w, RunAll(w, passes), |passes|, d, bad, x)
  {
    if passes == [] {
    } else {
      var n := |passes| - 1;
      var init := passes[..n];
      ClockBackStays(RunAll(w, init), passes[n]);
      ManyPasses(w, init, d, B, bad, x);
      OnePass(w, RunAll(w, init), passes[n], n, d, B, bad, x);
    }
  }

  lemma ProductOfNext(n: nat, d: nat)
    ensures (n + 1) * d == n * d + d
  {}

  lemma {:induction false} ClockBackStays(w: P.World, steps: seq<P.Step>)
    ensures w.h.clockBack ==> P.Run(w, steps).h.clockBack
  {
    if steps == [] {
    } else {
      ClockBackStays(w, steps[..|steps| - 1]);
      FlagSticks(P.Run(w, steps[..|steps| - 1]), steps[|steps| - 1]);
    }
  }

  lemma FlagSticks(w: P.World, s: P.Step)
    ensures w.h.clockBack ==> P.Next(w, s).h.clockBack
  {}

  /** Bounded wait: with k failing incidents waiting ahead of it, fewer than a batch, a clock
      that does not go back and any arrivals, an incident with m others ahead of it that do
      not fail is moved within n uncancelled passes as soon as n (B - k) exceeds m. */
  lemma BoundedWait(w: P.World, passes: seq<seq<P.Step>>, B: nat, bad: set<nat>, x: nat)
    requires HandInv(w) && ClockForward(w.t) && IsReceived(w.t, x) && x !in bad && |BadAhead(w.t, x, bad)| < B
    requires Passes(w, passes, B, bad) && !RunAll(w, passes).h.clockBack
    requires |passes| * (B - |BadAhead(w.t, x, bad)|) > |Ahead(w.t, x, bad)|
    ensures !IsReceived(RunAll(w, passes).t, x)
  {
    ManyPasses(w, passes, B - |BadAhead(w.t, x, bad)|, B, bad, x);
  }

  /** That is, from the pass numbered floor(m / d) + 1 on. */
  lemma EnoughPasses(m: nat, d: nat, n: nat)
    requires d > 0
    ensures n * d > m <==> n >= m / d + 1
  {
    var q := m / d;
    assert m == q * d + m % d;
    ProductOfNext(q, d);
    if n >= q + 1 { ProductGrows(q + 1, n, d); } else { ProductGrows(n, q, d); }
  }

  lemma ProductGrows(a: nat, b: nat, d: nat)
    requires a <= b
    ensures a * d <= b * d
  {
    assert b * d == a * d + (b - a) * d;
  }

  // ---- With as many failures as a batch holds ----

  lemma {:induction false} HandStaysListed(w: P.World, steps: seq<P.Step>, B: nat)
    requires InHand(w) == [] && w.wk.phase.Idle? && steps != [] && steps[0] == P.List(B)
    requires forall i :: 1 <= i < |steps| ==> !steps[i].List? && !steps[i].Cancel? && !steps[i].Crash?
    ensures forall id :: id in InHand(P.Run(w, steps)) ==> id in Listed(w.t, B)
  {
    var n := |steps| - 1;
    if n == 0 {
      assert P.Run(w, steps[..0]) == w;
    } else {
      var v := P.Run(w, steps[..n]);
      HandStaysListed(w, steps[..n], B);
      HandShorter(v, steps[n]);
    }
  }

  lemma HandShorter(v: P.World, s: P.Step)
    requires !s.List?
    ensures forall id :: id in InHand(P.Next(v, s)) ==> id in InHand(v)
  {
    if s.Move? {
      assert v.wk.phase.Seen? ==> InHand(v) == [v.wk.phase.id] + v.wk.batch;
    } else {
      HandAfter(v, s);
    }
  }

  /** A pass moves no incident that it does not list, and none that fails every time. */
  lemma {:induction false} NothingMoves(w: P.World, steps: seq<P.Step>, B: nat, bad: set<nat>, id: nat)
    requires InHand(w) == [] && w.wk.phase.Idle? && steps != [] && steps[0] == P.List(B)
    requires forall i :: 1 <= i < |steps| ==> !steps[i].List? && !steps[i].Cancel? && !steps[i].Crash?
    requires BadAlwaysFail(w, steps, bad) && Has(w.t, id) && (id in bad || id !in Listed(w.t, B))
    ensures Has(P.Run(w, steps).t, id) && IsReceived(P.Run(w, steps).t, id) == IsReceived(w.t, id)
  {
    var n := |steps| - 1;
    NeverAgain(w, steps, id);
    if n == 0 {
      assert P.Run(w, steps[..0]) == w;
    } else {
      var init := steps[..n];
      var v := P.Run(w, init);
      NothingMoves(w, init, B, bad, id);
      HandStaysListed(w, init, B);
      assert forall i :: i in Current(v.wk.phase) ==> i in InHand(v) && i in Listed(w.t, B);
      assert steps[n].Move? ==> forall i :: i in Current(v.wk.phase) ==> i !in bad;
      assert steps[n].Move? && Current(v.wk.phase) == [id] ==> id in Current(v.wk.phase);
      ReceivedLeaves(v, steps[n], id);
    }
  }

  lemma {:induction false} ReceivedPrefix(t: Tables, j: nat, k: nat)
    requires j <= k <= |t.incidents|
    ensures Received(t, j) <= Received(t, k)
  {
    if j >= k {
    } else {
      ReceivedPrefix(t, j, k - 1);
    }
  }

  /** Stall: when the first B waiting incidents all fail every time, a pass leaves the head of
      the queue as it was, and whatever waits goes on waiting. */
  lemma StallPass(w: P.World, steps: seq<P.Step>, B: nat, bad: set<nat>)
    requires ClockForward(w.t) && !P.Run(w, steps).h.clockBack
    requires Pass(w, steps, B) && BadAlwaysFail(w, steps, bad)
    requires |Queue(w.t)| >= B && Elements(Listed(w.t, B)) <= bad
    ensures var t' := P.Run(w, steps).t;
            && ClockForward(t') && |Queue(t')| >= B && Listed(t', B) == Listed(w.t, B)
            && forall id: nat :: IsReceived(w.t, id) ==> IsReceived(t', id)
  {
    var t' := P.Run(w, steps).t;
    var n := |w.t.incidents|;
    ClockRun(w, steps);
    RowsOnlyGrow(w, steps);
    forall i: nat | i <= n ensures IsReceived(t', i) == IsReceived(w.t, i) {
      if Has(w.t, i) {
        assert i in Listed(w.t, B) ==> i in Elements(Listed(w.t, B));
        NothingMoves(w, steps, B, bad, i);
      }
    }
    ReceivedAgree(w.t, t', n);
    ReceivedPrefix(t', n, |t'.incidents|);
    QueueIsWaiting(w.t, n);
    QueueIsWaiting(t', |t'.incidents|);
  }

  lemma {:induction false} RowsOnlyGrow(w: P.World, steps: seq<P.Step>)
    ensures |w.t.incidents| <= |P.Run(w, steps).t.incidents|
  {
    if steps == [] {
    } else {
      RowsOnlyGrow(w, steps[..|steps| - 1]);
      NextAdvances(P.Run(w, steps[..|steps| - 1]), steps[|steps| - 1]);
    }
  }

  ghost predicate FailingPasses(w: P.World, passes: seq<seq<P.Step>>, B: nat, bad: set<nat>) {
    passes == []
    || (var v, last := RunAll(w, passes[..|passes| - 1]), passes[|passes| - 1];
        FailingPasses(w, passes[..|passes| - 1], B, bad) && Pass(v, last, B) && BadAlwaysFail(v, last, bad))
  }

  /** Starvation: then no number of passes moves anything. */
  lemma {:induction false} QueueStalls(w: P.World, passes: seq<seq<P.Step>>, B: nat, bad: set<nat>)
    requires ClockForward(w.t) && !RunAll(w, passes).h.clockBack && FailingPasses(w, passes, B, bad)
    requires |Queue(w.t)| >= B && Elements(Listed(w.t, B)) <= bad
    ensures var t' := RunAll(w, passes).t;
            && ClockForward(t') && |Queue(t')| >= B && Listed(t', B) == Listed(w.t, B)
            && forall id: nat :: IsReceived(w.t, id) ==> IsReceived(t', id)
  {
    if passes == [] {
    } else {
      var n := |passes| - 1;
      var init := passes[..n];
      var v := RunAll(w, init);
      ClockBackStays(v, passes[n]);
      QueueStalls(w, init, B, bad);
      StallPass(v, passes[n], B, bad);
    }
  }

  /** An incident with a full batch of failing ones ahead of it is not even listed. */
  lemma StarvedPass(w: P.World, steps: seq<P.Step>, B: nat, bad: set<nat>, x: nat)
    requires ClockForward(w.t) && !P.Run(w, steps).h.clockBack && IsReceived(w.t, x)
    requires Pass(w, steps, B) && BadAlwaysFail(w, steps, bad) && |BadAhead(w.t, x, bad)| >= B
    ensures var t' := P.Run(w, steps).t; ClockForward(t') && IsReceived(t', x) && |BadAhead(t', x, bad)| >= B
  {
    var t' := P.Run(w, steps).t;
    ClockRun(w, steps);
    if x in Listed(w.t, B) { ListedHasFewBefore(w.t, B, bad, x); }
    NothingMoves(w, steps, B, bad, x);
    forall i | i in BadAhead(w.t, x, bad) ensures i in BadAhead(t', x, bad) { NothingMoves(w, steps, B, bad, i); }
    SubsetSize(BadAhead(w.t, x, bad), BadAhead(t', x, bad));
  }

  lemma {:induction false} StarvedForever(w: P.World, passes: seq<seq<P.Step>>, B: nat, bad: set<nat>, x: nat)
    requires ClockForward(w.t) && !RunAll(w, passes).h.clockBack && IsReceived(w.t, x)
    requires FailingPasses(w, passes, B, bad) && |BadAhead(w.t, x, bad)| >= B
    ensures var t' := RunAll(w, passes).t; ClockForward(t') && IsReceived(t', x) && |BadAhead(t', x, bad)| >= B
  {
    if passes == [] {
    } else {
      var n := |passes| - 1;
      var v := RunAll(w, passes[..n]);
      ClockBackStays(v, passes[n]);
      StarvedForever(w, passes[..n], B, bad, x);
      StarvedPass(v, passes[n], B, bad, x);
    }
  }

  /** The dichotomy: when the bad incidents fail every time and no others do, an incident is
      moved, at the latest by one pass more than there are others ahead of it, if and only if
      fewer than a batch of bad ones wait ahead of it. */
  lemma MovedIffFewFail(w: P.World, passes: seq<seq<P.Step>>, B: nat, bad: set<nat>, x: nat)
    requires HandInv(w) && ClockForward(w.t) && IsReceived(w.t, x) && x !in bad
    requires Passes(w, passes, B, bad) && FailingPasses(w, passes, B, bad) && !RunAll(w, passes).h.clockBack
    requires |passes| > |Ahead(w.t, x, bad)|
    ensures !IsReceived(RunAll(w, passes).t, x) <==> |BadAhead(w.t, x, bad)| < B
  {
    if |BadAhead(w.t, x, bad)| < B {
      ProductAtLeast(|passes|, B - |BadAhead(w.t, x, bad)|);
      BoundedWait(w, passes, B, bad, x);
    } else {
      StarvedForever(w, passes, B, bad, x);
    }
  }

  lemma ProductAtLeast(n: nat, d: nat)
    requires d >= 1
    ensures n * d >= n
  {
    ProductGrows(1, d, n);
  }
}
