/** Suppression windows over whole runs, with any interleaving and any clock readings. */
module Windows {
  import opened Wrappers
  import opened Store
  import opened StoreRuns

  /** A sighting that was not suppressed: it opened a window. */
  datatype Opening = Opening(at: Time, window: Time)

  predicate Sees(t: Tables, op: Op, d: Digest) {
    op.DoObserve? && op.o.digest == d && Observe(t, op.o, op.now).1.Ok?
  }

  predicate Reopens(t: Tables, op: Op, d: Digest) {
    Sees(t, op, d) && !Observe(t, op.o, op.now).1.value.suppressed
  }

  function Openings(t: Tables, ops: seq<Op>, d: Digest): seq<Opening>
    decreases |ops|
  {
    if ops == [] then []
    else
      (if Reopens(t, ops[0], d) then [Opening(ops[0].now, ops[0].o.window)] else [])
      + Openings(Apply(t, ops[0]), ops[1..], d)
  }

  function Sightings(t: Tables, ops: seq<Op>, d: Digest): nat
    decreases |ops|
  {
    if ops == [] then 0
    else (if Sees(t, ops[0], d) then 1 else 0) + Sightings(Apply(t, ops[0]), ops[1..], d)
  }

  /** Each opening is past the stored deadline of the one before, which is rounded down. */
  ghost predicate Spaced(os: seq<Opening>) {
    forall i :: 0 <= i < |os| - 1 ==> os[i + 1].at >= Sec(os[i].at + os[i].window) * SECOND
  }

  lemma FloorLoses(t: Time)
    ensures t - SECOND < Sec(t) * SECOND <= t
  {}

  lemma {:induction false} OpeningsSpaced(t: Tables, ops: seq<Op>, d: Digest)
    ensures Spaced(Openings(t, ops, d))
    ensures d in t.fingerprints && Openings(t, ops, d) != [] ==>
              Openings(t, ops, d)[0].at >= t.fingerprints[d].until * SECOND
    decreases |ops|
  {
    if ops == [] {
    } else {
      var rest := Openings(Apply(t, ops[0]), ops[1..], d);
      Deadline(t, ops[0], d);
      OpeningsSpaced(Apply(t, ops[0]), ops[1..], d);
      if Reopens(t, ops[0], d) {
        SpacedCons(Opening(ops[0].now, ops[0].o.window), rest);
      } else {
        assert Openings(t, ops, d) == rest;
      }
    }
  }

  /** An opening comes no earlier than the stored deadline and sets the next one; nothing
      else changes it. */
  lemma Deadline(t: Tables, op: Op, d: Digest)
    ensures d in t.fingerprints ==> d in Apply(t, op).fingerprints
    ensures Reopens(t, op, d) ==>
              d in Apply(t, op).fingerprints && Apply(t, op).fingerprints[d].until == Sec(op.now + op.o.window)
    ensures d in t.fingerprints && Reopens(t, op, d) ==> op.now >= t.fingerprints[d].until * SECOND
    ensures d in t.fingerprints && !Reopens(t, op, d) ==>
              Apply(t, op).fingerprints[d].until == t.fingerprints[d].until
  {}

  lemma SpacedCons(o: Opening, os: seq<Opening>)
    requires Spaced(os) && (os != [] ==> os[0].at >= Sec(o.at + o.window) * SECOND)
    ensures Spaced([o] + os)
  {
    var all := [o] + os;
    forall i | 0 <= i < |all| - 1 ensures all[i + 1].at >= Sec(all[i].at + all[i].window) * SECOND {
      if i > 0 { assert all[i] == os[i - 1] && all[i + 1] == os[i - 1 + 1]; }
    }
  }

  /** The rate bound: with every window at least W, n openings of one fingerprint span more
      than (n - 1)(W - 1s), whatever fails, is retried or happens to the clock. */
  lemma RateBound(t: Tables, ops: seq<Op>, d: Digest, W: Time)
    requires var os := Openings(t, ops, d);
             |os| >= 2 && forall i :: 0 <= i < |os| ==> os[i].window >= W
    ensures var os := Openings(t, ops, d);
            (|os| - 1) * (W - SECOND) < os[|os| - 1].at - os[0].at
  {
    OpeningsSpaced(t, ops, d);
    SpacedSpan(Openings(t, ops, d), W);
  }

  lemma {:induction false} SpacedSpan(os: seq<Opening>, W: Time)
    requires |os| >= 2 && Spaced(os) && forall i :: 0 <= i < |os| ==> os[i].window >= W
    ensures (|os| - 1) * (W - SECOND) < os[|os| - 1].at - os[0].at
  {
    var n := |os|;
    FloorLoses(os[n - 2].at + os[n - 2].window);
    assert os[n - 1].at - os[n - 2].at > W - SECOND by { assert n - 2 < |os| - 1; assert os[n - 2 + 1] == os[n - 1]; }
    if n <= 2 {
    } else {
      SpacedSpan(os[..n - 1], W);
      assert (n - 1) * (W - SECOND) == (n - 2) * (W - SECOND) + (W - SECOND);
    }
  }

  predicate WindowsNonNegative(ops: seq<Op>) {
    forall i :: 0 <= i < |ops| && ops[i].DoObserve? ==> ops[i].o.window >= 0
  }

  /** The stored deadline never moves back, and the lifetime counter is exactly the number
      of committed sightings: it survives every reopening. */
  lemma {:induction false} DeadlineAndCounter(t: Tables, ops: seq<Op>, d: Digest)
    requires d in t.fingerprints
    ensures d in Run(t, ops).fingerprints
    ensures Run(t, ops).fingerprints[d].total == t.fingerprints[d].total + Sightings(t, ops, d)
    ensures WindowsNonNegative(ops) ==> Run(t, ops).fingerprints[d].until >= t.fingerprints[d].until
    decreases |ops|
  {
    if ops == [] {
    } else {
      if ops[0].DoObserve? {
        FloorLoses(ops[0].now + ops[0].o.window);
        if WindowsNonNegative(ops) { assert ops[0].o.window >= 0; }
      }
      assert WindowsNonNegative(ops) ==> WindowsNonNegative(ops[1..]);
      DeadlineAndCounter(Apply(t, ops[0]), ops[1..], d);
    }
  }

  /** A fingerprint that never existed starts at its first sighting. */
  lemma {:induction false} CounterFromScratch(t: Tables, ops: seq<Op>, d: Digest)
    requires d !in t.fingerprints
    ensures if Sightings(t, ops, d) == 0 then d !in Run(t, ops).fingerprints
            else d in Run(t, ops).fingerprints
                 && Run(t, ops).fingerprints[d].total == Sightings(t, ops, d)
    ensures Sightings(t, ops, d) > 0 ==> Openings(t, ops, d) != []
    decreases |ops|
  {
    if ops == [] {
    } else {
      if d in Apply(t, ops[0]).fingerprints {
        DeadlineAndCounter(Apply(t, ops[0]), ops[1..], d);
      } else {
        CounterFromScratch(Apply(t, ops[0]), ops[1..], d);
      }
    }
  }

  /** The bound is tight: the stored deadline loses the fraction of a second, so a window of
      W >= 1s that opens a nanosecond before a full second is over W - 1s + 1ns later. */
  lemma WindowsReopenEarly(t: Tables, o: Observation, second: nat)
    requires o.digest !in t.fingerprints && o.slug in t.projects && Has(t, o.incident)
    requires o.window >= SECOND && o.window % SECOND == 0
    ensures var now := second * SECOND + SECOND - 1;
            var again := now + o.window - SECOND + 1;
            Openings(t, [DoObserve(o, now), DoObserve(o, again)], o.digest)
            == [Opening(now, o.window), Opening(again, o.window)]
  {
    var now := second * SECOND + SECOND - 1;
    var again := now + o.window - SECOND + 1;
    var ops := [DoObserve(o, now), DoObserve(o, again)];
    var t1 := Apply(t, ops[0]);
    assert Sec(now + o.window) == second + o.window / SECOND;
    assert Sec(now + o.window) * SECOND == again;
    assert ops[1..] == [ops[1]] && ops[1..][1..] == [];
    assert Openings(t1, ops[1..], o.digest) == [Opening(again, o.window)];
  }
}
