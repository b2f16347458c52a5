/** Runs: any number of callers performing any transactions with any arguments, in any
    order. A transaction that fails changes nothing, so it needs no step of its own. */
module StoreRuns {
  import opened Wrappers
  import opened Store

  datatype Op =
    | DoIngest(p: IngestParams, now: Time)
    | DoDuplicate(incident: nat, payload: Payload, now: Time)
    | DoTransition(t: TransitionParams, now: Time)
    | DoObserve(o: Observation, now: Time)
    | DoMark(incident: nat, digest: Digest)
    | DoSync(rows: seq<ProjectRow>)

  function Apply(t: Tables, op: Op): Tables {
    match op
    case DoIngest(p, now) => Ingest(t, p, now).0
    case DoDuplicate(id, payload, now) => Append(t, id, DUPLICATE, "system", "", "", payload, now).0
    case DoTransition(p, now) => Transition(t, p, now).0
    case DoObserve(o, now) => Observe(t, o, now).0
    case DoMark(id, d) => MarkFingerprint(t, id, d)
    case DoSync(rows) => Sync(t, rows)
  }

  function Run(t: Tables, ops: seq<Op>): Tables
    decreases |ops|
  {
    if ops == [] then t else Run(Apply(t, ops[0]), ops[1..])
  }

  // ---- The audit trail determines the state ----

  predicate Moves(row: EventRow, id: nat) { row.incident == id && row.kind == STATE_CHANGE }

  /** Follows one incident's state_change rows from a state; None if they do not chain. */
  function Replay(rows: seq<EventRow>, id: nat, state: string): Option<string> {
    if rows == [] then Some(state)
    else match Replay(rows[..|rows| - 1], id, state)
      case None => None
      case Some(s) =>
        var row := rows[|rows| - 1];
        if !Moves(row, id) then Some(s) else if row.from == s then Some(row.to) else None
  }

  /** When the last of an incident's state_change rows into a terminal state was written. */
  function ClosedBy(rows: seq<EventRow>, id: nat, closed: Option<int>): Option<int> {
    if rows == [] then closed
    else
      var row := rows[|rows| - 1];
      if Moves(row, id) && IsTerminalState(row.to) then Some(row.ts)
      else ClosedBy(rows[..|rows| - 1], id, closed)
  }

  ghost predicate IdsIncrease(rows: seq<EventRow>) {
    forall i, j :: 0 <= i < j < |rows| ==> rows[i].id < rows[j].id
  }

  predicate SameOrigin(a: Incident, b: Incident) {
    && KeyOf(a) == KeyOf(b) && a.slug == b.slug && a.kind == b.kind && a.title == b.title && a.body == b.body
    && a.metadata == b.metadata && a.createdAt == b.createdAt && a.occurrences <= b.occurrences
  }

  ghost predicate RowsKept(a: seq<Incident>, b: seq<Incident>) {
    |a| <= |b| && forall i :: 0 <= i < |a| ==> SameOrigin(a[i], b[i])
  }

  ghost predicate TrailGrows(a: seq<EventRow>, b: seq<EventRow>) {
    a <= b && (IdsIncrease(a) ==> IdsIncrease(b))
  }

  predicate SameGroup(a: FingerprintRow, b: FingerprintRow) { a.first == b.first && a.slug == b.slug }

  ghost predicate GroupsKept(a: map<Digest, FingerprintRow>, b: map<Digest, FingerprintRow>) {
    forall d :: d in a ==> d in b && SameGroup(a[d], b[d])
  }

  /** What any transactions may do to the tables. */
  ghost predicate Advances(t: Tables, t': Tables) {
    && RowsKept(t.incidents, t'.incidents) && TrailGrows(t.events, t'.events)
    && GroupsKept(t.fingerprints, t'.fingerprints) && t.projects.Keys <= t'.projects.Keys
  }

  lemma AppendAdvances(t: Tables, id: nat, kind: string, actor: string, from: string, to: string,
                       payload: Payload, now: Time)
    ensures TrailGrows(t.events, Append(t, id, kind, actor, from, to, payload, now).0.events)
  {
    MaxIdIsMax(t.events);
  }

  lemma ApplyAdvances(t: Tables, op: Op)
    ensures Advances(t, Apply(t, op))
  {
    match op
    case DoIngest(p, now) => IngestAdvances(t, p, now);
    case DoDuplicate(id, payload, now) => AppendAdvances(t, id, DUPLICATE, "system", "", "", payload, now);
    case DoTransition(p, now) => TransitionAdvances(t, p, now);
    case DoObserve(o, now) => ObserveAdvances(t, o, now);
    case DoSync(rows) =>
      forall s | s in t.projects ensures s in Apply(t, op).projects { SyncReconciles(t, rows, s); }
    case DoMark(_, _) =>
  }

  lemma IngestAdvances(t: Tables, p: IngestParams, now: Time)
    ensures Advances(t, Ingest(t, p, now).0)
  {}

  lemma ObserveAdvances(t: Tables, o: Observation, now: Time)
    ensures Advances(t, Observe(t, o, now).0)
  {}

  lemma TransitionAdvances(t: Tables, p: TransitionParams, now: Time)
    ensures Advances(t, Transition(t, p, now).0)
  {
    if Has(t, p.incident) && At(t, p.incident).state == p.from {
      AppendAdvances(t, p.incident, STATE_CHANGE, p.actor, p.from, p.to, p.payload, now);
    }
  }

  lemma ReplaySnoc(rows: seq<EventRow>, row: EventRow, id: nat, state: string, closed: Option<int>)
    ensures Replay(rows + [row], id, state) ==
            (match Replay(rows, id, state)
             case None => None
             case Some(s) => if !Moves(row, id) then Some(s) else if row.from == s then Some(row.to) else None)
    ensures ClosedBy(rows + [row], id, closed) ==
            if Moves(row, id) && IsTerminalState(row.to) then Some(row.ts) else ClosedBy(rows, id, closed)
  {
    assert (rows + [row])[..|rows|] == rows;
  }

  /** The rows written since `from`. */
  function Since(t: Tables, from: Tables): seq<EventRow>
    requires from.events <= t.events
  {
    t.events[|from.events|..]
  }

  ghost predicate Explained(from: Tables, t: Tables, id: nat)
    requires Has(from, id) && Advances(from, t)
  {
    && Replay(Since(t, from), id, At(from, id).state) == Some(At(t, id).state)
    && ClosedBy(Since(t, from), id, At(from, id).closedAt) == At(t, id).closedAt
  }

  lemma AdvancesTransitive(a: Tables, b: Tables, c: Tables)
    requires Advances(a, b) && Advances(b, c)
    ensures Advances(a, c)
  {}

  /** One transaction adds at most one audit row; it is a state_change row exactly when it
      moved that incident. */
  lemma ApplyTrail(t: Tables, op: Op, id: nat)
    requires Has(t, id)
    ensures var t' := Apply(t, op);
            && Advances(t, t')
            && (t'.events == t.events ==>
                  At(t', id).state == At(t, id).state && At(t', id).closedAt == At(t, id).closedAt)
            && (t'.events != t.events ==>
                  var row := t'.events[|t.events|];
                  && t'.events == t.events + [row]
                  && (if Moves(row, id) then
                        row.from == At(t, id).state && row.to == At(t', id).state
                        && At(t', id).closedAt == (if IsTerminalState(row.to) then Some(row.ts) else At(t, id).closedAt)
                      else At(t', id).state == At(t, id).state && At(t', id).closedAt == At(t, id).closedAt))
  {
    ApplyAdvances(t, op);
  }

  lemma ExplainedStep(from: Tables, t: Tables, op: Op, id: nat)
    requires Has(from, id) && Advances(from, t) && Explained(from, t, id)
    ensures Advances(from, Apply(t, op)) && Explained(from, Apply(t, op), id)
  {
    var t' := Apply(t, op);
    ApplyTrail(t, op, id);
    AdvancesTransitive(from, t, t');
    if t'.events != t.events {
      var row := t'.events[|t.events|];
      assert Since(t', from) == Since(t, from) + [row];
      ReplaySnoc(Since(t, from), row, id, At(from, id).state, At(from, id).closedAt);
    }
  }

  lemma {:induction false} RunExplained(from: Tables, t: Tables, ops: seq<Op>, id: nat)
    requires Has(from, id) && Advances(from, t) && Explained(from, t, id)
    ensures Advances(from, Run(t, ops)) && Explained(from, Run(t, ops), id)
    decreases |ops|
  {
    if ops == [] {
    } else {
      ExplainedStep(from, t, ops[0], id);
      RunExplained(from, Apply(t, ops[0]), ops[1..], id);
    }
  }

  /** From the tables in which an incident was just inserted (or any later ones), whatever
      is done to them: its state_change rows chain from the state it had to the one it has,
      closed_at is the time of the last one that reached a terminal state, nothing already
      written changes, and row ids increase in commit order. */
  lemma AuditDeterminesState(t: Tables, ops: seq<Op>, id: nat)
    requires Has(t, id) && IdsIncrease(t.events)
    ensures var t' := Run(t, ops);
            && Advances(t, t') && IdsIncrease(t'.events)
            && Replay(Since(t', t), id, At(t, id).state) == Some(At(t', id).state)
            && ClosedBy(Since(t', t), id, At(t, id).closedAt) == At(t', id).closedAt
  {
    assert Since(t, t) == [];
    RunExplained(t, t, ops, id);
  }

  // ---- One row per key ----

  function Count(t: Tables, k: Key): nat {
    var id := Find(t.incidents, k);
    if id == 0 then 0 else At(t, id).occurrences
  }

  ghost predicate UniqueKeys(t: Tables) {
    forall i, j :: 0 <= i < j < |t.incidents| ==> KeyOf(t.incidents[i]) != KeyOf(t.incidents[j])
  }

  /** The committed ingests of a key during a run. */
  function Ingests(t: Tables, ops: seq<Op>, k: Key): nat
    decreases |ops|
  {
    if ops == [] then 0
    else
      (if ops[0].DoIngest? && Key(ops[0].p.source, ops[0].p.sourceRef) == k && Ingest(t, ops[0].p, ops[0].now).1.Ok?
       then 1 else 0)
      + Ingests(Apply(t, ops[0]), ops[1..], k)
  }

  lemma FindUnique(rows: seq<Incident>, id: nat)
    requires 1 <= id <= |rows|
    requires forall i, j :: 0 <= i < j < |rows| ==> KeyOf(rows[i]) != KeyOf(rows[j])
    ensures Find(rows, KeyOf(rows[id - 1])) == id
  {
    FoundAt(rows, KeyOf(rows[id - 1]));
    SameRow(rows, Find(rows, KeyOf(rows[id - 1])), id);
  }

  lemma FoundAt(rows: seq<Incident>, k: Key)
    ensures (exists i :: 0 <= i < |rows| && KeyOf(rows[i]) == k) ==> Find(rows, k) > 0
    ensures Find(rows, k) > 0 ==> KeyOf(rows[Find(rows, k) - 1]) == k
  {}

  lemma SameRow(rows: seq<Incident>, a: nat, b: nat)
    requires 1 <= a <= |rows| && 1 <= b <= |rows| && KeyOf(rows[a - 1]) == KeyOf(rows[b - 1])
    requires forall i, j :: 0 <= i < j < |rows| ==> KeyOf(rows[i]) != KeyOf(rows[j])
    ensures a == b
  {}

  ghost predicate Counted(t: Tables) {
    UniqueKeys(t) && forall i :: 0 <= i < |t.incidents| ==> t.incidents[i].occurrences >= 1
  }

  ghost predicate SameCounts(a: seq<Incident>, b: seq<Incident>) {
    |a| == |b| && forall i :: 0 <= i < |a| ==> KeyOf(a[i]) == KeyOf(b[i]) && a[i].occurrences == b[i].occurrences
  }

  lemma SameCountsCount(t: Tables, t': Tables, k: Key)
    requires Counted(t) && SameCounts(t.incidents, t'.incidents)
    ensures Counted(t') && Count(t', k) == Count(t, k)
  {
    var id := Find(t.incidents, k);
    if id > 0 { FindUnique(t'.incidents, id); }
  }

  lemma OthersKeepCounts(t: Tables, op: Op)
    requires !op.DoIngest?
    ensures SameCounts(t.incidents, Apply(t, op).incidents)
  {}

  lemma CountIngest(t: Tables, p: IngestParams, now: Time, k: Key)
    requires Counted(t)
    ensures var (t', r) := Ingest(t, p, now);
            && Counted(t')
            && Count(t', k) == Count(t, k) + (if r.Ok? && Key(p.source, p.sourceRef) == k then 1 else 0)
            && (r.Ok? ==> r.value.count == Count(t', Key(p.source, p.sourceRef)))
  {
    var key := Key(p.source, p.sourceRef);
    var (t', r) := Ingest(t, p, now);
    if Find(t.incidents, key) > 0 {
      CountAgain(t, p, now, k);
      CountAgain(t, p, now, key);
    } else if r.Ok? {
      assert t'.incidents[..|t.incidents|] == t.incidents;
    }
  }

  lemma CountAgain(t: Tables, p: IngestParams, now: Time, k: Key)
    requires Counted(t) && Find(t.incidents, Key(p.source, p.sourceRef)) > 0
    ensures var t' := Ingest(t, p, now).0;
            && Counted(t')
            && Count(t', k) == Count(t, k) + (if Key(p.source, p.sourceRef) == k then 1 else 0)
  {
    var id := Find(t.incidents, Key(p.source, p.sourceRef));
    CountedOnce(t, Ingest(t, p, now).0, id, k);
  }

  /** One row is counted once more, and no key changes. */
  lemma CountedOnce(t: Tables, t': Tables, id: nat, k: Key)
    requires Counted(t) && Has(t, id) && |t'.incidents| == |t.incidents|
    requires forall i :: 0 <= i < |t.incidents| ==>
               KeyOf(t'.incidents[i]) == KeyOf(t.incidents[i])
               && t'.incidents[i].occurrences == t.incidents[i].occurrences + if i == id - 1 then 1 else 0
    ensures Counted(t') && Count(t', k) == Count(t, k) + if KeyOf(At(t, id)) == k then 1 else 0
  {
    var found := Find(t.incidents, k);
    if found > 0 { FindUnique(t'.incidents, found); }
    FindUnique(t.incidents, id);
  }

  /** Idempotent ingestion: each key has at most one row, and its occurrence count grows by
      exactly the committed ingests of the key. */
  lemma {:induction false} OneRowPerKey(t: Tables, ops: seq<Op>, k: Key)
    requires Counted(t)
    ensures Counted(Run(t, ops))
    ensures Count(Run(t, ops), k) == Count(t, k) + Ingests(t, ops, k)
    decreases |ops|
  {
    if ops == [] {
    } else {
      if ops[0].DoIngest? {
        CountIngest(t, ops[0].p, ops[0].now, k);
      } else {
        OthersKeepCounts(t, ops[0]);
        SameCountsCount(t, Apply(t, ops[0]), k);
      }
      OneRowPerKey(Apply(t, ops[0]), ops[1..], k);
    }
  }

  /** An ingest is reported as new exactly when no ingest of its key was committed before. */
  lemma NewIffFirst(ops: seq<Op>, p: IngestParams, now: Time)
    requires Ingest(Run(EmptyTables(), ops), p, now).1.Ok?
    ensures Ingest(Run(EmptyTables(), ops), p, now).1.value.IsNew()
            <==> Ingests(EmptyTables(), ops, Key(p.source, p.sourceRef)) == 0
  {
    var k := Key(p.source, p.sourceRef);
    OneRowPerKey(EmptyTables(), ops, k);
    CountIngest(Run(EmptyTables(), ops), p, now, k);
  }

  // ---- Foreign keys ----

  ghost predicate ReferencesHold(t: Tables) {
    && (forall i :: 0 <= i < |t.incidents| ==> t.incidents[i].slug == "" || t.incidents[i].slug in t.projects)
    && (forall d :: d in t.fingerprints ==> t.fingerprints[d].slug in t.projects && Has(t, t.fingerprints[d].first))
    && (forall i :: 0 <= i < |t.events| ==> Has(t, t.events[i].incident))
  }

  lemma ReferencesStep(t: Tables, op: Op)
    requires ReferencesHold(t)
    ensures ReferencesHold(Apply(t, op))
  {
    ApplyAdvances(t, op);
    if op.DoIngest? || op.DoObserve? {
      ReferencesAdded(t, op);
    } else {
      ReferencesKept(t, op);
    }
  }

  lemma ReferencesAdded(t: Tables, op: Op)
    requires ReferencesHold(t) && (op.DoIngest? || op.DoObserve?)
    ensures ReferencesHold(Apply(t, op))
  {}

  lemma ReferencesKept(t: Tables, op: Op)
    requires ReferencesHold(t) && Advances(t, Apply(t, op)) && !op.DoIngest? && !op.DoObserve?
    ensures ReferencesHold(Apply(t, op))
  {}

  /** No sequence of transactions leaves an incident, a fingerprint or an audit row naming
      something that is not there. */
  lemma {:induction false} ReferencesAlwaysHold(t: Tables, ops: seq<Op>)
    requires ReferencesHold(t)
    ensures ReferencesHold(Run(t, ops))
    decreases |ops|
  {
    if ops == [] {
    } else {
      ReferencesStep(t, ops[0]);
      ReferencesAlwaysHold(Apply(t, ops[0]), ops[1..]);
    }
  }
}
