/** The tables and their transactions. There is one writer, so each transaction is one
    atomic step: a function from tables to tables, and a method of Database that performs it
    or, when the statement or the commit fails, changes nothing. */
module Store {
  import opened Picks
  import opened Wrappers

  /** Instants are nanoseconds; a stored timestamp keeps whole seconds, rounded down. */
  type Time = int
  const SECOND: int := 1_000_000_000

  function Sec(t: Time): int { t / SECOND }

  /** A hash, which is taken to be injective: it is represented by what was hashed. */
  datatype Digest = Digest(preimage: string)

  datatype Project = Project(repo: string, branch: string, active: bool, quarantined: bool)

  datatype Incident = Incident(
    slug: string, source: string, sourceRef: string, kind: string, title: string, body: string,
    metadata: map<string, string>, fingerprint: Option<Digest>, state: string, reason: string,
    occurrences: nat, occurredAt: int, createdAt: int, updatedAt: int, closedAt: Option<int>)

  datatype Payload =
    | NoPayload
    | Occurrence(count: nat)
    | Triage(filter: string, detail: string, fingerprint: Digest, strategy: string, total: nat, first: nat)

  datatype EventRow = EventRow(
    id: nat, incident: nat, ts: int, kind: string, actor: string, from: string, to: string, payload: Payload)

  datatype FingerprintRow = FingerprintRow(
    slug: string, first: nat, lastSeen: int, until: int, total: nat, strategy: string, frames: seq<string>)

  /** Incident rows are never deleted, so the row with id k is the k-th inserted. */
  datatype Tables = Tables(
    projects: map<string, Project>, incidents: seq<Incident>, events: seq<EventRow>,
    fingerprints: map<Digest, FingerprintRow>)

  datatype Error = Io | ForeignKey | Stale

  const STATE_CHANGE := "state_change"
  const DUPLICATE := "duplicate"

  function EmptyTables(): Tables { Tables(map[], [], [], map[]) }

  predicate Has(t: Tables, id: nat) { 1 <= id <= |t.incidents| }

  function At(t: Tables, id: nat): Incident
    requires Has(t, id)
  {
    t.incidents[id - 1]
  }

  function Put(t: Tables, id: nat, row: Incident): Tables
    requires Has(t, id)
  {
    t.(incidents := t.incidents[id - 1 := row])
  }

  // ---- IngestIncident ----

  datatype IngestParams = IngestParams(
    slug: string, source: string, sourceRef: string, kind: string, title: string, body: string,
    state: string, reason: string, metadata: map<string, string>, occurredAt: Time)

  datatype IngestResult = IngestResult(id: nat, count: nat, state: string) {
    predicate IsNew() { count == 1 }
  }

  datatype Key = Key(source: string, sourceRef: string)

  function KeyOf(row: Incident): Key { Key(row.source, row.sourceRef) }

  /** The id the unique index holds for a key; 0 when there is none. */
  function Find(rows: seq<Incident>, k: Key): (id: nat)
    ensures id <= |rows|
    ensures id > 0 ==> KeyOf(rows[id - 1]) == k
    ensures id == 0 ==> forall i :: 0 <= i < |rows| ==> KeyOf(rows[i]) != k
  {
    if rows == [] then 0
    else if KeyOf(rows[|rows| - 1]) == k then |rows|
    else Find(rows[..|rows| - 1], k)
  }

  function NewIncident(p: IngestParams, now: Time): Incident {
    Incident(p.slug, p.source, p.sourceRef, p.kind, p.title, p.body, p.metadata, None, p.state, p.reason,
             1, Sec(p.occurredAt), Sec(now), Sec(now), None)
  }

  function Ingest(t: Tables, p: IngestParams, now: Time): (Tables, Result<IngestResult, Error>) {
    var id := Find(t.incidents, Key(p.source, p.sourceRef));
    if id > 0 then
      var row := At(t, id);
      var row' := row.(occurrences := row.occurrences + 1, updatedAt := Sec(now));
      (Put(t, id, row'), Ok(IngestResult(id, row'.occurrences, row'.state)))
    else if p.slug != "" && p.slug !in t.projects then (t, Err(ForeignKey))
    else
      (t.(incidents := t.incidents + [NewIncident(p, now)]),
       Ok(IngestResult(|t.incidents| + 1, 1, p.state)))
  }

  // ---- The audit trail ----

  function MaxId(rows: seq<EventRow>): nat {
    if rows == [] then 0
    else
      var m := MaxId(rows[..|rows| - 1]);
      if rows[|rows| - 1].id > m then rows[|rows| - 1].id else m
  }

  function Append(t: Tables, incident: nat, kind: string, actor: string, from: string, to: string,
                  payload: Payload, now: Time): (Tables, Result<nat, Error>)
  {
    if !Has(t, incident) then (t, Err(ForeignKey))
    else
      var id := MaxId(t.events) + 1;
      (t.(events := t.events + [EventRow(id, incident, Sec(now), kind, actor, from, to, payload)]), Ok(id))
  }

  predicate IsTerminalState(s: string) {
    s in {"filtered", "suppressed", "dismissed", "merged", "deployed", "rejected", "aborted", "failed", "escalated"}
  }

  datatype TransitionParams = TransitionParams(
    incident: nat, from: string, to: string, reason: string, actor: string, payload: Payload)

  /** Compare-and-set on the state, and the matching audit row, in one transaction. */
  function Transition(t: Tables, p: TransitionParams, now: Time): (Tables, Result<nat, Error>) {
    if !Has(t, p.incident) || At(t, p.incident).state != p.from then (t, Err(Stale))
    else
      var row := At(t, p.incident);
      var row' := row.(state := p.to, reason := p.reason, updatedAt := Sec(now),
                       closedAt := if IsTerminalState(p.to) then Some(Sec(now)) else row.closedAt);
      Append(Put(t, p.incident, row'), p.incident, STATE_CHANGE, p.actor, p.from, p.to, p.payload, now)
  }

  /** The rows with a larger id, in id order; a page is at most `limit` of them. */
  function After(rows: seq<EventRow>, id: nat): seq<EventRow> {
    if rows == [] then []
    else After(rows[..|rows| - 1], id) + if rows[|rows| - 1].id > id then [rows[|rows| - 1]] else []
  }

  function Page(rows: seq<EventRow>, id: nat, limit: nat): seq<EventRow> {
    var past := After(rows, id);
    if |past| <= limit then past else past[..limit]
  }

  const DEFAULT_LIMIT := 500

  function Limit(limit: int): nat { if limit <= 0 then DEFAULT_LIMIT else limit }

  function EventsAfter(t: Tables, id: nat, limit: int): seq<EventRow> { Page(t.events, id, Limit(limit)) }

  // ---- Fingerprints ----

  datatype Observation = Observation(
    digest: Digest, slug: string, strategy: string, frames: seq<string>, incident: nat, window: Time)

  /** What a sighting reports: the deadline is the stored one, or the exact instant that has
      just been rounded down to be stored. */
  datatype Outcome = Outcome(suppressed: bool, first: nat, total: nat, until: Time)

  function Observe(t: Tables, o: Observation, now: Time): (Tables, Result<Outcome, Error>) {
    if o.digest in t.fingerprints then
      var row := t.fingerprints[o.digest];
      var inWindow := now < row.until * SECOND;
      var until := if inWindow then row.until else Sec(now + o.window);
      var row' := row.(total := row.total + 1, lastSeen := Sec(now), until := until,
                       strategy := o.strategy, frames := o.frames);
      (t.(fingerprints := t.fingerprints[o.digest := row']),
       Ok(Outcome(inWindow, row.first, row'.total, if inWindow then row.until * SECOND else now + o.window)))
    else if o.slug !in t.projects || !Has(t, o.incident) then (t, Err(ForeignKey))
    else
      var until := Sec(now + o.window);
      var row := FingerprintRow(o.slug, o.incident, Sec(now), until, 1, o.strategy, o.frames);
      (t.(fingerprints := t.fingerprints[o.digest := row]), Ok(Outcome(false, o.incident, 1, now + o.window)))
  }

  function MarkFingerprint(t: Tables, id: nat, d: Digest): Tables {
    if Has(t, id) then Put(t, id, At(t, id).(fingerprint := Some(d))) else t
  }

  // ---- The queue: rows in state 'received', oldest first ----

  /** ORDER BY created_at ASC, id ASC. */
  predicate Older(t: Tables, a: nat, b: nat)
    requires Has(t, a) && Has(t, b)
  {
    At(t, a).createdAt < At(t, b).createdAt || (At(t, a).createdAt == At(t, b).createdAt && a < b)
  }

  function InsertInOrder(t: Tables, ids: seq<nat>, id: nat): (r: seq<nat>)
    requires Has(t, id) && forall i :: i in ids ==> Has(t, i)
    ensures multiset(r) == multiset(ids) + multiset{id}
    ensures forall i :: i in r <==> i in ids || i == id
  {
    if ids == [] || Older(t, ids[|ids| - 1], id) then ids + [id]
    else
      var r := InsertInOrder(t, ids[..|ids| - 1], id) + [ids[|ids| - 1]];
      assert ids == ids[..|ids| - 1] + [ids[|ids| - 1]];
      r
  }

  /** The received rows among the first k, in queue order. */
  function QueueUpTo(t: Tables, k: nat): (r: seq<nat>)
    requires k <= |t.incidents|
    ensures forall i :: i in r <==> 1 <= i <= k && At(t, i).state == "received"
  {
    if k == 0 then []
    else
      var r := QueueUpTo(t, k - 1);
      if At(t, k).state == "received" then InsertInOrder(t, r, k) else r
  }

  function Queue(t: Tables): seq<nat> { QueueUpTo(t, |t.incidents|) }

  // ---- Projects ----

  datatype ProjectRow = ProjectRow(slug: string, repo: string, branch: string)

  /** The upsert: only the registry's own columns change. */
  function Upsert(ps: map<string, Project>, r: ProjectRow): map<string, Project> {
    var quarantined := r.slug in ps && ps[r.slug].quarantined;
    ps[r.slug := Project(r.repo, r.branch, true, quarantined)]
  }

  function UpsertAll(ps: map<string, Project>, rows: seq<ProjectRow>): map<string, Project> {
    if rows == [] then ps else Upsert(UpsertAll(ps, rows[..|rows| - 1]), rows[|rows| - 1])
  }

  function Slugs(rows: seq<ProjectRow>): set<string> { set r | r in rows :: r.slug }

  function DeactivateUnlisted(ps: map<string, Project>, slugs: set<string>): map<string, Project> {
    map s | s in ps :: if s in slugs then ps[s] else ps[s].(active := false)
  }

  function Sync(t: Tables, rows: seq<ProjectRow>): Tables {
    t.(projects := DeactivateUnlisted(UpsertAll(t.projects, rows), Slugs(rows)))
  }

  function LastEntry(rows: seq<ProjectRow>, s: string): Option<ProjectRow> {
    if rows == [] then None
    else if rows[|rows| - 1].slug == s then Some(rows[|rows| - 1])
    else LastEntry(rows[..|rows| - 1], s)
  }

  /** Syncing never deletes a project and never clears a quarantine; the listed slugs, and
      no others, end up active, each with the columns of its last entry. */
  lemma SyncReconciles(t: Tables, rows: seq<ProjectRow>, s: string)
    ensures var ps := Sync(t, rows).projects;
            && (s in t.projects ==> s in ps && ps[s].quarantined == t.projects[s].quarantined)
            && (match LastEntry(rows, s)
                case Some(r) => s in ps && ps[s].active && ps[s].repo == r.repo && ps[s].branch == r.branch
                case None =>
                  (s in ps <==> s in t.projects) && (s in ps ==> ps[s] == t.projects[s].(active := false)))
  {
    UpsertAllAt(t.projects, rows, s);
  }

  lemma {:induction false} UpsertAllAt(ps: map<string, Project>, rows: seq<ProjectRow>, s: string)
    ensures LastEntry(rows, s).Some? <==> s in Slugs(rows)
    ensures var r := UpsertAll(ps, rows);
            var quarantined := s in ps && ps[s].quarantined;
            match LastEntry(rows, s)
            case Some(row) => s in r && r[s] == Project(row.repo, row.branch, true, quarantined)
            case None => (s in r <==> s in ps) && (s in ps ==> r[s] == ps[s])
  {
    if rows == [] {
    } else {
      UpsertAllAt(ps, rows[..|rows| - 1], s);
      assert rows == rows[..|rows| - 1] + [rows[|rows| - 1]];
    }
  }

  // ---- Facts about the queue ----

  ghost predicate InOrder(t: Tables, ids: seq<nat>) {
    && (forall i :: i in ids ==> Has(t, i))
    && forall i, j :: 0 <= i < j < |ids| ==> Older(t, ids[i], ids[j])
  }

  lemma {:induction false} InsertKeepsOrder(t: Tables, ids: seq<nat>, id: nat)
    requires InOrder(t, ids) && Has(t, id) && id !in ids
    ensures InOrder(t, InsertInOrder(t, ids, id))
  {
    if ids == [] || Older(t, ids[|ids| - 1], id) {
    } else {
      var last := ids[|ids| - 1];
      var init := ids[..|ids| - 1];
      InsertKeepsOrder(t, init, id);
      var r := InsertInOrder(t, init, id);
      forall i | 0 <= i < |r| ensures Older(t, r[i], last) {
        assert r[i] in r;
      }
    }
  }

  /** The queue lists every received row exactly once, oldest first. */
  lemma {:induction false} QueueInOrder(t: Tables, k: nat)
    requires k <= |t.incidents|
    ensures InOrder(t, QueueUpTo(t, k))
  {
    if k == 0 {
    } else {
      QueueInOrder(t, k - 1);
      if At(t, k).state == "received" { InsertKeepsOrder(t, QueueUpTo(t, k - 1), k); }
    }
  }

  ghost predicate ClockForward(t: Tables) {
    forall a, b :: Has(t, a) && Has(t, b) && a < b ==> At(t, a).createdAt <= At(t, b).createdAt
  }

  ghost predicate Increasing(ids: seq<nat>) {
    forall i, j :: 0 <= i < j < |ids| ==> ids[i] < ids[j]
  }

  lemma PositionsFollow(ids: seq<nat>, i: nat, j: nat)
    requires Increasing(ids) && i < |ids| && j < |ids| && ids[i] < ids[j]
    ensures i < j
  {}

  /** Oldest first is smallest id first exactly when the clock never went back between two
      incidents that both wait. */
  lemma QueueIncreasing(t: Tables)
    ensures Increasing(Queue(t)) <==>
            forall a, b :: a in Queue(t) && b in Queue(t) && a < b ==> At(t, a).createdAt <= At(t, b).createdAt
    ensures ClockForward(t) ==> Increasing(Queue(t))
  {
    QueueInOrder(t, |t.incidents|);
    var q := Queue(t);
    if Increasing(q) {
      forall a, b | a in q && b in q && a < b ensures At(t, a).createdAt <= At(t, b).createdAt {
        var i :| 0 <= i < |q| && q[i] == a;
        var j :| 0 <= j < |q| && q[j] == b;
        PositionsFollow(q, i, j);
        assert Older(t, q[i], q[j]);
      }
    } else {
      var i, j :| 0 <= i < j < |q| && q[i] >= q[j];
      assert Older(t, q[i], q[j]) && q[i] in q && q[j] in q;
    }
  }

  // ---- What each transaction does, and that it does no more ----

  ghost predicate OthersSame(t: Tables, t': Tables, id: nat) {
    |t.incidents| <= |t'.incidents| && forall i :: Has(t, i) && i != id ==> At(t', i) == At(t, i)
  }

  predicate HasKey(t: Tables, k: Key) { exists i :: 0 <= i < |t.incidents| && KeyOf(t.incidents[i]) == k }

  /** An ingest is refused only when it would insert a row under an unknown project. It
      stores a new key as it came, or counts one more occurrence of a known one and touches
      nothing else of it; what it reports is what the row then says. */
  lemma IngestEffect(t: Tables, p: IngestParams, now: Time)
    ensures var k := Key(p.source, p.sourceRef);
            var (t', r) := Ingest(t, p, now);
            && t' == t.(incidents := t'.incidents)
            && (r.Err? <==> !HasKey(t, k) && p.slug != "" && p.slug !in t.projects)
            && (r.Err? ==> t' == t)
            && (r.Ok? ==>
                  var id := r.value.id;
                  && Has(t', id) && KeyOf(At(t', id)) == k && OthersSame(t, t', id)
                  && r.value.count == At(t', id).occurrences && r.value.state == At(t', id).state
                  && (if HasKey(t, k) then
                        && |t'.incidents| == |t.incidents| && KeyOf(At(t, id)) == k
                        && At(t', id) == At(t, id).(occurrences := At(t, id).occurrences + 1, updatedAt := Sec(now))
                      else
                        && |t'.incidents| == |t.incidents| + 1 && id == |t.incidents| + 1
                        && At(t', id).slug == p.slug && At(t', id).kind == p.kind && At(t', id).title == p.title
                        && At(t', id).body == p.body && At(t', id).metadata == p.metadata && At(t', id).state == p.state
                        && At(t', id).reason == p.reason && At(t', id).occurrences == 1
                        && At(t', id).occurredAt == Sec(p.occurredAt)
                        && At(t', id).createdAt == At(t', id).updatedAt == Sec(now)
                        && At(t', id).fingerprint.None? && At(t', id).closedAt.None?))
  {
    assert HasKey(t, Key(p.source, p.sourceRef)) ==> Find(t.incidents, Key(p.source, p.sourceRef)) > 0;
  }

  /** A transition happens exactly when the incident is there and in the expected state. It
      changes that row's state, reason and times, and adds the one audit row that says so. */
  lemma TransitionEffect(t: Tables, p: TransitionParams, now: Time)
    ensures var (t', r) := Transition(t, p, now);
            && (r.Ok? <==> Has(t, p.incident) && At(t, p.incident).state == p.from)
            && (r.Err? ==> t' == t)
            && (r.Ok? ==>
                  var row, row' := At(t, p.incident), At(t', p.incident);
                  && t'.projects == t.projects && t'.fingerprints == t.fingerprints
                  && |t'.incidents| == |t.incidents| && OthersSame(t, t', p.incident)
                  && row'.state == p.to && row'.reason == p.reason && row'.updatedAt == Sec(now)
                  && row'.closedAt == (if IsTerminalState(p.to) then Some(Sec(now)) else row.closedAt)
                  && row' == row.(state := row'.state, reason := row'.reason, updatedAt := row'.updatedAt,
                                  closedAt := row'.closedAt)
                  && t'.events == t.events + [EventRow(r.value, p.incident, Sec(now), STATE_CHANGE, p.actor, p.from,
                                                       p.to, p.payload)]
                  && forall e :: e in t.events ==> e.id < r.value)
  {
    MaxIdIsMax(t.events);
  }

  lemma {:induction false} MaxIdIsMax(rows: seq<EventRow>)
    ensures forall e :: e in rows ==> e.id <= MaxId(rows)
    ensures forall i :: 0 <= i < |rows| ==> rows[i].id <= MaxId(rows)
  {
    if rows == [] {
    } else {
      MaxIdIsMax(rows[..|rows| - 1]);
      assert rows == rows[..|rows| - 1] + [rows[|rows| - 1]];
    }
  }

  /** A sighting is suppressed exactly before the stored deadline. The first one fixes the
      project and the first incident for good; each one counts, refreshes the evidence, and
      moves the deadline exactly when it is not suppressed. */
  lemma ObserveEffect(t: Tables, o: Observation, now: Time)
    ensures var (t', r) := Observe(t, o, now);
            var known := o.digest in t.fingerprints;
            && (r.Err? <==> !known && !(o.slug in t.projects && Has(t, o.incident)))
            && (r.Err? ==> t' == t)
            && (r.Ok? ==>
                  && t' == t.(fingerprints := t'.fingerprints) && o.digest in t'.fingerprints
                  && (forall d :: d != o.digest ==> (d in t'.fingerprints <==> d in t.fingerprints))
                  && (forall d :: d != o.digest && d in t.fingerprints ==> t'.fingerprints[d] == t.fingerprints[d])
                  && var row := t'.fingerprints[o.digest];
                  && (r.value.suppressed <==> known && now < t.fingerprints[o.digest].until * SECOND)
                  && row.slug == (if known then t.fingerprints[o.digest].slug else o.slug)
                  && row.first == (if known then t.fingerprints[o.digest].first else o.incident)
                  && row.total == 1 + (if known then t.fingerprints[o.digest].total else 0)
                  && row.until == (if r.value.suppressed then t.fingerprints[o.digest].until else Sec(now + o.window))
                  && row.lastSeen == Sec(now) && row.strategy == o.strategy && row.frames == o.frames
                  && r.value.first == row.first && r.value.total == row.total && Sec(r.value.until) == row.until
                  && (!r.value.suppressed ==> r.value.until == now + o.window))
  {}

  // ---- The database ----

  /** A transaction that the environment lets commit, or that fails and rolls back. */
  function Commit<R>(t: Tables, done: (Tables, Result<R, Error>), io: bool): (Tables, Result<R, Error>) {
    if io then done else (t, Err(Io))
  }

  class Database {
    var projects: map<string, Project>
    var incidents: seq<Incident>
    var events: seq<EventRow>
    var fingerprints: map<Digest, FingerprintRow>

    function Snapshot(): Tables
      reads this
    {
      Tables(projects, incidents, events, fingerprints)
    }

    constructor ()
      ensures Snapshot() == EmptyTables()
    {
      projects, incidents, events, fingerprints := map[], [], [], map[];
    }

    method IngestIncident(p: IngestParams, now: Time, io: bool) returns (r: Result<IngestResult, Error>)
      modifies this`incidents
      ensures (Snapshot(), r) == Commit(old(Snapshot()), Ingest(old(Snapshot()), p, now), io)
    {
      if !io { return Err(Io); }
      var id := Find(incidents, Key(p.source, p.sourceRef));
      if id > 0 {
        var row := incidents[id - 1];
        incidents := incidents[id - 1 := row.(occurrences := row.occurrences + 1, updatedAt := Sec(now))];
        return Ok(IngestResult(id, row.occurrences + 1, row.state));
      }
      if p.slug != "" && p.slug !in projects { return Err(ForeignKey); }
      incidents := incidents + [NewIncident(p, now)];
      r := Ok(IngestResult(|incidents|, 1, p.state));
    }

    method AppendEvent(incident: nat, kind: string, actor: string, from: string, to: string,
                       payload: Payload, now: Time, io: bool) returns (r: Result<nat, Error>)
      modifies this`events
      ensures (Snapshot(), r) ==
              Commit(old(Snapshot()), Append(old(Snapshot()), incident, kind, actor, from, to, payload, now), io)
      ensures r.Ok? <==> io && 1 <= incident <= |incidents|
      ensures r.Ok? ==> events == old(events) + [EventRow(r.value, incident, Sec(now), kind, actor, from, to, payload)]
      ensures r.Ok? ==> forall e :: e in old(events) ==> e.id < r.value
    {
      MaxIdIsMax(events);
      if !io { return Err(Io); }
      if !(1 <= incident <= |incidents|) { return Err(ForeignKey); }
      var id := MaxId(events) + 1;
      events := events + [EventRow(id, incident, Sec(now), kind, actor, from, to, payload)];
      r := Ok(id);
    }

    method TransitionIncident(p: TransitionParams, now: Time, io: bool) returns (r: Result<nat, Error>)
      modifies this`incidents, this`events
      ensures (Snapshot(), r) == Commit(old(Snapshot()), Transition(old(Snapshot()), p, now), io)
      ensures r.Err? ==> Snapshot() == old(Snapshot())
      ensures r.Ok? <==> io && 1 <= p.incident <= |old(incidents)| && old(incidents)[p.incident - 1].state == p.from
      ensures r.Ok? ==>
                && projects == old(projects) && fingerprints == old(fingerprints)
                && incidents == old(incidents)[p.incident - 1 :=
                     old(incidents)[p.incident - 1].(
                       state := p.to, reason := p.reason, updatedAt := Sec(now),
                       closedAt := if p.to in {"filtered", "suppressed", "dismissed", "merged", "deployed", "rejected",
                                               "aborted", "failed", "escalated"}
                                   then Some(Sec(now)) else old(incidents)[p.incident - 1].closedAt)]
                && events == old(events) +
                             [EventRow(r.value, p.incident, Sec(now), "state_change", p.actor, p.from, p.to, p.payload)]
                && forall e :: e in old(events) ==> e.id < r.value
    {
      if !io { return Err(Io); }
      if !(1 <= p.incident <= |incidents|) || incidents[p.incident - 1].state != p.from { return Err(Stale); }
      var row := incidents[p.incident - 1];
      var closed := if IsTerminalState(p.to) then Some(Sec(now)) else row.closedAt;
      incidents := incidents[p.incident - 1 :=
        row.(state := p.to, reason := p.reason, updatedAt := Sec(now), closedAt := closed)];
      r := AppendEvent(p.incident, STATE_CHANGE, p.actor, p.from, p.to, p.payload, now, true);
    }

    method ObserveFingerprint(o: Observation, now: Time, io: bool) returns (r: Result<Outcome, Error>)
      modifies this`fingerprints
      ensures (Snapshot(), r) == Commit(old(Snapshot()), Observe(old(Snapshot()), o, now), io)
    {
      if !io { return Err(Io); }
      if o.digest !in fingerprints {
        if o.slug !in projects || !(1 <= o.incident <= |incidents|) { return Err(ForeignKey); }
        var until := now + o.window;
        fingerprints := fingerprints[o.digest :=
          FingerprintRow(o.slug, o.incident, Sec(now), Sec(until), 1, o.strategy, o.frames)];
        return Ok(Outcome(false, o.incident, 1, until));
      }
      var row := fingerprints[o.digest];
      var until := row.until * SECOND;
      var inWindow := now < until;
      if !inWindow { until := now + o.window; }
      fingerprints := fingerprints[o.digest :=
        row.(total := row.total + 1, lastSeen := Sec(now), until := Sec(until),
             strategy := o.strategy, frames := o.frames)];
      r := Ok(Outcome(inWindow, row.first, row.total + 1, until));
    }

    method Mark(id: nat, d: Digest, io: bool) returns (ok: bool)
      modifies this`incidents
      ensures ok == io
      ensures Snapshot() == if io then MarkFingerprint(old(Snapshot()), id, d) else old(Snapshot())
    {
      if io && 1 <= id <= |incidents| {
        incidents := incidents[id - 1 := incidents[id - 1].(fingerprint := Some(d))];
      }
      ok := io;
    }

    /** Scans the audit trail for the rows past an id. */
    method EventsPast(id: nat, limit: int) returns (out: seq<EventRow>, ghost picks: seq<nat>)
      ensures out == EventsAfter(Snapshot(), id, limit)
      ensures FirstOf(picks, if limit <= 0 then 500 else limit, |events|, Where(events, (e: EventRow) => e.id > id))
      ensures Gives(events, picks, out)
    {
      var most := limit;
      if limit <= 0 { most := DEFAULT_LIMIT; }
      out := [];
      picks := PagePicks(events, id, most);
      var i := 0;
      while i < |events| && |out| < most
        invariant 0 <= i <= |events| && |out| <= most && out == After(events[..i], id)
      {
        assert events[..i + 1][..i] == events[..i];
        if events[i].id > id { out := out + [events[i]]; }
        i := i + 1;
      }
      AfterPrefix(events, i, id);
      assert events[..|events|] == events;
    }

    /** The whole reconciliation is one transaction. */
    method SyncProjects(rows: seq<ProjectRow>, io: bool)
      modifies this`projects
      ensures Snapshot() == if io then Sync(old(Snapshot()), rows) else old(Snapshot())
    {
      if !io { return; }
      var i := 0;
      var slugs: set<string> := {};
      while i < |rows|
        invariant 0 <= i <= |rows| && projects == UpsertAll(old(projects), rows[..i]) && slugs == Slugs(rows[..i])
      {
        assert rows[..i + 1] == rows[..i] + [rows[i]];
        projects := Upsert(projects, rows[i]);
        slugs := slugs + {rows[i].slug};
        i := i + 1;
      }
      assert rows[..|rows|] == rows;
      projects := DeactivateUnlisted(projects, slugs);
    }
  }

  /** A page is the first rows with a larger id, in order. */
  lemma PagePicks(rows: seq<EventRow>, id: nat, limit: nat) returns (picks: seq<nat>)
    requires limit > 0
    ensures FirstOf(picks, limit, |rows|, Where(rows, (e: EventRow) => e.id > id))
    ensures Gives(rows, picks, Page(rows, id, limit))
  {
    AfterKept(rows, id);
    picks := KeptFew(rows, (e: EventRow) => e.id > id, limit);
  }

  lemma {:induction false} AfterKept(rows: seq<EventRow>, id: nat)
    ensures After(rows, id) == Kept(rows, (e: EventRow) => e.id > id)
  {
    if rows == [] {
    } else {
      AfterKept(rows[..|rows| - 1], id);
    }
  }

  lemma {:induction false} AfterPrefix(rows: seq<EventRow>, i: nat, id: nat)
    requires i <= |rows|
    ensures After(rows[..i], id) <= After(rows, id)
  {
    if i < |rows| {
      AfterPrefix(rows[..|rows| - 1], i, id);
      assert rows[..|rows| - 1][..i] == rows[..i];
    } else {
      assert rows[..i] == rows;
    }
  }
}
