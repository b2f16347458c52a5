/** The process loop. The environment decides, incident by incident, which reads and commits
    succeed and whether the loop is cancelled. */
module Orchestrator {
  import opened Wrappers
  import opened Store
  import opened Fingerprint
  import opened Text
  import opened Config
  import opened Runtime
  import Tier0
  import P = Pipeline
  import opened PipelineIngest
  import opened PipelineStorm
  import opened PipelineGroups
  import opened PipelineFifo
  import opened PipelineWait

  datatype Luck = Luck(cancelled: bool, now: Time, project: bool, mark: bool, sight: bool, move: bool)

  /** Nothing the environment does stands in the way of this incident. */
  predicate AllGood(l: Luck) { l.project && l.mark && l.sight && l.move }

  function RootsFor(r: Registry, slug: string): seq<string> {
    match Lookup(r.defaults, r.projects, slug)
    case None => []
    case Some(e) => e.roots
  }

  function WindowFor(r: Registry, slug: string): Time {
    match Lookup(r.defaults, r.projects, slug)
    case None => r.defaults.window
    case Some(e) => e.window
  }

  function InWindow(t: Tables, d: Digest, now: Time): bool {
    d in t.fingerprints && now < t.fingerprints[d].until * SECOND
  }

  function Author(row: Incident): string {
    if "author_email" in row.metadata then row.metadata["author_email"] else ""
  }

  /** What the chain is asked about an incident. */
  function SubjectOf(t: Tables, row: Incident, suppressed: bool): Tier0.Subject {
    Tier0.Subject(row.title, row.body, Author(row), row.slug in t.projects && t.projects[row.slug].quarantined,
                  suppressed)
  }

  function ReasonOf(early: Option<string>, suppressed: bool): string {
    match early { case Some(name) => name case None => if suppressed then "Fingerprint" else "" }
  }

  /** What the sighting reports is what the stored row says. */
  predicate Reported(t: Tables, d: Digest, out: Outcome) {
    d in t.fingerprints && out.total == t.fingerprints[d].total && out.first == t.fingerprints[d].first
  }

  class Orchestrator {
    const sys: System
    const registry: Registry
    const patterns: Patterns
    const transient: seq<Tier0.Pattern>
    const bot: string
    const lower: string -> string
    const batchSize: nat
    /** What was handed to the hub, after what earlier processes handed to it. */
    var sent: seq<EventRow>
    ghost const before: seq<EventRow>
    /** The source roots that this registry, and those before it, gave each project. */
    ghost const allowed: (string, seq<string>) -> bool

    /** Every mark ever made is what the incident's own text gives. */
    ghost predicate Valid()
      reads this, sys, sys.db
    {
      && sys.Valid() && batchSize > 0 && sys.world.published == before + sent
      && Allows() && OwnMarks(P.Start(), sys.past, patterns, allowed)
    }

    ghost predicate Allows() {
      forall slug :: allowed(slug, RootsFor(registry, slug))
    }

    constructor (sys: System, registry: Registry, patterns: Patterns, transient: seq<Tier0.Pattern>, bot: string,
                 lower: string -> string, batchSize: nat, ghost allowed: (string, seq<string>) -> bool)
      requires sys.Valid() && batchSize > 0 && OwnMarks(P.Start(), sys.past, patterns, allowed)
      requires forall slug :: allowed(slug, RootsFor(registry, slug))
      ensures Valid() && this.sys == sys && sent == []
      ensures this.registry == registry && this.patterns == patterns && this.allowed == allowed
    {
      this.sys, this.registry, this.patterns, this.transient := sys, registry, patterns, transient;
      this.bot, this.lower, this.batchSize, this.allowed := bot, lower, batchSize, allowed;
      sent, before := [], sys.world.published;
    }

    // ---- What becomes of an incident ----

    function GroupHere(row: Incident): Grouping { GroupOf(row, RootsFor(registry, row.slug), patterns) }

    /** What Tier 0 makes of a row, told from the row and the tables: a quarantined project, a
        transient pattern, the sentinel's own author, a sighting inside the stored window, in
        this order. */
    ghost predicate Verdict(t: Tables, row: Incident, d: Digest, now: Time, state: string, reason: string,
                            detail: string) {
      var author := if "author_email" in row.metadata then lower(TrimSpace(row.metadata["author_email"]))
                    else lower(TrimSpace(""));
      if row.slug in t.projects && t.projects[row.slug].quarantined then
        state == "filtered" && reason == "Quarantined" && detail == "project is quarantined"
      else if exists i :: 0 <= i < |transient| && Hits(row, i) then
        && state == "filtered" && reason == "Transient"
        && exists i :: 0 <= i < |transient| && Hits(row, i) && (forall j :: 0 <= j < i ==> !Hits(row, j))
                       && detail == "matched transient pattern " + transient[i].text
      else if author != "" && lower(TrimSpace(bot)) != "" && author == lower(TrimSpace(bot)) then
        state == "filtered" && reason == "SelfInflicted" && detail == "authored by the sentinel's own bot identity"
      else if d in t.fingerprints && now < t.fingerprints[d].until * SECOND then
        && state == "suppressed" && reason == "Fingerprint"
        && detail == "fingerprint seen within its suppression window"
      else
        state == "triaging" && reason == "" && detail == ""
    }

    /** A transient pattern matches the row's title or body. */
    predicate Hits(row: Incident, i: nat)
      requires i < |transient|
    {
      transient[i].matches(row.title) || transient[i].matches(row.body)
    }

    /** The one audit row that a verdict leaves. */
    ghost predicate Audited(e: EventRow, id: nat, row: Incident, f: FingerprintRow, g: Grouping, now: Time) {
      && e.incident == id && e.ts == Sec(now) && e.kind == STATE_CHANGE && e.actor == "tier0"
      && e.from == "received" && e.to == row.state
      && e.payload.Triage? && e.payload.filter == row.reason && e.payload.fingerprint == Hash(g)
      && e.payload.strategy == g.strategy && e.payload.total == f.total && e.payload.first == f.first
    }

    /** From before an incident's first commit to after its last: it carries the fingerprint of
        its own grouping and Tier 0's verdict, is closed unless it goes on to triage, and one
        audit row says so. */
    ghost predicate Settled(t: Tables, t': Tables, id: nat, now: Time)
      requires Has(t, id)
    {
      var g := GroupHere(At(t, id));
      && Has(t', id) && Hash(g) in t'.fingerprints && At(t', id).fingerprint == Some(Hash(g))
      && |t'.events| == |t.events| + 1 && t.events == t'.events[..|t.events|]
      && Audited(t'.events[|t.events|], id, At(t', id), t'.fingerprints[Hash(g)], g, now)
      && Verdict(t, At(t, id), Hash(g), now, At(t', id).state, At(t', id).reason,
                 t'.events[|t.events|].payload.detail)
      && At(t', id).closedAt == if At(t', id).state == "triaging" then At(t, id).closedAt else Some(Sec(now))
    }

    /** The transition that the chain's verdict asks for. */
    ghost predicate Judged(t: Tables, t': Tables, id: nat, g: Grouping, out: Outcome, subject: Tier0.Subject,
                           now: Time) {
      && IsReceived(t, id)
      && t' == Transition(t, P.MoveParams(id, g, out, Tier0.EarlyFilter(transient, bot, lower, subject),
                                          Tier0.ReasonFor(transient, bot, lower, subject)), now).0
    }

    lemma ChainTells(t: Tables, row: Incident, d: Digest, now: Time)
      ensures var suppressed := InWindow(t, d, now);
              var early := Tier0.EarlyFilter(transient, bot, lower, SubjectOf(t, row, suppressed));
              Verdict(t, row, d, now, P.Target(early, suppressed), ReasonOf(early, suppressed),
                      Tier0.ReasonFor(transient, bot, lower, SubjectOf(t, row, suppressed)))
    {
      var subject := SubjectOf(t, row, InWindow(t, d, now));
      if Tier0.Transient(transient, subject) {
        var i := Tier0.TransientNamesFirst(transient, subject);
        assert Hits(row, i);
        forall j | 0 <= j < i ensures !Hits(row, j) { assert !Tier0.Matches(transient[j], subject); }
      }
    }

    lemma SettledFrom(t: Tables, t1: Tables, t2: Tables, id: nat, out: Outcome, now: Time)
      requires Has(t, id) && SightedOnly(t, t1, id)
      requires var g := GroupHere(At(t, id));
               && Reported(t1, Hash(g), out) && out.suppressed == InWindow(t, Hash(g), now)
               && At(t1, id).fingerprint == Some(Hash(g))
               && Judged(t1, t2, id, g, out, SubjectOf(t, At(t, id), out.suppressed), now)
      ensures Settled(t, t2, id, now)
    {
      var g := GroupHere(At(t, id));
      var subject := SubjectOf(t, At(t, id), out.suppressed);
      var p := P.MoveParams(id, g, out, Tier0.EarlyFilter(transient, bot, lower, subject),
                            Tier0.ReasonFor(transient, bot, lower, subject));
      TransitionEffect(t1, p, now);
      ChainTells(t, At(t, id), Hash(g), now);
      assert p.reason == ReasonOf(Tier0.EarlyFilter(transient, bot, lower, subject), out.suppressed);
    }

    /** The two commits that sight a row. */
    function Sighting(row: Incident, now: Time): (steps: seq<P.Step>)
      ensures Smooth(steps)
    {
      [P.Mark(GroupHere(row)), P.Sight(WindowFor(registry, row.slug), now)]
    }

    /** The transition and its notice. */
    function Settling(subject: Tier0.Subject, now: Time): seq<P.Step> {
      [P.Move(Tier0.EarlyFilter(transient, bot, lower, subject), Tier0.ReasonFor(transient, bot, lower, subject), now),
       P.Publish]
    }

    /** The steps of an incident that nothing stands in the way of. */
    function FullSteps(t: Tables, id: nat, now: Time): seq<P.Step>
      requires Has(t, id)
    {
      var row := At(t, id);
      Sighting(row, now) + Settling(SubjectOf(t, row, InWindow(t, Hash(GroupHere(row)), now)), now)
    }

    lemma MarkIsOwn(w: P.World, id: nat)
      requires Allows() && w.wk.phase == P.Taken(id) && Has(w.t, id)
      ensures var g := GroupHere(At(w.t, id));
              && MarksOwn(w, g, patterns, allowed)
              && P.Next(w, P.Mark(g)) ==
                 w.(t := MarkFingerprint(w.t, id, Hash(g)), wk := w.wk.(phase := P.Marked(id, g)))
    {
      var row := At(w.t, id);
      assert allowed(row.slug, RootsFor(registry, row.slug));
      assert OwnGrouping(row, GroupHere(row), patterns, allowed);
    }

    // ---- The steps ----

    /** The machine takes the step that the tables have taken. */
    ghost method Follow(s: P.Step)
      requires sys.Coherent() && P.Next(sys.world, s).t == sys.db.Snapshot()
      requires OwnMarks(P.Start(), sys.past, patterns, allowed)
      requires s.Mark? ==> MarksOwn(sys.world, s.g, patterns, allowed)
      modifies sys
      ensures sys.Valid() && sys.world == P.Next(old(sys.world), s) && sys.past == old(sys.past) + [s]
      ensures OwnMarks(P.Start(), sys.past, patterns, allowed)
    {
      OwnNext(sys.past, s, patterns, allowed);
      sys.Follow(s);
    }

    /** An error: the incident stays where it is. */
    ghost method GiveUp(id: nat)
      requires Valid() && Current(sys.world.wk.phase) == [id]
      modifies sys
      ensures Valid() && sys.world.wk == P.Worker(old(sys.world).wk.batch, P.Idle)
      ensures sys.world.t == old(sys.world).t
      ensures sys.past == old(sys.past) + [P.Abandon] && WorksOn(old(sys.world), [P.Abandon], {id})
    {
      GaveUpOne(sys.world, id);
      Follow(P.Abandon);
    }

    /** Groups by failing job and step, or by error class and stack frames. */
    method Group(row: Incident, roots: seq<string>) returns (g: Grouping)
      ensures g == GroupOf(row, roots, patterns)
      ensures GroupedBy(row, roots, patterns, g)
    {
      GroupOfIs(row, roots, patterns);
      if row.kind == WORKFLOW_FAILED {
        var workflow := if "workflow" in row.metadata then row.metadata["workflow"] else "";
        var digest;
        g, digest := WorkflowFingerprint(row.slug, workflow, DecodeSteps(row.metadata), patterns.normalize);
      } else {
        var frames := ExtractFrames(row.body, patterns);
        var digest;
        g, digest := ComputeFingerprint(row.slug, ErrorClass(row.title, row.body, patterns), frames, roots);
      }
    }

    /** The window and the source roots that apply to a project. */
    method Settings(slug: string) returns (window: Time, roots: seq<string>)
      ensures forall i: nat :: FirstWith(registry.projects, slug, i) ==>
                && window == (match registry.projects[i].window case Some(w) => w case None => registry.defaults.window)
                && roots == (match registry.projects[i].roots case Some(rs) => rs case None => [])
      ensures (forall p :: p in registry.projects ==> p.slug != slug) ==>
                window == registry.defaults.window && roots == []
      ensures window == WindowFor(registry, slug) && roots == RootsFor(registry, slug)
    {
      window, roots := registry.defaults.window, [];
      var e := EffectiveProject(registry, slug);
      if e.Some? { window, roots := e.value.window, e.value.roots; }
    }

    /** Stores the fingerprint in the row. */
    method MarkRow(id: nat, g: Grouping, luck: Luck) returns (ok: bool)
      requires Valid() && sys.world.wk.phase == P.Taken(id) && Has(sys.world.t, id)
      requires g == GroupHere(At(sys.world.t, id))
      modifies sys, sys.db`incidents
      ensures Valid() && ok == luck.mark && sys.world.wk.batch == old(sys.world).wk.batch
      ensures sys.world.wk.phase == if ok then P.Marked(id, g) else P.Idle
      ensures sys.world.t == if ok then MarkFingerprint(old(sys.world).t, id, Hash(g)) else old(sys.world).t
      ensures sys.past == old(sys.past) + if ok then [P.Mark(g)] else [P.Abandon]
      ensures !ok ==> WorksOn(old(sys.world), [P.Abandon], {id})
    {
      MarkIsOwn(sys.world, id);
      ok := sys.db.Mark(id, Hash(g), luck.mark);
      if ok {
        Follow(P.Mark(g));
      } else {
        GiveUp(id);
      }
    }

    /** Records the sighting; what comes back says whether it falls in a window. */
    method Observe(id: nat, g: Grouping, window: Time, luck: Luck) returns (out: Option<Outcome>)
      requires Valid() && sys.world.wk.phase == P.Marked(id, g) && Has(sys.world.t, id)
      requires At(sys.world.t, id).slug == g.slug
      modifies sys, sys.db`fingerprints
      ensures Valid() && sys.world.wk.batch == old(sys.world).wk.batch
      ensures sys.world.wk.phase == match out { case Some(o) => P.Seen(id, g, o) case None => P.Idle }
      ensures sys.world.t == old(sys.world).t.(fingerprints := sys.world.t.fingerprints)
      ensures out.Some? == luck.sight
      ensures out.Some? ==>
                && out.value.suppressed == InWindow(old(sys.world).t, Hash(g), luck.now)
                && Reported(sys.world.t, Hash(g), out.value)
      ensures sys.past == old(sys.past) + if out.Some? then [P.Sight(window, luck.now)] else [P.Abandon]
      ensures out.None? ==> WorksOn(old(sys.world), [P.Abandon], {id})
    {
      InHandReceived(sys.past, id);
      var r := sys.db.ObserveFingerprint(Observation(Hash(g), g.slug, g.strategy, g.frames, id, window), luck.now,
                                         luck.sight);
      if r.Ok? {
        Follow(P.Sight(window, luck.now));
        out := Some(r.value);
      } else {
        GiveUp(id);
        out := None;
      }
    }

    /** The transition that the verdict of the chain asks for. */
    method Decide(id: nat, g: Grouping, out: Outcome, subject: Tier0.Subject) returns (p: TransitionParams)
      requires subject.suppressed == out.suppressed
      ensures p == P.MoveParams(id, g, out, Tier0.EarlyFilter(transient, bot, lower, subject),
                                Tier0.ReasonFor(transient, bot, lower, subject))
    {
      var d := Tier0.Evaluate(Tier0.NewChain(transient, bot, lower), subject);
      Tier0.ChainVerdict(transient, bot, lower, subject);
      var target := match d.verdict
                    case Filtered => "filtered"
                    case Suppressed => "suppressed"
                    case Pass => "triaging";
      var payload := Triage(d.filter, d.reason, Hash(g), g.strategy, out.total, out.first);
      p := TransitionParams(id, "received", target, d.filter, "tier0", payload);
    }

    /** Commits the transition. With one worker it is never stale. */
    method Move(id: nat, g: Grouping, out: Outcome, p: TransitionParams, ghost early: Option<string>,
                ghost detail: string, luck: Luck)
      returns (row: Option<EventRow>)
      requires Valid() && sys.world.wk.phase == P.Seen(id, g, out)
      requires p == P.MoveParams(id, g, out, early, detail)
      modifies sys, sys.db`incidents, sys.db`events
      ensures Valid() && row.Some? == luck.move && sys.world.wk.batch == old(sys.world).wk.batch
      ensures sys.world.wk.phase == match row { case Some(r) => P.Moved(r) case None => P.Idle }
      ensures sys.world.t == if row.Some? then Transition(old(sys.world).t, p, luck.now).0 else old(sys.world).t
      ensures Has(sys.world.t, id) && old(At(sys.world.t, id).state) == "received"
      ensures row.Some? ==> sys.world.t.events == old(sys.world).t.events + [row.value]
      ensures sys.past == old(sys.past) + [if row.Some? then P.Move(early, detail, luck.now) else P.Abandon]
      ensures row.None? ==> WorksOn(old(sys.world), [P.Abandon], {id})
    {
      InHandReceived(sys.past, id);
      var r := sys.db.TransitionIncident(p, luck.now, luck.move);
      if r.Ok? {
        row := Some(sys.db.events[|sys.db.events| - 1]);
        Follow(P.Move(early, detail, luck.now));
      } else {
        row := None;
        GiveUp(id);
      }
    }

    /** Hands the committed row to the hub. */
    method Publish(row: EventRow)
      requires Valid() && sys.world.wk.phase == P.Moved(row)
      modifies this`sent, sys
      ensures Valid() && sent == old(sent) + [row] && sys.world.wk == P.Worker(old(sys.world).wk.batch, P.Idle)
      ensures sys.world.t == old(sys.world).t && sys.past == old(sys.past) + [P.Publish]
    {
      sent := sent + [row];
      Follow(P.Publish);
    }

    /** The first two commits: the fingerprint of the row's own grouping, and its sighting. */
    method Sight(id: nat, row: Incident, luck: Luck)
      returns (g: Grouping, out: Option<Outcome>, ghost steps: seq<P.Step>)
      requires Valid() && sys.world.wk.phase == P.Taken(id) && IsReceived(sys.world.t, id) && At(sys.world.t, id) == row
      modifies sys, sys.db`incidents, sys.db`fingerprints
      ensures Valid() && out.Some? == (luck.mark && luck.sight) && sys.world.wk.batch == old(sys.world).wk.batch
      ensures g == GroupHere(row)
      ensures sys.world.wk.phase == match out { case Some(o) => P.Seen(id, g, o) case None => P.Idle }
      ensures sys.past == old(sys.past) + steps && (out.None? ==> WorksOn(old(sys.world), steps, {id}))
      ensures SightedOnly(old(sys.world).t, sys.world.t, id)
      ensures out.Some? ==> Sighted(old(sys.world).t, sys.world.t, id, g, out.value, luck.now)
      ensures out.Some? ==> steps == Sighting(row, luck.now)
    {
      var window, roots := Settings(row.slug);
      g := Group(row, roots);
      out, steps := MarkAndObserve(id, g, window, luck);
    }

    /** The sighting reports the stored window, and the row carries the fingerprint. */
    ghost predicate Sighted(t: Tables, t': Tables, id: nat, g: Grouping, out: Outcome, now: Time) {
      && out.suppressed == InWindow(t, Hash(g), now) && Reported(t', Hash(g), out)
      && Has(t', id) && At(t', id).fingerprint == Some(Hash(g))
    }

    method MarkAndObserve(id: nat, g: Grouping, window: Time, luck: Luck)
      returns (out: Option<Outcome>, ghost steps: seq<P.Step>)
      requires Valid() && sys.world.wk.phase == P.Taken(id) && IsReceived(sys.world.t, id)
      requires g == GroupHere(At(sys.world.t, id))
      modifies sys, sys.db`incidents, sys.db`fingerprints
      ensures Valid() && out.Some? == (luck.mark && luck.sight) && sys.world.wk.batch == old(sys.world).wk.batch
      ensures sys.world.wk.phase == match out { case Some(o) => P.Seen(id, g, o) case None => P.Idle }
      ensures sys.past == old(sys.past) + steps && (out.None? ==> WorksOn(old(sys.world), steps, {id}))
      ensures SightedOnly(old(sys.world).t, sys.world.t, id)
      ensures out.Some? ==> Sighted(old(sys.world).t, sys.world.t, id, g, out.value, luck.now)
      ensures out.Some? ==> steps == [P.Mark(g), P.Sight(window, luck.now)]
    {
      ghost var p0, t0 := sys.past, sys.world.t;
      var marked := MarkRow(id, g, luck);
      if !marked { return None, [P.Abandon]; }
      out := Observe(id, g, window, luck);
      MarkedAndSighted(t0, sys.world.t, id, Hash(g));
      if out.None? {
        SmoothThen(p0, [P.Mark(g)], p0 + [P.Mark(g)], [P.Abandon], {id});
        return None, [P.Mark(g)] + [P.Abandon];
      }
      steps := [P.Mark(g), P.Sight(window, luck.now)];
    }

    /** The verdict, its transition and the notice of it. */
    method Settle(id: nat, g: Grouping, out: Outcome, subject: Tier0.Subject, luck: Luck)
      returns (ok: bool, ghost steps: seq<P.Step>)
      requires Valid() && sys.world.wk.phase == P.Seen(id, g, out) && subject.suppressed == out.suppressed
      modifies this`sent, sys, sys.db
      ensures Valid() && ok == luck.move && sys.world.wk == P.Worker(old(sys.world).wk.batch, P.Idle)
      ensures sys.past == old(sys.past) + steps && WorksOn(old(sys.world), steps, if ok then {} else {id})
      ensures LeavesOnly(old(sys.world).t, sys.world.t, id, ok)
      ensures ok ==> Judged(old(sys.world).t, sys.world.t, id, g, out, subject, luck.now)
      ensures ok ==> steps == Settling(subject, luck.now)
      ensures |sent| == |old(sent)| + if ok then 1 else 0
    {
      ghost var w := sys.world;
      var p := Decide(id, g, out, subject);
      ghost var early := Tier0.EarlyFilter(transient, bot, lower, subject);
      var moved := Move(id, g, out, p, early, Tier0.ReasonFor(transient, bot, lower, subject), luck);
      if moved.None? { return false, [P.Abandon]; }
      Publish(moved.value);
      steps := Settling(subject, luck.now);
      NoGiveUp(w, steps, {});
      ok := true;
    }

    /** What is left to do for an incident that has been sighted since the tables were t0. */
    method Conclude(id: nat, row: Incident, g: Grouping, out: Outcome, quarantined: bool, luck: Luck, ghost t0: Tables)
      returns (ok: bool, ghost steps: seq<P.Step>)
      requires Valid() && sys.world.wk.phase == P.Seen(id, g, out) && Has(t0, id) && At(t0, id) == row
      requires SightedOnly(t0, sys.world.t, id) && At(sys.world.t, id).fingerprint == Some(Hash(GroupHere(row)))
      requires out.suppressed == InWindow(t0, Hash(GroupHere(row)), luck.now) && g == GroupHere(row)
      requires Reported(sys.world.t, Hash(g), out)
      requires quarantined == (row.slug in t0.projects && t0.projects[row.slug].quarantined)
      modifies this`sent, sys, sys.db
      ensures Valid() && ok == luck.move && sys.world.wk == P.Worker(old(sys.world).wk.batch, P.Idle)
      ensures sys.past == old(sys.past) + steps && WorksOn(old(sys.world), steps, if ok then {} else {id})
      ensures LeavesOnly(t0, sys.world.t, id, ok)
      ensures ok ==> Settled(t0, sys.world.t, id, luck.now)
      ensures ok ==> Sighting(row, luck.now) + steps == FullSteps(t0, id, luck.now)
      ensures |sent| == |old(sent)| + if ok then 1 else 0
    {
      ghost var t1 := sys.world.t;
      var author := if "author_email" in row.metadata then row.metadata["author_email"] else "";
      var subject := Tier0.Subject(row.title, row.body, author, quarantined, out.suppressed);
      ok, steps := Settle(id, g, out, subject, luck);
      SightedLeaves(t0, t1, sys.world.t, id, ok);
      if ok { SettledFrom(t0, t1, sys.world.t, id, out, luck.now); }
    }

    /** The same, told from before the sighting. */
    method Finish(id: nat, row: Incident, g: Grouping, out: Outcome, quarantined: bool, luck: Luck,
                  ghost t0: Tables, ghost p0: seq<P.Step>)
      returns (ok: bool, ghost steps: seq<P.Step>)
      requires Valid() && sys.world.wk.phase == P.Seen(id, g, out) && Has(t0, id) && At(t0, id) == row
      requires SightedOnly(t0, sys.world.t, id) && At(sys.world.t, id).fingerprint == Some(Hash(GroupHere(row)))
      requires out.suppressed == InWindow(t0, Hash(GroupHere(row)), luck.now) && g == GroupHere(row)
      requires Reported(sys.world.t, Hash(g), out)
      requires quarantined == (row.slug in t0.projects && t0.projects[row.slug].quarantined)
      requires sys.past == p0 + Sighting(row, luck.now)
      modifies this`sent, sys, sys.db
      ensures Valid() && ok == luck.move && sys.world.wk == P.Worker(old(sys.world).wk.batch, P.Idle)
      ensures sys.past == p0 + steps && WorksOn(P.Run(P.Start(), p0), steps, if ok then {} else {id})
      ensures LeavesOnly(t0, sys.world.t, id, ok)
      ensures ok ==> Settled(t0, sys.world.t, id, luck.now) && steps == FullSteps(t0, id, luck.now)
      ensures |sent| == |old(sent)| + if ok then 1 else 0
    {
      ghost var p1, last := sys.past, [];
      ok, last := Conclude(id, row, g, out, quarantined, luck, t0);
      SmoothThen(p0, Sighting(row, luck.now), p1, last, if ok then {} else {id});
      steps := Sighting(row, luck.now) + last;
    }

    /** From the first commit to the notice of the last. */
    method Attempt(id: nat, row: Incident, quarantined: bool, luck: Luck) returns (ok: bool, ghost steps: seq<P.Step>)
      requires Valid() && sys.world.wk.phase == P.Taken(id) && IsReceived(sys.world.t, id) && At(sys.world.t, id) == row
      requires quarantined == (row.slug in sys.world.t.projects && sys.world.t.projects[row.slug].quarantined)
      modifies this`sent, sys, sys.db
      ensures Valid() && ok == (luck.mark && luck.sight && luck.move)
      ensures sys.world.wk == P.Worker(old(sys.world).wk.batch, P.Idle)
      ensures sys.past == old(sys.past) + steps && WorksOn(old(sys.world), steps, if ok then {} else {id})
      ensures LeavesOnly(old(sys.world).t, sys.world.t, id, ok)
      ensures ok ==> Settled(old(sys.world).t, sys.world.t, id, luck.now)
      ensures ok ==> steps == FullSteps(old(sys.world).t, id, luck.now)
      ensures |sent| == |old(sent)| + if ok then 1 else 0
    {
      ghost var t0, p0 := sys.world.t, sys.past;
      var g, out;
      g, out, steps := Sight(id, row, luck);
      if out.None? { return false, steps; }
      ok, steps := Finish(id, row, g, out.value, quarantined, luck, t0, p0);
    }

    /** One incident. It leaves the queue exactly when nothing went wrong; then it is marked
        with its own grouping, sighted, judged by the chain and announced, in that order.
        Nothing else leaves the queue. */
    method Process(id: nat, luck: Luck) returns (ok: bool, ghost steps: seq<P.Step>)
      requires Valid() && sys.world.wk.phase == P.Taken(id)
      modifies this`sent, sys, sys.db
      ensures Valid() && ok == AllGood(luck) && sys.world.wk == P.Worker(old(sys.world).wk.batch, P.Idle)
      ensures sys.past == old(sys.past) + steps && WorksOn(old(sys.world), steps, if ok then {} else {id})
      ensures Has(old(sys.world).t, id) && LeavesOnly(old(sys.world).t, sys.world.t, id, ok)
      ensures ok ==> Settled(old(sys.world).t, sys.world.t, id, luck.now)
      ensures ok ==> steps == FullSteps(old(sys.world).t, id, luck.now)
      ensures |sent| == |old(sent)| + if ok then 1 else 0
    {
      InHandReceived(sys.past, id);
      if !luck.project {
        GiveUp(id);
        return false, [P.Abandon];
      }
      var row := sys.db.incidents[id - 1];
      var quarantined := row.slug in sys.db.projects && sys.db.projects[row.slug].quarantined;
      ok, steps := Attempt(id, row, quarantined, luck);
    }

    /** Takes the next incident of the batch and processes it. */
    method TakeNext(id: nat, luck: Luck) returns (ok: bool, ghost steps: seq<P.Step>)
      requires Valid() && sys.world.wk.phase.Idle? && sys.world.wk.batch != [] && sys.world.wk.batch[0] == id
      modifies this`sent, sys, sys.db
      ensures Valid() && ok == AllGood(luck) && sys.world.wk == P.Worker(old(sys.world).wk.batch[1..], P.Idle)
      ensures sys.past == old(sys.past) + steps
      ensures WorksOn(P.Run(P.Start(), old(sys.past)), steps, if ok then {} else {id})
      ensures IsReceived(old(sys.world).t, id) && LeavesOnly(old(sys.world).t, sys.world.t, id, ok)
      ensures ok ==> Settled(old(sys.world).t, sys.world.t, id, luck.now)
      ensures |sent| == |old(sent)| + if ok then 1 else 0
    {
      ghost var w := sys.world;
      NextIsReceived(sys.past);
      Follow(P.Take);
      ghost var more;
      ok, more := Process(id, luck);
      steps := [P.Take] + more;
      RunOne(w, P.Take);
      WorksOnAfter(w, [P.Take], more, if ok then {} else {id});
    }

    /** One incident of a batch: settled if nothing goes wrong, and left in the queue if not. */
    ghost predicate Dealt(t: Tables, t': Tables, id: nat, luck: Luck) {
      Has(t, id) && LeavesOnly(t, t', id, AllGood(luck)) && (AllGood(luck) ==> Settled(t, t', id, luck.now))
    }

    /** The tables before the first n incidents of a batch, between each two, and after. */
    ghost predicate Chain(ts: seq<Tables>, q: seq<nat>, lucks: seq<Luck>, n: nat)
      requires n <= |q| && n <= |lucks|
    {
      |ts| == n + 1 && forall i :: 0 <= i < n ==> Dealt(ts[i], ts[i + 1], q[i], lucks[i])
    }

    /** The batch has led from the first tables to the second. */
    ghost predicate Linked(ts: seq<Tables>, t: Tables, t': Tables, q: seq<nat>, lucks: seq<Luck>, n: nat)
      requires n <= |q| && n <= |lucks|
    {
      Chain(ts, q, lucks, n) && ts[0] == t && ts[n] == t'
    }

    lemma LinkedMore(ts: seq<Tables>, t0: Tables, t: Tables, t': Tables, q: seq<nat>, lucks: seq<Luck>, n: nat)
      requires n < |q| && n < |lucks| && Linked(ts, t0, t, q, lucks, n) && Dealt(t, t', q[n], lucks[n])
      ensures Linked(ts + [t'], t0, t', q, lucks, n + 1)
    {}

    /** The first i incidents of the listed batch are dealt with. */
    ghost predicate Draining(q: seq<nat>, lucks: seq<Luck>, i: nat, moved: nat, w0: P.World, p0: seq<P.Step>,
                             steps: seq<P.Step>, ts: seq<Tables>, sent0: nat)
      reads this, sys, sys.db
    {
      && i <= |q| <= |lucks| && Valid() && sys.world.wk == P.Worker(q[i..], P.Idle)
      && w0 == P.Run(P.Start(), p0) && sys.past == p0 + steps
      && Progress(w0, sys.world.t, steps, batchSize, q, lucks, i) && Linked(ts, w0.t, sys.world.t, q, lucks, i)
      && moved == Moved(lucks, i) && |sent| == sent0 + moved
    }

    lemma DrainStart(q: seq<nat>, lucks: seq<Luck>, w0: P.World, p0: seq<P.Step>)
      requires Valid() && sys.world.wk == P.Worker(q, P.Idle) && sys.world.t == w0.t && |q| <= |lucks|
      requires w0 == P.Run(P.Start(), p0) && sys.past == p0 + [P.List(batchSize)]
      requires InPass(w0, [P.List(batchSize)], batchSize, {})
      ensures Draining(q, lucks, 0, 0, w0, p0, [P.List(batchSize)], [w0.t], |sent|)
    {
      HandledNone(w0.t, q, lucks);
      assert Failed(q, lucks, 0) == {} && Moved(lucks, 0) == 0 && q[0..] == q;
      assert Chain([w0.t], q, lucks, 0);
    }

    /** The incident at position i of the listed batch. */
    method DrainOne(q: seq<nat>, lucks: seq<Luck>, i: nat, moved: nat, ghost w0: P.World, ghost p0: seq<P.Step>,
                    ghost so: seq<P.Step>, ghost ts: seq<Tables>, ghost sent0: nat)
      returns (more: nat, ghost steps: seq<P.Step>, ghost now: seq<Tables>)
      requires i < |q| && Draining(q, lucks, i, moved, w0, p0, so, ts, sent0)
      modifies this`sent, sys, sys.db
      ensures Draining(q, lucks, i + 1, more, w0, p0, steps, now, sent0)
    {
      ghost var t1 := sys.world.t;
      ghost var last;
      var ok;
      ok, last := TakeNext(q[i], lucks[i]);
      ProgressOne(w0, p0, t1, sys.world.t, so, last, batchSize, q, lucks, i);
      LinkedMore(ts, w0.t, t1, sys.world.t, q, lucks, i);
      steps, now := so + last, ts + [sys.world.t];
      more := if ok then moved + 1 else moved;
    }

    /** The loop is cancelled: what is left of the batch is forgotten. */
    ghost method Stop(q: seq<nat>, lucks: seq<Luck>, i: nat, moved: nat, w0: P.World, p0: seq<P.Step>,
                      so: seq<P.Step>, ts: seq<Tables>, sent0: nat)
      requires i < |q| && Draining(q, lucks, i, moved, w0, p0, so, ts, sent0)
      modifies sys
      ensures Valid() && sys.world.wk == P.Worker([], P.Idle) && sys.past == p0 + (so + [P.Cancel])
      ensures Handled(w0.t, sys.world.t, q, lucks, i) && Linked(ts, w0.t, sys.world.t, q, lucks, i)
      ensures sys.world.t == old(sys.world).t
    {
      Follow(P.Cancel);
    }

    /** Works through a listed batch until it is used up or the loop is cancelled. */
    method Drain(q: seq<nat>, lucks: seq<Luck>, ghost w0: P.World, ghost p0: seq<P.Step>)
      returns (moved: nat, ghost steps: seq<P.Step>, ghost done: nat, ghost ts: seq<Tables>)
      requires Valid() && sys.world.wk == P.Worker(q, P.Idle) && sys.world.t == w0.t && |q| <= |lucks|
      requires w0 == P.Run(P.Start(), p0) && sys.past == p0 + [P.List(batchSize)]
      requires InPass(w0, [P.List(batchSize)], batchSize, {})
      modifies this`sent, sys, sys.db
      ensures Valid() && sys.world.wk == P.Worker([], P.Idle) && sys.past == p0 + steps && done <= |q|
      ensures Handled(w0.t, sys.world.t, q, lucks, done)
      ensures Linked(ts, w0.t, sys.world.t, q, lucks, done)
      ensures moved == Moved(lucks, done) && |sent| == |old(sent)| + moved
      ensures if done < |q| then lucks[done].cancelled else InPass(w0, steps, batchSize, Failed(q, lucks, done))
    {
      steps, moved, done, ts := [P.List(batchSize)], 0, 0, [w0.t];
      ghost var sent0 := |sent|;
      DrainStart(q, lucks, w0, p0);
      var i := 0;
      while i < |q|
        invariant 0 <= i <= |q| && done == i && Draining(q, lucks, i, moved, w0, p0, steps, ts, sent0)
      {
        if lucks[i].cancelled {
          Stop(q, lucks, i, moved, w0, p0, steps, ts, sent0);
          return moved, steps + [P.Cancel], done, ts;
        }
        moved, steps, ts := DrainOne(q, lucks, i, moved, w0, p0, steps, ts, sent0);
        i := i + 1;
        done := i;
      }
    }

    /** One pass over at most a batch of the queue, oldest first, in which a bad incident does
        not stall the ones behind it. Until the loop is cancelled, exactly the incidents for
        which nothing goes wrong leave the queue, one after the other and each with its own
        verdict, and they are counted. */
    method ProcessOnce(listed: bool, lucks: seq<Luck>)
      returns (r: Result<nat, Error>, ghost steps: seq<P.Step>, ghost done: nat, ghost ts: seq<Tables>)
      requires Valid() && sys.world.wk == P.Worker([], P.Idle) && |lucks| >= batchSize
      modifies this`sent, sys, sys.db
      ensures Valid() && sys.world.wk == P.Worker([], P.Idle) && sys.past == old(sys.past) + steps
      ensures !listed ==> r == Err(Io) && sys.world == old(sys.world)
      ensures listed ==>
                var q := Listed(old(sys.world).t, batchSize);
                && done <= |q| && Handled(old(sys.world).t, sys.world.t, q, lucks, done)
                && Linked(ts, old(sys.world).t, sys.world.t, q, lucks, done)
                && r == Ok(Moved(lucks, done)) && |sent| == |old(sent)| + Moved(lucks, done)
                && (done < |q| ==> lucks[done].cancelled)
                && (done == |q| ==> Pass(old(sys.world), steps, batchSize)
                                    && OnlyBadFail(old(sys.world), steps, Failed(q, lucks, done)))
    {
      if !listed { return Err(Io), [], 0, []; }
      ghost var w0, p0 := sys.world, sys.past;
      var q := Queue(sys.db.Snapshot());
      if |q| > batchSize { q := q[..batchSize]; }
      Follow(P.List(batchSize));
      StartPass(w0, batchSize);
      var moved;
      moved, steps, done, ts := Drain(q, lucks, w0, p0);
      PassDone(w0, p0, steps, sys.past);
      r := Ok(moved);
    }
  }

  /** No over-collapse in the tables themselves: whatever the process loop has judged, in this
      process or in one before it, agrees by its own text in project, error class and frames
      with every incident that opened a window of its fingerprint. */
  lemma JudgedAlike(o: Orchestrator, f: Digest, i: nat)
    requires o.Valid() && Regular(o.patterns) && CarriersNulFree(o.sys.world.t, f, o.patterns, o.allowed)
    requires i < |o.sys.db.events| && IsVerdict(o.sys.db.events[i], f)
    ensures var t := o.sys.db.Snapshot();
            && P.Opens(o.sys.world, f) != [] && Has(t, t.events[i].incident)
            && forall x :: x in P.Opens(o.sys.world, f) ==>
                 && Has(t, x.id)
                 && Alike(At(t, t.events[i].incident), At(t, x.id), f, o.patterns, o.allowed)
  {
    JudgedLikeItsOpeners(o.sys.past, f, i, o.patterns, o.allowed);
  }

  /** With one registry throughout, the two groupings that it gives are of the same failure. */
  lemma JudgedAlikeHere(o: Orchestrator, f: Digest, i: nat, x: P.Opened)
    requires o.Valid() && Regular(o.patterns) && CarriersNulFree(o.sys.world.t, f, o.patterns, o.allowed)
    requires forall slug, roots :: o.allowed(slug, roots) ==> roots == RootsFor(o.registry, slug)
    requires i < |o.sys.db.events| && IsVerdict(o.sys.db.events[i], f) && x in P.Opens(o.sys.world, f)
    ensures var t := o.sys.db.Snapshot();
            && Has(t, t.events[i].incident) && Has(t, x.id)
            && SameFailure(o.GroupHere(At(t, t.events[i].incident)), o.GroupHere(At(t, x.id)))
  {
    var t := o.sys.db.Snapshot();
    JudgedAlike(o, f, i);
    JudgedAlikeUnderOneRegistry(At(t, t.events[i].incident), At(t, x.id), f, o.patterns, o.allowed,
                                slug => RootsFor(o.registry, slug));
  }

  lemma OwnNext(past: seq<P.Step>, s: P.Step, p: Patterns, allowed: (string, seq<string>) -> bool)
    requires OwnMarks(P.Start(), past, p, allowed)
    requires s.Mark? ==> MarksOwn(P.Run(P.Start(), past), s.g, p, allowed)
    ensures OwnMarks(P.Start(), past + [s], p, allowed)
  {
    assert (past + [s])[..|past|] == past;
  }

  lemma MarkedAndSighted(t: Tables, t': Tables, id: nat, d: Digest)
    requires Has(t, id) && t' == MarkFingerprint(t, id, d).(fingerprints := t'.fingerprints)
    ensures SightedOnly(t, t', id) && At(t', id).fingerprint == Some(d)
  {}

  /** At most the fingerprint of one row and the table of fingerprints have changed. */
  ghost predicate SightedOnly(t: Tables, t': Tables, id: nat) {
    && |t'.incidents| == |t.incidents| && t'.projects == t.projects && t'.events == t.events
    && (forall i: nat :: IsReceived(t', i) == IsReceived(t, i))
    && forall i :: Has(t, i) ==>
         At(t', i) == if i == id then At(t, i).(fingerprint := At(t', i).fingerprint) else At(t, i)
  }

  /** The incident in hand is waiting and names a project. */
  lemma InHandReceived(past: seq<P.Step>, id: nat)
    requires Current(P.Run(P.Start(), past).wk.phase) == [id]
    ensures var t := P.Run(P.Start(), past).t; IsReceived(t, id) && At(t, id).slug in t.projects
  {
    var w := P.Run(P.Start(), past);
    BooksBalance(past, Digest(""));
    assert InHand(w)[0] == id && id in InHand(w);
    ReceivedNamesAProject(past);
  }

  ghost predicate LeavesOnly(t: Tables, t': Tables, id: nat, leaves: bool) {
    && |t'.incidents| == |t.incidents| && (IsReceived(t', id) <==> !leaves)
    && forall i: nat :: i != id ==> IsReceived(t', i) == IsReceived(t, i)
  }

  lemma SightedLeaves(t: Tables, t1: Tables, t2: Tables, id: nat, leaves: bool)
    requires SightedOnly(t, t1, id) && LeavesOnly(t1, t2, id, leaves)
    ensures LeavesOnly(t, t2, id, leaves)
  {}

  /** Steps within a pass, giving up none but the given incidents. */
  ghost predicate WorksOn(w: P.World, steps: seq<P.Step>, bad: set<nat>) {
    && (forall i :: 0 <= i < |steps| ==> !steps[i].List? && !steps[i].Cancel? && !steps[i].Crash?)
    && OnlyBadFail(w, steps, bad)
  }

  predicate Smooth(steps: seq<P.Step>) {
    forall i :: 0 <= i < |steps| ==> steps[i].Mark? || steps[i].Sight? || steps[i].Move? || steps[i].Publish?
  }

  lemma {:induction false} NoGiveUp(w: P.World, steps: seq<P.Step>, bad: set<nat>)
    requires Smooth(steps)
    ensures WorksOn(w, steps, bad)
  {
    if steps == [] {
    } else {
      NoGiveUp(w, steps[..|steps| - 1], bad);
    }
  }

  lemma GaveUpOne(w: P.World, id: nat)
    requires Current(w.wk.phase) == [id]
    ensures WorksOn(w, [P.Abandon], {id})
  {
    assert [P.Abandon][..0] == [];
  }

  function Moved(lucks: seq<Luck>, n: nat): nat
    requires n <= |lucks|
  {
    if n == 0 then 0 else Moved(lucks, n - 1) + if AllGood(lucks[n - 1]) then 1 else 0
  }

  function Failed(q: seq<nat>, lucks: seq<Luck>, n: nat): set<nat>
    requires n <= |q| && n <= |lucks|
  {
    set i | 0 <= i < n && !AllGood(lucks[i]) :: q[i]
  }

  /** The first n of a batch are dealt with: those without bad luck have left the queue, and
      nothing else has. */
  ghost predicate Handled(t: Tables, t': Tables, q: seq<nat>, lucks: seq<Luck>, n: nat)
    requires n <= |q| && n <= |lucks|
  {
    && |t'.incidents| == |t.incidents|
    && forall id: nat :: IsReceived(t', id) <==> IsReceived(t, id) && !Gone(q, lucks, n, id)
  }

  predicate Gone(q: seq<nat>, lucks: seq<Luck>, n: nat, id: nat)
    requires n <= |q| && n <= |lucks|
  {
    exists i :: 0 <= i < n && q[i] == id && AllGood(lucks[i])
  }

  /** A pass under way. */
  ghost predicate InPass(w: P.World, steps: seq<P.Step>, B: nat, bad: set<nat>) {
    && steps != [] && steps[0] == P.List(B) && OnlyBadFail(w, steps, bad)
    && (forall i :: 1 <= i < |steps| ==> !steps[i].List? && !steps[i].Cancel? && !steps[i].Crash?)
  }

  lemma StartPass(w: P.World, B: nat)
    ensures InPass(w, [P.List(B)], B, {})
  {
    assert [P.List(B)][..0] == [];
  }

  lemma RunOne(w: P.World, s: P.Step)
    ensures P.Run(w, [s]) == P.Next(w, s)
  {
    assert [s][..0] == [];
  }

  lemma {:induction false} OnlyBadFailAfter(w: P.World, a: seq<P.Step>, b: seq<P.Step>, bad: set<nat>, more: set<nat>)
    requires OnlyBadFail(w, a, bad) && OnlyBadFail(P.Run(w, a), b, more)
    ensures OnlyBadFail(w, a + b, bad + more)
  {
    if b == [] {
      assert a + b == a;
      OnlyBadFailMore(w, a, bad, bad + more);
    } else {
      OnlyBadFailAfter(w, a, b[..|b| - 1], bad, more);
      RunAppend(w, a, b[..|b| - 1]);
      assert (a + b)[..|a + b| - 1] == a + b[..|b| - 1];
    }
  }

  lemma {:induction false} OnlyBadFailMore(w: P.World, steps: seq<P.Step>, bad: set<nat>, more: set<nat>)
    requires OnlyBadFail(w, steps, bad) && bad <= more
    ensures OnlyBadFail(w, steps, more)
  {
    if steps == [] {
    } else {
      OnlyBadFailMore(w, steps[..|steps| - 1], bad, more);
    }
  }

  lemma WorksOnAfter(w: P.World, a: seq<P.Step>, b: seq<P.Step>, bad: set<nat>)
    requires (forall i :: 0 <= i < |a| ==> a[i].Take?) && WorksOn(P.Run(w, a), b, bad)
    ensures WorksOn(w, a + b, bad)
  {
    NoneGivenUp(w, a);
    OnlyBadFailAfter(w, a, b, {}, bad);
    assert {} + bad == bad;
  }

  lemma {:induction false} NoneGivenUp(w: P.World, steps: seq<P.Step>)
    requires forall i :: 0 <= i < |steps| ==> steps[i].Take?
    ensures OnlyBadFail(w, steps, {})
  {
    if steps == [] {
    } else {
      NoneGivenUp(w, steps[..|steps| - 1]);
    }
  }

  lemma PassGrows(w: P.World, past: seq<P.Step>, steps: seq<P.Step>, more: seq<P.Step>, B: nat, bad: set<nat>,
                  failed: set<nat>)
    requires w == P.Run(P.Start(), past) && InPass(w, steps, B, bad)
    requires WorksOn(P.Run(P.Start(), past + steps), more, failed)
    ensures InPass(w, steps + more, B, bad + failed)
  {
    RunAppend(P.Start(), past, steps);
    OnlyBadFailAfter(w, steps, more, bad, failed);
  }

  /** How far a pass has got after i incidents. */
  ghost predicate Progress(w: P.World, t: Tables, steps: seq<P.Step>, B: nat, q: seq<nat>, lucks: seq<Luck>, i: nat)
    requires i <= |q| && i <= |lucks|
  {
    Handled(w.t, t, q, lucks, i) && InPass(w, steps, B, Failed(q, lucks, i))
  }

  lemma ProgressOne(w: P.World, past: seq<P.Step>, t1: Tables, t2: Tables, steps: seq<P.Step>, more: seq<P.Step>,
                    B: nat, q: seq<nat>, lucks: seq<Luck>, i: nat)
    requires i < |q| && i < |lucks| && Progress(w, t1, steps, B, q, lucks, i) && IsReceived(t1, q[i])
    requires w == P.Run(P.Start(), past) && LeavesOnly(t1, t2, q[i], AllGood(lucks[i]))
    requires WorksOn(P.Run(P.Start(), past + steps), more, if AllGood(lucks[i]) then {} else {q[i]})
    ensures Progress(w, t2, steps + more, B, q, lucks, i + 1)
  {
    PassGrows(w, past, steps, more, B, Failed(q, lucks, i), if AllGood(lucks[i]) then {} else {q[i]});
    FailedMore(q, lucks, i);
    HandledMore(w.t, t1, t2, q, lucks, i);
  }

  lemma FailedMore(q: seq<nat>, lucks: seq<Luck>, i: nat)
    requires i < |q| && i < |lucks|
    ensures Failed(q, lucks, i + 1) == Failed(q, lucks, i) + if AllGood(lucks[i]) then {} else {q[i]}
  {}

  lemma HandledNone(t: Tables, q: seq<nat>, lucks: seq<Luck>)
    ensures Handled(t, t, q, lucks, 0)
  {}

  lemma HandledMore(t: Tables, t1: Tables, t2: Tables, q: seq<nat>, lucks: seq<Luck>, i: nat)
    requires i < |q| && i < |lucks| && Handled(t, t1, q, lucks, i) && IsReceived(t1, q[i])
    requires LeavesOnly(t1, t2, q[i], AllGood(lucks[i]))
    ensures Handled(t, t2, q, lucks, i + 1)
  {
    forall id: nat ensures Gone(q, lucks, i + 1, id) <==> Gone(q, lucks, i, id) || (id == q[i] && AllGood(lucks[i])) {}
    forall id: nat ensures IsReceived(t2, id) <==> IsReceived(t, id) && !Gone(q, lucks, i + 1, id) {}
  }

  lemma NextIsReceived(past: seq<P.Step>)
    requires var w := P.Run(P.Start(), past); w.wk.phase.Idle? && w.wk.batch != []
    ensures var w := P.Run(P.Start(), past); IsReceived(w.t, w.wk.batch[0])
  {
    var w := P.Run(P.Start(), past);
    BooksBalance(past, Digest(""));
    assert InHand(w)[0] == w.wk.batch[0] && w.wk.batch[0] in InHand(w);
  }

  lemma PassDone(w: P.World, past: seq<P.Step>, steps: seq<P.Step>, now: seq<P.Step>)
    requires w == P.Run(P.Start(), past) && now == past + steps
    ensures P.Run(w, steps) == P.Run(P.Start(), now)
  {
    RunAppend(P.Start(), past, steps);
  }

  lemma WorksOnBoth(past: seq<P.Step>, first: seq<P.Step>, now: seq<P.Step>, last: seq<P.Step>, bad: set<nat>)
    requires now == past + first && WorksOn(P.Run(P.Start(), past), first, {})
    requires WorksOn(P.Run(P.Start(), now), last, bad)
    ensures WorksOn(P.Run(P.Start(), past), first + last, bad)
  {
    RunAppend(P.Start(), past, first);
    OnlyBadFailAfter(P.Run(P.Start(), past), first, last, {}, bad);
    assert {} + bad == bad;
  }

  /** What went well so far, followed by what comes next. */
  lemma SmoothThen(past: seq<P.Step>, first: seq<P.Step>, now: seq<P.Step>, last: seq<P.Step>, bad: set<nat>)
    requires Smooth(first) && now == past + first && WorksOn(P.Run(P.Start(), now), last, bad)
    ensures WorksOn(P.Run(P.Start(), past), first + last, bad)
    ensures now + last == past + (first + last)
  {
    NoGiveUp(P.Run(P.Start(), past), first, {});
    WorksOnBoth(past, first, now, last, bad);
  }
}
