/** The registry: what Validate accepts, and what EffectiveProject makes of it. The checks
    that library code decides are parameters: the repository pattern, the mail address and
    whether a regular expression compiles. */
module Config {
  import opened Wrappers
  import opened Store
  import opened Text
  import opened Fingerprint
  import opened Problems
  import opened Limits

  datatype Commands = Commands(test: string, build: string, healthcheck: string, deploy: string, rollback: string)

  datatype Defaults = Defaults(
    autonomy: string, tier1: string, tier2: string, effort: string, maxTurns: int, runTimeout: Time, window: Time,
    maxRepairs: int, maxDiff: int, probation: int, allowTestChanges: bool, protectedPaths: seq<string>,
    commands: Commands)

  datatype Triggers = Triggers(workflowRun: bool, labels: seq<string>, logFilter: string)

  datatype ProjectConfig = ProjectConfig(
    slug: string, repo: string, branch: string, autonomy: string, tier2: string, commands: Commands,
    budget: Option<real>, window: Option<Time>, maxDiff: Option<int>, allowTestChanges: Option<bool>,
    triggers: Triggers, env: map<string, string>, roots: Option<seq<string>>)

  datatype Registry = Registry(
    version: int, budgets: Budgets, softMode: SoftMode, defaults: Defaults, runtime: RuntimeLimits, botEmail: string,
    transientPatterns: seq<string>, projects: seq<ProjectConfig>)

  datatype Rules = Rules(repoOk: string -> bool, isAddress: string -> bool, compiles: string -> bool)

  /** The models of the price table. */
  const PRICED := {"claude-opus-5", "claude-sonnet-5", "claude-haiku-4-5"}

  const AUTONOMY := {"pr_only", "auto_merge", "auto_deploy"}
  const EFFORT := {"low", "medium", "high", "xhigh", "max"}

  // ---- Resolution of defaults ----

  predicate Blank(s: string) { TrimSpace(s) == "" }

  function FirstNonEmpty(a: string, b: string): string {
    if !Blank(a) then a else if !Blank(b) then b else ""
  }

  function MergeCommands(d: Commands, o: Commands): Commands {
    Commands(FirstNonEmpty(o.test, d.test), FirstNonEmpty(o.build, d.build),
             FirstNonEmpty(o.healthcheck, d.healthcheck), FirstNonEmpty(o.deploy, d.deploy),
             FirstNonEmpty(o.rollback, d.rollback))
  }

  datatype Effective = Effective(
    slug: string, repo: string, branch: string, autonomy: string, tier1: string, tier2: string, effort: string,
    maxTurns: int, maxDiff: int, probation: int, maxRepairs: int, runTimeout: Time, window: Time,
    allowTestChanges: bool, budget: Option<real>, protectedPaths: seq<string>, roots: seq<string>,
    commands: Commands, triggers: Triggers, env: map<string, string>)

  function Or<T>(o: Option<T>, otherwise: T): T { match o { case Some(v) => v case None => otherwise } }

  function Resolve(d: Defaults, p: ProjectConfig): Effective {
    Effective(p.slug, p.repo, p.branch, FirstNonEmpty(p.autonomy, d.autonomy), d.tier1,
              FirstNonEmpty(p.tier2, d.tier2), d.effort, d.maxTurns, Or(p.maxDiff, d.maxDiff), d.probation,
              d.maxRepairs, d.runTimeout, Or(p.window, d.window), Or(p.allowTestChanges, d.allowTestChanges),
              p.budget, d.protectedPaths, Or(p.roots, []), MergeCommands(d.commands, p.commands), p.triggers, p.env)
  }

  // ---- What resolution means ----

  /** A project's own text where it is not blank, else the default where that is not. */
  predicate Inherits(own: string, fallback: string, value: string) {
    && (TrimSpace(own) != "" ==> value == own)
    && (TrimSpace(own) == "" && TrimSpace(fallback) != "" ==> value == fallback)
    && (TrimSpace(own) == "" && TrimSpace(fallback) == "" ==> value == "")
  }

  /** What a project may override, for one project and the defaults. */
  predicate Overrides(p: ProjectConfig, d: Defaults, e: Effective) {
    && Inherits(p.autonomy, d.autonomy, e.autonomy) && Inherits(p.tier2, d.tier2, e.tier2)
    && Inherits(p.commands.test, d.commands.test, e.commands.test)
    && Inherits(p.commands.build, d.commands.build, e.commands.build)
    && Inherits(p.commands.healthcheck, d.commands.healthcheck, e.commands.healthcheck)
    && Inherits(p.commands.deploy, d.commands.deploy, e.commands.deploy)
    && Inherits(p.commands.rollback, d.commands.rollback, e.commands.rollback)
    && (match p.window case Some(w) => e.window == w case None => e.window == d.window)
    && (match p.maxDiff case Some(n) => e.maxDiff == n case None => e.maxDiff == d.maxDiff)
    && (match p.allowTestChanges
        case Some(b) => e.allowTestChanges == b
        case None => e.allowTestChanges == d.allowTestChanges)
    && (match p.roots case Some(roots) => e.roots == roots case None => e.roots == [])
  }

  /** The columns that only one of the two has. */
  predicate Copies(p: ProjectConfig, d: Defaults, e: Effective) {
    && e.slug == p.slug && e.repo == p.repo && e.branch == p.branch && e.budget == p.budget
    && e.triggers == p.triggers && e.env == p.env
    && e.tier1 == d.tier1 && e.effort == d.effort && e.maxTurns == d.maxTurns && e.probation == d.probation
    && e.maxRepairs == d.maxRepairs && e.runTimeout == d.runTimeout && e.protectedPaths == d.protectedPaths
  }

  predicate FirstWith(ps: seq<ProjectConfig>, slug: string, i: nat) {
    i < |ps| && ps[i].slug == slug && forall j :: 0 <= j < i ==> ps[j].slug != slug
  }

  /** What asking for a slug must give: nothing if no project has it, else the first that has
      it, its own values over the defaults. */
  ghost predicate Answers(r: Registry, slug: string, e: Option<Effective>) {
    match e
    case None => forall i :: 0 <= i < |r.projects| ==> r.projects[i].slug != slug
    case Some(e) =>
      exists i: nat :: FirstWith(r.projects, slug, i) && Overrides(r.projects[i], r.defaults, e)
                  && Copies(r.projects[i], r.defaults, e)
  }

  /** Where the first project with a slug is; their number when there is none. */
  function Position(ps: seq<ProjectConfig>, slug: string): (i: nat)
    ensures i <= |ps| && (forall j :: 0 <= j < i ==> ps[j].slug != slug) && (i < |ps| ==> ps[i].slug == slug)
  {
    if ps == [] || ps[0].slug == slug then 0
    else
      var i := Position(ps[1..], slug);
      assert forall j :: 0 < j < i + 1 ==> ps[j] == ps[1..][j - 1];
      i + 1
  }

  /** The first project with a slug, its defaults filled in. */
  function Lookup(d: Defaults, ps: seq<ProjectConfig>, slug: string): Option<Effective> {
    var i := Position(ps, slug);
    if i < |ps| then Some(Resolve(d, ps[i])) else None
  }

  method EffectiveProject(r: Registry, slug: string) returns (e: Option<Effective>)
    ensures e == Lookup(r.defaults, r.projects, slug)
    ensures Answers(r, slug, e)
  {
    var i := 0;
    while i < |r.projects| && r.projects[i].slug != slug
      invariant 0 <= i <= |r.projects| && forall j :: 0 <= j < i ==> r.projects[j].slug != slug
    {
      i := i + 1;
    }
    assert i == Position(r.projects, slug);
    e := None;
    if i < |r.projects| {
      var eff := Overlay(r.projects[i], r.defaults);
      e := Some(eff);
    }
    LookupAnswers(r, slug);
  }

  /** One project over the defaults. */
  method Overlay(p: ProjectConfig, d: Defaults) returns (eff: Effective)
    ensures eff == Resolve(d, p)
  {
    eff := Effective(p.slug, p.repo, p.branch, FirstNonEmpty(p.autonomy, d.autonomy), d.tier1,
                     FirstNonEmpty(p.tier2, d.tier2), d.effort, d.maxTurns, d.maxDiff, d.probation,
                     d.maxRepairs, d.runTimeout, d.window, d.allowTestChanges, p.budget,
                     d.protectedPaths, [], MergeCommands(d.commands, p.commands), p.triggers, p.env);
    if p.window.Some? { eff := eff.(window := p.window.value); }
    if p.maxDiff.Some? { eff := eff.(maxDiff := p.maxDiff.value); }
    if p.allowTestChanges.Some? { eff := eff.(allowTestChanges := p.allowTestChanges.value); }
    if p.roots.Some? { eff := eff.(roots := p.roots.value); }
  }

  lemma LookupAnswers(r: Registry, slug: string)
    ensures Answers(r, slug, Lookup(r.defaults, r.projects, slug))
  {
    var i := Position(r.projects, slug);
    if i < |r.projects| {
      ResolveOverrides(r.projects[i], r.defaults);
      assert FirstWith(r.projects, slug, i);
    }
  }

  lemma ResolveOverrides(p: ProjectConfig, d: Defaults)
    ensures Overrides(p, d, Resolve(d, p)) && Copies(p, d, Resolve(d, p))
  {}

  // ---- What is accepted ----

  predicate SlugChar(c: char) { 'a' <= c <= 'z' || '0' <= c <= '9' }

  /** ^[a-z0-9][a-z0-9-]{1,38}[a-z0-9]$ */
  predicate SlugOk(s: string) {
    && 3 <= |s| <= 40 && SlugChar(s[0]) && SlugChar(s[|s| - 1])
    && forall i :: 0 <= i < |s| ==> SlugChar(s[i]) || s[i] == '-'
  }

  predicate ModelOk(id: string, required: bool) {
    if id == "" then !required else id in PRICED
  }

  predicate DefaultsOk(d: Defaults) {
    && d.autonomy in AUTONOMY && d.effort in EFFORT && ModelOk(d.tier1, true) && ModelOk(d.tier2, true)
    && d.maxTurns >= 1 && d.runTimeout > 0 && d.window > 0 && d.maxRepairs >= 1 && d.maxDiff >= 1 && d.probation >= 0
  }

  predicate LeavesRepository(t: string) { t == ".." || "../" <= t || Contains(t, "/../") }

  predicate RootOk(root: string) {
    var t := TrimSpace(root);
    t != "" && t[0] != '/' && !LeavesRepository(t)
  }

  predicate RootsOk(roots: Option<seq<string>>) {
    roots.Some? ==> roots.value != [] && forall i :: 0 <= i < |roots.value| ==> RootOk(roots.value[i])
  }

  predicate ProjectOk(p: ProjectConfig, d: Defaults, rules: Rules) {
    var e := Resolve(d, p);
    && SlugOk(p.slug) && rules.repoOk(p.repo) && !Blank(p.branch)
    && e.autonomy in AUTONOMY && !Blank(e.commands.test)
    && (e.autonomy == "auto_deploy" ==> !Blank(e.commands.deploy))
    && ModelOk(p.tier2, false)
    && (p.budget.Some? ==> p.budget.value > 0.0) && (p.window.Some? ==> p.window.value > 0)
    && (p.maxDiff.Some? ==> p.maxDiff.value >= 1)
    && (p.triggers.workflowRun || p.triggers.labels != [] || !Blank(p.triggers.logFilter))
    && RootsOk(p.roots)
  }

  /** Whether an earlier project has the slug. */
  predicate Repeated(ps: seq<ProjectConfig>, i: nat)
    requires i < |ps|
  {
    exists j :: 0 <= j < i && ps[j].slug == ps[i].slug
  }

  ghost predicate Faulty(r: Registry, i: nat, rules: Rules)
    requires i < |r.projects|
  {
    !ProjectOk(r.projects[i], r.defaults, rules) || Repeated(r.projects, i)
  }

  ghost predicate Accepted(r: Registry, rules: Rules) {
    && r.version == 1 && BudgetsOk(r.budgets) && SoftModeOk(r.softMode) && DefaultsOk(r.defaults)
    && RuntimeOk(r.runtime) && BotOk(r.botEmail, rules.isAddress) && PatternsOk(r.transientPatterns, rules.compiles)
    && r.projects != []
    && forall i :: 0 <= i < |r.projects| ==> !Faulty(r, i, rules)
  }

  method ValidateModelField(problems: seq<Problem>, id: string, required: bool, at: Option<nat>, field: Field)
    returns (r: seq<Problem>)
    ensures r == [] <==> problems == [] && ModelOk(id, required)
    ensures About(problems, at) ==> About(r, at)
  {
    if id == "" {
      r := Check(problems, !required, at, field);
    } else {
      r := Check(problems, id in PRICED, at, field);
    }
  }

  method ValidateDefaults(d: Defaults) returns (r: seq<Problem>)
    ensures r == [] <==> DefaultsOk(d)
    ensures About(r, None)
  {
    r := Check([], d.autonomy in AUTONOMY, None, Autonomy);
    r := Check(r, d.effort in EFFORT, None, Effort);
    r := ValidateModelField(r, d.tier1, true, None, Tier1);
    r := ValidateModelField(r, d.tier2, true, None, Tier2);
    r := Check(r, d.maxTurns >= 1, None, MaxTurns);
    r := Check(r, d.runTimeout > 0, None, RunTimeout);
    r := Check(r, d.window > 0, None, Window);
    r := Check(r, d.maxRepairs >= 1, None, MaxRepairs);
    r := Check(r, d.maxDiff >= 1, None, MaxDiff);
    r := Check(r, d.probation >= 0, None, Probation);
  }

  method ValidateSourceRoots(problems: seq<Problem>, roots: Option<seq<string>>, at: Option<nat>)
    returns (r: seq<Problem>)
    ensures r == [] <==> problems == [] && RootsOk(roots)
    ensures About(problems, at) ==> About(r, at)
  {
    if roots.None? { return problems; }
    if roots.value == [] {
      r := Check(problems, false, at, NoRoots);
      return;
    }
    r := problems;
    for i := 0 to |roots.value|
      invariant r == [] <==> problems == [] && forall j :: 0 <= j < i ==> RootOk(roots.value[j])
      invariant About(problems, at) ==> About(r, at)
    {
      var trimmed := TrimSpace(roots.value[i]);
      if trimmed == "" {
        r := Check(r, false, at, EmptyRoot);
      } else if trimmed[0] == '/' {
        r := Check(r, false, at, AbsoluteRoot);
      } else {
        r := Check(r, !LeavesRepository(trimmed), at, LeavingRoot);
      }
    }
  }

  /** One project; `taken` says whether an earlier one has its slug. */
  method ValidateProject(p: ProjectConfig, taken: bool, at: Option<nat>, d: Defaults, rules: Rules)
    returns (r: seq<Problem>)
    ensures r == [] <==> ProjectOk(p, d, rules) && !taken
    ensures About(r, at)
  {
    if !SlugOk(p.slug) {
      r := Check([], false, at, Slug);
    } else {
      r := Check([], !taken, at, DuplicateSlug);
    }
    r := Check(r, rules.repoOk(p.repo), at, Repo);
    r := Check(r, !Blank(p.branch), at, Branch);
    var autonomy := FirstNonEmpty(p.autonomy, d.autonomy);
    r := Check(r, autonomy in AUTONOMY, at, Autonomy);
    var commands := MergeCommands(d.commands, p.commands);
    r := Check(r, !Blank(commands.test), at, Test);
    r := Check(r, autonomy == "auto_deploy" ==> !Blank(commands.deploy), at, Deploy);
    r := ValidateModelField(r, p.tier2, false, at, Tier2);
    r := Check(r, p.budget.Some? ==> p.budget.value > 0.0, at, Budget);
    r := Check(r, p.window.Some? ==> p.window.value > 0, at, Window);
    r := Check(r, p.maxDiff.Some? ==> p.maxDiff.value >= 1, at, MaxDiff);
    r := Check(r, p.triggers.workflowRun || p.triggers.labels != [] || !Blank(p.triggers.logFilter), at,
               NoTriggers);
    r := ValidateSourceRoots(r, p.roots, at);
  }

  /** The well-formed slugs of the first i projects. */
  function Taken(ps: seq<ProjectConfig>, i: nat): set<string>
    requires i <= |ps|
  {
    set j | 0 <= j < i && SlugOk(ps[j].slug) :: ps[j].slug
  }

  lemma TakenIffRepeated(ps: seq<ProjectConfig>, i: nat)
    requires i < |ps|
    ensures SlugOk(ps[i].slug) ==> (ps[i].slug in Taken(ps, i) <==> Repeated(ps, i))
    ensures Taken(ps, i + 1) == Taken(ps, i) + if SlugOk(ps[i].slug) then {ps[i].slug} else {}
  {}

  ghost predicate Below(problems: seq<Problem>, i: nat) {
    forall k :: 0 <= k < |problems| && problems[k].project.Some? ==> problems[k].project.value < i
  }

  /** Exactly the faulty ones of the first i projects are named. */
  ghost predicate NamesFaulty(problems: seq<Problem>, r: Registry, i: nat, rules: Rules)
    requires i <= |r.projects|
  {
    Below(problems, i) && forall j :: 0 <= j < i ==> (Names(problems, j) <==> Faulty(r, j, rules))
  }

  lemma NamesOneMore(problems: seq<Problem>, found: seq<Problem>, r: Registry, i: nat, rules: Rules)
    requires i < |r.projects| && NamesFaulty(problems, r, i, rules)
    requires About(found, Some(i)) && (found == [] <==> !Faulty(r, i, rules))
    ensures NamesFaulty(problems + found, r, i + 1, rules)
  {
    NamesMore(problems, found, i, seq(i + 1, j requires 0 <= j < i + 1 => Faulty(r, j, rules)));
  }

  lemma NamesMore(problems: seq<Problem>, found: seq<Problem>, i: nat, faulty: seq<bool>)
    requires |faulty| == i + 1 && Below(problems, i) && About(found, Some(i)) && (found == [] <==> !faulty[i])
    requires forall j :: 0 <= j < i ==> (Names(problems, j) <==> faulty[j])
    ensures Below(problems + found, i + 1)
    ensures forall j :: 0 <= j < i + 1 ==> (Names(problems + found, j) <==> faulty[j])
  {
    NamesAppend(problems, found, i);
  }

  /** Nothing is reported but faults, and no faulty project is left out. */
  method ValidateProjects(r: Registry, rules: Rules) returns (problems: seq<Problem>)
    ensures problems == [] <==>
            r.projects != [] && forall i :: 0 <= i < |r.projects| ==> !Faulty(r, i, rules)
    ensures NamesFaulty(problems, r, |r.projects|, rules)
  {
    problems := Check([], r.projects != [], None, NoProjects);
    assert About(problems, None);
    var seen: set<string> := {};
    for i := 0 to |r.projects|
      invariant seen == Taken(r.projects, i) && NamesFaulty(problems, r, i, rules)
      invariant problems == [] <==> r.projects != [] && forall j :: 0 <= j < i ==> !Faulty(r, j, rules)
    {
      var p := r.projects[i];
      TakenIffRepeated(r.projects, i);
      var taken := p.slug in seen;
      if SlugOk(p.slug) { seen := seen + {p.slug}; }
      var found := ValidateProject(p, taken && SlugOk(p.slug), Some(i), r.defaults, rules);
      NamesOneMore(problems, found, r, i, rules);
      problems := problems + found;
    }
  }

  lemma NamesAppend(problems: seq<Problem>, found: seq<Problem>, i: nat)
    requires About(found, Some(i)) && Below(problems, i)
    ensures Below(problems + found, i + 1)
    ensures Names(problems + found, i) <==> found != []
    ensures forall j :: 0 <= j < i ==> (Names(problems + found, j) <==> Names(problems, j))
  {
    var all := problems + found;
    assert forall k :: 0 <= k < |problems| ==> all[k] == problems[k];
    assert forall k :: |problems| <= k < |all| ==> all[k].project == Some(i);
    if found != [] { assert all[|problems|].project == Some(i); }
    forall j | 0 <= j < i ensures Names(all, j) <==> Names(problems, j) {
      if Names(problems, j) {
        var k :| 0 <= k < |problems| && problems[k].project == Some(j);
        assert all[k].project == Some(j);
      }
    }
  }

  /** All problems are gathered; the registry is accepted when there are none. */
  method Validate(r: Registry, rules: Rules) returns (problems: seq<Problem>)
    ensures problems == [] <==> Accepted(r, rules)
    ensures forall i :: 0 <= i < |r.projects| ==> (Names(problems, i) <==> Faulty(r, i, rules))
  {
    problems := Check([], r.version == 1, None, Version);
    var budgets := ValidateBudgets(r.budgets);
    var soft := ValidateSoftMode(r.softMode);
    var defaults := ValidateDefaults(r.defaults);
    var runtime := ValidateRuntime(r.runtime);
    var bot := ValidateBot(r.botEmail, rules.isAddress);
    var triage := ValidateTriage(r.transientPatterns, rules.compiles);
    problems := problems + budgets + soft + defaults + runtime + bot + triage;
    var projects := ValidateProjects(r, rules);
    forall i | 0 <= i < |r.projects| ensures Names(problems + projects, i) <==> Names(projects, i) {
      NamesLater(problems, projects, i);
    }
    problems := problems + projects;
  }

  // ---- What an accepted registry is good for ----

  ghost predicate Usable(e: Effective) {
    && e.autonomy in AUTONOMY && e.effort in EFFORT && e.tier1 in PRICED && e.tier2 in PRICED
    && e.window > 0 && e.runTimeout > 0 && e.maxTurns >= 1 && e.maxDiff >= 1
    && !Blank(e.commands.test) && (e.autonomy == "auto_deploy" ==> !Blank(e.commands.deploy))
    && forall root :: root in e.roots ==> Cleaned(root) != ""
  }

  /** An accepted root is not emptied by the cleaning that matching gives it, so matching
      never skips it. */
  lemma AcceptedRootKept(root: string)
    requires RootOk(root)
    ensures Cleaned(root) != ""
  {
    var t := TrimSpace(root);
    assert TrimLeft(t, c => c == '/') == t;
    TrimRightKeepsFirst(t, c => c == '/');
  }

  /** An accepted registry stays usable. Whatever answers for a slug is of the one project that
      has it, with everything the pipeline needs in place; and no accepted slug holds the byte
      that separates the parts of a fingerprint. */
  lemma AcceptedIsUsable(r: Registry, rules: Rules, slug: string, e: Option<Effective>)
    requires Accepted(r, rules) && Answers(r, slug, e)
    ensures e.Some? ==>
              && e.value.slug == slug && NUL !in slug && Usable(e.value)
              && exists i ::
                    0 <= i < |r.projects| && r.projects[i].slug == slug
                    && Overrides(r.projects[i], r.defaults, e.value) && Copies(r.projects[i], r.defaults, e.value)
                    && forall j :: 0 <= j < |r.projects| && r.projects[j].slug == slug ==> j == i
  {
    if e.Some? {
      var i: nat :| FirstWith(r.projects, slug, i) && Overrides(r.projects[i], r.defaults, e.value)
               && Copies(r.projects[i], r.defaults, e.value);
      assert !Faulty(r, i, rules);
      forall j | 0 <= j < |r.projects| && r.projects[j].slug == slug ensures j == i {
        assert !Faulty(r, j, rules);
      }
      ProjectIsUsable(r.projects[i], r.defaults, rules, e.value);
    }
  }

  lemma PricedNotBlank(id: string)
    requires id in PRICED
    ensures !Blank(id)
  {
    assert TrimLeft(id, c => IsSpace(c)) == id;
    TrimRightKeepsFirst(id, c => IsSpace(c));
  }

  lemma ProjectIsUsable(p: ProjectConfig, d: Defaults, rules: Rules, e: Effective)
    requires DefaultsOk(d) && ProjectOk(p, d, rules) && Overrides(p, d, e) && Copies(p, d, e)
    ensures Usable(e) && NUL !in p.slug
  {
    ProjectOkIff(p, d, rules, e);
    PricedNotBlank(d.tier2);
    if p.tier2 != "" { PricedNotBlank(p.tier2); }
    RootsKept(p.roots);
  }

  /** Acceptance of a project, told from any resolution of it. */
  lemma ProjectOkIff(p: ProjectConfig, d: Defaults, rules: Rules, e: Effective)
    requires Overrides(p, d, e) && Copies(p, d, e)
    ensures ProjectOk(p, d, rules) <==>
            && SlugOk(e.slug) && rules.repoOk(e.repo) && TrimSpace(e.branch) != ""
            && e.autonomy in AUTONOMY && TrimSpace(e.commands.test) != ""
            && (e.autonomy == "auto_deploy" ==> TrimSpace(e.commands.deploy) != "")
            && (p.tier2 == "" || p.tier2 in PRICED)
            && (e.budget.Some? ==> e.budget.value > 0.0) && (p.window.Some? ==> e.window > 0)
            && (p.maxDiff.Some? ==> e.maxDiff >= 1)
            && (e.triggers.workflowRun || e.triggers.labels != [] || TrimSpace(e.triggers.logFilter) != "")
            && RootsOk(p.roots)
  {
    assert Resolve(d, p).autonomy == e.autonomy && Resolve(d, p).commands.test == e.commands.test
           && Resolve(d, p).commands.deploy == e.commands.deploy;
  }

  lemma RootsKept(roots: Option<seq<string>>)
    requires RootsOk(roots)
    ensures roots.Some? ==> forall root :: root in roots.value ==> Cleaned(root) != ""
  {
    if roots.Some? {
      forall i | 0 <= i < |roots.value| ensures Cleaned(roots.value[i]) != "" {
        AcceptedRootKept(roots.value[i]);
      }
    }
  }
}
