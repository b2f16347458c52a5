/** Problems found in a registry: they are gathered, not stopped at. */
module Problems {
  import opened Wrappers

  datatype Field =
    | Version | Slug | Repo | Branch | Autonomy | Effort | Tier1 | Tier2 | MaxTurns | RunTimeout | Window | MaxRepairs
    | MaxDiff | Probation | Test | Deploy | Budget | NoTriggers | NoRoots | EmptyRoot | AbsoluteRoot | LeavingRoot
    | NoProjects | DuplicateSlug | PerIncident | DailyGlobal | DailyPerProject | WeeklyGlobal | MonthlyGlobal
    | WeekStart | EfficiencyWindow | Multiple | MinResolutions | WarnAt | NoSoftAction | MinConfidence | MaxAgents
    | MinRam | MinDisk | Tier2Confidence | MaxInputTokens | BotEmail | TransientPattern

  /** A problem, and the project it is about, if it is about one. */
  datatype Problem = Problem(project: Option<nat>, field: Field)

  ghost predicate About(problems: seq<Problem>, at: Option<nat>) {
    forall k :: 0 <= k < |problems| ==> problems[k].project == at
  }

  predicate Names(problems: seq<Problem>, i: nat) {
    exists k :: 0 <= k < |problems| && problems[k].project == Some(i)
  }

  /** One check: a problem is added when it fails, and checking goes on. */
  method Check(problems: seq<Problem>, ok: bool, at: Option<nat>, field: Field) returns (r: seq<Problem>)
    ensures r == [] <==> problems == [] && ok
    ensures About(problems, at) ==> About(r, at)
  {
    r := if ok then problems else problems + [Problem(at, field)];
  }

  lemma NamesLater(a: seq<Problem>, b: seq<Problem>, i: nat)
    requires About(a, None)
    ensures Names(a + b, i) <==> Names(b, i)
  {
    if Names(b, i) {
      var k :| 0 <= k < |b| && b[k].project == Some(i);
      assert (a + b)[|a| + k].project == Some(i);
    }
  }
}
