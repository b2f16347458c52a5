/** The Tier 0 chain: named checks in order, stopping at the first rejection. */
module Tier0 {
  import opened Text
  import opened Wrappers

  datatype Verdict = Pass | Filtered | Suppressed

  datatype Subject = Subject(title: string, body: string, authorEmail: string, quarantined: bool, suppressed: bool)

  datatype Decision = Decision(verdict: Verdict, filter: string, reason: string)

  /** A transient pattern: its text and what it matches. */
  datatype Pattern = Pattern(text: string, matches: string -> bool)

  datatype Filter = Filter(name: string, check: Subject -> (Verdict, string))

  predicate Transient(patterns: seq<Pattern>, s: Subject) {
    exists i :: 0 <= i < |patterns| && (patterns[i].matches(s.title) || patterns[i].matches(s.body))
  }

  function TransientReason(patterns: seq<Pattern>, s: Subject): string {
    if patterns == [] then ""
    else if patterns[0].matches(s.title) || patterns[0].matches(s.body) then
      "matched transient pattern " + patterns[0].text
    else TransientReason(patterns[1..], s)
  }

  /** Neither an unset bot address nor an unattributed event may match. */
  predicate SelfInflicted(bot: string, author: string, lower: string -> string) {
    var b, a := lower(TrimSpace(bot)), lower(TrimSpace(author));
    b != "" && a != "" && a == b
  }

  function NewChain(patterns: seq<Pattern>, bot: string, lower: string -> string): seq<Filter> {
    [ Filter("Quarantined", (s: Subject) => if s.quarantined then (Filtered, "project is quarantined") else (Pass, "")),
      Filter("Transient", (s: Subject) =>
        if Transient(patterns, s) then (Filtered, TransientReason(patterns, s)) else (Pass, "")),
      Filter("SelfInflicted", (s: Subject) =>
        if SelfInflicted(bot, s.authorEmail, lower)
        then (Filtered, "authored by the sentinel's own bot identity") else (Pass, "")),
      Filter("Fingerprint", (s: Subject) =>
        if s.suppressed then (Suppressed, "fingerprint seen within its suppression window") else (Pass, "")),
      Filter("BuildSanity", (s: Subject) => (Pass, "")) ]
  }

  function Evaluate(chain: seq<Filter>, s: Subject): Decision {
    if chain == [] then Decision(Pass, "", "")
    else
      var (verdict, reason) := chain[0].check(s);
      if verdict != Pass then Decision(verdict, chain[0].name, reason) else Evaluate(chain[1..], s)
  }

  /** The first of the three noise checks that rejects an incident. */
  function EarlyFilter(patterns: seq<Pattern>, bot: string, lower: string -> string, s: Subject): Option<string> {
    if s.quarantined then Some("Quarantined")
    else if Transient(patterns, s) then Some("Transient")
    else if SelfInflicted(bot, s.authorEmail, lower) then Some("SelfInflicted")
    else None
  }

  /** The text that goes with the decision. */
  function ReasonFor(patterns: seq<Pattern>, bot: string, lower: string -> string, s: Subject): string {
    if s.quarantined then "project is quarantined"
    else if Transient(patterns, s) then TransientReason(patterns, s)
    else if SelfInflicted(bot, s.authorEmail, lower) then "authored by the sentinel's own bot identity"
    else if s.suppressed then "fingerprint seen within its suppression window"
    else ""
  }

  /** The decision, exactly: noise is filtered even inside a suppression window, under the
      name of the first check that rejects it; only what no noise check rejects is suppressed,
      under the name Fingerprint, or passed without a name. */
  lemma ChainVerdict(patterns: seq<Pattern>, bot: string, lower: string -> string, s: Subject)
    ensures var d := Evaluate(NewChain(patterns, bot, lower), s);
            && d.reason == ReasonFor(patterns, bot, lower, s)
            && match EarlyFilter(patterns, bot, lower, s)
               case Some(name) => d.verdict == Filtered && d.filter == name
               case None =>
                 && d.verdict == (if s.suppressed then Suppressed else Pass)
                 && d.filter == (if s.suppressed then "Fingerprint" else "")
  {
    var c := NewChain(patterns, bot, lower);
    EvaluateStep(c, s);
    EvaluateStep(c[1..], s);
    EvaluateStep(c[2..], s);
    EvaluateStep(c[3..], s);
    EvaluateStep(c[4..], s);
    assert c[1..][1..] == c[2..] && c[2..][1..] == c[3..] && c[3..][1..] == c[4..] && c[4..][1..] == [];
  }

  predicate Matches(p: Pattern, s: Subject) { p.matches(s.title) || p.matches(s.body) }

  /** A transient rejection names the first pattern that matches. */
  lemma {:induction false} TransientNamesFirst(patterns: seq<Pattern>, s: Subject) returns (i: nat)
    requires Transient(patterns, s)
    ensures i < |patterns| && Matches(patterns[i], s) && forall j :: 0 <= j < i ==> !Matches(patterns[j], s)
    ensures TransientReason(patterns, s) == "matched transient pattern " + patterns[i].text
  {
    if Matches(patterns[0], s) {
      i := 0;
    } else {
      assert Transient(patterns[1..], s) by {
        var k :| 0 <= k < |patterns| && (patterns[k].matches(s.title) || patterns[k].matches(s.body));
        assert patterns[1..][k - 1] == patterns[k];
      }
      i := TransientNamesFirst(patterns[1..], s);
      i := i + 1;
    }
  }

  lemma EvaluateStep(chain: seq<Filter>, s: Subject)
    requires chain != []
    ensures Evaluate(chain, s) ==
            var (verdict, reason) := chain[0].check(s);
            if verdict != Pass then Decision(verdict, chain[0].name, reason) else Evaluate(chain[1..], s)
  {}
}
