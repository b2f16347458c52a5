/** Grouping a failure: which frames are chosen, and what is hashed. */
module Fingerprint {
  import opened Wrappers
  import opened Store
  import opened Text
  import opened Picks

  const MAX_FRAMES := 5
  const UNIT_SEPARATOR := '\U{1F}'

  const SOURCE_ROOTS := "source_roots"
  const DENYLIST := "denylist"
  const ALL_FRAMES := "all_frames"
  const WORKFLOW := "workflow"
  const NO_FRAMES := "no_frames"

  const DEPENDENCY_DIRS: seq<string> := [
    "vendor/", "node_modules/", "site-packages/", "dist-packages/", ".venv/", "venv/", ".cargo/registry/",
    "go/pkg/mod/", ".gem/", ".m2/", ".gradle/caches/", ".nuget/packages/", "bundle/"]

  /** What grouped a failure, and the strategy that chose its frames. */
  datatype Grouping = Grouping(slug: string, errorClass: string, frames: seq<string>, strategy: string)

  // ---- The hashed key ----

  function KeyText(g: Grouping): string {
    g.slug + [NUL] + g.errorClass + [NUL] + Join(g.frames, '\n')
  }

  function Hash(g: Grouping): Digest { Digest(KeyText(g)) }

  predicate Clean(g: Grouping) {
    && NUL !in g.slug && NUL !in g.errorClass
    && forall f :: f in g.frames ==> f != "" && '\n' !in f
  }

  /** No over-collapse: equal hashes mean the same project, error class and frames. */
  lemma HashSeparates(a: Grouping, b: Grouping)
    requires Clean(a) && Clean(b) && Hash(a) == Hash(b)
    ensures a.slug == b.slug && a.errorClass == b.errorClass && a.frames == b.frames
  {
    var x := a.errorClass + [NUL] + Join(a.frames, '\n');
    var y := b.errorClass + [NUL] + Join(b.frames, '\n');
    assert KeyText(a) == a.slug + [NUL] + x;
    assert KeyText(b) == b.slug + [NUL] + y;
    CutInjective(a.slug, x, b.slug, y, NUL);
    CutInjective(a.errorClass, Join(a.frames, '\n'), b.errorClass, Join(b.frames, '\n'), NUL);
    JoinInjective(a.frames, b.frames, '\n');
  }

  predicate SameFailure(a: Grouping, b: Grouping) {
    a.slug == b.slug && a.errorClass == b.errorClass && a.frames == b.frames
  }

  /** A one-line class and frames as extraction leaves them. */
  predicate OneLined(g: Grouping) {
    '\n' !in g.errorClass && forall f :: f in g.frames ==> f != "" && '\n' !in f
  }

  /** Where the first NUL of a text is; its length when there is none. */
  function FirstNul(s: string): (i: nat)
    ensures i <= |s| && NUL !in s[..i] && (i < |s| ==> s[i] == NUL) && (i == |s| <==> NUL !in s)
  {
    if s == "" then 0
    else if s[0] == NUL then 0
    else
      var i := FirstNul(s[1..]);
      assert s[..i + 1] == [s[0]] + s[1..][..i] && s == [s[0]] + s[1..];
      i + 1
  }

  /** The class cut at its first NUL, the rest of it moved into the first frame. */
  function Shifted(g: Grouping): Grouping
    requires NUL in g.errorClass
  {
    var i := FirstNul(g.errorClass);
    var moved := g.errorClass[i + 1..] + [NUL];
    if g.frames == [] then Grouping(g.slug, g.errorClass[..i], [moved], g.strategy)
    else Grouping(g.slug, g.errorClass[..i], [moved + g.frames[0]] + g.frames[1..], g.strategy)
  }

  lemma JoinShifted(frames: seq<string>, moved: string)
    requires frames != []
    ensures Join([moved + frames[0]] + frames[1..], '\n') == moved + Join(frames, '\n')
  {
    var b := [moved + frames[0]] + frames[1..];
    if |frames| > 1 {
      assert b[1..] == frames[1..];
      assert moved + frames[0] + ['\n'] + Join(frames[1..], '\n') ==
             moved + (frames[0] + ['\n'] + Join(frames[1..], '\n'));
    }
  }

  lemma ShiftedSameKey(g: Grouping)
    requires NUL in g.errorClass
    ensures KeyText(Shifted(g)) == KeyText(g)
  {
    var i := FirstNul(g.errorClass);
    var head, rest := g.errorClass[..i], g.errorClass[i + 1..];
    var frames := Join(g.frames, '\n');
    assert g.errorClass == head + [NUL] + rest;
    if g.frames != [] { JoinShifted(g.frames, rest + [NUL]); }
    assert Join(Shifted(g).frames, '\n') == rest + [NUL] + frames;
    assert g.slug + [NUL] + (head + [NUL] + rest) + [NUL] + frames ==
           g.slug + [NUL] + head + [NUL] + (rest + [NUL] + frames);
  }

  lemma ShiftedCollides(g: Grouping)
    requires NUL in g.errorClass && NUL !in g.slug && OneLined(g)
    ensures Hash(Shifted(g)) == Hash(g) && !SameFailure(g, Shifted(g)) && Clean(Shifted(g)) && OneLined(Shifted(g))
  {
    ShiftedSameKey(g);
    assert |Shifted(g).errorClass| < |g.errorClass|;
    var b := Shifted(g);
    forall f | f in b.frames ensures f != "" && '\n' !in f {
      assert f == b.frames[0] || f in g.frames;
      if g.frames != [] { assert g.frames[0] in g.frames; }
    }
  }

  /** Exactly when the separator is not enough: a grouping with a class of one line shares its
      hash with a different failure whose own class is free of NUL if and only if there is a NUL
      in its class. */
  lemma CollidesIffNulInClass(a: Grouping)
    requires NUL !in a.slug && OneLined(a)
    ensures (exists b :: Clean(b) && OneLined(b) && Hash(b) == Hash(a) && !SameFailure(a, b)) <==> NUL in a.errorClass
  {
    if NUL in a.errorClass {
      ShiftedCollides(a);
    } else {
      forall b | Clean(b) && Hash(b) == Hash(a) ensures SameFailure(a, b) { HashSeparates(a, b); }
    }
  }

  // ---- The frame ladder ----

  function Cap(frames: seq<string>): seq<string> {
    if |frames| > MAX_FRAMES then frames[..MAX_FRAMES] else frames
  }

  predicate MatchesAnyRoot(frame: string, roots: seq<string>) {
    exists i :: 0 <= i < |roots| && MatchesRoot(frame, roots[i])
  }

  function Cleaned(root: string): string { Trim(TrimSpace(root), c => c == '/') }

  predicate MatchesRoot(frame: string, root: string) {
    Cleaned(root) != "" && Contains(frame, Cleaned(root) + "/")
  }

  predicate IsDependencyFrame(frame: string) {
    exists i :: 0 <= i < |DEPENDENCY_DIRS| && Contains(frame, DEPENDENCY_DIRS[i])
  }

  /** Appends each kept frame and stops at the fifth. */
  method FilterFrames(frames: seq<string>, keep: string -> bool) returns (out: seq<string>)
    ensures out == Cap(Kept(frames, keep))
  {
    out := [];
    var i := 0;
    while i < |frames|
      invariant 0 <= i <= |frames| && |out| < MAX_FRAMES && out == Kept(frames[..i], keep)
    {
      assert frames[..i + 1][..i] == frames[..i];
      if keep(frames[i]) { out := out + [frames[i]]; }
      i := i + 1;
      if |out| == MAX_FRAMES {
        FilterGrows(frames, i, keep);
        return;
      }
    }
    assert frames[..i] == frames;
  }

  lemma {:induction false} FilterGrows(frames: seq<string>, i: nat, keep: string -> bool)
    requires i <= |frames|
    ensures Kept(frames[..i], keep) <= Kept(frames, keep)
  {
    if i < |frames| {
      FilterGrows(frames[..|frames| - 1], i, keep);
      assert frames[..|frames| - 1][..i] == frames[..i];
    } else {
      assert frames[..i] == frames;
    }
  }

  /** The ladder: the frames under a declared root, or, without roots, those outside the
      dependency directories; all frames rather than none. */
  function SelectFrames(frames: seq<string>, roots: seq<string>): (string, seq<string>) {
    if frames == [] then (NO_FRAMES, [])
    else if roots != [] then
      var own := Cap(Kept(frames, f => MatchesAnyRoot(f, roots)));
      if own != [] then (SOURCE_ROOTS, own) else (ALL_FRAMES, Cap(frames))
    else
      var own := Cap(Kept(frames, f => !IsDependencyFrame(f)));
      if own != [] then (DENYLIST, own) else (ALL_FRAMES, Cap(frames))
  }

  method ComputeFingerprint(slug: string, errorClass: string, frames: seq<string>, roots: seq<string>)
    returns (g: Grouping, digest: Digest)
    ensures (g.strategy, g.frames) == SelectFrames(frames, roots)
    ensures g.slug == slug && g.errorClass == errorClass && digest == Hash(g)
  {
    var strategy, chosen := NO_FRAMES, [];
    if frames != [] {
      strategy, chosen := ALL_FRAMES, Cap(frames);
      if roots != [] {
        var own := FilterFrames(frames, f => MatchesAnyRoot(f, roots));
        if own != [] { strategy, chosen := SOURCE_ROOTS, own; }
      } else {
        var own := FilterFrames(frames, f => !IsDependencyFrame(f));
        if own != [] { strategy, chosen := DENYLIST, own; }
      }
    }
    g := Grouping(slug, errorClass, chosen, strategy);
    digest := Hash(g);
  }

  predicate Subsequence(a: seq<string>, b: seq<string>) {
    a == [] || (b != [] && (Subsequence(a, b[..|b| - 1])
                            || (a[|a| - 1] == b[|b| - 1] && Subsequence(a[..|a| - 1], b[..|b| - 1]))))
  }

  lemma {:induction false} FilterSubsequence(frames: seq<string>, keep: string -> bool, k: nat)
    requires k <= |Kept(frames, keep)|
    ensures Subsequence(Kept(frames, keep)[..k], frames)
    ensures forall f :: f in Kept(frames, keep) <==> f in frames && keep(f)
  {
    if frames == [] {
    } else {
      var n := |frames| - 1;
      var f := Kept(frames[..n], keep);
      assert frames == frames[..n] + [frames[n]];
      if k <= |f| {
        FilterSubsequence(frames[..n], keep, k);
        assert Kept(frames, keep)[..k] == f[..k];
      } else {
        FilterSubsequence(frames[..n], keep, |f|);
        assert Kept(frames, keep)[..k][..k - 1] == f[..|f|];
      }
    }
  }

  lemma {:induction false} CapSubsequence(frames: seq<string>, k: nat)
    requires k <= |frames|
    ensures Subsequence(frames[..k], frames)
  {
    if frames == [] {
    } else if k == |frames| {
      CapSubsequence(frames[..k - 1], k - 1);
      assert frames[..k][..k - 1] == frames[..k - 1][..k - 1] == frames[..k - 1];
    } else {
      CapSubsequence(frames[..|frames| - 1], k);
      assert frames[..|frames| - 1][..k] == frames[..k];
    }
  }

  lemma {:induction false} FilterAll(frames: seq<string>, keep: string -> bool)
    ensures (forall f :: f in frames ==> keep(f)) ==> Kept(frames, keep) == frames
    ensures (forall f :: f in frames ==> !keep(f)) ==> Kept(frames, keep) == []
  {
    if frames == [] {
    } else {
      FilterAll(frames[..|frames| - 1], keep);
      assert frames == frames[..|frames| - 1] + [frames[|frames| - 1]];
    }
  }

  /** One rung: what qualifies, capped, and what becomes of the capped lists when they are
      filtered again. */
  lemma RungHolds(frames: seq<string>, keep: string -> bool)
    ensures var own := Cap(Kept(frames, keep));
            && |own| <= MAX_FRAMES && Subsequence(own, frames) && Subsequence(Cap(frames), frames)
            && (own != [] <==> exists f :: f in frames && keep(f))
            && (forall f :: f in own ==> keep(f))
            && Cap(Kept(own, keep)) == own
            && (own == [] ==> Cap(Kept(Cap(frames), keep)) == [])
  {
    var all := Kept(frames, keep);
    var own := Cap(all);
    FilterSubsequence(frames, keep, |own|);
    assert own == all[..|own|];
    CapSubsequence(frames, |Cap(frames)|);
    assert Cap(frames) == frames[..|Cap(frames)|];
    assert forall f :: f in own ==> f in all;
    FilterAll(own, keep);
    if all != [] {
      assert all[0] in all;
    } else {
      assert forall f :: f in Cap(frames) ==> f in frames && f !in all;
      FilterAll(Cap(frames), keep);
    }
  }

  /** At most five frames, in their order, never none when there are some; which rung was
      used says exactly which frames qualify; and the recorded frames reproduce themselves,
      strategy included, so a stored fingerprint can be recomputed from its evidence. */
  lemma LadderHolds(frames: seq<string>, roots: seq<string>)
    ensures var (strategy, chosen) := SelectFrames(frames, roots);
            && |chosen| <= MAX_FRAMES && Subsequence(chosen, frames)
            && (frames != [] ==> chosen != [])
            && (strategy == NO_FRAMES <==> frames == [])
            && (strategy == SOURCE_ROOTS <==> roots != [] && exists f :: f in frames && MatchesAnyRoot(f, roots))
            && (strategy == DENYLIST <==> roots == [] && exists f :: f in frames && !IsDependencyFrame(f))
            && (strategy == SOURCE_ROOTS ==> forall f :: f in chosen ==> MatchesAnyRoot(f, roots))
            && (strategy == DENYLIST ==> forall f :: f in chosen ==> !IsDependencyFrame(f))
            && SelectFrames(chosen, roots) == (strategy, chosen)
  {
    if roots != [] {
      RungHolds(frames, f => MatchesAnyRoot(f, roots));
    } else {
      RungHolds(frames, f => !IsDependencyFrame(f));
    }
  }

  /** Which frames are chosen, by position: the first five under a declared root, or outside the
      dependency directories, or of all, as the strategy says. */
  lemma LadderPicks(frames: seq<string>, roots: seq<string>) returns (picks: seq<nat>)
    ensures var (strategy, chosen) := SelectFrames(frames, roots);
            && (strategy == SOURCE_ROOTS ==>
                  FirstOf(picks, 5, |frames|, Where(frames, f => MatchesAnyRoot(f, roots))))
            && (strategy == DENYLIST ==> FirstOf(picks, 5, |frames|, Where(frames, f => !IsDependencyFrame(f))))
            && (strategy == ALL_FRAMES ==> FirstOf(picks, 5, |frames|, Where(frames, _ => true)))
            && (strategy == NO_FRAMES ==> picks == [])
            && Gives(frames, picks, chosen)
  {
    var (strategy, chosen) := SelectFrames(frames, roots);
    if strategy == NO_FRAMES {
      picks := [];
    } else if strategy == SOURCE_ROOTS {
      picks := CapPicks(frames, f => MatchesAnyRoot(f, roots));
    } else if strategy == DENYLIST {
      picks := CapPicks(frames, f => !IsDependencyFrame(f));
    } else {
      FilterAll(frames, _ => true);
      picks := CapPicks(frames, _ => true);
    }
  }

  lemma CapPicks(frames: seq<string>, keep: string -> bool) returns (picks: seq<nat>)
    ensures FirstOf(picks, 5, |frames|, Where(frames, keep)) && Gives(frames, picks, Cap(Kept(frames, keep)))
  {
    picks := KeptFew(frames, keep, MAX_FRAMES);
  }

  /** A frame is a dependency's exactly when one of the directories stands somewhere in it. */
  lemma DependencyIff(frame: string)
    ensures IsDependencyFrame(frame) <==> exists dir, a, b :: dir in DEPENDENCY_DIRS && frame == a + dir + b
  {
    if IsDependencyFrame(frame) {
      var k: nat :| k < |DEPENDENCY_DIRS| && Contains(frame, DEPENDENCY_DIRS[k]);
      var a, b := SplitAround(frame, DEPENDENCY_DIRS[k]);
    }
    forall dir, a, b | dir in DEPENDENCY_DIRS && frame == a + dir + b ensures IsDependencyFrame(frame) {
      ContainsAround(a, dir, b);
      var k: nat :| k < |DEPENDENCY_DIRS| && DEPENDENCY_DIRS[k] == dir;
    }
  }

  /** Blanks and slashes around a root do not matter; a frame is under it exactly when the root
      and a slash stand somewhere in the frame. */
  lemma MatchesRootIff(frame: string, root: string, blank: string, slashes: string, more: string, blank': string)
    requires root != "" && !IsSpace(root[0]) && root[0] != '/' && !IsSpace(root[|root| - 1]) && root[|root| - 1] != '/'
    requires forall c :: c in blank || c in blank' ==> IsSpace(c)
    requires forall c :: c in slashes || c in more ==> c == '/'
    ensures MatchesRoot(frame, blank + (slashes + root + more) + blank')
            <==> exists a, b :: frame == a + (root + "/") + b
  {
    CleanedIs(root, blank, slashes, more, blank');
    if Contains(frame, root + "/") {
      var a, b := SplitAround(frame, root + "/");
    }
    forall a, b | frame == a + (root + "/") + b ensures Contains(frame, root + "/") {
      ContainsAround(a, root + "/", b);
    }
  }

  lemma CleanedIs(root: string, blank: string, slashes: string, more: string, blank': string)
    requires root != "" && !IsSpace(root[0]) && root[0] != '/' && !IsSpace(root[|root| - 1]) && root[|root| - 1] != '/'
    requires forall c :: c in blank || c in blank' ==> IsSpace(c)
    requires forall c :: c in slashes || c in more ==> c == '/'
    ensures Cleaned(blank + (slashes + root + more) + blank') == root
  {
    var t := slashes + root + more;
    assert t[0] == if slashes == "" then root[0] else slashes[0];
    assert t[|t| - 1] == if more == "" then root[|root| - 1] else more[|more| - 1];
    assert slashes != "" ==> slashes[0] in slashes;
    assert more != "" ==> more[|more| - 1] in more;
    TrimAround(blank, t, blank', c => IsSpace(c));
    TrimAround(slashes, root, more, c => c == '/');
  }

  // ---- CI failures: grouped by failing job and step ----

  function NormalizedSteps(steps: seq<string>, normalize: string -> string): seq<string> {
    if steps == [] then []
    else
      var s := normalize(steps[|steps| - 1]);
      NormalizedSteps(steps[..|steps| - 1], normalize) + if s != "" then [s] else []
  }

  method WorkflowFingerprint(slug: string, workflow: string, steps: seq<string>, normalize: string -> string)
    returns (g: Grouping, digest: Digest)
    ensures g == WorkflowGrouping(slug, workflow, steps, normalize) && digest == Hash(g)
  {
    var frames := [];
    for i := 0 to |steps|
      invariant frames == NormalizedSteps(steps[..i], normalize)
    {
      assert steps[..i + 1][..i] == steps[..i];
      var s := normalize(steps[i]);
      if s != "" { frames := frames + [s]; }
    }
    assert steps[..|steps|] == steps;
    g := Grouping(slug, "workflow:" + workflow, frames, WORKFLOW);
    digest := Hash(g);
  }

  function WorkflowGrouping(slug: string, workflow: string, steps: seq<string>, normalize: string -> string): Grouping {
    Grouping(slug, "workflow:" + workflow, NormalizedSteps(steps, normalize), WORKFLOW)
  }

  /** What the writer stores: nothing for no steps, else the steps joined. */
  function EncodeSteps(metadata: map<string, string>, steps: seq<string>): map<string, string> {
    if steps == [] then metadata else metadata["job_steps" := Join(steps, UNIT_SEPARATOR)]
  }

  /** What the process loop reads back: an absent or empty value is no steps. */
  function DecodeSteps(metadata: map<string, string>): seq<string> {
    if "job_steps" !in metadata || metadata["job_steps"] == "" then []
    else Split(metadata["job_steps"], UNIT_SEPARATOR)
  }

  /** Storing the steps as one string does not change how a failure is grouped, also for no
      steps and for empty step names. */
  lemma StepEncodingTransparent(slug: string, workflow: string, steps: seq<string>, metadata: map<string, string>,
                                normalize: string -> string)
    requires normalize("") == "" && "job_steps" !in metadata
    requires forall s :: s in steps ==> UNIT_SEPARATOR !in s
    ensures WorkflowGrouping(slug, workflow, DecodeSteps(EncodeSteps(metadata, steps)), normalize)
            == WorkflowGrouping(slug, workflow, steps, normalize)
  {
    if steps != [] {
      SplitJoin(steps, UNIT_SEPARATOR);
      if Join(steps, UNIT_SEPARATOR) == "" {
        assert steps == [""] by { assert |steps| > 1 ==> UNIT_SEPARATOR in Join(steps, UNIT_SEPARATOR); }
        assert NormalizedSteps([""][..0], normalize) == [];
      }
    }
  }

  lemma {:induction false} NormalizedAre(steps: seq<string>, normalize: string -> string)
    ensures forall f ::
              f in NormalizedSteps(steps, normalize) <==> f != "" && exists s :: s in steps && normalize(s) == f
  {
    if steps == [] {
    } else {
      NormalizedAre(steps[..|steps| - 1], normalize);
      assert steps == steps[..|steps| - 1] + [steps[|steps| - 1]];
    }
  }

  /** The grouping after storage and the grouping of the steps themselves. */
  ghost predicate Transparent(slug: string, workflow: string, steps: seq<string>, metadata: map<string, string>,
                              normalize: string -> string) {
    WorkflowGrouping(slug, workflow, DecodeSteps(EncodeSteps(metadata, steps)), normalize)
    == WorkflowGrouping(slug, workflow, steps, normalize)
  }

  /** Exactly when: storage is transparent under every normalisation if and only if no step
      holds the separator. A step that does is cut in two, and already the normalisation that
      changes nothing tells the two groupings apart. */
  lemma TransparentIffNoSeparator(slug: string, workflow: string, steps: seq<string>, metadata: map<string, string>)
    requires "job_steps" !in metadata
    ensures (forall n: string -> string :: n("") == "" ==> Transparent(slug, workflow, steps, metadata, n))
            <==> forall s :: s in steps ==> UNIT_SEPARATOR !in s
  {
    if forall s :: s in steps ==> UNIT_SEPARATOR !in s {
      forall n: string -> string | n("") == "" ensures Transparent(slug, workflow, steps, metadata, n) {
        StepEncodingTransparent(slug, workflow, steps, metadata, n);
      }
    } else {
      var s :| s in steps && UNIT_SEPARATOR in s;
      var same := (t: string) => t;
      var stored := DecodeSteps(EncodeSteps(metadata, steps));
      SplitParts(Join(steps, UNIT_SEPARATOR), UNIT_SEPARATOR);
      NormalizedAre(stored, same);
      NormalizedAre(steps, same);
      assert same(s) == s && s in NormalizedSteps(steps, same) && s !in NormalizedSteps(stored, same);
      assert !Transparent(slug, workflow, steps, metadata, same);
    }
  }

  function Mapped(items: seq<string>, f: string -> string): seq<string> {
    seq(|items|, i requires 0 <= i < |items| => f(items[i]))
  }

  lemma {:induction false} StepsKept(steps: seq<string>, normalize: string -> string)
    ensures NormalizedSteps(steps, normalize) == Kept(Mapped(steps, normalize), s => s != "")
  {
    if steps == [] {
    } else {
      var init := steps[..|steps| - 1];
      StepsKept(init, normalize);
      assert Mapped(steps, normalize)[..|init|] == Mapped(init, normalize);
    }
  }

  /** The steps that are not empty once normalised, in order. */
  lemma StepPicks(steps: seq<string>, normalize: string -> string) returns (picks: seq<nat>)
    ensures FirstOf(picks, |steps|, |steps|, Where(Mapped(steps, normalize), s => s != ""))
    ensures Gives(Mapped(steps, normalize), picks, NormalizedSteps(steps, normalize))
  {
    StepsKept(steps, normalize);
    picks := KeptPicks(Mapped(steps, normalize), s => s != "", |steps|);
  }

  // ---- From an incident to its grouping ----

  /** The line patterns, which are regular expressions: normalising a line, telling a stack
      frame, and the exception class a line starts with. */
  datatype Patterns = Patterns(
    normalize: string -> string, isFrame: string -> bool, typedError: string -> Option<string>)

  ghost predicate GivesOneLine(p: Patterns) { forall s :: '\n' !in p.normalize(s) }

  /** The frames of the first i lines of a body. */
  function FramesIn(lines: seq<string>, p: Patterns): seq<string> {
    if lines == [] then []
    else
      var last := lines[|lines| - 1];
      FramesIn(lines[..|lines| - 1], p)
      + if p.isFrame(last) && p.normalize(last) != "" then [p.normalize(last)] else []
  }

  method ExtractFrames(body: string, p: Patterns) returns (frames: seq<string>)
    ensures frames == BodyFrames(body, p)
  {
    frames := [];
    if body == "" { return; }
    var lines := Split(body, '\n');
    for i := 0 to |lines|
      invariant |frames| < MAX_FRAMES && frames == FramesIn(lines[..i], p)
    {
      assert lines[..i + 1][..i] == lines[..i];
      if p.isFrame(lines[i]) {
        var normalized := p.normalize(lines[i]);
        if normalized != "" { frames := frames + [normalized]; }
        if |frames| == MAX_FRAMES {
          FramesGrow(lines, i + 1, p);
          return;
        }
      }
    }
    assert lines[..|lines|] == lines;
  }

  function BodyFrames(body: string, p: Patterns): seq<string> {
    if body == "" then [] else Cap(FramesIn(Split(body, '\n'), p))
  }

  lemma {:induction false} FramesGrow(lines: seq<string>, i: nat, p: Patterns)
    requires i <= |lines|
    ensures FramesIn(lines[..i], p) <= FramesIn(lines, p)
  {
    if i < |lines| {
      FramesGrow(lines[..|lines| - 1], i, p);
      assert lines[..|lines| - 1][..i] == lines[..i];
    } else {
      assert lines[..i] == lines;
    }
  }

  /** The first line that is not blank decides; without a typed error or a panic there, the
      title does. */
  function ErrorClass(title: string, body: string, p: Patterns): string {
    match BodyClass(Split(body, '\n'), p)
    case Some(class_) => class_
    case None => if p.normalize(title) != "" then p.normalize(title) else "unknown"
  }

  function BodyClass(lines: seq<string>, p: Patterns): Option<string> {
    if lines == [] then None
    else
      var trimmed := TrimSpace(lines[0]);
      if trimmed == "" then BodyClass(lines[1..], p)
      else if p.typedError(trimmed).Some? then p.typedError(trimmed)
      else if "panic:" <= trimmed then Some("panic") else None
  }

  const WORKFLOW_FAILED := "workflow_run.failed"

  /** How the process loop groups an incident. */
  function GroupOf(row: Incident, roots: seq<string>, p: Patterns): Grouping {
    if row.kind == WORKFLOW_FAILED then
      WorkflowGrouping(row.slug, if "workflow" in row.metadata then row.metadata["workflow"] else "",
                       DecodeSteps(row.metadata), p.normalize)
    else
      var (strategy, frames) := SelectFrames(BodyFrames(row.body, p), roots);
      Grouping(row.slug, ErrorClass(row.title, row.body, p), frames, strategy)
  }

  // ---- What a grouping says, told from the incident alone ----

  /** Frames of a body, by its lines: the first five that are frames and not empty once
      normalised. */
  ghost predicate Extracted(lines: seq<string>, p: Patterns, picks: seq<nat>, frames: seq<string>) {
    && FirstOf(picks, 5, |lines|, Where(lines, s => p.isFrame(s) && p.normalize(s) != ""))
    && Gives(Mapped(lines, p.normalize), picks, frames)
  }

  /** The lines as frames; one that is none counts as empty. */
  function Framed(lines: seq<string>, p: Patterns): seq<string> {
    Mapped(lines, s => if p.isFrame(s) then p.normalize(s) else "")
  }

  lemma {:induction false} FramesKept(lines: seq<string>, p: Patterns)
    ensures FramesIn(lines, p) == Kept(Framed(lines, p), s => s != "")
  {
    if lines == [] {
    } else {
      var init := lines[..|lines| - 1];
      FramesKept(init, p);
      assert Framed(lines, p)[..|init|] == Framed(init, p);
    }
  }

  lemma FramePicks(lines: seq<string>, p: Patterns) returns (picks: seq<nat>)
    ensures FirstOf(picks, |lines|, |lines|, Where(lines, s => p.isFrame(s) && p.normalize(s) != ""))
    ensures Gives(Mapped(lines, p.normalize), picks, FramesIn(lines, p))
  {
    FramesKept(lines, p);
    picks := KeptPicks(Framed(lines, p), s => s != "", |lines|);
    SameFirst(picks, |lines|, |lines|, Where(Framed(lines, p), s => s != ""),
              Where(lines, s => p.isFrame(s) && p.normalize(s) != ""));
  }

  lemma BodyPicks(body: string, p: Patterns) returns (picks: seq<nat>)
    requires body != ""
    ensures Extracted(Split(body, '\n'), p, picks, BodyFrames(body, p))
  {
    var lines := Split(body, '\n');
    var all := FramePicks(lines, p);
    picks := Few(|lines|, all, Where(lines, s => p.isFrame(s) && p.normalize(s) != ""), 5);
  }

  /** The class: what the first line that is not blank says, else the normalised title. */
  predicate Classed(class_: string, title: string, lines: seq<string>, p: Patterns) {
    (exists i :: 0 <= i < |lines| && Leads(lines, i) && Says(class_, title, TrimSpace(lines[i]), p))
    || ((forall i :: 0 <= i < |lines| ==> TrimSpace(lines[i]) == "") && class_ == Titled(title, p))
  }

  /** The first line that is not blank. */
  predicate Leads(lines: seq<string>, i: nat)
    requires i < |lines|
  {
    TrimSpace(lines[i]) != "" && forall j :: 0 <= j < i ==> TrimSpace(lines[j]) == ""
  }

  predicate Says(class_: string, title: string, line: string, p: Patterns) {
    match p.typedError(line)
    case Some(name) => class_ == name
    case None =>
      if |line| >= 6 && line[..6] == "panic:" then class_ == "panic" else class_ == Titled(title, p)
  }

  function Titled(title: string, p: Patterns): string {
    if p.normalize(title) == "" then "unknown" else p.normalize(title)
  }

  lemma {:induction false} BodyClassed(lines: seq<string>, p: Patterns) returns (i: nat)
    ensures i <= |lines| && forall j :: 0 <= j < i ==> TrimSpace(lines[j]) == ""
    ensures i == |lines| ==> BodyClass(lines, p).None?
    ensures i < |lines| ==>
              && var line := TrimSpace(lines[i]);
              && line != ""
              && BodyClass(lines, p) == (if p.typedError(line).Some? then p.typedError(line)
                                         else if "panic:" <= line then Some("panic") else None)
  {
    if lines == [] {
      i := 0;
    } else if TrimSpace(lines[0]) != "" {
      i := 0;
    } else {
      var k := BodyClassed(lines[1..], p);
      assert forall j :: 0 < j < k + 1 ==> lines[j] == lines[1..][j - 1];
      i := k + 1;
    }
  }

  lemma ErrorClassed(title: string, body: string, p: Patterns)
    ensures Classed(ErrorClass(title, body, p), title, Split(body, '\n'), p)
  {
    var lines := Split(body, '\n');
    var i := BodyClassed(lines, p);
    if i < |lines| {
      assert Leads(lines, i);
      assert Says(ErrorClass(title, body, p), title, TrimSpace(lines[i]), p);
    }
  }

  /** The steps that a row of a failed workflow names. */
  function StepsNamed(metadata: map<string, string>): seq<string> {
    if "job_steps" in metadata && |metadata["job_steps"]| > 0 then Split(metadata["job_steps"], '\U{1F}') else []
  }

  /** What an incident must be grouped by: a failed workflow by its name and the steps that are
      not empty, anything else by the class of its text and the frames that the ladder takes. */
  ghost predicate GroupedBy(row: Incident, roots: seq<string>, p: Patterns, g: Grouping) {
    && g.slug == row.slug
    && if row.kind == "workflow_run.failed" then
         && g.strategy == "workflow"
         && g.errorClass == "workflow:" + (if "workflow" in row.metadata then row.metadata["workflow"] else "")
         && exists picks: seq<nat> ::
              Gives(Mapped(StepsNamed(row.metadata), p.normalize), picks, g.frames)
              && FirstOf(picks, |StepsNamed(row.metadata)|, |StepsNamed(row.metadata)|,
                         Where(Mapped(StepsNamed(row.metadata), p.normalize), s => s != ""))
       else
         && Classed(g.errorClass, row.title, Split(row.body, '\n'), p)
         && exists frames :: Candidates(row.body, p, frames) && (g.strategy, g.frames) == SelectFrames(frames, roots)
  }

  ghost predicate Candidates(body: string, p: Patterns, frames: seq<string>) {
    if body == "" then frames == [] else exists picks :: Extracted(Split(body, '\n'), p, picks, frames)
  }

  lemma GroupOfIs(row: Incident, roots: seq<string>, p: Patterns)
    ensures GroupedBy(row, roots, p, GroupOf(row, roots, p))
  {
    if row.kind == WORKFLOW_FAILED {
      var steps := StepsNamed(row.metadata);
      assert steps == DecodeSteps(row.metadata);
      var picks := StepPicks(steps, p.normalize);
    } else {
      ErrorClassed(row.title, row.body, p);
      if row.body != "" { var picks := BodyPicks(row.body, p); }
      assert Candidates(row.body, p, BodyFrames(row.body, p));
    }
  }

  lemma {:induction false} FramesInClean(lines: seq<string>, p: Patterns)
    requires GivesOneLine(p)
    ensures forall f :: f in FramesIn(lines, p) ==> f != "" && '\n' !in f
  {
    if lines == [] {
    } else {
      FramesInClean(lines[..|lines| - 1], p);
    }
  }

  lemma {:induction false} StepsClean(steps: seq<string>, p: Patterns)
    requires GivesOneLine(p)
    ensures forall f :: f in NormalizedSteps(steps, p.normalize) ==> f != "" && '\n' !in f
  {
    if steps == [] {
    } else {
      StepsClean(steps[..|steps| - 1], p);
    }
  }

  lemma SelectedAreFrames(frames: seq<string>, roots: seq<string>)
    ensures forall f :: f in SelectFrames(frames, roots).1 ==> f in frames
  {
    FilterSubsequence(frames, f => MatchesAnyRoot(f, roots), 0);
    FilterSubsequence(frames, f => !IsDependencyFrame(f), 0);
  }

  /** The facts used of the patterns: normalising gives one line, and a typed error is a
      name, so it holds no NUL. */
  ghost predicate Regular(p: Patterns) {
    GivesOneLine(p) && forall s :: p.typedError(s).Some? ==> NUL !in p.typedError(s).value
  }

  /** What the title and the workflow name must not hold: the name of a failed workflow any
      NUL; any other title a NUL that normalising keeps, unless the body names the class. */
  predicate NulFree(row: Incident, p: Patterns) {
    && NUL !in row.slug
    && (if row.kind == WORKFLOW_FAILED then "workflow" in row.metadata ==> NUL !in row.metadata["workflow"]
        else BodyClass(Split(row.body, '\n'), p).Some? || NUL !in p.normalize(row.title))
  }

  lemma {:induction false} BodyClassClean(lines: seq<string>, p: Patterns)
    requires Regular(p)
    ensures BodyClass(lines, p).Some? ==> NUL !in BodyClass(lines, p).value
  {
    if lines == [] {
    } else {
      BodyClassClean(lines[1..], p);
    }
  }

  /** Normalised lines are single lines, so the frames never blur the key: exactly the slug,
      the workflow name and the title can. */
  lemma GroupingsAreClean(row: Incident, roots: seq<string>, p: Patterns)
    requires Regular(p)
    ensures Clean(GroupOf(row, roots, p)) <==> NulFree(row, p)
  {
    var g := GroupOf(row, roots, p);
    if row.kind == WORKFLOW_FAILED {
      StepsClean(DecodeSteps(row.metadata), p);
      var name := if "workflow" in row.metadata then row.metadata["workflow"] else "";
      assert g.errorClass == "workflow:" + name;
      assert NUL in name ==> NUL in g.errorClass;
    } else {
      FramesInClean(Split(row.body, '\n'), p);
      assert forall f :: f in BodyFrames(row.body, p) ==> f in FramesIn(Split(row.body, '\n'), p);
      SelectedAreFrames(BodyFrames(row.body, p), roots);
      BodyClassClean(Split(row.body, '\n'), p);
    }
  }

  lemma FilterOne(f: string, keep: string -> bool)
    ensures Kept([f], keep) == if keep(f) then [f] else []
  {
    assert [f][..0] == [];
  }

  lemma OneFrame(f: string, roots: seq<string>)
    ensures SelectFrames([f], roots).1 == [f]
  {
    FilterOne(f, g => MatchesAnyRoot(g, roots));
    FilterOne(f, g => !IsDependencyFrame(g));
    LadderHolds([f], roots);
  }

  lemma TwoLines(first: string, second: string, p: Patterns)
    requires '\n' !in first && '\n' !in second && first != "" && !IsSpace(first[0])
    requires !p.isFrame(first) && p.isFrame(second) && p.normalize(second) != ""
    requires p.typedError(TrimSpace(first)).None? && !("panic:" <= TrimSpace(first))
    ensures var body := first + "\n" + second;
            BodyFrames(body, p) == [p.normalize(second)] && BodyClass(Split(body, '\n'), p).None?
  {
    var lines := [first, second];
    SplitFirst(first, second, '\n');
    SplitNoSep(second, '\n');
    assert Split(first + "\n" + second, '\n') == lines;
    assert lines[..1] == [first] && [first][..0] == [];
    assert FramesIn([first], p) == [];
    assert FramesIn(lines, p) == [p.normalize(second)];
    TrimRightKeepsFirst(first, c => IsSpace(c));
  }

  /** Two incidents that collide: a NUL at the end of one title, and at the head of a frame of
      the other. What is used of the patterns is what the expressions do to these lines. */
  lemma TitlesCollide(a: Incident, b: Incident, p: Patterns)
    requires a.kind == b.kind != WORKFLOW_FAILED && a.slug == b.slug
    requires a.title == "E" + [NUL] && a.body == "boom" + "\n" + "main.go:3"
    requires b.title == "E" && b.body == "boom" + "\n" + ([NUL] + "main.go:3")
    requires p.normalize("E" + [NUL]) == "E" + [NUL] && p.normalize("E") == "E"
    requires !p.isFrame("boom") && p.typedError("boom").None?
    requires p.isFrame("main.go:3") && p.normalize("main.go:3") == "main.go"
    requires p.isFrame([NUL] + "main.go:3") && p.normalize([NUL] + "main.go:3") == [NUL] + "main.go"
    ensures var x, y := GroupOf(a, [], p), GroupOf(b, [], p);
            Hash(x) == Hash(y) && x.errorClass != y.errorClass && x.frames != y.frames
  {
    assert TrimSpace("boom") == "boom";
    GroupOfTwoLines(a, "main.go:3", p);
    GroupOfTwoLines(b, [NUL] + "main.go:3", p);
    var x, y := GroupOf(a, [], p), GroupOf(b, [], p);
    NulMoves(x, y, "E", "main.go");
  }

  /** A NUL that ends the class of one grouping and begins the frame of the other. */
  lemma NulMoves(x: Grouping, y: Grouping, class_: string, frame: string)
    requires x.slug == y.slug && x.errorClass == class_ + [NUL] && y.errorClass == class_
    requires x.frames == [frame] && y.frames == [[NUL] + frame]
    ensures Hash(x) == Hash(y) && x.errorClass != y.errorClass && x.frames != y.frames
  {
    assert KeyText(x) == x.slug + [NUL] + (class_ + [NUL]) + [NUL] + frame;
    assert KeyText(y) == x.slug + [NUL] + class_ + [NUL] + ([NUL] + frame);
    assert KeyText(x) == KeyText(y);
    assert |x.errorClass| == |y.errorClass| + 1 && |x.frames[0]| + 1 == |y.frames[0]|;
  }

  lemma GroupOfTwoLines(row: Incident, frame: string, p: Patterns)
    requires row.kind != WORKFLOW_FAILED && row.body == "boom" + "\n" + frame && '\n' !in frame
    requires !p.isFrame("boom") && p.typedError("boom").None? && TrimSpace("boom") == "boom"
    requires p.isFrame(frame) && p.normalize(frame) != "" && p.normalize(row.title) != ""
    ensures var g := GroupOf(row, [], p);
            g.slug == row.slug && g.errorClass == p.normalize(row.title) && g.frames == [p.normalize(frame)]
  {
    TwoLines("boom", frame, p);
    OneFrame(p.normalize(frame), []);
  }
}
