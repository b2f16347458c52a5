/** Source roots: which of those that validation accepts stay inside the repository, and which
    can match a frame. */
module Roots {
  import opened Wrappers
  import opened Text
  import opened Fingerprint
  import opened Config
  import opened Passes

  // ---- Roots that leave the repository ----

  /** Where a path leads, as a depth below the repository; none when it has left it. */
  function Walk(parts: seq<string>): Option<nat> {
    if parts == [] then Some(0)
    else match Walk(parts[..|parts| - 1])
      case None => None
      case Some(depth) =>
        var last := parts[|parts| - 1];
        if last == "" || last == "." then Some(depth)
        else if last == ".." then if depth == 0 then None else Some(depth - 1)
        else Some(depth + 1)
  }

  predicate Stays(path: string) { Walk(Split(path, '/')).Some? }

  /** A part that leads nowhere. */
  predicate Idle(part: string) { part == "" || part == "." }

  lemma {:induction false} WalkForward(parts: seq<string>)
    requires forall i :: 0 <= i < |parts| ==> parts[i] != ".."
    ensures Walk(parts).Some? && (Walk(parts).value == 0 <==> forall i :: 0 <= i < |parts| ==> Idle(parts[i]))
  {
    if parts == [] {
    } else {
      WalkForward(parts[..|parts| - 1]);
      assert forall i :: 0 <= i < |parts| - 1 ==> parts[..|parts| - 1][i] == parts[i];
    }
  }

  /** Where a part that leads upward stands, in the text. */
  lemma {:induction false} UpwardPart(t: string, i: nat)
    requires i < |Split(t, '/')| && Split(t, '/')[i] == ".."
    ensures i + 1 < |Split(t, '/')| ==> "../" <= t || Contains(t, "/../")
    ensures i == 0 ==> t == ".." || "../" <= t
  {
    var parts := Split(t, '/');
    if '/' !in t {
      SplitNoSep(t, '/');
    } else {
      var k := FirstSlash(t);
      SplitFirst(t[..k], t[k + 1..], '/');
      assert t == t[..k] + ['/'] + t[k + 1..];
      if i > 0 {
        UpwardPart(t[k + 1..], i - 1);
        if i + 1 < |parts| {
          if "../" <= t[k + 1..] {
            assert t[k..k + 4] == "/../";
            assert HasAt(t, k, "/../");
          } else {
            var j :| 0 <= j <= |t[k + 1..]| && HasAt(t[k + 1..], j, "/../");
            assert t[k + 1..][j..j + 4] == t[k + 1 + j..k + 1 + j + 4];
            assert HasAt(t, k + 1 + j, "/../");
          }
        }
      }
    }
  }

  function FirstSlash(t: string): (k: nat)
    requires '/' in t
    ensures k < |t| && t[k] == '/' && '/' !in t[..k]
  {
    if t[0] == '/' then 0
    else
      var k := FirstSlash(t[1..]);
      assert t[..k + 1] == [t[0]] + t[1..][..k];
      k + 1
  }

  /** Which accepted roots stay inside the repository: all but those that end in a part that
      leads upward and have nothing before it to come up from, such as "./..". */
  lemma RootStaysIff(root: string)
    requires RootOk(root)
    ensures var parts := Split(TrimSpace(root), '/');
            Stays(TrimSpace(root)) <==>
            !(parts[|parts| - 1] == ".." && forall i :: 0 <= i < |parts| - 1 ==> Idle(parts[i]))
  {
    var t := TrimSpace(root);
    var parts := Split(t, '/');
    forall i | 0 <= i < |parts| - 1 ensures parts[i] != ".." {
      if parts[i] == ".." { UpwardPart(t, i); }
    }
    assert forall i :: 0 <= i < |parts| - 1 ==> parts[..|parts| - 1][i] == parts[i];
    WalkForward(parts[..|parts| - 1]);
  }

  /** One that validation accepts and that leaves the repository. */
  lemma AcceptedRootLeaves()
    ensures RootOk("./..") && !Stays("./..")
  {
    var t := "./..";
    assert TrimSpace(t) == t;
    assert !HasAt(t, 0, "/../");
    forall i | 0 <= i <= |t| ensures !HasAt(t, i, "/../") {
      if i + 4 <= |t| { assert i == 0 && t[0..4][0] == '.'; }
    }
    SplitFirst(".", "..", '/');
    assert t == "." + ['/'] + "..";
    SplitNoSep("..", '/');
    assert Split(t, '/') == [".", ".."];
    RootStaysIff(t);
  }

  // ---- Roots that match nothing ----

  /** A number of its own, with something on either side. */
  ghost predicate HasInnerInt(s: string) {
    exists a: nat, b: nat :: 0 < a && b < |s| && BareIntAt(s, a, b)
  }

  /** What matching looks for. */
  function Wanted(root: string): string { Cleaned(root) + "/" }

  ghost predicate MatchesNothing(root: string) { forall line :: !MatchesRoot(Normalized(line), root) }

  /** What survives normalising inside any frame. */
  ghost predicate Survives(wanted: string) { !HasInnerInt(wanted) && SingleBlanks(wanted) }

  /** Normalising replaces every number of its own and every run of blanks, so a root that
      holds a number after its first character, or blanks that are not single spaces, never
      matches a frame. This is so of every root. */
  lemma NoneMatches(root: string)
    requires Cleaned(root) != "" && !Survives(Wanted(root))
    ensures MatchesNothing(root)
  {
    forall line ensures !MatchesRoot(Normalized(line), root) {
      if MatchesRoot(Normalized(line), root) {
        var i: nat :| HasAt(Normalized(line), i, Wanted(root));
        NoIntLeft(line);
        BlanksLeftSingle(line);
        SingleWithin(Normalized(line), i, Wanted(root));
        InnerStays(Normalized(line), i, Wanted(root));
      }
    }
  }

  lemma InnerStays(frame: string, i: nat, wanted: string)
    requires HasAt(frame, i, wanted) && HasInnerInt(wanted)
    ensures HasBareInt(frame)
  {
    var a: nat, b: nat :| 0 < a && b < |wanted| && BareIntAt(wanted, a, b);
    assert forall k :: 0 <= k < |wanted| ==> frame[i + k] == wanted[k] by {
      assert forall k :: 0 <= k < |wanted| ==> frame[i..i + |wanted|][k] == wanted[k];
    }
    assert forall k :: i + a <= k < i + b ==> frame[k] == wanted[k - i];
    assert BareIntAt(frame, i + a, i + b);
  }

  /** A path that ends in the root, in a segment that begins before it. */
  function Probe(root: string): string { "x" + Wanted(root) }

  lemma ProbeInner(wanted: string, a: nat, b: nat)
    requires wanted != "" && wanted[|wanted| - 1] == '/' && BareIntAt("x" + wanted, a, b)
    ensures HasInnerInt(wanted)
  {
    var probe := "x" + wanted;
    assert forall k :: 1 <= k < |probe| ==> probe[k] == wanted[k - 1];
    assert IsDigit(probe[a]) && probe[0] == 'x' && IsDigit(probe[b - 1]);
    assert a >= 2;
    assert forall k :: a - 1 <= k < b - 1 ==> wanted[k] == probe[k + 1];
    assert BareIntAt(wanted, a - 1, b - 1);
  }

  lemma ProbeSingle(wanted: string)
    requires SingleBlanks(wanted)
    ensures SingleBlanks("x" + wanted)
  {
    var probe := "x" + wanted;
    forall k | 0 <= k < |probe| && IsBlank(probe[k])
      ensures probe[k] == ' ' && (k + 1 < |probe| ==> !IsBlank(probe[k + 1]))
    {
      assert probe[k] == wanted[k - 1];
      if k + 1 < |probe| { assert probe[k + 1] == wanted[k]; }
    }
  }

  lemma ProbeBare(root: string)
    requires HasBareInt(Probe(root))
    ensures HasInnerInt(Wanted(root))
  {
    var a, b :| BareIntAt(Probe(root), a, b);
    ProbeInner(Wanted(root), a, b);
  }

  lemma ProbeMatches(root: string, line: string)
    requires Cleaned(root) != "" && Normalized(line) == Probe(root)
    ensures MatchesRoot(Normalized(line), root)
  {
    assert HasAt(Probe(root), 1, Wanted(root));
  }

  lemma SomeMatches(root: string)
    requires Cleaned(root) != "" && Survives(Wanted(root)) && Settled(Probe(root))
    ensures !MatchesNothing(root)
  {
    if HasBareInt(Probe(root)) { ProbeBare(root); }
    ProbeSingle(Wanted(root));
    var line := SettledComesOut(Probe(root));
    ProbeMatches(root, line);
  }

  /** Exactly which roots can match, among those with no identifier, address or line number
      in them: the ones without a number of its own after the first character, and without
      blanks that are not single spaces. */
  lemma RootMatchesIff(root: string)
    requires Cleaned(root) != "" && Settled(Probe(root))
    ensures (exists line :: MatchesRoot(Normalized(line), root)) <==>
            !HasInnerInt(Wanted(root)) && SingleBlanks(Wanted(root))
  {
    if Survives(Wanted(root)) {
      SomeMatches(root);
    } else {
      NoneMatches(root);
    }
  }

  lemma NoDotsNoLeaving(root: string)
    requires forall i :: 0 <= i < |root| ==> root[i] != '.'
    ensures !LeavesRepository(root)
  {
    AbsentChar(root, "/../", 1);
    assert "../"[0] == ".."[0] == '.';
  }

  /** Three that validation accepts and no frame can ever match: a segment that is a number,
      a number that only ends a segment, and two blanks. */
  lemma AcceptedRootMatchesNothing()
    ensures forall root :: root in {"api/2/src", "api-2/src", "my  lib"} ==> RootOk(root) && MatchesNothing(root)
  {
    NumberMatchesNothing("api/2/src");
    NumberMatchesNothing("api-2/src");
    TwoBlanksMatchNothing();
  }

  lemma NumberMatchesNothing(root: string)
    requires root == "api/2/src" || root == "api-2/src"
    ensures RootOk(root) && MatchesNothing(root)
  {
    assert TrimSpace(root) == root && Cleaned(root) == root;
    NoDotsNoLeaving(root);
    assert BareIntAt(Wanted(root), 4, 5);
    NoneMatches(root);
  }

  lemma TwoBlanksMatchNothing()
    ensures RootOk("my  lib") && MatchesNothing("my  lib")
  {
    var root := "my  lib";
    assert TrimSpace(root) == root && Cleaned(root) == root;
    NoDotsNoLeaving(root);
    assert IsBlank(Wanted(root)[2]) && IsBlank(Wanted(root)[3]);
    NoneMatches(root);
  }
}
