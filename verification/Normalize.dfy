/** Erasing the checkout root from a stack frame, by string search. The program searches bytes;
    a character outside ASCII is no part of a path, like each of its bytes. */
module Normalize {
  import opened Text

  /** A prefix or marker: a slash and at least one byte more. */
  type Mark = m: string | |m| >= 2 && m[0] == '/' witness "/a"

  const ABSOLUTE_PREFIXES: seq<Mark> := [
    "/home/runner/work/", "/github/workspace/", "/workspace/", "/app/",
    "/usr/src/app/", "/var/task/", "/srv/", "/opt/app/"]

  const SOURCE_MARKERS: seq<Mark> := ["/src/", "/internal/", "/cmd/", "/lib/", "/app/", "/pkg/"]

  predicate IsPathByte(b: char) {
    'a' <= b <= 'z' || 'A' <= b <= 'Z' || '0' <= b <= '9' || b == '.' || b == '-' || b == '_' || b == '~'
  }

  predicate EndsToken(b: char) { b == ' ' || b == '\t' || b == '(' }

  predicate AtPathStart(s: string, i: nat)
    requires i <= |s|
  {
    i == 0 || !IsPathByte(s[i - 1])
  }

  /** A slash that begins an absolute path. */
  predicate StartsPath(s: string, i: nat) { i < |s| && s[i] == '/' && AtPathStart(s, i) }

  ghost predicate NoPathStart(s: string) { forall i :: 0 <= i < |s| ==> !StartsPath(s, i) }

  /** The first occurrence at or after `from` that begins an absolute path, or -1. */
  function FirstAbsolute(s: string, prefix: string, from: nat): (r: int)
    ensures -1 <= r
    ensures r >= 0 ==> from <= r < |s| && HasAt(s, r, prefix) && AtPathStart(s, r)
    decreases |s| - from
  {
    if from >= |s| then -1
    else if HasAt(s, from, prefix) && AtPathStart(s, from) then from
    else FirstAbsolute(s, prefix, from + 1)
  }

  /** The first occurrence at or after `from`, or -1. */
  method Index(s: string, sub: string, from: nat) returns (r: int)
    requires from <= |s|
    ensures r >= 0 ==> from <= r <= |s| && HasAt(s, r, sub) && forall i :: from <= i < r ==> !HasAt(s, i, sub)
    ensures r < 0 ==> forall i :: from <= i <= |s| ==> !HasAt(s, i, sub)
  {
    var i := from;
    while i <= |s|
      invariant from <= i <= |s| + 1 && forall k :: from <= k < i ==> !HasAt(s, k, sub)
    {
      if HasAt(s, i, sub) { return i; }
      i := i + 1;
    }
    r := -1;
  }

  method IndexAbsolute(s: string, prefix: string) returns (r: int)
    requires prefix != ""
    ensures r == FirstAbsolute(s, prefix, 0)
  {
    var from := 0;
    while from < |s|
      invariant from <= |s| && FirstAbsolute(s, prefix, 0) == FirstAbsolute(s, prefix, from)
    {
      var idx := Index(s, prefix, from);
      if idx < 0 {
        SkipTo(s, prefix, from, |s|);
        return -1;
      }
      SkipTo(s, prefix, from, idx);
      if AtPathStart(s, idx) { return idx; }
      from := idx + 1;
    }
    r := -1;
  }

  lemma {:induction false} SkipTo(s: string, prefix: string, from: nat, to: nat)
    requires from <= to <= |s| && forall i :: from <= i < to ==> !(HasAt(s, i, prefix) && AtPathStart(s, i))
    ensures FirstAbsolute(s, prefix, from) == FirstAbsolute(s, prefix, to)
    decreases |s| - from
  {
    if from >= to {
    } else {
      SkipTo(s, prefix, from + 1, to);
    }
  }

  /** The last occurrence before `end`, or -1. */
  function LastBefore(s: string, sub: string, end: nat): (r: int)
    requires end <= |s| + 1
    ensures -1 <= r < end
    ensures r >= 0 ==> HasAt(s, r, sub)
    ensures forall i :: r < i < end ==> !HasAt(s, i, sub)
  {
    if end == 0 then -1 else if HasAt(s, end - 1, sub) then end - 1 else LastBefore(s, sub, end - 1)
  }

  function LastIndex(s: string, sub: string): int { LastBefore(s, sub, |s| + 1) }

  /** Where the whitespace- or parenthesis-delimited token holding position i begins. */
  function TokenStart(s: string, i: nat): (start: nat)
    requires i < |s| && !EndsToken(s[i])
    ensures start <= i && (start == 0 || EndsToken(s[start - 1]))
    ensures forall k :: start <= k <= i ==> !EndsToken(s[k])
  {
    if i == 0 || EndsToken(s[i - 1]) then i else TokenStart(s, i - 1)
  }

  /** Cutting out one prefix where it begins an absolute path. */
  function CutPrefix(s: string, prefix: Mark): (string, bool) {
    var i := FirstAbsolute(s, prefix, 0);
    if i >= 0 then (s[..i] + s[i + |prefix|..], true) else (s, false)
  }

  /** Keeping an absolute token from its last source directory onward. */
  function CutAtMarker(s: string, marker: Mark): (string, bool) {
    var i := LastIndex(s, marker);
    if i <= 0 then (s, false)
    else
      var start := TokenStart(s, i);
      if s[start] != '/' then (s, false) else (s[..start] + s[i + 1..], true)
  }

  /** The first prefix from the k-th on that matches, else the first marker, else nothing. */
  function StripFrom(s: string, prefixes: seq<Mark>, markers: seq<Mark>, k: nat): string
    decreases |prefixes| - k
  {
    if k >= |prefixes| then StripMarkers(s, markers, 0)
    else
      var (r, done) := CutPrefix(s, prefixes[k]);
      if done then r else StripFrom(s, prefixes, markers, k + 1)
  }

  function StripMarkers(s: string, markers: seq<Mark>, k: nat): string
    decreases |markers| - k
  {
    if k >= |markers| then s
    else
      var (r, done) := CutAtMarker(s, markers[k]);
      if done then r else StripMarkers(s, markers, k + 1)
  }

  function Strip(s: string): string { StripFrom(s, ABSOLUTE_PREFIXES, SOURCE_MARKERS, 0) }

  method StripAbsolutePrefix(s: string) returns (r: string)
    ensures r == Strip(s)
  {
    var prefixes := ABSOLUTE_PREFIXES;
    for k := 0 to |prefixes|
      invariant Strip(s) == StripFrom(s, prefixes, SOURCE_MARKERS, k)
    {
      var prefix := prefixes[k];
      var idx := IndexAbsolute(s, prefix);
      assert (idx >= 0) == CutPrefix(s, prefix).1;
      if idx >= 0 { return s[..idx] + s[idx + |prefix|..]; }
    }
    r := StripAtMarker(s, SOURCE_MARKERS);
  }

  method CutToken(s: string, marker: Mark) returns (r: string, done: bool)
    ensures (r, done) == CutAtMarker(s, marker)
  {
    r, done := s, false;
    var idx := LastIndex(s, marker);
    if idx <= 0 { return; }
    var start := TokenStart(s, idx);
    if s[start] != '/' { return; }
    r, done := s[..start] + s[idx + 1..], true;
  }

  method StripAtMarker(s: string, markers: seq<Mark>) returns (r: string)
    ensures r == StripMarkers(s, markers, 0)
  {
    for k := 0 to |markers|
      invariant StripMarkers(s, markers, 0) == StripMarkers(s, markers, k)
    {
      var cut, done := CutToken(s, markers[k]);
      if done { return cut; }
    }
    r := s;
  }

  // ---- What stripping achieves ----

  /** A line with no absolute path in it is returned as it is. */
  lemma RelativeUnchanged(s: string)
    requires NoPathStart(s)
    ensures Strip(s) == s
  {
    forall k | 0 <= k < |ABSOLUTE_PREFIXES| ensures FirstAbsolute(s, ABSOLUTE_PREFIXES[k], 0) < 0 {
      NoPrefix(s, ABSOLUTE_PREFIXES[k]);
    }
    SkipPrefixes(s, ABSOLUTE_PREFIXES, SOURCE_MARKERS, 0);
    NoMarkerFrom(s, SOURCE_MARKERS, 0);
  }

  lemma NoPrefix(s: string, prefix: Mark)
    requires NoPathStart(s)
    ensures FirstAbsolute(s, prefix, 0) < 0
  {
    var i := FirstAbsolute(s, prefix, 0);
    assert i >= 0 ==> s[i] == prefix[0] == '/' && StartsPath(s, i);
  }

  lemma {:induction false} SkipPrefixes(s: string, prefixes: seq<Mark>, markers: seq<Mark>, k: nat)
    requires forall j :: 0 <= j < |prefixes| ==> FirstAbsolute(s, prefixes[j], 0) < 0
    ensures StripFrom(s, prefixes, markers, k) == StripMarkers(s, markers, 0)
    decreases |prefixes| - k
  {
    if k >= |prefixes| {
    } else {
      SkipPrefixes(s, prefixes, markers, k + 1);
    }
  }

  lemma {:induction false} NoMarkerFrom(s: string, markers: seq<Mark>, k: nat)
    requires NoPathStart(s)
    ensures StripMarkers(s, markers, k) == s
    decreases |markers| - k
  {
    if k >= |markers| {
    } else {
      var i := LastIndex(s, markers[k]);
      if i > 0 {
        var start := TokenStart(s, i);
        assert s[start] == '/' ==> StartsPath(s, start);
      }
      NoMarkerFrom(s, markers, k + 1);
    }
  }

  /** A prefix ends in a slash and holds no other slash, but its first, that follows a
      non-path byte. */
  predicate IsRoot(p: Mark) {
    p[|p| - 1] == '/' && forall i :: 1 <= i < |p| && p[i] == '/' ==> IsPathByte(p[i - 1])
  }

  predicate ToldApart(marks: seq<Mark>) {
    forall i, j :: 0 <= i < j < |marks| ==> marks[i][1] != marks[j][1]
  }

  lemma PrefixByte(k: nat)
    requires k < |ABSOLUTE_PREFIXES|
    ensures ABSOLUTE_PREFIXES[k][1] == "hgwauvso"[k]
  {}

  lemma PrefixShape(k: nat)
    requires k < |ABSOLUTE_PREFIXES|
    ensures IsRoot(ABSOLUTE_PREFIXES[k])
  {
    if k < 4 { EarlyPrefix(k); } else { LatePrefix(k); }
  }

  lemma EarlyPrefix(k: nat)
    requires k < 4
    ensures IsRoot(ABSOLUTE_PREFIXES[k])
  {}

  lemma LatePrefix(k: nat)
    requires 4 <= k < |ABSOLUTE_PREFIXES|
    ensures IsRoot(ABSOLUTE_PREFIXES[k])
  {}

  lemma MarkerShape(k: nat)
    requires k < |SOURCE_MARKERS|
    ensures SOURCE_MARKERS[k][1] == "siclap"[k]
  {}

  /** The prefixes are roots; prefixes, and also markers, differ at their second byte. */
  lemma Shapes()
    ensures forall k :: 0 <= k < |ABSOLUTE_PREFIXES| ==> IsRoot(ABSOLUTE_PREFIXES[k])
    ensures ToldApart(ABSOLUTE_PREFIXES) && ToldApart(SOURCE_MARKERS)
  {
    forall k | 0 <= k < |ABSOLUTE_PREFIXES|
      ensures IsRoot(ABSOLUTE_PREFIXES[k]) && ABSOLUTE_PREFIXES[k][1] == "hgwauvso"[k]
    {
      PrefixByte(k);
      PrefixShape(k);
    }
    forall k | 0 <= k < |SOURCE_MARKERS| ensures SOURCE_MARKERS[k][1] == "siclap"[k] { MarkerShape(k); }
    Distinct(ABSOLUTE_PREFIXES, "hgwauvso");
    Distinct(SOURCE_MARKERS, "siclap");
  }

  lemma Distinct(marks: seq<Mark>, bytes: string)
    requires |marks| == |bytes| && forall k :: 0 <= k < |marks| ==> marks[k][1] == bytes[k]
    requires forall i, j :: 0 <= i < j < |bytes| ==> bytes[i] != bytes[j]
    ensures ToldApart(marks)
  {}

  lemma OnlyStart(lead: string, p: Mark, rel: string, i: nat)
    requires NoPathStart(lead) && NoPathStart(rel) && IsRoot(p)
    requires i < |lead + p + rel| && i != |lead|
    ensures !StartsPath(lead + p + rel, i)
  {
    var s := lead + p + rel;
    if i < |lead| {
      assert StartsPath(s, i) == StartsPath(lead, i);
    } else if i < |lead| + |p| {
      assert s[i] == p[i - |lead|] && s[i - 1] == p[i - 1 - |lead|];
    } else {
      var at := i - |lead| - |p|;
      assert s[i] == rel[at] && (at > 0 ==> s[i - 1] == rel[at - 1]);
      assert !StartsPath(rel, at);
    }
  }

  lemma RootSplit(lead: string, p: Mark, rel: string)
    requires NoPathStart(lead) && NoPathStart(rel) && AtPathStart(lead, |lead|) && IsRoot(p)
    ensures var s := lead + p + rel;
            && HasAt(s, |lead|, p) && AtPathStart(s, |lead|)
            && (forall i :: 0 <= i < |s| && StartsPath(s, i) ==> i == |lead|)
            && s[..|lead|] + s[|lead| + |p|..] == lead + rel
  {
    var s := lead + p + rel;
    forall i | 0 <= i < |s| && i != |lead| ensures !StartsPath(s, i) { OnlyStart(lead, p, rel, i); }
    assert s[|lead|..|lead| + |p|] == p;
    assert |lead| > 0 ==> s[|lead| - 1] == lead[|lead| - 1];
  }

  /** Checkout-root independence: a frame is the same text under every listed root. */
  lemma RootIndependence(lead: string, k: nat, rel: string)
    requires k < |ABSOLUTE_PREFIXES|
    requires NoPathStart(lead) && NoPathStart(rel) && AtPathStart(lead, |lead|)
    ensures Strip(lead + ABSOLUTE_PREFIXES[k] + rel) == lead + rel
  {
    Shapes();
    var p := ABSOLUTE_PREFIXES[k];
    RootSplit(lead, p, rel);
    OnlyPrefixFrom(lead + p + rel, |lead|, ABSOLUTE_PREFIXES, SOURCE_MARKERS, k, 0);
  }

  lemma {:induction false} OnlyPrefixFrom(s: string, at: nat, prefixes: seq<Mark>, markers: seq<Mark>, k: nat, j: nat)
    requires j <= k < |prefixes| && ToldApart(prefixes)
    requires HasAt(s, at, prefixes[k]) && AtPathStart(s, at)
    requires forall i :: 0 <= i < |s| && StartsPath(s, i) ==> i == at
    ensures StripFrom(s, prefixes, markers, j) == s[..at] + s[at + |prefixes[k]|..]
    decreases k - j
  {
    if j == k {
      FoundAt(s, prefixes[k], at);
    } else {
      NotFound(s, at, prefixes[k], prefixes[j]);
      OnlyPrefixFrom(s, at, prefixes, markers, k, j + 1);
    }
  }

  lemma FoundAt(s: string, q: Mark, at: nat)
    requires HasAt(s, at, q) && AtPathStart(s, at)
    requires forall i :: 0 <= i < |s| && StartsPath(s, i) ==> i == at
    ensures FirstAbsolute(s, q, 0) == at
  {
    forall i | 0 <= i < at ensures !(HasAt(s, i, q) && AtPathStart(s, i)) {
      assert HasAt(s, i, q) ==> s[i] == q[0];
      assert !StartsPath(s, i);
    }
    SkipTo(s, q, 0, at);
  }

  lemma NotFound(s: string, at: nat, p: Mark, q: Mark)
    requires HasAt(s, at, p) && p[1] != q[1]
    requires forall i :: 0 <= i < |s| && StartsPath(s, i) ==> i == at
    ensures FirstAbsolute(s, q, 0) < 0
  {
    var i := FirstAbsolute(s, q, 0);
    assert s[at..at + |p|][1] == s[at + 1];
    if i >= 0 {
      assert s[i] == q[0] && s[i + 1] == q[1];
      assert StartsPath(s, i);
    }
  }

  /** Elsewhere: an absolute token that no listed root begins is cut at the last occurrence
      of the first marker it holds, so the text no longer depends on what came before. */
  lemma MarkerCut(lead: string, root: string, m: nat, rel: string)
    requires m < |SOURCE_MARKERS| && root != "" && root[0] == '/'
    requires lead == "" || EndsToken(lead[|lead| - 1])
    requires forall c :: c in root ==> !EndsToken(c)
    requires var s := lead + root + SOURCE_MARKERS[m] + rel;
             && NoListedRoot(s) && (forall k :: 0 <= k < m ==> LastIndex(s, SOURCE_MARKERS[k]) <= 0)
             && LastIndex(s, SOURCE_MARKERS[m]) == |lead| + |root|
    ensures Strip(lead + root + SOURCE_MARKERS[m] + rel) == lead + SOURCE_MARKERS[m][1..] + rel
  {
    var s := lead + root + SOURCE_MARKERS[m] + rel;
    SkipPrefixes(s, ABSOLUTE_PREFIXES, SOURCE_MARKERS, 0);
    SkipMarkers(s, SOURCE_MARKERS, 0, m);
    TokenCut(lead, root, SOURCE_MARKERS[m], rel);
  }

  lemma {:induction false} SkipMarkers(s: string, markers: seq<Mark>, k: nat, m: nat)
    requires k <= m < |markers| && forall j :: 0 <= j < m ==> LastIndex(s, markers[j]) <= 0
    ensures StripMarkers(s, markers, k) == StripMarkers(s, markers, m)
    decreases m - k
  {
    if k == m {
    } else {
      SkipMarkers(s, markers, k + 1, m);
    }
  }

  lemma TokenCut(lead: string, root: string, mark: Mark, rel: string)
    requires root != "" && root[0] == '/' && (lead == "" || EndsToken(lead[|lead| - 1]))
    requires forall c :: c in root ==> !EndsToken(c)
    requires LastIndex(lead + root + mark + rel, mark) == |lead| + |root|
    ensures CutAtMarker(lead + root + mark + rel, mark) == (lead + mark[1..] + rel, true)
  {
    var s := lead + root + mark + rel;
    var i := |lead| + |root|;
    assert forall k :: |lead| <= k < i ==> s[k] == root[k - |lead|] && s[k] in root;
    assert |lead| > 0 ==> s[|lead| - 1] == lead[|lead| - 1];
    assert s[i] == mark[0];
    TokenStartIs(s, |lead|, i);
    assert s[..|lead|] == lead && s[|lead|] == root[0];
    assert s[i + 1..] == mark[1..] + rel;
    assert lead + (mark[1..] + rel) == lead + mark[1..] + rel;
  }

  // ---- Exactly which marker decides ----

  /** A slash that begins a token. */
  predicate StartsToken(s: string, i: nat) { i < |s| && s[i] == '/' && (i == 0 || EndsToken(s[i - 1])) }

  /** The only absolute token of a line begins at `at`. */
  ghost predicate OneToken(s: string, at: nat) {
    StartsToken(s, at) && forall i: nat :: StartsToken(s, i) ==> i == at
  }

  predicate Cuts(s: string, marker: Mark) { CutAtMarker(s, marker).1 }

  ghost predicate NoneCuts(s: string, markers: seq<Mark>, from: nat, to: nat)
    requires to <= |markers|
  {
    forall i :: from <= i < to ==> !Cuts(s, markers[i])
  }

  /** The part of a line that is kept when its token is cut at p. */
  function KeptFrom(s: string, at: nat, p: nat): string
    requires at <= p < |s|
  {
    s[..at] + s[p + 1..]
  }

  /** A cut at a marker leaves what follows its last occurrence in the token. */
  predicate CutLeaves(s: string, at: nat, marker: Mark, text: string) {
    var q := LastIndex(s, marker);
    Cuts(s, marker) && at <= q < |s| && text == KeptFrom(s, at, q)
  }

  lemma CutForm(s: string, at: nat, marker: Mark)
    requires OneToken(s, at) && Cuts(s, marker)
    ensures CutLeaves(s, at, marker, CutAtMarker(s, marker).0)
  {
    var q := LastIndex(s, marker);
    assert StartsToken(s, TokenStart(s, q));
  }

  lemma StripStep(s: string, markers: seq<Mark>, k: nat)
    requires k < |markers|
    ensures StripMarkers(s, markers, k) ==
            if Cuts(s, markers[k]) then CutAtMarker(s, markers[k]).0 else StripMarkers(s, markers, k + 1)
  {}

  /** The first marker that cuts, if any, and what it leaves. */
  lemma {:induction false} FirstCut(s: string, at: nat, markers: seq<Mark>, k: nat) returns (j: nat)
    requires k <= |markers| && OneToken(s, at)
    ensures k <= j <= |markers| && NoneCuts(s, markers, k, j)
    ensures if j == |markers| then StripMarkers(s, markers, k) == s
            else CutLeaves(s, at, markers[j], StripMarkers(s, markers, k))
    decreases |markers| - k
  {
    if k == |markers| {
      j := k;
    } else {
      StripStep(s, markers, k);
      if Cuts(s, markers[k]) {
        CutForm(s, at, markers[k]);
        j := k;
      } else {
        j := FirstCut(s, at, markers, k + 1);
      }
    }
  }

  lemma {:induction false} TokenStartIs(s: string, at: nat, p: nat)
    requires at <= p < |s| && (at == 0 || EndsToken(s[at - 1])) && forall k :: at <= k <= p ==> !EndsToken(s[k])
    ensures TokenStart(s, p) == at
  {
    if p == at {
    } else {
      TokenStartIs(s, at, p - 1);
    }
  }

  lemma CutsHere(s: string, at: nat, marker: Mark, p: nat)
    requires OneToken(s, at) && at <= p < |s| && 0 < p
    requires LastIndex(s, marker) == p && forall k :: at <= k <= p ==> !EndsToken(s[k])
    ensures Cuts(s, marker)
  {
    TokenStartIs(s, at, p);
  }

  lemma SameMarker(s: string, p: nat, markers: seq<Mark>, j: nat, k: nat)
    requires j < |markers| && k < |markers| && ToldApart(markers)
    requires HasAt(s, p, markers[j]) && HasAt(s, p, markers[k])
    ensures j == k
  {
    assert s[p..p + |markers[j]|][1] == s[p + 1] == s[p..p + |markers[k]|][1];
  }

  /** Exactly when a token is kept from p onward: no earlier marker cuts the line, and p is
      the last occurrence of this one. */
  lemma KeptFromIff(s: string, at: nat, markers: seq<Mark>, m: nat, p: nat)
    requires m < |markers| && ToldApart(markers) && OneToken(s, at)
    requires at <= p < |s| && 0 < p && HasAt(s, p, markers[m])
    requires forall k :: at <= k <= p ==> !EndsToken(s[k])
    ensures StripMarkers(s, markers, 0) == KeptFrom(s, at, p) <==>
            NoneCuts(s, markers, 0, m) && LastIndex(s, markers[m]) == p
  {
    var j := FirstCut(s, at, markers, 0);
    if NoneCuts(s, markers, 0, m) && LastIndex(s, markers[m]) == p {
      CutsHere(s, at, markers[m], p);
      assert j == m;
    }
    if StripMarkers(s, markers, 0) == KeptFrom(s, at, p) { KeptSame(s, at, markers, j, m, p); }
  }

  /** Texts of one length are cut at one place. */
  lemma KeptSame(s: string, at: nat, markers: seq<Mark>, j: nat, m: nat, p: nat)
    requires m < |markers| && j <= |markers| && ToldApart(markers) && at <= p < |s| && HasAt(s, p, markers[m])
    requires j == |markers| ==> KeptFrom(s, at, p) == s
    requires j < |markers| ==> CutLeaves(s, at, markers[j], KeptFrom(s, at, p))
    ensures j == m && LastIndex(s, markers[m]) == p
  {
    assert |KeptFrom(s, at, p)| == |s| - (p + 1 - at);
    var q := LastIndex(s, markers[j]);
    assert |KeptFrom(s, at, q)| == |s| - (q + 1 - at);
    SameMarker(s, p, markers, j, m);
  }

  ghost predicate NoListedRoot(s: string) {
    forall k :: 0 <= k < |ABSOLUTE_PREFIXES| ==> FirstAbsolute(s, ABSOLUTE_PREFIXES[k], 0) < 0
  }

  /** Exactly when the checkout root does not matter. A line holds one absolute token, which
      no listed root begins and which reads root, marker, rest: the text that is kept of the
      token is marker and rest, whatever the root, if and only if no earlier marker cuts the
      line and this one does not occur again. */
  lemma MarkerCutIff(s: string, at: nat, m: nat, p: nat)
    requires m < |SOURCE_MARKERS| && OneToken(s, at) && NoListedRoot(s)
    requires at <= p < |s| && 0 < p && HasAt(s, p, SOURCE_MARKERS[m])
    requires forall k :: at <= k <= p ==> !EndsToken(s[k])
    ensures Strip(s) == KeptFrom(s, at, p) <==>
            NoneCuts(s, SOURCE_MARKERS, 0, m) && LastIndex(s, SOURCE_MARKERS[m]) == p
  {
    Shapes();
    SkipPrefixes(s, ABSOLUTE_PREFIXES, SOURCE_MARKERS, 0);
    KeptFromIff(s, at, SOURCE_MARKERS, m, p);
  }

  lemma NotListed(s: string, prefix: Mark)
    requires |s| >= 2 && prefix[1] != s[1] && forall i :: 1 <= i < |s| ==> !StartsPath(s, i)
    ensures FirstAbsolute(s, prefix, 0) < 0
  {
    var i := FirstAbsolute(s, prefix, 0);
    if i >= 0 { FirstBytes(s, i, prefix); }
    assert i > 0 ==> !StartsPath(s, i);
  }

  lemma FirstBytes(s: string, i: nat, m: Mark)
    requires HasAt(s, i, m)
    ensures i + 1 < |s| && s[i] == m[0] && s[i + 1] == m[1]
  {
    assert s[i..i + |m|][1] == s[i + 1];
  }

  /** A token under "/r", which is no listed root, has one absolute token. */
  lemma UnderR(s: string)
    requires |s| >= 2 && s[0] == '/' && s[1] == 'r'
    requires forall i :: 1 <= i < |s| ==> s[i] == '/' || IsPathByte(s[i])
    requires forall i :: 1 <= i < |s| && s[i] == '/' ==> IsPathByte(s[i - 1])
    ensures NoListedRoot(s) && OneToken(s, 0) && forall k :: 0 <= k < |s| ==> !EndsToken(s[k])
  {
    assert forall i :: 1 <= i < |s| ==> !StartsPath(s, i);
    forall k | 0 <= k < |ABSOLUTE_PREFIXES| ensures FirstAbsolute(s, ABSOLUTE_PREFIXES[k], 0) < 0 {
      assert ABSOLUTE_PREFIXES[k][1] != 'r';
      NotListed(s, ABSOLUTE_PREFIXES[k]);
    }
  }

  lemma OnlyAt(s: string, m: Mark, at: nat)
    requires HasAt(s, at, m) && forall i :: 0 <= i < |s| - 1 && s[i] == m[0] && s[i + 1] == m[1] ==> i == at
    ensures LastIndex(s, m) == at
  {
    forall i | at < i <= |s| ensures !HasAt(s, i, m) {
      if i + |m| <= |s| { assert s[i..i + |m|][0] == s[i] && s[i..i + |m|][1] == s[i + 1]; }
    }
  }

  /** What follows the slashes of the example. */
  lemma AfterSlashes(t: string)
    requires t == "/r/cmd/a"
    ensures forall i :: 0 <= i < |t| - 1 && t[i] == '/' ==> t[i + 1] == 'r' || t[i + 1] == 'c' || t[i + 1] == 'a'
  {}

  lemma NoneCutsBefore(t: string, markers: seq<Mark>)
    requires |markers| >= 2 && markers[0][1] == 's' && markers[1][1] == 'i'
    requires forall i :: 0 <= i < |t| - 1 && t[i] == '/' ==> t[i + 1] == 'r' || t[i + 1] == 'c' || t[i + 1] == 'a'
    ensures NoneCuts(t, markers, 0, 2)
  {
    NotCutBy(t, markers[0]);
    NotCutBy(t, markers[1]);
  }

  lemma CutUnderR()
    ensures Strip("/r/cmd/a") == "cmd/a"
  {
    var t := "/r/cmd/a";
    UnderR(t);
    assert t[2..7] == "/cmd/";
    OnlyAt(t, SOURCE_MARKERS[2], 2);
    AfterSlashes(t);
    MarkerShape(0);
    MarkerShape(1);
    NoneCutsBefore(t, SOURCE_MARKERS);
    MarkerCutIff(t, 0, 2, 2);
    assert KeptFrom(t, 0, 2) == "cmd/a";
  }

  lemma NotCutUnderSrc()
    ensures Strip("/r/src/cmd/a") != "cmd/a"
  {
    var s := "/r/src/cmd/a";
    UnderR(s);
    assert s[6..11] == "/cmd/" && s[2..7] == "/src/";
    OnlyAt(s, SOURCE_MARKERS[0], 2);
    CutsHere(s, 0, SOURCE_MARKERS[0], 2);
    MarkerCutIff(s, 0, 2, 6);
    assert KeptFrom(s, 0, 6) == "cmd/a";
  }

  /** So the order of the markers matters: under a root named like an earlier marker, a file
      is not cut at its own marker, and its text differs from that under another root. */
  lemma RootsWithMarkersDiffer()
    ensures Strip("/r/cmd/a") == "cmd/a" && Strip("/r/src/cmd/a") != "cmd/a"
  {
    CutUnderR();
    NotCutUnderSrc();
  }

  lemma NotCutBy(s: string, m: Mark)
    requires forall i :: 0 <= i < |s| - 1 ==> !(s[i] == m[0] && s[i + 1] == m[1])
    ensures !Cuts(s, m)
  {
    forall i | 0 <= i <= |s| ensures !HasAt(s, i, m) {
      if i + |m| <= |s| { assert s[i..i + |m|][0] == s[i] && s[i..i + |m|][1] == s[i + 1]; }
    }
  }
}
