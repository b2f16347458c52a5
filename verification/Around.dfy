/** Stripping a line around a piece of text that no checkout root can begin or end in: whatever
    the piece is, the rest of the line is cut in the same way. */
module Around {
  import opened Text
  import opened Normalize

  /** A dot or a digit first, a byte of a path last, and no slash or token end. */
  predicate Inert(m: string) {
    && m != "" && (m[0] == '.' || IsDigit(m[0])) && IsPathByte(m[|m| - 1])
    && forall i :: 0 <= i < |m| ==> m[i] != '/' && !EndsToken(m[i])
  }

  /** A root or marker: it begins with a slash and holds neither dots nor digits. */
  predicate Plain(p: Mark) { forall i :: 0 <= i < |p| ==> p[i] != '.' && !IsDigit(p[i]) }

  /** What is left of the text before and after the piece; or, when the piece is cut out, of the
      line. */
  datatype Rest = Kept(before: string, after: string) | Gone(line: string)

  function Joined(r: Rest, m: string): string {
    match r case Kept(a, b) => a + m + b case Gone(line) => line
  }

  /** The piece is whole or absent in every occurrence of a root or marker. */
  lemma HasAround(a: string, m: string, b: string, p: Mark, i: nat)
    requires Inert(m) && Plain(p)
    ensures HasAt(a + m + b, i, p) <==>
            (i < |a| && HasAt(a, i, p)) || (i >= |a| + |m| && HasAt(b, i - |a| - |m|, p))
  {
    var s := a + m + b;
    if i + |p| <= |s| {
      if i + |p| <= |a| {
        assert s[i..i + |p|] == a[i..i + |p|];
      } else if i >= |a| + |m| {
        assert s[i..i + |p|] == b[i - |a| - |m|..i - |a| - |m| + |p|];
      } else if i <= |a| {
        assert s[i..i + |p|][|a| - i] == s[|a|] == m[0];
      } else {
        assert s[i..i + |p|][0] == s[i] == m[i - |a|];
      }
    }
  }

  lemma {:induction false} FirstIs(s: string, p: string, from: nat, i: nat)
    requires from <= i < |s| && HasAt(s, i, p) && AtPathStart(s, i)
    requires forall k :: from <= k < i ==> !(HasAt(s, k, p) && AtPathStart(s, k))
    ensures FirstAbsolute(s, p, from) == i
    decreases i - from
  {
    if from == i {
    } else {
      FirstIs(s, p, from + 1, i);
    }
  }

  lemma {:induction false} FirstIsNone(s: string, p: string, from: nat)
    requires forall k :: from <= k < |s| ==> !(HasAt(s, k, p) && AtPathStart(s, k))
    ensures FirstAbsolute(s, p, from) == -1
    decreases |s| - from
  {
    if from >= |s| {
    } else {
      FirstIsNone(s, p, from + 1);
    }
  }

  lemma {:induction false} FirstLeast(s: string, p: string, from: nat)
    ensures var i := FirstAbsolute(s, p, from);
            forall k :: from <= k < (if i < 0 then |s| else i) ==> !(HasAt(s, k, p) && AtPathStart(s, k))
    decreases |s| - from
  {
    if from >= |s| || (HasAt(s, from, p) && AtPathStart(s, from)) {
    } else {
      FirstLeast(s, p, from + 1);
    }
  }

  /** Where a root first begins a path: before the piece, or after it. */
  function FirstAround(a: string, n: nat, b: string, p: string): int {
    if FirstAbsolute(a, p, 0) >= 0 then FirstAbsolute(a, p, 0)
    else if FirstAbsolute(b, p, 1) >= 0 then |a| + n + FirstAbsolute(b, p, 1) else -1
  }

  /** Where occurrences begin paths, around the piece. */
  lemma StartsAround(a: string, m: string, b: string, p: Mark, k: nat)
    requires Inert(m) && Plain(p) && k < |a + m + b|
    ensures HasAt(a + m + b, k, p) && AtPathStart(a + m + b, k) <==>
            (k < |a| && HasAt(a, k, p) && AtPathStart(a, k))
            || (k > |a| + |m| && HasAt(b, k - |a| - |m|, p) && AtPathStart(b, k - |a| - |m|))
  {
    HasAround(a, m, b, p, k);
    var s := a + m + b;
    if k < |a| {
      assert k > 0 ==> s[k - 1] == a[k - 1];
    } else if k > |a| + |m| {
      assert s[k - 1] == b[k - |a| - |m| - 1];
    } else if k == |a| + |m| {
      assert s[k - 1] == m[|m| - 1];
    }
  }

  lemma FirstAroundIs(a: string, m: string, b: string, p: Mark)
    requires Inert(m) && Plain(p)
    ensures FirstAbsolute(a + m + b, p, 0) == FirstAround(a, |m|, b, p)
  {
    var s := a + m + b;
    var i := FirstAround(a, |m|, b, p);
    FirstLeast(a, p, 0);
    FirstLeast(b, p, 1);
    forall k | 0 <= k < (if i < 0 then |s| else i) ensures !(HasAt(s, k, p) && AtPathStart(s, k)) {
      StartsAround(a, m, b, p, k);
    }
    if i < 0 {
      FirstIsNone(s, p, 0);
    } else {
      StartsAround(a, m, b, p, i);
      FirstIs(s, p, 0, i);
    }
  }

  function CutRootAround(a: string, b: string, p: Mark): (Rest, bool) {
    var i := FirstAbsolute(a, p, 0);
    var j := FirstAbsolute(b, p, 1);
    if i >= 0 then (Kept(a[..i] + a[i + |p|..], b), true)
    else if j >= 0 then (Kept(a, b[..j] + b[j + |p|..]), true) else (Kept(a, b), false)
  }

  lemma CutRootAroundIs(a: string, m: string, b: string, p: Mark)
    requires Inert(m) && Plain(p)
    ensures CutPrefix(a + m + b, p) == (Joined(CutRootAround(a, b, p).0, m), CutRootAround(a, b, p).1)
  {
    FirstAroundIs(a, m, b, p);
    var i := FirstAbsolute(a, p, 0);
    var j := FirstAbsolute(b, p, 1);
    if i >= 0 {
      SliceBefore(a, m + b, i, i + |p|);
      assert a + m + b == a + (m + b);
      assert (a[..i] + a[i + |p|..]) + (m + b) == (a[..i] + a[i + |p|..]) + m + b;
    } else if j >= 0 {
      SliceAfter(a + m, b, j, j + |p| - 1);
    }
  }

  lemma SliceBefore(a: string, tail: string, i: nat, j: nat)
    requires i <= j <= |a|
    ensures (a + tail)[..i] + (a + tail)[j..] == (a[..i] + a[j..]) + tail
  {}

  lemma SliceAfter(lead: string, b: string, start: nat, j: nat)
    requires start <= j < |b|
    ensures (lead + b)[..|lead| + start] + (lead + b)[|lead| + j + 1..] == lead + (b[..start] + b[j + 1..])
  {
    assert (lead + b)[..|lead| + start] == lead + b[..start] && (lead + b)[|lead| + j + 1..] == b[j + 1..];
  }

  // ---- Markers ----

  lemma {:induction false} LastIs(s: string, p: string, i: nat, end: nat)
    requires i < end <= |s| + 1 && HasAt(s, i, p) && forall k :: i < k < end ==> !HasAt(s, k, p)
    ensures LastBefore(s, p, end) == i
  {
    if end - 1 == i {
    } else {
      LastIs(s, p, i, end - 1);
    }
  }

  lemma LastAround(a: string, m: string, b: string, p: Mark)
    requires Inert(m) && Plain(p)
    ensures LastIndex(a + m + b, p) ==
            if LastIndex(b, p) >= 0 then |a| + |m| + LastIndex(b, p) else LastIndex(a, p)
  {
    var s := a + m + b;
    forall k: nat | k <= |s|
      ensures HasAt(s, k, p) <==> (k < |a| && HasAt(a, k, p)) || (k >= |a| + |m| && HasAt(b, k - |a| - |m|, p))
    {
      HasAround(a, m, b, p, k);
    }
    var i := if LastIndex(b, p) >= 0 then |a| + |m| + LastIndex(b, p) else LastIndex(a, p);
    if i >= 0 {
      LastIs(s, p, i, |s| + 1);
    } else {
      var k := LastIndex(s, p);
      assert k >= 0 ==> HasAt(s, k, p);
    }
  }

  /** Where the token begins that runs into position i; when it runs through the beginning of the
      text, where it would go on before. */
  predicate WholeToken(b: string, i: nat)
    requires i < |b|
  {
    forall k :: 0 <= k <= i ==> !EndsToken(b[k])
  }

  lemma {:induction false} TokenStartIs(s: string, i: nat, start: nat)
    requires start <= i < |s| && !EndsToken(s[i]) && (start == 0 || EndsToken(s[start - 1]))
    requires forall k :: start <= k <= i ==> !EndsToken(s[k])
    ensures TokenStart(s, i) == start
  {
    if i == start {
    } else {
      TokenStartIs(s, i - 1, start);
    }
  }

  function CutMarkerAround(a: string, b: string, p: Mark): (Rest, bool) {
    var j := LastIndex(b, p);
    if j >= 0 then
      if WholeToken(b, j) then
        if a == "" || EndsToken(a[|a| - 1]) then (Kept(a, b), false)
        else
          var start := TokenStart(a, |a| - 1);
          if a[start] != '/' then (Kept(a, b), false) else (Gone(a[..start] + b[j + 1..]), true)
      else
        var start := TokenStart(b, j);
        if b[start] != '/' then (Kept(a, b), false) else (Kept(a, b[..start] + b[j + 1..]), true)
    else
      var i := LastIndex(a, p);
      if i <= 0 then (Kept(a, b), false)
      else
        var start := TokenStart(a, i);
        if a[start] != '/' then (Kept(a, b), false) else (Kept(a[..start] + a[i + 1..], b), true)
  }

  lemma SlashEndsNone(s: string, p: Mark, i: nat)
    requires HasAt(s, i, p)
    ensures i < |s| && s[i] == '/' && !EndsToken(s[i])
  {
    assert s[i..i + |p|][0] == s[i];
  }

  lemma CutMarkerAroundIs(a: string, m: string, b: string, p: Mark)
    requires Inert(m) && Plain(p)
    ensures CutAtMarker(a + m + b, p) == (Joined(CutMarkerAround(a, b, p).0, m), CutMarkerAround(a, b, p).1)
  {
    LastAround(a, m, b, p);
    var j := LastIndex(b, p);
    if j >= 0 {
      SlashEndsNone(b, p, j);
      if WholeToken(b, j) {
        MarkerThrough(a, m, b, p, j);
      } else {
        MarkerAfter(a, m, b, p, j);
      }
    } else if LastIndex(a, p) > 0 {
      MarkerBefore(a, m, b, p, LastIndex(a, p));
    }
  }

  lemma MarkerBefore(a: string, m: string, b: string, p: Mark, i: nat)
    requires Inert(m) && 0 < i == LastIndex(a, p) == LastIndex(a + m + b, p) && LastIndex(b, p) < 0
    ensures CutAtMarker(a + m + b, p) == (Joined(CutMarkerAround(a, b, p).0, m), CutMarkerAround(a, b, p).1)
  {
    var s := a + m + b;
    SlashEndsNone(a, p, i);
    var start := TokenStart(a, i);
    assert forall k :: 0 <= k < |a| ==> s[k] == a[k];
    TokenStartIs(s, i, start);
    assert s[..start] + s[i + 1..] == (a[..start] + a[i + 1..]) + m + b;
  }

  lemma TokenAfter(lead: string, b: string, j: nat)
    requires j < |b| && !EndsToken(b[j]) && !WholeToken(b, j)
    ensures TokenStart(b, j) > 0 && TokenStart(lead + b, |lead| + j) == |lead| + TokenStart(b, j)
  {
    var s := lead + b;
    var start := TokenStart(b, j);
    assert start > 0;
    assert forall k :: |lead| + start - 1 <= k <= |lead| + j ==> s[k] == b[k - |lead|];
    TokenStartIs(s, |lead| + j, |lead| + start);
  }

  lemma TokenThrough(a: string, tail: string, j: nat)
    requires j < |tail| && WholeToken(tail, j)
    ensures TokenStart(a + tail, |a| + j) ==
            if a == "" || EndsToken(a[|a| - 1]) then |a| else TokenStart(a, |a| - 1)
  {
    var s := a + tail;
    assert forall k :: |a| <= k <= |a| + j ==> s[k] == tail[k - |a|];
    if a == "" || EndsToken(a[|a| - 1]) {
      TokenStartIs(s, |a| + j, |a|);
    } else {
      var start := TokenStart(a, |a| - 1);
      assert forall k :: 0 <= k < |a| ==> s[k] == a[k];
      TokenStartIs(s, |a| + j, start);
    }
  }

  lemma SliceThrough(a: string, tail: string, start: nat, j: nat)
    requires start <= |a| && j < |tail|
    ensures (a + tail)[..start] + (a + tail)[|a| + j + 1..] == a[..start] + tail[j + 1..]
  {}

  lemma MarkerAfter(a: string, m: string, b: string, p: Mark, j: nat)
    requires Inert(m) && j == LastIndex(b, p) && LastIndex(a + m + b, p) == |a| + |m| + j
    requires j < |b| && !EndsToken(b[j]) && !WholeToken(b, j)
    ensures CutAtMarker(a + m + b, p) == (Joined(CutMarkerAround(a, b, p).0, m), CutMarkerAround(a, b, p).1)
  {
    var lead, start := a + m, TokenStart(b, j);
    TokenAfter(lead, b, j);
    SliceAfter(lead, b, start, j);
    assert (lead + b)[|lead| + start] == b[start];
    assert CutAtMarker(lead + b, p) ==
           if b[start] != '/' then (lead + b, false) else (lead + (b[..start] + b[j + 1..]), true);
  }

  lemma WholeTail(m: string, b: string, j: nat)
    requires Inert(m) && j < |b| && WholeToken(b, j)
    ensures WholeToken(m + b, |m| + j) && (m + b)[|m| + j + 1..] == b[j + 1..]
  {}

  lemma MarkerThrough(a: string, m: string, b: string, p: Mark, j: nat)
    requires Inert(m) && j == LastIndex(b, p) && LastIndex(a + m + b, p) == |a| + |m| + j
    requires j < |b| && WholeToken(b, j)
    ensures CutAtMarker(a + m + b, p) == (Joined(CutMarkerAround(a, b, p).0, m), CutMarkerAround(a, b, p).1)
  {
    var tail := m + b;
    assert a + m + b == a + tail;
    WholeTail(m, b, j);
    ThroughTail(a, tail, p, |m| + j);
    assert tail[0] == m[0] != '/';
  }

  /** A marker in a tail that is one token up to there. */
  lemma ThroughTail(a: string, tail: string, p: Mark, j: nat)
    requires j < |tail| && WholeToken(tail, j) && LastIndex(a + tail, p) == |a| + j && |a| + j > 0
    ensures CutAtMarker(a + tail, p) ==
            if a == "" || EndsToken(a[|a| - 1]) then
              if tail[0] != '/' then (a + tail, false) else (a + tail[j + 1..], true)
            else if a[TokenStart(a, |a| - 1)] != '/' then (a + tail, false)
            else (a[..TokenStart(a, |a| - 1)] + tail[j + 1..], true)
  {
    TokenThrough(a, tail, j);
    assert (a + tail)[|a| + j] == tail[j];
    var start := if a == "" || EndsToken(a[|a| - 1]) then |a| else TokenStart(a, |a| - 1);
    CutThrough(a, tail, p, start, j);
    assert a[..|a|] == a;
  }

  lemma CutThrough(a: string, tail: string, p: Mark, start: nat, j: nat)
    requires j < |tail| && LastIndex(a + tail, p) == |a| + j && |a| + j > 0 && start <= |a|
    requires !EndsToken((a + tail)[|a| + j]) && TokenStart(a + tail, |a| + j) == start
    ensures CutAtMarker(a + tail, p) ==
            if (if start < |a| then a[start] else tail[0]) != '/' then (a + tail, false)
            else (a[..start] + tail[j + 1..], true)
  {
    CutIs(a + tail, p, |a| + j, start);
    SliceThrough(a, tail, start, j);
  }

  lemma CutIs(s: string, p: Mark, i: nat, start: nat)
    requires LastIndex(s, p) == i && 0 < i < |s| && !EndsToken(s[i]) && TokenStart(s, i) == start
    ensures CutAtMarker(s, p) == if s[start] != '/' then (s, false) else (s[..start] + s[i + 1..], true)
  {}

  // ---- The whole of it ----

  function StripMarkersAround(a: string, b: string, markers: seq<Mark>, k: nat): Rest
    decreases |markers| - k
  {
    if k >= |markers| then Kept(a, b)
    else
      var (r, done) := CutMarkerAround(a, b, markers[k]);
      if done then r else StripMarkersAround(a, b, markers, k + 1)
  }

  function StripAround(a: string, b: string, prefixes: seq<Mark>, markers: seq<Mark>, k: nat): Rest
    decreases |prefixes| - k
  {
    if k >= |prefixes| then StripMarkersAround(a, b, markers, 0)
    else
      var (r, done) := CutRootAround(a, b, prefixes[k]);
      if done then r else StripAround(a, b, prefixes, markers, k + 1)
  }

  lemma {:induction false} MarkersAroundIs(a: string, m: string, b: string, markers: seq<Mark>, k: nat)
    requires Inert(m) && forall i :: 0 <= i < |markers| ==> Plain(markers[i])
    ensures StripMarkers(a + m + b, markers, k) == Joined(StripMarkersAround(a, b, markers, k), m)
    decreases |markers| - k
  {
    if k >= |markers| {
    } else {
      CutMarkerAroundIs(a, m, b, markers[k]);
      MarkersAroundIs(a, m, b, markers, k + 1);
    }
  }

  lemma {:induction false} AroundIs(a: string, m: string, b: string, prefixes: seq<Mark>, markers: seq<Mark>, k: nat)
    requires Inert(m) && forall i :: 0 <= i < |markers| ==> Plain(markers[i])
    requires forall i :: 0 <= i < |prefixes| ==> Plain(prefixes[i])
    ensures StripFrom(a + m + b, prefixes, markers, k) == Joined(StripAround(a, b, prefixes, markers, k), m)
    decreases |prefixes| - k
  {
    if k >= |prefixes| {
      MarkersAroundIs(a, m, b, markers, 0);
    } else {
      CutRootAroundIs(a, m, b, prefixes[k]);
      AroundIs(a, m, b, prefixes, markers, k + 1);
    }
  }

  /** What follows the piece still begins as it did. */
  predicate SameStart(b: string, b': string) { (b == "" <==> b' == "") && (b != "" ==> b'[0] == b[0]) }

  lemma {:induction false} MarkersAroundStart(a: string, b: string, markers: seq<Mark>, k: nat)
    ensures var r := StripMarkersAround(a, b, markers, k); r.Kept? ==> SameStart(b, r.after)
    decreases |markers| - k
  {
    if k >= |markers| {
    } else {
      var p := markers[k];
      var j := LastIndex(b, p);
      if j >= 0 { SlashEndsNone(b, p, j); }
      MarkersAroundStart(a, b, markers, k + 1);
    }
  }

  lemma {:induction false} AroundStart(a: string, b: string, prefixes: seq<Mark>, markers: seq<Mark>, k: nat)
    ensures var r := StripAround(a, b, prefixes, markers, k); r.Kept? ==> SameStart(b, r.after)
    decreases |prefixes| - k
  {
    if k >= |prefixes| {
      MarkersAroundStart(a, b, markers, 0);
    } else {
      AroundStart(a, b, prefixes, markers, k + 1);
    }
  }

  lemma PlainEarly(k: nat)
    requires k < 4
    ensures Plain(ABSOLUTE_PREFIXES[k])
  {}

  lemma PlainLate(k: nat)
    requires 4 <= k < |ABSOLUTE_PREFIXES|
    ensures Plain(ABSOLUTE_PREFIXES[k])
  {}

  lemma PlainMarker(k: nat)
    requires k < |SOURCE_MARKERS|
    ensures Plain(SOURCE_MARKERS[k])
  {}

  /** What stripping makes of a line does not depend on such a piece of it, but for the piece. */
  lemma StripKeepsPiece(a: string, b: string) returns (r: Rest)
    ensures forall m :: Inert(m) ==> Strip(a + m + b) == Joined(r, m)
    ensures r.Kept? ==> SameStart(b, r.after)
  {
    r := StripAround(a, b, ABSOLUTE_PREFIXES, SOURCE_MARKERS, 0);
    forall k | 0 <= k < |ABSOLUTE_PREFIXES| ensures Plain(ABSOLUTE_PREFIXES[k]) {
      if k < 4 { PlainEarly(k); } else { PlainLate(k); }
    }
    forall k | 0 <= k < |SOURCE_MARKERS| ensures Plain(SOURCE_MARKERS[k]) { PlainMarker(k); }
    forall m | Inert(m) ensures Strip(a + m + b) == Joined(r, m) {
      AroundIs(a, m, b, ABSOLUTE_PREFIXES, SOURCE_MARKERS, 0);
    }
    AroundStart(a, b, ABSOLUTE_PREFIXES, SOURCE_MARKERS, 0);
  }
}
