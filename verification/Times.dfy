/** Timestamps, told character by character: which texts are, and that the pass takes exactly
    these out of a line. */
module Times {
  import opened Text
  import opened Passes
  import opened Scans

  predicate AllDigits(s: string) { forall i :: 0 <= i < |s| ==> IsDigit(s[i]) }

  /** 2026-08-02 */
  predicate IsDate(s: string) {
    |s| == 10 && s[4] == '-' && s[7] == '-' && AllDigits(s[..4]) && AllDigits(s[5..7]) && AllDigits(s[8..])
  }

  /** 10:11:12 */
  predicate IsClock(s: string) {
    |s| == 8 && s[2] == ':' && s[5] == ':' && AllDigits(s[..2]) && AllDigits(s[3..5]) && AllDigits(s[6..])
  }

  predicate IsFraction(s: string) { s == "" || (|s| >= 2 && s[0] == '.' && AllDigits(s[1..])) }

  predicate IsOffset(s: string) {
    && |s| >= 5 && (s[0] == '+' || s[0] == '-') && AllDigits(s[1..3])
    && if s[3] == ':' then |s| == 6 && AllDigits(s[4..]) else |s| == 5 && AllDigits(s[3..])
  }

  predicate IsZone(s: string) { s == "" || s == "Z" || IsOffset(s) }

  datatype Stamp = Stamp(date: string, sep: char, clock: string, fraction: string, zone: string)

  predicate IsStamp(x: Stamp) {
    IsDate(x.date) && (x.sep == 'T' || x.sep == ' ') && IsClock(x.clock) && IsFraction(x.fraction) && IsZone(x.zone)
  }

  function StampText(x: Stamp): string { x.date + [x.sep] + x.clock + x.fraction + x.zone }

  predicate BeginsZone(b: string) {
    (b != "" && b[0] == 'Z') || (|b| >= 5 && IsOffset(b[..5])) || (|b| >= 6 && IsOffset(b[..6]))
  }

  /** What follows reads on as part of the timestamp: a fraction, more of one, or a zone. */
  predicate Continues(x: Stamp, b: string) {
    && x.zone == ""
    && (BeginsZone(b)
        || (x.fraction == "" && |b| >= 2 && b[0] == '.' && IsDigit(b[1]))
        || (x.fraction != "" && b != "" && IsDigit(b[0])))
  }

  /** A timestamp that begins in a text and ends past it. */
  ghost predicate StampRunsInto(a: string, r: string) {
    exists i: nat, x :: i < |a| && StampAt(a + r, i, x) && i + |StampText(x)| > |a|
  }

  ghost predicate StampAt(s: string, i: nat, x: Stamp) { IsStamp(x) && HasAt(s, i, StampText(x)) }

  lemma DateDigits(d: string)
    requires IsDate(d)
    ensures d[4] == d[7] == '-' && forall i :: 0 <= i < 10 && i != 4 && i != 7 ==> IsDigit(d[i])
  {
    assert forall i :: 0 <= i < 4 ==> d[..4][i] == d[i];
    assert forall i :: 5 <= i < 7 ==> d[5..7][i - 5] == d[i];
    assert forall i :: 8 <= i < 10 ==> d[8..][i - 8] == d[i];
  }

  lemma ClockDigits(c: string)
    requires IsClock(c)
    ensures c[2] == c[5] == ':' && forall i :: 0 <= i < 8 && i != 2 && i != 5 ==> IsDigit(c[i])
  {
    assert forall i :: 0 <= i < 2 ==> c[..2][i] == c[i];
    assert forall i :: 3 <= i < 5 ==> c[3..5][i - 3] == c[i];
    assert forall i :: 6 <= i < 8 ==> c[6..][i - 6] == c[i];
  }

  lemma DigitsPlace(s: string, i: nat, n: nat)
    requires i + n <= |s| && forall k :: i <= k < i + n ==> IsDigit(s[k])
    ensures DigitsAt(s, i, n)
  {}

  lemma HereIs(s: string)
    requires |s| >= 19 && IsDate(s[..10]) && (s[10] == 'T' || s[10] == ' ') && IsClock(s[11..19])
    ensures StampHere(s)
  {
    DateDigits(s[..10]);
    ClockDigits(s[11..19]);
    assert forall i :: 0 <= i < 10 ==> s[i] == s[..10][i];
    assert forall i :: 11 <= i < 19 ==> s[i] == s[11..19][i - 11];
    DigitsPlace(s, 0, 4);
    DigitsPlace(s, 5, 2);
    DigitsPlace(s, 8, 2);
    DigitsPlace(s, 11, 2);
    DigitsPlace(s, 14, 2);
    DigitsPlace(s, 17, 2);
  }

  lemma HeadMatches(x: Stamp, b: string)
    requires IsStamp(x)
    ensures StampHere(StampText(x) + b)
    ensures (StampText(x) + b)[19..] == x.fraction + x.zone + b
  {
    var s := StampText(x) + b;
    assert s[..10] == x.date && s[10] == x.sep && s[11..19] == x.clock;
    HereIs(s);
  }

  lemma FractionMatches(f: string, z: string, b: string)
    requires IsFraction(f) && IsZone(z)
    requires z == "" ==> (f == "" ==> !(|b| >= 2 && b[0] == '.' && IsDigit(b[1])))
                         && (f != "" ==> b == "" || !IsDigit(b[0]))
    ensures FractionLength(f + z + b) == |f| && (f + z + b)[|f|..] == z + b
  {
    if f == "" {
      assert f + z + b == z + b;
      NoFraction(z + b);
    } else {
      assert f + z + b == f + (z + b);
      SomeFraction(f, z + b);
    }
  }

  lemma NoFraction(s: string)
    requires !(|s| >= 2 && s[0] == '.' && IsDigit(s[1]))
    ensures FractionLength(s) == 0
  {
    if CharAt(s, 0, '.') { LeadingIs(s[1..], c => IsDigit(c), 0); }
  }

  lemma SomeFraction(f: string, r: string)
    requires f != "" && IsFraction(f) && (r == "" || !IsDigit(r[0]))
    ensures FractionLength(f + r) == |f|
  {
    var s := f + r;
    assert s[1..] == f[1..] + r;
    assert forall i :: 0 <= i < |f| - 1 ==> s[1..][i] == f[1..][i];
    LeadingIs(s[1..], c => IsDigit(c), |f| - 1);
  }

  lemma OffsetChars(z: string, b: string)
    requires IsOffset(z)
    ensures ZoneLength(z + b) == |z|
  {
    var s := z + b;
    assert forall i :: 0 <= i < |z| ==> s[i] == z[i];
    assert z[1] == z[1..3][0] && z[2] == z[1..3][1];
    if z[3] == ':' {
      assert z[4] == z[4..][0] && z[5] == z[4..][1];
    } else {
      assert z[3] == z[3..][0] && z[4] == z[3..][1];
    }
  }

  lemma NoZone(b: string)
    requires !BeginsZone(b)
    ensures ZoneLength(b) == 0
  {
    if (CharAt(b, 0, '+') || CharAt(b, 0, '-')) && DigitsAt(b, 1, 2) {
      if CharAt(b, 3, ':') && DigitsAt(b, 4, 2) {
        assert IsOffset(b[..6]);
      } else if DigitsAt(b, 3, 2) {
        assert IsOffset(b[..5]);
      }
    }
  }

  lemma ZoneMatches(z: string, b: string)
    requires IsZone(z) && (z == "" ==> !BeginsZone(b))
    ensures ZoneLength(z + b) == |z|
  {
    if z == "" {
      assert z + b == b;
      NoZone(b);
    } else if z != "Z" {
      OffsetChars(z, b);
    }
  }

  /** The expression matches exactly the timestamp. */
  lemma StampMatches(x: Stamp, b: string)
    requires IsStamp(x) && !Continues(x, b)
    ensures StampLength(StampText(x) + b) == |StampText(x)|
  {
    var s := StampText(x) + b;
    HeadMatches(x, b);
    FractionMatches(x.fraction, x.zone, b);
    ZoneMatches(x.zone, b);
    assert s[19 + |x.fraction|..] == s[19..][|x.fraction|..];
  }

  lemma DigitsIn(s: string, i: nat, n: nat)
    requires DigitsAt(s, i, n)
    ensures AllDigits(s[i..i + n])
  {}

  lemma FractionShape(s: string)
    ensures IsFraction(s[..FractionLength(s)])
  {}

  lemma ZoneShape(s: string)
    ensures IsZone(s[..ZoneLength(s)])
  {
    var n := ZoneLength(s);
    var z := s[..n];
    if n == 6 {
      assert z[1..3] == s[1..3] && z[4..] == s[4..6];
      DigitsIn(s, 1, 2);
      DigitsIn(s, 4, 2);
    } else if n == 5 {
      assert z[1..3] == s[1..3] && z[3..] == s[3..5];
      DigitsIn(s, 1, 2);
      DigitsIn(s, 3, 2);
    }
  }

  lemma HeadShape(s: string)
    requires StampHere(s)
    ensures IsDate(s[..10]) && (s[10] == 'T' || s[10] == ' ') && IsClock(s[11..19])
  {
    var d, c := s[..10], s[11..19];
    DigitsIn(s, 0, 4);
    DigitsIn(s, 5, 2);
    DigitsIn(s, 8, 2);
    DigitsIn(s, 11, 2);
    DigitsIn(s, 14, 2);
    DigitsIn(s, 17, 2);
    assert d[..4] == s[0..4] && d[5..7] == s[5..7] && d[8..] == s[8..10];
    assert c[..2] == s[11..13] && c[3..5] == s[14..16] && c[6..] == s[17..19];
  }

  /** Whatever the expression matches is a timestamp. */
  lemma StampShape(s: string) returns (x: Stamp)
    requires StampLength(s) > 0
    ensures IsStamp(x) && StampText(x) == s[..StampLength(s)]
  {
    HeadShape(s);
    var f := FractionLength(s[19..]);
    var n := 19 + f;
    FractionShape(s[19..]);
    ZoneShape(s[n..]);
    x := Stamp(s[..10], s[10], s[11..19], s[19..][..f], s[n..][..ZoneLength(s[n..])]);
    assert s[..StampLength(s)] == s[..10] + [s[10]] + s[11..19] + s[19..n] + s[n..StampLength(s)];
  }

  // ---- The timestamps of a line ----

  lemma FractionLocal(u: string, r: string)
    requires FractionLength(u + r) <= |u|
    ensures FractionLength(u) == FractionLength(u + r) || FractionLength(u + r) == |u| == 0
  {
    var n := FractionLength(u + r);
    if u != "" && u[0] == '.' {
      var d := Leading((u + r)[1..], c => IsDigit(c));
      assert (u + r)[1..] == u[1..] + r;
      if d <= |u| - 1 {
        assert forall i :: 0 <= i < |u| - 1 ==> (u + r)[1..][i] == u[1..][i];
        LeadingIs(u[1..], c => IsDigit(c), d);
      }
    }
  }

  lemma ZoneLocal(u: string, r: string)
    requires ZoneLength(u + r) <= |u|
    ensures ZoneLength(u) == ZoneLength(u + r)
  {
    assert forall i :: 0 <= i < |u| ==> (u + r)[i] == u[i];
  }

  lemma HereLocal(u: string, r: string)
    requires |u| >= 19
    ensures StampHere(u) <==> StampHere(u + r)
  {
    assert forall i :: 0 <= i < |u| ==> (u + r)[i] == u[i];
  }

  /** A match that ends in the first part is the same without the second. */
  lemma StampLocal(u: string, r: string)
    requires StampLength(u + r) <= |u|
    ensures StampLength(u) == StampLength(u + r)
  {
    if |u| >= 19 {
      HereLocal(u, r);
      if StampHere(u) {
        assert (u + r)[19..] == u[19..] + r;
        FractionLocal(u[19..], r);
        var n := 19 + FractionLength(u[19..] + r);
        assert (u + r)[n..] == u[n..] + r;
        ZoneLocal(u[n..], r);
      }
    }
  }

  lemma StampsApart(w: bool, a: string, r: string)
    requires !StampRunsInto(a, r)
    ensures Apart(StampFinder(), w, a, r)
  {
    forall i: nat | i < |a| ensures SameAt(StampFinder(), w, a, r, i) {
      var u := a[i..];
      assert (a + r)[i..] == u + r;
      if StampLength(u + r) > |u| {
        var x := StampShape(u + r);
        assert (a + r)[i..i + |StampText(x)|] == (u + r)[..|StampText(x)|];
        assert StampAt(a + r, i, x);
      }
      StampLocal(u, r);
      assert (u + r)[0] == u[0];
    }
  }

  /** A timestamp is replaced, and nothing around it is. */
  lemma StampErased(a: string, x: Stamp, b: string)
    requires IsStamp(x) && !StampRunsInto(a, StampText(x) + b) && !Continues(x, b)
    ensures Stamps(a + StampText(x) + b) == Stamps(a) + "TIMESTAMP" + Stamps(b)
  {
    var t := StampText(x);
    StampsApart(false, a, t + b);
    StampMatches(x, b);
    ScanFound(StampFinder(), false, a, t, b);
    StampsScan(false, a + t + b);
    StampsScan(false, a);
    StampsScan(IsWord(t[|t| - 1]), b);
  }

  /** Two occurrences at different times are the same text. */
  lemma TimesAlike(a: string, x: Stamp, y: Stamp, b: string)
    requires IsStamp(x) && !StampRunsInto(a, StampText(x) + b) && !Continues(x, b)
    requires IsStamp(y) && !StampRunsInto(a, StampText(y) + b) && !Continues(y, b)
    ensures Normalized(a + StampText(x) + b) == Normalized(a + StampText(y) + b)
  {
    StampErased(a, x, b);
    StampErased(a, y, b);
  }

  // ---- What the earlier passes leave at the ends of a text ----

  lemma StampEndsWord(s: string)
    requires StampLength(s) > 0
    ensures IsWord(s[StampLength(s) - 1]) && IsDigit(s[0])
  {
    var x := StampShape(s);
    var t := StampText(x);
    assert t == s[..|t|] && t[0] == x.date[0] == x.date[..4][0];
    if x.zone != "" {
      assert t[|t| - 1] == x.zone[|x.zone| - 1];
      if x.zone != "Z" {
        assert x.zone[|x.zone| - 1] == if x.zone[3] == ':' then x.zone[4..][1] else x.zone[3..][1];
      }
    } else if x.fraction != "" {
      assert t[|t| - 1] == x.fraction[|x.fraction| - 1] == x.fraction[1..][|x.fraction| - 2];
    } else {
      assert t[|t| - 1] == x.clock[7] == x.clock[6..][1];
    }
  }

  /** A byte that no word holds stays at the end. */
  lemma {:induction false} StampsEnd(s: string)
    requires s != "" && !IsWord(s[|s| - 1])
    ensures Stamps(s) != "" && Stamps(s)[|Stamps(s)| - 1] == s[|s| - 1]
    decreases |s|
  {
    var n := StampLength(s);
    if n > 0 {
      StampEndsWord(s);
      StampsEnd(s[n..]);
    } else if |s| > 1 {
      StampsEnd(s[1..]);
    } else {
      assert Stamps(s[1..]) == "";
    }
  }

  /** A byte that is no digit stays at the beginning. */
  lemma StampsBegin(s: string)
    requires s == "" || !IsDigit(s[0])
    ensures if s == "" then Stamps(s) == "" else Stamps(s) != "" && Stamps(s)[0] == s[0]
  {
    if s != "" && StampLength(s) > 0 { StampEndsWord(s); }
  }

  /** No timestamp overlaps the middle. */
  ghost predicate NoStampOver(a: string, m: string, b: string) {
    forall i: nat, x :: StampAt(a + m + b, i, x) ==> i + |StampText(x)| <= |a| || i >= |a| + |m|
  }

  lemma NoneRunsInto(a: string, m: string, b: string)
    requires NoStampOver(a, m, b) && m != ""
    ensures !StampRunsInto(a, m + b)
  {
    assert a + m + b == a + (m + b);
  }

  lemma StampIn(a: string, m: string, b: string, i: nat)
    requires i < |m| && StampLength(m[i..] + b) > 0
    ensures !NoStampOver(a, m, b)
  {
    var x := StampShape(m[i..] + b);
    var t := StampText(x);
    assert (a + m + b)[|a| + i..] == m[i..] + b;
    assert (a + m + b)[|a| + i..|a| + i + |t|] == (m[i..] + b)[..|t|];
    assert StampAt(a + m + b, |a| + i, x);
  }

  /** A piece that no timestamp overlaps stays as it is. */
  lemma StampsAround(a: string, m: string, b: string)
    requires m != "" && NoStampOver(a, m, b)
    ensures Stamps(a + m + b) == Stamps(a) + m + Stamps(b)
  {
    NoneRunsInto(a, m, b);
    StampsApart(false, a, m + b);
    assert a + m + b == a + (m + b);
    ScanSplit(StampFinder(), false, a, m + b);
    forall i: nat | i < |m| ensures NothingAt(StampFinder(), WordEnd(false, a), m, b, i) {
      if StampLength(m[i..] + b) > 0 { StampIn(a, m, b, i); }
    }
    ScanOver(StampFinder(), WordEnd(false, a), m, b);
    StampsScan(false, a + m + b);
    StampsScan(false, a);
    StampsScan(WordEnd(WordEnd(false, a), m), b);
    Regroup(Stamps(a), m, Stamps(b));
  }
}
