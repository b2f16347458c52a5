/** What normalising is for: two occurrences of a failure that differ only in a time, an
    identifier, an address or a line number are the same text. The shapes of these are told
    character by character, apart from the expressions that the passes match. */
module Volatile {
  import opened Wrappers
  import opened Text
  import opened Passes
  import Normalize
  import opened Scans
  import opened Times
  import opened Around

  // ---- Identifiers ----

  /** Hexadecimal digits in groups of 8, 4, 4, 4 and 12. */
  predicate IsUuid(x: string) {
    |x| == 36 && forall i :: 0 <= i < 36 ==> if i in {8, 13, 18, 23} then x[i] == '-' else IsHex(x[i])
  }

  /** Neither neighbour continues a word. */
  predicate Bounded(a: string, b: string) {
    (a == "" || !IsWord(a[|a| - 1])) && (b == "" || !IsWord(b[0]))
  }

  lemma UuidChars(s: string)
    ensures UuidHere(s) <==> |s| >= 36 && IsUuid(s[..36])
  {
    if |s| >= 36 {
      assert forall i :: 0 <= i < 36 ==> s[..36][i] == s[i];
    }
  }

  /** No identifier begins before one and runs into it. */
  lemma UuidsApartFrom(u: string, x: string, b: string)
    requires 0 < |u| < 36 && !IsWord(u[|u| - 1]) && IsUuid(x)
    ensures !UuidHere(u + x + b)
  {
    var s, k := u + x + b, |u|;
    UuidChars(s);
    assert s[k - 1] == u[k - 1] && s[k + 8] == x[8];
    assert s[..36][k - 1] == s[k - 1];
    assert k + 8 < 36 ==> s[..36][k + 8] == s[k + 8];
  }

  lemma UuidMatches(x: string, b: string)
    requires IsUuid(x) && (b == "" || !IsWord(b[0]))
    ensures UuidLength(false, x + b) == 36
  {
    UuidChars(x + b);
    assert (x + b)[..36] == x && (x + b)[36..] == b;
  }

  /** An identifier is found in a text behind no word, whatever follows. */
  lemma UuidLocal(w: bool, u: string, r: string)
    requires |u| > 36 || (|u| == 36 && !IsWord(u[35])) || !UuidHere(u + r)
    ensures UuidLength(w, u + r) == UuidLength(w, u)
  {
    UuidChars(u);
    UuidChars(u + r);
    if |u| >= 36 {
      assert (u + r)[..36] == u[..36] && (u + r)[36..] == u[36..] + r;
      assert |u| == 36 ==> u[..36][35] == u[35];
    } else if |u + r| >= 36 {
      assert u == (u + r)[..|u|];
    }
  }

  lemma UuidsApart(w: bool, a: string, x: string, b: string)
    requires (a == "" || !IsWord(a[|a| - 1])) && IsUuid(x)
    ensures Apart(UuidFinder(), w, a, x + b)
  {
    forall i: nat | i < |a| ensures SameAt(UuidFinder(), w, a, x + b, i) {
      var u := a[i..];
      assert u[|u| - 1] == a[|a| - 1] && (u + (x + b))[0] == u[0];
      if |u| < 36 {
        UuidsApartFrom(u, x, b);
        assert u + x + b == u + (x + b);
      }
      UuidLocal(WordEnd(w, a[..i]), u, x + b);
    }
  }

  /** An identifier between no words is replaced, and nothing around it is. */
  lemma UuidErased(a: string, x: string, b: string)
    requires IsUuid(x) && Bounded(a, b)
    ensures Uuids(false, a + x + b) == Uuids(false, a) + "UUID" + Uuids(true, b)
  {
    UuidsApart(false, a, x, b);
    UuidMatches(x, b);
    ScanFound(UuidFinder(), false, a, x, b);
    UuidsScan(false, a + x + b);
    UuidsScan(false, a);
    UuidsScan(true, b);
    assert IsHex(x[35]) && IsWord(x[35]);
  }

  /** Two occurrences with different identifiers are the same text. */
  lemma IdentifiersAlike(a: string, x: string, y: string, b: string)
    requires IsUuid(x) && IsUuid(y) && Bounded(a, b) && NoStampOver(a, x, b) && NoStampOver(a, y, b)
    ensures Normalized(a + x + b) == Normalized(a + y + b)
  {
    StampsAround(a, x, b);
    StampsAround(a, y, b);
    if a != "" { StampsEnd(a); } else { StampsBegin(a); }
    StampsBegin(b);
    UuidErased(Stamps(a), x, Stamps(b));
    UuidErased(Stamps(a), y, Stamps(b));
  }

  // ---- Addresses ----

  predicate AllHex(s: string) { forall i :: 0 <= i < |s| ==> IsHex(s[i]) }

  /** The text ends in an address, or in the beginning of one. */
  predicate EndsInAddress(a: string) { exists i :: 0 <= i < |a| && AddressFrom(a, i) }

  predicate AddressFrom(a: string, i: nat)
    requires i < |a|
  {
    i + 2 <= |a| && a[i] == '0' && a[i + 1] == 'x' && AllHex(a[i + 2..])
  }

  lemma EndsShift(a: string, k: nat)
    requires k <= |a|
    ensures EndsInAddress(a[k..]) ==> EndsInAddress(a)
    ensures EndsInAddress(a) ==> EndsInAddress(a[k..]) || exists i :: 0 <= i < k && i < |a| && AddressFrom(a, i)
  {
    forall i: nat | i < |a[k..]| ensures AddressFrom(a[k..], i) <==> AddressFrom(a, k + i) {
      if i + 2 <= |a[k..]| { assert a[k..][i + 2..] == a[k + i + 2..]; }
    }
    if EndsInAddress(a) {
      var i :| 0 <= i < |a| && AddressFrom(a, i);
      if i >= k { assert AddressFrom(a[k..], i - k); }
    }
  }

  lemma AddressLocal(u: string, r: string)
    requires u != "" && !AddressFrom(u, 0) && r != "" && r[0] != 'x'
    ensures AddressLength(u + r) == AddressLength(u)
  {
    var s := u + r;
    assert forall i :: 0 <= i < |u| ==> s[i] == u[i];
    if |u| >= 2 && u[0] == '0' && u[1] == 'x' {
      var n := Leading(u[2..], c => IsHex(c));
      assert n < |u| - 2;
      assert s[2..] == u[2..] + r;
      assert forall i :: 0 <= i <= n ==> s[2..][i] == u[2..][i];
      LeadingIs(s[2..], c => IsHex(c), n);
    } else if |u| == 1 {
      assert s[1] == r[0];
    }
  }

  lemma AddressesApart(w: bool, a: string, r: string)
    requires !EndsInAddress(a) && r != "" && r[0] != 'x'
    ensures Apart(AddressFinder(), w, a, r)
  {
    forall i: nat | i < |a| ensures SameAt(AddressFinder(), w, a, r, i) {
      var u := a[i..];
      EndsShift(a, i);
      assert !AddressFrom(u, 0);
      AddressLocal(u, r);
      assert (u + r)[0] == u[0];
    }
  }

  lemma AddressMatches(h: string, b: string)
    requires h != "" && AllHex(h) && (b == "" || !IsHex(b[0]))
    ensures AddressLength("0x" + h + b) == 2 + |h|
  {
    var s := "0x" + h + b;
    assert s[2..] == h + b;
    LeadingIs(s[2..], c => IsHex(c), |h|);
  }

  /** An address is replaced, and nothing around it is. */
  lemma AddressErased(a: string, h: string, b: string)
    requires h != "" && AllHex(h) && (b == "" || !IsHex(b[0])) && !EndsInAddress(a)
    ensures Addresses(a + ("0x" + h) + b) == Addresses(a) + "0xADDR" + Addresses(b)
  {
    var x := "0x" + h;
    AddressesApart(false, a, x + b);
    AddressMatches(h, b);
    ScanFound(AddressFinder(), false, a, x, b);
    AddressesScan(false, a + x + b);
    AddressesScan(false, a);
    AddressesScan(IsWord(x[|x| - 1]), b);
  }

  lemma StampTaken(s: string)
    ensures StampLength(s) > 0 ==> Stamps(s) != "" && Stamps(s)[0] == 'T'
  {}

  /** A text that comes out in hexadecimal digits came in as it is. */
  lemma {:induction false} StampsHex(s: string)
    requires AllHex(Stamps(s))
    ensures Stamps(s) == s
    decreases |s|
  {
    if s == "" {
    } else {
      StampTaken(s);
      assert Stamps(s)[1..] == Stamps(s[1..]);
      assert forall i :: 0 <= i < |Stamps(s[1..])| ==> Stamps(s[1..])[i] == Stamps(s)[i + 1];
      StampsHex(s[1..]);
      assert [s[0]] + s[1..] == s;
    }
  }

  /** Erasing timestamps makes no address. */
  lemma {:induction false} StampsNoAddress(s: string)
    ensures EndsInAddress(Stamps(s)) ==> EndsInAddress(s)
    decreases |s|
  {
    if s != "" && EndsInAddress(Stamps(s)) {
      var n := StampLength(s);
      var t := Stamps(s);
      var i :| 0 <= i < |t| && AddressFrom(t, i);
      if n > 0 {
        assert t[9..] == Stamps(s[n..]);
        assert "TIMESTAMP" == t[..9];
        assert forall k :: 0 <= k < 9 ==> t[k] == "TIMESTAMP"[k] != '0';
        EndsShift(t, 9);
        StampsNoAddress(s[n..]);
        EndsShift(s, n);
      } else {
        assert t[1..] == Stamps(s[1..]);
        if i > 0 {
          EndsShift(t, 1);
          assert AddressFrom(t[1..], i - 1) by { assert t[1..][i - 1 + 2..] == t[i + 2..]; }
          StampsNoAddress(s[1..]);
          EndsShift(s, 1);
        } else {
          AddressHead(s);
        }
      }
    }
  }

  lemma AddressHead(s: string)
    requires s != "" && StampLength(s) == 0 && AddressFrom(Stamps(s), 0)
    ensures AddressFrom(s, 0)
  {
    var t := Stamps(s);
    var t1 := Stamps(s[1..]);
    assert t[1..] == t1 && t1[0] == 'x';
    StampTaken(s[1..]);
    assert t1[1..] == Stamps(s[2..]) by { assert s[1..][1..] == s[2..]; }
    assert t[2..] == t1[1..];
    StampsHex(s[2..]);
  }

  lemma UuidTaken(w: bool, s: string)
    ensures UuidLength(w, s) > 0 ==> 'U' in Uuids(w, s)
  {}

  lemma {:induction false} UuidsSame(w: bool, s: string)
    requires 'U' !in Uuids(w, s)
    ensures Uuids(w, s) == s
    decreases |s|
  {
    if s == "" {
    } else {
      var t := Uuids(w, s);
      UuidTaken(w, s);
      assert t == [s[0]] + Uuids(IsWord(s[0]), s[1..]);
      assert forall c :: c in Uuids(IsWord(s[0]), s[1..]) ==> c in t;
      UuidsSame(IsWord(s[0]), s[1..]);
      assert [s[0]] + s[1..] == s;
    }
  }

  /** No identifier reaches into an address that begins behind it. */
  lemma UuidBefore(w: bool, s: string, r: string)
    ensures UuidLength(w, s + "0x" + r) <= |s|
  {
    var t := s + "0x" + r;
    UuidChars(t);
    if |s| <= 35 <= |t| - 1 {
      assert t[|s| + 1] == 'x';
      assert |s| + 1 < 36 ==> t[..36][|s| + 1] == 'x';
      assert |s| + 1 == 36 ==> t[36..][0] == 'x';
    }
  }

  lemma UuidsOnce(w: bool, t: string, k: nat, head: string, v: bool, rest: string)
    requires t != "" && k == (if UuidLength(w, t) > 0 then UuidLength(w, t) else 1)
    requires head == (if UuidLength(w, t) > 0 then "UUID" else [t[0]]) && v == IsWord(t[k - 1]) && rest == t[k..]
    ensures Uuids(w, t) == head + Uuids(v, rest)
  {}

  lemma UuidsOx(w: bool)
    ensures Uuids(w, "0x") == "" + "0x"
  {
    assert "0x"[1..] == "x" && "x"[1..] == "";
    UuidsOnce(w, "0x", 1, "0", IsWord('0'), "x");
    UuidsOnce(IsWord('0'), "x", 1, "x", IsWord('x'), "");
    assert Uuids(IsWord('x'), "") == "";
  }

  lemma {:induction false} UuidsTail(w: bool, s: string) returns (p: string)
    ensures Uuids(w, s + "0x") == p + "0x" && (EndsInAddress(p) ==> EndsInAddress(s))
    decreases |s|
  {
    var t := s + "0x";
    assert t == s + "0x" + "";
    UuidBefore(w, s, "");
    if s == "" {
      UuidsOx(w);
      assert t == "0x";
      p := "";
    } else {
      var n := UuidLength(w, t);
      var k := if n > 0 then n else 1;
      var q := UuidsTail(IsWord(s[k - 1]), s[k..]);
      var head := if n > 0 then "UUID" else [s[0]];
      p := head + q;
      DropPlus(s, "0x", k);
      UuidsOnce(w, t, k, head, IsWord(s[k - 1]), s[k..] + "0x");
      Regroup(head, q, "0x");
      TailAddress(w, s, n, head, q);
    }
  }

  lemma TailAddress(w: bool, s: string, n: nat, head: string, q: string)
    requires s != "" && n == UuidLength(w, s + "0x") && n <= |s| && head == if n > 0 then "UUID" else [s[0]]
    requires var k := if n > 0 then n else 1;
             && Uuids(IsWord(s[k - 1]), s[k..] + "0x") == q + "0x"
             && (EndsInAddress(q) ==> EndsInAddress(s[k..]))
    ensures EndsInAddress(head + q) ==> EndsInAddress(s)
  {
    var k := if n > 0 then n else 1;
    var p := head + q;
    EndsShift(s, k);
    EndsShift(p, |head|);
    assert p[|head|..] == q;
    if EndsInAddress(p) && !EndsInAddress(q) {
      var i :| 0 <= i < |head| && i < |p| && AddressFrom(p, i);
      assert p[i] == head[i] == '0';
      assert i == 0 && n == 0;
      assert p[2..] == q[1..] && q[0] == p[1] == 'x';
      assert forall c :: c in q[1..] ==> IsHex(c);
      assert q == [q[0]] + q[1..];
      assert 'U' !in q + "0x";
      UuidsSame(IsWord(s[0]), s[1..] + "0x");
      assert q == (q + "0x")[..|q|] == (s[1..] + "0x")[..|q|] == s[1..];
      assert p == s;
    }
  }

  lemma UuidsApartX(w: bool, a: string, r: string)
    requires |a| >= 2 && a[|a| - 2..] == "0x"
    ensures Apart(UuidFinder(), w, a, r)
  {
    forall i: nat | i < |a| ensures SameAt(UuidFinder(), w, a, r, i) {
      var u := a[i..];
      assert (u + r)[0] == u[0];
      if |u| >= 2 {
        var v := u[..|u| - 2];
        assert u == v + "0x" && u + r == v + "0x" + r && u == v + "0x" + "";
        UuidBefore(WordEnd(w, a[..i]), v, r);
        UuidBefore(WordEnd(w, a[..i]), v, "");
        UuidSameX(WordEnd(w, a[..i]), v, r);
      } else {
        assert u[0] == a[|a| - 2..][1] == 'x';
      }
    }
  }

  lemma UuidSameX(w: bool, v: string, r: string)
    ensures UuidLength(w, v + "0x" + r) == UuidLength(w, v + "0x")
  {
    var s, t := v + "0x" + r, v + "0x";
    UuidBefore(w, v, r);
    UuidBefore(w, v, "");
    assert t == v + "0x" + "";
    UuidChars(s);
    UuidChars(t);
    if |v| >= 36 {
      assert s[..36] == t[..36];
      assert s[36..][0] == t[36..][0];
    }
  }

  /** Digits behind a word hold no identifier. */
  lemma HexPassed(h: string, b: string)
    requires AllHex(h)
    ensures Passed(UuidFinder(), true, h, b)
  {
    forall i: nat | i < |h| ensures NothingAt(UuidFinder(), true, h, b, i) {
      assert i > 0 ==> IsWord(h[..i][i - 1]);
    }
  }

  /** Identifiers around an address are taken as they would be without it. */
  lemma UuidsAroundAddress(a: string, h: string, b: string) returns (p: string)
    requires h != "" && AllHex(h)
    ensures forall g :: g != "" && AllHex(g) ==> Uuids(false, a + ("0x" + g) + b) == p + ("0x" + g) + Uuids(true, b)
    ensures EndsInAddress(p) ==> EndsInAddress(a)
  {
    p := UuidsTail(false, a);
    forall g | g != "" && AllHex(g) ensures Uuids(false, a + ("0x" + g) + b) == p + ("0x" + g) + Uuids(true, b) {
      UuidsThroughAddress(a, g, b, p);
    }
  }

  lemma UuidsThroughAddress(a: string, h: string, b: string, p: string)
    requires h != "" && AllHex(h) && Uuids(false, a + "0x") == p + "0x"
    ensures Uuids(false, a + ("0x" + h) + b) == p + ("0x" + h) + Uuids(true, b)
  {
    var a2 := a + "0x";
    assert a2[|a2| - 2..] == "0x" && a2[|a2| - 1] == 'x';
    UuidsPastX(a2, h, b);
    Around2(a, "0x", h, b);
    Around2(p, "0x", h, Uuids(true, b));
  }

  lemma Around2(a: string, x: string, h: string, b: string)
    ensures a + (x + h) + b == (a + x) + (h + b)
  {}

  lemma UuidsPastX(a: string, h: string, b: string)
    requires |a| >= 2 && a[|a| - 2..] == "0x" && a[|a| - 1] == 'x' && h != "" && AllHex(h)
    ensures Uuids(false, a + (h + b)) == Uuids(false, a) + (h + Uuids(true, b))
  {
    UuidsApartX(false, a, h + b);
    ScanSplit(UuidFinder(), false, a, h + b);
    HexPassed(h, b);
    ScanOver(UuidFinder(), true, h, b);
    UuidsScan(false, a + (h + b));
    UuidsScan(false, a);
    UuidsScan(true, b);
    assert IsHex(h[|h| - 1]) && IsWord(h[|h| - 1]);
  }

  /** A byte that no word holds, or behind a word, stays at the beginning. */
  lemma UuidsBegin(s: string)
    ensures if s == "" then Uuids(true, s) == "" else Uuids(true, s) != "" && Uuids(true, s)[0] == s[0]
  {}

  /** Two occurrences at different addresses are the same text. */
  lemma AddressesAlike(a: string, g: string, h: string, b: string)
    requires g != "" && AllHex(g) && h != "" && AllHex(h) && (b == "" || !IsHex(b[0])) && !EndsInAddress(a)
    requires NoStampOver(a, "0x" + g, b) && NoStampOver(a, "0x" + h, b)
    ensures Normalized(a + ("0x" + g) + b) == Normalized(a + ("0x" + h) + b)
  {
    StampsAround(a, "0x" + g, b);
    StampsAround(a, "0x" + h, b);
    StampsBegin(b);
    StampsNoAddress(a);
    var p := UuidsAroundAddress(Stamps(a), g, Stamps(b));
    UuidsBegin(Stamps(b));
    AddressErased(p, g, Uuids(true, Stamps(b)));
    AddressErased(p, h, Uuids(true, Stamps(b)));
  }

  // ---- Lines and columns ----

  /** A file's suffix, with no address in it. */
  predicate IsSuffix(s: string) {
    && |s| >= 2 && s[0] == '.' && (forall i :: 1 <= i < |s| ==> IsAlnum(s[i]))
    && forall i :: 1 <= i < |s| - 1 ==> !(s[i] == '0' && s[i + 1] == 'x')
  }

  /** A line, and perhaps a column. */
  datatype Position = Position(line: string, column: Option<string>)

  predicate IsPosition(x: Position) {
    && x.line != "" && AllDigits(x.line)
    && (x.column.Some? ==> x.column.value != "" && AllDigits(x.column.value))
  }

  function PositionText(x: Position): string {
    [':'] + x.line + match x.column case Some(c) => [':'] + c case None => ""
  }

  /** What follows is apart from the number: no word, colon or dash. */
  predicate Ends(b: string) { b == "" || !(IsWord(b[0]) || b[0] == ':' || b[0] == '-') }

  /** A piece with no dash or blank in it, which a dot begins and a digit ends. */
  predicate Solid(m: string) {
    && m != "" && m[0] == '.' && IsDigit(m[|m| - 1])
    && (forall i :: 0 <= i < |m| ==> IsAlnum(m[i]) || m[i] == '.' || m[i] == ':')
    && forall i :: 0 <= i < |m| - 1 ==> !(m[i] == '0' && m[i + 1] == 'x')
  }

  lemma PieceSolid(s: string, x: Position)
    requires IsSuffix(s) && IsPosition(x)
    ensures Solid(s + PositionText(x)) && Inert(s + PositionText(x))
  {
    var t := PositionText(x);
    assert t[0] == ':' && forall i :: 0 <= i < |t| ==> IsDigit(t[i]) || t[i] == ':' by { PositionChars(x); }
    var m := s + t;
    assert forall i :: 0 <= i < |m| ==> m[i] == if i < |s| then s[i] else t[i - |s|];
    assert IsDigit(t[|t| - 1]) by { PositionChars(x); }
  }

  lemma PositionChars(x: Position)
    requires IsPosition(x)
    ensures var t := PositionText(x);
            |t| >= 2 && t[0] == ':' && IsDigit(t[|t| - 1]) && forall i :: 0 <= i < |t| ==> IsDigit(t[i]) || t[i] == ':'
  {
    var t := PositionText(x);
    assert forall i :: 0 <= i < |x.line| ==> t[1 + i] == x.line[i];
    if x.column.Some? {
      var c := x.column.value;
      assert forall i :: 0 <= i < |c| ==> t[2 + |x.line| + i] == c[i];
    }
  }

  lemma NoStampStarts(m: string, b: string, i: nat)
    requires Solid(m) && Ends(b) && i < |m|
    ensures StampLength(m[i..] + b) == 0
  {
    var t := m[i..] + b;
    assert forall k :: 0 <= k < |m| - i ==> t[k] == m[i + k];
    assert |t| > |m| - i ==> t[|m| - i] == b[0];
    if |m| - i < 4 {
      assert !DigitsAt(t, 0, 4) by { assert |m| - i + 1 <= |t| ==> !IsDigit(t[|m| - i]); }
    } else {
      assert |t| > 4 ==> t[4] != '-';
    }
  }

  lemma StampsAroundPiece(a: string, m: string, b: string)
    requires Solid(m) && Ends(b) && !StampRunsInto(a, m + b)
    ensures Stamps(a + m + b) == Stamps(a) + m + Stamps(b)
  {
    StampsApart(false, a, m + b);
    assert a + m + b == a + (m + b);
    ScanSplit(StampFinder(), false, a, m + b);
    forall i: nat | i < |m| ensures NothingAt(StampFinder(), WordEnd(false, a), m, b, i) { NoStampStarts(m, b, i); }
    ScanOver(StampFinder(), WordEnd(false, a), m, b);
    StampsScan(false, a + m + b);
    StampsScan(false, a);
    StampsScan(WordEnd(WordEnd(false, a), m), b);
    Regroup(Stamps(a), m, Stamps(b));
  }

  lemma NoUuidStarts(w: bool, m: string, b: string, i: nat)
    requires Solid(m) && Ends(b) && i < |m|
    ensures UuidLength(w, m[i..] + b) == 0
  {
    var t := m[i..] + b;
    UuidChars(t);
    assert forall k :: 0 <= k < |m| - i ==> t[k] == m[i + k];
    assert |t| > |m| - i ==> t[|m| - i] == b[0];
    if |t| >= 36 {
      assert forall k :: 0 <= k < 36 ==> t[..36][k] == t[k];
      if |m| - i <= 8 {
        assert t[..36][|m| - i] == b[0];
      } else {
        assert t[..36][8] == m[i + 8];
      }
    }
  }

  lemma UuidLocalDot(w: bool, u: string, r: string)
    requires r != "" && r[0] == '.'
    ensures UuidLength(w, u + r) == UuidLength(w, u)
  {
    var s := u + r;
    UuidChars(s);
    UuidChars(u);
    assert s[|u|] == '.';
    if |u| < 36 <= |s| {
      assert s[..36][|u|] == '.';
    } else if |u| >= 36 {
      assert s[..36] == u[..36] && s[36..] == u[36..] + r;
    }
  }

  lemma UuidsAroundPiece(a: string, m: string, b: string)
    requires Solid(m) && Ends(b)
    ensures Uuids(false, a + m + b) == Uuids(false, a) + m + Uuids(true, b)
  {
    forall i: nat | i < |a| ensures SameAt(UuidFinder(), false, a, m + b, i) {
      UuidLocalDot(WordEnd(false, a[..i]), a[i..], m + b);
      assert (a[i..] + (m + b))[0] == a[i..][0];
    }
    assert a + m + b == a + (m + b);
    ScanSplit(UuidFinder(), false, a, m + b);
    var v := WordEnd(false, a);
    forall i: nat | i < |m| ensures NothingAt(UuidFinder(), v, m, b, i) { NoUuidStarts(WordEnd(v, m[..i]), m, b, i); }
    ScanOver(UuidFinder(), v, m, b);
    UuidsScan(false, a + m + b);
    UuidsScan(false, a);
    UuidsScan(true, b);
    Regroup(Uuids(false, a), m, Uuids(true, b));
  }

  lemma AddressLocalDot(u: string, r: string)
    requires u != "" && r != "" && r[0] == '.'
    ensures AddressLength(u + r) == AddressLength(u)
  {
    var s := u + r;
    assert forall i :: 0 <= i < |u| ==> s[i] == u[i];
    if |u| >= 2 && u[0] == '0' && u[1] == 'x' {
      var n := Leading(u[2..], c => IsHex(c));
      assert s[2..] == u[2..] + r;
      assert forall i :: 0 <= i < |u| - 2 ==> s[2..][i] == u[2..][i];
      LeadingIs(s[2..], c => IsHex(c), n);
    }
  }

  lemma NoAddressStarts(m: string, b: string, i: nat)
    requires Solid(m) && Ends(b) && i < |m|
    ensures AddressLength(m[i..] + b) == 0
  {
    var t := m[i..] + b;
    assert forall k :: 0 <= k < |m| - i ==> t[k] == m[i + k];
    assert |t| > |m| - i ==> t[|m| - i] == b[0];
  }

  lemma AddressesAroundPiece(a: string, m: string, b: string)
    requires Solid(m) && Ends(b)
    ensures Addresses(a + m + b) == Addresses(a) + m + Addresses(b)
  {
    forall i: nat | i < |a| ensures SameAt(AddressFinder(), false, a, m + b, i) {
      AddressLocalDot(a[i..], m + b);
      assert (a[i..] + (m + b))[0] == a[i..][0];
    }
    assert a + m + b == a + (m + b);
    ScanSplit(AddressFinder(), false, a, m + b);
    var v := WordEnd(false, a);
    forall i: nat | i < |m| ensures NothingAt(AddressFinder(), v, m, b, i) { NoAddressStarts(m, b, i); }
    ScanOver(AddressFinder(), v, m, b);
    AddressesScan(false, a + m + b);
    AddressesScan(false, a);
    AddressesScan(WordEnd(v, m), b);
    Regroup(Addresses(a), m, Addresses(b));
  }

  lemma {:induction false} SuffixLocal(u: string, r: string)
    requires u != "" && r != "" && r[0] == '.'
    ensures SuffixLength(u + r) == SuffixLength(u)
  {
    if u[0] == '.' {
      assert (u + r)[1..] == u[1..] + r;
      LeadingLocal(u[1..], r, c => IsAlnum(c));
    }
  }

  lemma LeadingLocal(u: string, r: string, kind: char -> bool)
    requires r != "" && !kind(r[0])
    ensures Leading(u + r, kind) == Leading(u, kind)
  {
    var n := Leading(u, kind);
    assert forall i :: 0 <= i < |u| ==> (u + r)[i] == u[i];
    LeadingIs(u + r, kind, n);
  }

  lemma ColonLocal(u: string, r: string)
    requires r != "" && r[0] == '.'
    ensures ColonNumber(u + r) == ColonNumber(u)
  {
    if u != "" && u[0] == ':' {
      assert (u + r)[1..] == u[1..] + r;
      LeadingLocal(u[1..], r, c => IsDigit(c));
    }
  }

  lemma LineColLocal(u: string, r: string)
    requires u != "" && r != "" && r[0] == '.'
    ensures LineColLength(u + r) == LineColLength(u) && SuffixLength(u + r) == SuffixLength(u)
  {
    SuffixLocal(u, r);
    var k := SuffixLength(u);
    var x := u[k..];
    DropPlus(u, r, k);
    ColonLocal(x, r);
    var line := ColonNumber(x);
    DropPlus(x, r, line);
    ColonLocal(x[line..], r);
    LineColFrom(u, k, x, line, x[line..]);
    LineColFrom(u + r, k, x + r, line, x[line..] + r);
  }

  lemma LineColFrom(t: string, k: nat, x: string, line: nat, y: string)
    requires k == SuffixLength(t) && t[k..] == x && line == ColonNumber(x) && x[line..] == y
    ensures LineColLength(t) == if k == 0 || line == 0 then 0 else k + line + ColonNumber(y)
  {
    assert t[k + line..] == t[k..][line..];
  }

  lemma ColonMatches(d: string, b: string)
    requires d != "" && AllDigits(d) && (b == "" || !IsDigit(b[0]))
    ensures ColonNumber([':'] + d + b) == 1 + |d| && ([':'] + d + b)[1 + |d|..] == b
  {
    var t := [':'] + d + b;
    assert t[1..] == d + b;
    LeadingIs(t[1..], c => IsDigit(c), |d|);
  }

  lemma NoColon(b: string)
    requires b == "" || b[0] != ':'
    ensures ColonNumber(b) == 0
  {}

  lemma SuffixMatches(s: string, r: string)
    requires IsSuffix(s) && r != "" && r[0] == ':'
    ensures SuffixLength(s + r) == |s| && (s + r)[|s|..] == r
  {
    var t := s + r;
    assert t[1..] == s[1..] + r;
    LeadingIs(t[1..], c => IsAlnum(c), |s| - 1);
  }

  /** The column of a position, as it is written. */
  function ColumnText(x: Position): string { match x.column case Some(c) => [':'] + c case None => "" }

  lemma NumbersMatch(x: Position, b: string)
    requires IsPosition(x) && Ends(b)
    ensures var t, line := PositionText(x) + b, 1 + |x.line|;
            && ColonNumber(t) == line && t[line..] == ColumnText(x) + b
            && ColonNumber(ColumnText(x) + b) == |ColumnText(x)|
  {
    var tail := ColumnText(x) + b;
    assert PositionText(x) + b == [':'] + x.line + tail;
    ColonMatches(x.line, tail);
    match x.column
    case Some(c) => ColonMatches(c, b);
    case None =>
      assert tail == b;
      NoColon(b);
  }

  lemma PositionMatches(s: string, x: Position, b: string)
    requires IsSuffix(s) && IsPosition(x) && Ends(b)
    ensures var t := s + PositionText(x) + b; SuffixLength(t) == |s| && LineColLength(t) == |s + PositionText(x)|
  {
    var r := PositionText(x) + b;
    assert s + PositionText(x) + b == s + r && r[0] == ':';
    SuffixMatches(s, r);
    NumbersMatch(x, b);
    LineColFrom(s + r, |s|, r, 1 + |x.line|, ColumnText(x) + b);
  }

  lemma PositionsApart(a: string, r: string)
    requires r != "" && r[0] == '.'
    ensures Apart(LineColFinder(), false, a, r)
  {
    forall i: nat | i < |a| ensures SameAt(LineColFinder(), false, a, r, i) {
      var u := a[i..];
      LineColLocal(u, r);
      assert (u + r)[0] == u[0] && (u + r)[..SuffixLength(u)] == u[..SuffixLength(u)];
    }
  }

  /** A line and column behind a suffix are taken off it, and nothing around it is. */
  lemma PositionErased(a: string, s: string, x: Position, b: string)
    requires IsSuffix(s) && IsPosition(x) && Ends(b)
    ensures LineCols(a + (s + PositionText(x)) + b) == LineCols(a) + s + LineCols(b)
  {
    var m := s + PositionText(x);
    PositionsApart(a, m + b);
    PositionMatches(s, x, b);
    assert (m + b)[..|s|] == s;
    ScanFound(LineColFinder(), false, a, m, b);
    LineColsScan(false, a + m + b);
    LineColsScan(false, a);
    LineColsScan(IsWord(m[|m| - 1]), b);
  }

  lemma AddressesBegin(s: string)
    requires s == "" || s[0] != '0'
    ensures if s == "" then Addresses(s) == "" else Addresses(s) != "" && Addresses(s)[0] == s[0]
  {}

  /** What follows a number still ends it, after the early passes. */
  lemma EndsKept(b: string)
    requires Ends(b)
    ensures Ends(Stamps(b)) && Ends(Uuids(true, Stamps(b))) && Ends(Addresses(Uuids(true, Stamps(b))))
  {
    StampsBegin(b);
    UuidsBegin(Stamps(b));
    AddressesBegin(Uuids(true, Stamps(b)));
  }

  /** The passes before stripping, around a position. */
  lemma EarlyAround(a: string, m: string, b: string)
    requires Solid(m) && Ends(b) && !StampRunsInto(a, m + b)
    ensures Addresses(Uuids(false, Stamps(a + m + b))) ==
            Addresses(Uuids(false, Stamps(a))) + m + Addresses(Uuids(true, Stamps(b)))
  {
    EndsKept(b);
    StampsAroundPiece(a, m, b);
    UuidsAroundPiece(Stamps(a), m, Stamps(b));
    AddressesAroundPiece(Uuids(false, Stamps(a)), m, Uuids(true, Stamps(b)));
  }

  /** Two occurrences at different lines or columns of one file are the same text, under
      whatever root. */
  lemma PositionsAlike(a: string, s: string, x: Position, y: Position, b: string)
    requires IsSuffix(s) && IsPosition(x) && IsPosition(y) && Ends(b)
    requires !StampRunsInto(a, s + PositionText(x) + b) && !StampRunsInto(a, s + PositionText(y) + b)
    ensures Normalized(a + (s + PositionText(x)) + b) == Normalized(a + (s + PositionText(y)) + b)
  {
    var m, n := s + PositionText(x), s + PositionText(y);
    PieceSolid(s, x);
    PieceSolid(s, y);
    EarlyAround(a, m, b);
    EarlyAround(a, n, b);
    EndsKept(b);
    var rest := StripKeepsPiece(Addresses(Uuids(false, Stamps(a))), Addresses(Uuids(true, Stamps(b))));
    if rest.Kept? {
      PositionErased(rest.before, s, x, rest.after);
      PositionErased(rest.before, s, y, rest.after);
    }
  }

  // ---- Numbers and blanks ----

  lemma NumberLocal(w: bool, u: string, r: string)
    requires u != "" && !IsWord(u[|u| - 1])
    ensures NumberLength(w, u + r) == NumberLength(w, u)
  {
    var n := Leading(u, c => IsDigit(c));
    assert n < |u|;
    assert forall i :: 0 <= i < |u| ==> (u + r)[i] == u[i];
    LeadingIs(u + r, c => IsDigit(c), n);
    assert (u + r)[n..][0] == u[n..][0];
  }

  lemma NumbersApart(a: string, r: string)
    requires a == "" || !IsWord(a[|a| - 1])
    ensures Apart(NumberFinder(), false, a, r)
  {
    forall i: nat | i < |a| ensures SameAt(NumberFinder(), false, a, r, i) {
      var u := a[i..];
      assert u[|u| - 1] == a[|a| - 1] && (u + r)[0] == u[0];
      NumberLocal(WordEnd(false, a[..i]), u, r);
    }
  }

  lemma NumberMatches(d: string, b: string)
    requires d != "" && AllDigits(d) && (b == "" || !IsWord(b[0]))
    ensures NumberLength(false, d + b) == |d| && IsWord(d[|d| - 1])
  {
    LeadingIs(d + b, c => IsDigit(c), |d|);
    assert (d + b)[|d|..] == b;
  }

  /** A number that is a word of its own is replaced, and nothing around it is. */
  lemma NumberErased(a: string, d: string, b: string)
    requires d != "" && AllDigits(d) && Bounded(a, b)
    ensures Numbers(false, a + d + b) == Numbers(false, a) + "N" + Numbers(true, b)
  {
    NumbersApart(a, d + b);
    NumberMatches(d, b);
    ScanFound(NumberFinder(), false, a, d, b);
    NumbersScan(false, a + d + b);
    NumbersScan(false, a);
    NumbersScan(true, b);
  }

  /** A run of blanks is replaced by one, and nothing around it is. */
  lemma BlankErased(a: string, x: string, b: string)
    requires x != "" && (forall i :: 0 <= i < |x| ==> IsBlank(x[i]))
    requires (a == "" || !IsBlank(a[|a| - 1])) && (b == "" || !IsBlank(b[0]))
    ensures Blanks(a + x + b) == Blanks(a) + " " + Blanks(b)
  {
    forall i: nat | i < |a| ensures SameAt(BlankFinder(), false, a, x + b, i) {
      var u := a[i..];
      assert u[|u| - 1] == a[|a| - 1];
      var n := Leading(u, c => IsBlank(c));
      assert n < |u|;
      assert forall k :: 0 <= k < |u| ==> (u + (x + b))[k] == u[k];
      LeadingIs(u + (x + b), c => IsBlank(c), n);
    }
    LeadingIs(x + b, c => IsBlank(c), |x|);
    ScanFound(BlankFinder(), false, a, x, b);
    BlanksScan(false, a + x + b);
    BlanksScan(false, a);
    BlanksScan(IsWord(x[|x| - 1]), b);
  }

  /** What a line that begins with a time is normalised to, when the rest of it is settled. */
  lemma TimeComesOut(x: Stamp, b: string)
    requires IsStamp(x) && !Continues(x, b)
    requires var t := "TIMESTAMP" + b;
             && NoStamp(b) && Settled(t) && !HasBareInt(t) && SingleBlanks(t) && Normalize.NoPathStart(t)
             && !IsSpace(t[|t| - 1])
    ensures Normalized(StampText(x) + b) == "TIMESTAMP" + b
  {
    TimeAtHead(x, b);
    SettledAfter(StampText(x) + b, "TIMESTAMP" + b);
  }

  lemma TimeAtHead(x: Stamp, b: string)
    requires IsStamp(x) && !Continues(x, b) && NoStamp(b)
    ensures Stamps(StampText(x) + b) == "TIMESTAMP" + b
  {
    var t := StampText(x);
    StampMatches(x, b);
    DropPlus(t, b, |t|);
    assert b[0..] == b && t[|t|..] + b == b;
    StampsKeep(b, 0);
    StampsOnce(t + b, |t|, b);
  }

  lemma StampsOnce(s: string, n: nat, rest: string)
    requires 0 < n == StampLength(s) && rest == s[n..]
    ensures Stamps(s) == "TIMESTAMP" + Stamps(rest)
  {}

  lemma SettledAfter(line: string, t: string)
    requires Stamps(line) == t && t != "" && !IsSpace(t[0]) && !IsSpace(t[|t| - 1])
    requires Settled(t) && !HasBareInt(t) && SingleBlanks(t) && Normalize.NoPathStart(t)
    ensures Normalized(line) == t
  {
    assert t[0..] == t;
    UuidsKeep(t, 0);
    AddressesKeep(t, 0);
    Normalize.RelativeUnchanged(t);
    LateKeep(t);
    TrimKeep(t);
  }
}
