/** The passes as scans: what is found at the head of a text is replaced, all else is kept. A scan
    of a text in two parts is the scans of the parts, unless something runs from one into the
    other. */
module Scans {
  import opened Text
  import opened Passes

  /** What a pass finds at the head of a text, which stands behind a word or not, and what it puts
      there. */
  datatype Finder = Finder(length: (bool, string) -> nat, put: string -> string)

  function Skip(f: Finder, w: bool, s: string): (n: nat)
    requires s != ""
    ensures 1 <= n <= |s|
  {
    if 1 <= f.length(w, s) <= |s| then f.length(w, s) else 1
  }

  function Head(f: Finder, w: bool, s: string): string
    requires s != ""
  {
    if 1 <= f.length(w, s) <= |s| then f.put(s) else [s[0]]
  }

  /** A scan from the left that replaces what is found. */
  function Scan(f: Finder, w: bool, s: string): string
    decreases |s|
  {
    if s == "" then "" else Head(f, w, s) + Scan(f, IsWord(s[Skip(f, w, s) - 1]), s[Skip(f, w, s)..])
  }

  function WordEnd(w: bool, a: string): bool { if a == "" then w else IsWord(a[|a| - 1]) }

  /** What is found at a place in the first part is the same with the second behind it. */
  predicate SameAt(f: Finder, w: bool, a: string, r: string, i: nat)
    requires i < |a|
  {
    var u, v := a[i..], WordEnd(w, a[..i]);
    Skip(f, v, u + r) == Skip(f, v, u) && Head(f, v, u + r) == Head(f, v, u)
  }

  lemma SameShift(f: Finder, w: bool, a: string, r: string, k: nat, i: nat)
    requires 0 < k <= |a| && i < |a| - k && SameAt(f, w, a, r, k + i)
    ensures SameAt(f, IsWord(a[k - 1]), a[k..], r, i)
  {
    assert a[k..][i..] == a[k + i..];
    assert WordEnd(IsWord(a[k - 1]), a[k..][..i]) == WordEnd(w, a[..k + i]);
  }

  lemma DropPlus(a: string, r: string, k: nat)
    requires k <= |a|
    ensures (a + r)[k..] == a[k..] + r
  {}

  lemma ScanOnce(f: Finder, w: bool, s: string, k: nat, head: string, v: bool, rest: string)
    requires s != "" && k == Skip(f, w, s) && head == Head(f, w, s) && v == IsWord(s[k - 1]) && rest == s[k..]
    ensures Scan(f, w, s) == head + Scan(f, v, rest)
  {}

  lemma SameHead(f: Finder, w: bool, a: string, r: string)
    requires a != "" && SameAt(f, w, a, r, 0)
    ensures Skip(f, w, a + r) == Skip(f, w, a) && Head(f, w, a + r) == Head(f, w, a)
  {
    assert a[0..] == a && a[..0] == "";
  }

  lemma WordEndRest(w: bool, a: string, k: nat)
    requires 0 < k <= |a|
    ensures WordEnd(IsWord(a[k - 1]), a[k..]) == WordEnd(w, a)
  {}

  ghost predicate Apart(f: Finder, w: bool, a: string, r: string) {
    forall i: nat :: i < |a| ==> SameAt(f, w, a, r, i)
  }

  lemma ApartRest(f: Finder, w: bool, a: string, r: string, k: nat)
    requires 0 < k <= |a| && Apart(f, w, a, r)
    ensures Apart(f, IsWord(a[k - 1]), a[k..], r)
  {
    var v, rest := IsWord(a[k - 1]), a[k..];
    forall i: nat | i < |rest| ensures SameAt(f, v, rest, r, i) { SameShift(f, w, a, r, k, i); }
  }

  /** Past the first thing that is found, or the first byte. */
  lemma ApartStep(f: Finder, w: bool, a: string, r: string) returns (v: bool, rest: string, head: string)
    requires a != "" && Apart(f, w, a, r)
    ensures |rest| < |a| && Apart(f, v, rest, r) && WordEnd(v, rest) == WordEnd(w, a)
    ensures Scan(f, w, a) == head + Scan(f, v, rest) && Scan(f, w, a + r) == head + Scan(f, v, rest + r)
  {
    assert SameAt(f, w, a, r, 0);
    SameHead(f, w, a, r);
    var k := Skip(f, w, a);
    v, rest, head := IsWord(a[k - 1]), a[k..], Head(f, w, a);
    DropPlus(a, r, k);
    assert (a + r)[k - 1] == a[k - 1];
    ScanOnce(f, w, a, k, head, v, rest);
    ScanOnce(f, w, a + r, k, head, v, rest + r);
    ApartRest(f, w, a, r, k);
    WordEndRest(w, a, k);
  }

  /** When nothing that begins in the first part is found otherwise for the second. */
  lemma {:induction false} ScanSplit(f: Finder, w: bool, a: string, r: string)
    requires Apart(f, w, a, r)
    ensures Scan(f, w, a + r) == Scan(f, w, a) + Scan(f, WordEnd(w, a), r)
    decreases |a|
  {
    if a == "" {
      assert a + r == r && Scan(f, w, a) == "";
    } else {
      var v, rest, head := ApartStep(f, w, a, r);
      ScanSplit(f, v, rest, r);
      SplitOnce(Scan(f, w, a + r), Scan(f, w, a), head, Scan(f, v, rest + r), Scan(f, v, rest),
                Scan(f, WordEnd(w, a), r));
    }
  }

  lemma SplitOnce(whole: string, part: string, head: string, tail: string, x: string, y: string)
    requires whole == head + tail && part == head + x && tail == x + y
    ensures whole == part + y
  {}

  lemma Joins(whole: string, x: string, rest: string, y: string, z: string)
    requires whole == x + rest && rest == y + z
    ensures whole == x + y + z
  {}

  lemma Regroup(x: string, y: string, z: string)
    ensures x + (y + z) == (x + y) + z
  {}

  function StampFinder(): Finder { Finder((w: bool, s: string) => StampLength(s), (s: string) => "TIMESTAMP") }

  function UuidFinder(): Finder { Finder((w: bool, s: string) => UuidLength(w, s), (s: string) => "UUID") }

  function AddressFinder(): Finder { Finder((w: bool, s: string) => AddressLength(s), (s: string) => "0xADDR") }

  function LineColFinder(): Finder {
    Finder((w: bool, s: string) => LineColLength(s), (s: string) => s[..SuffixLength(s)])
  }

  function NumberFinder(): Finder { Finder((w: bool, s: string) => NumberLength(w, s), (s: string) => "N") }

  function BlankFinder(): Finder {
    Finder((w: bool, s: string) => Leading(s, c => IsBlank(c)), (s: string) => " ")
  }

  lemma {:induction false} StampsScan(w: bool, s: string)
    ensures Stamps(s) == Scan(StampFinder(), w, s)
    decreases |s|
  {
    if s == "" {
    } else {
      var k := Skip(StampFinder(), w, s);
      StampsScan(IsWord(s[k - 1]), s[k..]);
    }
  }

  lemma {:induction false} UuidsScan(w: bool, s: string)
    ensures Uuids(w, s) == Scan(UuidFinder(), w, s)
    decreases |s|
  {
    if s == "" {
    } else {
      var k := Skip(UuidFinder(), w, s);
      UuidsScan(IsWord(s[k - 1]), s[k..]);
    }
  }

  lemma {:induction false} AddressesScan(w: bool, s: string)
    ensures Addresses(s) == Scan(AddressFinder(), w, s)
    decreases |s|
  {
    if s == "" {
    } else {
      var k := Skip(AddressFinder(), w, s);
      AddressesScan(IsWord(s[k - 1]), s[k..]);
    }
  }

  lemma {:induction false} LineColsScan(w: bool, s: string)
    ensures LineCols(s) == Scan(LineColFinder(), w, s)
    decreases |s|
  {
    if s == "" {
    } else {
      var k := Skip(LineColFinder(), w, s);
      LineColsScan(IsWord(s[k - 1]), s[k..]);
    }
  }

  lemma {:induction false} NumbersScan(w: bool, s: string)
    ensures Numbers(w, s) == Scan(NumberFinder(), w, s)
    decreases |s|
  {
    if s == "" {
    } else {
      var k := Skip(NumberFinder(), w, s);
      NumbersScan(IsWord(s[k - 1]), s[k..]);
    }
  }

  lemma {:induction false} BlanksScan(w: bool, s: string)
    ensures Blanks(s) == Scan(BlankFinder(), w, s)
    decreases |s|
  {
    if s == "" {
    } else {
      var k := Skip(BlankFinder(), w, s);
      BlanksScan(IsWord(s[k - 1]), s[k..]);
    }
  }

  /** Nothing is found at a place. */
  predicate NothingAt(f: Finder, w: bool, m: string, b: string, i: nat)
    requires i < |m|
  {
    f.length(WordEnd(w, m[..i]), m[i..] + b) == 0
  }

  ghost predicate Passed(f: Finder, w: bool, m: string, b: string) {
    forall i: nat :: i < |m| ==> NothingAt(f, w, m, b, i)
  }

  lemma PassedRest(f: Finder, w: bool, m: string, b: string)
    requires m != "" && Passed(f, w, m, b)
    ensures Passed(f, IsWord(m[0]), m[1..], b)
  {
    var v, rest := IsWord(m[0]), m[1..];
    forall i: nat | i < |rest| ensures NothingAt(f, v, rest, b, i) {
      assert NothingAt(f, w, m, b, 1 + i);
      assert rest[i..] == m[1 + i..] && WordEnd(v, rest[..i]) == WordEnd(w, m[..1 + i]);
    }
  }

  lemma PassedStep(f: Finder, w: bool, m: string, b: string)
    requires m != "" && NothingAt(f, w, m, b, 0)
    ensures Scan(f, w, m + b) == [m[0]] + Scan(f, IsWord(m[0]), m[1..] + b)
  {
    assert m[0..] == m && m[..0] == "" && (m + b)[1..] == m[1..] + b;
  }

  /** What nothing is found in is passed over. */
  lemma {:induction false} ScanOver(f: Finder, w: bool, m: string, b: string)
    requires Passed(f, w, m, b)
    ensures Scan(f, w, m + b) == m + Scan(f, WordEnd(w, m), b)
    decreases |m|
  {
    if m == "" {
      assert m + b == b && m + Scan(f, w, b) == Scan(f, w, b);
    } else {
      assert NothingAt(f, w, m, b, 0);
      PassedStep(f, w, m, b);
      PassedRest(f, w, m, b);
      WordEndRest(w, m, 1);
      ScanOver(f, IsWord(m[0]), m[1..], b);
      Regroup([m[0]], m[1..], Scan(f, WordEnd(w, m), b));
      assert [m[0]] + m[1..] == m;
    }
  }

  /** One match between two texts. */
  lemma ScanFound(f: Finder, w: bool, a: string, x: string, b: string)
    requires Apart(f, w, a, x + b) && x != "" && f.length(WordEnd(w, a), x + b) == |x|
    ensures Scan(f, w, a + x + b) == Scan(f, w, a) + f.put(x + b) + Scan(f, IsWord(x[|x| - 1]), b)
  {
    assert a + x + b == a + (x + b);
    ScanSplit(f, w, a, x + b);
    FoundAtHead(f, WordEnd(w, a), x, b);
    Joins(Scan(f, w, a + x + b), Scan(f, w, a), Scan(f, WordEnd(w, a), x + b), f.put(x + b),
          Scan(f, IsWord(x[|x| - 1]), b));
  }

  lemma FoundAtHead(f: Finder, v: bool, x: string, b: string)
    requires x != "" && f.length(v, x + b) == |x|
    ensures Scan(f, v, x + b) == f.put(x + b) + Scan(f, IsWord(x[|x| - 1]), b)
  {
    assert (x + b)[|x|..] == b && (x + b)[|x| - 1] == x[|x| - 1];
    ScanOnce(f, v, x + b, |x|, f.put(x + b), IsWord(x[|x| - 1]), b);
  }

  lemma {:induction false} LeadingIs(s: string, kind: char -> bool, n: nat)
    requires n <= |s| && (forall i :: 0 <= i < n ==> kind(s[i])) && (n < |s| ==> !kind(s[n]))
    ensures Leading(s, kind) == n
  {
    if n == 0 {
    } else {
      LeadingIs(s[1..], kind, n - 1);
    }
  }
}
