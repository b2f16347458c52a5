/** The passes that erase volatile detail from a line, in their order. Each scans once from the
    left and replaces what its expression matches; what an expression may ask about the text
    before a match is whether it ends in a word. */
module Passes {
  import opened Text
  import Normalize

  // ---- What the expressions match at the head of a text ----

  predicate IsHex(c: char) { IsDigit(c) || 'a' <= c <= 'f' || 'A' <= c <= 'F' }

  predicate IsAlnum(c: char) { IsDigit(c) || 'a' <= c <= 'z' || 'A' <= c <= 'Z' }

  /** What `\s` matches. */
  predicate IsBlank(c: char) { c in {'\t', '\n', '\U{0C}', '\r', ' '} }

  function Leading(s: string, kind: char -> bool): (n: nat)
    ensures n <= |s| && (forall i :: 0 <= i < n ==> kind(s[i])) && (n < |s| ==> !kind(s[n]))
  {
    if s == "" || !kind(s[0]) then 0 else 1 + Leading(s[1..], kind)
  }

  predicate AllAt(s: string, i: nat, n: nat, kind: char -> bool) {
    i + n <= |s| && forall k :: i <= k < i + n ==> kind(s[k])
  }

  predicate DigitsAt(s: string, i: nat, n: nat) { AllAt(s, i, n, c => IsDigit(c)) }

  predicate CharAt(s: string, i: nat, c: char) { i < |s| && s[i] == c }

  /** Date and time of day, to the second. */
  predicate StampHere(s: string) {
    && DigitsAt(s, 0, 4) && CharAt(s, 4, '-') && DigitsAt(s, 5, 2) && CharAt(s, 7, '-') && DigitsAt(s, 8, 2)
    && (CharAt(s, 10, 'T') || CharAt(s, 10, ' '))
    && DigitsAt(s, 11, 2) && CharAt(s, 13, ':') && DigitsAt(s, 14, 2) && CharAt(s, 16, ':') && DigitsAt(s, 17, 2)
  }

  function FractionLength(s: string): (n: nat)
    ensures n <= |s|
  {
    if !CharAt(s, 0, '.') then 0
    else
      var n := Leading(s[1..], c => IsDigit(c));
      if n == 0 then 0 else 1 + n
  }

  function ZoneLength(s: string): (n: nat)
    ensures n <= |s|
  {
    if CharAt(s, 0, 'Z') then 1
    else if (CharAt(s, 0, '+') || CharAt(s, 0, '-')) && DigitsAt(s, 1, 2) then
      if CharAt(s, 3, ':') && DigitsAt(s, 4, 2) then 6 else if DigitsAt(s, 3, 2) then 5 else 0
    else 0
  }

  function StampLength(s: string): (n: nat)
    ensures n <= |s|
  {
    if !StampHere(s) then 0
    else
      var n := 19 + FractionLength(s[19..]);
      n + ZoneLength(s[n..])
  }

  predicate UuidHere(s: string) {
    && AllAt(s, 0, 8, c => IsHex(c)) && CharAt(s, 8, '-') && AllAt(s, 9, 4, c => IsHex(c)) && CharAt(s, 13, '-')
    && AllAt(s, 14, 4, c => IsHex(c)) && CharAt(s, 18, '-') && AllAt(s, 19, 4, c => IsHex(c)) && CharAt(s, 23, '-')
    && AllAt(s, 24, 12, c => IsHex(c))
  }

  predicate WordHere(s: string) { s != "" && IsWord(s[0]) }

  function UuidLength(inWord: bool, s: string): (n: nat)
    ensures n <= |s|
  {
    if !inWord && UuidHere(s) && !WordHere(s[36..]) then 36 else 0
  }

  function AddressLength(s: string): (n: nat)
    ensures n <= |s|
  {
    if !(CharAt(s, 0, '0') && CharAt(s, 1, 'x')) then 0
    else
      var n := Leading(s[2..], c => IsHex(c));
      if n == 0 then 0 else 2 + n
  }

  function ColonNumber(s: string): (n: nat)
    ensures n <= |s|
  {
    if !CharAt(s, 0, ':') then 0
    else
      var n := Leading(s[1..], c => IsDigit(c));
      if n == 0 then 0 else 1 + n
  }

  /** A dot and letters or digits, which the pass keeps. */
  function SuffixLength(s: string): (n: nat)
    ensures n <= |s|
  {
    if !CharAt(s, 0, '.') then 0
    else
      var n := Leading(s[1..], c => IsAlnum(c));
      if n == 0 then 0 else 1 + n
  }

  /** The suffix with a line and perhaps a column. */
  function LineColLength(s: string): (n: nat)
    ensures n <= |s| && (n > 0 ==> SuffixLength(s) > 0)
  {
    var k := SuffixLength(s);
    if k == 0 then 0
    else
      var line := ColonNumber(s[k..]);
      if line == 0 then 0 else k + line + ColonNumber(s[k + line..])
  }

  function NumberLength(inWord: bool, s: string): (n: nat)
    ensures n <= |s|
  {
    var n := Leading(s, c => IsDigit(c));
    if !inWord && !WordHere(s[n..]) then n else 0
  }

  // ---- The passes ----

  function Stamps(s: string): string {
    if s == "" then ""
    else
      var n := StampLength(s);
      if n > 0 then "TIMESTAMP" + Stamps(s[n..]) else [s[0]] + Stamps(s[1..])
  }

  function Uuids(inWord: bool, s: string): string
    decreases |s|
  {
    if s == "" then ""
    else
      var n := UuidLength(inWord, s);
      if n > 0 then "UUID" + Uuids(IsWord(s[n - 1]), s[n..]) else [s[0]] + Uuids(IsWord(s[0]), s[1..])
  }

  function Addresses(s: string): string {
    if s == "" then ""
    else
      var n := AddressLength(s);
      if n > 0 then "0xADDR" + Addresses(s[n..]) else [s[0]] + Addresses(s[1..])
  }

  function LineCols(s: string): string {
    if s == "" then ""
    else
      var n := LineColLength(s);
      if n > 0 then s[..SuffixLength(s)] + LineCols(s[n..]) else [s[0]] + LineCols(s[1..])
  }

  function Numbers(inWord: bool, s: string): string
    decreases |s|
  {
    if s == "" then ""
    else
      var n := NumberLength(inWord, s);
      if n > 0 then "N" + Numbers(IsWord(s[n - 1]), s[n..]) else [s[0]] + Numbers(IsWord(s[0]), s[1..])
  }

  function Blanks(s: string): string {
    if s == "" then ""
    else
      var n := Leading(s, c => IsBlank(c));
      if n > 0 then " " + Blanks(s[n..]) else [s[0]] + Blanks(s[1..])
  }

  /** Order matters: timestamps and identifiers go before the numbers they are made of. */
  function Normalized(line: string): string {
    TrimSpace(Blanks(Numbers(false,
      LineCols(Normalize.Strip(Addresses(Uuids(false, Stamps(line))))))))
  }

  // ---- No number is left standing on its own ----

  /** A run of digits that is a word of its own. */
  predicate BareIntAt(s: string, a: nat, b: nat) {
    && a < b <= |s| && (forall i :: a <= i < b ==> IsDigit(s[i]))
    && (a == 0 || !IsWord(s[a - 1])) && (b == |s| || !IsWord(s[b]))
  }

  ghost predicate HasBareInt(s: string) { exists a, b :: BareIntAt(s, a, b) }

  /** Where a scan stands: outside words, in a word, or in digits that began one. */
  datatype Place = Outside | Inside | Digits

  function After(p: Place, c: char): Place {
    if !IsWord(c) then Outside
    else if IsDigit(c) && p != Inside then Digits
    else Inside
  }

  /** The scan comes to the end of a number that is a word of its own. */
  predicate FindsInt(p: Place, s: string)
    decreases |s|
  {
    if s == "" then p.Digits?
    else (p.Digits? && !IsWord(s[0])) || FindsInt(After(p, s[0]), s[1..])
  }

  lemma {:induction false} IntFound(p: Place, s: string, a: nat, b: nat)
    requires BareIntAt(s, a, b) && (a == 0 ==> p.Outside?)
    ensures FindsInt(p, s)
    decreases |s|
  {
    if a == 0 {
      RunFound(s[1..], b - 1);
    } else {
      assert s[1..][a - 1] == s[a] && forall i :: a <= i < b ==> s[1..][i - 1] == s[i];
      assert a > 1 ==> s[1..][a - 2] == s[a - 1];
      assert b < |s| ==> s[1..][b - 1] == s[b];
      IntFound(After(p, s[0]), s[1..], a - 1, b - 1);
    }
  }

  lemma {:induction false} RunFound(s: string, n: nat)
    requires n <= |s| && (forall i :: 0 <= i < n ==> IsDigit(s[i])) && (n == |s| || !IsWord(s[n]))
    ensures FindsInt(Digits, s)
  {
    if n == 0 {
    } else {
      RunFound(s[1..], n - 1);
    }
  }

  /** The digits at the head run on into a word. */
  predicate RunsOn(s: string) { WordHere(s[Leading(s, c => IsDigit(c))..]) }

  ghost predicate Agrees(p: Place, inWord: bool, s: string) {
    match p
    case Outside => !inWord
    case Inside => inWord
    case Digits => inWord && RunsOn(s)
  }

  lemma {:induction false} NumbersLeaveNone(p: Place, inWord: bool, s: string)
    requires Agrees(p, inWord, s)
    ensures !FindsInt(p, Numbers(inWord, s))
    decreases |s|
  {
    if s == "" {
    } else {
      var n := NumberLength(inWord, s);
      if n > 0 {
        assert IsDigit(s[n - 1]);
        NumbersLeaveNone(Inside, true, s[n..]);
        var rest := Numbers(true, s[n..]);
        assert ("N" + rest)[1..] == rest;
      } else {
        var rest := Numbers(IsWord(s[0]), s[1..]);
        assert ([s[0]] + rest)[1..] == rest;
        NumbersLeaveNone(After(p, s[0]), IsWord(s[0]), s[1..]);
      }
    }
  }

  /** Blanks end words as one blank does. */
  lemma {:induction false} BlanksKeepInts(p: Place, s: string)
    ensures FindsInt(p, Blanks(s)) <==> FindsInt(p, s)
    decreases |s|
  {
    if s == "" {
    } else {
      var n := Leading(s, c => IsBlank(c));
      if n > 0 {
        var rest := Blanks(s[n..]);
        assert (" " + rest)[1..] == rest;
        BlanksKeepInts(Outside, s[n..]);
        BlankRun(s[1..], n - 1);
        assert s[1..][n - 1..] == s[n..];
      } else {
        var rest := Blanks(s[1..]);
        assert ([s[0]] + rest)[1..] == rest;
        BlanksKeepInts(After(p, s[0]), s[1..]);
      }
    }
  }

  lemma {:induction false} BlankRun(s: string, n: nat)
    requires n <= |s| && forall i :: 0 <= i < n ==> IsBlank(s[i])
    ensures FindsInt(Outside, s) <==> FindsInt(Outside, s[n..])
  {
    if n == 0 {
      assert s[0..] == s;
    } else {
      BlankRun(s[1..], n - 1);
      assert s[1..][n - 1..] == s[n..];
    }
  }

  lemma {:induction false} TrimLeftKeepsInts(s: string)
    ensures FindsInt(Outside, TrimLeft(s, c => IsSpace(c))) <==> FindsInt(Outside, s)
  {
    if s == "" || !IsSpace(s[0]) {
    } else {
      TrimLeftKeepsInts(s[1..]);
    }
  }

  lemma {:induction false} TrimRightKeepsInts(s: string)
    ensures FindsInt(Outside, TrimRight(s, c => IsSpace(c))) <==> FindsInt(Outside, s)
  {
    if s == "" || !IsSpace(s[|s| - 1]) {
    } else {
      var init := s[..|s| - 1];
      TrimRightKeepsInts(init);
      LastEndsWord(Outside, init, s[|s| - 1]);
      assert s == init + [s[|s| - 1]];
    }
  }

  lemma {:induction false} LastEndsWord(p: Place, s: string, c: char)
    requires !IsWord(c)
    ensures FindsInt(p, s + [c]) <==> FindsInt(p, s)
    decreases |s|
  {
    if s == "" {
      assert (s + [c])[1..] == "";
    } else {
      assert (s + [c])[1..] == s[1..] + [c];
      LastEndsWord(After(p, s[0]), s[1..], c);
    }
  }

  /** No line keeps a number that is a word of its own. */
  lemma NoIntLeft(line: string)
    ensures !HasBareInt(Normalized(line))
  {
    var s := LineCols(Normalize.Strip(Addresses(Uuids(false, Stamps(line)))));
    var t := Numbers(false, s);
    NumbersLeaveNone(Outside, false, s);
    BlanksKeepInts(Outside, t);
    TrimLeftKeepsInts(Blanks(t));
    TrimRightKeepsInts(TrimLeft(Blanks(t), c => IsSpace(c)));
    if HasBareInt(Normalized(line)) {
      var a, b :| BareIntAt(Normalized(line), a, b);
      IntFound(Outside, Normalized(line), a, b);
    }
  }

  // ---- Blanks are single ----

  /** Every blank is one space on its own. */
  ghost predicate SingleBlanks(s: string) {
    forall i :: 0 <= i < |s| && IsBlank(s[i]) ==> s[i] == ' ' && (i + 1 < |s| ==> !IsBlank(s[i + 1]))
  }

  lemma {:induction false} BlanksSingle(s: string)
    ensures SingleBlanks(Blanks(s))
    ensures s != "" && !IsBlank(s[0]) ==> Blanks(s) != "" && !IsBlank(Blanks(s)[0])
    decreases |s|
  {
    if s == "" {
    } else {
      var n := Leading(s, c => IsBlank(c));
      BlanksSingle(if n > 0 then s[n..] else s[1..]);
    }
  }

  lemma SingleWithin(s: string, i: nat, sub: string)
    requires SingleBlanks(s) && HasAt(s, i, sub)
    ensures SingleBlanks(sub)
  {
    forall k | 0 <= k < |sub| && IsBlank(sub[k])
      ensures sub[k] == ' ' && (k + 1 < |sub| ==> !IsBlank(sub[k + 1]))
    {
      assert s[i..i + |sub|][k] == s[i + k];
      if k + 1 < |sub| { assert s[i..i + |sub|][k + 1] == s[i + k + 1]; }
    }
  }

  lemma {:induction false} TrimLeftWithin(s: string, drop: char -> bool) returns (i: nat)
    ensures HasAt(s, i, TrimLeft(s, drop)) && i + |TrimLeft(s, drop)| == |s|
  {
    if s != "" && drop(s[0]) {
      i := TrimLeftWithin(s[1..], drop);
      assert s[1..][i..] == s[i + 1..];
      i := i + 1;
    } else {
      i := 0;
    }
  }

  lemma {:induction false} TrimRightWithin(s: string, drop: char -> bool)
    ensures HasAt(s, 0, TrimRight(s, drop))
  {
    if s != "" && drop(s[|s| - 1]) {
      var init := s[..|s| - 1];
      TrimRightWithin(init, drop);
      var t := TrimRight(init, drop);
      assert init[..|t|] == s[..|t|];
    } else {
    }
  }

  lemma TrimmedSingle(s: string)
    requires SingleBlanks(s)
    ensures SingleBlanks(TrimSpace(s))
  {
    var t := TrimLeft(s, c => IsSpace(c));
    var i := TrimLeftWithin(s, c => IsSpace(c));
    SingleWithin(s, i, t);
    TrimRightWithin(t, c => IsSpace(c));
    SingleWithin(t, 0, TrimSpace(s));
  }

  /** No line keeps a blank but single spaces; so none keeps a line break. */
  lemma BlanksLeftSingle(line: string)
    ensures SingleBlanks(Normalized(line)) && '\n' !in Normalized(line)
  {
    var s := Numbers(false, LineCols(Normalize.Strip(Addresses(Uuids(false, Stamps(line))))));
    BlanksSingle(s);
    TrimmedSingle(Blanks(s));
  }

  // ---- What no expression matches is left alone ----

  predicate WordBefore(s: string, i: nat)
    requires i <= |s|
  {
    i > 0 && IsWord(s[i - 1])
  }

  ghost predicate NoStamp(s: string) { forall i: nat :: i < |s| ==> StampLength(s[i..]) == 0 }

  ghost predicate NoUuid(s: string) { forall i: nat :: i < |s| ==> UuidLength(WordBefore(s, i), s[i..]) == 0 }

  ghost predicate NoAddress(s: string) { forall i: nat :: i < |s| ==> AddressLength(s[i..]) == 0 }

  ghost predicate NoLineCol(s: string) { forall i: nat :: i < |s| ==> LineColLength(s[i..]) == 0 }

  lemma Drop(s: string, k: nat)
    requires k < |s|
    ensures s[k..] == [s[k]] + s[k + 1..] && s[k..][1..] == s[k + 1..] && s[k..][0] == s[k]
  {}

  lemma {:induction false} StampsKeep(s: string, k: nat)
    requires k <= |s| && NoStamp(s)
    ensures Stamps(s[k..]) == s[k..]
    decreases |s| - k
  {
    if k == |s| {
    } else {
      StampsKeep(s, k + 1);
      Drop(s, k);
    }
  }

  lemma {:induction false} UuidsKeep(s: string, k: nat)
    requires k <= |s| && NoUuid(s)
    ensures Uuids(WordBefore(s, k), s[k..]) == s[k..]
    decreases |s| - k
  {
    if k == |s| {
    } else {
      UuidsKeep(s, k + 1);
      Drop(s, k);
    }
  }

  lemma {:induction false} AddressesKeep(s: string, k: nat)
    requires k <= |s| && NoAddress(s)
    ensures Addresses(s[k..]) == s[k..]
    decreases |s| - k
  {
    if k == |s| {
    } else {
      AddressesKeep(s, k + 1);
      Drop(s, k);
    }
  }

  lemma {:induction false} LineColsKeep(s: string, k: nat)
    requires k <= |s| && NoLineCol(s)
    ensures LineCols(s[k..]) == s[k..]
    decreases |s| - k
  {
    if k == |s| {
    } else {
      LineColsKeep(s, k + 1);
      Drop(s, k);
    }
  }

  lemma NumberIsBare(s: string, i: nat)
    requires i < |s| && NumberLength(WordBefore(s, i), s[i..]) > 0
    ensures HasBareInt(s)
  {
    var n := NumberLength(WordBefore(s, i), s[i..]);
    assert forall j :: i <= j < i + n ==> s[j] == s[i..][j - i];
    assert s[i..][n..] == s[i + n..];
    assert BareIntAt(s, i, i + n);
  }

  lemma {:induction false} NumbersKeep(s: string, k: nat)
    requires k <= |s| && !HasBareInt(s)
    ensures Numbers(WordBefore(s, k), s[k..]) == s[k..]
    decreases |s| - k
  {
    if k == |s| {
    } else {
      if NumberLength(WordBefore(s, k), s[k..]) > 0 { NumberIsBare(s, k); }
      NumbersKeep(s, k + 1);
      Drop(s, k);
    }
  }

  lemma {:induction false} BlanksKeep(s: string)
    requires SingleBlanks(s)
    ensures Blanks(s) == s
    decreases |s|
  {
    if s == "" {
    } else {
      var n := Leading(s, c => IsBlank(c));
      assert |s| > 1 ==> !(IsBlank(s[0]) && IsBlank(s[1]));
      assert n <= 1;
      SingleWithin(s, 1, s[1..]);
      BlanksKeep(s[1..]);
      assert s == [s[0]] + s[1..];
    }
  }

  /** The month of a timestamp is a number of its own. */
  lemma NoIntNoStamp(s: string)
    requires !HasBareInt(s)
    ensures NoStamp(s)
  {
    forall i: nat | i < |s| ensures StampLength(s[i..]) == 0 {
      if StampHere(s[i..]) { MonthIsBare(s, i); }
    }
  }

  lemma MonthIsBare(s: string, i: nat)
    requires i < |s| && StampHere(s[i..])
    ensures HasBareInt(s)
  {
    var t := s[i..];
    assert t[5] == s[i + 5] && t[6] == s[i + 6] && t[4] == s[i + 4] && t[7] == s[i + 7];
    assert BareIntAt(s, i + 5, i + 7);
  }

  /** Holds no identifier, address or line number. */
  ghost predicate Settled(s: string) { NoUuid(s) && NoAddress(s) && NoLineCol(s) }

  /** No pass finds anything that begins in this, and it ends no word. */
  ghost predicate Quiet(lead: string) {
    && lead != "" && lead[|lead| - 1] == '/'
    && forall i :: 0 <= i < |lead| ==>
         !IsDigit(lead[i]) && (IsHex(lead[i]) ==> i + 1 < |lead| && !IsHex(lead[i + 1]))
  }

  lemma QuietUuid(lead: string, s: string)
    requires Quiet(lead) && NoUuid(s)
    ensures NoUuid(lead + s)
  {
    var t := lead + s;
    forall i: nat | i < |t| ensures UuidLength(WordBefore(t, i), t[i..]) == 0 {
      if i < |lead| {
        assert t[i..][0] == lead[i];
        if i + 1 < |lead| { assert t[i..][1] == lead[i + 1]; }
      } else {
        assert t[i..] == s[i - |lead|..];
        assert WordBefore(t, i) == WordBefore(s, i - |lead|);
      }
    }
  }

  lemma QuietOthers(lead: string, s: string)
    requires Quiet(lead) && NoStamp(s) && NoAddress(s)
    ensures NoStamp(lead + s) && NoAddress(lead + s)
  {
    var t := lead + s;
    forall i: nat | i < |t| ensures StampLength(t[i..]) == 0 && AddressLength(t[i..]) == 0 {
      if i < |lead| {
        assert t[i..][0] == lead[i];
      } else {
        assert t[i..] == s[i - |lead|..];
      }
    }
  }

  lemma FirstPrefixQuiet()
    ensures Quiet(Normalize.ABSOLUTE_PREFIXES[0])
  {
    assert Normalize.ABSOLUTE_PREFIXES[0] == "/home/runner/work/";
  }

  /** The first listed root is taken off whatever follows it. */
  lemma FirstPrefixStripped(s: string)
    ensures Normalize.Strip(Normalize.ABSOLUTE_PREFIXES[0] + s) == s
  {
    var p := Normalize.ABSOLUTE_PREFIXES[0];
    assert HasAt(p + s, 0, p) && (p + s)[..0] + (p + s)[|p|..] == s;
  }

  /** The passes before stripping leave such a line alone. */
  lemma EarlyKeep(t: string)
    requires NoStamp(t) && NoUuid(t) && NoAddress(t)
    ensures Addresses(Uuids(false, Stamps(t))) == t
  {
    assert t[0..] == t;
    StampsKeep(t, 0);
    UuidsKeep(t, 0);
    AddressesKeep(t, 0);
  }

  lemma LateKeep(s: string)
    requires NoLineCol(s) && !HasBareInt(s) && SingleBlanks(s)
    ensures Blanks(Numbers(false, LineCols(s))) == s
  {
    assert s[0..] == s;
    LineColsKeep(s, 0);
    NumbersKeep(s, 0);
    BlanksKeep(s);
  }

  lemma ComesOutUnder(lead: string, s: string)
    requires Quiet(lead) && Normalize.Strip(lead + s) == s
    requires s != "" && !IsSpace(s[0]) && !IsSpace(s[|s| - 1])
    requires Settled(s) && !HasBareInt(s) && SingleBlanks(s)
    ensures Normalized(lead + s) == s
  {
    EarlyUnder(lead, s);
    LateKeep(s);
    TrimKeep(s);
  }

  lemma TrimKeep(s: string)
    requires s != "" && !IsSpace(s[0]) && !IsSpace(s[|s| - 1])
    ensures TrimSpace(s) == s
  {}

  lemma EarlyUnder(lead: string, s: string)
    requires Quiet(lead) && NoUuid(s) && NoAddress(s) && !HasBareInt(s)
    ensures Addresses(Uuids(false, Stamps(lead + s))) == lead + s
  {
    NoIntNoStamp(s);
    QuietUuid(lead, s);
    QuietOthers(lead, s);
    EarlyKeep(lead + s);
  }

  /** A text with nothing volatile in it is what some line is normalised to: itself, under a
      listed checkout root. */
  lemma SettledComesOut(s: string) returns (line: string)
    requires s != "" && !IsSpace(s[0]) && !IsSpace(s[|s| - 1])
    requires Settled(s) && !HasBareInt(s) && SingleBlanks(s)
    ensures Normalized(line) == s
  {
    var lead: string := Normalize.ABSOLUTE_PREFIXES[0];
    FirstPrefixQuiet();
    FirstPrefixStripped(s);
    ComesOutUnder(lead, s);
    line := lead + s;
  }
}
