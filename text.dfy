/** The JavaScript string operations the pages rely on, over `seq<char>`:
    `toLowerCase`, `includes`, `indexOf`, `split`, `replace` with a string
    pattern, `parseInt` and the decimal rendering of a number in a template
    literal. */
module Text {
  import opened Wrappers

  // ---------------------------------------------------------------------
  // Case mapping

  /** The ASCII part of `toLowerCase` on one character. */
  function LowerChar(c: char): char {
    if 'A' <= c <= 'Z' then (c as int - 'A' as int + 'a' as int) as char else c
  }

  /** `s.toLowerCase()`: every character mapped on its own, length kept. */
  function Lower(s: string): (r: string)
    ensures |r| == |s|
    ensures forall i :: 0 <= i < |s| ==> r[i] == LowerChar(s[i])
  {
    seq(|s|, i requires 0 <= i < |s| => LowerChar(s[i]))
  }

  /** A lower-cased string has no upper-case letter, so lower-casing it again changes nothing. */
  lemma LowerIdempotent(s: string)
    ensures Lower(Lower(s)) == Lower(s)
    ensures forall i :: 0 <= i < |s| ==> !('A' <= Lower(s)[i] <= 'Z')
  {
  }

  // ---------------------------------------------------------------------
  // Substring search

  /** `sub` occurs in `s` starting at index `i`. */
  predicate OccursAt(s: string, sub: string, i: nat) {
    i + |sub| <= |s| && s[i..i + |sub|] == sub
  }

  /** The first index at or after `i` where `sub` occurs in `s`, if any. */
  function FindFrom(s: string, sub: string, i: nat): (r: Option<nat>)
    requires i <= |s|
    ensures r.Some? ==> i <= r.value && OccursAt(s, sub, r.value)
    ensures forall j: nat :: i <= j && (r.None? || j < r.value) ==> !OccursAt(s, sub, j)
    decreases |s| - i
  {
    if OccursAt(s, sub, i) then Some(i)
    else if i == |s| then None
    else FindFrom(s, sub, i + 1)
  }

  /** `s.indexOf(sub)`, with `None` for JavaScript's -1. */
  function IndexOf(s: string, sub: string): (r: Option<nat>)
    ensures r.Some? ==> OccursAt(s, sub, r.value)
    ensures forall j: nat :: (r.None? || j < r.value) ==> !OccursAt(s, sub, j)
  {
    FindFrom(s, sub, 0)
  }

  /** `s.includes(sub)`: `sub` occurs somewhere in `s`. */
  function Includes(s: string, sub: string): (b: bool)
    ensures b <==> exists i: nat :: OccursAt(s, sub, i)
  {
    IndexOf(s, sub).Some?
  }

  /** Every string includes the empty string, so an empty query matches everything. */
  lemma IncludesEmpty(s: string)
    ensures Includes(s, "")
  {
    assert OccursAt(s, "", 0);
  }

  // ---------------------------------------------------------------------
  // split and join

  /** `s.split(sep)` for a non-empty separator: the pieces between the
      successive left-to-right occurrences of `sep`. */
  function Split(s: string, sep: string): (r: seq<string>)
    requires |sep| > 0
    ensures |r| >= 1
    decreases |s|
  {
    match IndexOf(s, sep)
    case None => [s]
    case Some(k) => [s[..k]] + Split(s[k + |sep|..], sep)
  }

  /** `parts.join(sep)`. */
  function Join(parts: seq<string>, sep: string): string {
    if |parts| == 0 then ""
    else if |parts| == 1 then parts[0]
    else parts[0] + sep + Join(parts[1..], sep)
  }

  /** Joining a piece in front of at least one more. */
  lemma JoinCons(p: string, tail: seq<string>, sep: string)
    requires |tail| >= 1
    ensures Join([p] + tail, sep) == p + sep + Join(tail, sep)
  {
    assert ([p] + tail)[1..] == tail;
  }

  /** A string around an occurrence of `sub` at `k`. */
  lemma AroundOccurrence(s: string, sub: string, k: nat)
    requires OccursAt(s, sub, k)
    ensures s == s[..k] + sub + s[k + |sub|..]
  {
    assert s == s[..k] + s[k..k + |sub|] + s[k + |sub|..];
  }

  /** Joining the pieces of a split with the same separator gives back the string. */
  lemma {:induction false} JoinSplit(s: string, sep: string)
    requires |sep| > 0
    ensures Join(Split(s, sep), sep) == s
    decreases |s|
  {
    match IndexOf(s, sep)
    case None =>
    case Some(k) =>
      var rest := s[k + |sep|..];
      JoinSplit(rest, sep);
      JoinCons(s[..k], Split(rest, sep), sep);
      AroundOccurrence(s, sep, k);
  }

  /** No piece of a split contains the separator. */
  lemma {:induction false} SplitPiecesFree(s: string, sep: string)
    requires |sep| > 0
    ensures forall p :: p in Split(s, sep) ==> !Includes(p, sep)
    decreases |s|
  {
    match IndexOf(s, sep)
    case None =>
    case Some(k) =>
      SplitPiecesFree(s[k + |sep|..], sep);
      forall j: nat ensures !OccursAt(s[..k], sep, j) {
        OccursInPrefix(s, sep, k, j);
      }
  }

  /** `split` cuts at the leftmost occurrence each time: in every piece but the
      last, followed by the separator, the first occurrence of the separator is
      the one after the piece. With `JoinSplit` and `SplitPiecesFree` this fixes
      the pieces. */
  lemma {:induction false} SplitCutsLeftmost(s: string, sep: string)
    requires |sep| > 0
    ensures forall i :: 0 <= i < |Split(s, sep)| - 1 ==>
      IndexOf(Split(s, sep)[i] + sep, sep) == Some(|Split(s, sep)[i]|)
    decreases |s|
  {
    match IndexOf(s, sep)
    case None =>
    case Some(k) =>
      var rest := s[k + |sep|..];
      SplitCutsLeftmost(rest, sep);
      FirstCutLeftmost(s, sep, k);
      var r, tail := Split(s, sep), Split(rest, sep);
      assert r == [s[..k]] + tail;
      forall i | 0 <= i < |r| - 1
        ensures IndexOf(r[i] + sep, sep) == Some(|r[i]|)
      {
        if i > 0 {
          assert r[i] == tail[i - 1];
        }
      }
  }

  /** Before the first occurrence there is none, so the text before it,
      followed by the separator, has its first occurrence at its end. */
  lemma FirstCutLeftmost(s: string, sep: string, k: nat)
    requires IndexOf(s, sep) == Some(k)
    ensures IndexOf(s[..k] + sep, sep) == Some(k)
  {
    var t := s[..k] + sep;
    assert OccursAt(s, sep, k);
    assert t == s[..k + |sep|];
    assert OccursAt(t, sep, k) by {
      assert t[k..k + |sep|] == sep;
    }
    forall j: nat | j < k ensures !OccursAt(t, sep, j) {
      OccursInPrefix(s, sep, k + |sep|, j);
    }
  }

  /** An occurrence inside a prefix is an occurrence in the whole string. */
  lemma OccursInPrefix(s: string, sub: string, k: int, j: nat)
    ensures 0 <= k <= |s| && OccursAt(s[..k], sub, j) ==> OccursAt(s, sub, j)
  {
    if 0 <= k <= |s| && OccursAt(s[..k], sub, j) {
      assert s[j..j + |sub|] == s[..k][j..j + |sub|];
    }
  }

  /** When the separator's first character does not occur in `a`, the first
      piece of `a + sep + b` is `a` and the rest is the split of `b`. */
  lemma SplitAfterPrefix(a: string, sep: string, b: string)
    requires |sep| > 0
    requires forall j :: 0 <= j < |a| ==> a[j] != sep[0]
    ensures Split(a + sep + b, sep) == [a] + Split(b, sep)
  {
    var s := a + sep + b;
    assert s[|a|..|a| + |sep|] == sep;
    assert OccursAt(s, sep, |a|);
    forall j: nat | j < |a|
      ensures !OccursAt(s, sep, j)
    {
      if j + |sep| <= |s| {
        assert s[j..j + |sep|][0] == a[j] != sep[0];
      }
    }
    var k := IndexOf(s, sep).value;
    assert k == |a|;
    assert s[..k] == a;
    assert s[k + |sep|..] == b;
  }

  /** A string without the separator's first character splits into itself. */
  lemma SplitWithoutSeparator(s: string, sep: string)
    requires |sep| > 0
    requires forall j :: 0 <= j < |s| ==> s[j] != sep[0]
    ensures Split(s, sep) == [s]
  {
    forall j: nat | j < |s|
      ensures !OccursAt(s, sep, j)
    {
      if j + |sep| <= |s| {
        assert s[j..j + |sep|][0] == s[j] != sep[0];
      }
    }
  }

  // ---------------------------------------------------------------------
  // replace

  /** `s.replace(pat, rep)` with a string pattern: only the first occurrence is replaced. */
  function ReplaceFirst(s: string, pat: string, rep: string): (r: string)
    ensures IndexOf(s, pat).None? ==> r == s
    ensures IndexOf(s, pat).Some? ==>
      var k := IndexOf(s, pat).value;
      r == s[..k] + rep + s[k + |pat|..]
    ensures IndexOf(s, pat).Some? ==> |r| == |s| - |pat| + |rep|
  {
    match IndexOf(s, pat)
    case None => s
    case Some(k) => s[..k] + rep + s[k + |pat|..]
  }

  /** Replacing the first `pat` of `pat + t` removes exactly that leading copy. */
  lemma ReplaceLeading(pat: string, t: string, rep: string)
    ensures ReplaceFirst(pat + t, pat, rep) == rep + t
  {
    var s := pat + t;
    assert s[0..|pat|] == pat;
    assert OccursAt(s, pat, 0);
    assert IndexOf(s, pat) == Some(0);
    assert s[|pat|..] == t;
  }

  /** Every occurrence of `c` removed (what `s.replace(/c/g, '')` does). */
  function RemoveAll(s: string, c: char): (r: string)
    ensures c !in r
  {
    if s == [] then []
    else (if s[0] == c then [] else [s[0]]) + RemoveAll(s[1..], c)
  }

  /** Removing a character distributes over concatenation. */
  lemma {:induction false} RemoveAllAppend(a: string, b: string, c: char)
    ensures RemoveAll(a + b, c) == RemoveAll(a, c) + RemoveAll(b, c)
    decreases |a|
  {
    if a != [] {
      RemoveAllAppend(a[1..], b, c);
      assert (a + b)[1..] == a[1..] + b;
    } else {
      assert a + b == b;
    }
  }

  /** Removing a character that does not occur changes nothing. */
  lemma {:induction false} RemoveAllAbsent(s: string, c: char)
    requires c !in s
    ensures RemoveAll(s, c) == s
    decreases |s|
  {
    if s != [] {
      RemoveAllAbsent(s[1..], c);
      assert s == [s[0]] + s[1..];
    }
  }

  // ---------------------------------------------------------------------
  // Decimal numbers

  predicate IsDigit(c: char) {
    '0' <= c <= '9'
  }

  predicate AllDigits(s: string) {
    forall i :: 0 <= i < |s| ==> IsDigit(s[i])
  }

  /** The white space `parseInt` skips before the number (the ASCII part of it). */
  predicate IsSpace(c: char) {
    c == ' ' || c == '\t' || c == '\n' || c == '\r' || c as int == 11 || c as int == 12
  }

  function DigitValue(c: char): nat
    requires IsDigit(c)
  {
    c as int - '0' as int
  }

  function DigitChar(d: nat): (c: char)
    requires d < 10
    ensures IsDigit(c) && DigitValue(c) == d
  {
    ('0' as int + d) as char
  }

  /** The value of a string of decimal digits, most significant first. */
  function DigitsValue(d: string): nat
    requires AllDigits(d)
  {
    if d == [] then 0 else DigitsValue(d[..|d| - 1]) * 10 + DigitValue(d[|d| - 1])
  }

  /** The decimal rendering of a natural number, as `${n}` gives it. */
  function NatToString(n: nat): (r: string)
    ensures |r| >= 1 && AllDigits(r)
  {
    if n < 10 then [DigitChar(n)] else NatToString(n / 10) + [DigitChar(n % 10)]
  }

  /** Reading the digits of `NatToString(n)` back gives `n`. */
  lemma {:induction false} DigitsValueOfNatToString(n: nat)
    ensures DigitsValue(NatToString(n)) == n
  {
    var r := NatToString(n);
    if n < 10 {
      assert r[..0] == [];
    } else {
      DigitsValueOfNatToString(n / 10);
      assert r[..|r| - 1] == NatToString(n / 10);
    }
  }

  /** A number below 1000 has at most three digits. */
  lemma NatToStringWidth(n: nat)
    requires n < 1000
    ensures |NatToString(n)| <= 3
  {
    if 10 <= n {
      var m := n / 10;
      if 10 <= m {
        assert |NatToString(m / 10)| == 1;
        assert |NatToString(m)| == 2;
      }
      assert |NatToString(n)| == |NatToString(m)| + 1;
    }
  }

  /** `s` with its leading white space skipped. */
  function TrimStart(s: string): (r: string)
    ensures |r| <= |s| && r == s[|s| - |r|..]
    ensures r == [] || !IsSpace(r[0])
  {
    if s != [] && IsSpace(s[0]) then TrimStart(s[1..]) else s
  }

  /** The longest prefix of `s` made of decimal digits. */
  function LeadingDigits(s: string): (r: string)
    ensures |r| <= |s| && r == s[..|r|] && AllDigits(r)
    ensures |r| == |s| || !IsDigit(s[|r|])
  {
    if s != [] && IsDigit(s[0]) then [s[0]] + LeadingDigits(s[1..]) else []
  }

  /** JavaScript `parseInt(s)` (decimal): skip leading white space, read an
      optional sign and the longest run of digits after it; `None` (NaN) when
      there is no digit there. Whatever follows the digits is ignored. */
  function ParseInt(s: string): (r: Option<int>)
    ensures r.None? <==>
      var t := TrimStart(s);
      var body := if t != [] && (t[0] == '-' || t[0] == '+') then t[1..] else t;
      body == [] || !IsDigit(body[0])
  {
    var t := TrimStart(s);
    var negative := t != [] && t[0] == '-';
    var body := if t != [] && (t[0] == '-' || t[0] == '+') then t[1..] else t;
    var digits := LeadingDigits(body);
    if digits == [] then None
    else
      var v: int := DigitsValue(digits);
      Some(if negative then -v else v)
  }

  /** A string that starts with neither white space, a sign nor a digit is NaN to `parseInt`. */
  lemma ParseIntNaN(s: string)
    requires s != [] && !IsSpace(s[0]) && !IsDigit(s[0]) && s[0] != '-' && s[0] != '+'
    ensures ParseInt(s) == None
  {
  }

  lemma {:induction false} LeadingDigitsOfDigits(d: string, rest: string)
    requires AllDigits(d)
    requires rest == [] || !IsDigit(rest[0])
    ensures LeadingDigits(d + rest) == d
    decreases |d|
  {
    if d != [] {
      LeadingDigitsOfDigits(d[1..], rest);
      assert (d + rest)[1..] == d[1..] + rest;
      assert d == [d[0]] + d[1..];
    } else {
      assert d + rest == rest;
    }
  }

  /** A string that starts with a digit is read from its leading digits. */
  lemma ParseIntOfDigitStart(s: string)
    requires s != [] && IsDigit(s[0])
    ensures ParseInt(s) == Some(DigitsValue(LeadingDigits(s)) as int)
  {
    assert !IsSpace(s[0]);
    assert TrimStart(s) == s;
  }

  /** `parseInt` reads back the rendering of a natural number, whatever
      non-digit text follows it. */
  lemma ParseIntOfNatToString(n: nat, rest: string)
    requires rest == [] || !IsDigit(rest[0])
    ensures ParseInt(NatToString(n) + rest) == Some(n)
  {
    var d := NatToString(n);
    assert (d + rest)[0] == d[0];
    ParseIntOfDigitStart(d + rest);
    LeadingDigitsOfDigits(d, rest);
    DigitsValueOfNatToString(n);
  }
}
