/**
 * The JavaScript string operations the components rely on: `trim`, `replace(/\D/g, '')`,
 * `includes`, `startsWith`, `indexOf`, `split`, `join('')`, `repeat`, and ASCII case mapping.
 */
module Text {

  predicate IsDigit(c: char)
  {
    '0' <= c <= '9'
  }

  /** The characters `String.prototype.trim` removes: ECMAScript WhiteSpace and LineTerminator. */
  predicate IsSpace(c: char)
  {
    c == '\t' || c == '\n' || c == '\U{000B}' || c == '\U{000C}' || c == '\r' || c == ' '
    || c == '\U{00A0}' || c == '\U{1680}' || ('\U{2000}' <= c <= '\U{200A}')
    || c == '\U{2028}' || c == '\U{2029}' || c == '\U{202F}' || c == '\U{205F}'
    || c == '\U{3000}' || c == '\U{FEFF}'
  }

  /** A string that `trim` reduces to `''`, which JavaScript then treats as false. */
  predicate Blank(s: string)
  {
    forall i :: 0 <= i < |s| ==> IsSpace(s[i])
  }

  function TrimStart(s: string): (r: string)
    ensures |r| <= |s| && r == s[|s| - |r|..]
    ensures forall i :: 0 <= i < |s| - |r| ==> IsSpace(s[i])
    ensures r == [] || !IsSpace(r[0])
  {
    if s == [] || !IsSpace(s[0]) then s else TrimStart(s[1..])
  }

  function TrimEnd(s: string): (r: string)
    ensures |r| <= |s| && r == s[..|r|]
    ensures forall i :: |r| <= i < |s| ==> IsSpace(s[i])
    ensures r == [] || !IsSpace(r[|r| - 1])
  {
    if s == [] || !IsSpace(s[|s| - 1]) then s else TrimEnd(s[..|s| - 1])
  }

  /** `s.trim()`: a middle slice of `s` with no white space at either end. */
  function Trim(s: string): (r: string)
    ensures |r| <= |s|
    ensures r == [] || (!IsSpace(r[0]) && !IsSpace(r[|r| - 1]))
    ensures r == [] <==> Blank(s)
  {
    TrimEnd(TrimStart(s))
  }

  /** `s.replace(/\D/g, '')`: the ASCII digits of `s`, in order. */
  function Digits(s: string): (r: string)
    ensures |r| <= |s|
    ensures forall i :: 0 <= i < |r| ==> IsDigit(r[i])
  {
    if s == [] then []
    else if IsDigit(s[0]) then [s[0]] + Digits(s[1..])
    else Digits(s[1..])
  }

  lemma {:induction false} DigitsAppend(a: string, b: string)
    ensures Digits(a + b) == Digits(a) + Digits(b)
  {
    if a != [] {
      assert (a + b)[0] == a[0] && (a + b)[1..] == a[1..] + b;
      DigitsAppend(a[1..], b);
    } else {
      assert a + b == b;
    }
  }

  lemma {:induction false} DigitsOfDigits(s: string)
    requires forall i :: 0 <= i < |s| ==> IsDigit(s[i])
    ensures Digits(s) == s
  {
    if s != [] {
      DigitsOfDigits(s[1..]);
    }
  }

  /** Filtering digits twice is filtering them once. */
  lemma DigitsIdempotent(s: string)
    ensures Digits(Digits(s)) == Digits(s)
  {
    DigitsOfDigits(Digits(s));
  }

  function Count(s: string, c: char): (n: nat)
    ensures n <= |s|
    ensures n == 0 <==> c !in s
  {
    if s == [] then 0 else (if s[0] == c then 1 else 0) + Count(s[1..], c)
  }

  lemma {:induction false} CountAppend(a: string, b: string, c: char)
    ensures Count(a + b, c) == Count(a, c) + Count(b, c)
  {
    if a != [] {
      assert (a + b)[0] == a[0] && (a + b)[1..] == a[1..] + b;
      CountAppend(a[1..], b, c);
    } else {
      assert a + b == b;
    }
  }

  /** `s.indexOf(c)`: the first position of `c`, or -1. */
  function IndexOf(s: string, c: char): (i: int)
    ensures -1 <= i < |s|
    ensures i == -1 <==> c !in s
    ensures i >= 0 ==> s[i] == c && c !in s[..i]
  {
    if s == [] then -1
    else if s[0] == c then 0
    else var j := IndexOf(s[1..], c); if j < 0 then -1 else j + 1
  }

  lemma IndexOfSplit(a: string, c: char, b: string)
    requires c !in a
    ensures IndexOf(a + [c] + b, c) == |a|
  {
    var s := a + [c] + b;
    assert s[|a|] == c;
    assert s[..|a|] == a;
  }

  /** `s.lastIndexOf(c)`: the last position of `c`, or -1. */
  function LastIndexOf(s: string, c: char): (i: int)
    ensures -1 <= i < |s|
    ensures i == -1 <==> c !in s
    ensures i >= 0 ==> s[i] == c && c !in s[i + 1..]
  {
    if s == [] then -1
    else if s[|s| - 1] == c then |s| - 1
    else LastIndexOf(s[..|s| - 1], c)
  }

  lemma {:induction false} LastIndexOfSplit(a: string, c: char, b: string)
    requires c !in b
    ensures LastIndexOf(a + [c] + b, c) == |a|
    decreases |b|
  {
    var s := a + [c] + b;
    if b == [] {
      assert s[|s| - 1] == c;
    } else {
      assert s[|s| - 1] == b[|b| - 1];
      assert s[..|s| - 1] == a + [c] + b[..|b| - 1];
      LastIndexOfSplit(a, c, b[..|b| - 1]);
    }
  }

  /** `s.split(c)`: the pieces between the occurrences of `c`; always at least one piece. */
  function Split(s: string, c: char): (parts: seq<string>)
    ensures |parts| >= 1
    decreases |s|
  {
    var i := IndexOf(s, c);
    if i < 0 then [s] else [s[..i]] + Split(s[i + 1..], c)
  }

  /** `parts.join('')` */
  function Concat(parts: seq<string>): (r: string)
  {
    if parts == [] then [] else parts[0] + Concat(parts[1..])
  }

  /** `s` with every `c` removed. */
  function Remove(s: string, c: char): (r: string)
    ensures c !in r
  {
    if s == [] then [] else (if s[0] == c then [] else [s[0]]) + Remove(s[1..], c)
  }

  lemma {:induction false} RemoveAppend(a: string, b: string, c: char)
    ensures Remove(a + b, c) == Remove(a, c) + Remove(b, c)
  {
    if a != [] {
      assert (a + b)[0] == a[0] && (a + b)[1..] == a[1..] + b;
      RemoveAppend(a[1..], b, c);
    } else {
      assert a + b == b;
    }
  }

  lemma {:induction false} RemoveAbsent(s: string, c: char)
    requires c !in s
    ensures Remove(s, c) == s
  {
    if s != [] {
      RemoveAbsent(s[1..], c);
    }
  }

  /** One step of `Split`: the piece before the first `c`, then the split of the rest. */
  lemma SplitUnfold(s: string, c: char)
    requires c in s
    ensures var i := IndexOf(s, c);
      s == s[..i] + [c] + s[i + 1..] && Split(s, c) == [s[..i]] + Split(s[i + 1..], c)
  {
  }

  /** Splitting on `c` makes one more piece than there are `c`s. */
  lemma {:induction false} SplitCount(s: string, c: char)
    ensures |Split(s, c)| == Count(s, c) + 1
    decreases |s|
  {
    if c in s {
      var i := IndexOf(s, c);
      var a, b := s[..i], s[i + 1..];
      SplitUnfold(s, c);
      SplitCount(b, c);
      CountAppend(a + [c], b, c);
      CountAppend(a, [c], c);
    }
  }

  /** Joining the pieces of `Split(s, c)` gives `s` without its `c`s. */
  lemma {:induction false} SplitJoin(s: string, c: char)
    ensures Concat(Split(s, c)) == Remove(s, c)
    decreases |s|
  {
    if c in s {
      var i := IndexOf(s, c);
      var a, b := s[..i], s[i + 1..];
      SplitUnfold(s, c);
      SplitJoin(b, c);
      ConcatCons(a, Split(b, c));
      RemoveAround(a, b, c);
    } else {
      RemoveAbsent(s, c);
      assert Concat([s]) == s + Concat([]);
    }
  }

  lemma ConcatCons(a: string, rest: seq<string>)
    ensures Concat([a] + rest) == a + Concat(rest)
  {
    assert ([a] + rest)[1..] == rest;
  }

  /** Removing `c` around the first `c`: the part before it has none. */
  lemma RemoveAround(a: string, b: string, c: char)
    requires c !in a
    ensures Remove(a + [c] + b, c) == a + Remove(b, c)
  {
    var ac := a + [c];
    assert Remove(ac + b, c) == Remove(ac, c) + Remove(b, c) by {
      RemoveAppend(ac, b, c);
    }
    assert Remove(ac, c) == a by {
      RemoveAppend(a, [c], c);
      RemoveAbsent(a, c);
      assert [c][1..] == [];
      assert Remove([c], c) == [] + Remove([], c);
    }
  }

  /** No piece of `Split(s, c)` contains `c`. */
  lemma {:induction false} SplitPiecesLackSeparator(s: string, c: char, k: int)
    requires 0 <= k < |Split(s, c)|
    ensures c !in Split(s, c)[k]
    decreases |s|
  {
    var i := IndexOf(s, c);
    if i < 0 {
      assert Split(s, c) == [s];
    } else {
      var b := s[i + 1..];
      assert Split(s, c) == [s[..i]] + Split(b, c);
      if k > 0 {
        assert Split(s, c)[k] == Split(b, c)[k - 1];
        SplitPiecesLackSeparator(b, c, k - 1);
      }
    }
  }

  /** Every character of every piece of `Split(s, c)` occurs in `s`. */
  lemma {:induction false} SplitPiecesFromSource(s: string, c: char, k: int, j: int)
    requires 0 <= k < |Split(s, c)| && 0 <= j < |Split(s, c)[k]|
    ensures Split(s, c)[k][j] in s
    decreases |s|
  {
    var i := IndexOf(s, c);
    if i >= 0 && k > 0 {
      var b := s[i + 1..];
      assert Split(s, c)[k] == Split(b, c)[k - 1];
      SplitPiecesFromSource(b, c, k - 1, j);
      assert Split(b, c)[k - 1][j] in b;
    }
  }

  /** Splitting at the first separator: the piece before it, then the pieces of the rest. */
  lemma SplitAtFirst(a: string, c: char, b: string)
    requires c !in a
    ensures Split(a + [c] + b, c) == [a] + Split(b, c)
  {
    var s := a + [c] + b;
    IndexOfSplit(a, c, b);
    assert s[..|a|] == a;
    assert s[|a| + 1..] == b;
  }

  /** `s.slice(0, n)`: at most the first `n` characters. */
  function Take(s: string, n: nat): (r: string)
    ensures |r| == if |s| < n then |s| else n
    ensures r == s[..|r|]
  {
    if |s| < n then s else s[..n]
  }

  /** The UTF-16 code units JavaScript stores for `c`: two for a character above U+FFFF. */
  function CodeUnits(c: char): nat
  {
    if c as int > 0xFFFF then 2 else 1
  }

  /** `s.length`: JavaScript counts UTF-16 code units, not characters. */
  function JsLength(s: string): (n: nat)
    ensures |s| <= n <= 2 * |s|
    ensures n == 0 <==> s == []
  {
    if s == [] then 0 else CodeUnits(s[0]) + JsLength(s[1..])
  }

  /** Characters up to U+FFFF take one code unit each. */
  predicate Narrow(s: string)
  {
    forall i :: 0 <= i < |s| ==> s[i] as int <= 0xFFFF
  }

  /** A string of narrow characters is as long in JavaScript as in characters. */
  lemma {:induction false} JsLengthNarrow(s: string)
    requires Narrow(s)
    ensures JsLength(s) == |s|
  {
    if s != [] {
      JsLengthNarrow(s[1..]);
    }
  }

  /** A string of characters above U+FFFF is twice as long in JavaScript as in characters. */
  lemma {:induction false} JsLengthWide(s: string)
    requires forall i :: 0 <= i < |s| ==> s[i] as int > 0xFFFF
    ensures JsLength(s) == 2 * |s|
  {
    if s != [] {
      JsLengthWide(s[1..]);
    }
  }

  /** Digit strings are as long in JavaScript as in characters. */
  lemma JsLengthDigits(s: string)
    requires forall i :: 0 <= i < |s| ==> IsDigit(s[i])
    ensures JsLength(s) == |s|
  {
    JsLengthNarrow(s);
  }

  /**
   * What a field with `maxLength = n` keeps of `s`: the longest prefix whose JavaScript
   * length is at most `n`.
   */
  function TakeUnits(s: string, n: nat): (r: string)
    ensures |r| <= |s| && r == s[..|r|] && JsLength(r) <= n
    ensures |r| < |s| ==> JsLength(r) + CodeUnits(s[|r|]) > n
  {
    if s == [] || CodeUnits(s[0]) > n then []
    else
      var rest := TakeUnits(s[1..], n - CodeUnits(s[0]));
      assert ([s[0]] + rest)[1..] == rest;
      assert JsLength([s[0]] + rest) == CodeUnits(s[0]) + JsLength(rest);
      [s[0]] + rest
  }

  /** A string that fits is kept whole. */
  lemma {:induction false} TakeUnitsFits(s: string, n: nat)
    requires JsLength(s) <= n
    ensures TakeUnits(s, n) == s
  {
    if s != [] {
      TakeUnitsFits(s[1..], n - CodeUnits(s[0]));
    }
  }

  /** On narrow characters, keeping `n` code units is keeping `n` characters. */
  lemma {:induction false} TakeUnitsNarrow(s: string, n: nat)
    requires Narrow(s)
    ensures TakeUnits(s, n) == Take(s, n)
  {
    if s != [] && n > 0 {
      assert Narrow(s[1..]);
      TakeUnitsNarrow(s[1..], n - 1);
      assert CodeUnits(s[0]) == 1;
      assert TakeUnits(s, n) == [s[0]] + Take(s[1..], n - 1);
      if |s| < n {
        assert [s[0]] + s[1..] == s;
      } else {
        assert [s[0]] + s[1..][..n - 1] == s[..n];
      }
    }
  }

  /** `r` keeps some of the characters of `s`, in order: `r[k]` is `s[idx[k]]`, with `idx` increasing. */
  ghost predicate PicksOf(r: string, s: string, idx: seq<int>)
  {
    && |idx| == |r|
    && (forall k :: 0 <= k < |idx| ==> 0 <= idx[k] < |s| && r[k] == s[idx[k]])
    && (forall k, l :: 0 <= k < l < |idx| ==> idx[k] < idx[l])
  }

  /** Every index moved one place on. */
  function Shift(idx: seq<int>): (r: seq<int>)
    ensures |r| == |idx| && forall k :: 0 <= k < |idx| ==> r[k] == idx[k] + 1
  {
    seq(|idx|, k requires 0 <= k < |idx| => idx[k] + 1)
  }

  /** Picks from the tail of `s` are picks from `s`, one place on; the head may be picked first. */
  lemma ShiftPicks(r: string, s: string, idx: seq<int>)
    requires s != [] && PicksOf(r, s[1..], idx)
    ensures PicksOf(r, s, Shift(idx))
    ensures PicksOf([s[0]] + r, s, [0] + Shift(idx))
  {
  }

  /** Every digit position of `s` is among `idx`. */
  ghost predicate CoversDigits(s: string, idx: seq<int>)
  {
    forall i :: 0 <= i < |s| && IsDigit(s[i]) ==> i in idx
  }

  /** Covering the digits of the tail, one place on, covers every digit after the head. */
  lemma ShiftCovers(s: string, idx: seq<int>)
    requires s != [] && CoversDigits(s[1..], idx)
    ensures forall i :: 1 <= i < |s| && IsDigit(s[i]) ==> i in Shift(idx)
  {
    forall i | 1 <= i < |s| && IsDigit(s[i])
      ensures i in Shift(idx)
    {
      assert IsDigit(s[1..][i - 1]);
      var k :| 0 <= k < |idx| && idx[k] == i - 1;
      assert Shift(idx)[k] == i;
    }
  }

  /** `Digits(s)` keeps exactly the digits of `s`, in their order. */
  lemma {:induction false} DigitsInOrder(s: string)
    ensures exists idx :: PicksOf(Digits(s), s, idx) && CoversDigits(s, idx)
  {
    if s == [] {
      assert PicksOf(Digits(s), s, []);
    } else {
      DigitsInOrder(s[1..]);
      var idx' :| PicksOf(Digits(s[1..]), s[1..], idx') && CoversDigits(s[1..], idx');
      ShiftPicks(Digits(s[1..]), s, idx');
      ShiftCovers(s, idx');
      var idx := if IsDigit(s[0]) then [0] + Shift(idx') else Shift(idx');
      assert PicksOf(Digits(s), s, idx);
      assert CoversDigits(s, idx);
    }
  }

  /** A string with no white space at its ends is its own `trim`. */
  lemma TrimUnpadded(s: string)
    requires forall i :: 0 <= i < |s| ==> !IsSpace(s[i])
    ensures Trim(s) == s
  {
  }

  /** Digit strings are their own `trim`. */
  lemma TrimDigits(s: string)
    requires forall i :: 0 <= i < |s| ==> IsDigit(s[i])
    ensures Trim(s) == s
  {
    TrimUnpadded(s);
  }

  /** A digit string is its own `trim`, as long in JavaScript as in characters. */
  lemma TrimmedDigits(s: string)
    requires forall i :: 0 <= i < |s| ==> IsDigit(s[i])
    ensures Trim(s) == s && JsLength(Trim(s)) == |s|
  {
    TrimDigits(s);
    JsLengthDigits(s);
  }

  function Repeat(c: char, n: nat): (r: string)
    ensures |r| == n
    ensures forall i :: 0 <= i < n ==> r[i] == c
  {
    if n == 0 then [] else [c] + Repeat(c, n - 1)
  }

  predicate StartsWith(s: string, prefix: string)
  {
    |prefix| <= |s| && s[..|prefix|] == prefix
  }

  /** `s.includes(sub)` */
  predicate Contains(s: string, sub: string)
  {
    StartsWith(s, sub) || (s != [] && Contains(s[1..], sub))
  }

  /** Every character of an included string occurs in the including one. */
  lemma {:induction false} ContainsChar(s: string, sub: string, k: int)
    requires Contains(s, sub) && 0 <= k < |sub|
    ensures sub[k] in s
  {
    if StartsWith(s, sub) {
      assert s[k] == sub[k];
    } else {
      ContainsChar(s[1..], sub, k);
    }
  }

  /** A string includes whatever one of its suffixes starts with. */
  lemma {:induction false} ContainsSuffix(s: string, k: nat, sub: string)
    requires k <= |s| && StartsWith(s[k..], sub)
    ensures Contains(s, sub)
  {
    if k > 0 {
      assert s[1..][k - 1..] == s[k..];
      ContainsSuffix(s[1..], k - 1, sub);
    }
  }

  /** A string lacking one character of `sub` does not include `sub`. */
  lemma LacksChar(s: string, sub: string, k: int)
    requires 0 <= k < |sub| && sub[k] !in s
    ensures !Contains(s, sub)
  {
    if Contains(s, sub) {
      ContainsChar(s, sub, k);
    }
  }

  /** A string never includes a longer one. */
  lemma {:induction false} ContainsTooLong(s: string, sub: string)
    requires |sub| > |s|
    ensures !Contains(s, sub)
  {
    if s != [] {
      ContainsTooLong(s[1..], sub);
    }
  }

  /** `toLowerCase` on one character, ASCII letters only. */
  function LowerChar(c: char): (r: char)
    ensures 'A' <= c <= 'Z' ==> r as int == c as int + 32
    ensures !('A' <= c <= 'Z') ==> r == c
  {
    if 'A' <= c <= 'Z' then (c as int + 32) as char else c
  }

  /** `toUpperCase` on one character, ASCII letters only. */
  function UpperChar(c: char): (r: char)
    ensures 'a' <= c <= 'z' ==> r as int == c as int - 32
    ensures !('a' <= c <= 'z') ==> r == c
  {
    if 'a' <= c <= 'z' then (c as int - 32) as char else c
  }

  function Lower(s: string): (r: string)
    ensures |r| == |s|
    ensures forall i :: 0 <= i < |s| ==> r[i] == LowerChar(s[i])
  {
    if s == [] then [] else [LowerChar(s[0])] + Lower(s[1..])
  }

  /** Case-insensitive equality `a.toLowerCase() === b.toLowerCase()`. */
  predicate SameIgnoringCase(a: string, b: string)
  {
    Lower(a) == Lower(b)
  }
}
