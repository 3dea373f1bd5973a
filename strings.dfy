/** Text operations the source takes from Python's and JavaScript's string types. */
module Strings {

  /** `sep.join(xs)` in Python, `xs.join(sep)` in JavaScript. */
  function Join(xs: seq<string>, sep: string): string
  {
    if |xs| == 0 then "" else if |xs| == 1 then xs[0] else xs[0] + sep + Join(xs[1..], sep)
  }

  lemma {:induction false} JoinSnoc(xs: seq<string>, x: string, sep: string)
    ensures Join(xs + [x], sep) == if xs == [] then x else Join(xs, sep) + sep + x
  {
    if |xs| == 1 {
      assert xs + [x] == [xs[0], x];
      assert (xs + [x])[1..] == [x];
    } else if |xs| > 1 {
      assert (xs + [x])[1..] == xs[1..] + [x];
      JoinSnoc(xs[1..], x, sep);
    }
  }

  /** The position of the first `c` in `s`. */
  function FirstIndex<T(==)>(s: seq<T>, c: T): (i: nat)
    requires c in s
    ensures i < |s| && s[i] == c && c !in s[..i]
  {
    if s[0] == c then 0
    else
      assert c in s[1..] by { var k :| 0 <= k < |s| && s[k] == c; assert s[1..][k - 1] == c; }
      var j := FirstIndex(s[1..], c);
      assert s[..j + 1] == [s[0]] + s[1..][..j];
      j + 1
  }

  /** Python's `s.split(c)` for a one-character separator. */
  function Split(s: string, c: char): (parts: seq<string>)
    ensures |parts| >= 1
    decreases |s|
  {
    if c !in s then [s]
    else
      var i := FirstIndex(s, c);
      [s[..i]] + Split(s[i + 1..], c)
  }

  /** In `a + [c] + b` with no `c` in `a`, the first `c` is the one just after `a`. */
  lemma {:induction false} FirstIndexAfter(a: string, c: char, b: string)
    requires c !in a
    ensures FirstIndex(a + [c] + b, c) == |a|
  {
    if a != [] {
      assert (a + [c] + b)[1..] == a[1..] + [c] + b;
      FirstIndexAfter(a[1..], c, b);
    }
  }

  /** Splitting at `c` undoes joining with `c`, provided no part contains `c`. */
  lemma {:induction false} SplitJoin(xs: seq<string>, c: char)
    requires |xs| >= 1
    requires forall k :: 0 <= k < |xs| ==> c !in xs[k]
    ensures Split(Join(xs, [c]), c) == xs
  {
    if |xs| > 1 {
      var rest := Join(xs[1..], [c]);
      var s := xs[0] + [c] + rest;
      assert Join(xs, [c]) == s;
      FirstIndexAfter(xs[0], c, rest);
      assert c in s by { assert s[|xs[0]|] == c; }
      assert s[..|xs[0]|] == xs[0];
      assert s[|xs[0]| + 1..] == rest;
      SplitJoin(xs[1..], c);
      assert Split(s, c) == [xs[0]] + xs[1..];
    }
  }

  predicate IsPrefix(p: string, s: string)
  {
    |p| <= |s| && s[..|p|] == p
  }

  lemma PrefixOfConcat(p: string, s: string)
    ensures IsPrefix(p, p + s)
  {
    assert (p + s)[..|p|] == p;
  }

  /** Python's `sub in s` (and JavaScript's `s.includes(sub)`): case-sensitive substring search. */
  predicate Contains(s: string, sub: string)
    decreases |s|
  {
    IsPrefix(sub, s) || (|s| > 0 && Contains(s[1..], sub))
  }

  /** `sub` occurs in `s` starting at position `i`. */
  predicate OccursAt(s: string, sub: string, i: int)
  {
    0 <= i <= |s| - |sub| && s[i..i + |sub|] == sub
  }

  /** `Contains` holds exactly when `sub` occurs at some position of `s`. */
  lemma {:induction false} ContainsAt(s: string, sub: string)
    ensures Contains(s, sub) <==> exists i :: OccursAt(s, sub, i)
  {
    if IsPrefix(sub, s) {
      assert OccursAt(s, sub, 0);
    } else if |s| > 0 {
      ContainsAt(s[1..], sub);
      if Contains(s[1..], sub) {
        var i :| OccursAt(s[1..], sub, i);
        assert s[1..][i..i + |sub|] == s[i + 1..i + 1 + |sub|];
        assert OccursAt(s, sub, i + 1);
      }
      if exists i :: OccursAt(s, sub, i) {
        var i :| OccursAt(s, sub, i);
        assert i != 0;
        assert s[1..][i - 1..i - 1 + |sub|] == s[i..i + |sub|];
        assert OccursAt(s[1..], sub, i - 1);
      }
    } else {
      assert forall i :: !OccursAt(s, sub, i);
    }
  }

  /** Removes the leading characters that satisfy `isSpace`. */
  function DropLeading(s: string, isSpace: char -> bool): (r: string)
    ensures |r| <= |s| && r == s[|s| - |r|..]
  {
    if s != [] && isSpace(s[0]) then DropLeading(s[1..], isSpace) else s
  }

  /** Exactly the leading `isSpace` characters are dropped: all dropped ones are spaces, the first kept one is not. */
  lemma {:induction false} DropLeadingSpec(s: string, isSpace: char -> bool)
    ensures forall k :: 0 <= k < |s| - |DropLeading(s, isSpace)| ==> isSpace(s[k])
    ensures DropLeading(s, isSpace) == [] || !isSpace(DropLeading(s, isSpace)[0])
  {
    if s != [] && isSpace(s[0]) {
      var t := s[1..];
      DropLeadingSpec(t, isSpace);
      assert DropLeading(s, isSpace) == DropLeading(t, isSpace);
      forall k | 1 <= k < |s| - |DropLeading(t, isSpace)| ensures isSpace(s[k]) { assert s[k] == t[k - 1]; }
    }
  }

  /** Removes the trailing characters that satisfy `isSpace`. */
  function DropTrailing(s: string, isSpace: char -> bool): (r: string)
    ensures |r| <= |s| && r == s[..|r|]
  {
    if s != [] && isSpace(s[|s| - 1]) then DropTrailing(s[..|s| - 1], isSpace) else s
  }

  /** Exactly the trailing `isSpace` characters are dropped: all dropped ones are spaces, the last kept one is not. */
  lemma {:induction false} DropTrailingSpec(s: string, isSpace: char -> bool)
    ensures forall k :: |DropTrailing(s, isSpace)| <= k < |s| ==> isSpace(s[k])
    ensures DropTrailing(s, isSpace) == [] || !isSpace(DropTrailing(s, isSpace)[|DropTrailing(s, isSpace)| - 1])
  {
    if s != [] && isSpace(s[|s| - 1]) {
      DropTrailingSpec(s[..|s| - 1], isSpace);
      forall k | |DropTrailing(s, isSpace)| <= k < |s| - 1 ensures isSpace(s[k]) { assert s[k] == s[..|s| - 1][k]; }
    }
  }

  /** `s` without its leading and trailing `isSpace` characters. */
  function StripWith(s: string, isSpace: char -> bool): (r: string)
    ensures |r| <= |s|
  {
    DropTrailing(DropLeading(s, isSpace), isSpace)
  }

  /** Stripping keeps a contiguous slice of `s` and removes only `isSpace` characters, from both ends. */
  lemma StripIsSlice(s: string, isSpace: char -> bool) returns (i: nat, j: nat)
    ensures i <= j <= |s| && StripWith(s, isSpace) == s[i..j]
    ensures forall k :: 0 <= k < i ==> isSpace(s[k])
    ensures forall k :: j <= k < |s| ==> isSpace(s[k])
  {
    var a := DropLeading(s, isSpace);
    i := |s| - |a|;
    DropLeadingSpec(s, isSpace);
    var r := DropTrailing(a, isSpace);
    j := i + |r|;
    DropTrailingSpec(a, isSpace);
    SliceTail(s, a, i, |r|, isSpace);
    assert StripWith(s, isSpace) == r;
    assert r == a[..|r|];
    assert a[..|r|] == s[i..j];
  }

  /** The trailing part of a suffix `a` of `s` is the same trailing part of `s`. */
  lemma SliceTail(s: string, a: string, i: nat, n: nat, isSpace: char -> bool)
    requires i <= |s| && a == s[i..] && n <= |a|
    requires forall k :: n <= k < |a| ==> isSpace(a[k])
    ensures a[..n] == s[i..i + n]
    ensures forall k :: i + n <= k < |s| ==> isSpace(s[k])
  {
    forall k | i + n <= k < |s| ensures isSpace(s[k]) {
      assert s[k] == a[k - i];
    }
  }

  /** A stripped text neither starts nor ends with an `isSpace` character. */
  lemma StripEnds(s: string, isSpace: char -> bool)
    ensures var r := StripWith(s, isSpace); r == [] || (!isSpace(r[0]) && !isSpace(r[|r| - 1]))
  {
    var a := DropLeading(s, isSpace);
    var r := DropTrailing(a, isSpace);
    DropLeadingSpec(s, isSpace);
    DropTrailingSpec(a, isSpace);
    if r != [] {
      assert r[0] == a[..|r|][0] == a[0];
    }
  }

  /** A text strips to nothing exactly when all of its characters are `isSpace` characters. */
  lemma StripEmpty(s: string, isSpace: char -> bool)
    ensures StripWith(s, isSpace) == [] <==> forall k :: 0 <= k < |s| ==> isSpace(s[k])
  {
    var a := DropLeading(s, isSpace);
    DropLeadingSpec(s, isSpace);
    if !forall k :: 0 <= k < |s| ==> isSpace(s[k]) {
      var i, j := StripIsSlice(s, isSpace);
    }
  }

  /** The characters Python's `str.isspace` accepts. */
  predicate IsPythonSpace(c: char)
  {
    c in {' ', '\t', '\n', '\U{000B}', '\U{000C}', '\r', '\U{001C}', '\U{001D}', '\U{001E}', '\U{001F}',
          '\U{0085}', '\U{00A0}', '\U{1680}', '\U{2028}', '\U{2029}', '\U{202F}', '\U{205F}', '\U{3000}'}
    || ('\U{2000}' <= c <= '\U{200A}')
  }

  /** The characters JavaScript's `String.prototype.trim` removes (white space and line terminators). */
  predicate IsJsSpace(c: char)
  {
    c in {' ', '\t', '\n', '\U{000B}', '\U{000C}', '\r', '\U{00A0}', '\U{FEFF}',
          '\U{1680}', '\U{2028}', '\U{2029}', '\U{202F}', '\U{205F}', '\U{3000}'}
    || ('\U{2000}' <= c <= '\U{200A}')
  }

  /** Python's `s.strip()`. */
  function PyStrip(s: string): string { StripWith(s, IsPythonSpace) }

  /** JavaScript's `s.trim()`. */
  function JsTrim(s: string): string { StripWith(s, IsJsSpace) }

  function UpperChar(c: char): char
  {
    if 'a' <= c <= 'z' then (c as int - 'a' as int + 'A' as int) as char else c
  }

  function LowerChar(c: char): char
  {
    if 'A' <= c <= 'Z' then (c as int - 'A' as int + 'a' as int) as char else c
  }

  /** `s.upper()` on the ASCII letters. */
  function Upper(s: string): (r: string)
    ensures |r| == |s| && forall k :: 0 <= k < |s| ==> r[k] == UpperChar(s[k])
  {
    seq(|s|, k requires 0 <= k < |s| => UpperChar(s[k]))
  }

  /** `s.lower()` on the ASCII letters. */
  function Lower(s: string): (r: string)
    ensures |r| == |s| && forall k :: 0 <= k < |s| ==> r[k] == LowerChar(s[k])
  {
    seq(|s|, k requires 0 <= k < |s| => LowerChar(s[k]))
  }

  /** A lower-cased text has no upper-case ASCII letter, whatever it was before. */
  lemma LowerHasNoCapital(s: string)
    ensures forall k :: 0 <= k < |Lower(s)| ==> !('A' <= Lower(s)[k] <= 'Z')
  {
  }

  /** An occurrence inside `s` is an occurrence inside any text that embeds `s`. */
  lemma OccursInContext(a: string, s: string, b: string, sub: string, i: int)
    requires OccursAt(s, sub, i)
    ensures OccursAt(a + s + b, sub, |a| + i)
  {
    assert (a + s + b)[|a| + i..|a| + i + |sub|] == s[i..i + |sub|];
  }

  /** An occurrence inside `s` is an occurrence inside `s` wrapped as `a + (b + s + c)`. */
  lemma OccursInWrapped(a: string, b: string, s: string, c: string, sub: string, i: int)
    requires OccursAt(s, sub, i)
    ensures OccursAt(a + (b + s + c), sub, |a| + |b| + i)
  {
    assert (a + (b + s + c))[|a| + |b| + i..|a| + |b| + i + |sub|] == s[i..i + |sub|];
  }

  /** Every part of a join occurs in the join wrapped as `a + (b + join + c)`. */
  lemma WrappedJoinHasPart(a: string, b: string, parts: seq<string>, c: string, k: nat)
    requires k < |parts|
    ensures Contains(a + (b + Join(parts, "") + c), parts[k])
  {
    JoinHasPart(parts, "", k);
    var i :| OccursAt(Join(parts, ""), parts[k], i);
    OccursInWrapped(a, b, Join(parts, ""), c, parts[k], i);
    ContainsAt(a + (b + Join(parts, "") + c), parts[k]);
  }

  /** An occurrence inside a prefix of `s` is an occurrence inside `s`. */
  lemma OccursInPrefix(s: string, prefix: string, sub: string, i: int)
    requires |prefix| <= |s| && s[..|prefix|] == prefix && OccursAt(prefix, sub, i)
    ensures OccursAt(s, sub, i)
  {
    assert s[i..i + |sub|] == s[..|prefix|][i..i + |sub|];
  }

  /** Every part of a join occurs in the joined text. */
  lemma {:induction false} JoinHasPart(xs: seq<string>, sep: string, k: nat)
    requires k < |xs|
    ensures exists i :: OccursAt(Join(xs, sep), xs[k], i)
  {
    if |xs| == 1 {
      assert OccursAt(Join(xs, sep), xs[k], 0);
    } else if k == 0 {
      OccursInContext([], xs[0], sep + Join(xs[1..], sep), xs[0], 0);
      assert [] + xs[0] + (sep + Join(xs[1..], sep)) == Join(xs, sep);
    } else {
      JoinHasPart(xs[1..], sep, k - 1);
      var i :| OccursAt(Join(xs[1..], sep), xs[1..][k - 1], i);
      OccursInContext(xs[0] + sep, Join(xs[1..], sep), [], xs[k], i);
      assert xs[0] + sep + Join(xs[1..], sep) + [] == Join(xs, sep);
    }
  }
}
