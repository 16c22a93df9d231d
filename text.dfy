/**
  String primitives the extension takes from JavaScript's `String.prototype`:
  ASCII case mapping, `trim`, `startsWith`, `includes`, `Array.prototype.join`,
  `split` on one character, and a global `replace` of a literal pattern.
  Case mapping is restricted to ASCII letters; every other character is left as it is.
*/
module Text {

  predicate IsUpper(c: char) { 'A' <= c <= 'Z' }

  predicate IsLower(c: char) { 'a' <= c <= 'z' }

  predicate IsLetter(c: char) { IsUpper(c) || IsLower(c) }

  /** `toLowerCase` on one character (ASCII letters only). */
  function LowerChar(c: char): (d: char)
    ensures !IsUpper(d)
    ensures IsUpper(c) ==> IsLower(d) && d as int == c as int + 32
    ensures !IsUpper(c) ==> d == c
  {
    if IsUpper(c) then (c as int + 32) as char else c
  }

  /** `toUpperCase` on one character (ASCII letters only). */
  function UpperChar(c: char): (d: char)
    ensures !IsLower(d)
    ensures IsLower(c) ==> IsUpper(d) && d as int == c as int - 32
    ensures !IsLower(c) ==> d == c
  {
    if IsLower(c) then (c as int - 32) as char else c
  }

  /** `toLowerCase` on a string: same length, each character lowered in place. */
  function ToLower(s: string): (r: string)
    ensures |r| == |s|
    ensures forall i :: 0 <= i < |s| ==> r[i] == LowerChar(s[i])
  {
    seq(|s|, i requires 0 <= i < |s| => LowerChar(s[i]))
  }

  /** No character of `s` is an ASCII upper-case letter. */
  predicate NoUpper(s: string) {
    forall i :: 0 <= i < |s| ==> !IsUpper(s[i])
  }

  predicate AllLetters(s: string) {
    forall i :: 0 <= i < |s| ==> IsLetter(s[i])
  }

  /** The number of ASCII upper-case letters in `s`. */
  function CountUpper(s: string): (r: nat) {
    if s == [] then 0 else (if IsUpper(s[0]) then 1 else 0) + CountUpper(s[1..])
  }

  lemma AppendAssoc3(x: string, y: string, z: string)
    ensures (x + y) + z == x + (y + z)
  {
  }

  /** The characters of `s` other than `c`, in order. */
  function Without(s: string, c: char): (r: string)
    ensures |r| <= |s|
    ensures c !in r
  {
    if s == [] then [] else (if s[0] == c then [] else [s[0]]) + Without(s[1..], c)
  }

  lemma {:induction false} WithoutAppend(a: string, b: string, c: char)
    ensures Without(a + b, c) == Without(a, c) + Without(b, c)
  {
    if a == [] {
      assert a + b == b;
    } else {
      assert (a + b)[0] == a[0];
      assert (a + b)[1..] == a[1..] + b;
      WithoutAppend(a[1..], b, c);
      AppendAssoc3(if a[0] == c then [] else [a[0]], Without(a[1..], c), Without(b, c));
    }
  }

  /** ECMAScript's WhiteSpace and LineTerminator code points, the characters `trim` removes. */
  predicate IsJsWhitespace(c: char) {
    var n := c as int;
    n == 0x09 || n == 0x0A || n == 0x0B || n == 0x0C || n == 0x0D || n == 0x20 ||
    n == 0xA0 || n == 0x1680 || (0x2000 <= n <= 0x200A) || n == 0x2028 || n == 0x2029 ||
    n == 0x202F || n == 0x205F || n == 0x3000 || n == 0xFEFF
  }

  /** `trimStart`: the longest suffix of `s` that does not start with whitespace. */
  function TrimStart(s: string): (r: string)
    ensures |r| <= |s| && r == s[|s| - |r|..]
    ensures forall i :: 0 <= i < |s| - |r| ==> IsJsWhitespace(s[i])
    ensures r == [] || !IsJsWhitespace(r[0])
  {
    if s != [] && IsJsWhitespace(s[0]) then TrimStart(s[1..]) else s
  }

  /** `trimEnd`: the longest prefix of `s` that does not end with whitespace. */
  function TrimEnd(s: string): (r: string)
    ensures |r| <= |s| && r == s[..|r|]
    ensures forall i :: |r| <= i < |s| ==> IsJsWhitespace(s[i])
    ensures r == [] || !IsJsWhitespace(r[|r| - 1])
  {
    if s != [] && IsJsWhitespace(s[|s| - 1]) then TrimEnd(s[..|s| - 1]) else s
  }

  /** `trim`: whitespace removed at both ends. */
  function Trim(s: string): (r: string)
    ensures r == [] || (!IsJsWhitespace(r[0]) && !IsJsWhitespace(r[|r| - 1]))
    ensures Contains(s, r)
  {
    var e := TrimEnd(s);
    var r := TrimStart(e);
    assert OccursAt(s, r, |e| - |r|);
    r
  }

  lemma LetterNotWhitespace(c: char)
    requires IsLetter(c)
    ensures !IsJsWhitespace(c)
  {
  }

  /** A string that does not start with whitespace is its own trimStart. */
  lemma TrimStartKeeps(s: string)
    requires s == [] || !IsJsWhitespace(s[0])
    ensures TrimStart(s) == s
  {
  }

  /** trimStart skips one leading whitespace character. */
  lemma TrimStartSkip(c: char, s: string)
    requires IsJsWhitespace(c)
    ensures TrimStart([c] + s) == TrimStart(s)
  {
    assert ([c] + s)[1..] == s;
  }

  /** trimStart of one space before text that does not start with whitespace drops just the space. */
  lemma TrimStartAfterSpace(m: string, t: string)
    requires m == [' '] + t && (t == [] || !IsJsWhitespace(t[0]))
    ensures TrimStart(m) == m[1..] == t
  {
    TrimStartSkip(' ', t);
    TrimStartKeeps(t);
    assert m[1..] == t;
  }

  /** A string that starts and ends with a non-whitespace character is its own trim. */
  lemma TrimIdentity(s: string)
    requires s == [] || (!IsJsWhitespace(s[0]) && !IsJsWhitespace(s[|s| - 1]))
    ensures Trim(s) == s
  {
  }

  predicate StartsWith(s: string, p: string) {
    |p| <= |s| && s[..|p|] == p
  }

  predicate EndsWith(s: string, p: string) {
    |p| <= |s| && s[|s| - |p|..] == p
  }

  lemma StartsWithAppend(a: string, b: string)
    ensures StartsWith(a + b, a)
  {
    assert (a + b)[..|a|] == a;
  }

  lemma EndsWithAppend(a: string, b: string)
    ensures EndsWith(a + b, b)
  {
    assert (a + b)[|a + b| - |b|..] == b;
  }

  /** Five pieces written one after the other start with the first and end with the last. */
  lemma FramedBy(a: string, b: string, c: string, d: string, e: string)
    ensures StartsWith(a + b + c + d + e, a)
    ensures EndsWith(a + b + c + d + e, e)
  {
    StartsWithAppend(a, b + c + d + e);
    assert a + b + c + d + e == a + (b + c + d + e);
    EndsWithAppend(a + b + c + d, e);
  }

  lemma AppendAssoc(x: string, y: string, z: string, t: string)
    ensures x + (y + z + t) == x + y + z + t
  {
  }

  lemma HeadAssoc(a: string, y: string, z: string)
    requires |a| > 0
    ensures [a[0]] + (a[1..] + y + z) == a + y + z
  {
    assert [a[0]] + a[1..] == a;
  }

  lemma HeadAppend(a: string, y: string)
    requires |a| > 0
    ensures [a[0]] + (a[1..] + y) == a + y
  {
    assert [a[0]] + a[1..] == a;
  }

  /** `t` is written in `s` starting at offset `i`. */
  predicate OccursAt(s: string, t: string, i: int) {
    0 <= i <= |s| - |t| && s[i..i + |t|] == t
  }

  /** `s.includes(t)`: `t` occurs in `s` at some offset. */
  predicate Contains(s: string, t: string) {
    exists i :: 0 <= i <= |s| - |t| && OccursAt(s, t, i)
  }

  /** Whatever is written between `a` and `b` occurs in the result. */
  lemma ContainsMiddle(a: string, t: string, b: string)
    ensures Contains(a + t + b, t)
  {
    assert (a + t + b)[|a|..|a| + |t|] == t;
    assert OccursAt(a + t + b, t, |a|);
  }

  /** Occurrence is kept when more text is written around it. */
  lemma ContainsExtend(a: string, s: string, b: string, t: string)
    requires Contains(s, t)
    ensures Contains(a + s + b, t)
  {
    var i :| 0 <= i <= |s| - |t| && OccursAt(s, t, i);
    assert (a + s + b)[|a| + i..|a| + i + |t|] == s[i..i + |t|];
    assert OccursAt(a + s + b, t, |a| + i);
  }

  lemma StartsWithContains(s: string, p: string)
    requires StartsWith(s, p)
    ensures Contains(s, p)
  {
    assert OccursAt(s, p, 0);
  }

  lemma EndsWithContains(s: string, p: string)
    requires EndsWith(s, p)
    ensures Contains(s, p)
  {
    assert OccursAt(s, p, |s| - |p|);
  }

  /** Occurrence is transitive. */
  lemma ContainsTrans(s: string, t: string, u: string)
    requires Contains(s, t) && Contains(t, u)
    ensures Contains(s, u)
  {
    var i :| 0 <= i <= |s| - |t| && OccursAt(s, t, i);
    var j :| 0 <= j <= |t| - |u| && OccursAt(t, u, j);
    assert t == s[i..i + |t|];
    forall k | 0 <= k < |u|
      ensures s[i + j + k] == u[k]
    {
      assert u[k] == t[j + k] == s[i + j + k];
    }
    assert s[i + j..i + j + |u|] == u;
    assert OccursAt(s, u, i + j);
  }

  /** `Array.prototype.join(sep)`. */
  function Join(xs: seq<string>, sep: string): (r: string) {
    if xs == [] then "" else if |xs| == 1 then xs[0] else xs[0] + sep + Join(xs[1..], sep)
  }

  /** Every element occurs in the join. */
  lemma {:induction false} JoinContains(xs: seq<string>, sep: string, i: int)
    requires 0 <= i < |xs|
    ensures Contains(Join(xs, sep), xs[i])
  {
    if |xs| == 1 {
      ContainsMiddle("", xs[0], "");
      assert "" + xs[0] + "" == xs[0];
    } else if i == 0 {
      ContainsMiddle("", xs[0], sep + Join(xs[1..], sep));
      assert "" + xs[0] + (sep + Join(xs[1..], sep)) == Join(xs, sep);
    } else {
      JoinContains(xs[1..], sep, i - 1);
      ContainsExtend(xs[0] + sep, Join(xs[1..], sep), "", xs[i]);
      assert xs[0] + sep + Join(xs[1..], sep) + "" == Join(xs, sep);
    }
  }

  /** `split(c)` on a single character: the pieces between occurrences of `c`. */
  function Split(s: string, c: char): (parts: seq<string>)
    ensures |parts| > 0
  {
    if s == [] then [""]
    else if s[0] == c then [""] + Split(s[1..], c)
    else
      var rest := Split(s[1..], c);
      [[s[0]] + rest[0]] + rest[1..]
  }

  lemma {:induction false} SplitNoSeparator(x: string, c: char)
    requires c !in x
    ensures Split(x, c) == [x]
  {
    if x != [] {
      assert x[0] != c && c !in x[1..];
      SplitNoSeparator(x[1..], c);
      assert [x[0]] + x[1..] == x;
    }
  }

  lemma {:induction false} SplitAfterPiece(x: string, y: string, c: char)
    requires c !in x
    ensures Split(x + [c] + y, c) == [x] + Split(y, c)
  {
    if x == [] {
      assert (x + [c] + y)[1..] == y;
    } else {
      assert (x + [c] + y)[0] == x[0] != c;
      assert (x + [c] + y)[1..] == x[1..] + [c] + y;
      assert c !in x[1..];
      SplitAfterPiece(x[1..], y, c);
      assert [x[0]] + x[1..] == x;
    }
  }

  /** Splitting a join on a one-character separator gives the pieces back. */
  lemma {:induction false} SplitJoin(xs: seq<string>, c: char)
    requires |xs| > 0
    requires forall i :: 0 <= i < |xs| ==> c !in xs[i]
    ensures Split(Join(xs, [c]), c) == xs
  {
    if |xs| == 1 {
      SplitNoSeparator(xs[0], c);
    } else {
      SplitJoin(xs[1..], c);
      SplitAfterPiece(xs[0], Join(xs[1..], [c]), c);
    }
  }

  /** Joining the pieces of a split on the same character gives the string back. */
  lemma {:induction false} JoinSplit(s: string, c: char)
    ensures Join(Split(s, c), [c]) == s
  {
    if s != [] {
      JoinSplit(s[1..], c);
      var rest := Split(s[1..], c);
      if s[0] != c && |rest| > 1 {
        assert Join(rest, [c]) == rest[0] + [c] + Join(rest[1..], [c]);
      }
    }
  }

  /** The concatenation of a sequence of strings. */
  function Concat(xs: seq<string>): (r: string) {
    if xs == [] then "" else xs[0] + Concat(xs[1..])
  }

  lemma {:induction false} ConcatAppend(xs: seq<string>, ys: seq<string>)
    ensures Concat(xs + ys) == Concat(xs) + Concat(ys)
  {
    if xs == [] {
      assert xs + ys == ys;
    } else {
      assert (xs + ys)[0] == xs[0];
      assert (xs + ys)[1..] == xs[1..] + ys;
      ConcatAppend(xs[1..], ys);
    }
  }

  /** The concatenation is what comes before a piece, the piece, and what comes after. */
  lemma ConcatAround(a: seq<string>, x: string, b: seq<string>)
    ensures Concat(a + [x] + b) == Concat(a) + x + Concat(b)
  {
    ConcatAppend(a + [x], b);
    ConcatAppend(a, [x]);
    assert Concat([x]) == x;
  }

  /** No character of `s` is `c`, stated position by position. */
  predicate Avoids(s: string, c: char) {
    forall i | 0 <= i < |s| :: s[i] != c
  }

  lemma AvoidsIff(s: string, c: char)
    ensures Avoids(s, c) <==> c !in s
  {
  }

  lemma AvoidsAppend(a: string, b: string, c: char)
    requires Avoids(a, c) && Avoids(b, c)
    ensures Avoids(a + b, c)
  {
    forall i | 0 <= i < |a + b| ensures (a + b)[i] != c {
      if i >= |a| {
        assert (a + b)[i] == b[i - |a|];
      }
    }
  }

  /** A concatenation of pieces that avoid `c` avoids `c`. */
  lemma {:induction false} AvoidsConcat(xs: seq<string>, c: char)
    requires forall i | 0 <= i < |xs| :: Avoids(xs[i], c)
    ensures Avoids(Concat(xs), c)
  {
    if xs != [] {
      AvoidsConcat(xs[1..], c);
      assert Avoids(xs[0], c);
      AvoidsAppend(xs[0], Concat(xs[1..]), c);
    }
  }

  lemma SplitAround<T>(xs: seq<T>, i: int)
    requires 0 <= i < |xs|
    ensures xs == xs[..i] + [xs[i]] + xs[i + 1..]
  {
  }

  /** Every piece occurs in the concatenation. */
  lemma ConcatContains(xs: seq<string>, i: int)
    requires 0 <= i < |xs|
    ensures Contains(Concat(xs), xs[i])
  {
    SplitAround(xs, i);
    ConcatAround(xs[..i], xs[i], xs[i + 1..]);
    ContainsMiddle(Concat(xs[..i]), xs[i], Concat(xs[i + 1..]));
  }

  /**
    `s.replace(/pat/g, rep)` for a literal pattern: scan left to right, and at each
    position where `pat` starts, write `rep` and skip the match; elsewhere copy one character.
    `rep` is inserted literally.
  */
  function ReplaceAll(s: string, pat: string, rep: string): (r: string)
    requires |pat| > 0
  {
    if s == [] then []
    else if StartsWith(s, pat) then rep + ReplaceAll(s[|pat|..], pat, rep)
    else [s[0]] + ReplaceAll(s[1..], pat, rep)
  }

  /** A pattern that occurs nowhere is left as is: text without the pattern's first character is copied. */
  lemma {:induction false} ReplaceAllSkips(t: string, u: string, pat: string, rep: string)
    requires |pat| > 0 && pat[0] !in t
    ensures ReplaceAll(t + u, pat, rep) == t + ReplaceAll(u, pat, rep)
  {
    if t == [] {
      assert t + u == u;
    } else {
      assert (t + u)[0] == t[0] != pat[0];
      assert !StartsWith(t + u, pat);
      assert (t + u)[1..] == t[1..] + u;
      assert pat[0] !in t[1..];
      ReplaceAllSkips(t[1..], u, pat, rep);
    }
  }

  /** Where the pattern does not start, the first character is copied. */
  lemma ReplaceAllMiss(x: string, pat: string, rep: string)
    requires |pat| > 0 && x != [] && !StartsWith(x, pat)
    ensures ReplaceAll(x, pat, rep) == [x[0]] + ReplaceAll(x[1..], pat, rep)
  {
  }

  /**
    Text that does not start with the pattern, and whose later characters do not hold the
    pattern's first character, is copied in front of the replacement of what follows.
  */
  lemma ReplaceAllCopiesHead(t: string, u: string, pat: string, rep: string)
    requires |pat| > 0 && |t| > 0 && !StartsWith(t + u, pat) && pat[0] !in t[1..]
    ensures ReplaceAll(t + u, pat, rep) == t + ReplaceAll(u, pat, rep)
  {
    ReplaceAllMiss(t + u, pat, rep);
    assert (t + u)[1..] == t[1..] + u;
    ReplaceAllSkips(t[1..], u, pat, rep);
    HeadAppend(t, ReplaceAll(u, pat, rep));
  }

  /** Each occurrence of the pattern at the front is replaced. */
  lemma ReplaceAllHit(u: string, pat: string, rep: string)
    requires |pat| > 0
    ensures ReplaceAll(pat + u, pat, rep) == rep + ReplaceAll(u, pat, rep)
  {
    assert (pat + u)[..|pat|] == pat;
    assert (pat + u)[|pat|..] == u;
  }
}
