/**
  The identifier case conversions of src/utils/utils.ts. Every generated file name and
  title goes through one of them. Each is a chain of regular-expression replacements,
  `toLowerCase`, `substring`, `charAt` and `trim`; here each step is a function on strings.
*/
module Utils {
  import opened Text

  /** `replace(/([A-Z])/g, mark + "$1")`: `mark` written before every upper-case letter, which is kept. */
  function MarkUpper(s: string, mark: char): (r: string)
    ensures |r| == |s| + CountUpper(s)
  {
    if s == [] then []
    else (if IsUpper(s[0]) then [mark, s[0]] else [s[0]]) + MarkUpper(s[1..], mark)
  }

  /** `replace(/[A-Z]/g, m => "_" + m.toLowerCase())`: each upper-case letter becomes `_` and its lower case. */
  function UnderscoreLowered(s: string): (r: string) {
    if s == [] then []
    else (if IsUpper(s[0]) then ['_', LowerChar(s[0])] else [s[0]]) + UnderscoreLowered(s[1..])
  }

  /** `replace(/([A-Z])/g, "_$1").toLowerCase()`, the text camelToSnake and pascalToSnakeCase start from. */
  function Snake(s: string): (r: string) {
    ToLower(MarkUpper(s, '_'))
  }

  /** camelToSnake: the snake text with its first character dropped, whatever that character is. */
  function CamelToSnake(s: string): (r: string) {
    var t := Snake(s);
    if t == [] then [] else t[1..]
  }

  /** camelCaseToSnakeCase: replace each upper-case letter through a callback, then lower-case all. */
  function CamelCaseToSnakeCase(s: string): (r: string) {
    ToLower(UnderscoreLowered(s))
  }

  /** pascalToSnakeCase: the snake text with one leading `_` removed, if there is one. */
  function PascalToSnakeCase(s: string): (r: string) {
    var t := Snake(s);
    if StartsWith(t, "_") then t[1..] else t
  }

  /**
    camelToTitleCase as written: a space before each upper-case letter, then the first
    character upper-cased and glued to the trimmed rest, and the whole trimmed.
  */
  function CamelToTitleCase(s: string): (r: string) {
    var spaced := MarkUpper(s, ' ');
    var first := if spaced == [] then [] else [UpperChar(spaced[0])];
    var rest := if spaced == [] then [] else spaced[1..];
    Trim(first + Trim(rest))
  }

  /**
    camelToTitleCase as its comment describes it: a space before each upper-case letter
    except the first character, the first character upper-cased, the whole trimmed.
  */
  function TitleCase(s: string): (r: string) {
    if s == [] then [] else Trim([UpperChar(s[0])] + MarkUpper(s[1..], ' '))
  }

  // ---------------------------------------------------------------------------
  // Helpers about the building blocks

  lemma ToLowerAppend(a: string, b: string)
    ensures ToLower(a + b) == ToLower(a) + ToLower(b)
  {
  }

  lemma ToLowerNoUpper(s: string)
    requires NoUpper(s)
    ensures ToLower(s) == s
  {
  }

  lemma {:induction false} MarkUpperNoUpper(s: string, mark: char)
    requires NoUpper(s)
    ensures MarkUpper(s, mark) == s
  {
    if s != [] {
      assert NoUpper(s[1..]);
      MarkUpperNoUpper(s[1..], mark);
    }
  }

  lemma {:induction false} MarkUpperAppend(a: string, b: string, mark: char)
    ensures MarkUpper(a + b, mark) == MarkUpper(a, mark) + MarkUpper(b, mark)
  {
    if a == [] {
      assert a + b == b;
    } else {
      assert (a + b)[0] == a[0];
      assert (a + b)[1..] == a[1..] + b;
      MarkUpperAppend(a[1..], b, mark);
      AppendAssoc3(if IsUpper(a[0]) then [mark, a[0]] else [a[0]], MarkUpper(a[1..], mark), MarkUpper(b, mark));
    }
  }

  /** `mark` written before one upper-case letter and the lower-case rest. */
  lemma MarkUpperWord(w: string, mark: char)
    requires |w| > 0 && IsUpper(w[0]) && NoUpper(w[1..])
    ensures MarkUpper(w, mark) == [mark] + w
  {
    MarkUpperNoUpper(w[1..], mark);
  }

  lemma {:induction false} UnderscoreLoweredNoUpper(s: string)
    ensures NoUpper(UnderscoreLowered(s))
  {
    if s != [] {
      UnderscoreLoweredNoUpper(s[1..]);
    }
  }

  /** Marking a letters-only string ends with its last letter. */
  lemma {:induction false} MarkUpperLast(s: string, mark: char)
    requires |s| > 0 && AllLetters(s)
    ensures var m := MarkUpper(s, mark); |m| > 0 && m[|m| - 1] == s[|s| - 1]
  {
    if |s| > 1 {
      assert AllLetters(s[1..]);
      MarkUpperLast(s[1..], mark);
    }
  }

  /** Marking a letters-only string with a space writes no whitespace but the inserted spaces. */
  lemma {:induction false} MarkUpperSpaces(s: string)
    requires AllLetters(s)
    ensures forall i :: 0 <= i < |MarkUpper(s, ' ')| && IsJsWhitespace(MarkUpper(s, ' ')[i]) ==>
      MarkUpper(s, ' ')[i] == ' '
  {
    if s != [] {
      assert AllLetters(s[1..]);
      MarkUpperSpaces(s[1..]);
    }
  }

  /** The leading whitespace of a marked letters-only string is the one space before an initial capital. */
  lemma TrimStartMarked(u: string)
    requires |u| > 0 && AllLetters(u)
    ensures TrimStart(MarkUpper(u, ' ')) == if IsUpper(u[0]) then MarkUpper(u, ' ')[1..] else MarkUpper(u, ' ')
  {
    LetterNotWhitespace(u[0]);
    if IsUpper(u[0]) {
      TrimStartMarkedUpper(u);
    } else {
      TrimStartMarkedLower(u);
    }
  }

  lemma TrimStartMarkedUpper(u: string)
    requires |u| > 0 && IsUpper(u[0])
    ensures TrimStart(MarkUpper(u, ' ')) == MarkUpper(u, ' ')[1..]
  {
    var t := [u[0]] + MarkUpper(u[1..], ' ');
    MarkUpperHead(u, ' ');
    assert t[0] == u[0];
    LetterNotWhitespace(u[0]);
    TrimStartAfterSpace(MarkUpper(u, ' '), t);
  }

  /** An upper-case first character is written after the mark, and the rest is marked. */
  lemma MarkUpperHead(u: string, mark: char)
    requires |u| > 0 && IsUpper(u[0])
    ensures MarkUpper(u, mark) == [mark] + ([u[0]] + MarkUpper(u[1..], mark))
  {
    assert [mark, u[0]] == [mark] + [u[0]];
    AppendAssoc3([mark], [u[0]], MarkUpper(u[1..], mark));
  }

  lemma TrimStartMarkedLower(u: string)
    requires |u| > 0 && !IsUpper(u[0]) && !IsJsWhitespace(u[0])
    ensures TrimStart(MarkUpper(u, ' ')) == MarkUpper(u, ' ')
  {
    var m := MarkUpper(u, ' ');
    assert m == [u[0]] + MarkUpper(u[1..], ' ');
    TrimStartKeeps(m);
  }

  // ---------------------------------------------------------------------------
  // Snake-case conversions

  /** The callback form of camelCaseToSnakeCase and the `_$1` form give the same text. */
  lemma {:induction false} UnderscoreLoweredIsSnake(s: string)
    ensures Snake(s) == UnderscoreLowered(s)
  {
    if s != [] {
      UnderscoreLoweredIsSnake(s[1..]);
      var head := if IsUpper(s[0]) then ['_', s[0]] else [s[0]];
      ToLowerAppend(head, MarkUpper(s[1..], '_'));
    }
  }

  /**
    camelCaseToSnakeCase writes `_` and the lower case of every upper-case letter, so its
    result is one character longer per upper-case letter, has no upper case left, and
    starts with `_` whenever the input starts with an upper-case letter: the leading
    underscore its comment promises to avoid is kept.
  */
  lemma CamelCaseToSnakeCaseSpec(s: string)
    ensures CamelCaseToSnakeCase(s) == Snake(s)
    ensures |CamelCaseToSnakeCase(s)| == |s| + CountUpper(s)
    ensures NoUpper(CamelCaseToSnakeCase(s))
    ensures |s| > 0 && IsUpper(s[0]) ==> CamelCaseToSnakeCase(s)[0] == '_'
  {
    UnderscoreLoweredIsSnake(s);
    UnderscoreLoweredNoUpper(s);
    ToLowerNoUpper(UnderscoreLowered(s));
  }

  /**
    camelToSnake drops the first character of the snake text unconditionally: for an
    upper-case initial that is the inserted `_`, for any other initial it is a real
    character of the input. The length is the input's plus one per upper-case letter, less one.
  */
  lemma CamelToSnakeSpec(s: string)
    requires |s| > 0
    ensures |CamelToSnake(s)| == |s| + CountUpper(s) - 1
    ensures IsUpper(s[0]) ==> CamelToSnake(s) == [LowerChar(s[0])] + Snake(s[1..])
    ensures !IsUpper(s[0]) ==> CamelToSnake(s) == Snake(s[1..])
    ensures NoUpper(CamelToSnake(s))
  {
    SnakeShape(s);
    if IsUpper(s[0]) {
      CamelToSnakeUpper(s);
    } else {
      CamelToSnakeOther(s);
    }
  }

  lemma CamelToSnakeUpper(s: string)
    requires |s| > 0 && IsUpper(s[0])
    ensures CamelToSnake(s) == [LowerChar(s[0])] + Snake(s[1..])
  {
    CamelToSnakeHead(s, ['_', s[0]]);
    assert ToLower(['_', s[0]]) == ['_', LowerChar(s[0])];
    DropFirstOfTwo('_', LowerChar(s[0]), Snake(s[1..]));
  }

  lemma CamelToSnakeOther(s: string)
    requires |s| > 0 && !IsUpper(s[0])
    ensures CamelToSnake(s) == Snake(s[1..])
  {
    CamelToSnakeHead(s, [s[0]]);
    assert ToLower([s[0]]) == [s[0]];
    assert ([s[0]] + Snake(s[1..]))[1..] == Snake(s[1..]);
  }

  lemma DropFirstOfTwo(x: char, y: char, z: string)
    ensures ([x, y] + z)[1..] == [y] + z
  {
  }

  lemma SnakeShape(s: string)
    ensures |Snake(s)| == |s| + CountUpper(s)
    ensures NoUpper(Snake(s))
  {
  }

  /** The snake text is the lowered marking of the first character followed by the snake text of the rest. */
  lemma CamelToSnakeHead(s: string, head: string)
    requires |s| > 0 && head == if IsUpper(s[0]) then ['_', s[0]] else [s[0]]
    ensures Snake(s) == ToLower(head) + Snake(s[1..])
  {
    assert MarkUpper(s, '_') == head + MarkUpper(s[1..], '_');
    ToLowerAppend(head, MarkUpper(s[1..], '_'));
  }

  lemma MarkLowerInitial(a: string, b: string, mark: char)
    requires NoUpper(a)
    ensures MarkUpper(a + b, mark) == a + MarkUpper(b, mark)
  {
    MarkUpperNoUpper(a, mark);
    MarkUpperAppend(a, b, mark);
  }

  /**
    pascalToSnakeCase removes one leading `_` of the snake text and nothing else; on an
    upper-case initial it agrees with camelToSnake; no upper-case letter is left.
  */
  lemma PascalToSnakeCaseSpec(s: string)
    ensures Snake(s) == if StartsWith(Snake(s), "_") then "_" + PascalToSnakeCase(s) else PascalToSnakeCase(s)
    ensures |s| > 0 && IsUpper(s[0]) ==> PascalToSnakeCase(s) == CamelToSnake(s)
    ensures NoUpper(PascalToSnakeCase(s))
  {
    var t := Snake(s);
    if StartsWith(t, "_") {
      assert t == "_" + t[1..];
    }
    if |s| > 0 && IsUpper(s[0]) {
      var head := ['_', s[0]];
      ToLowerAppend(head, MarkUpper(s[1..], '_'));
      assert t[0] == '_';
    }
  }

  /** A string with no upper-case letter and no leading `_` is its own snake case. */
  lemma PascalToSnakeCaseIdentity(s: string)
    requires NoUpper(s) && !StartsWith(s, "_")
    ensures PascalToSnakeCase(s) == s
  {
    MarkUpperNoUpper(s, '_');
    ToLowerNoUpper(s);
  }

  /** Converting twice is converting once, unless the first result still starts with `_` (input "__x"). */
  lemma PascalToSnakeCaseIdempotent(s: string)
    requires !StartsWith(PascalToSnakeCase(s), "_")
    ensures PascalToSnakeCase(PascalToSnakeCase(s)) == PascalToSnakeCase(s)
  {
    PascalToSnakeCaseSpec(s);
    PascalToSnakeCaseIdentity(PascalToSnakeCase(s));
  }

  /**
    Apart from the `_` characters, the snake text is the input lower-cased: letters and
    digits keep their order and value, and each upper-case letter is there in lower case.
  */
  lemma {:induction false} SnakeKeepsOtherChars(s: string)
    ensures Without(Snake(s), '_') == ToLower(Without(s, '_'))
  {
    UnderscoreLoweredIsSnake(s);
    if s != [] {
      SnakeKeepsOtherChars(s[1..]);
      UnderscoreLoweredIsSnake(s[1..]);
      var head := if IsUpper(s[0]) then ['_', LowerChar(s[0])] else [s[0]];
      WithoutAppend(head, UnderscoreLowered(s[1..]), '_');
      var kept := if s[0] == '_' then [] else [s[0]];
      ToLowerAppend(kept, Without(s[1..], '_'));
      HeadKept(s[0]);
    }
  }

  /** What the snake text keeps of one character, apart from `_`, is that character lowered. */
  lemma HeadKept(c: char)
    ensures Without(if IsUpper(c) then ['_', LowerChar(c)] else [c], '_') == ToLower(if c == '_' then [] else [c])
  {
    if IsUpper(c) {
      assert Without(['_', LowerChar(c)], '_') == Without([LowerChar(c)], '_');
    }
  }

  /** The same holds for camelCaseToSnakeCase and, since it only drops a `_`, for pascalToSnakeCase. */
  lemma SnakeConversionsKeepOtherChars(s: string)
    ensures Without(CamelCaseToSnakeCase(s), '_') == ToLower(Without(s, '_'))
    ensures Without(PascalToSnakeCase(s), '_') == ToLower(Without(s, '_'))
  {
    SnakeKeepsOtherChars(s);
    CamelCaseToSnakeCaseSpec(s);
    var t := Snake(s);
    if StartsWith(t, "_") {
      assert t == "_" + t[1..];
      WithoutAppend("_", t[1..], '_');
    }
  }

  /**
    camelToSnake keeps the other characters too, except that a first character other than
    an upper-case letter or `_` is lost.
  */
  lemma CamelToSnakeKeepsOtherChars(s: string)
    requires |s| > 0
    ensures IsUpper(s[0]) || s[0] == '_' ==> Without(CamelToSnake(s), '_') == ToLower(Without(s, '_'))
    ensures !IsUpper(s[0]) && s[0] != '_' ==> [s[0]] + Without(CamelToSnake(s), '_') == ToLower(Without(s, '_'))
  {
    CamelToSnakeSpec(s);
    SnakeKeepsOtherChars(s[1..]);
    if s[0] == '_' {
      assert s == [s[0]] + s[1..];
      WithoutAppend([s[0]], s[1..], '_');
      assert Without([s[0]], '_') == [];
    } else {
      LowerWithoutHead(s);
      if IsUpper(s[0]) {
        WithoutAppend([LowerChar(s[0])], Snake(s[1..]), '_');
        assert Without([LowerChar(s[0])], '_') == [LowerChar(s[0])];
      }
    }
  }

  lemma LowerWithoutHead(s: string)
    requires |s| > 0 && s[0] != '_'
    ensures ToLower(Without(s, '_')) == [LowerChar(s[0])] + ToLower(Without(s[1..], '_'))
  {
    var rest := Without(s[1..], '_');
    assert Without(s, '_') == [s[0]] + rest;
    ToLowerAppend([s[0]], rest);
  }

  // ---------------------------------------------------------------------------
  // Title case

  /** Trimming text that does not end in whitespace only trims its start. */
  lemma TrimNoTrailing(x: string)
    requires x == [] || !IsJsWhitespace(x[|x| - 1])
    ensures Trim(x) == TrimStart(x)
  {
  }

  /** One space in front of already trimmed text is removed by the trim. */
  lemma TrimLeadingSpace(x: string)
    requires |x| > 0 && !IsJsWhitespace(x[0]) && !IsJsWhitespace(x[|x| - 1])
    ensures Trim([' '] + x) == x
  {
    var y := [' '] + x;
    assert y[|y| - 1] == x[|x| - 1];
    TrimNoTrailing(y);
    assert y[1..] == x;
  }

  /**
    On a non-empty letters-only input camelToTitleCase upper-cases the first letter and puts
    a space before every later upper-case letter, except that a space in second position is
    lost when the input starts with a lower-case letter (the inner trim removes it).
  */
  lemma CamelToTitleCaseLetters(s: string)
    requires |s| > 0 && AllLetters(s)
    ensures IsUpper(s[0]) ==> CamelToTitleCase(s) == [s[0]] + MarkUpper(s[1..], ' ')
    ensures IsLower(s[0]) ==> CamelToTitleCase(s) == [UpperChar(s[0])] + TrimStart(MarkUpper(s[1..], ' '))
  {
    if IsUpper(s[0]) {
      TitleCaseUpperInitial(s);
    } else {
      TitleCaseLowerInitial(s);
    }
  }

  lemma TitleCaseUpperInitial(s: string)
    requires |s| > 0 && AllLetters(s) && IsUpper(s[0])
    ensures CamelToTitleCase(s) == [s[0]] + MarkUpper(s[1..], ' ')
  {
    var spaced := MarkUpper(s, ' ');
    var u := s[1..];
    assert AllLetters(u);
    var x := [s[0]] + MarkUpper(u, ' ');
    assert spaced == [' '] + x;
    assert spaced[1..] == x;
    if u != [] {
      MarkUpperLast(u, ' ');
    }
    assert !IsJsWhitespace(x[0]) && !IsJsWhitespace(x[|x| - 1]);
    TrimIdentity(x);
    assert [UpperChar(spaced[0])] == [' '];
    TrimLeadingSpace(x);
  }

  lemma TitleCaseLowerInitial(s: string)
    requires |s| > 0 && AllLetters(s) && IsLower(s[0])
    ensures CamelToTitleCase(s) == [UpperChar(s[0])] + TrimStart(MarkUpper(s[1..], ' '))
  {
    var spaced := MarkUpper(s, ' ');
    var m := MarkUpper(s[1..], ' ');
    assert spaced == [s[0]] + m;
    assert spaced[1..] == m;
    assert CamelToTitleCase(s) == Trim([UpperChar(s[0])] + Trim(m));
    assert AllLetters(s[1..]);
    GlueTrimmed(UpperChar(s[0]), s[1..]);
  }

  /** An upper-case letter glued to a trimmed marked letters-only string survives the outer trim. */
  lemma GlueTrimmed(c: char, u: string)
    requires IsUpper(c) && AllLetters(u)
    ensures Trim([c] + Trim(MarkUpper(u, ' '))) == [c] + TrimStart(MarkUpper(u, ' '))
  {
    if u == [] {
      assert [c] + [] == [c];
      TrimIdentity([c]);
    } else {
      TrimMarkedLetters(u);
      TrimAfterCapital(c, TrimStart(MarkUpper(u, ' ')));
    }
  }

  /** A marked non-empty letters-only string only loses its leading space to the trim, and ends in a letter. */
  lemma TrimMarkedLetters(u: string)
    requires AllLetters(u) && u != []
    ensures var m := MarkUpper(u, ' '); var ts := TrimStart(m);
      |ts| > 0 && ts[|ts| - 1] == m[|m| - 1] == u[|u| - 1] && Trim(m) == ts
  {
    var m := MarkUpper(u, ' ');
    MarkUpperLast(u, ' ');
    TrimNoTrailing(m);
    TrimStartMarked(u);
    if IsUpper(u[0]) {
      assert m == [' ', u[0]] + MarkUpper(u[1..], ' ');
    }
  }

  lemma TrimAfterCapital(c: char, ts: string)
    requires IsUpper(c) && |ts| > 0 && !IsJsWhitespace(ts[|ts| - 1])
    ensures Trim([c] + ts) == [c] + ts
  {
    TrimIdentity([c] + ts);
  }

  /**
    The intended title case: on a non-empty letters-only input, the first letter upper-cased
    followed by the rest with a space before every upper-case letter; removing the spaces
    gives the input with its first letter upper-cased.
  */
  lemma TitleCaseLetters(s: string)
    requires |s| > 0 && AllLetters(s)
    ensures TitleCase(s) == [UpperChar(s[0])] + MarkUpper(s[1..], ' ')
    ensures Without(TitleCase(s), ' ') == [UpperChar(s[0])] + s[1..]
  {
    TitleCaseMarked(s);
    assert AllLetters(s[1..]);
    MarkUpperWithoutSpaces(s[1..]);
    WithoutAppend([UpperChar(s[0])], MarkUpper(s[1..], ' '), ' ');
    assert Without([UpperChar(s[0])], ' ') == [UpperChar(s[0])];
  }

  lemma TitleCaseMarked(s: string)
    requires |s| > 0 && AllLetters(s)
    ensures TitleCase(s) == [UpperChar(s[0])] + MarkUpper(s[1..], ' ')
  {
    assert AllLetters(s[1..]);
    TrimLetterThenMarked(UpperChar(s[0]), s[1..]);
  }

  /** A letter followed by a marked letters-only string is its own trim. */
  lemma TrimLetterThenMarked(c: char, u: string)
    requires IsLetter(c) && AllLetters(u)
    ensures Trim([c] + MarkUpper(u, ' ')) == [c] + MarkUpper(u, ' ')
  {
    var x := [c] + MarkUpper(u, ' ');
    LetterThenMarkedEnds(c, u);
    LetterNotWhitespace(c);
    LetterNotWhitespace(x[|x| - 1]);
    TrimIdentity(x);
  }

  lemma LetterThenMarkedEnds(c: char, u: string)
    requires IsLetter(c) && AllLetters(u)
    ensures var x := [c] + MarkUpper(u, ' '); x[0] == c && IsLetter(x[|x| - 1])
  {
    var m := MarkUpper(u, ' ');
    if u != [] {
      MarkUpperLast(u, ' ');
      assert ([c] + m)[|m|] == m[|m| - 1];
    }
  }

  lemma {:induction false} MarkUpperWithoutSpaces(u: string)
    requires AllLetters(u)
    ensures Without(MarkUpper(u, ' '), ' ') == u
  {
    if u != [] {
      assert AllLetters(u[1..]);
      MarkUpperWithoutSpaces(u[1..]);
      var head := if IsUpper(u[0]) then [' ', u[0]] else [u[0]];
      WithoutAppend(head, MarkUpper(u[1..], ' '), ' ');
      assert u == [u[0]] + u[1..];
    }
  }

  /** A letters-only string made of a first word and a capitalised second word. */
  predicate TwoWords(a: string, w: string) {
    && |a| > 0 && AllLetters(a) && NoUpper(a[1..])
    && |w| > 0 && AllLetters(w) && IsUpper(w[0]) && NoUpper(w[1..])
  }

  lemma TwoWordsLetters(a: string, w: string)
    requires TwoWords(a, w)
    ensures AllLetters(a + w) && (a + w)[0] == a[0] && (a + w)[1..] == a[1..] + w
  {
    assert (a + w)[1..] == a[1..] + w;
  }

  /** Marking a lower-case run followed by one capitalised word puts the mark between them. */
  lemma MarkRunThenWord(r: string, w: string, mark: char)
    requires NoUpper(r) && |w| > 0 && IsUpper(w[0]) && NoUpper(w[1..])
    ensures MarkUpper(r + w, mark) == r + [mark] + w
  {
    MarkLowerInitial(r, w, mark);
    MarkUpperWord(w, mark);
  }

  lemma TwoWordsMarked(a: string, w: string)
    requires TwoWords(a, w)
    ensures MarkUpper((a + w)[1..], ' ') == a[1..] + [' '] + w
  {
    TwoWordsLetters(a, w);
    MarkRunThenWord(a[1..], w, ' ');
  }

  /** trimStart keeps a marked run that starts with a letter, and removes the space when the run is empty. */
  lemma TrimStartRunThenWord(r: string, w: string)
    requires (r == [] || IsLetter(r[0])) && |w| > 0 && IsLetter(w[0])
    ensures r != [] ==> TrimStart(r + [' '] + w) == r + [' '] + w
    ensures r == [] ==> TrimStart(r + [' '] + w) == w
  {
    var m := r + [' '] + w;
    if r != [] {
      LetterNotWhitespace(r[0]);
      assert m[0] == r[0];
      TrimStartKeeps(m);
    } else {
      assert m == [' '] + w;
      LetterNotWhitespace(w[0]);
      TrimStartAfterSpace(m, w);
    }
  }

  /** camelToTitleCase on a lower-case first word: the upper-cased initial, then the trimmed marked rest. */
  lemma TitleOfLowerWordMarked(a: string, w: string)
    requires TwoWords(a, w) && IsLower(a[0])
    ensures CamelToTitleCase(a + w) == [UpperChar(a[0])] + TrimStart(a[1..] + [' '] + w)
  {
    TwoWordsLetters(a, w);
    TitleCaseLowerInitial(a + w);
    TwoWordsMarked(a, w);
  }

  /**
    camelToTitleCase on a lower-case word followed by a capitalised word: the first letter
    is upper-cased and a space separates the words, except when the first word is a single
    letter, where the space is lost ("hPage" gives "HPage").
  */
  lemma TitleOfLowerWordThenWord(a: string, w: string)
    requires TwoWords(a, w) && IsLower(a[0])
    ensures |a| > 1 ==> CamelToTitleCase(a + w) == [UpperChar(a[0])] + a[1..] + [' '] + w
    ensures |a| == 1 ==> CamelToTitleCase(a + w) == [UpperChar(a[0])] + w
  {
    TitleOfLowerWordMarked(a, w);
    if |a| > 1 {
      assert IsLetter(a[1]);
    }
    TrimStartRunThenWord(a[1..], w);
    AppendAssoc([UpperChar(a[0])], a[1..], [' '], w);
  }

  /** camelToTitleCase on two capitalised words separates them with a space ("HomePage" gives "Home Page"). */
  lemma TitleOfCapitalWordThenWord(a: string, w: string)
    requires TwoWords(a, w) && IsUpper(a[0])
    ensures CamelToTitleCase(a + w) == a + [' '] + w
  {
    TwoWordsLetters(a, w);
    TitleCaseUpperInitial(a + w);
    TwoWordsMarked(a, w);
    HeadAssoc(a, [' '], w);
  }

  /** The intended title case separates the two words whatever the length of the first. */
  lemma IntendedTitleOfTwoWords(a: string, w: string)
    requires TwoWords(a, w)
    ensures TitleCase(a + w) == [UpperChar(a[0])] + a[1..] + [' '] + w
  {
    TwoWordsLetters(a, w);
    TitleCaseLetters(a + w);
    TwoWordsMarked(a, w);
    AppendAssoc([UpperChar(a[0])], a[1..], [' '], w);
  }

  /** On a letters-only input with an upper-case initial, the two title cases agree. */
  lemma TitleCaseAgrees(s: string)
    requires |s| > 0 && AllLetters(s) && IsUpper(s[0])
    ensures TitleCase(s) == CamelToTitleCase(s)
  {
    CamelToTitleCaseLetters(s);
    TitleCaseLetters(s);
  }
}
