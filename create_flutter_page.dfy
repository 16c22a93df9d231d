/**
  The computations of src/createFlutterPage.ts: the page-name validator, the output file
  name, the placeholder substitution of `generatePage`, and the template lookup
  `getTemplate`. The dialogs become inputs (the chosen template, the name, whether the
  file exists and the answer to the overwrite question), and writing becomes an outcome.
*/
module CreateFlutterPage {
  import opened Wrappers
  import opened Text
  import opened Utils
  import opened PageTemplates

  // ---------------------------------------------------------------------------
  // Validator

  const NameRequired: string := "Page name is required"
  const NameFormat: string := "Page name must start with uppercase letter and contain only letters"

  /** The page names the validator accepts: an upper-case letter, then letters only. */
  predicate IsPageName(s: string) {
    |s| > 0 && IsUpper(s[0]) && AllLetters(s)
  }

  /** `[a-zA-Z]*$` matched left to right. */
  predicate MatchesLetters(s: string) {
    s == [] || (IsLetter(s[0]) && MatchesLetters(s[1..]))
  }

  /** `^[A-Z][a-zA-Z]*$` matched left to right. */
  predicate MatchesPattern(s: string) {
    |s| > 0 && IsUpper(s[0]) && MatchesLetters(s[1..])
  }

  lemma {:induction false} MatchesLettersIff(s: string)
    ensures MatchesLetters(s) <==> AllLetters(s)
  {
    if s != [] {
      MatchesLettersIff(s[1..]);
      assert forall i :: 1 <= i < |s| ==> s[i] == s[1..][i - 1];
    }
  }

  /** The regular expression accepts exactly the page names. */
  lemma MatchesPatternIff(s: string)
    ensures MatchesPattern(s) <==> IsPageName(s)
  {
    if |s| > 0 {
      MatchesLettersIff(s[1..]);
      assert forall i :: 1 <= i < |s| ==> s[i] == s[1..][i - 1];
    }
  }

  /** validateInput: `None` accepts the name, `Some(m)` rejects it with message `m`. */
  function ValidatePageName(value: string): (r: Option<string>) {
    if value == [] then Some(NameRequired)
    else if !MatchesPattern(value) then Some(NameFormat)
    else None
  }

  /**
    The empty name is required, any other name not of the form upper-case letter then
    letters gets the format message, and exactly the page names are accepted.
  */
  lemma ValidatePageNameSpec(value: string)
    ensures ValidatePageName(value) == None <==> IsPageName(value)
    ensures value == [] ==> ValidatePageName(value) == Some(NameRequired)
    ensures value != [] && !IsPageName(value) ==> ValidatePageName(value) == Some(NameFormat)
  {
    MatchesPatternIff(value);
  }

  // ---------------------------------------------------------------------------
  // File name

  /** The page's file name without extension, the value substituted for `${fileName}`. */
  function FileStem(pageName: string): (r: string) {
    CamelToSnake(pageName)
  }

  /** The file written: the snake-case stem with `.dart`. */
  function FileName(pageName: string): (r: string) {
    FileStem(pageName) + ".dart"
  }

  /**
    For a page name the first letter is lowered in place (the upper-case initial's `_` is
    the character camelToSnake drops), the file name has no upper-case letter, and it
    agrees with pascalToSnakeCase.
  */
  lemma FileNameOfPageName(pageName: string)
    requires IsPageName(pageName)
    ensures FileName(pageName) == [LowerChar(pageName[0])] + Snake(pageName[1..]) + ".dart"
    ensures FileStem(pageName) == PascalToSnakeCase(pageName)
    ensures NoUpper(FileStem(pageName))
    ensures EndsWith(FileName(pageName), ".dart")
  {
    CamelToSnakeSpec(pageName);
    PascalToSnakeCaseSpec(pageName);
  }

  // ---------------------------------------------------------------------------
  // Placeholder substitution

  /** The four values a page is rendered with. */
  datatype Values = Values(pageName: string, title: string, fileStem: string, description: string)

  function Value(v: Values, p: Placeholder): (r: string) {
    match p
    case PageName => v.pageName
    case Title => v.title
    case FileStemHole => v.fileStem
    case Description => v.description
  }

  /** The values generatePage substitutes for a page name; the title is camelToTitleCase as written. */
  function PageValues(pageName: string): (r: Values) {
    Values(pageName, CamelToTitleCase(pageName), FileStem(pageName), pageName + " page")
  }

  /** The chained global replacements of generatePage, in their order. */
  function Substitute(content: string, v: Values): (r: string) {
    var a := ReplaceAll(content, Token(PageName), v.pageName);
    var b := ReplaceAll(a, Token(Title), v.title);
    var c := ReplaceAll(b, Token(FileStemHole), v.fileStem);
    ReplaceAll(c, Token(Description), v.description)
  }

  /** The page the segments describe: literal text as is, each placeholder by its value. */
  function Render(segs: seq<Segment>, v: Values): (r: string) {
    if segs == [] then ""
    else
      var head := match segs[0] case Lit(t) => t case Hole(p) => Value(v, p);
      head + Render(segs[1..], v)
  }

  /** The segments after the replacement of one placeholder by a value. */
  function Fill(segs: seq<Segment>, p: Placeholder, value: string): (r: seq<Segment>) {
    if segs == [] then []
    else [if segs[0] == Hole(p) then Lit(value) else segs[0]] + Fill(segs[1..], p, value)
  }

  function DollarFree(v: Values): (r: bool) {
    '$' !in v.pageName && '$' !in v.title && '$' !in v.fileStem && '$' !in v.description
  }

  lemma TokenShape(p: Placeholder)
    ensures |Token(p)| > 2 && Token(p)[0] == '$' && '$' !in Token(p)[1..]
  {
  }

  /** The tokens are told apart by their third character. */
  lemma TokensDiffer(p: Placeholder, q: Placeholder)
    requires p != q
    ensures Token(p)[2] != Token(q)[2]
  {
  }

  /** Another placeholder's token is copied by the replacement of `p`. */
  lemma ReplaceOtherToken(q: Placeholder, u: string, p: Placeholder, value: string)
    requires q != p
    ensures ReplaceAll(Token(q) + u, Token(p), value) == Token(q) + ReplaceAll(u, Token(p), value)
  {
    TokenShape(p);
    TokenShape(q);
    NotAnotherToken(q, u, p);
    ReplaceAllCopiesHead(Token(q), u, Token(p), value);
  }

  /** Text that starts with another placeholder's token does not start with the token of `p`. */
  lemma NotAnotherToken(q: Placeholder, u: string, p: Placeholder)
    requires q != p
    ensures !StartsWith(Token(q) + u, Token(p))
  {
    TokenShape(p);
    TokenShape(q);
    TokensDiffer(p, q);
    assert (Token(q) + u)[2] == Token(q)[2];
  }

  /** One replacement step turns the placeholder's segments into its value and keeps the rest. */
  lemma {:induction false} ReplaceStep(segs: seq<Segment>, p: Placeholder, value: string)
    requires WellFormed(segs) && '$' !in value
    ensures ReplaceAll(Source(segs), Token(p), value) == Source(Fill(segs, p, value))
    ensures WellFormed(Fill(segs, p, value))
  {
    if segs != [] {
      var rest := Source(segs[1..]);
      assert WellFormed(segs[1..]) by {
        forall i | 0 <= i < |segs[1..]| ensures segs[1..][i] == segs[i + 1] { }
      }
      ReplaceStep(segs[1..], p, value);
      match segs[0] {
        case Lit(t) =>
          AvoidsIff(t, '$');
          TokenShape(p);
          ReplaceAllSkips(t, rest, Token(p), value);
        case Hole(q) =>
          if q == p {
            ReplaceAllHit(rest, Token(p), value);
          } else {
            ReplaceOtherToken(q, rest, p, value);
          }
      }
      var filled := Fill(segs, p, value);
      assert filled[1..] == Fill(segs[1..], p, value);
      forall i | 0 <= i < |filled| && filled[i].Lit?
        ensures Avoids(filled[i].text, '$')
      {
        if i > 0 {
          assert filled[i] == Fill(segs[1..], p, value)[i - 1];
        }
      }
    }
  }

  /** Once all four placeholders are filled, the text is the rendered page. */
  lemma {:induction false} FilledIsRendered(segs: seq<Segment>, v: Values)
    ensures Source(Fill(Fill(Fill(Fill(segs, PageName, v.pageName), Title, v.title),
                  FileStemHole, v.fileStem), Description, v.description)) == Render(segs, v)
  {
    if segs != [] {
      var f1 := Fill(segs, PageName, v.pageName);
      var f2 := Fill(f1, Title, v.title);
      var f3 := Fill(f2, FileStemHole, v.fileStem);
      FillCons(segs, PageName, v.pageName);
      FillCons(f1, Title, v.title);
      FillCons(f2, FileStemHole, v.fileStem);
      FillCons(f3, Description, v.description);
      FilledIsRendered(segs[1..], v);
    }
  }

  /** Fill works segment by segment. */
  lemma FillCons(segs: seq<Segment>, p: Placeholder, value: string)
    requires segs != []
    ensures Fill(segs, p, value) != []
    ensures Fill(segs, p, value)[0] == if segs[0] == Hole(p) then Lit(value) else segs[0]
    ensures Fill(segs, p, value)[1..] == Fill(segs[1..], p, value)
  {
  }

  /**
    On a template whose only `$`s open placeholders, and with values free of `$`, the
    chained replacement renders the page: every occurrence of each placeholder is replaced
    by its own value and all other text is kept.
  */
  lemma SubstituteRenders(segs: seq<Segment>, v: Values)
    requires WellFormed(segs) && DollarFree(v)
    ensures Substitute(Source(segs), v) == Render(segs, v)
  {
    var s1 := Fill(segs, PageName, v.pageName);
    var s2 := Fill(s1, Title, v.title);
    var s3 := Fill(s2, FileStemHole, v.fileStem);
    ReplaceStep(segs, PageName, v.pageName);
    ReplaceStep(s1, Title, v.title);
    ReplaceStep(s2, FileStemHole, v.fileStem);
    ReplaceStep(s3, Description, v.description);
    FilledIsRendered(segs, v);
  }

  /** With `$`-free values and literal text, the rendered page has no `$`. */
  lemma {:induction false} RenderDollarFree(segs: seq<Segment>, v: Values)
    requires WellFormed(segs) && DollarFree(v)
    ensures '$' !in Render(segs, v)
  {
    if segs != [] {
      assert WellFormed(segs[1..]) by {
        forall i | 0 <= i < |segs[1..]| ensures segs[1..][i] == segs[i + 1] { }
      }
      RenderDollarFree(segs[1..], v);
      if segs[0].Lit? {
        AvoidsIff(segs[0].text, '$');
      }
    }
  }

  /** A text without `$` contains no placeholder token. */
  lemma NoTokenIn(s: string, p: Placeholder)
    requires '$' !in s
    ensures !Contains(s, Token(p))
  {
    TokenShape(p);
    forall i | 0 <= i <= |s| - |Token(p)| ensures !OccursAt(s, Token(p), i) {
      assert s[i..i + |Token(p)|][0] == s[i] != '$';
    }
  }

  // ---------------------------------------------------------------------------
  // Values of a page name are free of `$`

  lemma {:induction false} MarkUpperKeepsOut(s: string, mark: char, c: char)
    requires c !in s && c != mark
    ensures c !in MarkUpper(s, mark)
  {
    if s != [] {
      assert c !in s[1..];
      MarkUpperKeepsOut(s[1..], mark, c);
    }
  }

  lemma ContainedKeepsOut(s: string, t: string, c: char)
    requires Contains(s, t) && c !in s
    ensures c !in t
  {
    var i :| 0 <= i <= |s| - |t| && OccursAt(s, t, i);
    forall k | 0 <= k < |t| ensures t[k] != c {
      assert t[k] == s[i + k];
    }
  }

  lemma LettersDollarFree(s: string)
    requires AllLetters(s)
    ensures '$' !in s
  {
    forall i | 0 <= i < |s| ensures s[i] != '$' {
      assert IsLetter(s[i]);
    }
  }

  lemma TitleDollarFree(pageName: string)
    requires IsPageName(pageName)
    ensures '$' !in TitleCase(pageName)
  {
    LettersDollarFree(pageName);
    var rest := pageName[1..];
    MarkUpperKeepsOut(rest, ' ', '$');
    var spaced := [UpperChar(pageName[0])] + MarkUpper(rest, ' ');
    ContainedKeepsOut(spaced, Trim(spaced), '$');
  }

  lemma SnakeDollarFree(pageName: string)
    requires '$' !in pageName
    ensures '$' !in Snake(pageName)
  {
    MarkUpperKeepsOut(pageName, '_', '$');
    var marked := MarkUpper(pageName, '_');
    forall i | 0 <= i < |marked| ensures LowerChar(marked[i]) != '$' {
      assert marked[i] != '$';
    }
  }

  lemma TitleAsWrittenDollarFree(pageName: string)
    requires IsPageName(pageName)
    ensures '$' !in PageValues(pageName).title
  {
    TitleDollarFree(pageName);
    PageTitleIsIntended(pageName);
  }

  lemma PageValuesDollarFree(pageName: string)
    requires IsPageName(pageName)
    ensures DollarFree(PageValues(pageName))
  {
    LettersDollarFree(pageName);
    DescriptionDollarFree(pageName);
    TitleAsWrittenDollarFree(pageName);
    SnakeDollarFree(pageName);
  }

  lemma DescriptionDollarFree(pageName: string)
    requires '$' !in pageName
    ensures '$' !in pageName + " page"
  {
    var d := pageName + " page";
    forall i | 0 <= i < |d| ensures d[i] != '$' {
      if i >= |pageName| {
        assert d[i] == " page"[i - |pageName|];
      }
    }
  }

  // ---------------------------------------------------------------------------
  // Lookup


  /** `find`: the first template with the given name. */
  function Find(ts: seq<PageTemplate>, name: string): (r: Option<nat>)
    ensures r.Some? ==> r.value < |ts| && ts[r.value].name == name
                        && forall j :: 0 <= j < r.value ==> ts[j].name != name
    ensures r.None? ==> forall j :: 0 <= j < |ts| ==> ts[j].name != name
  {
    if ts == [] then None
    else if ts[0].name == name then Some(0)
    else match Find(ts[1..], name)
      case None => None
      case Some(k) => Some(k + 1)
  }

  /** getTemplate(name). */
  function GetTemplate(name: string): (r: Option<PageTemplate>)
    ensures r.Some? ==> r.value in AvailableTemplates && r.value.name == name
    ensures r.None? <==> forall j :: 0 <= j < |AvailableTemplates| ==> AvailableTemplates[j].name != name
  {
    match Find(AvailableTemplates, name)
    case None => None
    case Some(k) => Some(AvailableTemplates[k])
  }

  // ---------------------------------------------------------------------------
  // generatePage

  datatype PageOutcome =
    | TemplateNotFound(message: string)
    | KeptExisting
    | Written(folderPath: string, fileName: string, content: string)

  /**
    generatePage: look the template up, decline to overwrite an existing file unless the
    answer is "Yes", otherwise write the rendered content. `fileExists` is the existence
    check of the target file and `answer` the button chosen in the warning (`None` when
    the warning is dismissed).
  */
  function GeneratePage(folderPath: string, pageName: string, templateName: string,
                        fileExists: bool, answer: Option<string>): (r: PageOutcome) {
    match GetTemplate(templateName)
    case None => TemplateNotFound("Template \"" + templateName + "\" not found")
    case Some(t) =>
      if fileExists && answer != Some("Yes") then KeptExisting
      else Written(folderPath, FileName(pageName), Substitute(Content(t), PageValues(pageName)))
  }

  /** A file is written exactly when the template exists and no existing file is kept. */
  lemma GeneratePageWrites(folderPath: string, pageName: string, templateName: string,
                           fileExists: bool, answer: Option<string>)
    ensures GeneratePage(folderPath, pageName, templateName, fileExists, answer).Written? <==>
      GetTemplate(templateName).Some? && (!fileExists || answer == Some("Yes"))
    ensures GetTemplate(templateName).None? ==>
      GeneratePage(folderPath, pageName, templateName, fileExists, answer)
        == TemplateNotFound("Template \"" + templateName + "\" not found")
  {
  }

  /**
    For a validated page name and an available template, the file written is the page's
    snake-case file name, its content is the template rendered with the page's values,
    and no placeholder token is left in it.
  */
  lemma GeneratePageContent(folderPath: string, pageName: string, templateName: string,
                            fileExists: bool, answer: Option<string>)
    requires IsPageName(pageName)
    requires GetTemplate(templateName).Some? && (!fileExists || answer == Some("Yes"))
    ensures var out := GeneratePage(folderPath, pageName, templateName, fileExists, answer);
      && out.Written?
      && out.fileName == FileName(pageName)
      && out.content == Render(GetTemplate(templateName).value.segments, PageValues(pageName))
      && forall p :: !Contains(out.content, Token(p))
  {
    var t := GetTemplate(templateName).value;
    AvailableTemplatesWellFormed(t);
    PageValuesDollarFree(pageName);
    SubstituteRenders(t.segments, PageValues(pageName));
    RenderDollarFree(t.segments, PageValues(pageName));
    var content := Render(t.segments, PageValues(pageName));
    forall p ensures !Contains(content, Token(p)) {
      NoTokenIn(content, p);
    }
  }

  /**
    For a validated name the title substituted is the intended title case: the space that
    camelToTitleCase loses after a lower-case initial is never at stake.
  */
  lemma PageTitleIsIntended(pageName: string)
    requires IsPageName(pageName)
    ensures PageValues(pageName).title == TitleCase(pageName)
  {
    TitleCaseAgrees(pageName);
  }
}
