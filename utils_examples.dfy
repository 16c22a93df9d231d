/**
  Worked inputs for the case conversions of src/utils/utils.ts, each derived from the
  general lemmas of module Utils.
*/
module UtilsExamples {
  import opened Text
  import opened Utils

  lemma MarkLowerHomePage()
    ensures MarkUpper("homePage", '_') == "home_Page"
  {
    assert "home" + "Page" == "homePage";
    MarkRunThenWord("home", "Page", '_');
    assert "home" + ['_'] + "Page" == "home_Page";
  }

  lemma MarkCapitalHomePage()
    ensures MarkUpper("HomePage", '_') == "_Home_Page"
  {
    assert "Home" + "Page" == "HomePage";
    MarkUpperAppend("Home", "Page", '_');
    MarkUpperWord("Home", '_');
    MarkUpperWord("Page", '_');
    assert ['_'] + "Home" + (['_'] + "Page") == "_Home_Page";
  }

  lemma LowerHomePage()
    ensures ToLower("home_Page") == "home_page"
    ensures ToLower("_Home_Page") == "_home_page"
  {
  }

  lemma SnakeHomePage()
    ensures Snake("homePage") == "home_page"
    ensures Snake("HomePage") == "_home_page"
  {
    MarkLowerHomePage();
    MarkCapitalHomePage();
    LowerHomePage();
  }

  /** A lower-case initial is lost: "homePage" becomes "ome_page", while "HomePage" becomes "home_page". */
  lemma CamelToSnakeExamples()
    ensures CamelToSnake("homePage") == "ome_page"
    ensures CamelToSnake("HomePage") == "home_page"
  {
    SnakeHomePage();
    assert "home_page"[1..] == "ome_page";
    assert "_home_page"[1..] == "home_page";
  }

  lemma MarkPage()
    ensures MarkUpper("Page", ' ') == " Page"
  {
  }

  lemma TrimPage()
    ensures TrimStart(" Page") == "Page"
  {
    TrimStartSkip(' ', "Page");
    assert [' '] + "Page" == " Page";
    TrimStartKeeps("Page");
  }

  lemma TitleOfHPage()
    ensures CamelToTitleCase("hPage") == ['H'] + "Page"
  {
    TitleCaseLowerInitial("hPage");
    MarkPage();
    TrimPage();
    assert "hPage"[1..] == "Page";
  }

  lemma IntendedTitleOfHPage()
    ensures TitleCase("hPage") == ['H'] + " Page"
  {
    TitleCaseLetters("hPage");
    MarkPage();
    assert "hPage"[1..] == "Page";
  }

  /** The lost space: "hPage" gives "HPage", where the intended title case gives "H Page". */
  lemma CamelToTitleCaseDropsSpace()
    ensures CamelToTitleCase("hPage") == "HPage"
    ensures TitleCase("hPage") == "H Page"
  {
    TitleOfHPage();
    IntendedTitleOfHPage();
    SpellHPage();
  }

  lemma SpellHPage()
    ensures ['H'] + "Page" == "HPage"
    ensures ['H'] + " Page" == "H Page"
  {
  }
}
