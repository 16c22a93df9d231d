/**
  The page templates of src/templates/page/ and their list in src/templates/index.ts.
  A template's content is written as segments: literal text, and the placeholders
  `${pageName}`, `${title}`, `${fileName}` and `${description}` that generatePage fills in.
*/
module PageTemplates {
  import opened Text

  datatype Placeholder = PageName | Title | FileStemHole | Description

  function Token(p: Placeholder): (r: string) {
    match p
    case PageName => "${pageName}"
    case Title => "${title}"
    case FileStemHole => "${fileName}"
    case Description => "${description}"
  }

  /** A template text cut at its placeholders: literal text, or a placeholder. */
  datatype Segment = Lit(text: string) | Hole(placeholder: Placeholder)

  function SegmentText(s: Segment): (r: string) {
    match s
    case Lit(t) => t
    case Hole(p) => Token(p)
  }

  /** The template text the segments spell. */
  function Source(segs: seq<Segment>): (r: string) {
    if segs == [] then "" else SegmentText(segs[0]) + Source(segs[1..])
  }

  /** Literal text carries no `$`, so every `$` of the template opens a placeholder. */
  predicate WellFormed(segs: seq<Segment>) {
    forall i :: 0 <= i < |segs| ==> segs[i].Lit? ==> Avoids(segs[i].text, '$')
  }

  datatype PageTemplate = PageTemplate(name: string, segments: seq<Segment>)

  /** The template text, the `content` of a page template. */
  function Content(t: PageTemplate): (r: string) {
    Source(t.segments)
  }

  // The literal text of the three page templates, in the pieces they share. Each piece
  // is written line by line, in short chunks, and its freedom from `$` is proved chunk
  // by chunk.
  const MaterialImport: string := "\n\nimport " + "'package:flutter/" + "material.dart';\n"
  const HooksImport: string := "import " + "'package:flutter_hooks/" + "flutter_hooks.dart';\n"
  const ClassKeyword: string := "\nclass "
  const SuperKey: string := "({super.key});" + "\n\n"
  const BuildOpening: string :=
    "  @override\n" + "  Widget build(" + "BuildContext context) {\n"
    + "    return Scaffold(\n" + "      appBar: AppBar(\n" + "        title: "
    + "const Text('"
  const TitleToBody: string :=
    "'),\n" + "      ),\n" + "      body: " + "const Center(\n" + "        child: Text(\n"
    + "          '"
  const WorksClose: string :=
    " works!',\n" + "          style: " + "TextStyle(" + "fontSize: 24),\n"
    + "        ),\n" + "      ),\n" + "    );\n" + "  }\n" + "}\n"
  const StatelessHeader: string := " extends " + "StatelessWidget {\n" + "  const "
  const StatefulHeader: string := " extends " + "StatefulWidget {\n" + "  const "
  const HookHeader: string := "  extends " + "HookWidget{\n" + "  const "
  const CreateStateOpen: string := "  @override\n" + "  State<"
  const CreateStateCall: string := "> createState() " + "=> _"
  const StateClassOpen: string := "State();\n}\n\n" + "class _"
  const StateExtends: string := "State extends " + "State<"
  const StateBodyOpen: string := "> {\n"

  const StatelessPage: PageTemplate := PageTemplate("Stateless Page", [
    Lit(MaterialImport + ClassKeyword), Hole(PageName),
    Lit(StatelessHeader), Hole(PageName),
    Lit(SuperKey + BuildOpening), Hole(Title), Lit(TitleToBody), Hole(Title), Lit(WorksClose)
  ])

  const StatefulPage: PageTemplate := PageTemplate("Stateful Page", [
    Lit(MaterialImport + ClassKeyword), Hole(PageName),
    Lit(StatefulHeader), Hole(PageName),
    Lit(SuperKey + CreateStateOpen), Hole(PageName),
    Lit(CreateStateCall), Hole(PageName),
    Lit(StateClassOpen), Hole(PageName),
    Lit(StateExtends), Hole(PageName),
    Lit(StateBodyOpen + BuildOpening), Hole(Title), Lit(TitleToBody), Hole(Title), Lit(WorksClose)
  ])

  const StatelessHookPage: PageTemplate := PageTemplate("Stateless Hook Page", [
    Lit(MaterialImport + HooksImport + ClassKeyword), Hole(PageName),
    Lit(HookHeader), Hole(PageName),
    Lit(SuperKey + BuildOpening), Hole(Title), Lit(TitleToBody), Hole(Title), Lit(WorksClose + "\n")
  ])

  /** getAvailableTemplates, in its order. */
  const AvailableTemplates: seq<PageTemplate> := [StatelessPage, StatefulPage, StatelessHookPage]

  lemma ImportsPlain()
    ensures Avoids(MaterialImport, '$')
    ensures Avoids(HooksImport, '$')
    ensures Avoids(ClassKeyword, '$')
    ensures Avoids(SuperKey, '$')
    ensures Avoids(StateBodyOpen, '$')
  {
    {
      var c0, c1, c2 := "\n\nimport ", "'package:flutter/", "material.dart';\n";
      assert Avoids(c0, '$') && Avoids(c1, '$') && Avoids(c2, '$');
      AvoidsAppend(c0, c1, '$');
      AvoidsAppend(c0 + c1, c2, '$');
    }
    {
      var c0, c1, c2 := "import ", "'package:flutter_hooks/", "flutter_hooks.dart';\n";
      assert Avoids(c0, '$') && Avoids(c1, '$') && Avoids(c2, '$');
      AvoidsAppend(c0, c1, '$');
      AvoidsAppend(c0 + c1, c2, '$');
    }
    assert Avoids("\nclass ", '$');
    {
      var c0, c1 := "({super.key});", "\n\n";
      assert Avoids(c0, '$') && Avoids(c1, '$');
      AvoidsAppend(c0, c1, '$');
    }
    assert Avoids("> {\n", '$');
  }

  lemma BuildOpeningPlain()
    ensures Avoids(BuildOpening, '$')
  {
    var c0 := "  @override\n";
    var c1 := "  Widget build(";
    var c2 := "BuildContext context) {\n";
    var c3 := "    return Scaffold(\n";
    var c4 := "      appBar: AppBar(\n";
    var c5 := "        title: ";
    var c6 := "const Text('";
    assert Avoids(c0, '$');
    assert Avoids(c1, '$');
    assert Avoids(c2, '$');
    assert Avoids(c3, '$');
    assert Avoids(c4, '$');
    assert Avoids(c5, '$');
    assert Avoids(c6, '$');
    AvoidsAppend(c0, c1, '$');
    AvoidsAppend(c0 + c1, c2, '$');
    AvoidsAppend(c0 + c1 + c2, c3, '$');
    AvoidsAppend(c0 + c1 + c2 + c3, c4, '$');
    AvoidsAppend(c0 + c1 + c2 + c3 + c4, c5, '$');
    AvoidsAppend(c0 + c1 + c2 + c3 + c4 + c5, c6, '$');
  }

  lemma TitleToBodyPlain()
    ensures Avoids(TitleToBody, '$')
  {
    var c0 := "'),\n";
    var c1 := "      ),\n";
    var c2 := "      body: ";
    var c3 := "const Center(\n";
    var c4 := "        child: Text(\n";
    var c5 := "          '";
    assert Avoids(c0, '$');
    assert Avoids(c1, '$');
    assert Avoids(c2, '$');
    assert Avoids(c3, '$');
    assert Avoids(c4, '$');
    assert Avoids(c5, '$');
    AvoidsAppend(c0, c1, '$');
    AvoidsAppend(c0 + c1, c2, '$');
    AvoidsAppend(c0 + c1 + c2, c3, '$');
    AvoidsAppend(c0 + c1 + c2 + c3, c4, '$');
    AvoidsAppend(c0 + c1 + c2 + c3 + c4, c5, '$');
  }

  lemma WorksClosePlain()
    ensures Avoids(WorksClose, '$')
  {
    var c0 := " works!',\n";
    var c1 := "          style: ";
    var c2 := "TextStyle(";
    var c3 := "fontSize: 24),\n";
    var c4 := "        ),\n";
    var c5 := "      ),\n";
    var c6 := "    );\n";
    var c7 := "  }\n";
    var c8 := "}\n";
    assert Avoids(c0, '$');
    assert Avoids(c1, '$');
    assert Avoids(c2, '$');
    assert Avoids(c3, '$');
    assert Avoids(c4, '$');
    assert Avoids(c5, '$');
    assert Avoids(c6, '$');
    assert Avoids(c7, '$');
    assert Avoids(c8, '$');
    AvoidsAppend(c0, c1, '$');
    AvoidsAppend(c0 + c1, c2, '$');
    AvoidsAppend(c0 + c1 + c2, c3, '$');
    AvoidsAppend(c0 + c1 + c2 + c3, c4, '$');
    AvoidsAppend(c0 + c1 + c2 + c3 + c4, c5, '$');
    AvoidsAppend(c0 + c1 + c2 + c3 + c4 + c5, c6, '$');
    AvoidsAppend(c0 + c1 + c2 + c3 + c4 + c5 + c6, c7, '$');
    AvoidsAppend(c0 + c1 + c2 + c3 + c4 + c5 + c6 + c7, c8, '$');
  }

  lemma HeadersPlain()
    ensures Avoids(StatelessHeader, '$') && Avoids(StatefulHeader, '$') && Avoids(HookHeader, '$')
  {
    {
      var c0, c1, c2 := " extends ", "StatelessWidget {\n", "  const ";
      assert Avoids(c0, '$') && Avoids(c1, '$') && Avoids(c2, '$');
      AvoidsAppend(c0, c1, '$');
      AvoidsAppend(c0 + c1, c2, '$');
    }
    {
      var c0, c1, c2 := " extends ", "StatefulWidget {\n", "  const ";
      assert Avoids(c0, '$') && Avoids(c1, '$') && Avoids(c2, '$');
      AvoidsAppend(c0, c1, '$');
      AvoidsAppend(c0 + c1, c2, '$');
    }
    {
      var c0, c1, c2 := "  extends ", "HookWidget{\n", "  const ";
      assert Avoids(c0, '$') && Avoids(c1, '$') && Avoids(c2, '$');
      AvoidsAppend(c0, c1, '$');
      AvoidsAppend(c0 + c1, c2, '$');
    }
  }

  lemma StatePartsPlain()
    ensures Avoids(CreateStateOpen, '$')
    ensures Avoids(CreateStateCall, '$')
    ensures Avoids(StateClassOpen, '$')
    ensures Avoids(StateExtends, '$')
  {
    {
      var c0, c1 := "  @override\n", "  State<";
      assert Avoids(c0, '$') && Avoids(c1, '$');
      AvoidsAppend(c0, c1, '$');
    }
    {
      var c0, c1 := "> createState() ", "=> _";
      assert Avoids(c0, '$') && Avoids(c1, '$');
      AvoidsAppend(c0, c1, '$');
    }
    {
      var c0, c1 := "State();\n}\n\n", "class _";
      assert Avoids(c0, '$') && Avoids(c1, '$');
      AvoidsAppend(c0, c1, '$');
    }
    {
      var c0, c1 := "State extends ", "State<";
      assert Avoids(c0, '$') && Avoids(c1, '$');
      AvoidsAppend(c0, c1, '$');
    }
  }

  lemma StatelessPageWellFormed()
    ensures WellFormed(StatelessPage.segments)
  {
    ImportsPlain();
    BuildOpeningPlain();
    TitleToBodyPlain();
    WorksClosePlain();
    HeadersPlain();
    AvoidsAppend(MaterialImport, ClassKeyword, '$');
    AvoidsAppend(SuperKey, BuildOpening, '$');
  }

  lemma StatefulPageWellFormed()
    ensures WellFormed(StatefulPage.segments)
  {
    ImportsPlain();
    BuildOpeningPlain();
    TitleToBodyPlain();
    WorksClosePlain();
    HeadersPlain();
    StatePartsPlain();
    AvoidsAppend(MaterialImport, ClassKeyword, '$');
    AvoidsAppend(SuperKey, CreateStateOpen, '$');
    AvoidsAppend(StateBodyOpen, BuildOpening, '$');
  }

  lemma StatelessHookPageWellFormed()
    ensures WellFormed(StatelessHookPage.segments)
  {
    ImportsPlain();
    BuildOpeningPlain();
    TitleToBodyPlain();
    WorksClosePlain();
    HeadersPlain();
    AvoidsAppend(MaterialImport, HooksImport, '$');
    AvoidsAppend(MaterialImport + HooksImport, ClassKeyword, '$');
    AvoidsAppend(SuperKey, BuildOpening, '$');
    AvoidsAppend(WorksClose, "\n", '$');
  }

  /** In each available template, every `$` opens a placeholder. */
  lemma AvailableTemplatesWellFormed(t: PageTemplate)
    requires t in AvailableTemplates
    ensures WellFormed(t.segments)
  {
    StatelessPageWellFormed();
    StatefulPageWellFormed();
    StatelessHookPageWellFormed();
  }
}
