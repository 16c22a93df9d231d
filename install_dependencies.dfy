/**
  installDependencies of src/installDependencies.ts: one shell command that adds every
  regular dependency of a fixed table, then every dev dependency, then fetches packages,
  sent once to a new terminal.
*/
module InstallDependencies {
  import opened Wrappers
  import opened Text

  /** One entry of the dependency table: a package name and whether it is a dev dependency. */
  datatype Dependency = Dependency(name: string, dev: bool)

  /** The table the command installs, in its order (note the trailing space of "flutter_gen_runner "). */
  const Dependencies: seq<Dependency> := [
    Dependency("equatable", false),
    Dependency("hooks_riverpod", false),
    Dependency("riverpod_generator", true),
    Dependency("flutter_hooks", false),
    Dependency("riverpod_annotation", false),
    Dependency("custom_lint", true),
    Dependency("riverpod_lint", true),
    Dependency("dio", false),
    Dependency("retrofit", false),
    Dependency("retrofit_generator", true),
    Dependency("json_annotation", false),
    Dependency("json_serializable", true),
    Dependency("freezed", true),
    Dependency("freezed_annotation", false),
    Dependency("shared_preferences", false),
    Dependency("recase", false),
    Dependency("fpdart", false),
    Dependency("fast_immutable_collections", false),
    Dependency("envied", false),
    Dependency("logger", false),
    Dependency("path_provider", false),
    Dependency("bot_toast", false),
    Dependency("collection", false),
    Dependency("dropdown_search", false),
    Dependency("file_picker", false),
    Dependency("flutter_animate", false),
    Dependency("rxdart", false),
    Dependency("settings_ui", false),
    Dependency("url_launcher", false),
    Dependency("intl", false),
    Dependency("get_it", false),
    Dependency("injectable", false),
    Dependency("injectable_generator", true),
    Dependency("google_fonts", false),
    Dependency("flutter_gen_runner ", true),
    Dependency("mocktail", false),
    Dependency("auto_route", false),
    Dependency("auto_route_generator", true),
    Dependency("build_runner", true),
    Dependency("flutter_flavorizr", true)
  ]

  const PubAdd := "flutter pub add"
  const PubGet := "flutter pub get"

  /** The three fixed pieces: "flutter pub add ", "&& flutter pub add --dev ", "&& flutter pub get --no-example". */
  const AddPrefix := PubAdd + " "
  const AddDev := "&& " + PubAdd + " --dev "
  const GetSuffix := "&& " + PubGet + " --no-example"

  /** `deps.filter(d => d.dev == dev)`. */
  function OfKind(deps: seq<Dependency>, dev: bool): (r: seq<Dependency>) {
    if deps == [] then [] else (if deps[0].dev == dev then [deps[0]] else []) + OfKind(deps[1..], dev)
  }

  /** The text one dependency adds to the command. */
  function Arg(d: Dependency): (r: string) {
    " " + d.name + " "
  }

  function Args(deps: seq<Dependency>): (r: seq<string>)
    ensures |r| == |deps|
    ensures forall i :: 0 <= i < |deps| ==> r[i] == Arg(deps[i])
  {
    seq(|deps|, i requires 0 <= i < |deps| => Arg(deps[i]))
  }

  /** The arguments of deps, in order. */
  function Section(deps: seq<Dependency>): (r: string) {
    Concat(Args(deps))
  }

  /** The command for a table: the regular dependencies, then the dev ones, then the fetch. */
  function Command(deps: seq<Dependency>): (r: string) {
    AddPrefix + Section(OfKind(deps, false)) + AddDev + Section(OfKind(deps, true)) + GetSuffix
  }

  lemma SectionAppend(deps: seq<Dependency>, d: Dependency)
    ensures Section(deps + [d]) == Section(deps) + Arg(d)
  {
    assert Args(deps + [d]) == Args(deps) + [Arg(d)];
    ConcatAppend(Args(deps), [Arg(d)]);
    assert Concat([Arg(d)]) == Arg(d);
  }

  /** The dependencies of a kind are exactly the table entries of that kind. */
  lemma {:induction false} OfKindMembers(deps: seq<Dependency>, dev: bool)
    ensures forall d :: d in OfKind(deps, dev) <==> d in deps && d.dev == dev
  {
    if deps != [] {
      OfKindMembers(deps[1..], dev);
      assert deps == [deps[0]] + deps[1..];
    }
  }

  /** Every entry of the table goes to exactly one of the two sections, once. */
  lemma {:induction false} OfKindPartition(deps: seq<Dependency>)
    ensures multiset(OfKind(deps, false)) + multiset(OfKind(deps, true)) == multiset(deps)
  {
    if deps != [] {
      OfKindPartition(deps[1..]);
      assert deps == [deps[0]] + deps[1..];
    }
  }

  /** Each dependency's argument occurs in the section that lists it. */
  lemma SectionContains(deps: seq<Dependency>, d: Dependency)
    requires d in deps
    ensures Contains(Section(deps), Arg(d))
  {
    var i :| 0 <= i < |deps| && deps[i] == d;
    ConcatContains(Args(deps), i);
  }

  /** The command starts with the regular install and ends with the package fetch. */
  lemma CommandEnds(deps: seq<Dependency>)
    ensures StartsWith(Command(deps), AddPrefix)
    ensures EndsWith(Command(deps), GetSuffix)
  {
    FramedBy(AddPrefix, Section(OfKind(deps, false)), AddDev, Section(OfKind(deps, true)), GetSuffix);
  }

  /**
    Between the two installs the regular section carries every regular dependency, and
    after the dev install the dev section carries every dev dependency, each as " <name> ".
  */
  lemma CommandSections(deps: seq<Dependency>)
    ensures forall d :: d in deps && !d.dev ==> Contains(Section(OfKind(deps, false)), Arg(d))
    ensures forall d :: d in deps && d.dev ==> Contains(Section(OfKind(deps, true)), Arg(d))
  {
    OfKindMembers(deps, false);
    OfKindMembers(deps, true);
    forall d | d in deps && !d.dev
      ensures Contains(Section(OfKind(deps, false)), Arg(d))
    {
      SectionContains(OfKind(deps, false), d);
    }
    forall d | d in deps && d.dev
      ensures Contains(Section(OfKind(deps, true)), Arg(d))
    {
      SectionContains(OfKind(deps, true), d);
    }
  }

  /** The dev section carries the argument of each dev entry, by its position in the table. */
  lemma DevEntryInSection(deps: seq<Dependency>, i: int)
    requires 0 <= i < |deps| && deps[i].dev
    ensures Contains(Section(OfKind(deps, true)), Arg(deps[i]))
  {
    OfKindMembers(deps, true);
    SectionContains(OfKind(deps, true), deps[i]);
  }

  lemma GenRunnerEntry()
    ensures Dependencies[34] == Dependency("flutter_gen_runner ", true)
    ensures Arg(Dependencies[34]) == " flutter_gen_runner  "
  {
    assert Dependencies[34] == Dependency("flutter_gen_runner ", true);
  }

  /** The shipped command passes "flutter_gen_runner " verbatim, trailing space included, as a dev dependency. */
  lemma GenRunnerKeepsItsSpace()
    ensures Contains(Section(OfKind(Dependencies, true)), " flutter_gen_runner  ")
  {
    GenRunnerEntry();
    DevEntryInSection(Dependencies, 34);
  }

  lemma AddPrefixHasAdd()
    ensures Contains(AddPrefix, PubAdd)
  {
    ContainsMiddle("", PubAdd, " ");
    assert "" + PubAdd + " " == AddPrefix;
  }

  lemma GetSuffixHasGet()
    ensures Contains(GetSuffix, PubGet)
  {
    ContainsMiddle("&& ", PubGet, " --no-example");
  }

  /** The command contains both "flutter pub add" and "flutter pub get". */
  lemma CommandMentionsAddAndGet(deps: seq<Dependency>)
    ensures Contains(Command(deps), PubAdd)
    ensures Contains(Command(deps), PubGet)
  {
    CommandEnds(deps);
    StartsWithContains(Command(deps), AddPrefix);
    EndsWithContains(Command(deps), GetSuffix);
    AddPrefixHasAdd();
    GetSuffixHasGet();
    ContainsTrans(Command(deps), AddPrefix, PubAdd);
    ContainsTrans(Command(deps), GetSuffix, PubGet);
  }

  /** Appending the next argument extends the section by one entry. */
  lemma SectionStep(head: string, deps: seq<Dependency>, i: int)
    requires 0 <= i < |deps|
    ensures head + Section(deps[..i]) + (" " + deps[i].name + " ") == head + Section(deps[..i + 1])
  {
    assert deps[..i + 1] == deps[..i] + [deps[i]];
    SectionAppend(deps[..i], deps[i]);
    AppendAssoc3(head, Section(deps[..i]), Arg(deps[i]));
  }

  /** The two loops of installDependencies that assemble the command. */
  method BuildCommand(dependencies: seq<Dependency>) returns (fullCommand: string)
    ensures fullCommand == Command(dependencies)
  {
    fullCommand := AddPrefix;
    var regular := OfKind(dependencies, false);
    for i := 0 to |regular|
      invariant fullCommand == AddPrefix + Section(regular[..i])
    {
      SectionStep(AddPrefix, regular, i);
      var command := " " + regular[i].name + " ";
      fullCommand := fullCommand + command;
    }
    assert regular[..|regular|] == regular;
    fullCommand := fullCommand + AddDev;
    var dev := OfKind(dependencies, true);
    ghost var head := fullCommand;
    for i := 0 to |dev|
      invariant fullCommand == head + Section(dev[..i])
    {
      SectionStep(head, dev, i);
      var command := " " + dev[i].name + " ";
      fullCommand := fullCommand + command;
    }
    assert dev[..|dev|] == dev;
    fullCommand := fullCommand + GetSuffix;
  }

  /** The terminal the command opens: its name, working directory, whether shown, and what it was sent. */
  datatype Terminal = Terminal(name: string, cwd: string, shown: bool, sent: seq<string>)

  /**
    What installDependencies leaves behind, given the path of the clicked resource and the
    workspace folder (None when absent): the resource's path, else the workspace folder, is
    the folder; without a folder, or with an empty path, which JavaScript treats as false,
    nothing; otherwise one shown terminal named "Flutter Tools" in that folder, sent the
    command once.
  */
  function Opened(uri: Option<string>, workspaceFolder: Option<string>, command: string): (r: Option<Terminal>)
    ensures r.None? <==> (uri.Some? && uri.value == "") || (uri.None? && (workspaceFolder.None? || workspaceFolder.value == ""))
    ensures r.Some? ==> r.value.name == "Flutter Tools" && r.value.shown && r.value.sent == [command]
    ensures uri.Some? && uri.value != "" ==> r.Some? && r.value.cwd == uri.value
    ensures uri.None? && workspaceFolder.Some? && workspaceFolder.value != "" ==> r.Some? && r.value.cwd == workspaceFolder.value
  {
    var folder := if uri.Some? then uri else workspaceFolder;
    if folder.None? || folder.value == "" then None else Some(Terminal("Flutter Tools", folder.value, true, [command]))
  }

  /** installDependencies over a dependency table: opens the terminal and sends it the command. */
  method Install(uri: Option<string>, workspaceFolder: Option<string>, dependencies: seq<Dependency>)
    returns (terminal: Option<Terminal>)
    ensures terminal == Opened(uri, workspaceFolder, Command(dependencies))
  {
    var folder := if uri.Some? then uri else workspaceFolder;
    if folder.None? || folder.value == "" {
      return None;
    }
    var t := Terminal("Flutter Tools", folder.value, false, []);
    t := t.(shown := true);
    var fullCommand := BuildCommand(dependencies);
    t := t.(sent := t.sent + [fullCommand]);
    assert t.sent == [fullCommand];
    terminal := Some(t);
  }

  /** installDependencies as shipped: the command for the fixed table. */
  method InstallShipped(uri: Option<string>, workspaceFolder: Option<string>) returns (terminal: Option<Terminal>)
    ensures terminal == Opened(uri, workspaceFolder, Command(Dependencies))
  {
    terminal := Install(uri, workspaceFolder, Dependencies);
  }
}
