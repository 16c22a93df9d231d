/**
  src/addFlavorizrSupport.ts: building the flutter_flavorizr configuration (flavorizr.yaml)
  from the platforms a Flutter project has, merging the default dev/staging/prod flavors
  into an existing configuration, and adding one named flavor.
*/
module Flavorizr {
  import opened Wrappers
  import opened Text
  import opened Yaml

  // Platform detection

  /** The platform directories supportedPlatformsForFlutter looks for, in the order it tests them. */
  const PlatformOrder: seq<string> := ["android", "ios", "windows", "linux", "macos", "web"]

  /** Position of a platform in PlatformOrder; 6 for any other name. */
  function Rank(p: string): (r: nat) {
    if p == "android" then 0
    else if p == "ios" then 1
    else if p == "windows" then 2
    else if p == "linux" then 3
    else if p == "macos" then 4
    else if p == "web" then 5
    else 6
  }

  /** The names of ps whose directory exists, in the order of ps. */
  function Present(ps: seq<string>, dirs: set<string>): (r: seq<string>) {
    if ps == [] then [] else (if ps[0] in dirs then [ps[0]] else []) + Present(ps[1..], dirs)
  }

  /** The platforms of a project whose root holds the directories dirs. */
  function SupportedPlatforms(dirs: set<string>): (r: seq<string>) {
    Present(PlatformOrder, dirs)
  }

  predicate StrictlyRanked(ps: seq<string>) {
    forall i, j :: 0 <= i < j < |ps| ==> Rank(ps[i]) < Rank(ps[j])
  }

  lemma {:induction false} PresentMembers(ps: seq<string>, dirs: set<string>)
    ensures forall p :: p in Present(ps, dirs) <==> p in ps && p in dirs
  {
    if ps != [] {
      PresentMembers(ps[1..], dirs);
      assert ps == [ps[0]] + ps[1..];
    }
  }

  lemma {:induction false} PresentRanked(ps: seq<string>, dirs: set<string>)
    requires StrictlyRanked(ps)
    ensures StrictlyRanked(Present(ps, dirs))
  {
    if ps != [] {
      var tail := Present(ps[1..], dirs);
      PresentRanked(ps[1..], dirs);
      PresentMembers(ps[1..], dirs);
      forall q | q in tail
        ensures Rank(ps[0]) < Rank(q)
      {
        var k :| 0 <= k < |ps[1..]| && ps[1..][k] == q;
        assert ps[k + 1] == q;
      }
    }
  }

  /**
    The supported platforms are exactly the existing platform directories, each once, in
    the order android, ios, windows, linux, macos, web.
  */
  lemma SupportedPlatformsSpec(dirs: set<string>)
    ensures forall p :: p in SupportedPlatforms(dirs) <==> p in PlatformOrder && p in dirs
    ensures StrictlyRanked(SupportedPlatforms(dirs))
  {
    PresentMembers(PlatformOrder, dirs);
    assert StrictlyRanked(PlatformOrder) by {
      assert forall i :: 0 <= i < |PlatformOrder| ==> Rank(PlatformOrder[i]) == i;
    }
    PresentRanked(PlatformOrder, dirs);
  }

  lemma {:induction false} PresentSnoc(ps: seq<string>, p: string, dirs: set<string>)
    ensures Present(ps + [p], dirs) == Present(ps, dirs) + if p in dirs then [p] else []
  {
    if ps != [] {
      assert (ps + [p])[1..] == ps[1..] + [p];
      PresentSnoc(ps[1..], p, dirs);
    } else {
      assert ps + [p] == [p];
    }
  }

  /** Testing the k-th platform of PlatformOrder after the ones before it. */
  lemma TestStep(found: seq<string>, k: nat, dirs: set<string>)
    requires k < |PlatformOrder| && found == Present(PlatformOrder[..k], dirs)
    ensures PlatformOrder[k] in dirs ==> found + [PlatformOrder[k]] == Present(PlatformOrder[..k + 1], dirs)
    ensures PlatformOrder[k] !in dirs ==> found == Present(PlatformOrder[..k + 1], dirs)
  {
    assert PlatformOrder[..k + 1] == PlatformOrder[..k] + [PlatformOrder[k]];
    PresentSnoc(PlatformOrder[..k], PlatformOrder[k], dirs);
  }

  /** supportedPlatformsForFlutter: one existence test per platform, each appending its name. */
  method SupportedPlatformsForFlutter(dirs: set<string>) returns (supportedPlatforms: seq<string>)
    ensures supportedPlatforms == SupportedPlatforms(dirs)
  {
    supportedPlatforms := [];
    assert PlatformOrder[..0] == [];
    TestStep(supportedPlatforms, 0, dirs);
    if "android" in dirs {
      supportedPlatforms := supportedPlatforms + ["android"];
    }
    TestStep(supportedPlatforms, 1, dirs);
    if "ios" in dirs {
      supportedPlatforms := supportedPlatforms + ["ios"];
    }
    TestStep(supportedPlatforms, 2, dirs);
    if "windows" in dirs {
      supportedPlatforms := supportedPlatforms + ["windows"];
    }
    TestStep(supportedPlatforms, 3, dirs);
    if "linux" in dirs {
      supportedPlatforms := supportedPlatforms + ["linux"];
    }
    TestStep(supportedPlatforms, 4, dirs);
    if "macos" in dirs {
      supportedPlatforms := supportedPlatforms + ["macos"];
    }
    TestStep(supportedPlatforms, 5, dirs);
    if "web" in dirs {
      supportedPlatforms := supportedPlatforms + ["web"];
    }
    assert PlatformOrder[..6] == PlatformOrder;
  }

  // Flavors

  datatype AndroidFlavor = AndroidFlavor(applicationId: string, firebaseConfig: string, icon: string)
  datatype IosFlavor = IosFlavor(bundleId: string, firebaseConfig: string, icon: string)

  /** One entry of the flavors map: the app name and the per-platform settings, null when absent. */
  datatype Flavor = Flavor(appName: string, android: Option<AndroidFlavor>, ios: Option<IosFlavor>)

  function IconPath(name: string): (r: string) {
    "assets/icons/" + name + "/ic_launcher.png"
  }

  /** The flavor createFlavor builds for name. */
  function FlavorFor(name: string, platforms: seq<string>): (r: Flavor) {
    Flavor(
      name,
      if "android" in platforms then
        Some(AndroidFlavor("YOUR_APPLICATION_ID." + name, ".firebase/" + name + "/google-services.json", IconPath(name)))
      else None,
      if "ios" in platforms then
        Some(IosFlavor("YOUR_BUNDLE_ID." + name, ".firebase/" + name + "/GoogleService-Info.plist", IconPath(name)))
      else None)
  }

  /** createFlavor: starts from a flavor with both platforms null and fills in each supported one. */
  method CreateFlavor(name: string, supportedPlatforms: seq<string>) returns (flavor: Flavor)
    ensures flavor == FlavorFor(name, supportedPlatforms)
    ensures flavor.appName == name
    ensures flavor.android.Some? <==> "android" in supportedPlatforms
    ensures flavor.android.Some? ==>
      && flavor.android.value.applicationId == "YOUR_APPLICATION_ID." + name
      && flavor.android.value.firebaseConfig == ".firebase/" + name + "/google-services.json"
      && flavor.android.value.icon == "assets/icons/" + name + "/ic_launcher.png"
    ensures flavor.ios.Some? <==> "ios" in supportedPlatforms
    ensures flavor.ios.Some? ==>
      && flavor.ios.value.bundleId == "YOUR_BUNDLE_ID." + name
      && flavor.ios.value.firebaseConfig == ".firebase/" + name + "/GoogleService-Info.plist"
      && flavor.ios.value.icon == "assets/icons/" + name + "/ic_launcher.png"
  {
    flavor := Flavor(name, None, None);
    if "android" in supportedPlatforms {
      flavor := flavor.(android := Some(AndroidFlavor(
        "YOUR_APPLICATION_ID." + name,
        ".firebase/" + name + "/google-services.json",
        "assets/icons/" + name + "/ic_launcher.png")));
    }
    if "ios" in supportedPlatforms {
      flavor := flavor.(ios := Some(IosFlavor(
        "YOUR_BUNDLE_ID." + name,
        ".firebase/" + name + "/GoogleService-Info.plist",
        "assets/icons/" + name + "/ic_launcher.png")));
    }
  }

  /** The three flavors a default configuration carries. */
  function DefaultFlavors(platforms: seq<string>): (r: map<string, Flavor>) {
    map["dev" := FlavorFor("dev", platforms),
        "staging" := FlavorFor("staging", platforms),
        "prod" := FlavorFor("prod", platforms)]
  }

  // The default configuration

  const BaseInstructions: seq<string> := ["assets:download", "assets:extract", "ide:config"]

  const AndroidInstructions: seq<string> := [
    "android:flavorizrGradle", "android:buildGradle", "android:androidManifest",
    "android:dummyAssets", "android:icons"]

  const IosInstructions: seq<string> := [
    "ios:podfile", "ios:xcconfig", "ios:buildTargets", "ios:schema",
    "ios:dummyAssets", "ios:icons", "ios:plist", "ios:launchScreen"]

  const MacosInstructions: seq<string> := [
    "macos:podfile", "macos:xcconfig", "macos:configs", "macos:buildTargets",
    "macos:schema", "macos:dummyAssets", "macos:icons", "macos:plist"]

  const DevelopmentTeam := "YOUR DEVELOPMENT TEAM ID"

  datatype AndroidApp = AndroidApp(flavorDimensions: string)
  datatype BuildSettings = BuildSettings(developmentTeam: string)

  /** The app section: per-platform settings, null for a platform the project lacks. */
  datatype AppConfig = AppConfig(android: Option<AndroidApp>, ios: Option<BuildSettings>, macos: Option<BuildSettings>)

  /** The configuration getDefaultContent returns; flavors is null when not requested. */
  datatype Content = Content(app: AppConfig, ide: string, instructions: seq<string>, flavors: Option<map<string, Flavor>>)

  /** The instruction list for the given firebase choice and platforms. */
  function Instructions(firebase: bool, platforms: seq<string>): (r: seq<string>) {
    BaseInstructions
    + (if firebase then ["firebase:config"] else [])
    + (if "android" in platforms then AndroidInstructions else [])
    + (if "ios" in platforms then IosInstructions else [])
    + (if "macos" in platforms then MacosInstructions else [])
    + ["assets:clean"]
  }

  /** The configuration getDefaultContent builds for a project with directories dirs. */
  function DefaultContent(firebase: bool, dirs: set<string>, withFlavors: bool): (r: Content) {
    var platforms := SupportedPlatforms(dirs);
    Content(
      AppConfig(
        if "android" in platforms then Some(AndroidApp("app")) else None,
        if "ios" in platforms then Some(BuildSettings(DevelopmentTeam)) else None,
        if "macos" in platforms then Some(BuildSettings(DevelopmentTeam)) else None),
      "vscode",
      Instructions(firebase, platforms),
      if withFlavors then Some(DefaultFlavors(platforms)) else None)
  }

  /**
    getDefaultContent: the app section and the instruction list are built up one platform
    at a time, then the three default flavors are added when asked for.
  */
  method GetDefaultContent(supportFirebase: bool, dirs: set<string>, withFlavors: bool) returns (content: Content)
    ensures content == DefaultContent(supportFirebase, dirs, withFlavors)
  {
    var app := AppConfig(None, None, None);
    var instructions := BaseInstructions;
    if supportFirebase {
      instructions := instructions + ["firebase:config"];
    }
    ghost var sofar := BaseInstructions + if supportFirebase then ["firebase:config"] else [];
    assert instructions == sofar;
    var supportedPlatforms := SupportedPlatformsForFlutter(dirs);
    if "android" in supportedPlatforms {
      app := app.(android := Some(AndroidApp("app")));
      instructions := instructions + AndroidInstructions;
    }
    sofar := sofar + if "android" in supportedPlatforms then AndroidInstructions else [];
    assert instructions == sofar;
    if "ios" in supportedPlatforms {
      app := app.(ios := Some(BuildSettings(DevelopmentTeam)));
      instructions := instructions + IosInstructions;
    }
    sofar := sofar + if "ios" in supportedPlatforms then IosInstructions else [];
    assert instructions == sofar;
    if "macos" in supportedPlatforms {
      app := app.(macos := Some(BuildSettings(DevelopmentTeam)));
      instructions := instructions + MacosInstructions;
    }
    sofar := sofar + if "macos" in supportedPlatforms then MacosInstructions else [];
    assert instructions == sofar;
    instructions := instructions + ["assets:clean"];
    assert instructions == Instructions(supportFirebase, supportedPlatforms);
    content := Content(app, "vscode", instructions, None);
    if withFlavors {
      var dev := CreateFlavor("dev", supportedPlatforms);
      var staging := CreateFlavor("staging", supportedPlatforms);
      var prod := CreateFlavor("prod", supportedPlatforms);
      content := content.(flavors := Some(map["dev" := dev, "staging" := staging, "prod" := prod]));
    }
  }

  /** The stage an instruction belongs to: base, firebase, android, ios, macos, cleanup. */
  function Stage(x: string): (r: nat) {
    if x == "firebase:config" then 1
    else if StartsWith(x, "android:") then 2
    else if StartsWith(x, "ios:") then 3
    else if StartsWith(x, "macos:") then 4
    else if x == "assets:clean" then 5
    else 0
  }

  predicate StageOrdered(xs: seq<string>) {
    forall i, j :: 0 <= i < j < |xs| ==> Stage(xs[i]) <= Stage(xs[j])
  }

  /** Every instruction of xs belongs to stage s. */
  predicate AllInStage(xs: seq<string>, s: nat) {
    forall i :: 0 <= i < |xs| ==> Stage(xs[i]) == s
  }

  lemma NotPrefix(s: string, p: string, i: nat)
    requires i < |s| && i < |p| && s[i] != p[i]
    ensures !StartsWith(s, p)
  {
    if |p| <= |s| {
      assert s[..|p|][i] != p[i];
    }
  }

  /** The stage of an instruction follows from its namespace, the text before the colon. */
  lemma StageOfNamespace(x: string)
    ensures StartsWith(x, "android:") ==> Stage(x) == 2
    ensures StartsWith(x, "ios:") ==> Stage(x) == 3
    ensures StartsWith(x, "macos:") ==> Stage(x) == 4
  {
    if StartsWith(x, "ios:") || StartsWith(x, "macos:") {
      assert x[0] == 'i' || x[0] == 'm';
      NotPrefix(x, "android:", 0);
    }
    if StartsWith(x, "macos:") {
      assert x[0] == 'm';
      NotPrefix(x, "ios:", 0);
    }
    if StartsWith(x, "android:") || StartsWith(x, "ios:") || StartsWith(x, "macos:") {
      assert x[0] != 'f';
      assert x != "firebase:config";
    }
  }

  lemma IosStages()
    ensures AllInStage(IosInstructions, 3)
  {
    forall i | 0 <= i < |IosInstructions|
      ensures Stage(IosInstructions[i]) == 3
    {
      assert IosInstructions[i][..4] == "ios:";
      StageOfNamespace(IosInstructions[i]);
    }
  }

  lemma MacosStages()
    ensures AllInStage(MacosInstructions, 4)
  {
    forall i | 0 <= i < |MacosInstructions|
      ensures Stage(MacosInstructions[i]) == 4
    {
      assert MacosInstructions[i][..6] == "macos:";
      StageOfNamespace(MacosInstructions[i]);
    }
  }

  lemma BaseStages()
    ensures AllInStage(BaseInstructions, 0)
    ensures AllInStage(["assets:clean"], 5)
  {
    forall i | 0 <= i < |BaseInstructions|
      ensures Stage(BaseInstructions[i]) == 0
    {
      var x := BaseInstructions[i];
      assert x[0] != 'f' && x[0] != 'm';
      NotPrefix(x, "macos:", 0);
      if x[0] == 'a' {
        NotPrefix(x, "android:", 1);
        NotPrefix(x, "ios:", 0);
      } else {
        NotPrefix(x, "android:", 0);
        NotPrefix(x, "ios:", 1);
      }
    }
    var clean := "assets:clean";
    NotPrefix(clean, "android:", 1);
    NotPrefix(clean, "ios:", 0);
    NotPrefix(clean, "macos:", 0);
  }

  lemma StagesOfGroups()
    ensures AllInStage(BaseInstructions, 0)
    ensures AllInStage(["firebase:config"], 1)
    ensures AllInStage(AndroidInstructions, 2)
    ensures AllInStage(IosInstructions, 3)
    ensures AllInStage(MacosInstructions, 4)
    ensures AllInStage(["assets:clean"], 5)
  {
    IosStages();
    MacosStages();
    BaseStages();
  }

  /** Appending a group of a stage no earlier than every stage so far keeps the order. */
  lemma AppendStage(xs: seq<string>, g: seq<string>, s: nat)
    requires StageOrdered(xs)
    requires forall i :: 0 <= i < |xs| ==> Stage(xs[i]) <= s
    requires AllInStage(g, s)
    ensures StageOrdered(xs + g)
    ensures forall i :: 0 <= i < |xs + g| ==> Stage((xs + g)[i]) <= s
  {
  }

  /**
    The instruction list runs base, firebase, android, ios, macos, cleanup, never going back
    to an earlier stage; it starts with the three base steps and ends with assets:clean.
  */
  lemma InstructionsOrdered(firebase: bool, platforms: seq<string>)
    ensures StageOrdered(Instructions(firebase, platforms))
    ensures Instructions(firebase, platforms)[..3] == BaseInstructions
    ensures Instructions(firebase, platforms)[|Instructions(firebase, platforms)| - 1] == "assets:clean"
  {
    StagesOfGroups();
    var f: seq<string> := if firebase then ["firebase:config"] else [];
    var a := if "android" in platforms then AndroidInstructions else [];
    var i := if "ios" in platforms then IosInstructions else [];
    var m := if "macos" in platforms then MacosInstructions else [];
    PartsOrdered(BaseInstructions, f, a, i, m, ["assets:clean"]);
  }

  /** Six parts of stages 0 to 5 (the optional ones possibly empty), in stage order. */
  lemma PartsOrdered(b: seq<string>, f: seq<string>, a: seq<string>, i: seq<string>, m: seq<string>, c: seq<string>)
    requires AllInStage(b, 0) && AllInStage(f, 1) && AllInStage(a, 2)
    requires AllInStage(i, 3) && AllInStage(m, 4) && AllInStage(c, 5)
    ensures StageOrdered(b + f + a + i + m + c)
  {
    AppendStage(b, f, 1);
    AppendStage(b + f, a, 2);
    AppendStage(b + f + a, i, 3);
    AppendStage(b + f + a + i, m, 4);
    AppendStage(b + f + a + i + m, c, 5);
  }

  /** Each optional group is in the list exactly when its platform (or firebase) is supported. */
  lemma InstructionsMembers(firebase: bool, platforms: seq<string>)
    ensures "firebase:config" in Instructions(firebase, platforms) <==> firebase
    ensures forall x :: x in AndroidInstructions ==> (x in Instructions(firebase, platforms) <==> "android" in platforms)
    ensures forall x :: x in IosInstructions ==> (x in Instructions(firebase, platforms) <==> "ios" in platforms)
    ensures forall x :: x in MacosInstructions ==> (x in Instructions(firebase, platforms) <==> "macos" in platforms)
  {
    StagesOfGroups();
    var r := Instructions(firebase, platforms);
    var f: seq<string> := if firebase then ["firebase:config"] else [];
    var a := if "android" in platforms then AndroidInstructions else [];
    var i := if "ios" in platforms then IosInstructions else [];
    var m := if "macos" in platforms then MacosInstructions else [];
    assert r == BaseInstructions + f + a + i + m + ["assets:clean"];
    // A member of r lies in one of the six parts, and the parts have distinct stages.
    forall x | x in r
      ensures Stage(x) == 1 ==> firebase
      ensures Stage(x) == 2 ==> "android" in platforms
      ensures Stage(x) == 3 ==> "ios" in platforms
      ensures Stage(x) == 4 ==> "macos" in platforms
    {
      assert x in BaseInstructions || x in f || x in a || x in i || x in m || x == "assets:clean";
    }
  }

  /**
    The default configuration: ide is vscode, each app platform section is present exactly
    when that platform directory exists, and the flavors are dev, staging and prod when
    requested and null otherwise.
  */
  lemma DefaultContentFields(firebase: bool, dirs: set<string>, withFlavors: bool)
    ensures var c := DefaultContent(firebase, dirs, withFlavors);
      && c.ide == "vscode"
      && (c.app.android.Some? <==> "android" in dirs)
      && (c.app.ios.Some? <==> "ios" in dirs)
      && (c.app.macos.Some? <==> "macos" in dirs)
      && (c.app.android.Some? ==> c.app.android.value.flavorDimensions == "app")
      && (c.app.ios.Some? ==> c.app.ios.value.developmentTeam == DevelopmentTeam)
      && (c.app.macos.Some? ==> c.app.macos.value.developmentTeam == DevelopmentTeam)
      && (withFlavors <==> c.flavors.Some?)
      && (withFlavors ==> c.flavors.value.Keys == {"dev", "staging", "prod"})
      && (withFlavors ==> forall k :: k in c.flavors.value ==> c.flavors.value[k] == FlavorFor(k, SupportedPlatforms(dirs)))
  {
    SupportedPlatformsSpec(dirs);
  }

  // The configuration as a YAML tree

  function OptionalNode<T>(o: Option<T>, f: T -> Node): (r: Node) {
    match o
    case None => Null
    case Some(v) => f(v)
  }

  function AndroidFlavorNode(a: AndroidFlavor): (r: Node) {
    Map(map["applicationId" := Str(a.applicationId),
            "firebase" := Map(map["config" := Str(a.firebaseConfig)]),
            "icon" := Str(a.icon)])
  }

  function IosFlavorNode(i: IosFlavor): (r: Node) {
    Map(map["bundleId" := Str(i.bundleId),
            "firebase" := Map(map["config" := Str(i.firebaseConfig)]),
            "icon" := Str(i.icon)])
  }

  /** A flavor as it is written to flavorizr.yaml. */
  function FlavorNode(f: Flavor): (r: Node) {
    Map(map["app" := Map(map["name" := Str(f.appName)]),
            "android" := OptionalNode(f.android, AndroidFlavorNode),
            "ios" := OptionalNode(f.ios, IosFlavorNode)])
  }

  function SettingsNode(b: BuildSettings): (r: Node) {
    Map(map["buildSettings" := Map(map["DEVELOPMENT_TEAM" := Str(b.developmentTeam)])])
  }

  function AndroidAppNode(a: AndroidApp): (r: Node) {
    Map(map["flavorDimensions" := Str(a.flavorDimensions)])
  }

  function FlavorsNode(flavors: Option<map<string, Flavor>>): (r: Node) {
    match flavors
    case None => Null
    case Some(m) => Map(map k | k in m :: FlavorNode(m[k]))
  }

  /** A configuration as it is written to flavorizr.yaml. */
  function ContentDocument(c: Content): (r: Document) {
    map["app" := Map(map["android" := OptionalNode(c.app.android, AndroidAppNode),
                         "ios" := OptionalNode(c.app.ios, SettingsNode),
                         "macos" := OptionalNode(c.app.macos, SettingsNode)]),
        "ide" := Str(c.ide),
        "instructions" := StrList(c.instructions),
        "flavors" := FlavorsNode(c.flavors)]
  }

  // Merging into an existing flavorizr.yaml

  const NullFlavors := "Cannot convert undefined or null to object"
  const ScalarFlavors := "Cannot create property on a scalar flavors value"

  /** Adds the default flavor name, unless it is already a key of flavors. */
  function AddIfMissing(flavors: map<string, Node>, name: string, platforms: seq<string>): (r: map<string, Node>) {
    if name in flavors then flavors else flavors[name := FlavorNode(FlavorFor(name, platforms))]
  }

  /** The flavors map with each missing one of dev, staging and prod added. */
  function AddMissingDefaults(flavors: map<string, Node>, platforms: seq<string>): (r: map<string, Node>) {
    AddIfMissing(AddIfMissing(AddIfMissing(flavors, "dev", platforms), "staging", platforms), "prod", platforms)
  }

  /**
    The existing configuration with the missing default flavors added. A flavors value that
    is missing, null or another scalar is an error; under a list the added flavors are
    properties that are not written back, so the document stays as it was.
  */
  function MergeDefaults(doc: Document, platforms: seq<string>): (r: Result<Document>) {
    if "flavors" !in doc || doc["flavors"] == Null then Err(NullFlavors)
    else match doc["flavors"]
      case Map(m) => Ok(doc["flavors" := Map(AddMissingDefaults(m, platforms))])
      case List(_) => Ok(doc)
      case _ => Err(ScalarFlavors)
  }

  /**
    Merging keeps every existing flavor unchanged and adds exactly the missing ones of dev,
    staging and prod, each as createFlavor builds it.
  */
  lemma AddMissingDefaultsSpec(flavors: map<string, Node>, platforms: seq<string>)
    ensures var r := AddMissingDefaults(flavors, platforms);
      && r.Keys == flavors.Keys + {"dev", "staging", "prod"}
      && (forall k :: k in flavors ==> r[k] == flavors[k])
      && (forall k :: k in r && k !in flavors ==> r[k] == FlavorNode(FlavorFor(k, platforms)))
  {
  }

  /** Merging a second time adds nothing. */
  lemma AddMissingDefaultsIdempotent(flavors: map<string, Node>, platforms: seq<string>)
    ensures AddMissingDefaults(AddMissingDefaults(flavors, platforms), platforms) == AddMissingDefaults(flavors, platforms)
  {
    AddMissingDefaultsSpec(flavors, platforms);
  }

  /** Only the flavors key of an existing configuration can change. */
  lemma MergeDefaultsOnlyFlavors(doc: Document, platforms: seq<string>)
    requires MergeDefaults(doc, platforms).Ok?
    ensures MergeDefaults(doc, platforms).value.Keys == doc.Keys
    ensures forall k :: k in doc && k != "flavors" ==> MergeDefaults(doc, platforms).value[k] == doc[k]
  {
  }

  /** A configuration that already has dev, staging and prod is left as it is. */
  lemma MergeDefaultsComplete(doc: Document, platforms: seq<string>)
    requires "flavors" in doc && doc["flavors"].Map?
    requires "dev" in doc["flavors"].entries && "staging" in doc["flavors"].entries && "prod" in doc["flavors"].entries
    ensures MergeDefaults(doc, platforms) == Ok(doc)
  {
    assert doc["flavors" := Map(doc["flavors"].entries)] == doc;
  }

  /** A configuration written by a first run comes back unchanged from a second. */
  lemma MergeDefaultsOnDefault(firebase: bool, dirs: set<string>)
    ensures MergeDefaults(ContentDocument(DefaultContent(firebase, dirs, true)), SupportedPlatforms(dirs)) ==
      Ok(ContentDocument(DefaultContent(firebase, dirs, true)))
  {
    var c := DefaultContent(firebase, dirs, true);
    assert c.flavors == Some(DefaultFlavors(SupportedPlatforms(dirs)));
    var m := FlavorsNode(c.flavors).entries;
    assert "dev" in m && "staging" in m && "prod" in m;
    MergeDefaultsComplete(ContentDocument(c), SupportedPlatforms(dirs));
  }

  /**
    The merge of buildFlavorizr on an existing configuration: the flavor names are read
    once, then each missing default is created and stored in place.
  */
  method MergeExisting(flavorizr: Document, supportedPlatforms: seq<string>) returns (r: Result<Document>)
    ensures r == MergeDefaults(flavorizr, supportedPlatforms)
  {
    if "flavors" !in flavorizr || flavorizr["flavors"] == Null {
      return Err(NullFlavors);
    }
    if flavorizr["flavors"].List? {
      return Ok(flavorizr);
    }
    if !flavorizr["flavors"].Map? {
      return Err(ScalarFlavors);
    }
    var existing := flavorizr["flavors"].entries;
    var flavors := existing;
    if "dev" !in existing {
      var f := CreateFlavor("dev", supportedPlatforms);
      flavors := flavors["dev" := FlavorNode(f)];
    }
    if "staging" !in existing {
      var f := CreateFlavor("staging", supportedPlatforms);
      flavors := flavors["staging" := FlavorNode(f)];
    }
    if "prod" !in existing {
      var f := CreateFlavor("prod", supportedPlatforms);
      flavors := flavors["prod" := FlavorNode(f)];
    }
    r := Ok(flavorizr["flavors" := Map(flavors)]);
  }

  /**
    buildFlavorizr, given the existing flavorizr.yaml (None when there is none): a new file
    gets the default configuration, an existing one gets the missing default flavors.
  */
  method BuildFlavorizr(supportFirebase: bool, dirs: set<string>, existing: Option<Document>) returns (r: Result<Document>)
    ensures existing.None? ==> r == Ok(ContentDocument(DefaultContent(supportFirebase, dirs, true)))
    ensures existing.Some? ==> r == MergeDefaults(existing.value, SupportedPlatforms(dirs))
  {
    var supportedPlatforms := SupportedPlatformsForFlutter(dirs);
    var content := GetDefaultContent(supportFirebase, dirs, true);
    if existing.None? {
      r := Ok(ContentDocument(content));
    } else {
      r := MergeExisting(existing.value, supportedPlatforms);
    }
  }

  // Firebase detection

  /** Whether the dependencies value has a key starting with "firebase". */
  predicate HasFirebaseDependency(deps: Node) {
    deps.Map? && exists k :: k in deps.entries && StartsWith(k, "firebase")
  }

  /**
    supportFirebase: true without asking when a dependency key starts with "firebase",
    otherwise whether the user answered YES. A missing or null dependencies value is an
    error. Only the keys of a map can start with "firebase": the keys of a list or a
    string are indices and every other scalar has none.
  */
  function SupportFirebase(pubspec: Document, answer: Option<string>): (r: Result<bool>) {
    if "dependencies" !in pubspec || pubspec["dependencies"] == Null then Err(NullFlavors)
    else if HasFirebaseDependency(pubspec["dependencies"]) then Ok(true)
    else Ok(answer == Some("YES"))
  }

  /** With a firebase dependency the answer is never consulted. */
  lemma FirebaseDependencyNoPrompt(pubspec: Document, a: Option<string>, b: Option<string>)
    requires "dependencies" in pubspec && HasFirebaseDependency(pubspec["dependencies"])
    ensures SupportFirebase(pubspec, a) == SupportFirebase(pubspec, b) == Ok(true)
  {
  }

  /** Without one, the result is the user's answer. */
  lemma NoFirebaseDependencyAsks(pubspec: Document, answer: Option<string>)
    requires "dependencies" in pubspec && pubspec["dependencies"] != Null
    requires !HasFirebaseDependency(pubspec["dependencies"])
    ensures SupportFirebase(pubspec, answer) == Ok(answer == Some("YES"))
  {
  }

  // The two commands

  /** What a command does: report a message, fail with an error, write flavorizr.yaml, or do nothing. */
  datatype Outcome = Reported(message: string) | Failed(error: string) | Written(document: Document) | NothingWritten

  const ProjectNotFound := "Flutter project not found in workspace"
  const FlavorizrNotFound := "flavorizr.yaml not found in workspace"

  /**
    addFlavorizrSupport: given the parsed pubspec.yaml and flavorizr.yaml (None when
    missing), the project's directories and the answer to the firebase question.
  */
  method AddFlavorizrSupport(pubspec: Option<Document>, dirs: set<string>, flavorizr: Option<Document>,
                             answer: Option<string>) returns (outcome: Outcome)
    ensures pubspec.None? ==> outcome == Reported(ProjectNotFound)
    ensures pubspec.Some? && SupportFirebase(pubspec.value, answer).Err? ==>
      outcome == Failed(SupportFirebase(pubspec.value, answer).message)
    ensures pubspec.Some? && SupportFirebase(pubspec.value, answer).Ok? && flavorizr.None? ==>
      outcome == Written(ContentDocument(DefaultContent(SupportFirebase(pubspec.value, answer).value, dirs, true)))
    ensures pubspec.Some? && SupportFirebase(pubspec.value, answer).Ok? && flavorizr.Some? ==>
      match MergeDefaults(flavorizr.value, SupportedPlatforms(dirs))
      case Ok(d) => outcome == Written(d)
      case Err(e) => outcome == Failed(e)
  {
    if pubspec.None? {
      return Reported(ProjectNotFound);
    }
    var firebase := SupportFirebase(pubspec.value, answer);
    if firebase.Err? {
      return Failed(firebase.message);
    }
    var r := BuildFlavorizr(firebase.value, dirs, flavorizr);
    match r
    case Ok(d) => outcome := Written(d);
    case Err(e) => outcome := Failed(e);
  }

  /** The default flavors with flavorName added, overriding a default of the same name. */
  lemma FlavorsWithAdded(platforms: seq<string>, flavorName: string)
    ensures var m := DefaultFlavors(platforms)[flavorName := FlavorFor(flavorName, platforms)];
      && m.Keys == {"dev", "staging", "prod", flavorName}
      && (forall k :: k in m ==> m[k] == FlavorFor(k, platforms))
  {
  }

  /**
    addFlavor, given the parsed pubspec.yaml and flavorizr.yaml (None when missing), the
    project's directories, the answer to the firebase question and the entered flavor name
    (None when the prompt was dismissed). The written configuration is the default one with
    the new flavor added; nothing of the existing flavorizr.yaml is kept.
  */
  method AddFlavor(pubspec: Option<Document>, dirs: set<string>, flavorizr: Option<Document>,
                   answer: Option<string>, flavorName: Option<string>) returns (outcome: Outcome)
    ensures pubspec.None? ==> outcome == Reported(ProjectNotFound)
    ensures pubspec.Some? && flavorizr.None? ==> outcome == Reported(FlavorizrNotFound)
    ensures pubspec.Some? && flavorizr.Some? && SupportFirebase(pubspec.value, answer).Err? ==>
      outcome == Failed(SupportFirebase(pubspec.value, answer).message)
    ensures (pubspec.Some? && flavorizr.Some? && SupportFirebase(pubspec.value, answer).Ok? &&
             (flavorName == None || flavorName == Some(""))) ==> outcome == NothingWritten
    ensures (pubspec.Some? && flavorizr.Some? && SupportFirebase(pubspec.value, answer).Ok? &&
             flavorName.Some? && flavorName.value != "") ==>
      var platforms := SupportedPlatforms(dirs);
      var c := DefaultContent(SupportFirebase(pubspec.value, answer).value, dirs, true);
      var flavors := DefaultFlavors(platforms)[flavorName.value := FlavorFor(flavorName.value, platforms)];
      outcome == Written(ContentDocument(c.(flavors := Some(flavors))))
  {
    if pubspec.None? {
      return Reported(ProjectNotFound);
    }
    if flavorizr.None? {
      return Reported(FlavorizrNotFound);
    }
    var isSupportFirebase := SupportFirebase(pubspec.value, answer);
    if isSupportFirebase.Err? {
      return Failed(isSupportFirebase.message);
    }
    var content := GetDefaultContent(isSupportFirebase.value, dirs, true);
    if flavorName == None || flavorName == Some("") {
      return NothingWritten;
    }
    var name := flavorName.value;
    var platforms := SupportedPlatformsForFlutter(dirs);
    var newFlavor := CreateFlavor(name, platforms);
    if content.flavors.None? {
      content := content.(flavors := Some(map[name := newFlavor]));
    } else {
      content := content.(flavors := Some(content.flavors.value[name := newFlavor]));
    }
    outcome := Written(ContentDocument(content));
  }
}
