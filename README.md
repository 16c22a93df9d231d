# fluttertools, modelled in Dafny

fluttertools is a VS Code extension for Flutter projects. This project models the parts
of it that compute something:

- **Case conversions** (`src/utils/utils.ts`): `camelToSnake`, `camelCaseToSnakeCase`,
  `pascalToSnakeCase` and `camelToTitleCase`. Every generated file name and page title
  goes through one of them.
- **Code templates**:
  - `classTemplate`;
  - `providerTemplate`;
  - `jsonSerializableTemplate`;
  - `modelClassTemplate`;
  - the three page templates that `getAvailableTemplates` lists.
- **The "create page" command** (`src/createFlutterPage.ts`):
  - the page-name validator;
  - the output file name;
  - the chained placeholder replacement;
  - the template lookup;
  - the write-or-keep decision of `generatePage`.
- **The "update pubspec assets" command** (`src/assetManager.ts`), as a class whose state
  is the parsed `pubspec.yaml`.
- **The flutter_flavorizr support** (`src/addFlavorizrSupport.ts`):
  - platform detection;
  - `createFlavor`;
  - `getDefaultContent` and its instruction list;
  - the merge of the default dev/staging/prod flavors into an existing `flavorizr.yaml`;
  - firebase detection;
  - the `addFlavorizrSupport` and `addFlavor` commands.
- **The "install dependencies" command** (`src/installDependencies.ts`): the shell command
  built from the fixed dependency table, and the terminal it is sent to.

The model is organised as follows:

- **One module per source file.** `Wrappers` (Option, Result), `Text` (the string
  operations of JavaScript the source uses) and `Yaml` (a parsed YAML tree) support the
  rest.
- **Input as parameters.** The file system, the dialogs and the terminal become
  parameters and results:
  - a directory listing is a set of names or a sequence of entries;
  - a missing file is `None`;
  - a button the user picks is an `Option<string>`;
  - the opened terminal is a value.
- **Loops as methods.** The source's loops are methods proved against specification
  functions: the asset listing, the platform tests and the two command-building loops.
  `AssetManager` is a class whose method updates its `pubspec` field.

## Model

| member | source | states |
|---|---|---|
| `Utils.MarkUpper` | src/utils/utils.ts:38 | `replace(/([A-Z])/g, mark + "$1")` adds exactly one character per upper-case letter |
| `Utils.CamelCaseToSnakeCaseSpec` | src/utils/utils.ts:43-53 | the callback replacement followed by `toLowerCase` equals the `_$1` form lowered; its length is the input's plus one per capital; it has no upper-case letter; a capital initial yields a leading `_` |
| `Utils.UnderscoreLoweredIsSnake` | src/utils/utils.ts:46-52 | lowering each capital in its callback and lowering the whole text afterwards give the same string as inserting `_` and lowering once |
| `Utils.CamelToSnakeSpec` | src/utils/utils.ts:36-41 | `camelToSnake` drops the first character of the snake text: a capital initial is lowered in place, a lower-case initial is lost; its length is the input's plus one per capital minus one; no upper-case letter remains |
| `Utils.CamelToSnakeUpper` | src/utils/utils.ts:36-41 | for a capital initial, `camelToSnake` is that letter lowered followed by the snake text of the rest |
| `Utils.CamelToSnakeOther` | src/utils/utils.ts:36-41 | for any other initial, `camelToSnake` is the snake text of the rest alone, so the initial is lost |
| `Utils.SnakeShape` | src/utils/utils.ts:37-39 | the `_$1` replacement then `toLowerCase` has one extra character per capital and no upper-case letter |
| `Utils.CamelToSnakeHead` | src/utils/utils.ts:37-39 | the snake text is the lowered marking of the first character followed by the snake text of the rest |
| `Utils.PascalToSnakeCaseSpec` | src/utils/utils.ts:55-66 | `pascalToSnakeCase` removes exactly one leading `_` when there is one and keeps the text otherwise; on a capital initial it agrees with `camelToSnake`; no upper-case letter remains |
| `Utils.PascalToSnakeCaseIdentity` | src/utils/utils.ts:55-66 | text without capitals and without a leading `_` is its own snake case |
| `Utils.PascalToSnakeCaseIdempotent` | src/utils/utils.ts:55-66 | converting twice equals converting once whenever the first result does not start with `_` |
| `Utils.SnakeKeepsOtherChars` | src/utils/utils.ts:58-60 | apart from the inserted `_`, the snake text is the input lowered, so no character other than `_` is lost or added |
| `Utils.SnakeConversionsKeepOtherChars` | src/utils/utils.ts:43-66 | the same holds for `camelCaseToSnakeCase` and `pascalToSnakeCase` |
| `Utils.CamelToSnakeKeepsOtherChars` | src/utils/utils.ts:36-41 | `camelToSnake` keeps every character but `_` of an input starting with a capital or `_`, and of any other input loses exactly the initial |
| `Utils.CamelToTitleCaseLetters` | src/utils/utils.ts:90-100 | on letters, `camelToTitleCase` gives a capital initial then the rest with a space before each capital; a lower-case initial is capitalised and glued to the trimmed marked rest |
| `Utils.TitleCaseUpperInitial` | src/utils/utils.ts:90-100 | the capital-initial case of the above |
| `Utils.TitleCaseLowerInitial` | src/utils/utils.ts:90-100 | the lower-case-initial case of the above: the inner `trim` removes a space that directly follows the first character |
| `Utils.TitleOfLowerWordThenWord` | src/utils/utils.ts:93-99 | as written, a lower-case word followed by a capitalised word is separated by a space only when the first word has more than one letter; a one-letter first word loses the space |
| `Utils.TitleOfCapitalWordThenWord` | src/utils/utils.ts:93-99 | two capitalised words come out separated by one space, as in "HomePage" to "Home Page" |
| `Utils.TitleCaseLetters` | src/utils/utils.ts:91-99 | the intended title case of a letters-only name is the capitalised initial then the rest with a space before each capital; removing the spaces gives back the name with its initial capitalised |
| `Utils.IntendedTitleOfTwoWords` | src/utils/utils.ts:91-99 | the intended title case separates two words whatever the length of the first |
| `Utils.TitleCaseAgrees` | src/utils/utils.ts:90-100 | on every name the page validator accepts, the intended title case and `camelToTitleCase` as written agree |
| `Utils.MarkUpperWithoutSpaces` | src/utils/utils.ts:93 | the spaces inserted before capitals are the only spaces added: removing them gives back the letters |
| `Utils.TrimStartMarked` | src/utils/utils.ts:93-97 | the only leading whitespace of marked letters is the space put before a capital initial |
| `UtilsExamples.CamelToSnakeExamples` | src/utils/utils.ts:36-41 | "HomePage" becomes "home_page", while "homePage" becomes "ome_page" |
| `UtilsExamples.CamelToTitleCaseDropsSpace` | src/utils/utils.ts:90-100 | "hPage" becomes "HPage" as written, where the intended title case gives "H Page" |
| `ClassTemplate.KindOf` | src/templates/class.ts:3-16 | a label names a kind exactly when it is one of the five labels the switch handles |
| `ClassTemplate.ClassTemplateKnown` | src/templates/class.ts:4-13 | each of the five labels gives its keywords, a space, the class name and ` {}` |
| `ClassTemplate.ClassTemplateEmptyIffUnknown` | src/templates/class.ts:3-16 | the result is empty exactly for a label other than the five (the `default` branch) |
| `ClassTemplate.ClassTemplateShape` | src/templates/class.ts:4-13 | a known kind's declaration contains the class name and ends with ` {}` |
| `ClassTemplate.ParseClassTemplate` | src/templates/class.ts:4-13 | generated declarations can be read back: the kind and the name are recovered from the text |
| `ClassTemplate.ClassTemplateInjective` | src/templates/class.ts:4-13 | distinct kinds or names never give the same declaration |
| `ProviderTemplate.ProviderTemplateEmptyIffUnknown` | src/templates/provider.ts:8-37 | the result is empty exactly for a provider type other than the two handled ones |
| `ProviderTemplate.ProviderTemplateHeader` | src/templates/provider.ts:4-34 | both kinds import riverpod_annotation, have a `part` directive naming the snake-case provider name, and carry `@riverpod` |
| `ProviderTemplate.FunctionHeader` | src/templates/provider.ts:10-19 | the function literal carries the import, the `part` directive and `@riverpod` |
| `ProviderTemplate.ClassHeader` | src/templates/provider.ts:22-34 | the class literal carries the import, the `part` directive and `@riverpod` |
| `ProviderTemplate.FunctionProviderSignature` | src/templates/provider.ts:6-19 | the function kind declares `Future<void> f(Ref ref) async`, with `f` the camel-case name |
| `ProviderTemplate.ClassProviderDeclaration` | src/templates/provider.ts:21-34 | the class kind declares `class N extends _N` and an overridden `build()` |
| `ProviderTemplate.ClassProviderIgnoresCamel` | src/templates/provider.ts:21-34 | the class kind does not depend on the camel-case conversion |
| `JsonSerializableTemplate.JsonSerializableTemplateContents` | src/templates/jsonSerializable.ts:4-21 | the class imports json_annotation; its `part` file is named after the snake-case class name; `@JsonSerializable()` directly precedes the header, whose body opens with the no-argument constructor; `fromJson` and `toJson` delegate to `_$NFromJson` and `_$NToJson` |
| `JsonSerializableTemplate.JsonSerializablePartIsLowerCase` | src/templates/jsonSerializable.ts:5-10 | the `part` file name has no upper-case letter, whatever the class name |
| `ModelClassTemplate.FieldDeclarationsAreLines` | src/templates/modelClass.ts:9 | the field declarations split at line breaks give back one `  final T n;` per field, in field order |
| `ModelClassTemplate.NoFieldsEmptyPieces` | src/templates/modelClass.ts:8-11 | without fields, all four field-dependent pieces are empty |
| `ModelClassTemplate.OneFieldPieces` | src/templates/modelClass.ts:8-11 | with one field, each piece is that field's text with no separator |
| `ModelClassTemplate.EveryFieldAppears` | src/templates/modelClass.ts:7-30 | every field contributes its declaration, its constructor parameter, its `copyWith` parameter and its `copyWith` assignment |
| `ModelClassTemplate.ClassNamePlacement` | src/templates/modelClass.ts:13-29 | the class name appears in the header, the constructor, `copyWith` and the returned call |
| `PageTemplates.StatelessPageWellFormed` | src/templates/page/statelessPage.ts:3-25 | every `$` of the stateless page template opens one of the four placeholders |
| `PageTemplates.StatefulPageWellFormed` | src/templates/page/statefulPage.ts:3-30 | the same for the stateful page template |
| `PageTemplates.StatelessHookPageWellFormed` | src/templates/page/statelessHookPage.ts:3-27 | the same for the stateless hook page template |
| `PageTemplates.AvailableTemplatesWellFormed` | src/templates/index.ts:8-10 | the same for every template `getAvailableTemplates` lists |
| `CreateFlutterPage.MatchesPatternIff` | src/createFlutterPage.ts:37 | `^[A-Z][a-zA-Z]*$` matches exactly an upper-case letter followed by letters |
| `CreateFlutterPage.ValidatePageNameSpec` | src/createFlutterPage.ts:33-41 | the validator accepts exactly the page names; the empty name gets "Page name is required", every other rejected name gets the format message |
| `CreateFlutterPage.FileNameOfPageName` | src/createFlutterPage.ts:62-63 | for a valid page name, the file is the name with its initial lowered in place and the rest in snake case, plus `.dart`; it agrees with `pascalToSnakeCase` and has no upper-case letter |
| `CreateFlutterPage.ReplaceStep` | src/createFlutterPage.ts:78-82 | one global replacement of a placeholder on a template whose `$`s all open placeholders replaces exactly that placeholder's occurrences and keeps the template well formed |
| `CreateFlutterPage.SubstituteRenders` | src/createFlutterPage.ts:78-82 | with `$`-free values, the four chained replacements put each placeholder's own value at each of its occurrences and keep all other text |
| `CreateFlutterPage.FilledIsRendered` | src/createFlutterPage.ts:78-82 | filling the four placeholders one after the other gives the rendered page |
| `CreateFlutterPage.RenderDollarFree` | src/createFlutterPage.ts:78-82 | the rendered page has no `$` when the template literal text and the values have none |
| `CreateFlutterPage.PageValuesDollarFree` | src/createFlutterPage.ts:62-82 | the four values substituted for a valid page name contain no `$` |
| `CreateFlutterPage.Find` | src/createFlutterPage.ts:103-106 | `find` returns the first template with the name, or none when no template has it |
| `CreateFlutterPage.GetTemplate` | src/createFlutterPage.ts:103-106 | `getTemplate` returns an available template of that name, and null exactly when there is none |
| `CreateFlutterPage.GeneratePageWrites` | src/createFlutterPage.ts:51-86 | a file is written exactly when the template exists and the file is new or the answer is "Yes"; an unknown template is reported by name |
| `CreateFlutterPage.GeneratePageContent` | src/createFlutterPage.ts:56-86 | for a valid name and an available template, the written file has the snake-case name, the rendered content and no placeholder token left |
| `CreateFlutterPage.PageTitleIsIntended` | src/createFlutterPage.ts:80 | the title substituted is `camelToTitleCase` as written; for a valid page name it equals the intended title case |
| `Yaml.StrListInjective` | src/assetManager.ts:45 | the list node written for the assets keeps each string, in order |
| `AssetManager.AssetPath` | src/assetManager.ts:30-34 | a directory entry gets `assets/<name>/`, a file `assets/<name>` |
| `AssetManager.AssetPathsShape` | src/assetManager.ts:27-36 | one asset entry per listed entry, in listing order |
| `AssetManager.AssetManager.CollectAssets` | src/assetManager.ts:25-36 | the loop collects one entry per listed file or directory, in order, and nothing when the assets directory is missing |
| `AssetManager.PatchManifestOnNumber` | src/assetManager.ts:38-51 | a number under `flutter` gives way to a new map exactly when it is zero or NaN; any other number, an infinity included, is reported as not a map |
| `AssetManager.PatchManifestFails` | src/assetManager.ts:38-51 | the update fails, with "Could not find or create flutter section", exactly when `flutter` holds a truthy value that is not a map |
| `AssetManager.PatchManifestCreatesFlutter` | src/assetManager.ts:39-42 | a missing or falsy `flutter` value becomes a map holding only the assets |
| `AssetManager.PatchManifestOnlyAssets` | src/assetManager.ts:38-45 | only `flutter.assets` changes; it holds exactly the new list; every other key, top-level or under `flutter`, keeps its value; no key other than `assets` is added under `flutter` |
| `AssetManager.PatchManifestIdempotent` | src/assetManager.ts:38-45 | applying the update twice with the same listing equals applying it once |
| `AssetManager.AssetManager.UpdatePubspecAssets` | src/assetManager.ts:13-56 | a missing `pubspec.yaml` is reported and nothing changes; a `flutter` value that is not a map is reported and nothing changes; otherwise the patched manifest is stored and success is reported |
| `AssetManager.UpdateTwice` | src/assetManager.ts:13-56 | running the command twice leaves the manifest as one run does |
| `Flavorizr.SupportedPlatformsSpec` | src/addFlavorizrSupport.ts:98-121 | a platform is listed exactly when it is one of the six and its directory exists; the list follows the order of the tests, so each platform appears at most once |
| `Flavorizr.SupportedPlatformsForFlutter` | src/addFlavorizrSupport.ts:98-121 | the six tests with their pushes compute that list |
| `Flavorizr.CreateFlavor` | src/addFlavorizrSupport.ts:243-277 | the app name is the name; the android part is present exactly when android is supported and holds `YOUR_APPLICATION_ID.<name>`, the firebase config path and the icon path; likewise the ios part with the bundle id |
| `Flavorizr.GetDefaultContent` | src/addFlavorizrSupport.ts:279-374 | the loop-free builder computes the default configuration: per-platform app settings, ide `vscode`, the instruction list, and dev, staging and prod when flavors are requested |
| `Flavorizr.DefaultContentFields` | src/addFlavorizrSupport.ts:302-371 | each app setting is present exactly for its platform; ide is `vscode`; flavors are dev, staging and prod as `createFlavor` builds them, or null |
| `Flavorizr.InstructionsOrdered` | src/addFlavorizrSupport.ts:308-347 | the instructions follow the order base, firebase, android, ios, macos, cleanup; they start with the three base steps and end with `assets:clean` |
| `Flavorizr.InstructionsMembers` | src/addFlavorizrSupport.ts:314-345 | `firebase:config` is present exactly with firebase support; each platform's steps are present exactly when the platform is supported |
| `Flavorizr.AddMissingDefaultsSpec` | src/addFlavorizrSupport.ts:196-218 | merging keeps every existing flavor unchanged and adds exactly the missing ones of dev, staging and prod, each as `createFlavor` builds it |
| `Flavorizr.AddMissingDefaultsIdempotent` | src/addFlavorizrSupport.ts:196-218 | merging a second time adds nothing |
| `Flavorizr.MergeDefaultsOnlyFlavors` | src/addFlavorizrSupport.ts:196-219 | only the `flavors` key of an existing configuration can change |
| `Flavorizr.MergeDefaultsComplete` | src/addFlavorizrSupport.ts:197-218 | a configuration that already has dev, staging and prod is written back unchanged |
| `Flavorizr.MergeDefaultsOnDefault` | src/addFlavorizrSupport.ts:185-220 | a configuration written by a first run comes back unchanged from a second |
| `Flavorizr.MergeExisting` | src/addFlavorizrSupport.ts:196-219 | reading the flavor names once, then creating and storing each missing default, computes the merge |
| `Flavorizr.BuildFlavorizr` | src/addFlavorizrSupport.ts:185-221 | a new `flavorizr.yaml` gets the default configuration; an existing one gets the merge |
| `Flavorizr.FirebaseDependencyNoPrompt` | src/addFlavorizrSupport.ts:167-183 | with a dependency whose name starts with "firebase", firebase is supported and the question's answer is never used |
| `Flavorizr.NoFirebaseDependencyAsks` | src/addFlavorizrSupport.ts:174-181 | without such a dependency, support is exactly the answer "YES" |
| `Flavorizr.AddFlavorizrSupport` | src/addFlavorizrSupport.ts:12-25 | a missing `pubspec.yaml` is reported; a failing firebase check fails; otherwise the result of `buildFlavorizr` is written |
| `Flavorizr.FlavorsWithAdded` | src/addFlavorizrSupport.ts:57-66 | the added flavor joins dev, staging and prod, and replaces a default of the same name |
| `Flavorizr.AddFlavor` | src/addFlavorizrSupport.ts:27-68 | a missing `pubspec.yaml` or `flavorizr.yaml` is reported; a dismissed or empty name writes nothing; otherwise the written configuration is the fresh default with the new flavor added, and the existing file's content is dropped |
| `InstallDependencies.OfKindMembers` | src/installDependencies.ts:19-24 | each filter keeps exactly the table entries of its kind |
| `InstallDependencies.OfKindPartition` | src/installDependencies.ts:19-24 | every table entry goes to exactly one of the two sections, once |
| `InstallDependencies.BuildCommand` | src/installDependencies.ts:18-29 | the two loops build `flutter pub add ` + the regular arguments + `&& flutter pub add --dev ` + the dev arguments + `&& flutter pub get --no-example`, each argument ` <name> ` in table order |
| `InstallDependencies.CommandSections` | src/installDependencies.ts:18-29 | every regular dependency appears in the regular section and every dev dependency in the dev section |
| `InstallDependencies.CommandEnds` | src/installDependencies.ts:18-29 | the command starts with the regular install and ends with the package fetch |
| `InstallDependencies.CommandMentionsAddAndGet` | src/installDependencies.ts:18-29 | the command contains both `flutter pub add` and `flutter pub get` |
| `InstallDependencies.GenRunnerKeepsItsSpace` | src/installDependencies.ts:85 | the shipped command passes `flutter_gen_runner ` with its trailing space, among the dev dependencies |
| `InstallDependencies.Opened` | src/installDependencies.ts:5-16 | no terminal is opened without a resource or a workspace folder, or when the chosen path is empty (`!workspaceFolder`); otherwise one shown terminal named "Flutter Tools" opens in the resource's folder, or else the workspace folder, and is sent the command once |
| `InstallDependencies.Install` | src/installDependencies.ts:4-31 | the command opens that terminal and sends it the command built from the table |
| `InstallDependencies.InstallShipped` | src/installDependencies.ts:4-96 | the same, for the dependency table the extension ships |

## Left out

- User interface: the quick picks, input boxes, messages and opened editors become parameters and results. Extension activation and command registration (`src/extension.ts`) are not part of this model.
- The file system: file existence, directory listings, reading and writing are inputs and results. Path joining is not modelled; a written file is identified by its folder and name.
- YAML text: a document is a parsed tree. Parsing, printing, comments, formatting and key order are not modelled. A number scalar is the JavaScript number it parses to (a real value, NaN or an infinity); the rounding of a decimal literal to a double is part of parsing and is not modelled.
- Unicode: `toLowerCase` and `toUpperCase` are modelled on ASCII letters only. `[A-Z]` is ASCII in the source as well. `trim` uses JavaScript's whitespace set.
- Replacement patterns: JavaScript's `String.replace` gives `$` in a replacement string a special meaning. The model treats each replacement value literally, and the substitution properties assume values without `$`. Valid page names and the values derived from them satisfy this, by `CreateFlutterPage.PageValuesDollarFree`.
- ProviderTemplate.ProviderTemplate: `pascalToCamelCase` is imported from `src/utils/utils.ts` but not defined there, so it is a parameter, and nothing is proved about the function name beyond where it is placed.
- Flavorizr.CreateFlavor: its own `getWorkspaceFolder` call, which can return `undefined` after showing an error, is not modelled. Neither is the creation of the `.firebase/<name>` folder (`createFirebaseFolder`) or of `.firebase` in `getDefaultContent`; both only touch the file system.
- Flavorizr.MergeDefaults: a missing or null `flavors` value, where the source throws a TypeError, is modelled as an error result and no write. `Object.keys` on a string or list yields indices; the model keeps only the map and list cases. A list is written back unchanged because property assignments on an array are not serialised.
- Flavorizr.SupportFirebase: a missing or null `dependencies` value, where the source throws, is modelled as an error result, and a non-map top-level document is not represented.
- `runFlavors`, `hasFlutterProject`, `pubspecPath`, `getImportPath`, `findTestDirectory` and `getWorkspaceFolder` (path arithmetic, process execution and workspace queries) are not part of this model. Their results enter as parameters, taken to be a workspace folder object, which is not what `getWorkspaceFolder` returns (next lines).
- Flavorizr.AddFlavorizrSupport: `getWorkspaceFolder` (src/utils/utils.ts:68-88) resolves to a path string, and `folder.uri.fsPath` on a string throws a TypeError (src/addFlavorizrSupport.ts:18). So as written the command throws whenever a folder is found. The model follows the evident intent: the folder is a workspace folder object, as the extension's tests stub it.
- Flavorizr.AddFlavor: the same mismatch at src/addFlavorizrSupport.ts:32 and :38. As written it throws whenever a folder is found; the model takes the folder to be an object.
- Flavorizr.CreateFlavor: with firebase support, `createFirebaseFolder` reads `folder.uri.fsPath` on the string (src/addFlavorizrSupport.ts:377) and throws. The model leaves that folder creation out (see the first Flavorizr.CreateFlavor line), so it does not capture the throw.
- InstallDependencies.Opened: without a clicked resource, `(await getWorkspaceFolder())?.uri.fsPath` throws on the string (src/installDependencies.ts:7) instead of opening the terminal in the workspace folder. The clause of `Opened` for that case states the evident intent, not the behaviour as written. The create-page command has the same mismatch (src/createFlutterPage.ts:16); there the folder is a parameter of `CreateFlutterPage.GeneratePage`.
- `AssetManager.generateAssetPaths` only sends a fixed command to a terminal and is not modelled.
- The commands that call quicktype or wrap the templates in dialogs (`src/createClass.ts`, `src/createProvider.ts`, `src/createModelClass.ts`, `src/createJsonSerializableClass.ts`, `src/templates/freezedModel.ts`) are not part of this model.
- InstallDependencies.Install: the terminal is a value recording its name, folder, visibility and the texts sent. It takes the dependency table as a parameter; `InstallDependencies.InstallShipped` fixes it to the shipped table.
- Asynchronous ordering: every command is modelled as running to completion without interleaving.

## Findings

| source | as written | input that shows it | evidently intended | confidence | as-written member | corrected member |
|---|---|---|---|---|---|---|
| src/utils/utils.ts:90-100 | the space inserted before a capital in second position is removed by the `trim` of everything after the first character | `camelToTitleCase("hPage")` gives "HPage" | "H Page": a space before each upper-case letter except the first character, as the comment says | not executed | `UtilsExamples.CamelToTitleCaseDropsSpace` | `Utils.IntendedTitleOfTwoWords` |

The two halves:

- **As written.** `Utils.TitleOfLowerWordThenWord` shows the lost space for every one-letter first word.
- **Corrected.** `Utils.TitleCase` is the corrected conversion. `Utils.TitleCaseLetters` and `Utils.IntendedTitleOfTwoWords` state what it computes.
- **Where it matters.** The page model substitutes `camelToTitleCase` as written (`CreateFlutterPage.PageValues`). Names the page validator accepts start with a capital, and for them the two agree (`Utils.TitleCaseAgrees`). So the title of every page generated through the validator is the intended one (`CreateFlutterPage.PageTitleIsIntended`).
