/**
  providerTemplate of src/templates/provider.ts: a Riverpod provider skeleton, either a
  function provider or a class (notifier) provider. The file name comes from
  pascalToSnakeCase. The function name comes from `pascalToCamelCase`, which
  src/utils/utils.ts does not define, so it is a parameter `toCamel` here.
  Each template literal is written as the sequence of its pieces; the pieces that the
  properties below are about are pieces of their own.
*/
module ProviderTemplate {
  import opened Text
  import opened Utils

  const RiverpodImport: string := "import 'package:riverpod_annotation/riverpod_annotation.dart';"

  /** The `part` directive naming the generated file. */
  function PartDirective(fileName: string): (r: string) {
    "part '" + fileName + ".g.dart';"
  }

  /** The pieces of the function-provider literal. */
  function FunctionPieces(fileName: string, functionName: string): (r: seq<string>) {
    [ "\n", RiverpodImport, "\n\n", PartDirective(fileName), "\n\n", "@riverpod",
      "\n// TODO: specify the provider return type\n",
      "Future<void> " + functionName + "(Ref ref) async",
      " {\n  // TODO: implement provider\n}\n" ]
  }

  /** The pieces of the class-provider literal. */
  function ClassPieces(fileName: string, providerName: string): (r: seq<string>) {
    [ "\n", RiverpodImport, "\n\n", PartDirective(fileName), "\n\n", "@riverpod", "\n",
      "class " + providerName + " extends _" + providerName,
      " {\n  ",
      "@override\n  // TODO: specify the provider return type\n  Future<void> build() async",
      " {\n    // TODO: implement build\n  }\n}\n" ]
  }

  /** providerTemplate(providerName, providerType). */
  function ProviderTemplate(providerName: string, providerType: string, toCamel: string -> string): (r: string) {
    var fileName := PascalToSnakeCase(providerName);
    var functionName := toCamel(providerName);
    if providerType == "Provider (function)" then Concat(FunctionPieces(fileName, functionName))
    else if providerType == "Provider (class)" then Concat(ClassPieces(fileName, providerName))
    else ""
  }

  predicate KnownType(providerType: string) {
    providerType == "Provider (function)" || providerType == "Provider (class)"
  }

  /** The function literal imports riverpod_annotation, has the `part` directive and `@riverpod`. */
  lemma FunctionHeader(fileName: string, functionName: string)
    ensures Contains(Concat(FunctionPieces(fileName, functionName)), RiverpodImport)
    ensures Contains(Concat(FunctionPieces(fileName, functionName)), PartDirective(fileName))
    ensures Contains(Concat(FunctionPieces(fileName, functionName)), "@riverpod")
  {
    var xs := FunctionPieces(fileName, functionName);
    ConcatContains(xs, 1);
    ConcatContains(xs, 3);
    ConcatContains(xs, 5);
  }

  /** The class literal imports riverpod_annotation, has the `part` directive and `@riverpod`. */
  lemma ClassHeader(fileName: string, providerName: string)
    ensures Contains(Concat(ClassPieces(fileName, providerName)), RiverpodImport)
    ensures Contains(Concat(ClassPieces(fileName, providerName)), PartDirective(fileName))
    ensures Contains(Concat(ClassPieces(fileName, providerName)), "@riverpod")
  {
    var xs := ClassPieces(fileName, providerName);
    ConcatContains(xs, 1);
    ConcatContains(xs, 3);
    ConcatContains(xs, 5);
  }

  /** Any type other than the two known ones gives the empty string; the two give text. */
  lemma ProviderTemplateEmptyIffUnknown(providerName: string, providerType: string, toCamel: string -> string)
    ensures ProviderTemplate(providerName, providerType, toCamel) == [] <==> !KnownType(providerType)
  {
    if KnownType(providerType) {
      ProviderTemplateHeader(providerName, providerType, toCamel);
    }
  }

  /**
    Both kinds import riverpod_annotation, name the generated file after the snake-case
    provider name in a `part` directive, and are annotated with `@riverpod`.
  */
  lemma ProviderTemplateHeader(providerName: string, providerType: string, toCamel: string -> string)
    requires KnownType(providerType)
    ensures Contains(ProviderTemplate(providerName, providerType, toCamel), RiverpodImport)
    ensures Contains(ProviderTemplate(providerName, providerType, toCamel),
                     "part '" + PascalToSnakeCase(providerName) + ".g.dart';")
    ensures Contains(ProviderTemplate(providerName, providerType, toCamel), "@riverpod")
  {
    var fileName := PascalToSnakeCase(providerName);
    if providerType == "Provider (function)" {
      FunctionHeader(fileName, toCamel(providerName));
    } else {
      ClassHeader(fileName, providerName);
    }
  }

  /** The function kind declares an async function named by the camel-case conversion, taking a `Ref`. */
  lemma FunctionProviderSignature(providerName: string, toCamel: string -> string)
    ensures Contains(ProviderTemplate(providerName, "Provider (function)", toCamel),
                     "Future<void> " + toCamel(providerName) + "(Ref ref) async")
  {
    ConcatContains(FunctionPieces(PascalToSnakeCase(providerName), toCamel(providerName)), 7);
  }

  /** The class kind declares `class N extends _N` and overrides `build()`. */
  lemma ClassProviderDeclaration(providerName: string, toCamel: string -> string)
    ensures Contains(ProviderTemplate(providerName, "Provider (class)", toCamel),
                     "class " + providerName + " extends _" + providerName)
    ensures Contains(ProviderTemplate(providerName, "Provider (class)", toCamel),
                     "@override\n  // TODO: specify the provider return type\n  Future<void> build() async")
  {
    var xs := ClassPieces(PascalToSnakeCase(providerName), providerName);
    ConcatContains(xs, 7);
    ConcatContains(xs, 9);
  }

  /** The conversion's result is computed for every type, but the class kind's text does not depend on it. */
  lemma ClassProviderIgnoresCamel(providerName: string, f: string -> string, g: string -> string)
    ensures ProviderTemplate(providerName, "Provider (class)", f) == ProviderTemplate(providerName, "Provider (class)", g)
  {
  }
}
