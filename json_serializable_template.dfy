/**
  jsonSerializableTemplate of src/templates/jsonSerializable.ts: a class annotated for
  json_serializable, with a `part` directive for the generated file and `fromJson` and
  `toJson` delegating to the generated functions. The literal is written as the
  sequence of its pieces.
*/
module JsonSerializableTemplate {
  import opened Text
  import opened Utils

  function Pieces(className: string, fileName: string): (r: seq<string>) {
    [ "\n", "import 'package:json_annotation/json_annotation.dart';", "\n\n",
      "part '" + fileName + ".g.dart';", "\n\n",
      "@JsonSerializable()\nclass " + className + " {\n  " + className + "();",
      "\n\n  factory " + className + ".fromJson(Map<String, dynamic> json) => ",
      "_$" + className + "FromJson(json)",
      ";\n\n  Map<String, dynamic> toJson() => ",
      "_$" + className + "ToJson(this)",
      ";\n}\n" ]
  }

  /** jsonSerializableTemplate(className). */
  function JsonSerializableTemplate(className: string): (r: string) {
    Concat(Pieces(className, PascalToSnakeCase(className)))
  }

  /**
    The generated file is named after the snake-case class name; `@JsonSerializable()`
    comes right before the class header, whose body opens with the no-argument
    constructor; `fromJson` and `toJson` call `_$NFromJson` and `_$NToJson`.
  */
  lemma JsonSerializableTemplateContents(className: string)
    ensures Contains(JsonSerializableTemplate(className), "import 'package:json_annotation/json_annotation.dart';")
    ensures Contains(JsonSerializableTemplate(className), "part '" + PascalToSnakeCase(className) + ".g.dart';")
    ensures Contains(JsonSerializableTemplate(className),
                     "@JsonSerializable()\nclass " + className + " {\n  " + className + "();")
    ensures Contains(JsonSerializableTemplate(className), "_$" + className + "FromJson(json)")
    ensures Contains(JsonSerializableTemplate(className), "_$" + className + "ToJson(this)")
  {
    var xs := Pieces(className, PascalToSnakeCase(className));
    ConcatContains(xs, 1);
    ConcatContains(xs, 3);
    ConcatContains(xs, 5);
    ConcatContains(xs, 7);
    ConcatContains(xs, 9);
  }

  /** The name of the `part` file has no upper-case letter, whatever the class name. */
  lemma JsonSerializablePartIsLowerCase(className: string)
    ensures exists f :: NoUpper(f) && Contains(JsonSerializableTemplate(className), "part '" + f + ".g.dart';")
  {
    JsonSerializableTemplateContents(className);
    PascalToSnakeCaseSpec(className);
  }
}
