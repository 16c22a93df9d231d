/**
  modelClassTemplate of src/templates/modelClass.ts: an immutable Dart class with one
  `final` field per entry, a constructor with named `this.` parameters and a `copyWith`.
  The four field-dependent pieces are `map` then `join` over the fields.
*/
module ModelClassTemplate {
  import opened Text

  datatype ClassField = ClassField(name: string, fieldType: string)

  function ConstructorParam(f: ClassField): (r: string) { "this." + f.name }

  function FieldDeclaration(f: ClassField): (r: string) { "  final " + f.fieldType + " " + f.name + ";" }

  function CopyWithParam(f: ClassField): (r: string) { f.fieldType + "? " + f.name }

  function CopyWithAssignment(f: ClassField): (r: string) { f.name + ": " + f.name + " ?? this." + f.name }

  function ConstructorParams(fields: seq<ClassField>): (r: string) {
    Join(seq(|fields|, i requires 0 <= i < |fields| => ConstructorParam(fields[i])), ", ")
  }

  function FieldLines(fields: seq<ClassField>): (r: seq<string>) {
    seq(|fields|, i requires 0 <= i < |fields| => FieldDeclaration(fields[i]))
  }

  function FieldDeclarations(fields: seq<ClassField>): (r: string) {
    Join(FieldLines(fields), "\n")
  }

  function CopyWithParams(fields: seq<ClassField>): (r: string) {
    Join(seq(|fields|, i requires 0 <= i < |fields| => CopyWithParam(fields[i])), ", ")
  }

  function CopyWithBody(fields: seq<ClassField>): (r: string) {
    Join(seq(|fields|, i requires 0 <= i < |fields| => CopyWithAssignment(fields[i])), ",\n      ")
  }

  function Pieces(className: string, fields: seq<ClassField>): (r: seq<string>) {
    [ "\n", "class " + className + " {", "\n", FieldDeclarations(fields), "\n\n  ",
      className + "({", "\n    ", ConstructorParams(fields), "\n  });\n\n  ",
      className + " copyWith({", "\n    ", CopyWithParams(fields), "\n  }) {\n    ",
      "return " + className + "(", "\n      ", CopyWithBody(fields), "\n    );\n  }\n}\n" ]
  }

  /** modelClassTemplate(className, fields). */
  function ModelClassTemplate(className: string, fields: seq<ClassField>): (r: string) {
    Concat(Pieces(className, fields))
  }

  predicate SingleLine(f: ClassField) {
    '\n' !in f.name && '\n' !in f.fieldType
  }

  /**
    The field declarations are one line per field, in field order: splitting them at line
    breaks gives back each field's `  final T n;`, provided names and types are single lines.
  */
  lemma FieldDeclarationsAreLines(fields: seq<ClassField>)
    requires |fields| > 0
    requires forall i :: 0 <= i < |fields| ==> SingleLine(fields[i])
    ensures Split(FieldDeclarations(fields), '\n') == FieldLines(fields)
    ensures forall i :: 0 <= i < |fields| ==>
      Split(FieldDeclarations(fields), '\n')[i] == "  final " + fields[i].fieldType + " " + fields[i].name + ";"
  {
    var lines := FieldLines(fields);
    forall i | 0 <= i < |lines|
      ensures '\n' !in lines[i]
    {
      assert lines[i] == "  final " + fields[i].fieldType + " " + fields[i].name + ";";
    }
    SplitJoin(lines, '\n');
  }

  /** Without fields, all four field-dependent pieces are empty. */
  lemma NoFieldsEmptyPieces(className: string)
    ensures ConstructorParams([]) == "" && FieldDeclarations([]) == ""
    ensures CopyWithParams([]) == "" && CopyWithBody([]) == ""
  {
  }

  /** With one field, each piece is that field's text alone, with no separator. */
  lemma OneFieldPieces(f: ClassField)
    ensures ConstructorParams([f]) == "this." + f.name
    ensures FieldDeclarations([f]) == "  final " + f.fieldType + " " + f.name + ";"
    ensures CopyWithParams([f]) == f.fieldType + "? " + f.name
    ensures CopyWithBody([f]) == f.name + ": " + f.name + " ?? this." + f.name
  {
  }

  /**
    Every field contributes its declaration, its constructor parameter, its `copyWith`
    parameter and its `copyWith` assignment to the class.
  */
  lemma EveryFieldAppears(className: string, fields: seq<ClassField>, i: int)
    requires 0 <= i < |fields|
    ensures Contains(ModelClassTemplate(className, fields), "  final " + fields[i].fieldType + " " + fields[i].name + ";")
    ensures Contains(ModelClassTemplate(className, fields), "this." + fields[i].name)
    ensures Contains(ModelClassTemplate(className, fields), fields[i].fieldType + "? " + fields[i].name)
    ensures Contains(ModelClassTemplate(className, fields),
                     fields[i].name + ": " + fields[i].name + " ?? this." + fields[i].name)
  {
    var r := ModelClassTemplate(className, fields);
    var xs := Pieces(className, fields);
    var f := fields[i];
    ConcatContains(xs, 3);
    JoinContains(FieldLines(fields), "\n", i);
    ContainsTrans(r, FieldDeclarations(fields), FieldDeclaration(f));
    ConcatContains(xs, 7);
    JoinContains(seq(|fields|, j requires 0 <= j < |fields| => ConstructorParam(fields[j])), ", ", i);
    ContainsTrans(r, ConstructorParams(fields), ConstructorParam(f));
    ConcatContains(xs, 11);
    JoinContains(seq(|fields|, j requires 0 <= j < |fields| => CopyWithParam(fields[j])), ", ", i);
    ContainsTrans(r, CopyWithParams(fields), CopyWithParam(f));
    ConcatContains(xs, 15);
    JoinContains(seq(|fields|, j requires 0 <= j < |fields| => CopyWithAssignment(fields[j])), ",\n      ", i);
    ContainsTrans(r, CopyWithBody(fields), CopyWithAssignment(f));
  }

  /** The class name is written in the header, the constructor, `copyWith`'s return type and the returned call. */
  lemma ClassNamePlacement(className: string, fields: seq<ClassField>)
    ensures Contains(ModelClassTemplate(className, fields), "class " + className + " {")
    ensures Contains(ModelClassTemplate(className, fields), className + "({")
    ensures Contains(ModelClassTemplate(className, fields), className + " copyWith({")
    ensures Contains(ModelClassTemplate(className, fields), "return " + className + "(")
  {
    var xs := Pieces(className, fields);
    ConcatContains(xs, 1);
    ConcatContains(xs, 5);
    ConcatContains(xs, 9);
    ConcatContains(xs, 13);
  }
}
