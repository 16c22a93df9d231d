/**
  classTemplate of src/templates/class.ts: the Dart declaration for one of the five
  kinds offered by the "create class" command, or the empty string for any other label.
*/
module ClassTemplate {
  import opened Wrappers
  import opened Text

  /** The five class kinds the command offers. */
  datatype ClassKind = Class | SealedClass | AbstractClass | Interface | AbstractInterface

  /** The label under which each kind is offered, the string classTemplate switches on. */
  function Label(k: ClassKind): (r: string) {
    match k
    case Class => "Class"
    case SealedClass => "Sealed Class"
    case AbstractClass => "Abstract Class"
    case Interface => "Interface"
    case AbstractInterface => "Abstract Interface"
  }

  /** The Dart keywords written before the class name for each kind. */
  function Keywords(k: ClassKind): (r: string) {
    match k
    case Class => "class"
    case SealedClass => "sealed class"
    case AbstractClass => "abstract class"
    case Interface => "interface"
    case AbstractInterface => "abstract interface class"
  }

  /** The kind a label names, if any. */
  function KindOf(classType: string): (k: Option<ClassKind>)
    ensures k.Some? ==> Label(k.value) == classType
    ensures k.None? ==> forall j: ClassKind :: Label(j) != classType
  {
    if classType == "Class" then Some(Class)
    else if classType == "Sealed Class" then Some(SealedClass)
    else if classType == "Abstract Class" then Some(AbstractClass)
    else if classType == "Interface" then Some(Interface)
    else if classType == "Abstract Interface" then Some(AbstractInterface)
    else None
  }

  /** classTemplate(className, classType). */
  function ClassTemplate(className: string, classType: string): (r: string) {
    if classType == "Class" then "class " + className + " {}"
    else if classType == "Sealed Class" then "sealed class " + className + " {}"
    else if classType == "Abstract Class" then "abstract class " + className + " {}"
    else if classType == "Interface" then "interface " + className + " {}"
    else if classType == "Abstract Interface" then "abstract interface class " + className + " {}"
    else ""
  }

  /** Each known label gives its keywords, a space, the name and an empty body. */
  lemma ClassTemplateKnown(className: string, k: ClassKind)
    ensures ClassTemplate(className, Label(k)) == Keywords(k) + " " + className + " {}"
  {
  }

  /** Any label other than the five gives the empty string; the five give a non-empty declaration. */
  lemma ClassTemplateEmptyIffUnknown(className: string, classType: string)
    ensures ClassTemplate(className, classType) == [] <==> KindOf(classType).None?
  {
    if KindOf(classType).Some? {
      ClassTemplateKnown(className, KindOf(classType).value);
    }
  }

  /** For a known kind the declaration contains the class name and ends with " {}". */
  lemma ClassTemplateShape(className: string, k: ClassKind)
    ensures Contains(ClassTemplate(className, Label(k)), className)
    ensures EndsWith(ClassTemplate(className, Label(k)), " {}")
  {
    ClassTemplateKnown(className, k);
    ContainsMiddle(Keywords(k) + " ", className, " {}");
  }

  /**
    Reads a generated declaration back: its kind and its class name. The keyword prefixes
    differ early enough that the longest one is tried first and no two can be confused.
  */
  function ParseDeclaration(r: string): (res: Option<(ClassKind, string)>) {
    if !EndsWith(r, " {}") then None
    else
      var body := r[..|r| - 3];
      if StartsWith(body, "abstract interface class ") then Some((AbstractInterface, body[25..]))
      else if StartsWith(body, "abstract class ") then Some((AbstractClass, body[15..]))
      else if StartsWith(body, "sealed class ") then Some((SealedClass, body[13..]))
      else if StartsWith(body, "interface ") then Some((Interface, body[10..]))
      else if StartsWith(body, "class ") then Some((Class, body[6..]))
      else None
  }

  /** The declaration determines the kind and the name it was generated from. */
  lemma ParseClassTemplate(className: string, k: ClassKind)
    ensures ParseDeclaration(ClassTemplate(className, Label(k))) == Some((k, className))
  {
    var r := ClassTemplate(className, Label(k));
    var p := Keywords(k) + " ";
    var body := p + className;
    ClassTemplateKnown(className, k);
    assert r == body + " {}";
    assert r[..|r| - 3] == body;
    assert body[|p|..] == className;
    assert body[..|p|] == p;
    assert body[0] == p[0];
    match k {
      case Class =>
        DiffersAt(body, "abstract interface class ", 0);
        DiffersAt(body, "abstract class ", 0);
        DiffersAt(body, "sealed class ", 0);
        DiffersAt(body, "interface ", 0);
      case SealedClass =>
        DiffersAt(body, "abstract interface class ", 0);
        DiffersAt(body, "abstract class ", 0);
      case AbstractClass =>
        assert body[9] == p[9];
        DiffersAt(body, "abstract interface class ", 9);
      case Interface =>
        DiffersAt(body, "abstract interface class ", 0);
        DiffersAt(body, "abstract class ", 0);
        DiffersAt(body, "sealed class ", 0);
      case AbstractInterface =>
    }
  }

  /** A string that differs from `p` at some position of both does not start with `p`. */
  lemma DiffersAt(s: string, p: string, i: nat)
    requires i < |s| && i < |p| && s[i] != p[i]
    ensures !StartsWith(s, p)
  {
  }

  /** Distinct kinds or names never give the same declaration. */
  lemma ClassTemplateInjective(n1: string, k1: ClassKind, n2: string, k2: ClassKind)
    requires ClassTemplate(n1, Label(k1)) == ClassTemplate(n2, Label(k2))
    ensures k1 == k2 && n1 == n2
  {
    ParseClassTemplate(n1, k1);
    ParseClassTemplate(n2, k2);
  }
}
