/**
  The parsed form of a YAML document, as far as the manifest updates need it: a tree of
  scalars, lists and string-keyed maps. Text, comments, formatting and key order are not
  part of this model.
*/
module Yaml {

  /**
    One node of a parsed YAML document. A number scalar, integer or floating point, is a
    JavaScript number once parsed: a finite value, NaN (`.nan`) or an infinity (`.inf`,
    `-.inf`). Zero has one representation here, as +0 and -0 behave alike below.
  */
  datatype Node =
    | Null
    | Bool(b: bool)
    | Num(x: real)
    | NaN
    | Infinity(negative: bool)
    | Str(s: string)
    | List(items: seq<Node>)
    | Map(entries: map<string, Node>)

  /** A document whose top level is a mapping, as pubspec.yaml and flavorizr.yaml are. */
  type Document = map<string, Node>

  /**
    JavaScript truthiness of the value a lookup returns: null, false, the number zero, NaN
    and the empty string are falsy; every other scalar, the infinities included, and every
    collection is truthy.
  */
  predicate Falsy(n: Node) {
    n == Null || n == Bool(false) || n == Num(0.0) || n == NaN || n == Str("")
  }

  /** A list of string scalars. */
  function StrList(xs: seq<string>): (n: Node)
    ensures n.List? && |n.items| == |xs|
    ensures forall i :: 0 <= i < |xs| ==> n.items[i] == Str(xs[i])
  {
    List(seq(|xs|, i requires 0 <= i < |xs| => Str(xs[i])))
  }

  /** StrList loses nothing: equal lists of scalars come from equal lists of strings. */
  lemma StrListInjective(xs: seq<string>, ys: seq<string>)
    requires StrList(xs) == StrList(ys)
    ensures xs == ys
  {
    assert |xs| == |ys|;
    forall i | 0 <= i < |xs|
      ensures xs[i] == ys[i]
    {
      assert StrList(xs).items[i] == Str(xs[i]);
      assert StrList(ys).items[i] == Str(ys[i]);
    }
  }
}
