/** Bean names that the container derives from class names. */
module Naming {

  predicate IsUpper(c: char) {
    'A' <= c <= 'Z'
  }

  /** Lower-casing of one character; only the ASCII capitals change. */
  function Lower(c: char): char {
    if IsUpper(c) then (c as int - 'A' as int + 'a' as int) as char else c
  }

  /** The bean name of a class: its simple name with the first character
      lower-cased and every other character kept. The simple name must be
      non-empty, since the first character is cut off with substring(0, 1). */
  function ClassName(simpleName: string): (r: string)
    requires |simpleName| > 0
    ensures |r| == |simpleName|
    ensures r[0] == Lower(simpleName[0]) && !IsUpper(r[0])
    ensures forall i :: 1 <= i < |r| ==> r[i] == simpleName[i]
  {
    [Lower(simpleName[0])] + simpleName[1..]
  }

  /** Deriving a name from a derived name changes nothing. */
  lemma ClassNameIdempotent(simpleName: string)
    requires |simpleName| > 0
    ensures ClassName(ClassName(simpleName)) == ClassName(simpleName)
  {
    var once := ClassName(simpleName);
    assert ClassName(once)[0] == once[0];
    assert ClassName(once)[1..] == once[1..];
  }

  /** A simple name is its own bean name exactly when it does not start with a capital. */
  lemma ClassNameFixedPoint(simpleName: string)
    requires |simpleName| > 0
    ensures ClassName(simpleName) == simpleName <==> !IsUpper(simpleName[0])
  {
    if !IsUpper(simpleName[0]) {
      assert ClassName(simpleName) == [simpleName[0]] + simpleName[1..];
      assert [simpleName[0]] + simpleName[1..] == simpleName;
    }
  }

  /** Two simple names share a bean name exactly when they have the same length,
      agree after the first character, and their first characters lower-case alike
      ("Repository" and "repository" collide). */
  lemma ClassNameCollision(a: string, b: string)
    requires |a| > 0 && |b| > 0
    ensures ClassName(a) == ClassName(b) <==>
            |a| == |b| && Lower(a[0]) == Lower(b[0]) && a[1..] == b[1..]
  {
    if ClassName(a) == ClassName(b) {
      assert ClassName(a)[1..] == a[1..];
      assert ClassName(b)[1..] == b[1..];
    }
  }
}
