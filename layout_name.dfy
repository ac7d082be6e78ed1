/**
 * The rewrite of a layout-manager class name read from the tv_layoutManager
 * attribute, before loadLayoutManagerFromName loads the class by reflection.
 */
module LayoutName {

  /** The package a bare class name is taken to live in. */
  const DefaultLayoutPackage := "com.owen.tvrecyclerview.widget."

  /** String.indexOf(char): the first index holding c, or -1 when there is none. */
  function IndexOf(s: string, c: char): (r: int)
    ensures -1 <= r < |s|
    ensures r == -1 <==> c !in s
    ensures 0 <= r ==> s[r] == c && forall j :: 0 <= j < r ==> s[j] != c
  {
    if |s| == 0 then -1
    else if s[0] == c then 0
    else if IndexOf(s[1..], c) == -1 then -1
    else IndexOf(s[1..], c) + 1
  }

  /**
   * The name as the source rewrites it: no dot means a class of the library's
   * widget package; a leading dot means a class relative to the application's
   * package, joined with an extra "."; any other name is already qualified.
   */
  function NormaliseName(name: string, packageName: string): (r: string)
    ensures '.' !in name ==> r == DefaultLayoutPackage + name
    ensures |name| > 0 && name[0] == '.' ==> r == packageName + "." + name
    ensures '.' in name && name[0] != '.' ==> r == name
  {
    var dotIndex := IndexOf(name, '.');
    if dotIndex == -1 then DefaultLayoutPackage + name
    else if dotIndex == 0 then packageName + "." + name
    else name
  }

  /** A relative name comes out with two dots between the package and the class. */
  lemma RelativeNameDoublesDot(name: string, packageName: string)
    requires |name| > 0 && name[0] == '.'
    ensures var r := NormaliseName(name, packageName);
            |r| >= |packageName| + 2 && r[|packageName|] == '.' && r[|packageName| + 1] == '.'
  {
  }

  /** For instance ".MyLayoutManager" in package "com.app" becomes "com.app..MyLayoutManager". */
  lemma RelativeNameExample()
    ensures NormaliseName(".MyLayoutManager", "com.app") == "com.app..MyLayoutManager"
  {
    assert ".MyLayoutManager"[0] == '.';
  }

  /** The rewrite with a relative name joined to the package by its own leading dot. */
  function IntendedName(name: string, packageName: string): (r: string)
    ensures '.' !in name ==> r == DefaultLayoutPackage + name
    ensures '.' in name && name[0] != '.' ==> r == name
    ensures |name| > 0 && name[0] == '.' ==> r == packageName + name
    // a relative name is the package, one dot, then the class name after the dot
    ensures |name| > 0 && name[0] == '.' ==>
              |r| == |packageName| + |name| && r[..|packageName|] == packageName
              && r[|packageName|] == '.' && r[|packageName| + 1..] == name[1..]
  {
    var dotIndex := IndexOf(name, '.');
    if dotIndex == -1 then DefaultLayoutPackage + name
    else if dotIndex == 0 then packageName + name
    else name
  }

  /** The intended rewrite of ".MyLayoutManager" in package "com.app" is "com.app.MyLayoutManager". */
  lemma IntendedNameExample()
    ensures IntendedName(".MyLayoutManager", "com.app") == "com.app.MyLayoutManager"
  {
    assert ".MyLayoutManager"[0] == '.';
  }

  /** The two rewrites agree on every name except a relative one. */
  lemma NamesAgreeUnlessRelative(name: string, packageName: string)
    requires |name| == 0 || name[0] != '.'
    ensures NormaliseName(name, packageName) == IntendedName(name, packageName)
  {
  }
}
