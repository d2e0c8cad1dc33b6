/** The JavaScript string built-ins the storefront relies on: the `\s`
    character class, `trim`, `toUpperCase`, `startsWith` and `includes`. */
module JsText {

  /** The characters matched by `\s` (ECMAScript WhiteSpace and LineTerminator);
      `String.prototype.trim` strips the same set. */
  predicate IsSpace(c: char) {
    c == ' ' || c == '\t' || c == '\n' || c == '\U{000B}' || c == '\U{000C}' || c == '\r'
    || c == '\U{00A0}' || c == '\U{1680}' || ('\U{2000}' <= c <= '\U{200A}')
    || c == '\U{2028}' || c == '\U{2029}' || c == '\U{202F}' || c == '\U{205F}'
    || c == '\U{3000}' || c == '\U{FEFF}'
  }

  predicate NoSpace(s: string) {
    forall i :: 0 <= i < |s| ==> !IsSpace(s[i])
  }

  function TrimStart(s: string): (r: string)
    ensures |r| <= |s| && r == s[|s| - |r|..]
    ensures forall i :: 0 <= i < |s| - |r| ==> IsSpace(s[i])
    ensures r != [] ==> !IsSpace(r[0])
  {
    if s != [] && IsSpace(s[0]) then TrimStart(s[1..]) else s
  }

  function TrimEnd(s: string): (r: string)
    ensures |r| <= |s| && r == s[..|r|]
    ensures forall i :: |r| <= i < |s| ==> IsSpace(s[i])
    ensures r != [] ==> !IsSpace(r[|r| - 1])
  {
    if s != [] && IsSpace(s[|s| - 1]) then TrimEnd(s[..|s| - 1]) else s
  }

  /** `String.prototype.trim`: what is left after dropping leading and trailing
      white space. */
  function Trim(s: string): (r: string)
    ensures |r| <= |s|
    ensures r != [] ==> !IsSpace(r[0]) && !IsSpace(r[|r| - 1])
  {
    TrimEnd(TrimStart(s))
  }

  /** The trimmed string is an infix of the original, starting after the
      leading white space. */
  lemma TrimIsInfix(s: string)
    ensures var k := |s| - |TrimStart(s)|;
      k + |Trim(s)| <= |s| && forall i :: 0 <= i < |Trim(s)| ==> Trim(s)[i] == s[k + i]
  {
    var t := TrimStart(s);
    var u := TrimEnd(t);
    var k := |s| - |t|;
    forall i | 0 <= i < |u| ensures u[i] == s[k + i] {
      assert u[i] == t[i];
      assert t[i] == s[k + i];
    }
  }

  /** Trimming leaves nothing exactly when every character is white space. */
  lemma TrimEmptyIffBlank(s: string)
    ensures Trim(s) == [] <==> forall i :: 0 <= i < |s| ==> IsSpace(s[i])
  {
    var t := TrimStart(s);
    var k := |s| - |t|;
    if Trim(s) == [] {
      assert t == [];
    } else {
      assert !IsSpace(Trim(s)[0]);
      TrimIsInfix(s);
      assert s[k] == Trim(s)[0];
    }
  }

  /** ASCII upper-casing of one character. */
  function UpperChar(c: char): (r: char)
    ensures 'a' <= c <= 'z' ==> 'A' <= r <= 'Z'
    ensures !('a' <= c <= 'z') ==> r == c
  {
    if 'a' <= c <= 'z' then (c as int - 'a' as int + 'A' as int) as char else c
  }

  /** `String.prototype.toUpperCase`, restricted to the ASCII letters. */
  function ToUpper(s: string): (r: string)
    ensures |r| == |s|
    ensures forall i :: 0 <= i < |s| ==> r[i] == UpperChar(s[i])
  {
    if s == [] then [] else [UpperChar(s[0])] + ToUpper(s[1..])
  }

  predicate StartsWith(s: string, prefix: string) {
    |prefix| <= |s| && s[..|prefix|] == prefix
  }

  /** `String.prototype.includes`. */
  predicate Contains(s: string, part: string) {
    exists i :: 0 <= i <= |s| - |part| && StartsWith(s[i..], part)
  }
}
