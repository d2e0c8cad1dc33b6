/** The form validators of assets/js/validation.js: an e-mail test (a regular
    expression in the source), a password-length test and a "required" test. */
module Validation {
  import opened JsText
  import opened Seqs
  import opened Wrappers
  import JsNumber

  /** How often `c` occurs in `s`. */
  function Occurrences(s: string, c: char): nat {
    if s == [] then 0 else (if s[0] == c then 1 else 0) + Occurrences(s[1..], c)
  }

  lemma {:induction false} OccurrencesConcat(a: string, b: string, c: char)
    ensures Occurrences(a + b, c) == Occurrences(a, c) + Occurrences(b, c)
  {
    if a == [] {
      assert a + b == b;
    } else {
      assert (a + b)[1..] == a[1..] + b;
      OccurrencesConcat(a[1..], b, c);
    }
  }

  lemma {:induction false} OccurrencesZero(s: string, c: char)
    ensures Occurrences(s, c) == 0 <==> forall i :: 0 <= i < |s| ==> s[i] != c
  {
    if s != [] {
      OccurrencesZero(s[1..], c);
      assert forall i :: 1 <= i < |s| ==> s[i] == s[1..][i - 1];
    }
  }

  predicate IsAt(c: char) {
    c == '@'
  }

  /** A run that `[^\s@]+` matches. */
  predicate Atom(s: string) {
    |s| > 0 && forall i :: 0 <= i < |s| ==> !IsSpace(s[i]) && s[i] != '@'
  }

  /** The language of the pattern `^[^\s@]+@[^\s@]+\.[^\s@]+$`: a local part, `@`,
      and a domain that splits at some `.` into two runs, every run non-empty and
      free of white space and `@`. */
  ghost predicate MatchesEmailPattern(v: string) {
    exists i, j :: 0 < i && i + 1 < j && j + 1 < |v| && v[i] == '@' && v[j] == '.'
      && Atom(v[..i]) && Atom(v[i + 1..j]) && Atom(v[j + 1..])
  }

  /** The domain contains a `.` with at least one character on each side. */
  predicate HasInnerDot(d: string) {
    exists k :: 0 < k < |d| - 1 && d[k] == '.'
  }

  /** `isEmail`: no white space, exactly one `@`, something before it, and a
      domain after it with an inner dot. */
  predicate IsEmail(v: string) {
    NoSpace(v) && Occurrences(v, '@') == 1 &&
    match FindIndex(IsAt, v)
    case None => false
    case Some(a) => a > 0 && HasInnerDot(v[a + 1..])
  }

  /** With exactly one `@` in `v`, the first `@` is the only one. */
  lemma OnlyAt(v: string, a: nat)
    requires Occurrences(v, '@') == 1 && a < |v| && v[a] == '@'
    requires forall t :: 0 <= t < a ==> v[t] != '@'
    ensures forall t :: a < t < |v| ==> v[t] != '@'
  {
    var d := v[a + 1..];
    assert v == v[..a] + ([v[a]] + d);
    OccurrencesConcat(v[..a], [v[a]] + d, '@');
    OccurrencesConcat([v[a]], d, '@');
    OccurrencesZero(v[..a], '@');
    OccurrencesZero(d, '@');
    assert forall t :: a < t < |v| ==> v[t] == d[t - a - 1];
  }

  lemma EmailMatchesPattern(v: string)
    requires IsEmail(v)
    ensures MatchesEmailPattern(v)
  {
    var a := FindIndex(IsAt, v).value;
    var d := v[a + 1..];
    var k :| 0 < k < |d| - 1 && d[k] == '.';
    var j := a + 1 + k;
    OnlyAt(v, a);
    var local, left, right := v[..a], v[a + 1..j], v[j + 1..];
    assert forall t :: 0 <= t < |local| ==> local[t] == v[t];
    assert forall t :: 0 <= t < |left| ==> left[t] == v[a + 1 + t];
    assert forall t :: 0 <= t < |right| ==> right[t] == v[j + 1 + t];
    assert v[j] == d[k];
    assert Atom(local) && Atom(left) && Atom(right);
  }

  lemma FirstAt(v: string, i: nat)
    requires i < |v| && v[i] == '@' && forall t :: 0 <= t < i ==> v[t] != '@'
    ensures FindIndex(IsAt, v) == Some(i)
  {
    var r := FindIndex(IsAt, v);
    assert r.Some?;
    assert !(r.value < i) && !(r.value > i);
  }

  lemma CountSplit(local: string, left: string, right: string)
    requires Atom(local) && Atom(left) && Atom(right)
    ensures Occurrences(local + "@" + left + "." + right, '@') == 1
  {
    OccurrencesConcat(local + "@" + left + ".", right, '@');
    OccurrencesConcat(local + "@" + left, ".", '@');
    OccurrencesConcat(local + "@", left, '@');
    OccurrencesConcat(local, "@", '@');
    OccurrencesZero(local, '@');
    OccurrencesZero(left, '@');
    OccurrencesZero(right, '@');
  }

  lemma NoSpaceConcat(a: string, b: string)
    requires NoSpace(a) && NoSpace(b)
    ensures NoSpace(a + b)
  {
    assert forall t :: |a| <= t < |a + b| ==> (a + b)[t] == b[t - |a|];
  }

  lemma PartsHaveNoSpace(local: string, left: string, right: string)
    requires Atom(local) && Atom(left) && Atom(right)
    ensures NoSpace(local + "@" + left + "." + right)
  {
    NoSpaceConcat(local, "@");
    NoSpaceConcat(local + "@", left);
    NoSpaceConcat(local + "@" + left, ".");
    NoSpaceConcat(local + "@" + left + ".", right);
  }

  lemma PartsFirstAt(local: string, left: string, right: string)
    requires Atom(local)
    ensures FindIndex(IsAt, local + "@" + left + "." + right) == Some(|local|)
  {
    var w := local + "@" + left + "." + right;
    assert forall t :: 0 <= t < |local| ==> w[t] == local[t];
    assert w[|local|] == '@';
    FirstAt(w, |local|);
  }

  lemma PartsInnerDot(local: string, left: string, right: string)
    requires |left| > 0 && |right| > 0
    ensures HasInnerDot((local + "@" + left + "." + right)[|local| + 1..])
  {
    var d := (local + "@" + left + "." + right)[|local| + 1..];
    assert d == left + "." + right;
    assert d[|left|] == '.';
  }

  lemma Splice(v: string, i: nat, j: nat)
    requires i < j < |v| && v[i] == '@' && v[j] == '.'
    ensures v == v[..i] + "@" + v[i + 1..j] + "." + v[j + 1..]
  {
    assert v == v[..i] + v[i..];
    assert v[i..] == [v[i]] + v[i + 1..];
    assert v[i + 1..] == v[i + 1..j] + v[j..];
    assert v[j..] == [v[j]] + v[j + 1..];
  }

  lemma PatternIsEmail(v: string)
    requires MatchesEmailPattern(v)
    ensures IsEmail(v)
  {
    var i, j :| 0 < i && i + 1 < j && j + 1 < |v| && v[i] == '@' && v[j] == '.'
      && Atom(v[..i]) && Atom(v[i + 1..j]) && Atom(v[j + 1..]);
    var local, left, right := v[..i], v[i + 1..j], v[j + 1..];
    Splice(v, i, j);
    CountSplit(local, left, right);
    PartsHaveNoSpace(local, left, right);
    PartsFirstAt(local, left, right);
    PartsInnerDot(local, left, right);
  }

  /** The three conditions of IsEmail characterise the regular expression exactly. */
  lemma EmailCharacterisesPattern(v: string)
    ensures IsEmail(v) <==> MatchesEmailPattern(v)
  {
    if IsEmail(v) {
      EmailMatchesPattern(v);
    }
    if MatchesEmailPattern(v) {
      PatternIsEmail(v);
    }
  }

  /** `strongPassword`: at least six characters. JavaScript's `length` counts
      UTF-16 code units; here a character is one Unicode scalar value. */
  predicate StrongPassword(v: string) {
    |v| >= 6
  }

  /** What a form field may hold when `required` is called on it. */
  datatype FormValue = Missing | Text(s: string) | Number(n: int)

  /** `String(v || '')`: falsy values (missing, empty, zero) become the empty string. */
  function AsText(v: FormValue): string {
    match v
    case Missing => ""
    case Text(s) => s
    case Number(n) => if n == 0 then "" else JsNumber.IntToString(n)
  }

  /** `required`: the trimmed string form is not empty. */
  predicate Required(v: FormValue) {
    |Trim(AsText(v))| > 0
  }

  /** `required` holds exactly for text with a non-space character and for
      non-zero numbers; a missing value never passes. */
  lemma RequiredMeaning(v: FormValue)
    ensures Required(v) <==>
      (v.Text? && exists i :: 0 <= i < |v.s| && !IsSpace(v.s[i])) || (v.Number? && v.n != 0)
  {
    TrimEmptyIffBlank(AsText(v));
    if v.Number? && v.n != 0 {
      var s := AsText(v);
      assert !IsSpace(s[0]) by {
        if v.n >= 0 {
          assert JsNumber.IsDigit(s[0]);
        }
      }
    }
  }
}
