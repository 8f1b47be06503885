/**
 * Plugin and document versions: `MAJOR.MINOR.PATCH` with numeric identifiers,
 * ordered by precedence as in section 11 of Semantic Versioning 2.0.0, which
 * is what the `semver-compare` calls in the plugin decide. Versions are stored
 * as text in configs and documents, so the module also gives the decimal text
 * form and the parser that reads it back.
 */
module Versions {
  import opened Wrappers

  datatype Version = Version(major: nat, minor: nat, patch: nat)

  /** `semverCompare(a, b)`: -1, 0 or 1 as `a` precedes, equals or follows `b`. */
  function Compare(a: Version, b: Version): (c: int)
    ensures -1 <= c <= 1
    ensures c == 0 <==> a == b
    ensures c < 0 <==> (a.major < b.major
                        || (a.major == b.major && a.minor < b.minor)
                        || (a.major == b.major && a.minor == b.minor && a.patch < b.patch))
  {
    if a.major != b.major then (if a.major < b.major then -1 else 1)
    else if a.minor != b.minor then (if a.minor < b.minor then -1 else 1)
    else if a.patch != b.patch then (if a.patch < b.patch then -1 else 1)
    else 0
  }

  /** `semverCompare(a, b) <= 0`, the form every migration gate takes. */
  predicate AtMost(a: Version, b: Version) {
    Compare(a, b) <= 0
  }

  /** Precedence is antisymmetric: swapping the arguments negates the result. */
  lemma CompareAntisymmetric(a: Version, b: Version)
    ensures Compare(b, a) == -Compare(a, b)
  {
  }

  /** Precedence is transitive, so the gates form nested intervals. */
  lemma AtMostTransitive(a: Version, b: Version, c: Version)
    requires AtMost(a, b) && AtMost(b, c)
    ensures AtMost(a, c)
  {
  }

  function DigitChar(d: nat): (c: char)
    requires d < 10
    ensures '0' <= c <= '9'
  {
    "0123456789"[d]
  }

  function DigitValue(c: char): (d: nat)
    requires '0' <= c <= '9'
    ensures d < 10
  {
    (c as int - '0' as int) as nat
  }

  predicate IsDigits(s: string) {
    |s| > 0 && forall i :: 0 <= i < |s| ==> '0' <= s[i] <= '9'
  }

  /** The decimal number written by a string of digits (leading zeros allowed). */
  function DigitsValue(s: string): nat
    requires forall i :: 0 <= i < |s| ==> '0' <= s[i] <= '9'
  {
    if |s| == 0 then 0 else 10 * DigitsValue(s[..|s| - 1]) + DigitValue(s[|s| - 1])
  }

  /** The shortest decimal text of `n`. */
  function NatText(n: nat): (s: string)
    ensures IsDigits(s)
    ensures '.' !in s
  {
    if n < 10 then [DigitChar(n)] else NatText(n / 10) + [DigitChar(n % 10)]
  }

  /** The dot-separated fields of a string (`s.split('.')`). */
  function Fields(s: string): (parts: seq<string>)
    ensures |parts| >= 1
  {
    if |s| == 0 then [""]
    else if s[0] == '.' then [""] + Fields(s[1..])
    else
      var rest := Fields(s[1..]);
      [[s[0]] + rest[0]] + rest[1..]
  }

  /** The text form `"MAJOR.MINOR.PATCH"`. */
  function Text(v: Version): string {
    NatText(v.major) + "." + NatText(v.minor) + "." + NatText(v.patch)
  }

  /** Reads a version text back: exactly three dot-separated, non-empty digit fields. */
  function ParseVersion(s: string): (r: Option<Version>)
    ensures r.Some? ==> |Fields(s)| == 3
  {
    var f := Fields(s);
    if |f| == 3 && IsDigits(f[0]) && IsDigits(f[1]) && IsDigits(f[2])
    then Some(Version(DigitsValue(f[0]), DigitsValue(f[1]), DigitsValue(f[2])))
    else None
  }

  lemma {:induction false} DigitsValueOfNatText(n: nat)
    ensures DigitsValue(NatText(n)) == n
  {
    if n >= 10 {
      var s := NatText(n);
      assert s[..|s| - 1] == NatText(n / 10);
      DigitsValueOfNatText(n / 10);
      assert DigitValue(DigitChar(n % 10)) == n % 10;
    } else {
      assert DigitValue(DigitChar(n)) == n;
    }
  }

  /** A field without a dot is a single field. */
  lemma {:induction false} FieldsOfFieldText(a: string)
    requires '.' !in a
    ensures Fields(a) == [a]
  {
    if |a| > 0 {
      assert '.' !in a[1..];
      FieldsOfFieldText(a[1..]);
      assert [a[0]] + a[1..] == a;
    }
  }

  /** Splitting `a + "." + b` when `a` has no dot gives `a` followed by the fields of `b`. */
  lemma {:induction false} FieldsOfJoin(a: string, b: string)
    requires '.' !in a
    ensures Fields(a + "." + b) == [a] + Fields(b)
  {
    if |a| == 0 {
      assert a + "." + b == "." + b;
      assert ("." + b)[1..] == b;
    } else {
      var s := a + "." + b;
      assert s[0] == a[0];
      assert s[1..] == a[1..] + "." + b;
      assert '.' !in a[1..];
      FieldsOfJoin(a[1..], b);
      assert [a[0]] + a[1..] == a;
    }
  }

  /** Writing a version and reading it back gives the same version. */
  lemma ParseText(v: Version)
    ensures ParseVersion(Text(v)) == Some(v)
  {
    var a, b, c := NatText(v.major), NatText(v.minor), NatText(v.patch);
    assert Text(v) == a + "." + (b + "." + c);
    FieldsOfJoin(a, b + "." + c);
    FieldsOfJoin(b, c);
    FieldsOfFieldText(c);
    assert Fields(Text(v)) == [a, b, c];
    DigitsValueOfNatText(v.major);
    DigitsValueOfNatText(v.minor);
    DigitsValueOfNatText(v.patch);
  }

  /** Distinct versions have distinct texts, so comparing texts with `===` decides version equality. */
  lemma TextInjective(v: Version, w: Version)
    requires Text(v) == Text(w)
    ensures v == w
  {
    ParseText(v);
    ParseText(w);
  }
}
