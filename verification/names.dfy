/**
  Naming helpers used when a workload derives its Go package name and the
  identifiers of its companion CLI commands. Only ASCII letters are case-mapped.
  The functions carry no quantified postconditions so that they evaluate cheaply
  on literal names; their properties are stated as lemmas below.
 */
module Names {

  predicate IsUpper(c: char) { 'A' <= c <= 'Z' }

  predicate IsLower(c: char) { 'a' <= c <= 'z' }

  predicate IsDigit(c: char) { '0' <= c <= '9' }

  /** A package-name slug: lower-case ASCII letters and digits only. */
  predicate IsSlug(s: string) {
    forall i :: 0 <= i < |s| ==> IsLower(s[i]) || IsDigit(s[i])
  }

  function LowerChar(c: char): char {
    if IsUpper(c) then (c as int - 'A' as int + 'a' as int) as char else c
  }

  function UpperChar(c: char): char {
    if IsLower(c) then (c as int - 'a' as int + 'A' as int) as char else c
  }

  /** Lower-cases every ASCII letter and keeps every other character. */
  function ToLower(s: string): string {
    seq(|s|, i requires 0 <= i < |s| => LowerChar(s[i]))
  }

  /** The package-name slug of a workload name: lower-case, with every character
      that is not an ASCII letter or digit dropped. */
  function ToPackageName(name: string): string {
    if |name| == 0 then ""
    else
      var c := name[0];
      var rest := ToPackageName(name[1..]);
      if IsUpper(c) || IsLower(c) || IsDigit(c) then [LowerChar(c)] + rest else rest
  }

  /** Upper-cases the first character: the Go variable name of a CLI command. */
  function Capitalize(s: string): string {
    if |s| == 0 then "" else [UpperChar(s[0])] + s[1..]
  }

  /** The slug never grows, is made of lower-case letters and digits only,
      and leaves a name that is already a slug unchanged. */
  lemma {:induction false} ToPackageNameSpec(name: string)
    ensures |ToPackageName(name)| <= |name|
    ensures IsSlug(ToPackageName(name))
    ensures IsSlug(name) ==> ToPackageName(name) == name
  {
    if |name| > 0 {
      ToPackageNameSpec(name[1..]);
      var rest := ToPackageName(name[1..]);
      var c := name[0];
      if IsUpper(c) || IsLower(c) || IsDigit(c) {
        var r := [LowerChar(c)] + rest;
        assert ToPackageName(name) == r;
        assert forall i :: 1 <= i < |r| ==> r[i] == rest[i - 1];
      }
      if IsSlug(name) {
        assert IsSlug(name[1..]) by {
          assert forall i :: 0 <= i < |name[1..]| ==> name[1..][i] == name[i + 1];
        }
        assert name == [c] + name[1..];
      }
    }
  }

  /** Applying the slug twice is the same as applying it once. */
  lemma ToPackageNameIdempotent(name: string)
    ensures ToPackageName(ToPackageName(name)) == ToPackageName(name)
  {
    ToPackageNameSpec(name);
    ToPackageNameSpec(ToPackageName(name));
  }

  /** The slug of a concatenation is the concatenation of the slugs. */
  lemma {:induction false} ToPackageNameAppend(a: string, b: string)
    ensures ToPackageName(a + b) == ToPackageName(a) + ToPackageName(b)
  {
    if |a| > 0 {
      assert (a + b)[0] == a[0];
      assert (a + b)[1..] == a[1..] + b;
      ToPackageNameAppend(a[1..], b);
    } else {
      assert a + b == b;
    }
  }

  /** Joining two slugs with a hyphen and slugging the result glues them together. */
  lemma HyphenJoin(a: string, b: string)
    requires IsSlug(a) && IsSlug(b)
    ensures ToPackageName(a + "-" + b) == a + b
  {
    ToPackageNameAppend(a + "-", b);
    ToPackageNameAppend(a, "-");
    ToPackageNameSpec(a);
    ToPackageNameSpec(b);
  }

  /** The slug drops hyphens: "shared-name" becomes "sharedname". */
  lemma SharedNameExample()
    ensures ToPackageName("shared-name") == "sharedname"
  {
    SharedNameSlug("shared-name");
  }

  lemma SharedNameSlug(name: string)
    requires name == "shared-name"
    ensures ToPackageName(name) == "sharedname"
  {
    SharedAndNameAreSlugs();
    HyphenJoin("shared", "name");
    assert "shared" + "-" + "name" == name;
  }

  lemma SharedAndNameAreSlugs()
    ensures IsSlug("shared") && IsSlug("name")
  {
  }
}
