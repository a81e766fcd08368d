/** File-name suffixes the worker classifies files by. */
module Paths {

  /** `s.endsWith(suffix)`, comparing characters from the end of both
      strings until the suffix is used up. It holds exactly when the last
      `|suffix|` characters of `s` are `suffix`. */
  function EndsWith(s: string, suffix: string): (r: bool)
    ensures r <==> |suffix| <= |s| && s[|s| - |suffix|..] == suffix
    decreases |suffix|
  {
    if |suffix| == 0 then true
    else if |s| == 0 then false
    else s[|s| - 1] == suffix[|suffix| - 1] && EndsWith(s[..|s| - 1], suffix[..|suffix| - 1])
  }

  /** `JSON_EXTENSION`. */
  const JsonExtension: string := ".json"

  /** `PACKAGE_JSON`, built from the platform's path separator `sep`. */
  function PackageJson(sep: string): (p: string)
    ensures |p| == |sep| + 12
    ensures p[..|sep|] == sep
    ensures p[|sep|..] == "package.json"
  {
    sep + "package" + JsonExtension
  }

  /** Every path ending with `PACKAGE_JSON` also ends with `JSON_EXTENSION`,
      so the worker must test for the manifest suffix first. */
  lemma PackageJsonIsJson(s: string, sep: string)
    requires EndsWith(s, PackageJson(sep))
    ensures EndsWith(s, JsonExtension)
  {
  }

  /** A path no longer than `package.json` itself never ends with
      `PACKAGE_JSON` when the separator is non-empty: a bare relative
      `package.json` is not recognised as a manifest. */
  lemma ShortPathIsNotPackageJson(s: string, sep: string)
    requires sep != ""
    requires |s| <= 12
    ensures !EndsWith(s, PackageJson(sep))
  {
  }
}
