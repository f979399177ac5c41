/** School names and the institutional suffix "초등학교" ("elementary
    school"): the form stores a name without it and puts it back when the
    class information is submitted. */
module SchoolName {

  /** The suffix the regular expression /초등학교$/ matches at the end of a name. */
  const Suffix: string := "초등학교"

  predicate EndsWith(s: string, suffix: string) {
    |suffix| <= |s| && s[|s| - |suffix|..] == suffix
  }

  /** `s.replace(/초등학교$/, '')`: the end-anchored pattern can match in one
      place only, so at most one trailing suffix is removed and a name without
      it comes back unchanged. */
  function StripSuffix(s: string): (r: string)
    ensures EndsWith(s, Suffix) ==> r + Suffix == s
    ensures !EndsWith(s, Suffix) ==> r == s
  {
    if EndsWith(s, Suffix) then s[..|s| - |Suffix|] else s
  }

  /** The name sent to the server: the stored name with the suffix re-appended. */
  function WithSuffix(name: string): (r: string)
    ensures EndsWith(r, Suffix) && |r| == |name| + |Suffix|
    ensures r[..|name|] == name
  {
    name + Suffix
  }

  /** Appending then stripping gives the name back, even when the name
      itself already ends with the suffix (only one copy is removed). */
  lemma StripAfterAppend(name: string)
    ensures StripSuffix(WithSuffix(name)) == name
  {
  }

  /** Stripping changes a name exactly when it ends with the suffix. */
  lemma StripChangesIffSuffixed(s: string)
    ensures StripSuffix(s) != s <==> EndsWith(s, Suffix)
  {
  }
}
