// The Version struct of version.go, shared by the parser and the comparator.
module VersionData {
  import opened Wrappers
  import opened Scanning

  /** `None` is a nil slice; `Some([])` is an empty, non-nil one. */
  datatype Version = Version(
    major: nat,
    minor: nat,
    patch: nat,
    preRelease: Option<seq<string>>,
    buildData: Option<seq<string>>)

  /** Characters the parser lets into a pre-release or build identifier. */
  predicate IdentChar(c: char) {
    IsAlnum(c) || c == '-'
  }

  /** An identifier as the parser builds it: it starts with an alphanumeric run, then runs and hyphens. */
  predicate ValidIdent(id: string) {
    && |id| > 0
    && IsAlnum(id[0])
    && forall k :: 0 <= k < |id| ==> IdentChar(id[k])
  }

  /** A pre-release or build list as the parser builds it: absent, or present with valid identifiers. */
  predicate ValidList(xs: Option<seq<string>>) {
    xs.Some? ==> |xs.value| > 0 && forall k :: 0 <= k < |xs.value| ==> ValidIdent(xs.value[k])
  }

  predicate WellFormed(v: Version) {
    ValidList(v.preRelease) && ValidList(v.buildData)
  }
}
