// Properties of the precedence defined by version.go's Compare and comparePreRelease.
module Precedence {
  import opened Wrappers
  import opened Decimal
  import opened VersionData
  import opened Parsing
  import opened Versions

  // ---------------------------------------------------------------------------------------------
  // String order

  lemma {:induction false} StrCompareAntisymmetric(x: string, y: string)
    ensures StrCompare(x, y) == -StrCompare(y, x)
  {
    if |x| > 0 && |y| > 0 && x[0] == y[0] {
      StrCompareAntisymmetric(x[1..], y[1..]);
    }
  }

  lemma {:induction false} StrCompareTransitive(x: string, y: string, z: string)
    requires StrCompare(x, y) <= 0 && StrCompare(y, z) <= 0
    ensures StrCompare(x, z) <= 0
  {
    if |x| > 0 && |y| > 0 && |z| > 0 && x[0] == y[0] == z[0] {
      StrCompareTransitive(x[1..], y[1..], z[1..]);
    }
  }

  // ---------------------------------------------------------------------------------------------
  // One position

  /** A numeric identifier is one `strToUint` accepts: all digits, the empty string included. */
  predicate IsNumeric(x: string) {
    ToUint(x, 0, 0).Ok?
  }

  lemma NumericIffDigits(x: string)
    ensures IsNumeric(x) <==> AllDigits(x)
    ensures IsNumeric(x) ==> ToUint(x, 0, 0).value == Value(x)
  {
    assert x[0..] == x;
  }

  /** The three identifier rules, and when the loop goes on to the next position. */
  lemma CompareIdentsRules(x: string, y: string)
    ensures IsNumeric(x) && !IsNumeric(y) ==> CompareIdents(x, y) == Decide(-1)
    ensures !IsNumeric(x) && IsNumeric(y) ==> CompareIdents(x, y) == Decide(1)
    ensures IsNumeric(x) && IsNumeric(y) ==>
              var m, n := Value(x), Value(y);
              CompareIdents(x, y) == Decide(if m < n then -1 else if m > n then 1 else 0)
    ensures !IsNumeric(x) && !IsNumeric(y) ==>
              CompareIdents(x, y) == (if x == y then Continue else Decide(StrCompare(x, y)))
    ensures CompareIdents(x, y).Continue? <==> !IsNumeric(x) && x == y
  {
    NumericIffDigits(x);
    NumericIffDigits(y);
  }

  lemma CompareIdentsAntisymmetric(x: string, y: string)
    ensures CompareIdents(x, y).Continue? <==> CompareIdents(y, x).Continue?
    ensures CompareIdents(x, y).Decide? ==> CompareIdents(y, x) == Decide(-CompareIdents(x, y).r)
  {
    StrCompareAntisymmetric(x, y);
  }

  lemma CompareIdentsTransitive(x: string, y: string, z: string)
    requires CompareIdents(x, y).Decide? && CompareIdents(x, y).r <= 0
    requires CompareIdents(y, z).Decide? && CompareIdents(y, z).r <= 0
    ensures CompareIdents(x, z).Decide? && CompareIdents(x, z).r <= 0
  {
    if !IsNumeric(x) && !IsNumeric(y) && !IsNumeric(z) {
      StrCompareTransitive(x, y, z);
      StrCompareAntisymmetric(x, y);
    }
  }

  // ---------------------------------------------------------------------------------------------
  // Identifier lists

  lemma {:induction false} IdentListAntisymmetric(a: seq<string>, b: seq<string>)
    ensures IdentListCompare(a, b) == -IdentListCompare(b, a)
  {
    if |a| > 0 && |b| > 0 {
      CompareIdentsAntisymmetric(a[0], b[0]);
      if CompareIdents(a[0], b[0]).Continue? {
        IdentListAntisymmetric(a[1..], b[1..]);
      }
    }
  }

  lemma {:induction false} IdentListReflexive(a: seq<string>)
    ensures IdentListCompare(a, a) == 0
  {
    if |a| > 0 {
      CompareIdentsRules(a[0], a[0]);
      IdentListReflexive(a[1..]);
    }
  }

  lemma {:induction false} IdentListTransitive(a: seq<string>, b: seq<string>, c: seq<string>)
    requires IdentListCompare(a, b) <= 0 && IdentListCompare(b, c) <= 0
    ensures IdentListCompare(a, c) <= 0
  {
    if |a| > 0 && |b| > 0 && |c| > 0 {
      var x, y, z := a[0], b[0], c[0];
      CompareIdentsRules(x, y);
      CompareIdentsRules(y, z);
      if CompareIdents(x, y).Continue? && CompareIdents(y, z).Continue? {
        IdentListTransitive(a[1..], b[1..], c[1..]);
      } else if CompareIdents(x, y).Decide? && CompareIdents(y, z).Decide? {
        CompareIdentsTransitive(x, y, z);
      }
    }
  }

  /** Equal alphanumeric identifiers go on to the next position. */
  lemma {:induction false} AlnumPrefixSkipped(p: seq<string>, a: seq<string>, b: seq<string>)
    requires forall k :: 0 <= k < |p| ==> !IsNumeric(p[k])
    ensures IdentListCompare(p + a, p + b) == IdentListCompare(a, b)
  {
    if |p| > 0 {
      CompareIdentsRules(p[0], p[0]);
      assert (p + a)[1..] == p[1..] + a && (p + b)[1..] == p[1..] + b;
      AlnumPrefixSkipped(p[1..], a, b);
    } else {
      assert p + a == a && p + b == b;
    }
  }

  /** After a run of equal alphanumeric identifiers, the list that runs out first is less. */
  lemma ShorterIsLess(p: seq<string>, q: seq<string>)
    requires forall k :: 0 <= k < |p| ==> !IsNumeric(p[k])
    requires |q| > 0
    ensures IdentListCompare(p, p + q) == -1 && IdentListCompare(p + q, p) == 1
  {
    AlnumPrefixSkipped(p, [], q);
    assert p + [] == p;
    IdentListAntisymmetric(p, p + q);
  }

  /** The first position at which both identifiers are numeric decides, whatever follows;
      two equal numbers there make the lists equal. */
  lemma NumericPositionDecides(x: string, y: string, a: seq<string>, b: seq<string>)
    requires AllDigits(x) && AllDigits(y)
    ensures var m, n := Value(x), Value(y);
            IdentListCompare([x] + a, [y] + b) == (if m < n then -1 else if m > n then 1 else 0)
  {
    NumericIffDigits(x);
    NumericIffDigits(y);
    CompareIdentsRules(x, y);
  }

  // ---------------------------------------------------------------------------------------------
  // Versions

  /** Swapping the two lists negates what `comparePreRelease` returns. */
  lemma {:induction false} PreReleaseAntisymmetric(a: seq<string>, b: seq<string>)
    ensures PreReleaseCompare(a, b) == -PreReleaseCompare(b, a)
  {
    IdentListAntisymmetric(a, b);
  }

  lemma CompareAntisymmetric(a: Version, b: Version)
    ensures Compare(a, Some(b)) == -Compare(b, Some(a))
  {
    PreReleaseAntisymmetric(Idents(a.preRelease), Idents(b.preRelease));
  }

  lemma CompareReflexive(a: Version)
    ensures Compare(a, Some(a)) == 0
  {
    IdentListReflexive(Idents(a.preRelease));
  }

  lemma PreReleaseTransitive(a: seq<string>, b: seq<string>, c: seq<string>)
    requires PreReleaseCompare(a, b) <= 0 && PreReleaseCompare(b, c) <= 0
    ensures PreReleaseCompare(a, c) <= 0
  {
    if |a| > 0 && |b| > 0 && |c| > 0 {
      IdentListTransitive(a, b, c);
    }
  }

  lemma CompareTransitive(a: Version, b: Version, c: Version)
    requires Compare(a, Some(b)) <= 0 && Compare(b, Some(c)) <= 0
    ensures Compare(a, Some(c)) <= 0
  {
    if a.major == b.major == c.major && a.minor == b.minor == c.minor && a.patch == b.patch == c.patch {
      PreReleaseTransitive(Idents(a.preRelease), Idents(b.preRelease), Idents(c.preRelease));
    }
  }

  /** Compare with 0 is an equivalence: versions that compare 0 compare alike with everything. */
  lemma EqualsIsEquivalence(a: Version, b: Version, c: Version)
    requires Compare(a, Some(b)) == 0
    ensures Compare(b, Some(a)) == 0
    ensures Compare(a, Some(c)) == Compare(b, Some(c))
  {
    CompareAntisymmetric(a, b);
    CompareAntisymmetric(a, c);
    CompareAntisymmetric(b, c);
    if Compare(b, Some(c)) <= 0 {
      CompareTransitive(a, b, c);
    }
    if Compare(c, Some(b)) <= 0 {
      CompareTransitive(c, b, a);
    }
    if Compare(a, Some(c)) <= 0 {
      CompareTransitive(b, a, c);
    }
    if Compare(c, Some(a)) <= 0 {
      CompareTransitive(c, a, b);
    }
  }

  /** Major, then minor, then patch: the first field that differs decides, numerically. */
  lemma CoreFieldsDecide(a: Version, b: Version)
    ensures a.major != b.major ==> Compare(a, Some(b)) == (if a.major < b.major then -1 else 1)
    ensures a.major == b.major && a.minor != b.minor ==>
              Compare(a, Some(b)) == (if a.minor < b.minor then -1 else 1)
    ensures a.major == b.major && a.minor == b.minor && a.patch != b.patch ==>
              Compare(a, Some(b)) == (if a.patch < b.patch then -1 else 1)
  {
  }

  /** With equal major, minor and patch, a version without pre-release identifiers is greater;
      two versions without them are equal. */
  lemma ReleaseOutranksPreRelease(a: Version, b: Version)
    requires a.major == b.major && a.minor == b.minor && a.patch == b.patch
    ensures |Idents(a.preRelease)| == 0 && |Idents(b.preRelease)| > 0 ==> Greater(a, Some(b)) && Less(b, Some(a))
    ensures |Idents(a.preRelease)| == 0 && |Idents(b.preRelease)| == 0 ==> Equals(a, Some(b))
  {
  }

  /** Build data is never read. */
  lemma BuildDataIgnored(a: Version, b: Version, x: Option<seq<string>>, y: Option<seq<string>>)
    ensures Compare(a.(buildData := x), Some(b.(buildData := y))) == Compare(a, Some(b))
  {
  }

  /** The five predicates, related through antisymmetry. */
  lemma PredicatesAgree(a: Version, b: Version)
    ensures Less(a, Some(b)) <==> Greater(b, Some(a))
    ensures LessOrEqual(a, Some(b)) <==> GreaterOrEqual(b, Some(a))
    ensures LessOrEqual(a, Some(b)) <==> !Greater(a, Some(b))
    ensures GreaterOrEqual(a, Some(b)) <==> !Less(a, Some(b))
    ensures Equals(a, Some(b)) <==> Equals(b, Some(a))
    ensures Equals(a, Some(b)) <==> LessOrEqual(a, Some(b)) && GreaterOrEqual(a, Some(b))
  {
    CompareAntisymmetric(a, b);
  }

  /** Every version is greater than no version. */
  lemma NilTarget(a: Version)
    ensures Greater(a, None) && GreaterOrEqual(a, None)
    ensures !Less(a, None) && !LessOrEqual(a, None) && !Equals(a, None)
  {
  }
}
