// version.go: parsing entry point, canonical rendering and precedence.
module Versions {
  import opened Wrappers
  import opened Decimal
  import opened VersionData
  import opened Parsing

  /** `Parse`: a fresh parser run over the input. */
  method Parse(src: string) returns (r: Result<Version, ParseError>)
    ensures r == ParseSrc(src)
  {
    var p := new Parser();
    r := p.Parse(src);
  }

  // ---------------------------------------------------------------------------------------------
  // Rendering

  /** `strings.Join`. */
  function Join(xs: seq<string>, sep: string): string {
    if |xs| == 0 then ""
    else if |xs| == 1 then xs[0]
    else xs[0] + sep + Join(xs[1..], sep)
  }

  /** `String`: "major.minor.patch", then "-" and the pre-release list if it is non-nil,
      then "+" and the build list if it is non-nil. No leading `v`. */
  function String(v: Version): (s: string)
    ensures |s| > 0 && IsDigit(s[0])
  {
    var core := NatToString(v.major) + "." + NatToString(v.minor) + "." + NatToString(v.patch);
    var withPre := if v.preRelease.Some? then core + "-" + Join(v.preRelease.value, ".") else core;
    if v.buildData.Some? then withPre + "+" + Join(v.buildData.value, ".") else withPre
  }

  // ---------------------------------------------------------------------------------------------
  // Precedence

  /** `len` of a possibly nil slice. */
  function Idents(xs: Option<seq<string>>): seq<string> {
    if xs.Some? then xs.value else []
  }

  /** Go's `<`, `>` on strings: lexicographic by code point (the order of their UTF-8 bytes). */
  function StrCompare(x: string, y: string): (r: int)
    ensures -1 <= r <= 1
    ensures r == 0 <==> x == y
  {
    if |x| == 0 then (if |y| == 0 then 0 else -1)
    else if |y| == 0 then 1
    else if x[0] < y[0] then -1
    else if x[0] > y[0] then 1
    else StrCompare(x[1..], y[1..])
  }

  /** What one iteration of the loop in `comparePreRelease` does with two identifiers. */
  datatype Step = Decide(r: int) | Continue

  function CompareIdents(x: string, y: string): (s: Step)
    ensures s.Decide? ==> -1 <= s.r <= 1
  {
    var xn := ToUint(x, 0, 0);
    var yn := ToUint(y, 0, 0);
    if xn.Ok? != yn.Ok? then Decide(if yn.Ok? then 1 else -1)
    else if xn.Ok? then Decide(if xn.value > yn.value then 1 else if xn.value < yn.value then -1 else 0)
    else
      var c := StrCompare(x, y);
      if c != 0 then Decide(c) else Continue
  }

  /** The loop of `comparePreRelease` from one position on: the list that runs out first is less. */
  function IdentListCompare(a: seq<string>, b: seq<string>): (r: int)
    ensures -1 <= r <= 1
  {
    if |a| == 0 then (if |b| == 0 then 0 else -1)
    else if |b| == 0 then 1
    else
      match CompareIdents(a[0], b[0])
      case Decide(r) => r
      case Continue => IdentListCompare(a[1..], b[1..])
  }

  /** `comparePreRelease`: a version without pre-release identifiers outranks one with them. */
  function PreReleaseCompare(a: seq<string>, b: seq<string>): int {
    if |a| == 0 && |b| > 0 then 1
    else if |b| == 0 && |a| > 0 then -1
    else IdentListCompare(a, b)
  }

  /** `Compare`: 1 when `v` is greater than `target` or `target` is nil, -1 when less, 0 when equal. */
  function Compare(v: Version, target: Option<Version>): (r: int)
    ensures -1 <= r <= 1
    ensures target.None? ==> r == 1
  {
    if target.None? then 1
    else
      var t := target.value;
      if v.major != t.major then (if v.major > t.major then 1 else -1)
      else if v.minor != t.minor then (if v.minor > t.minor then 1 else -1)
      else if v.patch != t.patch then (if v.patch > t.patch then 1 else -1)
      else
        PreReleaseCompare(Idents(v.preRelease), Idents(t.preRelease))
  }

  /** The loop of `comparePreRelease`, over the two slices by index, with its early returns. */
  method ComparePreRelease(v: Version, target: Version) returns (r: int)
    ensures r == PreReleaseCompare(Idents(v.preRelease), Idents(target.preRelease))
  {
    var vPre, targetPre := Idents(v.preRelease), Idents(target.preRelease);
    var vLen, targetLen := |vPre|, |targetPre|;
    if vLen == 0 && targetLen > 0 {
      return 1;
    }
    if targetLen == 0 && vLen > 0 {
      return -1;
    }
    var maxLen := vLen;
    if maxLen < targetLen {
      maxLen := targetLen;
    }
    for i := 0 to maxLen
      invariant i <= vLen && i <= targetLen
      invariant IdentListCompare(vPre, targetPre) == IdentListCompare(vPre[i..], targetPre[i..])
    {
      if i > vLen - 1 {
        return -1;
      }
      if i > targetLen - 1 {
        return 1;
      }
      var vIdent, targetIdent := vPre[i], targetPre[i];
      var vIdentIsNumber, targetIdentIsNumber := false, false;
      var vIdentNumber := StrToUint(vIdent, 0, 0);
      if vIdentNumber.Ok? {
        vIdentIsNumber := true;
      }
      var targetIdentNumber := StrToUint(targetIdent, 0, 0);
      if targetIdentNumber.Ok? {
        targetIdentIsNumber := true;
      }
      if vIdentIsNumber != targetIdentIsNumber {
        if targetIdentIsNumber {
          return 1;
        }
        return -1;
      }
      if vIdentIsNumber {
        if vIdentNumber.value > targetIdentNumber.value {
          return 1;
        } else if vIdentNumber.value < targetIdentNumber.value {
          return -1;
        }
        return 0;
      }
      var c := StrCompare(vIdent, targetIdent);
      if c > 0 {
        return 1;
      } else if c < 0 {
        return -1;
      }
      assert vPre[i..][1..] == vPre[i + 1..] && targetPre[i..][1..] == targetPre[i + 1..];
    }
    assert vPre[maxLen..] == [] && targetPre[maxLen..] == [];
    return 0;
  }

  function Less(v: Version, target: Option<Version>): bool {
    Compare(v, target) == -1
  }

  function LessOrEqual(v: Version, target: Option<Version>): bool {
    var cmp := Compare(v, target);
    cmp == -1 || cmp == 0
  }

  function Greater(v: Version, target: Option<Version>): bool {
    Compare(v, target) == 1
  }

  function GreaterOrEqual(v: Version, target: Option<Version>): bool {
    var cmp := Compare(v, target);
    cmp == 1 || cmp == 0
  }

  function Equals(v: Version, target: Option<Version>): bool {
    Compare(v, target) == 0
  }
}
