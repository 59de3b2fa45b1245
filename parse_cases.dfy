// What parser.go's parse does with text other than a rendering: the defaults for missing fields,
// the quirks of the major field, and the places where it stops with an error.
module ParseCases {
  import opened Wrappers
  import opened Decimal
  import opened Tokens
  import opened Scanning
  import opened VersionData
  import opened Parsing
  import opened Versions
  import opened RoundTrip

  /** The name of the kind `scan` gives a character that does not start an identifier. */
  function PunctName(c: char): string {
    if c == '.' then "." else if c == '-' then "-" else if c == '+' then "+" else "ILLEGAL"
  }

  /** The name of the token at the start of `rest`, when `rest` does not start an identifier. */
  function StopName(rest: string): string {
    if rest == [] then "EOF" else PunctName(rest[0])
  }

  /** A character that does not start an identifier is a token of its own, with an empty literal. */
  lemma {:induction false} NonAlnumToken(s: string, j: nat)
    requires j < |s| && !IsAlnum(s[j])
    ensures CursorAt(s, j).off == j + 1 && CursorAt(s, j).cur.pos == j && CursorAt(s, j).cur.lit == ""
    ensures Name(CursorAt(s, j).cur.tok) == PunctName(s[j])
  {
    NamesOfKinds();
  }

  /** Where the text after a field lies, when it does not start alphanumeric. */
  lemma {:induction false} RestStart(s: string, j: nat, rest: string)
    requires At(s, j, rest) && j + |rest| == |s| && (rest == [] || !IsAlnum(rest[0]))
    ensures j == |s| || !IsAlnum(s[j])
    ensures rest != [] ==> j < |s| && s[j] == rest[0]
  {
    if rest != [] {
      assert s[j + 0] == rest[0];
    }
  }

  lemma {:induction false} DotToken(s: string, j: nat)
    requires j < |s| && s[j] == '.'
    ensures CursorAt(s, j) == Cursor(j + 1, Lexeme(j, Dot, ""))
  {
  }

  /** The digits of a number are alphanumeric. */
  lemma {:induction false} DigitsAlnum(d: string)
    requires AllDigits(d)
    ensures forall k :: 0 <= k < |d| ==> IsAlnum(d[k])
  {
  }

  /** An alphanumeric literal that nothing alphanumeric extends scans as one identifier. */
  lemma {:induction false} ScanAlnum(s: string, j: nat, lit: string)
    requires At(s, j, lit) && |lit| > 0 && forall k :: 0 <= k < |lit| ==> IsAlnum(lit[k])
    requires j + |lit| == |s| || !IsAlnum(s[j + |lit|])
    ensures CursorAt(s, j) == Cursor(j + |lit|, Lexeme(j, Ident, lit))
  {
    forall k | j <= k < j + |lit| ensures IsAlnum(s[k]) {
      assert s[k] == lit[k - j];
    }
    ScanRun(s, j, j + |lit|);
    AtSlice(s, j, lit);
  }

  // ---------------------------------------------------------------------------------------------
  // The numeric fields

  /** The token of a numeric major field, and where the text after it lies. */
  lemma {:induction false} MajorTokens(s: string, d1: string, rest: string)
    requires |d1| > 0 && AllDigits(d1) && (rest == [] || !IsAlnum(rest[0]))
    requires At(s, 0, d1 + rest) && |s| == |d1| + |rest|
    ensures At(s, |d1|, rest)
    ensures CursorAt(s, 0) == Cursor(|d1|, Lexeme(0, Ident, d1))
  {
    AtSplit(s, 0, d1, rest, |d1|);
    RestStart(s, |d1|, rest);
    ScanDigits(s, 0, d1);
  }

  /** The tokens of a numeric major field and an alphanumeric minor literal, and where the text
      after them lies. */
  lemma {:induction false} MinorTokens(s: string, d1: string, d2: string, rest: string)
    requires |d1| > 0 && AllDigits(d1) && (rest == [] || !IsAlnum(rest[0]))
    requires |d2| > 0 && forall k :: 0 <= k < |d2| ==> IsAlnum(d2[k])
    requires At(s, 0, d1 + "." + d2 + rest) && |s| == |d1| + 1 + |d2| + |rest|
    ensures var p1, p2 := |d1|, |d1| + 1 + |d2|;
            && At(s, p2, rest)
            && CursorAt(s, 0) == Cursor(p1, Lexeme(0, Ident, d1))
            && CursorAt(s, p1) == Cursor(p1 + 1, Lexeme(p1, Dot, ""))
            && CursorAt(s, p1 + 1) == Cursor(p2, Lexeme(p1 + 1, Ident, d2))
  {
    var p1 := |d1|;
    var p2 := p1 + 1 + |d2|;
    AtSplit(s, 0, d1 + "." + d2, rest, p2);
    AtSplit(s, 0, d1 + ".", d2, p1 + 1);
    AtSplit(s, 0, d1, ".", p1);
    AtChar(s, p1, '.');
    DotToken(s, p1);
    RestStart(s, p2, rest);
    ScanDigits(s, 0, d1);
    ScanAlnum(s, p1 + 1, d2);
  }

  /** The tokens of three numeric fields, and where the text after them lies. */
  lemma {:induction false} PatchTokens(s: string, d1: string, d2: string, d3: string, rest: string)
    requires |d1| > 0 && |d2| > 0 && |d3| > 0 && AllDigits(d1) && AllDigits(d2) && AllDigits(d3)
    requires rest == [] || !IsAlnum(rest[0])
    requires At(s, 0, d1 + "." + d2 + "." + d3 + rest) && |s| == |d1| + 1 + |d2| + 1 + |d3| + |rest|
    ensures var p1 := |d1|; var p2 := p1 + 1 + |d2|; var p3 := p2 + 1 + |d3|;
            At(s, p3, rest) && CoreTokensAt(s, d1, d2, d3, p1, p2, p3)
  {
    var p1 := |d1|;
    var p2 := p1 + 1 + |d2|;
    var p3 := p2 + 1 + |d3|;
    ConcatText(s, d1, d2, d3, rest);
    CoreTokens(s, d1, d2, d3, p1, p2, p3);
  }

  /** A numeric major field: parsing goes on after it with its value. */
  lemma {:induction false} MajorValue(s: string, d1: string, p1: nat)
    requires |d1| > 0 && AllDigits(d1) && p1 <= |s| && CursorAt(s, 0) == Cursor(p1, Lexeme(0, Ident, d1))
    ensures ParseSrc(s) == AfterMajor(s, CursorAt(s, p1), Value(d1))
  {
    MajorDigits(d1);
  }

  /** Numeric major and minor fields: parsing goes on after them with their values. */
  lemma {:induction false} MinorValue(s: string, d1: string, d2: string, p1: nat, p2: nat)
    requires |d1| > 0 && AllDigits(d1) && AllDigits(d2) && p1 < p2 <= |s|
    requires CursorAt(s, 0) == Cursor(p1, Lexeme(0, Ident, d1))
    requires CursorAt(s, p1) == Cursor(p1 + 1, Lexeme(p1, Dot, ""))
    requires CursorAt(s, p1 + 1) == Cursor(p2, Lexeme(p1 + 1, Ident, d2))
    ensures ParseSrc(s) == AfterMinor(s, CursorAt(s, p2), Value(d1), Value(d2))
  {
    MajorDigits(d1);
    DigitsValue(d2, p1 + 1);
    assert ParseSrc(s) == AfterMajor(s, CursorAt(s, p1), Value(d1));
  }

  // ---------------------------------------------------------------------------------------------
  // Where parse starts

  /** Text that does not start with an identifier is rejected at position 0, naming the token there. */
  lemma {:induction false} FirstTokenRejected(src: string)
    requires src == [] || !IsAlnum(src[0])
    ensures src == [] ==> ParseSrc(src) == Err(Unexpected("EOF", 0))
    ensures src != [] ==> ParseSrc(src) == Err(Unexpected(PunctName(src[0]), 0))
  {
    NamesOfKinds();
    if src != [] {
      NonAlnumToken(src, 0);
    }
  }

  /** `parseMajor` on the first literal: a bare `v` is its only error; after a `v` it reads the digits
      from index 2 of the literal (the stripped literal is sliced at `1` again); a field that is not
      numeric reads as 0. */
  lemma {:induction false} MajorFieldRules(lit: string)
    requires |lit| > 0
    ensures MajorInRange(lit, 0)
    ensures lit == "v" ==> MajorField(lit, 0) == Err(Unexpected("EOF", 1))
    ensures lit[0] != 'v' ==> MajorField(lit, 0) == Ok(if AllDigits(lit) then Value(lit) else 0)
    ensures lit[0] == 'v' && |lit| > 1 ==>
              MajorField(lit, 0) == Ok(if AllDigits(lit[2..]) then Value(lit[2..]) else 0)
  {
    NamesOfKinds();
    assert lit[0..] == lit;
    if |lit| > 1 {
      assert lit[1..][1..] == lit[2..];
    }
  }

  /** A `v` on its own is rejected as a missing number at position 1. */
  lemma {:induction false} BareV(rest: string)
    requires rest == [] || !IsAlnum(rest[0])
    ensures ParseSrc("v" + rest) == Err(Unexpected("EOF", 1))
  {
    var s := "v" + rest;
    AtWhole(s);
    ScanAlnum(s, 0, "v");
    MajorFieldRules("v");
  }

  /** `v` and digits: the first digit is dropped along with the `v`. */
  lemma {:induction false} VPrefixed(d: string)
    requires |d| > 0 && AllDigits(d)
    ensures ParseSrc("v" + d) == Ok(Version(Value(d[1..]), 0, 0, None, None))
  {
    var s := "v" + d;
    AtWhole(s);
    forall k | 0 <= k < |s| ensures IsAlnum(s[k]) {
      if k > 0 {
        assert s[k] == d[k - 1];
      }
    }
    ScanAlnum(s, 0, s);
    MajorFieldRules(s);
    assert s[2..] == d[1..];
  }

  /** A first identifier that is not a number and has no `v` gives major 0, and no error. */
  lemma {:induction false} NonNumericMajor(lit: string)
    requires |lit| > 0 && lit[0] != 'v' && !AllDigits(lit)
    requires forall k :: 0 <= k < |lit| ==> IsAlnum(lit[k])
    ensures ParseSrc(lit) == Ok(Version(0, 0, 0, None, None))
  {
    AtWhole(lit);
    ScanAlnum(lit, 0, lit);
    MajorFieldRules(lit);
  }

  // ---------------------------------------------------------------------------------------------
  // Missing fields

  /** Text that ends after the major field: minor and patch are 0. */
  lemma {:induction false} MajorOnly(d: string)
    requires |d| > 0 && AllDigits(d)
    ensures ParseSrc(d) == Ok(Version(Value(d), 0, 0, None, None))
  {
    AtWhole(d);
    assert d + [] == d;
    MajorTokens(d, d, []);
    MajorValue(d, d, |d|);
  }

  /** Text that ends after the minor field: patch is 0. */
  lemma {:induction false} MajorMinor(d1: string, d2: string)
    requires |d1| > 0 && |d2| > 0 && AllDigits(d1) && AllDigits(d2)
    ensures ParseSrc(d1 + "." + d2) == Ok(Version(Value(d1), Value(d2), 0, None, None))
  {
    var s := d1 + "." + d2;
    AtWhole(s);
    assert s + [] == s;
    DigitsAlnum(d2);
    MinorTokens(s, d1, d2, []);
    MinorValue(s, d1, d2, |d1|, |s|);
  }

  /** The tokens of a numeric major field, a dot and a minor slot without an identifier. */
  lemma {:induction false} EmptyMinorTokens(s: string, d1: string, rest: string)
    requires |d1| > 0 && AllDigits(d1)
    requires rest == [] || !IsAlnum(rest[0])
    requires At(s, 0, d1 + "." + rest) && |s| == |d1| + 1 + |rest|
    ensures var p1 := |d1|;
            && CursorAt(s, 0) == Cursor(p1, Lexeme(0, Ident, d1))
            && CursorAt(s, p1) == Cursor(p1 + 1, Lexeme(p1, Dot, ""))
            && CursorAt(s, p1 + 1).cur.lit == ""
            && CursorAt(s, p1 + 1).off == (if rest == [] then |s| else p1 + 2)
  {
    var p1 := |d1|;
    AtSplit(s, 0, d1 + ".", rest, p1 + 1);
    AtSplit(s, 0, d1, ".", p1);
    AtChar(s, p1, '.');
    ScanDigits(s, 0, d1);
    if rest != [] {
      RestStart(s, p1 + 1, rest);
      NonAlnumToken(s, p1 + 1);
    }
  }

  lemma {:induction false} EmptyMinorValue(s: string, d1: string, p1: nat, q: nat)
    requires |d1| > 0 && AllDigits(d1) && p1 < q <= |s|
    requires CursorAt(s, 0) == Cursor(p1, Lexeme(0, Ident, d1))
    requires CursorAt(s, p1) == Cursor(p1 + 1, Lexeme(p1, Dot, ""))
    requires CursorAt(s, p1 + 1).cur.lit == "" && CursorAt(s, p1 + 1).off == q
    ensures ParseSrc(s) == AfterMinor(s, CursorAt(s, q), Value(d1), 0)
  {
    MajorValue(s, d1, p1);
    DigitsValue("", p1 + 1);
    assert Advance(s, CursorAt(s, p1 + 1)) == CursorAt(s, q);
  }

  /** A minor slot that holds no identifier reads as the empty literal, that is 0, and parsing
      goes on with the token after the one that stands in the slot: "1." and "1.." parse as
      1.0.0, "1.-.2" as 1.0.2. */
  lemma {:induction false} EmptyMinorSlot(d1: string, rest: string)
    requires |d1| > 0 && AllDigits(d1)
    requires rest == [] || !IsAlnum(rest[0])
    ensures rest != [] ==>
              ParseSrc(d1 + "." + rest) == AfterMinor(d1 + "." + rest, CursorAt(d1 + "." + rest, |d1| + 2), Value(d1), 0)
    ensures |rest| <= 1 ==> ParseSrc(d1 + "." + rest) == Ok(Version(Value(d1), 0, 0, None, None))
  {
    var s := d1 + "." + rest;
    var p1 := |d1|;
    AtWhole(s);
    EmptyMinorTokens(s, d1, rest);
    var q := if rest == [] then |s| else p1 + 2;
    EmptyMinorValue(s, d1, p1, q);
  }

  /** The tokens of numeric major and minor fields, a dot and a patch slot without an identifier. */
  lemma {:induction false} EmptyPatchTokens(s: string, d1: string, d2: string, rest: string, p1: nat, p2: nat)
    requires |d1| > 0 && |d2| > 0 && AllDigits(d1) && AllDigits(d2)
    requires rest == [] || !IsAlnum(rest[0])
    requires At(s, 0, d1 + "." + d2 + "." + rest) && |s| == |d1| + 1 + |d2| + 1 + |rest|
    requires p1 == |d1| && p2 == p1 + 1 + |d2|
    ensures && CursorAt(s, 0) == Cursor(p1, Lexeme(0, Ident, d1))
            && CursorAt(s, p1) == Cursor(p1 + 1, Lexeme(p1, Dot, ""))
            && CursorAt(s, p1 + 1) == Cursor(p2, Lexeme(p1 + 1, Ident, d2))
            && CursorAt(s, p2) == Cursor(p2 + 1, Lexeme(p2, Dot, ""))
            && CursorAt(s, p2 + 1).cur.lit == ""
            && CursorAt(s, p2 + 1).off == (if rest == [] then |s| else p2 + 2)
  {
    AtSplit(s, 0, d1 + "." + d2 + ".", rest, p2 + 1);
    AtSplit(s, 0, d1 + "." + d2, ".", p2);
    AtSplit(s, 0, d1 + ".", d2, p1 + 1);
    AtSplit(s, 0, d1, ".", p1);
    AtChar(s, p1, '.');
    AtChar(s, p2, '.');
    ScanDigits(s, 0, d1);
    ScanDotDigits(s, p1, d2);
    DotToken(s, p2);
    if rest != [] {
      RestStart(s, p2 + 1, rest);
      NonAlnumToken(s, p2 + 1);
    }
  }

  lemma {:induction false} EmptyPatchValue(s: string, d1: string, d2: string, p1: nat, p2: nat, q: nat)
    requires |d1| > 0 && AllDigits(d1) && AllDigits(d2) && p1 < p2 < q <= |s|
    requires CursorAt(s, 0) == Cursor(p1, Lexeme(0, Ident, d1))
    requires CursorAt(s, p1) == Cursor(p1 + 1, Lexeme(p1, Dot, ""))
    requires CursorAt(s, p1 + 1) == Cursor(p2, Lexeme(p1 + 1, Ident, d2))
    requires CursorAt(s, p2) == Cursor(p2 + 1, Lexeme(p2, Dot, ""))
    requires CursorAt(s, p2 + 1).cur.lit == "" && CursorAt(s, p2 + 1).off == q
    ensures ParseSrc(s) == AfterPatch(s, CursorAt(s, q), Value(d1), Value(d2), 0)
  {
    MinorValue(s, d1, d2, p1, p2);
    DigitsValue("", p2 + 1);
    assert Advance(s, CursorAt(s, p2 + 1)) == CursorAt(s, q);
  }

  /** A patch slot that holds no identifier reads as 0 in the same way, and parsing goes on with the
      token after the one in the slot: "1.2." and "1.2.." parse as 1.2.0, "1.2..-a" as 1.2.0-a, and
      "1.2.-a" fails on the identifier at 5. The slot's token stands at `p2 + 1`. */
  lemma {:induction false} EmptyPatchSlot(s: string, d1: string, d2: string, rest: string, p2: nat)
    requires |d1| > 0 && |d2| > 0 && AllDigits(d1) && AllDigits(d2)
    requires rest == [] || !IsAlnum(rest[0])
    requires s == d1 + "." + d2 + "." + rest && p2 == |d1| + 1 + |d2|
    ensures rest != [] ==> ParseSrc(s) == AfterPatch(s, CursorAt(s, p2 + 2), Value(d1), Value(d2), 0)
    ensures |rest| <= 1 ==> ParseSrc(s) == Ok(Version(Value(d1), Value(d2), 0, None, None))
  {
    var p1 := |d1|;
    AtWhole(s);
    EmptyPatchTokens(s, d1, d2, rest, p1, p2);
    var q := if rest == [] then |s| else p2 + 2;
    EmptyPatchValue(s, d1, d2, p1, p2, q);
  }

  /** Text that ends after the patch field, leading zeros and all. */
  lemma {:induction false} CoreOnly(d1: string, d2: string, d3: string)
    requires |d1| > 0 && |d2| > 0 && |d3| > 0 && AllDigits(d1) && AllDigits(d2) && AllDigits(d3)
    ensures ParseSrc(d1 + "." + d2 + "." + d3) == Ok(Version(Value(d1), Value(d2), Value(d3), None, None))
  {
    var s := d1 + "." + d2 + "." + d3;
    AtWhole(s);
    assert s + [] == s;
    var p1 := |d1|;
    var p2 := p1 + 1 + |d2|;
    PatchTokens(s, d1, d2, d3, []);
    CoreFields(s, d1, d2, d3, p1, p2, |s|);
  }

  // ---------------------------------------------------------------------------------------------
  // A minor or patch literal that is not a number

  /** An alphanumeric literal in the minor slot that is not a number: the error names its first
      non-digit, at that character's position. */
  lemma {:induction false} NonNumericMinorValue(s: string, d1: string, lit: string, p1: nat, p2: nat)
    requires |d1| > 0 && AllDigits(d1) && !AllDigits(lit) && p1 < p2 <= |s|
    requires CursorAt(s, 0) == Cursor(p1, Lexeme(0, Ident, d1))
    requires CursorAt(s, p1) == Cursor(p1 + 1, Lexeme(p1, Dot, ""))
    requires CursorAt(s, p1 + 1) == Cursor(p2, Lexeme(p1 + 1, Ident, lit))
    ensures ParseSrc(s) == Err(Unexpected([lit[FirstNonDigit(lit)]], p1 + 1 + FirstNonDigit(lit)))
  {
    MajorValue(s, d1, p1);
    assert lit[0..] == lit;
  }

  lemma {:induction false} NonNumericMinor(d1: string, lit: string, rest: string)
    requires |d1| > 0 && AllDigits(d1) && (rest == [] || !IsAlnum(rest[0]))
    requires |lit| > 0 && !AllDigits(lit) && forall k :: 0 <= k < |lit| ==> IsAlnum(lit[k])
    ensures ParseSrc(d1 + "." + lit + rest) ==
            Err(Unexpected([lit[FirstNonDigit(lit)]], |d1| + 1 + FirstNonDigit(lit)))
  {
    var s := d1 + "." + lit + rest;
    AtWhole(s);
    NonNumericMinorAt(s, d1, lit, rest);
  }

  lemma {:induction false} NonNumericMinorAt(s: string, d1: string, lit: string, rest: string)
    requires |d1| > 0 && AllDigits(d1) && (rest == [] || !IsAlnum(rest[0]))
    requires |lit| > 0 && !AllDigits(lit) && forall k :: 0 <= k < |lit| ==> IsAlnum(lit[k])
    requires At(s, 0, d1 + "." + lit + rest) && |s| == |d1| + 1 + |lit| + |rest|
    ensures ParseSrc(s) == Err(Unexpected([lit[FirstNonDigit(lit)]], |d1| + 1 + FirstNonDigit(lit)))
  {
    MinorTokens(s, d1, lit, rest);
    NonNumericMinorValue(s, d1, lit, |d1|, |d1| + 1 + |lit|);
  }

  /** The tokens of numeric major and minor fields and an alphanumeric patch literal. */
  lemma {:induction false} PatchSlotTokens(s: string, d1: string, d2: string, lit: string, rest: string)
    requires |d1| > 0 && |d2| > 0 && AllDigits(d1) && AllDigits(d2) && (rest == [] || !IsAlnum(rest[0]))
    requires |lit| > 0 && forall k :: 0 <= k < |lit| ==> IsAlnum(lit[k])
    requires At(s, 0, d1 + "." + d2 + "." + lit + rest) && |s| == |d1| + 1 + |d2| + 1 + |lit| + |rest|
    ensures var p1 := |d1|; var p2 := p1 + 1 + |d2|; var p3 := p2 + 1 + |lit|;
            CoreTokensAt(s, d1, d2, lit, p1, p2, p3)
  {
    var p1 := |d1|;
    var p2 := p1 + 1 + |d2|;
    var p3 := p2 + 1 + |lit|;
    AtSplit(s, 0, d1 + "." + d2 + "." + lit, rest, p3);
    AtSplit(s, 0, d1 + "." + d2 + ".", lit, p2 + 1);
    AtSplit(s, 0, d1 + "." + d2, ".", p2);
    AtSplit(s, 0, d1 + ".", d2, p1 + 1);
    AtSplit(s, 0, d1, ".", p1);
    AtChar(s, p1, '.');
    AtChar(s, p2, '.');
    RestStart(s, p3, rest);
    ScanDigits(s, 0, d1);
    ScanDotDigits(s, p1, d2);
    DotToken(s, p2);
    ScanAlnum(s, p2 + 1, lit);
  }

  lemma {:induction false} NonNumericPatchValue(s: string, d1: string, d2: string, lit: string, p1: nat, p2: nat, p3: nat)
    requires |d1| > 0 && AllDigits(d1) && AllDigits(d2) && !AllDigits(lit)
    requires CoreTokensAt(s, d1, d2, lit, p1, p2, p3)
    ensures var i := FirstNonDigit(lit); ParseSrc(s) == Err(Unexpected([lit[i]], p2 + 1 + i))
  {
    MinorValue(s, d1, d2, p1, p2);
    assert lit[0..] == lit;
  }

  /** An alphanumeric literal in the patch slot that is not a number: the error names its first
      non-digit, at that character's position. */
  lemma {:induction false} NonNumericPatch(d1: string, d2: string, lit: string, rest: string)
    requires |d1| > 0 && |d2| > 0 && AllDigits(d1) && AllDigits(d2) && (rest == [] || !IsAlnum(rest[0]))
    requires |lit| > 0 && !AllDigits(lit) && forall k :: 0 <= k < |lit| ==> IsAlnum(lit[k])
    ensures var i := FirstNonDigit(lit);
            ParseSrc(d1 + "." + d2 + "." + lit + rest) == Err(Unexpected([lit[i]], |d1| + 1 + |d2| + 1 + i))
  {
    var s := d1 + "." + d2 + "." + lit + rest;
    AtWhole(s);
    NonNumericPatchAt(s, d1, d2, lit, rest);
  }

  lemma {:induction false} NonNumericPatchAt(s: string, d1: string, d2: string, lit: string, rest: string)
    requires |d1| > 0 && |d2| > 0 && AllDigits(d1) && AllDigits(d2) && (rest == [] || !IsAlnum(rest[0]))
    requires |lit| > 0 && !AllDigits(lit) && forall k :: 0 <= k < |lit| ==> IsAlnum(lit[k])
    requires At(s, 0, d1 + "." + d2 + "." + lit + rest) && |s| == |d1| + 1 + |d2| + 1 + |lit| + |rest|
    ensures var i := FirstNonDigit(lit); ParseSrc(s) == Err(Unexpected([lit[i]], |d1| + 1 + |d2| + 1 + i))
  {
    var p1 := |d1|;
    var p2 := p1 + 1 + |d2|;
    PatchSlotTokens(s, d1, d2, lit, rest);
    NonNumericPatchValue(s, d1, d2, lit, p1, p2, p2 + 1 + |lit|);
  }

  // ---------------------------------------------------------------------------------------------
  // After the patch field

  /** The token after the patch field decides: anything but the end, `-` or `+` is rejected there. */
  lemma {:induction false} AfterPatchValue(s: string, d1: string, d2: string, d3: string, p1: nat, p2: nat, p3: nat)
    requires |d1| > 0 && AllDigits(d1) && AllDigits(d2) && AllDigits(d3)
    requires CoreTokensAt(s, d1, d2, d3, p1, p2, p3)
    requires var tok := CursorAt(s, p3).cur.tok; tok != EOF && tok != Hyphen && tok != Plus
    ensures ParseSrc(s) == Err(Unexpected(Name(CursorAt(s, p3).cur.tok), p3))
  {
    CoreFields(s, d1, d2, d3, p1, p2, p3);
  }

  /** After the patch field only the end, `-` or `+` may follow: a dot or an illegal character there
      is rejected at its position ("1.2.3.4" fails at 5). */
  lemma {:induction false} AfterPatchRejected(d1: string, d2: string, d3: string, rest: string)
    requires |d1| > 0 && |d2| > 0 && |d3| > 0 && AllDigits(d1) && AllDigits(d2) && AllDigits(d3)
    requires rest != [] && !IsAlnum(rest[0]) && rest[0] != '-' && rest[0] != '+'
    ensures ParseSrc(d1 + "." + d2 + "." + d3 + rest) ==
            Err(Unexpected(PunctName(rest[0]), |d1| + 1 + |d2| + 1 + |d3|))
  {
    var s := d1 + "." + d2 + "." + d3 + rest;
    AtWhole(s);
    AfterPatchRejectedAt(s, d1, d2, d3, rest);
  }

  lemma {:induction false} AfterPatchRejectedAt(s: string, d1: string, d2: string, d3: string, rest: string)
    requires |d1| > 0 && |d2| > 0 && |d3| > 0 && AllDigits(d1) && AllDigits(d2) && AllDigits(d3)
    requires rest != [] && !IsAlnum(rest[0]) && rest[0] != '-' && rest[0] != '+'
    requires At(s, 0, d1 + "." + d2 + "." + d3 + rest) && |s| == |d1| + 1 + |d2| + 1 + |d3| + |rest|
    ensures ParseSrc(s) == Err(Unexpected(PunctName(rest[0]), |d1| + 1 + |d2| + 1 + |d3|))
  {
    var p1 := |d1|;
    var p2 := p1 + 1 + |d2|;
    var p3 := p2 + 1 + |d3|;
    PatchTokens(s, d1, d2, d3, rest);
    RestStart(s, p3, rest);
    NonAlnumToken(s, p3);
    AfterPatchValue(s, d1, d2, d3, p1, p2, p3);
  }

  /** A `-` or `+` after the patch field, and a token after it that does not start an identifier. */
  lemma {:induction false} EmptyListValue(s: string, d1: string, d2: string, d3: string, p1: nat, p2: nat, p3: nat)
    requires |d1| > 0 && AllDigits(d1) && AllDigits(d2) && AllDigits(d3)
    requires CoreTokensAt(s, d1, d2, d3, p1, p2, p3) && p3 < |s|
    requires (CursorAt(s, p3).cur.tok == Hyphen || CursorAt(s, p3).cur.tok == Plus) && CursorAt(s, p3).off == p3 + 1
    requires CursorAt(s, p3 + 1).cur.tok != Ident
    ensures ParseSrc(s) == Err(Unexpected(Name(CursorAt(s, p3 + 1).cur.tok), p3 + 1))
  {
    CoreFields(s, d1, d2, d3, p1, p2, p3);
  }

  /** The tokens of three numeric fields, a mark, and what follows the mark. */
  lemma {:induction false} EmptyListTokens(s: string, d1: string, d2: string, d3: string, mark: char, rest: string,
                                           p1: nat, p2: nat, p3: nat)
    requires |d1| > 0 && |d2| > 0 && |d3| > 0 && AllDigits(d1) && AllDigits(d2) && AllDigits(d3)
    requires (mark == '-' || mark == '+') && (rest == [] || !IsAlnum(rest[0]))
    requires At(s, 0, d1 + "." + d2 + "." + d3 + ([mark] + rest))
    requires |s| == |d1| + 1 + |d2| + 1 + |d3| + 1 + |rest|
    requires p1 == |d1| && p2 == p1 + 1 + |d2| && p3 == p2 + 1 + |d3|
    ensures && CoreTokensAt(s, d1, d2, d3, p1, p2, p3) && p3 < |s|
            && (CursorAt(s, p3).cur.tok == Hyphen || CursorAt(s, p3).cur.tok == Plus) && CursorAt(s, p3).off == p3 + 1
            && CursorAt(s, p3 + 1).cur.tok != Ident
            && Name(CursorAt(s, p3 + 1).cur.tok) == StopName(rest)
  {
    PatchTokens(s, d1, d2, d3, [mark] + rest);
    AtSplit(s, p3, [mark], rest, p3 + 1);
    AtChar(s, p3, mark);
    RestStart(s, p3 + 1, rest);
    if rest != [] {
      NonAlnumToken(s, p3 + 1);
    }
    NamesOfKinds();
  }

  /** A `-` or `+` with no identifier after it is rejected at the position after the mark:
      "1.0.0-" and "1.0.0+" fail at 6. */
  lemma {:induction false} EmptyList(d1: string, d2: string, d3: string, mark: char, rest: string)
    requires |d1| > 0 && |d2| > 0 && |d3| > 0 && AllDigits(d1) && AllDigits(d2) && AllDigits(d3)
    requires (mark == '-' || mark == '+') && (rest == [] || !IsAlnum(rest[0]))
    ensures var p3 := |d1| + 1 + |d2| + 1 + |d3|;
            ParseSrc(d1 + "." + d2 + "." + d3 + ([mark] + rest)) ==
            Err(Unexpected(StopName(rest), p3 + 1))
  {
    var s := d1 + "." + d2 + "." + d3 + ([mark] + rest);
    AtWhole(s);
    EmptyListAt(s, d1, d2, d3, mark, rest);
  }

  lemma {:induction false} EmptyListAt(s: string, d1: string, d2: string, d3: string, mark: char, rest: string)
    requires |d1| > 0 && |d2| > 0 && |d3| > 0 && AllDigits(d1) && AllDigits(d2) && AllDigits(d3)
    requires (mark == '-' || mark == '+') && (rest == [] || !IsAlnum(rest[0]))
    requires At(s, 0, d1 + "." + d2 + "." + d3 + ([mark] + rest))
    requires |s| == |d1| + 1 + |d2| + 1 + |d3| + 1 + |rest|
    ensures var p3 := |d1| + 1 + |d2| + 1 + |d3|;
            ParseSrc(s) == Err(Unexpected(StopName(rest), p3 + 1))
  {
    var p1 := |d1|;
    var p2 := p1 + 1 + |d2|;
    var p3 := p2 + 1 + |d3|;
    EmptyListTokens(s, d1, d2, d3, mark, rest, p1, p2, p3);
    EmptyListValue(s, d1, d2, d3, p1, p2, p3);
  }

  // ---------------------------------------------------------------------------------------------
  // Inside the lists

  /** An identifier and a dot in a pre-release list: parsing goes on at `n`, after the dot. */
  lemma {:induction false} PreReleaseDot(s: string, j: nat, id: string, acc: seq<string>, n: nat)
    requires ValidIdent(id) && At(s, j, id) && n == j + |id| + 1 && n <= |s| && s[n - 1] == '.'
    ensures PreReleaseFrom(s, CursorAt(s, j), acc) == PreReleaseFrom(s, CursorAt(s, n), acc + [id])
  {
    PreReleaseNext(s, j, id, acc);
  }

  /** An identifier and a dot in a build list: parsing goes on at `n`, after the dot. */
  lemma {:induction false} BuildDataDot(s: string, j: nat, id: string, acc: seq<string>, n: nat)
    requires ValidIdent(id) && At(s, j, id) && n == j + |id| + 1 && n <= |s| && s[n - 1] == '.'
    ensures BuildDataFrom(s, CursorAt(s, j), acc) == BuildDataFrom(s, CursorAt(s, n), acc + [id])
  {
    BuildDataNext(s, j, id, acc);
  }

  /** `parsePreRelease` reads a list followed by a dot and goes on after the dot. */
  lemma {:induction false} PreReleaseThrough(s: string, j: nat, ids: seq<string>, acc: seq<string>, e: nat)
    requires ListAt(s, j, ids, e) && e < |s| && s[e] == '.'
    ensures PreReleaseFrom(s, CursorAt(s, j), acc) == PreReleaseFrom(s, CursorAt(s, e + 1), acc + ids)
    decreases |ids|
  {
    var id, m := ids[0], j + |ids[0]|;
    ConsAppend(acc, ids);
    if |ids| == 1 {
      PreReleaseDot(s, j, id, acc, e + 1);
    } else {
      PreReleaseDot(s, j, id, acc, m + 1);
      PreReleaseThrough(s, m + 1, ids[1..], acc + [id], e);
    }
  }

  /** `parseBuildData` reads a list followed by a dot and goes on after the dot. */
  lemma {:induction false} BuildDataThrough(s: string, j: nat, ids: seq<string>, acc: seq<string>, e: nat)
    requires ListAt(s, j, ids, e) && e < |s| && s[e] == '.'
    ensures BuildDataFrom(s, CursorAt(s, j), acc) == BuildDataFrom(s, CursorAt(s, e + 1), acc + ids)
    decreases |ids|
  {
    var id, m := ids[0], j + |ids[0]|;
    ConsAppend(acc, ids);
    if |ids| == 1 {
      BuildDataDot(s, j, id, acc, e + 1);
    } else {
      BuildDataDot(s, j, id, acc, m + 1);
      BuildDataThrough(s, m + 1, ids[1..], acc + [id], e);
    }
  }

  /** `parseIdent` reads identifier characters up to a character that does not extend them. */
  lemma {:induction false} IdentThrough(s: string, j: nat, e: nat, stop: Token, acc: string)
    requires j <= e <= |s| && stop != Ident && stop != Hyphen
    requires forall k :: j <= k < e ==> IdentChar(s[k])
    requires e == |s| || !IsAlnum(s[e])
    ensures IdentFrom(s, CursorAt(s, j), stop, acc) == IdentFrom(s, CursorAt(s, e), stop, acc + s[j..e])
    decreases e - j
  {
    if j == e {
      assert acc + s[j..e] == acc;
    } else {
      var c := CursorAt(s, j);
      PieceAt(s, j, e);
      var m := c.off;
      IdentStep(s, c, stop, acc);
      assert Advance(s, c) == CursorAt(s, m);
      IdentThrough(s, m, e, stop, acc + s[j..m]);
      SlicesJoin(acc, s, j, m, e);
    }
  }

  /** Build data ends only at the end of input: a `+` after an identifier is rejected there. */
  lemma {:induction false} BuildDataPlus(s: string, j: nat, ids: seq<string>, acc: seq<string>, e: nat)
    requires ListAt(s, j, ids, e) && e < |s| && s[e] == '+'
    ensures BuildDataFrom(s, CursorAt(s, j), acc) == Err(Unexpected("+", e))
    decreases |ids|
  {
    if |ids| > 1 {
      BuildDataNext(s, j, ids[0], acc);
      BuildDataPlus(s, j + |ids[0]| + 1, ids[1..], acc + [ids[0]], e);
    } else {
      BuildDataPlusLast(s, j, ids[0], acc, e);
    }
  }

  lemma {:induction false} BuildDataPlusLast(s: string, j: nat, id: string, acc: seq<string>, e: nat)
    requires ListAt(s, j, [id], e) && e < |s| && s[e] == '+'
    ensures BuildDataFrom(s, CursorAt(s, j), acc) == Err(Unexpected("+", e))
  {
    IdentCharsAt(s, j, id);
    IdentThrough(s, j, e, EOF, "");
    NamesOfKinds();
  }

  // ---------------------------------------------------------------------------------------------
  // Lists that end badly

  /** A `-` or `+` is a token of its own, with an empty literal. */
  lemma {:induction false} MarkToken(s: string, j: nat)
    requires j < |s| && (s[j] == '-' || s[j] == '+')
    ensures CursorAt(s, j) == Cursor(j + 1, Lexeme(j, if s[j] == '-' then Hyphen else Plus, ""))
  {
  }

  /** Text that does not start alphanumeric, up to the end: the token there is not an identifier. */
  lemma {:induction false} StopToken(s: string, j: nat, rest: string)
    requires At(s, j, rest) && j + |rest| == |s| && (rest == [] || !IsAlnum(rest[0]))
    ensures CursorAt(s, j).cur.tok != Ident && CursorAt(s, j).cur.pos == j
    ensures Name(CursorAt(s, j).cur.tok) == StopName(rest)
  {
    RestStart(s, j, rest);
    NamesOfKinds();
    if rest != [] {
      NonAlnumToken(s, j);
    }
  }

  /** A list followed by a dot, read from an empty accumulator: parsing goes on after the dot. */
  lemma {:induction false} DottedList(s: string, j: nat, ids: seq<string>, e: nat, mark: char)
    requires ListAt(s, j, ids, e) && e < |s| && s[e] == '.'
    ensures mark == '-' ==> PreReleaseFrom(s, CursorAt(s, j), []) == PreReleaseFrom(s, CursorAt(s, e + 1), ids)
    ensures mark != '-' ==> BuildDataFrom(s, CursorAt(s, j), []) == BuildDataFrom(s, CursorAt(s, e + 1), ids)
  {
    assert [] + ids == ids;
    if mark == '-' {
      PreReleaseThrough(s, j, ids, [], e);
    } else {
      BuildDataThrough(s, j, ids, [], e);
    }
  }

  /** Three numeric fields: parse reads them and goes on with the token after the patch field. */
  lemma {:induction false} CoreFieldsAt(s: string, d1: string, d2: string, d3: string, rest: string, p3: nat)
    requires |d1| > 0 && |d2| > 0 && |d3| > 0 && AllDigits(d1) && AllDigits(d2) && AllDigits(d3)
    requires rest == [] || !IsAlnum(rest[0])
    requires At(s, 0, d1 + "." + d2 + "." + d3 + rest) && |s| == |d1| + 1 + |d2| + 1 + |d3| + |rest|
    requires p3 == |d1| + 1 + |d2| + 1 + |d3|
    ensures At(s, p3, rest) && p3 + |rest| == |s|
    ensures ParseSrc(s) == AfterPatch(s, CursorAt(s, p3), Value(d1), Value(d2), Value(d3))
  {
    var p1 := |d1|;
    var p2 := p1 + 1 + |d2|;
    PatchTokens(s, d1, d2, d3, rest);
    CoreFields(s, d1, d2, d3, p1, p2, p3);
  }

  /** A mark and a list, in the text after the patch field. */
  lemma {:induction false} MarkedListText(s: string, p3: nat, mark: char, ids: seq<string>, tail: string, e: nat)
    requires (mark == '-' || mark == '+') && |ids| > 0 && forall k :: 0 <= k < |ids| ==> ValidIdent(ids[k])
    requires At(s, p3, [mark] + Join(ids, ".") + tail) && e == p3 + 1 + |Join(ids, ".")| && e + |tail| == |s|
    ensures && CursorAt(s, p3) == Cursor(p3 + 1, Lexeme(p3, if mark == '-' then Hyphen else Plus, ""))
            && ListAt(s, p3 + 1, ids, e) && At(s, e, tail)
  {
    AtSplit(s, p3, [mark] + Join(ids, "."), tail, e);
    MarkedList(s, p3, mark, ids);
    MarkToken(s, p3);
  }

  /** The suffix of a list that ends with a dot, and of what follows the dot. */
  lemma {:induction false} TrailingDotTokens(s: string, p3: nat, mark: char, ids: seq<string>, rest: string, e: nat)
    requires (mark == '-' || mark == '+') && |ids| > 0 && forall k :: 0 <= k < |ids| ==> ValidIdent(ids[k])
    requires rest == [] || !IsAlnum(rest[0])
    requires At(s, p3, [mark] + Join(ids, ".") + ("." + rest))
    requires e == p3 + 1 + |Join(ids, ".")| && e + 1 + |rest| == |s|
    ensures && p3 < |s| && e + 1 <= |s|
            && CursorAt(s, p3) == Cursor(p3 + 1, Lexeme(p3, if mark == '-' then Hyphen else Plus, ""))
            && (mark == '-' ==> PreReleaseFrom(s, CursorAt(s, p3 + 1), []) == PreReleaseFrom(s, CursorAt(s, e + 1), ids))
            && (mark != '-' ==> BuildDataFrom(s, CursorAt(s, p3 + 1), []) == BuildDataFrom(s, CursorAt(s, e + 1), ids))
            && CursorAt(s, e + 1).cur.tok != Ident && CursorAt(s, e + 1).cur.pos == e + 1
            && Name(CursorAt(s, e + 1).cur.tok) == StopName(rest)
  {
    MarkedListText(s, p3, mark, ids, "." + rest, e);
    AtSplit(s, e, ".", rest, e + 1);
    AtChar(s, e, '.');
    DottedList(s, p3 + 1, ids, e, mark);
    StopToken(s, e + 1, rest);
  }

  /** After the patch field: a mark and a list that ends with a dot. */
  lemma {:induction false} TrailingDotSuffix(s: string, p3: nat, mark: char, ids: seq<string>, rest: string,
                                             major: nat, minor: nat, patch: nat, e: nat)
    requires (mark == '-' || mark == '+') && |ids| > 0 && forall k :: 0 <= k < |ids| ==> ValidIdent(ids[k])
    requires rest == [] || !IsAlnum(rest[0])
    requires At(s, p3, [mark] + Join(ids, ".") + ("." + rest))
    requires e == p3 + 1 + |Join(ids, ".")| && e + 1 + |rest| == |s|
    ensures AfterPatch(s, CursorAt(s, p3), major, minor, patch) == Err(Unexpected(StopName(rest), e + 1))
  {
    TrailingDotTokens(s, p3, mark, ids, rest, e);
    assert Advance(s, CursorAt(s, p3)) == CursorAt(s, p3 + 1);
  }

  /** A pre-release or build list that ends with a dot is rejected after the dot, naming what is
      there: "1.0.0-a." and "1.0.0+a." fail at 8 with EOF. The patch field ends at `p3`; the
      trailing dot stands at `e`. */
  lemma {:induction false} TrailingDot(s: string, d1: string, d2: string, d3: string, mark: char,
                                       ids: seq<string>, rest: string, p3: nat, e: nat)
    requires |d1| > 0 && |d2| > 0 && |d3| > 0 && AllDigits(d1) && AllDigits(d2) && AllDigits(d3)
    requires (mark == '-' || mark == '+') && |ids| > 0 && forall k :: 0 <= k < |ids| ==> ValidIdent(ids[k])
    requires rest == [] || !IsAlnum(rest[0])
    requires s == d1 + "." + d2 + "." + d3 + ([mark] + Join(ids, ".") + ("." + rest))
    requires p3 == |d1| + 1 + |d2| + 1 + |d3| && e == p3 + 1 + |Join(ids, ".")|
    ensures ParseSrc(s) == Err(Unexpected(StopName(rest), e + 1))
  {
    var suffix := [mark] + Join(ids, ".") + ("." + rest);
    AtWhole(s);
    assert suffix[0] == mark;
    CoreFieldsAt(s, d1, d2, d3, suffix, p3);
    TrailingDotSuffix(s, p3, mark, ids, rest, Value(d1), Value(d2), Value(d3), e);
  }

  /** After the patch field: build data followed by a second `+`. */
  lemma {:induction false} SecondPlusSuffix(s: string, p3: nat, ids: seq<string>, rest: string,
                                            major: nat, minor: nat, patch: nat, e: nat)
    requires |ids| > 0 && forall k :: 0 <= k < |ids| ==> ValidIdent(ids[k])
    requires At(s, p3, ['+'] + Join(ids, ".") + ("+" + rest))
    requires e == p3 + 1 + |Join(ids, ".")| && e + 1 + |rest| == |s|
    ensures AfterPatch(s, CursorAt(s, p3), major, minor, patch) == Err(Unexpected("+", e))
  {
    MarkedListText(s, p3, '+', ids, "+" + rest, e);
    AtSplit(s, e, "+", rest, e + 1);
    AtChar(s, e, '+');
    BuildDataPlus(s, p3 + 1, ids, [], e);
    assert Advance(s, CursorAt(s, p3)) == CursorAt(s, p3 + 1);
  }

  /** Build data runs to the end of input: a second `+` is rejected where it stands ("1.0.0+a+b"
      fails at 7). The patch field ends at `p3`; the second `+` stands at `e`. */
  lemma {:induction false} SecondPlus(s: string, d1: string, d2: string, d3: string, ids: seq<string>, rest: string,
                                      p3: nat, e: nat)
    requires |d1| > 0 && |d2| > 0 && |d3| > 0 && AllDigits(d1) && AllDigits(d2) && AllDigits(d3)
    requires |ids| > 0 && forall k :: 0 <= k < |ids| ==> ValidIdent(ids[k])
    requires s == d1 + "." + d2 + "." + d3 + (['+'] + Join(ids, ".") + ("+" + rest))
    requires p3 == |d1| + 1 + |d2| + 1 + |d3| && e == p3 + 1 + |Join(ids, ".")|
    ensures ParseSrc(s) == Err(Unexpected("+", e))
  {
    var suffix := ['+'] + Join(ids, ".") + ("+" + rest);
    AtWhole(s);
    assert suffix[0] == '+';
    CoreFieldsAt(s, d1, d2, d3, suffix, p3);
    SecondPlusSuffix(s, p3, ids, rest, Value(d1), Value(d2), Value(d3), e);
  }
}
