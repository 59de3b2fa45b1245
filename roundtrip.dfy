// Properties of parse as a whole: what it does with rendered versions, and the shape of what it returns.
module RoundTrip {
  import opened Wrappers
  import opened Decimal
  import opened Tokens
  import opened Scanning
  import opened VersionData
  import opened Parsing
  import opened Versions

  /** `w` occurs in `s` at position `j`. */
  predicate At(s: string, j: nat, w: string) {
    j + |w| <= |s| && forall k :: 0 <= k < |w| ==> s[j + k] == w[k]
  }

  lemma AtSlice(s: string, j: nat, w: string)
    requires At(s, j, w)
    ensures s[j..j + |w|] == w
  {
    forall k | 0 <= k < |w| ensures s[j..j + |w|][k] == w[k] {
      assert s[j + k] == w[k];
    }
  }

  /** `x + y` at `j` is `x` at `j` and `y` at `m`, the position right after `x`. */
  lemma AtSplit(s: string, j: nat, x: string, y: string, m: nat)
    requires At(s, j, x + y) && m == j + |x|
    ensures At(s, j, x) && At(s, m, y)
  {
    forall k | 0 <= k < |x| ensures s[j + k] == x[k] {
      assert (x + y)[k] == x[k];
    }
    forall k | 0 <= k < |y| ensures s[m + k] == y[k] {
      assert (x + y)[|x| + k] == y[k];
    }
  }

  lemma AtWhole(s: string)
    ensures At(s, 0, s)
  {
    forall k | 0 <= k < |s| ensures s[0 + k] == s[k] {
    }
  }

  lemma AtChar(s: string, j: nat, c: char)
    requires At(s, j, [c])
    ensures j < |s| && s[j] == c
  {
    assert s[j + 0] == [c][0];
  }

  // ---------------------------------------------------------------------------------------------
  // The scanner on known text

  /** A maximal alphanumeric run scans as one identifier. */
  lemma ScanRun(s: string, j: nat, e: nat)
    requires j < e <= |s|
    requires forall k :: j <= k < e ==> IsAlnum(s[k])
    requires e == |s| || !IsAlnum(s[e])
    ensures CursorAt(s, j) == Cursor(e, Lexeme(j, Ident, s[j..e]))
  {
  }

  /** A digit string followed by a non-alphanumeric character (or the end) scans as one identifier. */
  lemma ScanDigits(s: string, j: nat, d: string)
    requires At(s, j, d) && |d| > 0 && AllDigits(d)
    requires j + |d| == |s| || !IsAlnum(s[j + |d|])
    ensures CursorAt(s, j) == Cursor(j + |d|, Lexeme(j, Ident, d))
  {
    forall k | j <= k < j + |d| ensures IsAlnum(s[k]) {
      assert s[k] == d[k - j];
    }
    ScanRun(s, j, j + |d|);
  }

  /** A dot, then a digit string that nothing alphanumeric extends. */
  lemma ScanDotDigits(s: string, j: nat, d: string)
    requires At(s, j, ".") && At(s, j + 1, d) && |d| > 0 && AllDigits(d)
    requires j + 1 + |d| == |s| || !IsAlnum(s[j + 1 + |d|])
    ensures CursorAt(s, j) == Cursor(j + 1, Lexeme(j, Dot, ""))
    ensures CursorAt(s, j + 1) == Cursor(j + 1 + |d|, Lexeme(j + 1, Ident, d))
  {
    AtChar(s, j, '.');
    ScanDigits(s, j + 1, d);
  }

  /** `parseIdent` appends an identifier or hyphen token and goes on with the next token. */
  lemma IdentStep(s: string, c: Cursor, stop: Token, acc: string)
    requires CursorOk(s, c) && (c.cur.tok == Ident || c.cur.tok == Hyphen) && stop != c.cur.tok
    ensures var piece := if c.cur.tok == Ident then c.cur.lit else "-";
            IdentFrom(s, c, stop, acc) == IdentFrom(s, Advance(s, c), stop, acc + piece)
  {
  }

  /** The text an identifier or hyphen token covers. */
  lemma PieceAt(s: string, j: nat, e: nat)
    requires j < e <= |s| && IdentChar(s[j])
    requires forall k :: j <= k < e ==> IdentChar(s[k])
    requires e == |s| || !IsAlnum(s[e])
    ensures var c := CursorAt(s, j);
            && (c.cur.tok == Ident || c.cur.tok == Hyphen)
            && j < c.off <= e
            && (if c.cur.tok == Ident then c.cur.lit else "-") == s[j..c.off]
  {
    var c := CursorAt(s, j);
    if IsAlnum(s[j]) {
      assert c.off == RunEnd(s, j);
    } else {
      assert s[j..j + 1] == [s[j]];
    }
  }

  lemma SlicesJoin(acc: string, s: string, j: nat, m: nat, e: nat)
    requires j <= m <= e <= |s|
    ensures acc + s[j..m] + s[m..e] == acc + s[j..e]
  {
    assert s[j..m] + s[m..e] == s[j..e];
  }

  /** `parseIdent` reads the identifier characters from `j` up to a terminator at `e`. */
  lemma {:induction false} IdentAt(s: string, j: nat, e: nat, stop: Token, acc: string)
    requires j <= e <= |s| && (stop == Plus || stop == EOF)
    requires forall k :: j <= k < e ==> IdentChar(s[k])
    requires e == |s| || s[e] == '.' || (stop == Plus && s[e] == '+')
    ensures IdentFrom(s, CursorAt(s, j), stop, acc) == Ok((acc + s[j..e], CursorAt(s, e)))
    decreases e - j
  {
    if j == e {
      assert acc + s[j..e] == acc;
    } else {
      var c := CursorAt(s, j);
      PieceAt(s, j, e);
      var m := c.off;
      IdentStep(s, c, stop, acc);
      assert Advance(s, c) == CursorAt(s, m);
      IdentAt(s, m, e, stop, acc + s[j..m]);
      SlicesJoin(acc, s, j, m, e);
    }
  }

  lemma IdentCharsAt(s: string, j: nat, id: string)
    requires At(s, j, id) && ValidIdent(id)
    ensures forall k :: j <= k < j + |id| ==> IdentChar(s[k])
    ensures IsAlnum(s[j])
  {
    forall k | j <= k < j + |id| ensures IdentChar(s[k]) {
      assert s[k] == id[k - j];
    }
    assert s[j] == id[0];
  }

  /** The first identifier of a dot-joined list, and where the rest of the list starts. */
  lemma JoinHead(s: string, j: nat, ids: seq<string>)
    requires |ids| > 0 && At(s, j, Join(ids, "."))
    ensures At(s, j, ids[0])
    ensures |ids| == 1 ==> |Join(ids, ".")| == |ids[0]|
    ensures |ids| > 1 ==>
              && s[j + |ids[0]|] == '.'
              && At(s, j + |ids[0]| + 1, Join(ids[1..], "."))
              && |Join(ids, ".")| == |ids[0]| + 1 + |Join(ids[1..], ".")|
  {
    if |ids| > 1 {
      AtSplit(s, j, ids[0] + ".", Join(ids[1..], "."), j + |ids[0]| + 1);
      AtSplit(s, j, ids[0], ".", j + |ids[0]|);
      AtChar(s, j + |ids[0]|, '.');
    }
  }

  /** One identifier of `parsePreRelease`, then the end of the list or the next identifier. */
  lemma PreReleaseStep(s: string, c: Cursor, acc: seq<string>, id: string, d: Cursor)
    requires CursorOk(s, c) && c.cur.tok == Ident && IdentFrom(s, c, Plus, "") == Ok((id, d))
    ensures d.cur.tok == EOF || d.cur.tok == Plus ==> PreReleaseFrom(s, c, acc) == Ok((acc + [id], d))
    ensures d.cur.tok == Dot ==> PreReleaseFrom(s, c, acc) == PreReleaseFrom(s, Advance(s, d), acc + [id])
  {
  }

  /** One identifier of `parseBuildData`, then the end of the list or the next identifier. */
  lemma BuildDataStep(s: string, c: Cursor, acc: seq<string>, id: string, d: Cursor)
    requires CursorOk(s, c) && c.cur.tok == Ident && IdentFrom(s, c, EOF, "") == Ok((id, d))
    ensures d.cur.tok == EOF ==> BuildDataFrom(s, c, acc) == Ok((acc + [id], d))
    ensures d.cur.tok == Dot ==> BuildDataFrom(s, c, acc) == BuildDataFrom(s, Advance(s, d), acc + [id])
  {
  }

  lemma TailValid(ids: seq<string>)
    requires |ids| > 0 && forall k :: 0 <= k < |ids| ==> ValidIdent(ids[k])
    ensures forall k :: 0 <= k < |ids[1..]| ==> ValidIdent(ids[1..][k])
  {
    forall k | 0 <= k < |ids[1..]| ensures ValidIdent(ids[1..][k]) {
      assert ids[1..][k] == ids[k + 1];
    }
  }

  /** `ids`, valid identifiers separated by dots, occupy `s[j..e]`. */
  predicate ListAt(s: string, j: nat, ids: seq<string>, e: nat)
    decreases |ids|
  {
    && |ids| > 0 && ValidIdent(ids[0]) && At(s, j, ids[0])
    && if |ids| == 1 then e == j + |ids[0]|
       else j + |ids[0]| < |s| && s[j + |ids[0]|] == '.' && ListAt(s, j + |ids[0]| + 1, ids[1..], e)
  }

  /** A dot-joined list of valid identifiers in the text, identifier by identifier. */
  lemma {:induction false} JoinListAt(s: string, j: nat, ids: seq<string>)
    requires |ids| > 0 && forall k :: 0 <= k < |ids| ==> ValidIdent(ids[k])
    requires At(s, j, Join(ids, "."))
    ensures ListAt(s, j, ids, j + |Join(ids, ".")|)
    decreases |ids|
  {
    JoinHead(s, j, ids);
    if |ids| > 1 {
      TailValid(ids);
      JoinListAt(s, j + |ids[0]| + 1, ids[1..]);
    }
  }

  /** `parseIdent` reads a valid identifier at `j` and stops at the token after it. */
  lemma IdentTokens(s: string, j: nat, id: string, stop: Token)
    requires ValidIdent(id) && At(s, j, id) && (stop == Plus || stop == EOF)
    requires var e := j + |id|; e == |s| || s[e] == '.' || (stop == Plus && s[e] == '+')
    ensures CursorAt(s, j).cur.tok == Ident
    ensures IdentFrom(s, CursorAt(s, j), stop, "") == Ok((id, CursorAt(s, j + |id|)))
  {
    var e := j + |id|;
    IdentCharsAt(s, j, id);
    IdentAt(s, j, e, stop, "");
    AtSlice(s, j, id);
    assert "" + s[j..e] == id;
  }

  /** An identifier followed by a dot: `parsePreRelease` goes on after the dot. */
  lemma PreReleaseNext(s: string, j: nat, id: string, acc: seq<string>)
    requires ValidIdent(id) && At(s, j, id) && j + |id| < |s| && s[j + |id|] == '.'
    ensures PreReleaseFrom(s, CursorAt(s, j), acc) == PreReleaseFrom(s, CursorAt(s, j + |id| + 1), acc + [id])
  {
    var m := j + |id|;
    IdentTokens(s, j, id, Plus);
    PreReleaseStep(s, CursorAt(s, j), acc, id, CursorAt(s, m));
    assert Advance(s, CursorAt(s, m)) == CursorAt(s, m + 1);
  }

  /** Where a pre-release list may end: at the end of input or at a `+`. */
  predicate PreReleaseEnd(s: string, e: nat) {
    e == |s| || (e < |s| && s[e] == '+')
  }

  /** The last identifier of a pre-release list. */
  lemma PreReleaseLast(s: string, j: nat, id: string, acc: seq<string>, e: nat)
    requires ValidIdent(id) && At(s, j, id) && e == j + |id| && PreReleaseEnd(s, e)
    ensures PreReleaseFrom(s, CursorAt(s, j), acc) == Ok((acc + [id], CursorAt(s, e)))
  {
    IdentTokens(s, j, id, Plus);
    PreReleaseStep(s, CursorAt(s, j), acc, id, CursorAt(s, e));
  }

  lemma ConsAppend<T>(acc: seq<T>, xs: seq<T>)
    requires |xs| > 0
    ensures acc + [xs[0]] + xs[1..] == acc + xs
    ensures |xs| == 1 ==> acc + [xs[0]] == acc + xs
  {
    if |xs| == 1 {
      assert xs == [xs[0]];
    }
  }

  /** `parsePreRelease` reads a list of valid identifiers that ends at the end of input or at `+`. */
  lemma {:induction false} PreReleaseAt(s: string, j: nat, ids: seq<string>, acc: seq<string>, e: nat)
    requires ListAt(s, j, ids, e) && PreReleaseEnd(s, e)
    ensures PreReleaseFrom(s, CursorAt(s, j), acc) == Ok((acc + ids, CursorAt(s, e)))
    decreases |ids|
  {
    var id, m := ids[0], j + |ids[0]|;
    ConsAppend(acc, ids);
    if |ids| == 1 {
      PreReleaseLast(s, j, id, acc, e);
    } else {
      PreReleaseNext(s, j, id, acc);
      PreReleaseAt(s, m + 1, ids[1..], acc + [id], e);
    }
  }

  /** An identifier followed by a dot: `parseBuildData` goes on after the dot. */
  lemma BuildDataNext(s: string, j: nat, id: string, acc: seq<string>)
    requires ValidIdent(id) && At(s, j, id) && j + |id| < |s| && s[j + |id|] == '.'
    ensures BuildDataFrom(s, CursorAt(s, j), acc) == BuildDataFrom(s, CursorAt(s, j + |id| + 1), acc + [id])
  {
    var m := j + |id|;
    IdentTokens(s, j, id, EOF);
    BuildDataStep(s, CursorAt(s, j), acc, id, CursorAt(s, m));
    assert Advance(s, CursorAt(s, m)) == CursorAt(s, m + 1);
  }

  /** The last identifier of a build list. */
  lemma BuildDataLast(s: string, j: nat, id: string, acc: seq<string>)
    requires ValidIdent(id) && At(s, j, id) && j + |id| == |s|
    ensures BuildDataFrom(s, CursorAt(s, j), acc) == Ok((acc + [id], CursorAt(s, |s|)))
  {
    IdentTokens(s, j, id, EOF);
    BuildDataStep(s, CursorAt(s, j), acc, id, CursorAt(s, |s|));
  }

  /** `parseBuildData` reads a list of valid identifiers that runs to the end of input. */
  lemma {:induction false} BuildDataAt(s: string, j: nat, ids: seq<string>, acc: seq<string>)
    requires ListAt(s, j, ids, |s|)
    ensures BuildDataFrom(s, CursorAt(s, j), acc) == Ok((acc + ids, CursorAt(s, |s|)))
    decreases |ids|
  {
    var id, m := ids[0], j + |ids[0]|;
    ConsAppend(acc, ids);
    if |ids| == 1 {
      BuildDataLast(s, j, id, acc);
    } else {
      BuildDataNext(s, j, id, acc);
      BuildDataAt(s, m + 1, ids[1..], acc + [id]);
    }
  }

  // ---------------------------------------------------------------------------------------------
  // The three numeric fields

  lemma DigitsValue(d: string, pos: int)
    requires AllDigits(d)
    ensures ToUint(d, pos, 0) == Ok(Value(d))
  {
    assert d[0..] == d;
  }

  /** A major field of digits only is read as their value. */
  lemma MajorDigits(d: string)
    requires |d| > 0 && AllDigits(d)
    ensures MajorInRange(d, 0) && MajorField(d, 0) == Ok(Value(d))
  {
    assert d[0..] == d;
    assert d[0] != 'v';
  }

  /** Three digit strings separated by dots at the start of `s`, and nothing alphanumeric after. */
  predicate CoreAt(s: string, d1: string, d2: string, d3: string) {
    var p1 := |d1|;
    var p2 := p1 + 1 + |d2|;
    var p3 := p2 + 1 + |d3|;
    && |d1| > 0 && |d2| > 0 && |d3| > 0 && AllDigits(d1) && AllDigits(d2) && AllDigits(d3)
    && At(s, 0, d1) && At(s, p1, ".") && At(s, p1 + 1, d2) && At(s, p2, ".") && At(s, p2 + 1, d3)
    && (p3 == |s| || !IsAlnum(s[p3]))
  }

  /** The tokens of three numeric fields, ending at `p1`, `p2` and `p3`. */
  predicate CoreTokensAt(s: string, d1: string, d2: string, d3: string, p1: nat, p2: nat, p3: nat) {
    && p1 < p2 < p3 <= |s|
    && CursorAt(s, 0) == Cursor(p1, Lexeme(0, Ident, d1))
    && CursorAt(s, p1) == Cursor(p1 + 1, Lexeme(p1, Dot, ""))
    && CursorAt(s, p1 + 1) == Cursor(p2, Lexeme(p1 + 1, Ident, d2))
    && CursorAt(s, p2) == Cursor(p2 + 1, Lexeme(p2, Dot, ""))
    && CursorAt(s, p2 + 1) == Cursor(p3, Lexeme(p2 + 1, Ident, d3))
  }

  lemma CoreTokens(s: string, d1: string, d2: string, d3: string, p1: nat, p2: nat, p3: nat)
    requires CoreAt(s, d1, d2, d3)
    requires p1 == |d1| && p2 == p1 + 1 + |d2| && p3 == p2 + 1 + |d3|
    ensures CoreTokensAt(s, d1, d2, d3, p1, p2, p3)
  {
    AtChar(s, p1, '.');
    AtChar(s, p2, '.');
    ScanDigits(s, 0, d1);
    ScanDotDigits(s, p1, d2);
    ScanDotDigits(s, p2, d3);
  }

  /** Three numeric fields: they are read as numbers (leading zeros and all) and parsing goes on
      with the token after the patch field. */
  lemma CoreFields(s: string, d1: string, d2: string, d3: string, p1: nat, p2: nat, p3: nat)
    requires |d1| > 0 && AllDigits(d1) && AllDigits(d2) && AllDigits(d3)
    requires CoreTokensAt(s, d1, d2, d3, p1, p2, p3)
    ensures ParseSrc(s) == AfterPatch(s, CursorAt(s, p3), Value(d1), Value(d2), Value(d3))
  {
    MajorDigits(d1);
    DigitsValue(d2, p1 + 1);
    DigitsValue(d3, p2 + 1);
    var n1, n2 := Value(d1), Value(d2);
    assert ParseSrc(s) == AfterMajor(s, CursorAt(s, p1), n1);
    assert AfterMajor(s, CursorAt(s, p1), n1) == AfterMinor(s, CursorAt(s, p2), n1, n2);
  }

  // ---------------------------------------------------------------------------------------------
  // Round trip

  /** Where the pieces of `d1.d2.d3` + `suffix` lie, when the suffix does not start alphanumeric. */
  lemma ConcatText(s: string, d1: string, d2: string, d3: string, suffix: string)
    requires |d1| > 0 && |d2| > 0 && |d3| > 0 && AllDigits(d1) && AllDigits(d2) && AllDigits(d3)
    requires At(s, 0, d1 + "." + d2 + "." + d3 + suffix)
    requires |s| == |d1| + 1 + |d2| + 1 + |d3| + |suffix|
    requires suffix == [] || !IsAlnum(suffix[0])
    ensures CoreAt(s, d1, d2, d3)
    ensures var p3 := |d1| + 1 + |d2| + 1 + |d3|; At(s, p3, suffix) && p3 + |suffix| == |s|
  {
    var p1 := |d1|;
    var p2 := p1 + 1 + |d2|;
    var p3 := p2 + 1 + |d3|;
    AtSplit(s, 0, d1 + "." + d2 + "." + d3, suffix, p3);
    AtSplit(s, 0, d1 + "." + d2 + ".", d3, p2 + 1);
    AtSplit(s, 0, d1 + "." + d2, ".", p2);
    AtSplit(s, 0, d1 + ".", d2, p1 + 1);
    AtSplit(s, 0, d1, ".", p1);
    if suffix != [] {
      assert s[p3] == suffix[0];
    }
  }

  /** A one-character mark followed by a dot-joined list of valid identifiers. */
  lemma MarkedList(s: string, j: nat, mark: char, ids: seq<string>)
    requires |ids| > 0 && forall k :: 0 <= k < |ids| ==> ValidIdent(ids[k])
    requires At(s, j, [mark] + Join(ids, "."))
    ensures j < |s| && s[j] == mark && ListAt(s, j + 1, ids, j + 1 + |Join(ids, ".")|)
  {
    assert j < |s| && s[j] == mark && At(s, j + 1, Join(ids, ".")) by {
      AtSplit(s, j, [mark], Join(ids, "."), j + 1);
      AtChar(s, j, mark);
    }
    JoinListAt(s, j + 1, ids);
  }

  /** `-` and the pre-release list, or nothing. */
  function PreText(v: Version): string {
    if v.preRelease.Some? then "-" + Join(v.preRelease.value, ".") else ""
  }

  /** `+` and the build list, or nothing. */
  function BuildText(v: Version): string {
    if v.buildData.Some? then "+" + Join(v.buildData.value, ".") else ""
  }

  /** The suffix of a rendering, character by character: where the lists are and what ends them. */
  predicate SuffixAt(s: string, p3: nat, e: nat, v: Version) {
    && p3 <= e <= |s|
    && (v.preRelease.None? ==> e == p3)
    && (v.preRelease.Some? ==> p3 < |s| && s[p3] == '-' && ListAt(s, p3 + 1, v.preRelease.value, e))
    && (v.buildData.Some? ==> e < |s| && s[e] == '+' && ListAt(s, e + 1, v.buildData.value, |s|))
    && (v.buildData.None? ==> e == |s|)
  }

  /** The pre-release part of a rendering's suffix. */
  lemma PreTextAt(s: string, p3: nat, v: Version)
    requires ValidList(v.preRelease) && At(s, p3, PreText(v))
    ensures v.preRelease.Some? ==>
              p3 < |s| && s[p3] == '-' && ListAt(s, p3 + 1, v.preRelease.value, p3 + |PreText(v)|)
  {
    if v.preRelease.Some? {
      MarkedList(s, p3, '-', v.preRelease.value);
    }
  }

  /** The build part of a rendering's suffix, which runs to the end. */
  lemma BuildTextAt(s: string, e: nat, v: Version)
    requires ValidList(v.buildData) && At(s, e, BuildText(v)) && e + |BuildText(v)| == |s|
    ensures v.buildData.Some? ==> e < |s| && s[e] == '+' && ListAt(s, e + 1, v.buildData.value, |s|)
  {
    if v.buildData.Some? {
      MarkedList(s, e, '+', v.buildData.value);
    }
  }

  lemma SuffixText(s: string, p3: nat, v: Version)
    requires WellFormed(v)
    requires At(s, p3, PreText(v) + BuildText(v)) && p3 + |PreText(v) + BuildText(v)| == |s|
    ensures SuffixAt(s, p3, p3 + |PreText(v)|, v)
  {
    var e := p3 + |PreText(v)|;
    assert At(s, p3, PreText(v)) && At(s, e, BuildText(v)) && e + |BuildText(v)| == |s| by {
      AtSplit(s, p3, PreText(v), BuildText(v), e);
    }
    PreTextAt(s, p3, v);
    BuildTextAt(s, e, v);
  }

  /** The kinds of the tokens around the lists of a rendering's suffix. */
  predicate SuffixTokensAt(s: string, p3: nat, e: nat, v: Version)
    requires p3 <= e <= |s|
  {
    && (v.preRelease.None? ==> e == p3)
    && (v.preRelease.None? && v.buildData.None? ==> CursorAt(s, p3).cur.tok == EOF)
    && (v.preRelease.Some? ==>
          && CursorAt(s, p3).cur.tok == Hyphen && CursorAt(s, p3).off == p3 + 1 && p3 + 1 <= |s|
          && PreReleaseFrom(s, CursorAt(s, p3 + 1), []) == Ok((v.preRelease.value, CursorAt(s, e))))
    && (v.buildData.Some? ==>
          && CursorAt(s, e).cur.tok == Plus && CursorAt(s, e).off == e + 1 && e + 1 <= |s|
          && BuildDataFrom(s, CursorAt(s, e + 1), []) == Ok((v.buildData.value, CursorAt(s, |s|))))
    && (v.preRelease.Some? && v.buildData.None? ==> CursorAt(s, e).cur.tok == EOF)
  }

  /** `-` and a pre-release list that ends at the end of input or at `+`. */
  lemma PreTokens(s: string, p3: nat, ids: seq<string>, e: nat)
    requires p3 < |s| && s[p3] == '-' && ListAt(s, p3 + 1, ids, e) && PreReleaseEnd(s, e)
    ensures CursorAt(s, p3).cur.tok == Hyphen && CursorAt(s, p3).off == p3 + 1
    ensures PreReleaseFrom(s, CursorAt(s, p3 + 1), []) == Ok((ids, CursorAt(s, e)))
    ensures CursorAt(s, e).cur.tok == (if e == |s| then EOF else Plus)
  {
    PreReleaseAt(s, p3 + 1, ids, [], e);
    assert [] + ids == ids;
  }

  /** `+` and a build list that runs to the end of input. */
  lemma BuildTokens(s: string, e: nat, ids: seq<string>)
    requires e < |s| && s[e] == '+' && ListAt(s, e + 1, ids, |s|)
    ensures CursorAt(s, e).cur.tok == Plus && CursorAt(s, e).off == e + 1
    ensures BuildDataFrom(s, CursorAt(s, e + 1), []) == Ok((ids, CursorAt(s, |s|)))
  {
    BuildDataAt(s, e + 1, ids, []);
    assert [] + ids == ids;
  }

  lemma SuffixTokens(s: string, p3: nat, e: nat, v: Version)
    requires SuffixAt(s, p3, e, v)
    ensures SuffixTokensAt(s, p3, e, v)
  {
    if v.preRelease.Some? {
      PreTokens(s, p3, v.preRelease.value, e);
    }
    if v.buildData.Some? {
      BuildTokens(s, e, v.buildData.value);
    }
  }

  /** `parse` after the patch field, over the tokens of a rendering's suffix. */
  lemma SuffixParse(s: string, p3: nat, e: nat, v: Version)
    requires p3 <= e <= |s|
    requires SuffixTokensAt(s, p3, e, v)
    ensures AfterPatch(s, CursorAt(s, p3), v.major, v.minor, v.patch) == Ok(v)
  {
    if v.preRelease.Some? {
      assert Advance(s, CursorAt(s, p3)) == CursorAt(s, p3 + 1);
      if v.buildData.Some? {
        assert Advance(s, CursorAt(s, e)) == CursorAt(s, e + 1);
      }
    } else if v.buildData.Some? {
      assert Advance(s, CursorAt(s, p3)) == CursorAt(s, p3 + 1);
    }
  }

  /** `parse` over the tokens of a rendering. */
  lemma ParseTokens(s: string, v: Version, d1: string, d2: string, d3: string, p1: nat, p2: nat, p3: nat, e: nat)
    requires |d1| > 0 && AllDigits(d1) && AllDigits(d2) && AllDigits(d3)
    requires Value(d1) == v.major && Value(d2) == v.minor && Value(d3) == v.patch
    requires CoreTokensAt(s, d1, d2, d3, p1, p2, p3)
    requires p3 <= e <= |s| && SuffixTokensAt(s, p3, e, v)
    ensures ParseSrc(s) == Ok(v)
  {
    CoreFields(s, d1, d2, d3, p1, p2, p3);
    SuffixParse(s, p3, e, v);
  }

  /** The text of a rendering, piece by piece. */
  lemma RenderedText(s: string, v: Version, d1: string, d2: string, d3: string, p3: nat)
    requires WellFormed(v)
    requires |d1| > 0 && |d2| > 0 && |d3| > 0 && AllDigits(d1) && AllDigits(d2) && AllDigits(d3)
    requires At(s, 0, d1 + "." + d2 + "." + d3 + (PreText(v) + BuildText(v)))
    requires p3 == |d1| + 1 + |d2| + 1 + |d3| && |s| == p3 + |PreText(v) + BuildText(v)|
    ensures CoreAt(s, d1, d2, d3) && SuffixAt(s, p3, p3 + |PreText(v)|, v)
  {
    ConcatText(s, d1, d2, d3, PreText(v) + BuildText(v));
    SuffixText(s, p3, v);
  }

  /** The tokens of a rendering. */
  lemma RenderedTokens(s: string, v: Version, d1: string, d2: string, d3: string, p1: nat, p2: nat, p3: nat, e: nat)
    requires WellFormed(v)
    requires |d1| > 0 && |d2| > 0 && |d3| > 0 && AllDigits(d1) && AllDigits(d2) && AllDigits(d3)
    requires At(s, 0, d1 + "." + d2 + "." + d3 + (PreText(v) + BuildText(v)))
    requires p1 == |d1| && p2 == p1 + 1 + |d2| && p3 == p2 + 1 + |d3| && e == p3 + |PreText(v)|
    requires |s| == p3 + |PreText(v) + BuildText(v)|
    ensures CoreTokensAt(s, d1, d2, d3, p1, p2, p3)
    ensures p3 <= e <= |s| && SuffixTokensAt(s, p3, e, v)
  {
    RenderedText(s, v, d1, d2, d3, p3);
    CoreTokens(s, d1, d2, d3, p1, p2, p3);
    SuffixTokens(s, p3, e, v);
  }

  /** Parsing the rendering of a version gives the version back, for every version the parser
      can produce: lists absent or non-empty, identifiers from [0-9A-Za-z-] starting alphanumeric. */
  lemma ParseString(v: Version)
    requires WellFormed(v)
    ensures ParseSrc(String(v)) == Ok(v)
  {
    var s := String(v);
    var d1, d2, d3 := NatToString(v.major), NatToString(v.minor), NatToString(v.patch);
    var p1 := |d1|;
    var p2 := p1 + 1 + |d2|;
    var p3 := p2 + 1 + |d3|;
    var e := p3 + |PreText(v)|;
    assert s == d1 + "." + d2 + "." + d3 + (PreText(v) + BuildText(v));
    AtWhole(s);
    RenderedTokens(s, v, d1, d2, d3, p1, p2, p3, e);
    ParseTokens(s, v, d1, d2, d3, p1, p2, p3, e);
  }

  // ---------------------------------------------------------------------------------------------
  // The shape of what parse returns

  /** `parseIdent` only appends identifier characters to what it has read. */
  lemma {:induction false} IdentShape(src: string, c: Cursor, stop: Token, acc: string)
    requires CursorOk(src, c) && IdentFrom(src, c, stop, acc).Ok?
    ensures var id := IdentFrom(src, c, stop, acc).value.0;
            && |acc| <= |id| && id[..|acc|] == acc
            && forall k :: |acc| <= k < |id| ==> IdentChar(id[k])
    decreases Rank(src, c)
  {
    var tok := c.cur.tok;
    if !(tok == Dot || tok == EOF || tok == stop) {
      var piece := if tok == Ident then c.cur.lit else "-";
      var next := acc + piece;
      IdentShape(src, Advance(src, c), stop, next);
      var id := IdentFrom(src, c, stop, acc).value.0;
      assert id[..|next|] == next;
      assert id[..|acc|] == next[..|acc|];
      forall k | |acc| <= k < |id| ensures IdentChar(id[k]) {
        if k < |next| {
          assert id[k] == next[k] == piece[k - |acc|];
        }
      }
    }
  }

  /** An identifier `parseIdent` reads from an identifier token is a valid identifier. */
  lemma IdentValid(src: string, c: Cursor, stop: Token)
    requires CursorOk(src, c) && c.cur.tok == Ident && stop != Ident && IdentFrom(src, c, stop, "").Ok?
    ensures ValidIdent(IdentFrom(src, c, stop, "").value.0)
  {
    var lit := c.cur.lit;
    assert "" + lit == lit;
    IdentShape(src, Advance(src, c), stop, lit);
    var id := IdentFrom(src, c, stop, "").value.0;
    assert id[0] == id[..|lit|][0] == lit[0];
    forall k | 0 <= k < |id| ensures IdentChar(id[k]) {
      if k < |lit| {
        assert id[k] == id[..|lit|][k] == lit[k];
      }
    }
  }

  /** `parsePreRelease` returns a non-empty list of valid identifiers. */
  lemma {:induction false} PreReleaseShape(src: string, c: Cursor, acc: seq<string>)
    requires CursorOk(src, c) && forall k :: 0 <= k < |acc| ==> ValidIdent(acc[k])
    requires PreReleaseFrom(src, c, acc).Ok?
    ensures var ids := PreReleaseFrom(src, c, acc).value.0;
            |ids| > 0 && forall k :: 0 <= k < |ids| ==> ValidIdent(ids[k])
    decreases Rank(src, c)
  {
    IdentValid(src, c, Plus);
    var d := IdentFrom(src, c, Plus, "").value;
    var next := acc + [d.0];
    assert forall k :: 0 <= k < |next| ==> ValidIdent(next[k]) by {
      forall k | 0 <= k < |next| ensures ValidIdent(next[k]) {
        if k < |acc| {
          assert next[k] == acc[k];
        }
      }
    }
    if d.1.cur.tok != EOF && d.1.cur.tok != Plus {
      PreReleaseShape(src, Advance(src, d.1), next);
    }
  }

  /** `parseBuildData` returns a non-empty list of valid identifiers. */
  lemma {:induction false} BuildDataShape(src: string, c: Cursor, acc: seq<string>)
    requires CursorOk(src, c) && forall k :: 0 <= k < |acc| ==> ValidIdent(acc[k])
    requires BuildDataFrom(src, c, acc).Ok?
    ensures var ids := BuildDataFrom(src, c, acc).value.0;
            |ids| > 0 && forall k :: 0 <= k < |ids| ==> ValidIdent(ids[k])
    decreases Rank(src, c)
  {
    IdentValid(src, c, EOF);
    var d := IdentFrom(src, c, EOF, "").value;
    var next := acc + [d.0];
    assert forall k :: 0 <= k < |next| ==> ValidIdent(next[k]) by {
      forall k | 0 <= k < |next| ensures ValidIdent(next[k]) {
        if k < |acc| {
          assert next[k] == acc[k];
        }
      }
    }
    if d.1.cur.tok != EOF {
      BuildDataShape(src, Advance(src, d.1), next);
    }
  }

  /** What `parse` returns has absent or non-empty lists of valid identifiers. */
  lemma ParseWellFormed(src: string)
    requires ParseSrc(src).Ok?
    ensures WellFormed(ParseSrc(src).value)
  {
    var c := CursorAt(src, 0);
    var major := MajorField(c.cur.lit, c.cur.pos).value;
    var c1 := Advance(src, c);
    if c1.cur.tok == Dot {
      var c2 := Advance(src, c1);
      var minor := ToUint(c2.cur.lit, c2.cur.pos, 0).value;
      var c3 := Advance(src, c2);
      if c3.cur.tok == Dot {
        var c4 := Advance(src, c3);
        var patch := ToUint(c4.cur.lit, c4.cur.pos, 0).value;
        AfterPatchWellFormed(src, Advance(src, c4), major, minor, patch);
      }
    }
  }

  lemma AfterPatchWellFormed(src: string, c: Cursor, major: nat, minor: nat, patch: nat)
    requires CursorOk(src, c)
    requires AfterPatch(src, c, major, minor, patch).Ok?
    ensures WellFormed(AfterPatch(src, c, major, minor, patch).value)
  {
    if c.cur.tok == Hyphen {
      PreReleaseShape(src, Advance(src, c), []);
      var d := PreReleaseFrom(src, Advance(src, c), []).value.1;
      if d.cur.tok == Plus {
        BuildDataShape(src, Advance(src, d), []);
      }
    } else if c.cur.tok == Plus {
      BuildDataShape(src, Advance(src, c), []);
    }
  }

  /** Rendering and parsing again is idempotent. */
  lemma ParseIdempotent(src: string)
    requires ParseSrc(src).Ok?
    ensures ParseSrc(String(ParseSrc(src).value)) == ParseSrc(src)
  {
    ParseWellFormed(src);
    ParseString(ParseSrc(src).value);
  }
}
