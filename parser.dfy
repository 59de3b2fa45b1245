// parser.go: a one-token-lookahead recursive-descent parser over the scanner's tokens.
module Parsing {
  import opened Wrappers
  import opened Decimal
  import opened Tokens
  import opened Scanning
  import opened VersionData

  /** `unexpected(got, pos)`: the parser's only error, "unexpected <got> at <pos>". */
  datatype ParseError = Unexpected(got: string, pos: int)

  // ---------------------------------------------------------------------------------------------
  // strToUint

  /** Index of the first non-digit of a string that has one. */
  function FirstNonDigit(s: string): (i: nat)
    requires !AllDigits(s)
    ensures i < |s| && !IsDigit(s[i]) && AllDigits(s[..i])
  {
    if !IsDigit(s[0]) then 0
    else
      var i := FirstNonDigit(s[1..]) + 1;
      assert s[..i] == [s[0]] + s[1..][..i - 1];
      i
  }

  /** What `strToUint(src, pos, offset)` returns: the value of the digits of `src[offset..]`,
      or an error citing the first non-digit at `pos + offset + index`. It is the reference for
      the loop `StrToUint` and for `Parser.ParseNumber`; the contract of `StrToUint` states its meaning. */
  function ToUint(src: string, pos: int, offset: nat): Result<nat, ParseError>
    requires offset <= |src|
  {
    var s := src[offset..];
    if AllDigits(s) then Ok(Value(s))
    else
      var i := FirstNonDigit(s);
      Err(Unexpected([s[i]], i + pos + offset))
  }

  method StrToUint(src: string, pos: int, offset: nat) returns (r: Result<nat, ParseError>)
    requires offset <= |src|
    ensures r.Ok? <==> AllDigits(src[offset..])
    ensures r.Ok? ==> r.value == Value(src[offset..])
    ensures r.Err? ==>
              var i := r.error.pos - pos - offset;
              && 0 <= i < |src| - offset
              && r.error.got == [src[offset + i]]
              && !IsDigit(src[offset + i])
              && AllDigits(src[offset..offset + i])
    ensures r == ToUint(src, pos, offset)
  {
    var s := src[offset..];
    var n: nat := 0;
    var i := 0;
    while i < |s|
      invariant 0 <= i <= |s|
      invariant AllDigits(s[..i]) && n == Value(s[..i])
    {
      var ch := s[i];
      if ch < '0' || ch > '9' {
        assert s[..i] == src[offset..offset + i];
        return Err(Unexpected([ch], i + pos + offset));
      }
      ValueSnoc(s[..i], ch);
      assert s[..i + 1] == s[..i] + [ch];
      n := n * 10 + DigitOf(ch);
      i := i + 1;
    }
    assert s[..i] == s;
    r := Ok(n);
  }

  // ---------------------------------------------------------------------------------------------
  // The parser's state as a value: the scanner's cursor and the current token (p.pos, p.tok, p.lit).

  datatype Cursor = Cursor(off: int, cur: Lexeme)

  predicate CursorOk(src: seq<char>, c: Cursor) {
    0 <= c.off <= |src| && LexemeOk(c.cur)
  }

  /** Termination measure: input left, and one more while the current token is not EOF. */
  function Rank(src: seq<char>, c: Cursor): nat
    requires CursorOk(src, c)
  {
    2 * (|src| - c.off) + (if c.cur.tok == EOF then 0 else 1)
  }

  /** The state after scanning the token that starts at `j`. */
  function CursorAt(src: seq<char>, j: nat): Cursor
    requires j <= |src|
  {
    var (lx, next) := ScanFrom(src, j);
    Cursor(next, lx)
  }

  /** `p.next()`: scan one token from the scanner's cursor. */
  function Advance(src: seq<char>, c: Cursor): (d: Cursor)
    requires CursorOk(src, c)
    ensures CursorOk(src, d) && d.cur.pos == c.off
    ensures Rank(src, d) <= Rank(src, c)
    ensures c.cur.tok != EOF ==> Rank(src, d) < Rank(src, c)
  {
    CursorAt(src, c.off)
  }

  // ---------------------------------------------------------------------------------------------
  // The grammar, as functions of the state.

  /** `parseIdent(stop)` from state `c`, with `acc` the identifier read so far. */
  function IdentFrom(src: seq<char>, c: Cursor, stop: Token, acc: string): (r: Result<(string, Cursor), ParseError>)
    requires CursorOk(src, c)
    ensures r.Ok? ==>
              && CursorOk(src, r.value.1)
              && (r.value.1.cur.tok == Dot || r.value.1.cur.tok == EOF || r.value.1.cur.tok == stop)
              && Rank(src, r.value.1) <= Rank(src, c)
    decreases Rank(src, c)
  {
    var tok := c.cur.tok;
    if tok == Dot || tok == EOF || tok == stop then Ok((acc, c))
    else if tok == Ident || tok == Hyphen then
      var piece := if tok == Ident then c.cur.lit else "-";
      IdentFrom(src, Advance(src, c), stop, acc + piece)
    else Err(Unexpected(Name(tok), c.cur.pos))
  }

  /** `parsePreRelease` from state `c`, with `acc` the identifiers read so far. */
  function PreReleaseFrom(src: seq<char>, c: Cursor, acc: seq<string>): (r: Result<(seq<string>, Cursor), ParseError>)
    requires CursorOk(src, c)
    ensures r.Ok? ==> CursorOk(src, r.value.1) && (r.value.1.cur.tok == EOF || r.value.1.cur.tok == Plus)
    decreases Rank(src, c)
  {
    if c.cur.tok != Ident then Err(Unexpected(Name(c.cur.tok), c.cur.pos))
    else
      match IdentFrom(src, c, Plus, "")
      case Err(e) => Err(e)
      case Ok((id, d)) =>
        if d.cur.tok == EOF || d.cur.tok == Plus then Ok((acc + [id], d))
        else PreReleaseFrom(src, Advance(src, d), acc + [id])
  }

  /** `parseBuildData` from state `c`, with `acc` the identifiers read so far. */
  function BuildDataFrom(src: seq<char>, c: Cursor, acc: seq<string>): (r: Result<(seq<string>, Cursor), ParseError>)
    requires CursorOk(src, c)
    ensures r.Ok? ==> CursorOk(src, r.value.1) && r.value.1.cur.tok == EOF
    decreases Rank(src, c)
  {
    if c.cur.tok != Ident then Err(Unexpected(Name(c.cur.tok), c.cur.pos))
    else
      match IdentFrom(src, c, EOF, "")
      case Err(e) => Err(e)
      case Ok((id, d)) =>
        if d.cur.tok == EOF then Ok((acc + [id], d))
        else BuildDataFrom(src, Advance(src, d), acc + [id])
  }

  /** 1 when the major field's literal starts with `v`, which `parseMajor` strips. */
  function MajorOffset(src: string): nat {
    if src != "" && src[0] == 'v' then 1 else 0
  }

  /** `parseMajor` slices `src[p.pos+offset:]` of the stripped literal; Go panics when that is out of range. */
  predicate MajorInRange(src: string, pos: int) {
    var offset := MajorOffset(src);
    0 <= pos && (|src| > offset ==> pos + offset <= |src| - offset)
  }

  /** What `parseMajor(src)` returns at position `pos`: the reference for `Parser.ParseMajor`,
      whose meaning `ParseCases.MajorFieldRules` states. */
  function MajorField(src: string, pos: int): Result<nat, ParseError>
    requires MajorInRange(src, pos)
  {
    var offset := MajorOffset(src);
    var rest := src[offset..];
    if rest == "" then Err(Unexpected(Name(EOF), pos + offset))
    else
      match ToUint(rest, pos, pos + offset)
      case Ok(n) => Ok(n)
      case Err(_) => Ok(0)
  }

  /** `parser.parse(src)`: the tokens from the start of the input. */
  function ParseSrc(src: string): Result<Version, ParseError> {
    var c := CursorAt(src, 0);
    if c.cur.tok != Ident then Err(Unexpected(Name(c.cur.tok), c.cur.pos))
    else
      match MajorField(c.cur.lit, c.cur.pos)
      case Err(e) => Err(e)
      case Ok(major) => AfterMajor(src, Advance(src, c), major)
  }

  /** The rest of `parse` once the major field is read: EOF, or `.` and the minor field. */
  function AfterMajor(src: string, c: Cursor, major: nat): Result<Version, ParseError>
    requires CursorOk(src, c)
  {
    if c.cur.tok == EOF then Ok(Version(major, 0, 0, None, None))
    else if c.cur.tok != Dot then Err(Unexpected(Name(c.cur.tok), c.cur.pos))
    else
      var c := Advance(src, c);
      match ToUint(c.cur.lit, c.cur.pos, 0)
      case Err(e) => Err(e)
      case Ok(minor) => AfterMinor(src, Advance(src, c), major, minor)
  }

  /** The rest of `parse` once the minor field is read: EOF, or `.` and the patch field. */
  function AfterMinor(src: string, c: Cursor, major: nat, minor: nat): Result<Version, ParseError>
    requires CursorOk(src, c)
  {
    if c.cur.tok == EOF then Ok(Version(major, minor, 0, None, None))
    else if c.cur.tok != Dot then Err(Unexpected(Name(c.cur.tok), c.cur.pos))
    else
      var c := Advance(src, c);
      match ToUint(c.cur.lit, c.cur.pos, 0)
      case Err(e) => Err(e)
      case Ok(patch) => AfterPatch(src, Advance(src, c), major, minor, patch)
  }

  /** The rest of `parse` once the patch field is read: EOF, `-` pre-release, or `+` build data.
      The reference for `Parser.ParseSuffix`. */
  function AfterPatch(src: string, c: Cursor, major: nat, minor: nat, patch: nat): Result<Version, ParseError>
    requires CursorOk(src, c)
  {
    var core := Version(major, minor, patch, None, None);
    if c.cur.tok == EOF then Ok(core)
    else if c.cur.tok == Hyphen then
      match PreReleaseFrom(src, Advance(src, c), [])
      case Err(e) => Err(e)
      case Ok((pre, d)) =>
        if d.cur.tok == EOF then Ok(core.(preRelease := Some(pre)))
        else if d.cur.tok == Plus then
          match BuildDataFrom(src, Advance(src, d), [])
          case Err(e) => Err(e)
          case Ok((build, _)) => Ok(core.(preRelease := Some(pre), buildData := Some(build)))
        else Err(Unexpected(Name(d.cur.tok), d.cur.pos))
    else if c.cur.tok == Plus then
      match BuildDataFrom(src, Advance(src, c), [])
      case Err(e) => Err(e)
      case Ok((build, _)) => Ok(core.(buildData := Some(build)))
    else Err(Unexpected(Name(c.cur.tok), c.cur.pos))
  }

  /** Drops the state from a successful step. */
  function Payload<T>(r: Result<(T, Cursor), ParseError>): Result<T, ParseError> {
    match r
    case Ok((x, _)) => Ok(x)
    case Err(e) => Err(e)
  }

  // ---------------------------------------------------------------------------------------------
  // The parser object.

  class Parser {
    var scanner: Scanner
    var pos: int
    var tok: Token
    var lit: string

    /** `newParser()`: a zeroed parser around a zeroed scanner. */
    constructor ()
      ensures fresh(scanner) && pos == 0 && tok == Illegal && lit == ""
      ensures scanner.src.Length == 0 && scanner.len == 0 && scanner.offset == 0 && scanner.ch == 0
    {
      scanner := new Scanner();
      pos, tok, lit := 0, Illegal, "";
    }

    ghost function Text(): seq<char>
      reads this, scanner, scanner.src
    {
      scanner.src[..]
    }

    ghost function Cur(): Cursor
      reads this, scanner
    {
      Cursor(scanner.offset, Lexeme(pos, tok, lit))
    }

    /** The scanner is consistent, and an EOF token stands at the end of the text, where the scanner is. */
    ghost predicate Valid()
      reads this, scanner, scanner.src
    {
      && scanner.Valid()
      && CursorOk(Text(), Cur())
      && (tok == EOF ==> pos == scanner.offset == |Text()|)
    }

    method Next()
      requires scanner.Valid()
      modifies this, scanner
      ensures Valid() && scanner == old(scanner) && scanner.src == old(scanner.src)
      ensures Cur() == CursorAt(Text(), old(scanner.offset))
    {
      pos, tok, lit := scanner.Scan();
    }

    /** `parseMajor`, proved equal to `MajorField`. */
    method ParseMajor(src: string) returns (r: Result<nat, ParseError>)
      requires MajorInRange(src, pos)
      ensures r == MajorField(src, pos)
    {
      var offset := 0;
      var rest := src;
      if rest != "" && rest[0] == 'v' {
        offset := 1;
        rest := rest[1..];
      }
      if rest == "" {
        return Err(Unexpected(Name(EOF), pos + offset));
      }
      var n := StrToUint(rest, pos, pos + offset);
      if n.Err? {
        return Ok(0);
      }
      return Ok(n.value);
    }

    /** `parseNumber`: `strToUint` from offset 0 at the current position. */
    method ParseNumber(src: string) returns (r: Result<nat, ParseError>)
      ensures r == ToUint(src, pos, 0)
    {
      r := StrToUint(src, pos, 0);
      if r.Err? {
        return Err(r.error);
      }
    }

    method ParseIdent(stop: Token) returns (r: Result<string, ParseError>)
      requires Valid()
      modifies this, scanner
      ensures Valid() && scanner == old(scanner) && scanner.src == old(scanner.src)
      ensures r == Payload(IdentFrom(Text(), old(Cur()), stop, ""))
      ensures r.Ok? ==> Cur() == IdentFrom(Text(), old(Cur()), stop, "").value.1
    {
      var ident := "";
      while true
        invariant Valid() && scanner == old(scanner) && scanner.src == old(scanner.src)
        invariant IdentFrom(Text(), old(Cur()), stop, "") == IdentFrom(Text(), Cur(), stop, ident)
        decreases Rank(Text(), Cur())
      {
        if tok == Dot || tok == EOF || tok == stop {
          return Ok(ident);
        } else if tok == Ident {
          ident := ident + lit;
        } else if tok == Hyphen {
          ident := ident + "-";
        } else {
          return Err(Unexpected(Name(tok), pos));
        }
        Next();
      }
    }

    method ParsePreRelease() returns (r: Result<seq<string>, ParseError>)
      requires Valid()
      modifies this, scanner
      ensures Valid() && scanner == old(scanner) && scanner.src == old(scanner.src)
      ensures r == Payload(PreReleaseFrom(Text(), old(Cur()), []))
      ensures r.Ok? ==> Cur() == PreReleaseFrom(Text(), old(Cur()), []).value.1
    {
      var idents: seq<string> := [];
      while true
        invariant Valid() && scanner == old(scanner) && scanner.src == old(scanner.src)
        invariant PreReleaseFrom(Text(), old(Cur()), []) == PreReleaseFrom(Text(), Cur(), idents)
        decreases Rank(Text(), Cur())
      {
        if tok != Ident {
          return Err(Unexpected(Name(tok), pos));
        }
        var ident := ParseIdent(Plus);
        if ident.Err? {
          return Err(ident.error);
        }
        idents := idents + [ident.value];
        if tok == EOF || tok == Plus {
          return Ok(idents);
        }
        Next();
      }
    }

    method ParseBuildData() returns (r: Result<seq<string>, ParseError>)
      requires Valid()
      modifies this, scanner
      ensures Valid() && scanner == old(scanner) && scanner.src == old(scanner.src)
      ensures r == Payload(BuildDataFrom(Text(), old(Cur()), []))
      ensures r.Ok? ==> Cur() == BuildDataFrom(Text(), old(Cur()), []).value.1 && tok == EOF
    {
      var idents: seq<string> := [];
      while true
        invariant Valid() && scanner == old(scanner) && scanner.src == old(scanner.src)
        invariant BuildDataFrom(Text(), old(Cur()), []) == BuildDataFrom(Text(), Cur(), idents)
        decreases Rank(Text(), Cur())
      {
        if tok != Ident {
          return Err(Unexpected(Name(tok), pos));
        }
        var ident := ParseIdent(EOF);
        if ident.Err? {
          return Err(ident.error);
        }
        idents := idents + [ident.value];
        if tok == EOF {
          return Ok(idents);
        }
        Next();
      }
    }

    /** The two `switch` statements that end `parse`, from the token after the patch field,
        proved equal to `AfterPatch`. On success EOF is current, at the end of the text. */
    method ParseSuffix(major: nat, minor: nat, patch: nat) returns (r: Result<Version, ParseError>)
      requires Valid()
      modifies this, scanner
      ensures Valid() && scanner == old(scanner) && scanner.src == old(scanner.src)
      ensures r == AfterPatch(Text(), old(Cur()), major, minor, patch)
      ensures r.Ok? ==> tok == EOF && pos == scanner.offset == |Text()|
    {
      var v := Version(major, minor, patch, None, None);
      if tok == EOF {
        return Ok(v);
      } else if tok == Hyphen {
        Next();
        var pre := ParsePreRelease();
        if pre.Err? {
          return Err(pre.error);
        }
        v := v.(preRelease := Some(pre.value));
      } else if tok == Plus {
        Next();
        var build := ParseBuildData();
        if build.Err? {
          return Err(build.error);
        }
        return Ok(v.(buildData := Some(build.value)));
      } else {
        return Err(Unexpected(Name(tok), pos));
      }

      if tok == EOF {
        return Ok(v);
      } else if tok == Plus {
        Next();
        var build := ParseBuildData();
        if build.Err? {
          return Err(build.error);
        }
        return Ok(v.(buildData := Some(build.value)));
      } else {
        return Err(Unexpected(Name(tok), pos));
      }
    }

    method Parse(src: string) returns (r: Result<Version, ParseError>)
      modifies this, scanner
      ensures Text() == src
      ensures r == ParseSrc(src)
      ensures r.Ok? ==> tok == EOF && pos == scanner.offset == |src|
    {
      var text := new char[|src|](i requires 0 <= i < |src| => src[i]);
      scanner.Init(text);
      assert Text() == src;
      var major, minor, patch: nat := 0, 0, 0;

      Next();
      ghost var c := Cur();
      assert c == CursorAt(src, 0);
      if tok != Ident {
        return Err(Unexpected(Name(tok), pos));
      }
      var m := ParseMajor(lit);
      if m.Err? {
        return Err(m.error);
      }
      major := m.value;

      Next();
      assert Cur() == Advance(src, c);
      c := Cur();
      assert ParseSrc(src) == AfterMajor(src, c, major);
      if tok == EOF {
        return Ok(Version(major, minor, patch, None, None));
      } else if tok != Dot {
        return Err(Unexpected(Name(tok), pos));
      }

      Next();
      assert Cur() == Advance(src, c);
      c := Cur();
      m := ParseNumber(lit);
      if m.Err? {
        return Err(m.error);
      }
      minor := m.value;

      Next();
      assert Cur() == Advance(src, c);
      c := Cur();
      assert ParseSrc(src) == AfterMinor(src, c, major, minor);
      if tok == EOF {
        return Ok(Version(major, minor, patch, None, None));
      } else if tok != Dot {
        return Err(Unexpected(Name(tok), pos));
      }

      Next();
      assert Cur() == Advance(src, c);
      c := Cur();
      m := ParseNumber(lit);
      if m.Err? {
        return Err(m.error);
      }
      patch := m.value;

      Next();
      assert Cur() == Advance(src, c);
      c := Cur();
      assert ParseSrc(src) == AfterPatch(src, c, major, minor, patch);
      r := ParseSuffix(major, minor, patch);
    }
  }
}
