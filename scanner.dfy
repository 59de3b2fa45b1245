// scaner.go: a single forward cursor over the input characters, producing one token per call.
module Scanning {
  import opened Tokens

  /** `isASCII`: the identifier alphabet [0-9A-Za-z], on a rune (so the sentinel -1 is not in it). */
  predicate IsASCII(ch: int) {
    ('0' as int <= ch <= '9' as int) || ('A' as int <= ch <= 'Z' as int) || ('a' as int <= ch <= 'z' as int)
  }

  predicate IsAlnum(c: char) {
    IsASCII(c as int)
  }

  /** What one call of `scan` returns: the position, the kind and the literal (set only for identifiers). */
  datatype Lexeme = Lexeme(pos: int, tok: Token, lit: string)

  /** A lexeme `scan` can produce: an identifier's literal is a non-empty alphanumeric run,
      every other kind has an empty literal. */
  predicate LexemeOk(lx: Lexeme) {
    && Illegal <= lx.tok <= Plus
    && (lx.tok == Ident ==> |lx.lit| > 0 && forall k :: 0 <= k < |lx.lit| ==> IsAlnum(lx.lit[k]))
    && (lx.tok != Ident ==> lx.lit == "")
  }

  /** End of the maximal alphanumeric run of `src` starting at `i`. */
  function RunEnd(src: seq<char>, i: nat): (j: nat)
    requires i <= |src|
    ensures i <= j <= |src|
    ensures forall k {:trigger IsAlnum(src[k])} :: i <= k < j ==> IsAlnum(src[k])
    ensures j < |src| ==> !IsAlnum(src[j])
    decreases |src| - i
  {
    if i < |src| && IsAlnum(src[i]) then RunEnd(src, i + 1) else i
  }

  /** The kind `scan` gives to a lookahead rune that does not start an identifier. */
  function CharKind(ch: int): Token {
    if ch == -1 then EOF
    else if ch == '.' as int then Dot
    else if ch == '+' as int then Plus
    else if ch == '-' as int then Hyphen
    else Illegal
  }

  /** One call of `scan` from cursor `offset`: the lexeme and the cursor afterwards. */
  function ScanFrom(src: seq<char>, offset: nat): (res: (Lexeme, nat))
    requires offset <= |src|
    ensures LexemeOk(res.0) && res.0.pos == offset && offset <= res.1 <= |src|
    ensures res.0.tok == EOF <==> offset == |src|
    ensures res.0.tok == EOF ==> res.1 == offset
    ensures res.0.tok != EOF ==> res.1 > offset
    ensures res.0.tok == Ident <==> offset < |src| && IsAlnum(src[offset])
    ensures res.0.tok == Ident ==>
              && res.0.lit == src[offset..res.1]
              && (res.1 < |src| ==> !IsAlnum(src[res.1]))
    ensures res.0.tok != Ident ==> res.0.lit == "" && res.1 == (if offset < |src| then offset + 1 else offset)
    ensures res.0.tok == Dot <==> offset < |src| && src[offset] == '.'
    ensures res.0.tok == Plus <==> offset < |src| && src[offset] == '+'
    ensures res.0.tok == Hyphen <==> offset < |src| && src[offset] == '-'
    ensures res.0.tok == Illegal <==>
              offset < |src| && !IsAlnum(src[offset]) && src[offset] !in ".+-"
  {
    if offset < |src| && IsAlnum(src[offset]) then
      var j := RunEnd(src, offset);
      (Lexeme(offset, Ident, src[offset..j]), j)
    else
      var ch := if offset < |src| then src[offset] as int else -1;
      (Lexeme(offset, CharKind(ch), ""), if offset < |src| then offset + 1 else offset)
  }

  /** The names of `.`, `-` and `+` are the very characters the scanner maps to those kinds. */
  lemma PunctuationNames(src: seq<char>, offset: nat)
    requires offset <= |src|
    ensures var tok := ScanFrom(src, offset).0.tok;
            tok == Dot || tok == Hyphen || tok == Plus ==> Name(tok) == [src[offset]]
  {
    NamesOfKinds();
  }

  class Scanner {
    var src: array<char>
    var len: int
    var ch: int       // the lookahead rune, -1 at end of input
    var offset: int

    ghost predicate Valid()
      reads this, src
    {
      && len == src.Length
      && 0 <= offset <= len
      && ch == (if offset < len then src[offset] as int else -1)
    }

    /** The zero value of the Go struct, before `Init`. */
    constructor ()
      ensures len == 0 && offset == 0 && ch == 0 && src.Length == 0
    {
      src := new char[0];
      len, ch, offset := 0, 0, 0;
    }

    method Init(text: array<char>)
      modifies this
      ensures Valid() && src == text && offset == 0
      ensures text.Length > 0 ==> ch == text[0] as int
      ensures text.Length == 0 ==> ch == -1
    {
      src := text;
      len := text.Length;
      offset := -1;
      Next();
    }

    /** Move the cursor one rune forward, stopping at the end. */
    method Next()
      requires len == src.Length && -1 <= offset <= len
      modifies this`offset, this`ch
      ensures offset == (if old(offset) < len - 1 then old(offset) + 1 else len)
      ensures Valid()
    {
      if offset < len - 1 {
        offset := offset + 1;
        ch := src[offset] as int;
      } else {
        offset := len;
        ch := -1;
      }
    }

    method ScanIdentifier() returns (lit: string)
      requires Valid()
      modifies this`offset, this`ch
      ensures Valid()
      ensures offset == RunEnd(src[..], old(offset))
      ensures lit == src[old(offset)..offset]
    {
      var offs := offset;
      while IsASCII(ch)
        invariant Valid()
        invariant offs <= offset
        invariant RunEnd(src[..], offs) == RunEnd(src[..], offset)
        decreases len - offset
      {
        Next();
      }
      lit := src[offs..offset];
    }

    method Scan() returns (pos: int, tok: Token, lit: string)
      requires Valid()
      modifies this`offset, this`ch
      ensures Valid()
      ensures pos == old(offset)
      ensures (Lexeme(pos, tok, lit), offset) == ScanFrom(src[..], old(offset))
    {
      tok := Illegal;
      pos := offset;
      lit := "";
      if IsASCII(ch) {
        lit := ScanIdentifier();
        tok := Ident;
      } else {
        tok := CharKind(ch);
        Next();
      }
    }
  }
}
