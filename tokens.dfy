// token.go: the six token kinds and their printable names.
module Tokens {
  import opened Decimal

  /** Go's `type token int`: any integer is a value of the type, only six have names. */
  newtype Token = int

  const Illegal: Token := 0
  const EOF: Token := 1
  const Ident: Token := 2   // [0-9A-Za-z]+
  const Dot: Token := 3     // .
  const Hyphen: Token := 4  // -
  const Plus: Token := 5    // +

  /** The `tokens` table, indexed by kind. */
  const Names: seq<string> := ["ILLEGAL", "EOF", "IDENT", ".", "-", "+"]

  /** `token.String`: the table entry, or "undefined (n)" outside the table. */
  function Name(t: Token): (s: string)
    ensures |s| > 0
  {
    if t < 0 || t >= |Names| as Token then "undefined (" + IntToString(t as int) + ")"
    else Names[t as int]
  }

  lemma NamesOfKinds()
    ensures Name(Illegal) == "ILLEGAL" && Name(EOF) == "EOF" && Name(Ident) == "IDENT"
    ensures Name(Dot) == "." && Name(Hyphen) == "-" && Name(Plus) == "+"
  {
  }

  /** Distinct kinds have distinct names, in and out of the table alike. */
  lemma NameInjective(t: Token, u: Token)
    ensures Name(t) == Name(u) <==> t == u
  {
    var prefix := "undefined (";
    if Name(t) == Name(u) && t != u {
      if (t < 0 || t >= 6) && (u < 0 || u >= 6) {
        var n := Name(t);
        assert IntToString(t as int) == n[|prefix|..|n| - 1];
        assert IntToString(u as int) == n[|prefix|..|n| - 1];
        IntToStringInjective(t as int, u as int);
      }
    }
  }
}
