# go-semver in Dafny

A model of a small Go library for Semantic Versioning 2.0.0 strings, with proofs about it. The
library has four parts, and each has a module here:

- `token.go` (module `Tokens`): the six token kinds and their printable names.
- `scaner.go` (module `Scanning`): a forward cursor over the input's characters. It produces one
  token per call: a maximal `[0-9A-Za-z]` run is an identifier; `.`, `+` and `-` are tokens of
  their own; EOF repeats at the end; anything else is illegal.
- `parser.go` (module `Parsing`): a parser with one token of lookahead. It reads
  `major.minor.patch`, an optional `-` pre-release list and an optional `+` build list. It also
  holds `strToUint`, which the comparator reuses.
- `version.go` (module `Versions`): the `Version` struct, `Parse`, the rendering `String`, the
  precedence `Compare` with its helper `comparePreRelease`, and the five predicates built on
  `Compare`.

The scanner and the parser update their fields in place, so both are classes:

- `Scanning.Scanner` works over an `array<char>`.
- `Parsing.Parser` holds its scanner and the current token.

Each method that changes state is proved equal to a pure function of the state it starts from:

- `Scan` is proved against `ScanFrom`.
- The parser's methods are proved against `IdentFrom`, `PreReleaseFrom`, `BuildDataFrom`,
  `AfterPatch` and `ParseSrc`.
- `strToUint` is proved against `ToUint`.
- The loop of `comparePreRelease` is proved against `PreReleaseCompare`.

The parser's state is a value `Cursor(off, cur)`: the scanner's offset and the current lexeme.
`Advance` is one call of `next`.

The proof modules state what these functions do:

- `Precedence`: properties of the order.
- `RoundTrip`: parsing a rendering gives the version back, and what `parse` returns is well formed.
- `ParseCases`: what `parse` does with text that is not a rendering.
- `Samples`: concrete inputs, from the cases of `version_test.go` and from the branches of
  `parser.go`, each an instance of the general lemmas.

The model keeps the library's quirks as written:

- After a leading `v`, `parseMajor` slices the already stripped literal at 1 once more. So the
  first digit is dropped: `"v12"` has major 2, and `"v1.2.3"` has major 0. The tests use only
  `"v0"`, where this cannot be seen.
- A major field that is not a number reads as 0, with no error.
- A minor or patch slot that holds no identifier reads as 0, and parsing goes on with the token
  after the one that stands in the slot. So `"1."` and `"1.2."` parse, `"1.-.2"` is 1.0.2, and
  `"1.2.-a"` fails on the `a` at 5.
- `comparePreRelease` returns 0 at the first position where both identifiers are numeric and
  equal, whatever follows.
- The empty identifier counts as numeric.
- Leading zeros are accepted.

Error positions are character indices, because `parse` converts its input to runes. An error is
`Unexpected(got, pos)`, the two arguments of `unexpected`.

The test file expects every rendering to start with `v` (version_test.go:11-25). `String`
(version.go:25-34) never writes one. The model follows `String`.

## Model

| member | source | states |
|---|---|---|
| Tokens.Name | token.go:27-33 | The name of a kind is the table entry for the six kinds and "undefined (n)" outside the table, so it is total and never empty |
| Tokens.NamesOfKinds | token.go:17-25 | The six kinds are named exactly "ILLEGAL", "EOF", "IDENT", ".", "-", "+" |
| Tokens.NameInjective | token.go:7-33 | Two kinds have the same name if and only if they are the same kind, in and out of the table |
| Decimal.DigitChar | version.go:26 | The character for a digit value is a digit with that value |
| Decimal.ValueSnoc | parser.go:191 | Appending a digit to a digit string makes its value `n*10 + d` |
| Decimal.NatToString | version.go:26 | `%d` of a natural number is a non-empty digit string, without a leading zero, whose value is the number |
| Decimal.IntToString | token.go:29 | `%v` of an int is non-empty and starts with `-` exactly when the number is negative |
| Decimal.NatToStringInjective | version.go:26 | Two naturals render alike if and only if they are equal |
| Decimal.IntToStringInjective | token.go:29 | Two ints render alike if and only if they are equal, which makes the out-of-table names distinct |
| Scanning.IsASCII | scaner.go:35-37 | The identifier alphabet `[0-9A-Za-z]` on a rune, so the sentinel -1 is outside it; `RunEnd` and `ScanFrom` state the runs it delimits |
| Scanning.CharKind | scaner.go:47-57 | The kind of a lookahead that does not start an identifier: EOF for -1, Dot, Plus, Hyphen for their characters, Illegal otherwise; `ScanFrom`'s contract states each case as an if-and-only-if |
| Scanning.RunEnd | scaner.go:27-37 | The end of the alphanumeric run from `i` bounds a run of `isASCII` characters, and the character there, if any, is not alphanumeric |
| Scanning.ScanFrom | scaner.go:39-61 | One scan from offset `i` is at `i`. It is EOF exactly at the end, where the cursor stays. It is an identifier exactly on an alphanumeric character: the maximal run, with the offset after it. It is Dot, Plus or Hyphen exactly on `.`, `+`, `-`, and Illegal on anything else, all with an empty literal and one step forward |
| Scanning.PunctuationNames | scaner.go:48-58 | The name of the kind given to `.`, `-` or `+` is that very character |
| Scanning.Scanner.constructor | scaner.go:3-8 | The zero value of the struct: empty source, offset 0, rune 0 |
| Scanning.Scanner.Init | scaner.go:10-15 | After `Init` the invariant holds and the offset is 0; the lookahead is the first character, or -1 for empty input |
| Scanning.Scanner.Next | scaner.go:17-25 | `next` moves the offset one step, or to `len` at the end, and keeps the lookahead equal to the character at the offset, or -1 at the end |
| Scanning.Scanner.ScanIdentifier | scaner.go:27-33 | `scanIdentifier` moves the offset to the end of the alphanumeric run and returns the characters passed over |
| Scanning.Scanner.Scan | scaner.go:39-61 | `scan` returns the position before the call, and its token, literal and new offset are `ScanFrom`'s |
| Parsing.ToUint | parser.go:185-194 | The value `strToUint` returns, defined on the whole input; the method `Parsing.StrToUint` is proved equal to it, and its contract states what it means |
| Parsing.FirstNonDigit | parser.go:187-189 | The first non-digit of a string that has one: before it all digits, and it is not a digit |
| Parsing.StrToUint | parser.go:185-194 | `strToUint` succeeds exactly when `src[offset:]` is all digits, 0 for the empty string, with the decimal value. Otherwise it names the first non-digit, at `pos + offset + index` |
| Parsing.Advance | parser.go:18-20 | `next` scans from the scanner's offset: the new token is at the old offset; the progress measure never grows, and it shrinks whenever the old token was not EOF |
| Parsing.IdentFrom | parser.go:166-183 | `parseIdent` stops only at `.`, EOF or its stop token, and never moves back |
| Parsing.PreReleaseFrom | parser.go:130-146 | `parsePreRelease` stops only at EOF or `+` |
| Parsing.BuildDataFrom | parser.go:148-164 | `parseBuildData` stops only at EOF |
| Parsing.MajorField | parser.go:106-120 | What `parseMajor` returns at a position; `ParseCases.MajorFieldRules` states its cases |
| Parsing.ParseSrc | parser.go:23-104 | The result of `parse` on a text, from the first token on; `Parsing.Parser.Parse` is proved equal to it, and the `RoundTrip` and `ParseCases` lemmas state what it accepts and rejects |
| Parsing.AfterMajor | parser.go:37-49 | The rest of `parse` after the major field: EOF ends it, anything but `.` is rejected, and the minor slot is read with `strToUint`; `ParseCases.MajorOnly`, `MajorMinor`, `EmptyMinorSlot` and `NonNumericMinor` state its cases |
| Parsing.AfterMinor | parser.go:51-63 | The rest of `parse` after the minor field, in the same way for the patch slot; `ParseCases.MajorMinor`, `EmptyPatchSlot`, `CoreOnly` and `NonNumericPatch` state its cases |
| Parsing.AfterPatch | parser.go:65-103 | The two closing switches: EOF, a `-` pre-release list then optionally a `+` build list, or a `+` build list; `Parsing.Parser.ParseSuffix` is proved equal to it, and `RoundTrip.AfterPatchWellFormed` and the list lemmas of `ParseCases` state its results |
| Parsing.Parser.constructor | parser.go:14-16 | `newParser`: a zero parser, at token Illegal with an empty literal, around a fresh scanner in its zero state: empty source, offset 0, rune 0 |
| Parsing.Parser.Next | parser.go:18-20 | `next` stores the scan from the scanner's offset as the current token |
| Parsing.Parser.ParseMajor | parser.go:106-120 | `parseMajor` returns `MajorField` of the literal: EOF after a bare `v`, 0 when the digits do not parse, their value otherwise |
| Parsing.Parser.ParseNumber | parser.go:122-128 | `parseNumber` returns `strToUint` of the literal from offset 0 |
| Parsing.Parser.ParseIdent | parser.go:166-183 | The loop's result and final token are those of `IdentFrom` from the starting state |
| Parsing.Parser.ParsePreRelease | parser.go:130-146 | The loop's list and final token are those of `PreReleaseFrom` from the starting state |
| Parsing.Parser.ParseBuildData | parser.go:148-164 | The loop's list and final token are those of `BuildDataFrom` from the starting state, and on success the final token is EOF |
| Parsing.Parser.ParseSuffix | parser.go:65-103 | The two closing switches keep the parser's invariant and return `AfterPatch` of the token after the patch field; on success EOF is current, at the end of the text |
| Parsing.Parser.Parse | parser.go:23-104 | `parse` loads `src` into the scanner and returns `ParseSrc(src)`; on success EOF is current, at the end of the text |
| Versions.Parse | version.go:18-21 | `Parse` returns `ParseSrc(src)` |
| Versions.String | version.go:25-34 | The rendering is non-empty and starts with a digit, never a `v` |
| Versions.StrCompare | version.go:113-117 | Go's string order gives -1, 0 or 1, and 0 exactly for equal strings |
| Versions.CompareIdents | version.go:86-117 | One loop iteration decides -1, 0 or 1, or goes on |
| Versions.IdentListCompare | version.go:78-120 | Comparing the lists from one position on gives -1, 0 or 1 |
| Versions.PreReleaseCompare | version.go:63-121 | `comparePreRelease` on the two lists: a version without pre-release identifiers outranks one with them, otherwise the lists are walked; `Versions.ComparePreRelease` is proved equal to it, and the `Precedence` lemmas state its order laws |
| Versions.Compare | version.go:37-60 | `Compare` returns -1, 0 or 1, and 1 for a nil target |
| Versions.ComparePreRelease | version.go:63-121 | The indexed loop with its early returns equals `PreReleaseCompare` on the two lists, nil reading as empty |
| Versions.Less | version.go:123-125 | Compare gives -1; `Precedence.PredicatesAgree` and `NilTarget` state its laws |
| Versions.LessOrEqual | version.go:127-130 | Compare gives -1 or 0; `Precedence.PredicatesAgree` and `NilTarget` state its laws |
| Versions.Greater | version.go:132-134 | Compare gives 1; `Precedence.PredicatesAgree` and `NilTarget` state its laws |
| Versions.GreaterOrEqual | version.go:136-139 | Compare gives 1 or 0; `Precedence.PredicatesAgree` and `NilTarget` state its laws |
| Versions.Equals | version.go:141-143 | Compare gives 0; `Precedence.EqualsIsEquivalence` and `PredicatesAgree` state its laws |
| Precedence.StrCompareAntisymmetric | version.go:113-117 | Swapping two strings negates their order |
| Precedence.StrCompareTransitive | version.go:113-117 | Go's string order is transitive |
| Precedence.NumericIffDigits | parser.go:185-194 | An identifier is numeric for `comparePreRelease` exactly when it is all digits, `""` included, and then its number is its decimal value |
| Precedence.CompareIdentsRules | version.go:89-117 | Numeric is less than alphanumeric; two numerics decide by value, 0 when equal; two alphanumerics decide by string order; the loop goes on exactly for equal alphanumerics |
| Precedence.CompareIdentsAntisymmetric | version.go:89-117 | Swapping two identifiers keeps "goes on" and negates a decision |
| Precedence.CompareIdentsTransitive | version.go:89-117 | Two decisions at most 0 chain into a decision at most 0 |
| Precedence.IdentListAntisymmetric | version.go:78-120 | Swapping two lists negates the comparison |
| Precedence.IdentListReflexive | version.go:78-120 | A list compares 0 with itself |
| Precedence.IdentListTransitive | version.go:78-120 | The list comparison is transitive |
| Precedence.AlnumPrefixSkipped | version.go:113-118 | A common prefix of alphanumeric identifiers does not change the comparison |
| Precedence.ShorterIsLess | version.go:79-84 | After equal alphanumeric identifiers, the list that runs out first is less |
| Precedence.NumericPositionDecides | version.go:105-112 | The first position where both identifiers are numeric decides by value, whatever follows, and equal values give 0 |
| Precedence.PreReleaseAntisymmetric | version.go:63-121 | Swapping the two lists negates `comparePreRelease` |
| Precedence.CompareAntisymmetric | version.go:37-60 | For non-nil versions, swapping them negates `Compare` |
| Precedence.CompareReflexive | version.go:37-60 | A version compares 0 with itself |
| Precedence.PreReleaseTransitive | version.go:63-121 | `comparePreRelease` is transitive |
| Precedence.CompareTransitive | version.go:37-60 | `Compare` is transitive |
| Precedence.EqualsIsEquivalence | version.go:141-143 | Comparing 0 is symmetric, and versions that compare 0 compare alike with every third version |
| Precedence.CoreFieldsDecide | version.go:41-58 | Major, then minor, then patch: the first that differs decides, numerically |
| Precedence.ReleaseOutranksPreRelease | version.go:66-71 | With equal cores, a version without pre-release identifiers is greater than one with them, and two without are equal |
| Precedence.BuildDataIgnored | version.go:37-121 | Build data never changes the comparison |
| Precedence.PredicatesAgree | version.go:123-143 | Less is the converse of Greater, LessOrEqual of GreaterOrEqual, each non-strict predicate is the negation of the opposite strict one, Equals is symmetric and is LessOrEqual and GreaterOrEqual together |
| Precedence.NilTarget | version.go:38-40 | Every version is Greater and GreaterOrEqual than nil, and not Less, LessOrEqual or Equals |
| RoundTrip.ParseString | parser.go:23-104 | For every version whose lists are absent or non-empty, with identifiers from `[0-9A-Za-z-]` that start alphanumeric, parsing its rendering gives it back |
| RoundTrip.IdentShape | parser.go:166-183 | `parseIdent` only appends identifier characters to what it has read |
| RoundTrip.IdentValid | parser.go:166-183 | An identifier read from an identifier token starts alphanumeric and holds only `[0-9A-Za-z-]` |
| RoundTrip.PreReleaseShape | parser.go:130-146 | `parsePreRelease` returns a non-empty list of valid identifiers |
| RoundTrip.BuildDataShape | parser.go:148-164 | `parseBuildData` returns a non-empty list of valid identifiers |
| RoundTrip.ParseWellFormed | parser.go:23-104 | Whatever `parse` returns has absent or non-empty lists of valid identifiers |
| RoundTrip.AfterPatchWellFormed | parser.go:65-103 | The lists read after the patch field are absent or non-empty lists of valid identifiers |
| RoundTrip.ParseIdempotent | parser.go:23-104 | Rendering what `parse` returned and parsing it again gives the same result |
| ParseCases.FirstTokenRejected | parser.go:27-30 | Text that does not start alphanumeric is rejected at 0, naming EOF, `.`, `-`, `+` or ILLEGAL |
| ParseCases.MajorFieldRules | parser.go:106-120 | A bare `v` is rejected as EOF at 1. Without `v`, the value is that of the digits, or 0 when they are not all digits. After `v`, the digits are read from index 2 of the literal |
| ParseCases.BareV | parser.go:112-114 | `"v"`, then nothing alphanumeric, is rejected as EOF at 1 |
| ParseCases.VPrefixed | parser.go:108-119 | `v` and digits give the value of the digits after the first one |
| ParseCases.NonNumericMajor | parser.go:115-118 | A first identifier that is not a number and has no `v` gives 0.0.0, with no error |
| ParseCases.MajorOnly | parser.go:37-39 | Digits alone give major only, with minor and patch 0 |
| ParseCases.MajorMinor | parser.go:51-53 | `d1.d2` gives patch 0 |
| ParseCases.EmptyMinorSlot | parser.go:44-53 | A minor slot holding no identifier reads as 0 and parsing goes on with the token after the slot's; with at most one character after the dot the text is accepted: `"1."` and `"1.."` are 1.0.0 |
| ParseCases.EmptyPatchSlot | parser.go:58-68 | A patch slot holding no identifier reads as 0 and parsing goes on with the token after the slot's; with at most one character after the dot the text is accepted: `"1.2."` is 1.2.0 |
| ParseCases.CoreOnly | parser.go:58-69 | Three digit fields give their decimal values, leading zeros included |
| ParseCases.NonNumericMinor | parser.go:44-48 | A minor literal that is not a number is rejected at its first non-digit, naming it |
| ParseCases.NonNumericPatch | parser.go:58-62 | A patch literal that is not a number is rejected at its first non-digit, naming it |
| ParseCases.AfterPatchValue | parser.go:65-87 | After the patch field, any token but EOF, `-` or `+` is rejected at its position, by name |
| ParseCases.AfterPatchRejected | parser.go:85-87 | After the patch field, a dot or an illegal character is rejected at its position |
| ParseCases.EmptyList | parser.go:130-135 | A `-` or `+` with no identifier after it is rejected just after the mark |
| ParseCases.PreReleaseThrough | parser.go:130-146 | `parsePreRelease` reads a dot-separated list followed by a dot and goes on after that dot with the list appended |
| ParseCases.BuildDataThrough | parser.go:148-164 | `parseBuildData` reads a dot-separated list followed by a dot and goes on after that dot with the list appended |
| ParseCases.IdentThrough | parser.go:166-183 | `parseIdent` reads identifier characters up to the first character that cannot extend them |
| ParseCases.BuildDataPlus | parser.go:148-183 | In build data, a `+` after an identifier is rejected where it stands |
| ParseCases.DottedList | parser.go:130-164 | Either list followed by a dot goes on after the dot |
| ParseCases.TrailingDot | parser.go:130-164 | A pre-release or build list that ends with a dot is rejected after the dot, naming what follows: EOF, `.`, `-`, `+` or ILLEGAL |
| ParseCases.SecondPlus | parser.go:148-183 | A second `+` after build data is rejected where it stands |
| Samples.MajorSample | version_test.go:12 | `"0"` is 0.0.0 |
| Samples.MinorSample | version_test.go:14 | `"0.1"` is 0.1.0 |
| Samples.PatchSample | version_test.go:16 | `"0.1.2"` is 0.1.2 |
| Samples.LeadingZerosSample | version_test.go:24-25 | `"0.01.00"` is 0.1.0: the case `"v0.01.00"` of the test file, without its `v` |
| Samples.VSamples | parser.go:108-115 | `"v0"` is 0.0.0, and `"v12"` is 2.0.0 |
| Samples.EmptyMinorSamples | parser.go:44-53 | `"1."` and `"1.."` are 1.0.0 |
| Samples.EmptyPatchSample | parser.go:58-68 | `"1.2."` is 1.2.0 |
| Samples.EmptyMinorThroughSample | parser.go:44-63 | `"1.-.2"` is 1.0.2: the `-` fills the minor slot and the patch follows |
| Samples.EmptyPatchThroughSample | parser.go:58-87 | `"1.2.-a"` fails with IDENT at 5: the `-` fills the patch slot, and the identifier after it is rejected |
| Samples.FirstTokenSamples | parser.go:27-30 | `""` fails with EOF at 0, `"-1"` with `-` at 0, and `"."` with `.` at 0 |
| Samples.BareVSample | parser.go:112-114 | `"v"` fails with EOF at 1 |
| Samples.NonNumericMinorSample | parser.go:44-48 | `"1.x.0"` fails with `x` at 2 |
| Samples.FourthFieldSample | parser.go:85-87 | `"1.2.3.4"` fails with `.` at 5 |
| Samples.EmptyListSample | parser.go:130-135 | `"1.0.0-"` fails with EOF at 6 |
| Samples.PrecedenceChain | version_test.go:50-56 | 1.0.0-alpha < 1.0.0-alpha.1 < 1.0.0-alpha.beta < 1.0.0-beta < 1.0.0-beta.2 < 1.0.0-beta.11 < 1.0.0-rc.1 < 1.0.0 |
| Samples.BuildSample | version_test.go:192 | 0.1.1+a equals 0.1.1+b |

## Left out

- Integer width: `strToUint` accumulates in a Go `uint`, where `n*10 + d` wraps around silently. The model reads numbers as unbounded naturals, so it does not capture that overflow.
- Strings are sequences of characters. The UTF-8 decoding and the `[]rune` conversion in `parse` are not modelled. The scanner makes every non-ASCII character a token of its own, so error positions are character indices as in the library.
- `strToUint` on a string with a non-ASCII character: Go's `range` yields byte offsets, and the model counts characters, so the position in the error can differ. The parser passes only identifier literals, which are ASCII. The comparator can pass any string, since a `Version` can be built without the parser, but it reads only whether the call succeeded and the value, never the error position, so its result is the same.
- Error text: the `fmt.Errorf` message "unexpected <got> at <pos>" is kept as its two arguments, `Unexpected(got, pos)`. The `fmt.Sprintf` of `token.String` is modelled through `IntToString`.
- Methods on a nil `*Version` panic in Go and are not modelled. Only a nil target is modelled, as `Option<Version>`.
- Parsing.Parser.ParseMajor: requires `MajorInRange`, the condition under which Go's `src[offset:]` slice does not panic. The parser always calls it at position 0, where the condition holds (`ParseCases.MajorFieldRules`).
- Parsing.Parser.Parse: the contract states the text loaded, the result and, on success, the final token, but not the parser's invariant `Valid()` after the call. A parser is used for one call (`Versions.Parse` makes a fresh one), and the invariant on every exit path makes the method too costly for the verifier.
- Parsing.Parser.ParseSuffix: the two closing `switch` statements of `parse` are a method of their own, which `Parse` calls after the patch field.
- Versions.Compare: `Compare` is pure in the library, so it is a function. It calls `PreReleaseCompare`, the function the method `ComparePreRelease` is proved equal to, because a function cannot call a method.
- Go's `<` and `>` on strings compare UTF-8 bytes. The model compares characters by code point, which gives the same order.
- `version_test.go` is not part of the model. Its expected renderings with a leading `v` contradict `String`, which the model follows.
