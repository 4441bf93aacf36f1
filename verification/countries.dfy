/** The record both source files pass around: a country's display name and
    its two-letter flag code, as `{ name, code }`. */
module Countries {
  import opened Text

  datatype Country = Country(name: string, code: string)

  /** Two upper-case ASCII letters, the shape of an ISO 3166 alpha-2 code. */
  predicate IsAlpha2(code: string) {
    |code| == 2 && IsUpperAsciiLetter(code[0]) && IsUpperAsciiLetter(code[1])
  }

  /** No two entries of `cs` share a code. */
  predicate DistinctCodes(cs: seq<Country>) {
    forall i, j :: 0 <= i < j < |cs| ==> cs[i].code != cs[j].code
  }

  /** An alpha-2 code is non-empty and upper case. */
  lemma Alpha2IsUpper(code: string)
    requires IsAlpha2(code)
    ensures code != [] && IsUpperCase(code)
  {
  }
}
