/** The country data provider of countries.js: the REST tier, the tier that
    scrapes a bundled HTML copy, and `getCountries`, which tries them in turn
    and ends at the static table. Network and parser I/O are outside the
    model: each tier receives what its fetch and parse produced, or `None`
    when that step threw. */
module CountrySources {
  import opened Wrappers
  import opened Text
  import opened Countries
  import FallbackTable

  /* ---------------- REST tier (countries.js:3-18) ---------------- */

  /** One element of the JSON array the REST endpoint returns. `NullItem` is
      a `null` element, on which reading `c.name` throws; otherwise the
      element's `name.common` and `cca2` fields, `None` when missing. */
  datatype RestItem =
    | NullItem
    | RestItem(commonName: Option<string>, cca2: Option<string>)

  /** The tier discards its whole result below this many kept entries. */
  const MinRestCountries: nat := 10

  /** What the REST tier promises of every entry it keeps. */
  predicate IsRestEntry(c: Country) {
    c.name != [] && |c.code| == 2 && IsUpperCase(c.code)
  }

  /** The filter's test: a non-empty common name and a code of length 2. */
  predicate KeepsRestItem(item: RestItem) {
    && item.RestItem?
    && item.commonName.Some? && item.commonName.value != []
    && item.cca2.Some? && |item.cca2.value| == 2
  }

  /** The `map` callback: the normalised entry, or `None` when the item
      fails the test. (On a `null` item the callback throws instead; the
      tier checks for those separately.) */
  function RestEntry(item: RestItem): (r: Option<Country>)
    ensures r.Some? <==> KeepsRestItem(item)
    ensures r.Some? ==> IsRestEntry(r.value)
  {
    match item
    case NullItem => None
    case RestItem(Some(name), Some(code)) =>
      if name != [] && code != [] && |code| == 2 then Some(Country(name, ToUpper(code))) else None
    case RestItem(_, _) => None
  }

  predicate NoNullItems(items: seq<RestItem>) {
    forall i :: 0 <= i < |items| ==> items[i].RestItem?
  }

  /** `data.map(...).filter(Boolean)`: the normalised entries of the items
      the filter keeps. */
  function FilterRest(items: seq<RestItem>): (r: seq<Country>)
    ensures |r| <= |items|
    ensures forall i :: 0 <= i < |r| ==> IsRestEntry(r[i])
  {
    var r := FilterMap(RestEntry, items);
    assert forall i :: 0 <= i < |r| ==> IsRestEntry(r[i]) by {
      forall i | 0 <= i < |r| ensures IsRestEntry(r[i]) {
        var k :| 0 <= k < |items| && RestEntry(items[k]) == Some(r[i]);
      }
    }
    r
  }

  /** The REST filter keeps valid items in their input order and drops
      every invalid one: wherever an item stands, it contributes exactly
      its own normalised entry (name unchanged, code upper-cased) when it
      has a non-empty name and a two-character code, and nothing otherwise. */
  lemma FilterRestInPlace(before: seq<RestItem>, item: RestItem, after: seq<RestItem>)
    ensures FilterRest(before + [item] + after)
         == FilterRest(before)
          + (if KeepsRestItem(item)
             then [Country(item.commonName.value, ToUpper(item.cca2.value))]
             else [])
          + FilterRest(after)
  {
    FilterMapInPlace(RestEntry, before, item, after);
  }

  /** `fetchRestCountries`: `payload` is the parsed response, `None` when
      the request, its status or its JSON failed. */
  function RestTier(payload: Option<seq<RestItem>>): (r: Option<seq<Country>>)
    ensures r.Some? <==>
      && payload.Some?
      && NoNullItems(payload.value)
      && |FilterRest(payload.value)| >= MinRestCountries
    ensures r.Some? ==> r.value == FilterRest(payload.value)
    ensures r.Some? ==> |r.value| >= MinRestCountries
    ensures r.Some? ==> forall i :: 0 <= i < |r.value| ==> IsRestEntry(r.value[i])
  {
    match payload
    case None => None
    case Some(items) =>
      if !NoNullItems(items) then None
      else
        var list := FilterRest(items);
        if |list| < MinRestCountries then None else Some(list)
  }

  /* ------------- HTML-copy tier (countries.js:20-52) ------------- */

  /** The `p.mb0.bold` element of a block: its text, and the text of its
      next element sibling when it has one. */
  datatype CodeElement = CodeElement(text: string, nextSibling: Option<string>)

  /** One `<p>` of a block: whether it has class `mb0`, and its text. */
  datatype Paragraph = Paragraph(hasMb0: bool, text: string)

  /** One `.item_country` block, reduced to what the scraper reads: its
      code element, the `src` of its first `<img>` (`None` without one),
      and all its paragraphs in document order. */
  datatype HtmlBlock = HtmlBlock(
    codeElement: Option<CodeElement>,
    imageSrc: Option<string>,
    paragraphs: seq<Paragraph>)

  /** The literal part of the pattern `/flagsapi\.com\/([A-Z]{2})\/?/i`. */
  const FlagsApiHost: string := "flagsapi.com/"

  /** The pattern matches at `p`: the host, in any ASCII case, followed by
      two ASCII letters (the case-insensitive `[A-Z]{2}`). The optional
      trailing slash never changes whether it matches or what the group
      captures. */
  predicate FlagsApiMatchAt(src: string, p: nat) {
    && p + |FlagsApiHost| + 2 <= |src|
    && (forall k :: 0 <= k < |FlagsApiHost| ==> UpperChar(src[p + k]) == UpperChar(FlagsApiHost[k]))
    && IsAsciiLetter(src[p + |FlagsApiHost|])
    && IsAsciiLetter(src[p + |FlagsApiHost| + 1])
  }

  /** The leftmost position at or after `from` where the pattern matches. */
  function FirstFlagsApiMatch(src: string, from: nat): (r: Option<nat>)
    requires from <= |src|
    ensures r.Some? ==> from <= r.value && FlagsApiMatchAt(src, r.value)
    ensures forall p :: from <= p && (r.None? || p < r.value) ==> !FlagsApiMatchAt(src, p)
    decreases |src| - from
  {
    if from + |FlagsApiHost| + 2 > |src| then None
    else if FlagsApiMatchAt(src, from) then Some(from)
    else FirstFlagsApiMatch(src, from + 1)
  }

  /** The pattern matches at `p` and nowhere before it. */
  predicate LeftmostFlagsApiMatch(src: string, p: nat) {
    FlagsApiMatchAt(src, p) && forall q :: 0 <= q < p ==> !FlagsApiMatchAt(src, q)
  }

  /** `src.match(...)` and its capture group, or `None` when the pattern
      occurs nowhere; the lemma below says which two letters are captured. */
  function FlagsApiCode(src: string): (r: Option<string>)
    ensures r.None? <==> forall p :: !FlagsApiMatchAt(src, p)
    ensures r.Some? ==> |r.value| == 2 && IsAsciiLetter(r.value[0]) && IsAsciiLetter(r.value[1])
  {
    match FirstFlagsApiMatch(src, 0)
    case Some(p) => Some(src[p + |FlagsApiHost|..p + |FlagsApiHost| + 2])
    case None => None
  }

  /** The capture group is the two letters after the leftmost match. */
  lemma FlagsApiCodeLeftmost(src: string, p: nat)
    requires LeftmostFlagsApiMatch(src, p)
    ensures FlagsApiCode(src) == Some(src[p + |FlagsApiHost|..p + |FlagsApiHost| + 2])
  {
    var f := FirstFlagsApiMatch(src, 0);
    assert f.Some? && f.value == p;
  }

  /** The code element is present and its text is not all whitespace. */
  predicate HasCodeText(b: HtmlBlock) {
    b.codeElement.Some? && Trim(b.codeElement.value.text) != []
  }

  /** The image has a non-empty `src` in which the `flagsapi.com/` pattern
      matches. */
  predicate HasImageCode(b: HtmlBlock) {
    b.imageSrc.Some? && b.imageSrc.value != [] && FlagsApiCode(b.imageSrc.value).Some?
  }

  /** countries.js:29-30: the trimmed text of the code element, or `''`
      without one; empty exactly when there is no code element or its text
      is all whitespace. */
  function BoldCode(b: HtmlBlock): (r: string)
    ensures IsTrimmed(r)
    ensures b.codeElement.Some? ==> r == Trim(b.codeElement.value.text)
    ensures r == [] <==> b.codeElement.None? || AllWhitespace(b.codeElement.value.text)
  {
    match b.codeElement
    case Some(el) => (TrimEmptyIff(el.text); Trim(el.text))
    case None => ""
  }

  /** The code read from the image: the upper-cased capture of the pattern
      in a non-empty `src`, or `''`. */
  function ImageCode(b: HtmlBlock): (r: string)
    ensures r == [] || IsAlpha2(r)
    ensures r != [] <==> HasImageCode(b)
    ensures HasImageCode(b) ==> r == ToUpper(FlagsApiCode(b.imageSrc.value).value)
  {
    match b.imageSrc
    case Some(src) =>
      if src == [] then ""
      else (match FlagsApiCode(src) case Some(m) => ToUpper(m) case None => "")
    case None => ""
  }

  /** countries.js:29-39: the bold text, and the image only when that is
      empty; empty exactly when neither the bold text nor the image gives a
      code. */
  function BlockCode(b: HtmlBlock): (r: string)
    ensures BoldCode(b) != [] ==> r == BoldCode(b)
    ensures BoldCode(b) == [] ==> r == ImageCode(b)
    ensures HasCodeText(b) ==> r == Trim(b.codeElement.value.text)
    ensures !HasCodeText(b) ==> r == [] || IsAlpha2(r)
    ensures r != [] <==> HasCodeText(b) || HasImageCode(b)
  {
    var bold := BoldCode(b);
    if bold != [] then bold else ImageCode(b)
  }

  /** The index of the first paragraph at or after `from` without class
      `mb0` whose trimmed text is non-empty. */
  function FirstNamedParagraph(ps: seq<Paragraph>, from: nat): (r: Option<nat>)
    requires from <= |ps|
    ensures r.Some? ==> from <= r.value < |ps| && !ps[r.value].hasMb0 && Trim(ps[r.value].text) != []
    ensures forall i :: from <= i < |ps| && (r.None? || i < r.value) ==> ps[i].hasMb0 || Trim(ps[i].text) == []
    decreases |ps| - from
  {
    if from == |ps| then None
    else if !ps[from].hasMb0 && Trim(ps[from].text) != [] then Some(from)
    else FirstNamedParagraph(ps, from + 1)
  }

  /** The code element has a next sibling whose trimmed text is non-empty. */
  predicate SiblingNamed(b: HtmlBlock) {
    b.codeElement.Some? && b.codeElement.value.nextSibling.Some?
    && Trim(b.codeElement.value.nextSibling.value) != []
  }

  /** Paragraph `i` is the first without `mb0` whose trimmed text is non-empty. */
  predicate FirstNamed(ps: seq<Paragraph>, i: int) {
    && 0 <= i < |ps|
    && !ps[i].hasMb0 && Trim(ps[i].text) != []
    && forall k :: 0 <= k < i ==> ps[k].hasMb0 || Trim(ps[k].text) == []
  }

  /** Some paragraph without `mb0` has non-empty trimmed text. */
  predicate HasNamedParagraph(ps: seq<Paragraph>) {
    exists i :: 0 <= i < |ps| && FirstNamed(ps, i)
  }

  /** The search from the start finds exactly the first named paragraph,
      and finds one exactly when there is one. */
  lemma FirstNamedParagraphFinds(ps: seq<Paragraph>, i: nat)
    ensures FirstNamedParagraph(ps, 0) == Some(i) <==> FirstNamed(ps, i)
    ensures FirstNamedParagraph(ps, 0).Some? <==> HasNamedParagraph(ps)
  {
    var r := FirstNamedParagraph(ps, 0);
    if r.Some? {
      assert FirstNamed(ps, r.value);
    }
  }

  /** countries.js:31-32 and 40-45: the trimmed text of the code element's
      next sibling when that is non-empty, or else that of the first named
      paragraph; empty exactly when neither exists. */
  function BlockName(b: HtmlBlock): (r: string)
    ensures IsTrimmed(r)
    ensures SiblingNamed(b) ==> r == Trim(b.codeElement.value.nextSibling.value)
    ensures !SiblingNamed(b) ==> forall i :: FirstNamed(b.paragraphs, i) ==> r == Trim(b.paragraphs[i].text)
    ensures r != [] <==> SiblingNamed(b) || HasNamedParagraph(b.paragraphs)
  {
    var sibling :=
      if b.codeElement.Some? && b.codeElement.value.nextSibling.Some?
      then Trim(b.codeElement.value.nextSibling.value) else "";
    if sibling != [] then sibling
    else match FirstNamedParagraph(b.paragraphs, 0)
      case Some(i) => (FirstNamedParagraphFinds(b.paragraphs, i); Trim(b.paragraphs[i].text))
      case None => (FirstNamedParagraphFinds(b.paragraphs, 0); "")
  }

  /** The per-block callback: an entry when both name and code are
      non-empty, its code upper-cased. */
  function HtmlEntry(b: HtmlBlock): (r: Option<Country>)
    ensures r.Some? ==> r.value.name != [] && IsTrimmed(r.value.name)
    ensures r.Some? ==> r.value.code != [] && IsTrimmed(r.value.code) && IsUpperCase(r.value.code)
  {
    var name := BlockName(b);
    var code := BlockCode(b);
    ToUpperKeepsTrimmed(code);
    if name != [] && code != [] then Some(Country(name, ToUpper(code))) else None
  }

  /** An accepted block whose bold text is non-empty after trimming takes
      that text, upper-cased, as its code, whatever its image says. */
  lemma HtmlCodeFromText(b: HtmlBlock)
    requires HtmlEntry(b).Some?
    requires b.codeElement.Some? && Trim(b.codeElement.value.text) != []
    ensures HtmlEntry(b).value.code == ToUpper(Trim(b.codeElement.value.text))
  {
    assert BlockCode(b) == Trim(b.codeElement.value.text);
  }

  /** An accepted block without bold text (or with blank bold text) took its
      code from a non-empty image source in which the `flagsapi.com/`
      pattern matched: the two captured letters, upper-cased, which makes
      the code alpha-2. */
  lemma HtmlCodeFromImage(b: HtmlBlock)
    requires HtmlEntry(b).Some?
    requires b.codeElement.None? || Trim(b.codeElement.value.text) == []
    ensures b.imageSrc.Some? && b.imageSrc.value != []
    ensures FlagsApiCode(b.imageSrc.value).Some?
    ensures HtmlEntry(b).value.code == ToUpper(FlagsApiCode(b.imageSrc.value).value)
    ensures IsAlpha2(HtmlEntry(b).value.code)
  {
    var code := BlockCode(b);
    assert code == ImageCode(b);
    assert code != [];
    ToUpperIdempotent(code);
  }

  /** Where an accepted block's name comes from: the trimmed text of the
      code element's next sibling when non-empty; otherwise that of the
      first paragraph without `mb0` whose trimmed text is non-empty. */
  lemma HtmlEntryName(b: HtmlBlock)
    requires HtmlEntry(b).Some?
    ensures SiblingNamed(b) ==> HtmlEntry(b).value.name == Trim(b.codeElement.value.nextSibling.value)
    ensures !SiblingNamed(b) ==> exists i :: FirstNamed(b.paragraphs, i)
                                       && HtmlEntry(b).value.name == Trim(b.paragraphs[i].text)
  {
  }

  /** A block is kept exactly when it has a name (a named sibling or a
      named paragraph) and a code (non-blank bold text, or an image whose
      non-empty `src` matches the `flagsapi.com/` pattern). */
  lemma HtmlEntryAccepted(b: HtmlBlock)
    ensures HtmlEntry(b).Some? <==>
              && (SiblingNamed(b) || HasNamedParagraph(b.paragraphs))
              && (HasCodeText(b) || HasImageCode(b))
  {
  }

  /** `items.map(...).filter(Boolean)`: the entries of the accepted blocks,
      in document order. */
  function HtmlEntries(blocks: seq<HtmlBlock>): (r: seq<Country>)
    ensures |r| <= |blocks|
    ensures r == [] <==> forall i :: 0 <= i < |blocks| ==> HtmlEntry(blocks[i]).None?
    ensures forall i :: 0 <= i < |blocks| && HtmlEntry(blocks[i]).Some? ==> HtmlEntry(blocks[i]).value in r
    ensures forall i :: 0 <= i < |r| ==> r[i].name != [] && r[i].code != [] && IsUpperCase(r[i].code)
  {
    var r := FilterMap(HtmlEntry, blocks);
    assert forall i :: 0 <= i < |r| ==> r[i].name != [] && r[i].code != [] && IsUpperCase(r[i].code) by {
      forall i | 0 <= i < |r| ensures r[i].name != [] && r[i].code != [] && IsUpperCase(r[i].code) {
        var k :| 0 <= k < |blocks| && HtmlEntry(blocks[k]) == Some(r[i]);
      }
    }
    r
  }

  /** The accepted entries keep document order: wherever a block stands,
      it contributes exactly its own entry when accepted and nothing
      otherwise. */
  lemma HtmlEntriesInPlace(before: seq<HtmlBlock>, b: HtmlBlock, after: seq<HtmlBlock>)
    ensures HtmlEntries(before + [b] + after)
         == HtmlEntries(before)
          + (if HtmlEntry(b).Some? then [HtmlEntry(b).value] else [])
          + HtmlEntries(after)
  {
    FilterMapInPlace(HtmlEntry, before, b, after);
  }

  /** `fetchFromCopiedHTML`: `document` is the list of blocks the parser
      found, `None` when fetching or parsing the copy failed. */
  function HtmlTier(document: Option<seq<HtmlBlock>>): (r: Option<seq<Country>>)
    ensures r.None? <==>
      document.None? || forall i :: 0 <= i < |document.value| ==> HtmlEntry(document.value[i]).None?
    ensures r.Some? ==> r.value != [] && r.value == HtmlEntries(document.value)
  {
    match document
    case None => None
    case Some(blocks) =>
      var list := HtmlEntries(blocks);
      if list == [] then None else Some(list)
  }

  /** A copy holding a single block yields that block's entry, or fails. */
  lemma HtmlTierSingle(b: HtmlBlock)
    ensures HtmlTier(Some([b])) == if HtmlEntry(b).Some? then Some([HtmlEntry(b).value]) else None
  {
    FilterMapSingle(HtmlEntry, b);
    assert HtmlEntries([b]) == FilterMap(HtmlEntry, [b]);
  }

  /** Unlike the REST tier, the HTML tier accepts a code of any length: a
      block whose bold text is ` usa ` and whose sibling reads `Utah`
      yields the code `USA`. */
  lemma HtmlEntryAcceptsLongCode()
    ensures HtmlEntry(HtmlBlock(Some(CodeElement(" usa ", Some("Utah"))), None, []))
         == Some(Country("Utah", "USA"))
  {
    var b := HtmlBlock(Some(CodeElement(" usa ", Some("Utah"))), None, []);
    assert TrimStartIndex(" usa ", 0) == 1;
    assert TrimEndIndex(" usa ", 1, 5) == 4;
    assert BoldCode(b) == "usa";
    TrimOfTrimmed("Utah");
    assert BlockName(b) == "Utah";
    assert ToUpper("usa") == "USA";
  }

  /** The same block makes a whole copy succeed with a three-letter code. */
  lemma HtmlTierAcceptsLongCode()
    ensures HtmlTier(Some([HtmlBlock(Some(CodeElement(" usa ", Some("Utah"))), None, [])]))
         == Some([Country("Utah", "USA")])
  {
    HtmlEntryAcceptsLongCode();
    HtmlTierSingle(HtmlBlock(Some(CodeElement(" usa ", Some("Utah"))), None, []));
  }

  /* ---------------- the chain (countries.js:314-323) ---------------- */

  /** `getCountries`: the REST list if that tier succeeds, otherwise the
      HTML list if that one does, otherwise `LOCAL_FALLBACK`. */
  function GetCountries(rest: Option<seq<RestItem>>, document: Option<seq<HtmlBlock>>): (r: seq<Country>)
    ensures r != []
  {
    match RestTier(rest)
    case Some(list) => list
    case None =>
      match HtmlTier(document)
      case Some(list) => list
      case None => FallbackTable.LocalFallback
  }

  /** Whichever tier supplies it, every entry of the result has a non-empty
      upper-case code. */
  lemma GetCountriesCodes(rest: Option<seq<RestItem>>, document: Option<seq<HtmlBlock>>)
    ensures forall i :: 0 <= i < |GetCountries(rest, document)| ==>
      GetCountries(rest, document)[i].code != [] && IsUpperCase(GetCountries(rest, document)[i].code)
  {
    if RestTier(rest).None? && HtmlTier(document).None? {
      FallbackTable.LocalFallbackWellFormed();
      forall i | 0 <= i < |FallbackTable.LocalFallback|
        ensures FallbackTable.LocalFallback[i].code != [] && IsUpperCase(FallbackTable.LocalFallback[i].code)
      {
        Alpha2IsUpper(FallbackTable.LocalFallback[i].code);
      }
    }
  }

  /** A REST payload that keeps fewer than ten entries is never surfaced:
      the result is what it would be had the REST request failed. */
  lemma ShortRestPayloadIgnored(items: seq<RestItem>, document: Option<seq<HtmlBlock>>)
    requires NoNullItems(items) && |FilterRest(items)| < MinRestCountries
    ensures GetCountries(Some(items), document) == GetCountries(None, document)
  {
  }

  /** A successful REST tier decides the result whatever the HTML copy holds:
      at least ten entries, each with a non-empty name and an upper-case
      code of length 2, in payload order. */
  lemma RestTierWins(items: seq<RestItem>, document: Option<seq<HtmlBlock>>)
    requires NoNullItems(items) && |FilterRest(items)| >= MinRestCountries
    ensures GetCountries(Some(items), document) == FilterRest(items)
    ensures |GetCountries(Some(items), document)| >= MinRestCountries
  {
  }

  /** With the REST tier failed, a usable HTML copy decides the result. */
  lemma HtmlTierSecond(rest: Option<seq<RestItem>>, document: Option<seq<HtmlBlock>>)
    requires RestTier(rest).None? && HtmlTier(document).Some?
    ensures GetCountries(rest, document) == HtmlEntries(document.value)
  {
  }

  /** With the REST tier failed, every block of the HTML copy that yields
      an entry has that entry in the result. */
  lemma HtmlEntryReachesResult(rest: Option<seq<RestItem>>, document: seq<HtmlBlock>, i: nat)
    requires RestTier(rest).None?
    requires i < |document| && HtmlEntry(document[i]).Some?
    ensures HtmlEntry(document[i]).value in GetCountries(rest, Some(document))
  {
    HtmlTierSecond(rest, Some(document));
  }

  /** With both tiers failed, the static table is the result: 256 entries,
      all codes two upper-case letters and pairwise distinct. */
  lemma BothTiersFail(rest: Option<seq<RestItem>>, document: Option<seq<HtmlBlock>>)
    requires RestTier(rest).None? && HtmlTier(document).None?
    ensures GetCountries(rest, document) == FallbackTable.LocalFallback
    ensures |GetCountries(rest, document)| == 256
    ensures DistinctCodes(GetCountries(rest, document))
  {
    FallbackTable.LocalFallbackWellFormed();
  }
}
