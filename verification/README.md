# Guess the country: a Dafny model of the data provider and the round engine

The game shows a flag and asks which of up to four countries it belongs to.
Two pieces of its logic are modelled here, without the browser:

- **The country data provider** (countries.js). `getCountries` tries three
  tiers in turn:
  - the REST tier: the restcountries.com list, filtered to entries with a
    name and a two-character code, and discarded when fewer than ten survive;
  - the HTML tier: `.item_country` blocks scraped from a bundled HTML copy.
    A block's code is its trimmed bold text or, failing that, the letters
    after `flagsapi.com/` in its image URL. Its name is the next sibling's
    text or the first non-`mb0` paragraph's;
  - the static `LOCAL_FALLBACK` table of 256 entries.
- **The round engine** (index.js):
  - `pickRandom` and the in-place Fisher–Yates `shuffle`;
  - `flagUrl`;
  - the built-in list used when the provider did not load;
  - `newRound`: a target, up to three distractors with other codes, and the
    options shuffled;
  - `onGuess`, which scores a point exactly when the clicked option carries
    the target's code;
  - the Next button.

Files:

- `wrappers.dfy` (`Wrappers`): `Option`; `Somes`, the model of
  `.filter(Boolean)`; and `FilterMap`, the model of `.map(f).filter(Boolean)`.
  The model expresses all three filters of the source with `FilterMap`,
  including the plain `.filter` of `newRound`, whose test becomes a
  callback that returns the country or nothing.
- `text.dfy` (`Text`): JavaScript `String.prototype.trim` (the WhiteSpace and
  LineTerminator characters of ECMAScript) and `toUpperCase` on ASCII.
- `countries.dfy` (`Countries`): the `{ name, code }` record.
- `fallback_table.dfy` (`FallbackTable`): the `LOCAL_FALLBACK` literal, in
  source order. It is split into 32 runs of 8 entries so that its facts can
  be proved run by run and joined.
- `country_sources.dfy` (`CountrySources`): the REST tier, the HTML tier and
  `getCountries`.
- `shuffle.dfy` (`Shuffling`): `pickRandom` and `shuffle`.
- `round_engine.dfy` (`RoundEngine`): `flagUrl`, `safeGetCountries`,
  `newRound`, `onGuess`, Next, and the game state.

How I/O becomes parameters:

- The fetches and the DOM parser are outside the model. Each tier receives
  what its fetch and parse produced: a list of `RestItem` records, or a list
  of `HtmlBlock` records. It receives `None` when that step threw; the
  source's `catch` turns every such throw into `null`.
- `Math.random` becomes indices passed in. `pickRandom` receives `k < n`. The
  shuffle receives a sequence `js` with `js[i] <= i`, one draw per loop index.
- A click on an option button becomes that option's index.

Behaviour of the code that the model keeps as it is:

- Every round has at most three distractors.
- A wrong guess leaves the score unchanged.
- A new round starts only when the Next button is clicked.
- The HTML tier does not check the length of a code, so a block with the
  bold text `usa` is accepted (see `CountrySources.HtmlTierAcceptsLongCode`).
  The REST tier does check it.
- Six `LOCAL_FALLBACK` entries have empty names: AH, AK, EU, IC, NY and XK.
- The distractors are different entries of the list, since `slice(0, 3)`
  takes different positions of the shuffled pool. Two buttons can carry the
  same code only when the list itself repeats a code.

## Model

| member | source | states |
|---|---|---|
| `Wrappers.Somes` | countries.js:12 | `.filter(Boolean)` keeps exactly the present values: none is dropped, none is invented, and the result is empty iff every value was absent |
| `Wrappers.SomesAppend` | countries.js:47 | filtering distributes over concatenation, so the kept values stay in input order |
| `Wrappers.FilterMap` | countries.js:28-47 | `map` then `filter(Boolean)` keeps the value of every call that returned one, invents none, and is empty iff every call returned `null` |
| `Wrappers.FilterMapInPlace` | countries.js:8-12 | wherever an element stands, it contributes exactly its own call's value or nothing, so kept values are in input order |
| `Wrappers.FilterMapSingle` | countries.js:47 | a one-element list keeps its value or nothing |
| `Text.Trim` | countries.js:30 | the trimmed string is no longer than the input, and neither starts nor ends with whitespace |
| `Text.TrimIsInfix` | countries.js:30 | trimming removes only leading and trailing whitespace: the result is a contiguous piece of the input with nothing but whitespace around it |
| `Text.TrimEmptyIff` | countries.js:43 | `el.textContent.trim()` is falsy exactly when the text is all whitespace |
| `Text.TrimIdempotent` | index.js:19 | trimming twice is trimming once, so `flagUrl`'s `trim()` leaves a code the HTML tier already trimmed unchanged |
| `Text.ToUpper` | countries.js:11 | upper-casing keeps the length, changes only lower-case ASCII letters (each to its capital), and leaves no lower-case letter |
| `Text.ToUpperIdempotent` | countries.js:46 | upper-casing an already upper-cased code changes nothing, so upper-casing the image capture again at line 46 is harmless |
| `Text.ToUpperKeepsTrimmed` | countries.js:46 | upper-casing a trimmed string keeps it trimmed and keeps it non-empty |
| `FallbackTable.LocalFallbackWellFormed` | countries.js:54-311 | the table has 256 entries, every code is two upper-case letters, no two codes are equal, and the sixth entry is `AH` with an empty name |
| `CountrySources.RestEntry` | countries.js:9-11 | an item is kept iff its common name is non-empty and its `cca2` has length 2; a kept entry has an upper-case two-character code |
| `CountrySources.FilterRest` | countries.js:8-12 | the filtered list is no longer than the payload, and every entry has a non-empty name and an upper-case code of length 2 |
| `CountrySources.FilterRestInPlace` | countries.js:8-12 | wherever an item stands, it contributes exactly its own normalised entry if valid and nothing if not, so valid entries keep payload order |
| `CountrySources.RestTier` | countries.js:4-17 | the tier succeeds iff the payload arrived, has no `null` element and keeps at least 10 entries; on success it returns exactly those entries |
| `CountrySources.FirstFlagsApiMatch` | countries.js:36 | the position found is a match of the pattern, and no match starts at or after `from` before it |
| `CountrySources.FlagsApiCode` | countries.js:36 | the pattern yields no capture iff it matches nowhere; a capture is two ASCII letters |
| `CountrySources.FlagsApiCodeLeftmost` | countries.js:36-37 | the capture is the two letters following the leftmost case-insensitive `flagsapi.com/` that is followed by two letters |
| `CountrySources.BoldCode` | countries.js:29-30 | the bold code is the trimmed text of the `p.mb0.bold` element; it is empty exactly when that element is missing or its text is all whitespace |
| `CountrySources.ImageCode` | countries.js:34-38 | a code read from the image is either absent or exactly two upper-case letters; it is present exactly when the image has a non-empty `src` the pattern matches, and then it is the capture, upper-cased |
| `CountrySources.BlockCode` | countries.js:29-39 | the image is read only when the bold text is blank: non-blank bold text is the code, otherwise the code is empty or alpha-2; the code is non-empty exactly when the bold text or the image gives one |
| `CountrySources.FirstNamedParagraph` | countries.js:41-44 | the loop stops at the first paragraph without `mb0` whose trimmed text is non-empty; every paragraph before it fails that test |
| `CountrySources.FirstNamedParagraphFinds` | countries.js:41-44 | searched from the start, the loop stops at paragraph `i` exactly when `i` is the first qualifying paragraph, and it stops somewhere exactly when some paragraph qualifies |
| `CountrySources.BlockName` | countries.js:31-45 | the name is the trimmed sibling text when that is non-empty, and otherwise the trimmed text of the first qualifying paragraph; it is non-empty exactly when one of the two exists |
| `CountrySources.HtmlEntry` | countries.js:28-46 | an accepted block has a non-empty trimmed name and a non-empty trimmed upper-case code |
| `CountrySources.HtmlCodeFromText` | countries.js:29-30 | when the trimmed bold text is non-empty it is the code, upper-cased, whatever the image says |
| `CountrySources.HtmlCodeFromImage` | countries.js:33-39 | without usable bold text, an accepted block took its code from a non-empty image URL the pattern matched, and that code is alpha-2 |
| `CountrySources.HtmlEntryName` | countries.js:31-45 | the name is the non-empty trimmed sibling text; failing that, the trimmed text of the first qualifying paragraph |
| `CountrySources.HtmlEntryAccepted` | countries.js:28-46 | a block yields an entry exactly when it has a named sibling or a qualifying paragraph, and either non-blank bold text or an image whose non-empty `src` matches the pattern |
| `CountrySources.HtmlEntries` | countries.js:28-47 | every accepted block's entry is in the list, the list is empty iff every block is rejected, and every entry has a name and an upper-case code |
| `CountrySources.HtmlEntriesInPlace` | countries.js:28-47 | accepted entries keep document order, each block contributing exactly its own entry or nothing |
| `CountrySources.HtmlTier` | countries.js:48 | the tier fails iff there is no document or no block is accepted; otherwise it returns the non-empty list of entries |
| `CountrySources.HtmlTierSingle` | countries.js:48 | a copy with a single block succeeds with that block's entry exactly when the block is accepted |
| `CountrySources.HtmlEntryAcceptsLongCode` | countries.js:30-46 | the HTML extraction does not check the code's length: bold text ` usa ` beside `Utah` gives the entry `Utah`/`USA` |
| `CountrySources.HtmlTierAcceptsLongCode` | countries.js:48 | a copy holding only that block succeeds with a three-letter code, which the REST tier would have rejected |
| `CountrySources.GetCountries` | countries.js:314-323 | `getCountries` never returns an empty list |
| `CountrySources.GetCountriesCodes` | countries.js:314-323 | whichever tier supplies the list, every code in it is non-empty and upper case |
| `CountrySources.ShortRestPayloadIgnored` | countries.js:13 | a payload keeping fewer than 10 entries gives the same result as a failed REST request |
| `CountrySources.RestTierWins` | countries.js:316-317 | a successful REST tier decides the result whatever the HTML copy holds |
| `CountrySources.HtmlTierSecond` | countries.js:319-320 | with the REST tier failed, a successful HTML tier decides the result |
| `CountrySources.HtmlEntryReachesResult` | countries.js:319-320 | with the REST tier failed, every accepted block's entry reaches the result |
| `CountrySources.BothTiersFail` | countries.js:322 | with both tiers failed, the result is the static table: 256 entries with distinct codes |
| `Shuffling.PickRandom` | index.js:15 | a draw from a non-empty array is an element of it; from an empty array it is `undefined` |
| `Shuffling.PickRandomCovers` | index.js:15 | every element of the array is a possible draw |
| `Shuffling.Swap` | index.js:16 | the destructuring swap exchanges the two positions and leaves every other position as it was |
| `Shuffling.ShuffleSteps` | index.js:16 | the loop's swaps from index `i` down to 1 keep the array's length |
| `Shuffling.ShuffleStepsSettle` | index.js:16 | the swaps from index `i` down never touch a position above `i`, and position `i` ends up holding the element at the drawn index `js[i]` |
| `Shuffling.ShuffleStepsPermutes` | index.js:16 | the swaps of the loop, from any index down to 1, only reorder: the multiset is unchanged |
| `Shuffling.ShuffleSeq` | index.js:16 | the shuffle keeps the length and the multiset; every element of the result was in the input and vice versa |
| `Shuffling.Shuffle` | index.js:16 | the in-place loop leaves the array holding the functional shuffle of its old contents, a permutation of them |
| `Shuffling.ShuffleIdentity` | index.js:16 | draws that always pick the current index leave the array unchanged |
| `Shuffling.ShuffleKeepsSingle` | index.js:16 | a value occurring once before the shuffle occurs at exactly one position after it |
| `RoundEngine.FlagUrl` | index.js:19 | the URL is the fixed prefix, then as many characters as the trimmed code, then the fixed suffix |
| `RoundEngine.FlagUrlCodeSegment` | index.js:19 | the segment between prefix and suffix is the code, trimmed and upper-cased: it is itself trimmed and upper case |
| `RoundEngine.FlagUrlRoundTrip` | index.js:19 | for a code that trims to two letters, the scraper's pattern reads back from the flag URL exactly that code, upper-cased |
| `RoundEngine.BuiltinCountriesWellFormed` | index.js:26-32 | the built-in list has five countries, each with a name and an alpha-2 code, and all codes are distinct |
| `RoundEngine.SafeGetCountries` | index.js:22-33 | the list is never empty; it is `getCountries`'s result when the provider loaded, and the built-in list otherwise |
| `RoundEngine.Others` | index.js:58 | the pool holds exactly the listed countries whose code differs from the target's |
| `RoundEngine.OthersInPlace` | index.js:58 | the pool keeps list order and multiplicity: each country contributes itself or nothing |
| `RoundEngine.DistractorsFromList` | index.js:58-60 | every distractor is a country of the list whose code differs from the target's |
| `RoundEngine.Distractors` | index.js:60 | `slice(0, 3)`: the first min(3, n) elements of the shuffled pool |
| `RoundEngine.NewRound` | index.js:55-68 | a round exists iff the list is non-empty. Its target is the drawn country. There are 1 + min(3, pool size) options, at most 4. The target occurs once and is the only option with its code. The options are distinct entries of the list: each occurs among them at most as often as in the list |
| `RoundEngine.OthersSubMultiset` | index.js:58 | the pool takes each entry of the list at most as often as the list holds it |
| `RoundEngine.TargetAndOthersSubMultiset` | index.js:56-58 | the target is not in its own pool, so the target together with the pool is still drawn from the list |
| `RoundEngine.TargetAndPrefixSubMultiset` | index.js:56-60 | the target with the first entries of the reordered pool is drawn from the list |
| `RoundEngine.ShuffleDrawnFrom` | index.js:68 | shuffling entries drawn from the list keeps them drawn from it |
| `RoundEngine.RoundFor` | index.js:58-68 | the round built around a target: it keeps that target, and it has one option more than the shuffled pool gives distractors, namely 1 + min(3, number of listed countries with another code) |
| `RoundEngine.RoundForShape` | index.js:56-68 | the round built around a target has 1 + min(3, pool size) options, holds the target once, and the target is the one option with its code |
| `RoundEngine.RoundForFromList` | index.js:56-68 | the round built around a listed target takes every option from the list, each entry at most as often as the list holds it |
| `RoundEngine.DistinctCodesOnce` | index.js:55-60 | a list with distinct codes holds each country at most once |
| `RoundEngine.DistinctCodesSub` | index.js:55-60 | entries taken from a list with distinct codes, none more often than the list holds it, have distinct codes |
| `RoundEngine.NewRoundDistinctCodes` | index.js:55-68 | from a list whose codes are distinct, no two buttons of a new round carry the same code |
| `RoundEngine.OptionsOfRound` | index.js:68 | shuffling the target with distractors of other codes gives options in which the target is the one holder of its code, and every other option is a distractor |
| `RoundEngine.NewRoundOneAnswer` | index.js:58-68 | exactly one button of a new round carries the target's code |
| `RoundEngine.Start` | index.js:35-38 | the game starts at score 0, guessing, in a well-formed state, with the list `safeGetCountries` returns and the round `newRound` draws from it |
| `RoundEngine.OnGuess` | index.js:80-98 | a click on an answered round, without a round, or beyond the options is ignored and changes nothing; otherwise the guess is correct exactly when the clicked option's code is the target's, and wrong with the target's name otherwise. A correct guess adds exactly one point, any other outcome leaves the score, and a counted guess answers the round |
| `RoundEngine.GuessCorrectIff` | index.js:84-97 | in a well-formed round, a guess is correct iff the clicked option is the target; otherwise the message names the target |
| `RoundEngine.OnePointPerRound` | index.js:82 | after a guess every button is disabled: a second click changes nothing, so a round scores at most one point |
| `RoundEngine.OnNext` | index.js:101 | Next is inert until the round is answered; then it keeps the list and the score and replaces the round by the one `newRound` draws |
| `RoundEngine.StepsKeepInvariant` | index.js:50-101 | guesses and Next clicks keep the state well-formed: a non-empty list and a round whose target is the unique holder of its code |

## Left out

- Network and parsing: `fetch`, `res.ok`, `res.json()`, `res.text()`,
  `DOMParser` and `querySelector`. Each tier receives their outcome as a
  record list or `None`.
- Exceptions: every `throw` a tier's `catch` absorbs becomes `None`. This
  includes reading a field of a `null` REST element, modelled as
  `NullItem`.
- REST field types: a JSON value that is not an array, a `name.common` or
  `cca2` that is not a string, and other truthy non-string values are not
  modelled. The fields are optional strings.
- `Math.random`: replaced by index parameters in the range
  `Math.floor(Math.random() * n)` produces.
- DOM rendering: buttons, class names, `textContent`, `alt` text, and the
  image `error` handler with its SVG placeholder.
- `console.warn`, the async/await scheduling, and the `window` global. The
  latter is reduced to the `providerLoaded` flag.
- `Text.ToUpper`: covers ASCII letters only. JavaScript's `toUpperCase`
  also maps other scripts, and some mappings change the length (`ß` to
  `SS`), so a non-ASCII `cca2` of length 2 could come out longer.
- `CountrySources.RestEntry`: the `cca2` length test counts characters as
  code points. JavaScript's `code.length === 2` counts UTF-16 units, so the
  two differ for characters outside the Basic Multilingual Plane.
- Regular-expression engine: only the one pattern
  `/flagsapi\.com\/([A-Z]{2})\/?/i` is modelled: its leftmost match, with
  ASCII case folding.
- Browser URL resolution: `img.src` is the string as given, not resolved
  against the page's base URL.
