/** The game loop of index.js without its DOM: where the country list comes
    from, how a round's target and options are drawn, the flag URL shown
    for the target, and how a guess changes the score. A round's buttons
    become the `options` sequence; a click on one becomes its index. */
module RoundEngine {
  import opened Wrappers
  import opened Text
  import opened Countries
  import opened Shuffling
  import CountrySources

  /* ---------------- flagUrl (index.js:19) ---------------- */

  const FlagUrlPrefix: string := "https://flagsapi.com/"
  const FlagUrlSuffix: string := "/flat/64.png"

  /** The image URL shown for a code: the code trimmed and upper-cased
      between the fixed prefix and the fixed size suffix. */
  function FlagUrl(code: string): (r: string)
    ensures |r| == |FlagUrlPrefix| + |Trim(code)| + |FlagUrlSuffix|
    ensures r[..|FlagUrlPrefix|] == FlagUrlPrefix
    ensures r[|r| - |FlagUrlSuffix|..] == FlagUrlSuffix
  {
    FlagUrlPrefix + ToUpper(Trim(code)) + FlagUrlSuffix
  }

  /** The segment of the URL between prefix and suffix is the code, trimmed
      and upper-cased, so blanks around the code and its case do not
      change the URL. */
  lemma FlagUrlCodeSegment(code: string)
    ensures var u := FlagUrl(code);
      var seg := u[|FlagUrlPrefix|..|u| - |FlagUrlSuffix|];
      seg == ToUpper(Trim(code)) && IsTrimmed(seg) && IsUpperCase(seg)
  {
    var u := FlagUrl(code);
    assert u[|FlagUrlPrefix|..|u| - |FlagUrlSuffix|] == ToUpper(Trim(code));
    ToUpperKeepsTrimmed(Trim(code));
  }

  /** The URL the game builds for a two-letter code is one the scraper's
      `flagsapi.com/XX` pattern reads the same code back from. */
  lemma FlagUrlRoundTrip(code: string)
    requires |Trim(code)| == 2
    requires IsAsciiLetter(Trim(code)[0]) && IsAsciiLetter(Trim(code)[1])
    ensures CountrySources.FlagsApiCode(FlagUrl(code)) == Some(ToUpper(Trim(code)))
  {
    var u := FlagUrl(code);
    var c := ToUpper(Trim(code));
    var h := CountrySources.FlagsApiHost;
    assert u == "https://" + h + c + FlagUrlSuffix;
    assert u[8..8 + |h|] == h;
    assert u[8 + |h|..8 + |h| + 2] == c;
    assert CountrySources.FlagsApiMatchAt(u, 8);
    forall q | 0 <= q < 8
      ensures !CountrySources.FlagsApiMatchAt(u, q)
    {
      assert UpperChar(u[q]) != UpperChar(h[0]);
    }
    CountrySources.FlagsApiCodeLeftmost(u, 8);
  }

  /* ---------------- safeGetCountries (index.js:22-33) ---------------- */

  /** The list used when countries.js did not load. */
  const BuiltinCountries: seq<Country> := [
    Country("United States", "US"),
    Country("Canada", "CA"),
    Country("Germany", "DE"),
    Country("France", "FR"),
    Country("Japan", "JP")
  ]

  /** The built-in list: five named countries with distinct alpha-2 codes. */
  lemma BuiltinCountriesWellFormed()
    ensures |BuiltinCountries| == 5
    ensures forall i :: 0 <= i < |BuiltinCountries| ==>
      BuiltinCountries[i].name != [] && IsAlpha2(BuiltinCountries[i].code)
    ensures DistinctCodes(BuiltinCountries)
  {
  }

  /** `safeGetCountries`: `getCountries` when countries.js defined it
      (`providerLoaded`), with that function's inputs; otherwise the
      built-in list. */
  function SafeGetCountries(
    providerLoaded: bool,
    rest: Option<seq<CountrySources.RestItem>>,
    document: Option<seq<CountrySources.HtmlBlock>>): (r: seq<Country>)
    ensures r != []
    ensures !providerLoaded ==> r == BuiltinCountries
    ensures providerLoaded ==> r == CountrySources.GetCountries(rest, document)
  {
    if providerLoaded then CountrySources.GetCountries(rest, document) else BuiltinCountries
  }

  /* ---------------- newRound (index.js:50-78) ---------------- */

  /** The filter's test as a `map` callback: the country itself when its
      code differs from `code`. */
  function OtherThan(code: string): (f: Country -> Option<Country>)
    ensures forall c :: f(c) == if c.code != code then Some(c) else None
  {
    (c: Country) => if c.code != code then Some(c) else None
  }

  /** `countries.filter(c => c.code !== code)`: the countries that can serve
      as distractors for a target with `code`. */
  function Others(countries: seq<Country>, code: string): (r: seq<Country>)
    ensures |r| <= |countries|
    ensures forall k :: 0 <= k < |r| ==> r[k] in countries && r[k].code != code
    ensures forall i :: 0 <= i < |countries| && countries[i].code != code ==> countries[i] in r
  {
    var f := OtherThan(code);
    var r := FilterMap(f, countries);
    assert forall k :: 0 <= k < |r| ==> r[k] in countries && r[k].code != code by {
      forall k | 0 <= k < |r| ensures r[k] in countries && r[k].code != code {
        var i :| 0 <= i < |countries| && f(countries[i]) == Some(r[k]);
      }
    }
    r
  }

  /** The pool keeps list order and multiplicity: wherever a country
      stands, it contributes itself when its code differs from `code` and
      nothing otherwise. */
  lemma OthersInPlace(before: seq<Country>, c: Country, after: seq<Country>, code: string)
    ensures Others(before + [c] + after, code)
         == Others(before, code) + (if c.code != code then [c] else []) + Others(after, code)
  {
    FilterMapInPlace(OtherThan(code), before, c, after);
  }

  /** `others.slice(0, 3)`: at most three. */
  function Distractors(others: seq<Country>): (r: seq<Country>)
    ensures |r| == if |others| < 3 then |others| else 3
    ensures forall k :: 0 <= k < |r| ==> r[k] == others[k]
  {
    if |others| < 3 then others else others[..3]
  }

  /** The pool takes each entry of the list at most as often as the list
      holds it. */
  lemma {:induction false} OthersSubMultiset(countries: seq<Country>, code: string)
    ensures multiset(Others(countries, code)) <= multiset(countries)
    decreases |countries|
  {
    if countries != [] {
      var rest := countries[1..];
      assert countries == [] + [countries[0]] + rest;
      OthersInPlace([], countries[0], rest, code);
      OthersSubMultiset(rest, code);
    }
  }

  /** A prefix holds each value at most as often as the whole sequence. */
  lemma PrefixSubMultiset<T>(s: seq<T>, n: nat)
    requires n <= |s|
    ensures multiset(s[..n]) <= multiset(s)
  {
    assert s == s[..n] + s[n..];
  }

  /** The target together with the pool is still drawn from the list: the
      target is not in the pool, since its code is the excluded one. */
  lemma TargetAndOthersSubMultiset(countries: seq<Country>, target: Country)
    requires target in countries
    ensures multiset{target} + multiset(Others(countries, target.code)) <= multiset(countries)
  {
    var others := Others(countries, target.code);
    OthersSubMultiset(countries, target.code);
    assert target !in others;
    assert multiset(others)[target] == 0;
  }

  /** The target with a prefix of a reordered pool is drawn from the list. */
  lemma TargetAndPrefixSubMultiset(countries: seq<Country>, target: Country, shuffled: seq<Country>, n: nat)
    requires target in countries
    requires multiset(shuffled) == multiset(Others(countries, target.code))
    requires n <= |shuffled|
    ensures multiset([target] + shuffled[..n]) <= multiset(countries)
  {
    PrefixSubMultiset(shuffled, n);
    TargetAndOthersSubMultiset(countries, target);
    assert multiset([target] + shuffled[..n]) == multiset{target} + multiset(shuffled[..n]);
  }

  /** Shuffling entries drawn from the list keeps them drawn from it. */
  lemma ShuffleDrawnFrom(before: seq<Country>, js: seq<nat>, countries: seq<Country>)
    requires ValidSwaps(js, |before|)
    requires multiset(before) <= multiset(countries)
    ensures var after := ShuffleSeq(before, js);
      && multiset(after) <= multiset(countries)
      && forall i :: 0 <= i < |after| ==> after[i] in countries
  {
    var after := ShuffleSeq(before, js);
    forall i | 0 <= i < |after| ensures after[i] in countries {
      assert after[i] in multiset(countries);
    }
  }

  /** A list with distinct codes holds each country at most once. */
  lemma {:induction false} DistinctCodesOnce(cs: seq<Country>, x: Country)
    requires DistinctCodes(cs)
    ensures multiset(cs)[x] <= 1
    decreases |cs|
  {
    if cs != [] {
      var rest := cs[1..];
      assert cs == [cs[0]] + rest;
      assert DistinctCodes(rest) by {
        forall i, j | 0 <= i < j < |rest| ensures rest[i].code != rest[j].code {
          assert rest[i] == cs[i + 1] && rest[j] == cs[j + 1];
        }
      }
      DistinctCodesOnce(rest, x);
      if x == cs[0] {
        assert forall k :: 0 <= k < |rest| ==> rest[k].code != x.code by {
          forall k | 0 <= k < |rest| ensures rest[k].code != x.code {
            assert rest[k] == cs[k + 1];
          }
        }
        assert x !in rest;
      }
    }
  }

  /** Two entries taken from a list with distinct codes that share a code
      are the same entry. */
  lemma SameCodeSameEntry(a: seq<Country>, b: seq<Country>, i: nat, j: nat)
    requires multiset(a) <= multiset(b)
    requires DistinctCodes(b)
    requires i < |a| && j < |a| && a[i].code == a[j].code
    ensures a[i] == a[j]
  {
    assert a[i] in multiset(b) && a[j] in multiset(b);
  }

  /** Taking entries from a list with distinct codes, each at most as often
      as the list holds it, keeps the codes distinct. */
  lemma DistinctCodesSub(a: seq<Country>, b: seq<Country>)
    requires multiset(a) <= multiset(b)
    requires DistinctCodes(b)
    ensures DistinctCodes(a)
  {
    forall i, j | 0 <= i < j < |a| ensures a[i].code != a[j].code {
      if a[i].code == a[j].code {
        SameCodeSameEntry(a, b, i, j);
        TwoPositions(a, i, j);
        DistinctCodesOnce(b, a[i]);
        assert false;
      }
    }
  }

  /** One round: the flag's country and the buttons' countries, in order. */
  datatype Round = Round(target: Country, options: seq<Country>)

  /** What a well-formed round promises: the target is an option, and it is
      the only option carrying the target's code. */
  predicate ValidRound(r: Round) {
    && r.target in r.options
    && (forall i :: 0 <= i < |r.options| && r.options[i].code == r.target.code ==> r.options[i] == r.target)
  }

  /** `newRound` with its three uses of `Math.random`: the target's index
      `k`, the draws of the shuffle of the distractor pool, and the draws of
      the shuffle of the options. On an empty list `pickRandom` yields
      `undefined` and reading its `code` throws, so there is no round. */
  function NewRound(countries: seq<Country>, k: nat, othersJs: seq<nat>, optionJs: seq<nat>): (r: Option<Round>)
    requires countries == [] || k < |countries|
    requires ValidSwaps(othersJs, |countries|)
    requires ValidSwaps(optionJs, 4)
    ensures r.None? <==> countries == []
    ensures r.Some? ==> r.value.target == countries[k]
    ensures r.Some? ==> var pool := |Others(countries, countries[k].code)|;
      |r.value.options| == 1 + (if pool < 3 then pool else 3) && |r.value.options| <= 4
    ensures r.Some? ==> forall i :: 0 <= i < |r.value.options| ==> r.value.options[i] in countries
    ensures r.Some? ==> multiset(r.value.options)[r.value.target] == 1
    ensures r.Some? ==> ValidRound(r.value)
    ensures r.Some? ==> multiset(r.value.options) <= multiset(countries)
  {
    match PickRandom(countries, k)
    case None => None
    case Some(target) =>
      RoundForShape(countries, target, othersJs, optionJs);
      RoundForFromList(countries, target, othersJs, optionJs);
      Some(RoundFor(countries, target, othersJs, optionJs))
  }

  /** The round `newRound` builds around `target`: the first three of the
      shuffled pool, shuffled together with the target. */
  function RoundFor(countries: seq<Country>, target: Country, othersJs: seq<nat>, optionJs: seq<nat>): (r: Round)
    requires ValidSwaps(othersJs, |countries|)
    requires ValidSwaps(optionJs, 4)
    ensures r.target == target
    ensures var pool := |Others(countries, target.code)|;
      |r.options| == 1 + (if pool < 3 then pool else 3)
  {
    var distractors := Distractors(ShuffleSeq(Others(countries, target.code), othersJs));
    Round(target, ShuffleSeq([target] + distractors, optionJs))
  }

  /** The shape of the round built around `target`: its options are the
      target and 1 + min(3, pool size) - 1 distractors, and the target is
      the one option carrying its code. */
  lemma RoundForShape(countries: seq<Country>, target: Country, othersJs: seq<nat>, optionJs: seq<nat>)
    requires ValidSwaps(othersJs, |countries|)
    requires ValidSwaps(optionJs, 4)
    ensures var r := RoundFor(countries, target, othersJs, optionJs);
      && r.target == target
      && (var pool := |Others(countries, target.code)|;
          |r.options| == 1 + (if pool < 3 then pool else 3) && |r.options| <= 4)
      && multiset(r.options)[target] == 1
      && ValidRound(r)
  {
    var distractors := Distractors(ShuffleSeq(Others(countries, target.code), othersJs));
    DistractorsFromList(countries, target.code, othersJs);
    OptionsOfRound(target, distractors, optionJs);
  }

  /** The round built around a listed `target` draws its options from the
      list, each at most as often as the list holds it. */
  lemma RoundForFromList(countries: seq<Country>, target: Country, othersJs: seq<nat>, optionJs: seq<nat>)
    requires target in countries
    requires ValidSwaps(othersJs, |countries|)
    requires ValidSwaps(optionJs, 4)
    ensures var r := RoundFor(countries, target, othersJs, optionJs);
      && (forall i :: 0 <= i < |r.options| ==> r.options[i] in countries)
      && multiset(r.options) <= multiset(countries)
  {
    var shuffled := ShuffleSeq(Others(countries, target.code), othersJs);
    var distractors := Distractors(shuffled);
    assert distractors == shuffled[..|distractors|];
    TargetAndPrefixSubMultiset(countries, target, shuffled, |distractors|);
    ShuffleDrawnFrom([target] + distractors, optionJs, countries);
  }

  /** The distractors come from the list and carry other codes than the
      target's. */
  lemma DistractorsFromList(countries: seq<Country>, code: string, othersJs: seq<nat>)
    requires ValidSwaps(othersJs, |countries|)
    ensures var d := Distractors(ShuffleSeq(Others(countries, code), othersJs));
      forall k :: 0 <= k < |d| ==> d[k] in countries && d[k].code != code
  {
    var others := Others(countries, code);
    var shuffled := ShuffleSeq(others, othersJs);
    var d := Distractors(shuffled);
    forall k | 0 <= k < |d| ensures d[k] in countries && d[k].code != code {
      assert d[k] == shuffled[k];
      assert shuffled[k] in others;
    }
  }

  /** The options are a shuffle of the target and distractors that all
      carry other codes: the target occurs once, is the one option with
      its code, and every other option is a distractor. */
  lemma OptionsOfRound(target: Country, distractors: seq<Country>, optionJs: seq<nat>)
    requires forall k :: 0 <= k < |distractors| ==> distractors[k].code != target.code
    requires ValidSwaps(optionJs, 1 + |distractors|)
    ensures var options := ShuffleSeq([target] + distractors, optionJs);
      && multiset(options)[target] == 1
      && ValidRound(Round(target, options))
      && (forall i :: 0 <= i < |options| ==> options[i] == target || options[i] in distractors)
  {
    var before := [target] + distractors;
    assert target !in distractors;
    assert multiset(before)[target] == 1;
    var options := ShuffleSeq(before, optionJs);
    assert forall i :: 0 <= i < |options| ==> options[i] in before;
  }

  /** From a list whose codes are distinct, a new round shows distinct
      codes: no two buttons carry the same code. */
  lemma NewRoundDistinctCodes(countries: seq<Country>, k: nat, othersJs: seq<nat>, optionJs: seq<nat>)
    requires countries != [] && k < |countries|
    requires ValidSwaps(othersJs, |countries|)
    requires ValidSwaps(optionJs, 4)
    requires DistinctCodes(countries)
    ensures DistinctCodes(NewRound(countries, k, othersJs, optionJs).value.options)
  {
    DistinctCodesSub(NewRound(countries, k, othersJs, optionJs).value.options, countries);
  }

  /** Exactly one button of a new round carries the target's code. */
  lemma NewRoundOneAnswer(countries: seq<Country>, k: nat, othersJs: seq<nat>, optionJs: seq<nat>)
    requires countries != [] && k < |countries|
    requires ValidSwaps(othersJs, |countries|)
    requires ValidSwaps(optionJs, 4)
    ensures var r := NewRound(countries, k, othersJs, optionJs).value;
      forall i, j :: (0 <= i < |r.options| && 0 <= j < |r.options|
        && r.options[i].code == r.target.code && r.options[j].code == r.target.code) ==> i == j
  {
    var r := NewRound(countries, k, othersJs, optionJs).value;
    forall i, j | 0 <= i < |r.options| && 0 <= j < |r.options|
        && r.options[i].code == r.target.code && r.options[j].code == r.target.code
      ensures i == j
    {
      if i < j {
        TwoPositions(r.options, i, j);
      } else if j < i {
        TwoPositions(r.options, j, i);
      }
    }
  }

  /* ---------------- the game: start, onGuess, Next ---------------- */

  /** Whether the current round's buttons are still enabled. */
  datatype Phase = Guessing | Answered

  /** The page's state: the list, the score, the current round and whether
      it has been answered. */
  datatype Game = Game(countries: seq<Country>, score: nat, round: Option<Round>, phase: Phase)

  /** The message `onGuess` shows, or `Ignored` when no button could be
      clicked (buttons disabled, or no such button). */
  datatype Verdict = Correct | Wrong(answerName: string) | Ignored

  /** What every reachable state satisfies: a non-empty list, a well-formed
      round whose options all come from the list. */
  predicate GameInvariant(g: Game) {
    && g.countries != []
    && g.round.Some?
    && ValidRound(g.round.value)
    && (forall i :: 0 <= i < |g.round.value.options| ==> g.round.value.options[i] in g.countries)
  }

  /** `start`: load the list, score 0, first round. */
  function Start(
    providerLoaded: bool,
    rest: Option<seq<CountrySources.RestItem>>,
    document: Option<seq<CountrySources.HtmlBlock>>,
    k: nat, othersJs: seq<nat>, optionJs: seq<nat>): (g: Game)
    requires k < |SafeGetCountries(providerLoaded, rest, document)|
    requires ValidSwaps(othersJs, |SafeGetCountries(providerLoaded, rest, document)|)
    requires ValidSwaps(optionJs, 4)
    ensures g.score == 0 && g.phase == Guessing
    ensures GameInvariant(g)
    ensures g.countries == SafeGetCountries(providerLoaded, rest, document)
    ensures g.round == NewRound(g.countries, k, othersJs, optionJs)
  {
    var countries := SafeGetCountries(providerLoaded, rest, document);
    Game(countries, 0, NewRound(countries, k, othersJs, optionJs), Guessing)
  }

  /** `onGuess` for a click on the button at `choice`: the code it carries
      is compared with the target's; a match scores one point. Either way
      all buttons are disabled, so later clicks are ignored. */
  function OnGuess(g: Game, choice: nat): (r: (Game, Verdict))
    ensures r.1 == Ignored ==> r.0 == g
    ensures r.1 == Correct ==> r.0.score == g.score + 1
    ensures r.1 != Correct ==> r.0.score == g.score
    ensures r.1 != Ignored ==> r.0 == g.(score := r.0.score, phase := Answered)
    ensures g.phase == Answered || g.round.None? ==> r.1 == Ignored
    ensures g.round.Some? && choice >= |g.round.value.options| ==> r.1 == Ignored
    ensures g.phase == Guessing && g.round.Some? && choice < |g.round.value.options| ==>
              r.1 != Ignored
              && (r.1 == Correct <==> g.round.value.options[choice].code == g.round.value.target.code)
              && (r.1 != Correct ==> r.1 == Wrong(g.round.value.target.name))
  {
    if g.phase == Answered || g.round.None? || choice >= |g.round.value.options| then (g, Ignored)
    else
      var round := g.round.value;
      if round.options[choice].code == round.target.code then
        (g.(score := g.score + 1, phase := Answered), Correct)
      else
        (g.(phase := Answered), Wrong(round.target.name))
  }

  /** In a well-formed round, a guess scores exactly when the clicked
      button is the target's. */
  lemma GuessCorrectIff(g: Game, choice: nat)
    requires GameInvariant(g) && g.phase == Guessing
    requires choice < |g.round.value.options|
    ensures OnGuess(g, choice).1 == Correct <==> g.round.value.options[choice] == g.round.value.target
    ensures OnGuess(g, choice).1 != Correct ==> OnGuess(g, choice).1 == Wrong(g.round.value.target.name)
  {
  }

  /** A round scores at most once: after a guess, a second guess changes
      nothing. */
  lemma OnePointPerRound(g: Game, first: nat, second: nat)
    ensures var g1 := OnGuess(g, first).0;
      OnGuess(g1, second).0.score <= g.score + 1
    ensures OnGuess(g, first).1 != Ignored ==> OnGuess(OnGuess(g, first).0, second) == (OnGuess(g, first).0, Ignored)
  {
  }

  /** The Next button: enabled only once the round is answered; it draws a
      new round from the same list and keeps the score. */
  function OnNext(g: Game, k: nat, othersJs: seq<nat>, optionJs: seq<nat>): (r: Game)
    requires g.countries == [] || k < |g.countries|
    requires ValidSwaps(othersJs, |g.countries|)
    requires ValidSwaps(optionJs, 4)
    ensures r.score == g.score && r.countries == g.countries
    ensures g.phase == Guessing ==> r == g
    ensures g.phase == Answered && g.countries != [] ==>
      r.phase == Guessing && r.round.Some? && r.round.value.target == g.countries[k]
    ensures g.phase == Answered ==> r.round == NewRound(g.countries, k, othersJs, optionJs)
  {
    if g.phase == Guessing then g
    else Game(g.countries, g.score, NewRound(g.countries, k, othersJs, optionJs), Guessing)
  }

  /** Guesses and Next clicks keep every state well-formed. */
  lemma StepsKeepInvariant(g: Game, choice: nat, k: nat, othersJs: seq<nat>, optionJs: seq<nat>)
    requires GameInvariant(g)
    requires k < |g.countries|
    requires ValidSwaps(othersJs, |g.countries|)
    requires ValidSwaps(optionJs, 4)
    ensures GameInvariant(OnGuess(g, choice).0)
    ensures GameInvariant(OnNext(g, k, othersJs, optionJs))
  {
  }
}
