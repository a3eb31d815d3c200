/**
 * `signals.py`: the NVIDIA price-target signal derived from the compressed markets, and the Fed
 * rate-cut signal derived from the outcomes of the group event. Both build a list in a loop and
 * then apply closed-form arithmetic; `round` and the square root of `statistics.pstdev` are
 * parameters.
 */
module Signals {
  import opened Wrappers
  import opened Text
  import opened Json
  import opened Dicts
  import opened Numerics
  import opened Engine

  // ------------------------------------------------------------------ compute_company_signal

  /** The result dict of `compute_company_signal`; None stands for a null field. */
  datatype CompanySignal = CompanySignal(
    confidence: Option<real>,
    avgProbability: Option<real>,
    dispersion: Option<real>,
    numTargets: nat)

  /** Line 14, after `company.upper()`: the only companies with price-target markets. */
  predicate IsNvidia(company: string) {
    Upper(company) == "NVDA" || Upper(company) == "NVIDIA"
  }

  /**
   * Line 31 on a lower-cased question: `int(question.split("$")[1].split()[0])`, None where it
   * raises (no `$`, nothing after it but whitespace, or a token that is not an integer), which the
   * `except` of line 32 turns into a skip.
   */
  function TargetPrice(question: string): Option<int> {
    var parts := SplitOn(question, '$');
    if |parts| < 2 then None
    else
      var tokens := Words(parts[1]);
      if tokens == [] then None else ParseInt(tokens[0])
  }

  /** `outcomes.get("Yes", 0)` */
  function YesProbability(outcomes: Dict<string, real>): real {
    Get(outcomes, "Yes").GetOr(0.0)
  }

  /** Lines 29-36: the question names NVIDIA, asks about reaching a price, and the price is at least 200. */
  predicate Contributes(m: CompressedMarket) {
    && m.question.Str?
    && var q := Lower(m.question.s);
    && Contains(q, "nvidia") && Contains(q, "reach $")
    && TargetPrice(q).Some? && TargetPrice(q).value >= 200
  }

  /**
   * Lines 26-37 for one market: the probability it appends, None when it is skipped, or the
   * AttributeError `.lower()` raises on a question that is not a string.
   */
  function Contribution(m: CompressedMarket): Result<Option<real>, Exception> {
    if !m.question.Str? then Err(Exception(AttributeError, "'" + TypeName(m.question) + "' object has no attribute 'lower'"))
    else
      var q := Lower(m.question.s);
      if !(Contains(q, "nvidia") && Contains(q, "reach $")) then Ok(None)
      else
        match TargetPrice(q)
        case None => Ok(None)
        case Some(price) => if price >= 200 then Ok(Some(YesProbability(m.outcomes))) else Ok(None)
  }

  /** The list `probs` after the loop of lines 24-37 over `markets`, or the exception that ended it. */
  function TargetProbs(markets: seq<CompressedMarket>): Result<seq<real>, Exception> {
    if markets == [] then Ok([])
    else
      match TargetProbs(markets[..|markets| - 1])
      case Err(e) => Err(e)
      case Ok(probs) =>
        match Contribution(markets[|markets| - 1])
        case Err(e) => Err(e)
        case Ok(None) => Ok(probs)
        case Ok(Some(p)) => Ok(probs + [p])
  }

  /** The "Yes" probabilities of some markets, in order. */
  function YesProbabilities(markets: seq<CompressedMarket>): (r: seq<real>)
    ensures |r| == |markets|
    ensures forall i :: 0 <= i < |r| ==> r[i] == YesProbability(markets[i].outcomes)
  {
    seq(|markets|, i requires 0 <= i < |markets| => YesProbability(markets[i].outcomes))
  }

  /** Line 51 before rounding: the average discounted by the dispersion. */
  function Confidence(avg: real, std: real): real {
    avg * (1.0 - std)
  }

  /** `compute_company_signal(company, market_data)` */
  function CompanySignalOf(company: string, markets: seq<CompressedMarket>, round: Rounder, sqrt: SquareRoot): Result<CompanySignal, Exception> {
    if !IsNvidia(company) then Ok(CompanySignal(None, None, None, 0))
    else
      match TargetProbs(markets)
      case Err(e) => Err(e)
      case Ok(probs) =>
        if |probs| < 2 then Ok(CompanySignal(None, None, None, |probs|))
        else
          var avg := Mean(probs);
          var std := sqrt(PVariance(probs));
          Ok(CompanySignal(Some(round(Confidence(avg, std), 3)), Some(round(avg, 3)), Some(round(std, 3)), |probs|))
  }

  /** `compute_company_signal(company, market_data)`, collecting the probabilities in a loop. */
  method ComputeCompanySignal(company: string, markets: seq<CompressedMarket>, round: Rounder, sqrt: SquareRoot)
    returns (r: Result<CompanySignal, Exception>)
    ensures r == CompanySignalOf(company, markets, round, sqrt)
  {
    var upper := Upper(company);
    if upper != "NVDA" && upper != "NVIDIA" {
      return Ok(CompanySignal(None, None, None, 0));
    }
    var probs: seq<real> := [];
    for i := 0 to |markets|
      invariant TargetProbs(markets[..i]) == Ok(probs)
    {
      var m := markets[i];
      assert markets[..i + 1][..i] == markets[..i];
      if !m.question.Str? {
        TargetProbsErrorPersists(markets, i + 1);
        return Err(Exception(AttributeError, "'" + TypeName(m.question) + "' object has no attribute 'lower'"));
      }
      var question := Lower(m.question.s);
      if Contains(question, "nvidia") && Contains(question, "reach $") {
        var price := TargetPrice(question);
        if price.None? {
          continue;
        }
        if price.value >= 200 {
          probs := probs + [YesProbability(m.outcomes)];
        }
      }
    }
    assert markets[..|markets|] == markets;
    assert TargetProbs(markets) == Ok(probs);
    if |probs| < 2 {
      return Ok(CompanySignal(None, None, None, |probs|));
    }
    var avg := Mean(probs);
    var std := sqrt(PVariance(probs));
    return Ok(CompanySignal(Some(round(Confidence(avg, std), 3)), Some(round(avg, 3)), Some(round(std, 3)), |probs|));
  }

  /** Once the loop has raised, the later markets do not matter. */
  lemma {:induction false} TargetProbsErrorPersists(markets: seq<CompressedMarket>, n: nat)
    requires n <= |markets| && TargetProbs(markets[..n]).Err?
    ensures TargetProbs(markets) == TargetProbs(markets[..n])
  {
    if n < |markets| {
      var init := markets[..|markets| - 1];
      assert init[..n] == markets[..n];
      TargetProbsErrorPersists(init, n);
    } else {
      assert markets[..n] == markets;
    }
  }

  /** A market with a string question appends its "Yes" probability exactly when it contributes. */
  lemma ContributionOfString(m: CompressedMarket)
    requires m.question.Str?
    ensures Contribution(m) == if Contributes(m) then Ok(Some(YesProbability(m.outcomes))) else Ok(None)
  {
  }

  /**
   * With string questions, the probabilities collected are the "Yes" probabilities of exactly the
   * contributing markets, in order; so `num_targets` counts the contributing markets.
   */
  lemma {:induction false} TargetProbsOfContributing(markets: seq<CompressedMarket>)
    requires forall i :: 0 <= i < |markets| ==> markets[i].question.Str?
    ensures TargetProbs(markets) == Ok(YesProbabilities(Filter(markets, Contributes)))
  {
    if markets != [] {
      var init, last := markets[..|markets| - 1], markets[|markets| - 1];
      TargetProbsOfContributing(init);
      ContributionOfString(last);
      var kept := Filter(init, Contributes);
      if Contributes(last) {
        assert Filter(markets, Contributes) == kept + [last];
        YesProbabilitiesSnoc(kept, last);
      } else {
        assert Filter(markets, Contributes) == kept;
      }
    }
  }

  /** One more market adds its "Yes" probability at the end. */
  lemma YesProbabilitiesSnoc(markets: seq<CompressedMarket>, m: CompressedMarket)
    ensures YesProbabilities(markets + [m]) == YesProbabilities(markets) + [YesProbability(m.outcomes)]
  {
  }

  /** The first question that is not a string raises, whatever comes after it. */
  lemma {:induction false} TargetProbsRaises(markets: seq<CompressedMarket>, i: nat)
    requires i < |markets| && !markets[i].question.Str?
    requires forall j :: 0 <= j < i ==> markets[j].question.Str?
    ensures TargetProbs(markets) == Err(Exception(AttributeError, "'" + TypeName(markets[i].question) + "' object has no attribute 'lower'"))
  {
    if i < |markets| - 1 {
      TargetProbsRaises(markets[..|markets| - 1], i);
    } else {
      assert markets[..i] == markets[..|markets| - 1];
      assert TargetProbs(markets[..i]).Ok? by {
        TargetProbsOfContributing(markets[..i]);
      }
    }
  }

  /** The first `sep` of `before + [sep] + after` is the one after `before`. */
  lemma SplitAtFirst(before: string, sep: char, after: string)
    requires sep !in before
    ensures |SplitOn(before + [sep] + after, sep)| >= 2
    ensures SplitOn(before + [sep] + after, sep)[1] == SplitOn(after, sep)[0]
  {
    var s := before + [sep] + after;
    var i := FindFirst(s, sep);
    assert s[|before|] == sep;
    assert i.Some? && i.value == |before|;
    assert s[|before| + 1..] == after;
  }

  /** A string up to its first `sep`: the first piece of the split. */
  lemma {:induction false} FirstPieceStart(w: string, sep: char, rest: string)
    requires sep !in w
    ensures exists k :: 0 <= k <= |rest| && SplitOn(w + rest, sep)[0] == w + rest[..k] && (k < |rest| ==> rest[k] == sep)
  {
    var s := w + rest;
    match FindFirst(s, sep)
    case None =>
      assert SplitOn(s, sep)[0] == w + rest[..|rest|];
    case Some(i) =>
      assert SplitOn(s, sep)[0] == w + rest[..i - |w|];
      assert s[i] == rest[i - |w|];
  }

  /** Concatenation regrouped. */
  lemma Regroup(a: string, b: string, c: string)
    ensures a + b + c == a + (b + c)
  {
  }

  /** The first word of the text before the next `$`, when that text starts with whitespace and a word. */
  lemma FirstWordOfPiece(ws: string, w: string, rest: string)
    requires '$' !in w && IsWord(w)
    requires forall k :: 0 <= k < |ws| ==> IsSpace(ws[k])
    requires rest == [] || IsSpace(rest[0])
    ensures var tokens := Words(SplitOn(ws + w + rest, '$')[0]); tokens != [] && tokens[0] == w
  {
    assert '$' !in ws + w by {
      assert !IsSpace('$');
    }
    assert ws + w + rest == (ws + w) + rest;
    FirstPieceStart(ws + w, '$', rest);
    var k :| 0 <= k <= |rest| && SplitOn(ws + w + rest, '$')[0] == ws + w + rest[..k] && (k < |rest| ==> rest[k] == '$');
    if k > 0 {
      assert rest[..k][0] == rest[0];
    }
    Regroup(ws, w, rest[..k]);
    WordsLeadingSpace(ws, w + rest[..k]);
    WordsCons(w, rest[..k]);
  }

  /**
   * Line 31: the token read is the word after the first `$` and any whitespace, whatever follows
   * it; the question is skipped when that word is not an integer.
   */
  lemma TargetPriceAfterFirstDollar(before: string, ws: string, w: string, rest: string)
    requires '$' !in before && '$' !in w && IsWord(w)
    requires forall k :: 0 <= k < |ws| ==> IsSpace(ws[k])
    requires rest == [] || IsSpace(rest[0])
    ensures TargetPrice(before + "$" + ws + w + rest) == ParseInt(w)
  {
    assert before + "$" + ws + w + rest == before + ['$'] + (ws + w + rest);
    SplitAtFirst(before, '$', ws + w + rest);
    FirstWordOfPiece(ws, w, rest);
  }

  /** A run of digits right after the first `$` is the price. */
  lemma TargetPriceDigits(before: string, digits: string, rest: string)
    requires '$' !in before && digits != [] && AllDigits(digits)
    requires rest == [] || IsSpace(rest[0])
    ensures TargetPrice(before + "$" + digits + rest) == Some(NumeralValue(digits))
  {
    assert before + "$" + digits + rest == before + "$" + "" + digits + rest;
    TargetPriceAfterFirstDollar(before, "", digits, rest);
    DigitRunParses(digits);
  }

  /** Lines 14-20: any company other than NVDA or NVIDIA, in any case, gets null fields and no targets. */
  lemma OtherCompany(company: string, markets: seq<CompressedMarket>, round: Rounder, sqrt: SquareRoot)
    requires Upper(company) != "NVDA" && Upper(company) != "NVIDIA"
    ensures CompanySignalOf(company, markets, round, sqrt) == Ok(CompanySignal(None, None, None, 0))
  {
  }

  /**
   * Lines 39-55: for NVIDIA, `num_targets` is the number of contributing markets, and the three
   * statistics are null exactly when there are fewer than two.
   */
  lemma NullIffFewTargets(company: string, markets: seq<CompressedMarket>, round: Rounder, sqrt: SquareRoot)
    requires IsNvidia(company)
    requires forall i :: 0 <= i < |markets| ==> markets[i].question.Str?
    ensures var r := CompanySignalOf(company, markets, round, sqrt);
      && r.Ok?
      && r.value.numTargets == |Filter(markets, Contributes)|
      && (r.value.confidence.None? <==> r.value.numTargets < 2)
      && (r.value.avgProbability.None? <==> r.value.numTargets < 2)
      && (r.value.dispersion.None? <==> r.value.numTargets < 2)
  {
    TargetProbsOfContributing(markets);
  }

  /** The root of zero is zero for an exact square root. */
  lemma SqrtZero(sqrt: SquareRoot)
    requires IsSquareRoot(sqrt)
    ensures sqrt(0.0) == 0.0
  {
    SquareFacts(sqrt(0.0));
  }

  /** A root of at most 1/4 is at most 1/2. */
  lemma SqrtQuarter(sqrt: SquareRoot, v: real)
    requires IsSquareRoot(sqrt) && 0.0 <= v <= 0.25
    ensures 0.0 <= sqrt(v) <= 0.5
  {
    var s := sqrt(v);
    if s > 0.5 {
      MulMonotone(s, 0.5, s);
      MulMonotone(0.5, 0.5, s);
    }
  }

  /**
   * Lines 47-54 before rounding: when all collected probabilities are equal, the dispersion is 0
   * and the confidence equals the mean.
   */
  lemma EqualProbabilities(company: string, markets: seq<CompressedMarket>, sqrt: SquareRoot)
    requires IsNvidia(company) && IsSquareRoot(sqrt)
    requires TargetProbs(markets).Ok? && |TargetProbs(markets).value| >= 2
    requires var probs := TargetProbs(markets).value; forall i :: 0 <= i < |probs| ==> probs[i] == probs[0]
    ensures var s := CompanySignalOf(company, markets, Exact, sqrt).value;
      && s.dispersion == Some(0.0)
      && s.confidence == s.avgProbability == Some(TargetProbs(markets).value[0])
  {
    var probs := TargetProbs(markets).value;
    PVarianceZeroIffConstant(probs);
    MeanOfConstant(probs, probs[0]);
    SqrtZero(sqrt);
  }

  /** Every probability collected is the "Yes" probability of one of the markets, or 0. */
  lemma {:induction false} TargetProbsFrom(markets: seq<CompressedMarket>)
    requires TargetProbs(markets).Ok?
    ensures forall p :: p in TargetProbs(markets).value ==>
      exists i :: 0 <= i < |markets| && p == YesProbability(markets[i].outcomes)
  {
    if markets != [] {
      var init := markets[..|markets| - 1];
      TargetProbsFrom(init);
      forall p | p in TargetProbs(init).value
        ensures exists i :: 0 <= i < |markets| && p == YesProbability(markets[i].outcomes)
      {
        var i :| 0 <= i < |init| && p == YesProbability(init[i].outcomes);
        assert markets[i] == init[i];
      }
    }
  }

  /** A dict whose values are probabilities yields a probability for "Yes". */
  lemma YesProbabilityInUnit(outcomes: Dict<string, real>)
    requires forall i :: 0 <= i < |outcomes| ==> 0.0 <= outcomes[i].1 <= 1.0
    ensures 0.0 <= YesProbability(outcomes) <= 1.0
  {
  }

  /** The collected probabilities are probabilities when every outcome value is one. */
  lemma TargetProbsInUnit(markets: seq<CompressedMarket>)
    requires forall i, j :: 0 <= i < |markets| && 0 <= j < |markets[i].outcomes| ==> 0.0 <= markets[i].outcomes[j].1 <= 1.0
    requires TargetProbs(markets).Ok?
    ensures var probs := TargetProbs(markets).value; forall k :: 0 <= k < |probs| ==> 0.0 <= probs[k] <= 1.0
  {
    var probs := TargetProbs(markets).value;
    TargetProbsFrom(markets);
    forall k | 0 <= k < |probs|
      ensures 0.0 <= probs[k] <= 1.0
    {
      assert probs[k] in probs;
      var i :| 0 <= i < |markets| && probs[k] == YesProbability(markets[i].outcomes);
      YesProbabilityInUnit(markets[i].outcomes);
    }
  }

  /** The statistics of lines 47-54 on probabilities, before rounding. */
  lemma StatisticsInUnit(probs: seq<real>, sqrt: SquareRoot)
    requires IsSquareRoot(sqrt) && probs != []
    requires forall k :: 0 <= k < |probs| ==> 0.0 <= probs[k] <= 1.0
    ensures var avg, std := Mean(probs), sqrt(PVariance(probs));
      && 0.0 <= avg <= 1.0 && 0.0 <= std <= 0.5 && 0.0 <= Confidence(avg, std) <= avg
  {
    ProbabilityMoments(probs);
    var avg, std := Mean(probs), sqrt(PVariance(probs));
    SqrtQuarter(sqrt, PVariance(probs));
    MulMonotone(avg, 0.0, 1.0 - std);
    MulMonotone(avg, 1.0 - std, 1.0);
  }

  /**
   * Lines 47-54 before rounding: when every outcome value is a probability, the average is in
   * [0, 1], the dispersion in [0, 1/2], and the confidence between 0 and the average.
   */
  lemma SignalBounds(company: string, markets: seq<CompressedMarket>, sqrt: SquareRoot)
    requires IsNvidia(company) && IsSquareRoot(sqrt)
    requires forall i, j :: 0 <= i < |markets| && 0 <= j < |markets[i].outcomes| ==> 0.0 <= markets[i].outcomes[j].1 <= 1.0
    requires TargetProbs(markets).Ok? && |TargetProbs(markets).value| >= 2
    ensures var s := CompanySignalOf(company, markets, Exact, sqrt).value;
      && 0.0 <= s.avgProbability.value <= 1.0
      && 0.0 <= s.dispersion.value <= 0.5
      && 0.0 <= s.confidence.value <= s.avgProbability.value
  {
    var probs := TargetProbs(markets).value;
    TargetProbsInUnit(markets);
    StatisticsInUnit(probs, sqrt);
    assert CompanySignalOf(company, markets, Exact, sqrt).value
        == CompanySignal(Some(Confidence(Mean(probs), sqrt(PVariance(probs)))), Some(Mean(probs)), Some(sqrt(PVariance(probs))), |probs|);
  }

  // ------------------------------------------------------------------ compute_fed_rate_cut_signal

  datatype CutBias = Aggressive | Moderate | Restrictive | Unknown

  /** The result dict of `compute_fed_rate_cut_signal`; None stands for a null `expected_cuts`. */
  datatype FedSignal = FedSignal(expectedCuts: Option<real>, cutBias: CutBias)

  /** A parsed outcome: the number of cuts and its probability. */
  type Cut = (nat, real)

  /** `key in v` */
  function HasKey(v: Json, key: string): Result<bool, Exception> {
    match v
    case Obj(m) => Ok(key in m)
    case Arr(a) => Ok(Str(key) in a)
    case Str(s) => Ok(Contains(s, key))
    case _ => Err(Exception(TypeError, "argument of type '" + TypeName(v) + "' is not iterable"))
  }

  /**
   * Line 71: the items of `event.get("markets", [])`. A non-empty dict yields its keys, which are
   * strings, so the first `market.get` raises whatever the order of the keys.
   */
  function MarketList(event: Json): Result<seq<Json>, Exception> {
    if !event.Obj? then Err(Exception(AttributeError, "'" + TypeName(event) + "' object has no attribute 'get'"))
    else
      var markets := if "markets" in event.fields then event.fields["markets"] else Arr([]);
      match markets
      case Obj(m) => if m == map[] then Ok([]) else Err(Exception(AttributeError, "'str' object has no attribute 'get'"))
      case _ => Iterate(markets)
  }

  /**
   * Lines 95-104 for one outcome: a label containing "no" counts 0 cuts, otherwise its first run of
   * digits; a label with neither is skipped (None). `float(prob)` is only evaluated for a kept label.
   */
  function LabelCut(name: Json, prob: Json, parseFloat: FloatParser): Result<Option<Cut>, Exception> {
    if !name.Str? then Err(Exception(AttributeError, "'" + TypeName(name) + "' object has no attribute 'lower'"))
    else
      var l := Lower(name.s);
      var n: Option<nat> :=
        if Contains(l, "no") then Some(0)
        else match FirstDigitRun(l) case None => None case Some(d) => Some(NumeralValue(d));
      match n
      case None => Ok(None)
      case Some(k) =>
        match ToFloat(prob, parseFloat)
        case Err(e) => Err(e)
        case Ok(p) => Ok(Some((k, p)))
  }

  /** The loop of lines 94-104 over the zipped labels and prices. */
  function PairCuts(pairs: seq<(Json, Json)>, parseFloat: FloatParser): Result<seq<Cut>, Exception> {
    if pairs == [] then Ok([])
    else
      match PairCuts(pairs[..|pairs| - 1], parseFloat)
      case Err(e) => Err(e)
      case Ok(cuts) =>
        match LabelCut(pairs[|pairs| - 1].0, pairs[|pairs| - 1].1, parseFloat)
        case Err(e) => Err(e)
        case Ok(None) => Ok(cuts)
        case Ok(Some(c)) => Ok(cuts + [c])
  }

  /** Lines 72-104 for one market: the cuts it appends (none when it is skipped), or the exception. */
  function MarketCuts(market: Json, decode: Decoder, parseFloat: FloatParser): Result<seq<Cut>, Exception> {
    if !market.Obj? then Err(Exception(AttributeError, "'" + TypeName(market) + "' object has no attribute 'get'"))
    else
      var labels := Field(market.fields, "outcomes");
      var prices := Field(market.fields, "outcomePrices");
      if !Truthy(labels) || !Truthy(prices) then Ok([])
      else
        match Decoded(labels, decode)
        case None => Ok([])
        case Some(ls) =>
          match Decoded(prices, decode)
          case None => Ok([])
          case Some(ps) =>
            match Len(ls)
            case Err(e) => Err(e)
            case Ok(nl) =>
              match Len(ps)
              case Err(e) => Err(e)
              case Ok(np) =>
                if nl != np then Ok([])
                else
                  match Iterate(ls)
                  case Err(e) => Err(e)
                  case Ok(labelItems) =>
                    match Iterate(ps)
                    case Err(e) => Err(e)
                    case Ok(priceItems) => PairCuts(Zip(labelItems, priceItems), parseFloat)
  }

  /** The list `cuts` after the loop of lines 71-104 over `markets`, or the exception that ended it. */
  function EventCuts(markets: seq<Json>, decode: Decoder, parseFloat: FloatParser): Result<seq<Cut>, Exception> {
    if markets == [] then Ok([])
    else Extend(EventCuts(markets[..|markets| - 1], decode, parseFloat), MarketCuts(markets[|markets| - 1], decode, parseFloat))
  }

  /** The cuts so far followed by those of one more market; the first exception wins. */
  function Extend(cuts: Result<seq<Cut>, Exception>, more: Result<seq<Cut>, Exception>): Result<seq<Cut>, Exception> {
    match cuts
    case Err(e) => Err(e)
    case Ok(c) =>
      match more
      case Err(e) => Err(e)
      case Ok(m) => Ok(c + m)
  }

  /** `n * p` */
  function Weighted(c: Cut): real {
    c.0 as real * c.1
  }

  /** Line 112: `sum(n * p for n, p in cuts)` */
  function Expected(cuts: seq<Cut>): real {
    if cuts == [] then 0.0 else Expected(cuts[..|cuts| - 1]) + Weighted(cuts[|cuts| - 1])
  }

  /** Lines 116-120, on the unrounded expectation. */
  function BiasOf(expected: real): CutBias {
    if expected >= 3.0 then Aggressive else if expected >= 1.0 then Moderate else Restrictive
  }

  /** `compute_fed_rate_cut_signal(event)` */
  function FedSignalOf(event: Json, decode: Decoder, parseFloat: FloatParser, round: Rounder): Result<FedSignal, Exception> {
    if !Truthy(event) then Ok(FedSignal(None, Unknown))
    else
      match HasKey(event, "markets")
      case Err(e) => Err(e)
      case Ok(present) =>
        if !present then Ok(FedSignal(None, Unknown))
        else
          match MarketList(event)
          case Err(e) => Err(e)
          case Ok(markets) =>
            match EventCuts(markets, decode, parseFloat)
            case Err(e) => Err(e)
            case Ok(cuts) =>
              if cuts == [] then Ok(FedSignal(None, Unknown))
              else Ok(FedSignal(Some(round(Expected(cuts), 2)), BiasOf(Expected(cuts))))
  }

  /** Once the loop over the markets has raised, the later markets do not matter. */
  lemma {:induction false} EventCutsErrorPersists(markets: seq<Json>, n: nat, decode: Decoder, parseFloat: FloatParser)
    requires n <= |markets| && EventCuts(markets[..n], decode, parseFloat).Err?
    ensures EventCuts(markets, decode, parseFloat) == EventCuts(markets[..n], decode, parseFloat)
  {
    if n < |markets| {
      var init := markets[..|markets| - 1];
      assert init[..n] == markets[..n];
      EventCutsErrorPersists(init, n, decode, parseFloat);
    } else {
      assert markets[..n] == markets;
    }
  }

  /** Once the loop over the outcomes has raised, the later outcomes do not matter. */
  lemma {:induction false} PairCutsErrorPersists(pairs: seq<(Json, Json)>, n: nat, parseFloat: FloatParser)
    requires n <= |pairs| && PairCuts(pairs[..n], parseFloat).Err?
    ensures PairCuts(pairs, parseFloat) == PairCuts(pairs[..n], parseFloat)
  {
    if n < |pairs| {
      var init := pairs[..|pairs| - 1];
      assert init[..n] == pairs[..n];
      PairCutsErrorPersists(init, n, parseFloat);
    } else {
      assert pairs[..n] == pairs;
    }
  }

  /** `compute_fed_rate_cut_signal(event)`, collecting the cuts market by market, outcome by outcome. */
  method ComputeFedRateCutSignal(event: Json, decode: Decoder, parseFloat: FloatParser, round: Rounder)
    returns (r: Result<FedSignal, Exception>)
    ensures r == FedSignalOf(event, decode, parseFloat, round)
  {
    if !Truthy(event) {
      return Ok(FedSignal(None, Unknown));
    }
    var present := HasKey(event, "markets");
    if present.Err? {
      return Err(present.error);
    }
    if !present.value {
      return Ok(FedSignal(None, Unknown));
    }
    var items := MarketList(event);
    if items.Err? {
      return Err(items.error);
    }
    var markets := items.value;
    var cuts: seq<Cut> := [];
    for i := 0 to |markets|
      invariant EventCuts(markets[..i], decode, parseFloat) == Ok(cuts)
    {
      assert markets[..i + 1][..i] == markets[..i];
      var more := MarketStep(markets[i], decode, parseFloat);
      if more.Err? {
        EventCutsErrorPersists(markets, i + 1, decode, parseFloat);
        return Err(more.error);
      }
      cuts := cuts + more.value;
    }
    assert markets[..|markets|] == markets;
    if cuts == [] {
      return Ok(FedSignal(None, Unknown));
    }
    var expected := SumWeighted(cuts);
    var bias := if expected >= 3.0 then Aggressive else if expected >= 1.0 then Moderate else Restrictive;
    return Ok(FedSignal(Some(round(expected, 2)), bias));
  }

  /** Line 112: `sum(n * p for n, p in cuts)`, term by term. */
  method SumWeighted(cuts: seq<Cut>) returns (expected: real)
    ensures expected == Expected(cuts)
  {
    expected := 0.0;
    for k := 0 to |cuts|
      invariant expected == Expected(cuts[..k])
    {
      assert cuts[..k + 1][..k] == cuts[..k];
      expected := expected + Weighted(cuts[k]);
    }
    assert cuts[..|cuts|] == cuts;
  }

  /** The body of the loop of lines 71-104 for one market: the cuts it appends, or the exception. */
  method MarketStep(market: Json, decode: Decoder, parseFloat: FloatParser) returns (r: Result<seq<Cut>, Exception>)
    ensures r == MarketCuts(market, decode, parseFloat)
  {
    if !market.Obj? {
      return Err(Exception(AttributeError, "'" + TypeName(market) + "' object has no attribute 'get'"));
    }
    var labels := Field(market.fields, "outcomes");
    var prices := Field(market.fields, "outcomePrices");
    if !Truthy(labels) || !Truthy(prices) {
      return Ok([]);
    }
    if labels.Str? {
      var d := decode(labels.s);
      if d.Err? {
        return Ok([]);
      }
      labels := d.value;
    }
    if prices.Str? {
      var d := decode(prices.s);
      if d.Err? {
        return Ok([]);
      }
      prices := d.value;
    }
    var nl := Len(labels);
    if nl.Err? {
      return Err(nl.error);
    }
    var np := Len(prices);
    if np.Err? {
      return Err(np.error);
    }
    if nl.value != np.value {
      return Ok([]);
    }
    var labelItems := Iterate(labels);
    if labelItems.Err? {
      return Err(labelItems.error);
    }
    var priceItems := Iterate(prices);
    if priceItems.Err? {
      return Err(priceItems.error);
    }
    var pairs := Zip(labelItems.value, priceItems.value);
    var cuts: seq<Cut> := [];
    for j := 0 to |pairs|
      invariant PairCuts(pairs[..j], parseFloat) == Ok(cuts)
    {
      assert pairs[..j + 1][..j] == pairs[..j];
      var c := LabelCut(pairs[j].0, pairs[j].1, parseFloat);
      if c.Err? {
        PairCutsErrorPersists(pairs, j + 1, parseFloat);
        return Err(c.error);
      }
      if c.value.Some? {
        cuts := cuts + [c.value.value];
      }
    }
    assert pairs[..|pairs|] == pairs;
    return Ok(cuts);
  }

  /** Lines 63-67: a falsy event, or a dict without "markets", gives no expectation and an unknown bias. */
  lemma FedUnknownWithoutMarkets(event: Json, decode: Decoder, parseFloat: FloatParser, round: Rounder)
    requires !Truthy(event) || (event.Obj? && "markets" !in event.fields)
    ensures FedSignalOf(event, decode, parseFloat, round) == Ok(FedSignal(None, Unknown))
  {
  }

  /**
   * Lines 63-67 and 106-110: the bias is unknown exactly when the expectation is null, which
   * happens exactly when the event is falsy, has no "markets", or no outcome yields a cut count.
   */
  lemma FedUnknownIff(event: Json, decode: Decoder, parseFloat: FloatParser, round: Rounder)
    requires FedSignalOf(event, decode, parseFloat, round).Ok?
    ensures var sig := FedSignalOf(event, decode, parseFloat, round).value;
      && (sig.cutBias == Unknown <==> sig.expectedCuts.None?)
      && (sig.cutBias == Unknown <==>
           || !Truthy(event)
           || HasKey(event, "markets") == Ok(false)
           || EventCuts(MarketList(event).value, decode, parseFloat) == Ok([]))
  {
  }

  /**
   * Lines 112-120: the bias is read off the unrounded expectation, so it does not depend on the
   * rounding; only `expected_cuts` is rounded.
   */
  lemma BiasUnrounded(event: Json, decode: Decoder, parseFloat: FloatParser, round1: Rounder, round2: Rounder)
    ensures FedSignalOf(event, decode, parseFloat, round1).Ok? <==> FedSignalOf(event, decode, parseFloat, round2).Ok?
    ensures FedSignalOf(event, decode, parseFloat, round1).Ok? ==>
      FedSignalOf(event, decode, parseFloat, round1).value.cutBias == FedSignalOf(event, decode, parseFloat, round2).value.cutBias
    ensures var sig := FedSignalOf(event, decode, parseFloat, round1);
      sig.Ok? && sig.value.cutBias != Unknown ==>
        var cuts := EventCuts(MarketList(event).value, decode, parseFloat).value;
        sig.value.expectedCuts == Some(round1(Expected(cuts), 2)) && sig.value.cutBias == BiasOf(Expected(cuts))
  {
  }

  /** Lines 116-120: the thresholds, on the unrounded expectation. */
  lemma BiasThresholds(expected: real)
    ensures BiasOf(expected) == Aggressive <==> expected >= 3.0
    ensures BiasOf(expected) == Moderate <==> 1.0 <= expected < 3.0
    ensures BiasOf(expected) == Restrictive <==> expected < 1.0
  {
  }

  /** The biases from the most restrictive to the most aggressive. */
  function Rank(b: CutBias): nat {
    match b
    case Unknown => 0
    case Restrictive => 1
    case Moderate => 2
    case Aggressive => 3
  }

  /** More expected cuts never give a more restrictive bias. */
  lemma BiasMonotone(e1: real, e2: real)
    requires e1 <= e2
    ensures Rank(BiasOf(e1)) <= Rank(BiasOf(e2))
  {
  }

  /** The probabilities of the cuts, in order. */
  function CutProbabilities(cuts: seq<Cut>): (r: seq<real>)
    ensures |r| == |cuts|
    ensures forall i :: 0 <= i < |r| ==> r[i] == cuts[i].1
  {
    seq(|cuts|, i requires 0 <= i < |cuts| => cuts[i].1)
  }

  /** `e` lies between `lo` and `hi` times `t`. */
  predicate Between(lo: real, hi: real, t: real, e: real) {
    lo * t <= e <= hi * t
  }

  /** One step of the bound below, on plain reals. */
  lemma BetweenStep(lo: real, hi: real, t: real, p: real, n: real, e: real)
    requires Between(lo, hi, t, e) && lo <= n <= hi && 0.0 <= p
    ensures Between(lo, hi, t + p, e + n * p)
  {
    MulMonotone(p, lo, n);
    MulMonotone(p, n, hi);
    assert lo * (t + p) == lo * t + p * lo;
    assert hi * (t + p) == hi * t + p * hi;
    assert n * p == p * n;
  }

  /**
   * With non-negative probabilities and cut counts between `lo` and `hi`, the expectation lies
   * between `lo` and `hi` times the total probability; for probabilities summing to 1, between
   * the smallest and the largest count.
   */
  lemma {:induction false} ExpectedBetween(cuts: seq<Cut>, lo: nat, hi: nat)
    requires forall i :: 0 <= i < |cuts| ==> lo <= cuts[i].0 <= hi && 0.0 <= cuts[i].1
    ensures Between(lo as real, hi as real, Sum(CutProbabilities(cuts)), Expected(cuts))
  {
    if cuts != [] {
      var init, last := cuts[..|cuts| - 1], cuts[|cuts| - 1];
      ExpectedBetween(init, lo, hi);
      var t, e, p, n := Sum(CutProbabilities(init)), Expected(init), last.1, last.0 as real;
      assert Sum(CutProbabilities(cuts)) == t + p by {
        assert CutProbabilities(cuts) == CutProbabilities(init) + [p];
        SumStep(CutProbabilities(init), p);
      }
      assert Expected(cuts) == e + n * p;
      BetweenStep(lo as real, hi as real, t, p, n, e);
    }
  }

  /** With probabilities summing to 1, the expected number of cuts lies between the extreme counts. */
  lemma ExpectedWithinCounts(cuts: seq<Cut>, lo: nat, hi: nat)
    requires forall i :: 0 <= i < |cuts| ==> lo <= cuts[i].0 <= hi && 0.0 <= cuts[i].1
    requires Sum(CutProbabilities(cuts)) == 1.0
    ensures lo as real <= Expected(cuts) <= hi as real
  {
    ExpectedBetween(cuts, lo, hi);
  }

  /** Line 98: a label containing "no" counts 0 cuts, even when it holds digits. */
  lemma LabelWithNo(s: string, prob: Json, parseFloat: FloatParser)
    requires Contains(Lower(s), "no") && ToFloat(prob, parseFloat).Ok?
    ensures LabelCut(Str(s), prob, parseFloat) == Ok(Some((0, ToFloat(prob, parseFloat).value)))
  {
  }

  /** Digits followed by a non-digit or nothing are the leading run of digits. */
  lemma {:induction false} LeadingDigitsOf(d: string, rest: string)
    requires AllDigits(d)
    requires rest == [] || !IsDigit(rest[0])
    ensures LeadingDigits(d + rest) == d
    decreases |d|
  {
    if d != [] {
      LeadingDigitsOf(d[1..], rest);
      assert (d + rest)[1..] == d[1..] + rest;
    } else {
      assert d + rest == rest;
    }
  }

  /** The leftmost maximal run of digits of `pre + d + rest`, when `pre` has no digit. */
  lemma {:induction false} FirstDigitRunOf(pre: string, d: string, rest: string)
    requires forall k :: 0 <= k < |pre| ==> !IsDigit(pre[k])
    requires d != [] && AllDigits(d)
    requires rest == [] || !IsDigit(rest[0])
    ensures FirstDigitRun(pre + d + rest) == Some(d)
    decreases |pre|
  {
    if pre == [] {
      assert pre + d + rest == d + rest;
      LeadingDigitsOf(d, rest);
    } else {
      FirstDigitRunOf(pre[1..], d, rest);
      assert (pre + d + rest)[1..] == pre[1..] + d + rest;
    }
  }

  /** Line 102-104: without "no", a label counts the number written by its first run of digits. */
  lemma LabelWithDigits(s: string, pre: string, d: string, rest: string, prob: Json, parseFloat: FloatParser)
    requires !Contains(Lower(s), "no") && Lower(s) == pre + d + rest
    requires forall k :: 0 <= k < |pre| ==> !IsDigit(pre[k])
    requires d != [] && AllDigits(d) && (rest == [] || !IsDigit(rest[0]))
    requires ToFloat(prob, parseFloat).Ok?
    ensures LabelCut(Str(s), prob, parseFloat) == Ok(Some((NumeralValue(d), ToFloat(prob, parseFloat).value)))
  {
    FirstDigitRunOf(pre, d, rest);
  }

  /** A label with neither "no" nor a digit is skipped, and its price is never converted. */
  lemma LabelSkipped(s: string, prob: Json, parseFloat: FloatParser)
    requires !Contains(Lower(s), "no")
    requires forall k :: 0 <= k < |Lower(s)| ==> !IsDigit(Lower(s)[k])
    ensures LabelCut(Str(s), prob, parseFloat) == Ok(None)
  {
  }

  /** Lines 75-92: a market without both lists, or whose lists differ in length, adds no cut. */
  lemma MarketSkipped(market: map<string, Json>, decode: Decoder, parseFloat: FloatParser)
    requires var labels, prices := Field(market, "outcomes"), Field(market, "outcomePrices");
      || !Truthy(labels) || !Truthy(prices)
      || (&& Decoded(labels, decode).Some? && Decoded(prices, decode).Some?
          && Len(Decoded(labels, decode).value).Ok? && Len(Decoded(prices, decode).value).Ok?
          && Len(Decoded(labels, decode).value).value != Len(Decoded(prices, decode).value).value)
    ensures MarketCuts(Obj(market), decode, parseFloat) == Ok([])
  {
  }

  /** One more market at the end of the list. */
  lemma EventCutsSnoc(markets: seq<Json>, m: Json, decode: Decoder, parseFloat: FloatParser)
    ensures EventCuts(markets + [m], decode, parseFloat) == Extend(EventCuts(markets, decode, parseFloat), MarketCuts(m, decode, parseFloat))
  {
    assert (markets + [m])[..|markets|] == markets;
  }

  /** A skipped market can be removed from anywhere in the list without changing the cuts. */
  lemma {:induction false} SkippedMarketInert(a: seq<Json>, m: Json, b: seq<Json>, decode: Decoder, parseFloat: FloatParser)
    requires MarketCuts(m, decode, parseFloat) == Ok([])
    ensures EventCuts(a + [m] + b, decode, parseFloat) == EventCuts(a + b, decode, parseFloat)
    decreases |b|
  {
    if b == [] {
      assert a + [m] + b == a + [m] && a + b == a;
      EventCutsSnoc(a, m, decode, parseFloat);
      var x := EventCuts(a, decode, parseFloat);
      assert x.Ok? ==> x.value + [] == x.value;
    } else {
      var init, last := b[..|b| - 1], b[|b| - 1];
      SkippedMarketInert(a, m, init, decode, parseFloat);
      assert a + [m] + b == (a + [m] + init) + [last];
      assert a + b == (a + init) + [last];
      EventCutsSnoc(a + [m] + init, last, decode, parseFloat);
      EventCutsSnoc(a + init, last, decode, parseFloat);
    }
  }
}
