/**
 * Turning the events API's markets into per-market outcome probabilities (`market_data.py`).
 * The HTTP calls are parameters: the event fetch, the midpoint fetch, `json.loads` and `float`.
 */
module MarketData {
  import opened Wrappers
  import opened Text
  import opened Json
  import opened Dicts
  import opened Numerics
  import opened Config

  /** `fetch_token_midpoint(token_id)`: the token's price, or None where the request or its answer fails. */
  type Midpoint = string -> Option<real>

  /** A market of an event as the events API returns it. */
  datatype Market = Market(
    /** The market's keys (`id`, `question`, `outcomePrices`, `volume`, `endDate`, ...). */
    fields: map<string, Json>,
    /** `json.loads(market["clobTokenIds"])`; None when the market has no `clobTokenIds`. */
    tokenIds: Option<seq<string>>,
    /** `market.get("outcomes")` when it is a list of strings; None otherwise. */
    declaredLabels: Option<seq<string>>)

  /** An event: its keys (`title`, ...) and `event.get("markets", [])`. */
  datatype Event = Event(fields: map<string, Json>, markets: seq<Market>)

  /** What the pipeline reads from outside. */
  datatype Env = Env(
    getEvent: int -> Option<Event>,
    midpoint: Midpoint,
    decode: Decoder,
    parseFloat: FloatParser,
    round: Rounder)

  /** One entry of the results list. */
  datatype MarketRecord = MarketRecord(
    eventKey: string,
    eventId: int,
    eventTitle: Json,
    marketId: Json,
    marketQuestion: Json,
    outcomes: Dict<string, real>,
    volume: Json,
    endDate: Json)

  predicate Distinct<T(==)>(xs: seq<T>) {
    forall i, j :: 0 <= i < j < |xs| ==> xs[i] != xs[j]
  }

  // ------------------------------------------------------------------ parse_outcome_prices

  /** `float` rejects some item with `e`, and accepts every item before it. */
  ghost predicate FirstRejected(items: seq<Json>, parseFloat: FloatParser, e: Exception) {
    exists i :: 0 <= i < |items| && ToFloat(items[i], parseFloat) == Err(e)
      && forall j :: 0 <= j < i ==> ToFloat(items[j], parseFloat).Ok?
  }

  /** An item `float` accepts in front of a first rejection keeps it the first. */
  lemma FirstRejectedShift(items: seq<Json>, parseFloat: FloatParser, e: Exception)
    requires items != [] && ToFloat(items[0], parseFloat).Ok?
    requires FirstRejected(items[1..], parseFloat, e)
    ensures FirstRejected(items, parseFloat, e)
  {
    var i :| 0 <= i < |items[1..]| && ToFloat(items[1..][i], parseFloat) == Err(e)
      && forall j :: 0 <= j < i ==> ToFloat(items[1..][j], parseFloat).Ok?;
    assert ToFloat(items[i + 1], parseFloat) == Err(e);
    forall j | 0 <= j < i + 1
      ensures ToFloat(items[j], parseFloat).Ok?
    {
      if j > 0 {
        assert items[j] == items[1..][j - 1];
      }
    }
  }

  /** `[float(p) for p in items]`: the first failing conversion raises. */
  function Floats(items: seq<Json>, parseFloat: FloatParser): (r: Result<seq<real>, Exception>)
    ensures r.Ok? ==> |r.value| == |items| && forall i :: 0 <= i < |items| ==> ToFloat(items[i], parseFloat) == Ok(r.value[i])
    ensures r.Err? ==> FirstRejected(items, parseFloat, r.error)
    ensures r.Ok? <==> forall i :: 0 <= i < |items| ==> ToFloat(items[i], parseFloat).Ok?
    decreases |items|
  {
    if items == [] then Ok([])
    else match ToFloat(items[0], parseFloat)
      case Err(e) => Err(e)
      case Ok(p) =>
        match Floats(items[1..], parseFloat)
        case Err(e) =>
          FirstRejectedShift(items, parseFloat, e);
          Err(e)
        case Ok(ps) => Ok([p] + ps)
  }

  /** `parse_outcome_prices(v)`: None for anything that is not a list after decoding. */
  function ParseOutcomePrices(v: Json, decode: Decoder, parseFloat: FloatParser): (r: Result<Option<seq<real>>, Exception>)
    ensures r == Ok(None) <==> !(Decoded(v, decode).Some? && Decoded(v, decode).value.Arr?)
    ensures r.Ok? && r.value.Some? ==>
      var items := Decoded(v, decode).value.items;
      |r.value.value| == |items| && forall i :: 0 <= i < |items| ==> ToFloat(items[i], parseFloat) == Ok(r.value.value[i])
    ensures r.Err? ==> (Decoded(v, decode).Some? && Decoded(v, decode).value.Arr? &&
      var items := Decoded(v, decode).value.items;
      FirstRejected(items, parseFloat, r.error))
  {
    match Decoded(v, decode)
    case Some(Arr(items)) =>
      (match Floats(items, parseFloat)
       case Ok(ps) => Ok(Some(ps))
       case Err(e) => Err(e))
    case _ => Ok(None)
  }

  // ------------------------------------------------------------------ get_safe_outcome_labels

  /** The label of outcome `i` when the market declares none that fit. */
  function SyntheticLabel(i: nat): string {
    "Outcome_" + ShowNat(i)
  }

  /**
   * `get_safe_outcome_labels(market, token_ids)` for `n` tokens: the declared labels when they are a
   * list of length `n`, else `["No", "Yes"]` for two tokens, else `Outcome_0` ... `Outcome_{n-1}`.
   */
  function SafeLabels(declared: Option<seq<string>>, n: nat): (r: seq<string>)
    ensures |r| == n
    ensures declared.Some? && |declared.value| == n ==> r == declared.value
  {
    if declared.Some? && |declared.value| == n then declared.value
    else if n == 2 then ["No", "Yes"]
    else seq(n, i requires 0 <= i < n => SyntheticLabel(i))
  }

  /** The labels the function makes up itself never repeat. */
  lemma SyntheticLabelsDistinct(declared: Option<seq<string>>, n: nat)
    requires !(declared.Some? && |declared.value| == n)
    ensures Distinct(SafeLabels(declared, n))
  {
    if n != 2 {
      var r := SafeLabels(declared, n);
      forall i, j | 0 <= i < j < n
        ensures r[i] != r[j]
      {
        if r[i] == r[j] {
          assert ShowNat(i) == r[i][8..] && ShowNat(j) == r[j][8..];
          assert ShowInt(i) == ShowInt(j);
          ShowIntInjective(i, j);
        }
      }
    }
  }

  // ------------------------------------------------------------------ raw prices

  /** `raw_prices` after the midpoint loop: each priced token with its midpoint, in first-seen order. */
  function MidpointPrices(tokens: seq<string>, midpoint: Midpoint): Dict<string, real> {
    if tokens == [] then []
    else
      var raw := MidpointPrices(tokens[..|tokens| - 1], midpoint);
      var t := tokens[|tokens| - 1];
      match midpoint(t)
      case Some(p) => Put(raw, t, p)
      case None => raw
  }

  /** The midpoint loop keeps exactly the tokens that have a midpoint, each with that midpoint. */
  lemma {:induction false} MidpointPricesKeys(tokens: seq<string>, midpoint: Midpoint)
    ensures DistinctKeys(MidpointPrices(tokens, midpoint))
    ensures forall k :: k in Keys(MidpointPrices(tokens, midpoint)) <==> k in tokens && midpoint(k).Some?
    ensures forall k :: k in Keys(MidpointPrices(tokens, midpoint)) ==> Get(MidpointPrices(tokens, midpoint), k) == midpoint(k)
  {
    if tokens != [] {
      var init, t := tokens[..|tokens| - 1], tokens[|tokens| - 1];
      var raw := MidpointPrices(init, midpoint);
      MidpointPricesKeys(init, midpoint);
      assert tokens == init + [t];
      match midpoint(t)
      case None =>
      case Some(p) =>
        PutKeeps(raw, t, p);
        forall k | k in Keys(Put(raw, t, p))
          ensures Get(Put(raw, t, p), k) == midpoint(k)
        {
          PutGet(raw, t, p, k);
        }
    }
  }

  /** Every token reads back its own midpoint, None for a token without one. */
  lemma MidpointPricesGet(tokens: seq<string>, midpoint: Midpoint, t: string)
    requires t in tokens
    ensures Get(MidpointPrices(tokens, midpoint), t) == midpoint(t)
  {
    var raw := MidpointPrices(tokens, midpoint);
    MidpointPricesKeys(tokens, midpoint);
    assert forall i :: 0 <= i < |raw| ==> Keys(raw)[i] == raw[i].0;
  }

  /** With distinct tokens that all have a midpoint, the dict lists the tokens in their order. */
  lemma {:induction false} MidpointPricesOrder(tokens: seq<string>, midpoint: Midpoint)
    requires Distinct(tokens)
    requires forall i :: 0 <= i < |tokens| ==> midpoint(tokens[i]).Some?
    ensures Keys(MidpointPrices(tokens, midpoint)) == tokens
  {
    if tokens != [] {
      var init, t := tokens[..|tokens| - 1], tokens[|tokens| - 1];
      MidpointPricesOrder(init, midpoint);
      MidpointPricesKeys(init, midpoint);
      PutKeeps(MidpointPrices(init, midpoint), t, midpoint(t).value);
      assert t !in init;
    }
  }

  /** The midpoint loop (`for token_id in token_ids: ...`), filling `raw_prices` step by step. */
  method CollectMidpoints(tokens: seq<string>, midpoint: Midpoint) returns (raw: Dict<string, real>)
    ensures raw == MidpointPrices(tokens, midpoint)
  {
    raw := [];
    for i := 0 to |tokens|
      invariant raw == MidpointPrices(tokens[..i], midpoint)
    {
      assert tokens[..i + 1][..i] == tokens[..i];
      var price := midpoint(tokens[i]);
      if price.Some? {
        raw := Put(raw, tokens[i], price.value);
      }
    }
    assert tokens[..|tokens|] == tokens;
  }

  /** The fallback to `outcomePrices`: the new `raw_prices`, or None where the market is skipped. */
  function Fallback(market: Market, tokens: seq<string>, env: Env): Result<Option<Dict<string, real>>, Exception> {
    var v := Field(market.fields, "outcomePrices");
    if !Truthy(v) then Ok(None)
    else
      match ParseOutcomePrices(v, env.decode, env.parseFloat)
      case Err(e) => Err(e)
      case Ok(None) => Ok(None)
      case Ok(Some(ps)) =>
        if ps == [] || |ps| != |tokens| then Ok(None) else Ok(Some(FromPairs(Zip(tokens, ps))))
  }

  /** The prices a market is normalised with: its midpoints when at least two tokens have one, else the fallback. */
  function Prices(market: Market, tokens: seq<string>, env: Env): Result<Option<Dict<string, real>>, Exception> {
    var raw := MidpointPrices(tokens, env.midpoint);
    if |raw| < 2 then Fallback(market, tokens, env) else Ok(Some(raw))
  }

  // ------------------------------------------------------------------ outcomes

  /** `{label: round(raw_prices[token_id] / total, 4) for label, token_id in pairs}`, evaluated in order. */
  function OutcomeValues(pairs: seq<(string, string)>, raw: Dict<string, real>, total: real, round: Rounder): (r: Result<Dict<string, real>, Exception>)
    requires total != 0.0
    ensures r.Err? <==> exists i :: 0 <= i < |pairs| && Get(raw, pairs[i].1).None?
    ensures r.Err? ==> r.error.kind == KeyError
  {
    if pairs == [] then Ok([])
    else
      var init, last := pairs[..|pairs| - 1], pairs[|pairs| - 1];
      match OutcomeValues(init, raw, total, round)
      case Err(e) =>
        ghost var i :| 0 <= i < |init| && Get(raw, init[i].1).None?;
        assert pairs[i] == init[i];
        Err(e)
      case Ok(o) =>
        assert forall i :: 0 <= i < |init| ==> pairs[i] == init[i];
        match Get(raw, last.1)
        case None => Err(Exception(KeyError, "'" + last.1 + "'"))
        case Some(p) => Ok(Put(o, last.0, round(p / total, 4)))
  }

  /** The normalisation of one market: its outcomes, None where it is skipped, or the exception it raises. */
  function Normalise(market: Market, tokens: seq<string>, env: Env): Result<Option<Dict<string, real>>, Exception> {
    match Prices(market, tokens, env)
    case Err(e) => Err(e)
    case Ok(None) => Ok(None)
    case Ok(Some(raw)) =>
      var total := Sum(Values(raw));
      if total == 0.0 then Ok(None)
      else
        match OutcomeValues(Zip(SafeLabels(market.declaredLabels, |tokens|), tokens), raw, total, env.round)
        case Err(e) => Err(e)
        case Ok(o) => Ok(Some(o))
  }

  /** The body of `for market in ...` after `token_ids` is decoded: midpoints, fallback, total, outcomes. */
  method NormaliseMarket(market: Market, tokens: seq<string>, env: Env) returns (r: Result<Option<Dict<string, real>>, Exception>)
    ensures r == Normalise(market, tokens, env)
  {
    var raw := CollectMidpoints(tokens, env.midpoint);
    if |raw| < 2 {
      var fallback := Fallback(market, tokens, env);
      if fallback.Err? {
        return Err(fallback.error);
      } else if fallback.value.None? {
        return Ok(None);
      }
      raw := fallback.value.value;
    }
    var total := Sum(Values(raw));
    if total == 0.0 {
      return Ok(None);
    }
    var labels := SafeLabels(market.declaredLabels, |tokens|);
    var outcomes := OutcomeValues(Zip(labels, tokens), raw, total, env.round);
    if outcomes.Err? {
      return Err(outcomes.error);
    }
    return Ok(Some(outcomes.value));
  }

  // ------------------------------------------------------------------ properties of the normalisation

  /** When fewer than two tokens have a midpoint, the midpoints that did arrive make no difference. */
  lemma PartialMidpointsDiscarded(market: Market, tokens: seq<string>, env: Env, midpoint': Midpoint)
    requires |MidpointPrices(tokens, env.midpoint)| < 2
    requires |MidpointPrices(tokens, midpoint')| < 2
    ensures Normalise(market, tokens, env) == Normalise(market, tokens, env.(midpoint := midpoint'))
  {
  }

  /** The fallback is taken exactly when fewer than two distinct tokens have a midpoint. */
  lemma FallbackWhenFewMidpoints(market: Market, tokens: seq<string>, env: Env)
    ensures |MidpointPrices(tokens, env.midpoint)| < 2 <==>
            |set k | k in tokens && env.midpoint(k).Some?| < 2
    ensures |MidpointPrices(tokens, env.midpoint)| < 2 ==> Prices(market, tokens, env) == Fallback(market, tokens, env)
  {
    var raw := MidpointPrices(tokens, env.midpoint);
    MidpointPricesKeys(tokens, env.midpoint);
    var priced := set k | k in tokens && env.midpoint(k).Some?;
    assert priced == set k | k in Keys(raw);
    DistinctKeysCount(raw);
  }

  /** A dict has as many distinct keys as entries. */
  lemma {:induction false} DistinctKeysCount<K, V>(d: Dict<K, V>)
    requires DistinctKeys(d)
    ensures |set k | k in Keys(d)| == |d|
  {
    if d != [] {
      var init := d[..|d| - 1];
      DistinctKeysCount(init);
      assert Keys(d) == Keys(init) + [d[|d| - 1].0];
      assert d[|d| - 1].0 !in Keys(init);
      assert (set k | k in Keys(d)) == (set k | k in Keys(init)) + {d[|d| - 1].0};
    }
  }

  /**
   * A market is skipped, never half-included, exactly when the fallback value is missing or falsy,
   * decodes to no list or to an empty list, has another length than the tokens, or the prices total 0.
   */
  lemma SkipRules(market: Market, tokens: seq<string>, env: Env)
    ensures
      var raw := MidpointPrices(tokens, env.midpoint);
      var v := Field(market.fields, "outcomePrices");
      var parsed := ParseOutcomePrices(v, env.decode, env.parseFloat);
      Normalise(market, tokens, env) == Ok(None) <==>
        if |raw| >= 2 then Sum(Values(raw)) == 0.0
        else
          || !Truthy(v)
          || parsed == Ok(None)
          || (parsed.Ok? && (parsed.value.value == [] || |parsed.value.value| != |tokens|))
          || (parsed.Ok? && Sum(Values(FromPairs(Zip(tokens, parsed.value.value)))) == 0.0)
  {
  }

  /**
   * With at least two midpoints and a non-zero total, the market raises KeyError exactly when some
   * token has no midpoint (the dict comprehension reads a missing token), and nothing else can fail.
   */
  lemma PartialMidpointsRaise(market: Market, tokens: seq<string>, env: Env)
    requires |MidpointPrices(tokens, env.midpoint)| >= 2
    requires Sum(Values(MidpointPrices(tokens, env.midpoint))) != 0.0
    ensures Normalise(market, tokens, env).Err? <==> exists i :: 0 <= i < |tokens| && env.midpoint(tokens[i]).None?
    ensures Normalise(market, tokens, env).Err? ==> Normalise(market, tokens, env).error.kind == KeyError
  {
    var raw := MidpointPrices(tokens, env.midpoint);
    var pairs := Zip(SafeLabels(market.declaredLabels, |tokens|), tokens);
    assert |pairs| == |tokens|;
    forall i | 0 <= i < |tokens|
      ensures pairs[i].1 == tokens[i]
      ensures Get(raw, pairs[i].1) == env.midpoint(tokens[i])
    {
      MidpointPricesGet(tokens, env.midpoint, tokens[i]);
    }
  }

  /**
   * One step of the comprehension under a new label: the last pair's rounded share goes in after
   * the earlier ones, and the labels stay those of the pairs.
   */
  lemma OutcomeValuesStep(pairs: seq<(string, string)>, raw: Dict<string, real>, total: real, round: Rounder, p: real)
    requires total != 0.0 && pairs != [] && DistinctKeys(pairs)
    requires OutcomeValues(pairs[..|pairs| - 1], raw, total, round).Ok?
    requires Keys(OutcomeValues(pairs[..|pairs| - 1], raw, total, round).value) == Keys(pairs[..|pairs| - 1])
    requires Get(raw, pairs[|pairs| - 1].1) == Some(p)
    ensures OutcomeValues(pairs, raw, total, round).Ok?
    ensures Keys(OutcomeValues(pairs, raw, total, round).value) == Keys(pairs)
    ensures Values(OutcomeValues(pairs, raw, total, round).value)
         == Values(OutcomeValues(pairs[..|pairs| - 1], raw, total, round).value) + [round(p / total, 4)]
  {
    var init, last := pairs[..|pairs| - 1], pairs[|pairs| - 1];
    var o := OutcomeValues(init, raw, total, round).value;
    OutcomeValuesLast(pairs, raw, total, round, p);
    LastKeyNew(pairs);
    PutNew(o, last.0, round(p / total, 4));
  }

  /** The comprehension over one more pair whose token has a price puts that pair's share last. */
  lemma OutcomeValuesLast(pairs: seq<(string, string)>, raw: Dict<string, real>, total: real, round: Rounder, p: real)
    requires total != 0.0 && pairs != []
    requires OutcomeValues(pairs[..|pairs| - 1], raw, total, round).Ok?
    requires Get(raw, pairs[|pairs| - 1].1) == Some(p)
    ensures OutcomeValues(pairs, raw, total, round)
         == Ok(Put(OutcomeValues(pairs[..|pairs| - 1], raw, total, round).value, pairs[|pairs| - 1].0, round(p / total, 4)))
  {
  }

  /** With distinct keys, the last key is new to the ones before it. */
  lemma LastKeyNew<K, V>(d: Dict<K, V>)
    requires d != [] && DistinctKeys(d)
    ensures d[|d| - 1].0 !in Keys(d[..|d| - 1])
    ensures Keys(d) == Keys(d[..|d| - 1]) + [d[|d| - 1].0]
  {
    var init := d[..|d| - 1];
    assert forall i :: 0 <= i < |init| ==> Keys(init)[i] == d[i].0;
  }

  /**
   * Before rounding, pairing distinct labels with the first keys of `raw`, in order, gives outcomes
   * with exactly those labels that add up to the first prices over the total.
   */
  lemma {:induction false} OutcomeValuesExact(pairs: seq<(string, string)>, raw: Dict<string, real>, total: real)
    requires total != 0.0
    requires |pairs| <= |raw| && DistinctKeys(pairs) && DistinctKeys(raw)
    requires forall i :: 0 <= i < |pairs| ==> pairs[i].1 == raw[i].0
    ensures OutcomeValues(pairs, raw, total, Exact).Ok?
    ensures Keys(OutcomeValues(pairs, raw, total, Exact).value) == Keys(pairs)
    ensures Sum(Values(OutcomeValues(pairs, raw, total, Exact).value)) == Sum(Values(raw[..|pairs|])) / total
  {
    if pairs != [] {
      var n := |pairs|;
      var init := pairs[..n - 1];
      PairsPrefix(pairs, raw);
      OutcomeValuesExact(init, raw, total);
      var o := OutcomeValues(init, raw, total, Exact).value;
      var x := raw[n - 1].1;
      assert Get(raw, pairs[n - 1].1) == Some(x) by {
        GetAt(raw, n - 1);
      }
      OutcomeValuesStep(pairs, raw, total, Exact, x);
      assert Values(raw[..n]) == Values(raw[..n - 1]) + [x];
      QuotientStep(Values(o), Values(raw[..n - 1]), x, total);
    }
  }

  /** A running sum of quotients stays the quotient of the running sum. */
  lemma QuotientStep(quotients: seq<real>, values: seq<real>, x: real, t: real)
    requires t != 0.0 && Sum(quotients) == Sum(values) / t
    ensures Sum(quotients + [x / t]) == Sum(values + [x]) / t
  {
    SumStep(quotients, x / t);
    SumStep(values, x);
    DivAdd(Sum(values), x, t);
  }

  /** The hypotheses of `OutcomeValuesExact` carry over to the pairs but the last. */
  lemma PairsPrefix(pairs: seq<(string, string)>, raw: Dict<string, real>)
    requires pairs != [] && |pairs| <= |raw| && DistinctKeys(pairs)
    requires forall i :: 0 <= i < |pairs| ==> pairs[i].1 == raw[i].0
    ensures DistinctKeys(pairs[..|pairs| - 1])
    ensures forall i :: 0 <= i < |pairs| - 1 ==> pairs[..|pairs| - 1][i].1 == raw[i].0
  {
  }

  /**
   * Before rounding, distinct labels paired with the tokens, over prices listed in token order with a
   * non-zero total, give outcomes with exactly those labels that add up to 1.
   */
  lemma OutcomesOfTokenPrices(labels: seq<string>, tokens: seq<string>, raw: Dict<string, real>)
    requires Distinct(labels) && |labels| == |tokens|
    requires Keys(raw) == tokens && DistinctKeys(raw)
    requires Sum(Values(raw)) != 0.0
    ensures OutcomeValues(Zip(labels, tokens), raw, Sum(Values(raw)), Exact).Ok?
    ensures Keys(OutcomeValues(Zip(labels, tokens), raw, Sum(Values(raw)), Exact).value) == labels
    ensures Sum(Values(OutcomeValues(Zip(labels, tokens), raw, Sum(Values(raw)), Exact).value)) == 1.0
  {
    var pairs := Zip(labels, tokens);
    var total := Sum(Values(raw));
    assert Keys(pairs) == labels by {
      assert forall i :: 0 <= i < |pairs| ==> Keys(pairs)[i] == labels[i];
    }
    assert |pairs| == |raw| && DistinctKeys(pairs) && forall i :: 0 <= i < |pairs| ==> pairs[i].1 == raw[i].0 by {
      assert forall i :: 0 <= i < |pairs| ==> pairs[i] == (labels[i], tokens[i]);
      assert forall i :: 0 <= i < |raw| ==> Keys(raw)[i] == raw[i].0;
    }
    OutcomeValuesExact(pairs, raw, total);
    assert raw[..|pairs|] == raw;
    DivSelf(total);
  }

  /** The parts of a normalisation that yields outcomes: its prices, their non-zero total and the comprehension. */
  lemma NormaliseParts(market: Market, tokens: seq<string>, env: Env)
    requires Normalise(market, tokens, env).Ok? && Normalise(market, tokens, env).value.Some?
    ensures Prices(market, tokens, env).Ok? && Prices(market, tokens, env).value.Some?
    ensures
      var raw := Prices(market, tokens, env).value.value;
      && Sum(Values(raw)) != 0.0
      && OutcomeValues(Zip(SafeLabels(market.declaredLabels, |tokens|), tokens), raw, Sum(Values(raw)), env.round)
         == Ok(Normalise(market, tokens, env).value.value)
  {
  }

  /**
   * Before rounding, the outcomes of a market whose tokens and labels are distinct are the labels,
   * in token order, and add up to 1.
   */
  lemma OutcomesSumToOne(market: Market, tokens: seq<string>, env: Env)
    requires env.round == Exact
    requires Distinct(tokens) && Distinct(SafeLabels(market.declaredLabels, |tokens|))
    requires Normalise(market, tokens, env).Ok? && Normalise(market, tokens, env).value.Some?
    ensures Keys(Normalise(market, tokens, env).value.value) == SafeLabels(market.declaredLabels, |tokens|)
    ensures Sum(Values(Normalise(market, tokens, env).value.value)) == 1.0
  {
    NormaliseParts(market, tokens, env);
    RawInTokenOrder(market, tokens, env);
    OutcomesOfTokenPrices(SafeLabels(market.declaredLabels, |tokens|), tokens, Prices(market, tokens, env).value.value);
  }

  /** The prices of a market that is not skipped and raises nothing list its distinct tokens in order. */
  lemma RawInTokenOrder(market: Market, tokens: seq<string>, env: Env)
    requires Distinct(tokens)
    requires Normalise(market, tokens, env).Ok? && Normalise(market, tokens, env).value.Some?
    ensures Keys(Prices(market, tokens, env).value.value) == tokens
    ensures DistinctKeys(Prices(market, tokens, env).value.value)
  {
    var labels := SafeLabels(market.declaredLabels, |tokens|);
    NormaliseParts(market, tokens, env);
    var raw := Prices(market, tokens, env).value.value;
    var mids := MidpointPrices(tokens, env.midpoint);
    if |mids| >= 2 {
      assert raw == mids;
      var pairs := Zip(labels, tokens);
      assert OutcomeValues(pairs, raw, Sum(Values(raw)), env.round).Ok?;
      forall i | 0 <= i < |tokens|
        ensures env.midpoint(tokens[i]).Some?
      {
        assert pairs[i].1 == tokens[i];
        MidpointPricesGet(tokens, env.midpoint, tokens[i]);
      }
      MidpointPricesOrder(tokens, env.midpoint);
      MidpointPricesKeys(tokens, env.midpoint);
    } else {
      FallbackInTokenOrder(market, tokens, env);
    }
  }

  /** Prices taken from `outcomePrices` list distinct tokens in token order. */
  lemma FallbackInTokenOrder(market: Market, tokens: seq<string>, env: Env)
    requires Distinct(tokens)
    requires Fallback(market, tokens, env).Ok? && Fallback(market, tokens, env).value.Some?
    ensures Keys(Fallback(market, tokens, env).value.value) == tokens
    ensures DistinctKeys(Fallback(market, tokens, env).value.value)
  {
    var parsed := ParseOutcomePrices(Field(market.fields, "outcomePrices"), env.decode, env.parseFloat);
    assert parsed.Ok? && parsed.value.Some?;
    var ps := parsed.value.value;
    assert Fallback(market, tokens, env) == Ok(Some(FromPairs(Zip(tokens, ps)))) && |ps| == |tokens|;
    var pairs := Zip(tokens, ps);
    assert DistinctKeys(pairs) by {
      assert forall i :: 0 <= i < |pairs| ==> pairs[i].0 == tokens[i];
    }
    FromDistinctPairs(pairs);
    assert Keys(pairs) == tokens by {
      assert forall i :: 0 <= i < |pairs| ==> Keys(pairs)[i] == tokens[i];
    }
  }

  // ------------------------------------------------------------------ fetch_all_market_data

  /** The results entry of a normalised market; reading a missing `title`, `id` or `question` raises KeyError. */
  function Record(key: string, id: int, event: Event, market: Market, outcomes: Dict<string, real>): (r: Result<MarketRecord, Exception>)
    ensures r.Ok? <==> "title" in event.fields && "id" in market.fields && "question" in market.fields
    ensures r.Ok? ==> r.value.eventKey == key && r.value.eventId == id && r.value.outcomes == outcomes
  {
    if "title" !in event.fields then Err(Exception(KeyError, "'title'"))
    else if "id" !in market.fields then Err(Exception(KeyError, "'id'"))
    else if "question" !in market.fields then Err(Exception(KeyError, "'question'"))
    else
      Ok(MarketRecord(
        key, id, event.fields["title"], market.fields["id"], market.fields["question"], outcomes,
        if "volume" in market.fields then market.fields["volume"] else Int(0),
        Field(market.fields, "endDate")))
  }

  /** The entries the markets of one event add, in market order; markets without `clobTokenIds` are skipped. */
  function MarketsRecords(key: string, id: int, event: Event, markets: seq<Market>, env: Env): Result<seq<MarketRecord>, Exception> {
    if markets == [] then Ok([])
    else
      match MarketsRecords(key, id, event, markets[..|markets| - 1], env)
      case Err(e) => Err(e)
      case Ok(rs) => AddMarket(rs, key, id, event, markets[|markets| - 1], env)
  }

  /** The entries `rs` followed by the one `market` adds, if any, or the exception it raises. */
  function AddMarket(rs: seq<MarketRecord>, key: string, id: int, event: Event, market: Market, env: Env): Result<seq<MarketRecord>, Exception> {
    if market.tokenIds.None? then Ok(rs)
    else
      match Normalise(market, market.tokenIds.value, env)
      case Err(e) => Err(e)
      case Ok(None) => Ok(rs)
      case Ok(Some(outcomes)) =>
        match Record(key, id, event, market, outcomes)
        case Err(e) => Err(e)
        case Ok(record) => Ok(rs + [record])
  }

  /** The results list for the events of `table`, skipping the keys in `skip` and the events that cannot be fetched. */
  function Records(table: Dict<string, int>, skip: set<string>, env: Env): Result<seq<MarketRecord>, Exception> {
    if table == [] then Ok([])
    else
      match Records(table[..|table| - 1], skip, env)
      case Err(e) => Err(e)
      case Ok(rs) =>
        var key, id := table[|table| - 1].0, table[|table| - 1].1;
        if key in skip then Ok(rs)
        else
          match env.getEvent(id)
          case None => Ok(rs)
          case Some(event) =>
            match MarketsRecords(key, id, event, event.markets, env)
            case Err(e) => Err(e)
            case Ok(more) => Ok(rs + more)
  }

  /** An exception raised for some markets is the exception raised for all of them. */
  lemma {:induction false} MarketsRecordsErr(key: string, id: int, event: Event, markets: seq<Market>, env: Env, n: nat)
    requires n <= |markets| && MarketsRecords(key, id, event, markets[..n], env).Err?
    ensures MarketsRecords(key, id, event, markets, env) == MarketsRecords(key, id, event, markets[..n], env)
    decreases |markets| - n
  {
    if n < |markets| {
      assert markets[..|markets| - 1][..n] == markets[..n];
      MarketsRecordsErr(key, id, event, markets[..|markets| - 1], env, n);
    } else {
      assert markets[..n] == markets;
    }
  }

  /** An exception raised for some events is the exception raised for the whole table. */
  lemma {:induction false} RecordsErr(table: Dict<string, int>, skip: set<string>, env: Env, n: nat)
    requires n <= |table| && Records(table[..n], skip, env).Err?
    ensures Records(table, skip, env) == Records(table[..n], skip, env)
    decreases |table| - n
  {
    if n < |table| {
      assert table[..|table| - 1][..n] == table[..n];
      RecordsErr(table[..|table| - 1], skip, env, n);
    } else {
      assert table[..n] == table;
    }
  }

  /** The inner loop of `fetch_all_market_data`: the entries of one event's markets, in market order. */
  method CollectMarkets(key: string, id: int, event: Event, env: Env) returns (r: Result<seq<MarketRecord>, Exception>)
    ensures r == MarketsRecords(key, id, event, event.markets, env)
  {
    var markets := event.markets;
    var added: seq<MarketRecord> := [];
    for j := 0 to |markets|
      invariant MarketsRecords(key, id, event, markets[..j], env) == Ok(added)
    {
      MarketsRecordsStep(key, id, event, markets, env, j);
      var market := markets[j];
      if market.tokenIds.None? {
        continue;
      }
      var outcomes := NormaliseMarket(market, market.tokenIds.value, env);
      if outcomes.Err? {
        MarketsRecordsErr(key, id, event, markets, env, j + 1);
        return Err(outcomes.error);
      }
      if outcomes.value.None? {
        continue;
      }
      var record := Record(key, id, event, market, outcomes.value.value);
      if record.Err? {
        MarketsRecordsErr(key, id, event, markets, env, j + 1);
        return Err(record.error);
      }
      added := added + [record.value];
    }
    assert markets[..|markets|] == markets;
    return Ok(added);
  }

  /** One more market extends the entries of the markets before it by what it adds. */
  lemma MarketsRecordsStep(key: string, id: int, event: Event, markets: seq<Market>, env: Env, j: nat)
    requires j < |markets| && MarketsRecords(key, id, event, markets[..j], env).Ok?
    ensures MarketsRecords(key, id, event, markets[..j + 1], env)
         == AddMarket(MarketsRecords(key, id, event, markets[..j], env).value, key, id, event, markets[j], env)
  {
    assert markets[..j + 1][..j] == markets[..j];
  }

  /**
   * The loops of `fetch_all_market_data` over the events of `table` and their markets, appending to
   * `results`; an exception ends the whole fetch.
   */
  method CollectRecords(table: Dict<string, int>, skip: set<string>, env: Env) returns (r: Result<seq<MarketRecord>, Exception>)
    ensures r == Records(table, skip, env)
  {
    var results: seq<MarketRecord> := [];
    for i := 0 to |table|
      invariant Records(table[..i], skip, env) == Ok(results)
    {
      assert table[..i + 1][..i] == table[..i];
      var key, id := table[i].0, table[i].1;
      if key in skip {
        continue;
      }
      var event := env.getEvent(id);
      if event.None? {
        continue;
      }
      var added := CollectMarkets(key, id, event.value, env);
      if added.Err? {
        RecordsErr(table, skip, env, i + 1);
        return Err(added.error);
      }
      results := results + added.value;
    }
    assert table[..|table|] == table;
    return Ok(results);
  }

  /** Every entry comes from a table event whose key is not skipped, and carries that event's key and id. */
  lemma {:induction false} RecordsFromTable(table: Dict<string, int>, skip: set<string>, env: Env)
    ensures Records(table, skip, env).Ok? ==>
      forall record :: record in Records(table, skip, env).value ==>
        record.eventKey !in skip && (record.eventKey, record.eventId) in table
  {
    if table != [] {
      var init := table[..|table| - 1];
      RecordsFromTable(init, skip, env);
      var key, id := table[|table| - 1].0, table[|table| - 1].1;
      if Records(table, skip, env).Ok? && key !in skip && env.getEvent(id).Some? {
        var event := env.getEvent(id).value;
        MarketsRecordsKey(key, id, event, event.markets, env);
      }
    }
  }

  /** The entries one event adds all carry its key and id. */
  lemma {:induction false} MarketsRecordsKey(key: string, id: int, event: Event, markets: seq<Market>, env: Env)
    ensures MarketsRecords(key, id, event, markets, env).Ok? ==>
      forall record :: record in MarketsRecords(key, id, event, markets, env).value ==>
        record.eventKey == key && record.eventId == id
  {
    if markets != [] {
      MarketsRecordsKey(key, id, event, markets[..|markets| - 1], env);
    }
  }

  /** `fetch_all_market_data()` without its cache: every configured event except the group events. */
  method FetchAllMarketData(env: Env) returns (r: Result<seq<MarketRecord>, Exception>)
    ensures r == Records(PredefinedEventIds, GroupEvents, env)
    ensures r.Ok? ==> forall record :: record in r.value ==>
      record.eventKey != "fed_rate_cuts_2026" && (record.eventKey, record.eventId) in PredefinedEventIds
  {
    r := CollectRecords(PredefinedEventIds, GroupEvents, env);
    RecordsFromTable(PredefinedEventIds, GroupEvents, env);
  }

  // ------------------------------------------------------------------ attach_event_keys

  /** `str(v)` where it can equal a configured id; None for floats, lists and dicts, whose text never does. */
  function IdText(v: Json): Option<string> {
    match v
    case Null => Some("None")
    case Bool(b) => Some(if b then "True" else "False")
    case Int(i) => Some(ShowInt(i))
    case Str(s) => Some(s)
    case _ => None
  }

  /** The (id text, key) pairs of a table of events, in table order. */
  function IdPairs(table: Dict<string, int>): seq<(string, string)> {
    seq(|table|, i requires 0 <= i < |table| => (ShowInt(table[i].1), table[i].0))
  }

  /** `id_to_key`: the text of each id of the table mapped to its key. */
  function IdToKey(table: Dict<string, int>): Dict<string, string> {
    FromPairs(IdPairs(table))
  }

  /** No two events of the table share an id. */
  ghost predicate DistinctIds(table: Dict<string, int>) {
    forall i, j :: 0 <= i < j < |table| ==> table[i].1 != table[j].1
  }

  /** The configured events have distinct ids. */
  lemma ConfiguredIdsDistinct()
    ensures DistinctIds(PredefinedEventIds)
  {
  }

  /** With distinct ids, `id_to_key` inverts the table: each id's text reads its key, any other text nothing. */
  lemma InvertTable(table: Dict<string, int>)
    requires DistinctIds(table)
    ensures forall i :: 0 <= i < |table| ==> Get(IdToKey(table), ShowInt(table[i].1)) == Some(table[i].0)
    ensures forall t :: (forall i :: 0 <= i < |table| ==> t != ShowInt(table[i].1)) ==> Get(IdToKey(table), t).None?
  {
    var pairs := IdPairs(table);
    assert DistinctKeys(pairs) by {
      forall i, j | 0 <= i < j < |pairs|
        ensures pairs[i].0 != pairs[j].0
      {
        if pairs[i].0 == pairs[j].0 {
          ShowIntInjective(table[i].1, table[j].1);
        }
      }
    }
    FromDistinctPairs(pairs);
    forall i | 0 <= i < |table|
      ensures Get(IdToKey(table), ShowInt(table[i].1)) == Some(table[i].0)
    {
      GetAt(pairs, i);
    }
    forall t | Get(IdToKey(table), t).Some?
      ensures exists i :: 0 <= i < |table| && t == ShowInt(table[i].1)
    {
      var k := IndexOf(pairs, t).value;
      assert t == pairs[k].0;
    }
  }

  /** The loop body of `attach_event_keys` on one event dict. */
  function Attach(idToKey: Dict<string, string>, fields: map<string, Json>): map<string, Json> {
    match IdText(Field(fields, "id"))
    case None => fields
    case Some(t) =>
      match Get(idToKey, t)
      case None => fields
      case Some(key) => fields["event_key" := Str(key)]
  }

  /** Attaching twice is attaching once: the id the key depends on is left alone. */
  lemma AttachIdempotent(idToKey: Dict<string, string>, fields: map<string, Json>)
    ensures Attach(idToKey, Attach(idToKey, fields)) == Attach(idToKey, fields)
  {
    assert Field(Attach(idToKey, fields), "id") == Field(fields, "id");
  }

  /** Over a table with distinct ids, an event whose id is in the table gets that id's key; any other is left as it is. */
  lemma AttachByTable(table: Dict<string, int>, fields: map<string, Json>)
    requires DistinctIds(table)
    ensures forall i :: 0 <= i < |table| && IdText(Field(fields, "id")) == Some(ShowInt(table[i].1)) ==>
      Attach(IdToKey(table), fields) == fields["event_key" := Str(table[i].0)]
    ensures (forall i :: 0 <= i < |table| ==> IdText(Field(fields, "id")) != Some(ShowInt(table[i].1))) ==>
      Attach(IdToKey(table), fields) == fields
  {
    InvertTable(table);
  }

  /** An event whose id is a configured id gets that id's key; any other event is left as it is. */
  lemma AttachByConfiguredId(fields: map<string, Json>)
    ensures forall i :: 0 <= i < |PredefinedEventIds| && IdText(Field(fields, "id")) == Some(ShowInt(PredefinedEventIds[i].1)) ==>
      Attach(IdToKey(PredefinedEventIds), fields) == fields["event_key" := Str(PredefinedEventIds[i].0)]
    ensures (forall i :: 0 <= i < |PredefinedEventIds| ==> IdText(Field(fields, "id")) != Some(ShowInt(PredefinedEventIds[i].1))) ==>
      Attach(IdToKey(PredefinedEventIds), fields) == fields
  {
    ConfiguredIdsDistinct();
    AttachByTable(PredefinedEventIds, fields);
  }

  /** The body of the loop in `attach_event_keys`, updating one event dict in place. */
  method AttachOne(idToKey: Dict<string, string>, event: JsonObject)
    modifies event
    ensures event.fields == Attach(idToKey, old(event.fields))
  {
    var idText := IdText(Field(event.fields, "id"));
    if idText.Some? {
      var key := Get(idToKey, idText.value);
      if key.Some? {
        event.fields := event.fields["event_key" := Str(key.value)];
      }
    }
  }

  /** The loop of `attach_event_keys`, with `id_to_key` already built. */
  method AttachAll(idToKey: Dict<string, string>, events: seq<JsonObject>)
    modifies set e | e in events
    ensures forall e :: e in events ==> e.fields == Attach(idToKey, old(e.fields))
  {
    for i := 0 to |events|
      invariant forall e :: e in events[..i] ==> e.fields == Attach(idToKey, old(e.fields))
      invariant forall e :: e in events && e !in events[..i] ==> e.fields == old(e.fields)
    {
      var event := events[i];
      AttachOne(idToKey, event);
      AttachIdempotent(idToKey, old(event.fields));
      assert events[..i + 1] == events[..i] + [event];
    }
    assert events[..|events|] == events;
  }

  /**
   * `attach_event_keys(events)`: writes `event_key` into each event dict whose id is configured; the
   * list itself, its length and order, is returned unchanged. A dict listed twice is updated twice,
   * to the same effect.
   */
  method AttachEventKeys(events: seq<JsonObject>) returns (r: seq<JsonObject>)
    modifies set e | e in events
    ensures r == events
    ensures forall e :: e in events ==> e.fields == Attach(IdToKey(PredefinedEventIds), old(e.fields))
  {
    var idToKey := IdToKey(PredefinedEventIds);
    AttachAll(idToKey, events);
    return events;
  }
}
