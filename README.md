# Polymarket macro-analysis backend: the deterministic core

This project models, in Dafny, the deterministic middle of the Python backend of a market-analysis
tool built on Polymarket prediction markets. The core sits between the HTTP fetches and the LLM call:

- **Outcome normalisation** (`market_data.py`). For every configured event except the group events,
  each market with `clobTokenIds` is priced. The tool tries each token's live midpoint. When fewer
  than two midpoints succeed, it falls back to the market's `outcomePrices`. The market is skipped on
  a missing fallback, a length mismatch or a zero total. Each price is divided by the total and
  paired with a label: the declared labels, `["No","Yes"]`, or `Outcome_i`.
  `attach_event_keys` inverts the event-id table and writes event keys into event dicts in place.
- **Signals** (`signals.py`). The NVIDIA price-target signal is the mean, the population standard
  deviation and `mean * (1 - std)` of the "Yes" probabilities of the markets that ask whether NVIDIA
  reaches a price of at least $200. The Fed rate-cut signal is the probability-weighted number of
  cuts, mapped to a bias by thresholds.
- **LLM-output post-processing** (`engine.py`). The steps are:
  - JSON extraction: fence stripping, the first-`{`-to-last-`}` span and trailing-comma repair;
  - the case-insensitive filter of `asset_outlook`;
  - the recession guardrail, which rewrites the report in place;
  - the event-key filter and the compression of markets for the prompt;
  - the error object returned instead of raising.
- **Company → event keys** (`company_signals.py`): the union of the event keys of a company's
  signal groups.
- **The earlier pipeline** (`Polymarket_Updated.py`): its `extract_json`, which keeps the text
  between the first two fences and repairs no commas, and its seven-event fetch without a cache or
  group events. Its `parse_outcome_prices` (lines 122-137) and `get_safe_outcome_labels` (lines
  139-149) are the same functions as in `market_data.py`, so `MarketData.ParseOutcomePrices` and
  `MarketData.SafeLabels` model both copies.

Modules:

| module | file | what |
|---|---|---|
| `Wrappers` | wrappers.dfy | `Option`, `Result` |
| `Text` | text.dfy | Python `str` operations: `lower`/`upper` (ASCII), `strip`, `split`, `find`, `in`, `int()`, leading digit and letter runs |
| `Json` | json.dfy | decoded JSON values, Python exceptions (kind and `str(e)`), `float`, `len`, iteration, truth, and the class `JsonObject` for dicts updated in place |
| `Dicts` | dicts.dfy | insertion-ordered Python dicts as sequences of pairs |
| `Numerics` | numerics.dfy | `sum`, `statistics.mean`, `statistics.pvariance` over `real`; `round` and the square root are parameters |
| `Config` | config.dfy | `PREDEFINED_EVENT_IDS` and `GROUP_EVENTS` |
| `MarketData` | market_data.dfy | `market_data.py` |
| `Engine` | engine.dfy | `engine.py` |
| `Signals` | signals.dfy | `signals.py` |
| `CompanySignals` | company_signals.dfy | `company_signals.py` |
| `Legacy` | legacy.dfy | `Polymarket_Updated.py` |

How the model is built:
- Every loop of the source is a `method` with a `for` or `while` loop. The method is proved equal to
  a recursive specification function over the prefix it has processed. The properties are lemmas
  about that function.
- Dicts that the source mutates in place are `JsonObject` objects whose methods carry `modifies`
  clauses.
- Exceptions are `Result` errors carrying the exception's class and message. A step that raises
  after it has written part of a dict keeps those writes, as Python does.

Where the code and the repository's own description differ, the model follows the code:
- The prompt (`engine.py:232` and `engine.py:241`) lets the model answer "Risk-Off" or
  "Transitional" for `market_regime.risk` when the recession probability is above 0.6. The guardrail
  (`engine.py:294`) always writes "Risk-Off", so it also overwrites a "Transitional" answer that the
  prompt allows.
- A market with at least two, but not all, midpoints priced, and a non-zero total, raises `KeyError`
  at `market_data.py:148`. It is not skipped. A zero total skips the market first
  (`market_data.py:141-143`).

## Model

| member | source | states |
|---|---|---|
| Text.FindSub | Polymarket_Updated.py:67 | the offset `str.split` cuts at: the first occurrence of the separator, or None when there is none |
| Text.TrimStart | engine.py:19 | `lstrip`: the result is a suffix of the input, does not start with whitespace, and only whitespace was dropped |
| Text.TrimEnd | engine.py:19 | `rstrip`: the result is a prefix of the input, does not end with whitespace, and only whitespace was dropped |
| Text.SplitOn | signals.py:31 | `split("$")`: at least one piece, no piece holds the separator, and there are two or more pieces exactly when the separator occurs |
| Text.JoinSplitOn | signals.py:31 | joining the pieces of `split` with the separator gives back the string |
| Text.Words | signals.py:31 | `split()`: every piece is a non-empty run without whitespace, and there are none exactly when the text is all whitespace; `Text.WordsLeadingSpace` and `Text.WordsCons` tie the pieces to the input |
| Text.TakeWord | signals.py:31 | the first whitespace-free run of a string is a prefix that ends at whitespace or at the end |
| Text.TakeWordOf | signals.py:31 | the leading whitespace-free run of a word followed by whitespace or nothing is that word |
| Text.WordsLeadingSpace | signals.py:31 | leading whitespace adds no piece: `split()` of whitespace followed by `s` is `split()` of `s` |
| Text.WordsCons | signals.py:31 | a word followed by whitespace or nothing is the first piece, and the rest of the text gives the others |
| Text.FirstDigitRun | signals.py:102 | `re.search(r"(\d+)")`: a non-empty run of digits, or None exactly when the text has no digit |
| Text.DigitRunParses | signals.py:104 | `int()` of a digit run is its numeral value |
| Text.ParseShowInt | market_data.py:168 | `int(str(i)) == i`, so the text of an id determines the id |
| Text.ParseNegatedDigits | signals.py:31 | `int()` of a minus sign followed by digits is the negated value of the digits |
| Text.ParseShowNat | market_data.py:168 | `int(str(n)) == n` for a natural number |
| Text.ParseShowNegative | market_data.py:168 | `int(str(i)) == i` for a negative integer |
| Text.StripNoSpace | engine.py:19 | a text without whitespace is its own `strip()` |
| Text.LowerIdempotent | engine.py:59-63 | lower-casing twice is lower-casing once |
| Text.ShowIntInjective | market_data.py:168 | distinct integer ids have distinct texts |
| Text.UpperOfLower | company_signals.py:65 | upper-casing ignores an earlier lower-casing |
| Text.ContainsIffOccurs | signals.py:29 | `t in s` holds exactly when `t` occurs at some offset of `s` |
| Text.ParseInt | signals.py:31 | `int(s)` in base 10 after stripping, with an optional sign and single underscores between digits; None where Python raises ValueError. Its values are stated by `Text.DigitRunParses`, `Text.ParseNegatedDigits`, `Text.ParseShowNat` and `Text.ParseShowNegative` |
| Text.Strip | engine.py:19 | `strip()`: `TrimEnd` of `TrimStart`, each stated by its own contract; `Text.StripNoSpace`, `Engine.StripFramed` and `Legacy.StripIsSlice` state its results |
| Text.Lower | engine.py:59-63 | `str.lower()` on ASCII letters, leaving every other character; `Text.LowerIdempotent` states that lowering twice changes nothing and `Text.UpperOfLower` that upper-casing after lowering equals upper-casing |
| Text.Upper | signals.py:11 | `str.upper()` on ASCII letters, leaving every other character; `Text.UpperOfLower` ties it to `Text.Lower` |
| Text.ShowInt | market_data.py:168 | `str(i)` of an integer: a minus sign for negatives, then the decimal digits; `Text.ParseShowInt` states that `int()` reads it back and `Text.ShowIntInjective` that distinct integers give distinct texts |
| Json.TypeName | signals.py:26 | `type(v).__name__` of each JSON value, as it appears in the messages of the TypeError and AttributeError the model raises; `Signals.TargetProbsRaises` states the message for a question that is not a string |
| Json.Truthy | signals.py:63 | `bool(v)`: None, False, zero, and empty strings, lists and dicts are false; `Signals.FedUnknownIff` and `Signals.MarketSkipped` state the skips it decides |
| Json.Field | signals.py:72-73 | `d.get(k)`: the value under `k`, or None when it is absent; `MarketData.AttachByTable` reads the event id through it |
| Json.ToFloat | market_data.py:82 | `float(v)`: booleans as 0 and 1, numbers as themselves, strings through the parser parameter with the ValueError it raises, and the TypeError for None, lists and dicts; `MarketData.Floats` and `MarketData.FirstRejectedShift` state the first rejection, `Signals.LabelWithNo` and `Signals.LabelWithDigits` the cuts it prices |
| Json.Len | signals.py:91 | `len(v)` of a list, string or dict, and the TypeError for other values; `Signals.MarketSkipped` states that markets whose lengths differ are skipped |
| Json.Iterate | signals.py:94 | the items `for` visits: a list's elements, a string's one-character strings, and the TypeError for values that are not iterable; a dict is outside the model |
| Dicts.IndexOf | market_data.py:148 | a key's position in a dict, None exactly when the key is absent, and unique when keys are distinct |
| Dicts.Zip | market_data.py:136-139 | `zip`: as long as the shorter list, pairing elements by position |
| Dicts.PutGet | market_data.py:123 | after `d[k] = v`, reading `k` gives `v` and every other key reads as before |
| Dicts.PutNew | market_data.py:123 | assigning a new key appends it at the end of the insertion order |
| Dicts.PutKeeps | market_data.py:123 | assignment keeps keys distinct and keeps an existing key in its place |
| Dicts.FromPairsKeys | market_data.py:136-139 | a dict built from pairs has distinct keys, exactly the keys of the pairs |
| Dicts.FromDistinctPairs | market_data.py:136-139 | pairs with distinct keys build a dict in their own order |
| Dicts.Get | market_data.py:148 | `d.get(k)`: the value paired with `k`, or None exactly when `k` is absent; `Dicts.PutGet` states how it reads after an assignment |
| Dicts.Put | market_data.py:123 | `d[k] = v`: overwrite in place or append at the end; `Dicts.PutGet`, `Dicts.PutNew` and `Dicts.PutKeeps` state the value read back, the insertion order and the distinct keys |
| Dicts.FromPairs | market_data.py:136-139 | `dict(pairs)`, later pairs overwriting earlier ones; `Dicts.FromPairsKeys` states its keys and `Dicts.FromDistinctPairs` that distinct keys keep their order and values |
| Numerics.SumAppend | market_data.py:141 | `sum` of a concatenation is the sum of the sums |
| Numerics.PVarianceZeroIffConstant | signals.py:47-48 | the population variance is non-negative and is zero exactly when all values are equal |
| Numerics.MeanOfConstant | signals.py:47 | the mean of equal values is that value |
| Numerics.ProbabilityMoments | signals.py:47-48 | for values in [0, 1], the mean is in [0, 1] and the variance is at most `mean * (1 - mean)`, hence at most 1/4 |
| Numerics.SquaredDeviationsExpand | signals.py:48 | the squared deviations expand to `Σx² - 2mΣx + n·m²` |
| Numerics.UnitSums | signals.py:47-48 | values in [0, 1] have a sum of squares at most their sum, and a sum at most their count |
| Numerics.Sum | market_data.py:141 | `sum(xs)` from left to right; `Numerics.SumAppend` states that it adds over concatenation |
| Numerics.Mean | signals.py:47 | `statistics.mean` on a non-empty list: the sum over the count; `Numerics.MeanOfConstant` and `Numerics.ProbabilityMoments` state its value and bounds |
| Numerics.PVariance | signals.py:48 | `statistics.pvariance` on a non-empty list: the mean squared deviation from the mean; `Numerics.PVarianceZeroIffConstant` and `Numerics.ProbabilityMoments` state its sign, its zeros and its bound |
| MarketData.Floats | market_data.py:82 | `[float(p) for p in ...]`: same length and order as the items, and the first item `float` rejects is the exception |
| MarketData.ParseOutcomePrices | market_data.py:67-82 | None exactly when the value, decoded if it is a string, is not a list; otherwise one number per item, in order, or the exception `float` raises on the first item it rejects |
| MarketData.SafeLabels | market_data.py:84-94 | exactly one label per token: the declared labels when their count matches, else `["No","Yes"]` for two tokens, else `Outcome_0`... |
| MarketData.SyntheticLabelsDistinct | market_data.py:90-94 | the labels the function makes up are distinct |
| MarketData.MidpointPricesKeys | market_data.py:117-123 | the midpoint dict holds exactly the tokens whose midpoint succeeded, each once, with that midpoint |
| MarketData.MidpointPricesGet | market_data.py:117-123 | reading a listed token gives its midpoint result |
| MarketData.MidpointPricesOrder | market_data.py:117-123 | when every token is priced, the dict's keys are the tokens in order |
| MarketData.CollectMidpoints | market_data.py:117-123 | the loop builds the midpoint dict of the specification |
| MarketData.MidpointPrices | market_data.py:117-123 | `raw_prices` after the midpoint loop; stated by `MarketData.MidpointPricesKeys`, `MarketData.MidpointPricesGet` and `MarketData.MidpointPricesOrder`, and computed by `MarketData.CollectMidpoints` |
| MarketData.Fallback | market_data.py:126-139 | the fallback to `outcomePrices`: the new `raw_prices`, None where the market is skipped, or the `float` exception; stated by `MarketData.FallbackWhenFewMidpoints`, `MarketData.SkipRules` and `MarketData.FallbackInTokenOrder` |
| MarketData.Normalise | market_data.py:111-150 | one market's outcomes, None where it is skipped, or its exception; stated by `MarketData.SkipRules`, `MarketData.PartialMidpointsRaise`, `MarketData.NormaliseParts` and `MarketData.OutcomesSumToOne`, and computed by `MarketData.NormaliseMarket` |
| MarketData.MarketsRecords | market_data.py:111-161 | the entries one event adds, in market order, or the first exception; stated by `MarketData.MarketsRecordsKey` and `MarketData.MarketsRecordsErr`, and computed by `MarketData.CollectMarkets` |
| MarketData.Records | market_data.py:100-165 | the results list over a table of events, or the first exception; stated by `MarketData.RecordsFromTable` and `MarketData.RecordsErr`, and computed by `MarketData.CollectRecords` |
| MarketData.OutcomeValues | market_data.py:147-150 | the outcomes comprehension raises KeyError exactly when some paired token has no price |
| MarketData.NormaliseMarket | market_data.py:111-150 | one market's normalisation, step by step, equals the specification `Normalise` |
| MarketData.FallbackWhenFewMidpoints | market_data.py:126-139 | the fallback is taken exactly when fewer than two distinct tokens got a midpoint, and it replaces the midpoint prices |
| MarketData.PartialMidpointsDiscarded | market_data.py:126-139 | when the fallback is taken, which midpoints succeeded does not matter |
| MarketData.SkipRules | market_data.py:126-143 | a market is skipped exactly when: the fallback value is falsy, not a list, empty or of the wrong length, or the total is zero |
| MarketData.PartialMidpointsRaise | market_data.py:119-126 | with two or more midpoints and a non-zero total, normalisation raises KeyError exactly when some token has no midpoint |
| MarketData.OutcomesOfTokenPrices | market_data.py:141-150 | with distinct labels and every token priced, the outcomes before rounding have the labels as keys and sum to 1 |
| MarketData.OutcomesSumToOne | market_data.py:111-150 | a normalised market's outcomes, before rounding, are keyed by the safe labels and sum to 1 |
| MarketData.NormaliseParts | market_data.py:141-150 | a normalised market has a non-zero total and its outcomes are each price divided by that total, paired with labels |
| MarketData.RawInTokenOrder | market_data.py:117-139 | the prices are keyed by the distinct tokens in token order |
| MarketData.FallbackInTokenOrder | market_data.py:136-139 | the fallback dict is keyed by the distinct tokens in token order |
| MarketData.OutcomeValuesExact | market_data.py:147-150 | each outcome is its token's price over the total, so the outcomes add up to the priced total over the total |
| MarketData.Record | market_data.py:152-161 | an entry is built exactly when the event has a title and the market has an id and a question (else KeyError), and it carries the event key, id and outcomes |
| MarketData.MarketsRecordsErr | market_data.py:111-161 | an exception raised for one market ends the event's loop |
| MarketData.RecordsErr | market_data.py:102-161 | an exception raised for one event ends the whole fetch |
| MarketData.CollectRecords | market_data.py:100-165 | the nested loops produce the specification `Records` |
| MarketData.CollectMarkets | market_data.py:111-161 | the loop over one event's markets produces `MarketsRecords`: entries in market order, skipped markets add none, and the first exception is the result |
| MarketData.RecordsFromTable | market_data.py:102-161 | every entry comes from a table event whose key is not skipped, with that event's key and id |
| MarketData.MarketsRecordsKey | market_data.py:152-161 | the entries of one event carry its key and id |
| MarketData.FetchAllMarketData | market_data.py:96-165 | the fetch over the configured events skips the group event: no entry has the key `fed_rate_cuts_2026` |
| MarketData.ConfiguredIdsDistinct | market_data.py:168 | the configured ids have distinct texts, so the inverted table loses nothing |
| MarketData.InvertTable | market_data.py:168 | the inverted table maps each id's text to its key, and no other text to anything |
| MarketData.IdText | market_data.py:171 | `str(event.get("id"))`: "None", "True"/"False", the decimal text of an integer, a string itself; None for the values whose text cannot equal a configured id. `MarketData.AttachByTable` states what it selects |
| MarketData.Attach | market_data.py:171-173 | the loop body on one event dict: sets `event_key` when the id text is in the inverted table; stated by `MarketData.AttachByTable` and `MarketData.AttachIdempotent`, and performed in place by `MarketData.AttachOne` |
| MarketData.AttachIdempotent | market_data.py:170-173 | attaching event keys twice is attaching them once |
| MarketData.AttachByTable | market_data.py:170-173 | an event whose id text matches a table id gets that key; any other event is unchanged |
| MarketData.AttachByConfiguredId | market_data.py:167-175 | the same, over the configured table |
| MarketData.AttachOne | market_data.py:171-173 | one event dict is updated in place |
| MarketData.AttachAll | market_data.py:170-173 | every event dict in the list is updated in place |
| MarketData.AttachEventKeys | market_data.py:167-175 | returns the same list, same length and order, and each dict is updated in place |
| MarketData.FirstRejectedShift | market_data.py:82 | an item `float` accepts, put in front of a list whose first rejected item raises `e`, leaves that item the first rejected one |
| MarketData.SyntheticLabel | market_data.py:94 | the label `Outcome_i`; `MarketData.SyntheticLabelsDistinct` states that the labels made for different positions differ |
| MarketData.Prices | market_data.py:117-139 | the midpoints when at least two tokens have one, else the fallback parsed from `outcomePrices`; `MarketData.FallbackWhenFewMidpoints`, `MarketData.RawInTokenOrder` and `MarketData.NormaliseParts` state which applies and the order of the prices |
| MarketData.AddMarket | market_data.py:112-161 | the records so far followed by the one record one market adds, unchanged when the market has no `clobTokenIds` or is skipped, or the exception it raises; `MarketData.CollectMarkets` performs it in a loop and `MarketData.MarketsRecordsErr` states that an exception ends the event |
| MarketData.IdPairs | market_data.py:168 | the pairs `(str(id), key)` of the configured events, in table order; `MarketData.InvertTable` states the lookup they give |
| MarketData.IdToKey | market_data.py:168 | `{str(v): k for k, v in PREDEFINED_EVENT_IDS.items()}`; `MarketData.InvertTable` states that each configured id's text maps to its key and that any other text is absent |
| Engine.BraceSpan | engine.py:27-31 | the span from the first `{` to the last `}`, or None exactly when no `{` precedes a `}` |
| Engine.Candidate | engine.py:18-35 | raises ValueError "No JSON object found" exactly when the unfenced text has no `{` before a `}`; otherwise the comma-repaired span from the first `{` to the last `}`, the repair being characterised position by position by `Engine.DropCommasPositions` |
| Engine.DropCommasKeepsSignificant | engine.py:34-35 | a comma repair removes only commas and whitespace |
| Engine.RepairKeepsSignificant | engine.py:34-35 | both repairs keep every other character in order |
| Engine.DropCommasBefore | engine.py:34-35 | `re.sub(r",\s*" + close, close, s)`; stated by `Engine.DropCommasPositions`, `Engine.DroppedChars`, `Engine.OnePass` and `Engine.DropCommasKeepsSignificant` |
| Engine.RepairCommas | engine.py:34-35 | the `}` repair followed by the `]` repair; stated by `Engine.RepairCommasPositions` and `Engine.RepairKeepsSignificant` |
| Engine.ExtractJson | engine.py:18-37 | the ValueError of `Engine.Candidate`, or `json.loads` of the candidate with its failure as JSONDecodeError; `Legacy.ExtractWithoutFenceOrCommas` relates it to the earlier version |
| Engine.DropCommasWithoutCommas | engine.py:34-35 | a span without commas is left unchanged |
| Engine.CloseFollowsTrim | engine.py:34-35 | `\s*` followed by the closing bracket matches after a comma exactly when the text after it, with leading whitespace trimmed, starts with that bracket |
| Engine.MatchDropsRun | engine.py:34-35 | a comma that matches at the front is removed together with all the whitespace up to the closing bracket, which stays |
| Engine.DropCommasPositions | engine.py:34-35 | one left-to-right `re.sub` pass removes exactly the marked positions: each comma that only whitespace separates from the next closing bracket, with that whitespace; every other character is kept, in order |
| Engine.DroppedChars | engine.py:34-35 | a comma is removed exactly when only whitespace separates it from the closing bracket; a character other than a comma or whitespace is never removed |
| Engine.RepairCommasPositions | engine.py:34-35 | the two repairs run one after the other, each removing exactly what its own mask marks on its own input |
| Engine.OnePassMask | engine.py:34 | in ",,}" only the second comma is marked for removal |
| Engine.OnePass | engine.py:34 | the substitution does not rescan its output: ",,}" becomes ",}", not "}" |
| Engine.DropOpeningFenceOf | engine.py:23 | the opening fence goes together with its language tag and line break |
| Engine.DropClosingFenceOf | engine.py:24 | the closing fence goes together with the line break before it |
| Engine.FencedReply | engine.py:19-24 | a reply fenced as "```lang\n...\n```" is reduced to its body |
| Engine.DropOpeningFence | engine.py:23 | `re.sub(r"^```[a-zA-Z]*\n?", "", t)`; `Engine.DropOpeningFenceOf` states its result |
| Engine.DropClosingFence | engine.py:24 | `re.sub(r"\n?```$", "", t)`, where `$` also matches before a final line break; `Engine.DropClosingFenceOf` states its result |
| Engine.Unfenced | engine.py:19-24 | the stripped reply, with its fences removed when it starts with one; stated by `Engine.FencedReply` and `Legacy.UnfencedAlike` |
| Engine.StripFramed | engine.py:19 | a text that starts and ends with non-whitespace is its own `strip()` |
| Engine.FilterMembers | engine.py:96-99 | the filtered list holds exactly the kept elements |
| Engine.FilterAppend | engine.py:96-99 | filtering keeps order: filtering a concatenation concatenates the filtered parts |
| Engine.CompressCommutes | engine.py:43-51 | compression keeps the event key, so it commutes with the event filter |
| Engine.Compress | engine.py:43-51 | one entry per market, in order, with its event key, question and outcomes; `Engine.CompressCommutes` states that it commutes with the event filter |
| Engine.SelectMarkets | engine.py:96-99 | the markets of the selected events, in order; stated by `Engine.FilterMembers` and `Engine.FilterAppend` |
| Engine.PromptMarkets | engine.py:86-103 | the compressed markets of the selected events; stated by `Engine.PromptMarketsSelect`, `Engine.PromptMarketsMembers` and `Engine.PromptMarketsAppend` |
| Engine.PromptMarketsSelect | engine.py:86-103 | the prompt receives exactly the compressed markets of the selected events, in their original order |
| Engine.PromptMarketsMembers | engine.py:96-103 | an entry reaches the prompt exactly when it is the compression of a market of a selected event |
| Engine.PromptMarketsAppend | engine.py:96-103 | the prompt entries of two consecutive parts of the market list arrive in that order |
| Engine.EnforceAssetKeys | engine.py:57-66 | overwrites `asset_outlook` in place with the filtered outlook; on the exception nothing is written |
| Engine.AssetKeysKeeps | engine.py:57-66 | an outlook key is kept exactly when its lower case equals some company's lower case; kept values and all other fields are unchanged; a missing outlook becomes `{}` |
| Engine.AssetKeysIdempotent | engine.py:57-66 | filtering twice is filtering once |
| Engine.AssetKeys | engine.py:57-66 | the report after `enforce_asset_keys`, or the AttributeError on a non-dict outlook; stated by `Engine.AssetKeysKeeps` and `Engine.AssetKeysIdempotent`, and performed in place by `Engine.EnforceAssetKeys` |
| Engine.CapAt60 | engine.py:291 | `min(score, 60)`: never above 60, the score itself when it is at most 60, and TypeError for a non-number |
| Engine.ApplySentimentRule | engine.py:285-291 | relabels and caps the `market_sentiment` dict in place; a missing sentiment is a detached `{}` whose writes are lost |
| Engine.EnforceRecessionGuardrails | engine.py:273-296 | the method's writes and exception are those of the specification `Guardrail` |
| Engine.GuardrailFrame | engine.py:273-296 | the guardrail adds no key and touches no field other than `market_sentiment` and `market_regime` |
| Engine.GuardrailInert | engine.py:282-284 | unless `recession_probability` is present and above 0.6, nothing changes; it raises only on a non-dict `crowd_signals` or a non-number probability |
| Engine.SentimentRuleOnDict | engine.py:285-291 | on a dict with a numeric or missing score: "Bullish" becomes "Neutral", other labels stay, a score is capped at 60, other keys stay |
| Engine.SentimentRuleIdempotent | engine.py:285-291 | applying the sentiment rule twice is applying it once |
| Engine.SentimentRule | engine.py:285-291 | the sentiment dict after lines 286-291 and the exception they raise; stated by `Engine.SentimentRuleOnDict` and `Engine.SentimentRuleIdempotent`, and performed in place by `Engine.ApplySentimentRule` |
| Engine.RegimeRule | engine.py:294 | `regime["risk"] = "Risk-Off"` on the regime dict, or the exception on a value that is not a dict; `Engine.GuardrailFires` states its effect |
| Engine.Guardrail | engine.py:273-296 | `enforce_recession_guardrails`, step by step; stated by `Engine.GuardrailFrame`, `Engine.GuardrailInert`, `Engine.GuardrailFires` and `Engine.GuardrailIdempotent`, and performed in place by `Engine.EnforceRecessionGuardrails` |
| Engine.GuardrailFires | engine.py:284-294 | when the guardrail fires, the sentiment is rewritten and `market_regime.risk` becomes "Risk-Off" if `market_regime` exists, else no regime appears |
| Engine.GuardrailIdempotent | engine.py:273-296 | a guarded report is left unchanged by a second guardrail |
| Engine.Head | engine.py:268 | `s[:1500]`: a prefix of `s` of length `min(len(s), 1500)`, so a text of more than 1500 characters gives exactly its first 1500 and a shorter one all of it |
| Engine.RunPostProcessing | engine.py:257-271 | the parse, filter and guard steps, or the error object, equal the specification `PostProcess` |
| Engine.PostProcessFailure | engine.py:264-269 | on any exception the result is the object `{error: "LLM_OUTPUT_PARSE_FAILED", message: str(e), raw_output}`; `raw_output` is exactly the reply's first 1500 characters when the reply is longer, the whole reply otherwise, and "None" when there is no reply |
| Engine.PostProcessNoObject | engine.py:27-29 | a reply without a `{` before a `}` yields the error object with message "No JSON object found" |
| Engine.FilterThenGuardrail | engine.py:259-262 | the guardrail keeps the filtered outlook, which still passes the filter unchanged |
| Engine.PostProcessStable | engine.py:257-262 | a successful report holds only allowed outlook keys, and both the filter and the guardrail leave it unchanged |
| Engine.Processed | engine.py:257-262 | the three steps of the `try` block, or the first exception; stated by `Engine.PostProcessStable` and `Engine.FilterThenGuardrail` |
| Engine.ErrorObject | engine.py:264-269 | the error object for an exception; `Engine.PostProcessFailure` states its fields |
| Engine.PostProcess | engine.py:257-271 | what `parsed_output` holds at the end; stated by `Engine.PostProcessFailure`, `Engine.PostProcessNoObject` and `Engine.PostProcessStable`, and computed by `Engine.RunPostProcessing` |
| Engine.Filter | engine.py:96-99 | `[x for x in xs if keep(x)]`; `Engine.FilterMembers` states that it holds exactly the kept elements and `Engine.FilterAppend` that filtering a concatenation concatenates the filtered parts, so the order is kept |
| Engine.Compressed | engine.py:45-49 | one market as the prompt shows it: its event key, question and outcomes; `Engine.PromptMarketsMembers` states that the prompt holds exactly the compressed markets of the selected events |
| Engine.Allowed | engine.py:59 | the lower-cased company names; `Engine.AssetKeysKeeps` states the outlook keys it lets through |
| Engine.FilterOutlook | engine.py:61-64 | the outlook entries whose lower-cased key is allowed, with their values; `Engine.AssetKeysKeeps` states that a key stays exactly when it matches a company without regard to case, and `Engine.AssetKeysIdempotent` that filtering twice changes nothing |
| Engine.FieldOrEmpty | engine.py:58 | `d.get(k, {})`: the value under `k`, or an empty dict; `Engine.AssetKeysKeeps` and `Engine.GuardrailInert` use it for the default dicts |
| Engine.GetOn | engine.py:282 | `v.get(k)`: a dict's field or None, and the AttributeError for a value that is not a dict; `Engine.GuardrailInert` states that this error ends the guardrail before any write |
| Engine.AboveThreshold | engine.py:284 | `v > 0.6` for a boolean, integer or float, and the TypeError Python raises for other values; `Engine.GuardrailInert` states that this error ends the guardrail before any write |
| Engine.Fires | engine.py:278-284 | the recession probability is read, present, and above 0.6; `Engine.GuardrailFires` and `Engine.GuardrailInert` state the report the guardrail leaves when it does and when it does not |
| Engine.SetOn | engine.py:294 | `target[k] = v`: a dict takes the entry; a list raises the TypeError for a string index, any other value the TypeError for item assignment; `Engine.GuardrailFires` states the regime it writes |
| Engine.WriteBack | engine.py:287-294 | a rule's dict written back into the report, where a default `{}` the report does not hold stays detached; `Engine.GuardrailFrame` states that no other key changes and `Engine.GuardrailFires` that an absent regime stays absent |
| Signals.YesProbabilities | signals.py:37 | one "Yes" probability per market, in order, 0 where "Yes" is missing |
| Signals.ComputeCompanySignal | signals.py:5-55 | the loop and the statistics equal the specification `CompanySignalOf` |
| Signals.TargetProbsErrorPersists | signals.py:24-37 | an exception in the loop ends it |
| Signals.ContributionOfString | signals.py:26-37 | a market with a string question adds its "Yes" probability exactly when it contributes, and is skipped otherwise |
| Signals.TargetProbsOfContributing | signals.py:24-37 | the collected probabilities are the "Yes" probabilities of exactly the contributing markets, in order |
| Signals.TargetProbsRaises | signals.py:26 | the first market whose question is not a string raises AttributeError |
| Signals.SplitAtFirst | signals.py:31 | the piece after the first `$` is the text up to the next `$` |
| Signals.FirstWordOfPiece | signals.py:31 | the first piece of `split()` of the text before the next `$` is the word that follows the leading whitespace |
| Signals.TargetPriceAfterFirstDollar | signals.py:31 | the target is `int()` of the first whitespace-delimited word after the first `$`, with any whitespace between the `$` and the word ("$ 250"), whatever follows the word |
| Signals.TargetPriceDigits | signals.py:31 | a run of digits after the first `$` gives its numeral value |
| Signals.TargetPrice | signals.py:31-33 | `int(question.split("$")[1].split()[0])`, None where it raises and the market is skipped; `Signals.TargetPriceAfterFirstDollar` and `Signals.TargetPriceDigits` state its value |
| Signals.Contribution | signals.py:26-37 | one market: its "Yes" probability, a skip, or the AttributeError of `.lower()`; stated by `Signals.ContributionOfString` and `Signals.TargetProbsRaises` |
| Signals.TargetProbs | signals.py:24-37 | `probs` after the loop, or the exception that ended it; stated by `Signals.TargetProbsOfContributing`, `Signals.TargetProbsRaises`, `Signals.TargetProbsFrom` and `Signals.TargetProbsInUnit` |
| Signals.CompanySignalOf | signals.py:5-55 | the company signal; stated by `Signals.OtherCompany`, `Signals.NullIffFewTargets`, `Signals.EqualProbabilities` and `Signals.SignalBounds`, and computed by `Signals.ComputeCompanySignal` |
| Signals.OtherCompany | signals.py:11-20 | a company other than NVDA or NVIDIA, after upper-casing, gets all-null fields and 0 targets |
| Signals.NullIffFewTargets | signals.py:39-55 | `num_targets` is the number of contributing markets, and each statistic is null exactly when it is below 2 |
| Signals.EqualProbabilities | signals.py:47-54 | when all probabilities are equal, the dispersion is 0 and the confidence equals the average |
| Signals.TargetProbsFrom | signals.py:37 | every collected probability is some market's "Yes" probability |
| Signals.YesProbabilityInUnit | signals.py:37 | a "Yes" probability of outcomes in [0, 1] is in [0, 1] |
| Signals.TargetProbsInUnit | signals.py:24-37 | the collected probabilities are in [0, 1] when the outcomes are |
| Signals.StatisticsInUnit | signals.py:47-51 | for probabilities, the mean is in [0, 1], the standard deviation in [0, 1/2], and `mean * (1 - std)` is between 0 and the mean |
| Signals.SignalBounds | signals.py:47-54 | the same bounds on the unrounded signal |
| Signals.SqrtZero | signals.py:48 | the standard deviation of a zero variance is 0 |
| Signals.SqrtQuarter | signals.py:48 | a variance of at most 1/4 has a standard deviation of at most 1/2 |
| Signals.EventCutsErrorPersists | signals.py:71-104 | an exception in one market ends the loop |
| Signals.PairCutsErrorPersists | signals.py:94-104 | an exception in one outcome ends the market |
| Signals.ComputeFedRateCutSignal | signals.py:58-121 | the loops and the thresholds equal the specification `FedSignalOf` |
| Signals.MarketStep | signals.py:72-104 | the per-market loop body equals `MarketCuts` |
| Signals.SumWeighted | signals.py:112 | the loop computes the weighted sum Σ n·p |
| Signals.FedUnknownWithoutMarkets | signals.py:63-67 | a falsy event, or one without "markets", gives null cuts and "Unknown" |
| Signals.FedUnknownIff | signals.py:63-110 | the bias is "Unknown" exactly when the cuts are null: the event is falsy, lacks "markets", or no label yields a cut count |
| Signals.BiasUnrounded | signals.py:112-120 | the bias depends only on the unrounded `expected`; only the reported `expected_cuts` is rounded |
| Signals.BiasThresholds | signals.py:116-120 | "Aggressive" iff expected ≥ 3, "Moderate" iff 1 ≤ expected < 3, "Restrictive" iff expected < 1 |
| Signals.BiasMonotone | signals.py:116-120 | a larger expectation never gives a weaker bias |
| Signals.CutProbabilities | signals.py:112 | the probabilities of the cuts, in order |
| Signals.BetweenStep | signals.py:112 | adding one cut count within bounds keeps the weighted sum between the bounds times the total probability |
| Signals.ExpectedBetween | signals.py:112 | the weighted sum lies between the smallest and the largest count times the total probability |
| Signals.ExpectedWithinCounts | signals.py:112 | when the probabilities sum to 1, `expected` lies between the smallest and the largest cut count |
| Signals.LabelWithNo | signals.py:95-99 | a label containing "no" after lower-casing counts 0 cuts, even when it has digits |
| Signals.LeadingDigitsOf | signals.py:102 | a run of digits followed by a non-digit is the leading digit run |
| Signals.FirstDigitRunOf | signals.py:102 | the first maximal digit run is what `re.search(r"(\d+)")` finds |
| Signals.LabelWithDigits | signals.py:100-104 | any other label counts its first maximal digit run |
| Signals.LabelSkipped | signals.py:100-104 | a label with neither "no" nor a digit is skipped |
| Signals.MarketSkipped | signals.py:75-92 | a market with a falsy label or price list, or with counts that differ, adds no cuts |
| Signals.EventCutsSnoc | signals.py:71-104 | the cuts of one more market are appended to those so far |
| Signals.SkippedMarketInert | signals.py:71-104 | a skipped market changes nothing wherever it sits among the markets |
| Signals.LabelCut | signals.py:95-104 | one outcome: 0 cuts for a label with "no", its first digit run otherwise, a skip for neither; stated by `Signals.LabelWithNo`, `Signals.LabelWithDigits` and `Signals.LabelSkipped` |
| Signals.PairCuts | signals.py:94-104 | the cuts of one market's zipped labels and prices; `Signals.PairCutsErrorPersists` states that an exception ends it |
| Signals.MarketCuts | signals.py:72-104 | the cuts one market appends, none when it is skipped; stated by `Signals.MarketSkipped` and `Signals.MarketStep` |
| Signals.EventCuts | signals.py:71-104 | `cuts` after the loop over the markets; stated by `Signals.EventCutsSnoc`, `Signals.SkippedMarketInert` and `Signals.EventCutsErrorPersists` |
| Signals.MarketList | signals.py:71 | the items of `event.get("markets", [])`: a list's items, none for an empty dict, and an AttributeError at the first `market.get` for a non-empty dict; `Signals.FedUnknownIff` uses it |
| Signals.FedSignalOf | signals.py:58-121 | the Fed signal; stated by `Signals.FedUnknownIff`, `Signals.BiasThresholds`, `Signals.BiasUnrounded` and `Signals.ExpectedWithinCounts`, and computed by `Signals.ComputeFedRateCutSignal` |
| Signals.IsNvidia | signals.py:11-14 | the upper-cased company is "NVDA" or "NVIDIA"; `Signals.OtherCompany` states that any other company gets the empty signal with no targets |
| Signals.Contributes | signals.py:29-36 | the lower-cased question holds "nvidia" and "reach $" and its price after the first `$` parses to at least 200; `Signals.ContributionOfString` and `Signals.TargetProbsOfContributing` state that exactly such markets contribute, in order |
| Signals.YesProbability | signals.py:37 | `outcomes.get("Yes", 0)`; `Signals.YesProbabilityInUnit` states that it is in [0, 1] when every outcome is |
| Signals.Confidence | signals.py:51 | the average discounted by the dispersion, before rounding; `Signals.SignalBounds` states that it lies between 0 and the average |
| Signals.HasKey | signals.py:63 | `key in v`: dict keys, list elements, substrings of a string, and the TypeError for other values; `Signals.FedUnknownIff` and `Signals.FedUnknownWithoutMarkets` state that an event without markets gets the Unknown signal |
| Signals.Expected | signals.py:112 | `sum(n * p for n, p in cuts)`; `Signals.SumWeighted` computes it in a loop, and `Signals.ExpectedBetween` and `Signals.ExpectedWithinCounts` bound it by the smallest and largest count when the probabilities sum to one |
| Signals.BiasOf | signals.py:116-120 | the cut bias of an unrounded expectation; `Signals.BiasThresholds` states the three ranges as if-and-only-ifs and `Signals.BiasMonotone` that the bias never falls as the expectation grows |
| CompanySignals.ListOf | company_signals.py:80 | `list(event_keys)`: each element of the set exactly once |
| CompanySignals.RelevantEventKeys | company_signals.py:64-80 | the nested loops collect the union of the groups' keys, without duplicates |
| CompanySignals.GetRelevantEventKeys | company_signals.py:1-80 | the same over the two constant tables |
| CompanySignals.KeysOfMembers | company_signals.py:75-78 | a key is collected exactly when some listed group that has a category holds it |
| CompanySignals.KeysOfAppend | company_signals.py:70-78 | the keys of primary plus macro groups are the union of the keys of each |
| CompanySignals.MissingGroupInert | company_signals.py:77 | a group without a category contributes nothing and raises nothing |
| CompanySignals.UnknownCompany | company_signals.py:67-68 | an unknown company gets no keys |
| CompanySignals.CaseInsensitive | company_signals.py:65 | the lookup ignores case |
| CompanySignals.PrimaryAndMacro | company_signals.py:70-78 | the result is exactly the union of the primary and the macro groups' keys |
| CompanySignals.KeysOfOne | company_signals.py:76-78 | the keys of one group are its category's entries |
| CompanySignals.KeysOf | company_signals.py:75-78 | `event_keys` after the nested loops; stated by `CompanySignals.KeysOfMembers`, `CompanySignals.KeysOfAppend` and `CompanySignals.MissingGroupInert` |
| CompanySignals.RelevantKeys | company_signals.py:64-78 | the keys of a company's primary and macro groups; stated by `CompanySignals.UnknownCompany`, `CompanySignals.CaseInsensitive` and `CompanySignals.PrimaryAndMacro` |
| CompanySignals.KeyOfGroup | company_signals.py:70-78 | a key listed under one of a known company's groups is among its keys |
| CompanySignals.NvdaKeys | company_signals.py:13-30 | NVDA's keys include `nvidia_february_2026`, `ai_frontiermath_90` and `microstrategy_btc_sale` |
| CompanySignals.AmznConsumerSpending | company_signals.py:48-51 | "consumer_spending" has no category, so AMZN gets exactly the keys of its macro groups |
| Legacy.FencePiece | Polymarket_Updated.py:67 | `split("```", 2)[1]`: the text up to the first fence, or all of it when there is none |
| Legacy.LegacyCandidate | Polymarket_Updated.py:63-74 | raises ValueError exactly when the unfenced text has no `{` before a `}`; otherwise the unrepaired span from the first `{` to the last `}` |
| Legacy.UnfencedAlike | Polymarket_Updated.py:65-67 | a reply that does not start with a fence reaches the span search stripped, in both pipelines |
| Legacy.CandidateWithoutFence | Polymarket_Updated.py:70-74 | without a fence both pipelines find the same span and fail alike; only the current one repairs commas |
| Legacy.SpanWithoutCommas | Polymarket_Updated.py:70-74 | the span of a comma-free text needs no repair |
| Legacy.CandidateWithoutFenceOrCommas | Polymarket_Updated.py:63-74 | without a fence or commas, the two pipelines pass the same candidate to the decoder |
| Legacy.ExtractWithoutFenceOrCommas | Polymarket_Updated.py:63-74 | without a fence or commas, the two `extract_json` versions agree |
| Legacy.StripIsSlice | Polymarket_Updated.py:65 | `strip()` keeps a slice of the text |
| Legacy.FencePieceOf | Polymarket_Updated.py:67 | the piece before the first fence of a body without backquotes is that body |
| Legacy.FencedPiece | Polymarket_Updated.py:65-67 | a fenced reply yields the text between the first two fences, whatever follows |
| Legacy.UnclosedFence | Polymarket_Updated.py:65-67 | an unclosed fence yields everything after it |
| Legacy.LegacyUnfenced | Polymarket_Updated.py:65-67 | the stripped reply cut down to its first fenced piece; stated by `Legacy.FencedPiece`, `Legacy.UnclosedFence` and `Legacy.UnfencedAlike` |
| Legacy.LegacyExtractJson | Polymarket_Updated.py:63-74 | the earlier `extract_json`; `Legacy.ExtractWithoutFenceOrCommas` relates it to the current one |
| Legacy.LegacyFetchAllMarketData | Polymarket_Updated.py:151-212 | the fetch over the seven-event table, with no group skip and no cache; every entry comes from that table |
| Legacy.LegacyTableIsPrefix | Polymarket_Updated.py:25-35 | the earlier table is the first seven entries of the current one, none of them a group event |
| Legacy.SkipIrrelevant | Polymarket_Updated.py:154-158 | a skip set that names none of the table's keys changes nothing |
| Legacy.RecordsOfPrefix | Polymarket_Updated.py:154-210 | when a fetch succeeds, the fetch of the table's first events succeeds and its entries come first |
| Legacy.LegacyAgainstCurrent | Polymarket_Updated.py:151-212 | over the same API answers, the earlier fetch's exception is the current fetch's, and its entries begin the current fetch's entries |

## Left out

- HTTP, retries and the session (`get_event_by_id`, `fetch_token_midpoint`, `fetch_group_event`): their results are parameters. A missing event is `None`, and a midpoint is `Option<real>`.
- The cache file and `time.sleep` in `fetch_all_market_data`: these are file I/O and pacing. `MarketData.FetchAllMarketData` is the path without a cache.
- `json.loads` and `float()` on a string are parameters (`Decoder`, `FloatParser`). `clobTokenIds` is taken as already decoded into a list of strings. In the source, line 115 decodes it with `json.loads`; a value that does not decode raises JSONDecodeError there, nothing catches it, and it ends the whole fetch. That failure, and a value that decodes to something other than a list, are not modelled. The declared `outcomes` are never decoded by `get_safe_outcome_labels`: a JSON-string value is not a list, so it falls through to the made-up labels, which the model expresses as `declaredLabels == None`.
- MarketData.SafeLabels: a declared `outcomes` list of the right length whose items are not all strings is returned as the labels by the source (lines 87-88). The model keeps only lists of strings in `declaredLabels` and treats any other list as absent, because the outcome dict it builds is keyed by strings; such a market gets `["No","Yes"]` or `Outcome_i` labels here.
- Floating point: prices and statistics are `real`. `round` and the square root inside `statistics.pstdev` are parameters, and properties about values are stated before rounding (`Exact`).
- Python strings: case mapping is ASCII, whitespace is the Latin-1 set, and `\d` matches ASCII digits only. Python's `int()` and `\d` also accept non-ASCII Unicode decimal digits (Arabic-Indic, fullwidth and others); `Text.ParseInt` and `Text.FirstDigitRun` reject them.
- Iterating a JSON object: Python yields its keys in document order, which a `map` does not keep. The Fed signal's loops over the label and price values report a TypeError for a dict instead.
- The LLM call, the prompt text and the rules that only the prompt states (a score cap, the liquidity rule, the enum sets): no code enforces them.
- The dead `AUTO_EXPAND` branch of `run_engine`, the group-event fetch, and the environment loading of the configuration.
- The app, the schemas and the front end.
- `Engine.RunPostProcessing`: a reply that is neither a string nor `None` is not modelled. The reply is an `Option<string>`.
- `MarketData.IdText`: `str()` of a float id is not modelled, because no configured id can equal it.
- `CompanySignals.ListOf`: the order of `list(set)` is Python's hash order, which the model does not fix. Only the elements and their uniqueness are stated.
- `Engine.EnforceRecessionGuardrails`: the nested dicts are values inside the report. Aliasing between the report's nested dicts and other references is not modelled, since `json.loads` never creates any.
