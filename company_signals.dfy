/**
 * `company_signals.py`: the event keys relevant to a company, the union of the event keys of the
 * signal groups the company is mapped to. The tables are constants; the lookup is written over any
 * pair of tables so that its properties are proved once.
 */
module CompanySignals {
  import opened Text

  /** A company's entry in `COMPANY_SIGNAL_MAP`. */
  datatype Groups = Groups(primary: seq<string>, macro: seq<string>)

  /** `SIGNAL_CATEGORIES`: the event keys of each signal group. */
  const SignalCategories: map<string, seq<string>> := map[
    "rates" := ["fed_decision_march", "treasury_yield_high", "treasury_yield_low"],
    "recession" := ["us_recession_2026"],
    "inflation" := ["inflation_2026"],
    "liquidity" := ["microstrategy_btc_sale"],
    "ai_progress" := ["ai_frontiermath_90"],
    "crypto" := ["microstrategy_btc_sale"],
    "nvidia_specific" := ["nvidia_february_2026"]
  ]

  /** `COMPANY_SIGNAL_MAP`: the signal groups of each company, keyed by upper-case ticker. */
  const CompanySignalMap: map<string, Groups> := map[
    "NVDA" := Groups(["nvidia_specific", "ai_progress"], ["rates", "liquidity", "recession"]),
    "MSFT" := Groups(["ai_progress"], ["rates", "recession"]),
    "GOOGL" := Groups(["ai_progress"], ["rates", "recession"]),
    "AAPL" := Groups([], ["rates", "inflation", "recession"]),
    "AMZN" := Groups(["consumer_spending"], ["rates", "inflation", "recession"]),
    "XOM" := Groups(["inflation"], ["rates", "recession"]),
    "JNJ" := Groups([], ["recession", "rates"])
  ]

  /** `categories.get(group, [])` */
  function Category(categories: map<string, seq<string>>, group: string): seq<string> {
    if group in categories then categories[group] else []
  }

  function Elements(xs: seq<string>): set<string> {
    set x | x in xs
  }

  /** The set `event_keys` after the nested loops of lines 75-78 over `groups`. */
  function KeysOf(categories: map<string, seq<string>>, groups: seq<string>): set<string> {
    if groups == [] then {}
    else KeysOf(categories, groups[..|groups| - 1]) + Elements(Category(categories, groups[|groups| - 1]))
  }

  /** Lines 64-78: the keys of the company's primary and macro groups; none for an unknown company. */
  function RelevantKeys(categories: map<string, seq<string>>, companies: map<string, Groups>, company: string): set<string> {
    var c := Upper(company);
    if c !in companies then {} else KeysOf(categories, companies[c].primary + companies[c].macro)
  }

  /** `list(event_keys)`: every element once, in an order the model does not fix. */
  method ListOf(s: set<string>) returns (r: seq<string>)
    ensures Elements(r) == s
    ensures forall i, j :: 0 <= i < j < |r| ==> r[i] != r[j]
  {
    r := [];
    var rest := s;
    while rest != {}
      invariant Elements(r) + rest == s
      invariant Elements(r) !! rest
      invariant forall i, j :: 0 <= i < j < |r| ==> r[i] != r[j]
      decreases |rest|
    {
      var x :| x in rest;
      r := r + [x];
      rest := rest - {x};
    }
  }

  /** `get_relevant_event_keys(company)` over the given tables. */
  method RelevantEventKeys(categories: map<string, seq<string>>, companies: map<string, Groups>, company: string)
    returns (keys: seq<string>)
    ensures Elements(keys) == RelevantKeys(categories, companies, company)
    ensures forall i, j :: 0 <= i < j < |keys| ==> keys[i] != keys[j]
  {
    var c := Upper(company);
    if c !in companies {
      return [];
    }
    var groups := companies[c].primary + companies[c].macro;
    var eventKeys: set<string> := {};
    for i := 0 to |groups|
      invariant eventKeys == KeysOf(categories, groups[..i])
    {
      assert groups[..i + 1][..i] == groups[..i];
      var members := Category(categories, groups[i]);
      for j := 0 to |members|
        invariant eventKeys == KeysOf(categories, groups[..i]) + Elements(members[..j])
      {
        assert Elements(members[..j + 1]) == Elements(members[..j]) + {members[j]};
        eventKeys := eventKeys + {members[j]};
      }
      assert members[..|members|] == members;
    }
    assert groups[..|groups|] == groups;
    keys := ListOf(eventKeys);
  }

  /** `get_relevant_event_keys(company)` */
  method GetRelevantEventKeys(company: string) returns (keys: seq<string>)
    ensures Elements(keys) == RelevantKeys(SignalCategories, CompanySignalMap, company)
    ensures forall i, j :: 0 <= i < j < |keys| ==> keys[i] != keys[j]
  {
    keys := RelevantEventKeys(SignalCategories, CompanySignalMap, company);
  }

  /** A key is collected exactly when some listed group that has a category holds it. */
  lemma {:induction false} KeysOfMembers(categories: map<string, seq<string>>, groups: seq<string>, k: string)
    ensures k in KeysOf(categories, groups) <==>
      exists i :: 0 <= i < |groups| && groups[i] in categories && k in categories[groups[i]]
  {
    if groups != [] {
      var init := groups[..|groups| - 1];
      KeysOfMembers(categories, init, k);
      if exists i :: 0 <= i < |init| && init[i] in categories && k in categories[init[i]] {
        var i :| 0 <= i < |init| && init[i] in categories && k in categories[init[i]];
        assert groups[i] == init[i];
      }
      if exists i :: 0 <= i < |groups| && groups[i] in categories && k in categories[groups[i]] {
        var i :| 0 <= i < |groups| && groups[i] in categories && k in categories[groups[i]];
        if i < |init| {
          assert init[i] == groups[i];
        }
      }
    }
  }

  /** The keys of two lists of groups are the union of the keys of each: primary and macro alike. */
  lemma {:induction false} KeysOfAppend(categories: map<string, seq<string>>, xs: seq<string>, ys: seq<string>)
    ensures KeysOf(categories, xs + ys) == KeysOf(categories, xs) + KeysOf(categories, ys)
    decreases |ys|
  {
    if ys == [] {
      assert xs + ys == xs;
    } else {
      KeysOfAppend(categories, xs, ys[..|ys| - 1]);
      assert (xs + ys)[..|xs + ys| - 1] == xs + ys[..|ys| - 1];
    }
  }

  /** A group that `categories` lacks contributes nothing and raises nothing, wherever it is listed. */
  lemma MissingGroupInert(categories: map<string, seq<string>>, xs: seq<string>, g: string, ys: seq<string>)
    requires g !in categories
    ensures KeysOf(categories, xs + [g] + ys) == KeysOf(categories, xs + ys)
  {
    KeysOfAppend(categories, xs + [g], ys);
    KeysOfAppend(categories, xs, ys);
    KeysOfAppend(categories, xs, [g]);
    assert KeysOf(categories, [g]) == KeysOf(categories, []) + Elements([]);
  }

  /** Lines 67-68: a company without an entry gets no keys. */
  lemma UnknownCompany(categories: map<string, seq<string>>, companies: map<string, Groups>, company: string)
    requires Upper(company) !in companies
    ensures RelevantKeys(categories, companies, company) == {}
  {
  }

  /** Line 65: the lookup ignores case. */
  lemma CaseInsensitive(categories: map<string, seq<string>>, companies: map<string, Groups>, company: string)
    ensures RelevantKeys(categories, companies, Lower(company)) == RelevantKeys(categories, companies, company)
  {
    UpperOfLower(company);
  }

  /** The keys of a company are the union of those of its primary groups and of its macro groups. */
  lemma PrimaryAndMacro(categories: map<string, seq<string>>, companies: map<string, Groups>, company: string)
    requires Upper(company) in companies
    ensures var g := companies[Upper(company)];
      RelevantKeys(categories, companies, company) == KeysOf(categories, g.primary) + KeysOf(categories, g.macro)
  {
    var g := companies[Upper(company)];
    KeysOfAppend(categories, g.primary, g.macro);
  }

  /** The keys of a single group. */
  lemma KeysOfOne(categories: map<string, seq<string>>, g: string)
    ensures KeysOf(categories, [g]) == Elements(Category(categories, g))
  {
    assert [g][..0] == [];
  }

  /** A key listed under one of a known company's groups is among its keys. */
  lemma KeyOfGroup(categories: map<string, seq<string>>, companies: map<string, Groups>, company: string, i: nat, k: string)
    requires Upper(company) in companies
    requires var groups := companies[Upper(company)].primary + companies[Upper(company)].macro;
      i < |groups| && groups[i] in categories && k in categories[groups[i]]
    ensures k in RelevantKeys(categories, companies, company)
  {
    var groups := companies[Upper(company)].primary + companies[Upper(company)].macro;
    KeysOfMembers(categories, groups, k);
  }

  /**
   * NVDA's keys include the NVIDIA price-target event, the AI-progress event and the
   * MicroStrategy event (listed once, as every key is, by `GetRelevantEventKeys`).
   */
  lemma NvdaKeys()
    ensures "nvidia_february_2026" in RelevantKeys(SignalCategories, CompanySignalMap, "NVDA")
    ensures "ai_frontiermath_90" in RelevantKeys(SignalCategories, CompanySignalMap, "NVDA")
    ensures "microstrategy_btc_sale" in RelevantKeys(SignalCategories, CompanySignalMap, "NVDA")
  {
    assert Upper("NVDA") == "NVDA";
    KeyOfGroup(SignalCategories, CompanySignalMap, "NVDA", 0, "nvidia_february_2026");
    KeyOfGroup(SignalCategories, CompanySignalMap, "NVDA", 1, "ai_frontiermath_90");
    KeyOfGroup(SignalCategories, CompanySignalMap, "NVDA", 3, "microstrategy_btc_sale");
  }

  /** AMZN's "consumer_spending" has no category: AMZN gets exactly the keys of its macro groups. */
  lemma AmznConsumerSpending()
    ensures "consumer_spending" !in SignalCategories
    ensures RelevantKeys(SignalCategories, CompanySignalMap, "AMZN") == KeysOf(SignalCategories, ["rates", "inflation", "recession"])
  {
    assert Upper("AMZN") == "AMZN";
    var g := CompanySignalMap["AMZN"];
    assert g.primary + g.macro == [] + ["consumer_spending"] + ["rates", "inflation", "recession"];
    MissingGroupInert(SignalCategories, [], "consumer_spending", ["rates", "inflation", "recession"]);
    assert [] + ["rates", "inflation", "recession"] == ["rates", "inflation", "recession"];
  }
}
