/** The configured Polymarket events. */
module Config {
  import opened Dicts

  /** `PREDEFINED_EVENT_IDS`: each tracked event's key and its Polymarket event id, in table order. */
  const PredefinedEventIds: Dict<string, int> := [
    ("fed_decision_march", 67284),
    ("treasury_yield_high", 79104),
    ("treasury_yield_low", 79123),
    ("microstrategy_btc_sale", 16167),
    ("ai_frontiermath_90", 79080),
    ("inflation_2026", 80773),
    ("us_recession_2026", 48802),
    ("nvidia_february_2026", 186955),
    ("fed_rate_cuts_2026", 51456)
  ]

  /** `GROUP_EVENTS`: events read whole by the Fed signal rather than market by market. */
  const GroupEvents: set<string> := {"fed_rate_cuts_2026"}
}
