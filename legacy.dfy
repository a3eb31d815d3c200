/**
 * `Polymarket_Updated.py`, the earlier single-file pipeline: a seven-event table, an `extract_json`
 * that keeps only the text between the first two fences and repairs no commas, and a
 * `fetch_all_market_data` with neither a cache nor group events. Its price parsing and outcome
 * labels are those of `MarketData`.
 */
module Legacy {
  import opened Wrappers
  import opened Text
  import opened Json
  import opened Dicts
  import opened Config
  import opened MarketData
  import opened Engine

  /** Lines 25-35: `PREDEFINED_EVENT_IDS` of the earlier pipeline. */
  const LegacyEventIds: Dict<string, int> := [
    ("fed_decision_march", 67284),
    ("treasury_yield_high", 79104),
    ("treasury_yield_low", 79123),
    ("microstrategy_btc_sale", 16167),
    ("ai_frontiermath_90", 79080),
    ("inflation_2026", 80773),
    ("us_recession_2026", 48802)
  ]

  // ------------------------------------------------------------------ extract_json

  /** `("```" + rest).split("```", 2)[1]`: `rest` up to its first fence, or all of it when it has none. */
  function FencePiece(rest: string): (r: string)
    ensures r <= rest
    ensures |r| == |rest| || OccursAt(rest, "```", |r|)
    ensures forall j: nat :: j < |r| ==> !OccursAt(rest, "```", j)
  {
    match FindSub(rest, "```")
    case None => rest
    case Some(k) => rest[..k]
  }

  /** Lines 65-68: the stripped text, cut down to its first fenced piece when it starts with a fence. */
  function LegacyUnfenced(text: string): string {
    var t := Strip(text);
    if StartsWith(t, "```") then FencePiece(t[3..]) else t
  }

  /**
   * Lines 65-74 up to `json.loads`: the span from the first `{` to the last `}` of the unfenced text,
   * unrepaired, or the ValueError raised when it has none.
   */
  function LegacyCandidate(text: string): (r: Result<string, Exception>)
    ensures r.Err? <==> !exists i, j :: 0 <= i < j < |LegacyUnfenced(text)| && LegacyUnfenced(text)[i] == '{' && LegacyUnfenced(text)[j] == '}'
    ensures r.Err? ==> r.error == Exception(ValueError, "No JSON object found")
    ensures r.Ok? ==> exists i, j :: (0 <= i < j < |LegacyUnfenced(text)|
      && LegacyUnfenced(text)[i] == '{' && '{' !in LegacyUnfenced(text)[..i]
      && LegacyUnfenced(text)[j] == '}' && '}' !in LegacyUnfenced(text)[j + 1..]
      && r.value == LegacyUnfenced(text)[i..j + 1])
  {
    match BraceSpan(LegacyUnfenced(text))
    case None => Err(Exception(ValueError, "No JSON object found"))
    case Some(span) => Ok(span)
  }

  /** `extract_json(text)` of the earlier pipeline. */
  function LegacyExtractJson(text: string, decode: Decoder): Result<Json, Exception> {
    match LegacyCandidate(text)
    case Err(e) => Err(e)
    case Ok(c) =>
      match decode(c)
      case Err(message) => Err(Exception(JSONDecodeError, message))
      case Ok(v) => Ok(v)
  }

  /** A text that does not start with a fence reaches the span search the same way in both pipelines. */
  lemma UnfencedAlike(text: string)
    requires !StartsWith(Strip(text), "```")
    ensures LegacyUnfenced(text) == Unfenced(text) == Strip(text)
  {
  }

  /**
   * Without a leading fence the two extractions find the same span and fail alike; the current one
   * then repairs trailing commas, which the earlier one does not.
   */
  lemma CandidateWithoutFence(text: string)
    requires !StartsWith(Strip(text), "```")
    ensures LegacyCandidate(text).Err? <==> Candidate(text).Err?
    ensures LegacyCandidate(text).Err? ==> LegacyCandidate(text) == Candidate(text)
    ensures LegacyCandidate(text).Ok? ==> Candidate(text) == Ok(RepairCommas(LegacyCandidate(text).value))
  {
    UnfencedAlike(text);
  }

  /** The brace span of a comma-free text needs no comma repair. */
  lemma SpanWithoutCommas(t: string)
    requires ',' !in t
    ensures BraceSpan(t).Some? ==> RepairCommas(BraceSpan(t).value) == BraceSpan(t).value
  {
    if BraceSpan(t).Some? {
      var c := BraceSpan(t).value;
      var i, j :| 0 <= i < j < |t| && c == t[i..j + 1];
      NotInSlice(t, i, j + 1, ',');
      DropCommasWithoutCommas(c, '}');
      DropCommasWithoutCommas(c, ']');
    }
  }

  /** Without a leading fence, a comma-free reply yields the same candidate in both pipelines. */
  lemma CandidateWithoutFenceOrCommas(text: string)
    requires !StartsWith(Strip(text), "```")
    requires ',' !in text
    ensures LegacyCandidate(text) == Candidate(text)
  {
    var u := Strip(text);
    StripIsSlice(text);
    var a, b :| 0 <= a <= b <= |text| && u == text[a..b];
    NotInSlice(text, a, b, ',');
    UnfencedAlike(text);
    SpanWithoutCommas(u);
  }

  /** Without a leading fence, a comma-free reply is read identically by both pipelines. */
  lemma ExtractWithoutFenceOrCommas(text: string, decode: Decoder)
    requires !StartsWith(Strip(text), "```")
    requires ',' !in text
    ensures LegacyExtractJson(text, decode) == ExtractJson(text, decode)
  {
    CandidateWithoutFenceOrCommas(text);
  }

  /** A character absent from a string is absent from each of its slices. */
  lemma NotInSlice(s: string, a: nat, b: nat, x: char)
    requires a <= b <= |s| && x !in s
    ensures x !in s[a..b]
  {
    assert forall k :: 0 <= k < b - a ==> s[a..b][k] == s[a + k];
  }

  /** `strip()` keeps a slice of the text. */
  lemma StripIsSlice(text: string)
    ensures exists a, b :: 0 <= a <= b <= |text| && Strip(text) == text[a..b]
  {
    var s := TrimStart(text);
    var a := |text| - |s|;
    assert Strip(text) == s[..|Strip(text)|];
    assert Strip(text) == text[a..a + |Strip(text)|];
  }

  /** The piece before the first fence of a body without backquotes is that body. */
  lemma FencePieceOf(body: string, tail: string)
    requires '`' !in body
    ensures FencePiece(body + "```" + tail) == body
  {
    var rest := body + "```" + tail;
    assert OccursAt(rest, "```", |body|) by {
      assert rest[|body|..|body| + 3] == "```";
    }
    forall j: nat | j < |body|
      ensures !OccursAt(rest, "```", j)
    {
      assert rest[j] == body[j];
    }
    assert rest[..|body|] == body;
  }

  /** A fenced reply yields the text between its first two fences, whatever follows the second. */
  lemma FencedPiece(text: string, body: string, tail: string)
    requires '`' !in body
    requires Strip(text) == "```" + body + "```" + tail
    ensures LegacyUnfenced(text) == body
  {
    var t := Strip(text);
    assert t[..3] == "```";
    assert t[3..] == body + "```" + tail;
    FencePieceOf(body, tail);
  }

  /** A reply that opens a fence and never closes it yields everything after the opening fence. */
  lemma UnclosedFence(text: string, body: string)
    requires '`' !in body
    requires Strip(text) == "```" + body
    ensures LegacyUnfenced(text) == body
  {
    var t := Strip(text);
    assert t[..3] == "```";
    assert t[3..] == body;
    var r := FencePiece(body);
  }

  // ------------------------------------------------------------------ fetch_all_market_data

  /** Lines 152-210: every event of the seven-event table, market by market, with no cache. */
  method LegacyFetchAllMarketData(env: Env) returns (r: Result<seq<MarketRecord>, Exception>)
    ensures r == Records(LegacyEventIds, {}, env)
    ensures r.Ok? ==> forall record :: record in r.value ==> (record.eventKey, record.eventId) in LegacyEventIds
  {
    r := CollectRecords(LegacyEventIds, {}, env);
    RecordsFromTable(LegacyEventIds, {}, env);
  }

  /** The earlier table is the current one without its last two events. */
  lemma LegacyTableIsPrefix()
    ensures LegacyEventIds == PredefinedEventIds[..7]
    ensures forall i :: 0 <= i < |LegacyEventIds| ==> LegacyEventIds[i].0 !in GroupEvents
  {
  }

  /** A skip set that names none of the table's keys changes nothing. */
  lemma {:induction false} SkipIrrelevant(table: Dict<string, int>, skip: set<string>, env: Env)
    requires forall i :: 0 <= i < |table| ==> table[i].0 !in skip
    ensures Records(table, skip, env) == Records(table, {}, env)
  {
    if table != [] {
      SkipIrrelevant(table[..|table| - 1], skip, env);
    }
  }

  /** The entries for the first events of a table come first, and succeed when the whole table does. */
  lemma {:induction false} RecordsOfPrefix(table: Dict<string, int>, skip: set<string>, env: Env, n: nat)
    requires n <= |table|
    requires Records(table, skip, env).Ok?
    ensures Records(table[..n], skip, env).Ok?
    ensures Records(table[..n], skip, env).value <= Records(table, skip, env).value
    decreases |table| - n
  {
    if n == |table| {
      assert table[..n] == table;
    } else {
      var init := table[..|table| - 1];
      assert init[..n] == table[..n];
      RecordsOfPrefix(init, skip, env, n);
    }
  }

  /**
   * The earlier fetch against the current one, over the same events API: when it raises, the
   * current fetch raises the same exception; otherwise its entries begin the current fetch's entries
   * whenever that succeeds.
   */
  lemma LegacyAgainstCurrent(env: Env)
    ensures Records(LegacyEventIds, {}, env).Err? ==>
      Records(PredefinedEventIds, GroupEvents, env) == Records(LegacyEventIds, {}, env)
    ensures Records(PredefinedEventIds, GroupEvents, env).Ok? ==>
      Records(LegacyEventIds, {}, env).Ok? &&
      Records(LegacyEventIds, {}, env).value <= Records(PredefinedEventIds, GroupEvents, env).value
  {
    LegacyTableIsPrefix();
    SkipIrrelevant(LegacyEventIds, GroupEvents, env);
    if Records(LegacyEventIds, {}, env).Err? {
      RecordsErr(PredefinedEventIds, GroupEvents, env, 7);
    }
    if Records(PredefinedEventIds, GroupEvents, env).Ok? {
      RecordsOfPrefix(PredefinedEventIds, GroupEvents, env, 7);
    }
  }
}
