/**
 * The deterministic steps of `engine.py` around the language-model call: pulling a JSON object out
 * of the model's reply, selecting and compressing the markets shown to it, and the checks applied
 * to the decoded report (`asset_outlook` filtering and the recession guardrail), with the error
 * object that replaces a report whose processing raised.
 */
module Engine {
  import opened Wrappers
  import opened Text
  import opened Json
  import opened Dicts
  import opened MarketData

  // ------------------------------------------------------------------ extract_json

  /** `re.sub(r"^```[a-zA-Z]*\n?", "", t)` on a text that starts with a fence. */
  function DropOpeningFence(t: string): string
    requires StartsWith(t, "```")
  {
    var rest := t[3..];
    var after := rest[|LeadingLetters(rest)|..];
    if after != [] && after[0] == '\n' then after[1..] else after
  }

  /** Drops one trailing line break, when there is one. */
  function DropNewline(u: string): string {
    if u != [] && u[|u| - 1] == '\n' then u[..|u| - 1] else u
  }

  /**
   * `re.sub(r"\n?```$", "", t)`: `$` matches at the end and just before a final line break, so a
   * fence that ends the text, or precedes its last line break, goes with the line break before it.
   */
  function DropClosingFence(t: string): string {
    if EndsWith(t, "```") then DropNewline(t[..|t| - 3])
    else if EndsWith(t, "```\n") then DropNewline(t[..|t| - 4]) + "\n"
    else t
  }

  /** Lines 19-24: the stripped text, with its fences removed when it starts with one. */
  function Unfenced(text: string): string {
    var t := Strip(text);
    if StartsWith(t, "```") then DropClosingFence(DropOpeningFence(t)) else t
  }

  /** `re.search(r"\{[\s\S]*\}", t).group(0)`: from the first `{` to the last `}`, when that `}` comes later. */
  function BraceSpan(t: string): (r: Option<string>)
    ensures r.None? <==> !exists i, j :: 0 <= i < j < |t| && t[i] == '{' && t[j] == '}'
    ensures r.Some? ==> exists i, j :: (0 <= i < j < |t| && r.value == t[i..j + 1]
      && t[i] == '{' && '{' !in t[..i] && t[j] == '}' && '}' !in t[j + 1..])
  {
    match FindFirst(t, '{')
    case None => None
    case Some(i) =>
      match FindLast(t, '}')
      case None => None
      case Some(j) =>
        if i < j then Some(t[i..j + 1])
        else
          assert forall i' :: 0 <= i' < i ==> t[..i][i'] == t[i'];
          assert forall j' :: j < j' < |t| ==> t[j + 1..][j' - j - 1] == t[j'];
          None
  }

  /**
   * `re.sub(r",\s*" + close, close, s)`: scanning left to right, each comma that only whitespace
   * separates from a `close` is removed together with that whitespace.
   */
  function DropCommasBefore(s: string, close: char): string
    decreases |s|
  {
    if s == [] then []
    else
      var rest := TrimStart(s[1..]);
      if s[0] == ',' && rest != [] && rest[0] == close then [close] + DropCommasBefore(rest[1..], close)
      else [s[0]] + DropCommasBefore(s[1..], close)
  }

  /** Lines 34-35: the two trailing-comma repairs. */
  function RepairCommas(c: string): string {
    DropCommasBefore(DropCommasBefore(c, '}'), ']')
  }

  /**
   * Lines 19-35: the text `json.loads` is given, or the ValueError raised when there is no object
   * span. It raises exactly when the unfenced text has no `{` followed later by a `}`; otherwise it is
   * the repaired span from the first `{` to the last `}`.
   */
  function Candidate(text: string): (r: Result<string, Exception>)
    ensures r.Err? <==> !exists i, j :: 0 <= i < j < |Unfenced(text)| && Unfenced(text)[i] == '{' && Unfenced(text)[j] == '}'
    ensures r.Err? ==> r.error == Exception(ValueError, "No JSON object found")
    ensures r.Ok? ==> exists i, j :: (0 <= i < j < |Unfenced(text)|
      && Unfenced(text)[i] == '{' && '{' !in Unfenced(text)[..i]
      && Unfenced(text)[j] == '}' && '}' !in Unfenced(text)[j + 1..]
      && r.value == RepairCommas(Unfenced(text)[i..j + 1]))
  {
    match BraceSpan(Unfenced(text))
    case None => Err(Exception(ValueError, "No JSON object found"))
    case Some(span) => Ok(RepairCommas(span))
  }

  /** `extract_json(text)` */
  function ExtractJson(text: string, decode: Decoder): Result<Json, Exception> {
    match Candidate(text)
    case Err(e) => Err(e)
    case Ok(c) =>
      match decode(c)
      case Err(message) => Err(Exception(JSONDecodeError, message))
      case Ok(v) => Ok(v)
  }

  /** The characters a comma repair never touches: everything but commas and whitespace. */
  function Significant(s: string): string
    decreases |s|
  {
    if s == [] then []
    else (if s[0] == ',' || IsSpace(s[0]) then [] else [s[0]]) + Significant(s[1..])
  }

  /** Leading whitespace carries nothing significant. */
  lemma {:induction false} SignificantOfTrimStart(s: string)
    ensures Significant(TrimStart(s)) == Significant(s)
    decreases |s|
  {
    if |s| > 0 && IsSpace(s[0]) {
      SignificantOfTrimStart(s[1..]);
    }
  }

  /** The significant characters of a string with one more character in front. */
  lemma SignificantCons(c: char, s: string)
    ensures Significant([c] + s) == (if c == ',' || IsSpace(c) then [] else [c]) + Significant(s)
  {
    assert ([c] + s)[1..] == s;
  }

  /** A comma repair only removes commas and whitespace: every other character is kept, in order. */
  lemma {:induction false} DropCommasKeepsSignificant(s: string, close: char)
    requires close != ',' && !IsSpace(close)
    ensures Significant(DropCommasBefore(s, close)) == Significant(s)
    decreases |s|
  {
    if s != [] {
      var rest := TrimStart(s[1..]);
      if s[0] == ',' && rest != [] && rest[0] == close {
        DropCommasKeepsSignificant(rest[1..], close);
        SignificantOfTrimStart(s[1..]);
        SignificantCons(close, rest[1..]);
        assert rest == [close] + rest[1..];
        SignificantCons(close, DropCommasBefore(rest[1..], close));
      } else {
        DropCommasKeepsSignificant(s[1..], close);
        SignificantCons(s[0], DropCommasBefore(s[1..], close));
      }
    }
  }

  /** A text without commas is left as it is by a comma repair. */
  lemma {:induction false} DropCommasWithoutCommas(s: string, close: char)
    requires ',' !in s
    ensures DropCommasBefore(s, close) == s
    decreases |s|
  {
    if s != [] {
      assert s[0] != ',';
      DropCommasWithoutCommas(s[1..], close);
      assert s == [s[0]] + s[1..];
    }
  }

  /** `rest` is some whitespace followed by `close`: what `\s*` + close needs after the comma. */
  predicate CloseFollows(rest: string, close: char)
    decreases |rest|
  {
    rest != [] && if IsSpace(rest[0]) then CloseFollows(rest[1..], close) else rest[0] == close
  }

  /** The same, read through `TrimStart`. */
  lemma {:induction false} CloseFollowsTrim(rest: string, close: char)
    ensures CloseFollows(rest, close) <==> TrimStart(rest) != [] && TrimStart(rest)[0] == close
    decreases |rest|
  {
    if rest != [] && IsSpace(rest[0]) {
      CloseFollowsTrim(rest[1..], close);
    }
  }

  /** A comma at `c` that only whitespace separates from a `close`: where `,\s*` + close matches. */
  predicate CommaBeforeClose(s: string, close: char, c: nat)
    requires c < |s|
  {
    s[c] == ',' && CloseFollows(s[c + 1..], close)
  }

  /** The position of the last character at or before `k` that is not whitespace, or -1. */
  function LastNonSpace(s: string, k: nat): (r: int)
    requires k < |s|
    ensures -1 <= r <= k
    ensures r >= 0 ==> !IsSpace(s[r])
    ensures forall m :: r < m <= k ==> IsSpace(s[m])
    decreases k
  {
    if !IsSpace(s[k]) then k else if k == 0 then -1 else LastNonSpace(s, k - 1)
  }

  /**
   * The substitution removes the character at `k`: it is a comma before a `close`, or whitespace
   * between such a comma and its `close`.
   */
  predicate Dropped(s: string, close: char, k: nat)
    requires k < |s|
  {
    LastNonSpace(s, k) >= 0 && CommaBeforeClose(s, close, LastNonSpace(s, k))
  }

  /** Which characters of `s` the substitution removes, position by position. */
  function DropMask(s: string, close: char): (r: seq<bool>)
    ensures |r| == |s| && forall k :: 0 <= k < |s| ==> r[k] == Dropped(s, close, k)
  {
    seq(|s|, k requires 0 <= k < |s| => Dropped(s, close, k))
  }

  /** The characters of `s` whose mask entry is false, in order. */
  function KeepUnmasked(s: string, mask: seq<bool>): string
    requires |mask| == |s|
    decreases |s|
  {
    if s == [] then [] else (if mask[0] then [] else [s[0]]) + KeepUnmasked(s[1..], mask[1..])
  }

  /** Masked characters at the front contribute nothing. */
  lemma {:induction false} KeepMaskedFront(s: string, mask: seq<bool>, j: nat)
    requires |mask| == |s| && j <= |s|
    requires forall k :: 0 <= k < j ==> mask[k]
    ensures KeepUnmasked(s, mask) == KeepUnmasked(s[j..], mask[j..])
    decreases j
  {
    if j > 0 {
      assert mask[0];
      KeepMaskedFront(s[1..], mask[1..], j - 1);
      assert s[1..][j - 1..] == s[j..] && mask[1..][j - 1..] == mask[j..];
    }
  }

  /** Whether a comma matches does not depend on the characters before it. */
  lemma CommaBeforeCloseShift(s: string, close: char, off: nat, c: nat)
    requires off <= c < |s|
    ensures CommaBeforeClose(s, close, c) <==> CommaBeforeClose(s[off..], close, c - off)
  {
    assert s[off..][c - off + 1..] == s[c + 1..];
  }

  /** The last non-whitespace position seen from a suffix. */
  lemma {:induction false} LastNonSpaceShift(s: string, off: nat, k: nat)
    requires off <= k < |s|
    ensures LastNonSpace(s[off..], k - off) == if LastNonSpace(s, k) >= off then LastNonSpace(s, k) - off else -1
    decreases k
  {
    assert s[off..][k - off] == s[k];
    if IsSpace(s[k]) && k > off {
      LastNonSpaceShift(s, off, k - 1);
    }
  }

  /** A non-whitespace character at `c` bounds the last non-whitespace position after it from below. */
  lemma {:induction false} LastNonSpaceAtLeast(s: string, c: nat, k: nat)
    requires c <= k < |s| && !IsSpace(s[c])
    ensures LastNonSpace(s, k) >= c
    decreases k
  {
    if k > c && IsSpace(s[k]) {
      LastNonSpaceAtLeast(s, c, k - 1);
    }
  }

  /** One position past a non-whitespace character at `c` that starts no match. */
  lemma DroppedAfter(s: string, close: char, c: nat, k: nat)
    requires c < k < |s| && !IsSpace(s[c]) && !CommaBeforeClose(s, close, c)
    ensures Dropped(s, close, k) <==> Dropped(s[c + 1..], close, k - c - 1)
  {
    LastNonSpaceAtLeast(s, c, k);
    LastNonSpaceShift(s, c + 1, k);
    if LastNonSpace(s, k) > c {
      CommaBeforeCloseShift(s, close, c + 1, LastNonSpace(s, k));
    }
  }

  /** A mask whose entries from `off` on are those of `n` has `n` as its suffix. */
  lemma MaskSuffix(m: seq<bool>, n: seq<bool>, off: nat)
    requires |m| == |n| + off
    requires forall k :: off <= k < |m| ==> m[k] == n[k - off]
    ensures m[off..] == n
  {
    assert forall k :: 0 <= k < |n| ==> m[off..][k] == m[k + off];
  }

  /** Past a non-whitespace character at `c` that starts no match, the drops are those of the suffix after it. */
  lemma DropsAfter(s: string, close: char, c: nat)
    requires c < |s| && !IsSpace(s[c]) && !CommaBeforeClose(s, close, c)
    ensures DropMask(s, close)[c + 1..] == DropMask(s[c + 1..], close)
  {
    var m, n := DropMask(s, close), DropMask(s[c + 1..], close);
    forall k | c + 1 <= k < |s|
      ensures m[k] == n[k - (c + 1)]
    {
      DroppedAfter(s, close, c, k);
    }
    MaskSuffix(m, n, c + 1);
  }

  /** One position past leading whitespace. */
  lemma DroppedAfterSpace(s: string, close: char, k: nat)
    requires 0 < k < |s| && IsSpace(s[0])
    ensures Dropped(s, close, k) <==> Dropped(s[1..], close, k - 1)
  {
    LastNonSpaceShift(s, 1, k);
    if LastNonSpace(s, k) >= 1 {
      CommaBeforeCloseShift(s, close, 1, LastNonSpace(s, k));
    }
  }

  /** Past leading whitespace, the drops are those of the rest. */
  lemma DropsAfterSpace(s: string, close: char)
    requires s != [] && IsSpace(s[0])
    ensures !DropMask(s, close)[0]
    ensures DropMask(s, close)[1..] == DropMask(s[1..], close)
  {
    var m, n := DropMask(s, close), DropMask(s[1..], close);
    forall k | 1 <= k < |s|
      ensures m[k] == n[k - 1]
    {
      DroppedAfterSpace(s, close, k);
    }
    MaskSuffix(m, n, 1);
  }

  /** Only whitespace between a non-whitespace character at 0 and `k`: that character is the last one. */
  lemma {:induction false} LastNonSpaceAtFront(s: string, k: nat)
    requires k < |s| && !IsSpace(s[0])
    requires forall m :: 0 < m < |s| && m <= k ==> IsSpace(s[m])
    ensures LastNonSpace(s, k) == 0
    decreases k
  {
    if k > 0 {
      LastNonSpaceAtFront(s, k - 1);
    }
  }

  /** What `TrimStart` skips after the first character is whitespace. */
  lemma SkippedAfterFront(s: string)
    requires s != []
    ensures var j := |s| - |TrimStart(s[1..])|;
      && 1 <= j <= |s| && TrimStart(s[1..]) == s[j..]
      && forall m :: 0 < m < j ==> IsSpace(s[m])
  {
    var t := s[1..];
    var j := |s| - |TrimStart(t)|;
    assert TrimStart(t) == t[j - 1..];
    assert t[j - 1..] == s[j..];
    forall m | 0 < m < j
      ensures IsSpace(s[m])
    {
      assert t[m - 1] == s[m];
    }
  }

  /** A matching comma at the front drops itself and the whitespace after it, up to the `close` at `j`. */
  lemma MatchDropsRun(s: string, close: char)
    requires s != [] && CommaBeforeClose(s, close, 0)
    ensures var j := |s| - |TrimStart(s[1..])|;
      && 1 <= j < |s| && TrimStart(s[1..]) == s[j..]
      && forall k :: 0 <= k < j ==> DropMask(s, close)[k]
  {
    CloseFollowsTrim(s[1..], close);
    SkippedAfterFront(s);
    var j := |s| - |TrimStart(s[1..])|;
    forall k | 0 <= k < j
      ensures DropMask(s, close)[k]
    {
      LastNonSpaceAtFront(s, k);
    }
  }

  /**
   * Line 34 (and 35 for `]`) position by position: the one left-to-right pass of `re.sub` removes
   * exactly the commas that only whitespace separates from a `close`, with that whitespace, and keeps
   * every other character in order.
   */
  lemma {:induction false} DropCommasPositions(s: string, close: char)
    requires close != ',' && !IsSpace(close)
    ensures DropCommasBefore(s, close) == KeepUnmasked(s, DropMask(s, close))
    decreases |s|
  {
    if s != [] {
      var mask := DropMask(s, close);
      CloseFollowsTrim(s[1..], close);
      if CommaBeforeClose(s, close, 0) {
        MatchDropsRun(s, close);
        var j := |s| - |TrimStart(s[1..])|;
        assert s[j] == close && !mask[j];
        DropsAfter(s, close, j);
        DropCommasPositions(s[j + 1..], close);
        KeepMaskedFront(s, mask, j);
        assert s[j..][1..] == s[j + 1..] && mask[j..][1..] == mask[j + 1..];
        assert TrimStart(s[1..])[1..] == s[j + 1..];
      } else if IsSpace(s[0]) {
        DropsAfterSpace(s, close);
        DropCommasPositions(s[1..], close);
      } else {
        assert !mask[0];
        DropsAfter(s, close, 0);
        DropCommasPositions(s[1..], close);
      }
    }
  }

  /** Which characters go: a comma exactly when it matches, never a character other than a comma or whitespace. */
  lemma DroppedChars(s: string, close: char, k: nat)
    requires close != ',' && !IsSpace(close) && k < |s|
    ensures s[k] == ',' ==> (Dropped(s, close, k) <==> CommaBeforeClose(s, close, k))
    ensures s[k] != ',' && !IsSpace(s[k]) ==> !Dropped(s, close, k)
  {
  }

  /** Lines 34-35 position by position: each pass removes exactly what its mask marks. */
  lemma RepairCommasPositions(c: string)
    ensures var once := KeepUnmasked(c, DropMask(c, '}'));
      RepairCommas(c) == KeepUnmasked(once, DropMask(once, ']'))
  {
    DropCommasPositions(c, '}');
    DropCommasPositions(DropCommasBefore(c, '}'), ']');
  }

  /**
   * The substitution is one pass: in ",,}" only the second comma is followed by the `}`, so the
   * first one stays even though removing the second leaves it in front of the `}`.
   */
  lemma OnePassMask()
    ensures DropMask(",,}", '}') == [false, true, false]
  {
    var s := ",,}";
    assert !IsSpace(s[1]) && !IsSpace(s[2]);
    assert LastNonSpace(s, 0) == 0 && LastNonSpace(s, 1) == 1 && LastNonSpace(s, 2) == 2;
    assert s[1..] == ",}" && s[2..] == "}";
    assert !CloseFollows(s[1..], '}') && CloseFollows(s[2..], '}');
  }

  /** The same one-pass example, through the substitution itself. */
  lemma OnePass()
    ensures DropCommasBefore(",,}", '}') == ",}"
  {
    var s, m := ",,}", [false, true, false];
    OnePassMask();
    DropCommasPositions(s, '}');
    assert s[1..] == ",}" && m[1..] == [true, false];
    assert s[1..][1..] == "}" && m[1..][1..] == [false];
    assert KeepUnmasked("}", [false]) == "}";
    assert KeepUnmasked(",}", [true, false]) == "}";
  }

  /** Both repairs together keep every character other than commas and whitespace. */
  lemma RepairKeepsSignificant(c: string)
    ensures Significant(RepairCommas(c)) == Significant(c)
  {
    DropCommasKeepsSignificant(c, '}');
    DropCommasKeepsSignificant(DropCommasBefore(c, '}'), ']');
  }

  /** A text that begins and ends with something other than whitespace is its own `strip()`. */
  lemma StripFramed(t: string)
    requires t != [] && !IsSpace(t[0]) && !IsSpace(t[|t| - 1])
    ensures Strip(t) == t
  {
  }

  /** The opening fence of "```lang\nrest" goes with its tag and line break. */
  lemma DropOpeningFenceOf(lang: string, rest: string)
    requires forall k :: 0 <= k < |lang| ==> IsAsciiLetter(lang[k])
    ensures DropOpeningFence("```" + lang + "\n" + rest) == rest
  {
    var t := "```" + lang + "\n" + rest;
    assert t[3..] == lang + ("\n" + rest);
    LeadingLettersOf(lang, "\n" + rest);
    assert t[3..][|lang|..] == "\n" + rest;
  }

  /** The closing fence of "body\n```" goes with its line break. */
  lemma DropClosingFenceOf(body: string)
    ensures DropClosingFence(body + "\n```") == body
  {
    var t := body + "\n```";
    assert EndsWith(t, "```");
    assert t[..|t| - 3] == body + "\n";
  }

  /** A reply fenced as "```lang\n...\n```" loses both fences, the language tag and the two line breaks. */
  lemma FencedReply(lang: string, body: string)
    requires forall k :: 0 <= k < |lang| ==> IsAsciiLetter(lang[k])
    ensures Unfenced("```" + lang + "\n" + body + "\n```") == body
  {
    var t := "```" + lang + "\n" + body + "\n```";
    StripFramed(t);
    assert StartsWith(t, "```");
    assert t == "```" + lang + "\n" + (body + "\n```");
    DropOpeningFenceOf(lang, body + "\n```");
    DropClosingFenceOf(body);
  }

  // ------------------------------------------------------------------ market selection and compression

  /** `[x for x in xs if keep(x)]` */
  function Filter<T>(xs: seq<T>, keep: T -> bool): seq<T> {
    if xs == [] then [] else Filter(xs[..|xs| - 1], keep) + (if keep(xs[|xs| - 1]) then [xs[|xs| - 1]] else [])
  }

  /** The filtered list holds exactly the kept elements. */
  lemma {:induction false} FilterMembers<T>(xs: seq<T>, keep: T -> bool)
    ensures forall x :: x in Filter(xs, keep) <==> x in xs && keep(x)
  {
    if xs != [] {
      FilterMembers(xs[..|xs| - 1], keep);
      assert xs == xs[..|xs| - 1] + [xs[|xs| - 1]];
    }
  }

  /** Filtering a concatenation filters each part, in order: the kept elements keep their order. */
  lemma {:induction false} FilterAppend<T>(xs: seq<T>, ys: seq<T>, keep: T -> bool)
    ensures Filter(xs + ys, keep) == Filter(xs, keep) + Filter(ys, keep)
    decreases |ys|
  {
    if ys == [] {
      assert xs + ys == xs;
    } else {
      FilterAppend(xs, ys[..|ys| - 1], keep);
      assert (xs + ys)[..|xs + ys| - 1] == xs + ys[..|ys| - 1];
    }
  }

  /** One market as the prompt shows it. */
  datatype CompressedMarket = CompressedMarket(eventKey: string, question: Json, outcomes: Dict<string, real>)

  function Compressed(m: MarketRecord): CompressedMarket {
    CompressedMarket(m.eventKey, m.marketQuestion, m.outcomes)
  }

  /** `compress_market_data(market_data)` */
  function Compress(records: seq<MarketRecord>): seq<CompressedMarket> {
    seq(|records|, i requires 0 <= i < |records| => Compressed(records[i]))
  }

  /** Lines 96-99: the markets of the selected events, in their original order. */
  function SelectMarkets(records: seq<MarketRecord>, eventKeys: set<string>): seq<MarketRecord> {
    Filter(records, (m: MarketRecord) => m.eventKey in eventKeys)
  }

  /** Lines 86-103: the markets the prompt receives for the selected events. */
  function PromptMarkets(records: seq<MarketRecord>, selected: seq<string>): seq<CompressedMarket> {
    Compress(SelectMarkets(records, set k | k in selected))
  }

  /** Compressing keeps the event key, so it commutes with the selection. */
  lemma {:induction false} CompressCommutes(records: seq<MarketRecord>, eventKeys: set<string>)
    ensures Compress(SelectMarkets(records, eventKeys))
         == Filter(Compress(records), (c: CompressedMarket) => c.eventKey in eventKeys)
  {
    if records != [] {
      var init, last := records[..|records| - 1], records[|records| - 1];
      CompressCommutes(init, eventKeys);
      assert Compress(records)[..|records| - 1] == Compress(init);
      assert Compress(SelectMarkets(records, eventKeys))
          == Compress(SelectMarkets(init, eventKeys)) + (if last.eventKey in eventKeys then [Compressed(last)] else []);
    }
  }

  /**
   * The prompt receives one compressed entry per market of a selected event and nothing else, and
   * the markets of two consecutive parts of the list arrive in that order.
   */
  lemma PromptMarketsSelect(records: seq<MarketRecord>, more: seq<MarketRecord>, selected: seq<string>)
    ensures forall c :: c in PromptMarkets(records, selected) <==>
      exists m :: m in records && m.eventKey in selected && c == Compressed(m)
    ensures PromptMarkets(records + more, selected) == PromptMarkets(records, selected) + PromptMarkets(more, selected)
  {
    PromptMarketsMembers(records, selected);
    PromptMarketsAppend(records, more, selected);
  }

  /** The compressed entries of the prompt are those of the markets of the selected events. */
  lemma PromptMarketsMembers(records: seq<MarketRecord>, selected: seq<string>)
    ensures forall c :: c in PromptMarkets(records, selected) <==>
      exists m :: m in records && m.eventKey in selected && c == Compressed(m)
  {
    var keys := set k | k in selected;
    var keep := (m: MarketRecord) => m.eventKey in keys;
    FilterMembers(records, keep);
    var picked := SelectMarkets(records, keys);
    forall c | c in PromptMarkets(records, selected)
      ensures exists m :: m in records && m.eventKey in selected && c == Compressed(m)
    {
      var i :| 0 <= i < |picked| && Compress(picked)[i] == c;
      assert picked[i] in picked;
    }
    forall c | exists m :: m in records && m.eventKey in selected && c == Compressed(m)
      ensures c in PromptMarkets(records, selected)
    {
      var m :| m in records && m.eventKey in selected && c == Compressed(m);
      assert m in picked;
      var i :| 0 <= i < |picked| && picked[i] == m;
      assert Compress(picked)[i] == c;
    }
  }

  /** The prompt entries of two consecutive parts of the list arrive in that order. */
  lemma PromptMarketsAppend(records: seq<MarketRecord>, more: seq<MarketRecord>, selected: seq<string>)
    ensures PromptMarkets(records + more, selected) == PromptMarkets(records, selected) + PromptMarkets(more, selected)
  {
    var keys := set k | k in selected;
    var keep := (m: MarketRecord) => m.eventKey in keys;
    FilterAppend(records, more, keep);
    var picked := SelectMarkets(records, keys);
    assert Compress(picked + SelectMarkets(more, keys)) == Compress(picked) + Compress(SelectMarkets(more, keys));
  }

  // ------------------------------------------------------------------ enforce_asset_keys

  /** `{c.lower() for c in companies}` */
  function Allowed(companies: seq<string>): set<string> {
    set c | c in companies :: Lower(c)
  }

  /** The dict comprehension of lines 61-64. */
  function FilterOutlook(outlook: map<string, Json>, companies: seq<string>): map<string, Json> {
    map k | k in outlook && Lower(k) in Allowed(companies) :: outlook[k]
  }

  /** `parsed_output.get(k, {})` */
  function FieldOrEmpty(fields: map<string, Json>, k: string): Json {
    if k in fields then fields[k] else Obj(map[])
  }

  /** The report after `enforce_asset_keys`, or the AttributeError `.items()` raises on a non-dict outlook. */
  function AssetKeys(fields: map<string, Json>, companies: seq<string>): Result<map<string, Json>, Exception> {
    match FieldOrEmpty(fields, "asset_outlook")
    case Obj(outlook) => Ok(fields["asset_outlook" := Obj(FilterOutlook(outlook, companies))])
    case v => Err(Exception(AttributeError, "'" + TypeName(v) + "' object has no attribute 'items'"))
  }

  /**
   * `enforce_asset_keys(parsed_output, companies)`, which overwrites `asset_outlook` in the caller's
   * dict; on the exception nothing has been written.
   */
  method EnforceAssetKeys(report: JsonObject, companies: seq<string>) returns (error: Option<Exception>)
    modifies report
    ensures match AssetKeys(old(report.fields), companies)
      case Ok(fields) => error.None? && report.fields == fields
      case Err(e) => error == Some(e) && report.fields == old(report.fields)
  {
    var outlook := FieldOrEmpty(report.fields, "asset_outlook");
    if !outlook.Obj? {
      return Some(Exception(AttributeError, "'" + TypeName(outlook) + "' object has no attribute 'items'"));
    }
    var allowed := Allowed(companies);
    report.fields := report.fields["asset_outlook" := Obj(map k | k in outlook.fields && Lower(k) in allowed :: outlook.fields[k])];
    return None;
  }

  /**
   * The outlook keeps an entry exactly when its lower-cased key is a lower-cased company, with its
   * value unchanged; the other keys of the report are untouched and a missing outlook becomes `{}`.
   */
  lemma AssetKeysKeeps(fields: map<string, Json>, companies: seq<string>)
    requires AssetKeys(fields, companies).Ok?
    ensures var r := AssetKeys(fields, companies).value;
      var before := FieldOrEmpty(fields, "asset_outlook").fields;
      && r.Keys == fields.Keys + {"asset_outlook"}
      && (forall k :: k in fields && k != "asset_outlook" ==> r[k] == fields[k])
      && r["asset_outlook"].Obj?
      && ("asset_outlook" !in fields ==> r["asset_outlook"] == Obj(map[]))
      && (forall k :: k in r["asset_outlook"].fields <==> k in before && exists c :: c in companies && Lower(k) == Lower(c))
      && (forall k :: k in r["asset_outlook"].fields ==> r["asset_outlook"].fields[k] == before[k])
  {
    var before := FieldOrEmpty(fields, "asset_outlook").fields;
    forall k | k in before && Lower(k) in Allowed(companies)
      ensures exists c :: c in companies && Lower(k) == Lower(c)
    {
      var c :| c in companies && Lower(c) == Lower(k);
    }
  }

  /** Enforcing the asset keys twice is enforcing them once. */
  lemma AssetKeysIdempotent(fields: map<string, Json>, companies: seq<string>)
    requires AssetKeys(fields, companies).Ok?
    ensures AssetKeys(AssetKeys(fields, companies).value, companies) == AssetKeys(fields, companies)
  {
    var r := AssetKeys(fields, companies).value;
    var o := r["asset_outlook"].fields;
    assert FieldOrEmpty(r, "asset_outlook") == Obj(o);
    assert FilterOutlook(o, companies) == o;
    assert r["asset_outlook" := Obj(o)] == r;
  }

  // ------------------------------------------------------------------ enforce_recession_guardrails

  /** A report after a step that changes it in place, and the exception that ended the step, if any. */
  datatype Step = Step(fields: map<string, Json>, error: Option<Exception>)

  /** `v.get(k)`: only dicts have `get`. */
  function GetOn(v: Json, k: string): Result<Json, Exception> {
    match v
    case Obj(m) => Ok(Field(m, k))
    case _ => Err(Exception(AttributeError, "'" + TypeName(v) + "' object has no attribute 'get'"))
  }

  /** `v > 0.6` */
  function AboveThreshold(v: Json): Result<bool, Exception> {
    match v
    case Bool(b) => Ok(b)
    case Int(i) => Ok(i as real > 0.6)
    case Float(f) => Ok(f > 0.6)
    case _ => Err(Exception(TypeError, "'>' not supported between instances of '" + TypeName(v) + "' and 'float'"))
  }

  /** The number a JSON number or boolean stands for. */
  function Number(v: Json): real
    requires v.Bool? || v.Int? || v.Float?
  {
    match v
    case Bool(b) => if b then 1.0 else 0.0
    case Int(i) => i as real
    case Float(f) => f
  }

  /** `min(v, 60)`: `v`, unless `60 < v`. */
  function CapAt60(v: Json): (r: Result<Json, Exception>)
    ensures r.Ok? <==> v.Bool? || v.Int? || v.Float?
    ensures r.Ok? ==> (r.value == v || r.value == Int(60)) && Number(r.value) <= 60.0
    ensures r.Ok? ==> (Number(v) <= 60.0 <==> r.value == v)
  {
    match v
    case Bool(_) => Ok(v)
    case Int(i) => Ok(if 60 < i then Int(60) else v)
    case Float(f) => Ok(if 60.0 < f then Int(60) else v)
    case _ => Err(Exception(TypeError, "'<' not supported between instances of 'int' and '" + TypeName(v) + "'"))
  }

  /** `target[k] = v`: a dict takes it; a list wants an integer index; other values take no assignment. */
  function SetOn(target: Json, k: string, v: Json): Result<Json, Exception> {
    match target
    case Obj(m) => Ok(Obj(m[k := v]))
    case Arr(_) => Err(Exception(TypeError, "list indices must be integers or slices, not str"))
    case _ => Err(Exception(TypeError, "'" + TypeName(target) + "' object does not support item assignment"))
  }

  /** A nested dict after the writes of one rule, and the exception that stopped the rule, if any. */
  datatype Written = Written(value: Json, error: Option<Exception>)

  /** Lines 278-284: the probability is read, and is present and above 0.6. */
  predicate Fires(fields: map<string, Json>) {
    var p := GetOn(FieldOrEmpty(fields, "crowd_signals"), "recession_probability");
    p.Ok? && p.value != Null && AboveThreshold(p.value) == Ok(true)
  }

  /** Lines 286-291 on the sentiment dict: no "Bullish" label, and a score of at most 60. */
  function SentimentRule(sentiment: Json): Written {
    match GetOn(sentiment, "label")
    case Err(e) => Written(sentiment, Some(e))
    case Ok(shown) =>
      var s1 := if shown == Str("Bullish") then sentiment.fields["label" := Str("Neutral")] else sentiment.fields;
      if "score" !in s1 then Written(Obj(s1), None)
      else
        match CapAt60(s1["score"])
        case Err(e) => Written(Obj(s1), Some(e))
        case Ok(v) => Written(Obj(s1["score" := v]), None)
  }

  /** Line 294 on the regime dict. */
  function RegimeRule(regime: Json): Written {
    match SetOn(regime, "risk", Str("Risk-Off"))
    case Err(e) => Written(regime, Some(e))
    case Ok(r) => Written(r, None)
  }

  /** Puts a rule's dict back into the report; a default `{}` the report does not hold is detached. */
  function WriteBack(fields: map<string, Json>, k: string, w: Written): map<string, Json> {
    if k in fields then fields[k := w.value] else fields
  }

  /**
   * `enforce_recession_guardrails(output)`, step by step: an exception part-way leaves the writes
   * made before it in place.
   */
  function Guardrail(fields: map<string, Json>): Step {
    match GetOn(FieldOrEmpty(fields, "crowd_signals"), "recession_probability")
    case Err(e) => Step(fields, Some(e))
    case Ok(p) =>
      if p == Null then Step(fields, None)
      else
        match AboveThreshold(p)
        case Err(e) => Step(fields, Some(e))
        case Ok(above) =>
          if !above then Step(fields, None)
          else
            var sw := SentimentRule(FieldOrEmpty(fields, "market_sentiment"));
            var f1 := WriteBack(fields, "market_sentiment", sw);
            if sw.error.Some? then Step(f1, sw.error)
            else
              var rw := RegimeRule(FieldOrEmpty(fields, "market_regime"));
              Step(WriteBack(f1, "market_regime", rw), if "market_regime" in fields then rw.error else None)
  }

  /**
   * Lines 286-291: relabels and caps the `market_sentiment` dict in place; the `{}` default for a
   * missing key is a detached dict, so writes to it do not reach the report.
   */
  method ApplySentimentRule(report: JsonObject) returns (error: Option<Exception>)
    modifies report
    ensures var w := SentimentRule(FieldOrEmpty(old(report.fields), "market_sentiment"));
      report.fields == WriteBack(old(report.fields), "market_sentiment", w) && error == w.error
  {
    var sentiment := FieldOrEmpty(report.fields, "market_sentiment");
    var attached := "market_sentiment" in report.fields;
    var shown := GetOn(sentiment, "label");
    if shown.Err? {
      return Some(shown.error);
    }
    if shown.value == Str("Bullish") {
      sentiment := Obj(sentiment.fields["label" := Str("Neutral")]);
      if attached {
        report.fields := report.fields["market_sentiment" := sentiment];
      }
    }
    if "score" in sentiment.fields {
      var capped := CapAt60(sentiment.fields["score"]);
      if capped.Err? {
        return Some(capped.error);
      }
      sentiment := Obj(sentiment.fields["score" := capped.value]);
      if attached {
        report.fields := report.fields["market_sentiment" := sentiment];
      }
    }
    return None;
  }

  /** `enforce_recession_guardrails(output)`, writing into the nested dicts of the report. */
  method EnforceRecessionGuardrails(report: JsonObject) returns (error: Option<Exception>)
    modifies report
    ensures report.fields == Guardrail(old(report.fields)).fields
    ensures error == Guardrail(old(report.fields)).error
  {
    var crowd := FieldOrEmpty(report.fields, "crowd_signals");
    var regime := FieldOrEmpty(report.fields, "market_regime");
    var probability := GetOn(crowd, "recession_probability");
    if probability.Err? {
      return Some(probability.error);
    }
    if probability.value == Null {
      return None;
    }
    var above := AboveThreshold(probability.value);
    if above.Err? {
      return Some(above.error);
    }
    if !above.value {
      return None;
    }
    error := ApplySentimentRule(report);
    if error.Some? {
      return;
    }
    var risk := SetOn(regime, "risk", Str("Risk-Off"));
    if risk.Err? {
      return Some(risk.error);
    }
    if "market_regime" in report.fields {
      report.fields := report.fields["market_regime" := risk.value];
    }
    return None;
  }

  /** The guardrail writes only `market_sentiment` and `market_regime`, and adds no key. */
  lemma GuardrailFrame(fields: map<string, Json>)
    ensures Guardrail(fields).fields.Keys == fields.Keys
    ensures forall k :: k in fields && k != "market_sentiment" && k != "market_regime" ==>
      Guardrail(fields).fields[k] == fields[k]
  {
  }

  /** Unless the probability is present and above 0.6, the report is left as it is. */
  lemma GuardrailInert(fields: map<string, Json>)
    requires !Fires(fields)
    ensures Guardrail(fields).fields == fields
    ensures var p := GetOn(FieldOrEmpty(fields, "crowd_signals"), "recession_probability");
      Guardrail(fields).error.Some? <==> p.Err? || (p.value != Null && AboveThreshold(p.value).Err?)
  {
  }

  /** The sentiment rule on a dict: "Bullish" becomes "Neutral", other labels stay, a score is capped at 60. */
  lemma SentimentRuleOnDict(sentiment: map<string, Json>)
    requires "score" in sentiment ==> sentiment["score"].Bool? || sentiment["score"].Int? || sentiment["score"].Float?
    ensures var w := SentimentRule(Obj(sentiment));
      && w.error.None? && w.value.Obj?
      && w.value.fields.Keys == sentiment.Keys + (if Field(sentiment, "label") == Str("Bullish") then {"label"} else {})
      && Field(w.value.fields, "label") == (if Field(sentiment, "label") == Str("Bullish") then Str("Neutral") else Field(sentiment, "label"))
      && ("score" in sentiment ==> w.value.fields["score"] == CapAt60(sentiment["score"]).value)
      && (forall k :: k in sentiment && k != "label" && k != "score" ==> w.value.fields[k] == sentiment[k])
  {
  }

  /** The sentiment rule changes nothing the second time. */
  lemma SentimentRuleIdempotent(sentiment: Json)
    requires SentimentRule(sentiment).error.None?
    ensures SentimentRule(SentimentRule(sentiment).value) == Written(SentimentRule(sentiment).value, None)
  {
    var s := SentimentRule(sentiment).value.fields;
    assert Field(s, "label") != Str("Bullish");
    if "score" in s {
      assert CapAt60(s["score"]) == Ok(s["score"]);
      assert s["score" := s["score"]] == s;
    }
  }

  /**
   * When it fires on a report whose nested values are dicts and whose score is a number, the
   * guardrail raises nothing, applies the sentiment rule, and sets the risk of an existing
   * `market_regime` to "Risk-Off" (a missing one stays missing).
   */
  lemma GuardrailFires(fields: map<string, Json>)
    requires Fires(fields)
    requires "market_sentiment" in fields ==> fields["market_sentiment"].Obj?
    requires "market_regime" in fields ==> fields["market_regime"].Obj?
    requires var s := FieldOrEmpty(fields, "market_sentiment").fields;
      "score" in s ==> s["score"].Bool? || s["score"].Int? || s["score"].Float?
    ensures Guardrail(fields).error.None?
    ensures var g := Guardrail(fields).fields;
      && FieldOrEmpty(g, "market_sentiment") == SentimentRule(FieldOrEmpty(fields, "market_sentiment")).value
      && ("market_regime" in fields ==> g["market_regime"] == Obj(fields["market_regime"].fields["risk" := Str("Risk-Off")]))
      && ("market_regime" !in fields ==> "market_regime" !in g)
  {
    SentimentRuleOnDict(FieldOrEmpty(fields, "market_sentiment").fields);
  }

  /** Applying the guardrail again to a report it went through without raising changes nothing. */
  lemma GuardrailIdempotent(fields: map<string, Json>)
    requires Guardrail(fields).error.None?
    ensures Guardrail(Guardrail(fields).fields) == Guardrail(fields)
  {
    if Fires(fields) {
      var sentiment := FieldOrEmpty(fields, "market_sentiment");
      var sw := SentimentRule(sentiment);
      var f1 := WriteBack(fields, "market_sentiment", sw);
      var rw := RegimeRule(FieldOrEmpty(fields, "market_regime"));
      var g := WriteBack(f1, "market_regime", rw);
      assert Guardrail(fields).fields == g;
      assert FieldOrEmpty(g, "crowd_signals") == FieldOrEmpty(fields, "crowd_signals");
      assert Fires(g);
      SentimentRuleIdempotent(sentiment);
      assert FieldOrEmpty(g, "market_sentiment") == sw.value;
      assert WriteBack(g, "market_sentiment", sw) == g;
      if "market_regime" in fields {
        assert FieldOrEmpty(g, "market_regime") == rw.value;
        assert RegimeRule(rw.value) == rw;
      }
    }
  }

  // ---------------------------------------------------------------------------------------------
  // Lines 257-271 of `run_engine`: parse, filter, guard, or the error object instead of raising
  // ---------------------------------------------------------------------------------------------

  /** The `error` value of the fallback object. */
  const ParseFailed: string := "LLM_OUTPUT_PARSE_FAILED"

  /** `s[:n]`: the prefix of `s` of length `min(len(s), n)`. */
  function Head(s: string, n: nat): (r: string)
    ensures r <= s
    ensures |r| == if |s| <= n then |s| else n
  {
    if |s| <= n then s else s[..n]
  }

  /**
   * The three steps of the `try` block on the reply `raw` (None when the client returned no
   * content): the report, or the first exception raised.
   */
  function Processed(raw: Option<string>, companies: seq<string>, decode: Decoder): Result<map<string, Json>, Exception> {
    match raw
    case None => Err(Exception(AttributeError, "'NoneType' object has no attribute 'strip'"))
    case Some(text) =>
      match ExtractJson(text, decode)
      case Err(e) => Err(e)
      case Ok(parsed) =>
        if !parsed.Obj? then Err(Exception(AttributeError, "'" + TypeName(parsed) + "' object has no attribute 'get'"))
        else
          match AssetKeys(parsed.fields, companies)
          case Err(e) => Err(e)
          case Ok(filtered) =>
            var g := Guardrail(filtered);
            if g.error.Some? then Err(g.error.value) else Ok(g.fields)
  }

  /** The object of lines 265-269 for the exception `e`. */
  function ErrorObject(e: Exception, raw: Option<string>): map<string, Json> {
    map[
      "error" := Str(ParseFailed),
      "message" := Str(e.message),
      "raw_output" := Str(match raw case Some(text) => Head(text, 1500) case None => "None")]
  }

  /** What lines 257-271 leave in `parsed_output`. */
  function PostProcess(raw: Option<string>, companies: seq<string>, decode: Decoder): map<string, Json> {
    match Processed(raw, companies, decode)
    case Ok(report) => report
    case Err(e) => ErrorObject(e, raw)
  }

  /** Lines 257-271, with the dict of the reply filtered and guarded in place. */
  method RunPostProcessing(raw: Option<string>, companies: seq<string>, decode: Decoder) returns (output: JsonObject)
    ensures output.fields == PostProcess(raw, companies, decode)
  {
    if raw.None? {
      output := new JsonObject(ErrorObject(Exception(AttributeError, "'NoneType' object has no attribute 'strip'"), raw));
      return;
    }
    var parsed := ExtractJson(raw.value, decode);
    if parsed.Err? {
      output := new JsonObject(ErrorObject(parsed.error, raw));
      return;
    }
    if !parsed.value.Obj? {
      var e := Exception(AttributeError, "'" + TypeName(parsed.value) + "' object has no attribute 'get'");
      output := new JsonObject(ErrorObject(e, raw));
      return;
    }
    output := new JsonObject(parsed.value.fields);
    var error := EnforceAssetKeys(output, companies);
    if error.None? {
      error := EnforceRecessionGuardrails(output);
    }
    if error.Some? {
      output := new JsonObject(ErrorObject(error.value, raw));
    }
  }

  /**
   * On any exception the result is the three-key error object: its message is the exception's
   * text and its `raw_output` the first 1500 characters of the reply, or "None" without one.
   */
  lemma PostProcessFailure(raw: Option<string>, companies: seq<string>, decode: Decoder)
    requires Processed(raw, companies, decode).Err?
    ensures var out := PostProcess(raw, companies, decode);
      && out.Keys == {"error", "message", "raw_output"}
      && out["error"] == Str(ParseFailed)
      && out["message"] == Str(Processed(raw, companies, decode).error.message)
      && out["raw_output"].Str?
      && (raw.Some? ==> out["raw_output"].s <= raw.value)
      && (raw.Some? && |raw.value| <= 1500 ==> out["raw_output"] == Str(raw.value))
      && (raw.Some? && |raw.value| > 1500 ==> out["raw_output"] == Str(raw.value[..1500]))
      && (raw.None? ==> out["raw_output"] == Str("None"))
  {
  }

  /** A reply without a `{` followed later by a `}` ends in the error object with ValueError's text. */
  lemma PostProcessNoObject(text: string, companies: seq<string>, decode: Decoder)
    requires !exists i, j :: 0 <= i < j < |Unfenced(text)| && Unfenced(text)[i] == '{' && Unfenced(text)[j] == '}'
    ensures PostProcess(Some(text), companies, decode)["error"] == Str(ParseFailed)
    ensures PostProcess(Some(text), companies, decode)["message"] == Str("No JSON object found")
  {
    var e := Exception(ValueError, "No JSON object found");
    assert Candidate(text) == Err(e);
    assert ExtractJson(text, decode) == Err(e);
    assert Processed(Some(text), companies, decode) == Err(e);
    assert PostProcess(Some(text), companies, decode) == ErrorObject(e, Some(text));
  }

  /** The guardrail keeps a filtered outlook, so filtering again changes nothing. */
  lemma FilterThenGuardrail(fields: map<string, Json>, companies: seq<string>)
    requires AssetKeys(fields, companies).Ok?
    requires Guardrail(AssetKeys(fields, companies).value).error.None?
    ensures var report := Guardrail(AssetKeys(fields, companies).value).fields;
      && "asset_outlook" in report
      && report["asset_outlook"] == AssetKeys(fields, companies).value["asset_outlook"]
      && AssetKeys(report, companies) == Ok(report)
  {
    var filtered := AssetKeys(fields, companies).value;
    var report := Guardrail(filtered).fields;
    AssetKeysIdempotent(fields, companies);
    GuardrailFrame(filtered);
    assert report["asset_outlook"] == filtered["asset_outlook"];
    assert FieldOrEmpty(report, "asset_outlook") == FieldOrEmpty(filtered, "asset_outlook");
    var o := filtered["asset_outlook"].fields;
    assert FilterOutlook(o, companies) == o;
    assert AssetKeys(report, companies) == Ok(report["asset_outlook" := Obj(o)]);
    assert report["asset_outlook" := Obj(o)] == report;
  }

  /**
   * A report that comes through is a fixed point of both steps: its outlook holds only requested
   * companies, because the filter runs before the guardrail and the guardrail leaves the outlook alone.
   */
  lemma PostProcessStable(raw: Option<string>, companies: seq<string>, decode: Decoder)
    requires Processed(raw, companies, decode).Ok?
    ensures var report := Processed(raw, companies, decode).value;
      && "asset_outlook" in report && report["asset_outlook"].Obj?
      && (forall k :: k in report["asset_outlook"].fields ==> exists c :: c in companies && Lower(k) == Lower(c))
      && AssetKeys(report, companies) == Ok(report)
      && Guardrail(report) == Step(report, None)
  {
    var parsed := ExtractJson(raw.value, decode).value;
    var filtered := AssetKeys(parsed.fields, companies).value;
    assert Processed(raw, companies, decode).value == Guardrail(filtered).fields;
    AssetKeysKeeps(parsed.fields, companies);
    FilterThenGuardrail(parsed.fields, companies);
    GuardrailIdempotent(filtered);
  }
}
