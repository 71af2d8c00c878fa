/** The report generator of `stock_analyzer.py`: the constructor's key check,
    the hour-dependent context of the intraday prompt, the stock schema text,
    and the steps by which `_call` turns the model's reply into the text handed
    to the JSON parser. The remote call and the JSON parser themselves are
    parameters. */
module Analyzer {
  import opened Wrappers
  import opened Text

  // ---------------------------------------------------------------------------
  // Construction
  // ---------------------------------------------------------------------------

  const ModelName := "claude-opus-4-5"
  const MissingKeyError := "ANTHROPIC_API_KEY environment variable not set"

  datatype StockAnalyzer = StockAnalyzer(apiKey: string, model: string)

  /** The constructor: an absent or empty `ANTHROPIC_API_KEY` raises. */
  function NewAnalyzer(apiKey: Option<string>): (r: Result<StockAnalyzer, string>)
    ensures r.Success? <==> apiKey.Some? && apiKey.value != ""
    ensures r.Success? ==> r.value.apiKey == apiKey.value && r.value.model == ModelName
    ensures r.Failure? ==> r.error == MissingKeyError
  {
    if apiKey.None? || apiKey.value == "" then Failure(MissingKeyError)
    else Success(StockAnalyzer(apiKey.value, ModelName))
  }

  /** The seven public report operations, each one prompt. */
  datatype Request =
    | MarketOpen
    | Intraday(hour: int)
    | Closing
    | Adhoc(hour: int)
    | PreOpen
    | NextDay
    | Weekend

  // ---------------------------------------------------------------------------
  // Prompt pieces that are logic rather than fixed text
  // ---------------------------------------------------------------------------

  const MorningContext := "morning session (first hour complete). Look for opening range breakouts and gap fill trades."
  const MidMorningContext := "mid-morning. Momentum established. Look for trend continuation and sector leaders."
  const NoonContext := "approaching noon. Pre-lunch positioning. Watch for reversal signals."
  const PostLunchContext := "post-lunch. Institutional activity picks up. Look for accumulation patterns."
  const AfternoonContext := "a" + "fternoon. F&O expiry awareness. Look for high-volume breakouts."
  const PreCloseContext := "pre-close setup. Last 1.5 hours. Strong momentum trades with tight stops."

  /** The context dictionary of `intraday_prompt`, duplicate key 14 included. */
  function IntradayContext(hour: int): string {
    var context := map[
      10 := MorningContext,
      11 := MidMorningContext,
      12 := NoonContext,
      13 := PostLunchContext,
      14 := AfternoonContext,
      14 := PreCloseContext];
    if hour in context then context[hour]
    else "current " + IntToString(hour) + ":00 session."
  }

  /** Which context each hour receives: the later of the two entries for 14 wins,
      and the earlier one is never chosen. */
  lemma IntradayContextChoice(hour: int)
    ensures hour == 10 ==> IntradayContext(hour) == MorningContext
    ensures hour == 11 ==> IntradayContext(hour) == MidMorningContext
    ensures hour == 12 ==> IntradayContext(hour) == NoonContext
    ensures hour == 13 ==> IntradayContext(hour) == PostLunchContext
    ensures hour == 14 ==> IntradayContext(hour) == PreCloseContext
    ensures !(10 <= hour <= 14) ==>
      IntradayContext(hour) == "current " + IntToString(hour) + ":00 session."
    ensures IntradayContext(hour) != AfternoonContext
  {
    if !(10 <= hour <= 14) {
      assert IntradayContext(hour)[0] == 'c';
    }
  }

  const SchemaHead := "Array of exactly "
  const SchemaMiddle := " " + Join([
    "stock objects:",
    "{",
    "  \"symbol\": \"NSE symbol (e.g. RELIANCE)\",",
    "  \"exchange\": \"NSE or BSE\",",
    "  \"sector\": \"sector name\",",
    "  \"reason\": \"2-sentence catalyst + technical setup\",",
    "  \"entry_low\": number,",
    "  \"entry_high\": number,",
    "  \"target\": number,",
    "  \"stop_loss\": number,",
    "  \"upside\": number (percentage),",
    "  \"risk_reward\": \"1:2 or better\",",
    "  \"holding_period\": \""], "\n")
  const SchemaTail := "\"\n}"

  /** `_json_schema_stocks(n, hold)`. */
  function StockSchema(n: int, hold: string): (r: string)
    ensures |r| == |SchemaHead| + |IntToString(n)| + |SchemaMiddle| + |hold| + |SchemaTail|
    ensures r[..|SchemaHead|] == SchemaHead
    ensures r[|SchemaHead|..][..|IntToString(n)|] == IntToString(n)
  {
    SchemaHead + (IntToString(n) + (SchemaMiddle + (hold + SchemaTail)))
  }

  /** The schema text determines both the array size and the holding period it was built from. */
  lemma StockSchemaInjective(n1: int, hold1: string, n2: int, hold2: string)
    requires StockSchema(n1, hold1) == StockSchema(n2, hold2)
    ensures n1 == n2 && hold1 == hold2
  {
    var x1 := SchemaMiddle + (hold1 + SchemaTail);
    var x2 := SchemaMiddle + (hold2 + SchemaTail);
    assert IntToString(n1) + x1 == StockSchema(n1, hold1)[|SchemaHead|..];
    assert IntToString(n2) + x2 == StockSchema(n2, hold2)[|SchemaHead|..];
    IntToStringPrefixUnique(n1, x1, n2, x2);
    assert hold1 + SchemaTail == x1[|SchemaMiddle|..];
    assert hold2 + SchemaTail == x2[|SchemaMiddle|..];
    assert hold1 == (hold1 + SchemaTail)[..|hold1|];
    assert hold2 == (hold2 + SchemaTail)[..|hold2|];
  }

  const IntradayPromptTail := Join([
    "",
    "",
    "Search for: current Nifty 50 level, top NSE gainers/volume leaders right now,",
    "intraday breakout stocks, MACD crossovers on 15-min charts, RSI extremes.",
    "",
    "Return this JSON:",
    "{",
    "  \"sentiment\": \"Bullish | Bearish | Neutral\",",
    "  \"theme\": \"current intraday theme\",",
    "  \"nifty_level\": \"current Nifty level\",",
    "  \"nifty_support\": \"intraday support\",",
    "  \"nifty_resistance\": \"intraday resistance\",",
    "  \"stocks\": " + StockSchema(3, "Intraday only") + ",",
    "  \"sectors_to_watch\": [\"sector1\", \"sector2\"],",
    "  \"avoid_sectors\": [],",
    "  \"disclaimer\": \"Educational purposes only. Not SEBI registered. DYOR.\"",
    "}"], "\n")

  const PromptOpening := "It is currently "
  const PromptHourSuffix := ":" + "00 IST. Market context: "

  /** What follows the hour: the rest of the opening line, the context, the fixed request. */
  function PromptRest(hour: int): (r: string)
    ensures |r| > 0 && r[0] == ':'
  {
    PromptHourSuffix + (IntradayContext(hour) + IntradayPromptTail)
  }

  /** `intraday_prompt(hour)`: the hour, then the context for that hour, then the fixed request. */
  function IntradayPrompt(hour: int): (r: string)
    ensures |r| == |PromptOpening| + |IntToString(hour)| + |PromptRest(hour)|
    ensures r[..|PromptOpening|] == PromptOpening
    ensures r[|PromptOpening|..][..|IntToString(hour)|] == IntToString(hour)
  {
    PromptOpening + (IntToString(hour) + PromptRest(hour))
  }

  /** The prompt names the hour it was built for: distinct hours give distinct prompts. */
  lemma IntradayPromptInjective(h1: int, h2: int)
    requires IntradayPrompt(h1) == IntradayPrompt(h2)
    ensures h1 == h2
  {
    var x1 := PromptRest(h1);
    var x2 := PromptRest(h2);
    assert IntToString(h1) + x1 == IntradayPrompt(h1)[|PromptOpening|..];
    assert IntToString(h2) + x2 == IntradayPrompt(h2)[|PromptOpening|..];
    IntToStringPrefixUnique(h1, x1, h2, x2);
  }

  // ---------------------------------------------------------------------------
  // Turning the reply into a JSON candidate
  // ---------------------------------------------------------------------------

  /** One content block of the reply: its `type` and, for text blocks, its `text`. */
  datatype ContentBlock = ContentBlock(kind: string, text: string)

  /** `"".join(block.text for block in content if block.type == "text")`. */
  function TextOf(content: seq<ContentBlock>): string
    decreases |content|
  {
    if content == [] then ""
    else (if content[0].kind == "text" then content[0].text else "") + TextOf(content[1..])
  }

  /** The joined text of two runs of blocks is the joined text of the first, then of the second. */
  lemma {:induction false} TextOfAppend(a: seq<ContentBlock>, b: seq<ContentBlock>)
    ensures TextOf(a + b) == TextOf(a) + TextOf(b)
    decreases |a|
  {
    if a == [] {
      assert a + b == b;
    } else {
      var head := if a[0].kind == "text" then a[0].text else "";
      assert (a + b)[0] == a[0] && (a + b)[1..] == a[1..] + b;
      assert TextOf(a + b) == head + TextOf(a[1..] + b);
      TextOfAppend(a[1..], b);
      assert head + (TextOf(a[1..]) + TextOf(b)) == (head + TextOf(a[1..])) + TextOf(b);
    }
  }

  /** A block that is not a text block (a tool call, a search result) adds nothing. */
  lemma TextOfIgnoresOthers(a: seq<ContentBlock>, other: ContentBlock, b: seq<ContentBlock>)
    requires other.kind != "text"
    ensures TextOf(a + [other] + b) == TextOf(a + b)
  {
    TextOfAppend(a + [other], b);
    TextOfAppend(a, [other]);
    TextOfAppend(a, b);
    assert TextOf([other]) == "" by { assert [other][1..] == []; }
  }

  /** A text block contributes its text, in its place. */
  lemma TextOfTextBlock(a: seq<ContentBlock>, t: string, b: seq<ContentBlock>)
    ensures TextOf(a + [ContentBlock("text", t)] + b) == TextOf(a) + t + TextOf(b)
  {
    var block := ContentBlock("text", t);
    TextOfAppend(a + [block], b);
    TextOfAppend(a, [block]);
    assert TextOf([block]) == t by { assert [block][1..] == []; }
  }

  const JsonFence := "```json"
  const Fence := "```"

  /** `s.split(sep, 1)[1]`: what follows the first occurrence of `sep`. */
  function AfterFirst(s: string, sep: string): (r: string)
    requires Contains(s, sep)
    ensures |r| <= |s|
  {
    s[Find(s, sep) + |sep|..]
  }

  /** `s.split(sep)[0]`: what precedes the first occurrence of `sep`, or all of `s`. */
  function BeforeFirst(s: string, sep: string): (r: string)
    ensures Contains(s, sep) ==> r == s[..Find(s, sep)]
    ensures !Contains(s, sep) ==> r == s
  {
    if Contains(s, sep) then s[..Find(s, sep)] else s
  }

  /** What precedes the first separator contains no separator. */
  lemma BeforeFirstAbsent(s: string, sep: string)
    requires sep != []
    ensures !Contains(BeforeFirst(s, sep), sep)
  {
    if Contains(s, sep) {
      BeforeFindAbsent(s, sep);
    }
  }

  /** The text between fence `fence` and the next closing fence, stripped. */
  function Unfenced(s: string, fence: string): string
    requires Contains(s, fence)
  {
    Strip(BeforeFirst(AfterFirst(s, fence), Fence))
  }

  /** The fence step of `_call`: the first of "```json" and "```" present is removed
      together with everything outside it. */
  function StripFences(s: string): (r: string)
  {
    if Contains(s, JsonFence) then Unfenced(s, JsonFence)
    else if Contains(s, Fence) then Unfenced(s, Fence)
    else s
  }

  /** After the fence step no fence is left, and text without a fence passes through unchanged. */
  lemma StripFencesShape(s: string)
    ensures !Contains(StripFences(s), Fence)
    ensures !Contains(s, Fence) ==> StripFences(s) == s
  {
    if Contains(s, JsonFence) {
      ContainsPrefix(s, JsonFence, Fence);
    }
    if Contains(s, JsonFence) || Contains(s, Fence) {
      var fence := if Contains(s, JsonFence) then JsonFence else Fence;
      var inner := BeforeFirst(AfterFirst(s, fence), Fence);
      BeforeFirstAbsent(AfterFirst(s, fence), Fence);
      var i, j := StripSlice(inner);
      NotContainsSlice(inner, Fence, i, j);
    }
  }

  /** The fence "```json" takes priority: when it is present the text after it is used,
      even if a bare fence occurs earlier. */
  lemma JsonFenceFirst(s: string)
    requires Contains(s, JsonFence)
    ensures StripFences(s) == Strip(BeforeFirst(s[Find(s, JsonFence) + |JsonFence|..], Fence))
  {
    assert StripFences(s) == Unfenced(s, JsonFence);
    assert AfterFirst(s, JsonFence) == s[Find(s, JsonFence) + |JsonFence|..];
  }

  /** Without "```json" the first bare fence is used: the result is the stripped text
      between it and the next fence. */
  lemma BareFence(s: string)
    requires !Contains(s, JsonFence) && Contains(s, Fence)
    ensures StripFences(s) == Strip(BeforeFirst(s[Find(s, Fence) + |Fence|..], Fence))
  {
    assert StripFences(s) == Unfenced(s, Fence);
    assert AfterFirst(s, Fence) == s[Find(s, Fence) + |Fence|..];
  }

  /** The brace step of `_call`: from the first `{` to the last `}` inclusive, when that is a
      non-empty range; otherwise the text unchanged. */
  function OutermostObject(s: string): (r: string)
    ensures var start := FirstIndexOf(s, '{');
            var end := LastIndexOf(s, '}') + 1;
            if start != -1 && end > start then r == s[start..end] else r == s
  {
    var start := FirstIndexOf(s, '{');
    var end := LastIndexOf(s, '}') + 1;
    if start != -1 && end > start then s[start..end] else s
  }

  /** When the slice is taken it opens with `{` and closes with `}`. */
  lemma OutermostObjectShape(s: string)
    ensures var r := OutermostObject(s);
            r != s ==> |r| >= 1 && r[0] == '{' && r[|r| - 1] == '}'
  {
    var start := FirstIndexOf(s, '{');
    var end := LastIndexOf(s, '}') + 1;
    if start != -1 && end > start {
      var r := s[start..end];
      assert r[0] == s[start] && r[|r| - 1] == s[end - 1];
    }
  }

  /** A `{` anywhere before a `}` means the slice is taken: at least two characters, from
      a `{` to a `}`. */
  lemma OutermostObjectFound(s: string, i: nat, j: nat)
    requires i < j < |s| && s[i] == '{' && s[j] == '}'
    ensures var r := OutermostObject(s); |r| >= 2 && r[0] == '{' && r[|r| - 1] == '}'
  {
    var start := FirstIndexOf(s, '{');
    var end := LastIndexOf(s, '}') + 1;
    assert start != -1 && start <= i;
    assert end - 1 >= j;
    var r := s[start..end];
    assert r[0] == s[start] && r[|r| - 1] == s[end - 1];
  }

  /** Taking the outermost object twice is taking it once. */
  lemma OutermostObjectIdempotent(s: string)
    ensures OutermostObject(OutermostObject(s)) == OutermostObject(s)
  {
    var start := FirstIndexOf(s, '{');
    var end := LastIndexOf(s, '}') + 1;
    if start != -1 && end > start {
      var r := s[start..end];
      assert r[0] == '{';
      assert r[|r| - 1] == '}';
      assert FirstIndexOf(r, '{') == 0;
      assert LastIndexOf(r, '}') == |r| - 1;
    }
  }

  /** The full text handed to the JSON parser. */
  function Candidate(content: seq<ContentBlock>): string {
    OutermostObject(StripFences(Strip(TextOf(content))))
  }

  /** The fence loop of `_call`: the first fence of the list found in `text` decides, and the
      loop stops at it. */
  method StripFirstFence(text: string) returns (out: string)
    ensures out == StripFences(text)
  {
    out := text;
    var fences := [JsonFence, Fence];
    var k := 0;
    while k < |fences|
      invariant 0 <= k <= |fences|
      invariant out == text
      invariant k >= 1 ==> !Contains(text, JsonFence)
      invariant k >= 2 ==> !Contains(text, Fence)
    {
      var fence := fences[k];
      if Contains(out, fence) {
        out := Strip(BeforeFirst(AfterFirst(out, fence), Fence));
        assert out == Unfenced(text, fence);
        break;
      }
      k := k + 1;
    }
  }

  /** The brace slice of `_call`: from the first `{` through the last `}` when both exist in
      that order, otherwise the text unchanged. */
  method SliceObject(text: string) returns (out: string)
    ensures out == OutermostObject(text)
  {
    out := text;
    var start := FirstIndexOf(text, '{');
    var end := LastIndexOf(text, '}') + 1;
    if start != -1 && end > start {
      out := text[start..end];
    }
  }

  const InvalidJsonPrefix := "Claude returned invalid JSON: "

  /** The body of `_call` once the reply is in: join, strip, unfence, slice, parse.
      `reply` fails when the remote call raises, and that error propagates unchanged;
      a parser failure is re-raised with the invalid-JSON prefix. */
  method Call<T>(reply: Result<seq<ContentBlock>, string>, parse: string -> Result<T, string>)
    returns (r: Result<T, string>)
    ensures reply.Failure? ==> r == Failure(reply.error)
    ensures reply.Success? ==>
      match parse(Candidate(reply.value))
      case Success(v) => r == Success(v)
      case Failure(e) => r == Failure(InvalidJsonPrefix + e)
  {
    if reply.Failure? {
      return Failure(reply.error);
    }
    var text := Strip(TextOf(reply.value));
    ghost var joined := text;
    text := StripFirstFence(text);
    text := SliceObject(text);
    assert Candidate(reply.value) == OutermostObject(StripFences(joined));
    match parse(text)
    case Success(v) => r := Success(v);
    case Failure(e) => r := Failure(InvalidJsonPrefix + e);
  }
}
